/** The helpers of mixorama/util.py: timeouts against a clock, a
    dictionary that builds missing entries from their key, a running
    maximum, and the enum-backed database field. */
module Util {
  import opened Core

  // ---------------------------------------------------------------------
  // make_timeout
  // ---------------------------------------------------------------------

  /** The closure `make_timeout(delay_ms)` returns: the clock reading taken
      when it was made and the delay, both in milliseconds. */
  datatype Timeout = Timeout(start: int, delayMs: int)

  function MakeTimeout(delayMs: int, now: int): Timeout {
    Timeout(now, delayMs)
  }

  /** `time_is_out()` at clock reading `now`: strictly past start + delay. */
  predicate TimeIsOut(t: Timeout, now: int) {
    now > t.start + t.delayMs
  }

  /** Once out, a timeout stays out for every later reading; a fresh one
      with a non-negative delay is not out yet. */
  lemma TimeoutMonotone(t: Timeout, now: int, later: int)
    requires now <= later
    ensures TimeIsOut(t, now) ==> TimeIsOut(t, later)
    ensures t.delayMs >= 0 ==> !TimeIsOut(MakeTimeout(t.delayMs, now), now)
  {
  }

  // ---------------------------------------------------------------------
  // DefaultFactoryDict
  // ---------------------------------------------------------------------

  /** A dictionary whose factory, if any, builds the value of a missing key
      from the key itself. `factoryCalls` counts the factory's calls. */
  class DefaultFactoryDict<K(==), V> {
    const factory: Option<K -> V>
    var items: map<K, V>
    ghost var factoryCalls: nat

    constructor (factory: Option<K -> V>)
      ensures this.factory == factory && items == map[] && factoryCalls == 0
    {
      this.factory := factory;
      items := map[];
      factoryCalls := 0;
    }

    /** `__missing__(key)`: KeyError without a factory; otherwise stores
        `factory(key)` under `key` and returns it. */
    method Missing(key: K) returns (r: Result<V>)
      modifies this
      ensures factory.None? ==> r == Err(KeyError) && items == old(items) && factoryCalls == old(factoryCalls)
      ensures factory.Some? ==>
        && r == Ok(factory.value(key))
        && items == old(items)[key := factory.value(key)]
        && factoryCalls == old(factoryCalls) + 1
    {
      if factory.None? {
        return Err(KeyError);
      }
      var value := factory.value(key);
      items := items[key := value];
      factoryCalls := factoryCalls + 1;
      r := Ok(value);
    }

    /** `self[key]`: the stored value, or `__missing__(key)`. */
    method Get(key: K) returns (r: Result<V>)
      modifies this
      ensures key in old(items) ==> r == Ok(old(items)[key]) && items == old(items) && factoryCalls == old(factoryCalls)
      ensures key !in old(items) && factory.None? ==>
        r == Err(KeyError) && items == old(items) && factoryCalls == old(factoryCalls)
      ensures key !in old(items) && factory.Some? ==>
        && r == Ok(factory.value(key))
        && items == old(items)[key := factory.value(key)]
        && factoryCalls == old(factoryCalls) + 1
    {
      if key in items {
        return Ok(items[key]);
      }
      r := Missing(key);
    }

    /** `self[key] = value`. */
    method Set(key: K, value: V)
      modifies this`items
      ensures items == old(items)[key := value]
    {
      items := items[key := value];
    }
  }

  /** A miss stores the built value, so looking the key up again returns the
      same value and does not call the factory a second time. */
  method LookupTwice<K(==), V>(d: DefaultFactoryDict<K, V>, key: K) returns (first: Result<V>, second: Result<V>)
    requires d.factory.Some?
    modifies d
    ensures first == second && first.Ok?
    ensures key in d.items && d.items[key] == first.value
    ensures d.factoryCalls == old(d.factoryCalls) + (if key in old(d.items) then 0 else 1)
    ensures forall k :: k in old(d.items) && k != key ==> k in d.items && d.items[k] == old(d.items)[k]
  {
    first := d.Get(key);
    second := d.Get(key);
  }

  // ---------------------------------------------------------------------
  // MaxObserver
  // ---------------------------------------------------------------------

  function Max(a: real, b: real): real {
    if a >= b then a else b
  }

  /** The maximum of `m` and every element of `xs`, folded left to right. */
  function RunningMax(m: real, xs: seq<real>): real
    decreases |xs|
  {
    if xs == [] then m else RunningMax(Max(m, xs[0]), xs[1..])
  }

  /** The running maximum bounds its start and every element, and is one of
      them. */
  lemma {:induction false} RunningMaxIsMaximum(m: real, xs: seq<real>)
    ensures RunningMax(m, xs) >= m
    ensures forall i :: 0 <= i < |xs| ==> RunningMax(m, xs) >= xs[i]
    ensures RunningMax(m, xs) == m || exists i :: 0 <= i < |xs| && RunningMax(m, xs) == xs[i]
    decreases |xs|
  {
    if xs != [] {
      RunningMaxIsMaximum(Max(m, xs[0]), xs[1..]);
      assert forall i :: 1 <= i < |xs| ==> xs[i] == xs[1..][i - 1];
      if RunningMax(m, xs) != Max(m, xs[0]) {
        var j :| 0 <= j < |xs[1..]| && RunningMax(Max(m, xs[0]), xs[1..]) == xs[1..][j];
        assert RunningMax(m, xs) == xs[j + 1];
      }
    }
  }

  lemma {:induction false} RunningMaxAppend(m: real, xs: seq<real>, x: real)
    ensures RunningMax(m, xs + [x]) == Max(RunningMax(m, xs), x)
    decreases |xs|
  {
    if xs == [] {
      assert [] + [x] == [x];
    } else {
      assert (xs + [x])[1..] == xs[1..] + [x];
      RunningMaxAppend(Max(m, xs[0]), xs[1..], x);
    }
  }

  /** An observer of a quantity: `value` starts at 0 (the class attribute)
      and is the maximum of 0 and every value observed. */
  class MaxObserver {
    var value: real
    ghost var observed: seq<real>

    ghost predicate Valid()
      reads this
    {
      value == RunningMax(0.0, observed)
    }

    constructor ()
      ensures Valid() && value == 0.0 && observed == []
    {
      value := 0.0;
      observed := [];
    }

    /** `observe(observing)`: keeps the larger value and returns True. */
    method Observe(observing: real) returns (r: bool)
      requires Valid()
      modifies this
      ensures Valid() && r
      ensures observed == old(observed) + [observing]
      ensures value == Max(old(value), observing) && value >= old(value)
    {
      RunningMaxAppend(0.0, observed, observing);
      value := Max(value, observing);
      observed := observed + [observing];
      r := true;
    }
  }

  // ---------------------------------------------------------------------
  // EnumField
  // ---------------------------------------------------------------------

  /** A member of a Python enum: its name and its value (None or a string). */
  datatype EnumMember = EnumMember(name: string, value: Option<string>)

  /** What the field's `enum` setter is given: an enum class (its canonical
      members, in definition order) or any iterable of values. */
  datatype EnumArg =
    | EnumClassArg(className: string, members: seq<EnumMember>)
    | ValueList(items: seq<Option<string>>)

  /** What the field stores: the enum class, or the values as a set. */
  datatype EnumSource =
    | EnumClass(className: string, members: seq<EnumMember>)
    | ValueSet(values: set<Option<string>>)

  /** What is handed to `db_value` or returned by `python_value`: a member
      of some enum class, or a plain value. */
  datatype FieldValue = MemberOf(className: string, member: EnumMember) | RawValue(value: Option<string>)

  /** The `enum` setter: an enum is kept, anything else becomes a set. */
  function StoredEnum(arg: EnumArg): (e: EnumSource)
    ensures arg.EnumClassArg? <==> e.EnumClass?
    ensures arg.ValueList? ==> forall v :: v in e.values <==> v in arg.items
  {
    match arg
    case EnumClassArg(c, ms) => EnumClass(c, ms)
    case ValueList(items) => ValueSet(set v | v in items)
  }

  /** Python iterates an enum without its aliases, so its members have
      distinct values. */
  predicate WellFormedEnum(e: EnumSource) {
    e.EnumClass? ==>
      forall i, j :: 0 <= i < j < |e.members| ==> e.members[i].value != e.members[j].value
  }

  /** The values of an enum's members, in order. */
  function MemberValues(ms: seq<EnumMember>): (vs: seq<Option<string>>)
    ensures |vs| == |ms|
    ensures forall i :: 0 <= i < |ms| ==> vs[i] == ms[i].value
  {
    if ms == [] then [] else [ms[0].value] + MemberValues(ms[1..])
  }

  /** `values`: what the field can hold in the database. */
  function Values(e: EnumSource): set<Option<string>> {
    match e
    case EnumClass(_, ms) => set v | v in MemberValues(ms)
    case ValueSet(vs) => vs
  }

  /** `db_value(value)`: a member of the field's enum gives its value; a
      plain value passes when it is one of `values`; anything else is an
      InvalidEnumerationValue (including a member of another enum). */
  function DbValue(e: EnumSource, v: FieldValue): Result<Option<string>> {
    match v
    case MemberOf(c, m) =>
      if e.EnumClass? && c == e.className && m in e.members then Ok(m.value)
      else Err(InvalidEnumerationValue)
    case RawValue(x) =>
      if x in Values(e) then Ok(x) else Err(InvalidEnumerationValue)
  }

  /** The first member whose value is `x`. */
  function FirstWithValue(ms: seq<EnumMember>, x: Option<string>): (r: Option<EnumMember>)
    ensures r.Some? ==> r.value in ms && r.value.value == x
  {
    if ms == [] then None
    else if ms[0].value == x then Some(ms[0])
    else FirstWithValue(ms[1..], x)
  }

  /** `python_value(value)`: for an enum, the first member with that value;
      for a set, the value itself when it is in the set;
      InvalidEnumerationValue otherwise. */
  function PythonValue(e: EnumSource, x: Option<string>): Result<FieldValue> {
    match e
    case EnumClass(c, ms) =>
      var m := FirstWithValue(ms, x);
      if m.Some? then Ok(MemberOf(c, m.value)) else Err(InvalidEnumerationValue)
    case ValueSet(vs) =>
      if x in vs then Ok(RawValue(x)) else Err(InvalidEnumerationValue)
  }

  /** `null`: whether any value is None. */
  function Null(e: EnumSource): bool {
    match e
    case EnumClass(_, ms) => AnyNone(ms)
    case ValueSet(vs) => None in vs
  }

  function AnyNone(ms: seq<EnumMember>): bool {
    ms != [] && (ms[0].value.None? || AnyNone(ms[1..]))
  }

  /** The strings among the values. */
  function Texts(e: EnumSource): set<string> {
    set v | v in Values(e) && v.Some? :: v.value
  }

  /** `max_length`: the longest string value; `max()` of nothing is a
      ValueError. */
  ghost function MaxLength(e: EnumSource): (r: Result<nat>)
    ensures r.Err? <==> Texts(e) == {}
    ensures r.Err? ==> r.error == ValueError
    ensures r.Ok? ==> (exists s :: s in Texts(e) && |s| == r.value) && forall s :: s in Texts(e) ==> |s| <= r.value
  {
    if Texts(e) == {} then Err(ValueError) else Ok(LongestLength(Texts(e)))
  }

  ghost function LongestLength(ss: set<string>): (n: nat)
    requires ss != {}
    ensures exists s :: s in ss && |s| == n
    ensures forall s :: s in ss ==> |s| <= n
    decreases |ss|
  {
    var s :| s in ss;
    if ss == {s} then |s|
    else
      var rest := LongestLength(ss - {s});
      if |s| >= rest then |s| else rest
  }

  /** For every value of the field, `db_value` accepts it exactly when it is
      a member of the field's enum or one of `values`. */
  lemma DbValueAccepts(e: EnumSource, v: FieldValue)
    ensures DbValue(e, v).Ok? <==>
      (v.MemberOf? && e.EnumClass? && v.className == e.className && v.member in e.members)
      || (v.RawValue? && v.value in Values(e))
    ensures DbValue(e, v).Err? ==> DbValue(e, v).error == InvalidEnumerationValue
    ensures DbValue(e, v).Ok? ==> DbValue(e, v).value in Values(e)
  {
    if v.MemberOf? && DbValue(e, v).Ok? {
      var i :| 0 <= i < |e.members| && e.members[i] == v.member;
      assert MemberValues(e.members)[i] == v.member.value;
    }
  }

  lemma {:induction false} FirstWithValueIsUnique(ms: seq<EnumMember>, i: nat)
    requires i < |ms|
    requires forall a, b :: 0 <= a < b < |ms| ==> ms[a].value != ms[b].value
    ensures FirstWithValue(ms, ms[i].value) == Some(ms[i])
  {
    if i > 0 {
      assert ms[0].value != ms[i].value;
      FirstWithValueIsUnique(ms[1..], i - 1);
    }
  }

  lemma {:induction false} FirstWithValueFinds(ms: seq<EnumMember>, x: Option<string>)
    ensures FirstWithValue(ms, x).Some? <==> x in MemberValues(ms)
  {
    if ms != [] {
      FirstWithValueFinds(ms[1..], x);
      assert MemberValues(ms) == [ms[0].value] + MemberValues(ms[1..]);
    }
  }

  /** For an enum-backed field, `python_value(db_value(m)) == m` for every
      member, and `db_value(python_value(x)) == x` for every value. */
  lemma EnumRoundTrip(e: EnumSource, m: EnumMember, x: Option<string>)
    requires e.EnumClass? && WellFormedEnum(e)
    ensures m in e.members ==>
      DbValue(e, MemberOf(e.className, m)) == Ok(m.value) &&
      PythonValue(e, m.value) == Ok(MemberOf(e.className, m))
    ensures x in Values(e) ==>
      PythonValue(e, x).Ok? && DbValue(e, PythonValue(e, x).value) == Ok(x)
    ensures x !in Values(e) ==> PythonValue(e, x) == Err(InvalidEnumerationValue)
  {
    if m in e.members {
      var i :| 0 <= i < |e.members| && e.members[i] == m;
      FirstWithValueIsUnique(e.members, i);
    }
    FirstWithValueFinds(e.members, x);
  }

  /** For a set-backed field both directions are the identity on `values`,
      and anything else is rejected. */
  lemma ValueSetRoundTrip(e: EnumSource, x: Option<string>)
    requires e.ValueSet?
    ensures x in e.values ==> PythonValue(e, x) == Ok(RawValue(x)) && DbValue(e, RawValue(x)) == Ok(x)
    ensures x !in e.values ==> PythonValue(e, x) == Err(InvalidEnumerationValue) && DbValue(e, RawValue(x)).Err?
  {
  }

  /** `null` holds exactly when None is one of `values`. */
  lemma {:induction false} NullIffNoneValue(e: EnumSource)
    ensures Null(e) <==> None in Values(e)
  {
    if e.EnumClass? {
      AnyNoneIff(e.members);
    }
  }

  lemma {:induction false} AnyNoneIff(ms: seq<EnumMember>)
    ensures AnyNone(ms) <==> None in MemberValues(ms)
  {
    if ms != [] {
      AnyNoneIff(ms[1..]);
      assert MemberValues(ms) == [ms[0].value] + MemberValues(ms[1..]);
    }
  }

  /** A field built from values that repeat one stores the same set as
      without the repeat. */
  lemma DuplicateValuesCollapse(items: seq<Option<string>>, x: Option<string>)
    requires x in items
    ensures StoredEnum(ValueList(items + [x])) == StoredEnum(ValueList(items))
  {
    var a := StoredEnum(ValueList(items + [x])).values;
    var b := StoredEnum(ValueList(items)).values;
    assert forall v :: v in a <==> v in b;
  }

  /** The field: what its `enum` setter stored. */
  class EnumField {
    var source: EnumSource

    /** `EnumField(enum, ...)`: `max_length` and `null` arguments are ignored. */
    constructor (arg: EnumArg)
      ensures source == StoredEnum(arg)
    {
      source := StoredEnum(arg);
    }

    /** The `enum` setter. */
    method SetEnum(arg: EnumArg)
      modifies this
      ensures source == StoredEnum(arg)
    {
      source := StoredEnum(arg);
    }
  }
}
