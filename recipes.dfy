/** Components and recipes of mixorama/recipes.py: a recipe is an ordered
    sequence of (component, volume in ml) pairs, and its volume, weight and
    strength are sums over that sequence. */
module Recipes {
  import opened Core

  /** The class defaults `Component.name` and `Recipe.name`. */
  const DefaultComponentName: string := "Weird Ingridient"
  const DefaultRecipeName: string := "Mystery Booze"

  /** A component: its name, its density (grams per ml) and its strength (ABV, %). */
  datatype Component = Component(name: string, density: real, strength: real)

  /** One step of a recipe: a component and its volume in ml. */
  type Pair = (Component, int)

  /** A recipe: its name, its pairs in pouring order, and the remaining
      keyword attributes set on it (image, description, ...). */
  datatype Recipe = Recipe(name: string, sequence: seq<Pair>, attributes: map<string, string>)

  /** Python truthiness of an optional string: absent and "" are false. */
  predicate Given(s: Option<string>) {
    s.Some? && s.value != ""
  }

  /** `Component(name=None, density=1, strength=0)`: a falsy name keeps the class default. */
  function NewComponent(name: Option<string>, density: Option<real>, strength: Option<real>): Component {
    Component(
      if Given(name) then name.value else DefaultComponentName,
      if density.Some? then density.value else 1.0,
      if strength.Some? then strength.value else 0.0)
  }

  /** `Recipe(name=None, sequence=None, **meta)`: a missing or empty sequence
      becomes empty, a falsy name keeps the class default. */
  function NewRecipe(name: Option<string>, sequence: Option<seq<Pair>>, meta: map<string, string>): Recipe {
    Recipe(
      if Given(name) then name.value else DefaultRecipeName,
      if sequence.Some? then sequence.value else [],
      meta)
  }

  lemma ConstructorDefaults(n: string, ps: seq<Pair>, meta: map<string, string>)
    ensures NewComponent(None, None, None) == Component(DefaultComponentName, 1.0, 0.0)
    ensures NewComponent(Some(""), None, None).name == DefaultComponentName
    ensures n != "" ==> NewComponent(Some(n), None, None).name == n
    ensures NewRecipe(None, None, meta) == Recipe(DefaultRecipeName, [], meta)
    ensures n != "" ==> NewRecipe(Some(n), Some(ps), meta) == Recipe(n, ps, meta)
  {
  }

  // ---------------------------------------------------------------------
  // Volume, weight, strength
  // ---------------------------------------------------------------------

  /** `volume()`: the sum of the pair volumes. */
  function Volume(ps: seq<Pair>): int {
    if ps == [] then 0 else Volume(ps[..|ps| - 1]) + ps[|ps| - 1].1
  }

  /** `weight()`: the sum of volume times density. */
  function Weight(ps: seq<Pair>): real {
    if ps == [] then 0.0 else Weight(ps[..|ps| - 1]) + ps[|ps| - 1].1 as real * ps[|ps| - 1].0.density
  }

  /** The numerator of `strength()`: the sum of volume times strength. */
  function AlcoholVolume(ps: seq<Pair>): real {
    if ps == [] then 0.0 else AlcoholVolume(ps[..|ps| - 1]) + ps[|ps| - 1].1 as real * ps[|ps| - 1].0.strength
  }

  /** `strength()`: the volume-weighted average strength; ZeroDivisionError
      when the total volume is 0. */
  function Strength(ps: seq<Pair>): Result<real> {
    if Volume(ps) == 0 then Err(ZeroDivisionError)
    else Ok(AlcoholVolume(ps) / Volume(ps) as real)
  }

  /** The volume of a concatenation is the sum of the volumes; the empty
      sequence has volume 0. */
  lemma {:induction false} VolumeAppend(a: seq<Pair>, b: seq<Pair>)
    ensures Volume(a + b) == Volume(a) + Volume(b)
    ensures Volume([]) == 0
    decreases |b|
  {
    if b != [] {
      VolumeAppend(a, b[..|b| - 1]);
      assert (a + b)[..|a + b| - 1] == a + b[..|b| - 1];
    } else {
      assert a + b == a;
    }
  }

  /** With positive volumes every pair adds at least 1 ml, so a recipe's
      volume is at least its number of pairs, and positive when it has any. */
  lemma {:induction false} PositiveVolumesBound(ps: seq<Pair>)
    requires forall i :: 0 <= i < |ps| ==> ps[i].1 > 0
    ensures Volume(ps) >= |ps|
    ensures ps != [] ==> Volume(ps) > 0
  {
    if ps != [] {
      PositiveVolumesBound(ps[..|ps| - 1]);
    }
  }

  /** Every component with the default density 1: the weight is the volume. */
  lemma {:induction false} DefaultDensityWeight(ps: seq<Pair>)
    requires forall i :: 0 <= i < |ps| ==> ps[i].0.density == 1.0
    ensures Weight(ps) == Volume(ps) as real
  {
    if ps != [] {
      DefaultDensityWeight(ps[..|ps| - 1]);
    }
  }

  /** The alcohol volume lies between `lo` and `hi` times the total volume
      when every strength lies between `lo` and `hi` and volumes are positive. */
  lemma {:induction false} AlcoholVolumeBounds(ps: seq<Pair>, lo: real, hi: real)
    requires forall i :: 0 <= i < |ps| ==> ps[i].1 > 0 && lo <= ps[i].0.strength <= hi
    ensures lo * Volume(ps) as real <= AlcoholVolume(ps) <= hi * Volume(ps) as real
  {
    if ps != [] {
      var init, last := ps[..|ps| - 1], ps[|ps| - 1];
      assert forall i :: 0 <= i < |init| ==> init[i] == ps[i];
      AlcoholVolumeBounds(init, lo, hi);
      var v, s := last.1 as real, last.0.strength;
      assert AlcoholVolume(ps) == AlcoholVolume(init) + v * s;
      assert Volume(ps) as real == Volume(init) as real + v;
      AddBounds(Volume(init) as real, AlcoholVolume(init), v, s, lo, hi);
    }
  }

  lemma AddBounds(total: real, alcohol: real, v: real, s: real, lo: real, hi: real)
    requires lo * total <= alcohol <= hi * total
    requires v > 0.0 && lo <= s <= hi
    ensures lo * (total + v) <= alcohol + v * s <= hi * (total + v)
  {
    assert lo * v <= v * s <= hi * v;
  }

  lemma QuotientBounds(a: real, v: real, lo: real, hi: real)
    requires v > 0.0 && lo * v <= a <= hi * v
    ensures lo <= a / v <= hi
  {
  }

  /** With positive volumes the strength is defined and lies between the
      smallest and the largest component strength. */
  lemma StrengthWithinComponents(ps: seq<Pair>, lo: real, hi: real)
    requires ps != []
    requires forall i :: 0 <= i < |ps| ==> ps[i].1 > 0 && lo <= ps[i].0.strength <= hi
    ensures Strength(ps).Ok?
    ensures lo <= Strength(ps).value <= hi
  {
    PositiveVolumesBound(ps);
    AlcoholVolumeBounds(ps, lo, hi);
    QuotientBounds(AlcoholVolume(ps), Volume(ps) as real, lo, hi);
  }

  /** Every strength the default 0: the strength is 0 whenever it is defined. */
  lemma NonAlcoholicStrength(ps: seq<Pair>)
    requires forall i :: 0 <= i < |ps| ==> ps[i].0.strength == 0.0
    ensures Volume(ps) != 0 ==> Strength(ps) == Ok(0.0)
    ensures Volume(ps) == 0 ==> Strength(ps) == Err(ZeroDivisionError)
  {
    NoAlcohol(ps);
  }

  lemma {:induction false} NoAlcohol(ps: seq<Pair>)
    requires forall i :: 0 <= i < |ps| ==> ps[i].0.strength == 0.0
    ensures AlcoholVolume(ps) == 0.0
  {
    if ps != [] {
      NoAlcohol(ps[..|ps| - 1]);
    }
  }

  // ---------------------------------------------------------------------
  // Rendering
  // ---------------------------------------------------------------------

  function DigitChar(d: nat): char
    requires d < 10
  {
    "0123456789"[d]
  }

  /** `'{}'.format(n)` for an int: its decimal digits, with '-' when negative. */
  function IntToString(n: int): (s: string)
    ensures s != []
    ensures forall c :: c in s ==> c in "-0123456789"
    decreases if n < 0 then 1 - n else n
  {
    if n < 0 then "-" + IntToString(-n)
    else if n < 10 then [DigitChar(n)]
    else IntToString(n / 10) + [DigitChar(n % 10)]
  }

  /** One line of `__str__`: "{v} ml of {name}". */
  function Line(p: Pair): string {
    IntToString(p.1) + " ml of " + p.0.name
  }

  function Lines(ps: seq<Pair>): (ls: seq<string>)
    ensures |ls| == |ps|
    ensures forall i :: 0 <= i < |ps| ==> ls[i] == Line(ps[i])
  {
    if ps == [] then [] else [Line(ps[0])] + Lines(ps[1..])
  }

  /** `"\n".join(lines)`. */
  function Join(ls: seq<string>): string {
    if ls == [] then ""
    else if |ls| == 1 then ls[0]
    else ls[0] + "\n" + Join(ls[1..])
  }

  /** `__str__`: one line per pair, joined by newlines. */
  function RecipeString(r: Recipe): string {
    Join(Lines(r.sequence))
  }

  /** `str.split("\n")`: the pieces between newlines ("" gives [""]). */
  function Split(s: string): (pieces: seq<string>)
    ensures |pieces| >= 1
  {
    if s == [] then [""]
    else
      var rest := Split(s[1..]);
      if s[0] == '\n' then [""] + rest
      else [[s[0]] + rest[0]] + rest[1..]
  }

  lemma {:induction false} SplitNoNewline(a: string)
    requires '\n' !in a
    ensures Split(a) == [a]
  {
    if a != [] {
      SplitNoNewline(a[1..]);
      assert [a[0]] + a[1..] == a;
    }
  }

  lemma {:induction false} SplitAtNewline(a: string, b: string)
    requires '\n' !in a
    ensures Split(a + "\n" + b) == [a] + Split(b)
  {
    if a == [] {
      assert a + "\n" + b == "\n" + b;
      assert ("\n" + b)[1..] == b;
    } else {
      SplitAtNewline(a[1..], b);
      assert (a + "\n" + b)[1..] == a[1..] + "\n" + b;
      assert [a[0]] + a[1..] == a;
    }
  }

  /** Splitting a join of newline-free lines gives the lines back. */
  lemma {:induction false} SplitJoin(ls: seq<string>)
    requires ls != []
    requires forall i :: 0 <= i < |ls| ==> '\n' !in ls[i]
    ensures Split(Join(ls)) == ls
  {
    if |ls| == 1 {
      SplitNoNewline(ls[0]);
    } else {
      SplitJoin(ls[1..]);
      SplitAtNewline(ls[0], Join(ls[1..]));
      assert [ls[0]] + ls[1..] == ls;
    }
  }

  /** A recipe whose component names hold no newline renders as exactly one
      "{v} ml of {name}" line per pair, in order. */
  lemma RecipeStringLines(r: Recipe)
    requires r.sequence != []
    requires forall i :: 0 <= i < |r.sequence| ==> '\n' !in r.sequence[i].0.name
    ensures Split(RecipeString(r)) == Lines(r.sequence)
    ensures forall i :: 0 <= i < |r.sequence| ==> Split(RecipeString(r))[i] == Line(r.sequence[i])
  {
    var ls := Lines(r.sequence);
    forall i | 0 <= i < |ls| ensures '\n' !in ls[i] {
      var p := r.sequence[i];
      assert ls[i] == IntToString(p.1) + " ml of " + p.0.name;
      assert '\n' !in IntToString(p.1);
    }
    SplitJoin(ls);
  }

  /** The empty recipe renders as the empty string. */
  lemma EmptyRecipeString(name: string, meta: map<string, string>)
    ensures RecipeString(Recipe(name, [], meta)) == ""
  {
  }
}
