/** The generic transition guard (`sm_transition`) and the subscriber
    registry (`StateMachineCallbacks`) of mixorama/statemachine.py. */
module StateMachine {
  import opened Core

  // ---------------------------------------------------------------------
  // Decoration parameters
  // ---------------------------------------------------------------------

  /** `allowed_from` as written at a decoration site: one state, or a list or tuple. */
  datatype AllowedFrom = One(state: State) | Several(states: seq<State>)

  /** The parameters of one `sm_transition` decoration once normalised. */
  datatype Transition = Transition(
    allowedFrom: seq<State>,
    whenDone: State,
    whileWorking: Option<State>,
    onException: State)

  /** `sm_transition(allowed_from, when_done, while_working, on_exception)`:
      a single state becomes a one-element list, a missing `on_exception`
      becomes `CoreStates.EXCEPTION`. */
  function SmTransition(allowedFrom: AllowedFrom, whenDone: State,
                        whileWorking: Option<State>, onException: Option<State>): Transition
  {
    Transition(
      if allowedFrom.One? then [allowedFrom.state] else allowedFrom.states,
      whenDone,
      whileWorking,
      if onException.Some? then onException.value else EXCEPTION)
  }

  /** The guard: the current state is allowed, or it is `CoreStates.ALL`. */
  predicate Permits(t: Transition, current: State) {
    current in t.allowedFrom || current == ALL
  }

  /** `getattr(self, '_sm_state', CoreStates.UNDEFINED)`. */
  function StateOrUndefined(current: Option<State>): State {
    if current.Some? then current.value else UNDEFINED
  }

  lemma SingleAllowedState(s: State, whenDone: State, ww: Option<State>, oe: Option<State>, current: State)
    ensures Permits(SmTransition(One(s), whenDone, ww, oe), current) <==> current == s || current == ALL
    ensures SmTransition(One(s), whenDone, ww, oe).allowedFrom == [s]
  {
  }

  lemma DefaultExceptionState(a: AllowedFrom, whenDone: State, ww: Option<State>)
    ensures SmTransition(a, whenDone, ww, None).onException == EXCEPTION
  {
  }

  lemma MissingStateReadsUndefined(t: Transition)
    ensures Permits(t, StateOrUndefined(None)) <==> UNDEFINED in t.allowedFrom
  {
  }

  // ---------------------------------------------------------------------
  // Callbacks and their keyword arguments
  // ---------------------------------------------------------------------

  /** A value that can travel in a transition context. */
  datatype Value =
    | NoneValue
    | BoolValue(b: bool)
    | Text(text: string)
    | StateValue(state: State)
    | ObjectValue(id: nat)
    | ErrorValue(error: Error)
    | Positional(items: seq<Value>)

  /** Keyword arguments, by name. */
  type Context = map<string, Value>

  /** A subscribed callable: its identity, the names of its positional
      parameters (`co_varnames[:co_argcount]`, `self` included when it is a
      bound method), and the exception calling it raises, if any. */
  datatype Callback = Callback(id: nat, params: seq<string>, raises: Option<Error>)

  /** One call of a callback with the keyword arguments it was given. */
  datatype Invocation = Invocation(callback: Callback, kwargs: Context)

  /** `function_args`: the parameter names other than `self`, in order. */
  function FunctionArgs(params: seq<string>): (names: seq<string>)
    ensures forall k :: k in names <==> k in params && k != "self"
    ensures |names| <= |params|
  {
    if params == [] then []
    else (if params[0] == "self" then [] else [params[0]]) + FunctionArgs(params[1..])
  }

  /** The comprehension at line 87: the context keys the callback declares. */
  function CallbackKwargs(cb: Callback, all: Context): (kw: Context)
    ensures forall k :: k in kw <==> k in cb.params && k != "self" && k in all
    ensures forall k :: k in kw ==> kw[k] == all[k]
  {
    map k | k in FunctionArgs(cb.params) && k in all :: all[k]
  }

  /** The context built at lines 73-74: the four base keys, overridden by
      the caller's keyword arguments. */
  function BaseContext(target: nat, tostate: State, fromstate: State,
                       args: seq<Value>, kwargs: Context): Context
  {
    map["target" := ObjectValue(target), "tostate" := StateValue(tostate),
        "fromstate" := StateValue(fromstate), "args" := Positional(args)] + kwargs
  }

  /** A callback receives exactly the keys it declares that the context
      holds; a caller keyword wins over a base key of the same name. */
  lemma CallbackSeesDeclaredKeys(cb: Callback, target: nat, tostate: State, fromstate: State,
                                 args: seq<Value>, kwargs: Context, k: string)
    ensures var kw := CallbackKwargs(cb, BaseContext(target, tostate, fromstate, args, kwargs));
      && (k in kw <==> k in cb.params && k != "self" &&
                       (k in kwargs || k in {"target", "tostate", "fromstate", "args"}))
      && (k in kw && k in kwargs ==> kw[k] == kwargs[k])
      && (k in kw && k !in kwargs && k == "fromstate" ==> kw[k] == StateValue(fromstate))
      && (k in kw && k !in kwargs && k == "tostate" ==> kw[k] == StateValue(tostate))
  {
  }

  /** `_notify_callback`: the calls made when notifying `cbs` in order; the
      first callback that raises ends the loop with its exception. */
  function Deliver(cbs: seq<Callback>, ctx: Context): (r: (seq<Invocation>, Option<Error>))
    ensures |r.0| <= |cbs|
  {
    if cbs == [] then ([], None)
    else
      var call := Invocation(cbs[0], CallbackKwargs(cbs[0], ctx));
      if cbs[0].raises.Some? then ([call], cbs[0].raises)
      else
        var rest := Deliver(cbs[1..], ctx);
        ([call] + rest.0, rest.1)
  }

  /** No callback in the list raises. */
  predicate Quiet(cbs: seq<Callback>) {
    forall i :: 0 <= i < |cbs| ==> cbs[i].raises.None?
  }

  /** When no callback raises, every callback is called once, in order,
      with its own keyword arguments; otherwise the first one that raises
      is the last one called and its exception comes out. */
  lemma {:induction false} DeliverCallsInOrder(cbs: seq<Callback>, ctx: Context)
    ensures var r := Deliver(cbs, ctx);
      && (forall i :: 0 <= i < |r.0| ==>
            r.0[i] == Invocation(cbs[i], CallbackKwargs(cbs[i], ctx)))
      && (Quiet(cbs) <==> r.1.None?)
      && (Quiet(cbs) ==> |r.0| == |cbs|)
      && (r.1.Some? ==> 0 < |r.0| && cbs[|r.0| - 1].raises == r.1 && Quiet(cbs[..|r.0| - 1]))
  {
    if cbs != [] {
      DeliverCallsInOrder(cbs[1..], ctx);
      var rest := Deliver(cbs[1..], ctx);
      if cbs[0].raises.None? {
        assert Quiet(cbs) <==> Quiet(cbs[1..]) by {
          if Quiet(cbs[1..]) {
            forall i | 0 <= i < |cbs| ensures cbs[i].raises.None? {
              if i > 0 { assert cbs[i] == cbs[1..][i - 1]; }
            }
          }
        }
        if rest.1.Some? {
          assert cbs[..|rest.0| + 1] == [cbs[0]] + cbs[1..][..|rest.0|];
        }
      }
    }
  }

  /** `_notify_callback` as the loop the source runs. */
  method NotifyCallback(cbs: seq<Callback>, ctx: Context) returns (calls: seq<Invocation>, raised: Option<Error>)
    ensures calls == Deliver(cbs, ctx).0 && raised == Deliver(cbs, ctx).1
  {
    calls, raised := [], None;
    var i := 0;
    assert cbs[0..] == cbs;
    while i < |cbs|
      invariant 0 <= i <= |cbs|
      invariant raised == None
      invariant Deliver(cbs, ctx).0 == calls + Deliver(cbs[i..], ctx).0
      invariant Deliver(cbs, ctx).1 == Deliver(cbs[i..], ctx).1
    {
      var cb := cbs[i];
      assert cbs[i..][0] == cb && cbs[i..][1..] == cbs[i + 1..];
      calls := calls + [Invocation(cb, CallbackKwargs(cb, ctx))];
      if cb.raises.Some? {
        assert Deliver(cbs[i..], ctx) == ([Invocation(cb, CallbackKwargs(cb, ctx))], cb.raises);
        raised := cb.raises;
        return;
      }
      i := i + 1;
    }
    assert cbs[i..] == [];
    assert Deliver(cbs[i..], ctx) == ([], None);
  }

  // ---------------------------------------------------------------------
  // Notification and the guarded run
  // ---------------------------------------------------------------------

  /** The subscriber table: target state to callbacks in registration order. */
  type Subscriptions = map<State, seq<Callback>>

  function SubscribersOf(subs: Subscriptions, s: State): seq<Callback> {
    if s in subs then subs[s] else []
  }

  /** `_notify_callbacks`: nothing unless the object is a
      `StateMachineCallbacks` (`subs` present); otherwise the subscribers
      of `ALL`, then those of `tostate`, each with its own keywords. */
  function Notification(subs: Option<Subscriptions>, target: nat, tostate: State, fromstate: State,
                        args: seq<Value>, kwargs: Context): (seq<Invocation>, Option<Error>)
  {
    if subs.None? then ([], None)
    else
      var ctx := BaseContext(target, tostate, fromstate, args, kwargs);
      var first := Deliver(SubscribersOf(subs.value, ALL), ctx);
      if first.1.Some? then first
      else
        var second := Deliver(SubscribersOf(subs.value, tostate), ctx);
        (first.0 + second.0, second.1)
  }

  /** Every subscriber of `ALL` is called before any subscriber of the
      target state, each with the keys it declares from the context. */
  lemma NotificationOrder(subs: Subscriptions, target: nat, tostate: State, fromstate: State,
                          args: seq<Value>, kwargs: Context)
    requires Quiet(SubscribersOf(subs, ALL)) && Quiet(SubscribersOf(subs, tostate))
    ensures var n := Notification(Some(subs), target, tostate, fromstate, args, kwargs);
      var cbs := SubscribersOf(subs, ALL) + SubscribersOf(subs, tostate);
      var ctx := BaseContext(target, tostate, fromstate, args, kwargs);
      && n.1 == None
      && |n.0| == |cbs|
      && forall i :: 0 <= i < |cbs| ==> n.0[i] == Invocation(cbs[i], CallbackKwargs(cbs[i], ctx))
  {
    var ctx := BaseContext(target, tostate, fromstate, args, kwargs);
    DeliverCallsInOrder(SubscribersOf(subs, ALL), ctx);
    DeliverCallsInOrder(SubscribersOf(subs, tostate), ctx);
  }

  /** What one step of a guarded run leaves behind: the `_sm_state`
      attribute (absent when never set), the callback calls, and the
      exception raised, if any. */
  datatype Effect = Effect(state: Option<State>, calls: seq<Invocation>, raised: Option<Error>)

  /** Lines 28-36: the guard, then `while_working` with notification first. */
  function EnterEffect(t: Transition, operation: string, subs: Option<Subscriptions>, target: nat,
                       current: Option<State>, args: seq<Value>, kwargs: Context): Effect
  {
    var cs := StateOrUndefined(current);
    if !Permits(t, cs) then
      Effect(current, [], Some(InvalidStateMachineTransition(operation, cs, t.allowedFrom)))
    else if t.whileWorking.None? then Effect(current, [], None)
    else if current.None? then Effect(current, [], Some(AttributeError("_sm_state")))
    else
      var n := Notification(subs, target, t.whileWorking.value, current.value, args, kwargs);
      Effect(if n.1.None? then t.whileWorking else current, n.0, n.1)
  }

  /** Lines 38-47: after the body, `when_done` on a return, `on_exception`
      (with `_e` added to the keywords) on a raise; notification first. */
  function ExitEffect(t: Transition, subs: Option<Subscriptions>, target: nat, current: Option<State>,
                      args: seq<Value>, kwargs: Context, outcome: Result<Value>): Effect
  {
    if current.None? then Effect(current, [], Some(AttributeError("_sm_state")))
    else if outcome.Ok? then
      var n := Notification(subs, target, t.whenDone, current.value, args, kwargs);
      Effect(if n.1.None? then Some(t.whenDone) else current, n.0, n.1)
    else
      var n := Notification(subs, target, t.onException, current.value, args,
                            kwargs["_e" := ErrorValue(outcome.error)]);
      Effect(if n.1.None? then Some(t.onException) else current, n.0,
             if n.1.None? then Some(outcome.error) else n.1)
  }

  /** A whole call of a decorated operation whose body, if it runs, ends
      with `outcome`. */
  datatype Run = Run(state: Option<State>, calls: seq<Invocation>, result: Result<Value>, bodyRan: bool)

  function GuardedRun(t: Transition, operation: string, subs: Option<Subscriptions>, target: nat,
                      current: Option<State>, args: seq<Value>, kwargs: Context, outcome: Result<Value>): Run
  {
    var enter := EnterEffect(t, operation, subs, target, current, args, kwargs);
    if enter.raised.Some? then Run(enter.state, enter.calls, Err(enter.raised.value), false)
    else
      var exit := ExitEffect(t, subs, target, enter.state, args, kwargs, outcome);
      Run(exit.state, enter.calls + exit.calls,
          if exit.raised.Some? then Err(exit.raised.value) else outcome, true)
  }

  /** All subscribers that a run could call are quiet. */
  predicate AllQuiet(subs: Option<Subscriptions>) {
    subs.Some? ==> forall s :: s in subs.value ==> Quiet(subs.value[s])
  }

  lemma {:induction false} QuietNotification(subs: Option<Subscriptions>, target: nat, tostate: State,
                                             fromstate: State, args: seq<Value>, kwargs: Context)
    requires AllQuiet(subs)
    ensures Notification(subs, target, tostate, fromstate, args, kwargs).1 == None
  {
    if subs.Some? {
      var ctx := BaseContext(target, tostate, fromstate, args, kwargs);
      DeliverCallsInOrder(SubscribersOf(subs.value, ALL), ctx);
      DeliverCallsInOrder(SubscribersOf(subs.value, tostate), ctx);
    }
  }

  /** A call from a state the guard refuses raises
      InvalidStateMachineTransition, runs no body, notifies nobody and
      leaves the state as it was. */
  lemma RefusedCallChangesNothing(t: Transition, operation: string, subs: Option<Subscriptions>, target: nat,
                                  current: Option<State>, args: seq<Value>, kwargs: Context, outcome: Result<Value>)
    requires !Permits(t, StateOrUndefined(current))
    ensures GuardedRun(t, operation, subs, target, current, args, kwargs, outcome)
         == Run(current, [], Err(InvalidStateMachineTransition(operation, StateOrUndefined(current), t.allowedFrom)), false)
  {
  }

  /** From an allowed state, with quiet subscribers, the body runs (in the
      `while_working` state when there is one); a return ends in
      `when_done` with the body's value, a raise ends in `on_exception`
      with the same exception. */
  lemma {:induction false} PermittedCallOutcome(t: Transition, operation: string, subs: Option<Subscriptions>,
                                                target: nat, current: State, args: seq<Value>, kwargs: Context,
                                                outcome: Result<Value>)
    requires Permits(t, current) && AllQuiet(subs)
    ensures var enter := EnterEffect(t, operation, subs, target, Some(current), args, kwargs);
      var run := GuardedRun(t, operation, subs, target, Some(current), args, kwargs, outcome);
      && enter.raised == None
      && enter.state == (if t.whileWorking.Some? then t.whileWorking else Some(current))
      && run.bodyRan
      && run.result == outcome
      && run.state == Some(if outcome.Ok? then t.whenDone else t.onException)
  {
    if t.whileWorking.Some? {
      QuietNotification(subs, target, t.whileWorking.value, current, args, kwargs);
    }
    var enter := EnterEffect(t, operation, subs, target, Some(current), args, kwargs);
    if outcome.Ok? {
      QuietNotification(subs, target, t.whenDone, enter.state.value, args, kwargs);
    } else {
      QuietNotification(subs, target, t.onException, enter.state.value, args,
                        kwargs["_e" := ErrorValue(outcome.error)]);
    }
  }

  /** The notification that enters `while_working` reports the starting
      state as `fromstate`; the one after a raise carries the exception as
      `_e` to every callback that declares `_e`. */
  lemma NotifiedStates(t: Transition, subs: Subscriptions, target: nat, current: State, args: seq<Value>,
                       kwargs: Context, e: Error, cb: Callback)
    requires t.whileWorking.Some? && "fromstate" !in kwargs
    ensures var kw := CallbackKwargs(cb, BaseContext(target, t.whileWorking.value, current, args, kwargs));
      "fromstate" in cb.params ==> kw["fromstate"] == StateValue(current)
    ensures var kw := CallbackKwargs(cb, BaseContext(target, t.onException, current, args, kwargs["_e" := ErrorValue(e)]));
      "_e" in cb.params ==> kw["_e"] == ErrorValue(e)
  {
  }

  /** An object that is not a StateMachineCallbacks notifies nobody. */
  lemma SilentWithoutRegistry(t: Transition, operation: string, target: nat, current: Option<State>,
                              args: seq<Value>, kwargs: Context, outcome: Result<Value>)
    ensures GuardedRun(t, operation, None, target, current, args, kwargs, outcome).calls == []
  {
  }

  // ---------------------------------------------------------------------
  // The shared registry
  // ---------------------------------------------------------------------

  /** No callback occurs twice: the keys of a Python dict. */
  predicate Distinct(cbs: seq<Callback>) {
    forall i, j :: 0 <= i < j < |cbs| ==> cbs[i] != cbs[j]
  }

  /** The list without `cb`. */
  function Without(cbs: seq<Callback>, cb: Callback): (r: seq<Callback>)
    ensures forall x :: x in r <==> x in cbs && x != cb
    ensures |r| <= |cbs|
  {
    if cbs == [] then []
    else (if cbs[0] == cb then [] else [cbs[0]]) + Without(cbs[1..], cb)
  }

  /** `StateMachineCallbacks._sm_callbacks`: one dict for the whole class,
      so every instance reads and writes the same table. A missing state
      reads as an empty dict, as the `defaultdict` makes it. */
  class Registry {
    var callbacks: Subscriptions

    ghost predicate Valid()
      reads this
    {
      forall s :: s in callbacks ==> Distinct(callbacks[s])
    }

    function Subscribers(s: State): seq<Callback>
      reads this
    {
      SubscribersOf(callbacks, s)
    }

    constructor ()
      ensures Valid() && callbacks == map[]
    {
      callbacks := map[];
    }

    /** `on_sm_transition`: a callback already subscribed to the state keeps
        its single entry and its place; a new one goes last. */
    method OnSmTransition(cb: Callback, tostate: State)
      requires Valid()
      modifies this
      ensures Valid()
      ensures Subscribers(tostate) ==
              if cb in old(Subscribers(tostate)) then old(Subscribers(tostate)) else old(Subscribers(tostate)) + [cb]
      ensures forall s :: s != tostate ==> Subscribers(s) == old(Subscribers(s))
    {
      var cbs := Subscribers(tostate);
      if cb !in cbs {
        callbacks := callbacks[tostate := cbs + [cb]];
      } else {
        callbacks := callbacks[tostate := cbs];
      }
    }

    /** `unsubscribe_sm_transition`: removes that one entry, or raises
        KeyError when the callback is not subscribed to the state. */
    method UnsubscribeSmTransition(cb: Callback, state: State) returns (raised: Option<Error>)
      requires Valid()
      modifies this
      ensures Valid()
      ensures cb in old(Subscribers(state)) ==> raised == None && Subscribers(state) == Without(old(Subscribers(state)), cb)
      ensures cb !in old(Subscribers(state)) ==> raised == Some(KeyError) && Subscribers(state) == old(Subscribers(state))
      ensures forall s :: s != state ==> Subscribers(s) == old(Subscribers(s))
    {
      var cbs := Subscribers(state);
      if cb !in cbs {
        return Some(KeyError);
      }
      WithoutKeepsDistinct(cbs, cb);
      callbacks := callbacks[state := Without(cbs, cb)];
      raised := None;
    }

    /** `on_sm_transitions`: the state-to-callback `mapping`, updated with
        `named` (member name of `enum` to callback), then each pair
        subscribed. A name that is not a member raises KeyError and a
        missing enum raises TypeError, before anything is subscribed. */
    method OnSmTransitions(mapping: map<State, Callback>, enumSpec: Option<EnumSpec>, named: map<string, Callback>)
      returns (raised: Option<Error>)
      requires Valid()
      modifies this
      ensures Valid()
      ensures raised == NamedStatesError(enumSpec, named)
      ensures raised.Some? ==> callbacks == old(callbacks)
      ensures raised.None? ==>
        var all := mapping + NamedStates(enumSpec, named);
        forall s :: (Subscribers(s) ==
          if s in all then Register(old(Subscribers(s)), all[s]) else old(Subscribers(s)))
    {
      raised := NamedStatesError(enumSpec, named);
      if raised.Some? {
        return;
      }
      var all := mapping + NamedStates(enumSpec, named);
      var todo := all.Keys;
      while todo != {}
        invariant todo <= all.Keys
        invariant Valid()
        invariant forall s :: (Subscribers(s) ==
          if s in all && s !in todo then Register(old(Subscribers(s)), all[s]) else old(Subscribers(s)))
        decreases todo
      {
        var s :| s in todo;
        OnSmTransition(all[s], s);
        todo := todo - {s};
      }
    }
  }

  /** The list after subscribing `cb` once more. */
  function Register(cbs: seq<Callback>, cb: Callback): seq<Callback> {
    if cb in cbs then cbs else cbs + [cb]
  }

  lemma {:induction false} WithoutKeepsDistinct(cbs: seq<Callback>, cb: Callback)
    requires Distinct(cbs)
    ensures Distinct(Without(cbs, cb))
    ensures |Without(cbs, cb)| == |cbs| - (if cb in cbs then 1 else 0)
  {
    if cbs != [] {
      WithoutKeepsDistinct(cbs[1..], cb);
      if cbs[0] == cb {
        assert cb !in cbs[1..];
      } else {
        assert cbs[0] !in Without(cbs[1..], cb);
      }
    }
  }

  /** An application enum: its class name and its member names. */
  datatype EnumSpec = EnumSpec(name: string, members: set<string>)

  /** `enum[k]` for every keyword: TypeError without an enum, KeyError for
      a name that is not a member. */
  function NamedStatesError(enumSpec: Option<EnumSpec>, named: map<string, Callback>): Option<Error> {
    if named == map[] then None
    else if enumSpec.None? then Some(TypeError)
    else if named.Keys <= enumSpec.value.members then None
    else Some(KeyError)
  }

  function NamedStates(enumSpec: Option<EnumSpec>, named: map<string, Callback>): map<State, Callback> {
    if enumSpec.None? then map[] else map k | k in named :: Member(enumSpec.value.name, k) := named[k]
  }

  /** Registering twice is registering once. */
  lemma RegisterIdempotent(cbs: seq<Callback>, cb: Callback)
    ensures Register(Register(cbs, cb), cb) == Register(cbs, cb)
    ensures cb in Register(cbs, cb)
  {
  }

  // ---------------------------------------------------------------------
  // The machine
  // ---------------------------------------------------------------------

  /** An object whose methods carry `sm_transition`: its `_sm_state`
      attribute, and the shared registry when it is a
      `StateMachineCallbacks` (null otherwise). `delivered` records every
      callback call its transitions made. */
  class Machine {
    const id: nat
    const registry: Registry?
    var current: Option<State>
    var delivered: seq<Invocation>

    constructor (id: nat, registry: Registry?, initial: Option<State>)
      ensures this.id == id && this.registry == registry && current == initial && delivered == []
    {
      this.id := id;
      this.registry := registry;
      current := initial;
      delivered := [];
    }

    function Subs(): Option<Subscriptions>
      reads this, registry
    {
      if registry == null then None else Some(registry.callbacks)
    }

    function CurrentState(): State
      reads this
    {
      StateOrUndefined(current)
    }

    /** `_notify_callbacks(self, tostate, fromstate, args, kwargs)`. */
    method Notify(tostate: State, fromstate: State, args: seq<Value>, kwargs: Context) returns (raised: Option<Error>)
      modifies this`delivered
      ensures var n := Notification(Subs(), id, tostate, fromstate, args, kwargs);
        delivered == old(delivered) + n.0 && raised == n.1
    {
      if registry == null {
        return None;
      }
      var ctx := BaseContext(id, tostate, fromstate, args, kwargs);
      var calls, r := NotifyCallback(SubscribersOf(registry.callbacks, ALL), ctx);
      delivered := delivered + calls;
      if r.Some? {
        return r;
      }
      calls, r := NotifyCallback(SubscribersOf(registry.callbacks, tostate), ctx);
      delivered := delivered + calls;
      raised := r;
    }

    /** The guard and the `while_working` step (lines 28-36). */
    method Enter(t: Transition, operation: string, args: seq<Value>, kwargs: Context) returns (raised: Option<Error>)
      modifies this`current, this`delivered
      ensures var e := EnterEffect(t, operation, old(Subs()), id, old(current), args, kwargs);
        current == e.state && delivered == old(delivered) + e.calls && raised == e.raised
    {
      var cs := StateOrUndefined(current);
      if !Permits(t, cs) {
        return Some(InvalidStateMachineTransition(operation, cs, t.allowedFrom));
      }
      if t.whileWorking.None? {
        return None;
      }
      if current.None? {
        return Some(AttributeError("_sm_state"));
      }
      raised := Notify(t.whileWorking.value, current.value, args, kwargs);
      if raised.None? {
        current := t.whileWorking;
      }
    }

    /** What follows the body (lines 38-47). */
    method Exit(t: Transition, args: seq<Value>, kwargs: Context, outcome: Result<Value>) returns (raised: Option<Error>)
      modifies this`current, this`delivered
      ensures var e := ExitEffect(t, old(Subs()), id, old(current), args, kwargs, outcome);
        current == e.state && delivered == old(delivered) + e.calls && raised == e.raised
    {
      if current.None? {
        return Some(AttributeError("_sm_state"));
      }
      if outcome.Ok? {
        raised := Notify(t.whenDone, current.value, args, kwargs);
        if raised.None? {
          current := Some(t.whenDone);
        }
      } else {
        raised := Notify(t.onException, current.value, args, kwargs["_e" := ErrorValue(outcome.error)]);
        if raised.None? {
          current := Some(t.onException);
          raised := Some(outcome.error);
        }
      }
    }

    /** `check_transition_and_run` around a body that ends with `outcome`. */
    method Run(t: Transition, operation: string, args: seq<Value>, kwargs: Context, outcome: Result<Value>)
      returns (result: Result<Value>)
      modifies this`current, this`delivered
      ensures var run := GuardedRun(t, operation, old(Subs()), id, old(current), args, kwargs, outcome);
        current == run.state && delivered == old(delivered) + run.calls && result == run.result
    {
      var raised := Enter(t, operation, args, kwargs);
      if raised.Some? {
        return Err(raised.value);
      }
      raised := Exit(t, args, kwargs, outcome);
      result := if raised.Some? then Err(raised.value) else outcome;
    }
  }
}
