/** The bartender of mixorama/bartender.py: a state machine over IDLE,
    POURING and READY whose `make_drink` pours a recipe component by
    component (scale reset, valve open, wait for the target weight, valve
    close) and whose `abort` raises a flag and cancels the scale's wait.
    The scale and the valves are abstract: what they are asked to do is
    recorded as a trace of actions, and how each pour ends is an oracle. */
module Bartender {
  import opened Core
  import opened StateMachine
  import opened Recipes

  /** `BartenderState`. */
  const IDLE: State := Member("BartenderState", "IDLE")
  const POURING: State := Member("BartenderState", "POURING")
  const READY: State := Member("BartenderState", "READY")

  /** The decorations of `make_drink` and `abort`. */
  const MakeDrinkTransition: Transition := SmTransition(One(IDLE), READY, Some(POURING), None)
  const AbortTransition: Transition := SmTransition(Several([POURING, READY]), IDLE, None, None)

  /** A valve, by its GPIO channel. */
  type Valve = nat

  /** What the bartender asks of the scale and the valves. */
  datatype Action =
    | ScaleReset
    | ValveOpen(valve: Valve)
    | WaitForWeight(target: real)
    | ValveClose(valve: Valve)
    | AbortWaiting

  /** How the scale answers for one component: `reset` times out, or the
      wait reaches the target, times out, or is aborted. */
  datatype PourOutcome = ResetTimedOut | Reached | TimedOut | WaitAborted

  /** The trace and the result of pouring a recipe from a position on. */
  datatype Pour = Pour(actions: seq<Action>, result: Result<bool>)

  /** The four actions of one successful component. */
  function Block(p: Pair, valves: map<Component, Valve>): seq<Action>
    requires p.0 in valves
  {
    [ScaleReset, ValveOpen(valves[p.0]), WaitForWeight(TargetWeight(p)), ValveClose(valves[p.0])]
  }

  /** The weight the scale waits for: `volume * component.density`. */
  function TargetWeight(p: Pair): real {
    p.1 as real * p.0.density
  }

  /** The loop body of `make_drink` from component `i` on; `aborted` is the
      truth value of the abort flag, which no step of a sequential run
      changes; `outcome(j)` is how the scale answers for component `j`. */
  function PourFrom(recipe: seq<Pair>, valves: map<Component, Valve>, aborted: bool,
                    outcome: nat -> PourOutcome, i: nat): Pour
    requires i <= |recipe|
    decreases |recipe| - i
  {
    if i == |recipe| then Pour([], Ok(true))
    else if aborted then Pour([], Ok(false))
    else if outcome(i) == ResetTimedOut then Pour([ScaleReset], Err(ScalesTimeoutException))
    else if recipe[i].0 !in valves then Pour([ScaleReset], Err(KeyError))
    else
      var block := Block(recipe[i], valves);
      if outcome(i) == TimedOut then Pour(block, Err(ScalesTimeoutException))
      else if outcome(i) == WaitAborted then Pour(block, Ok(false))
      else
        var rest := PourFrom(recipe, valves, aborted, outcome, i + 1);
        Pour(block + rest.actions, rest.result)
  }

  /** A component the pour gets past is followed by the rest of the pour. */
  lemma PourStep(recipe: seq<Pair>, valves: map<Component, Valve>, aborted: bool,
                 outcome: nat -> PourOutcome, i: nat)
    requires i < |recipe| && !aborted && Completes(recipe, valves, outcome, i)
    ensures var rest := PourFrom(recipe, valves, aborted, outcome, i + 1);
      PourFrom(recipe, valves, aborted, outcome, i) == Pour(Block(recipe[i], valves) + rest.actions, rest.result)
  {
  }

  /** A component the pour gets past: the scale reaches its target and its valve is known. */
  predicate Completes(recipe: seq<Pair>, valves: map<Component, Valve>, outcome: nat -> PourOutcome, j: nat)
    requires j < |recipe|
  {
    outcome(j) == Reached && recipe[j].0 in valves
  }

  /** The first component from `i` on that the pour does not get past, or
      the end of the recipe. */
  function FirstStop(recipe: seq<Pair>, valves: map<Component, Valve>, outcome: nat -> PourOutcome, i: nat): (j: nat)
    requires i <= |recipe|
    ensures i <= j <= |recipe|
    ensures forall k :: i <= k < j ==> Completes(recipe, valves, outcome, k)
    ensures j < |recipe| ==> !Completes(recipe, valves, outcome, j)
    decreases |recipe| - i
  {
    if i == |recipe| || !Completes(recipe, valves, outcome, i) then i
    else FirstStop(recipe, valves, outcome, i + 1)
  }

  /** How a pour that is not aborted ends is decided by the first component
      it does not get past: none means True; a reset or wait timeout means
      ScalesTimeoutException; an unknown component means KeyError; an
      aborted wait means False. */
  lemma {:induction false} PourResult(recipe: seq<Pair>, valves: map<Component, Valve>,
                                      outcome: nat -> PourOutcome, i: nat)
    requires i <= |recipe|
    ensures var j := FirstStop(recipe, valves, outcome, i);
      var r := PourFrom(recipe, valves, false, outcome, i).result;
      && (j == |recipe| ==> r == Ok(true))
      && (j < |recipe| && outcome(j) == ResetTimedOut ==> r == Err(ScalesTimeoutException))
      && (j < |recipe| && outcome(j) != ResetTimedOut && recipe[j].0 !in valves ==> r == Err(KeyError))
      && (j < |recipe| && recipe[j].0 in valves && outcome(j) == TimedOut ==> r == Err(ScalesTimeoutException))
      && (j < |recipe| && recipe[j].0 in valves && outcome(j) == WaitAborted ==> r == Ok(false))
    decreases |recipe| - i
  {
    if i < |recipe| && Completes(recipe, valves, outcome, i) {
      PourResult(recipe, valves, outcome, i + 1);
    }
  }

  /** `make_drink` returns True exactly when it gets past every component:
      the flag is down, every valve is known and the scale reaches every
      target (an empty recipe always). */
  lemma {:induction false} PourSucceedsIff(recipe: seq<Pair>, valves: map<Component, Valve>, aborted: bool,
                                           outcome: nat -> PourOutcome, i: nat)
    requires i <= |recipe|
    ensures PourFrom(recipe, valves, aborted, outcome, i).result == Ok(true) <==>
            (i == |recipe| || (!aborted && forall j :: i <= j < |recipe| ==> Completes(recipe, valves, outcome, j)))
    decreases |recipe| - i
  {
    if i < |recipe| && !aborted && Completes(recipe, valves, outcome, i) {
      PourSucceedsIff(recipe, valves, aborted, outcome, i + 1);
    }
  }

  /** The successful trace: one block per component, in recipe order. */
  function ExpectedTrace(ps: seq<Pair>, valves: map<Component, Valve>): seq<Action>
    requires forall j :: 0 <= j < |ps| ==> ps[j].0 in valves
  {
    if ps == [] then [] else Block(ps[0], valves) + ExpectedTrace(ps[1..], valves)
  }

  /** When every component completes, the pour resets, opens, waits for
      `volume * density` and closes, component after component. */
  lemma {:induction false} PourInRecipeOrder(recipe: seq<Pair>, valves: map<Component, Valve>,
                                             outcome: nat -> PourOutcome, i: nat)
    requires i <= |recipe|
    requires forall j :: i <= j < |recipe| ==> Completes(recipe, valves, outcome, j)
    ensures forall j :: 0 <= j < |recipe[i..]| ==> recipe[i..][j].0 in valves
    ensures PourFrom(recipe, valves, false, outcome, i) == Pour(ExpectedTrace(recipe[i..], valves), Ok(true))
    decreases |recipe| - i
  {
    assert forall j :: i <= j < |recipe| ==> recipe[j].0 in valves by {
      forall j | i <= j < |recipe| ensures recipe[j].0 in valves {
        assert Completes(recipe, valves, outcome, j);
      }
    }
    assert forall j :: 0 <= j < |recipe[i..]| ==> recipe[i..][j] == recipe[i + j];
    if i < |recipe| {
      PourInRecipeOrder(recipe, valves, outcome, i + 1);
      PourStep(recipe, valves, false, outcome, i);
      assert recipe[i..][0] == recipe[i] && recipe[i..][1..] == recipe[i + 1..];
      assert ExpectedTrace(recipe[i..], valves) ==
             Block(recipe[i], valves) + ExpectedTrace(recipe[i + 1..], valves);
    } else {
      assert recipe[i..] == [];
    }
  }

  /** The `k`-th component's block sits at positions `4k` to `4k+3` of the trace. */
  lemma {:induction false} ExpectedTraceAt(ps: seq<Pair>, valves: map<Component, Valve>, k: nat)
    requires forall j :: 0 <= j < |ps| ==> ps[j].0 in valves
    requires k < |ps|
    ensures |ExpectedTrace(ps, valves)| == 4 * |ps|
    ensures ExpectedTrace(ps, valves)[4 * k..4 * k + 4] == Block(ps[k], valves)
  {
    if k == 0 {
      TraceLength(ps, valves);
    } else {
      ExpectedTraceAt(ps[1..], valves, k - 1);
      TraceLength(ps, valves);
    }
  }

  lemma {:induction false} TraceLength(ps: seq<Pair>, valves: map<Component, Valve>)
    requires forall j :: 0 <= j < |ps| ==> ps[j].0 in valves
    ensures |ExpectedTrace(ps, valves)| == 4 * |ps|
  {
    if ps != [] {
      TraceLength(ps[1..], valves);
    }
  }

  /** The valves a trace leaves open, starting from `open`. */
  function OpenAfter(open: set<Valve>, actions: seq<Action>): set<Valve>
    decreases |actions|
  {
    if actions == [] then open else OpenAfter(StepOpen(open, actions[0]), actions[1..])
  }

  /** The valves open after one action. */
  function StepOpen(open: set<Valve>, a: Action): set<Valve> {
    match a
    case ValveOpen(v) => open + {v}
    case ValveClose(v) => open - {v}
    case _ => open
  }

  lemma {:induction false} OpenAfterAppend(open: set<Valve>, a: seq<Action>, b: seq<Action>)
    ensures OpenAfter(open, a + b) == OpenAfter(OpenAfter(open, a), b)
    decreases |a|
  {
    if a != [] {
      assert (a + b)[1..] == a[1..] + b;
      OpenAfterAppend(StepOpen(open, a[0]), a[1..], b);
    } else {
      assert a + b == b;
    }
  }

  /** Every valve the pour opens it closes again, whether it succeeds, the
      wait is aborted or the scale times out. */
  lemma {:induction false} NoValveLeftOpen(recipe: seq<Pair>, valves: map<Component, Valve>, aborted: bool,
                                           outcome: nat -> PourOutcome, i: nat)
    requires i <= |recipe|
    ensures OpenAfter({}, PourFrom(recipe, valves, aborted, outcome, i).actions) == {}
    decreases |recipe| - i
  {
    if i < |recipe| && !aborted && outcome(i) != ResetTimedOut && recipe[i].0 in valves {
      var block := Block(recipe[i], valves);
      var v := valves[recipe[i].0];
      assert OpenAfter({}, block) == {} by {
        var w := TargetWeight(recipe[i]);
        assert block[1..] == [ValveOpen(v), WaitForWeight(w), ValveClose(v)];
        assert block[2..] == [WaitForWeight(w), ValveClose(v)];
        assert block[3..] == [ValveClose(v)];
        assert StepOpen({}, ValveOpen(v)) == {v};
        assert StepOpen({v}, ValveClose(v)) == {};
        assert OpenAfter({}, block) == OpenAfter({}, block[1..]);
        assert OpenAfter({}, block[1..]) == OpenAfter({v}, block[2..]);
        assert OpenAfter({v}, block[2..]) == OpenAfter({v}, block[3..]);
        assert OpenAfter({v}, block[3..]) == OpenAfter({}, block[4..]);
        assert block[4..] == [];
      }
      if outcome(i) == Reached {
        var rest := PourFrom(recipe, valves, aborted, outcome, i + 1);
        NoValveLeftOpen(recipe, valves, aborted, outcome, i + 1);
        OpenAfterAppend({}, block, rest.actions);
      }
    }
  }

  /** With the flag up, nothing is poured and the result is False. */
  lemma AbortFlagStopsPour(recipe: seq<Pair>, valves: map<Component, Valve>, outcome: nat -> PourOutcome)
    requires recipe != []
    ensures PourFrom(recipe, valves, true, outcome, 0) == Pour([], Ok(false))
  {
  }

  /** An empty recipe opens no valve and returns True. */
  lemma EmptyRecipe(valves: map<Component, Valve>, aborted: bool, outcome: nat -> PourOutcome)
    ensures PourFrom([], valves, aborted, outcome, 0) == Pour([], Ok(true))
  {
  }

  /** `make_drink` is accepted only from IDLE and `abort` only from POURING
      or READY; after a scale timeout (EXCEPTION) neither is accepted. */
  lemma AcceptedStates(s: State)
    requires s in {IDLE, POURING, READY, EXCEPTION}
    ensures Permits(MakeDrinkTransition, s) <==> s == IDLE
    ensures Permits(AbortTransition, s) <==> s == POURING || s == READY
  {
  }

  /** The return value of `make_drink` as the state machine carries it. */
  function AsValue(r: Result<bool>): Result<Value> {
    if r.Ok? then Ok(BoolValue(r.value)) else Err(r.error)
  }

  // ---------------------------------------------------------------------
  // The source's abort attribute, as written
  // ---------------------------------------------------------------------

  /** What `self.abort` is: the class body's `abort = None` is rebound by
      `def abort`, so it is the bound method until `abort()` runs, and
      `abort()` then shadows it with True. */
  datatype AbortAttribute = BoundAbortMethod | AbortFlag(flag: bool)

  predicate Truthy(a: AbortAttribute) {
    a.BoundAbortMethod? || a.flag
  }

  /** The attribute of a bartender nobody has aborted yet, as written. */
  const AbortAttributeAsWritten: AbortAttribute := BoundAbortMethod

  /** As written, `if self.abort:` is true on a bartender nobody has
      aborted, so `make_drink` opens no valve and returns False for every
      non-empty recipe. */
  lemma FreshBartenderNeverPoursAsWritten(recipe: seq<Pair>, valves: map<Component, Valve>,
                                          outcome: nat -> PourOutcome)
    requires recipe != []
    ensures Truthy(AbortAttributeAsWritten)
    ensures PourFrom(recipe, valves, Truthy(AbortAttributeAsWritten), outcome, 0) == Pour([], Ok(false))
  {
  }

  /** A bartender as written: what its `abort` attribute is and its `_sm_state`. */
  datatype AsWritten = AsWritten(attribute: AbortAttribute, state: State)

  /** `bartender.make_drink(recipe)` as written: the guard, then the pour
      with the truth value of the `abort` attribute as its flag. */
  function MakeDrinkAsWritten(b: AsWritten, recipe: seq<Pair>, valves: map<Component, Valve>,
                              outcome: nat -> PourOutcome): (Result<Value>, AsWritten)
  {
    if !Permits(MakeDrinkTransition, b.state) then
      (Err(InvalidStateMachineTransition("make_drink", b.state, [IDLE])), b)
    else
      var p := PourFrom(recipe, valves, Truthy(b.attribute), outcome, 0);
      (AsValue(p.result), AsWritten(b.attribute, if p.result.Ok? then READY else EXCEPTION))
  }

  /** `bartender.abort()` as written: while the attribute is the bound
      method the decorated call runs, and its body shadows the method with
      True; once shadowed, the call is `True()`, a TypeError raised before
      the guard, with nothing changed. */
  function AbortAsWritten(b: AsWritten): (Result<Value>, AsWritten) {
    if b.attribute.AbortFlag? then (Err(TypeError), b)
    else if !Permits(AbortTransition, b.state) then
      (Err(InvalidStateMachineTransition("abort", b.state, [POURING, READY])), b)
    else (Ok(NoneValue), AsWritten(AbortFlag(true), IDLE))
  }

  /** As written, the run make_drink, abort, make_drink, abort on a new
      bartender ends with the second abort raising TypeError in READY; from
      there `make_drink` is refused and `abort` raises TypeError for ever. */
  lemma SecondAbortRaisesAsWritten(recipe: seq<Pair>, valves: map<Component, Valve>,
                                   outcome: nat -> PourOutcome, later: seq<Pair>)
    requires recipe != []
    ensures var s0 := AsWritten(AbortAttributeAsWritten, IDLE);
      var d1 := MakeDrinkAsWritten(s0, recipe, valves, outcome);
      var a1 := AbortAsWritten(d1.1);
      var d2 := MakeDrinkAsWritten(a1.1, recipe, valves, outcome);
      var a2 := AbortAsWritten(d2.1);
      && d1.0 == Ok(BoolValue(false)) && a1.0 == Ok(NoneValue) && d2.0 == Ok(BoolValue(false))
      && a2 == (Err(TypeError), AsWritten(AbortFlag(true), READY))
      && MakeDrinkAsWritten(a2.1, later, valves, outcome).0.Err?
      && MakeDrinkAsWritten(a2.1, later, valves, outcome).1 == a2.1
      && AbortAsWritten(a2.1) == a2
  {
  }

  // ---------------------------------------------------------------------
  // The bartender
  // ---------------------------------------------------------------------

  /** A bartender: its state machine (not a StateMachineCallbacks, so it
      notifies nobody), its component-to-valve table, the abort flag, and
      the trace of what it asked of the scale and the valves. */
  class Bartender {
    const sm: Machine
    const components: map<Component, Valve>
    var aborted: bool
    var actions: seq<Action>

    ghost predicate Valid()
      reads this, sm
    {
      sm.registry == null && sm.current.Some? && sm.current.value in {IDLE, POURING, READY, EXCEPTION}
    }

    /** A new bartender is IDLE (the class attribute `_sm_state`) and its
        abort flag is down. */
    constructor (id: nat, components: map<Component, Valve>)
      ensures Valid() && fresh(sm)
      ensures sm.current == Some(IDLE) && sm.delivered == []
      ensures this.components == components && !aborted && actions == []
    {
      sm := new Machine(id, null, Some(IDLE));
      this.components := components;
      aborted := false;
      actions := [];
    }

    /** The body of `make_drink`: the loop over the recipe. */
    method PourRecipe(recipe: seq<Pair>, outcome: nat -> PourOutcome) returns (result: Result<bool>)
      modifies this`actions
      ensures var p := PourFrom(recipe, components, aborted, outcome, 0);
        actions == old(actions) + p.actions && result == p.result
    {
      ghost var total := PourFrom(recipe, components, aborted, outcome, 0);
      var i := 0;
      assert actions + total.actions == old(actions) + PourFrom(recipe, components, aborted, outcome, i).actions;
      while i < |recipe|
        invariant 0 <= i <= |recipe|
        invariant actions + PourFrom(recipe, components, aborted, outcome, i).actions == old(actions) + total.actions
        invariant PourFrom(recipe, components, aborted, outcome, i).result == total.result
      {
        ghost var prev := actions;
        if aborted {
          assert actions + [] == actions;
          return Ok(false);
        }
        var component, volume := recipe[i].0, recipe[i].1;
        actions := actions + [ScaleReset];
        if outcome(i) == ResetTimedOut {
          return Err(ScalesTimeoutException);
        }
        if component !in components {
          return Err(KeyError);
        }
        var valve := components[component];
        var target := TargetWeight((component, volume));
        actions := actions + [ValveOpen(valve), WaitForWeight(target)];
        var waited := outcome(i);
        actions := actions + [ValveClose(valve)];
        ghost var block := Block(recipe[i], components);
        assert actions == prev + block by {
          assert block == [ScaleReset] + [ValveOpen(valve), WaitForWeight(target)] + [ValveClose(valve)];
          assert (prev + [ScaleReset]) + [ValveOpen(valve), WaitForWeight(target)]
              == prev + ([ScaleReset] + [ValveOpen(valve), WaitForWeight(target)]);
          assert (prev + ([ScaleReset] + [ValveOpen(valve), WaitForWeight(target)])) + [ValveClose(valve)]
              == prev + ([ScaleReset] + [ValveOpen(valve), WaitForWeight(target)] + [ValveClose(valve)]);
        }
        if waited == TimedOut {
          assert actions + [] == actions;
          return Err(ScalesTimeoutException);
        }
        if waited == WaitAborted {
          assert actions + [] == actions;
          return Ok(false);
        }
        PourStep(recipe, components, aborted, outcome, i);
        ghost var rest := PourFrom(recipe, components, aborted, outcome, i + 1).actions;
        assert (prev + block) + rest == prev + (block + rest);
        i := i + 1;
      }
      assert actions + [] == actions;
      result := Ok(true);
    }

    /** `make_drink(recipe)`: accepted only in IDLE; runs in POURING; ends in
        READY when the body returns (True or False) and in EXCEPTION when it
        raises, with the exception passed on. */
    method MakeDrink(recipe: seq<Pair>, outcome: nat -> PourOutcome) returns (result: Result<Value>)
      requires Valid()
      modifies sm, this`actions
      ensures Valid() && sm.delivered == old(sm.delivered)
      ensures var p := PourFrom(recipe, components, aborted, outcome, 0);
        if old(sm.current) == Some(IDLE) then
          && actions == old(actions) + p.actions
          && sm.current == Some(if p.result.Ok? then READY else EXCEPTION)
          && result == AsValue(p.result)
        else
          && result == Err(InvalidStateMachineTransition("make_drink", old(sm.current).value, [IDLE]))
          && sm.current == old(sm.current)
          && actions == old(actions)
    {
      var raised := sm.Enter(MakeDrinkTransition, "make_drink", [], map[]);
      if raised.Some? {
        return Err(raised.value);
      }
      var poured := PourRecipe(recipe, outcome);
      // Without a registry the exit notifies nobody, so nothing can raise there.
      raised := sm.Exit(MakeDrinkTransition, [], map[], AsValue(poured));
      result := AsValue(poured);
    }

    /** `abort()`: accepted only from POURING or READY; raises the flag,
        cancels the scale's wait and ends in IDLE. */
    method Abort() returns (result: Result<Value>)
      requires Valid()
      modifies sm, this`aborted, this`actions
      ensures Valid() && sm.delivered == old(sm.delivered)
      ensures if old(sm.current) == Some(POURING) || old(sm.current) == Some(READY) then
          && aborted
          && actions == old(actions) + [AbortWaiting]
          && sm.current == Some(IDLE)
          && result == Ok(NoneValue)
        else
          && result == Err(InvalidStateMachineTransition("abort", old(sm.current).value, [POURING, READY]))
          && sm.current == old(sm.current)
          && aborted == old(aborted)
          && actions == old(actions)
    {
      var raised := sm.Enter(AbortTransition, "abort", [], map[]);
      if raised.Some? {
        return Err(raised.value);
      }
      aborted := true;
      actions := actions + [AbortWaiting];
      raised := sm.Exit(AbortTransition, [], map[], Ok(NoneValue));
      result := Ok(NoneValue);
    }
  }

  /** The flag is never lowered again: after a drink and an abort, the next
      drink of a non-empty recipe pours nothing and returns False. */
  method DrinkAfterAbort(b: Bartender, recipe: seq<Pair>, outcome: nat -> PourOutcome)
    returns (first: Result<Value>, second: Result<Value>)
    requires b.Valid() && b.sm.current == Some(READY) && recipe != []
    modifies b.sm, b
    ensures first == Ok(NoneValue) && second == Ok(BoolValue(false))
    ensures b.actions == old(b.actions) + [AbortWaiting] && b.sm.current == Some(READY)
  {
    first := b.Abort();
    second := b.MakeDrink(recipe, outcome);
  }

  /** With the explicit flag, a second `abort()` reaches the guard like the
      first: abort, drink, abort from READY ends in IDLE with no error. */
  method RepeatedAbort(b: Bartender, recipe: seq<Pair>, outcome: nat -> PourOutcome)
    returns (first: Result<Value>, drink: Result<Value>, second: Result<Value>)
    requires b.Valid() && b.sm.current == Some(READY) && recipe != []
    modifies b.sm, b
    ensures first == Ok(NoneValue) && drink == Ok(BoolValue(false)) && second == Ok(NoneValue)
    ensures b.aborted && b.sm.current == Some(IDLE)
    ensures b.actions == old(b.actions) + [AbortWaiting] + [AbortWaiting]
  {
    first := b.Abort();
    drink := b.MakeDrink(recipe, outcome);
    second := b.Abort();
  }
}
