# mix-o-rama, modelled in Dafny

mix-o-rama drives a cocktail machine. It has a load cell (an HX711 front
end behind a `Scales` object), one solenoid valve per component, and a
`Bartender`. The bartender pours a recipe one component at a time: it tares
the scale, opens the valve, waits until the weight reaches
`volume * density`, then closes the valve. Its operations are guarded by a
small state-machine decorator that also tells subscribers about every
transition. Configuration files give the shelf of components and the menu
of recipes.

This project models that core and proves properties of it:

- `core.dfy`: `Option`, `Result`, state names and the errors the code raises.
- `statemachine.dfy`:
  - the `sm_transition` decorator: normalising its parameters, the guard, `while_working`, `when_done` and `on_exception`;
  - the shared subscriber registry of `StateMachineCallbacks`;
  - the notification of callbacks with the keyword arguments they declare.
- `bartender.dfy`:
  - `make_drink` and `abort`, over an abstract scale and valves;
  - what the bartender asks of them is recorded as a trace of actions;
  - how each pour ends is an oracle.
- `scales.dfy`:
  - `get_raw_data`, which collects samples against a read timeout;
  - `measure`, `reset`, the weight window and the abort event;
  - raw reads and the clock are oracles.
- `recipes.dfy`:
  - components and recipes with their defaults;
  - volume, weight and strength;
  - the rendering of a recipe as text.
- `factory.dfy`: `create_shelf` and `create_menu`.
- `util.dfy`:
  - `make_timeout`;
  - `DefaultFactoryDict`;
  - `MaxObserver`;
  - the enum-backed `EnumField` (`values`, `null`, `max_length`, `db_value`, `python_value`).

Where the code has state, the model has classes:

- the state machine's `_sm_state`;
- the registry;
- the bartender's abort flag;
- the HX711's cached timeout and the scale's tare;
- the dictionaries;
- the configuration `create_menu` pops from.

Methods are proved against specification functions. The properties of those functions are proved as lemmas.

The HX711 read filter `data not in [False, -1]` also discards a raw reading
of 0, because `0 == False` in Python. `Scales.IsSample` keeps that behaviour.

## Model

| member | source | states |
|---|---|---|
| StateMachine.SmTransition | mixorama/statemachine.py:18-24 | The decoration's parameters: a single `allowed_from` state becomes a one-element list, a missing `on_exception` becomes `CoreStates.EXCEPTION`; what follows from it is proved in `SingleAllowedState` and `DefaultExceptionState`. |
| StateMachine.Permits | mixorama/statemachine.py:31 | The guard: the current state is one of `allowed_from`, or it is `CoreStates.ALL`. |
| StateMachine.StateOrUndefined | mixorama/statemachine.py:29 | `_sm_state`, or `CoreStates.UNDEFINED` when the object has none. |
| StateMachine.BaseContext | mixorama/statemachine.py:73-74 | `target`, `tostate`, `fromstate` and `args`, overridden by the caller's keywords; what a callback sees of it is proved in `CallbackSeesDeclaredKeys`. |
| StateMachine.Deliver | mixorama/statemachine.py:85-88 | The calls one `_notify_callback` makes, in order, ending at the first callback that raises; never more calls than callbacks (the rest in `DeliverCallsInOrder`). |
| StateMachine.Notification | mixorama/statemachine.py:71-77 | Nothing for an object that is not a `StateMachineCallbacks`; otherwise the subscribers of `ALL`, then those of `tostate`, stopping at the first exception (`NotificationOrder`, `SilentWithoutRegistry`). |
| StateMachine.EnterEffect | mixorama/statemachine.py:28-36 | The guard's InvalidStateMachineTransition, or the `while_working` notification followed by the assignment of `_sm_state`. |
| StateMachine.ExitEffect | mixorama/statemachine.py:38-49 | After a return, notify and assign `when_done`; after a raise, notify with `_e`, assign `on_exception` and re-raise. |
| StateMachine.GuardedRun | mixorama/statemachine.py:27-49 | The whole decorated call, whose outcomes are proved in `RefusedCallChangesNothing` and `PermittedCallOutcome`. |
| StateMachine.Register | mixorama/statemachine.py:57-58 | A callback's list after `self._sm_callbacks[tostate][callback] = callback`: unchanged when present, the callback appended otherwise. |
| StateMachine.NamedStatesError | mixorama/statemachine.py:63-65 | `enum[k]` for the keywords: TypeError without an enum, KeyError for a name that is not a member, nothing otherwise. |
| StateMachine.NamedStates | mixorama/statemachine.py:65 | The states `enum[k]` with their callbacks. |
| StateMachine.SingleAllowedState | mixorama/statemachine.py:18-32 | A single `allowed_from` state becomes a one-element list. The guard then admits exactly that state and `CoreStates.ALL`. |
| StateMachine.DefaultExceptionState | mixorama/statemachine.py:18-24 | A missing `on_exception` defaults to `CoreStates.EXCEPTION`. |
| StateMachine.MissingStateReadsUndefined | mixorama/statemachine.py:29-32 | An object without `_sm_state` reads as `UNDEFINED`. The guard admits it exactly when `UNDEFINED` is allowed. |
| StateMachine.FunctionArgs | mixorama/statemachine.py:80-82 | The result holds exactly the positional parameter names other than `self`. |
| StateMachine.CallbackKwargs | mixorama/statemachine.py:85-88 | A callback gets exactly the context keys it declares (except `self`), each with its value from the context. |
| StateMachine.CallbackSeesDeclaredKeys | mixorama/statemachine.py:71-88 | A callback gets a key exactly when it declares it and the base context or the caller's keywords hold it. A caller keyword overrides the base `tostate`/`fromstate`. |
| StateMachine.DeliverCallsInOrder | mixorama/statemachine.py:85-88 | Callbacks are called in order, each with its own keywords. When none raises, all are called. Otherwise the first one that raises is the last called, and its exception comes out. |
| StateMachine.NotifyCallback | mixorama/statemachine.py:85-88 | The loop makes exactly the calls of the specification `Deliver` and raises what it raises. |
| StateMachine.NotificationOrder | mixorama/statemachine.py:71-77 | With quiet subscribers, every `ALL` subscriber is called before the target state's subscribers, each once and with its declared keys. |
| StateMachine.QuietNotification | mixorama/statemachine.py:71-88 | When no subscriber raises, a notification raises nothing. |
| StateMachine.RefusedCallChangesNothing | mixorama/statemachine.py:28-32 | From a state the guard refuses: `InvalidStateMachineTransition(operation, state, allowed)`, no body run, no notification, state unchanged. |
| StateMachine.PermittedCallOutcome | mixorama/statemachine.py:27-49 | From an allowed state with quiet subscribers, the body runs (in `while_working` when given). A return ends in `when_done` with the body's value. A raise ends in `on_exception` with the same exception. |
| StateMachine.NotifiedStates | mixorama/statemachine.py:34-44 | The `while_working` notification reports the starting state as `fromstate`. The `on_exception` one carries the exception as `_e`. |
| StateMachine.SilentWithoutRegistry | mixorama/statemachine.py:71-72 | An object that is not a `StateMachineCallbacks` notifies nobody. |
| StateMachine.Without | mixorama/statemachine.py:60-61 | Deleting a callback leaves every other callback and only those. |
| StateMachine.WithoutKeepsDistinct | mixorama/statemachine.py:60-61 | Deleting keeps the entries distinct, as dict keys are, and removes exactly one entry when the callback was present. |
| StateMachine.RegisterIdempotent | mixorama/statemachine.py:57-58 | Subscribing a callback twice is subscribing it once, and it is then subscribed. |
| StateMachine.Registry.constructor | mixorama/statemachine.py:55 | The class-level table starts empty. |
| StateMachine.Registry.OnSmTransition | mixorama/statemachine.py:57-58 | A new callback goes last. One already subscribed keeps its single entry and its place. No other state's list changes. |
| StateMachine.Registry.UnsubscribeSmTransition | mixorama/statemachine.py:60-61 | Removes exactly that entry, or raises KeyError and changes nothing when the callback is absent. Other states are untouched. |
| StateMachine.Registry.OnSmTransitions | mixorama/statemachine.py:63-68 | `map` plus `enum[name]` for every keyword, each subscribed. A missing enum gives TypeError and an unknown name gives KeyError, before anything is subscribed. |
| StateMachine.Machine.constructor | mixorama/statemachine.py:29 | The object's `_sm_state` is the given one, or absent. |
| StateMachine.Machine.Notify | mixorama/statemachine.py:71-77 | The calls and the exception are those of the specification `Notification`. |
| StateMachine.Machine.Enter | mixorama/statemachine.py:28-36 | The guard, then notify-and-set `while_working`, as in `EnterEffect`. |
| StateMachine.Machine.Exit | mixorama/statemachine.py:38-49 | Notify then set `when_done` or `on_exception`, re-raising the body's exception, as in `ExitEffect`. |
| StateMachine.Machine.Run | mixorama/statemachine.py:27-49 | The whole decorated call: state, calls and result as in `GuardedRun`. |
| Bartender.TargetWeight | mixorama/bartender.py:35 | The weight waited for: `volume * component.density`. |
| Bartender.Block | mixorama/bartender.py:32-43 | The four requests of one component: scale reset, valve open, wait for the target weight, valve close. |
| Bartender.PourFrom | mixorama/bartender.py:28-45 | The loop of `make_drink` from a component on: the trace and the result, whose properties are proved in `PourResult`, `PourSucceedsIff`, `PourInRecipeOrder` and `NoValveLeftOpen`. |
| Bartender.AcceptedStates | mixorama/bartender.py:25-47 | `make_drink` is accepted only from IDLE, `abort` only from POURING or READY, and neither from EXCEPTION. |
| Bartender.FirstStop | mixorama/bartender.py:28-45 | The first component the pour does not get past: every earlier one completes, and this one does not. |
| Bartender.PourResult | mixorama/bartender.py:28-45 | Decided by the first component not got past. If there is none: True. On a reset or wait timeout: ScalesTimeoutException. If its valve is unknown: KeyError. If the wait is aborted: False. |
| Bartender.PourSucceedsIff | mixorama/bartender.py:28-45 | True exactly when the recipe is empty, or the abort flag is down and every component's valve is known and reaches its weight. |
| Bartender.PourInRecipeOrder | mixorama/bartender.py:28-45 | A successful pour is, per component in recipe order: reset, open its valve, wait for `volume * density`, close it. |
| Bartender.ExpectedTraceAt | mixorama/bartender.py:32-43 | Component k's four actions sit at trace positions 4k to 4k+3. |
| Bartender.NoValveLeftOpen | mixorama/bartender.py:32-43 | Every valve the pour opens is closed again, on success, abort, timeout or error. |
| Bartender.AbortFlagStopsPour | mixorama/bartender.py:28-30 | With the flag up, a non-empty recipe pours nothing and returns False. |
| Bartender.EmptyRecipe | mixorama/bartender.py:28-45 | An empty recipe opens nothing and returns True. |
| Bartender.FreshBartenderNeverPoursAsWritten | mixorama/bartender.py:19-30 | As written, `self.abort` is truthy on a bartender nobody aborted, so every non-empty recipe returns False without pouring. |
| Bartender.MakeDrinkAsWritten | mixorama/bartender.py:25-45 | `make_drink` as written, with the truth value of the `abort` attribute as its flag. |
| Bartender.AbortAsWritten | mixorama/bartender.py:47-50 | `abort()` as written: the decorated call while the attribute is the bound method; `True()`, a TypeError before the guard, once the body has set it to True. |
| Bartender.SecondAbortRaisesAsWritten | mixorama/bartender.py:47-50 | As written, make_drink, abort, make_drink, abort on a new bartender ends with TypeError in READY, after which `make_drink` is refused and `abort` raises TypeError again. |
| Bartender.Bartender.constructor | mixorama/bartender.py:17-23 | A new bartender is IDLE, its flag is down and nothing has been poured. |
| Bartender.Bartender.PourRecipe | mixorama/bartender.py:27-45 | The loop appends exactly the specification pour's actions and returns its result. |
| Bartender.Bartender.MakeDrink | mixorama/bartender.py:25-45 | From IDLE: pours, then READY with True/False, or EXCEPTION with the error. Otherwise `InvalidStateMachineTransition("make_drink", state, [IDLE])` and nothing changes. |
| Bartender.Bartender.Abort | mixorama/bartender.py:47-50 | From POURING/READY, on every call (the first or a later one): raises the flag, cancels the scale's wait, ends IDLE. From any other state: `InvalidStateMachineTransition("abort", state, [POURING, READY])` and nothing changes. |
| Bartender.DrinkAfterAbort | mixorama/bartender.py:28-50 | The flag is never lowered, so after an abort the next non-empty drink returns False. |
| Bartender.RepeatedAbort | mixorama/bartender.py:47-50 | With the explicit flag, abort, drink, abort from READY succeeds each time and ends IDLE. |
| Scales.IsSample | mixorama/scales.py:24 | `data not in [False, -1]`: a successful read other than 0 and -1. |
| Scales.Gather | mixorama/scales.py:17-27 | The collection loop: check the timeout, read, keep samples, until `times` of them; proved in `GatherSpec`. |
| Scales.Mean | mixorama/scales.py:59 | `statistics.mean` of the samples; proved in `MeanBounds` and `MeanOfSteadyLoad`. |
| Scales.InWindow | mixorama/scales.py:72-73 | `value_is_in_window`; proved in `WindowIsOpenBand`. |
| Scales.MeasureRun | mixorama/scales.py:55-59 | The collection one `measure()` makes: five samples against a timeout of 1000 ms started at the call. |
| Scales.Samples | mixorama/scales.py:23-25 | The kept samples are never 0 or -1 and are no more than the reads. |
| Scales.GatherSpec | mixorama/scales.py:14-27 | A success holds exactly the samples among the reads made, exactly `times` of them, and reads no further than needed. A TimeoutError follows a clock reading past the deadline, with fewer than `times` samples. |
| Scales.OutOfTimeFailsAtOnce | mixorama/scales.py:18-21 | With the timeout already out, a collection raises TimeoutError before reading. |
| Scales.MeanOfSteadyLoad | mixorama/scales.py:59 | The mean of samples all equal to c is c. |
| Scales.MeanBounds | mixorama/scales.py:59 | The mean lies between the smallest and largest sample. |
| Scales.WindowIsOpenBand | mixorama/scales.py:72-73 | `value_is_in_window` is the open band abs(v - target) < target/100 * tolerance. It is empty when that half-width is not positive, and its edges are excluded. |
| Scales.Hx711.constructor | mixorama/scales.py:12-13 | No timeout is cached yet, and nothing has been read. |
| Scales.Hx711.Collect | mixorama/scales.py:19-27 | The loop reads and times out exactly as the specification `Gather`. |
| Scales.Hx711.GetRawData | mixorama/scales.py:14-27 | As written: the first call caches its timeout, and later calls reuse the old deadline. |
| Scales.Hx711.GetRawDataPerCall | mixorama/scales.py:14-27 | Each call starts its own timeout of `timeout` ms. |
| Scales.Scales.constructor | mixorama/scales.py:38-46 | Tare 0, abort event clear. |
| Scales.Scales.Measure | mixorama/scales.py:55-64 | Ok(mean of five samples minus the tare), or ScalesTimeoutException when the read times out. |
| Scales.Scales.Reset | mixorama/scales.py:52-53 | As written: the tare becomes the mean minus the old tare. A timeout leaves the tare as it was. |
| Scales.Scales.ResetToCurrentLoad | mixorama/scales.py:52-53 | The tare becomes the current mean load. A timeout leaves the tare as it was. |
| Scales.Scales.AbortWaitingForWeight | mixorama/scales.py:95-96 | Sets the abort event. |
| Scales.Scales.ClearAbortEvent | mixorama/scales.py:66-67 | `wait_for_weight` starts by clearing the event. |
| Scales.StaleTimeoutRun | mixorama/scales.py:18-21 | With a 300 ms clock, the second `get_raw_data(3, 1000)` as written times out, while per-call timeouts succeed. |
| Scales.GatherInTime | mixorama/scales.py:19-27 | When the next reads are samples and the clock stays within the deadline, the collection succeeds after exactly the missing number of reads. |
| Scales.SteadyMeasureSucceeds | mixorama/scales.py:55-59 | On a steady load read every 100 ms, `measure` succeeds after five reads. |
| Scales.TwoResetsOnSteadyLoad | mixorama/scales.py:52-59 | On a steady load c, two resets as written leave tare 0, and two intended resets leave tare c. |
| Scales.SteadySamples | mixorama/scales.py:58-59 | Any five samples of a steady load average to that load. |
| Recipes.NewComponent | mixorama/recipes.py:4-12 | `Component(name, density, strength)` with the defaults 1 and 0 and the class name for a falsy name. |
| Recipes.NewRecipe | mixorama/recipes.py:25-30 | `Recipe(name, sequence, **meta)`: `sequence or []`, the class name for a falsy name, the meta attributes set. |
| Recipes.Volume | mixorama/recipes.py:32-33 | The sum of the pair volumes; proved in `VolumeAppend` and `PositiveVolumesBound`. |
| Recipes.Weight | mixorama/recipes.py:35-36 | The sum of volume times density; proved in `DefaultDensityWeight`. |
| Recipes.AlcoholVolume | mixorama/recipes.py:39 | The sum of volume times strength; proved in `AlcoholVolumeBounds`. |
| Recipes.Strength | mixorama/recipes.py:38-40 | Alcohol volume over volume, ZeroDivisionError at volume 0; proved in `StrengthWithinComponents` and `NonAlcoholicStrength`. |
| Recipes.Line | mixorama/recipes.py:46 | `'{} ml of {}'.format(v, str(c))`. |
| Recipes.Join | mixorama/recipes.py:46-47 | `"\n".join(...)`; inverted by splitting in `SplitJoin`. |
| Recipes.RecipeString | mixorama/recipes.py:45-47 | `str(recipe)`; proved in `RecipeStringLines` and `EmptyRecipeString`. |
| Recipes.ConstructorDefaults | mixorama/recipes.py:1-30 | Defaults: density 1, strength 0, empty sequence, the class names. A falsy name keeps the class default, and a non-empty one replaces it. |
| Recipes.VolumeAppend | mixorama/recipes.py:32-33 | The volume of a concatenation is the sum of the volumes. |
| Recipes.PositiveVolumesBound | mixorama/recipes.py:32-33 | With positive volumes, the volume is at least the number of pairs and positive for a non-empty recipe. |
| Recipes.DefaultDensityWeight | mixorama/recipes.py:35-36 | With density 1 everywhere, the weight equals the volume. |
| Recipes.AlcoholVolumeBounds | mixorama/recipes.py:38-40 | The alcohol volume lies between the smallest and largest strength times the volume. |
| Recipes.StrengthWithinComponents | mixorama/recipes.py:38-40 | With positive volumes, the strength is defined and lies between the smallest and largest component strength. |
| Recipes.NonAlcoholicStrength | mixorama/recipes.py:38-40 | All strengths 0: the strength is 0, or ZeroDivisionError when the volume is 0. |
| Recipes.IntToString | mixorama/recipes.py:45-47 | A volume renders as a non-empty string of digits and '-'. |
| Recipes.Lines | mixorama/recipes.py:45-47 | One "{v} ml of {name}" line per pair, in order. |
| Recipes.RecipeStringLines | mixorama/recipes.py:45-47 | When names hold no newline, splitting `str(recipe)` at newlines gives back exactly one line per pair, in order. |
| Recipes.EmptyRecipeString | mixorama/recipes.py:45-47 | An empty recipe renders as "". |
| Factory.MetaEntry | mixorama/factory.py:64 | The value `sequence.pop('meta')` returns, when the key is there. |
| Factory.BadMeta | mixorama/factory.py:65 | A volume under `meta`, on which `meta.get` raises AttributeError. |
| Factory.MetaOf | mixorama/factory.py:64 | The popped table, or `{}`. |
| Factory.Attributes | mixorama/factory.py:65 | The meta attributes with `name` defaulting to the recipe's key. |
| Factory.BuildSequence | mixorama/factory.py:67-73 | The inner loop's pairs, or ComponentNotAvailable; proved in `BuildSequenceSpec`. |
| Factory.Process | mixorama/factory.py:63-77 | One recipe: AttributeError for a volume under `meta`, skipped for a missing component, TypeError for a `sequence` attribute, kept otherwise; proved in `ProcessKeepsIff` and `KeptRecipe`. |
| Factory.MenuOf | mixorama/factory.py:60-79 | The menu over the configuration in order; proved in `MenuAppend`, `MenuFailsIff`, `MenuHoldsOnlyKept`, `MenuHoldsAllKept` and `MenuNamesDistinct`. |
| Factory.VolumesOnly | mixorama/factory.py:60 | The annotation `Dict[str, Dict[str, int]]`: every entry other than `meta` is a volume. |
| Factory.VolumeUnderMetaFails | mixorama/factory.py:64-65 | A volume under `meta` stops `create_menu` with AttributeError, whether or not its components are in the bar. |
| Factory.StripMeta | mixorama/factory.py:64 | The pop leaves exactly the entries other than `meta`. |
| Factory.Available | mixorama/factory.py:62 | Exactly the bar's component names, each mapped to a bar component of that name. |
| Factory.BuildSequenceSpec | mixorama/factory.py:67-73 | The sequence is built exactly when every name is in the bar, as one (component, volume) pair per entry in order. Otherwise ComponentNotAvailable names the first missing component. |
| Factory.MetaIsNotAComponent | mixorama/factory.py:64-69 | `meta` is never looked up as a component. In a well-formed file every remaining entry is a volume. |
| Factory.KeptRecipe | mixorama/factory.py:63-75 | A kept recipe is named by meta `name`, else by its key (a falsy name keeps the default). It has the other meta attributes and the configured sequence. |
| Factory.ProcessKeepsIff | mixorama/factory.py:63-77 | A volume under `meta` always fails with AttributeError. Otherwise a recipe is skipped exactly when a component is missing, and fails (TypeError) exactly when all are present and meta has `sequence`. |
| Factory.MenuAppend | mixorama/factory.py:60-79 | The menu of two concatenated configurations is the two menus joined. The first failure stops the call. |
| Factory.MenuFailsIff | mixorama/factory.py:60-79 | `create_menu` raises exactly when some recipe fails. |
| Factory.MenuHoldsOnlyKept | mixorama/factory.py:60-79 | Every menu entry is a kept recipe, under its configuration key. |
| Factory.MenuHoldsAllKept | mixorama/factory.py:60-79 | Every kept recipe is on the menu, under its configuration key. |
| Factory.MenuNamesDistinct | mixorama/factory.py:60-79 | Unique recipe keys give unique menu names. |
| Factory.BuildComponentSequence | mixorama/factory.py:68-73 | The inner loop gives the specification `BuildSequence`. |
| Factory.CreateMenu | mixorama/factory.py:60-79 | For a configuration of the annotated shape: returns `MenuOf(Available(bar), config)`. It pops `meta` from a prefix of the recipes, and from all of them on success. |
| Factory.CreateShelf | mixorama/factory.py:42-46 | A component per configured name, built from its properties, and a default factory for any other name. |
| Factory.ShelfLookup | mixorama/factory.py:42-46 | A configured name gives its component. Any other name gives a default component (density 1, strength 0). |
| Util.MakeTimeout | mixorama/util.py:10-12 | The timeout remembers the clock reading at its creation and its delay. |
| Util.TimeIsOut | mixorama/util.py:13-14 | Strictly later than start plus delay; proved monotone in `TimeoutMonotone`. |
| Util.RunningMax | mixorama/util.py:27-32 | The value after observing a sequence from 0; proved in `RunningMaxIsMaximum`. |
| Util.Values | mixorama/util.py:70-78 | The members' values for an enum, the set itself otherwise. |
| Util.DbValue | mixorama/util.py:106-114 | `db_value`; proved in `DbValueAccepts` and the round trips. |
| Util.PythonValue | mixorama/util.py:116-125 | `python_value`: the first member with the value, or the value when it is in the set, or InvalidEnumerationValue; proved in the round trips. |
| Util.Null | mixorama/util.py:93-96 | `any(value is None ...)`; proved in `NullIffNoneValue`. |
| Util.TimeoutMonotone | mixorama/util.py:10-16 | Once out, a timeout stays out. A fresh timeout with a non-negative delay is not out. |
| Util.DefaultFactoryDict.constructor | mixorama/util.py:19 | Empty dictionary with the given factory. |
| Util.DefaultFactoryDict.Missing | mixorama/util.py:20-24 | No factory: KeyError and no change. Otherwise stores `factory(key)` under `key` and returns it. |
| Util.DefaultFactoryDict.Get | mixorama/util.py:19-24 | A stored key returns its value unchanged. A missing key goes through `__missing__`. |
| Util.DefaultFactoryDict.Set | mixorama/factory.py:45 | Item assignment stores the value under the key. |
| Util.LookupTwice | mixorama/util.py:20-24 | A miss stores the built value: a second lookup returns the same value without calling the factory again. |
| Util.RunningMaxIsMaximum | mixorama/util.py:27-32 | The running maximum bounds 0 and every observed value, and is one of them. |
| Util.MaxObserver.constructor | mixorama/util.py:27-28 | Starts at 0. |
| Util.MaxObserver.Observe | mixorama/util.py:30-32 | Keeps the larger value and returns True. The value never decreases and stays the maximum of all observations. |
| Util.StoredEnum | mixorama/util.py:62-68 | An enum is kept. Any other iterable becomes the set of its items. |
| Util.MemberValues | mixorama/util.py:70-78 | The members' values, in order. |
| Util.FirstWithValue | mixorama/util.py:116-121 | A member found has the looked-up value. |
| Util.MaxLength | mixorama/util.py:80-83 | The length of the longest string value. ValueError when there is none. |
| Util.DbValueAccepts | mixorama/util.py:106-114 | Accepted exactly when it is a member of the field's enum or one of `values`. The result is always one of `values`. Otherwise InvalidEnumerationValue. |
| Util.EnumRoundTrip | mixorama/util.py:106-125 | For an enum: `python_value(db_value(m)) == m` for every member, and `db_value(python_value(x)) == x` for every value. Other values are rejected. |
| Util.ValueSetRoundTrip | mixorama/util.py:106-125 | For a value set, both directions are the identity on `values`, and other values are rejected. |
| Util.NullIffNoneValue | mixorama/util.py:93-96 | `null` holds exactly when None is among `values`. |
| Util.DuplicateValuesCollapse | mixorama/util.py:62-68 | A repeated value changes nothing in the stored set. |
| Util.EnumField.constructor | mixorama/util.py:47-55 | The field stores what the `enum` setter makes of its argument. |
| Util.EnumField.SetEnum | mixorama/util.py:62-68 | Stores the enum, or the set of values. |

## Left out

- `wait_for_weight`'s poller thread and result queue are not modelled, beyond clearing the event and the window predicate. As written, the poller never puts its value into the queue, and it refers to `result` rather than `result_queue`. The bartender instead takes each wait's outcome as an oracle (`Bartender.PourOutcome`).
- The bartender's scale and valves are abstracted into a trace of requested actions.
- The ordering between `abort()` and a `make_drink` running on another thread is not modelled (concurrency).
- Clocks:
  - `make_timeout` reads the wall clock in float seconds;
  - the model takes a strictly advancing millisecond clock oracle and compares `now > start + delay` in integers.
- HX711 hardware is not modelled: `hx711.reset()`, `GPIO.cleanup()`, `_read()` (an oracle instead), the library's `_validate_measure_count`, and the constructor's pins and warnings.
- Scales.Scales.Measure: uses a timeout made per call (`GetRawDataPerCall`); the cached form is modelled separately (see Findings).
- Printing and logging are not modelled.
- Names:
  - `repr(current_state)` in the transition error is carried as the state itself;
  - error messages are not modelled.
- StateMachine.Registry.UnsubscribeSmTransition: the default `state=None` is not modelled, because the model's states are the program's enum members.
- `on_sm_transitions` updates the caller's `map` dict in place. The model does not update it.
- Components are compared and hashed by value, not by object identity. Python enum aliases are not modelled: an enum's members are its canonical ones.
- Component properties other than `density` and `strength` (which would raise TypeError in `Component(...)`) are excluded by the types.
- Configuration values are typed: volumes are integers and `meta` holds string attributes.
- `create_bar`, `create_bartender`, `create_usage_manager`, the GUI, the CLI and the usage database are not part of this model.
- `is_enum` is replaced by the datatype's variants.
- Factory.CreateMenu: requires every entry other than `meta` to hold a volume, as the annotation at mixorama/factory.py:60 says; a table there would be kept as the pair's volume, which a `Pair` cannot hold. `MenuOf` reads such an entry as volume 0.
- Bartender.Bartender.Abort: models the evidently intended flag; the as-written second call, which raises TypeError, is modelled by `AbortAsWritten` (see Findings).
- Util.MaxLength: is a ghost function (it picks from a set), so it is not executable.

## Findings

| source | as written | input that shows it | evidently intended | confidence | as-written member | corrected member |
|---|---|---|---|---|---|---|
| mixorama/bartender.py:19-30 | `def abort` rebinds the class attribute `abort = None`, so `self.abort` is the bound method and truthy before any abort | a fresh bartender and any non-empty recipe: `make_drink` returns False without opening a valve | a flag that is false until `abort()` runs | not executed | Bartender.FreshBartenderNeverPoursAsWritten | Bartender.PourSucceedsIff |
| mixorama/scales.py:18 | the first `make_timeout(timeout)` is cached on the instance and reused, so later calls share its deadline | a clock advancing 300 ms per reading, steady reads, two `get_raw_data(3, 1000)` calls: the second raises TimeoutError at once | a fresh timeout per call | not executed | Scales.StaleTimeoutRun | Scales.Hx711.GetRawDataPerCall |
| mixorama/scales.py:52-53 | `reset` sets the tare to `measure()`, which already subtracts the old tare | a steady load c, `reset()` twice: the tare is c, then 0 | the tare is the current load | not executed | Scales.Scales.Reset | Scales.Scales.ResetToCurrentLoad |
| mixorama/bartender.py:48-49 | `self.abort = True` shadows the method on the instance, so every later `bartender.abort()` calls `True()` and raises TypeError before the guard | a new bartender and a non-empty recipe: make_drink, abort, make_drink, abort; the second abort raises TypeError in READY, then `make_drink` is refused and `abort` raises again | every `abort()` reaches the guard and ends IDLE from POURING or READY | not executed | Bartender.SecondAbortRaisesAsWritten | Bartender.Bartender.Abort |
