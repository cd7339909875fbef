# fastNLP callbacks: monitor tracking and function-adapter binding

This project models the core of `fastNLP/core/callbacks/callback.py`, in two parts.

- **`HasMonitorCallback`** tracks one named metric of the trainer's evaluation results. It holds:
  - `monitor`, the requested name;
  - `larger_better`, the direction of improvement;
  - `monitor_value`, the best value kept so far;
  - `_real_monitor`, the key the metric matcher settled on last time.

  It is modelled as the class `MonitorCallback.HasMonitorCallback`, with one method per operation that changes the state: `SetMonitor`, `OnAfterTrainerInitialized`, `GetMonitorValue` and `IsBetterMonitorValue`. The comparator `is_former_monitor_value_better` is the pure predicate `MonitorOrder.Better`, and the class function `IsFormerMonitorValueBetter` applies it to the callback's own direction. Monitor values are only compared, never computed, so a float is an element of `MonitorOrder.Value`: `NegInf | Fin(real) | PosInf`. A ghost field `offered` records the values offered with `keep_if_better=True` since the last `set_monitor`. The invariant `Valid()` keeps `monitor_value` equal to `MonitorOrder.BestOf` of those values, so the stored value is the best value offered since the reset.
- **Callback identity and `_CallbackWrapper`.** `Callbacks.Callback` is the base callback: every hook is the default no-op, and `callback_name` is the class name. `Callbacks.CallbackWrapper` is the function adapter. It stores the user function and installs a filtered handler for each event of an `EventsList`, or for a single event. The installed handlers are kept as a map from hook name to handler. Any catalogue hook (`Callbacks.HookNames`) with no entry in that map is the default no-op. A name that is neither bound nor a hook has no hook of that name (`None`). The wrapper's `callback_name` is the function's `__name__`.

The module `Scenarios` holds client methods that use only the contracts. They check the running best of 1, 5, 3, 8, 2; the must-have-monitor failure; a substitution that warns once; and a wrapper bound to two events.

## Model

| member | source | states |
|---|---|---|
| MonitorOrder.Worst | fastNLP/core/callbacks/callback.py:304-307 | the reset sentinel (−∞ when larger is better, +∞ otherwise) is beaten by every other value and beats none |
| MonitorOrder.Better | fastNLP/core/callbacks/callback.py:367-371 | `is_former_monitor_value_better(v1, v2)` for direction `larger_better`: true iff larger is better and v1 > v2, or smaller is better and v1 < v2, with −∞ below and +∞ above every finite value; a tie is never better |
| MonitorCallback.HasMonitorCallback.IsFormerMonitorValueBetter | fastNLP/core/callbacks/callback.py:359-371 | the comparator under the callback's own `larger_better`; a tie is never better |
| MonitorOrder.NeverBetterOnTie | fastNLP/core/callbacks/callback.py:367-371 | an equal value is never better, in either direction |
| MonitorOrder.ExactlyOneOrderBetter | fastNLP/core/callbacks/callback.py:367-371 | two values are distinct iff exactly one of the two orders says the first is better |
| MonitorOrder.BetterTransitive | fastNLP/core/callbacks/callback.py:367-371 | "is better" is transitive in both directions |
| MonitorOrder.DirectionSwapsArguments | fastNLP/core/callbacks/callback.py:368-369 | flipping `larger_better` is the same as swapping the two values compared |
| MonitorOrder.BetterOnFinite | fastNLP/core/callbacks/callback.py:368-369 | on finite values, better means `>` when larger is better and `<` otherwise |
| MonitorOrder.KeepNeverWorse | fastNLP/core/callbacks/callback.py:354-356 | offering one more value with keeping on never makes the stored value worse, and the new stored value is the old one updated by that offer |
| MonitorOrder.BestOfIsBest | fastNLP/core/callbacks/callback.py:346-357 | starting from the sentinel, the stored value is one of the offered values (the sentinel if none) and no offered value is better than it |
| MonitorOrder.BestOfFiniteIsExtremum | fastNLP/core/callbacks/callback.py:346-357 | with only finite values offered, the stored value is finite and one of them, and no offered value exceeds it (larger is better) or falls below it (smaller is better): their maximum or minimum |
| MonitorCallback.HasMonitorCallback.constructor | fastNLP/core/callbacks/callback.py:297-299 | the new callback holds the given monitor, direction and must-have flag, the sentinel value, `_real_monitor == monitor`, and its name is the class name |
| MonitorCallback.HasMonitorCallback.SetMonitor | fastNLP/core/callbacks/callback.py:301-308 | sets monitor and direction, resets the stored value to −∞ or +∞ by direction, sets `_real_monitor` to the new monitor, and restarts the record of offered values |
| MonitorCallback.HasMonitorCallback.OnAfterTrainerInitialized | fastNLP/core/callbacks/callback.py:310-323 | adopts the trainer's monitor and direction (through a reset) iff its own monitor is None and the trainer's is not, else changes nothing; fails, naming the class, iff a monitor is required and none is set afterwards, that is iff neither side had one |
| MonitorCallback.HasMonitorCallback.GetMonitorValue | fastNLP/core/callbacks/callback.py:325-344 | empty results give 0 with no warning and no state change; otherwise it returns the matcher's value, sets `_real_monitor` to the matcher's key, and warns iff that key differs from the previous one; the stored value and direction never change |
| MonitorCallback.HasMonitorCallback.IsBetterMonitorValue | fastNLP/core/callbacks/callback.py:346-357 | returns the comparator's result for the value against the stored one; stores the value iff it is better and keeping was asked for; the stored value never gets worse, and it stays the best of the kept values |
| Callbacks.BindEachDomain | fastNLP/core/callbacks/callback.py:269-272 | binding an `EventsList` installs a handler on exactly the names of its events |
| Callbacks.BindEachLastWins | fastNLP/core/callbacks/callback.py:269-272 | the handler on a name is the filter of the last event of that name in the list, applied to the function |
| Callbacks.BindingsExactlyNamed | fastNLP/core/callbacks/callback.py:262-275 | the wrapper binds exactly the names its argument lists (one for a single event, none for an argument of any other type), each to a handler around the wrapped function |
| Callbacks.Callback.constructor | fastNLP/core/callbacks/callback.py:20-254 | a base callback's name is its class name; every hook of the catalogue is the default no-op, and a name that is not a catalogue hook has no hook of that name |
| Callbacks.CallbackWrapper.constructor | fastNLP/core/callbacks/callback.py:262-279 | the wrapper keeps `fn` and is named by `fn.__name__`; a hook runs a handler iff its name was bound, that handler wraps `fn`, every other catalogue hook stays the no-op, and any other unbound name has no hook of that name |

## Left out

- The bodies of the hook methods (`callback.py` lines 20-245) are documentation only. They appear solely as the default `NoOp` hook. The trainer that dispatches events is not part of this model.
- `_get_monitor_value`, the fuzzy metric matcher, lives in `fastNLP/core/callbacks/utils.py`, which is not part of this model. It is a parameter of `GetMonitorValue` that may be any function. It returns a key (possibly None) and a value.
- `Filter`, `Events`, `EventsList` and `_SingleEventState` live in `callback_events.py`, which is not part of this model. A filtered handler is an opaque record of the filter's parameters and the function. The filter's call counter and firing policy are not modelled.
- `CanItemDataType` and the `apply_to_collection(..., x.item())` conversion are Python reflection over tensor types. Results are assumed to hold plain numbers already.
- The `str(monitor)` and `bool(larger_better)` conversions in `set_monitor` are not modelled: the monitor is already a string or None, and the direction is already a bool.
- The text of the warning is not modelled. `GetMonitorValue` reports a warning only as its `warned` result.
- The `driver` argument of `on_after_trainer_initialized` is unused and left out. The trainer appears only through its `monitor` and `larger_better` fields.
- Float specifics are left out: NaN, and any arithmetic. Values are compared only, in the extended order with ±∞, so a -0.0 / 0.0 distinction does not exist either.
- Checkpoint save and restore is left out. `callback.py` implements neither in `HasMonitorCallback`; the base hooks are no-ops.
- `HookFor` describes the hooks only. Attributes that are not hooks, such as `callback_name` on every callback and `fn` on the wrapper, are outside it; `None` means no hook of that name, not no attribute.
- `CallbackWrapper.constructor`: the handlers live in a map of their own, not in the object's attribute namespace. An event whose name clashes with an attribute of the wrapper is therefore not modelled. In Python, an event named `callback_name` raises `AttributeError`, because that property has no setter. An event named `fn` overwrites the stored function. Every event of the `Events` catalogue names a hook (`Callbacks.HookNames`), so no catalogue event clashes.
- The error path of `on_after_trainer_initialized` is an `Outcome` result rather than a raised `RuntimeError`.
- The warning is not one-time per run: the code warns on every change of the resolved key, and this model follows the code.
