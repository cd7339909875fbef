/**
 * `HasMonitorCallback`: a callback that tracks one named metric of the
 * evaluation results and keeps the best value seen so far.
 */
module MonitorCallback {
  import opened Options
  import opened MonitorOrder

  /** The two trainer fields the tracker consults (`trainer.monitor`, `trainer.larger_better`). */
  datatype Trainer = Trainer(monitor: Option<string>, largerBetter: bool)

  /** The configuration error raised at initialization, naming the callback's class. */
  datatype ConfigError = NoMonitor(callbackClass: string)

  /** What the metric matcher returns: the key it settled on and the value found there. */
  datatype Resolution = Resolution(key: Option<string>, value: Value)

  /**
   * The metric matcher `_get_monitor_value(monitor, real_monitor, results)`.
   * Its fuzzy matching is not part of this model, so every matcher is allowed.
   */
  type Matcher = (Option<string>, Option<string>, map<string, Value>) -> Resolution

  class HasMonitorCallback {
    /** The name of the concrete callback class (used for `callback_name` and in the error). */
    const className: string
    /** `must_have_moinitor`: whether initialization fails when no monitor is set. */
    const mustHaveMonitor: bool

    /** `monitor`: the requested metric name, or None to inherit the trainer's. */
    var monitor: Option<string>
    /** `larger_better`: the direction of improvement. */
    var largerBetter: bool
    /** `monitor_value`: the best value kept so far. */
    var monitorValue: Value
    /** `_real_monitor`: the key the matcher settled on last time. */
    var realMonitor: Option<string>

    /** The values offered with `keep_if_better=True` since the last `set_monitor`. */
    ghost var offered: seq<Value>

    /** The stored value is the best of the values offered since the reset. */
    ghost predicate Valid()
      reads this
    {
      monitorValue == BestOf(largerBetter, offered)
    }

    /** `callback_name`: the class name. */
    function CallbackName(): string
    {
      className
    }

    /** `__init__(monitor, larger_better, must_have_monitor)`. */
    constructor (className: string, monitor: Option<string>, largerBetter: bool, mustHaveMonitor: bool := false)
      ensures Valid()
      ensures CallbackName() == className && this.mustHaveMonitor == mustHaveMonitor
      ensures this.monitor == monitor && this.largerBetter == largerBetter
      ensures monitorValue == Worst(largerBetter) && realMonitor == monitor && offered == []
    {
      this.className := className;
      this.mustHaveMonitor := mustHaveMonitor;
      new;
      SetMonitor(monitor, largerBetter);
    }

    /**
     * `set_monitor(monitor, larger_better)`: adopts the name and direction and
     * resets the stored value to the worst sentinel for that direction.
     */
    method SetMonitor(monitor: Option<string>, largerBetter: bool)
      modifies this
      ensures Valid()
      ensures this.monitor == monitor && this.largerBetter == largerBetter
      ensures monitorValue == (if largerBetter then NegInf else PosInf)
      ensures realMonitor == monitor && offered == []
    {
      this.monitor := monitor;
      this.largerBetter := largerBetter;
      if largerBetter {
        monitorValue := NegInf;
      } else {
        monitorValue := PosInf;
      }
      realMonitor := this.monitor;
      offered := [];
    }

    /**
     * `on_after_trainer_initialized(trainer, driver)`: inherits the trainer's
     * monitor when this callback has none and the trainer has one, then fails
     * exactly when a monitor is required and still missing.
     */
    method OnAfterTrainerInitialized(trainer: Trainer) returns (r: Outcome<ConfigError>)
      requires Valid()
      modifies this
      ensures Valid()
      ensures old(monitor).None? && trainer.monitor.Some? ==>
        && monitor == trainer.monitor && largerBetter == trainer.largerBetter
        && monitorValue == Worst(trainer.largerBetter) && realMonitor == trainer.monitor && offered == []
      ensures !(old(monitor).None? && trainer.monitor.Some?) ==>
        && monitor == old(monitor) && largerBetter == old(largerBetter)
        && monitorValue == old(monitorValue) && realMonitor == old(realMonitor) && offered == old(offered)
      ensures r.Fail? <==> mustHaveMonitor && monitor.None?
      ensures r.Fail? <==> mustHaveMonitor && old(monitor).None? && trainer.monitor.None?
      ensures r.Fail? ==> r.error == NoMonitor(className)
    {
      if monitor.None? && trainer.monitor.Some? {
        SetMonitor(trainer.monitor, trainer.largerBetter);
      }
      if mustHaveMonitor && monitor.None? {
        return Fail(NoMonitor(className));
      }
      return Pass;
    }

    /**
     * `get_monitor_value(results)`: 0 on empty results with nothing changed;
     * otherwise the matcher's value, remembering the matcher's key as
     * `_real_monitor` and warning exactly when that key differs from the
     * previous one.
     */
    method GetMonitorValue(results: map<string, Value>, matcher: Matcher) returns (v: Value, warned: bool)
      requires Valid()
      modifies this
      ensures Valid()
      ensures monitor == old(monitor) && largerBetter == old(largerBetter)
      ensures monitorValue == old(monitorValue) && offered == old(offered)
      ensures |results| == 0 ==> v == Fin(0.0) && !warned && realMonitor == old(realMonitor)
      ensures |results| != 0 ==>
        var res := matcher(old(monitor), old(realMonitor), results);
        && v == res.value && realMonitor == res.key
        && warned == (old(realMonitor) != res.key)
    {
      if |results| == 0 {
        return Fin(0.0), false;
      }
      var res := matcher(monitor, realMonitor, results);
      warned := realMonitor != res.key;
      realMonitor := res.key;
      v := res.value;
    }

    /** `is_former_monitor_value_better(v1, v2)` under this callback's direction. */
    function IsFormerMonitorValueBetter(v1: Value, v2: Value): (b: bool)
      reads this
      ensures b == Better(largerBetter, v1, v2)
      ensures b ==> v1 != v2
    {
      Better(largerBetter, v1, v2)
    }

    /**
     * `is_better_monitor_value(value, keep_if_better)`: compares `value` with
     * the stored value, and stores it only when it is better and keeping was
     * asked for. The stored value never gets worse.
     */
    method IsBetterMonitorValue(value: Value, keepIfBetter: bool := true) returns (better: bool)
      requires Valid()
      modifies this
      ensures Valid()
      ensures better == Better(largerBetter, value, old(monitorValue))
      ensures monitorValue == (if keepIfBetter && better then value else old(monitorValue))
      ensures monitorValue == old(monitorValue) || Better(largerBetter, monitorValue, old(monitorValue))
      ensures offered == (if keepIfBetter then old(offered) + [value] else old(offered))
      ensures monitor == old(monitor) && largerBetter == old(largerBetter) && realMonitor == old(realMonitor)
    {
      better := IsFormerMonitorValueBetter(value, monitorValue);
      if keepIfBetter {
        KeepNeverWorse(largerBetter, offered, value);
        if better {
          monitorValue := value;
        }
        offered := offered + [value];
      }
    }
  }
}
