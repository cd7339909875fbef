/**
 * Client code that relies on the contracts alone: each method follows one
 * documented usage of the callbacks and checks what the contracts promise.
 */
module Scenarios {
  import opened Options
  import opened MonitorOrder
  import opened MonitorCallback
  import opened Callbacks

  /** Offering 1, 5, 3, 8, 2 under larger-is-better: better on 1, 5 and 8, and 8 is kept. */
  method RunningBest()
  {
    var t := new HasMonitorCallback("CheckpointCallback", Some("acc"), true, false);
    var b1 := t.IsBetterMonitorValue(Fin(1.0));
    var b2 := t.IsBetterMonitorValue(Fin(5.0), true);
    var b3 := t.IsBetterMonitorValue(Fin(3.0), true);
    var b4 := t.IsBetterMonitorValue(Fin(8.0), true);
    var b5 := t.IsBetterMonitorValue(Fin(2.0), true);
    assert b1 && b2 && !b3 && b4 && !b5;
    assert t.monitorValue == Fin(8.0);
  }

  /** Asking without keeping reports the comparison and leaves the stored value alone. */
  method AskWithoutKeeping()
  {
    var t := new HasMonitorCallback("EarlyStopCallback", Some("loss"), false);
    var b1 := t.IsBetterMonitorValue(Fin(0.5), false);
    assert b1 && t.monitorValue == PosInf;
    var b2 := t.IsBetterMonitorValue(Fin(0.5), true);
    var b3 := t.IsBetterMonitorValue(Fin(0.5), true);
    assert b2 && !b3 && t.monitorValue == Fin(0.5);
  }

  /** A monitor-requiring callback fails when neither it nor the trainer names a monitor. */
  method MissingMonitorFails()
  {
    var t := new HasMonitorCallback("CheckpointCallback", None, true, true);
    var r := t.OnAfterTrainerInitialized(Trainer(None, false));
    assert r == Fail(NoMonitor("CheckpointCallback"));
    var u := new HasMonitorCallback("CheckpointCallback", None, true, true);
    var s := u.OnAfterTrainerInitialized(Trainer(Some("f1"), false));
    assert s == Pass && u.monitor == Some("f1") && !u.largerBetter && u.monitorValue == PosInf;
  }

  /** A substituted key warns on the first call only, while the substitution stays the same. */
  method SubstitutionWarnsOnce()
  {
    var t := new HasMonitorCallback("CheckpointCallback", Some("acc"), true, false);
    var matcher: Matcher := (m, rm, res: map<string, Value>) =>
      Resolution(Some("accuracy"), if "accuracy" in res then res["accuracy"] else Fin(0.0));
    var v0, w0 := t.GetMonitorValue(map[], matcher);
    assert v0 == Fin(0.0) && !w0 && t.realMonitor == Some("acc");
    var v1, w1 := t.GetMonitorValue(map["accuracy" := Fin(0.9)], matcher);
    assert v1 == Fin(0.9) && w1;
    var v2, w2 := t.GetMonitorValue(map["accuracy" := Fin(0.95)], matcher);
    assert v2 == Fin(0.95) && !w2 && t.realMonitor == Some("accuracy");
  }

  /** A function bound to two events gets a handler on each; its name is the function's. */
  method WrapperBindsListedEvents()
  {
    var begin := EventState("on_train_begin", None, None, None);
    var batch := EventState("on_train_batch_end", Some(10), None, None);
    var w := new CallbackWrapper(EventsList([begin, batch]), UserFn("my_hook", 7));
    assert w.CallbackName() == "my_hook";
    assert [begin, batch][0].value == "on_train_begin";
    assert "on_train_begin" in BoundNames(EventsList([begin, batch]));
    assert w.HookFor("on_train_begin").Some? && w.HookFor("on_train_begin").value.Run?;
  }

  /** A hook the wrapper was not bound to keeps the no-op; a name that is neither bound nor a hook has no hook. */
  method WrapperLeavesOtherHooks()
  {
    var begin := EventState("on_train_begin", None, None, None);
    var w := new CallbackWrapper(SingleEvent(begin), UserFn("my_hook", 7));
    assert "on_train_end" != begin.value && "on_train_end" in HookNames;
    assert w.HookFor("on_train_end") == Some(NoOp);
    assert "on_x" !in HookNames;
    assert w.HookFor("on_x") == None;
  }

  /** A plain callback is named by its class and does nothing on any hook. */
  method BaseCallbackDoesNothing()
  {
    var c := new Callback("Callback");
    assert c.CallbackName() == "Callback" && c.HookFor("on_train_begin") == Some(NoOp);
  }
}
