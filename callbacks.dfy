/**
 * Callback identity and the function-adapter callback (`_CallbackWrapper`)
 * that binds one plain function to one or several trainer events.
 */
module Callbacks {
  import opened Options

  /** A user function: its `__name__` and an identity standing for the function object. */
  datatype UserFn = UserFn(name: string, id: nat)

  /**
   * One event as the decorator receives it: the hook name it stands for
   * (`value`) and its filter parameters `every`, `once` and `filter_fn`
   * (the predicate is an identity, since its code is not modelled).
   */
  datatype EventState = EventState(value: string, every: Option<int>, once: Option<int>, filterFn: Option<nat>)

  /** The `event` argument: an `EventsList`, a single event state, or anything else. */
  datatype EventArg = EventsList(events: seq<EventState>) | SingleEvent(event: EventState) | OtherArg

  /**
   * `Filter(every, once, filter_fn)(fn)`: the filtered handler. Its firing
   * policy belongs to the filter and is not modelled; the handler is known
   * only by what it was built from.
   */
  datatype Handler = Filtered(every: Option<int>, once: Option<int>, filterFn: Option<nat>, fn: UserFn)

  /** What a callback does on an event: the default no-op, or a bound handler. */
  datatype Hook = NoOp | Run(handler: Handler)

  /** The hooks every callback has, each a no-op unless overridden. */
  const HookNames: set<string> := {
    "on_after_trainer_initialized", "on_sanity_check_begin", "on_sanity_check_end",
    "on_train_begin", "on_train_end", "on_train_epoch_begin", "on_train_epoch_end",
    "on_fetch_data_begin", "on_fetch_data_end", "on_train_batch_begin", "on_train_batch_end",
    "on_exception", "on_save_model", "on_load_model", "on_save_checkpoint", "on_load_checkpoint",
    "on_before_backward", "on_after_backward", "on_before_optimizers_step", "on_after_optimizers_step",
    "on_before_zero_grad", "on_after_zero_grad", "on_validate_begin", "on_validate_end"
  }

  /** The handler the wrapper installs for one event. */
  function FilterOf(e: EventState, fn: UserFn): Handler
  {
    Filtered(e.every, e.once, e.filterFn, fn)
  }

  /** The handlers installed by binding each of `es` in turn; a later event overwrites an earlier one of the same name. */
  function BindEach(es: seq<EventState>, fn: UserFn): map<string, Handler>
    decreases |es|
  {
    if es == [] then map[]
    else BindEach(es[..|es| - 1], fn)[es[|es| - 1].value := FilterOf(es[|es| - 1], fn)]
  }

  /** The handlers `_CallbackWrapper(event, fn)` installs, by hook name. */
  function Bindings(event: EventArg, fn: UserFn): map<string, Handler>
  {
    match event
    case EventsList(es) => BindEach(es, fn)
    case SingleEvent(e) => map[e.value := FilterOf(e, fn)]
    case OtherArg => map[]
  }

  /** The hook names named by the `event` argument. */
  function BoundNames(event: EventArg): set<string>
  {
    match event
    case EventsList(es) => set i | 0 <= i < |es| :: es[i].value
    case SingleEvent(e) => {e.value}
    case OtherArg => {}
  }

  /** Binding a list installs a handler for each listed event and for no other name. */
  lemma {:induction false} BindEachDomain(es: seq<EventState>, fn: UserFn)
    ensures BindEach(es, fn).Keys == set i | 0 <= i < |es| :: es[i].value
    decreases |es|
  {
    if es != [] {
      var init := es[..|es| - 1];
      BindEachDomain(init, fn);
      assert forall i :: 0 <= i < |init| ==> init[i] == es[i];
    }
  }

  /** The handler on a name is the filtered function of the last event of that name in the list. */
  lemma {:induction false} BindEachLastWins(es: seq<EventState>, fn: UserFn, i: nat)
    requires i < |es|
    requires forall j :: i < j < |es| ==> es[j].value != es[i].value
    ensures es[i].value in BindEach(es, fn)
    ensures BindEach(es, fn)[es[i].value] == FilterOf(es[i], fn)
    decreases |es|
  {
    if i < |es| - 1 {
      var init := es[..|es| - 1];
      assert init[i] == es[i];
      BindEachLastWins(init, fn, i);
    }
  }

  /**
   * The wrapper binds exactly the names its argument lists (one for a single
   * event, none for an argument of any other type), each to a handler built
   * from one of those events and the wrapped function.
   */
  lemma BindingsExactlyNamed(event: EventArg, fn: UserFn)
    ensures Bindings(event, fn).Keys == BoundNames(event)
    ensures forall n :: n in Bindings(event, fn) ==> Bindings(event, fn)[n].fn == fn
  {
    match event
    case EventsList(es) =>
      BindEachDomain(es, fn);
      forall n | n in Bindings(event, fn)
        ensures Bindings(event, fn)[n].fn == fn
      {
        var i :| 0 <= i < |es| && es[i].value == n;
        var j := LastOccurrence(es, i);
        BindEachLastWins(es, fn, j);
      }
    case SingleEvent(e) =>
    case OtherArg =>
  }

  /** The index of the last event in `es` whose name is that of `es[i]`. */
  ghost function LastOccurrence(es: seq<EventState>, i: nat): (j: nat)
    requires i < |es|
    ensures i <= j < |es| && es[j].value == es[i].value
    ensures forall k :: j < k < |es| ==> es[k].value != es[i].value
    decreases |es| - i
  {
    if exists k :: i < k < |es| && es[k].value == es[i].value then
      var k :| i < k < |es| && es[k].value == es[i].value;
      LastOccurrence(es, k)
    else i
  }

  /** `Callback`: every hook is the default no-op, and the name is the class name. */
  class Callback {
    const className: string

    constructor (className: string)
      ensures CallbackName() == className
      ensures forall e :: HookFor(e) == (if e in HookNames then Some(NoOp) else None)
    {
      this.className := className;
    }

    /** `callback_name`: `self.__class__.__name__`. */
    function CallbackName(): string
    {
      className
    }

    /** What the callback does on the hook `e`; None when it has no hook of that name. */
    function HookFor(e: string): Option<Hook>
    {
      if e in HookNames then Some(NoOp) else None
    }
  }

  /** `_CallbackWrapper`: a callback holding one user function, bound to the given events. */
  class CallbackWrapper {
    const fn: UserFn
    /** The handlers installed on the instance, by hook name. */
    var handlers: map<string, Handler>

    /** `__init__(event, fn)`. */
    constructor (event: EventArg, fn: UserFn)
      ensures this.fn == fn && CallbackName() == fn.name
      ensures handlers == Bindings(event, fn)
      ensures forall e :: HookFor(e).Some? && HookFor(e).value.Run? <==> e in BoundNames(event)
      ensures forall e :: HookFor(e).Some? && HookFor(e).value.Run? ==> HookFor(e).value.handler.fn == fn
      ensures forall e :: e !in BoundNames(event) ==> HookFor(e) == (if e in HookNames then Some(NoOp) else None)
    {
      this.fn := fn;
      handlers := map[];
      new;
      match event {
        case EventsList(es) =>
          for i := 0 to |es|
            invariant handlers == BindEach(es[..i], fn)
          {
            assert es[..i + 1][..i] == es[..i];
            handlers := handlers[es[i].value := FilterOf(es[i], fn)];
          }
          assert es[..|es|] == es;
        case SingleEvent(e) =>
          handlers := handlers[e.value := FilterOf(e, fn)];
        case OtherArg =>
      }
      BindingsExactlyNamed(event, fn);
    }

    /** `callback_name`: the wrapped function's `__name__`. */
    function CallbackName(): string
    {
      fn.name
    }

    /**
     * What the wrapper does on the hook `e`: the bound handler, else the
     * default no-op of a catalogue hook; None when it has no hook of that name.
     */
    function HookFor(e: string): Option<Hook>
      reads this
    {
      if e in handlers then Some(Run(handlers[e]))
      else if e in HookNames then Some(NoOp)
      else None
    }
  }
}
