/** The tasklet record, what its code is doing, and the observable flags
    the lifecycle tests check (`assert_state_*`). */
module Tasklets {
  import opened Types

  /** What a scheduler-run send loop does when its items are exhausted:
      return the count to the tasklet's own code (`send_sequence`), or end
      the tasklet (a `Producer` body). */
  datatype Cont = ReturnCount | Exit

  /** The code a live tasklet runs next.
      - `Driven`: the tasklet's own statements, carried out by the caller;
      - `Sends`: a send loop with the items still to send and the count sent;
      - `Recv`: `c.receive()`, once or forever;
      - `Done`: the last blocking call returned, the function returns next. */
  datatype Body =
    | Driven
    | Sends(ch: Cid, rest: seq<Value>, sent: nat, k: Cont)
    | Recv(ch: Cid, forever: bool)
    | Done

  /** A tasklet. `alive` means it has a frame; `waitingOn` names the channel
      it is parked on; `pendingKill` is a kill(pending=True) not yet
      delivered. */
  datatype Tasklet = Tasklet(
    func: Option<Func>,
    alive: bool,
    tempval: Value,
    atomic: bool,
    body: Body,
    pendingKill: bool,
    waitingOn: Option<Cid>)

  /** The `tempval` of a tasklet that is not alive: the bound callable, if any. */
  function BoundValue(f: Option<Func>): (v: Value)
    ensures v == PyNone <==> f == None
  {
    if f.Some? then Fn(f.value) else PyNone
  }

  /** The body a callable starts with when the tasklet is set up. */
  function BodyOf(f: Func): (b: Body)
    ensures f.Callback? <==> b == Driven
    ensures f.Producer? ==> b == Sends(f.ch, f.items, 0, Exit)
    ensures f.Consumer? ==> b == Recv(f.ch, f.forever)
  {
    match f
    case Callback(_) => Driven
    case Producer(ch, items) => Sends(ch, items, 0, Exit)
    case Consumer(ch, forever) => Recv(ch, forever)
  }

  /** `stackless.tasklet()` and `stackless.tasklet(f)`. */
  function NewTasklet(f: Option<Func>): (t: Tasklet)
    ensures !t.alive && t.func == f && t.tempval == BoundValue(f)
    ensures !t.atomic && !t.pendingKill && t.waitingOn == None && t.body == Driven
  {
    Tasklet(f, false, BoundValue(f), false, Driven, false, None)
  }

  /** A tasklet whose frame is gone (killed, finished, or unbound). */
  function Corpse(t: Tasklet): (r: Tasklet)
    ensures !r.alive && r.func == None && r.tempval == PyNone && r.atomic == t.atomic
    ensures !r.pendingKill && r.waitingOn == None && r.body == Driven
  {
    Tasklet(None, false, PyNone, t.atomic, Driven, false, None)
  }

  /** The observable attributes of a tasklet. `block_trap` and
      `ignore_nesting` are never set by the tests and stay false. */
  datatype Flags = Flags(
    alive: bool,
    paused: bool,
    blocked: bool,
    scheduled: bool,
    restorable: bool,
    atomic: bool,
    blockTrap: bool,
    ignoreNesting: bool,
    isCurrent: bool,
    isMain: bool,
    tempval: Value)

  /** `check_tasklet_flags`: the named flags have the given values, every
      other flag is false. */
  predicate FlagsAre(fl: Flags, alive: bool, paused: bool, scheduled: bool,
                     restorable: bool, isCurrent: bool, isMain: bool)
  {
    && fl.alive == alive && fl.paused == paused && fl.scheduled == scheduled
    && fl.restorable == restorable && fl.isCurrent == isCurrent && fl.isMain == isMain
    && !fl.blocked && !fl.atomic && !fl.blockTrap && !fl.ignoreNesting
  }

  /** `assert_state_notalive` */
  predicate StateNotAlive(fl: Flags) {
    FlagsAre(fl, false, false, false, true, false, false) && fl.tempval == PyNone
  }

  /** `assert_state_bound` */
  predicate StateBound(fl: Flags, f: Func) {
    FlagsAre(fl, false, false, false, true, false, false) && fl.tempval == Fn(f)
  }

  /** `assert_state_scheduled`, without the tempval check when `anyTempval`. */
  predicate StateScheduled(fl: Flags, isMain: bool, anyTempval: bool) {
    FlagsAre(fl, true, false, true, true, false, isMain) && (anyTempval || fl.tempval == PyNone)
  }

  /** `assert_state_paused` */
  predicate StatePaused(fl: Flags, isMain: bool) {
    FlagsAre(fl, true, true, false, true, false, isMain) && fl.tempval == PyNone
  }

  /** `assert_state_current` */
  predicate StateCurrent(fl: Flags) {
    FlagsAre(fl, true, false, true, true, true, false) && fl.tempval == PyNone
  }

  /** `assert_state_scheduler`: the tasklet has called `stackless.run()`. */
  predicate StateInScheduler(fl: Flags, isMain: bool) {
    FlagsAre(fl, true, true, false, false, false, isMain) && fl.tempval == PyNone
  }
}
