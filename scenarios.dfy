/** Test scenarios of the conformance suite, replayed on a scheduler
    object: each method starts a fresh thread scheduler, performs the
    calls of one test in order and returns what the test observes. */
module Scenarios {
  import opened Types
  import opened Channels
  import opened Tasklets
  import opened Scheduler
  import opened Runtime
  import ChannelProps
  import SchedulerProps
  import Lifecycle
  import Threads

  /** A one-shot tasklet `tasklet(c.send)(None)` or `tasklet(c.receive)()`
      is created, set up and run until it parks on `c`. */
  method Start(rt: ThreadScheduler, c: Cid, sending: bool) returns (t: Tid)
    requires rt.Ready() && rt.runq == [Main] && c < |rt.chans| && !rt.chans[c].closing
    requires if sending then rt.chans[c].balance >= 0 else rt.chans[c].balance <= 0
    modifies rt
    ensures rt.Ready() && rt.runq == [Main] && t == old(|rt.tasks|) && |rt.tasks| == t + 1
    ensures rt.chans == old(rt.chans[c := Channels.Park(rt.chans[c], Waiter(t, PyNone), sending)])
    ensures rt.chans[c].balance == old(rt.chans[c].balance) + (if sending then 1 else -1)
    ensures rt.chans[c].closing == old(rt.chans[c].closing)
    ensures rt.tasks[t].waitingOn == Some(c) && rt.tasks[..t] == old(rt.tasks)
  {
    var f := if sending then Producer(c, [PyNone]) else Consumer(c, false);
    t := rt.Create(Some(f));
    var e := rt.Setup(t);
    ChannelProps.OneShotParks(rt.Abs(), t, c, PyNone, sending);
    e := rt.RunAll();
  }

  /** `t.kill()` of a tasklet parked on `c`. */
  method KillParked(rt: ThreadScheduler, t: Tid, c: Cid)
    requires rt.Ready() && t != Main && t < |rt.tasks| && rt.tasks[t].waitingOn == Some(c)
    modifies rt
    ensures rt.Ready() && rt.runq == old(rt.runq) && rt.tasks == old(rt.tasks[t := Corpse(rt.tasks[t])])
    ensures c < |rt.chans| && rt.chans == old(rt.chans[c := Withdraw(rt.chans[c], t)])
    ensures rt.chans[c].closing == old(rt.chans[c].closing)
    ensures old(rt.chans[c].balance) > 0 ==> rt.chans[c].balance == old(rt.chans[c].balance) - 1
    ensures old(rt.chans[c].balance) < 0 ==> rt.chans[c].balance == old(rt.chans[c].balance) + 1
  {
    ChannelProps.KillWaiter(rt.Abs(), t);
    var e := rt.Kill(t, false);
  }

  /** `testAttr_balance`: two senders park, are killed one after the other,
      then the same with two receivers. Returns `c.balance` at each check. */
  method BalanceTest() returns (balances: seq<int>)
    ensures balances == [0, 1, 2, 1, 0, -1, -2, -1, 0]
  {
    var rt := new ThreadScheduler();
    var c := rt.NewChannel();
    var b0 := rt.chans[c].balance;
    assert b0 == 0;
    var t := Start(rt, c, true);
    var b1 := rt.chans[c].balance;
    assert b1 == 1;
    var t2 := Start(rt, c, true);
    var b2 := rt.chans[c].balance;
    assert b2 == 2;
    assert rt.tasks[t] == rt.tasks[..t2][t];
    KillParked(rt, t, c);
    var b3 := rt.chans[c].balance;
    assert b3 == 1;
    KillParked(rt, t2, c);
    var b4 := rt.chans[c].balance;
    assert b4 == 0;
    t := Start(rt, c, false);
    var b5 := rt.chans[c].balance;
    assert b5 == -1;
    t2 := Start(rt, c, false);
    var b6 := rt.chans[c].balance;
    assert b6 == -2;
    assert rt.tasks[t] == rt.tasks[..t2][t];
    KillParked(rt, t, c);
    var b7 := rt.chans[c].balance;
    assert b7 == -1;
    KillParked(rt, t2, c);
    var b8 := rt.chans[c].balance;
    assert b8 == 0;
    balances := [b0, b1, b2, b3, b4, b5, b6, b7, b8];
  }

  /** `testAttr_closing_closed`: `(c.closing, c.closed)` on a new channel,
      with a sender parked, after `close()`, after the sender is killed, and
      after `open()`. */
  method ClosingClosedTest() returns (flags: seq<(bool, bool)>)
    ensures flags == [(false, false), (false, false), (true, false), (true, true), (false, false)]
  {
    var rt := new ThreadScheduler();
    var c := rt.NewChannel();
    var f0 := (rt.chans[c].closing, Closed(rt.chans[c]));
    assert f0 == (false, false);
    var t := Start(rt, c, true);
    var f1 := (rt.chans[c].closing, Closed(rt.chans[c]));
    assert f1 == (false, false);
    rt.Close(c);
    var f2 := (rt.chans[c].closing, Closed(rt.chans[c]));
    assert f2 == (true, false);
    KillParked(rt, t, c);
    var f3 := (rt.chans[c].closing, Closed(rt.chans[c]));
    assert f3 == (true, true);
    rt.Open(c);
    var f4 := (rt.chans[c].closing, Closed(rt.chans[c]));
    flags := [f0, f1, f2, f3, f4];
  }

  /** `testAttr_queue`: `c.queue` is None on a new channel and the first
      sender while one or two senders wait; the first sender's `next` is
      the second. */
  method QueueTest() returns (t: Tid, t2: Tid, q0: Option<Tid>, q1: Option<Tid>, q2: Option<Tid>, n: Option<Tid>)
    ensures q0 == None && q1 == Some(t) && q2 == Some(t) && n == Some(t2) && t != t2
  {
    var rt := new ThreadScheduler();
    var c := rt.NewChannel();
    q0 := rt.Queue(c);
    t := Start(rt, c, true);
    assert rt.chans[c].waiters == [Waiter(t, PyNone)];
    q1 := rt.Queue(c);
    t2 := Start(rt, c, true);
    assert rt.chans[c].waiters == [Waiter(t, PyNone), Waiter(t2, PyNone)];
    assert rt.tasks[t] == rt.tasks[..t2][t];
    q2 := rt.Queue(c);
    n := rt.Next(t);
    assert rt.chans[c].waiters[0].t == t;
  }

  /** `testSig_schedule_remove`: `f` calls `schedule_remove(o)`; `g` loops
      `while tlet.alive: tlet.insert(); stackless.schedule()`. `f` gets
      `o` back and appends to `done` before it returns. */
  method ScheduleRemoveTest() returns (done: seq<bool>, got: Value)
    ensures done == [true] && got == Obj(0)
  {
    var rt := new ThreadScheduler();
    var t, t2 := SetupTwo(rt);
    RunRemoving(rt, t, t2);
    // g, running in t2
    done, got := InsertWhileAlive(rt, t, t2);
    var e := rt.Finish();
  }

  /** `tasklet(f)()` and `tasklet(g)()` on a fresh thread. */
  method SetupTwo(rt: ThreadScheduler) returns (t: Tid, t2: Tid)
    requires rt.Abs() == Init()
    modifies rt
    ensures rt.Ready() && rt.runq == [Main, t, t2] && rt.runq[0] == Main && |rt.tasks| == 3
    ensures t == 1 && t2 == 2
    ensures forall u :: 0 < u < 3 ==> rt.tasks[u].body == Driven && !rt.tasks[u].pendingKill && rt.tasks[u].tempval == PyNone
  {
    t := rt.Create(Some(Callback(0)));
    var e := rt.Setup(t);
    t2 := rt.Create(Some(Callback(1)));
    e := rt.Setup(t2);
  }

  /** `stackless.run()`: `f` runs in `t` and calls `schedule_remove(o)`,
      which hands over to `g` in `t2`. */
  method RunRemoving(rt: ThreadScheduler, t: Tid, t2: Tid)
    requires rt.Ready() && rt.runq == [Main, t, t2] && |rt.tasks| == 3 && t == 1 && t2 == 2
    requires forall u :: 0 < u < 3 ==> rt.tasks[u].body == Driven && !rt.tasks[u].pendingKill && rt.tasks[u].tempval == PyNone
    modifies rt
    ensures rt.Ready() && rt.runq == [t2] && |rt.tasks| == 3 && rt.tasks[t].alive && rt.tasks[t].waitingOn == None
    ensures rt.tasks[t].body == Driven && !rt.tasks[t].pendingKill && rt.tasks[t].tempval == Obj(0)
  {
    SchedulerProps.RunAllHandsOver(rt.Abs());
    var e := rt.RunAll();
    // f, running in t
    SchedulerProps.ScheduleRemoveHandsOver(rt.Abs(), Some(Obj(0)));
    rt.ScheduleRemove(Some(Obj(0)));
  }

  /** The loop of `g` in `t2`, with `f`'s remaining statements run in `t`
      whenever `g`'s `schedule()` hands control over. */
  method InsertWhileAlive(rt: ThreadScheduler, t: Tid, t2: Tid) returns (done: seq<bool>, got: Value)
    requires rt.Ready() && t < |rt.tasks| && t2 < |rt.tasks| && t != t2 && t != Main && t2 != Main
    requires rt.runq == [t2] && rt.tasks[t].alive && rt.tasks[t].waitingOn == None
    requires rt.tasks[t].body == Driven && !rt.tasks[t].pendingKill && rt.tasks[t].tempval == Obj(0)
    modifies rt
    ensures rt.Ready() && rt.runq == [t2] && t < |rt.tasks| && !rt.tasks[t].alive
    ensures done == [true] && got == Obj(0)
  {
    done, got := [], PyNone;
    while rt.tasks[t].alive
      invariant rt.Ready() && t < |rt.tasks| && t2 < |rt.tasks|
      invariant rt.runq == [t2]
      invariant rt.tasks[t].alive ==>
        rt.tasks[t].waitingOn == None && rt.tasks[t].body == Driven && !rt.tasks[t].pendingKill
        && rt.tasks[t].tempval == Obj(0) && done == []
      invariant !rt.tasks[t].alive ==> done == [true] && got == Obj(0)
      decreases if rt.tasks[t].alive then 1 else 0
    {
      got := ReviveOnce(rt, t, t2);
      done := done + [true];
    }
  }

  /** One turn of `g`'s loop: `t.insert()` and `schedule()` let `f` pick
      up the value `schedule_remove` returns, and `f` returns. */
  method ReviveOnce(rt: ThreadScheduler, t: Tid, t2: Tid) returns (got: Value)
    requires rt.Ready() && t < |rt.tasks| && t2 < |rt.tasks| && t != t2 && t != Main && t2 != Main
    requires rt.runq == [t2] && rt.tasks[t].alive && rt.tasks[t].waitingOn == None
    requires rt.tasks[t].body == Driven && !rt.tasks[t].pendingKill && rt.tasks[t].tempval == Obj(0)
    modifies rt
    ensures rt.Ready() && rt.runq == [t2] && t < |rt.tasks| && !rt.tasks[t].alive
    ensures got == Obj(0)
  {
    var e := rt.Insert(t);
    SchedulerProps.ScheduleHandsOver(rt.Abs());
    rt.Schedule(None);
    // f again: `schedule_remove(o)` returned
    got := rt.ret;
    Lifecycle.FinishHandsOver(rt.Abs());
    e := rt.Finish();
  }

  /** `testRuncount`: the run count of a thread, after `tasklet(f)()`, as
      `f` sees it in a new thread and inside `tlet.run()`, and once `f` has
      returned. */
  method RuncountTest() returns (rc1: nat, rcSetup: nat, c: seq<nat>, rcAfter: nat)
    ensures rc1 == 1 && rcSetup == rc1 + 1 && c == [1, 1, rc1 + 1, rc1 + 1] && rcAfter == rc1
  {
    var rt := new ThreadScheduler();
    rc1 := RunCount(rt.Abs());
    var tlet := rt.Create(Some(Callback(0)));
    ghost var s0 := rt.Abs();
    assert StateBound(FlagsOf(s0, tlet), Callback(0)) && !s0.nested && |s0.runq| == 1;
    rcSetup := SetupCounted(rt, tlet, s0);
    // f in a new thread, which has a scheduler of its own
    var other := new ThreadScheduler();
    c := [RunCount(other.Abs()), RunCount(other.Abs())];
    var inner;
    inner, rcAfter := RuncountInTasklet(rt, tlet, s0);
    c := c + inner;
  }

  /** `tasklet(f)()`, which schedules the new tasklet, then
      `getruncount()`. */
  method SetupCounted(rt: ThreadScheduler, tlet: Tid, ghost s0: State) returns (rc: nat)
    requires Ready(s0) && !s0.nested && IsTasklet(s0, tlet) && StateBound(FlagsOf(s0, tlet), Callback(0))
    requires rt.Abs() == s0
    modifies rt
    ensures TaskletApi.Setup(s0, tlet).Ok? && rt.Abs() == TaskletApi.Setup(s0, tlet).value
    ensures rc == RunCount(s0) + 1
  {
    SchedulerProps.SetupRunnable(s0, tlet, 0);
    var e := rt.Setup(tlet);
    rc := RunCount(rt.Abs());
  }

  /** The second half of `testRuncount`: `tlet.run()`, `f` reads the run
      count twice inside `tlet`, then returns. */
  method RuncountInTasklet(rt: ThreadScheduler, tlet: Tid, ghost s0: State) returns (c: seq<nat>, rcAfter: nat)
    requires Ready(s0) && !s0.nested && IsTasklet(s0, tlet) && StateBound(FlagsOf(s0, tlet), Callback(0))
    requires TaskletApi.Setup(s0, tlet).Ok? && rt.Abs() == TaskletApi.Setup(s0, tlet).value
    modifies rt
    ensures c == [RunCount(s0) + 1, RunCount(s0) + 1] && rcAfter == RunCount(s0)
  {
    SchedulerProps.RuncountAroundRun(s0, tlet, 0);
    ghost var s2 := TaskletApi.Run(rt.Abs(), tlet).value;
    var e := rt.Run(tlet);
    assert rt.Abs() == s2;
    // f in tlet
    c := [RunCount(rt.Abs()), RunCount(rt.Abs())];
    e := rt.Finish();
    rcAfter := RunCount(rt.Abs());
  }

  /** `testCurrent2` and `testWithTasklets`: `task = tasklet().bind(f, ())`
      then `task.run()`; inside, `current` is the task and
      `get_thread_info()` gives `(main, task, 2)`; afterwards the task is
      no longer current. */
  method RunBoundTaskTest() returns (task: Tid, info: (Tid, Tid, nat), after: Tid)
    ensures info == (Main, task, 2) && task != Main && after == Main
  {
    var rt := new ThreadScheduler();
    task := rt.Create(None);
    Lifecycle.BindFlags(rt.Abs(), task, Some(Callback(0)), true);
    var e := rt.Bind(task, Some(Callback(0)), true);
    SchedulerProps.ThreadInfoDuringRun(rt.Abs(), task);
    e := rt.Run(task);
    info := Threads.ThreadInfo(rt.Abs());
    e := rt.Finish();
    after := Current(rt.Abs());
  }

  /** `testLC_paused_current_notalive`: `t.bind(f, args)` leaves `t`
      paused; `t.run()` makes it current while main stays scheduled, `f`
      appends 0 to `result` and returns, and `t` is not alive. Bound again,
      `t.switch()` makes it current while main is paused, and `f` appends 1.
      `flags` holds the outcome of each `assert_state_*` check in order. */
  method PausedCurrentTest() returns (runResult: seq<int>, switchResult: seq<int>, flags: seq<bool>)
    ensures runResult == [0] && switchResult == [1]
    ensures flags == [true, true, true, true, true, true]
  {
    var rt := new ThreadScheduler();
    var t := rt.Create(None);
    var p1 := BindPaused(rt, t, 0);
    var cur1, dead1;
    runResult, cur1, dead1 := RunOnce(rt, t);
    var p2 := BindPaused(rt, t, 1);
    var cur2, dead2;
    switchResult, cur2, dead2 := SwitchOnce(rt, t);
    flags := [p1, cur1, dead1, p2, cur2, dead2];
  }

  /** `t.bind(f, ())` of a tasklet that is not alive: `t` is paused and
      ready to run `f`. */
  method BindPaused(rt: ThreadScheduler, t: Tid, id: nat) returns (paused: bool)
    requires rt.Ready() && !rt.nested && rt.runq == [Main] && t != Main && IsTasklet(rt.Abs(), t)
    requires !rt.tasks[t].alive && !rt.tasks[t].atomic && !rt.tasks[Main].atomic
    modifies rt
    ensures paused && rt.Ready() && !rt.nested && rt.runq == [Main] && |rt.tasks| == old(|rt.tasks|)
    ensures Lifecycle.Runnable(rt.Abs(), t) && !rt.tasks[Main].atomic
  {
    Lifecycle.DeadIsAside(rt.Abs(), t);
    Lifecycle.BindFlags(rt.Abs(), t, Some(Callback(id)), true);
    var e := rt.Bind(t, Some(Callback(id)), true);
    paused := StatePaused(FlagsOf(rt.Abs(), t), false);
  }

  /** `t.run()` from main; `f_run` checks the states, appends 0, returns. */
  method RunOnce(rt: ThreadScheduler, t: Tid) returns (result: seq<int>, current: bool, dead: bool)
    requires rt.Ready() && !rt.nested && rt.runq == [Main] && t != Main && IsTasklet(rt.Abs(), t)
    requires Lifecycle.Runnable(rt.Abs(), t) && !rt.tasks[Main].atomic
    modifies rt
    ensures result == [0] && current && dead
    ensures rt.Ready() && !rt.nested && rt.runq == [Main] && |rt.tasks| == old(|rt.tasks|)
    ensures !rt.tasks[t].alive && !rt.tasks[t].atomic && !rt.tasks[Main].atomic
  {
    Lifecycle.RunFlags(rt.Abs(), t);
    Lifecycle.RunThenFinish(rt.Abs(), t);
    var e := rt.Run(t);
    // f_run in t
    current := StateCurrent(FlagsOf(rt.Abs(), t)) && StateScheduled(FlagsOf(rt.Abs(), Main), true, false);
    result := if rt.runq[0] == t then [0] else [];
    e := rt.Finish();
    dead := StateNotAlive(FlagsOf(rt.Abs(), t));
  }

  /** `t.switch()` from main; `f_switch` checks the states, appends 1,
      returns. */
  method SwitchOnce(rt: ThreadScheduler, t: Tid) returns (result: seq<int>, current: bool, dead: bool)
    requires rt.Ready() && !rt.nested && rt.runq == [Main] && t != Main && IsTasklet(rt.Abs(), t)
    requires Lifecycle.Runnable(rt.Abs(), t) && !rt.tasks[Main].atomic
    modifies rt
    ensures result == [1] && current && dead
    ensures rt.Ready() && !rt.nested && rt.runq == [Main] && |rt.tasks| == old(|rt.tasks|)
    ensures !rt.tasks[t].alive
  {
    Lifecycle.SwitchFlags(rt.Abs(), t);
    Lifecycle.SwitchThenFinish(rt.Abs(), t);
    var e := rt.Switch(t);
    // f_switch in t
    current := StateCurrent(FlagsOf(rt.Abs(), t)) && StatePaused(FlagsOf(rt.Abs(), Main), true);
    result := if rt.runq[0] == t then [1] else [];
    e := rt.Finish();
    dead := StateNotAlive(FlagsOf(rt.Abs(), t));
  }

  /** `testSig_next`: tasklet `f` runs `c.send_sequence(range(2))` and then
      `c.send_exception(StopIteration)`; after `stackless.run()`, `list(c)`
      is `[0, 1]` and ends at the `StopIteration`. */
  method NextTest() returns (vs: seq<Value>, end: ChannelApi.IterEnd)
    ensures vs == [Int(0), Int(1)] && end == ChannelApi.Stopped
  {
    var rt := new ThreadScheduler();
    var c := rt.NewChannel();
    var items := [Int(0), Int(1), Exc(StopIteration)];
    var p := rt.Create(Some(Producer(c, items)));
    var e := rt.Setup(p);
    assert items == [Int(0)] + items[1..];
    ChannelProps.ProducerStarts(rt.Abs(), c, p, Int(0), items[1..]);
    e := rt.RunAll();
    ChannelProps.IterateParkedProducer(rt.Abs(), c, p, Int(0), items[1..], 1);
    NextItems(items);
    vs, end := rt.Collect(c);
  }

  /** What iterating over the items of `testSig_next` gives. */
  lemma NextItems(items: seq<Value>)
    requires items == [Int(0), Int(1), Exc(StopIteration)]
    ensures ChannelProps.UntilExc(items) == [Int(0), Int(1)] && ChannelProps.EndOf(items) == ChannelApi.Stopped
  {
    var tail := [Exc(StopIteration)];
    assert items[1..] == [Int(1)] + tail && items[1..][1..] == tail;
    assert ChannelProps.UntilExc(tail) == [] && ChannelProps.EndOf(tail) == ChannelApi.Stopped;
    assert ChannelProps.UntilExc(items[1..]) == [Int(1)];
  }
}
