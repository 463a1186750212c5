/** What the module-level tests pin down about `runcount`, `main` and
    `current`, `schedule`/`schedule_remove` and `atomic`, proved from the
    transitions. */
module SchedulerProps {
  import opened Types
  import opened Channels
  import opened Tasklets
  import opened Scheduler
  import opened TaskletApi
  import opened StacklessApi
  import Lifecycle

  /** In a thread that has just started, main is current and the run count
      is 1. */
  lemma FreshThread()
    ensures Current(Init()) == Main && RunCount(Init()) == 1
    ensures FlagsOf(Init(), Main).isCurrent && FlagsOf(Init(), Main).isMain
  {
  }

  /** Creating a scheduled tasklet raises the run count by exactly one;
      while it runs it is current and the count stays raised; once its
      function has returned the count, the current tasklet and everything
      but the finished tasklet are back as before. */
  lemma RuncountAroundRun(st: State, t: Tid, id: nat)
    requires Ready(st) && !st.nested && IsTasklet(st, t) && StateBound(FlagsOf(st, t), Callback(id))
    ensures Setup(st, t).Ok? && RunCount(Setup(st, t).value) == RunCount(st) + 1
    ensures Run(Setup(st, t).value, t).Ok?
    ensures Current(Run(Setup(st, t).value, t).value) == t
    ensures RunCount(Run(Setup(st, t).value, t).value) == RunCount(st) + 1
    ensures Finish(Run(Setup(st, t).value, t).value).Ok?
    ensures RunCount(Finish(Run(Setup(st, t).value, t).value).value) == RunCount(st)
    ensures Current(Finish(Run(Setup(st, t).value, t).value).value) == Current(st)
    ensures Finish(Run(Setup(st, t).value, t).value).value
         == st.(tasks := st.tasks[t := Corpse(st.tasks[t])], ret := PyNone)
  {
    SetupRunnable(st, t, id);
    RunCountDuringRun(Setup(st, t).value, t);
    SetupRunFinish(st, t, id);
  }

  /** A bound tasklet set up, run and finished leaves only its corpse. */
  lemma SetupRunFinish(st: State, t: Tid, id: nat)
    requires Ready(st) && !st.nested && IsTasklet(st, t) && StateBound(FlagsOf(st, t), Callback(id))
    ensures Setup(st, t).Ok? && Run(Setup(st, t).value, t).Ok? && Finish(Run(Setup(st, t).value, t).value).Ok?
    ensures Finish(Run(Setup(st, t).value, t).value).value
         == st.(tasks := st.tasks[t := Corpse(st.tasks[t])], ret := PyNone)
  {
    SetupRunnable(st, t, id);
    var s1 := Setup(st, t).value;
    assert Lifecycle.Others(s1, t) == st.runq by {
      var n := |s1.runq|;
      assert s1.runq[n - 1] == t && s1.runq[..n - 1] == st.runq;
    }
    Lifecycle.RunThenFinish(s1, t);
    var dead := Corpse(st.tasks[t]);
    assert Corpse(s1.tasks[t]) == dead;
    UpdateSame(s1.tasks, st.tasks, t, dead);
  }

  /** While `t.run()` runs a scheduled tasklet, the run count is unchanged. */
  lemma RunCountDuringRun(st: State, t: Tid)
    requires Ready(st) && IsTasklet(st, t) && t in st.runq && t != st.runq[0]
    requires st.tasks[t].body == Driven && !st.tasks[t].pendingKill
    ensures Run(st, t).Ok? && Current(Run(st, t).value) == t && RunCount(Run(st, t).value) == RunCount(st)
  {
    var k := IndexIn(st.runq, t);
    var q := RunFirst(st, t);
    assert q.runq == st.runq[k..] + st.runq[..k];
    assert Run(st, t).value == Resume(q);
  }

  /** What a bound tasklet looks like once set up. */
  lemma SetupRunnable(st: State, t: Tid, id: nat)
    requires Ready(st) && IsTasklet(st, t) && StateBound(FlagsOf(st, t), Callback(id))
    ensures Setup(st, t).Ok? && t != Main && t !in st.runq
    ensures var s1 := Setup(st, t).value;
      && s1.runq == st.runq + [t] && s1.tasks[t].body == Driven && s1.tasks[t].alive
      && s1.tasks[t].tempval == PyNone && !s1.tasks[t].pendingKill && s1.tasks[t].waitingOn == None
      && !s1.tasks[t].atomic && s1.nested == st.nested
  {
    assert TaskOk(st.tasks[t], |st.chans|);
    assert forall i :: 0 <= i < |st.runq| ==> st.runq[i] != t;
  }

  /** `stackless.get_thread_info(id)` from inside `task.run()`, started by
      main with nothing else scheduled, gives `(main, task, 2)`; once the
      task's function returns, main is current again. */
  lemma ThreadInfoDuringRun(st: State, t: Tid)
    requires Ready(st) && !st.nested && st.runq == [Main] && IsTasklet(st, t) && t != Main
    requires StatePaused(FlagsOf(st, t), false)
    requires st.tasks[t].body == Driven && !st.tasks[t].pendingKill
    ensures Run(st, t).Ok?
    ensures var r := Run(st, t).value; (Main, Current(r), RunCount(r)) == (Main, t, 2)
    ensures Finish(Run(st, t).value).Ok? && Current(Finish(Run(st, t).value).value) == Main
  {
    var s1 := RunFirst(st, t);
    assert s1.runq == [t, Main];
    assert Run(st, t).value == Resume(s1);
    Lifecycle.RunThenFinish(st, t);
  }

  /** `schedule(retval)` run by `a` with `b` scheduled next: `b` gets
      control; when `b` calls `schedule()` in turn, `a` gets control back
      and its call returns `retval` (the current tasklet when omitted). */
  lemma ScheduleReturnsRetval(st: State, retval: Option<Value>)
    requires Ready(st) && |st.runq| == 2
    requires var b := st.tasks[st.runq[1]]; b.body == Driven && !b.pendingKill && b.tempval == PyNone
    ensures var s1 := Schedule(st, retval); Current(s1) == st.runq[1] && s1.ret == PyNone
    ensures var s2 := Schedule(Schedule(st, retval), None);
      Current(s2) == st.runq[0] && s2.ret == RetvalOf(st, retval)
  {
    var a := st.runq[0];
    var b := st.runq[1];
    var y1 := Yield(st, RetvalOf(st, retval), true);
    assert y1.runq == [b, a];
    DispatchUnfold(y1);
    var s1 := Schedule(st, retval);
    assert s1 == Resume(y1);
    assert s1.runq == [b, a] && s1.tasks[a].tempval == RetvalOf(st, retval) && s1.tasks[a].body == Driven;
    var y2 := Yield(s1, Ref(b), true);
    assert y2.runq == [a, b] && y2.tasks[a] == s1.tasks[a];
    DispatchUnfold(y2);
  }

  /** `schedule_remove(retval)` by `t` with `g` scheduled next: `g` gets
      control and `t` is paused; once `g` inserts `t` and calls
      `schedule()`, `t` runs again and its call returns `retval`. */
  lemma ScheduleRemoveReturnsRetval(st: State, retval: Option<Value>)
    requires Ready(st) && |st.runq| == 2 && st.runq[0] != Main
    requires var g := st.tasks[st.runq[1]]; g.body == Driven && !g.pendingKill && g.tempval == PyNone
    ensures var t := st.runq[0]; var s1 := ScheduleRemove(st, retval);
      && Current(s1) == st.runq[1] && Paused(s1, t)
      && Insert(s1, t).Ok? && Current(Schedule(Insert(s1, t).value, None)) == t
      && Schedule(Insert(s1, t).value, None).ret == RetvalOf(st, retval)
  {
    var t := st.runq[0];
    var g := st.runq[1];
    var y1 := Yield(st, RetvalOf(st, retval), false);
    assert y1.runq == [g] && Fill(y1) == y1;
    DispatchUnfold(y1);
    var s1 := ScheduleRemove(st, retval);
    assert s1 == Resume(y1);
    assert s1.runq == [g] && s1.tasks[t].tempval == RetvalOf(st, retval) && s1.tasks[t].body == Driven;
    var s2 := Insert(s1, t).value;
    assert s2.runq == [g, t];
    var y2 := Yield(s2, Ref(g), true);
    assert y2.runq == [t, g] && y2.tasks[t] == s1.tasks[t];
    DispatchUnfold(y2);
  }

  /** `with stackless.atomic():` sets the current tasklet's atomic flag
      whatever it was before and restores that value on exit; a final
      `set_atomic(old)` gives back the original tasklet table. */
  lemma AtomicContext(st: State, b: bool)
    requires Ready(st)
    ensures var h := st.runq[0]; var prior := st.tasks[h].atomic;
      var s1 := SetAtomic(st, b);
      var s2 := SetAtomic(s1, true);
      var s3 := SetAtomic(s2, s2.ret.b);
      var s4 := SetAtomic(s3, prior);
      && s1.ret == Bool(prior) && s2.ret == Bool(b) && s2.tasks[h].atomic
      && s3.tasks == s1.tasks && s4.tasks == st.tasks
  {
  }

  /** `stackless.run()` with a tasklet ready to run its own code next to
      main: that tasklet is current at once and picks up its tempval. */
  lemma RunAllHandsOver(st: State)
    requires Ready(st) && st.runq[0] == Main && |st.runq| >= 2
    requires var n := st.tasks[st.runq[1]]; n.body == Driven && !n.pendingKill
    ensures var n := st.runq[1];
      RunAll(st) == Ok(st.(tasks := st.tasks[n := st.tasks[n].(tempval := PyNone)], runq := st.runq[1..],
                           nested := true, ret := st.tasks[n].tempval))
  {
    TailMembers(st.runq);
    var s1 := st.(runq := st.runq[1..], nested := true);
    WaitFrame(st, s1);
    assert Fill(s1) == s1;
    DispatchUnfold(s1);
  }

  /** `stackless.schedule()` by `a` with only `b`, ready to run its own
      code, behind it: the two swap places, `b` picks up its tempval and
      `a` will get itself back. */
  lemma ScheduleHandsOver(st: State)
    requires Ready(st) && |st.runq| == 2
    requires var b := st.tasks[st.runq[1]]; b.body == Driven && !b.pendingKill
    ensures var a := st.runq[0]; var b := st.runq[1];
      Schedule(st, None) == st.(tasks := st.tasks[a := st.tasks[a].(tempval := Ref(a))][b := st.tasks[b].(tempval := PyNone)],
                                runq := [b, a], ret := st.tasks[b].tempval, nested := st.nested && b != Main)
  {
    var a := st.runq[0];
    var b := st.runq[1];
    var y1 := Yield(st, Ref(a), true);
    assert y1.runq == [b, a] && y1.tasks[b] == st.tasks[b];
    DispatchUnfold(y1);
  }

  /** `stackless.schedule_remove(retval)` by a tasklet other than main with
      a tasklet ready to run its own code next: the caller leaves the
      run-queue holding `retval` and the next one becomes current. */
  lemma ScheduleRemoveHandsOver(st: State, retval: Option<Value>)
    requires Ready(st) && |st.runq| >= 2 && st.runq[0] != Main
    requires var n := st.tasks[st.runq[1]]; n.body == Driven && !n.pendingKill
    ensures var h := st.runq[0]; var n := st.runq[1];
      ScheduleRemove(st, retval) ==
        st.(tasks := st.tasks[h := st.tasks[h].(tempval := RetvalOf(st, retval))][n := st.tasks[n].(tempval := PyNone)],
            runq := st.runq[1..], ret := st.tasks[n].tempval, nested := st.nested && n != Main)
  {
    var y1 := Yield(st, RetvalOf(st, retval), false);
    assert y1.tasks[st.runq[1]] == st.tasks[st.runq[1]] && Fill(y1) == y1;
    DispatchUnfold(y1);
  }
}
