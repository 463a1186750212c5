/** The tasklet lifecycle: which observable state (`assert_state_*`) each
    tasklet method leads to, proved from the transitions. */
module Lifecycle {
  import opened Types
  import opened Channels
  import opened Tasklets
  import opened Scheduler
  import opened TaskletApi
  import opened StacklessApi

  /** A tasklet that is not alive is neither scheduled nor parked. */
  lemma DeadIsAside(st: State, t: Tid)
    requires Valid(st) && IsTasklet(st, t) && !st.tasks[t].alive
    ensures t !in st.runq && st.tasks[t].waitingOn == None && t != Main
  {
    assert TaskOk(st.tasks[t], |st.chans|);
    assert forall i :: 0 <= i < |st.runq| ==> st.runq[i] != t;
  }

  /** `assert_state_notalive` holds exactly of a tasklet that is not
      alive, unbound and not atomic. */
  lemma NotAliveFlags(st: State, t: Tid)
    requires Valid(st) && IsTasklet(st, t)
    ensures StateNotAlive(FlagsOf(st, t)) <==> !st.tasks[t].alive && st.tasks[t].func == None && !st.tasks[t].atomic
  {
    if !st.tasks[t].alive { DeadIsAside(st, t); }
  }

  /** `assert_state_bound(t, f)` holds exactly of a tasklet that is not
      alive, bound to `f` and not atomic. */
  lemma BoundFlags(st: State, t: Tid, f: Func)
    requires Valid(st) && IsTasklet(st, t)
    ensures StateBound(FlagsOf(st, t), f) <==> !st.tasks[t].alive && st.tasks[t].func == Some(f) && !st.tasks[t].atomic
  {
    if !st.tasks[t].alive { DeadIsAside(st, t); }
  }

  /** `assert_state_scheduled` (any tempval) holds exactly of a non-atomic
      tasklet waiting on the run-queue behind the current one; main counts
      only outside `run()`. */
  lemma ScheduledFlags(st: State, t: Tid, isMain: bool)
    requires Valid(st) && IsTasklet(st, t)
    ensures StateScheduled(FlagsOf(st, t), isMain, true) <==>
      t in st.runq && t != st.runq[0] && (isMain <==> t == Main) && !(t == Main && st.nested) && !st.tasks[t].atomic
  {
  }

  /** `assert_state_current` holds exactly of the current tasklet when it
      is not main, is not atomic and holds no value. */
  lemma CurrentFlags(st: State, t: Tid)
    requires Valid(st) && IsTasklet(st, t)
    ensures StateCurrent(FlagsOf(st, t)) <==>
      t == Current(st) && t != Main && !st.tasks[t].atomic && st.tasks[t].tempval == PyNone
  {
  }

  /** `assert_state_paused` holds exactly of a paused, non-atomic tasklet
      that holds no value; main counts only outside `run()`. */
  lemma PausedFlags(st: State, t: Tid, isMain: bool)
    requires Valid(st) && IsTasklet(st, t)
    ensures StatePaused(FlagsOf(st, t), isMain) <==>
      Paused(st, t) && (isMain <==> t == Main) && !(t == Main && st.nested) && !st.tasks[t].atomic
      && st.tasks[t].tempval == PyNone
  {
  }

  /** `assert_state_scheduler` holds exactly of main while it sits in
      `run()` and some other tasklet has control. */
  lemma InSchedulerFlags(st: State, t: Tid, isMain: bool)
    requires Valid(st) && IsTasklet(st, t)
    ensures StateInScheduler(FlagsOf(st, t), isMain) <==>
      isMain && t == Main && st.nested && Paused(st, t) && !st.tasks[t].atomic && st.tasks[t].tempval == PyNone
  {
  }

  /** A live tasklet is in exactly one of the states paused, scheduled and
      blocked; one that is not alive is in none of them. */
  lemma ExactlyOneState(st: State, t: Tid)
    requires Valid(st) && IsTasklet(st, t)
    ensures var fl := FlagsOf(st, t);
      if fl.alive then (fl.paused && !fl.scheduled && !fl.blocked) || (!fl.paused && fl.scheduled && !fl.blocked)
                       || (!fl.paused && !fl.scheduled && fl.blocked)
      else !fl.paused && !fl.scheduled && !fl.blocked
  {
    if !st.tasks[t].alive {
      DeadIsAside(st, t);
    } else if t in st.runq {
      var k := IndexIn(st.runq, t);
    }
  }

  /** `stackless.tasklet()` is not alive; `stackless.tasklet(f)` is bound. */
  lemma CreateFlags(st: State, f: Option<Func>)
    requires Ready(st) && (f.Some? ==> FuncOk(f.value, |st.chans|))
    ensures var r := Create(st, f); var fl := FlagsOf(r, |st.tasks|);
      && (f.None? ==> StateNotAlive(fl))
      && (f.Some? ==> StateBound(fl, f.value))
  {
    var r := Create(st, f);
    DeadIsAside(r, |st.tasks|);
  }

  /** `bind()` / `bind(None)` makes a tasklet that is neither scheduled nor
      blocked not alive, `bind(f)` makes it bound to `f`, `bind(f, args)`
      makes it paused. */
  lemma BindFlags(st: State, t: Tid, f: Option<Func>, args: bool)
    requires Ready(st) && IsTasklet(st, t) && (f.Some? ==> FuncOk(f.value, |st.chans|))
    requires var fl := FlagsOf(st, t); !fl.scheduled && !fl.blocked && !fl.isMain && !fl.atomic
    ensures Bind(st, t, f, args).Ok?
    ensures var fl := FlagsOf(Bind(st, t, f, args).value, t);
      && (f.None? ==> StateNotAlive(fl))
      && (f.Some? && !args ==> StateBound(fl, f.value))
      && (f.Some? && args ==> StatePaused(fl, false))
  {
  }

  /** `bind(...)` of a scheduled tasklet raises "tasklet is scheduled". */
  lemma BindScheduledFails(st: State, t: Tid, f: Option<Func>, args: bool)
    requires Ready(st) && IsTasklet(st, t) && (f.Some? ==> FuncOk(f.value, |st.chans|))
    requires StateScheduled(FlagsOf(st, t), false, true)
    ensures Bind(st, t, f, args) == Err(TaskletScheduled)
  {
  }

  /** `setup()` / `t()` of a bound tasklet schedules it. */
  lemma SetupFlags(st: State, t: Tid, f: Func)
    requires Ready(st) && IsTasklet(st, t) && StateBound(FlagsOf(st, t), f)
    ensures Setup(st, t).Ok? && StateScheduled(FlagsOf(Setup(st, t).value, t), false, false)
  {
    assert TaskOk(st.tasks[t], |st.chans|);
    DeadIsAside(st, t);
  }

  /** `remove()` of a scheduled tasklet pauses it. */
  lemma RemoveFlags(st: State, t: Tid)
    requires Ready(st) && IsTasklet(st, t) && StateScheduled(FlagsOf(st, t), false, false)
    ensures Remove(st, t).Ok? && StatePaused(FlagsOf(Remove(st, t).value, t), false)
  {
  }

  /** `insert()` of a paused tasklet schedules it. */
  lemma InsertFlags(st: State, t: Tid)
    requires Ready(st) && IsTasklet(st, t) && StatePaused(FlagsOf(st, t), false)
    ensures Insert(st, t).Ok? && StateScheduled(FlagsOf(Insert(st, t).value, t), false, false)
  {
  }

  /** `kill(pending=True)` of a paused tasklet schedules it with the
      `TaskletExit` to deliver as its tempval. */
  lemma KillPendingFlags(st: State, t: Tid)
    requires Ready(st) && IsTasklet(st, t) && StatePaused(FlagsOf(st, t), false)
    ensures Kill(st, t, true).Ok?
    ensures StateScheduled(FlagsOf(Kill(st, t, true).value, t), false, true)
    ensures Kill(st, t, true).value.tasks[t].tempval == Exc(TaskletExit)
  {
  }

  /** `kill()` of a scheduled or paused tasklet ends it. */
  lemma KillFlags(st: State, t: Tid)
    requires Ready(st) && IsTasklet(st, t)
    requires StateScheduled(FlagsOf(st, t), false, false) || StatePaused(FlagsOf(st, t), false)
    ensures Kill(st, t, false).Ok? && StateNotAlive(FlagsOf(Kill(st, t, false).value, t))
  {
  }

  /** `t.kill()` by the current tasklet `t` on itself ends it. */
  lemma KillSelfFlags(st: State)
    requires Ready(st) && st.runq[0] != Main && !st.tasks[st.runq[0]].atomic
    ensures Kill(st, st.runq[0], false).Ok?
    ensures StateNotAlive(FlagsOf(Kill(st, st.runq[0], false).value, st.runq[0]))
  {
  }

  /** A tasklet that `run()` or `switch()` hands control to: alive, not
      parked, running its own code (a Python function) with no kill
      pending and nothing to pick up. */
  predicate Runnable(st: State, t: Tid)
    requires Valid(st) && IsTasklet(st, t)
  {
    var tk := st.tasks[t];
    tk.alive && tk.waitingOn == None && tk.body == Driven && !tk.pendingKill && tk.tempval == PyNone && !tk.atomic
  }

  /** During `t.run()`, `t` is current and the caller stays scheduled. */
  lemma RunFlags(st: State, t: Tid)
    requires Ready(st) && !st.nested && IsTasklet(st, t) && t != st.runq[0] && t != Main && Runnable(st, t)
    requires !st.tasks[st.runq[0]].atomic
    ensures Run(st, t).Ok?
    ensures StateCurrent(FlagsOf(Run(st, t).value, t))
    ensures StateScheduled(FlagsOf(Run(st, t).value, st.runq[0]), st.runq[0] == Main, false)
  {
    var s1 := RunFirst(st, t);
    var r := Resume(s1);
    assert Run(st, t).value == r;
    assert r.tasks == st.tasks && r.runq[0] == t && !r.nested;
    assert st.runq[0] in r.runq && st.runq[0] != t;
  }

  /** During `t.switch()`, `t` is current and the caller is paused. */
  lemma SwitchFlags(st: State, t: Tid)
    requires Ready(st) && !st.nested && IsTasklet(st, t) && t != st.runq[0] && t != Main && Runnable(st, t)
    requires !st.tasks[st.runq[0]].atomic
    ensures Switch(st, t).Ok?
    ensures StateCurrent(FlagsOf(Switch(st, t).value, t))
    ensures StatePaused(FlagsOf(Switch(st, t).value, st.runq[0]), st.runq[0] == Main)
  {
    var s1 := SwitchFirst(st, t);
    var r := Resume(s1);
    assert Switch(st, t).value == r;
    assert r.tasks == st.tasks && r.runq[0] == t && !r.nested;
    assert st.runq[0] !in r.runq;
  }

  /** During `stackless.run()`, the first scheduled tasklet is current and
      main is in the scheduler: paused, not scheduled, not restorable. */
  lemma RunAllFlags(st: State)
    requires Ready(st) && st.runq[0] == Main && |st.runq| >= 2 && Runnable(st, st.runq[1])
    requires !st.tasks[Main].atomic
    ensures RunAll(st).Ok?
    ensures StateCurrent(FlagsOf(RunAll(st).value, st.runq[1]))
    ensures StateInScheduler(FlagsOf(RunAll(st).value, Main), true)
  {
    TailMembers(st.runq);
    var s1 := st.(runq := st.runq[1..], nested := true);
    assert Fill(s1) == s1;
    assert RunAll(st).value == Resume(s1);
  }

  /** The current tasklet's function returns while a tasklet ready to run
      its own code is next: that one becomes current and picks up its
      tempval. */
  lemma FinishHandsOver(st: State)
    requires Ready(st) && |st.runq| >= 2 && st.runq[0] != Main
    requires var n := st.tasks[st.runq[1]]; n.body == Driven && !n.pendingKill
    ensures Finish(st).Ok?
    ensures var h := st.runq[0]; var n := st.runq[1];
      Finish(st).value == st.(tasks := st.tasks[h := Corpse(st.tasks[h])][n := st.tasks[n].(tempval := PyNone)],
                              runq := st.runq[1..], ret := st.tasks[n].tempval, nested := st.nested && n != Main)
  {
    var h := st.runq[0];
    var s1 := DieHead(st);
    assert s1.tasks[st.runq[1]] == st.tasks[st.runq[1]];
    DispatchUnfold(s1);
  }

  /** The tasklets other than `t` in the run-queue, in order, when `t` is
      paused or last. */
  function Others(st: State, t: Tid): (p: seq<Tid>)
    requires t !in st.runq || st.runq[|st.runq| - 1] == t
    ensures t in st.runq ==> st.runq == p + [t]
    ensures t !in st.runq ==> p == st.runq
  {
    if t in st.runq then st.runq[..|st.runq| - 1] else st.runq
  }

  /** `t.run()` of a runnable tasklet that is paused or last in the
      run-queue: `t` is current at once, ahead of the others in their order. */
  lemma RunToFront(st: State, t: Tid)
    requires Ready(st) && !st.nested && IsTasklet(st, t) && t != st.runq[0] && t != Main && Runnable(st, t)
    requires t !in st.runq || st.runq[|st.runq| - 1] == t
    ensures |Others(st, t)| >= 1 && Others(st, t)[0] == st.runq[0]
    ensures Run(st, t) == Ok(st.(runq := [t] + Others(st, t), ret := PyNone))
  {
    RunFirstFront(st, t);
    var s1 := RunFirst(st, t);
    DispatchUnfold(s1);
    assert Resume(s1).tasks == st.tasks;
  }

  /** The run-queue `t.run()` turns: `t` first, then the others in order. */
  lemma RunFirstFront(st: State, t: Tid)
    requires Ready(st) && IsTasklet(st, t) && t != st.runq[0] && Runnable(st, t)
    requires t !in st.runq || st.runq[|st.runq| - 1] == t
    ensures |Others(st, t)| >= 1 && Others(st, t)[0] == st.runq[0]
    ensures RunFirst(st, t) == st.(runq := [t] + Others(st, t))
  {
    var n := |st.runq|;
    var p := Others(st, t);
    var s1 := RunFirst(st, t);
    if t in st.runq {
      assert st.runq[n - 1] == t;
      assert s1.runq == st.runq[n - 1..] + st.runq[..n - 1];
      assert st.runq[n - 1..] == [t];
    }
    assert s1.runq == [t] + p;
  }

  /** Clearing a field that is already clear changes nothing. */
  lemma ClearAgain(ts: seq<Tasklet>, t: Tid, h: Tid, x: Tasklet)
    requires t < |ts| && h < |ts| && t != h && ts[h].tempval == PyNone
    ensures ts[t := x][h := ts[h].(tempval := PyNone)] == ts[t := x]
  {
  }

  /** `t.run()` of a paused tasklet, or of the last scheduled one, whose
      function then returns: control is back with the caller, `t` is not
      alive, and nothing else has changed. */
  lemma RunThenFinish(st: State, t: Tid)
    requires Ready(st) && !st.nested && IsTasklet(st, t) && t != st.runq[0] && t != Main && Runnable(st, t)
    requires t !in st.runq || st.runq[|st.runq| - 1] == t
    ensures Run(st, t).Ok? && Finish(Run(st, t).value).Ok?
    ensures Finish(Run(st, t).value).value
         == st.(tasks := st.tasks[t := Corpse(st.tasks[t])], runq := Others(st, t), ret := PyNone)
  {
    RunToFront(st, t);
    var s2 := st.(runq := [t] + Others(st, t), ret := PyNone);
    FinishHandsOver(s2);
    ClearAgain(st.tasks, t, st.runq[0], Corpse(st.tasks[t]));
  }

  /** `t.switch()` from main, with `t` paused or the only other scheduled
      tasklet, whose function then returns: main is current again, `t` is
      not alive, and nothing else has changed. */
  lemma SwitchThenFinish(st: State, t: Tid)
    requires Ready(st) && !st.nested && IsTasklet(st, t) && t != Main && Runnable(st, t)
    requires st.runq == [Main] || st.runq == [Main, t]
    ensures Switch(st, t).Ok? && Finish(Switch(st, t).value).Ok?
    ensures Finish(Switch(st, t).value).value == st.(tasks := st.tasks[t := Corpse(st.tasks[t])], runq := [Main], ret := PyNone)
  {
    var s1 := SwitchFirst(st, t);
    assert s1.runq == [t];
    var s2 := Resume(s1);
    assert Switch(st, t).value == s2;
    assert s2.tasks == st.tasks;
    var s3 := DieHead(s2);
    assert s3.runq == [Main] && s3.tasks == st.tasks[t := Corpse(st.tasks[t])] && s3.chans == st.chans;
    assert Finish(s2).value == Dispatch(s3) == Resume(s3);
  }

  /** `stackless.run()` with one other tasklet scheduled, whose function
      returns: the run-queue has run empty, so `run()` returns to main with
      `t` not alive and nothing else changed. */
  lemma RunAllThenFinish(st: State, t: Tid)
    requires Ready(st) && !st.nested && IsTasklet(st, t) && st.runq == [Main, t] && Runnable(st, t)
    ensures RunAll(st).Ok? && Finish(RunAll(st).value).Ok?
    ensures Finish(RunAll(st).value).value == st.(tasks := st.tasks[t := Corpse(st.tasks[t])], runq := [Main], ret := PyNone)
  {
    var s1 := st.(runq := [t], nested := true);
    assert Fill(s1) == s1;
    var s2 := Resume(s1);
    assert RunAll(st).value == s2;
    assert s2.tasks == st.tasks && s2.nested;
    var s3 := DieHead(s2);
    assert s3.runq == [Main] && s3.tasks == st.tasks[t := Corpse(st.tasks[t])] && s3.chans == st.chans;
    assert Finish(s2).value == Dispatch(s3) == Resume(s3);
  }
}
