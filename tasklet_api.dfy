/** The methods of a tasklet object, as transitions of its thread's
    scheduler state. Each is called by the current tasklet; `Err` means the
    call raised before anything changed. */
module TaskletApi {
  import opened Types
  import opened Channels
  import opened Tasklets
  import opened Scheduler

  /** The tasklet `t` is on no run-queue and no channel but has a frame. */
  predicate Paused(st: State, t: Tid): (b: bool)
    requires IsTasklet(st, t)
    ensures Valid(st) ==> (b <==> FlagsOf(st, t).paused)
  {
    st.tasks[t].alive && t !in st.runq && st.tasks[t].waitingOn == None
  }

  /** `stackless.tasklet()` or `stackless.tasklet(f)`. */
  function Create(st: State, f: Option<Func>): (r: State)
    requires Ready(st) && (f.Some? ==> FuncOk(f.value, |st.chans|))
    ensures Ready(r) && |r.tasks| == |st.tasks| + 1 && r.ret == Ref(|st.tasks|)
    ensures r.tasks == st.tasks + [NewTasklet(f)]
    ensures r.runq == st.runq && r.chans == st.chans && r.nested == st.nested
  {
    var r := st.(tasks := st.tasks + [NewTasklet(f)], ret := Ref(|st.tasks|));
    AddTaskFrame(st, r, NewTasklet(f));
    r
  }

  /** `t.bind(f)` (`args` false) or `t.bind(f, args, kwargs)` (`args`
      true); `f == None` stands for `t.bind()` and `t.bind(None)`. */
  function Bind(st: State, t: Tid, f: Option<Func>, args: bool): (r: Result<State>)
    requires Ready(st) && IsTasklet(st, t) && (f.Some? ==> FuncOk(f.value, |st.chans|))
    ensures r.Err? <==> t in st.runq || st.tasks[t].waitingOn.Some? || t == Main
    ensures t in st.runq ==> r == Err(TaskletScheduled)
    ensures t !in st.runq && st.tasks[t].waitingOn.Some? ==> r == Err(TaskletBlocked)
    ensures r.Ok? ==> var s := r.value;
      && Ready(s) && s.runq == st.runq && s.chans == st.chans && s.nested == st.nested && s.ret == Ref(t)
      && |s.tasks| == |st.tasks| && s.tasks == st.tasks[t := s.tasks[t]]
      && s.tasks[t].func == f && s.tasks[t].waitingOn == None && !s.tasks[t].pendingKill
      && s.tasks[t].atomic == st.tasks[t].atomic
      && (s.tasks[t].alive <==> f.Some? && args)
      && s.tasks[t].tempval == (if f.Some? && !args then Fn(f.value) else PyNone)
  {
    var tk := st.tasks[t];
    if t in st.runq then Err(TaskletScheduled)
    else if tk.waitingOn.Some? then Err(TaskletBlocked)
    else if t == Main then Err(MainTasklet)
    else
      var tk' :=
        if f.None? then Corpse(tk)
        else if !args then Tasklet(f, false, Fn(f.value), tk.atomic, Driven, false, None)
        else Tasklet(f, true, PyNone, tk.atomic, BodyOf(f.value), false, None);
      var r := st.(tasks := st.tasks[t := tk'], ret := Ref(t));
      WaitFrame(st, r);
      Ok(r)
  }

  /** `t.setup(*args)` or `t(*args)`: a bound tasklet gets its frame and
      joins the end of the run-queue. */
  function Setup(st: State, t: Tid): (r: Result<State>)
    requires Ready(st) && IsTasklet(st, t)
    ensures r.Err? <==> st.tasks[t].alive || st.tasks[t].func == None
    ensures st.tasks[t].alive ==> r == Err(TaskletAlive)
    ensures !st.tasks[t].alive && st.tasks[t].func == None ==> r == Err(NotBound)
    ensures r.Ok? ==> var s := r.value;
      && Ready(s) && s.runq == st.runq + [t] && s.chans == st.chans && s.nested == st.nested && s.ret == Ref(t)
      && |s.tasks| == |st.tasks| && s.tasks == st.tasks[t := s.tasks[t]]
      && s.tasks[t].alive && s.tasks[t].tempval == PyNone && s.tasks[t].func == st.tasks[t].func
      && s.tasks[t].body == BodyOf(st.tasks[t].func.value) && s.tasks[t].atomic == st.tasks[t].atomic
  {
    var tk := st.tasks[t];
    if tk.alive then Err(TaskletAlive)
    else if tk.func == None then Err(NotBound)
    else
      assert t !in st.runq by {
        forall i | 0 <= i < |st.runq| ensures st.runq[i] != t { }
      }
      AppendMembers(st.runq, t);
      var r := st.(tasks := st.tasks[t := tk.(alive := true, tempval := PyNone, body := BodyOf(tk.func.value))],
                   runq := st.runq + [t], ret := Ref(t));
      WaitFrame(st, r);
      Ok(r)
  }

  /** `t.insert()`: a paused tasklet joins the end of the run-queue. */
  function Insert(st: State, t: Tid): (r: Result<State>)
    requires Ready(st) && IsTasklet(st, t)
    ensures r.Ok? <==> Paused(st, t)
    ensures !st.tasks[t].alive ==> r == Err(TaskletNotAlive)
    ensures st.tasks[t].alive && st.tasks[t].waitingOn.Some? ==> r == Err(TaskletBlocked)
    ensures st.tasks[t].alive && t in st.runq ==> r == Err(AlreadyScheduled)
    ensures r.Ok? ==> r.value == st.(runq := st.runq + [t], ret := PyNone) && Ready(r.value)
  {
    var tk := st.tasks[t];
    if !tk.alive then Err(TaskletNotAlive)
    else if tk.waitingOn.Some? then Err(TaskletBlocked)
    else if t in st.runq then Err(AlreadyScheduled)
    else
      AppendMembers(st.runq, t);
      var r := st.(runq := st.runq + [t], ret := PyNone);
      WaitFrame(st, r);
      Ok(r)
  }

  /** `t.remove()`: a scheduled tasklet leaves the run-queue; the others
      keep their order. */
  function Remove(st: State, t: Tid): (r: Result<State>)
    requires Ready(st) && IsTasklet(st, t)
    ensures r.Err? <==> t == st.runq[0] || st.tasks[t].waitingOn.Some?
    ensures t == st.runq[0] ==> r == Err(RemoveCurrent)
    ensures t != st.runq[0] && st.tasks[t].waitingOn.Some? ==> r == Err(TaskletBlocked)
    ensures r.Ok? ==> var s := r.value;
      && Ready(s) && s.tasks == st.tasks && s.chans == st.chans && s.nested == st.nested && s.ret == PyNone
      && s.runq[0] == st.runq[0] && t !in s.runq
      && (forall u :: u in s.runq <==> u in st.runq && u != t)
      && (t !in st.runq ==> s.runq == st.runq)
  {
    var tk := st.tasks[t];
    if t == st.runq[0] then Err(RemoveCurrent)
    else if tk.waitingOn.Some? then Err(TaskletBlocked)
    else if t in st.runq then
      var s1 := Unqueue(st, t);
      var r := s1.(ret := PyNone);
      WaitFrame(s1, r);
      ReadyFrame(st, r);
      Ok(r)
    else
      var r := st.(ret := PyNone);
      WaitFrame(st, r);
      Ok(r)
  }

  /** `t.kill(pending=True)`: the tasklet is scheduled (taken off its
      channel if it waits on one) and dies of `TaskletExit` when it next
      runs. */
  function KillPending(st: State, t: Tid): (r: State)
    requires Ready(st) && IsTasklet(st, t) && t != Main && st.tasks[t].alive && t != st.runq[0]
    ensures Ready(r) && r.runq[0] == st.runq[0] && r.nested == st.nested && r.ret == PyNone
    ensures r.tasks == st.tasks[t := st.tasks[t].(pendingKill := true, tempval := Exc(TaskletExit), waitingOn := None)]
    ensures t in r.runq && (forall u :: u in r.runq <==> u in st.runq || u == t)
    ensures t in st.runq ==> r.runq == st.runq && r.chans == st.chans
    ensures t !in st.runq ==> r.runq == st.runq + [t]
    ensures st.tasks[t].waitingOn == None ==> r.chans == st.chans
    ensures st.tasks[t].waitingOn.Some? ==> r.chans == Unwait(st, t).chans
  {
    if st.tasks[t].waitingOn.Some? then
      var s1 := Unwait(st, t);
      ReadyFrame(st, s1);
      MarkKilled(s1, t)
    else
      MarkKilled(st, t)
  }

  /** Record a pending kill on a tasklet that waits nowhere and make sure it
      is scheduled. */
  function MarkKilled(st: State, t: Tid): (r: State)
    requires Ready(st) && IsTasklet(st, t) && t != Main && st.tasks[t].alive && st.tasks[t].waitingOn == None
    requires t != st.runq[0]
    ensures Ready(r) && r.runq[0] == st.runq[0] && r.chans == st.chans && r.nested == st.nested && r.ret == PyNone
    ensures r.tasks == st.tasks[t := st.tasks[t].(pendingKill := true, tempval := Exc(TaskletExit))]
    ensures t in r.runq && (forall u :: u in r.runq <==> u in st.runq || u == t)
    ensures r.runq == if t in st.runq then st.runq else st.runq + [t]
  {
    var q := if t in st.runq then st.runq else st.runq + [t];
    assert Distinct(q) && (forall u :: u in q <==> u in st.runq || u == t) by {
      if t !in st.runq { AppendMembers(st.runq, t); }
    }
    var r := st.(runq := q, tasks := st.tasks[t := st.tasks[t].(pendingKill := true, tempval := Exc(TaskletExit))], ret := PyNone);
    assert RunqOk(r);
    WaitFrame(st, r);
    ReadyFrame(st, r);
    r
  }

  /** `t.kill()` and `t.kill(pending=True)`. Killing a tasklet that is not
      alive does nothing; an immediate kill ends its frame, and when the
      caller kills itself the next tasklet runs. */
  function Kill(st: State, t: Tid, pending: bool): (r: Result<State>)
    requires Ready(st) && IsTasklet(st, t)
    ensures r.Err? <==> t == Main
    ensures r.Err? ==> r.error == MainTasklet
    ensures r.Ok? ==> Ready(r.value) && |r.value.tasks| == |st.tasks| && |r.value.chans| == |st.chans|
    ensures r.Ok? && !st.tasks[t].alive ==> r.value == st.(ret := PyNone)
    ensures r.Ok? && st.tasks[t].alive && !pending ==> !r.value.tasks[t].alive && r.value.tasks[t].func == None
    ensures r.Ok? && st.tasks[t].alive && !pending && t != st.runq[0] ==> r.value == Detach(st, t).(ret := PyNone)
    ensures r.Ok? && st.tasks[t].alive && pending && t != st.runq[0] ==> r.value == KillPending(st, t)
  {
    if t == Main then Err(MainTasklet)
    else if !st.tasks[t].alive then
      var r := st.(ret := PyNone);
      WaitFrame(st, r);
      Ok(r)
    else if t == st.runq[0] then
      Ok(KillCurrent(st))
    else if pending then
      Ok(KillPending(st, t))
    else
      var r := Detach(st, t).(ret := PyNone);
      Ok(r)
  }

  /** The current tasklet kills itself: its frame ends and the scheduler
      picks the next tasklet. */
  function KillCurrent(st: State): (r: State)
    requires Ready(st) && st.runq[0] != Main
    ensures |r.tasks| == |st.tasks| && |r.chans| == |st.chans|
    ensures Ready(r) && r.tasks[st.runq[0]] == Corpse(st.tasks[st.runq[0]]) && st.runq[0] !in r.runq
  {
    var s1 := DieHead(st);
    DispatchKeepsPaused(s1, st.runq[0]);
    Dispatch(s1)
  }

  /** The current tasklet's function returns: its frame ends and the
      scheduler picks the next tasklet. The main tasklet's return ends the
      thread, which is not modelled. */
  function Finish(st: State): (r: Result<State>)
    requires Ready(st)
    ensures r.Err? <==> st.runq[0] == Main
    ensures r.Err? ==> r.error == MainTasklet
    ensures r.Ok? ==> |r.value.tasks| == |st.tasks| && |r.value.chans| == |st.chans|
    ensures r.Ok? ==> Ready(r.value) && !r.value.tasks[st.runq[0]].alive && r.value.tasks[st.runq[0]].func == None
  {
    if st.runq[0] == Main then Err(MainTasklet) else Ok(KillCurrent(st))
  }

  /** `t.run()`: `t` becomes current at once; the caller stays scheduled. */
  function Run(st: State, t: Tid): (r: Result<State>)
    requires Ready(st) && IsTasklet(st, t)
    ensures r.Err? <==> !st.tasks[t].alive || st.tasks[t].waitingOn.Some?
    ensures !st.tasks[t].alive ==> r == Err(TaskletNotAlive)
    ensures st.tasks[t].alive && st.tasks[t].waitingOn.Some? ==> r == Err(TaskletBlocked)
    ensures r.Ok? ==> Ready(r.value) && |r.value.tasks| == |st.tasks| && |r.value.chans| == |st.chans|
    ensures r.Ok? && t == st.runq[0] ==> r.value == st.(ret := PyNone)
    ensures r.Ok? && t != st.runq[0] ==> r.value == Dispatch(RunFirst(st, t))
  {
    var tk := st.tasks[t];
    if !tk.alive then Err(TaskletNotAlive)
    else if tk.waitingOn.Some? then Err(TaskletBlocked)
    else if t == st.runq[0] then
      var r := st.(ret := PyNone);
      WaitFrame(st, r);
      Ok(r)
    else Ok(Dispatch(RunFirst(st, t)))
  }

  /** The run-queue turned so that `t` (appended first if it is paused) is
      its head; the caller stays on it. */
  function RunFirst(st: State, t: Tid): (r: State)
    requires Ready(st) && IsTasklet(st, t) && st.tasks[t].alive && st.tasks[t].waitingOn == None && t != st.runq[0]
    ensures Valid(r) && r.runq[0] == t && r == st.(runq := r.runq)
    ensures forall u :: u in r.runq <==> u in st.runq || u == t
    ensures t !in st.runq ==> r.runq == [t] + st.runq
    ensures forall k :: 0 <= k < |st.runq| && st.runq[k] == t ==> r.runq == st.runq[k..] + st.runq[..k]
  {
    var q := Rotated(st.runq, t);
    var r := st.(runq := q);
    assert RunqOk(r) by {
      forall i | 0 <= i < |q| ensures q[i] < |r.tasks| && r.tasks[q[i]].alive && r.tasks[q[i]].waitingOn == None {
        if q[i] != t { var j := IndexIn(st.runq, q[i]); }
      }
    }
    WaitFrame(st, r);
    r
  }

  /** `t.switch()`: `t` becomes current at once and the caller is paused. */
  function Switch(st: State, t: Tid): (r: Result<State>)
    requires Ready(st) && IsTasklet(st, t)
    ensures r.Err? <==> !st.tasks[t].alive || st.tasks[t].waitingOn.Some?
    ensures !st.tasks[t].alive ==> r == Err(TaskletNotAlive)
    ensures st.tasks[t].alive && st.tasks[t].waitingOn.Some? ==> r == Err(TaskletBlocked)
    ensures r.Ok? ==> Ready(r.value) && |r.value.tasks| == |st.tasks| && |r.value.chans| == |st.chans|
    ensures r.Ok? && t == st.runq[0] ==> r.value == st.(ret := PyNone)
    ensures r.Ok? && t != st.runq[0] ==> r.value == Dispatch(SwitchFirst(st, t))
  {
    var tk := st.tasks[t];
    if !tk.alive then Err(TaskletNotAlive)
    else if tk.waitingOn.Some? then Err(TaskletBlocked)
    else if t == st.runq[0] then
      var r := st.(ret := PyNone);
      WaitFrame(st, r);
      Ok(r)
    else Ok(Dispatch(SwitchFirst(st, t)))
  }

  /** The run-queue turned so that `t` (appended first if it is paused) is
      its head, without the caller. */
  function SwitchFirst(st: State, t: Tid): (r: State)
    requires Ready(st) && IsTasklet(st, t) && st.tasks[t].alive && st.tasks[t].waitingOn == None && t != st.runq[0]
    ensures Valid(r) && r.runq[0] == t && r.tasks == st.tasks && r.chans == st.chans && r.nested == st.nested
    ensures forall u :: u in r.runq <==> (u in st.runq || u == t) && u != st.runq[0]
    ensures t !in st.runq ==> r.runq == [t] + st.runq[1..]
    ensures forall k :: 0 <= k < |st.runq| && st.runq[k] == t ==> r.runq == st.runq[k..] + st.runq[1..k]
  {
    var q := Switched(st.runq, t);
    var r := st.(runq := q);
    assert RunqOk(r) by {
      forall i | 0 <= i < |q| ensures q[i] < |r.tasks| && r.tasks[q[i]].alive && r.tasks[q[i]].waitingOn == None {
        if q[i] != t { var j := IndexIn(st.runq, q[i]); }
      }
    }
    WaitFrame(st, r);
    r
  }

  /** `t.set_atomic(flag)` on the current tasklet: returns the old flag. */
  function SetAtomic(st: State, flag: bool): (r: State)
    requires Ready(st)
    ensures Ready(r) && r.runq == st.runq && r.chans == st.chans && r.nested == st.nested
    ensures r.ret == Bool(st.tasks[st.runq[0]].atomic) && r.tasks[st.runq[0]].atomic == flag
    ensures r.tasks == st.tasks[st.runq[0] := st.tasks[st.runq[0]].(atomic := flag)]
  {
    var h := st.runq[0];
    var r := st.(tasks := st.tasks[h := st.tasks[h].(atomic := flag)], ret := Bool(st.tasks[h].atomic));
    WaitFrame(st, r);
    r
  }
}
