/** One thread's scheduler as a mutable object: the tasklet table, the
    run-queue and the channel table are fields that the tasklet, channel
    and module operations update in place. Each method is proved to leave
    the object in the state the corresponding transition function gives,
    so every property proved about the transitions holds of the object. */
module Runtime {
  import opened Types
  import opened Channels
  import opened Tasklets
  import opened Scheduler
  import TaskletApi
  import StacklessApi
  import ChannelApi

  class ThreadScheduler {
    var tasks: seq<Tasklet>
    var runq: seq<Tid>
    var chans: seq<Chan>
    var nested: bool
    var ret: Value

    /** The fields as a scheduler state. */
    function Abs(): State
      reads this
    {
      State(tasks, runq, chans, nested, ret)
    }

    ghost predicate Ready()
      reads this
    {
      Scheduler.Ready(Abs())
    }

    /** The scheduler of a thread that has just started. */
    constructor ()
      ensures Abs() == Init() && Ready()
    {
      tasks := [Scheduler.MainTasklet()];
      runq := [Main];
      chans := [];
      nested := false;
      ret := PyNone;
    }

    method Store(s: State)
      modifies this
      ensures Abs() == s
    {
      tasks, runq, chans, nested, ret := s.tasks, s.runq, s.chans, s.nested, s.ret;
    }

    /** The scheduler loop: step the current tasklet's channel loop, deliver
        pending kills and end finished functions until the current tasklet
        runs its own code, then hand it the value it was resumed with. */
    method RunScheduler()
      requires Scheduler.Valid(Abs())
      modifies this
      ensures Abs() == Dispatch(old(Abs())) && Ready()
    {
      ghost var s0 := Abs();
      while !Settled(Abs())
        invariant Scheduler.Valid(Abs()) && Dispatch(Abs()) == Dispatch(s0)
        decreases if Settled(Abs()) then 0 else 1, Work(Abs()), Turns(Abs())
      {
        StepBelow(Abs());
        DispatchUnfold(Abs());
        Store(Step(Abs()));
      }
      DispatchUnfold(Abs());
      Store(Resume(Abs()));
    }
      // -------------------------------------------------------------------
    // Tasklet methods

    /** `stackless.tasklet(f)`: returns the new tasklet's handle. */
    method Create(f: Option<Func>) returns (t: Tid)
      requires Ready() && (f.Some? ==> FuncOk(f.value, |chans|))
      modifies this
      ensures Abs() == TaskletApi.Create(old(Abs()), f) && t == old(|tasks|)
    {
      t := |tasks|;
      tasks := tasks + [NewTasklet(f)];
      ret := Ref(t);
    }

    /** `t.bind(f)` and `t.bind(f, args, kwargs)`. */
    method Bind(t: Tid, f: Option<Func>, args: bool) returns (err: Option<Error>)
      requires Ready() && IsTasklet(Abs(), t) && (f.Some? ==> FuncOk(f.value, |chans|))
      modifies this
      ensures var r := TaskletApi.Bind(old(Abs()), t, f, args);
        && (r.Ok? ==> err == None && Abs() == r.value)
        && (r.Err? ==> err == Some(r.error) && Abs() == old(Abs()))
    {
      var tk := tasks[t];
      if t in runq { return Some(TaskletScheduled); }
      if tk.waitingOn.Some? { return Some(TaskletBlocked); }
      if t == Main { return Some(MainTasklet); }
      if f.None? {
        tasks := tasks[t := Corpse(tk)];
      } else if !args {
        tasks := tasks[t := Tasklet(f, false, Fn(f.value), tk.atomic, Driven, false, None)];
      } else {
        tasks := tasks[t := Tasklet(f, true, PyNone, tk.atomic, BodyOf(f.value), false, None)];
      }
      ret := Ref(t);
      err := None;
    }

    /** `t.setup(*args)`: the bound tasklet gets its frame and is scheduled. */
    method Setup(t: Tid) returns (err: Option<Error>)
      requires Ready() && IsTasklet(Abs(), t)
      modifies this
      ensures var r := TaskletApi.Setup(old(Abs()), t);
        && (r.Ok? ==> err == None && Abs() == r.value)
        && (r.Err? ==> err == Some(r.error) && Abs() == old(Abs()))
    {
      var tk := tasks[t];
      if tk.alive { return Some(TaskletAlive); }
      if tk.func == None { return Some(NotBound); }
      tasks := tasks[t := tk.(alive := true, tempval := PyNone, body := BodyOf(tk.func.value))];
      runq := runq + [t];
      ret := Ref(t);
      err := None;
    }

    /** `t.insert()` */
    method Insert(t: Tid) returns (err: Option<Error>)
      requires Ready() && IsTasklet(Abs(), t)
      modifies this
      ensures var r := TaskletApi.Insert(old(Abs()), t);
        && (r.Ok? ==> err == None && Abs() == r.value)
        && (r.Err? ==> err == Some(r.error) && Abs() == old(Abs()))
    {
      var tk := tasks[t];
      if !tk.alive { return Some(TaskletNotAlive); }
      if tk.waitingOn.Some? { return Some(TaskletBlocked); }
      if t in runq { return Some(AlreadyScheduled); }
      runq := runq + [t];
      ret := PyNone;
      err := None;
    }

    /** `t.remove()`: the run-queue is searched for `t`, which is cut out. */
    method Remove(t: Tid) returns (err: Option<Error>)
      requires Ready() && IsTasklet(Abs(), t)
      modifies this
      ensures var r := TaskletApi.Remove(old(Abs()), t);
        && (r.Ok? ==> err == None && Abs() == r.value)
        && (r.Err? ==> err == Some(r.error) && Abs() == old(Abs()))
    {
      if t == runq[0] { return Some(RemoveCurrent); }
      if tasks[t].waitingOn.Some? { return Some(TaskletBlocked); }
      var k := 0;
      while k < |runq| && runq[k] != t
        invariant 0 <= k <= |runq|
        invariant forall j :: 0 <= j < k ==> runq[j] != t
      {
        k := k + 1;
      }
      if k < |runq| {
        assert IndexIn(runq, t) == k by {
          assert forall j :: 0 <= j < |runq| && runq[j] == t ==> j == k;
        }
        runq := RemoveAt(runq, k);
      }
      ret := PyNone;
      err := None;
    }

    /** `t.kill()` and `t.kill(pending=True)`. */
    method Kill(t: Tid, pending: bool) returns (err: Option<Error>)
      requires Ready() && IsTasklet(Abs(), t)
      modifies this
      ensures var r := TaskletApi.Kill(old(Abs()), t, pending);
        && (r.Ok? ==> err == None && Abs() == r.value)
        && (r.Err? ==> err == Some(r.error) && Abs() == old(Abs()))
    {
      if t == Main { return Some(MainTasklet); }
      err := None;
      var tk := tasks[t];
      if !tk.alive {
        ret := PyNone;
      } else if t == runq[0] {
        Store(DieHead(Abs()));
        RunScheduler();
      } else if pending {
        if tk.waitingOn.Some? {
          var c := tk.waitingOn.value;
          chans := chans[c := Withdraw(chans[c], t)];
        }
        tasks := tasks[t := tk.(pendingKill := true, tempval := Exc(TaskletExit), waitingOn := None)];
        if t !in runq { runq := runq + [t]; }
        ret := PyNone;
      } else {
        Store(Detach(Abs(), t).(ret := PyNone));
      }
    }

    /** The current tasklet's function returns. */
    method Finish() returns (err: Option<Error>)
      requires Ready()
      modifies this
      ensures var r := TaskletApi.Finish(old(Abs()));
        && (r.Ok? ==> err == None && Abs() == r.value)
        && (r.Err? ==> err == Some(r.error) && Abs() == old(Abs()))
    {
      if runq[0] == Main { return Some(MainTasklet); }
      Store(DieHead(Abs()));
      RunScheduler();
      err := None;
    }

    /** `t.run()` */
    method Run(t: Tid) returns (err: Option<Error>)
      requires Ready() && IsTasklet(Abs(), t)
      modifies this
      ensures var r := TaskletApi.Run(old(Abs()), t);
        && (r.Ok? ==> err == None && Abs() == r.value)
        && (r.Err? ==> err == Some(r.error) && Abs() == old(Abs()))
    {
      if !tasks[t].alive { return Some(TaskletNotAlive); }
      if tasks[t].waitingOn.Some? { return Some(TaskletBlocked); }
      err := None;
      if t == runq[0] {
        ret := PyNone;
      } else {
        Store(TaskletApi.RunFirst(Abs(), t));
        RunScheduler();
      }
    }

    /** `t.switch()` */
    method Switch(t: Tid) returns (err: Option<Error>)
      requires Ready() && IsTasklet(Abs(), t)
      modifies this
      ensures var r := TaskletApi.Switch(old(Abs()), t);
        && (r.Ok? ==> err == None && Abs() == r.value)
        && (r.Err? ==> err == Some(r.error) && Abs() == old(Abs()))
    {
      if !tasks[t].alive { return Some(TaskletNotAlive); }
      if tasks[t].waitingOn.Some? { return Some(TaskletBlocked); }
      err := None;
      if t == runq[0] {
        ret := PyNone;
      } else {
        Store(TaskletApi.SwitchFirst(Abs(), t));
        RunScheduler();
      }
    }

    /** `t.set_atomic(flag)` on the current tasklet; returns the old flag. */
    method SetAtomic(flag: bool) returns (prior: bool)
      requires Ready()
      modifies this
      ensures Abs() == TaskletApi.SetAtomic(old(Abs()), flag)
      ensures prior == old(tasks[runq[0]].atomic)
    {
      var h := runq[0];
      prior := tasks[h].atomic;
      tasks := tasks[h := tasks[h].(atomic := flag)];
      ret := Bool(prior);
    }
      // -------------------------------------------------------------------
    // Module functions

    /** `stackless.run()` */
    method RunAll() returns (err: Option<Error>)
      requires Ready()
      modifies this
      ensures var r := StacklessApi.RunAll(old(Abs()));
        && (r.Ok? ==> err == None && Abs() == r.value)
        && (r.Err? ==> err == Some(r.error) && Abs() == old(Abs()))
    {
      if runq[0] != Main { return Some(NotMainTasklet); }
      ghost var s0 := Abs();
      TailMembers(runq);
      runq := runq[1..];
      nested := true;
      WaitFrame(s0, Abs());
      if runq == [] {
        Store(Refill(Abs()));
      }
      RunScheduler();
      err := None;
    }

    /** `stackless.schedule(retval)` */
    method Schedule(retval: Option<Value>)
      requires Ready()
      modifies this
      ensures Abs() == StacklessApi.Schedule(old(Abs()), retval)
    {
      var h := runq[0];
      var v := if retval.Some? then retval.value else Ref(h);
      assert v == StacklessApi.RetvalOf(Abs(), retval);
      ghost var y := StacklessApi.Yield(Abs(), v, true);
      tasks := tasks[h := tasks[h].(tempval := v)];
      runq := runq[1..] + [h];
      assert Abs() == y;
      RunScheduler();
    }

    /** `stackless.schedule_remove(retval)` */
    method ScheduleRemove(retval: Option<Value>)
      requires Ready()
      modifies this
      ensures Abs() == StacklessApi.ScheduleRemove(old(Abs()), retval)
    {
      var h := runq[0];
      var v := if retval.Some? then retval.value else Ref(h);
      assert v == StacklessApi.RetvalOf(Abs(), retval);
      ghost var y := StacklessApi.Yield(Abs(), v, false);
      tasks := tasks[h := tasks[h].(tempval := v)];
      runq := runq[1..];
      assert Abs() == y;
      if runq == [] {
        Store(Refill(Abs()));
      }
      assert Abs() == Fill(y);
      RunScheduler();
    }

    // -------------------------------------------------------------------
    // Channel methods

    /** `stackless.channel()`: returns the new channel's handle. */
    method NewChannel() returns (c: Cid)
      requires Ready()
      modifies this
      ensures Abs() == ChannelApi.NewChannel(old(Abs())) && c == old(|chans|)
    {
      c := |chans|;
      chans := chans + [NewChan()];
      ret := ChanRef(c);
    }

    /** `c.close()` */
    method Close(c: Cid)
      requires Ready() && c < |chans|
      modifies this
      ensures Abs() == ChannelApi.CloseChannel(old(Abs()), c)
    {
      chans := chans[c := Channels.Close(chans[c])];
      ret := PyNone;
    }

    /** `c.open()` */
    method Open(c: Cid)
      requires Ready() && c < |chans|
      modifies this
      ensures Abs() == ChannelApi.OpenChannel(old(Abs()), c)
    {
      chans := chans[c := Channels.Open(chans[c])];
      ret := PyNone;
    }

    /** `c.preference = x` */
    method SetPreference(c: Cid, x: PyNumber) returns (err: Option<Error>)
      requires Ready() && c < |chans|
      modifies this
      ensures var r := ChannelApi.AssignPreference(old(Abs()), c, x);
        && (r.Ok? ==> err == None && Abs() == r.value)
        && (r.Err? ==> err == Some(r.error) && Abs() == old(Abs()))
    {
      match Channels.SetPreference(chans[c], x)
      case Ok(ch) =>
        chans := chans[c := ch];
        ret := PyNone;
        err := None;
      case Err(e) =>
        err := Some(e);
    }

    /** `c.schedule_all = x` */
    method SetScheduleAll(c: Cid, x: PyNumber) returns (err: Option<Error>)
      requires Ready() && c < |chans|
      modifies this
      ensures var r := ChannelApi.AssignScheduleAll(old(Abs()), c, x);
        && (r.Ok? ==> err == None && Abs() == r.value)
        && (r.Err? ==> err == Some(r.error) && Abs() == old(Abs()))
    {
      match Channels.SetScheduleAll(chans[c], x)
      case Ok(ch) =>
        chans := chans[c := ch];
        ret := PyNone;
        err := None;
      case Err(e) =>
        err := Some(e);
    }

    /** `c.send(v)` and `c.send_exception(e)` */
    method Send(c: Cid, v: Value) returns (err: Option<Error>)
      requires Ready() && c < |chans|
      modifies this
      ensures var r := ChannelApi.Send(old(Abs()), c, v);
        && (r.Ok? ==> err == None && Abs() == r.value)
        && (r.Err? ==> err == Some(r.error) && Abs() == old(Abs()))
    {
      var ch := chans[c];
      err := None;
      if ch.balance < 0 {
        var w := ch.waiters[0].t;
        tasks := tasks[w := tasks[w].(waitingOn := None, tempval := v)];
        chans := chans[c := Unpark(ch).1];
        runq := runq + [w];
        ret := PyNone;
      } else if ch.closing {
        err := Some(ChannelClosed);
      } else if runq[0] == Main && |runq| == 1 {
        err := Some(Deadlock);
      } else {
        Store(BlockHead(Abs(), c, v, true, Driven));
        RunScheduler();
      }
    }

    /** `c.receive()` */
    method Receive(c: Cid) returns (err: Option<Error>)
      requires Ready() && c < |chans|
      modifies this
      ensures var r := ChannelApi.Receive(old(Abs()), c);
        && (r.Ok? ==> err == None && Abs() == r.value)
        && (r.Err? ==> err == Some(r.error) && Abs() == old(Abs()))
    {
      var ch := chans[c];
      err := None;
      if ch.balance > 0 {
        var w := ch.waiters[0];
        tasks := tasks[w.t := tasks[w.t].(waitingOn := None, tempval := PyNone)];
        chans := chans[c := Unpark(ch).1];
        runq := runq + [w.t];
        ret := w.v;
      } else if ch.closing {
        err := Some(ChannelClosed);
      } else if runq[0] == Main && |runq| == 1 {
        err := Some(Deadlock);
      } else {
        Store(BlockHead(Abs(), c, PyNone, false, Driven));
        RunScheduler();
      }
    }

    /** `c.send_sequence(items)` */
    method SendSequence(c: Cid, items: seq<Value>)
      requires Ready() && c < |chans|
      modifies this
      ensures Abs() == ChannelApi.SendSequence(old(Abs()), c, items)
    {
      Store(SetBody(Abs(), runq[0], Sends(c, items, 0, ReturnCount), PyNone));
      RunScheduler();
    }

    /** `c.queue` */
    method Queue(c: Cid) returns (q: Option<Tid>)
      requires Ready() && c < |chans|
      ensures q == ChannelApi.QueueOf(Abs(), c)
    {
      q := if chans[c].balance == 0 then None else Some(chans[c].waiters[0].t);
    }

    /** `t.next` of a tasklet waiting on a channel: its wait queue is
        searched for `t`. */
    method Next(t: Tid) returns (n: Option<Tid>)
      requires Ready() && IsTasklet(Abs(), t) && tasks[t].waitingOn.Some?
      ensures n == ChannelApi.NextOf(Abs(), t)
    {
      var ws := chans[tasks[t].waitingOn.value].waiters;
      var k := 0;
      while k < |ws| && ws[k].t != t
        invariant 0 <= k <= |ws|
        invariant forall j :: 0 <= j < k ==> ws[j].t != t
      {
        k := k + 1;
      }
      n := if k + 1 < |ws| then Some(ws[k + 1].t) else None;
    }

    /** `list(c)`: `next()`, that is `receive()`, until an exception is
        received or raised, or until the current tasklet is parked in a
        `receive()` while another one has control. */
    method Collect(c: Cid) returns (vs: seq<Value>, end: ChannelApi.IterEnd)
      requires Ready() && c < |chans|
      modifies this
      ensures (Abs(), vs, end) == ChannelApi.Iterate(old(Abs()), c)
    {
      ghost var s0 := Abs();
      var h := runq[0];
      vs := [];
      AfterNil(ChannelApi.Iterate(s0, c));
      while true
        invariant Ready() && c < |chans| && runq[0] == h
        invariant ChannelApi.Iterate(s0, c) == After(vs, ChannelApi.Iterate(Abs(), c))
        decreases Work(Abs())
      {
        ghost var s := Abs();
        ChannelApi.IterateEnds(s, c);
        ChannelApi.ReceiveProgress(s, c);
        var err := Receive(c);
        if err.Some? {
          end := ChannelApi.Raised(err.value);
          assert vs + [] == vs;
          return;
        }
        if runq[0] != h {
          end := ChannelApi.Suspended;
          assert vs + [] == vs;
          return;
        }
        var x := ret;
        ChannelApi.IterateOk(s, c, Abs());
        if x.Exc? {
          end := if x.e == StopIteration then ChannelApi.Stopped else ChannelApi.Raised(x.e);
          assert vs + [] == vs;
          return;
        }
        AfterStep(vs, x, ChannelApi.Iterate(Abs(), c));
        vs := vs + [x];
      }
    }
  }

  /** An iteration's outcome with `vs` taken before it. */
  function After(vs: seq<Value>, d: (State, seq<Value>, ChannelApi.IterEnd)): (r: (State, seq<Value>, ChannelApi.IterEnd))
    ensures r.0 == d.0 && r.2 == d.2 && |r.1| == |vs| + |d.1|
  {
    (d.0, vs + d.1, d.2)
  }

  lemma AfterNil(d: (State, seq<Value>, ChannelApi.IterEnd))
    ensures After([], d) == d
  {
    assert [] + d.1 == d.1;
  }

  lemma AfterStep(vs: seq<Value>, x: Value, d: (State, seq<Value>, ChannelApi.IterEnd))
    ensures After(vs, (d.0, [x] + d.1, d.2)) == After(vs + [x], d)
  {
    assert vs + ([x] + d.1) == (vs + [x]) + d.1;
  }
}
