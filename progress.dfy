/** Progress of a blocking call: a tasklet parked on a channel in a call of
    its own code gets control back with a value only after some item was
    handed over, so the work measure of the scheduler has gone down. This
    is what bounds an iteration over a channel. */
module Progress {
  import opened Types
  import opened Channels
  import opened Tasklets
  import opened Scheduler

  /** Tasklet `t` is parked on a channel in a call of its own code. */
  predicate Blocked(st: State, t: Tid) {
    t < |st.tasks| && st.tasks[t].waitingOn.Some? && st.tasks[t].body == Driven && !st.tasks[t].pendingKill
  }

  /** Tasklet `t` runs its own code, waits nowhere and has no kill pending:
      once it is current, the scheduler hands it control. */
  predicate Awake(st: State, t: Tid) {
    t < |st.tasks| && st.tasks[t].waitingOn == None && st.tasks[t].body == Driven && !st.tasks[t].pendingKill
  }

  /** After a move from `st` to `r`, a tasklet `t` blocked in `st` is still
      blocked, or it was woken either with an exception or by a move that
      handed an item over. */
  predicate BlockedOrWoken(st: State, r: State, t: Tid) {
    Blocked(r, t) || (Awake(r, t) && (r.tasks[t].tempval.Exc? || Work(r) < Work(st)))
  }

  // ---------------------------------------------------------------------
  // No move of the scheduler adds work

  lemma RefillWork(st: State)
    requires Inv(st) && st.runq == []
    ensures Work(Refill(st)) <= Work(st)
  {
    var m := st.tasks[Main];
    if m.waitingOn.Some? {
      var c := m.waitingOn.value;
      SumPendUpdate(st.tasks, Main, m.(waitingOn := None, tempval := Exc(Deadlock), body := Driven));
      SumSurplusUpdate(st.chans, c, Withdraw(st.chans[c], Main));
    }
  }

  lemma FillWork(st: State)
    requires Inv(st)
    ensures Work(Fill(st)) <= Work(st)
  {
    if st.runq == [] {
      RefillWork(st);
    }
  }

  lemma DieHeadWork(st: State)
    requires Valid(st) && st.runq[0] != Main
    ensures Work(DieHead(st)) <= Work(st)
  {
    var h := st.runq[0];
    TailMembers(st.runq);
    var s1 := st.(tasks := st.tasks[h := Corpse(st.tasks[h])], runq := st.runq[1..]);
    WaitFrame(st, s1);
    SumPendUpdate(st.tasks, h, Corpse(st.tasks[h]));
    FillWork(s1);
  }

  lemma BlockHeadWork(st: State, c: Cid, v: Value, sending: bool, body: Body)
    requires Valid(st) && c < |st.chans|
    requires if sending then st.chans[c].balance >= 0 else st.chans[c].balance <= 0
    requires BodyOk(body, |st.chans|)
    requires st.runq[0] == Main ==> body.Driven? || (body.Sends? && body.k == ReturnCount)
    requires st.runq[0] == Main ==> |st.runq| > 1
    requires !st.tasks[st.runq[0]].pendingKill
    requires (if body.Sends? then |body.rest| else 0) + (if sending then 1 else 0) <= Pend(st.tasks[st.runq[0]])
    ensures Work(BlockHead(st, c, v, sending, body)) <= Work(st)
  {
    ParkHeadWork(st, c, v, sending, body);
    FillWork(ParkHead(st, c, v, sending, body));
  }

  /** The current tasklet's send loop ends or stops: it returns to its own
      code or its frame ends. */
  lemma SendEndWork(st: State, v: Value)
    requires Valid(st) && st.tasks[st.runq[0]].body.Sends?
    ensures st.tasks[st.runq[0]].body.k == ReturnCount ==>
      Work(SetBody(st, st.runq[0], Driven, v)) <= Work(st)
    ensures st.tasks[st.runq[0]].body.k == Exit ==> Work(DieHead(st)) <= Work(st)
  {
    var h := st.runq[0];
    if st.tasks[h].body.k == ReturnCount {
      SumPendUpdate(st.tasks, h, st.tasks[h].(body := Driven, tempval := v));
    } else {
      assert h != Main by { assert MainOk(st.tasks[Main]); }
      DieHeadWork(st);
    }
  }

  lemma SendStepWork(st: State)
    requires Valid(st) && st.tasks[st.runq[0]].body.Sends? && !st.tasks[st.runq[0]].pendingKill
    ensures Work(SendStep(st)) <= Work(st)
  {
    var h := st.runq[0];
    var b := st.tasks[h].body;
    if b.rest == [] {
      SendEndWork(st, Int(b.sent));
    } else if st.chans[b.ch].balance < 0 {
      assert SendStep(st) == SendHandOff(st);
      SendHandOffBelow(st);
    } else if st.chans[b.ch].closing || (h == Main && |st.runq| == 1) {
      var e := if st.chans[b.ch].closing then ChannelClosed else Deadlock;
      assert SendStep(st) == Raise(st, e);
      SendEndWork(st, Exc(e));
    } else {
      SendBlocks(st, b);
      assert TaskOk(st.tasks[h], |st.chans|);
      BlockHeadWork(st, b.ch, b.rest[0], true, Sends(b.ch, b.rest[1..], b.sent + 1, b.k));
    }
  }

  lemma RecvStepWork(st: State)
    requires Valid(st) && st.tasks[st.runq[0]].body.Recv? && !st.tasks[st.runq[0]].pendingKill
    ensures Work(RecvStep(st)) <= Work(st)
  {
    var h := st.runq[0];
    var b := st.tasks[h].body;
    var c := b.ch;
    var next := if b.forever then b else Done;
    if st.chans[c].balance > 0 {
      RecvTakeWork(st);
    } else if st.chans[c].closing {
      DieHeadWork(st);
    } else {
      BlockHeadWork(st, c, PyNone, false, next);
    }
  }

  /** No step of the scheduler adds work. */
  lemma StepWork(st: State)
    requires Valid(st) && !Settled(st)
    ensures Work(Step(st)) <= Work(st)
  {
    var tk := st.tasks[st.runq[0]];
    if tk.pendingKill || tk.body.Done? {
      assert st.runq[0] != Main by { assert MainOk(st.tasks[Main]); }
      DieHeadWork(st);
    } else if tk.body.Sends? {
      SendStepWork(st);
    } else {
      RecvStepWork(st);
    }
  }

  lemma ResumeWork(st: State)
    requires Valid(st) && Settled(st)
    ensures Work(Resume(st)) == Work(st)
  {
    var h := st.runq[0];
    SumPendUpdate(st.tasks, h, st.tasks[h].(tempval := PyNone));
  }

  // ---------------------------------------------------------------------
  // What the moves do to a blocked tasklet

  lemma FillBlocked(st: State, t: Tid)
    requires Inv(st) && Blocked(st, t)
    ensures Blocked(Fill(st), t) || (Awake(Fill(st), t) && Fill(st).tasks[t].tempval.Exc?)
  {
    if st.runq == [] && t == Main {
      assert MainOk(Fill(st).tasks[Main]);
    }
  }

  lemma DieHeadBlocked(st: State, t: Tid)
    requires Valid(st) && st.runq[0] != Main && Blocked(st, t)
    ensures Blocked(DieHead(st), t) || (Awake(DieHead(st), t) && DieHead(st).tasks[t].tempval.Exc?)
  {
    var h := st.runq[0];
    TailMembers(st.runq);
    var s1 := st.(tasks := st.tasks[h := Corpse(st.tasks[h])], runq := st.runq[1..]);
    WaitFrame(st, s1);
    FillBlocked(s1, t);
  }

  lemma BlockHeadBlocked(st: State, c: Cid, v: Value, sending: bool, body: Body, t: Tid)
    requires Valid(st) && c < |st.chans|
    requires if sending then st.chans[c].balance >= 0 else st.chans[c].balance <= 0
    requires BodyOk(body, |st.chans|)
    requires st.runq[0] == Main ==> body.Driven? || (body.Sends? && body.k == ReturnCount)
    requires st.runq[0] == Main ==> |st.runq| > 1
    requires !st.tasks[st.runq[0]].pendingKill
    requires Blocked(st, t)
    ensures var r := BlockHead(st, c, v, sending, body); Blocked(r, t) || (Awake(r, t) && r.tasks[t].tempval.Exc?)
  {
    FillBlocked(ParkHead(st, c, v, sending, body), t);
  }

  lemma SendEndBlocked(st: State, v: Value, t: Tid)
    requires Valid(st) && st.tasks[st.runq[0]].body.Sends? && Blocked(st, t)
    ensures st.tasks[st.runq[0]].body.k == ReturnCount ==>
      Blocked(SetBody(st, st.runq[0], Driven, v), t)
    ensures st.tasks[st.runq[0]].body.k == Exit ==> BlockedOrWoken(st, DieHead(st), t)
  {
    if st.tasks[st.runq[0]].body.k == Exit {
      assert st.runq[0] != Main by { assert MainOk(st.tasks[Main]); }
      DieHeadBlocked(st, t);
    }
  }

  /** A send loop that hands an item to `t` has done work. */
  lemma SendHandOffBlocked(st: State, t: Tid)
    requires Valid(st) && st.tasks[st.runq[0]].body.Sends? && st.tasks[st.runq[0]].body.rest != []
    requires st.chans[st.tasks[st.runq[0]].body.ch].balance < 0
    requires Blocked(st, t)
    ensures BlockedOrWoken(st, SendHandOff(st), t)
  {
    SendHandOffBelow(st);
  }

  lemma SendStepBlocked(st: State, t: Tid)
    requires Valid(st) && st.tasks[st.runq[0]].body.Sends? && !st.tasks[st.runq[0]].pendingKill
    requires Blocked(st, t)
    ensures BlockedOrWoken(st, SendStep(st), t)
  {
    var h := st.runq[0];
    var b := st.tasks[h].body;
    if b.rest == [] {
      SendEndBlocked(st, Int(b.sent), t);
    } else if st.chans[b.ch].balance < 0 {
      assert SendStep(st) == SendHandOff(st);
      SendHandOffBlocked(st, t);
    } else if st.chans[b.ch].closing || (h == Main && |st.runq| == 1) {
      var e := if st.chans[b.ch].closing then ChannelClosed else Deadlock;
      assert SendStep(st) == Raise(st, e);
      SendEndBlocked(st, Exc(e), t);
    } else {
      SendBlocks(st, b);
      assert TaskOk(st.tasks[h], |st.chans|);
      BlockHeadBlocked(st, b.ch, b.rest[0], true, Sends(b.ch, b.rest[1..], b.sent + 1, b.k), t);
    }
  }

  /** A receive loop that takes `t`'s item has done work. */
  lemma RecvStepBlocked(st: State, t: Tid)
    requires Valid(st) && st.tasks[st.runq[0]].body.Recv? && !st.tasks[st.runq[0]].pendingKill
    requires Blocked(st, t)
    ensures BlockedOrWoken(st, RecvStep(st), t)
  {
    var h := st.runq[0];
    var b := st.tasks[h].body;
    var c := b.ch;
    var next := if b.forever then b else Done;
    if st.chans[c].balance > 0 {
      RecvTakeBlocked(st, t);
    } else if st.chans[c].closing {
      DieHeadBlocked(st, t);
    } else {
      BlockHeadBlocked(st, c, PyNone, false, next, t);
    }
  }

  /** A receive loop that takes an item has done work. */
  lemma RecvTakeWork(st: State)
    requires Valid(st) && st.tasks[st.runq[0]].body.Recv? && !st.tasks[st.runq[0]].pendingKill
    requires st.chans[st.tasks[st.runq[0]].body.ch].balance > 0
    ensures Work(RecvStep(st)) < Work(st)
  {
    var h := st.runq[0];
    var b := st.tasks[h].body;
    var next := if b.forever then b else Done;
    var (s1, w) := Wake(st, b.ch, PyNone);
    WakeWork(st, b.ch, PyNone);
    SumPendUpdate(s1.tasks, h, s1.tasks[h].(body := next, tempval := s1.tasks[h].tempval));
  }

  lemma RecvTakeBlocked(st: State, t: Tid)
    requires Valid(st) && st.tasks[st.runq[0]].body.Recv? && !st.tasks[st.runq[0]].pendingKill
    requires st.chans[st.tasks[st.runq[0]].body.ch].balance > 0 && Blocked(st, t)
    ensures BlockedOrWoken(st, RecvStep(st), t)
  {
    var h := st.runq[0];
    var b := st.tasks[h].body;
    var s1 := Wake(st, b.ch, PyNone).0;
    RecvTakeWork(st);
    assert RecvStep(st).tasks[t] == s1.tasks[t];
  }

  /** A step leaves a blocked tasklet blocked, or wakes it with an
      exception, or wakes it by handing an item over. */
  lemma StepBlocked(st: State, t: Tid)
    requires Valid(st) && !Settled(st) && Blocked(st, t)
    ensures BlockedOrWoken(st, Step(st), t)
  {
    var tk := st.tasks[st.runq[0]];
    if tk.pendingKill || tk.body.Done? {
      assert st.runq[0] != Main by { assert MainOk(st.tasks[Main]); }
      DieHeadBlocked(st, t);
    } else if tk.body.Sends? {
      SendStepBlocked(st, t);
    } else {
      RecvStepBlocked(st, t);
    }
  }

  /** If the scheduler, started with `t` blocked (or woken without an
      exception only after work was done), gives control to `t` with a
      value that is not an exception, the work left is below `w`. */
  lemma {:induction false} DispatchBlocked(st: State, t: Tid, w: nat)
    requires Valid(st) && Work(st) <= w
    requires Blocked(st, t) || (Awake(st, t) && (st.tasks[t].tempval.Exc? || Work(st) < w))
    ensures Dispatch(st).runq[0] == t && !Dispatch(st).ret.Exc? ==> Work(Dispatch(st)) < w
    decreases if Settled(st) then 0 else 1, Work(st), Turns(st)
  {
    if Settled(st) {
      ResumeWork(st);
    } else {
      StepBelow(st);
      StepWork(st);
      if Blocked(st, t) {
        StepBlocked(st, t);
      } else {
        assert Aside(st, t);
        StepFrame(st, t);
      }
      DispatchBlocked(Step(st), t, w);
    }
  }
}
