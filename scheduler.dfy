/** The per-thread scheduler as a state machine: the tasklet table, the
    run-queue (its head is the current tasklet), the channel table, and the
    primitive moves every operation is built from. */
module Scheduler {
  import opened Types
  import opened Channels
  import opened Tasklets

  /** The main tasklet is always entry 0 of the table. */
  const Main: Tid := 0

  /** `ret` holds what the current tasklet's last call evaluates to: the
      result of a call that did not suspend, or the value delivered to a
      tasklet when it is resumed after a suspending call. `nested` is set
      while the main tasklet sits in `stackless.run()`. */
  datatype State = State(
    tasks: seq<Tasklet>,
    runq: seq<Tid>,
    chans: seq<Chan>,
    nested: bool,
    ret: Value)

  function MainTasklet(): Tasklet {
    Tasklet(None, true, PyNone, false, Driven, false, None)
  }

  predicate FuncOk(f: Func, n: nat) {
    (f.Producer? ==> f.ch < n) && (f.Consumer? ==> f.ch < n)
  }

  predicate BodyOk(b: Body, n: nat) {
    (b.Sends? ==> b.ch < n) && (b.Recv? ==> b.ch < n)
  }

  predicate TaskOk(tk: Tasklet, n: nat) {
    && (tk.func.Some? ==> FuncOk(tk.func.value, n))
    && BodyOk(tk.body, n)
    && (tk.waitingOn.Some? ==> tk.alive && tk.waitingOn.value < n)
    && (!tk.alive ==> tk.tempval == BoundValue(tk.func) && tk.body == Driven && !tk.pendingKill)
  }

  /** The main tasklet lives as long as its thread, is never killed, and
      runs only its own code or a `send_sequence` it called. */
  predicate MainOk(tk: Tasklet) {
    tk.alive && !tk.pendingKill && (tk.body.Driven? || (tk.body.Sends? && tk.body.k == ReturnCount))
  }

  /** Every tasklet record is well formed. */
  predicate TasksOk(st: State) {
    && |st.tasks| >= 1
    && MainOk(st.tasks[Main])
    && (forall t :: 0 <= t < |st.tasks| ==> TaskOk(st.tasks[t], |st.chans|))
  }

  /** The run-queue holds distinct live tasklets that are not parked. */
  predicate RunqOk(st: State) {
    && Distinct(st.runq)
    && (forall i :: 0 <= i < |st.runq| ==>
          st.runq[i] < |st.tasks| && st.tasks[st.runq[i]].alive && st.tasks[st.runq[i]].waitingOn == None)
  }

  /** Every channel is well formed, and its wait queue holds exactly the
      tasklets parked on it. */
  predicate ChansOk(st: State) {
    && (forall c :: 0 <= c < |st.chans| ==> ChanOk(st.chans[c]))
    && (forall c, i :: 0 <= c < |st.chans| && 0 <= i < |st.chans[c].waiters| ==>
          st.chans[c].waiters[i].t < |st.tasks| && st.tasks[st.chans[c].waiters[i].t].waitingOn == Some(c))
  }

  predicate ParkedOk(st: State)
    requires TasksOk(st)
  {
    forall t :: 0 <= t < |st.tasks| && st.tasks[t].waitingOn.Some? ==>
      t in Tids(st.chans[st.tasks[t].waitingOn.value].waiters)
  }

  /** The scheduler invariant, except that the run-queue may be empty. */
  predicate Inv(st: State) {
    TasksOk(st) && RunqOk(st) && ChansOk(st) && ParkedOk(st)
  }

  /** The scheduler invariant: some tasklet is current. */
  predicate Valid(st: State) {
    Inv(st) && |st.runq| >= 1
  }

  /** Between two operations the current tasklet runs its own code, has no
      kill pending and no value waiting for it. */
  predicate Ready(st: State) {
    && Valid(st)
    && st.tasks[st.runq[0]].body == Driven && !st.tasks[st.runq[0]].pendingKill
    && st.tasks[st.runq[0]].tempval == PyNone
  }

  /** The state of a thread that has just started: only its main tasklet. */
  function Init(): (st: State)
    ensures Ready(st) && st.runq == [Main] && |st.tasks| == 1 && st.chans == []
  {
    State([MainTasklet()], [Main], [], false, PyNone)
  }

  // ---------------------------------------------------------------------
  // Observable flags of one tasklet

  predicate IsTasklet(st: State, t: Tid) {
    t < |st.tasks|
  }

  /** The flags `check_tasklet_flags` reads. `paused` is derived: alive but
      neither scheduled nor blocked. `restorable` is false only for main
      while it sits in `run()`. `block_trap` and `ignore_nesting` are
      always false. */
  function FlagsOf(st: State, t: Tid): (fl: Flags)
    requires Valid(st) && IsTasklet(st, t)
    ensures fl.isCurrent ==> fl.scheduled
    ensures fl.scheduled || fl.blocked || fl.paused || fl.isMain ==> fl.alive
    ensures !(fl.scheduled && fl.blocked)
    ensures fl.alive ==> fl.paused || fl.scheduled || fl.blocked
    ensures !fl.restorable ==> fl.isMain
    ensures !fl.alive ==> fl.tempval == BoundValue(st.tasks[t].func)
    ensures !fl.blockTrap && !fl.ignoreNesting
  {
    assert MainOk(st.tasks[Main]) && TaskOk(st.tasks[t], |st.chans|);
    var tk := st.tasks[t];
    var scheduled := t in st.runq;
    var blocked := tk.waitingOn.Some?;
    Flags(tk.alive, tk.alive && !scheduled && !blocked, blocked, scheduled,
          !(t == Main && st.nested), tk.atomic, false, false, st.runq[0] == t, t == Main,
          tk.tempval)
  }

  /** `stackless.getcurrent()` */
  function Current(st: State): (t: Tid)
    requires |st.runq| >= 1
    ensures Valid(st) ==> IsTasklet(st, t) && st.tasks[t].alive && FlagsOf(st, t).isCurrent
    ensures Valid(st) ==> forall u :: IsTasklet(st, u) && FlagsOf(st, u).isCurrent ==> u == t
  {
    st.runq[0]
  }

  /** `stackless.getruncount()`: the current tasklet and every tasklet
      waiting on the run-queue. */
  function RunCount(st: State): (n: nat)
    ensures Valid(st) ==> n >= 1
    ensures Valid(st) ==> (n == 1 <==> forall u :: IsTasklet(st, u) && FlagsOf(st, u).scheduled ==> u == Current(st))
  {
    assert Valid(st) && |st.runq| > 1 ==> st.runq[1] != st.runq[0] && st.runq[1] < |st.tasks|;
    assert Valid(st) && |st.runq| > 1 ==> FlagsOf(st, st.runq[1]).scheduled;
    assert |st.runq| == 1 ==> st.runq == [st.runq[0]];
    |st.runq|
  }

  /** The run count is the number of tasklets whose `scheduled` flag is set. */
  lemma {:induction false} RunCountScheduled(st: State)
    requires Valid(st)
    ensures RunCount(st) == |set u | 0 <= u < |st.tasks| && FlagsOf(st, u).scheduled|
  {
    assert (set u | 0 <= u < |st.tasks| && FlagsOf(st, u).scheduled) == Elems(st.runq);
    DistinctCard(st.runq);
  }

  /** The tasklets a sequence names. */
  function Elems(s: seq<Tid>): set<Tid> {
    set u | u in s
  }

  /** A sequence without repetitions names as many tasklets as it has
      positions. */
  lemma {:induction false} DistinctCard(s: seq<Tid>)
    requires Distinct(s)
    ensures |Elems(s)| == |s|
  {
    if s != [] {
      var t := s[1..];
      assert Distinct(t) by {
        forall i, j | 0 <= i < j < |t| ensures t[i] != t[j] { assert t[i] == s[i + 1] && t[j] == s[j + 1]; }
      }
      DistinctCard(t);
      assert s[0] !in t by {
        forall i | 0 <= i < |t| ensures t[i] != s[0] { assert t[i] == s[i + 1]; }
      }
      assert s == [s[0]] + t;
      assert Elems(s) == Elems(t) + {s[0]};
    } else {
      assert Elems(s) == {};
    }
  }



  /** A tasklet in a wait queue is parked on that channel. */
  lemma WaiterOf(st: State, c: Cid, u: Tid)
    requires Inv(st) && c < |st.chans| && u in Tids(st.chans[c].waiters)
    ensures u < |st.tasks| && st.tasks[u].waitingOn == Some(c) && u !in st.runq
  {
    var k := IndexOf(st.chans[c].waiters, u);
    assert forall i :: 0 <= i < |st.runq| ==> st.runq[i] != u;
  }

  /** A move that keeps the current tasklet and its record keeps `Ready`. */
  lemma ReadyFrame(st: State, r: State)
    requires Ready(st) && Valid(r) && r.runq[0] == st.runq[0]
    requires |r.tasks| == |st.tasks| && r.tasks[st.runq[0]] == st.tasks[st.runq[0]]
    ensures Ready(r)
  {
  }

  /** Which tasklet waits where is all the channel clauses look at. */
  predicate SameWaits(st: State, r: State) {
    && |r.tasks| == |st.tasks|
    && forall u :: 0 <= u < |st.tasks| ==> r.tasks[u].waitingOn == st.tasks[u].waitingOn
  }

  /** As `SameWaits`, except for tasklet `t`. */
  predicate SameWaitsBut(st: State, r: State, t: Tid) {
    && |r.tasks| == |st.tasks|
    && forall u :: 0 <= u < |st.tasks| && u != t ==> r.tasks[u].waitingOn == st.tasks[u].waitingOn
  }

  /** The channel clauses hold after a move that parks or wakes nobody. */
  lemma WaitFrame(st: State, r: State)
    requires Inv(st) && TasksOk(r) && r.chans == st.chans && SameWaits(st, r)
    ensures ChansOk(r) && ParkedOk(r)
  {
    forall c, i | 0 <= c < |r.chans| && 0 <= i < |r.chans[c].waiters|
      ensures r.chans[c].waiters[i].t < |r.tasks| && r.tasks[r.chans[c].waiters[i].t].waitingOn == Some(c)
    {
      WaiterOf(st, c, st.chans[c].waiters[i].t);
    }
  }

  /** The channel clauses hold after tasklet `t` is taken off the channel it
      waits on. */
  lemma WithdrawFrame(st: State, r: State, t: Tid)
    requires Inv(st) && TasksOk(r) && t < |st.tasks| && st.tasks[t].waitingOn.Some?
    requires r.chans == st.chans[st.tasks[t].waitingOn.value := Withdraw(st.chans[st.tasks[t].waitingOn.value], t)]
    requires SameWaitsBut(st, r, t) && r.tasks[t].waitingOn == None
    ensures ChansOk(r) && ParkedOk(r)
  {
    var c := st.tasks[t].waitingOn.value;
    forall c', i | 0 <= c' < |r.chans| && 0 <= i < |r.chans[c'].waiters|
      ensures r.chans[c'].waiters[i].t < |r.tasks| && r.tasks[r.chans[c'].waiters[i].t].waitingOn == Some(c')
    {
      var u := r.chans[c'].waiters[i].t;
      assert Tids(r.chans[c'].waiters)[i] == u;
      assert u in Tids(st.chans[c'].waiters);
      WaiterOf(st, c', u);
    }
    forall u | 0 <= u < |r.tasks| && r.tasks[u].waitingOn.Some?
      ensures u in Tids(r.chans[r.tasks[u].waitingOn.value].waiters)
    {
      assert u != t;
    }
  }

  /** The channel clauses hold after tasklet `h`, waiting nowhere, is
      parked at the tail of channel `c`. */
  lemma ParkFrame(st: State, r: State, h: Tid, c: Cid, v: Value, sending: bool)
    requires Inv(st) && TasksOk(r) && h < |st.tasks| && st.tasks[h].waitingOn == None && c < |st.chans|
    requires if sending then st.chans[c].balance >= 0 else st.chans[c].balance <= 0
    requires h !in Tids(st.chans[c].waiters)
    requires r.chans == st.chans[c := Park(st.chans[c], Waiter(h, v), sending)]
    requires SameWaitsBut(st, r, h) && r.tasks[h].waitingOn == Some(c)
    ensures ChansOk(r) && ParkedOk(r)
  {
    assert Tids(r.chans[c].waiters) == Tids(st.chans[c].waiters) + [h];
    forall c', i | 0 <= c' < |r.chans| && 0 <= i < |r.chans[c'].waiters|
      ensures r.chans[c'].waiters[i].t < |r.tasks| && r.tasks[r.chans[c'].waiters[i].t].waitingOn == Some(c')
    {
      var u := r.chans[c'].waiters[i].t;
      if c' != c || i < |st.chans[c].waiters| {
        assert st.chans[c'].waiters[i].t == u;
        WaiterOf(st, c', u);
      }
    }
  }

  /** The channel clauses hold after the longest waiter of channel `c` is
      taken off it. */
  lemma UnparkFrame(st: State, r: State, c: Cid)
    requires Inv(st) && TasksOk(r) && c < |st.chans| && st.chans[c].balance != 0
    requires r.chans == st.chans[c := Unpark(st.chans[c]).1]
    requires SameWaitsBut(st, r, st.chans[c].waiters[0].t)
    requires st.chans[c].waiters[0].t < |r.tasks| && r.tasks[st.chans[c].waiters[0].t].waitingOn == None
    ensures ChansOk(r) && ParkedOk(r)
  {
    var w := st.chans[c].waiters[0].t;
    assert Tids(st.chans[c].waiters) == [w] + Tids(r.chans[c].waiters);
    WaiterOf(st, c, w);
    forall c', i | 0 <= c' < |r.chans| && 0 <= i < |r.chans[c'].waiters|
      ensures r.chans[c'].waiters[i].t < |r.tasks| && r.tasks[r.chans[c'].waiters[i].t].waitingOn == Some(c')
    {
      var u := r.chans[c'].waiters[i].t;
      if c' == c {
        assert st.chans[c].waiters[i + 1].t == u;
        assert Tids(st.chans[c].waiters)[i + 1] == u;
        assert u != w;
      } else {
        assert st.chans[c'].waiters[i].t == u;
      }
      WaiterOf(st, c', u);
    }
    forall u | 0 <= u < |r.tasks| && r.tasks[u].waitingOn.Some?
      ensures u in Tids(r.chans[r.tasks[u].waitingOn.value].waiters)
    {
      assert u != w;
    }
  }

  /** A tasklet that waits nowhere is in no wait queue. */
  lemma NotWaiting(st: State, t: Tid, c: Cid)
    requires Inv(st) && t < |st.tasks| && st.tasks[t].waitingOn == None && c < |st.chans|
    ensures t !in Tids(st.chans[c].waiters)
  {
    forall i | 0 <= i < |st.chans[c].waiters| ensures Tids(st.chans[c].waiters)[i] != t {
      assert st.tasks[st.chans[c].waiters[i].t].waitingOn == Some(c);
    }
  }

  /** A run-queue rearranged from the old one's tasklets keeps its clause. */
  lemma RunqSub(st: State, r: State)
    requires RunqOk(st) && r.tasks == st.tasks && Distinct(r.runq)
    requires forall u :: u in r.runq ==> u in st.runq
    ensures RunqOk(r)
  {
    forall i | 0 <= i < |r.runq|
      ensures r.runq[i] < |r.tasks| && r.tasks[r.runq[i]].alive && r.tasks[r.runq[i]].waitingOn == None
    {
      var j := IndexIn(st.runq, r.runq[i]);
    }
  }

  /** A new tasklet, parked nowhere, joins the table. */
  lemma AddTaskFrame(st: State, r: State, tk: Tasklet)
    requires Inv(st) && r.tasks == st.tasks + [tk] && r.runq == st.runq && r.chans == st.chans
    requires TaskOk(tk, |st.chans|) && tk.waitingOn == None
    ensures Inv(r)
  {
    forall c, i | 0 <= c < |r.chans| && 0 <= i < |r.chans[c].waiters|
      ensures r.chans[c].waiters[i].t < |r.tasks| && r.tasks[r.chans[c].waiters[i].t].waitingOn == Some(c)
    {
      assert st.chans[c].waiters[i].t < |st.tasks|;
    }
    forall u | 0 <= u < |r.tasks| && r.tasks[u].waitingOn.Some?
      ensures u in Tids(r.chans[r.tasks[u].waitingOn.value].waiters)
    {
      assert u < |st.tasks|;
    }
  }

  /** A new channel, with nobody waiting, joins the table. */
  lemma AddChanFrame(st: State, r: State, ch: Chan)
    requires Inv(st) && r.chans == st.chans + [ch] && r.runq == st.runq && r.tasks == st.tasks
    requires ChanOk(ch) && ch.waiters == []
    ensures Inv(r)
  {
    forall t | 0 <= t < |r.tasks| ensures TaskOk(r.tasks[t], |r.chans|) {
      assert TaskOk(st.tasks[t], |st.chans|);
    }
    forall c, i | 0 <= c < |r.chans| && 0 <= i < |r.chans[c].waiters|
      ensures r.chans[c].waiters[i].t < |r.tasks| && r.tasks[r.chans[c].waiters[i].t].waitingOn == Some(c)
    {
      assert c < |st.chans| && r.chans[c] == st.chans[c];
    }
  }

  /** A channel's attributes change but not its wait queue. */
  lemma ChanAttrFrame(st: State, r: State, c: Cid)
    requires Inv(st) && c < |st.chans| && r.tasks == st.tasks && r.runq == st.runq
    requires |r.chans| == |st.chans| && r.chans == st.chans[c := r.chans[c]]
    requires ChanOk(r.chans[c]) && r.chans[c].waiters == st.chans[c].waiters
    ensures Inv(r)
  {
    forall c', i | 0 <= c' < |r.chans| && 0 <= i < |r.chans[c'].waiters|
      ensures r.chans[c'].waiters[i].t < |r.tasks| && r.tasks[r.chans[c'].waiters[i].t].waitingOn == Some(c')
    {
      assert r.chans[c'].waiters == st.chans[c'].waiters;
    }
  }

  // ---------------------------------------------------------------------
  // Primitive moves

  /** The run-queue ran empty: the main tasklet gets control back. If it
      is itself parked on a channel, it is taken off and resumed with a
      deadlock error. */
  function Refill(st: State): (r: State)
    requires Inv(st) && st.runq == []
    ensures Valid(r) && r.runq == [Main] && r.nested == st.nested && r.ret == st.ret
    ensures |r.tasks| == |st.tasks| && |r.chans| == |st.chans|
    ensures st.tasks[Main].waitingOn == None ==> r.tasks == st.tasks && r.chans == st.chans
    ensures st.tasks[Main].waitingOn.Some? ==> r.tasks[Main].body == Driven && r.tasks[Main].tempval == Exc(Deadlock)
    ensures r.tasks == st.tasks[Main := r.tasks[Main]]
  {
    var m := st.tasks[Main];
    if m.waitingOn.Some? then
      var c := m.waitingOn.value;
      var r := st.(tasks := st.tasks[Main := m.(waitingOn := None, tempval := Exc(Deadlock), body := Driven)],
                   chans := st.chans[c := Withdraw(st.chans[c], Main)], runq := [Main]);
      WithdrawFrame(st, r, Main);
      r
    else
      st.(runq := [Main])
  }

  /** Take tasklet `t` off the channel it waits on; it is left paused. */
  function Unwait(st: State, t: Tid): (r: State)
    requires Valid(st) && t < |st.tasks| && st.tasks[t].waitingOn.Some?
    ensures Valid(r) && r.runq == st.runq && r.nested == st.nested && r.ret == st.ret
    ensures r.tasks == st.tasks[t := st.tasks[t].(waitingOn := None)] && t !in r.runq
    ensures r.chans == st.chans[st.tasks[t].waitingOn.value := Withdraw(st.chans[st.tasks[t].waitingOn.value], t)]
  {
    var c := st.tasks[t].waitingOn.value;
    WaiterOf(st, c, t);
    var r := st.(tasks := st.tasks[t := st.tasks[t].(waitingOn := None)], chans := st.chans[c := Withdraw(st.chans[c], t)]);
    WithdrawFrame(st, r, t);
    r
  }

  /** Refill only when the run-queue is empty. */
  function Fill(st: State): (r: State)
    requires Inv(st)
    ensures Valid(r) && r.nested == st.nested && r.ret == st.ret
    ensures |r.tasks| == |st.tasks| && |r.chans| == |st.chans|
    ensures st.runq != [] ==> r == st
    ensures st.runq == [] ==> r == Refill(st)
  {
    if st.runq == [] then Refill(st) else st
  }

  /** The current tasklet's frame ends (its function returned, it was
      killed, or a kill was delivered); the next one in the run-queue
      becomes current. */
  function DieHead(st: State): (r: State)
    requires Valid(st) && st.runq[0] != Main
    ensures Valid(r)
    ensures |r.tasks| == |st.tasks| && |r.chans| == |st.chans| && r.ret == st.ret && r.nested == st.nested
    ensures r.tasks[st.runq[0]] == Corpse(st.tasks[st.runq[0]])
    ensures |st.runq| > 1 ==> r.runq == st.runq[1..] && r.chans == st.chans
    ensures |st.runq| > 1 ==> r.tasks == st.tasks[st.runq[0] := Corpse(st.tasks[st.runq[0]])]
  {
    var h := st.runq[0];
    TailMembers(st.runq);
    var s1 := st.(tasks := st.tasks[h := Corpse(st.tasks[h])], runq := st.runq[1..]);
    WaitFrame(st, s1);
    Fill(s1)
  }

  /** The current tasklet parks on channel `c` (as a sender of `v` when
      `sending`) and will continue with `body` when resumed; the next
      tasklet becomes current. */
  function BlockHead(st: State, c: Cid, v: Value, sending: bool, body: Body): (r: State)
    requires Valid(st) && c < |st.chans|
    requires if sending then st.chans[c].balance >= 0 else st.chans[c].balance <= 0
    requires BodyOk(body, |st.chans|)
    requires st.runq[0] == Main ==> body.Driven? || (body.Sends? && body.k == ReturnCount)
    requires st.runq[0] == Main ==> |st.runq| > 1
    requires !st.tasks[st.runq[0]].pendingKill
    ensures Valid(r)
    ensures |r.tasks| == |st.tasks| && |r.chans| == |st.chans| && r.ret == st.ret && r.nested == st.nested
    ensures |st.runq| > 1 ==> r.runq == st.runq[1..]
    ensures |st.runq| > 1 ==> r.chans == st.chans[c := Park(st.chans[c], Waiter(st.runq[0], v), sending)]
    ensures |st.runq| > 1 ==> r.tasks == st.tasks[st.runq[0] := st.tasks[st.runq[0]].(waitingOn := Some(c), body := body)]
    ensures |st.runq| == 1 && st.tasks[Main].waitingOn == None ==>
      && r.runq == [Main] && r.chans == st.chans[c := Park(st.chans[c], Waiter(st.runq[0], v), sending)]
      && r.tasks == st.tasks[st.runq[0] := st.tasks[st.runq[0]].(waitingOn := Some(c), body := body)]
  {
    Fill(ParkHead(st, c, v, sending, body))
  }

  /** The current tasklet leaves the run-queue for the tail of channel
      `c`'s wait queue; the run-queue may run empty. */
  function ParkHead(st: State, c: Cid, v: Value, sending: bool, body: Body): (r: State)
    requires Valid(st) && c < |st.chans|
    requires if sending then st.chans[c].balance >= 0 else st.chans[c].balance <= 0
    requires BodyOk(body, |st.chans|)
    requires st.runq[0] == Main ==> body.Driven? || (body.Sends? && body.k == ReturnCount)
    requires !st.tasks[st.runq[0]].pendingKill
    ensures Inv(r)
    ensures r == st.(tasks := st.tasks[st.runq[0] := st.tasks[st.runq[0]].(waitingOn := Some(c), body := body)],
                     chans := st.chans[c := Park(st.chans[c], Waiter(st.runq[0], v), sending)], runq := st.runq[1..])
  {
    var h := st.runq[0];
    var tk := st.tasks[h];
    TailMembers(st.runq);
    NotWaiting(st, h, c);
    var s1 := st.(tasks := st.tasks[h := tk.(waitingOn := Some(c), body := body)],
                  chans := st.chans[c := Park(st.chans[c], Waiter(h, v), sending)], runq := st.runq[1..]);
    assert TasksOk(s1);
    assert RunqOk(s1);
    ParkFrame(st, s1, h, c, v, sending);
    s1
  }

  /** Take the longest waiting tasklet off channel `c`, hand it `val` and
      append it to the run-queue. The caller stays current. */
  function Wake(st: State, c: Cid, val: Value): (r: (State, Waiter))
    requires Valid(st) && c < |st.chans| && st.chans[c].balance != 0
    ensures Valid(r.0) && r.0.runq[0] == st.runq[0]
    ensures r.1 == st.chans[c].waiters[0] && r.1.t < |st.tasks| && r.1.t !in st.runq
    ensures r.0.runq == st.runq + [r.1.t] && r.0.chans == st.chans[c := Unpark(st.chans[c]).1]
    ensures r.0.tasks == st.tasks[r.1.t := st.tasks[r.1.t].(waitingOn := None, tempval := val)]
    ensures r.0.nested == st.nested && r.0.ret == st.ret
  {
    var w := st.chans[c].waiters[0];
    WaiterOf(st, c, w.t);
    AppendMembers(st.runq, w.t);
    var s1 := st.(tasks := st.tasks[w.t := st.tasks[w.t].(waitingOn := None, tempval := val)],
                  chans := st.chans[c := Unpark(st.chans[c]).1], runq := st.runq + [w.t]);
    UnparkFrame(st, s1, c);
    (s1, w)
  }

  /** The frame of a paused tasklet other than main ends. */
  function Bury(st: State, t: Tid): (r: State)
    requires Valid(st) && IsTasklet(st, t) && t != Main && t !in st.runq && st.tasks[t].waitingOn == None
    ensures Valid(r) && r == st.(tasks := st.tasks[t := Corpse(st.tasks[t])])
  {
    var r := st.(tasks := st.tasks[t := Corpse(st.tasks[t])]);
    WaitFrame(st, r);
    r
  }

  /** A tasklet that is not current leaves the run-queue or its channel and
      its frame ends (`kill()` from another tasklet). */
  function Detach(st: State, t: Tid): (r: State)
    requires Valid(st) && IsTasklet(st, t) && t != Main && t != st.runq[0]
    ensures Valid(r) && r.runq[0] == st.runq[0]
    ensures |r.tasks| == |st.tasks| && |r.chans| == |st.chans| && r.nested == st.nested && r.ret == st.ret
    ensures r.tasks == st.tasks[t := Corpse(st.tasks[t])]
    ensures forall u :: u in r.runq <==> u in st.runq && u != t
    ensures st.tasks[t].waitingOn == None ==> r.chans == st.chans
    ensures st.tasks[t].waitingOn.Some? ==>
      r.runq == st.runq && r.chans == st.chans[st.tasks[t].waitingOn.value := Withdraw(st.chans[st.tasks[t].waitingOn.value], t)]
  {
    var tk := st.tasks[t];
    if tk.waitingOn.Some? then
      var r := Bury(Unwait(st, t), t);
      assert r.tasks == st.tasks[t := Corpse(tk)];
      r
    else if t in st.runq then
      Bury(Unqueue(st, t), t)
    else
      Bury(st, t)
  }

  /** Tasklet `t`, scheduled but not current, leaves the run-queue. */
  function Unqueue(st: State, t: Tid): (r: State)
    requires Valid(st) && t in st.runq && t != st.runq[0]
    ensures Valid(r) && r == st.(runq := r.runq) && r.runq[0] == st.runq[0]
    ensures t !in r.runq && forall u :: u in r.runq <==> u in st.runq && u != t
  {
    var k := IndexIn(st.runq, t);
    RemoveAtMembers(st.runq, k);
    var r := st.(runq := RemoveAt(st.runq, k));
    RunqSub(st, r);
    WaitFrame(st, r);
    r
  }

  /** The current tasklet, about to run its own code, picks up the value
      delivered to it. */
  function Resume(st: State): (r: State)
    requires Valid(st) && Settled(st)
    ensures Ready(r) && r.runq == st.runq && r.chans == st.chans
    ensures r.ret == st.tasks[st.runq[0]].tempval
    ensures r.tasks == st.tasks[st.runq[0] := st.tasks[st.runq[0]].(tempval := PyNone)]
    ensures r.nested == (st.nested && st.runq[0] != Main)
  {
    var h := st.runq[0];
    var tk := st.tasks[h];
    var r := st.(tasks := st.tasks[h := tk.(tempval := PyNone)], ret := tk.tempval, nested := st.nested && h != Main);
    WaitFrame(st, r);
    r
  }

  /** Give a live tasklet new code to run and a new value to pick up. */
  function SetBody(st: State, t: Tid, body: Body, tv: Value): (r: State)
    requires Valid(st) && t < |st.tasks| && st.tasks[t].alive && BodyOk(body, |st.chans|)
    requires t == Main ==> body.Driven? || (body.Sends? && body.k == ReturnCount)
    ensures Valid(r) && r == st.(tasks := st.tasks[t := st.tasks[t].(body := body, tempval := tv)])
  {
    var r := st.(tasks := st.tasks[t := st.tasks[t].(body := body, tempval := tv)]);
    WaitFrame(st, r);
    r
  }

  // ---------------------------------------------------------------------
  // The scheduler's own steps

  /** The current tasklet runs its own code and no kill is pending: control
      is back with the caller. */
  predicate Settled(st: State)
    requires Valid(st)
  {
    var tk := st.tasks[st.runq[0]];
    tk.body == Driven && !tk.pendingKill
  }

  /** An exception `e` raised inside a send loop of the current tasklet:
      `send_sequence` passes it to its caller, a producer tasklet dies of it. */
  function Raise(st: State, e: Error): (r: State)
    requires Valid(st) && st.tasks[st.runq[0]].body.Sends?
    ensures Valid(r)
  {
    var h := st.runq[0];
    if st.tasks[h].body.k == ReturnCount then SetBody(st, h, Driven, Exc(e))
    else DieHead(st)
  }

  /** `send_sequence` hands the exception to its caller, which goes on
      with it as its result; a producer tasklet dies of it. */
  lemma RaiseEffect(st: State, e: Error)
    requires Valid(st) && st.tasks[st.runq[0]].body.Sends?
    ensures var r := Raise(st, e);
      && |r.tasks| == |st.tasks| && r.nested == st.nested && r.ret == st.ret
      && (st.tasks[st.runq[0]].body.k == ReturnCount ==>
            && r.runq == st.runq && r.chans == st.chans
            && r.tasks == st.tasks[st.runq[0] := st.tasks[st.runq[0]].(body := Driven, tempval := Exc(e))])
      && (st.tasks[st.runq[0]].body.k == Exit ==> !r.tasks[st.runq[0]].alive && st.runq[0] !in r.runq)
  {
    assert MainOk(st.tasks[Main]);
  }

  /** A send loop meets a waiting receiver: the receiver gets the next item
      and is scheduled, the loop goes on with the rest. */
  function SendHandOff(st: State): (r: State)
    requires Valid(st) && st.tasks[st.runq[0]].body.Sends? && st.tasks[st.runq[0]].body.rest != []
    requires st.chans[st.tasks[st.runq[0]].body.ch].balance < 0
    ensures Valid(r) && r.nested == st.nested && r.ret == st.ret
    ensures r.runq == st.runq + [st.chans[st.tasks[st.runq[0]].body.ch].waiters[0].t]
    ensures r.chans == st.chans[st.tasks[st.runq[0]].body.ch := Unpark(st.chans[st.tasks[st.runq[0]].body.ch]).1]
    ensures st.chans[st.tasks[st.runq[0]].body.ch].waiters[0].t != st.runq[0]
    ensures r.tasks == HandOffTasks(st.tasks, st.runq[0], st.chans[st.tasks[st.runq[0]].body.ch].waiters[0].t, st.tasks[st.runq[0]].body)
  {
    var h := st.runq[0];
    var b := st.tasks[h].body;
    WaiterOf(st, b.ch, st.chans[b.ch].waiters[0].t);
    var (s1, w) := Wake(st, b.ch, b.rest[0]);
    SetBody(s1, h, Sends(b.ch, b.rest[1..], b.sent + 1, b.k), s1.tasks[h].tempval)
  }

  /** The tasklet records after a hand-off by sender `h`, running send
      loop `b`, to receiver `w`: the receiver has the item and waits
      nowhere, the sender goes on with the rest, nobody else changes. */
  function HandOffTasks(ts: seq<Tasklet>, h: Tid, w: Tid, b: Body): (r: seq<Tasklet>)
    requires h < |ts| && w < |ts| && h != w && b.Sends? && b.rest != []
    ensures |r| == |ts|
    ensures r[h] == ts[h].(body := Sends(b.ch, b.rest[1..], b.sent + 1, b.k))
    ensures r[w] == ts[w].(waitingOn := None, tempval := b.rest[0])
    ensures forall u :: 0 <= u < |ts| && u != h && u != w ==> r[u] == ts[u]
  {
    ts[w := ts[w].(waitingOn := None, tempval := b.rest[0])][h := ts[h].(body := Sends(b.ch, b.rest[1..], b.sent + 1, b.k))]
  }

  /** One step of a send loop `Sends(c, rest, n, k)` of the current tasklet. */
  function SendStep(st: State): (r: State)
    requires Valid(st) && st.tasks[st.runq[0]].body.Sends? && !st.tasks[st.runq[0]].pendingKill
    ensures Valid(r)
  {
    var h := st.runq[0];
    var b := st.tasks[h].body;
    var c := b.ch;
    if b.rest == [] then
      if b.k == Exit then DieHead(st) else SetBody(st, h, Driven, Int(b.sent))
    else if st.chans[c].balance < 0 then
      SendHandOff(st)
    else if st.chans[c].closing then
      Raise(st, ChannelClosed)
    else if h == Main && |st.runq| == 1 then
      Raise(st, Deadlock)
    else
      BlockHead(st, c, b.rest[0], true, Sends(c, b.rest[1..], b.sent + 1, b.k))
  }

  /** One step of a receive loop `Recv(c, forever)` of the current tasklet;
      the value received is dropped. */
  function RecvStep(st: State): (r: State)
    requires Valid(st) && st.tasks[st.runq[0]].body.Recv? && !st.tasks[st.runq[0]].pendingKill
    ensures Valid(r)
  {
    var h := st.runq[0];
    var b := st.tasks[h].body;
    var c := b.ch;
    var next := if b.forever then b else Done;
    if st.chans[c].balance > 0 then
      var (s1, w) := Wake(st, c, PyNone);
      SetBody(s1, h, next, s1.tasks[h].tempval)
    else if st.chans[c].closing then
      DieHead(st)
    else
      BlockHead(st, c, PyNone, false, next)
  }

  /** The effect of one step of a send loop, case by case: the loop ends
      (returning the count, or ending the producer); a waiting receiver
      gets the next item and is scheduled; a closing channel or a deadlock
      raises; otherwise the sender parks with its item. */
  lemma SendStepEffect(st: State)
    requires Valid(st) && st.tasks[st.runq[0]].body.Sends? && !st.tasks[st.runq[0]].pendingKill
    ensures var h := st.runq[0]; var b := st.tasks[h].body; var r := SendStep(st);
      && (b.rest == [] && b.k == ReturnCount ==>
            r.runq == st.runq && r.chans == st.chans && r.tasks[h] == st.tasks[h].(body := Driven, tempval := Int(b.sent)))
      && (b.rest == [] && b.k == Exit ==> !r.tasks[h].alive && h !in r.runq)
  {
    var h := st.runq[0];
    if st.tasks[h].body.rest == [] && st.tasks[h].body.k == Exit {
      assert MainOk(st.tasks[Main]);
    }
  }

  /** A send loop with items left and a receiver waiting hands the next
      item to the longest-waiting receiver, which is scheduled. */
  lemma SendStepHandOff(st: State)
    requires Valid(st) && st.tasks[st.runq[0]].body.Sends? && !st.tasks[st.runq[0]].pendingKill
    requires st.tasks[st.runq[0]].body.rest != [] && st.chans[st.tasks[st.runq[0]].body.ch].balance < 0
    ensures var h := st.runq[0]; var b := st.tasks[h].body; var w := st.chans[b.ch].waiters[0].t; var r := SendStep(st);
      && r.runq == st.runq + [w] && r.tasks[w].waitingOn == None && r.tasks[w].tempval == b.rest[0]
      && r.tasks[h].body == Sends(b.ch, b.rest[1..], b.sent + 1, b.k)
      && r.chans[b.ch].waiters == st.chans[b.ch].waiters[1..]
  {
  }

  /** A send loop with items left and no receiver raises on a closing
      channel or when blocking would deadlock, and otherwise parks its
      tasklet at the tail of the wait queue with the next item. */
  lemma SendStepNoReceiver(st: State)
    requires Valid(st) && st.tasks[st.runq[0]].body.Sends? && !st.tasks[st.runq[0]].pendingKill
    requires st.tasks[st.runq[0]].body.rest != [] && st.chans[st.tasks[st.runq[0]].body.ch].balance >= 0
    ensures var h := st.runq[0]; var b := st.tasks[h].body; var c := b.ch; var r := SendStep(st);
      && (st.chans[c].closing || (h == Main && |st.runq| == 1) ==>
            && (b.k == ReturnCount ==>
                  && r.runq == st.runq && r.chans == st.chans
                  && r.tasks[h].tempval == Exc(if st.chans[c].closing then ChannelClosed else Deadlock))
            && (b.k == Exit ==> !r.tasks[h].alive && h !in r.runq))
      && (!st.chans[c].closing && |st.runq| > 1 ==>
            && r.runq == st.runq[1..] && r.tasks[h].waitingOn == Some(c)
            && r.chans[c] == Park(st.chans[c], Waiter(h, b.rest[0]), true))
  {
    var h := st.runq[0];
    var c := st.tasks[h].body.ch;
    assert TaskOk(st.tasks[h], |st.chans|);
    if st.chans[c].closing {
      RaiseEffect(st, ChannelClosed);
    } else if h == Main && |st.runq| == 1 {
      RaiseEffect(st, Deadlock);
    }
  }

  /** The effect of one step of a receive loop: with a sender waiting, its
      item is taken, the sender is scheduled and the loop goes on (or ends
      when it loops once); on a closing channel the consumer ends;
      otherwise it parks at the tail of the wait queue. */
  lemma RecvStepEffect(st: State)
    requires Valid(st) && st.tasks[st.runq[0]].body.Recv? && !st.tasks[st.runq[0]].pendingKill
    ensures var h := st.runq[0]; var b := st.tasks[h].body; var c := b.ch; var r := RecvStep(st);
      && (st.chans[c].balance > 0 ==> var w := st.chans[c].waiters[0].t;
            && r.runq == st.runq + [w] && r.tasks[w].waitingOn == None && r.tasks[w].tempval == PyNone
            && r.tasks[h].body == (if b.forever then b else Done)
            && r.chans[c].waiters == st.chans[c].waiters[1..])
      && (st.chans[c].balance <= 0 && st.chans[c].closing ==> !r.tasks[h].alive && h !in r.runq)
      && (st.chans[c].balance <= 0 && !st.chans[c].closing && |st.runq| > 1 ==>
            && r.runq == st.runq[1..] && r.tasks[h].waitingOn == Some(c)
            && r.chans[c] == Park(st.chans[c], Waiter(h, PyNone), false))
  {
    assert TaskOk(st.tasks[st.runq[0]], |st.chans|) && MainOk(st.tasks[Main]);
  }

  /** What the scheduler does with a current tasklet that is not settled:
      deliver a pending kill, end a finished function, or run one step of
      its channel loop. */
  function Step(st: State): (r: State)
    requires Valid(st) && !Settled(st)
    ensures Valid(r) && |r.tasks| == |st.tasks| && |r.chans| == |st.chans|
  {
    var h := st.runq[0];
    var tk := st.tasks[h];
    if tk.pendingKill || tk.body.Done? then
      assert h != Main by { assert MainOk(st.tasks[Main]); }
      DieHead(st)
    else if tk.body.Sends? then SendStep(st)
    else
      assert tk.body.Recv?;
      RecvStep(st)
  }

  // ---------------------------------------------------------------------
  // Termination of the scheduler's own steps

  /** Items a send loop has still to send. */
  function Pend(tk: Tasklet): nat {
    if tk.body.Sends? then |tk.body.rest| else 0
  }

  function SumPend(ts: seq<Tasklet>): nat {
    if ts == [] then 0 else SumPend(ts[..|ts| - 1]) + Pend(ts[|ts| - 1])
  }

  /** Senders parked on a channel. */
  function Surplus(c: Chan): nat {
    if c.balance > 0 then c.balance else 0
  }

  function SumSurplus(cs: seq<Chan>): nat {
    if cs == [] then 0 else SumSurplus(cs[..|cs| - 1]) + Surplus(cs[|cs| - 1])
  }

  lemma {:induction false} SumPendUpdate(ts: seq<Tasklet>, i: nat, tk: Tasklet)
    requires i < |ts|
    ensures SumPend(ts[i := tk]) == SumPend(ts) - Pend(ts[i]) + Pend(tk)
  {
    var n := |ts| - 1;
    if i < n {
      assert ts[i := tk][..n] == ts[..n][i := tk];
      SumPendUpdate(ts[..n], i, tk);
    } else {
      assert ts[i := tk][..n] == ts[..n];
    }
  }

  lemma {:induction false} SumSurplusUpdate(cs: seq<Chan>, i: nat, c: Chan)
    requires i < |cs|
    ensures SumSurplus(cs[i := c]) == SumSurplus(cs) - Surplus(cs[i]) + Surplus(c)
  {
    var n := |cs| - 1;
    if i < n {
      assert cs[i := c][..n] == cs[..n][i := c];
      SumSurplusUpdate(cs[..n], i, c);
    } else {
      assert cs[i := c][..n] == cs[..n];
    }
  }

  /** Work left: items to send and senders to collect. */
  function Work(st: State): nat {
    SumPend(st.tasks) + SumSurplus(st.chans)
  }

  /** Tasklets that can still take a turn: the run-queue, and the main
      tasklet while it is paused (the run-queue falls back to it). */
  function Turns(st: State): nat
    requires |st.tasks| >= 1
  {
    |st.runq| + (if Main !in st.runq && st.tasks[Main].waitingOn == None then 1 else 0)
  }

  /** The lexicographic order the scheduler's steps descend in. */
  predicate Below(r: State, st: State)
    requires |r.tasks| >= 1 && |st.tasks| >= 1
  {
    Work(r) < Work(st) || (Work(r) == Work(st) && Turns(r) < Turns(st))
  }

  lemma DieHeadBelow(st: State)
    requires Valid(st) && st.runq[0] != Main
    ensures Settled(DieHead(st)) || (Work(DieHead(st)) <= Work(st) && Turns(DieHead(st)) < Turns(st))
  {
    var h := st.runq[0];
    TailMembers(st.runq);
    SumPendUpdate(st.tasks, h, Corpse(st.tasks[h]));
  }

  lemma BlockHeadBelow(st: State, c: Cid, v: Value, sending: bool, body: Body)
    requires Valid(st) && c < |st.chans|
    requires if sending then st.chans[c].balance >= 0 else st.chans[c].balance <= 0
    requires BodyOk(body, |st.chans|)
    requires st.runq[0] == Main ==> body.Driven? || (body.Sends? && body.k == ReturnCount)
    requires st.runq[0] == Main ==> |st.runq| > 1
    requires !st.tasks[st.runq[0]].pendingKill
    requires (if body.Sends? then |body.rest| else 0) + (if sending then 1 else 0) <= Pend(st.tasks[st.runq[0]])
    ensures Settled(BlockHead(st, c, v, sending, body)) || Below(BlockHead(st, c, v, sending, body), st)
  {
    ParkHeadWork(st, c, v, sending, body);
    if |st.runq| > 1 {
      ParkHeadTurns(st, c, v, sending, body);
    } else {
      ParkLastTurns(st, c, v, sending, body);
    }
  }

  lemma ParkHeadTurns(st: State, c: Cid, v: Value, sending: bool, body: Body)
    requires Valid(st) && c < |st.chans| && |st.runq| > 1
    requires if sending then st.chans[c].balance >= 0 else st.chans[c].balance <= 0
    requires BodyOk(body, |st.chans|)
    requires st.runq[0] == Main ==> body.Driven? || (body.Sends? && body.k == ReturnCount)
    requires !st.tasks[st.runq[0]].pendingKill
    ensures var s1 := ParkHead(st, c, v, sending, body);
      BlockHead(st, c, v, sending, body) == s1 && Turns(s1) < Turns(st)
  {
    var h := st.runq[0];
    var s1 := ParkHead(st, c, v, sending, body);
    TailMembers(st.runq);
    assert Main in s1.runq <==> Main in st.runq && Main != h;
    assert h == Main ==> s1.tasks[Main].waitingOn.Some?;
    assert h != Main ==> s1.tasks[Main] == st.tasks[Main];
  }

  lemma ParkLastTurns(st: State, c: Cid, v: Value, sending: bool, body: Body)
    requires Valid(st) && c < |st.chans| && |st.runq| == 1 && st.runq[0] != Main
    requires if sending then st.chans[c].balance >= 0 else st.chans[c].balance <= 0
    requires BodyOk(body, |st.chans|)
    requires !st.tasks[st.runq[0]].pendingKill
    ensures var s1 := ParkHead(st, c, v, sending, body);
      var r := BlockHead(st, c, v, sending, body);
      Settled(r) || (Work(r) == Work(s1) && Turns(r) < Turns(st))
  {
    var h := st.runq[0];
    var s1 := ParkHead(st, c, v, sending, body);
    var r := BlockHead(st, c, v, sending, body);
    assert st.runq == [h] && s1.runq == [];
    assert r == Refill(s1);
    assert s1.tasks[Main] == st.tasks[Main];
    if st.tasks[Main].waitingOn.Some? {
      assert MainOk(st.tasks[Main]);
    } else {
      assert r == s1.(runq := [Main]);
      assert Main !in st.runq;
    }
  }

  lemma ParkHeadWork(st: State, c: Cid, v: Value, sending: bool, body: Body)
    requires Valid(st) && c < |st.chans|
    requires if sending then st.chans[c].balance >= 0 else st.chans[c].balance <= 0
    requires BodyOk(body, |st.chans|)
    requires st.runq[0] == Main ==> body.Driven? || (body.Sends? && body.k == ReturnCount)
    requires !st.tasks[st.runq[0]].pendingKill
    requires (if body.Sends? then |body.rest| else 0) + (if sending then 1 else 0) <= Pend(st.tasks[st.runq[0]])
    ensures Work(ParkHead(st, c, v, sending, body)) <= Work(st)
  {
    var h := st.runq[0];
    var tk := st.tasks[h];
    SumPendUpdate(st.tasks, h, tk.(waitingOn := Some(c), body := body));
    SumSurplusUpdate(st.chans, c, Park(st.chans[c], Waiter(h, v), sending));
  }

  lemma WakeWork(st: State, c: Cid, val: Value)
    requires Valid(st) && c < |st.chans| && st.chans[c].balance != 0
    ensures SumPend(Wake(st, c, val).0.tasks) == SumPend(st.tasks)
    ensures SumSurplus(Wake(st, c, val).0.chans) + (if st.chans[c].balance > 0 then 1 else 0) == SumSurplus(st.chans)
  {
    var w := st.chans[c].waiters[0];
    WaiterOf(st, c, w.t);
    PendSame(st.tasks, w.t, val);
    UnparkSurplus(st.chans, c);
  }

  lemma PendSame(ts: seq<Tasklet>, i: nat, val: Value)
    requires i < |ts|
    ensures SumPend(ts[i := ts[i].(waitingOn := None, tempval := val)]) == SumPend(ts)
  {
    SumPendUpdate(ts, i, ts[i].(waitingOn := None, tempval := val));
  }

  lemma UnparkSurplus(cs: seq<Chan>, c: Cid)
    requires c < |cs| && ChanOk(cs[c]) && cs[c].balance != 0
    ensures SumSurplus(cs[c := Unpark(cs[c]).1]) + (if cs[c].balance > 0 then 1 else 0) == SumSurplus(cs)
  {
    SumSurplusUpdate(cs, c, Unpark(cs[c]).1);
  }

  lemma SendHandOffBelow(st: State)
    requires Valid(st) && st.tasks[st.runq[0]].body.Sends? && st.tasks[st.runq[0]].body.rest != []
    requires st.chans[st.tasks[st.runq[0]].body.ch].balance < 0
    ensures Work(SendHandOff(st)) < Work(st)
  {
    var h := st.runq[0];
    var b := st.tasks[h].body;
    var s1 := Wake(st, b.ch, b.rest[0]).0;
    WakeWork(st, b.ch, b.rest[0]);
    assert s1.tasks[h] == st.tasks[h];
    var tk := s1.tasks[h].(body := Sends(b.ch, b.rest[1..], b.sent + 1, b.k), tempval := s1.tasks[h].tempval);
    assert SendHandOff(st) == s1.(tasks := s1.tasks[h := tk]);
    SumPendUpdate(s1.tasks, h, tk);
  }

  lemma SendStepBelow(st: State)
    requires Valid(st) && st.tasks[st.runq[0]].body.Sends? && !st.tasks[st.runq[0]].pendingKill
    ensures Settled(SendStep(st)) || Below(SendStep(st), st)
  {
    var b := st.tasks[st.runq[0]].body;
    if b.rest == [] {
      SendEndBelow(st);
    } else if st.chans[b.ch].balance < 0 {
      assert SendStep(st) == SendHandOff(st);
      SendHandOffBelow(st);
    } else if st.chans[b.ch].closing || (st.runq[0] == Main && |st.runq| == 1) {
      SendRaiseBelow(st);
    } else {
      SendBlockBelow(st);
    }
  }

  lemma SendEndBelow(st: State)
    requires Valid(st) && st.tasks[st.runq[0]].body.Sends? && !st.tasks[st.runq[0]].pendingKill
    requires st.tasks[st.runq[0]].body.rest == []
    ensures Settled(SendStep(st)) || Below(SendStep(st), st)
  {
    var h := st.runq[0];
    var b := st.tasks[h].body;
    if b.k == Exit {
      assert SendStep(st) == DieHead(st);
      DieHeadBelow(st);
    } else {
      assert SendStep(st) == SetBody(st, h, Driven, Int(b.sent));
    }
  }

  lemma SendRaiseBelow(st: State)
    requires Valid(st) && st.tasks[st.runq[0]].body.Sends? && !st.tasks[st.runq[0]].pendingKill
    requires var b := st.tasks[st.runq[0]].body;
      b.rest != [] && st.chans[b.ch].balance >= 0 && (st.chans[b.ch].closing || (st.runq[0] == Main && |st.runq| == 1))
    ensures Settled(SendStep(st)) || Below(SendStep(st), st)
  {
    var b := st.tasks[st.runq[0]].body;
    var e := if st.chans[b.ch].closing then ChannelClosed else Deadlock;
    assert SendStep(st) == Raise(st, e);
    if b.k == Exit {
      assert Raise(st, e) == DieHead(st);
      DieHeadBelow(st);
    } else {
      assert Settled(Raise(st, e));
    }
  }

  lemma SendBlockBelow(st: State)
    requires Valid(st) && st.tasks[st.runq[0]].body.Sends? && !st.tasks[st.runq[0]].pendingKill
    requires var b := st.tasks[st.runq[0]].body;
      b.rest != [] && st.chans[b.ch].balance >= 0 && !st.chans[b.ch].closing && !(st.runq[0] == Main && |st.runq| == 1)
    ensures Settled(SendStep(st)) || Below(SendStep(st), st)
  {
    var b := st.tasks[st.runq[0]].body;
    SendBlocks(st, b);
    SendParkBelow(st, b);
  }

  lemma SendParkBelow(st: State, b: Body)
    requires Valid(st) && b == st.tasks[st.runq[0]].body && b.Sends? && !st.tasks[st.runq[0]].pendingKill
    requires b.rest != [] && st.chans[b.ch].balance >= 0 && !(st.runq[0] == Main && |st.runq| == 1)
    ensures Settled(BlockHead(st, b.ch, b.rest[0], true, Sends(b.ch, b.rest[1..], b.sent + 1, b.k)))
         || Below(BlockHead(st, b.ch, b.rest[0], true, Sends(b.ch, b.rest[1..], b.sent + 1, b.k)), st)
  {
    assert TaskOk(st.tasks[st.runq[0]], |st.chans|);
    BlockHeadBelow(st, b.ch, b.rest[0], true, Sends(b.ch, b.rest[1..], b.sent + 1, b.k));
  }


  lemma SendBlocks(st: State, b: Body)
    requires Valid(st) && b == st.tasks[st.runq[0]].body && b.Sends? && !st.tasks[st.runq[0]].pendingKill
    requires b.rest != [] && st.chans[b.ch].balance >= 0 && !st.chans[b.ch].closing && !(st.runq[0] == Main && |st.runq| == 1)
    ensures SendStep(st) == BlockHead(st, b.ch, b.rest[0], true, Sends(b.ch, b.rest[1..], b.sent + 1, b.k))
  {
    assert !(st.chans[b.ch].balance < 0);
  }


  lemma RecvStepBelow(st: State)
    requires Valid(st) && st.tasks[st.runq[0]].body.Recv? && !st.tasks[st.runq[0]].pendingKill
    ensures Settled(RecvStep(st)) || Below(RecvStep(st), st)
  {
    var h := st.runq[0];
    var b := st.tasks[h].body;
    var c := b.ch;
    var next := if b.forever then b else Done;
    if st.chans[c].balance > 0 {
      var (s1, w) := Wake(st, c, PyNone);
      WakeWork(st, c, PyNone);
      SumPendUpdate(s1.tasks, h, s1.tasks[h].(body := next, tempval := s1.tasks[h].tempval));
    } else if st.chans[c].closing {
      DieHeadBelow(st);
    } else {
      BlockHeadBelow(st, c, PyNone, false, next);
    }
  }

  /** Every step of the scheduler settles the current tasklet or descends. */
  lemma StepBelow(st: State)
    requires Valid(st) && !Settled(st)
    ensures Settled(Step(st)) || Below(Step(st), st)
  {
    var tk := st.tasks[st.runq[0]];
    if tk.pendingKill || tk.body.Done? {
      DieHeadBelow(st);
    } else if tk.body.Sends? {
      SendStepBelow(st);
    } else {
      RecvStepBelow(st);
    }
  }

  /** Run the scheduler until the current tasklet is one that runs its own
      code, and hand it the value it was resumed with. */
  function Dispatch(st: State): (r: State)
    requires Valid(st)
    ensures Ready(r) && |r.tasks| == |st.tasks| && |r.chans| == |st.chans|
    ensures r.runq[0] == Main ==> !r.nested
    decreases if Settled(st) then 0 else 1, Work(st), Turns(st)
  {
    if Settled(st) then Resume(st)
    else
      StepBelow(st);
      Dispatch(Step(st))
  }

  /** One unfolding of the dispatch loop. */
  lemma DispatchUnfold(st: State)
    requires Valid(st)
    ensures Settled(st) ==> Dispatch(st) == Resume(st)
    ensures !Settled(st) ==> Dispatch(st) == Dispatch(Step(st))
  {
  }

  // ---------------------------------------------------------------------
  // What the scheduler's own steps leave alone

  /** The conditions under which a move leaves tasklet `t` alone: it is not
      current and waits nowhere. */
  predicate Aside(st: State, t: Tid)
    requires Valid(st)
  {
    t < |st.tasks| && t != st.runq[0] && st.tasks[t].waitingOn == None
  }

  /** What a move leaving `t` alone keeps: its record, and whether it is
      scheduled (main, when paused, may be scheduled again). */
  predicate Kept(st: State, r: State, t: Tid)
    requires Valid(st) && Aside(st, t)
  {
    && |r.tasks| == |st.tasks| && r.tasks[t] == st.tasks[t]
    && (t in st.runq ==> t in r.runq)
    && (t !in st.runq && t != Main ==> t !in r.runq)
  }

  lemma DieHeadFrame(st: State, t: Tid)
    requires Valid(st) && st.runq[0] != Main && Aside(st, t)
    ensures Kept(st, DieHead(st), t)
  {
    TailMembers(st.runq);
  }

  lemma BlockHeadFrame(st: State, c: Cid, v: Value, sending: bool, body: Body, t: Tid)
    requires Valid(st) && c < |st.chans|
    requires if sending then st.chans[c].balance >= 0 else st.chans[c].balance <= 0
    requires BodyOk(body, |st.chans|)
    requires st.runq[0] == Main ==> body.Driven? || (body.Sends? && body.k == ReturnCount)
    requires st.runq[0] == Main ==> |st.runq| > 1
    requires !st.tasks[st.runq[0]].pendingKill
    requires Aside(st, t)
    ensures Kept(st, BlockHead(st, c, v, sending, body), t)
  {
    TailMembers(st.runq);
  }

  lemma WakeFrame(st: State, c: Cid, val: Value, t: Tid)
    requires Valid(st) && c < |st.chans| && st.chans[c].balance != 0 && Aside(st, t)
    ensures Kept(st, Wake(st, c, val).0, t)
  {
    WaiterOf(st, c, st.chans[c].waiters[0].t);
  }

  lemma SendHandOffFrame(st: State, t: Tid)
    requires Valid(st) && st.tasks[st.runq[0]].body.Sends? && st.tasks[st.runq[0]].body.rest != []
    requires st.chans[st.tasks[st.runq[0]].body.ch].balance < 0
    requires Aside(st, t)
    ensures Kept(st, SendHandOff(st), t)
  {
    var h := st.runq[0];
    var b := st.tasks[h].body;
    var s1 := Wake(st, b.ch, b.rest[0]).0;
    WakeFrame(st, b.ch, b.rest[0], t);
    assert SendHandOff(st) == SetBody(s1, h, Sends(b.ch, b.rest[1..], b.sent + 1, b.k), s1.tasks[h].tempval);
  }

  lemma SendStepFrame(st: State, t: Tid)
    requires Valid(st) && st.tasks[st.runq[0]].body.Sends? && !st.tasks[st.runq[0]].pendingKill
    requires Aside(st, t)
    ensures Kept(st, SendStep(st), t)
  {
    var b := st.tasks[st.runq[0]].body;
    if b.rest != [] && st.chans[b.ch].balance < 0 {
      assert SendStep(st) == SendHandOff(st);
      SendHandOffFrame(st, t);
    } else if b.rest == [] || st.chans[b.ch].closing || (st.runq[0] == Main && |st.runq| == 1) {
      SendEndFrame(st, t);
    } else {
      var body := Sends(b.ch, b.rest[1..], b.sent + 1, b.k);
      SendStepParks(st);
      BlockHeadFrame(st, b.ch, b.rest[0], true, body, t);
    }
  }

  /** A send loop with an item left and nowhere to deliver it parks. */
  lemma SendStepParks(st: State)
    requires Valid(st) && st.tasks[st.runq[0]].body.Sends? && !st.tasks[st.runq[0]].pendingKill
    requires var b := st.tasks[st.runq[0]].body;
      b.rest != [] && st.chans[b.ch].balance >= 0 && !st.chans[b.ch].closing && !(st.runq[0] == Main && |st.runq| == 1)
    ensures var b := st.tasks[st.runq[0]].body;
      SendStep(st) == BlockHead(st, b.ch, b.rest[0], true, Sends(b.ch, b.rest[1..], b.sent + 1, b.k))
  {
    var h := st.runq[0];
    var b := st.tasks[h].body;
    assert !(b.rest == []) && !(st.chans[b.ch].balance < 0) && !st.chans[b.ch].closing && !(h == Main && |st.runq| == 1);
  }

  /** A send loop that ends, returning its count or raising. */
  lemma SendEndFrame(st: State, t: Tid)
    requires Valid(st) && st.tasks[st.runq[0]].body.Sends? && !st.tasks[st.runq[0]].pendingKill
    requires Aside(st, t)
    requires var b := st.tasks[st.runq[0]].body;
      b.rest == [] || (st.chans[b.ch].balance >= 0 && (st.chans[b.ch].closing || (st.runq[0] == Main && |st.runq| == 1)))
    ensures Kept(st, SendStep(st), t)
  {
    var h := st.runq[0];
    var b := st.tasks[h].body;
    var v := if b.rest == [] then Int(b.sent) else Exc(if st.chans[b.ch].closing then ChannelClosed else Deadlock);
    if b.k == Exit {
      assert SendStep(st) == DieHead(st);
      DieHeadFrame(st, t);
    } else {
      assert SendStep(st) == SetBody(st, h, Driven, v);
    }
  }

  lemma RecvStepFrame(st: State, t: Tid)
    requires Valid(st) && st.tasks[st.runq[0]].body.Recv? && !st.tasks[st.runq[0]].pendingKill
    requires Aside(st, t)
    ensures Kept(st, RecvStep(st), t)
  {
    var h := st.runq[0];
    var b := st.tasks[h].body;
    var c := b.ch;
    var next := if b.forever then b else Done;
    if st.chans[c].balance > 0 {
      WakeFrame(st, c, PyNone, t);
    } else if st.chans[c].closing {
      assert RecvStep(st) == DieHead(st);
      DieHeadFrame(st, t);
    } else {
      assert RecvStep(st) == BlockHead(st, c, PyNone, false, next);
      BlockHeadFrame(st, c, PyNone, false, next, t);
    }
  }

  /** A step touches no tasklet that is neither current nor parked: a
      scheduled one stays scheduled, a paused one other than main stays
      paused. */
  lemma StepFrame(st: State, t: Tid)
    requires Valid(st) && !Settled(st) && Aside(st, t)
    ensures Kept(st, Step(st), t)
  {
    var tk := st.tasks[st.runq[0]];
    if tk.pendingKill || tk.body.Done? {
      DieHeadFrame(st, t);
    } else if tk.body.Sends? {
      SendStepFrame(st, t);
    } else {
      RecvStepFrame(st, t);
    }
  }

  /** A tasklet other than main that is paused or not alive stays exactly as
      it is while the scheduler runs: a removed tasklet does not run again
      unless something inserts it. */
  lemma {:induction false} DispatchKeepsPaused(st: State, t: Tid)
    requires Valid(st) && t < |st.tasks| && t != Main && t !in st.runq && st.tasks[t].waitingOn == None
    ensures Dispatch(st).tasks[t] == st.tasks[t] && t !in Dispatch(st).runq
    decreases if Settled(st) then 0 else 1, Work(st), Turns(st)
  {
    if !Settled(st) {
      StepFrame(st, t);
      StepBelow(st);
      DispatchKeepsPaused(Step(st), t);
    }
  }

  /** A scheduled tasklet that runs its own code keeps its record while
      the scheduler runs, and when it is the one that gets control it
      picks up the value it was left. */
  lemma {:induction false} DispatchDelivers(st: State, t: Tid)
    requires Valid(st) && t in st.runq && t < |st.tasks|
    requires st.tasks[t].body == Driven && !st.tasks[t].pendingKill
    ensures t in Dispatch(st).runq
    ensures Dispatch(st).runq[0] == t ==> Dispatch(st).ret == st.tasks[t].tempval
    ensures Dispatch(st).runq[0] != t ==> Dispatch(st).tasks[t] == st.tasks[t]
    decreases if Settled(st) then 0 else 1, Work(st), Turns(st)
  {
    if !Settled(st) {
      assert st.runq[0] != t;
      var j := IndexIn(st.runq, t);
      StepFrame(st, t);
      StepBelow(st);
      DispatchDelivers(Step(st), t);
    }
  }
}
