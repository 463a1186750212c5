/** What the channel tests pin down about `balance`, `closing`/`closed`,
    `queue`, `send_sequence` and iteration, proved from the
    transitions. */
module ChannelProps {
  import opened Types
  import opened Channels
  import opened Tasklets
  import opened Scheduler
  import opened TaskletApi
  import opened StacklessApi
  import opened ChannelApi

  /** The scheduler runs a tasklet that only sends (`tasklet(c.send)(v)`,
      `Producer(c, [v])`) or only receives once (`tasklet(c.receive)()`,
      `Consumer(c, false)`) on a channel nobody waits on in the opposite
      direction. */
  predicate OneShot(st: State, t: Tid, c: Cid, v: Value, sending: bool)
    requires Valid(st) && IsTasklet(st, t) && c < |st.chans|
  {
    var tk := st.tasks[t];
    && tk.alive && !tk.pendingKill && tk.waitingOn == None
    && (if sending then tk.body == Sends(c, [v], 0, Exit) && st.chans[c].balance >= 0
        else tk.body == Recv(c, false) && v == PyNone && st.chans[c].balance <= 0)
    && !st.chans[c].closing
  }

  /** `stackless.run()` with one such tasklet scheduled: it parks on the
      channel and `run()` returns to main. Its channel's balance goes one
      up for a sender, one down for a receiver, and the tasklet joins the
      tail of the wait queue. */
  lemma OneShotParks(st: State, t: Tid, c: Cid, v: Value, sending: bool)
    requires Ready(st) && IsTasklet(st, t) && t != Main && st.runq == [Main, t] && c < |st.chans|
    requires OneShot(st, t, c, v, sending)
    ensures RunAll(st).Ok?
    ensures var r := RunAll(st).value;
      && r.runq == [Main] && r.ret == PyNone && !r.nested
      && r.chans == st.chans[c := Park(st.chans[c], Waiter(t, v), sending)]
      && r.chans[c].balance == st.chans[c].balance + (if sending then 1 else -1)
      && r.chans[c].waiters == st.chans[c].waiters + [Waiter(t, v)]
      && r.tasks[t].waitingOn == Some(c) && r.tasks == st.tasks[t := r.tasks[t]]
  {
    var s1 := st.(runq := [t], nested := true);
    assert Fill(s1) == s1;
    assert RunAll(st).value == Dispatch(s1);
    assert st.tasks[Main].waitingOn == None && st.tasks[Main].body == Driven;
    var body := if sending then Sends(c, [], 1, Exit) else Done;
    var s2 := BlockHead(s1, c, v, sending, body);
    OneShotStep(s1, t, c, v, sending);
    assert s2.runq == [Main] && s2.tasks[Main] == st.tasks[Main] && Settled(s2);
    assert Dispatch(s1) == Dispatch(s2) == Resume(s2);
  }

  /** The one step such a tasklet takes: it blocks. */
  lemma OneShotStep(s1: State, t: Tid, c: Cid, v: Value, sending: bool)
    requires Valid(s1) && IsTasklet(s1, t) && t != Main && s1.runq == [t] && c < |s1.chans|
    requires OneShot(s1, t, c, v, sending)
    ensures !Settled(s1)
    ensures Step(s1) == BlockHead(s1, c, v, sending, if sending then Sends(c, [], 1, Exit) else Done)
  {
    if sending {
      var b := s1.tasks[t].body;
      assert b.rest[0] == v && b.rest[1..] == [];
      assert Step(s1) == SendStep(s1);
    } else {
      assert Step(s1) == RecvStep(s1);
    }
  }

  /** `t.kill()` of a tasklet parked on a channel: it leaves the wait queue,
      the others keep their order, and the balance moves one step back
      toward 0. */
  lemma KillWaiter(st: State, t: Tid)
    requires Ready(st) && IsTasklet(st, t) && t != Main && st.tasks[t].waitingOn.Some?
    ensures Kill(st, t, false).Ok?
    ensures var c := st.tasks[t].waitingOn.value; var r := Kill(st, t, false).value;
      && !r.tasks[t].alive && r.runq == st.runq
      && r.chans == st.chans[c := Withdraw(st.chans[c], t)]
      && Abs(r.chans[c].balance) == Abs(st.chans[c].balance) - 1
      && (st.chans[c].balance > 0 ==> r.chans[c].balance == st.chans[c].balance - 1)
      && (st.chans[c].balance < 0 ==> r.chans[c].balance == st.chans[c].balance + 1)
      && (forall u :: u in Tids(r.chans[c].waiters) <==> u in Tids(st.chans[c].waiters) && u != t)
      && (exists k :: 0 <= k < |st.chans[c].waiters| && st.chans[c].waiters[k].t == t
            && r.chans[c].waiters == st.chans[c].waiters[..k] + st.chans[c].waiters[k + 1..])
  {
    assert t !in st.runq by {
      forall i | 0 <= i < |st.runq| ensures st.runq[i] != t { }
    }
  }

  /** A closing channel whose last waiter is killed becomes closed; one
      that still has waiters is closing but not closed. */
  lemma ClosedWhenLastWaiterLeaves(st: State, t: Tid)
    requires Ready(st) && IsTasklet(st, t) && t != Main && st.tasks[t].waitingOn.Some?
    requires st.chans[st.tasks[t].waitingOn.value].closing
    ensures var c := st.tasks[t].waitingOn.value; var r := Kill(st, t, false);
      r.Ok? && r.value.chans[c].closing && (Closed(r.value.chans[c]) <==> Abs(st.chans[c].balance) == 1)
  {
    KillWaiter(st, t);
  }

  /** `close()` of a channel with a waiter: closing but not closed; `open()`
      clears both. */
  lemma CloseOpenFlags(st: State, c: Cid)
    requires Ready(st) && c < |st.chans| && st.chans[c].balance != 0
    ensures var r := CloseChannel(st, c); r.chans[c].closing && !Closed(r.chans[c])
    ensures var r := OpenChannel(CloseChannel(st, c), c); !r.chans[c].closing && !Closed(r.chans[c])
  {
  }

  /** A second sender parks behind the first: `queue` still names the
      first, and the first one's `next` is the new sender. */
  lemma SecondSenderQueuesBehind(st: State, t: Tid, c: Cid, v: Value)
    requires Ready(st) && IsTasklet(st, t) && t != Main && st.runq == [Main, t] && c < |st.chans|
    requires OneShot(st, t, c, v, true) && st.chans[c].balance >= 1
    ensures var r := RunAll(st).value; var last := st.chans[c].waiters[|st.chans[c].waiters| - 1].t;
      && IsTasklet(r, last) && r.tasks[last].waitingOn == Some(c)
      && QueueOf(r, c) == QueueOf(st, c)
      && NextOf(r, last) == Some(t)
  {
    OneShotParks(st, t, c, v, true);
    var r := RunAll(st).value;
    var ws := st.chans[c].waiters;
    var k := |ws| - 1;
    var last := ws[k].t;
    assert r.chans[c].waiters == ws + [Waiter(t, v)];
    assert r.chans[c].waiters[k].t == last && r.chans[c].waiters[k + 1].t == t;
    WaiterOf(r, c, last);
  }

  /** Tasklet `t` runs `while True: c.receive()`. */
  predicate ForeverReceiver(s: State, t: Tid, c: Cid)
    requires IsTasklet(s, t)
  {
    s.tasks[t].alive && s.tasks[t].body == Recv(c, true) && !s.tasks[t].pendingKill
  }

  /** Main is in `c.send_sequence(...)` with `rest` still to send and `n`
      sent, the forever-receiver `t` is scheduled behind it and nobody
      waits on `c`. */
  predicate EchoSending(s: State, c: Cid, t: Tid, rest: seq<Value>, n: nat) {
    && Valid(s) && c < |s.chans| && IsTasklet(s, t) && t != Main && s.runq == [Main, t]
    && s.tasks[Main].body == Sends(c, rest, n, ReturnCount) && !s.tasks[Main].pendingKill
    && ForeverReceiver(s, t, c) && s.tasks[t].waitingOn == None
    && s.chans[c].balance == 0 && !s.chans[c].closing
  }

  /** As above, but the receiver is parked on `c` and main alone is
      scheduled. */
  predicate EchoWaiting(s: State, c: Cid, t: Tid, rest: seq<Value>, n: nat) {
    && Valid(s) && c < |s.chans| && IsTasklet(s, t) && t != Main && s.runq == [Main]
    && s.tasks[Main].body == Sends(c, rest, n, ReturnCount) && !s.tasks[Main].pendingKill
    && ForeverReceiver(s, t, c) && s.tasks[t].waitingOn == Some(c)
    && s.chans[c].balance == -1 && !s.chans[c].closing
  }

  /** With nothing left to send, `send_sequence` returns the count. */
  lemma EchoDone(s: State, c: Cid, t: Tid, n: nat)
    requires EchoSending(s, c, t, [], n) || EchoWaiting(s, c, t, [], n)
    ensures Dispatch(s).ret == Int(n)
  {
    var s1 := SetBody(s, Main, Driven, Int(n));
    assert Step(s) == SendStep(s) == s1;
    assert Dispatch(s) == Dispatch(s1) == Resume(s1);
  }

  /** Main has parked on `c` with its next item; the receiver is current. */
  predicate EchoParked(s: State, c: Cid, t: Tid, rest: seq<Value>, n: nat) {
    && Valid(s) && c < |s.chans| && IsTasklet(s, t) && t != Main && s.runq == [t]
    && s.tasks[Main].body == Sends(c, rest, n, ReturnCount) && !s.tasks[Main].pendingKill
    && s.tasks[Main].waitingOn == Some(c)
    && ForeverReceiver(s, t, c) && s.tasks[t].waitingOn == None
    && s.chans[c].balance == 1 && !s.chans[c].closing
  }

  /** The receiver has taken main's item; main is scheduled behind it. */
  predicate EchoTaken(s: State, c: Cid, t: Tid, rest: seq<Value>, n: nat) {
    && Valid(s) && c < |s.chans| && IsTasklet(s, t) && t != Main && s.runq == [t, Main]
    && s.tasks[Main].body == Sends(c, rest, n, ReturnCount) && !s.tasks[Main].pendingKill
    && ForeverReceiver(s, t, c) && s.tasks[t].waitingOn == None
    && s.chans[c].balance == 0 && !s.chans[c].closing
  }

  /** Main finds no receiver waiting and parks. */
  lemma EchoPark(s: State, c: Cid, t: Tid, rest: seq<Value>, n: nat)
    requires EchoSending(s, c, t, rest, n) && rest != []
    ensures !Settled(s) && EchoParked(Step(s), c, t, rest[1..], n + 1)
  {
    var s1 := BlockHead(s, c, rest[0], true, Sends(c, rest[1..], n + 1, ReturnCount));
    assert Step(s) == SendStep(s) == s1;
  }

  /** The receiver takes the item and wakes main. */
  lemma EchoTake(s: State, c: Cid, t: Tid, rest: seq<Value>, n: nat)
    requires EchoParked(s, c, t, rest, n)
    ensures !Settled(s) && EchoTaken(Step(s), c, t, rest, n)
  {
    WaiterOf(s, c, s.chans[c].waiters[0].t);
    assert s.chans[c].waiters[0].t == Main by {
      assert Main in Tids(s.chans[c].waiters);
      assert Tids(s.chans[c].waiters)[0] == s.chans[c].waiters[0].t;
    }
    var (w1, w) := Wake(s, c, PyNone);
    assert Step(s) == RecvStep(s) == SetBody(w1, t, Recv(c, true), w1.tasks[t].tempval);
  }

  /** The receiver parks on `c` again; main is current. */
  lemma EchoRepark(s: State, c: Cid, t: Tid, rest: seq<Value>, n: nat)
    requires EchoTaken(s, c, t, rest, n)
    ensures !Settled(s) && EchoWaiting(Step(s), c, t, rest, n)
  {
    assert Step(s) == RecvStep(s) == BlockHead(s, c, PyNone, false, Recv(c, true));
  }

  /** Main hands the next item straight to the parked receiver and goes
      on. */
  lemma EchoHandOff(s: State, c: Cid, t: Tid, rest: seq<Value>, n: nat)
    requires EchoWaiting(s, c, t, rest, n) && rest != []
    ensures !Settled(s) && EchoSending(Step(s), c, t, rest[1..], n + 1)
  {
    WaiterOf(s, c, s.chans[c].waiters[0].t);
    assert s.chans[c].waiters[0].t == t by {
      assert Tids(s.chans[c].waiters)[0] in Tids(s.chans[c].waiters);
    }
    assert Step(s) == SendStep(s) == SendHandOff(s);
  }

  /** Main hands its next item over and carries on, in the dispatch loop. */
  lemma EchoHandOver(s: State, c: Cid, t: Tid, rest: seq<Value>, n: nat) returns (s1: State)
    requires EchoWaiting(s, c, t, rest, n) && rest != []
    ensures EchoSending(s1, c, t, rest[1..], n + 1) && Dispatch(s) == Dispatch(s1)
  {
    EchoHandOff(s, c, t, rest, n);
    s1 := Step(s);
    DispatchUnfold(s);
  }

  /** One round: main parks with its next item, the receiver takes it and
      parks again. */
  lemma EchoRound(s: State, c: Cid, t: Tid, rest: seq<Value>, n: nat) returns (s3: State)
    requires EchoSending(s, c, t, rest, n) && rest != []
    ensures EchoWaiting(s3, c, t, rest[1..], n + 1) && Dispatch(s) == Dispatch(s3)
  {
    EchoPark(s, c, t, rest, n);
    var s1 := Step(s);
    EchoTake(s1, c, t, rest[1..], n + 1);
    var s2 := Step(s1);
    EchoRepark(s2, c, t, rest[1..], n + 1);
    s3 := Step(s2);
    DispatchUnfold(s);
    DispatchUnfold(s1);
    DispatchUnfold(s2);
  }

  /** From main sending with the receiver scheduled, `send_sequence`
      returns how many items it sent in all. */
  lemma {:induction false} EchoFromSending(s: State, c: Cid, t: Tid, rest: seq<Value>, n: nat)
    requires EchoSending(s, c, t, rest, n)
    ensures Dispatch(s).ret == Int(n + |rest|)
    decreases |rest|, 2
  {
    if rest == [] {
      EchoDone(s, c, t, n);
    } else {
      EchoSendingRound(s, c, t, rest, n);
    }
  }

  lemma {:induction false} EchoSendingRound(s: State, c: Cid, t: Tid, rest: seq<Value>, n: nat)
    requires EchoSending(s, c, t, rest, n) && rest != []
    ensures Dispatch(s).ret == Int(n + |rest|)
    decreases |rest|, 1
  {
    var s3 := EchoRound(s, c, t, rest, n);
    EchoFromWaiting(s3, c, t, rest[1..], n + 1);
  }

  /** From main sending with the receiver parked, likewise. */
  lemma {:induction false} EchoFromWaiting(s: State, c: Cid, t: Tid, rest: seq<Value>, n: nat)
    requires EchoWaiting(s, c, t, rest, n)
    ensures Dispatch(s).ret == Int(n + |rest|)
    decreases |rest|, 0
  {
    if rest == [] {
      EchoDone(s, c, t, n);
    } else {
      EchoWaitingRound(s, c, t, rest, n);
    }
  }

  lemma {:induction false} EchoWaitingRound(s: State, c: Cid, t: Tid, rest: seq<Value>, n: nat)
    requires EchoWaiting(s, c, t, rest, n) && rest != []
    ensures Dispatch(s).ret == Int(n + |rest|)
    decreases |rest|, 0, 0
  {
    var s1 := EchoHandOver(s, c, t, rest, n);
    EchoFromSending(s1, c, t, rest[1..], n + 1);
  }

  /** `c.send_sequence(items)` by main, with a tasklet scheduled that
      receives on `c` forever, returns `len(items)`. */
  lemma SendSequenceCount(st: State, c: Cid, t: Tid, items: seq<Value>)
    requires Ready(st) && c < |st.chans| && IsTasklet(st, t) && t != Main && st.runq == [Main, t]
    requires ForeverReceiver(st, t, c) && st.tasks[t].waitingOn == None
    requires st.chans[c].balance == 0 && !st.chans[c].closing
    ensures SendSequence(st, c, items).ret == Int(|items|)
  {
    var s1 := SetBody(st, Main, Sends(c, items, 0, ReturnCount), PyNone);
    assert SendSequence(st, c, items) == Dispatch(s1);
    EchoFromSending(s1, c, t, items, 0);
  }

  /** The values the waiting senders of a queue hold, head first. */
  function Sent(ws: seq<Waiter>): (r: seq<Value>)
    ensures |r| == |ws| && forall i :: 0 <= i < |ws| ==> r[i] == ws[i].v
  {
    if ws == [] then [] else [ws[0].v] + Sent(ws[1..])
  }

  /** Some value is an exception. */
  predicate HasExc(vs: seq<Value>) {
    vs != [] && (vs[0].Exc? || HasExc(vs[1..]))
  }

  /** The values before the first exception. */
  function UntilExc(vs: seq<Value>): seq<Value> {
    if vs == [] || vs[0].Exc? then [] else [vs[0]] + UntilExc(vs[1..])
  }

  /** How iterating over `vs` ends when nothing else is sent: at the first
      exception, or with a deadlock once the values run out. */
  function EndOf(vs: seq<Value>): IterEnd {
    if vs == [] then Raised(Deadlock)
    else if vs[0].Exc? then (if vs[0].e == StopIteration then Stopped else Raised(vs[0].e))
    else EndOf(vs[1..])
  }

  lemma PrefixCons(v: Value, a: seq<Value>, b: seq<Value>)
    requires a <= b
    ensures [v] + a <= [v] + b
  {
    assert ([v] + b)[..|a| + 1] == [v] + b[..|a|];
  }

  /** Iterating a channel first yields the values its waiting senders hold,
      in the order they were sent; if one of them is an exception the
      iteration stops there: a `StopIteration` ends it quietly, any other
      exception is raised. */
  lemma {:induction false} IterateInSendOrder(st: State, c: Cid)
    requires Ready(st) && c < |st.chans| && st.chans[c].balance >= 0
    ensures UntilExc(Sent(st.chans[c].waiters)) <= Iterate(st, c).1
    ensures HasExc(Sent(st.chans[c].waiters)) ==>
      Iterate(st, c).1 == UntilExc(Sent(st.chans[c].waiters)) && Iterate(st, c).2 == EndOf(Sent(st.chans[c].waiters))
    decreases st.chans[c].balance
  {
    var ws := st.chans[c].waiters;
    if st.chans[c].balance > 0 {
      var s1 := Take(st, c);
      assert Receive(st, c) == Ok(s1);
      IterateOk(st, c, s1);
      assert s1.ret == ws[0].v && s1.chans[c].waiters == ws[1..];
      assert Sent(ws) == [ws[0].v] + Sent(ws[1..]);
      if !s1.ret.Exc? {
        IterateInSendOrder(s1, c);
        PrefixCons(s1.ret, UntilExc(Sent(ws[1..])), Iterate(s1, c).1);
      }
    } else {
      assert ws == [];
    }
  }

  // ---------------------------------------------------------------------
  // Iterating while a producer tasklet sends (`testSig_next`)

  /** Main (alone scheduled) iterates over `c` while tasklet `p` runs a
      producer body with `rest` still to send after `v`, parked on `c` with
      `v`, the only waiter. */
  predicate ProducerParked(s: State, c: Cid, p: Tid, v: Value, rest: seq<Value>, n: nat) {
    && Ready(s) && c < |s.chans| && IsTasklet(s, p) && p != Main && s.runq == [Main]
    && s.tasks[p].body == Sends(c, rest, n, Exit) && !s.tasks[p].pendingKill && s.tasks[p].waitingOn == Some(c)
    && s.chans[c].waiters == [Waiter(p, v)] && s.chans[c].balance == 1 && !s.chans[c].closing
  }

  /** As above, but the producer is scheduled behind main and nobody waits
      on `c`. */
  predicate ProducerRunning(s: State, c: Cid, p: Tid, rest: seq<Value>, n: nat) {
    && Ready(s) && c < |s.chans| && IsTasklet(s, p) && p != Main && s.runq == [Main, p]
    && s.tasks[p].body == Sends(c, rest, n, Exit) && !s.tasks[p].pendingKill
    && s.chans[c].balance == 0 && !s.chans[c].closing
  }

  /** `stackless.run()` with a producer set up on a channel nobody waits
      on: it parks with its first item and `run()` returns to main. */
  lemma ProducerStarts(st: State, c: Cid, p: Tid, v: Value, rest: seq<Value>)
    requires ProducerRunning(st, c, p, [v] + rest, 0)
    ensures RunAll(st).Ok? && ProducerParked(RunAll(st).value, c, p, v, rest, 1)
  {
    var s1 := st.(runq := [p], nested := true);
    TailMembers(st.runq);
    WaitFrame(st, s1);
    assert Fill(s1) == s1;
    assert RunAll(st).value == Dispatch(s1);
    var b := s1.tasks[p].body;
    assert b.rest[0] == v && b.rest[1..] == rest;
    var s2 := BlockHead(s1, c, v, true, Sends(c, rest, 1, Exit));
    assert Step(s1) == SendStep(s1) == s2;
    assert s2.runq == [Main] && s2.tasks[Main] == st.tasks[Main] && Settled(s2);
    assert s2.chans[c].waiters == [] + [Waiter(p, v)];
    assert Dispatch(s1) == Dispatch(s2) == Resume(s2);
  }

  /** `next()` takes the parked producer's item; the producer is
      scheduled behind main. */
  lemma ProducerTake(s: State, c: Cid, p: Tid, v: Value, rest: seq<Value>, n: nat) returns (r: State)
    requires ProducerParked(s, c, p, v, rest, n)
    ensures Receive(s, c) == Ok(r) && r.ret == v && ProducerRunning(r, c, p, rest, n)
  {
    r := Take(s, c);
  }

  /** `next()` with nothing waiting parks main and the producer runs. */
  lemma ProducerBlocksMain(s: State, c: Cid, p: Tid, rest: seq<Value>, n: nat) returns (s1: State)
    requires ProducerRunning(s, c, p, rest, n)
    ensures Valid(s1) && Receive(s, c) == Ok(Dispatch(s1)) && c < |s1.chans| && s1.runq == [p]
    ensures s1.tasks[p] == s.tasks[p] && s1.tasks[Main] == s.tasks[Main].(waitingOn := Some(c))
    ensures s1.chans[c].waiters == [Waiter(Main, PyNone)] && s1.chans[c].balance == -1 && !s1.chans[c].closing
  {
    s1 := BlockHead(s, c, PyNone, false, Driven);
    assert s1.chans[c].waiters == [] + [Waiter(Main, PyNone)];
  }

  /** The producer has nothing left: it ends, and main, left parked with
      nothing to run, is woken by a deadlock. */
  lemma ProducerDeadlocks(s: State, c: Cid, p: Tid, n: nat)
    requires ProducerRunning(s, c, p, [], n)
    ensures Receive(s, c).Ok? && Receive(s, c).value.runq[0] == Main && Receive(s, c).value.ret == Exc(Deadlock)
  {
    var s1 := ProducerBlocksMain(s, c, p, [], n);
    DispatchUnfold(s1);
    var s2 := Step(s1);
    assert s2 == SendStep(s1) == DieHead(s1);
    assert MainOk(s2.tasks[Main]);
    DispatchUnfold(s2);
  }

  /** The producer hands its next item to the parked main and goes on. */
  lemma ProducerWakesMain(s: State, c: Cid, p: Tid, rest: seq<Value>, n: nat) returns (s2: State)
    requires ProducerRunning(s, c, p, rest, n) && rest != []
    ensures Valid(s2) && Receive(s, c) == Ok(Dispatch(s2)) && c < |s2.chans|
    ensures s2.runq == [p, Main] && s2.tasks[p].body == Sends(c, rest[1..], n + 1, Exit) && !s2.tasks[p].pendingKill
    ensures s2.tasks[Main] == s.tasks[Main].(tempval := rest[0])
    ensures s2.chans[c].balance == 0 && !s2.chans[c].closing
  {
    var s1 := ProducerBlocksMain(s, c, p, rest, n);
    DispatchUnfold(s1);
    HandOffToMain(s1, c, p, rest, n);
    s2 := SendHandOff(s1);
    assert Step(s1) == SendStep(s1) == s2;
  }

  lemma HandOffToMain(s1: State, c: Cid, p: Tid, rest: seq<Value>, n: nat)
    requires Valid(s1) && c < |s1.chans| && p < |s1.tasks| && s1.runq == [p] && rest != []
    requires s1.tasks[p].body == Sends(c, rest, n, Exit)
    requires s1.chans[c].waiters == [Waiter(Main, PyNone)] && s1.chans[c].balance == -1
    ensures var s2 := SendHandOff(s1);
      && s2.runq == [p, Main] && s2.tasks[p] == s1.tasks[p].(body := Sends(c, rest[1..], n + 1, Exit))
      && s2.tasks[Main] == s1.tasks[Main].(waitingOn := None, tempval := rest[0])
      && s2.chans[c].balance == 0 && s2.chans[c].closing == s1.chans[c].closing
  {
    var b := s1.tasks[p].body;
    var s2 := SendHandOff(s1);
    assert s2.tasks == HandOffTasks(s1.tasks, p, Main, b);
    assert s2.runq == [p] + [Main];
  }

  /** The producer's last item: it ends and main takes the item. */
  lemma ProducerLast(s: State, c: Cid, p: Tid, rest: seq<Value>, n: nat) returns (r: State)
    requires ProducerRunning(s, c, p, rest, n) && |rest| == 1
    ensures Receive(s, c) == Ok(r) && r.ret == rest[0] && Ready(r) && r.runq == [Main]
    ensures c < |r.chans| && r.chans[c].balance == 0 && !r.chans[c].closing
  {
    var s2 := ProducerWakesMain(s, c, p, rest, n);
    var s3 := DieHead(s2);
    assert Step(s2) == SendStep(s2) == s3;
    DispatchUnfold(s2);
    DispatchUnfold(s3);
    r := Resume(s3);
  }

  /** The producer hands main its next item and parks with the one after. */
  lemma ProducerHandOver(s: State, c: Cid, p: Tid, rest: seq<Value>, n: nat) returns (r: State)
    requires ProducerRunning(s, c, p, rest, n) && |rest| >= 2
    ensures Receive(s, c) == Ok(r) && r.ret == rest[0] && ProducerParked(r, c, p, rest[1], rest[2..], n + 2)
  {
    var s2 := ProducerWakesMain(s, c, p, rest, n);
    var s3 := ProducerReparks(s2, c, p, rest[1..], n + 1);
    assert rest[1..][0] == rest[1] && rest[1..][1..] == rest[2..];
    DispatchUnfold(s2);
    DispatchUnfold(s3);
    r := Resume(s3);
  }

  /** The producer, scheduled ahead of main, parks with its next item. */
  lemma ProducerReparks(s2: State, c: Cid, p: Tid, rest: seq<Value>, n: nat) returns (s3: State)
    requires Valid(s2) && c < |s2.chans| && p < |s2.tasks| && p != Main && s2.runq == [p, Main] && rest != []
    requires s2.tasks[p].body == Sends(c, rest, n, Exit) && !s2.tasks[p].pendingKill
    requires s2.chans[c].balance == 0 && !s2.chans[c].closing
    ensures !Settled(s2) && Step(s2) == s3 && Valid(s3) && s3.runq == [Main] && c < |s3.chans|
    ensures s3.tasks[p] == s2.tasks[p].(waitingOn := Some(c), body := Sends(c, rest[1..], n + 1, Exit))
    ensures s3.tasks[Main] == s2.tasks[Main]
    ensures s3.chans[c].waiters == [Waiter(p, rest[0])] && s3.chans[c].balance == 1 && !s3.chans[c].closing
  {
    s3 := BlockHead(s2, c, rest[0], true, Sends(c, rest[1..], n + 1, Exit));
    assert Step(s2) == SendStep(s2) == s3;
    assert s3.chans[c].waiters == [] + [Waiter(p, rest[0])];
  }

  /** From the producer parked with `v`: `list(c)` is every item up to the
      first exception, and ends as that exception says, or in a deadlock
      once the producer has ended. */
  lemma {:induction false} IterateParkedProducer(s: State, c: Cid, p: Tid, v: Value, rest: seq<Value>, n: nat)
    requires ProducerParked(s, c, p, v, rest, n)
    ensures Iterate(s, c).1 == UntilExc([v] + rest) && Iterate(s, c).2 == EndOf([v] + rest)
    decreases |rest|, 1
  {
    var r := ProducerTake(s, c, p, v, rest, n);
    IterateOk(s, c, r);
    assert ([v] + rest)[0] == v && ([v] + rest)[1..] == rest;
    if !v.Exc? {
      IterateRunningProducer(r, c, p, rest, n);
    }
  }

  /** From the producer scheduled behind main, likewise. */
  lemma {:induction false} IterateRunningProducer(s: State, c: Cid, p: Tid, rest: seq<Value>, n: nat)
    requires ProducerRunning(s, c, p, rest, n)
    ensures Iterate(s, c).1 == UntilExc(rest) && Iterate(s, c).2 == EndOf(rest)
    decreases |rest|, 0
  {
    if rest == [] {
      ProducerDeadlocks(s, c, p, n);
      IterateOk(s, c, Receive(s, c).value);
    } else if |rest| == 1 {
      IterateLastItem(s, c, p, rest, n);
    } else {
      var r := ProducerHandOver(s, c, p, rest, n);
      IterateOk(s, c, r);
      if !rest[0].Exc? {
        IterateParkedProducer(r, c, p, rest[1], rest[2..], n + 2);
        SplitSecond(rest);
      }
    }
  }

  lemma SplitSecond(vs: seq<Value>)
    requires |vs| >= 2
    ensures vs[1..] == [vs[1]] + vs[2..]
  {
  }

  /** The producer's last item is the last value, and the next `next()`
      deadlocks. */
  lemma IterateLastItem(s: State, c: Cid, p: Tid, rest: seq<Value>, n: nat)
    requires ProducerRunning(s, c, p, rest, n) && |rest| == 1
    ensures Iterate(s, c).1 == UntilExc(rest) && Iterate(s, c).2 == EndOf(rest)
  {
    var r := ProducerLast(s, c, p, rest, n);
    IterateOk(s, c, r);
    if !rest[0].Exc? {
      IterateEnds(r, c);
      assert rest[1..] == [];
    }
  }
}
