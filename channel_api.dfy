/** The methods and attributes of a channel object, as transitions of its
    thread's scheduler state. Each is called by the current tasklet; `Err`
    means the call raised before anything changed. */
module ChannelApi {
  import opened Types
  import opened Channels
  import opened Tasklets
  import opened Scheduler
  import opened Progress

  /** `stackless.channel()` */
  function NewChannel(st: State): (r: State)
    requires Ready(st)
    ensures Ready(r) && r.chans == st.chans + [NewChan()] && r.ret == ChanRef(|st.chans|)
    ensures r.tasks == st.tasks && r.runq == st.runq && r.nested == st.nested
  {
    var r := st.(chans := st.chans + [NewChan()], ret := ChanRef(|st.chans|));
    AddChanFrame(st, r, NewChan());
    r
  }

  /** Replace the attributes of channel `c`, keeping its wait queue. */
  function SetAttrs(st: State, c: Cid, ch: Chan): (r: State)
    requires Ready(st) && c < |st.chans| && ChanOk(ch) && ch.waiters == st.chans[c].waiters
    ensures Ready(r) && r == st.(chans := st.chans[c := ch], ret := PyNone)
  {
    var r := st.(chans := st.chans[c := ch], ret := PyNone);
    ChanAttrFrame(st, r, c);
    r
  }

  /** `c.close()`: returns None; nobody waiting on `c` is woken. */
  function CloseChannel(st: State, c: Cid): (r: State)
    requires Ready(st) && c < |st.chans|
    ensures Ready(r) && r.ret == PyNone && r.tasks == st.tasks && r.runq == st.runq
    ensures r.chans == st.chans[c := Close(st.chans[c])]
    ensures r.chans[c].closing && (Closed(r.chans[c]) <==> st.chans[c].balance == 0)
  {
    SetAttrs(st, c, Close(st.chans[c]))
  }

  /** `c.open()`: returns None. */
  function OpenChannel(st: State, c: Cid): (r: State)
    requires Ready(st) && c < |st.chans|
    ensures Ready(r) && r.ret == PyNone && r.tasks == st.tasks && r.runq == st.runq
    ensures r.chans == st.chans[c := Open(st.chans[c])]
    ensures !r.chans[c].closing && !Closed(r.chans[c])
  {
    SetAttrs(st, c, Open(st.chans[c]))
  }

  /** `c.preference = x` */
  function AssignPreference(st: State, c: Cid, x: PyNumber): (r: Result<State>)
    requires Ready(st) && c < |st.chans|
    ensures r.Err? <==> x.PyFloat?
    ensures r.Err? ==> r.error == TypeError
    ensures r.Ok? ==> Ready(r.value) && r.value.chans == st.chans[c := st.chans[c].(preference := PreferenceOf(x).value)]
    ensures r.Ok? ==> r.value.tasks == st.tasks && r.value.runq == st.runq
  {
    match SetPreference(st.chans[c], x)
    case Ok(ch) => Ok(SetAttrs(st, c, ch))
    case Err(e) => Err(e)
  }

  /** `c.schedule_all = x` */
  function AssignScheduleAll(st: State, c: Cid, x: PyNumber): (r: Result<State>)
    requires Ready(st) && c < |st.chans|
    ensures r.Err? <==> x.PyFloat?
    ensures r.Err? ==> r.error == TypeError
    ensures r.Ok? ==> Ready(r.value) && r.value.chans == st.chans[c := st.chans[c].(scheduleAll := ScheduleAllOf(x).value)]
    ensures r.Ok? ==> r.value.tasks == st.tasks && r.value.runq == st.runq
  {
    match SetScheduleAll(st.chans[c], x)
    case Ok(ch) => Ok(SetAttrs(st, c, ch))
    case Err(e) => Err(e)
  }

  /** Blocking on `c` would leave nothing to run: the main tasklet is the
      only one scheduled. */
  predicate WouldDeadlock(st: State): (b: bool)
    requires Valid(st)
    ensures b <==> Current(st) == Main && forall t :: IsTasklet(st, t) && t != Main ==> !FlagsOf(st, t).scheduled
  {
    assert |st.runq| > 1 ==> st.runq[1] != st.runq[0] && IsTasklet(st, st.runq[1]) && FlagsOf(st, st.runq[1]).scheduled;
    assert |st.runq| == 1 ==> st.runq == [st.runq[0]];
    st.runq[0] == Main && |st.runq| == 1
  }

  /** `c.send(v)`, and `c.send_exception(e)` with `v == Exc(e)`. With a
      receiver waiting, it gets `v` and is scheduled while the caller goes
      on; otherwise the caller parks on `c` until a receiver takes `v`. */
  function Send(st: State, c: Cid, v: Value): (r: Result<State>)
    requires Ready(st) && c < |st.chans|
    ensures r.Err? <==> st.chans[c].balance >= 0 && (st.chans[c].closing || WouldDeadlock(st))
    ensures st.chans[c].balance >= 0 && st.chans[c].closing ==> r == Err(ChannelClosed)
    ensures st.chans[c].balance >= 0 && !st.chans[c].closing && WouldDeadlock(st) ==> r == Err(Deadlock)
    ensures r.Ok? ==> Ready(r.value) && |r.value.tasks| == |st.tasks| && |r.value.chans| == |st.chans|
    ensures st.chans[c].balance < 0 ==> r.Ok? && var w := st.chans[c].waiters[0].t;
      && r.value.runq == st.runq + [w] && r.value.ret == PyNone
      && r.value.tasks == st.tasks[w := st.tasks[w].(waitingOn := None, tempval := v)]
      && r.value.chans == st.chans[c := Unpark(st.chans[c]).1]
    ensures r.Ok? && st.chans[c].balance >= 0 ==> r.value == Dispatch(BlockHead(st, c, v, true, Driven))
  {
    if st.chans[c].balance < 0 then
      var (s1, w) := Wake(st, c, v);
      var r := s1.(ret := PyNone);
      ReadyFrame(st, r);
      Ok(r)
    else if st.chans[c].closing then Err(ChannelClosed)
    else if WouldDeadlock(st) then Err(Deadlock)
    else Ok(Dispatch(BlockHead(st, c, v, true, Driven)))
  }

  /** `c.receive()`. With a sender waiting, the caller takes its value and
      the sender is scheduled; otherwise the caller parks on `c` until a
      sender hands it a value. */
  function Receive(st: State, c: Cid): (r: Result<State>)
    requires Ready(st) && c < |st.chans|
    ensures r.Err? <==> st.chans[c].balance <= 0 && (st.chans[c].closing || WouldDeadlock(st))
    ensures st.chans[c].balance <= 0 && st.chans[c].closing ==> r == Err(ChannelClosed)
    ensures st.chans[c].balance <= 0 && !st.chans[c].closing && WouldDeadlock(st) ==> r == Err(Deadlock)
    ensures r.Ok? ==> Ready(r.value) && |r.value.tasks| == |st.tasks| && |r.value.chans| == |st.chans|
    ensures st.chans[c].balance > 0 ==> r.Ok? && var w := st.chans[c].waiters[0];
      && r.value.runq == st.runq + [w.t] && r.value.ret == w.v
      && r.value.tasks == st.tasks[w.t := st.tasks[w.t].(waitingOn := None, tempval := PyNone)]
      && r.value.chans == st.chans[c := Unpark(st.chans[c]).1]
    ensures r.Ok? && st.chans[c].balance <= 0 ==> r.value == Dispatch(BlockHead(st, c, PyNone, false, Driven))
  {
    if st.chans[c].balance > 0 then Ok(Take(st, c))
    else if st.chans[c].closing then Err(ChannelClosed)
    else if WouldDeadlock(st) then Err(Deadlock)
    else Ok(Dispatch(BlockHead(st, c, PyNone, false, Driven)))
  }

  /** `c.receive()` with a sender waiting: the caller takes the longest
      waiting sender's value and the sender is scheduled. */
  function Take(st: State, c: Cid): (r: State)
    requires Ready(st) && c < |st.chans| && st.chans[c].balance > 0
    ensures Ready(r) && |r.tasks| == |st.tasks| && |r.chans| == |st.chans|
    ensures r.runq == st.runq + [st.chans[c].waiters[0].t] && r.runq[0] == st.runq[0]
    ensures r.ret == st.chans[c].waiters[0].v && r.nested == st.nested
    ensures r.tasks == st.tasks[st.chans[c].waiters[0].t := st.tasks[st.chans[c].waiters[0].t].(waitingOn := None, tempval := PyNone)]
    ensures r.chans == st.chans[c := Unpark(st.chans[c]).1]
    ensures r.chans[c].balance == st.chans[c].balance - 1
  {
    var (s1, w) := Wake(st, c, PyNone);
    var r := s1.(ret := w.v);
    ReadyFrame(st, r);
    r
  }

  /** `c.send_sequence(items)`: the caller sends the items one by one,
      parking whenever no receiver waits, and gets back how many it sent
      (or the exception that stopped it). */
  function SendSequence(st: State, c: Cid, items: seq<Value>): (r: State)
    requires Ready(st) && c < |st.chans|
    ensures Ready(r) && |r.tasks| == |st.tasks| && |r.chans| == |st.chans|
    ensures items == [] ==> r.tasks == st.tasks && r.runq == st.runq && r.chans == st.chans && r.ret == Int(0)
  {
    var h := st.runq[0];
    var s1 := SetBody(st, h, Sends(c, items, 0, ReturnCount), PyNone);
    if items == [] then
      var s2 := SetBody(s1, h, Driven, Int(0));
      assert Step(s1) == SendStep(s1) == s2;
      assert s2.tasks[h := s2.tasks[h].(tempval := PyNone)] == st.tasks;
      assert Dispatch(s1) == Dispatch(s2) == Resume(s2);
      Dispatch(s1)
    else
      Dispatch(s1)
  }

  /** `c.queue`: the tasklet that has waited longest on `c`. */
  function QueueOf(st: State, c: Cid): (r: Option<Tid>)
    requires Valid(st) && c < |st.chans|
    ensures r == None <==> st.chans[c].balance == 0
    ensures r.Some? ==> r.value < |st.tasks| && st.tasks[r.value].waitingOn == Some(c)
    ensures r.Some? ==> r.value == st.chans[c].waiters[0].t
  {
    var q := Queue(st.chans[c]);
    if q.Some? then
      WaiterOf(st, c, q.value);
      q
    else q
  }

  /** `t.next` for a tasklet waiting on a channel: the one that waits
      next after it on the same channel. */
  function NextOf(st: State, t: Tid): (r: Option<Tid>)
    requires Valid(st) && IsTasklet(st, t) && st.tasks[t].waitingOn.Some?
    ensures r.Some? ==> r.value < |st.tasks| && r.value != t && st.tasks[r.value].waitingOn == st.tasks[t].waitingOn
    ensures var ws := st.chans[st.tasks[t].waitingOn.value].waiters;
      r.Some? <==> exists k :: 0 <= k < |ws| - 1 && ws[k].t == t
    ensures var ws := st.chans[st.tasks[t].waitingOn.value].waiters;
      forall k :: 0 <= k < |ws| - 1 && ws[k].t == t ==> r == Some(ws[k + 1].t)
  {
    var c := st.tasks[t].waitingOn.value;
    var ws := st.chans[c].waiters;
    var k := IndexOf(ws, t);
    assert forall j :: 0 <= j < |ws| && ws[j].t == t ==> j == k by {
      forall j | 0 <= j < |ws| && ws[j].t == t ensures j == k {
        assert Tids(ws)[j] == Tids(ws)[k];
      }
    }
    var r := NextWaiter(st.chans[c], k);
    if r.Some? then
      WaiterOf(st, c, r.value);
      assert Tids(ws)[k + 1] != Tids(ws)[k];
      r
    else r
  }

  /** `c.__iter__()`: the channel is its own iterator. */
  function IterChannel(st: State, c: Cid): (r: State)
    requires Ready(st) && c < |st.chans|
    ensures Ready(r) && r.ret == ChanRef(c)
    ensures r.tasks == st.tasks && r.runq == st.runq && r.chans == st.chans && r.nested == st.nested
  {
    var r := st.(ret := ChanRef(c));
    WaitFrame(st, r);
    r
  }

  /** A `receive()` that gives control back to its caller with a value
      that is not an exception has taken an item: the work left went down.
      (A tasklet woken by a deadlock or a sent exception may have had no
      item handed to it.) */
  lemma ReceiveProgress(st: State, c: Cid)
    requires Ready(st) && c < |st.chans|
    ensures var r := Receive(st, c);
      r.Ok? && r.value.runq[0] == st.runq[0] && !r.value.ret.Exc? ==> Work(r.value) < Work(st)
  {
    var h := st.runq[0];
    if st.chans[c].balance > 0 {
      WakeWork(st, c, PyNone);
    } else if !st.chans[c].closing && !WouldDeadlock(st) {
      var s1 := BlockHead(st, c, PyNone, false, Driven);
      BlockHeadWork(st, c, PyNone, false, Driven);
      FillBlocked(ParkHead(st, c, PyNone, false, Driven), h);
      DispatchBlocked(s1, h, Work(st));
    }
  }

  /** How an iteration over a channel ended: a sent `StopIteration`, another
      exception (sent, or raised by a `receive()` that cannot block), or the
      iterating tasklet is parked in a `next()` while another tasklet has
      control. */
  datatype IterEnd = Stopped | Raised(e: Error) | Suspended

  /** `for x in c` / `list(c)` by the current tasklet: each `next()` is a
      `receive()` (parking the tasklet while no sender waits); an exception
      received or raised ends the iteration, a `StopIteration` quietly.
      Returns the state, the values taken and how the iteration ended. */
  function Iterate(st: State, c: Cid): (r: (State, seq<Value>, IterEnd))
    requires Ready(st) && c < |st.chans|
    ensures Ready(r.0) && |r.0.tasks| == |st.tasks| && |r.0.chans| == |st.chans|
    ensures r.2 != Suspended <==> r.0.runq[0] == st.runq[0]
    ensures NoExc(r.1)
    ensures |r.1| <= Work(st)
    decreases Work(st)
  {
    match Receive(st, c)
    case Err(e) => (st, [], Raised(e))
    case Ok(s1) =>
      if s1.runq[0] != st.runq[0] then (s1, [], Suspended)
      else if s1.ret.Exc? then (s1, [], if s1.ret.e == StopIteration then Stopped else Raised(s1.ret.e))
      else
        ReceiveProgress(st, c);
        var d := Iterate(s1, c);
        NoExcCons(s1.ret, d.1);
        (d.0, [s1.ret] + d.1, d.2)
  }

  /** One `next()` whose `receive()` gives control back to the caller:
      an exception ends the iteration, any other value is the next item. */
  lemma IterateOk(st: State, c: Cid, r: State)
    requires Ready(st) && c < |st.chans| && Receive(st, c) == Ok(r) && r.runq[0] == st.runq[0]
    ensures r.ret.Exc? ==> Iterate(st, c) == (r, [], if r.ret.e == StopIteration then Stopped else Raised(r.ret.e))
    ensures !r.ret.Exc? ==> Iterate(st, c) == (Iterate(r, c).0, [r.ret] + Iterate(r, c).1, Iterate(r, c).2)
  {
  }

  /** One `next()` whose `receive()` raises, or leaves another tasklet in
      control: the iteration ends there. */
  lemma IterateEnds(st: State, c: Cid)
    requires Ready(st) && c < |st.chans|
    ensures Receive(st, c).Err? ==> Iterate(st, c) == (st, [], Raised(Receive(st, c).error))
    ensures Receive(st, c).Ok? && Receive(st, c).value.runq[0] != st.runq[0] ==>
      Iterate(st, c) == (Receive(st, c).value, [], Suspended)
  {
  }

  /** No exception among the values. */
  predicate NoExc(vs: seq<Value>) {
    forall i :: 0 <= i < |vs| ==> !vs[i].Exc?
  }

  lemma NoExcCons(v: Value, vs: seq<Value>)
    requires !v.Exc? && NoExc(vs)
    ensures NoExc([v] + vs)
  {
    assert forall i :: 1 <= i < |vs| + 1 ==> ([v] + vs)[i] == vs[i - 1];
  }
}
