/** Channel bookkeeping: the FIFO wait queue, the signed balance, the
    closing/closed flags and the coercions of the `preference` and
    `schedule_all` attributes. */
module Channels {
  import opened Types

  /** A tasklet parked on a channel, with the value it sends (for a
      receiver the value is `PyNone`). */
  datatype Waiter = Waiter(t: Tid, v: Value)

  /** `balance` > 0 counts waiting senders, < 0 waiting receivers. */
  datatype Chan = Chan(
    waiters: seq<Waiter>,
    balance: int,
    closing: bool,
    preference: int,
    scheduleAll: int)

  function Abs(x: int): nat { if x < 0 then -x else x }

  /** The tasklets of a wait queue, head first. */
  function Tids(ws: seq<Waiter>): (r: seq<Tid>)
    ensures |r| == |ws|
    ensures forall i :: 0 <= i < |ws| ==> r[i] == ws[i].t
  {
    if ws == [] then [] else [ws[0].t] + Tids(ws[1..])
  }

  /** The channel invariant: one waiter per unit of balance, no tasklet
      twice, attributes in their coerced ranges. */
  predicate ChanOk(c: Chan) {
    && |c.waiters| == Abs(c.balance)
    && Distinct(Tids(c.waiters))
    && -1 <= c.preference <= 1
    && 0 <= c.scheduleAll <= 1
  }

  /** `stackless.channel()` */
  function NewChan(): (c: Chan)
    ensures ChanOk(c)
    ensures c.balance == 0 && !c.closing && !Closed(c) && Queue(c) == None
    ensures c.preference == -1 && c.scheduleAll == 0
  {
    Chan([], 0, false, -1, 0)
  }

  /** `c.closed`: derived, never stored. */
  predicate Closed(c: Chan): (b: bool)
    ensures b ==> c.closing
    ensures ChanOk(c) ==> (b <==> c.closing && c.waiters == [])
  {
    c.closing && c.balance == 0
  }

  /** `c.queue`: the longest waiting tasklet, or None. */
  function Queue(c: Chan): (r: Option<Tid>)
    requires ChanOk(c)
    ensures r == None <==> c.balance == 0
    ensures r.Some? ==> r.value == c.waiters[0].t
  {
    if c.waiters == [] then None else Some(c.waiters[0].t)
  }

  /** `t.next` for a tasklet parked on `c`: its successor in the wait queue. */
  function NextWaiter(c: Chan, k: nat): (r: Option<Tid>)
    requires k < |c.waiters|
    ensures r.Some? <==> k + 1 < |c.waiters|
    ensures r.Some? ==> r.value == c.waiters[k + 1].t
  {
    if k + 1 < |c.waiters| then Some(c.waiters[k + 1].t) else None
  }

  /** Park a sender (`sending`) or a receiver at the tail of the queue. */
  function Park(c: Chan, w: Waiter, sending: bool): (r: Chan)
    requires ChanOk(c)
    requires if sending then c.balance >= 0 else c.balance <= 0
    requires w.t !in Tids(c.waiters)
    ensures ChanOk(r)
    ensures r.waiters == c.waiters + [w]
    ensures r.balance == c.balance + (if sending then 1 else -1)
    ensures r.closing == c.closing && r.preference == c.preference && r.scheduleAll == c.scheduleAll
  {
    var r := c.(waiters := c.waiters + [w], balance := c.balance + (if sending then 1 else -1));
    assert Tids(r.waiters) == Tids(c.waiters) + [w.t];
    r
  }

  /** Take the longest waiting tasklet off the queue. */
  function Unpark(c: Chan): (r: (Waiter, Chan))
    requires ChanOk(c) && c.balance != 0
    ensures ChanOk(r.1)
    ensures r.0 == c.waiters[0] && r.1.waiters == c.waiters[1..]
    ensures Abs(r.1.balance) == Abs(c.balance) - 1
    ensures (c.balance > 0 ==> r.1.balance >= 0) && (c.balance < 0 ==> r.1.balance <= 0)
    ensures r.1.closing == c.closing && r.1.preference == c.preference && r.1.scheduleAll == c.scheduleAll
  {
    var r := c.(waiters := c.waiters[1..], balance := if c.balance > 0 then c.balance - 1 else c.balance + 1);
    assert Tids(c.waiters) == [c.waiters[0].t] + Tids(r.waiters);
    (c.waiters[0], r)
  }

  /** The position of `t` in a wait queue. */
  function IndexOf(ws: seq<Waiter>, t: Tid): (k: nat)
    requires t in Tids(ws)
    ensures k < |ws| && ws[k].t == t
  {
    if ws[0].t == t then 0 else IndexOf(ws[1..], t) + 1
  }

  lemma TidsRemoveAt(ws: seq<Waiter>, k: nat)
    requires k < |ws|
    ensures Tids(RemoveAt(ws, k)) == RemoveAt(Tids(ws), k)
  {
  }

  /** Take `t` off the queue wherever it stands (a waiter is killed): the
      balance moves one step back toward 0 and the others keep their
      order. */
  function Withdraw(c: Chan, t: Tid): (r: Chan)
    requires ChanOk(c) && t in Tids(c.waiters)
    ensures ChanOk(r)
    ensures Abs(r.balance) == Abs(c.balance) - 1
    ensures (c.balance > 0 ==> r.balance == c.balance - 1) && (c.balance < 0 ==> r.balance == c.balance + 1)
    ensures t !in Tids(r.waiters)
    ensures forall u :: u in Tids(r.waiters) <==> u in Tids(c.waiters) && u != t
    ensures exists k :: 0 <= k < |c.waiters| && c.waiters[k].t == t && r.waiters == c.waiters[..k] + c.waiters[k + 1..]
    ensures r.closing == c.closing && r.preference == c.preference && r.scheduleAll == c.scheduleAll
  {
    var k := IndexOf(c.waiters, t);
    var ws := RemoveAt(c.waiters, k);
    TidsRemoveAt(c.waiters, k);
    RemoveAtMembers(Tids(c.waiters), k);
    c.(waiters := ws, balance := if c.balance > 0 then c.balance - 1 else c.balance + 1)
  }

  /** `c.close()` */
  function Close(c: Chan): (r: Chan)
    ensures r.closing && r.waiters == c.waiters && r.balance == c.balance
    ensures Closed(r) <==> c.balance == 0
  {
    c.(closing := true)
  }

  /** `c.open()` */
  function Open(c: Chan): (r: Chan)
    ensures !r.closing && !Closed(r) && r.waiters == c.waiters && r.balance == c.balance
  {
    c.(closing := false)
  }

  /** The value `c.preference = x` stores. */
  function PreferenceOf(x: PyNumber): (r: Result<int>)
    ensures r.Err? <==> x.PyFloat?
    ensures r.Err? ==> r.error == TypeError
    ensures r.Ok? ==> -1 <= r.value <= 1
    ensures x.PyInt? && -1 <= x.i <= 1 ==> r == Ok(x.i)
    ensures x.PyInt? && x.i > 1 ==> r == Ok(1)
    ensures x.PyInt? && x.i < -1 ==> r == Ok(-1)
    ensures x.PyBool? ==> r == Ok(if x.b then 1 else 0)
  {
    match x
    case PyInt(i) => Ok(if i < -1 then -1 else if i > 1 then 1 else i)
    case PyBool(b) => Ok(if b then 1 else 0)
    case PyFloat(_) => Err(TypeError)
  }

  /** The value `c.schedule_all = x` stores. */
  function ScheduleAllOf(x: PyNumber): (r: Result<int>)
    ensures r.Err? <==> x.PyFloat?
    ensures r.Err? ==> r.error == TypeError
    ensures x.PyInt? ==> r == Ok(if x.i == 0 then 0 else 1)
    ensures x.PyBool? ==> r == Ok(if x.b then 1 else 0)
  {
    match x
    case PyInt(i) => Ok(if i != 0 then 1 else 0)
    case PyBool(b) => Ok(if b then 1 else 0)
    case PyFloat(_) => Err(TypeError)
  }

  /** `c.preference = x`: on a TypeError nothing changes. */
  function SetPreference(c: Chan, x: PyNumber): (r: Result<Chan>)
    requires ChanOk(c)
    ensures r.Ok? <==> !x.PyFloat?
    ensures r.Ok? ==> ChanOk(r.value) && r.value == c.(preference := PreferenceOf(x).value)
  {
    match PreferenceOf(x)
    case Ok(p) => Ok(c.(preference := p))
    case Err(e) => Err(e)
  }

  /** `c.schedule_all = x`: on a TypeError nothing changes. */
  function SetScheduleAll(c: Chan, x: PyNumber): (r: Result<Chan>)
    requires ChanOk(c)
    ensures r.Ok? <==> !x.PyFloat?
    ensures r.Ok? ==> ChanOk(r.value) && r.value == c.(scheduleAll := ScheduleAllOf(x).value)
  {
    match ScheduleAllOf(x)
    case Ok(s) => Ok(c.(scheduleAll := s))
    case Err(e) => Err(e)
  }
}
