/** Values, callables and error kinds shared by the tasklet, channel and
    scheduler models. */
module Types {

  datatype Option<+T> = None | Some(value: T)

  /** A tasklet handle: an index into its thread's tasklet table. */
  type Tid = nat

  /** A channel handle: an index into its thread's channel table. */
  type Cid = nat

  /** The error kinds an operation raises synchronously or that is delivered
      into a tasklet when it resumes. `TaskletExit` is, in the runtime, a
      subclass of `SystemExit`. */
  datatype Error =
    | TaskletScheduled      // RuntimeError "tasklet is scheduled"
    | TaskletBlocked        // the tasklet is parked on a channel
    | TaskletNotAlive       // the tasklet has no frame
    | TaskletAlive          // setup() of a tasklet that already runs
    | NotBound              // setup() of a tasklet with no callable
    | AlreadyScheduled      // insert() of a tasklet that is on the run-queue
    | RemoveCurrent         // remove() of the current tasklet
    | MainTasklet           // an operation the model refuses on the main tasklet
    | NotMainTasklet        // stackless.run() called outside the main tasklet
    | ChannelClosed         // blocking operation on a closing channel
    | Deadlock              // the last runnable tasklet would block
    | TypeError             // a channel attribute set to a value of the wrong type
    | UnknownThread         // get_thread_info() of an unknown thread id
    | TaskletExit           // the termination signal kill() delivers
    | StopIteration         // ends the iteration over a channel
    | AppError(code: int)   // any other exception a tasklet sends

  /** Callables a tasklet can be bound to. A `Callback` stands for a Python
      function whose statements the caller carries out itself, one
      operation at a time; the other two are the channel loops the tests
      start as tasklets, which the scheduler runs on its own. */
  datatype Func =
    | Callback(id: nat)
    | Producer(ch: Cid, items: seq<Value>)   // send each item, then return
    | Consumer(ch: Cid, forever: bool)       // `c.receive()` once, or `while True: c.receive()`

  /** Python values as far as the tests observe them. */
  datatype Value =
    | PyNone
    | Int(i: int)
    | Bool(b: bool)
    | Fn(f: Func)
    | Ref(t: Tid)
    | ChanRef(c: Cid)
    | Obj(id: nat)
    | Exc(e: Error)

  datatype Result<+T> = Ok(value: T) | Err(error: Error)

  /** The right-hand side of an attribute assignment such as
      `c.preference = 2.5`. */
  datatype PyNumber = PyInt(i: int) | PyBool(b: bool) | PyFloat(r: real)

  /** Pairwise distinct elements. */
  predicate Distinct<T(==)>(s: seq<T>) {
    forall i, j :: 0 <= i < j < |s| ==> s[i] != s[j]
  }

  /** `s` without its element at position `k`. */
  function RemoveAt<T>(s: seq<T>, k: nat): (r: seq<T>)
    requires k < |s|
    ensures |r| == |s| - 1
    ensures forall i :: 0 <= i < k ==> r[i] == s[i]
    ensures forall i :: k <= i < |r| ==> r[i] == s[i + 1]
  {
    s[..k] + s[k + 1..]
  }

  lemma RemoveAtMembers<T>(s: seq<T>, k: nat)
    requires k < |s| && Distinct(s)
    ensures Distinct(RemoveAt(s, k))
    ensures forall u :: u in RemoveAt(s, k) <==> u in s && u != s[k]
  {
    var r := RemoveAt(s, k);
    forall u ensures u in r <==> u in s && u != s[k] {
      if u in r {
        var i :| 0 <= i < |r| && r[i] == u;
        if i < k { assert s[i] == u; } else { assert s[i + 1] == u; }
      }
      if u in s && u != s[k] {
        var i :| 0 <= i < |s| && s[i] == u;
        if i < k { assert r[i] == u; } else { assert r[i - 1] == u; }
      }
    }
  }

  /** The position of `x` in `s`. */
  function IndexIn<T(==)>(s: seq<T>, x: T): (k: nat)
    requires x in s
    ensures k < |s| && s[k] == x
  {
    if s[0] == x then 0 else IndexIn(s[1..], x) + 1
  }

  lemma AppendMembers<T>(s: seq<T>, x: T)
    requires Distinct(s) && x !in s
    ensures Distinct(s + [x])
    ensures forall u :: u in s + [x] <==> u in s || u == x
  {
  }

  lemma TailMembers<T>(s: seq<T>)
    requires |s| >= 1 && Distinct(s)
    ensures Distinct(s[1..]) && s[0] !in s[1..]
    ensures forall u :: u in s[1..] <==> u in s && u != s[0]
  {
  }

  /** `s` turned so that its element at `k` comes first. */
  lemma RotateMembers<T>(s: seq<T>, k: nat)
    requires k < |s| && Distinct(s)
    ensures Distinct(s[k..] + s[..k]) && (s[k..] + s[..k])[0] == s[k]
    ensures forall u :: u in s[k..] + s[..k] <==> u in s
  {
    var r := s[k..] + s[..k];
    forall i, j | 0 <= i < j < |r| ensures r[i] != r[j] {
      var a := if i < |s| - k then i + k else i - (|s| - k);
      var b := if j < |s| - k then j + k else j - (|s| - k);
      assert r[i] == s[a] && r[j] == s[b] && a != b;
    }
    forall u ensures u in r <==> u in s {
      if u in s {
        var i := IndexIn(s, u);
        if i >= k { assert r[i - k] == u; } else { assert r[|s| - k + i] == u; }
      }
    }
  }

  /** `s` turned so that its element at `k` comes first, with its first
      element dropped. */
  lemma SwitchMembers<T>(s: seq<T>, k: nat)
    requires 1 <= k < |s| && Distinct(s)
    ensures Distinct(s[k..] + s[1..k]) && (s[k..] + s[1..k])[0] == s[k]
    ensures forall u :: u in s[k..] + s[1..k] <==> u in s && u != s[0]
  {
    var r := s[k..] + s[1..k];
    forall i, j | 0 <= i < j < |r| ensures r[i] != r[j] {
      var a := if i < |s| - k then i + k else i - (|s| - k) + 1;
      var b := if j < |s| - k then j + k else j - (|s| - k) + 1;
      assert r[i] == s[a] && r[j] == s[b] && a != b;
    }
    forall u ensures u in r <==> u in s && u != s[0] {
      if u in s && u != s[0] {
        var i := IndexIn(s, u);
        if i >= k { assert r[i - k] == u; } else { assert r[|s| - k + i - 1] == u; }
      }
      if u in r {
        var i := IndexIn(r, u);
        if i < |s| - k { assert s[i + k] == u; } else { assert s[i - (|s| - k) + 1] == u; }
      }
    }
  }

  /** `s` turned so that `x` (appended first when it is missing) comes
      first. */
  function Rotated(s: seq<Tid>, x: Tid): (r: seq<Tid>)
    requires Distinct(s)
    ensures Distinct(r) && |r| >= 1 && r[0] == x
    ensures forall u :: u in r <==> u in s || u == x
    ensures x !in s ==> r == [x] + s
    ensures forall k :: 0 <= k < |s| && s[k] == x ==> r == s[k..] + s[..k]
  {
    var q := if x in s then s else s + [x];
    assert Distinct(q) && (forall u :: u in q <==> u in s || u == x) by {
      if x !in s { AppendMembers(s, x); }
    }
    var k := IndexIn(q, x);
    assert forall j :: 0 <= j < |s| && s[j] == x ==> j == k;
    assert x !in s ==> k == |s| && q[k..] == [x] && q[..k] == s;
    RotateMembers(q, k);
    q[k..] + q[..k]
  }

  /** `s` turned so that `x` (appended first when it is missing) comes
      first, with its first element dropped. */
  function Switched(s: seq<Tid>, x: Tid): (r: seq<Tid>)
    requires |s| >= 1 && Distinct(s) && x != s[0]
    ensures Distinct(r) && |r| >= 1 && r[0] == x
    ensures forall u :: u in r <==> (u in s || u == x) && u != s[0]
    ensures x !in s ==> r == [x] + s[1..]
    ensures forall k :: 0 <= k < |s| && s[k] == x ==> r == s[k..] + s[1..k]
  {
    var q := if x in s then s else s + [x];
    assert Distinct(q) && (forall u :: u in q <==> u in s || u == x) by {
      if x !in s { AppendMembers(s, x); }
    }
    var k := IndexIn(q, x);
    assert forall j :: 0 <= j < |s| && s[j] == x ==> j == k;
    assert x !in s ==> k == |s| && q[k..] == [x] && q[1..k] == s[1..];
    SwitchMembers(q, k);
    q[k..] + q[1..k]
  }

  /** Two sequences that differ at most at `i` agree once both are
      updated there. */
  lemma UpdateSame<T>(a: seq<T>, b: seq<T>, i: nat, x: T)
    requires i < |a| == |b| && a == b[i := a[i]]
    ensures a[i := x] == b[i := x]
  {
  }
}
