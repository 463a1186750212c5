/** The interpreter-wide registry of threads, each with its own scheduler
    state: `stackless.threads` and `stackless.get_thread_info`. OS threads
    themselves are not modelled, only their ids. */
module Threads {
  import opened Types
  import opened Scheduler

  /** `get_thread_info(id)` of a thread's scheduler: its main tasklet, its
      current tasklet and its run count. */
  function ThreadInfo(st: State): (r: (Tid, Tid, nat))
    requires Valid(st)
    ensures r.0 == Main && r.1 == Current(st) && r.2 == RunCount(st)
    ensures r.2 >= 1 && (r.2 == 1 <==> st.runq == [r.1])
  {
    (Main, Current(st), RunCount(st))
  }

  /** A thread with nothing scheduled but its current tasklet, in
      particular one that has just started, reports `(m, m, 1)` when that
      tasklet is main. */
  lemma IdleThreadInfo(st: State)
    requires Valid(st) && st.runq == [Main]
    ensures ThreadInfo(st) == (Main, Main, 1)
  {
  }

  class Registry {
    /** The id of the interpreter's main thread. */
    const mainThread: nat
    /** `stackless.threads`: live thread ids, the main thread first. */
    var ids: seq<nat>
    /** The scheduler state of every live thread. */
    var scheds: map<nat, State>

    ghost predicate Valid()
      reads this
    {
      && |ids| >= 1 && ids[0] == mainThread && Distinct(ids)
      && (forall id :: id in scheds <==> id in ids)
      && (forall id :: id in scheds ==> Ready(scheds[id]))
    }

    /** The interpreter starts with its main thread only. */
    constructor (main: nat)
      ensures Valid() && mainThread == main && ids == [main] && scheds == map[main := Init()]
    {
      mainThread := main;
      ids := [main];
      scheds := map[main := Init()];
    }

    /** A new thread with id `id` starts; it gets a fresh scheduler. */
    method StartThread(id: nat)
      requires Valid() && id !in ids
      modifies this
      ensures Valid() && ids == old(ids) + [id] && scheds == old(scheds)[id := Init()]
    {
      AppendMembers(ids, id);
      ids := ids + [id];
      scheds := scheds[id := Init()];
    }

    /** A thread other than the main thread ends. */
    method ExitThread(id: nat)
      requires Valid() && id in ids && id != mainThread
      modifies this
      ensures Valid() && scheds == old(scheds) - {id}
      ensures forall x :: x in ids <==> x in old(ids) && x != id
      ensures ids[0] == mainThread
      ensures exists k :: 0 <= k < |old(ids)| && old(ids)[k] == id && ids == old(ids)[..k] + old(ids)[k + 1..]
    {
      var k := IndexIn(ids, id);
      RemoveAtMembers(ids, k);
      ids := RemoveAt(ids, k);
      scheds := scheds - {id};
    }

    /** Thread `id` has carried out an operation and is now in state `s`. */
    method Update(id: nat, s: State)
      requires Valid() && id in scheds && Ready(s)
      modifies this
      ensures Valid() && ids == old(ids) && scheds == old(scheds)[id := s]
    {
      scheds := scheds[id := s];
    }

    /** `stackless.threads`: index 0 is the main thread, and as a set the
        list is the set of live threads. */
    method Threads() returns (ts: seq<nat>)
      requires Valid()
      ensures ts == ids
      ensures |ts| >= 1 && ts[0] == mainThread && Distinct(ts)
      ensures forall id :: id in ts <==> id in scheds
    {
      ts := ids;
    }

    /** `stackless.get_thread_info(id)`; an unknown id raises. */
    method GetThreadInfo(id: nat) returns (r: Result<(Tid, Tid, nat)>)
      requires Valid()
      ensures r.Ok? <==> id in scheds
      ensures id !in scheds ==> r == Err(UnknownThread)
      ensures id in scheds ==> r.value == (Main, Current(scheds[id]), RunCount(scheds[id]))
    {
      if id in scheds {
        r := Ok(ThreadInfo(scheds[id]));
      } else {
        r := Err(UnknownThread);
      }
    }
  }

  /** A thread that has just started reports `(m, m, 1)`, and the main
      thread stays first in `stackless.threads`. */
  method StartedThreadInfo(main: nat, id: nat) returns (info: Result<(Tid, Tid, nat)>, ts: seq<nat>)
    requires id != main
    ensures info == Ok((Main, Main, 1))
    ensures ts == [main, id]
  {
    var reg := new Registry(main);
    reg.StartThread(id);
    info := reg.GetThreadInfo(id);
    ts := reg.Threads();
  }
}
