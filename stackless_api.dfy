/** The scheduling functions of the `stackless` module, as transitions of
    the calling thread's scheduler state. */
module StacklessApi {
  import opened Types
  import opened Channels
  import opened Tasklets
  import opened Scheduler

  /** `stackless.run()`: the main tasklet leaves the run-queue and the
      scheduler runs the other tasklets; main gets control back once the
      run-queue runs empty. */
  function RunAll(st: State): (r: Result<State>)
    requires Ready(st)
    ensures r.Err? <==> st.runq[0] != Main
    ensures r.Err? ==> r.error == NotMainTasklet
    ensures r.Ok? ==> Ready(r.value) && |r.value.tasks| == |st.tasks| && |r.value.chans| == |st.chans|
    ensures r.Ok? && |st.runq| == 1 ==> r.value == st.(nested := false, ret := PyNone)
    ensures r.Ok? && r.value.runq[0] == Main ==> !r.value.nested
  {
    if st.runq[0] != Main then Err(NotMainTasklet)
    else
      TailMembers(st.runq);
      var s1 := st.(runq := st.runq[1..], nested := true);
      WaitFrame(st, s1);
      Ok(Dispatch(Fill(s1)))
  }

  /** The current tasklet gives up control: it leaves the head of the
      run-queue for its tail (or leaves it altogether) and will pick up `v`
      when it runs again. */
  function Yield(st: State, v: Value, requeue: bool): (r: State)
    requires Ready(st)
    ensures Inv(r) && (requeue ==> Valid(r))
    ensures |r.tasks| == |st.tasks| && r.chans == st.chans && r.nested == st.nested && r.ret == st.ret
    ensures r.tasks == st.tasks[st.runq[0] := st.tasks[st.runq[0]].(tempval := v)]
    ensures requeue ==> r.runq == st.runq[1..] + [st.runq[0]]
    ensures !requeue ==> r.runq == st.runq[1..]
  {
    var h := st.runq[0];
    var s1 := SetBody(st, h, Driven, v);
    TailMembers(st.runq);
    var q := if requeue then st.runq[1..] + [h] else st.runq[1..];
    assert Distinct(q) && forall u :: u in q ==> u in st.runq by {
      if requeue { AppendMembers(st.runq[1..], h); }
    }
    var r := s1.(runq := q);
    RunqSub(s1, r);
    r
  }

  /** The value `schedule(retval)` or `schedule_remove(retval)` gives back:
      `retval`, or the current tasklet when it is omitted. */
  function RetvalOf(st: State, retval: Option<Value>): (v: Value)
    requires Valid(st)
    ensures retval.Some? ==> v == retval.value
    ensures retval.None? ==> v == Ref(st.runq[0])
  {
    if retval.Some? then retval.value else Ref(st.runq[0])
  }

  /** `stackless.schedule(retval)`: the current tasklet moves to the end of
      the run-queue and the next one runs. It stays scheduled and, when it
      next gets control, the call returns `retval`. */
  function Schedule(st: State, retval: Option<Value>): (r: State)
    requires Ready(st)
    ensures Ready(r) && |r.tasks| == |st.tasks| && |r.chans| == |st.chans|
    ensures st.runq[0] in r.runq
    ensures r.runq[0] == st.runq[0] ==> r.ret == RetvalOf(st, retval)
    ensures |st.runq| == 1 ==> r.runq == st.runq && r.ret == RetvalOf(st, retval)
    ensures r.runq[0] != st.runq[0] ==> r.tasks[st.runq[0]] == st.tasks[st.runq[0]].(tempval := RetvalOf(st, retval))
  {
    var h := st.runq[0];
    var s1 := Yield(st, RetvalOf(st, retval), true);
    assert h in s1.runq by { assert s1.runq[|s1.runq| - 1] == h; }
    DispatchDelivers(s1, h);
    Dispatch(s1)
  }

  /** `stackless.schedule_remove(retval)`: the current tasklet leaves the
      run-queue, paused; unless it is main it stays paused, untouched, until
      something inserts it, and the call then returns `retval`. */
  function ScheduleRemove(st: State, retval: Option<Value>): (r: State)
    requires Ready(st)
    ensures Ready(r) && |r.tasks| == |st.tasks| && |r.chans| == |st.chans|
    ensures st.runq[0] != Main ==> st.runq[0] !in r.runq
    ensures st.runq[0] != Main ==> r.tasks[st.runq[0]] == st.tasks[st.runq[0]].(tempval := RetvalOf(st, retval))
    ensures st.runq == [Main] ==> r.runq == [Main] && r.ret == RetvalOf(st, retval)
  {
    var h := st.runq[0];
    var s1 := Yield(st, RetvalOf(st, retval), false);
    TailMembers(st.runq);
    var s2 := Fill(s1);
    if h != Main then
      DispatchKeepsPaused(s2, h);
      Dispatch(s2)
    else
      Dispatch(s2)
  }
}
