# Stackless tasklets, channels and schedulers — a Dafny model

The Stackless conformance suite pins down how the `stackless` module must behave:
- the tasklet lifecycle (not alive, bound, paused, scheduled, current, blocked) with its observable flags;
- channel bookkeeping (`balance`, the FIFO wait queue behind `queue`/`next`, `closing`/`closed`, the `preference` and `schedule_all` coercions, `send_sequence` and iteration);
- the per-thread scheduler (`main`, `current`, `runcount`, `schedule`/`schedule_remove`, `atomic`, `get_thread_info`, `threads`).

The suite contains no scheduler, so this project models the behaviour that those tests describe.

**State.** One thread's scheduler is a value `Scheduler.State`:
- a table of tasklet records;
- the run-queue, whose head is the current tasklet;
- the table of channels, each with its wait queue;
- a flag for "main sits in `stackless.run()`";
- `ret`, the value the current tasklet's last call evaluates to.

`Scheduler.Valid` is the invariant. It says that:
- the run-queue holds distinct live tasklets that wait nowhere;
- every channel holds exactly one waiter per unit of `|balance|`;
- every waiter is recorded as parked on that channel, and vice versa;
- main is alive.

**Operations.** Every tasklet method (`TaskletApi`), module function (`StacklessApi`) and channel method (`ChannelApi`) is a function from a state to a state, or to an error that leaves the state unchanged. Each one preserves `Ready` (`Valid` plus a current tasklet that runs its own code).

**Tasklet bodies.** A tasklet body is abstract:
- a `Callback` is a Python function whose statements the caller plays one by one;
- `Producer` and `Consumer` stand for the bodies `c.send(v)`, `c.receive()` and `while True: c.receive()`, which the tests start as tasklets.

`Scheduler.Dispatch` is the scheduler loop. It runs those bodies, delivers pending kills and ends finished functions until the current tasklet is one that runs its own code. Its termination is proved with a lexicographic measure: items still to send plus parked senders, then runnable tasklets. `Progress` adds that a tasklet blocked on a channel gets control back only with an exception or once that pending work has shrunk, which is what makes `list(c)` (`ChannelApi.Iterate`) end.

**Runtime layer.** `Runtime.ThreadScheduler` is the same scheduler as a mutable object: the tables are fields that its methods update in place, and `RunScheduler` runs the dispatch loop as a `while` loop. Each method is proved to leave the object in exactly the state the corresponding transition function gives. Every property proved about the transitions therefore holds of the object.

**Threads and scenarios.**
- `Threads.Registry` maps live thread ids to their scheduler states (`stackless.threads`, `get_thread_info`).
- `Scenarios` replays individual tests step by step on a fresh scheduler object, as the test code does, and proves what each test asserts.

## Model

Paths are relative to the repository root.

| member | source | states |
|---|---|---|
| Tasklets.NewTasklet | stackless_testsuite/v3_1/tasklet/test_functionality.py:111-121 | a new tasklet is not alive, not atomic, waits nowhere, and holds `f` (or None) as tempval |
| Tasklets.Corpse | stackless_testsuite/v3_1/tasklet/test_functionality.py:247-275 | a tasklet whose frame is gone is not alive, unbound, waits nowhere and has tempval None; its atomic flag is kept |
| Tasklets.BoundValue | stackless_testsuite/v3_1/tasklet/test_functionality.py:85-88 | the tempval of a non-alive tasklet is None exactly when it is unbound |
| Tasklets.BodyOf | stackless_testsuite/v3_1/channel/test_functionality.py:190-196 | a Python callback runs its own code; `c.send`/`c.receive` become the matching channel loop |
| Channels.NewChan | stackless_testsuite/v3_1/channel/test_functionality.py:190-192 | a new channel has balance 0, is neither closing nor closed, has no queue, preference -1 and schedule_all 0 |
| Channels.Queue | stackless_testsuite/v3_1/channel/test_functionality.py:235-246 | `queue` is None exactly when balance is 0, otherwise the longest-waiting tasklet |
| Channels.NextWaiter | stackless_testsuite/v3_1/channel/test_functionality.py:246 | `next` of a waiter is its successor in the wait queue, None for the last one |
| Channels.Park | stackless_testsuite/v3_1/channel/test_functionality.py:194-201 | a blocked sender raises balance by 1, a blocked receiver lowers it by 1, and the waiter joins the tail of the queue |
| Channels.Unpark | stackless_testsuite/v3_1/channel/test_functionality.py:96-109 | a hand-off takes the head of the wait queue; `|balance|` drops by 1 without changing sign |
| Channels.Withdraw | stackless_testsuite/v3_1/channel/test_functionality.py:202-213 | removing a killed waiter moves balance one step toward 0; the new queue is the old one with that waiter cut out, the others in their order |
| Channels.Close | stackless_testsuite/v3_1/channel/test_functionality.py:227-229 | `close()` sets closing; the channel is closed exactly when balance is 0 |
| Channels.Open | stackless_testsuite/v3_1/channel/test_functionality.py:231-233 | `open()` clears closing, so the channel is not closed, and leaves the wait queue alone |
| Channels.Closed | stackless_testsuite/v3_1/channel/test_functionality.py:215-233 | `closed` implies `closing`; for a well-formed channel it holds exactly when the channel is closing and nobody waits on it |
| Channels.PreferenceOf | stackless_testsuite/v3_1/channel/test_functionality.py:146-165 | an int is clamped to [-1, 1], True stores 1 and False 0, a float raises TypeError |
| Channels.ScheduleAllOf | stackless_testsuite/v3_1/channel/test_functionality.py:167-188 | nonzero ints and True store 1, 0 and False store 0, a float raises TypeError |
| Channels.SetPreference | stackless_testsuite/v3_1/channel/test_functionality.py:158 | the coerced value is stored; on a TypeError nothing changes |
| Channels.SetScheduleAll | stackless_testsuite/v3_1/channel/test_functionality.py:185 | the coerced value is stored; on a TypeError nothing changes |
| Scheduler.Init | stackless_testsuite/v3_1/test_functionality.py:168-174 | a new thread's scheduler holds only its main tasklet, which is current |
| Scheduler.FlagsOf | stackless_testsuite/v3_1/tasklet/test_functionality.py:56-79 | the flags agree with each other: is_current implies scheduled; scheduled, blocked, paused and is_main imply alive; a live tasklet is paused, scheduled or blocked, never scheduled and blocked at once; only main can be non-restorable (paused is derived as alive, not scheduled, not blocked; restorable is false only for main inside `run()`); a dead tasklet's tempval is its function or None; block_trap and ignore_nesting are false |
| Scheduler.Current | stackless_testsuite/v3_1/test_functionality.py:149-166 | `current` is a live tasklet whose is_current flag is set, and no other tasklet has that flag |
| Scheduler.RunCount | stackless_testsuite/v3_1/test_functionality.py:181-212 | the run count is at least 1, and is 1 exactly when no tasklet but the current one is scheduled |
| Scheduler.RunCountScheduled | stackless_testsuite/v3_1/test_functionality.py:181-212 | the run count is the number of tasklets whose scheduled flag is set |
| Scheduler.Refill | stackless_testsuite/v3_1/tasklet/test_functionality.py:346-359 | once the run-queue runs empty, main gets control back; if it was blocked it is woken with a deadlock error |
| Scheduler.Unwait | stackless_testsuite/v3_1/channel/test_functionality.py:202-213 | a parked tasklet leaves its channel's wait queue, which keeps its other waiters, and is left paused |
| Scheduler.DieHead | stackless_testsuite/v3_1/tasklet/test_functionality.py:361-379 | the current tasklet's frame ends and the next scheduled one is at the head |
| Scheduler.BlockHead | stackless_testsuite/v3_1/channel/test_functionality.py:193-196 | the current tasklet parks at the tail of the channel's wait queue and leaves the run-queue |
| Scheduler.ParkHead | stackless_testsuite/v3_1/channel/test_functionality.py:193-196 | exact new state after parking: head record updated, channel parked, run-queue without its head |
| Scheduler.Wake | stackless_testsuite/v3_1/channel/test_functionality.py:96-109 | the longest waiter leaves the channel with the value handed to it and joins the tail of the run-queue |
| Scheduler.Bury | stackless_testsuite/v3_1/tasklet/test_functionality.py:267-275 | a paused tasklet's frame ends and nothing else changes |
| Scheduler.Detach | stackless_testsuite/v3_1/tasklet/test_functionality.py:187-195 | killing a non-current tasklet makes it a corpse and takes it off the run-queue or its channel |
| Scheduler.Unqueue | stackless_testsuite/v3_1/tasklet/test_functionality.py:177-185 | a scheduled, non-current tasklet leaves the run-queue; the current tasklet and the other members stay |
| Scheduler.Resume | stackless_testsuite/v3_1/test_functionality.py:80-93 | a resumed tasklet's call returns the tempval left for it, and the tempval is cleared |
| Scheduler.SetBody | stackless_testsuite/v3_1/channel/test_functionality.py:96-109 | only the body and tempval of one tasklet change |
| Scheduler.RaiseEffect | stackless_testsuite/v3_1/channel/test_functionality.py:96-109 | an exception inside `send_sequence` reaches its caller, which keeps control with the exception as its result and nothing else changes; a producer tasklet dies of it and leaves the run-queue |
| Scheduler.SendHandOff | stackless_testsuite/v3_1/channel/test_functionality.py:96-109 | the longest-waiting receiver gets the next item, leaves the wait queue and joins the run-queue tail; the sender keeps control with the rest of its items |
| Scheduler.HandOffTasks | stackless_testsuite/v3_1/channel/test_functionality.py:96-109 | a hand-off changes exactly two records: the receiver holds the item and waits nowhere, the sender has one item fewer and one more sent |
| Scheduler.SendStepEffect | stackless_testsuite/v3_1/channel/test_functionality.py:96-109 | a send loop with no item left returns its count to `send_sequence`'s caller, with everything else unchanged, or ends its producer tasklet |
| Scheduler.SendStepHandOff | stackless_testsuite/v3_1/channel/test_functionality.py:96-109 | a send loop with an item left and a receiver waiting hands the item to the longest-waiting receiver, which is scheduled, and goes on with the rest |
| Scheduler.SendStepNoReceiver | stackless_testsuite/v3_1/channel/test_functionality.py:193-201 | with no receiver waiting, a send loop raises ChannelClosed on a closing channel and Deadlock when it is alone; otherwise it parks at the tail of the wait queue with its next item |
| Scheduler.RecvStepEffect | stackless_testsuite/v3_1/channel/test_functionality.py:202-213 | with a sender waiting, a receive loop takes from the longest-waiting one, which is scheduled with None; on a closing channel the consumer ends; otherwise it parks at the queue tail |
| Scheduler.Step | stackless_testsuite/v3_1/channel/test_functionality.py:96-109 | one scheduler step keeps the invariant and the table sizes |
| Scheduler.StepBelow | stackless_testsuite/v3_1/channel/test_functionality.py:96-109 | every scheduler step either settles or strictly decreases the termination measure |
| Scheduler.StepFrame | stackless_testsuite/v3_1/test_functionality.py:95-117 | a step leaves alone every tasklet that is neither current nor parked |
| Scheduler.Dispatch | stackless_testsuite/v3_1/tasklet/test_functionality.py:346-359 | the scheduler loop ends with a current tasklet that runs its own code; main in control means `run()` has returned |
| Scheduler.DispatchKeepsPaused | stackless_testsuite/v3_1/test_functionality.py:95-117 | a removed tasklet does not run again, and is not changed, unless something inserts it |
| Scheduler.DispatchDelivers | stackless_testsuite/v3_1/test_functionality.py:80-93 | a scheduled tasklet stays scheduled; when it gets control it receives the value it was left |
| TaskletApi.Create | stackless_testsuite/v3_1/tasklet/test_functionality.py:111-121 | `tasklet(f)` appends a new record and changes nothing else |
| TaskletApi.Paused | stackless_testsuite/v3_1/tasklet/test_functionality.py:95-98 | in a valid state, a tasklet is paused exactly when its paused flag is set |
| TaskletApi.Bind | stackless_testsuite/v3_1/tasklet/test_functionality.py:123-153 | bind fails exactly on a scheduled, blocked or main tasklet; otherwise it yields not alive, bound or paused |
| TaskletApi.Setup | stackless_testsuite/v3_1/tasklet/test_functionality.py:155-175 | setup fails exactly when alive or unbound; otherwise the tasklet is alive and at the tail of the run-queue |
| TaskletApi.Insert | stackless_testsuite/v3_1/tasklet/test_functionality.py:197-205 | insert succeeds exactly on a paused tasklet and appends it to the run-queue |
| TaskletApi.Remove | stackless_testsuite/v3_1/tasklet/test_functionality.py:177-185 | remove fails on the current or a blocked tasklet; otherwise the tasklet leaves the run-queue and the rest is kept; an unscheduled tasklet is left as it is |
| TaskletApi.KillPending | stackless_testsuite/v3_1/tasklet/test_functionality.py:207-215 | `kill(pending=True)` schedules the tasklet, off any channel, with TaskletExit as tempval |
| TaskletApi.MarkKilled | stackless_testsuite/v3_1/tasklet/test_functionality.py:207-215 | a pending kill is recorded and the tasklet is scheduled (appended if it was paused) |
| TaskletApi.Kill | stackless_testsuite/v3_1/tasklet/test_functionality.py:187-195 | kill fails exactly on main; kill of a dead tasklet does nothing; an immediate kill leaves it not alive and unbound, a pending one is `KillPending` |
| TaskletApi.KillCurrent | stackless_testsuite/v3_1/tasklet/test_functionality.py:361-379 | a tasklet that kills itself is a corpse that is no longer scheduled |
| TaskletApi.Finish | stackless_testsuite/v3_1/tasklet/test_functionality.py:277-292 | a tasklet whose function returns is not alive and unbound |
| TaskletApi.Run | stackless_testsuite/v3_1/tasklet/test_functionality.py:277-292 | run fails exactly on a dead or blocked tasklet; otherwise it turns the run-queue to the target and dispatches |
| TaskletApi.RunFirst | stackless_testsuite/v3_1/tasklet/test_functionality.py:311-325 | the run-queue is rotated so the target is first, or the target is prepended if it was paused |
| TaskletApi.Switch | stackless_testsuite/v3_1/tasklet/test_functionality.py:294-309 | switch fails exactly on a dead or blocked tasklet; otherwise the target becomes head without the caller |
| TaskletApi.SwitchFirst | stackless_testsuite/v3_1/tasklet/test_functionality.py:328-344 | the run-queue is rotated so the target is first; the caller leaves it |
| TaskletApi.SetAtomic | stackless_testsuite/v3_1/test_functionality.py:48-64 | `set_atomic(flag)` returns the old flag, stores the new one and changes nothing else |
| StacklessApi.RunAll | stackless_testsuite/v3_1/tasklet/test_functionality.py:346-359 | `run()` fails outside main; with nothing else scheduled it returns at once |
| StacklessApi.Yield | stackless_testsuite/v3_1/test_functionality.py:80-117 | the caller stores its return value and moves to the tail, or leaves the run-queue |
| StacklessApi.RetvalOf | stackless_testsuite/v3_1/test_functionality.py:80-93 | the return value is `retval`, or the current tasklet when it is omitted |
| StacklessApi.Schedule | stackless_testsuite/v3_1/test_functionality.py:80-93 | the caller stays scheduled; a lone caller gets retval back at once |
| StacklessApi.ScheduleRemove | stackless_testsuite/v3_1/test_functionality.py:95-117 | a caller other than main ends up paused, holding retval |
| ChannelApi.NewChannel | stackless_testsuite/v3_1/channel/test_functionality.py:190-192 | `channel()` appends a new channel and changes nothing else |
| ChannelApi.CloseChannel | stackless_testsuite/v3_1/channel/test_functionality.py:140-144 | close returns None, sets closing, and closed holds exactly when balance is 0 |
| ChannelApi.OpenChannel | stackless_testsuite/v3_1/channel/test_functionality.py:134-138 | open returns None and clears closing and closed |
| ChannelApi.AssignPreference | stackless_testsuite/v3_1/channel/test_functionality.py:146-165 | the attribute set fails exactly on a float; otherwise only that channel's preference changes |
| ChannelApi.AssignScheduleAll | stackless_testsuite/v3_1/channel/test_functionality.py:167-188 | the attribute set fails exactly on a float; otherwise only that channel's schedule_all changes |
| ChannelApi.WouldDeadlock | stackless_testsuite/v3_1/channel/test_functionality.py:117-132 | blocking would deadlock exactly when main is current and no other tasklet is scheduled |
| ChannelApi.Send | stackless_testsuite/v3_1/channel/test_functionality.py:50-60 | a waiting receiver gets the value and is scheduled; otherwise the caller blocks, or fails on a closing channel or deadlock |
| ChannelApi.Receive | stackless_testsuite/v3_1/channel/test_functionality.py:117-132 | a waiting sender's value is returned and the sender is scheduled; otherwise the caller blocks or fails |
| ChannelApi.Take | stackless_testsuite/v3_1/channel/test_functionality.py:117-132 | receive from the longest-waiting sender returns its value, schedules it and lowers balance by 1 |
| ChannelApi.SendSequence | stackless_testsuite/v3_1/channel/test_functionality.py:96-109 | an empty sequence returns 0 and changes nothing else |
| ChannelApi.QueueOf | stackless_testsuite/v3_1/channel/test_functionality.py:235-246 | `queue` is None exactly when balance is 0, otherwise the head waiter, which is parked on the channel |
| ChannelApi.NextOf | stackless_testsuite/v3_1/channel/test_functionality.py:246 | `t.next` is defined exactly when `t` is not last in its wait queue, and is its successor there |
| ChannelApi.IterChannel | stackless_testsuite/v3_1/channel/test_functionality.py:111-115 | `iter(c)` returns `c` and changes nothing |
| ChannelApi.ReceiveProgress | stackless_testsuite/v3_1/channel/test_functionality.py:117-132 | a `receive` that gives control back to its caller without an exception has used up pending work: a parked sender or an item still to be sent |
| ChannelApi.Iterate | stackless_testsuite/v3_1/channel/test_functionality.py:117-132 | `next()` repeated until it raises: the caller stays current unless the iteration is suspended, no value is an exception, and at most as many values come as there was pending work |
| ChannelApi.IterateOk | stackless_testsuite/v3_1/channel/test_functionality.py:117-132 | one `next()`: StopIteration ends the iteration quietly, another exception ends it raising, a value comes first and the iteration goes on |
| ChannelApi.IterateEnds | stackless_testsuite/v3_1/channel/test_functionality.py:117-132 | a `next()` that fails ends the iteration with its error and no values; one that leaves another tasklet in control suspends it |
| Progress.StepWork | stackless_testsuite/v3_1/channel/test_functionality.py:96-109 | no scheduler step increases the pending work |
| Progress.DispatchBlocked | stackless_testsuite/v3_1/channel/test_functionality.py:117-132 | a tasklet blocked on a channel gets control back from the scheduler loop only with an exception or after the pending work has strictly decreased |
| ChannelProps.OneShotParks | stackless_testsuite/v3_1/channel/test_functionality.py:193-201 | `tasklet(c.send)(v)` then `run()` leaves the sender parked at the queue tail with balance +1; for a receiver, -1 |
| ChannelProps.KillWaiter | stackless_testsuite/v3_1/channel/test_functionality.py:202-213 | killing a waiter moves balance one step toward 0 and cuts it out of the wait queue, the others keeping their order |
| ChannelProps.ClosedWhenLastWaiterLeaves | stackless_testsuite/v3_1/channel/test_functionality.py:227-230 | a closing channel whose last waiter is killed becomes closed; with waiters left it is not closed |
| ChannelProps.CloseOpenFlags | stackless_testsuite/v3_1/channel/test_functionality.py:224-233 | with a waiter, close gives closing without closed, and open clears both |
| ChannelProps.SecondSenderQueuesBehind | stackless_testsuite/v3_1/channel/test_functionality.py:240-246 | a second sender parks behind the first: `queue` is unchanged and the first one's `next` is the new sender |
| ChannelProps.EchoFromSending | stackless_testsuite/v3_1/channel/test_functionality.py:96-109 | while a forever-receiver is scheduled, the send loop returns the total number of items sent |
| ChannelProps.EchoFromWaiting | stackless_testsuite/v3_1/channel/test_functionality.py:96-109 | while a forever-receiver is parked, the send loop returns the total number of items sent |
| ChannelProps.SendSequenceCount | stackless_testsuite/v3_1/channel/test_functionality.py:96-109 | `send_sequence(items)` to a receiver that loops forever returns `len(items)` |
| ChannelProps.IterateInSendOrder | stackless_testsuite/v3_1/channel/test_functionality.py:117-132 | iteration yields the parked senders' values in send order up to the first exception; when one is queued, values and end are exactly these (StopIteration ends quietly) |
| ChannelProps.ProducerStarts | stackless_testsuite/v3_1/channel/test_functionality.py:121-130 | `tasklet(f)()` then `run()`: `f`'s `send_sequence` parks with its first item and main is back in control |
| ChannelProps.IterateParkedProducer | stackless_testsuite/v3_1/channel/test_functionality.py:117-132 | with the producer parked on an item, `list(c)` gives exactly the items before the first exception and ends as that exception says; with none, it ends in Deadlock |
| ChannelProps.IterateRunningProducer | stackless_testsuite/v3_1/channel/test_functionality.py:117-132 | the same while the producer is scheduled behind main |
| Lifecycle.DeadIsAside | stackless_testsuite/v3_1/tasklet/test_functionality.py:80-83 | a tasklet that is not alive is neither scheduled nor blocked, and is not main |
| Lifecycle.ExactlyOneState | stackless_testsuite/v3_1/tasklet/test_functionality.py:56-109 | a live tasklet is exactly one of paused, scheduled and blocked; a dead one is none of them |
| Lifecycle.NotAliveFlags | stackless_testsuite/v3_1/tasklet/test_functionality.py:80-83 | `assert_state_notalive` holds exactly of a tasklet that is not alive, unbound and not atomic |
| Lifecycle.BoundFlags | stackless_testsuite/v3_1/tasklet/test_functionality.py:85-88 | `assert_state_bound(t, f)` holds exactly of a tasklet that is not alive, bound to `f` and not atomic |
| Lifecycle.ScheduledFlags | stackless_testsuite/v3_1/tasklet/test_functionality.py:90-93 | `assert_state_scheduled` holds exactly of a non-atomic tasklet on the run-queue behind the current one (main only outside `run()`) |
| Lifecycle.PausedFlags | stackless_testsuite/v3_1/tasklet/test_functionality.py:95-98 | `assert_state_paused` holds exactly of a paused, non-atomic tasklet with tempval None (main only outside `run()`) |
| Lifecycle.CurrentFlags | stackless_testsuite/v3_1/tasklet/test_functionality.py:100-103 | `assert_state_current` holds exactly of the current tasklet when it is not main, not atomic and has tempval None |
| Lifecycle.InSchedulerFlags | stackless_testsuite/v3_1/tasklet/test_functionality.py:105-109 | `assert_state_scheduler` holds exactly of main while it sits in `run()` and another tasklet has control |
| Lifecycle.CreateFlags | stackless_testsuite/v3_1/tasklet/test_functionality.py:111-121 | `tasklet()` is in state notalive and `tasklet(f)` in state bound to `f` |
| Lifecycle.BindFlags | stackless_testsuite/v3_1/tasklet/test_functionality.py:123-153 | `bind()` and `bind(None)` give notalive, `bind(f)` gives bound, `bind(f, args)` gives paused |
| Lifecycle.BindScheduledFails | stackless_testsuite/v3_1/tasklet/test_functionality.py:385-398 | bind of a scheduled tasklet raises "tasklet is scheduled" |
| Lifecycle.SetupFlags | stackless_testsuite/v3_1/tasklet/test_functionality.py:155-175 | setup of a bound tasklet gives state scheduled |
| Lifecycle.RemoveFlags | stackless_testsuite/v3_1/tasklet/test_functionality.py:177-185 | remove of a scheduled tasklet gives state paused |
| Lifecycle.InsertFlags | stackless_testsuite/v3_1/tasklet/test_functionality.py:197-205 | insert of a paused tasklet gives state scheduled |
| Lifecycle.KillPendingFlags | stackless_testsuite/v3_1/tasklet/test_functionality.py:207-215 | `kill(pending=True)` of a paused tasklet gives state scheduled with TaskletExit as tempval |
| Lifecycle.KillFlags | stackless_testsuite/v3_1/tasklet/test_functionality.py:187-195 | kill of a scheduled or paused tasklet gives state notalive |
| Lifecycle.KillSelfFlags | stackless_testsuite/v3_1/tasklet/test_functionality.py:361-379 | a tasklet that kills itself is in state notalive |
| Lifecycle.RunFlags | stackless_testsuite/v3_1/tasklet/test_functionality.py:282-285 | during `t.run()`, `t` is current and the caller stays scheduled |
| Lifecycle.SwitchFlags | stackless_testsuite/v3_1/tasklet/test_functionality.py:296-299 | during `t.switch()`, `t` is current and the caller is paused |
| Lifecycle.RunAllFlags | stackless_testsuite/v3_1/tasklet/test_functionality.py:346-349 | during `stackless.run()`, the first scheduled tasklet is current and main is in the scheduler state |
| Lifecycle.FinishHandsOver | stackless_testsuite/v3_1/test_functionality.py:95-117 | when a function returns, the next scheduled tasklet becomes current with its tempval, and nothing else changes |
| Lifecycle.RunToFront | stackless_testsuite/v3_1/tasklet/test_functionality.py:277-292 | `t.run()` of a paused or last-scheduled tasklet puts `t` first, with the others behind it in their order |
| Lifecycle.RunThenFinish | stackless_testsuite/v3_1/tasklet/test_functionality.py:277-325 | after `t.run()` and `t`'s return, the caller is back, `t` is a corpse, and nothing else has changed |
| Lifecycle.SwitchThenFinish | stackless_testsuite/v3_1/tasklet/test_functionality.py:294-344 | after `t.switch()` from main and `t`'s return, main is back alone, `t` is a corpse, and nothing else has changed |
| Lifecycle.RunAllThenFinish | stackless_testsuite/v3_1/tasklet/test_functionality.py:346-359 | after `run()` with one tasklet that returns, main is back, `t` is a corpse, and nothing else has changed |
| SchedulerProps.FreshThread | stackless_testsuite/v3_1/test_functionality.py:168-174 | in a new thread, main is current and the run count is 1 |
| SchedulerProps.RuncountAroundRun | stackless_testsuite/v3_1/test_functionality.py:181-212 | the run count rises by exactly 1 on `tasklet(f)()` and stays there inside `tlet.run()`; after `f` returns it is back, main is current, and only the corpse differs |
| SchedulerProps.SetupRunFinish | stackless_testsuite/v3_1/test_functionality.py:194-212 | setup, run and return of a bound tasklet change nothing but that tasklet, which ends as a corpse |
| SchedulerProps.RunCountDuringRun | stackless_testsuite/v3_1/test_functionality.py:207-209 | `t.run()` of a scheduled tasklet makes it current without changing the run count |
| SchedulerProps.SetupRunnable | stackless_testsuite/v3_1/test_functionality.py:194-198 | setting up a bound callback appends it to the run-queue, alive and ready to run |
| SchedulerProps.ThreadInfoDuringRun | stackless_testsuite/v3_1/test_functionality.py:217-228 | inside `task.run()` from main, `get_thread_info` is `(main, task, 2)`; afterwards main is current |
| SchedulerProps.ScheduleReturnsRetval | stackless_testsuite/v3_1/test_functionality.py:80-93 | `schedule(o)` returns `o` once another tasklet schedules back; `schedule()` returns the current tasklet |
| SchedulerProps.ScheduleRemoveReturnsRetval | stackless_testsuite/v3_1/test_functionality.py:95-117 | after `schedule_remove(o)` the caller is paused; once re-inserted and scheduled it runs and gets `o` |
| SchedulerProps.AtomicContext | stackless_testsuite/v3_1/test_functionality.py:48-64 | inside `atomic()` the flag is True whatever it was; leaving restores it, and `set_atomic(old)` restores the table |
| SchedulerProps.RunAllHandsOver | stackless_testsuite/v3_1/test_functionality.py:113-116 | `run()` makes the first scheduled tasklet current with its tempval; main leaves the run-queue |
| SchedulerProps.ScheduleHandsOver | stackless_testsuite/v3_1/test_functionality.py:107-110 | `schedule()` with one tasklet behind swaps the two; the caller will get itself back |
| SchedulerProps.ScheduleRemoveHandsOver | stackless_testsuite/v3_1/test_functionality.py:103-104 | `schedule_remove(o)` leaves the caller off the run-queue holding `o`; the next tasklet runs |
| Threads.ThreadInfo | stackless_testsuite/v3_1/test_functionality.py:217-237 | `get_thread_info` is (main, current, runcount); the count is at least 1, and is 1 exactly when only the current tasklet is scheduled |
| Threads.IdleThreadInfo | stackless_testsuite/v3_1/test_functionality.py:230-237 | a thread with only main scheduled reports `(m, m, 1)` |
| Threads.Registry.constructor | stackless_testsuite/v3_1/test_functionality.py:239-247 | the interpreter starts with the main thread first in `threads` |
| Threads.Registry.StartThread | stackless_testsuite/v3_1/test_functionality.py:168-174 | a new thread joins `threads` with a fresh scheduler |
| Threads.Registry.ExitThread | stackless_testsuite/v3_1/test_functionality.py:239-247 | an ended thread leaves `threads`, the others keep their order, and the main thread stays first |
| Threads.Registry.Update | stackless_testsuite/v3_1/test_functionality.py:239-247 | one thread's scheduler state is replaced and the thread list is kept |
| Threads.Registry.Threads | stackless_testsuite/v3_1/test_functionality.py:239-247 | `threads` has the main thread at index 0; as a set it is the set of live threads |
| Threads.Registry.GetThreadInfo | stackless_testsuite/v3_1/test_functionality.py:230-237 | a known thread's info is (main, current, runcount); an unknown id raises |
| Threads.StartedThreadInfo | stackless_testsuite/v3_1/test_functionality.py:168-174 | a newly started thread reports `(m, m, 1)` and `threads` is `[main, new]` |
| Runtime.ThreadScheduler.constructor | stackless_testsuite/v3_1/test_functionality.py:168-174 | a new thread's scheduler object is in the initial state |
| Runtime.ThreadScheduler.RunScheduler | stackless_testsuite/v3_1/tasklet/test_functionality.py:346-359 | the scheduler loop ends in exactly the state `Dispatch` gives |
| Runtime.ThreadScheduler.Create | stackless_testsuite/v3_1/tasklet/test_functionality.py:111-121 | in place: the state `TaskletApi.Create` gives, plus the new handle |
| Runtime.ThreadScheduler.Bind | stackless_testsuite/v3_1/tasklet/test_functionality.py:123-153 | in place: the state `TaskletApi.Bind` gives; on error, that error and no change |
| Runtime.ThreadScheduler.Setup | stackless_testsuite/v3_1/tasklet/test_functionality.py:155-175 | in place: the state `TaskletApi.Setup` gives; on error, that error and no change |
| Runtime.ThreadScheduler.Insert | stackless_testsuite/v3_1/tasklet/test_functionality.py:197-205 | in place: the state `TaskletApi.Insert` gives; on error, that error and no change |
| Runtime.ThreadScheduler.Remove | stackless_testsuite/v3_1/tasklet/test_functionality.py:177-185 | searches the run-queue and cuts `t` out: the state `TaskletApi.Remove` gives |
| Runtime.ThreadScheduler.Kill | stackless_testsuite/v3_1/tasklet/test_functionality.py:187-215 | in place: the state `TaskletApi.Kill` gives; on error, that error and no change |
| Runtime.ThreadScheduler.Finish | stackless_testsuite/v3_1/tasklet/test_functionality.py:277-292 | in place: the state `TaskletApi.Finish` gives |
| Runtime.ThreadScheduler.Run | stackless_testsuite/v3_1/tasklet/test_functionality.py:277-292 | in place: the state `TaskletApi.Run` gives; on error, that error and no change |
| Runtime.ThreadScheduler.Switch | stackless_testsuite/v3_1/tasklet/test_functionality.py:294-309 | in place: the state `TaskletApi.Switch` gives; on error, that error and no change |
| Runtime.ThreadScheduler.SetAtomic | stackless_testsuite/v3_1/test_functionality.py:48-64 | in place: returns the old flag and leaves the state `TaskletApi.SetAtomic` gives |
| Runtime.ThreadScheduler.RunAll | stackless_testsuite/v3_1/tasklet/test_functionality.py:346-359 | in place: the state `StacklessApi.RunAll` gives; outside main, an error and no change |
| Runtime.ThreadScheduler.Schedule | stackless_testsuite/v3_1/test_functionality.py:80-93 | in place: the state `StacklessApi.Schedule` gives |
| Runtime.ThreadScheduler.ScheduleRemove | stackless_testsuite/v3_1/test_functionality.py:95-117 | in place: the state `StacklessApi.ScheduleRemove` gives |
| Runtime.ThreadScheduler.NewChannel | stackless_testsuite/v3_1/channel/test_functionality.py:190-192 | in place: the state `ChannelApi.NewChannel` gives, plus the new handle |
| Runtime.ThreadScheduler.Close | stackless_testsuite/v3_1/channel/test_functionality.py:140-144 | in place: the state `ChannelApi.CloseChannel` gives |
| Runtime.ThreadScheduler.Open | stackless_testsuite/v3_1/channel/test_functionality.py:134-138 | in place: the state `ChannelApi.OpenChannel` gives |
| Runtime.ThreadScheduler.SetPreference | stackless_testsuite/v3_1/channel/test_functionality.py:146-165 | in place: the state `ChannelApi.AssignPreference` gives; a float raises and changes nothing |
| Runtime.ThreadScheduler.SetScheduleAll | stackless_testsuite/v3_1/channel/test_functionality.py:167-188 | in place: the state `ChannelApi.AssignScheduleAll` gives; a float raises and changes nothing |
| Runtime.ThreadScheduler.Send | stackless_testsuite/v3_1/channel/test_functionality.py:50-60 | in place: the state `ChannelApi.Send` gives; on error, that error and no change |
| Runtime.ThreadScheduler.Receive | stackless_testsuite/v3_1/channel/test_functionality.py:117-132 | in place: the state `ChannelApi.Receive` gives; on error, that error and no change |
| Runtime.ThreadScheduler.SendSequence | stackless_testsuite/v3_1/channel/test_functionality.py:96-109 | in place: the state `ChannelApi.SendSequence` gives |
| Runtime.ThreadScheduler.Queue | stackless_testsuite/v3_1/channel/test_functionality.py:235-246 | reading `c.queue` gives `ChannelApi.QueueOf` |
| Runtime.ThreadScheduler.Next | stackless_testsuite/v3_1/channel/test_functionality.py:246 | searching the wait queue for `t` gives `ChannelApi.NextOf` |
| Runtime.ThreadScheduler.Collect | stackless_testsuite/v3_1/channel/test_functionality.py:131-132 | the `list(c)` loop of `receive` calls returns exactly the values, end and state `ChannelApi.Iterate` gives |
| Scenarios.Start | stackless_testsuite/v3_1/channel/test_functionality.py:193-194 | `tasklet(c.send)(None)` then `run()` parks one waiter at the queue tail and moves balance by one |
| Scenarios.KillParked | stackless_testsuite/v3_1/channel/test_functionality.py:198-201 | `t.kill()` of a parked tasklet removes it from the channel; balance moves toward 0 |
| Scenarios.BalanceTest | stackless_testsuite/v3_1/channel/test_functionality.py:190-213 | the balances the test reads are 0, 1, 2, 1, 0, -1, -2, -1, 0 |
| Scenarios.ClosingClosedTest | stackless_testsuite/v3_1/channel/test_functionality.py:215-233 | (closing, closed) reads (F,F), (F,F), (T,F), (T,T), (F,F) |
| Scenarios.QueueTest | stackless_testsuite/v3_1/channel/test_functionality.py:235-246 | `queue` is None, then the first sender twice, and the first sender's `next` is the second |
| Scenarios.ScheduleRemoveTest | stackless_testsuite/v3_1/test_functionality.py:95-117 | `done` ends as `[True]` and `schedule_remove(o)` returns `o` |
| Scenarios.InsertWhileAlive | stackless_testsuite/v3_1/test_functionality.py:107-110 | `g`'s loop runs until `f`'s tasklet is dead; by then `done == [True]` and `f` got `o` |
| Scenarios.ReviveOnce | stackless_testsuite/v3_1/test_functionality.py:108-109 | one `insert()` and `schedule()` lets `f` pick up `o` and return |
| Scenarios.RuncountTest | stackless_testsuite/v3_1/test_functionality.py:181-212 | rc1 is 1, the count is rc1+1 after `tasklet(f)()`, `c == [1, 1, rc1+1, rc1+1]`, and it is rc1 at the end |
| Scenarios.SetupCounted | stackless_testsuite/v3_1/test_functionality.py:196-199 | `tasklet(f)()` raises the run count by 1 |
| Scenarios.RuncountInTasklet | stackless_testsuite/v3_1/test_functionality.py:207-212 | `f` reads rc1+1 twice inside `tlet.run()`, and rc1 is read once it has returned |
| Scenarios.RunBoundTaskTest | stackless_testsuite/v3_1/test_functionality.py:217-228 | inside `task.run()`, get_thread_info is (main, task, 2); afterwards main is current |
| Scenarios.PausedCurrentTest | stackless_testsuite/v3_1/tasklet/test_functionality.py:277-309 | every state check passes, and `result` is `[0]` after run and `[1]` after switch |
| Scenarios.BindPaused | stackless_testsuite/v3_1/tasklet/test_functionality.py:286-289 | `bind(f, args)` of a dead tasklet leaves it paused |
| Scenarios.RunOnce | stackless_testsuite/v3_1/tasklet/test_functionality.py:282-292 | inside `t.run()`, `t` is current and main is scheduled; afterwards `t` is not alive |
| Scenarios.SwitchOnce | stackless_testsuite/v3_1/tasklet/test_functionality.py:296-309 | inside `t.switch()`, `t` is current and main is paused; afterwards `t` is not alive |
| Scenarios.NextTest | stackless_testsuite/v3_1/channel/test_functionality.py:117-132 | `list(c)` over a producer that sends 0, 1 and then StopIteration is `[0, 1]`, ended by StopIteration |

## Left out

- Real OS threads, `threading.Thread` and the subprocess interpreter check: a thread is only a key of `Threads.Registry`, with a scheduler state of its own.
- Context switching, frames, tracebacks and exception classes: a tasklet body is abstract, and exceptions are tags of `Error`.
- The one type fact of `testContent.py` (`TaskletExit` subclasses `SystemExit`): recorded as a comment on `Error.TaskletExit` and not modelled further. Name and type checks are not modelled.
- Signature and arity probing (`checkSignature*`, `assertCallableWith0Args`): these check how a call may be spelled. The model takes one fixed spelling per operation, and the arguments passed to `setup`/`bind` are not recorded.
- The Python 2 `long` TypeError branches of the attribute setters: they depend on the integer representation.
- `stackless.run()` flags (timeout, threadblock, soft, ignore_nesting, totaltimeout): `RunAll` models the call without them.
- `get_thread_info` flags: not modelled.
- `send_throw`: not modelled; `send_exception(e)` is `Send` with `Exc(e)`.
- `preference` and `schedule_all` are stored but do not change who runs after a hand-off. No test asserts that ordering, and the model always keeps the caller running and appends the woken tasklet.
- `restorable` is true except for main while it sits in `stackless.run()`. Pickling is not modelled.
- The main tasklet cannot be killed, rebound or finished in the model (`Error.MainTasklet`): no test does any of these, and the thread's end is outside the model.
- ChannelApi.SendSequence: its contract states the empty case and the invariant. The count it returns is proved in `ChannelProps.SendSequenceCount` for the receiver the test uses.
- ChannelApi.Iterate: when a `next()` blocks and the scheduler hands control to a tasklet that runs its own code, the caller stays blocked and the iteration ends `Suspended`; the model does not follow it further. `testSig_next` never reaches that case.
- ChannelProps.IterateInSendOrder: when no exception is among the parked senders' values it states only that these values come first, because what follows depends on the tasklets that run once the queue is empty. For the producer of `testSig_next` the whole result is `IterateParkedProducer`.
- StacklessApi.Schedule: the contract tells what happens to the caller. What the next tasklet receives is in `DispatchDelivers` and the `*HandsOver` lemmas.
- Threads.Registry: `ThreadInfo` for the current thread is read from its state. There is no notion of "the calling thread" beyond the key passed in.
- Where the tests are silent, the model decides:
  - `insert()` of a scheduled tasklet raises `AlreadyScheduled`;
  - `remove()` of a tasklet that is not scheduled does nothing;
  - a send or receive that would leave nothing to run raises `Deadlock`.
- Two behaviours follow what the tests check:
  - a tasklet that calls `t.run()` stays scheduled behind `t` (tasklet/test_functionality.py:282-285 checks it with `assert_state_scheduled`);
  - `bind(f, args)` of a tasklet that is not alive leaves it paused, not scheduled (tasklet/test_functionality.py:197-205 and 217-245 check `assert_state_paused` right after it).
