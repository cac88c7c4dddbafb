# CoreTempo, modelled in Dafny

CoreTempo runs a fleet of coding agents in terminals and lets other programs trigger them. Its correctness sits in a
handful of concurrent state machines and a few codecs; this project models them and proves what they promise.

| file | models |
|---|---|
| Scheduler, SchedulerSafety, SchedulerTheorems | serve mode's flow scheduler and member locks as a labelled transition system, its invariant, and safety, progress and draining over all schedules |
| ServeTasks | the code of serve mode's tasks on that shared state, interrupted anywhere, proved to take only those steps |
| InjectionLog | the rules of typing into a terminal, as a rule book over the log of what the queue worker does |
| InjectionEnv, InjectionWait | what the queue worker shares with other threads; its wait for an idle agent an access at a time, and how long a dialog can hold an injection up |
| InjectionRun | what the worker makes of an injection, the gate and a pass of its loop on a given schedule, and what an injection's fate depends on |
| InjectionQueue | the queue worker, proved to keep the rules and to do exactly that, against any environment |
| ReplayRing, OutputHub | terminal output: the bounded ring, the fan-out and what a reconnecting client can rebuild |
| EventBus, EventConsumer, EventPumps | the event bus, a consumer of it a receive at a time, and the two pumps across the replay/live seam |
| TriggerHub | trigger history and the long-poll |
| Quiescence | when a fire-and-forget kickoff counts as finished |
| Session | spawn, restart, stop, reapers and hook reports of one agent |
| LoopCycles | the loop-edge check of a workflow |
| Json, Canonical, Utf8, FreezeHash | canonical JSON and the input of the freeze hash |
| Scanner | finding JSON in an agent's reply |
| Time, Base64 | timestamps and the terminal stream's encoding |
| AgentStates, Arithmetic, Broadcast, Bytes, Optional, Order, Sequences | shared types and facts |

## How concurrency is modelled

The scheduler is a transition system whose labels are the uninterrupted stretches of each task. `ServeState` runs the
tasks' code on the same state; between any two of its steps `Others` lets any other task take any enabled steps. A
schedule is data, so a contract that holds for every schedule holds for every interleaving. The same is done with
environment scripts for the queue worker, whose environment may act before every single access the worker makes, with
acts of publishers for the bus, with acts of the hub's other callers for the long-poll, and with a world that is an
arbitrary function of time for the quiescence watcher. Where code holds a lock for a whole operation, that operation is
one method, and its contract holds from every valid state. A schedule is finite: a task that is still waiting when it ends
says so, and says what it is waiting for.

- Two flows' steps, and two of the same flow, interleave freely. Steps are finer than the locks require: the counters,
  the record and the queue of one accept are separate steps under its interlock.
- The queue worker's selects are polled as a whole: a branch that is ready is taken, whichever the script picks. A poll
  of the three watches one after the other gives the same results, since each keeps its change until it is seen.
- What the queue worker notes in its log as read is required to be there when it notes it (`InjectionEnv.Honest`).
- The flow worker's select is biased to shutdown; the transition system also lets a worker that could trip go on, so what is
  proved covers both.
- A wait of the quiescence watcher that is not over before its deadline is cancelled; one that ends in the very poll that
  finds the deadline reached could still go on in the code.
- Permits have no order; each agent's write lock has a first-come line. An agent's mode is fixed, so read locks never wait.
- A run that panics may give back its locks and permit before it settles; `CountsAreExact` names those runs.
- The bus takes one publisher at a time. Its three steps (number, ring, send) are separate, and anything may happen
  between them.
- The terminal pipeline is one per hub.
- Lifecycle calls of one agent come one at a time, as its type-level contract demands; reapers and hooks come at any time.

## What was found

- The freeze's lower bound on `max_concurrent_runs` (core/src/workflow.rs:163) carries the scheduler's progress: at 0
  every accepted trigger would be stuck until shutdown, from 1 on none is (`RunsIntoWedge`, `ProgressIffPermits`).
- `outstanding` is bounded by QUEUE_CAP + 1 + max_concurrent_runs plus the run tasks that are unwinding from a panic at
  once: such a task drops its permit and locks before it gives its slot back, so the next run can start in between
  (`CountsAreExact`). In every configuration and for every flow any number of such tasks adds up one by one
  (`OrphansAddUp`); a task unwinds without awaiting, so there are never more of them than the runtime has threads.
- A dialog can hold an injection up without bound. If it is raised, on another thread, after the wait read that there is
  none (core/src/pty/queue.rs:202) and before it takes the channel for seen (core/src/pty/queue.rs:307) while the agent is
  not idle, the worker sleeps with no timer and no change to notice (`RacedDialogHoldsForever`). Asleep, the worker is
  bounded exactly if this did not happen (`BoundedIffNotRaced`), that is, if the dialog is not up by the second of those
  two accesses, or another watch has something to say (`BoundExact`); without a raise there it cannot (`NoRaiseNoRace`),
  and then the bound of BLOCKED_GRACE holds on every schedule (`DialogBound`, `OverdueWaitFails`).
- A watch that closes ends the queue worker with injections unanswered: exactly those still queued (`Run`).
- `await_terminal` can time out on a trigger that is already settled, in the gap between storing a status and sending
  its notification, and only there (`NoLostWakeup`, `StoredButUnsentIsMissed`).
- Dialog events are published outside the lock, so two flips can reach the bus in the wrong order and leave the last
  event contradicting the flag (`LateRaise`); published in flip order they are exact (`EventsTellTheFlag`). That they
  alternate and end at the flag whatever the order is guaranteed exactly while at most one flip is unpublished
  (`TellsIffOnePending`).
- `repair_text` is idempotent on values. On a reply it is not exactly when the reply, trimmed and stripped of its fence,
  is a fence again that holds no balanced span (`RepairTwice`).
- `replay_since` at the largest u64 over a ring that is not empty adds one to it: with overflow checks that panics, and
  without them, as released, it wraps and answers None although nothing has aged out (`LargestCursor`); the client then
  gets one needless reset.
- The filter lets `workflow.completed` and the project events through as well as `run.started` and `bus.reset`, which are
  the only ones its comment names (core/src/api/sse.rs:52-53); the model follows the code.
- The two event consumers treat a lag differently: the SSE pump remembers the reset's number, the bridge does not, so
  after a reset the bridge may emit events numbered at or below it. Both keep the same promise.
- Timestamps sort as text exactly through year 9999 (`OrderKeptUpTo`).

## Model

| member | source | states |
|---|---|---|
| SchedulerTheorems.ExclusiveHeldOnce | daemon/src/serve.rs:790-815 | in every reachable state an exclusive agent is held by at most one worker or run |
| SchedulerTheorems.RunsWithinCap | daemon/src/serve.rs:801-815 | live runs never exceed max_concurrent_runs, and permits free, in hand and with runs always add up to it |
| SchedulerTheorems.CountsAreExact | daemon/src/serve.rs:136-189 | outstanding is what is queued, in hand or still counted by a run, running is the runs counted; outstanding stays within QUEUE_CAP + 1 + max_concurrent_runs plus the runs that a panic made give their permit back before their slot |
| SchedulerTheorems.OrphansAddUp | daemon/src/serve.rs:879-887 | for every flow of every configuration with a permit, and every k: a reachable state in which k run tasks unwinding from a panic are all that outstanding counts: nothing queued, no permit out, no lock held |
| SchedulerTheorems.RunsStartInOrder | daemon/src/serve.rs:768-822 | the runs a flow has started are a prefix of the triggers it accepted, in order |
| SchedulerTheorems.PositionIsQueueLength | daemon/src/serve.rs:650-652 | the position told to a caller is the number of the flow's triggers that still hold a slot |
| SchedulerTheorems.SettledAtMostOnce | daemon/src/serve.rs:158-189 | every registered trigger is settled at most once, and while unsettled some flow or run still holds it |
| SchedulerTheorems.NothingStranded | daemon/src/serve.rs:658-683 | once a worker has exited and its runs have settled, every trigger admitted to the flow is settled exactly once, for every interleaving of admit and close_queue |
| SchedulerTheorems.TerminalIffSettled | core/src/trigger.rs:255-283 | a record still in the history is terminal exactly when its trigger was settled, running exactly when begun and not settled |
| SchedulerTheorems.TerminalStays | core/src/trigger.rs:255-283 | no step takes a terminal record back |
| SchedulerTheorems.PlaceInLineKept | core/src/locks.rs:66-87 | a writer waiting for an agent never loses its place to a later one |
| SchedulerTheorems.FirstInLineCanStep | core/src/locks.rs:66-87 | a wanted write lock that is free can be granted to the first flow in its line |
| SchedulerTheorems.HolderCanStep | core/src/locks.rs:66-87 | for a wanted lock that is taken, its holder, a task holding or first in line for an agent further along the sorted order, or one with a permit such a task waits for, has a step |
| SchedulerTheorems.LockingCanStep | core/src/locks.rs:66-87 | a worker acquiring its members has a step of its own, or one that what it waits for depends on has: no deadlock |
| SchedulerTheorems.Progress | daemon/src/serve.rs:768-822 | whatever is accepted and unsettled, some step other than an arrival is enabled, given permits or shutdown |
| SchedulerTheorems.EffortStep | daemon/src/serve.rs:768-822 | every step that is not an arrival lowers one measure, an arrival raises it by a fixed cost |
| SchedulerTheorems.DrainBound | daemon/src/serve.rs:768-822 | any schedule's steps are bounded by its arrivals |
| SchedulerTheorems.RunsIntoWedge | daemon/src/serve.rs:801-811 | with no permits at all an accepted trigger would be stuck until shutdown |
| SchedulerTheorems.ProgressIffPermits | core/src/workflow.rs:163-170 | no reachable state is stuck if and only if max_concurrent_runs > 0, which the freeze demands |
| SchedulerTheorems.AlwaysDrains | daemon/src/serve.rs:658-683 | from every reachable state a schedule without arrivals settles every trigger exactly once |
| SchedulerSafety.InvStep | daemon/src/serve.rs:630-683 | counters, locks, queue order, conservation, records and homes survive every step of every task |
| SchedulerSafety.ConservedStep | daemon/src/serve.rs:158-189 | each step keeps every trigger in exactly one place |
| SchedulerSafety.LocksStep | core/src/locks.rs:66-87 | a write lock's holder is the one task whose guards contain it, after every step |
| SchedulerSafety.RecordedStep | core/src/trigger.rs:264-283 | the visible history agrees with what was begun and settled, after every step |
| SchedulerSafety.VisibleAreNewest | core/src/trigger.rs:206-214 | what the history still shows are its newest 100 records: one more pushes out exactly the oldest of a full one |
| ServeTasks.ServeState.Admit | daemon/src/serve.rs:630-656 | under any interference: refused as shutting down exactly when the gate is shut, as full exactly at the cap with the load read at two moments, else registered, queued last and told its true position |
| ServeTasks.ServeState.FlowLoads | daemon/src/serve.rs:129-153 | the two counters are read one after the other while others run: running is exact at the first moment, and queued is at most the triggers not begun by then, so a settling run is never reported as queued |
| ServeTasks.LoadIsTold | daemon/src/serve.rs:165-176 | that is what giving the slot back before the count buys, whatever happens between the two reads |
| ServeTasks.ServeState.Acquire | core/src/locks.rs:66-87 | sorted hold-and-wait: done exactly with every pooled member held, or abandoned when shutdown comes first; with the flag already set it always is; left waiting only at a schedule's end, with a lock not to be had |
| ServeTasks.ServeState.AwaitWriteLock | core/src/locks.rs:78-87 | waits in line, then holds; when shutdown wins the place in line is given up; left waiting only while the lock is not its to take and no shutdown has come |
| ServeTasks.ServeState.AwaitPermit | daemon/src/serve.rs:801-815 | takes a permit or trips on shutdown, always if the flag is already set, at once if a permit is free, locks held throughout; left waiting only with no permit free and no shutdown |
| ServeTasks.ServeState.AwaitJob | daemon/src/serve.rs:771-780 | the biased select: with the flag already set it trips, and a job is only taken by a poll that found the flag clear; the job is the oldest; left waiting only with an empty queue and no shutdown |
| ServeTasks.ServeState.CheckFlag | daemon/src/serve.rs:781-785 | a flag set since the dequeue abandons the job |
| ServeTasks.ServeState.SpawnRun | daemon/src/serve.rs:816-819 | the run gets the guards and the permit, the worker is ready again, the job counts as started |
| ServeTasks.ServeState.Abandon | daemon/src/serve.rs:743-749 | the job in hand is settled and every lock is given back |
| ServeTasks.ServeState.CloseQueue | daemon/src/serve.rs:658-683 | gate shut, everything the queue held settled; left waiting only while an admit is inside the gate |
| ServeTasks.ServeState.Round | daemon/src/serve.rs:768-822 | one loop round starts exactly one more run, or leaves with its job settled; told to stop before it, it leaves; it is left waiting only at a schedule's end, stalled on its queue, a lock or the permits |
| ServeTasks.ServeState.RunFlowWorker | daemon/src/serve.rs:768-826 | when the worker ends its gate is shut and all it took without starting is settled; it is left waiting only stalled on its queue, a lock, the permits or the gate |
| ServeTasks.StalledIsStuck | daemon/src/serve.rs:768-822 | a worker left waiting has no step of its own: only other tasks can get it going again |
| ServeTasks.ServeState.SettleRunning | daemon/src/serve.rs:164-189 | slot, then count, then record, others acting in between, leaving the run settled once |
| ServeTasks.StepUndisturbed | daemon/src/serve.rs:630-822 | what a task may rely on while others run: its own place, an append-only settlement log, a queue that only grows |
| InjectionLog.ClearWaitsForWorking | core/src/pty/queue.rs:113-132 | after a delivered injection no /clear is typed before Working was observed again |
| InjectionLog.ClearNeedsTurnEnd | core/src/pty/queue.rs:338-406 | a /clear follows an observed working→idle change with no injection and no later change in between, the gate allowing it, auto_clear on and the dialog read clear |
| InjectionLog.TypedOnClearDialog | core/src/pty/queue.rs:201-236 | text, first Enter, nudge and /clear are only written on a clear read of the dialog flag |
| InjectionLog.TypedWhenIdle | core/src/pty/queue.rs:287-330 | injections are only typed at a state last seen idle |
| InjectionLog.OverdueFails | core/src/pty/queue.rs:201-215 | when the clock read right after a dialog finds it past BLOCKED_GRACE, the next thing is that the injection fails as blocked, at any agent state |
| InjectionLog.NeverParkedOverdue | core/src/pty/queue.rs:287-330 | the wait goes to sleep only right after reading no dialog, or one whose grace the clock said was not over |
| InjectionLog.ConsultAtIdle | core/src/pty/queue.rs:360-377 | the gate is asked only right after a look at Idle and a clear dialog read, on a transition and on a poke |
| InjectionLog.ResendAfterQuiet | core/src/pty/queue.rs:246-269 | Enter is pressed again only right after the confirmation's timer, SUBMIT_VERIFY or more after the press before |
| InjectionWait.DialogBound | core/src/pty/queue.rs:287-330 | from the moment a dialog's grace is over the wait fails within five accesses, on every schedule without a raise between a read that found none and the mark |
| InjectionWait.OverdueWaitFails | core/src/pty/queue.rs:287-330 | so an injection's wait is over by then, with Blocked unless the agent exited, restarted or hung up |
| InjectionWait.BoundedIffNotRaced | core/src/pty/queue.rs:306-328 | asleep, the wait is bounded if and only if it did not miss the dialog that is up |
| InjectionWait.BoundExact | core/src/pty/queue.rs:300-307 | and it did not, if and only if by the mark the dialog is down or another watch has changed |
| InjectionWait.NoRaiseNoRace | core/src/pty/queue.rs:300-307 | in particular with no raise in the turns of those two accesses |
| InjectionWait.RacedDialogHoldsForever | core/src/pty/queue.rs:300-307 | a concrete schedule with a raise there: still asleep after any time |
| InjectionWait.WaitedIsSteps | core/src/pty/queue.rs:287-330 | the wait run to its end is a run of single accesses, and it ends at the first that ends it |
| InjectionWait.WaitWritesNothing | core/src/pty/queue.rs:287-330 | a wait types nothing and answers nobody |
| InjectionWait.HushEndsAtOnce | core/src/pty/queue.rs:246-258 | one select of the confirmation ends at the first poll with the time up or anything changed; the timer is only taken when the time is up and no earlier poll found a change |
| InjectionLog.LoweredBeforeAnswer | core/src/pty/queue.rs:154-197 | the depth is lowered right before each answer and only for it |
| InjectionLog.WritesAreGrammatical | core/src/pty/queue.rs:246-269 | the writes always parse as text, Enter and at most two resent Enters, or /clear |
| InjectionLog.DeliveredMeansTyped | core/src/pty/queue.rs:154-197 | each Ok matches one adjacent text-Enter pair of its own injection |
| InjectionQueue.QueueWorker.Run | core/src/pty/queue.rs:99-150 | for every environment script the run is one pass after another, each the pass of the specified machine; the log keeps every rule, answers are given in enqueue order, and the loop leaves only with all senders gone, every injection then answered exactly once and the depth zero, or on a closed watch, exactly the queued ones then unanswered, or with the script used up |
| InjectionQueue.QueueWorker.Pass | core/src/pty/queue.rs:99-150 | one pass, to the entry: the branch polled decides; an injection at the head is taken up and gets the fate its wait and its typing decide, a poke asks the gate, a change of a watch leads to what it is said to, a closed watch or the last sender's end leaves |
| InjectionQueue.QueueWorker.OnStateChange | core/src/pty/queue.rs:113-132 | an exit or restart answers everything queued with its error, the end of a turn drains the queue or asks the gate, any other change does nothing |
| InjectionQueue.QueueWorker.OnCommand | core/src/pty/queue.rs:102-112 | an injection taken by the loop is handled from the state at that moment, a poke consults the gate |
| InjectionQueue.QueueWorker.OnDialog | core/src/pty/queue.rs:141-149 | a dialog that came up does nothing; after one that went away, unless the state moves while the flag settles, the queue is drained or the gate poked |
| InjectionQueue.QueueWorker.OnEpoch | core/src/pty/queue.rs:134-140 | the restart is taken for seen and everything queued fails with it |
| InjectionQueue.QueueWorker.HandleInject | core/src/pty/queue.rs:154-197 | the fate is the one the machines of the wait and of the typing give from where the injection is taken up, and the log, everything shared and the rest of the schedule are what they leave |
| InjectionRun.AnsweredAsDecided | core/src/pty/queue.rs:154-197 | an injection a pass or a drain takes up is answered as decided: submitted, with its text, an Enter on a clear dialog and Delivered standing in the log; failed with the error its wait ended with, or that withheld Enter, and the queue with it; or failed alone with the pump gone |
| InjectionRun.RestDelivers | core/src/pty/queue.rs:154-197 | on every undisturbed schedule an injection taken up at an idle agent, with no dialog and the pump up, is submitted, unless the schedule ends first |
| InjectionRun.RestSubmits | core/src/pty/queue.rs:154-197 | so a pass or a drain that takes it up there logs its submission |
| InjectionRun.FailsForACause | core/src/pty/queue.rs:154-197 | an injection fails only if its wait ended with that very error, the pump was gone, or a dialog was up at Enter |
| InjectionRun.FailsAll | core/src/pty/queue.rs:408-418 | failing what is queued leaves the queue empty and logs nothing but a lowering and an answer with that error for each |
| InjectionQueue.QueueWorker.TypeText | core/src/pty/queue.rs:170-181 | the text, SUBMIT_DELAY, and Enter as a write of its own, or why it stopped |
| InjectionQueue.QueueWorker.DeliverAndConfirm | core/src/pty/queue.rs:180-197 | depth lowered and caller answered first, and after that exactly the specified watch and its resends |
| InjectionQueue.QueueWorker.DialogGrace | core/src/pty/queue.rs:201-215 | blocked exactly when the dialog read has been up for BLOCKED_GRACE by the clock read after it |
| InjectionQueue.QueueWorker.PressEnter | core/src/pty/queue.rs:222-236 | a dialog that is up gives Blocked and no write; none gives an Enter, or AgentExited with the pump gone |
| InjectionQueue.QueueWorker.ConfirmSubmission | core/src/pty/queue.rs:246-269 | the confirmation of the specified machine: at most two more Enters, each noted after a quiet SUBMIT_VERIFY; fewer only if something moved or the pump is gone |
| InjectionQueue.QueueWorker.AwaitQuiet | core/src/pty/queue.rs:246-258 | each wait for it ends where the specified select ends, from the time it began |
| InjectionQueue.QueueWorker.WaitDebouncedIdle | core/src/pty/queue.rs:287-330 | on every schedule the result, the shared state, the turns used and what is noted are those of the machine of the wait; clear to type only at idle with no dialog |
| InjectionQueue.QueueWorker.ConsultGate | core/src/pty/queue.rs:360-406 | which of the five outcomes, and to the entry what it does: no gate, not idle, a dialog, a poke after an injection, or asked once at idle with no dialog and the verdict acted on, /clear only on a transition with auto_clear |
| InjectionQueue.QueueWorker.DrainThenConsult | core/src/pty/queue.rs:338-352 | every injection on the queue is taken up in turn until it is found empty, everything issued before is answered; if anything was drained the gate is not asked, else it is consulted |
| InjectionQueue.QueueWorker.FailQueued | core/src/pty/queue.rs:408-418 | everything queued fails with the same error, in order, each step of it as specified, until the queue is empty and nothing issued is unanswered |
| InjectionQueue.QueueWorker.Resolve | core/src/pty/queue.rs:154-197 | depth down by one, then exactly one answer |
| InjectionEnv.AccountsApplyAll | core/src/pty/mod.rs:1376-1393 | whatever is enqueued meanwhile, the queue holds the unanswered injections in order and depth counts them |
| ReplayRing.ReplayRing.Push | core/src/pty/ring.rs:29-40 | the ring is the newest min(capacity, written) bytes of everything pushed |
| ReplayRing.ReplayRing.ReadSince | core/src/pty/ring.rs:52-63 | the history from the clamped cursor to its end |
| ReplayRing.Coalesce | core/src/pty/ring.rs:66-93 | the flushes are exactly the specified ones; joined they are the reads joined, none lost or reordered |
| ReplayRing.Gather | core/src/pty/ring.rs:77-92 | a batch is everything from its first read to where it is full, its timer goes off or the channel closes, and it stops growing once full |
| ReplayRing.DeadlineFlushes | core/src/pty/ring.rs:77-92 | a timer between two small reads gives two flushes, no timer gives one |
| OutputHub.Hub.Append | core/src/pty/mod.rs:374-381 | the chunk in flight is the new end of the history, for those subscribed at that moment |
| OutputHub.Hub.Deliver | core/src/pty/mod.rs:383-401 | a subscriber gets the chunk next to its last, or is given up on |
| OutputHub.Hub.Prune | core/src/pty/mod.rs:403-409 | exactly those given up on or hung up leave the list |
| OutputHub.Hub.Subscribe | core/src/pty/mod.rs:1009-1027 | a new channel starts at the clamped cursor and reaches the end of the history |
| OutputHub.Hub.SeenIsContiguous | core/src/pty/mod.rs:1009-1027 | at any later moment what a subscriber's consumer has received is a hole-free run from where its cursor landed |
| OutputHub.SoundDeliver | core/src/pty/mod.rs:368-409 | a delivery leaves every subscriber contiguous with the history |
| OutputHub.JoinedIsHistory | core/src/pty/mod.rs:368-409 | a subscriber's chunks joined are a slice of the byte history, without a hole |
| OutputHub.GapIffAgedOut | core/src/api/sse.rs:307-329 | a first chunk starts past the cursor asked for exactly when bytes after it had aged out, before it exactly when it was past the end |
| OutputHub.ReconnectRebuilds | core/src/api/sse.rs:307-329 | reconnecting any number of times at start + len, each first chunk starting there, rebuilds the history exactly |
| Bus.EventBus.Publish | core/src/bus.rs:46-68 | numbers from one, ring and channel both at the new event |
| Bus.EventBus.AppendToRing | core/src/bus.rs:55-66 | the ring is the last REPLAY_RING events |
| Bus.EventBus.ReplaySince | core/src/bus.rs:75-92 | for every u64 cursor the events after it, in order and without a gap; None exactly when some have aged out or are on the way to an empty ring, or at the largest cursor with a ring that is not empty |
| Bus.LargestCursor | core/src/bus.rs:83 | a concrete bus on which nothing has aged out and the largest cursor gets None |
| EventPumps.StreamEvents | core/src/api/sse.rs:254-274 | for every schedule of publishing, subscribing, replay and lag: strictly increasing numbers, genuine matching events, and every number after the resume point up to where the stream stands emitted, filtered or under a reset; it stands where the specified consumer does, level with the bus once nothing more is published; a client is given up exactly when it has taken its frames |
| EventPumps.Pump | core/src/api/sse.rs:196-239 | the live loop keeps that, and is receive for receive the specified consumer that remembers a reset's number |
| EventPumps.Forward | core/src/api/sse.rs:203-210 | the replayed part: every wanted event, in order, until the client is gone |
| EventPumps.Bridge | app/src-tauri/src/bridge.rs:42-74 | the same for the desktop bridge, whose resets do not move its last number; level with the bus once nothing more is published |
| EventConsumer.ReceiveMoves | core/src/api/sse.rs:213-236 | a receive with anything to receive moves on: past the next event, sent if wanted and new and without a reset while the channel has it, or past everything dropped |
| EventConsumer.CatchesUp | core/src/api/sse.rs:213-236 | once nothing is published the consumer has had everything after as many receives as it is behind, and after one more than the channel holds however far that is |
| EventConsumer.KeepsUp | core/src/api/sse.rs:213-236 | a consumer level with a bus that sends one event at a time stays level |
| EventConsumer.EndsLevel | core/src/api/sse.rs:213-236 | whatever was published before, a quiet end of the schedule leaves it level |
| EventConsumer.PumpedRoom | core/src/api/sse.rs:189-194 | a client is gone only once it has taken as many frames as it had room for |
| EventConsumer.FilterExamples | core/src/api/sse.rs:72-143 | by example: starred and plain patterns, agents, messages both ways, global events |
| EventPumps.SoundReset | core/src/api/sse.rs:229-235 | a reset numbered at the counter covers whatever the channel dropped |
| EventPumps.WithoutResetExact | core/src/api/sse.rs:196-239 | a consumer sent no reset got exactly the wanted events, each once, in order |
| TriggerHub.NoLostWakeup | core/src/trigger.rs:391-417 | await_terminal times out on a settled trigger exactly when its update is stored but its notification not yet sent |
| TriggerHub.NotifiedWakes | core/src/trigger.rs:391-417 | once the notification is sent, polling returns it before any deadline can fire, lagging or not |
| TriggerHub.WaitEnds | core/src/trigger.rs:391-417 | the status returned is the one the trigger was settled with, and neither Queued nor Running |
| TriggerHub.ToldIsStored | core/src/trigger.rs:391-417 | the same for the whole call, its first look included |
| TriggerHub.SentIsNotMissed | core/src/trigger.rs:391-417 | a known trigger whose change to a status other than Queued and Running is stored and sent does not time out |
| TriggerHub.TerminalIsOver | core/src/trigger.rs:131-137 | the statuses that end a wait are exactly those other than Queued and Running |
| TriggerHub.StoredButUnsentIsMissed | core/src/trigger.rs:272-283 | a concrete schedule in that gap: stored before the deadline, the caller told nothing |
| TriggerHub.ComingStep | core/src/trigger.rs:272-283 | no step of a caller loses a settlement on its way to the waiter |
| TriggerHub.HistoryIsNewest | core/src/trigger.rs:206-214 | the capped history is the newest 100 records of an uncapped one, updates included |
| TriggerHub.FreshIsKnown | core/src/trigger.rs:209-214 | a record under a fresh id can be looked up and keeps ids distinct |
| TriggerHub.TriggerHub.TryBegin | core/src/trigger.rs:241-252 | claims and registers in one step, or names the holder and changes nothing |
| TriggerHub.TriggerHub.Finish | core/src/trigger.rs:262-267 | releases the flows this trigger holds and no others |
| TriggerHub.TriggerHub.SetStatus | core/src/trigger.rs:272-283 | store, then notify; an unknown id changes nothing |
| TriggerHub.TriggerHub.PushRecord | core/src/trigger.rs:209-214 | append and evict from the front |
| TriggerHub.TriggerHub.AwaitTerminal | core/src/trigger.rs:391-417 | the loop computes exactly the long-poll the theorems are about |
| Quiescence.UnmovedIsStill | core/src/trigger.rs:931-943 | an unchanged version after a look at Idle leaves no room for movement in between |
| Quiescence.Watcher.Check | core/src/trigger.rs:872-905 | quiescent only with every agent seen idle and queues, asks and turns read as zero; blocked only with one of them seen otherwise; an exit only if one was seen |
| Quiescence.Watcher.MovedDuringDwell | core/src/trigger.rs:931-943 | unmoved only if nothing was sent since each receiver was last seen, moved only if something was, and neither if a channel is closed |
| Quiescence.Watcher.WaitAnyChange | core/src/trigger.rs:915-929 | the first receiver in roster order with something to report ends the wait, closed if that is all it has to report; the poll timer only if it is due |
| Quiescence.Watcher.SettleOnce | core/src/trigger.rs:946-977 | Quiesced needs a whole debounce interval, still and idle, empty at both ends and within the deadline; every failure, time-out and retry has its cause; a calm world never fails or retries |
| Quiescence.Watcher.AwaitArming | core/src/trigger.rs:792-824 | goes on exactly at the first record read as working, done or replied; each failure comes only with its cause: a record read as failed, no record, an agent of the roster gone, the bus closed |
| Quiescence.Watcher.AwaitQuiescence | core/src/trigger.rs:979-990 | Quiesced only after such an interval, a failure only for its cause, and in a calm world nothing else than Quiesced before the deadline |
| Quiescence.Watcher.AwaitExit | core/src/trigger.rs:826-845 | the first exit of an agent of the roster or the end of the bus, and only that |
| Quiescence.Watcher.Drive | core/src/trigger.rs:581-598 | Quiesced only after the kickoff was observed and after such an interval; every failure for its cause; with an observed kickoff, a calm world, no exit and no deadline always Quiesced |
| Session.AgentHandle.SpawnLands | core/src/pty/mod.rs:629-651 | the session lands: exit cleared, raw Starting, a child of the current epoch |
| Session.AgentHandle.BeginRestart | core/src/pty/mod.rs:819-844 | new epoch, session taken, dialog cleared with one event |
| Session.AgentHandle.BeginStop | core/src/pty/mod.rs:867-881 | nothing to stop exactly when there is no session |
| Session.AgentHandle.ReapReturns | core/src/pty/mod.rs:846-886 | when stop returns Ok the exit is recorded |
| Session.AgentHandle.ChildExits | core/src/pty/mod.rs:753-781 | an older epoch's reaper changes nothing; the current one records the exit |
| Session.AgentHandle.SpawnFailed | core/src/pty/mod.rs:787-806 | a failed respawn marks the agent exited |
| Session.AgentHandle.ReportState | core/src/pty/mod.rs:1261-1296 | only a change ends a dialog, and nothing revives an exited agent |
| Session.AgentHandle.ReportBlocked | core/src/pty/mod.rs:1114-1148 | taken at Working or Idle; a repeat keeps the dialog already up |
| Session.AgentHandle.ReportUnblocked | core/src/pty/mod.rs:1199-1237 | only the (sub)agent whose dialog is up clears it |
| Session.AgentHandle.EventsTellTheFlag | core/src/pty/mod.rs:1090-1104 | published in flip order, dialog events alternate and the last one is the flag |
| Session.AgentHandle.TellsIffOnePending | core/src/pty/mod.rs:1090-1104 | from a state in order, every order of publishing what is pending alternates and ends at the flag if and only if at most one flip is pending |
| Session.LateRaise | core/src/pty/mod.rs:1114-1148 | a schedule that publishes outside the lock in the wrong order and leaves the last event saying blocked |
| Session.ExitsSound | core/src/pty/mod.rs:753-781 | a reaper keeps: exit recorded implies raw Exited and no session; one unreaped child per epoch |
| Session.LandsSound | core/src/pty/mod.rs:629-651 | so does a landing spawn |
| Session.OneLiveChild | core/src/pty/mod.rs:753-781 | at most one child of the current epoch is still to be reaped |
| LoopCycles.Walker.Validate | core/src/workflow.rs:372-384 | no issue if and only if the loop edges are acyclic, and every issue is a real cycle |
| LoopCycles.Walker.Walk | core/src/workflow.rs:386-422 | terminates on unknown agents and self-edges, keeps the stack a path and the finished agents ordered |
| LoopCycles.OrderedIsAcyclic | core/src/workflow.rs:386-422 | a finishing order with every edge pointing back leaves no cycle |
| LoopCycles.CycleClosed | core/src/workflow.rs:393-408 | a target on the stack closes a cycle, which is the one reported |
| FreezeHash.HashInputExact | core/src/workflow.rs:664-697 | two loads build the same hash input exactly when TOML, schema files, servers up to key order and each skill's files are the same |
| FreezeHash.InputUnique | core/src/workflow.rs:769-774 | equal inputs have equal TOML and equal framed blobs |
| FreezeHash.FramesUnique | core/src/workflow.rs:769-774 | no two lists of blobs frame alike |
| FreezeHash.CanonicalBytesUnique | core/src/mcp.rs:204-211 | server declarations have equal bytes exactly when they differ in nothing but key order |
| FreezeHash.SkillBlobsUnique | core/src/workflow.rs:875-890 | a skill's frames tell its name and files, whatever order the directory listed them in |
| FreezeHash.PathBytesUnique | core/src/workflow.rs:883-889 | different relative paths have different bytes |
| FreezeHash.Load | core/src/workflow.rs:664-697 | the buffer the load builds is that hash input |
| FreezeHash.Builder.PushFramed | core/src/workflow.rs:769-774 | one frame appended |
| FreezeHash.Builder.FreezeFlows | core/src/workflow.rs:729-767 | schema files behind their flow names, flows without one adding nothing |
| FreezeHash.Builder.HashSkillDir | core/src/workflow.rs:875-890 | name, count, files in path order |
| Canonical.Idempotent | core/src/mcp.rs:212-232 | canonicalizing twice changes nothing more |
| Canonical.LookupsKept | core/src/mcp.rs:212-232 | every path of keys and indices leads to the canonical form of what it led to, or to nothing as before |
| Canonical.SameCanonicalIffVariant | core/src/mcp.rs:212-232 | exactly the key-order variants, at every depth, have the same canonical form |
| Canonical.ObjectKeeps | core/src/mcp.rs:219-229 | an object's members survive under their keys, sorted |
| Json.PrintUnique | core/src/mcp.rs:204-211 | compact JSON text determines the value, whatever follows it (sections 4, 5 and 7 of RFC 8259) |
| Json.ScannerUndoesPrinter | core/src/schema.rs:161-191 | behind prose without an opening bracket and before anything, the scanner returns exactly the printed array or object |
| Utf8.ToBytesUnique | core/src/mcp.rs:204-211 | different strings have different bytes |
| Scanner.BalancedSpan | core/src/schema.rs:160-191 | the loop finds exactly the span of the specification |
| Scanner.SpanExact | core/src/schema.rs:160-191 | a span is returned if and only if it is the bracket tree starting at the first opening bracket, so none shorter is balanced |
| Scanner.SpanOfRendering | core/src/schema.rs:160-191 | the scanner undoes any rendering of a bracket tree, strings and escapes included |
| Scanner.RepairText | core/src/schema.rs:146-158 | the repair computes trim, fence and span in that order |
| Scanner.RepairTwice | core/src/schema.rs:146-158 | a second repair changes something if and only if the reply, trimmed and stripped of its fence, is a fence again and holds no balanced span |
| Scanner.RepairIdempotent | core/src/schema.rs:146-158 | so it is idempotent on what starts with a bracket |
| Scanner.NestedFencesRepairTwice | core/src/schema.rs:146-158 | a concrete reply on which it is not |
| Scanner.FencedValue | core/src/schema.rs:140-158 | a fenced value is recovered, tagged or not, whatever blank space is around |
| Scanner.ValueInProse | core/src/schema.rs:140-158 | a value behind prose is recovered, whatever blank space is before the prose and whatever follows the value |
| Scanner.LastFenceIsLast | core/src/schema.rs:148-153 | the closing fence is the last one |
| Scanner.TrimExact | core/src/schema.rs:146-147 | trimming takes off blank space at both ends, all of it and nothing else |
| Scanner.PrintableKept | core/src/schema.rs:146-147 | a text that begins and ends in a visible ASCII character is kept whole |
| Time.DateIsGregorian | core/src/time.rs:22-41 | for every day number month and day are in range under the leap-year rule and counting days gives the number back |
| Time.DateOfDayNumber | core/src/time.rs:22-41 | every Gregorian date from 1970 on is printed for its own day |
| Time.DayNumberOrders | core/src/time.rs:22-41 | day numbers order dates, so a day has one date |
| Time.Monotone | core/src/time.rs:22-41 | strictly monotone over all of u64 |
| Time.ClockIsExact | core/src/time.rs:24-25 | hour, minute and second in range and adding up |
| Time.NeverSaturates | core/src/time.rs:23 | the conversion to i64 never saturates |
| Time.BeforeYear10000 | core/src/time.rs:22-41 | a time prints a year of at most 9999 exactly up to that year's last second |
| Time.StringOrderIsTimeOrder | core/src/time.rs:38-40 | up to then string order is time order (section 5.1 of RFC 3339) |
| Time.YearTenThousandSortsFirst | core/src/time.rs:38-40 | and not beyond: the next second sorts first |
| Time.OrderKeptUpTo | core/src/time.rs:38-40 | string order is time order on all instants up to n if and only if n is within year 9999 |
| Time.Layout | core/src/time.rs:38-40 | up to year 9999 the text has twenty characters with its dashes, T, colons and Z in place |
| Time.Epoch | core/src/time.rs:22-41 | instant zero is 1970-01-01T00:00:00Z |
| Base64.RoundTrip | cli/src/session/b64.rs:17-46 | decoding undoes encoding for every byte string |
| Base64.DecodesWellFormed | cli/src/session/b64.rs:17-46 | decoding succeeds exactly on alphabet text in fours with at most two final pads |
| Base64.ReencodeIffCanonical | cli/src/session/b64.rs:17-46 | re-encoding gives the text back if and only if the unused bits are zero (section 3.5 of RFC 4648) |
| Base64.Encode | core/src/api/sse.rs:276-299 | the loop over chunks of three computes the encoding |
| Base64.Decode | cli/src/session/b64.rs:17-46 | the loop over quanta computes the decoding |
| Base64.Split24 | core/src/api/sse.rs:281-285 | the packed 24 bits cut into sextets are the chunk's six-bit fields |
| Base64.Join24 | cli/src/session/b64.rs:28-43 | the packed 24 bits cut into bytes are the quantum's octets |
| Base64.LetterSextet | cli/src/session/b64.rs:5-14 | the two alphabets are inverse to each other |
| Base64.AlphabetIsStandard | cli/src/session/b64.rs:5-14 | the letters are A-Z, a-z, 0-9, + and /, in that order, and the pad is = (table 1 of RFC 4648) |
| Base64.TestVectors | core/src/api/sse.rs:276-299 | the vectors of section 10 of RFC 4648 |

## Left out

- HTTP routing, authentication, host checks, error texts: request plumbing.
- Desktop and command-line user interface, prompt rendering, export templates: text formatting.
- The trust store, user configuration and the lookup order of MCP servers: file reads with one-branch rules; what they
  resolve to is an input of the hash.
- The jsonschema validator and the rest of workflow validation: libraries, and one rule per branch.
- Processes, pty devices, signals and files: a child's exit, the clock and what a directory holds are inputs.
- The router, session manager and stores: the clear gate's answer, pending asks, open turns and message records are
  arbitrary values of the environment.
- Ask kickoffs (`await_reply`) and completion payloads: one branch per record status; the send path, which needs the
  dwell, is modelled.
- The debouncer and ANSI stripper: the debounced state is an arbitrary signal.
- `remove_agent` and a spawn whose agent was removed meanwhile: the type-level contract bars the race, the rest is one drop.
- SHA-256: the hash input is proved unambiguous, the digest is not opened.
- TOML parsing: how many schemas, server sets and skills the file asks for is an arbitrary function of its bytes.
- JSON numbers are their printed tokens; how a float becomes its token is serde_json's.
- Serialization of an event to JSON is taken to succeed; the pump skips one that fails.
- Trigger ids are fresh; the source draws 32 random bits.
- A worker task that itself panics, and a closed semaphore: the source treats both as unreachable, the queue's
  `Closed` error with them.
- `files.sort()`, `entries.sort_by` and tokio's channels, locks and timers: modelled by what they promise.
- SchedulerTheorems.CountsAreExact: the bound on outstanding names the run tasks unwinding at once; that the runtime's threads bound those is not modelled.
- EventPumps.StreamEvents: a client that is given up has had a prefix of what it would have got, in order; what it missed is not told to it.
- Scanner.ValueInProse: prose that itself opens with a fence is left to `FencedValue`; prose that is all blank space is none, and text after the value is then kept.
- InjectionQueue.QueueWorker.Run: that the select takes the queue's branch in the end is up to the runtime's scheduling; what happens when it does is stated.
