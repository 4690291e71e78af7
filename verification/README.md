# Verification of the durable workflow engine

This project models a durable workflow engine and its worker SDK, and proves that they do together what durable
execution is for: a workflow function that is replayed, crashed, retried and answered twice behaves as if it had run
once from start to end.

Two parts are modelled, and joined.

**The engine** is a state machine over four tables (executions, append-only events, tasks with leases and attempts,
timers), the metrics, one clock, and the answers still outstanding: every task that a worker has polled and not
answered, with the history it was given, is a *grant*, and grants of slow, crashed or superseded workers stay there.
`Tables.dfy` has the statements, `Handlers.dfy` the handlers, `Engine.dfy` the steps and the runs of the system
(`Behavior`): start, poll, snapshot, answer, complete or fail an activity, scan timers, signal, reclaim leases, let
time pass, crash.

**The replay interpreter** (`Interpreter.dfy`) runs a workflow function against a history. A workflow function is any
function from what it has observed so far to its next call, so every deterministic program is covered, of whatever
length.

The imperative code has its imperative counterpart: `Persistence.dfy` (class `Persistence` with transactions),
`History.dfy` (class `History`), `Frontend.dfy` (class `Handler`) and `Sdk.dfy` (class `Context` and the worker's
driver), with the loops of the original, each method proved equal to the step or the replay that the rest of the
project reasons about.

| files | about |
|---|---|
| Types, Counting, HistoryFacts, HistoryMeaning | rows and constants; counting; what a history says |
| Interpreter, ReplayLaws, RequestLaws, Backoff | replay and its laws; the retry delay |
| Tables, Handlers, Engine | statements, handlers, the state machine |
| Persistence, History, Frontend, Sdk | the classes and loops, proved against the above |
| Structure, Steps, Effects, Records, RowCounts, WorkflowTasks | what one step does, handler by handler |
| Terminal, ClosingTimes, Numbering, Conservation, Drain, RetryChain, TaskRows, OneRunning, TimersOnTime, Leases, Counters, Ledger | invariants of every run of the system |
| Wakeups, AcceptedAnswers, NoStuck, Continuations, Marks, ExactlyOnce, CrashTolerance, Outcomes, Counterexamples | engine and replay together |

## Main results

- A closed run has the status and the terminal event that its function's uninterrupted execution ends with
  (`Outcomes.ClosedAsIfUninterrupted`).
- An open run has a workflow task, or waits for something that is on its way; only a signal to that very run, arriving
  while every workflow task of it is being answered from an older view, can leave it behind (`NoStuck.NoStuckRun`,
  `NoStuck.OnlyALostSignalStrands`, `Counterexamples.ASignalCanBeLost`). The signals that do not arrive so are exactly
  those that some answer is sure to see before the run comes to rest, however the system runs on
  (`Continuations.SignalGuard`). And while an open run has a workflow task, the system can always run on to an answer
  that has seen its whole history (`Continuations.WorkCanGoOn`).
- Activities and timers are scheduled once each, in the order of the calls, if and only if no answer is accepted that
  schedules something from a view after which something else has been scheduled (`ExactlyOnce.ExactlyOnceWhenFresh`);
  with one view per run in flight that is always so (`ExactlyOnce.ExactlyOnceWhenSole`), with two it need not be
  (`Counterexamples.AnActivityCanBeScheduledTwice`).
- What a worker reports is what the function observes (`Records.ResultIsObserved`), what the function asks for is what
  the task rows say, on the queue of its run (`TaskRows.TasksWereAskedFor`, `TaskRows.OfferedAlways`), and a replay
  observes nothing but what the rows of its history say (`ReplayLaws.ReplayIsFaithful`).
- Conservation, draining of closed runs, event numbering, terminal discipline, retry chains with their time bounds, one
  open run per workflow id, timers that fire neither early nor late, lease exclusivity, and counters that agree with the
  tables and the histories, in every reachable state.

## Assumptions

- Each handler of the history service is one step. The code reads through the pool and not through its transaction, so
  this is an assumption; its one visible effect is kept: all timers of one run that fire in one scan get the same
  event id, because the rows of the open transaction are not counted.
- Workers answer with the ids they were polled with, and their command lists are those `executeWorkflowTask` builds.
- `time.Now()` and SQL `now()` are one clock that never goes back. Run ids are fresh, and two runs of one workflow id
  do not start at the same instant. Times are integers of nanoseconds.
- A workflow function is deterministic, awaits only futures it was given, and starts fewer than 2^31 activities and
  timers, so that the `int32` casts lose nothing (`Interpreter.Sound`).
- Payloads are byte strings. Decoding one is a function of its bytes and part of the workflow function; a workflow
  input that does not decode, like an unregistered workflow type, makes the worker drop the task (`Interpreter.Code`).
- Random draws, run ids, the clock and the choice of the database among equally good rows are parameters.

## Where the documentation says something else

- README.md of the repository says that a signal appends an event and enqueues a workflow task. The code enqueues one
  only if the run has no workflow task at all (internal/persistence/persistence.go:377-381); the model follows the code.
- It also says that a sleep sets `fire_at = now() + d`. The code first truncates the duration to whole milliseconds
  (sdk/workflow/context.go:146); the model follows the code, and `TimersOnTime.SleepsLongEnough` states what is left.

## Model

| member | source | states |
|---|---|---|
| Outcomes.ClosedAsIfUninterrupted | sdk/worker.go:130-167 | In every reachable state a closed run's status and the data of its one terminal event are how the uninterrupted execution of its function ends, for every oracle that agrees with the history |
| Outcomes.AnswerEnds | sdk/worker.go:155-167 | An answer that closes its run comes from a finished replay, and the rows it appends report that end |
| NoStuck.NoStuckRun | internal/history/history.go:232-435 | If every signal to the run so far was safe, the open run has a workflow task, or replay of its present history sends nothing and waits for a live activity task, an unfired timer or a signal not received |
| NoStuck.OnlyALostSignalStrands | internal/persistence/persistence.go:373-387 | Without that proviso an open run without workflow task is parked, or its last answer waited for a signal that has come since, which takes an earlier unsafe signal to this run; and it could get further exactly in the second case |
| NoStuck.WaitIsAlive | sdk/workflow/context.go:65-170 | What a suspended replay waits for is alive once its requests are on record and the books balance |
| Continuations.SignalGuard | internal/persistence/persistence.go:373-387 | Given that the workers with a view of the run will find it waiting: in every continuation that leaves the run open without workflow task some accepted answer has seen the signal, if and only if the signal inserts a task or some workflow task of the run has no outstanding view |
| Continuations.SafeSignalIsSeen | internal/history/history.go:467-487 | Without that proviso: before the run comes to rest after a safe signal, an accepted answer was computed from a view that contains it |
| Continuations.UnsafeSignalCanBeMissed | internal/persistence/persistence.go:377-381 | After an unsafe signal the workers can all answer from their old views, which leaves the run open without workflow task and no answer has seen the signal |
| Continuations.WorkCanGoOn | internal/frontend/grpc/handler.go:42-75 | From every reachable state an open run with a workflow task, whose function ends or waits on its history, has a continuation that ends in an accepted answer computed from that whole history |
| Wakeups.StepWatchful | internal/history/history.go:232-435 | Every step keeps each unanswered wake-up event of a run covered by a workflow task whose holders have seen it or will; signals too while those to the run are safe |
| WorkflowTasks.TaskSurvives | internal/history/history.go:217-219 | A workflow task goes away only when it is answered |
| AcceptedAnswers.ViewReplay | internal/persistence/persistence.go:126-132 | Replay of a view in any order of ties equals replay of the history in order of insertion, and sends the same commands |
| AcceptedAnswers.ResponseIsReplay | sdk/worker.go:104-177 | An answer's commands are those of a replay of a prefix of the run's history |
| AcceptedAnswers.StepAnswered | internal/history/history.go:113-180 | After every step the longest answered replay of an open run is suspended and all it asked for is on record |
| ExactlyOnce.AnswerIsFresh | internal/history/history.go:124-180 | An answer keeps the record of schedulings equal to the calls of replay if and only if it schedules nothing or nothing was scheduled since its view |
| ExactlyOnce.StepOnce | internal/history/history.go:113-180 | A step keeps every run's record as it should be if and only if it is no stale answer |
| ExactlyOnce.ExactlyOnceWhenFresh | internal/history/history.go:113-180 | Over whole runs: every record is right up to state n if and only if every answer before was fresh |
| ExactlyOnce.SoleViewsAreFresh | internal/frontend/grpc/handler.go:42-75 | With at most one view per run in flight every answer is fresh, whatever arrives between snapshot and answer and however many of its tasks are leased |
| ExactlyOnce.ExactlyOnceWhenSole | sdk/workflow/context.go:91-149 | Then the k-th ActivityScheduled and the k-th TimerStarted event carry index k and match the calls of replay in order |
| ExactlyOnce.AlwaysStartedFirst | internal/history/history.go:392-427 | In every reachable history, and every prefix of it, a timer that has fired was started |
| Marks.SendsTheRest | sdk/workflow/context.go:91-149 | On a right record replay sends exactly the requests after those on record |
| Counterexamples.ASignalCanBeLost | internal/persistence/persistence.go:373-387 | A run of five steps in which an unsafe signal leaves an open run without task, timer or grant, though replay would finish it |
| Counterexamples.AnActivityCanBeScheduledTwice | internal/history/history.go:124-156 | A run of nine steps in which two views in flight get one activity scheduled twice |
| Conservation.StepBalance | internal/history/history.go:126-180 | Every step keeps the balance of each activity and each timer |
| Conservation.Conserved | internal/history/history.go:126-156 | In every reachable state, per run and activity: scheduled = live tasks + completed + failed; per timer: started = unfired rows + fired |
| Conservation.ConsumedOnce | internal/history/history.go:239-242 | A report for a task that has been consumed is refused as not found and changes neither tables nor metrics |
| Drain.StepDrains | internal/history/history.go:106-111 | A step leaves the task and timer rows of a closed run alone, but for leases, or strictly lowers its potential |
| Drain.ClosedRunsDrain | internal/history/history.go:301-332 | After a run has closed its rows change at most as often as its potential was large |
| ReplayLaws.ReplayRefinesDirect | sdk/workflow/context.go:65-170 | Replay observes a prefix of the uninterrupted execution, asks for a prefix of its requests, and unless suspended is equal to it, ending included |
| ReplayLaws.OracleExists | sdk/workflow/context.go:65-170 | Every history agrees with some oracle, so the refinement speaks of every history |
| HistoryMeaning.OutcomeMeans | sdk/workflow/context.go:65-89 | An activity has succeeded with d if and only if its first ending row is ActivityCompleted with data d, failed with d if and only if it is ActivityFailed with data d, and is pending if and only if there is none |
| HistoryMeaning.SignalMeans | sdk/workflow/context.go:156-168 | The k-th payload of a name is the data of the SignalReceived row of that name with k such rows before it |
| ReplayLaws.PrefixDeterminism | sdk/workflow/context.go:65-170 | Replay of a longer history repeats the observations and requests of a shorter one, and its end if it had one |
| ReplayLaws.ReplayIsFaithful | sdk/workflow/context.go:65-170 | Each observation answers the call the function makes after the observations before it, in terms of row fields: a future with the call's name, input and number; an activity's success or failure with the data of its first ActivityCompleted or ActivityFailed row; a timer whose TimerFired row is there; the next signal of the name |
| ReplayLaws.ReplayStops | sdk/workflow/context.go:65-170 | Replay stops at a call exactly when the function returns there or the history has no row that answers the call |
| ReplayLaws.SignalOrder | sdk/workflow/context.go:151-170 | The k-th receive of a name, counted in receives, returns the data of the SignalReceived row of that name that k others precede, whatever rows come between, and suspends exactly when the history has only k |
| ReplayLaws.WaitIsUnmet | sdk/workflow/context.go:65-170 | What a suspended replay waits for is not in the history |
| ReplayLaws.SameFactsSameReplay | sdk/workflow/context.go:65-170 | Histories that answer every question alike are replayed alike |
| RequestLaws.RequestsAreNumbered | sdk/workflow/context.go:91-149 | The requests of a replay are numbered 0, 1, 2, ... in order, activities and timers each |
| RequestLaws.RequestsAreCalls | sdk/workflow/context.go:91-149 | Every request is a call of the function: ExecuteActivity with that name and input, or Sleep with that duration, numbered by the calls of its kind before it |
| RequestLaws.AwaitedIsRequested | sdk/workflow/context.go:65-124 | A sound function waits only for activities it has asked for |
| CrashTolerance.CommandsAreIdempotent | sdk/workflow/context.go:91-149 | Once the commands of a suspended replay are on record, replay sends none and is suspended at the same point |
| CrashTolerance.AnsweredIsQuiet | internal/history/history.go:124-180 | The same after an accepted answer from an up-to-date view, on the tables as the engine leaves them |
| CrashTolerance.ViewsAgree | sdk/workflow/context.go:65-170 | Of any two views of one run in two states of the system, replay of the longer one repeats that of the other |
| Numbering.EventNumbering | internal/history/history.go:117 | In every reachable history an event's id is its position, or repeats that of the event before it and both are TimerFired |
| Numbering.IdBounds | internal/history/history.go:392-407 | Hence ids never exceed positions nor decrease, and only TimerFired events fall behind or share an id |
| Numbering.SharedIdsAreOneScan | internal/history/history.go:392-407 | Two events of a run with one id are TimerFired events that one scan appended |
| Numbering.AnyOrderWillDo | internal/persistence/persistence.go:126-132 | A view ordered by event id holds the same facts and requests as the history, however ties are ordered |
| Terminal.StepStatus | internal/history/history.go:106-111 | Only a start and an accepted answer of its own change a run's status, and to what the answer's last command says |
| Terminal.TerminalDiscipline | internal/history/history.go:182-213 | Open runs have no terminal event; closed ones exactly one, of the kind of their status, followed only by late activity and timer events |
| Terminal.StatusIsFinal | internal/history/history.go:457-459 | No run disappears and a closed run keeps its status |
| ClosingTimes.ClosedAtIsRight | internal/persistence/persistence.go:98-109 | A run has a closing time exactly when it is closed, between its start and now |
| Effects.StepRows | internal/history/history.go:94-230 | The events every step appends to every run |
| Records.StartRecords | internal/history/history.go:36-92 | An accepted start leaves a run of the given type and queue whose only event carries the input, and a visible task on that queue; refusals, and when they happen |
| Records.StartedFunction | sdk/worker.go:104-128 | The run is replayed with the function registered for the type it was started with, on the input it was started with |
| Records.CompletionRecords | internal/history/history.go:232-287 | After an accepted result the last row is ActivityCompleted with the task's name and number and the result reported; the task is gone and one workflow task of the run is new and visible |
| Records.FailureRecords | internal/history/history.go:334-378 | After an accepted failure of the last attempt the last row is ActivityFailed with the task's name and number and the message reported; likewise for the tasks |
| Records.LateAnswerRecords | internal/history/history.go:94-111 | An answer for an unknown run is refused with nothing changed; one for a closed run is accepted but only consumes its task |
| Records.SignalRecords | internal/history/history.go:437-495 | An accepted signal's row has its name and payload; a run without workflow task gets one that is visible at once; refusals, and when they happen |
| Records.ResultIsObserved | sdk/workflow/context.go:73-80 | The first result reported for an activity is what the function's Get of its future observes, byte for byte |
| Records.MessageIsObserved | sdk/workflow/context.go:81-83 | The message of the last failed attempt is the error that Get observes |
| Records.SignalIsObserved | sdk/workflow/context.go:151-170 | A function that has received all earlier signals of the name and receives once more observes the payload of this one |
| TaskRows.AnswerRecords | internal/history/history.go:113-230 | Command i of an accepted answer is event number rows + 1 + i with its kind, name, number and payload; a scheduled activity gets a first-attempt task on the command's queue with the command's input, a timer a row due the asked milliseconds from now, an ending its status and closing time; every new row comes from such a command, and only the answered task goes |
| TaskRows.OfferedAlways | internal/history/history.go:140-153 | In every reachable state every task, workflow or activity, first attempt or retry, is on the queue of its run and of its workflow type; workflow tasks and first attempts are visible, a second attempt within a second, a third within two |
| TaskRows.TasksWereAskedFor | internal/history/history.go:126-156 | Every activity task goes back to an accepted answer whose replay asked for the activity by that name and number and with that input |
| Steps.BaseAlways | internal/persistence/persistence.go:170-183 | In every reachable state tasks and timers refer to runs, histories open with WorkflowStarted, owner and expiry of a lease go together, and grants agree with their rows and view prefixes of histories |
| Steps.EvolvesAlways | internal/persistence/persistence.go:299-308 | Between any two states histories only grow, no task id returns, and rows keep what they refer to |
| RetryChain.ChainedAlways | internal/history/history.go:301-332 | Every live activity task still says what its ActivityScheduled event said, is hidden for the sum of the halved backoffs, is not handed out earlier, and is the only one of its event |
| RetryChain.GivesUpAfterThree | internal/history/history.go:289-378 | The first two reported failures of a scheduling lead to the next attempt with all else unchanged, hidden for half a second to one second and for one to two seconds; the third leads to the ActivityFailed event with its message, no earlier than the sum of the halved backoffs after the scheduling |
| RetryChain.FailuresEndChains | internal/history/history.go:334-378 | Every ActivityFailed event comes with the third accepted report of one scheduling, names the activity scheduled, and comes no earlier than the sum of the halved backoffs after it |
| RetryChain.TracedAlways | internal/history/history.go:301-332 | The attempt of a live task counts the accepted failure reports of its scheduling since the step that scheduled it |
| RetryChain.LeastBackoffIsHalf | internal/history/retry.go:23-34 | The least total backoff is the sum of the halved capped backoffs less one nanosecond each |
| RetryChain.TwoRetries | internal/history/retry.go:9-14 | With the default policy that is one and a half seconds |
| Backoff.DefaultDelays | internal/history/retry.go:9-34 | With the default policy of three attempts the delay is half a second to one second after the first and one to two seconds after the second |
| Backoff.DelayBounds | internal/history/retry.go:23-34 | For every policy, attempt and draw the delay lies between half the capped backoff, less truncation, and the capped backoff, and never exceeds the maximal interval |
| Backoff.DelaysIncrease | internal/history/retry.go:23-34 | With coefficient 2 no draws make a delay longer than the next one before the cap is reached |
| Backoff.WhenDelaysNeverShrink | internal/history/retry.go:23-34 | For every policy and attempt: no draws make the delay longer than the next one if and only if the capped backoff is at most half the next one, rounded down, plus one nanosecond |
| Backoff.UpToSevenAttempts | internal/history/history.go:301-303 | Of the policies with the default intervals exactly those of up to seven attempts, the default one among them, never use a delay that can be longer than the next |
| Backoff.DelaysMayShrinkAtTheCap | internal/history/retry.go:27-29 | With eight attempts or more the delay after the sixth can be longer than that after the seventh |
| OneRunning.OneRunningEach | internal/history/history.go:43-61 | At most one run of a workflow id is open in every reachable state, and it is the one started last |
| OneRunning.StartNeedsNoneOpen | internal/persistence/persistence.go:69-77 | A start is accepted if and only if no run of its workflow id is open, although only the latest one is inspected |
| TimersOnTime.FiresOnTime | internal/history/history.go:380-435 | Every TimerFired event comes from an unfired row past its time, which the same scan marks, and which goes back to a Sleep of the run |
| TimersOnTime.ScanFires | internal/history/history.go:380-435 | A scan marks all unfired rows with fire_at <= now if they are fewer than 100, otherwise exactly 100 of them, and no others; each gets a TimerFired row of its number in its run and a new workflow task |
| TimersOnTime.DueTimersFire | internal/persistence/persistence.go:321-336 | Over whole runs: after a scan no timer is overdue, unless 100 or more were, of which 100 have fired |
| TimersOnTime.SleepsLongEnough | sdk/workflow/context.go:126-148 | A Sleep of d ends less than a millisecond before d has passed at the earliest, counted from the answer that started it |
| TimersOnTime.SleepArithmetic | internal/history/history.go:169 | The stored delay is d rounded toward zero to whole milliseconds of 1,000,000 ns and does not overflow |
| Leases.GrantsAreApart | internal/persistence/persistence.go:287-297 | Two grants of one task are separated by a reclaim after its expiry, and by more than 30,000,000,000 ns |
| Leases.AbandonedTaskReturns | internal/persistence/persistence.go:287-297 | The first reclaim more than 30,000,000,000 ns after a poll leaves the task unleased, if it is still there and has not been polled again |
| Leases.StepKeepsRows | internal/persistence/persistence.go:232-238 | A task row changes only by a poll or a reclaim while it exists |
| Leases.PollTakesTheOldest | internal/persistence/persistence.go:185-247 | Owner and expiry are both set or both null; a poll hands out the smallest visible unleased id of its queue and type, and leases it to the worker for 30 seconds with all else unchanged |
| Counters.CountersBalance | internal/history/history.go:224-227 | After every step started less terminated is the number of open runs, scheduled less finished that of live activity tasks, timers started less fired that of unfired rows |
| Ledger.CountersCount | internal/history/history.go:224-227 | After every step each of nine counters is the number of events of its kind in all histories, and the retry counter is the number of failure reports that led to another attempt |
| Store.OrderByEventId | internal/persistence/persistence.go:127-132 | The result is a permutation of the rows in order of event id |
| Store.Persistence.BeginTx | internal/persistence/persistence.go:389-391 | A new transaction sees the committed rows |
| Store.Persistence.InsertWorkflowExecution | internal/persistence/persistence.go:28-37 | The row is added under its primary key, or refused with nothing changed if the key is taken |
| Store.Persistence.GetWorkflowExecution | internal/persistence/persistence.go:39-64 | The committed row, or not found |
| Store.Persistence.GetLatestExecution | internal/persistence/persistence.go:66-96 | A run of the workflow id such that none started later, or none if there is none |
| Store.Persistence.UpdateWorkflowStatus | internal/persistence/persistence.go:98-109 | Status and closing time of that row and nothing else |
| Store.Persistence.InsertEvent | internal/persistence/persistence.go:111-124 | The event is appended to the rows of its run |
| Store.Persistence.GetEvents | internal/persistence/persistence.go:126-168 | All committed events of the run in order of event id, none of an open transaction |
| Store.Persistence.InsertTask | internal/persistence/persistence.go:170-183 | A row under the next serial id |
| Store.Persistence.PollTask | internal/persistence/persistence.go:185-247 | The smallest pollable id is leased for 30 seconds and its row returned as it was; none exactly when no row qualifies |
| Store.Persistence.GetTask | internal/persistence/persistence.go:249-285 | The committed row, or not found |
| Store.Persistence.ReclaimExpiredLeases | internal/persistence/persistence.go:287-297 | Exactly the expired leases are released, and counted |
| Store.Persistence.CompleteTask | internal/persistence/persistence.go:299-308 | The row goes, if it was there |
| Store.Persistence.InsertTimer | internal/persistence/persistence.go:310-319 | An unfired row under the next serial id |
| Store.Persistence.GetDueTimers | internal/persistence/persistence.go:321-358 | Distinct rows with fire_at <= now that have not fired, at most 100, and all such rows when fewer |
| Store.Persistence.MarkTimerFired | internal/persistence/persistence.go:360-371 | The row is marked if it was unfired |
| Store.Persistence.InsertWorkflowTaskIfNotExists | internal/persistence/persistence.go:373-387 | A row with the column defaults, unless the run has a workflow task in whatever state |
| HistoryService.History.StartWorkflow | internal/history/history.go:36-92 | The step as modelled: refused and unchanged if the latest run is open or the run id is taken, otherwise run, event and task |
| HistoryService.History.CompleteWorkflowTask | internal/history/history.go:94-230 | The loop over the commands is their application one after another; closed runs only lose the task; errors change nothing |
| HistoryService.History.CompleteActivityTask | internal/history/history.go:232-287 | Event, consumed task and wake-up together, or not found and nothing |
| HistoryService.History.FailActivityTask | internal/history/history.go:289-378 | Retry while attempts are left, otherwise event, consumed task and wake-up; or not found and nothing |
| HistoryService.History.FireTimer | internal/history/history.go:392-427 | One firing, with the event id computed from committed rows |
| HistoryService.History.ScanTimers | internal/history/history.go:380-435 | The firings of one batch of due timers, or nothing |
| HistoryService.History.SignalWorkflow | internal/history/history.go:437-495 | Refused and unchanged unless the run, by default the latest one, is open; otherwise the event, and a task if there is none |
| Frontend.Handler.PollWorkflowTask | internal/frontend/grpc/handler.go:42-75 | The oldest pollable task is leased, and the history handed out is read after that |
| Frontend.Handler.PollActivityTask | internal/frontend/grpc/handler.go:90-109 | The oldest pollable activity task is leased and its name and input handed out |
| Frontend.MarshalEvents | internal/frontend/grpc/handler.go:166-180 | Every field replay reads arrives, in the same order |
| Sdk.Context.constructor | sdk/workflow/context.go:23-30 | A new context has made no calls and has no commands |
| Sdk.Context.ExecuteActivity | sdk/workflow/context.go:91-124 | The future carries the name and the number of the call; a ScheduleActivity command with the context's queue, that name, number and input is added exactly when the history has no ActivityScheduled row of that name and number |
| Sdk.Context.Get | sdk/workflow/context.go:65-89 | Success with d exactly when the first row that ends the activity is ActivityCompleted with data d, an error exactly when it is ActivityFailed, suspension exactly when there is no such row |
| Sdk.Context.Sleep | sdk/workflow/context.go:126-149 | Over exactly when a TimerFired row has the call's number; a StartTimer command in milliseconds is added exactly when neither a TimerStarted nor a TimerFired row has it |
| Sdk.Context.ReceiveSignal | sdk/workflow/context.go:151-170 | The data of the row of that name that as many such rows precede as were consumed, which is then one more; suspension exactly when there are no more such rows than were consumed |
| Sdk.WorkflowInput | sdk/worker.go:112-118 | The data of the first WorkflowStarted event |
| Sdk.ExecuteWorkflowTask | sdk/worker.go:104-177 | Driving the function call by call yields exactly the commands of its replay, the ending included; no report without a registered function or a decodable input |
| Sdk.IndicesInRange | sdk/workflow/context.go:70-114 | The call numbers of a sound function fit an int32 |

## Left out

- Interleavings inside one handler, SQL isolation, row locks, `SKIP LOCKED` contention and connection errors: a step
  happens as a whole or not at all.
- Sdk.ExecuteWorkflowTask: assumes that the function's run ends or suspends; for one that loops forever the worker never
  answers.
- gRPC transport, status mapping, interceptors and generated code; the poll loops of the worker; the loops that call the
  scanner and the reclaimer, which become steps that may happen at any time.
- JSON encoding and reflection: payloads are opaque, and `json.Marshal` of an activity input that fails is not modelled.
- `executeActivityTask` (sdk/worker.go:195-245): which report a worker sends is a step of the environment; both reports
  may come at any time after a poll.
- `unmarshalCommands` (internal/frontend/grpc/handler.go): commands have one type on both sides of the wire here.
- `HasPendingActivities` (sdk/workflow/context.go:36-55), which nothing calls.
- Workflow functions that panic with other values, and command lists no worker sends.
- The columns `events.id` and `created_at`, which nothing reads; the metrics for task polls and reclaimed leases.
- Rounding of floating-point numbers in the retry delay: it is computed over reals.
- Restarts of the engine, which reset the counters.
