/** What each handler of internal/history does to the tables, as one step. */
module Handlers {
  import opened Types
  import opened Tables
  import opened Backoff

  /** The domain counters of internal/metrics that the handlers increment. */
  datatype Metrics = Metrics(
    workflowsStarted: int,
    workflowsCompleted: int,
    workflowsFailed: int,
    activitiesScheduled: int,
    activitiesCompleted: int,
    activitiesFailed: int,
    activityRetries: int,
    timersStarted: int,
    timersFired: int,
    signalsDelivered: int)

  const ZERO: Metrics := Metrics(0, 0, 0, 0, 0, 0, 0, 0, 0, 0)

  /** The outcome of a handler: the tables it commits, the counters it has incremented since start, its reply. */
  datatype Handled = Handled(db: Db, metrics: Metrics, reply: Result<()>)

  function BlankEvent(id: int, kind: EventType): Event {
    Event(id, kind, "", 0, "", 0, [])
  }

  /** The workflow task that makes a worker replay the run. */
  function WakeTask(ex: Execution, key: RunKey, eventId: int): Task {
    Task(ex.taskQueue, WorkflowTask, ex.workflowType, key, eventId, [], "", 0, 0, 0, GO_ZERO_TIME, None, None)
  }

  /* ---- StartWorkflow ---- */

  function StartWorkflow(db: Db, m: Metrics, now: int, key: RunKey, latest: Option<RunKey>,
                         workflowType: string, queue: string, input: Bytes): (r: Handled)
  {
    if latest.Some? && latest.value in db.executions && db.executions[latest.value].status == Running then
      Handled(db, m, Err(AlreadyRunning))
    else if key in db.executions then Handled(db, m, Err(Duplicate))
    else
      var ex := Execution(workflowType, queue, Running, now, None);
      var db1 := AddExecution(db, key, ex);
      var db2 := AppendEvent(db1, key, BlankEvent(1, WorkflowStarted).(data := input));
      var db3 := AddTask(db2, WakeTask(ex, key, 1).(input := input));
      Handled(db3, m.(workflowsStarted := m.workflowsStarted + 1), Ok(()))
  }

  /* ---- CompleteWorkflowTask ---- */

  /** The loop variables of CompleteWorkflowTask. */
  datatype Progress = Progress(
    db: Db,
    nextEventId: int,
    scheduled: int,
    timersStarted: int,
    completed: int,
    failed: int)

  function CommandEvent(cmd: Command, id: int): Event {
    match cmd
    case ScheduleActivity(_, name, index, input) =>
      Event(id, ActivityScheduled, name, index, "", 0, input)
    case StartTimer(index, _) => BlankEvent(id, TimerStarted).(timerIndex := index)
    case CompleteWorkflow(result) => BlankEvent(id, WorkflowCompleted).(data := result)
    case FailWorkflow(message) => BlankEvent(id, WorkflowFailed).(data := message)
  }

  function ApplyCommand(p: Progress, now: int, key: RunKey, ex: Execution, cmd: Command): Progress {
    var db := AppendEvent(p.db, key, CommandEvent(cmd, p.nextEventId));
    match cmd
    case ScheduleActivity(queue, name, index, input) =>
      p.(db := AddTask(db, Task(queue, ActivityTask, ex.workflowType, key, p.nextEventId, input, name, index,
                                1, DEFAULT_RETRY_POLICY.maxAttempts, GO_ZERO_TIME, None, None)),
         nextEventId := p.nextEventId + 1,
         scheduled := p.scheduled + 1)
    case StartTimer(index, ms) =>
      p.(db := AddTimer(db, Timer(key, index, now + ms * MILLISECOND, false)),
         nextEventId := p.nextEventId + 1,
         timersStarted := p.timersStarted + 1)
    case CompleteWorkflow(_) =>
      p.(db := SetStatus(db, key, Completed, now), completed := p.completed + 1)
    case FailWorkflow(_) =>
      p.(db := SetStatus(db, key, Failed, now), failed := p.failed + 1)
  }

  function ApplyCommands(p: Progress, now: int, key: RunKey, ex: Execution, cmds: seq<Command>): Progress {
    if cmds == [] then p
    else ApplyCommand(ApplyCommands(p, now, key, ex, cmds[..|cmds| - 1]), now, key, ex, cmds[|cmds| - 1])
  }

  function Begin(db: Db, key: RunKey): Progress {
    Progress(db, |Rows(db, key)| + 1, 0, 0, 0, 0)
  }

  function CompleteWorkflowTask(db: Db, m: Metrics, now: int, taskId: int, key: RunKey, cmds: seq<Command>)
    : (r: Handled)
  {
    if key !in db.executions then Handled(db, m, Err(NotFound))
    else if db.executions[key].status != Running then Handled(DeleteTask(db, taskId), m, Ok(()))
    else
      var p := ApplyCommands(Begin(db, key), now, key, db.executions[key], cmds);
      Handled(DeleteTask(p.db, taskId),
              m.(activitiesScheduled := m.activitiesScheduled + p.scheduled,
                 timersStarted := m.timersStarted + p.timersStarted,
                 workflowsCompleted := m.workflowsCompleted + p.completed,
                 workflowsFailed := m.workflowsFailed + p.failed),
              Ok(()))
  }

  /* ---- CompleteActivityTask and FailActivityTask ---- */

  /** Record an activity's end, consume its task and wake the run. */
  function FinishActivity(db: Db, ex: Execution, key: RunKey, taskId: int, e: Event): Db {
    AddTask(DeleteTask(AppendEvent(db, key, e), taskId), WakeTask(ex, key, e.eventId))
  }

  function ActivityEvent(kind: EventType, t: Task, id: int, data: Bytes): Event {
    Event(id, kind, t.activityName, t.activityIndex, "", 0, data)
  }

  function CompleteActivityTask(db: Db, m: Metrics, taskId: int, key: RunKey, result: Bytes): (r: Handled) {
    if taskId !in db.tasks || key !in db.executions then Handled(db, m, Err(NotFound))
    else
      var e := ActivityEvent(ActivityCompleted, db.tasks[taskId], |Rows(db, key)| + 1, result);
      Handled(FinishActivity(db, db.executions[key], key, taskId, e),
              m.(activitiesCompleted := m.activitiesCompleted + 1), Ok(()))
  }

  /** The same activity again: one attempt further, hidden until the backoff has passed. */
  function RetryTask(t: Task, now: int, jitter: real): Task {
    t.(kind := ActivityTask,
       attempt := t.attempt + 1,
       visibleAt := now + RetryDelay(DEFAULT_RETRY_POLICY, t.attempt, jitter),
       leaseOwner := None,
       leaseExpiresAt := None)
  }

  function FailActivityTask(db: Db, m: Metrics, now: int, taskId: int, key: RunKey, message: Bytes, jitter: real)
    : (r: Handled)
  {
    if taskId !in db.tasks then Handled(db, m, Err(NotFound))
    else
      var t := db.tasks[taskId];
      if t.attempt < t.maxAttempts then
        Handled(AddTask(DeleteTask(db, taskId), RetryTask(t, now, jitter)),
                m.(activityRetries := m.activityRetries + 1), Ok(()))
      else if key !in db.executions then Handled(db, m, Err(NotFound))
      else
        var e := ActivityEvent(ActivityFailed, t, |Rows(db, key)| + 1, message);
        Handled(FinishActivity(db, db.executions[key], key, taskId, e),
                m.(activitiesFailed := m.activitiesFailed + 1), Ok(()))
  }

  /* ---- ScanTimers ---- */

  /** One turn of the loop; the event id is computed from the committed rows, not from those of the open transaction. */
  function FireTimer(db: Db, committed: Db, id: int): Db
    requires id in committed.timers && committed.timers[id].key in committed.executions
  {
    var t := committed.timers[id];
    var eventId := |Rows(committed, t.key)| + 1;
    AddTask(MarkFired(AppendEvent(db, t.key, BlankEvent(eventId, TimerFired).(timerIndex := t.timerIndex)), id),
            WakeTask(committed.executions[t.key], t.key, eventId))
  }

  predicate Owned(db: Db, batch: seq<int>) {
    forall i :: 0 <= i < |batch| ==> batch[i] in db.timers && db.timers[batch[i]].key in db.executions
  }

  function FireTimers(committed: Db, batch: seq<int>): Db
    requires Owned(committed, batch)
  {
    if batch == [] then committed
    else FireTimer(FireTimers(committed, batch[..|batch| - 1]), committed, batch[|batch| - 1])
  }

  function ScanTimers(db: Db, m: Metrics, batch: seq<int>): (r: Handled) {
    if !Owned(db, batch) then Handled(db, m, Err(NotFound))
    else Handled(FireTimers(db, batch), m.(timersFired := m.timersFired + |batch|), Ok(()))
  }

  /* ---- SignalWorkflow ---- */

  /** INSERT INTO tasks ... WHERE NOT EXISTS a workflow task of the run; the other columns take their defaults. */
  function AddWorkflowTaskIfNone(db: Db, t: Task): Db {
    if AnyWorkflowTask(db, t.key) then db else AddTask(db, t)
  }

  function SignalWorkflow(db: Db, m: Metrics, now: int, key: RunKey, name: string, data: Bytes): (r: Handled) {
    if key !in db.executions then Handled(db, m, Err(NotFound))
    else if db.executions[key].status != Running then Handled(db, m, Err(NotRunning))
    else
      var id := |Rows(db, key)| + 1;
      var e := Event(id, SignalReceived, "", 0, name, 0, data);
      var t := WakeTask(db.executions[key], key, id).(attempt := 1, maxAttempts := 3, visibleAt := now);
      Handled(AddWorkflowTaskIfNone(AppendEvent(db, key, e), t),
              m.(signalsDelivered := m.signalsDelivered + 1), Ok(()))
  }
}
