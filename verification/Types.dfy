/** The rows, messages and constants the engine and the worker share. */
module Types {

  datatype Option<+T> = None | Some(value: T)

  /** Payloads are opaque: decoding one is a function of its bytes that the workflow applies. */
  type Bytes = seq<bv8>

  /** A run is addressed by the primary key of workflow_executions. */
  datatype RunKey = RunKey(workflowId: string, runId: string)

  datatype Status = Running | Completed | Failed

  datatype Execution = Execution(
    workflowType: string,
    taskQueue: string,
    status: Status,
    startedAt: int,
    closedAt: Option<int>)

  datatype EventType =
    | WorkflowStarted
    | ActivityScheduled
    | ActivityCompleted
    | ActivityFailed
    | TimerStarted
    | TimerFired
    | SignalReceived
    | WorkflowCompleted
    | WorkflowFailed

  datatype Event = Event(
    eventId: int,
    kind: EventType,
    activityName: string,
    activityIndex: int,
    signalName: string,
    timerIndex: int,
    data: Bytes)

  datatype TaskType = WorkflowTask | ActivityTask

  datatype Task = Task(
    queue: string,
    kind: TaskType,
    workflowType: string,
    key: RunKey,
    scheduledEventId: int,
    input: Bytes,
    activityName: string,
    activityIndex: int,
    attempt: int,
    maxAttempts: int,
    visibleAt: int,
    leaseOwner: Option<string>,
    leaseExpiresAt: Option<int>)

  datatype Timer = Timer(key: RunKey, timerIndex: int, fireAt: int, fired: bool)

  datatype Command =
    | ScheduleActivity(queue: string, name: string, index: int, input: Bytes)
    | StartTimer(timerIndex: int, durationMs: int)
    | CompleteWorkflow(result: Bytes)
    | FailWorkflow(message: Bytes)

  datatype Error = NotFound | AlreadyRunning | NotRunning | Duplicate

  datatype Result<+T> = Ok(value: T) | Err(error: Error)

  /** Times are nanoseconds since the Unix epoch. */
  const SECOND: int := 1_000_000_000
  const MILLISECOND: int := 1_000_000

  /** A time.Time that was never set lies in year 1, so such a task is visible at once. */
  const GO_ZERO_TIME: int := -62_135_596_800 * SECOND

  const LEASE: int := 30 * SECOND
  const SCAN_LIMIT: nat := 100
}
