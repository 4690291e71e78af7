/** The four tables, and what each SQL statement of internal/persistence does to them. */
module Tables {
  import opened Types

  /** events holds a run's rows in the order of insertion; taskSeq and timerSeq are the BIGSERIAL sequences. */
  datatype Db = Db(
    executions: map<RunKey, Execution>,
    events: map<RunKey, seq<Event>>,
    tasks: map<int, Task>,
    timers: map<int, Timer>,
    taskSeq: int,
    timerSeq: int)

  const EMPTY: Db := Db(map[], map[], map[], map[], 1, 1)

  function Rows(db: Db, key: RunKey): seq<Event> {
    if key in db.events then db.events[key] else []
  }

  function AppendEvent(db: Db, key: RunKey, e: Event): Db {
    db.(events := db.events[key := Rows(db, key) + [e]])
  }

  function AddTask(db: Db, t: Task): Db {
    db.(tasks := db.tasks[db.taskSeq := t], taskSeq := db.taskSeq + 1)
  }

  /** DELETE FROM tasks WHERE id = $1: no error when the row is gone. */
  function DeleteTask(db: Db, id: int): Db {
    db.(tasks := db.tasks - {id})
  }

  function AddTimer(db: Db, t: Timer): Db {
    db.(timers := db.timers[db.timerSeq := t], timerSeq := db.timerSeq + 1)
  }

  function MarkFired(db: Db, id: int): Db {
    if id in db.timers && !db.timers[id].fired then db.(timers := db.timers[id := db.timers[id].(fired := true)])
    else db
  }

  function SetStatus(db: Db, key: RunKey, status: Status, now: int): Db {
    if key !in db.executions then db else
      var ex := db.executions[key];
      var closedAt := if status != Running then Some(now) else ex.closedAt;
      db.(executions := db.executions[key := ex.(status := status, closedAt := closedAt)])
  }

  function AddExecution(db: Db, key: RunKey, ex: Execution): Db {
    db.(executions := db.executions[key := ex])
  }

  /** The row an ORDER BY started_at DESC LIMIT 1 may return. */
  ghost predicate LatestIs(db: Db, workflowId: string, latest: Option<RunKey>) {
    match latest
    case None => forall k :: k in db.executions ==> k.workflowId != workflowId
    case Some(key) =>
      && key in db.executions && key.workflowId == workflowId
      && forall k :: k in db.executions && k.workflowId == workflowId
           ==> db.executions[k].startedAt <= db.executions[key].startedAt
  }

  predicate Pollable(t: Task, queue: string, kind: TaskType, now: int) {
    t.queue == queue && t.kind == kind && t.leaseOwner.None? && t.visibleAt <= now
  }

  /** The row PollTask's SELECT ... ORDER BY id LIMIT 1 returns. */
  ghost predicate NextTask(db: Db, queue: string, kind: TaskType, now: int, id: int) {
    && id in db.tasks && Pollable(db.tasks[id], queue, kind, now)
    && forall k :: k in db.tasks && Pollable(db.tasks[k], queue, kind, now) ==> id <= k
  }

  function LeaseTask(db: Db, id: int, owner: string, now: int): Db
    requires id in db.tasks
  {
    db.(tasks := db.tasks[id := db.tasks[id].(leaseOwner := Some(owner), leaseExpiresAt := Some(now + LEASE))])
  }

  /** lease_owner IS NOT NULL AND lease_expires_at < now(); a comparison with NULL selects no row. */
  predicate Expired(t: Task, now: int) {
    t.leaseOwner.Some? && t.leaseExpiresAt.Some? && t.leaseExpiresAt.value < now
  }

  function Released(t: Task, now: int): Task {
    if Expired(t, now) then t.(leaseOwner := None, leaseExpiresAt := None) else t
  }

  function ReclaimExpired(db: Db, now: int): Db {
    db.(tasks := map id | id in db.tasks :: Released(db.tasks[id], now))
  }

  predicate Due(t: Timer, now: int) { t.fireAt <= now && !t.fired }

  /** A result of GetDueTimers: distinct due rows in any order, all of them unless LIMIT cuts the list off. */
  ghost predicate DueBatch(db: Db, now: int, batch: seq<int>) {
    && |batch| <= SCAN_LIMIT
    && (forall i :: 0 <= i < |batch| ==> batch[i] in db.timers && Due(db.timers[batch[i]], now))
    && (forall i, j :: 0 <= i < j < |batch| ==> batch[i] != batch[j])
    && (|batch| < SCAN_LIMIT ==> forall id :: id in db.timers && Due(db.timers[id], now) ==> id in batch)
  }

  /** What GetEvents may return: the run's rows ORDER BY event_id, ties in any order. */
  ghost predicate OrderedBy(view: seq<Event>, rows: seq<Event>) {
    && multiset(view) == multiset(rows)
    && forall i, j :: 0 <= i < j < |view| ==> view[i].eventId <= view[j].eventId
  }

  predicate IsWorkflowTaskOf(t: Task, key: RunKey) { t.kind == WorkflowTask && t.key == key }

  predicate AnyWorkflowTask(db: Db, key: RunKey) {
    exists id :: id in db.tasks && IsWorkflowTaskOf(db.tasks[id], key)
  }
}
