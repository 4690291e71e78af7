/** internal/persistence/persistence.go: the connection pool, transactions on it, and the statements they run. */
module Store {
  import opened Types
  import opened Counting
  import opened Tables
  import opened Handlers

  /** An open transaction: its own writes on top of the rows that were committed when it began. */
  class Tx {
    var db: Db

    constructor (committed: Db)
      ensures db == committed
    {
      db := committed;
    }
  }

  datatype TaskRow = TaskRow(id: int, task: Task)

  datatype TimerRow = TimerRow(id: int, timer: Timer)

  datatype Found = Found(key: RunKey, execution: Execution)

  /** The ids of some rows, in their order. */
  function Ids(rows: seq<TimerRow>): seq<int> {
    seq(|rows|, i requires 0 <= i < |rows| => rows[i].id)
  }

  /** ORDER BY event_id, which leaves rows with equal ids in an order of its own. */
  method OrderByEventId(rows: seq<Event>) returns (view: seq<Event>)
    ensures OrderedBy(view, rows)
  {
    view := [];
    for i := 0 to |rows|
      invariant OrderedBy(view, rows[..i])
    {
      var j := |view|;
      while j > 0 && view[j - 1].eventId > rows[i].eventId
        invariant 0 <= j <= |view|
        invariant forall b :: j <= b < |view| ==> rows[i].eventId < view[b].eventId
      {
        j := j - 1;
      }
      InsertedInOrder(view, rows[..i], rows[i], j);
      assert rows[..i + 1] == rows[..i] + [rows[i]];
      view := view[..j] + [rows[i]] + view[j..];
    }
    assert rows[..|rows|] == rows;
  }

  lemma InsertedInOrder(view: seq<Event>, rows: seq<Event>, e: Event, j: nat)
    requires OrderedBy(view, rows) && j <= |view|
    requires j > 0 ==> view[j - 1].eventId <= e.eventId
    requires forall b :: j <= b < |view| ==> e.eventId < view[b].eventId
    ensures OrderedBy(view[..j] + [e] + view[j..], rows + [e])
  {
    InsertedMembers(view, e, j);
    var u := view[..j] + [e] + view[j..];
    forall a, b | 0 <= a < b < |u| ensures u[a].eventId <= u[b].eventId {
      hide OrderedBy;
      InsertedAt(view, e, j, a);
      InsertedAt(view, e, j, b);
    }
  }

  lemma InsertedMembers(view: seq<Event>, e: Event, j: nat)
    requires j <= |view|
    ensures multiset(view[..j] + [e] + view[j..]) == multiset(view) + multiset{e}
  {
    assert view == view[..j] + view[j..];
  }

  lemma InsertedAt(view: seq<Event>, e: Event, j: nat, a: nat)
    requires j <= |view| && a <= |view|
    ensures (view[..j] + [e] + view[j..])[a] == if a < j then view[a] else if a == j then e else view[a - 1]
  {
  }

  class Persistence {
    /** The committed rows: what every statement outside a transaction sees. */
    var db: Db

    constructor ()
      ensures db == EMPTY
    {
      db := EMPTY;
    }

    method BeginTx() returns (tx: Tx)
      ensures fresh(tx) && tx.db == db
    {
      tx := new Tx(db);
    }

    method Commit(tx: Tx)
      modifies this
      ensures db == tx.db
    {
      db := tx.db;
    }

    /* ---- workflow_executions ---- */

    /** The primary key admits one row for each run. */
    method InsertWorkflowExecution(tx: Tx, key: RunKey, ex: Execution) returns (r: Result<()>)
      modifies tx
      ensures r == if key in old(tx.db).executions then Err(Duplicate) else Ok(())
      ensures tx.db == if r.Ok? then AddExecution(old(tx.db), key, ex) else old(tx.db)
    {
      if key in tx.db.executions {
        return Err(Duplicate);
      }
      r := Ok(());
      tx.db := tx.db.(executions := tx.db.executions[key := ex]);
    }

    method GetWorkflowExecution(key: RunKey) returns (r: Result<Execution>)
      ensures r == if key in db.executions then Ok(db.executions[key]) else Err(NotFound)
    {
      if key !in db.executions {
        return Err(NotFound);
      }
      return Ok(db.executions[key]);
    }

    /** The run of the workflow id that started last, whatever its state. */
    method GetLatestExecution(workflowId: string) returns (latest: Option<RunKey>)
      ensures LatestIs(db, workflowId, latest)
    {
      latest := None;
      var todo := db.executions.Keys;
      while todo != {}
        invariant todo <= db.executions.Keys
        invariant latest.Some? ==> latest.value in db.executions && latest.value.workflowId == workflowId
        invariant forall k :: k in db.executions && k !in todo && k.workflowId == workflowId ==>
          latest.Some? && db.executions[k].startedAt <= db.executions[latest.value].startedAt
      {
        var k :| k in todo;
        todo := todo - {k};
        if k.workflowId == workflowId
           && (latest.None? || db.executions[latest.value].startedAt < db.executions[k].startedAt) {
          latest := Some(k);
        }
      }
    }

    method UpdateWorkflowStatus(tx: Tx, key: RunKey, status: Status, now: int)
      modifies tx
      ensures tx.db == SetStatus(old(tx.db), key, status, now)
    {
      if key in tx.db.executions {
        var ex := tx.db.executions[key].(status := status);
        if status == Completed || status == Failed {
          ex := ex.(closedAt := Some(now));
        }
        tx.db := tx.db.(executions := tx.db.executions[key := ex]);
      }
    }

    /* ---- events ---- */

    method InsertEvent(tx: Tx, key: RunKey, e: Event)
      modifies tx
      ensures tx.db == AppendEvent(old(tx.db), key, e)
    {
      var rows := if key in tx.db.events then tx.db.events[key] else [];
      tx.db := tx.db.(events := tx.db.events[key := rows + [e]]);
    }

    /** The committed history of a run; the writes of an open transaction are not in it. */
    method GetEvents(key: RunKey) returns (events: seq<Event>)
      ensures OrderedBy(events, Rows(db, key)) && |events| == |Rows(db, key)|
    {
      var rows := OrderByEventId(Rows(db, key));
      assert |multiset(rows)| == |rows| && |multiset(Rows(db, key))| == |Rows(db, key)|;
      events := [];
      for i := 0 to |rows|
        invariant events == rows[..i]
      {
        events := events + [rows[i]];
      }
      assert rows[..|rows|] == rows;
    }

    /* ---- tasks ---- */

    method InsertTask(tx: Tx, t: Task)
      modifies tx
      ensures tx.db == AddTask(old(tx.db), t)
    {
      tx.db := tx.db.(tasks := tx.db.tasks[tx.db.taskSeq := t], taskSeq := tx.db.taskSeq + 1);
    }

    /** Lease the oldest task of the queue and type that is visible and unleased; None when there is none. */
    method PollTask(queue: string, kind: TaskType, owner: string, now: int) returns (r: Option<TaskRow>)
      modifies this
      ensures match r
        case None => db == old(db) && forall id :: id in db.tasks ==> !Pollable(db.tasks[id], queue, kind, now)
        case Some(row) =>
          && NextTask(old(db), queue, kind, now, row.id) && row.task == old(db).tasks[row.id]
          && db == LeaseTask(old(db), row.id, owner, now)
      ensures r.None? ==> forall id :: id in db.tasks ==> var t := db.tasks[id];
        t.queue != queue || t.kind != kind || t.leaseOwner.Some? || t.visibleAt > now
      ensures r.Some? ==> var t := r.value.task;
        && t.queue == queue && t.kind == kind && t.leaseOwner.None? && t.visibleAt <= now
        && r.value.id in db.tasks
        && db.tasks[r.value.id] == t.(leaseOwner := Some(owner), leaseExpiresAt := Some(now + 30_000_000_000))
    {
      r := None;
      var todo := db.tasks.Keys;
      while todo != {}
        invariant todo <= db.tasks.Keys && db == old(db)
        invariant r.Some? ==>
          r.value.id in db.tasks && r.value.task == db.tasks[r.value.id] && Pollable(r.value.task, queue, kind, now)
        invariant forall id :: id in db.tasks && id !in todo && Pollable(db.tasks[id], queue, kind, now) ==>
          r.Some? && r.value.id <= id
      {
        ghost var member := HasMember(todo);
        var id: int :| id in todo;
        todo := todo - {id};
        if Pollable(db.tasks[id], queue, kind, now) && (r.None? || id < r.value.id) {
          r := Some(TaskRow(id, db.tasks[id]));
        }
      }
      if r.Some? {
        var leased := r.value.task.(leaseOwner := Some(owner), leaseExpiresAt := Some(now + LEASE));
        db := db.(tasks := db.tasks[r.value.id := leased]);
      }
    }

    method GetTask(id: int) returns (r: Result<Task>)
      ensures r == if id in db.tasks then Ok(db.tasks[id]) else Err(NotFound)
    {
      if id !in db.tasks {
        return Err(NotFound);
      }
      return Ok(db.tasks[id]);
    }

    /** Give up the leases that have run out, and say how many. */
    method ReclaimExpiredLeases(now: int) returns (n: nat)
      modifies this
      ensures db == ReclaimExpired(old(db), now)
      ensures db == old(db).(tasks := db.tasks) && db.tasks.Keys == old(db).tasks.Keys
      ensures forall id :: id in db.tasks ==> var t := old(db).tasks[id];
        db.tasks[id] == if t.leaseOwner.Some? && t.leaseExpiresAt.Some? && t.leaseExpiresAt.value < now
                        then t.(leaseOwner := None, leaseExpiresAt := None) else t
      ensures n == |Matching(old(db).tasks, (t: Task) => Expired(t, now))|
    {
      n := 0;
      var todo := db.tasks.Keys;
      ghost var expired: set<int> := {};
      while todo != {}
        invariant todo <= db.tasks.Keys && db.tasks.Keys == old(db).tasks.Keys && db == old(db).(tasks := db.tasks)
        invariant forall id :: id in db.tasks ==>
          db.tasks[id] == if id in todo then old(db).tasks[id] else Released(old(db).tasks[id], now)
        invariant expired == set id | id in old(db).tasks && id !in todo && Expired(old(db).tasks[id], now)
        invariant n == |expired|
      {
        ghost var member := HasMember(todo);
        var id: int :| id in todo;
        todo := todo - {id};
        var t := db.tasks[id];
        if t.leaseOwner.Some? && t.leaseExpiresAt.Some? && t.leaseExpiresAt.value < now {
          db := db.(tasks := db.tasks[id := t.(leaseOwner := None, leaseExpiresAt := None)]);
          expired := expired + {id};
          n := n + 1;
        }
      }
      assert expired == Matching(old(db).tasks, (t: Task) => Expired(t, now));
      ReclaimedRows(old(db), db, now);
    }

    method CompleteTask(tx: Tx, id: int)
      modifies tx
      ensures tx.db == DeleteTask(old(tx.db), id)
    {
      tx.db := tx.db.(tasks := tx.db.tasks - {id});
    }

    /** Unless the run has a workflow task in whatever state; the columns left out take their defaults. */
    method InsertWorkflowTaskIfNotExists(tx: Tx, t: Task, now: int)
      modifies tx
      ensures tx.db == AddWorkflowTaskIfNone(old(tx.db), WithDefaults(t, now))
    {
      if !(exists id :: id in tx.db.tasks && tx.db.tasks[id].key == t.key && tx.db.tasks[id].kind == WorkflowTask) {
        tx.db := tx.db.(tasks := tx.db.tasks[tx.db.taskSeq := WithDefaults(t, now)], taskSeq := tx.db.taskSeq + 1);
      }
    }

    /* ---- timers ---- */

    method InsertTimer(tx: Tx, t: Timer)
      modifies tx
      ensures tx.db == AddTimer(old(tx.db), t)
    {
      tx.db := tx.db.(timers := tx.db.timers[tx.db.timerSeq := t], timerSeq := tx.db.timerSeq + 1);
    }

    /** Up to a hundred rows that have not fired although their time has come, and all of these if they are fewer. */
    method GetDueTimers(tx: Tx, now: int) returns (rows: seq<TimerRow>)
      ensures |rows| <= 100 && forall i, j :: 0 <= i < j < |rows| ==> rows[i].id != rows[j].id
      ensures forall i :: 0 <= i < |rows| ==> !rows[i].timer.fired && rows[i].timer.fireAt <= now
      ensures |rows| < 100 ==> forall id ::
        id in tx.db.timers && !tx.db.timers[id].fired && tx.db.timers[id].fireAt <= now ==> Holds(rows, id)
      ensures DueBatch(tx.db, now, Ids(rows))
      ensures forall i :: 0 <= i < |rows| ==> rows[i].id in tx.db.timers && rows[i].timer == tx.db.timers[rows[i].id]
    {
      rows := [];
      var todo := tx.db.timers.Keys;
      while todo != {} && |rows| < SCAN_LIMIT
        invariant todo <= tx.db.timers.Keys && |rows| <= SCAN_LIMIT
        invariant forall i :: 0 <= i < |rows| ==>
          && rows[i].id in tx.db.timers && rows[i].id !in todo
          && rows[i].timer == tx.db.timers[rows[i].id] && Due(rows[i].timer, now)
        invariant forall i, j :: 0 <= i < j < |rows| ==> rows[i].id != rows[j].id
        invariant forall id :: id in tx.db.timers && id !in todo && Due(tx.db.timers[id], now) ==> Holds(rows, id)
      {
        ghost var member := HasMember(todo);
        var id: int :| id in todo;
        todo := todo - {id};
        var more := rows;
        if tx.db.timers[id].fireAt <= now && !tx.db.timers[id].fired {
          more := rows + [TimerRow(id, tx.db.timers[id])];
          assert more[|rows|].id == id;
        }
        HoldsStill(rows, more);
        rows := more;
      }
      forall id | id in tx.db.timers && Due(tx.db.timers[id], now) && todo == {} ensures id in Ids(rows) {
        var i :| 0 <= i < |rows| && rows[i].id == id;
        assert Ids(rows)[i] == id;
      }
    }

    method MarkTimerFired(tx: Tx, id: int)
      modifies tx
      ensures tx.db == MarkFired(old(tx.db), id)
    {
      if id in tx.db.timers && !tx.db.timers[id].fired {
        tx.db := tx.db.(timers := tx.db.timers[id := tx.db.timers[id].(fired := true)]);
      }
    }
  }

  /** The row that INSERT ... SELECT makes of the columns it names: the others take the defaults of the table. */
  function WithDefaults(t: Task, now: int): Task {
    t.(input := [], activityName := "", activityIndex := 0, attempt := 1, maxAttempts := 3, visibleAt := now,
       leaseOwner := None, leaseExpiresAt := None)
  }

  lemma ReclaimedRows(a: Db, b: Db, now: int)
    requires b == a.(tasks := b.tasks) && b.tasks.Keys == a.tasks.Keys
    requires forall id :: id in b.tasks ==> b.tasks[id] == Released(a.tasks[id], now)
    ensures b == ReclaimExpired(a, now)
  {
    var c := ReclaimExpired(a, now).tasks;
    forall id: int ensures id in b.tasks <==> id in c {
      assert id in b.tasks.Keys <==> id in a.tasks.Keys;
    }
    assert forall id: int :: id in b.tasks ==> b.tasks[id] == c[id];
    assert b.tasks == c;
  }

  ghost predicate Holds(rows: seq<TimerRow>, id: int) {
    exists i :: 0 <= i < |rows| && rows[i].id == id
  }

  lemma HoldsStill(rows: seq<TimerRow>, more: seq<TimerRow>)
    requires rows <= more
    ensures forall id :: Holds(rows, id) ==> Holds(more, id)
  {
    forall id | Holds(rows, id) ensures Holds(more, id) {
      var i :| 0 <= i < |rows| && rows[i].id == id;
      assert more[i].id == id;
    }
  }
}
