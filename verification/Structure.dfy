/** The shape of the tables, and how they may evolve. */
module Structure {
  import opened Types
  import opened Tables
  import opened Handlers

  ghost predicate TaskOk(db: Db, id: int)
    requires id in db.tasks
  {
    var t := db.tasks[id];
    && id < db.taskSeq
    && t.key in db.executions
    && (t.kind == WorkflowTask ==>
          t.queue == db.executions[t.key].taskQueue && t.workflowType == db.executions[t.key].workflowType)
    && (t.kind == ActivityTask ==> 1 <= t.attempt <= t.maxAttempts == 3)
    && (t.leaseOwner.Some? <==> t.leaseExpiresAt.Some?)
  }

  ghost predicate TimerOk(db: Db, id: int)
    requires id in db.timers
  {
    id < db.timerSeq && db.timers[id].key in db.executions
  }

  /** A history opens with WorkflowStarted and has no other. */
  ghost predicate RowsOk(rows: seq<Event>) {
    && |rows| > 0 && rows[0].kind == WorkflowStarted
    && forall i :: 0 < i < |rows| ==> rows[i].kind != WorkflowStarted
  }

  ghost predicate Shape(db: Db) {
    && (forall id :: id in db.tasks ==> TaskOk(db, id))
    && (forall id :: id in db.timers ==> TimerOk(db, id))
    && db.events.Keys == db.executions.Keys
    && (forall key :: key in db.executions ==> RowsOk(Rows(db, key)))
  }

  predicate SameRun(a: Execution, b: Execution) {
    a.workflowType == b.workflowType && a.taskQueue == b.taskQueue && a.startedAt == b.startedAt
  }

  /** b is a, but for its lease. */
  predicate SameTask(a: Task, b: Task) {
    a == b.(leaseOwner := a.leaseOwner, leaseExpiresAt := a.leaseExpiresAt)
  }

  /** b is a, unless it has fired since. */
  predicate SameTimer(a: Timer, b: Timer) {
    b == a || b == a.(fired := true)
  }

  /** Runs stay, histories only grow, a task row comes back under no old id, timer rows stay. */
  ghost predicate Evolves(a: Db, b: Db) {
    && (forall k :: k in a.executions ==> k in b.executions && SameRun(a.executions[k], b.executions[k]))
    && (forall k :: Rows(a, k) <= Rows(b, k))
    && a.taskSeq <= b.taskSeq
    && (forall id :: id in b.tasks && id < a.taskSeq ==> id in a.tasks && SameTask(a.tasks[id], b.tasks[id]))
    && a.timerSeq <= b.timerSeq
    && (forall id :: id in a.timers ==> id in b.timers && SameTimer(a.timers[id], b.timers[id]))
    && (forall id :: id in b.timers && id < a.timerSeq ==> id in a.timers)
  }

  lemma EvolvesRun(a: Db, b: Db, key: RunKey)
    requires Evolves(a, b) && key in a.executions
    ensures key in b.executions && SameRun(a.executions[key], b.executions[key])
    ensures Rows(a, key) <= Rows(b, key)
  {
  }

  lemma RowsGrow(a: Db, b: Db, key: RunKey)
    requires Evolves(a, b)
    ensures Rows(a, key) <= Rows(b, key)
  {
  }

  lemma EvolvesTransitive(a: Db, b: Db, c: Db)
    requires Evolves(a, b) && Evolves(b, c)
    ensures Evolves(a, c)
  {
  }

  lemma AppendRows(db: Db, key: RunKey, e: Event)
    ensures Rows(AppendEvent(db, key, e), key) == Rows(db, key) + [e]
    ensures forall k :: k != key ==> Rows(AppendEvent(db, key, e), k) == Rows(db, k)
  {
  }

  lemma AppendKeepsRuns(db: Db, key: RunKey, e: Event)
    ensures AppendEvent(db, key, e).executions == db.executions
  {
  }

  /* ---- one statement at a time ---- */

  lemma AppendShape(db: Db, key: RunKey, e: Event)
    requires Shape(db) && key in db.executions && e.kind != WorkflowStarted
    ensures Shape(AppendEvent(db, key, e)) && Evolves(db, AppendEvent(db, key, e))
  {
    var b := AppendEvent(db, key, e);
    AppendRows(db, key, e);
    assert b == db.(events := b.events) && b.events.Keys == b.executions.Keys;
    hide Rows, AppendEvent;
    forall id | id in b.tasks ensures TaskOk(b, id) {
      assert TaskOk(db, id);
    }
    forall id | id in b.timers ensures TimerOk(b, id) {
      assert TimerOk(db, id);
    }
    assert RowsOk(Rows(db, key));
  }

  /** A task row that refers to its run correctly and is not leased. */
  ghost predicate Fits(db: Db, t: Task) {
    && t.key in db.executions
    && (t.kind == WorkflowTask ==>
          t.queue == db.executions[t.key].taskQueue && t.workflowType == db.executions[t.key].workflowType)
    && (t.kind == ActivityTask ==> 1 <= t.attempt <= t.maxAttempts == 3)
    && t.leaseOwner.None? && t.leaseExpiresAt.None?
  }

  lemma AddTaskShape(db: Db, t: Task)
    requires Shape(db) && Fits(db, t)
    ensures Shape(AddTask(db, t)) && Evolves(db, AddTask(db, t))
  {
  }

  lemma DeleteShape(db: Db, id: int)
    requires Shape(db)
    ensures Shape(DeleteTask(db, id)) && Evolves(db, DeleteTask(db, id))
  {
  }

  lemma AddTimerShape(db: Db, t: Timer)
    requires Shape(db) && t.key in db.executions
    ensures Shape(AddTimer(db, t)) && Evolves(db, AddTimer(db, t))
  {
  }

  lemma MarkFiredShape(db: Db, id: int)
    requires Shape(db)
    ensures Shape(MarkFired(db, id)) && Evolves(db, MarkFired(db, id))
    ensures MarkFired(db, id).executions == db.executions
  {
  }

  lemma SetStatusShape(db: Db, key: RunKey, status: Status, now: int)
    requires Shape(db)
    ensures Shape(SetStatus(db, key, status, now)) && Evolves(db, SetStatus(db, key, status, now))
  {
    hide Shape, Evolves;
    SameRunsShape(db, SetStatus(db, key, status, now));
  }

  /** Changing what a run's row says of its state leaves every reference to the run as good as it was. */
  lemma SameRunsShape(a: Db, b: Db)
    requires Shape(a) && b == a.(executions := b.executions) && b.executions.Keys == a.executions.Keys
    requires forall k :: k in a.executions ==> k in b.executions && SameRun(a.executions[k], b.executions[k])
    ensures Shape(b) && Evolves(a, b)
  {
    assert forall k :: Rows(b, k) == Rows(a, k);
    hide Rows;
    forall id | id in b.tasks ensures TaskOk(b, id) {
      assert TaskOk(a, id);
    }
    forall id | id in b.timers ensures TimerOk(b, id) {
      assert TimerOk(a, id);
    }
  }

  lemma OpenRunShape(db: Db, key: RunKey, ex: Execution, e: Event)
    requires Shape(db) && key !in db.executions && e.kind == WorkflowStarted
    ensures Shape(AppendEvent(AddExecution(db, key, ex), key, e))
  {
    var b := AppendEvent(AddExecution(db, key, ex), key, e);
    assert Rows(b, key) == [e];
    assert forall k :: k in db.executions ==> Rows(b, k) == Rows(db, k);
    hide Rows;
  }

  lemma OpenRunEvolves(db: Db, key: RunKey, ex: Execution, e: Event)
    requires key !in db.executions && key !in db.events
    ensures Evolves(db, AppendEvent(AddExecution(db, key, ex), key, e))
  {
    var b := AppendEvent(AddExecution(db, key, ex), key, e);
    assert forall k :: Rows(db, k) <= Rows(b, k);
    hide Rows;
  }

  lemma LeaseShape(db: Db, id: int, owner: string, now: int)
    requires Shape(db) && id in db.tasks
    ensures Shape(LeaseTask(db, id, owner, now)) && Evolves(db, LeaseTask(db, id, owner, now))
  {
  }

  lemma ReclaimShape(db: Db, now: int)
    requires Shape(db)
    ensures Shape(ReclaimExpired(db, now)) && Evolves(db, ReclaimExpired(db, now))
  {
    var b := ReclaimExpired(db, now);
    forall id | id in db.tasks ensures id in b.tasks && SameTask(db.tasks[id], b.tasks[id]) && LeaseOk(b.tasks[id]) {
      assert TaskOk(db, id);
    }
    hide Shape, Evolves;
    SameTasksShape(db, b);
  }

  predicate LeaseOk(t: Task) { t.leaseOwner.Some? <==> t.leaseExpiresAt.Some? }

  /** Changing who holds a task leaves its reference to its run as good as it was. */
  lemma SameTasksShape(a: Db, b: Db)
    requires Shape(a) && b == a.(tasks := b.tasks) && (forall id :: id in b.tasks ==> id in a.tasks)
    requires forall id :: id in a.tasks ==> id in b.tasks && SameTask(a.tasks[id], b.tasks[id]) && LeaseOk(b.tasks[id])
    ensures Shape(b) && Evolves(a, b)
  {
    assert forall k :: Rows(b, k) == Rows(a, k);
    hide Rows;
    forall id | id in b.tasks ensures TaskOk(b, id) {
      assert TaskOk(a, id);
    }
    forall id | id in b.timers ensures TimerOk(b, id) {
      assert TimerOk(a, id);
    }
  }

  /* ---- one handler at a time ---- */

  lemma CommandShape(p: Progress, now: int, key: RunKey, ex: Execution, cmd: Command)
    requires Shape(p.db) && key in p.db.executions && SameRun(p.db.executions[key], ex)
    ensures var q := ApplyCommand(p, now, key, ex, cmd);
      Shape(q.db) && Evolves(p.db, q.db) && key in q.db.executions && SameRun(q.db.executions[key], ex)
  {
    hide Shape, Evolves;
    var q := ApplyCommand(p, now, key, ex, cmd);
    var db := AppendEvent(p.db, key, CommandEvent(cmd, p.nextEventId));
    AppendShape(p.db, key, CommandEvent(cmd, p.nextEventId));
    match cmd {
      case ScheduleActivity(_, _, _, _) => AddTaskShape(db, q.db.tasks[db.taskSeq]);
      case StartTimer(_, _) => AddTimerShape(db, q.db.timers[db.timerSeq]);
      case CompleteWorkflow(_) => SetStatusShape(db, key, Completed, now);
      case FailWorkflow(_) => SetStatusShape(db, key, Failed, now);
    }
    EvolvesTransitive(p.db, db, q.db);
  }

  lemma {:induction false} CommandsShape(p: Progress, now: int, key: RunKey, ex: Execution, cmds: seq<Command>)
    requires Shape(p.db) && key in p.db.executions && SameRun(p.db.executions[key], ex)
    ensures var q := ApplyCommands(p, now, key, ex, cmds);
      Shape(q.db) && Evolves(p.db, q.db) && key in q.db.executions && SameRun(q.db.executions[key], ex)
  {
    hide Shape, Evolves, ApplyCommand;
    if cmds != [] {
      CommandsShape(p, now, key, ex, cmds[..|cmds| - 1]);
      var q := ApplyCommands(p, now, key, ex, cmds[..|cmds| - 1]);
      CommandShape(q, now, key, ex, cmds[|cmds| - 1]);
      EvolvesTransitive(p.db, q.db, ApplyCommands(p, now, key, ex, cmds).db);
    } else {
      EvolvesReflexive(p.db);
    }
  }

  lemma EvolvesReflexive(db: Db)
    ensures Evolves(db, db)
  {
  }

  lemma RespondShape(db: Db, m: Metrics, now: int, taskId: int, key: RunKey, cmds: seq<Command>)
    requires Shape(db)
    ensures var b := CompleteWorkflowTask(db, m, now, taskId, key, cmds).db; Shape(b) && Evolves(db, b)
  {
    hide Shape, Evolves, ApplyCommands;
    EvolvesReflexive(db);
    if key in db.executions {
      DeleteShape(db, taskId);
      CommandsShape(Begin(db, key), now, key, db.executions[key], cmds);
      var q := ApplyCommands(Begin(db, key), now, key, db.executions[key], cmds).db;
      DeleteShape(q, taskId);
      EvolvesTransitive(db, q, DeleteTask(q, taskId));
    }
  }

  lemma FinishShape(db: Db, key: RunKey, taskId: int, e: Event)
    requires Shape(db) && key in db.executions && e.kind != WorkflowStarted
    ensures var b := FinishActivity(db, db.executions[key], key, taskId, e); Shape(b) && Evolves(db, b)
  {
    hide Shape, Evolves;
    var db1 := AppendEvent(db, key, e);
    var db2 := DeleteTask(db1, taskId);
    AppendShape(db, key, e);
    DeleteShape(db1, taskId);
    AddTaskShape(db2, WakeTask(db.executions[key], key, e.eventId));
    EvolvesTransitive(db, db1, db2);
    EvolvesTransitive(db, db2, FinishActivity(db, db.executions[key], key, taskId, e));
  }

  lemma CompleteShape(db: Db, m: Metrics, taskId: int, key: RunKey, result: Bytes)
    requires Shape(db)
    ensures var b := CompleteActivityTask(db, m, taskId, key, result).db; Shape(b) && Evolves(db, b)
  {
    hide Shape, Evolves, FinishActivity;
    EvolvesReflexive(db);
    if taskId in db.tasks && key in db.executions {
      FinishShape(db, key, taskId, ActivityEvent(ActivityCompleted, db.tasks[taskId], |Rows(db, key)| + 1, result));
    }
  }

  lemma RetryShape(db: Db, taskId: int, now: int, jitter: real)
    requires Shape(db) && taskId in db.tasks && db.tasks[taskId].kind == ActivityTask
    requires db.tasks[taskId].attempt < db.tasks[taskId].maxAttempts
    ensures var b := AddTask(DeleteTask(db, taskId), RetryTask(db.tasks[taskId], now, jitter));
      Shape(b) && Evolves(db, b)
  {
    assert TaskOk(db, taskId);
    hide Shape, Evolves;
    var t := RetryTask(db.tasks[taskId], now, jitter);
    DeleteShape(db, taskId);
    AddTaskShape(DeleteTask(db, taskId), t);
    EvolvesTransitive(db, DeleteTask(db, taskId), AddTask(DeleteTask(db, taskId), t));
  }

  lemma FailShape(db: Db, m: Metrics, now: int, taskId: int, key: RunKey, message: Bytes, jitter: real)
    requires Shape(db) && (taskId in db.tasks ==> db.tasks[taskId].kind == ActivityTask)
    ensures var b := FailActivityTask(db, m, now, taskId, key, message, jitter).db; Shape(b) && Evolves(db, b)
  {
    hide Shape, Evolves, FinishActivity, RetryTask;
    EvolvesReflexive(db);
    if taskId in db.tasks {
      var t := db.tasks[taskId];
      if t.attempt < t.maxAttempts {
        RetryShape(db, taskId, now, jitter);
      } else if key in db.executions {
        FinishShape(db, key, taskId, ActivityEvent(ActivityFailed, t, |Rows(db, key)| + 1, message));
      }
    }
  }

  lemma FireShape(db: Db, committed: Db, id: int)
    requires Shape(db) && Evolves(committed, db)
    requires id in committed.timers && committed.timers[id].key in committed.executions
    ensures var b := FireTimer(db, committed, id); Shape(b) && Evolves(db, b)
  {
    hide AddTask, Shape, Evolves, MarkFired, Rows, AppendEvent;
    var t := committed.timers[id];
    var e := BlankEvent(|Rows(committed, t.key)| + 1, TimerFired).(timerIndex := t.timerIndex);
    var db1 := AppendEvent(db, t.key, e);
    var db2 := MarkFired(db1, id);
    var w := WakeTask(committed.executions[t.key], t.key, e.eventId);
    assert FireTimer(db, committed, id) == AddTask(db2, w);
    hide FireTimer;
    EvolvesRun(committed, db, t.key);
    AppendShape(db, t.key, e);
    assert db1.executions == db.executions by { AppendKeepsRuns(db, t.key, e); }
    MarkFiredShape(db1, id);
    assert Fits(db2, w);
    AddTaskShape(db2, w);
    EvolvesTransitive(db, db1, db2);
    EvolvesTransitive(db, db2, AddTask(db2, w));
  }

  lemma {:induction false} FireAllShape(committed: Db, batch: seq<int>)
    requires Shape(committed) && Owned(committed, batch)
    ensures Shape(FireTimers(committed, batch)) && Evolves(committed, FireTimers(committed, batch))
  {
    hide Shape, Evolves, FireTimer;
    if batch != [] {
      FireAllShape(committed, batch[..|batch| - 1]);
      var db := FireTimers(committed, batch[..|batch| - 1]);
      FireShape(db, committed, batch[|batch| - 1]);
      EvolvesTransitive(committed, db, FireTimers(committed, batch));
    } else {
      EvolvesReflexive(committed);
    }
  }

  lemma StartShape(db: Db, m: Metrics, now: int, key: RunKey, latest: Option<RunKey>,
                   workflowType: string, queue: string, input: Bytes)
    requires Shape(db) && key !in db.executions && key !in db.events
    ensures var b := StartWorkflow(db, m, now, key, latest, workflowType, queue, input).db;
      Shape(b) && Evolves(db, b)
  {
    hide Shape, Evolves;
    EvolvesReflexive(db);
    var ex := Execution(workflowType, queue, Running, now, None);
    var e := BlankEvent(1, WorkflowStarted).(data := input);
    var db2 := AppendEvent(AddExecution(db, key, ex), key, e);
    var t := WakeTask(ex, key, 1).(input := input);
    OpenRunShape(db, key, ex, e);
    OpenRunEvolves(db, key, ex, e);
    AddTaskShape(db2, t);
    EvolvesTransitive(db, db2, AddTask(db2, t));
  }

  lemma SignalShape(db: Db, m: Metrics, now: int, key: RunKey, name: string, data: Bytes)
    requires Shape(db)
    ensures var b := SignalWorkflow(db, m, now, key, name, data).db; Shape(b) && Evolves(db, b)
  {
    hide Shape, Evolves;
    EvolvesReflexive(db);
    if key in db.executions {
      var id := |Rows(db, key)| + 1;
      var e := Event(id, SignalReceived, "", 0, name, 0, data);
      var t := WakeTask(db.executions[key], key, id).(attempt := 1, maxAttempts := 3, visibleAt := now);
      var db1 := AppendEvent(db, key, e);
      AppendShape(db, key, e);
      AddTaskShape(db1, t);
      EvolvesTransitive(db, db1, AddTask(db1, t));
    }
  }
}
