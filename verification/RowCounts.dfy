/** How many rows of each kind every handler adds and removes. */
module RowCounts {
  import opened Types
  import opened Counting
  import opened Tables
  import opened Handlers
  import opened Structure

  /** A filter over tasks that does not look at the lease. */
  ghost predicate LeaseBlind(g: Task -> bool) {
    forall a, b :: SameTask(a, b) ==> g(a) == g(b)
  }

  ghost function TaskCount(db: Db, g: Task -> bool): nat { |Matching(db.tasks, g)| }

  ghost function TimerCount(db: Db, g: Timer -> bool): nat { |Matching(db.timers, g)| }

  lemma AddTaskCount(db: Db, t: Task, g: Task -> bool)
    requires Shape(db)
    ensures TaskCount(AddTask(db, t), g) == TaskCount(db, g) + One(g(t))
  {
    assert forall id :: id in db.tasks ==> TaskOk(db, id) && id < db.taskSeq;
    hide Shape;
    MatchingInsert(db.tasks, db.taskSeq, t, g);
  }

  lemma DeleteTaskCount(db: Db, id: int, g: Task -> bool)
    ensures TaskCount(DeleteTask(db, id), g) == TaskCount(db, g) - if id in db.tasks then One(g(db.tasks[id])) else 0
  {
    if id in db.tasks {
      MatchingRemove(db.tasks, id, g);
    } else {
      assert db.tasks - {id} == db.tasks;
    }
  }

  lemma LeaseCount(db: Db, id: int, owner: string, now: int, g: Task -> bool)
    requires id in db.tasks && LeaseBlind(g)
    ensures TaskCount(LeaseTask(db, id, owner, now), g) == TaskCount(db, g)
  {
    var t := db.tasks[id];
    var t' := t.(leaseOwner := Some(owner), leaseExpiresAt := Some(now + LEASE));
    assert SameTask(t, t');
    MatchingUpdate(db.tasks, id, t', g);
  }

  lemma ReclaimCount(db: Db, now: int, g: Task -> bool)
    requires LeaseBlind(g)
    ensures TaskCount(ReclaimExpired(db, now), g) == TaskCount(db, g)
  {
    forall id | id in db.tasks ensures g(Released(db.tasks[id], now)) == g(db.tasks[id]) {
      assert SameTask(db.tasks[id], Released(db.tasks[id], now));
    }
    assert Matching(ReclaimExpired(db, now).tasks, g) == Matching(db.tasks, g);
  }

  lemma AddTimerCount(db: Db, t: Timer, g: Timer -> bool)
    requires Shape(db)
    ensures TimerCount(AddTimer(db, t), g) == TimerCount(db, g) + One(g(t))
  {
    assert forall id :: id in db.timers ==> TimerOk(db, id) && id < db.timerSeq;
    hide Shape;
    MatchingInsert(db.timers, db.timerSeq, t, g);
  }

  lemma MarkFiredCount(db: Db, id: int, g: Timer -> bool)
    requires id in db.timers && !db.timers[id].fired
    ensures TimerCount(MarkFired(db, id), g)
         == TimerCount(db, g) - One(g(db.timers[id])) + One(g(db.timers[id].(fired := true)))
  {
    MatchingUpdate(db.timers, id, db.timers[id].(fired := true), g);
  }

  function NewActivityTask(p: Progress, key: RunKey, ex: Execution, cmd: Command): Task
    requires cmd.ScheduleActivity?
  {
    ApplyCommand(p, 0, key, ex, cmd).db.tasks[p.db.taskSeq]
  }

  function NewTimer(key: RunKey, now: int, cmd: Command): Timer
    requires cmd.StartTimer?
  {
    Timer(key, cmd.timerIndex, now + cmd.durationMs * MILLISECOND, false)
  }

  lemma CommandCounts(p: Progress, now: int, key: RunKey, ex: Execution, cmd: Command,
                      g: Task -> bool, h: Timer -> bool)
    requires Shape(p.db) && key in p.db.executions
    ensures var q := ApplyCommand(p, now, key, ex, cmd);
      && TaskCount(q.db, g) == TaskCount(p.db, g) +
           (if cmd.ScheduleActivity? then One(g(NewActivityTask(p, key, ex, cmd))) else 0)
      && TimerCount(q.db, h) == TimerCount(p.db, h) +
           (if cmd.StartTimer? then One(h(NewTimer(key, now, cmd))) else 0)
  {
    var db := AppendEvent(p.db, key, CommandEvent(cmd, p.nextEventId));
    assert Shape(db) by {
      hide Shape;
      AppendShape(p.db, key, CommandEvent(cmd, p.nextEventId));
    }
    hide Shape, Rows, CommandEvent;
    match cmd {
      case ScheduleActivity(_, _, _, _) => AddTaskCount(db, NewActivityTask(p, key, ex, cmd), g);
      case StartTimer(_, _) => AddTimerCount(db, NewTimer(key, now, cmd), h);
      case _ =>
    }
  }

  lemma FinishCounts(db: Db, ex: Execution, key: RunKey, taskId: int, e: Event, g: Task -> bool, h: Timer -> bool)
    requires Shape(db) && key in db.executions && e.kind != WorkflowStarted && taskId in db.tasks
    ensures var b := FinishActivity(db, ex, key, taskId, e);
      && TaskCount(b, g) == TaskCount(db, g) - One(g(db.tasks[taskId])) + One(g(WakeTask(ex, key, e.eventId)))
      && TimerCount(b, h) == TimerCount(db, h)
  {
    hide Shape, TaskCount, Rows;
    var db1 := AppendEvent(db, key, e);
    AppendShape(db, key, e);
    DeleteShape(db1, taskId);
    DeleteTaskCount(db1, taskId, g);
    AddTaskCount(DeleteTask(db1, taskId), WakeTask(ex, key, e.eventId), g);
    assert TaskCount(db1, g) == TaskCount(db, g) by { SameTasks(db1, db, g); }
  }

  lemma SameTasks(a: Db, b: Db, g: Task -> bool)
    requires a.tasks == b.tasks
    ensures TaskCount(a, g) == TaskCount(b, g)
  {
  }

  lemma RetryCounts(db: Db, taskId: int, now: int, jitter: real, g: Task -> bool)
    requires Shape(db) && taskId in db.tasks
    ensures TaskCount(AddTask(DeleteTask(db, taskId), RetryTask(db.tasks[taskId], now, jitter)), g)
         == TaskCount(db, g) - One(g(db.tasks[taskId])) + One(g(RetryTask(db.tasks[taskId], now, jitter)))
  {
    hide Shape, RetryTask, TaskCount;
    DeleteShape(db, taskId);
    DeleteTaskCount(db, taskId, g);
    AddTaskCount(DeleteTask(db, taskId), RetryTask(db.tasks[taskId], now, jitter), g);
  }

  function FiringTask(committed: Db, id: int): Task
    requires id in committed.timers && committed.timers[id].key in committed.executions
  {
    var key := committed.timers[id].key;
    WakeTask(committed.executions[key], key, |Rows(committed, key)| + 1)
  }

  lemma FireTaskCount(db: Db, committed: Db, id: int, g: Task -> bool)
    requires Shape(db) && Evolves(committed, db)
    requires id in committed.timers && committed.timers[id].key in committed.executions
    ensures TaskCount(FireTimer(db, committed, id), g) == TaskCount(db, g) + One(g(FiringTask(committed, id)))
  {
    var t := committed.timers[id];
    var e := BlankEvent(|Rows(committed, t.key)| + 1, TimerFired).(timerIndex := t.timerIndex);
    var db1 := AppendEvent(db, t.key, e);
    var db2 := MarkFired(db1, id);
    assert FireTimer(db, committed, id) == AddTask(db2, FiringTask(committed, id)) && db2.tasks == db.tasks;
    hide Shape, Evolves, Rows, TaskCount, FireTimer, AddTask, MarkFired, AppendEvent, FiringTask;
    EvolvesRun(committed, db, t.key);
    AppendShape(db, t.key, e);
    MarkFiredShape(db1, id);
    AddTaskCount(db2, FiringTask(committed, id), g);
    SameTasks(db2, db, g);
  }

  lemma FireTimerCount(db: Db, committed: Db, id: int, h: Timer -> bool)
    requires id in committed.timers && committed.timers[id].key in committed.executions
    requires id in db.timers && !db.timers[id].fired
    ensures TimerCount(FireTimer(db, committed, id), h)
         == TimerCount(db, h) - One(h(db.timers[id])) + One(h(db.timers[id].(fired := true)))
  {
    var b := FireTimer(db, committed, id);
    assert b.timers == MarkFired(db, id).timers;
    hide FireTimer, MarkFired, TimerCount;
    MarkFiredCount(db, id, h);
    SameTimers(b, MarkFired(db, id), h);
  }

  function SignalEvent(db: Db, key: RunKey, name: string, data: Bytes): Event {
    Event(|Rows(db, key)| + 1, SignalReceived, "", 0, name, 0, data)
  }

  function SignalTask(db: Db, key: RunKey, now: int): Task
    requires key in db.executions
  {
    WakeTask(db.executions[key], key, |Rows(db, key)| + 1).(attempt := 1, maxAttempts := 3, visibleAt := now)
  }

  /** What an accepted signal writes. */
  lemma SignalEffect(db: Db, m: Metrics, now: int, key: RunKey, name: string, data: Bytes)
    requires SignalWorkflow(db, m, now, key, name, data).reply.Ok?
    ensures key in db.executions && SignalTask(db, key, now).kind == WorkflowTask && SignalTask(db, key, now).key == key
    ensures var r := SignalWorkflow(db, m, now, key, name, data);
      var db1 := AppendEvent(db, key, SignalEvent(db, key, name, data));
      && r.db == AddWorkflowTaskIfNone(db1, SignalTask(db, key, now))
      && r.db.events == db1.events && db1.tasks == db.tasks
      && r.db.timers == db.timers && r.db.executions == db.executions
      && r.metrics == m.(signalsDelivered := m.signalsDelivered + 1)
    ensures SignalEvent(db, key, name, data).kind == SignalReceived
  {
    hide Rows, AnyWorkflowTask;
  }

  lemma SameTimers(a: Db, b: Db, h: Timer -> bool)
    requires a.timers == b.timers
    ensures TimerCount(a, h) == TimerCount(b, h)
  {
  }

  /** A scan marks exactly its batch. */
  lemma {:induction false} FiredRows(committed: Db, batch: seq<int>, id: int)
    requires Owned(committed, batch) && id in committed.timers
    ensures id in FireTimers(committed, batch).timers
    ensures FireTimers(committed, batch).timers[id]
         == if id in batch then committed.timers[id].(fired := true) else committed.timers[id]
  {
    hide AppendEvent, WakeTask;
    if batch != [] {
      var init := batch[..|batch| - 1];
      FiredRows(committed, init, id);
      assert batch == init + [batch[|batch| - 1]];
      FireTimerRow(FireTimers(committed, init), committed, batch[|batch| - 1], id);
    }
  }

  lemma FireTimerRow(db: Db, committed: Db, n: int, id: int)
    requires n in committed.timers && committed.timers[n].key in committed.executions && id in db.timers
    ensures id in FireTimer(db, committed, n).timers
    ensures FireTimer(db, committed, n).timers[id]
         == if id == n then db.timers[id].(fired := true) else db.timers[id]
  {
    hide Rows;
  }
}
