/** internal/history/history.go: the handlers, statement by statement, each proved to be the step it is modelled as. */
module HistoryService {
  import opened Types
  import opened Tables
  import opened Backoff
  import opened Store
  import Handlers

  class History {
    const p: Persistence
    var metrics: Handlers.Metrics

    constructor (p: Persistence)
      ensures this.p == p && metrics == Handlers.ZERO
    {
      this.p := p;
      metrics := Handlers.ZERO;
    }

    /** What a handler has left behind. */
    function Outcome(r: Result<()>): Handlers.Handled
      reads this, p
    {
      Handlers.Handled(p.db, metrics, r)
    }

    method StartWorkflow(workflowId: string, runId: string, workflowType: string, taskQueue: string, input: Bytes,
                         now: int)
      returns (r: Result<()>)
      modifies this`metrics, p
      ensures exists latest ::
        && LatestIs(old(p.db), workflowId, latest)
        && Outcome(r) == Handlers.StartWorkflow(old(p.db), old(metrics), now, RunKey(workflowId, runId), latest,
                                                workflowType, taskQueue, input)
    {
      var tx := p.BeginTx();
      var latest := p.GetLatestExecution(workflowId);
      if latest.Some? && p.db.executions[latest.value].status == Running {
        return Err(AlreadyRunning);
      }
      var key := RunKey(workflowId, runId);
      var inserted := p.InsertWorkflowExecution(tx, key, Execution(workflowType, taskQueue, Running, now, None));
      if inserted.Err? {
        return inserted;
      }
      p.InsertEvent(tx, key, Event(1, WorkflowStarted, "", 0, "", 0, input));
      p.InsertTask(tx, Task(taskQueue, WorkflowTask, workflowType, key, 1, input, "", 0, 0, 0, GO_ZERO_TIME,
                            None, None));
      p.Commit(tx);
      metrics := metrics.(workflowsStarted := metrics.workflowsStarted + 1);
      return Ok(());
    }

    method CompleteWorkflowTask(taskId: int, key: RunKey, commands: seq<Command>, now: int) returns (r: Result<()>)
      modifies this`metrics, p
      ensures Outcome(r) == Handlers.CompleteWorkflowTask(old(p.db), old(metrics), now, taskId, key, commands)
    {
      var tx := p.BeginTx();
      var found := p.GetWorkflowExecution(key);
      if found.Err? {
        return Err(found.error);
      }
      var exec := found.value;
      if exec.status != Running {
        p.CompleteTask(tx, taskId);
        p.Commit(tx);
        return Ok(());
      }
      var events := p.GetEvents(key);
      var nextEventId := |events| + 1;
      var scheduled, timersStarted, completed, failed := 0, 0, 0, 0;
      for i := 0 to |commands|
        invariant p.db == old(p.db) && metrics == old(metrics)
        invariant Handlers.Progress(tx.db, nextEventId, scheduled, timersStarted, completed, failed)
               == Handlers.ApplyCommands(Handlers.Begin(p.db, key), now, key, exec, commands[..i])
      {
        assert commands[..i + 1][..i] == commands[..i];
        match commands[i] {
          case ScheduleActivity(queue, name, index, input) =>
            p.InsertEvent(tx, key, Event(nextEventId, ActivityScheduled, name, index, "", 0, input));
            scheduled := scheduled + 1;
            p.InsertTask(tx, Task(queue, ActivityTask, exec.workflowType, key, nextEventId, input, name, index, 1,
                                  DEFAULT_RETRY_POLICY.maxAttempts, GO_ZERO_TIME, None, None));
            nextEventId := nextEventId + 1;
          case StartTimer(index, durationMs) =>
            p.InsertEvent(tx, key, Event(nextEventId, TimerStarted, "", 0, "", index, []));
            p.InsertTimer(tx, Timer(key, index, now + durationMs * MILLISECOND, false));
            timersStarted := timersStarted + 1;
            nextEventId := nextEventId + 1;
          case CompleteWorkflow(result) =>
            p.InsertEvent(tx, key, Event(nextEventId, WorkflowCompleted, "", 0, "", 0, result));
            p.UpdateWorkflowStatus(tx, key, Completed, now);
            completed := completed + 1;
          case FailWorkflow(message) =>
            p.InsertEvent(tx, key, Event(nextEventId, WorkflowFailed, "", 0, "", 0, message));
            p.UpdateWorkflowStatus(tx, key, Failed, now);
            failed := failed + 1;
        }
      }
      assert commands[..|commands|] == commands;
      p.CompleteTask(tx, taskId);
      p.Commit(tx);
      metrics := metrics.(activitiesScheduled := metrics.activitiesScheduled + scheduled,
                          timersStarted := metrics.timersStarted + timersStarted,
                          workflowsCompleted := metrics.workflowsCompleted + completed,
                          workflowsFailed := metrics.workflowsFailed + failed);
      return Ok(());
    }

    method CompleteActivityTask(taskId: int, key: RunKey, result: Bytes) returns (r: Result<()>)
      modifies this`metrics, p
      ensures Outcome(r) == Handlers.CompleteActivityTask(old(p.db), old(metrics), taskId, key, result)
    {
      var tx := p.BeginTx();
      var found := p.GetTask(taskId);
      if found.Err? {
        return Err(found.error);
      }
      var task := found.value;
      var events := p.GetEvents(key);
      var nextEventId := |events| + 1;
      p.InsertEvent(tx, key, Event(nextEventId, ActivityCompleted, task.activityName, task.activityIndex,
                                   "", 0, result));
      p.CompleteTask(tx, taskId);
      var exec := p.GetWorkflowExecution(key);
      if exec.Err? {
        return Err(exec.error);
      }
      p.InsertTask(tx, Handlers.WakeTask(exec.value, key, nextEventId));
      p.Commit(tx);
      metrics := metrics.(activitiesCompleted := metrics.activitiesCompleted + 1);
      return Ok(());
    }

    /** jitter is the draw of the random number generator. */
    method FailActivityTask(taskId: int, key: RunKey, message: Bytes, now: int, jitter: real) returns (r: Result<()>)
      modifies this`metrics, p
      ensures Outcome(r) == Handlers.FailActivityTask(old(p.db), old(metrics), now, taskId, key, message, jitter)
    {
      var tx := p.BeginTx();
      var found := p.GetTask(taskId);
      if found.Err? {
        return Err(found.error);
      }
      var task := found.value;
      if task.attempt < task.maxAttempts {
        var delay := RetryDelay(DEFAULT_RETRY_POLICY, task.attempt, jitter);
        p.CompleteTask(tx, taskId);
        p.InsertTask(tx, Task(task.queue, ActivityTask, task.workflowType, task.key, task.scheduledEventId, task.input,
                              task.activityName, task.activityIndex, task.attempt + 1, task.maxAttempts, now + delay,
                              None, None));
        p.Commit(tx);
        metrics := metrics.(activityRetries := metrics.activityRetries + 1);
        return Ok(());
      }
      var events := p.GetEvents(key);
      var nextEventId := |events| + 1;
      p.InsertEvent(tx, key, Event(nextEventId, ActivityFailed, task.activityName, task.activityIndex, "", 0, message));
      p.CompleteTask(tx, taskId);
      var exec := p.GetWorkflowExecution(key);
      if exec.Err? {
        return Err(exec.error);
      }
      p.InsertTask(tx, Handlers.WakeTask(exec.value, key, nextEventId));
      p.Commit(tx);
      metrics := metrics.(activitiesFailed := metrics.activitiesFailed + 1);
      return Ok(());
    }

    /** One turn of the loop of ScanTimers. It reads the committed history and execution, not those of the open
        transaction. */
    method FireTimer(tx: Tx, row: TimerRow) returns (r: Result<()>)
      requires row.id in p.db.timers && row.timer == p.db.timers[row.id]
      modifies tx
      ensures r == if row.timer.key in p.db.executions then Ok(()) else Err(NotFound)
      ensures r.Ok? ==> tx.db == Handlers.FireTimer(old(tx.db), p.db, row.id)
    {
      var timer := row.timer;
      var events := p.GetEvents(timer.key);
      var nextEventId := |events| + 1;
      p.InsertEvent(tx, timer.key, Event(nextEventId, TimerFired, "", 0, "", timer.timerIndex, []));
      p.MarkTimerFired(tx, row.id);
      var exec := p.GetWorkflowExecution(timer.key);
      if exec.Err? {
        return Err(exec.error);
      }
      p.InsertTask(tx, Handlers.WakeTask(exec.value, timer.key, nextEventId));
      return Ok(());
    }

    method ScanTimers(now: int) returns (r: Result<()>)
      modifies this`metrics, p
      ensures exists batch ::
        && DueBatch(old(p.db), now, batch)
        && Outcome(r) == Handlers.ScanTimers(old(p.db), old(metrics), batch)
    {
      var tx := p.BeginTx();
      var due := p.GetDueTimers(tx, now);
      ghost var batch := Ids(due);
      for i := 0 to |due|
        invariant p.db == old(p.db) && metrics == old(metrics)
        invariant Handlers.Owned(p.db, batch[..i])
        invariant tx.db == Handlers.FireTimers(p.db, batch[..i])
      {
        OneMore(p.db, batch, i);
        var fired := FireTimer(tx, due[i]);
        if fired.Err? {
          return fired;
        }
      }
      assert batch[..|due|] == batch;
      p.Commit(tx);
      metrics := metrics.(timersFired := metrics.timersFired + |due|);
      return Ok(());
    }

    /** An empty run id stands for the run of the workflow that started last. */
    method SignalWorkflow(workflowId: string, runId: string, signalName: string, input: Bytes, now: int)
      returns (r: Result<()>)
      modifies this`metrics, p
      ensures runId != "" ==>
        Outcome(r) == Handlers.SignalWorkflow(old(p.db), old(metrics), now, RunKey(workflowId, runId),
                                              signalName, input)
      ensures runId == "" ==> exists latest ::
        && LatestIs(old(p.db), workflowId, latest)
        && Outcome(r) ==
             if latest.Some? then Handlers.SignalWorkflow(old(p.db), old(metrics), now, latest.value, signalName, input)
             else Handlers.Handled(old(p.db), old(metrics), Err(NotFound))
    {
      var key := RunKey(workflowId, runId);
      if runId == "" {
        var latest := p.GetLatestExecution(workflowId);
        if latest.None? {
          return Err(NotFound);
        }
        key := latest.value;
      }
      var tx := p.BeginTx();
      var found := p.GetWorkflowExecution(key);
      if found.Err? {
        return Err(found.error);
      }
      var exec := found.value;
      if exec.status != Running {
        return Err(NotRunning);
      }
      var events := p.GetEvents(key);
      var nextEventId := |events| + 1;
      p.InsertEvent(tx, key, Event(nextEventId, SignalReceived, "", 0, signalName, 0, input));
      p.InsertWorkflowTaskIfNotExists(tx, Handlers.WakeTask(exec, key, nextEventId), now);
      p.Commit(tx);
      metrics := metrics.(signalsDelivered := metrics.signalsDelivered + 1);
      return Ok(());
    }
  }

  /** A scan is the firings of its batch one after another, and fails with the first run it does not find. */
  lemma OneMore(db: Db, batch: seq<int>, i: nat)
    requires i < |batch| && Handlers.Owned(db, batch[..i])
    ensures batch[i] in db.timers && db.timers[batch[i]].key in db.executions <==> Handlers.Owned(db, batch[..i + 1])
    ensures Handlers.Owned(db, batch) ==> Handlers.Owned(db, batch[..i + 1])
    ensures Handlers.Owned(db, batch[..i + 1]) ==>
      Handlers.FireTimers(db, batch[..i + 1]) == Handlers.FireTimer(Handlers.FireTimers(db, batch[..i]), db, batch[i])
  {
    var more := batch[..i + 1];
    assert more[..i] == batch[..i] && more[i] == batch[i];
    assert forall k :: 0 <= k < i ==> more[k] == batch[..i][k];
    assert forall k :: 0 <= k <= i ==> more[k] == batch[k];
    hide Handlers.FireTimer;
  }
}
