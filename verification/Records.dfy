/** What every request of a client or a worker leaves in the tables, field by field, and how workflows come to see
    it. */
module Records {
  import opened Types
  import opened Counting
  import opened HistoryFacts
  import opened HistoryMeaning
  import opened Interpreter
  import opened ReplayLaws
  import opened Tables
  import opened Handlers
  import opened NoStuck

  /** The last row of the history is new and the others are as before. */
  ghost predicate OneMoreRow(a: Db, b: Db, key: RunKey) {
    && |Rows(b, key)| == |Rows(a, key)| + 1
    && Rows(b, key)[..|Rows(a, key)|] == Rows(a, key)
    && Rows(b, key)[|Rows(a, key)|].eventId == |Rows(a, key)| + 1
  }

  function LastRow(db: Db, key: RunKey): Event
    requires Rows(db, key) != []
  {
    Rows(db, key)[|Rows(db, key)| - 1]
  }

  predicate Unleased(t: Task) { t.leaseOwner.None? && t.leaseExpiresAt.None? }

  /** A new task, the only one, that a worker polling the run's queue is given for replaying the run. */
  ghost predicate OneMoreWorkflowTask(a: Db, b: Db, key: RunKey) {
    && a.taskSeq in b.tasks && b.tasks.Keys <= a.tasks.Keys + {a.taskSeq}
    && key in b.executions
    && var t := b.tasks[a.taskSeq];
    && t.kind == WorkflowTask && t.key == key && Unleased(t)
    && t.queue == b.executions[key].taskQueue && t.workflowType == b.executions[key].workflowType
    && Rows(b, key) != [] && t.scheduledEventId == LastRow(b, key).eventId
  }

  /** A start is refused while the latest run is open, or if the run id is taken; otherwise the run has the type, the
      queue and the input it was started with. */
  lemma StartRecords(db: Db, m: Metrics, now: int, key: RunKey, latest: Option<RunKey>, workflowType: string,
                     queue: string, input: Bytes)
    requires LatestIs(db, key.workflowId, latest) && (key in db.events ==> key in db.executions)
    ensures var r := StartWorkflow(db, m, now, key, latest, workflowType, queue, input);
      && (r.reply == Err(AlreadyRunning) <==> latest.Some? && db.executions[latest.value].status == Running)
      && (r.reply == Err(Duplicate) <==> r.reply != Err(AlreadyRunning) && key in db.executions)
      && (r.reply.Err? ==> r.reply.error == AlreadyRunning || r.reply.error == Duplicate)
      && (r.reply.Err? ==> r.db == db && r.metrics == m)
    ensures var r := StartWorkflow(db, m, now, key, latest, workflowType, queue, input);
      r.reply.Ok? ==>
        && key in r.db.executions
        && r.db.executions[key].workflowType == workflowType && r.db.executions[key].taskQueue == queue
        && r.db.executions[key].status == Running && r.db.executions[key].startedAt == now
        && Rows(db, key) == [] && OneMoreRow(db, r.db, key)
        && LastRow(r.db, key).kind == WorkflowStarted && LastRow(r.db, key).data == input
        && OneMoreWorkflowTask(db, r.db, key) && r.db.tasks[db.taskSeq].visibleAt == GO_ZERO_TIME
        && r.db.tasks[db.taskSeq].input == input
  {
  }

  /** The workers replay it with the function that is registered for the type it was started with, on that input. */
  lemma StartedFunction(code: Code, db: Db, m: Metrics, now: int, key: RunKey, latest: Option<RunKey>,
                        workflowType: string, queue: string, input: Bytes)
    requires LatestIs(db, key.workflowId, latest) && (key in db.events ==> key in db.executions)
    ensures var r := StartWorkflow(db, m, now, key, latest, workflowType, queue, input);
      r.reply.Ok? ==> key in r.db.executions && Function(code, r.db, key) == code(workflowType, input)
  {
    StartRecords(db, m, now, key, latest, workflowType, queue, input);
    hide Rows, StartWorkflow;
  }

  /** An accepted result is recorded as the activity's, with the bytes the worker reported; its task is consumed and
      the run is woken. */
  lemma CompletionRecords(db: Db, m: Metrics, id: int, key: RunKey, result: Bytes)
    requires id in db.tasks && id < db.taskSeq && key in db.executions
    ensures var r := CompleteActivityTask(db, m, id, key, result);
      && r.reply == Ok(()) && OneMoreRow(db, r.db, key)
      && LastRow(r.db, key).kind == ActivityCompleted && LastRow(r.db, key).data == result
      && LastRow(r.db, key).activityName == db.tasks[id].activityName
      && LastRow(r.db, key).activityIndex == db.tasks[id].activityIndex
      && id !in r.db.tasks && OneMoreWorkflowTask(db, r.db, key)
      && r.db.tasks[db.taskSeq].visibleAt == GO_ZERO_TIME
  {
  }

  /** An accepted failure is recorded likewise, with the message the worker reported, if it was the last attempt. */
  lemma FailureRecords(db: Db, m: Metrics, now: int, id: int, key: RunKey, message: Bytes, jitter: real)
    requires id in db.tasks && id < db.taskSeq && key in db.executions
    requires db.tasks[id].attempt >= db.tasks[id].maxAttempts
    ensures var r := FailActivityTask(db, m, now, id, key, message, jitter);
      && r.reply == Ok(()) && OneMoreRow(db, r.db, key)
      && LastRow(r.db, key).kind == ActivityFailed && LastRow(r.db, key).data == message
      && LastRow(r.db, key).activityName == db.tasks[id].activityName
      && LastRow(r.db, key).activityIndex == db.tasks[id].activityIndex
      && id !in r.db.tasks && OneMoreWorkflowTask(db, r.db, key)
      && r.db.tasks[db.taskSeq].visibleAt == GO_ZERO_TIME
  {
  }

  /** An answer for an unknown run is refused and changes nothing; one for a closed run is accepted, but does no more
      than consume its task. */
  lemma LateAnswerRecords(db: Db, m: Metrics, now: int, taskId: int, key: RunKey, cmds: seq<Command>)
    ensures var r := CompleteWorkflowTask(db, m, now, taskId, key, cmds);
      && (r.reply == Err(NotFound) <==> key !in db.executions)
      && (r.reply.Err? ==> r.reply == Err(NotFound) && r.db == db && r.metrics == m)
      && (key in db.executions && db.executions[key].status != Running ==>
            && r.reply == Ok(()) && r.metrics == m && taskId !in r.db.tasks
            && r.db == db.(tasks := r.db.tasks)
            && forall id :: id in db.tasks && id != taskId ==> id in r.db.tasks && r.db.tasks[id] == db.tasks[id])
  {
    hide ApplyCommands;
  }

  /** A signal is refused as not found for an unknown run and as not running for a closed one; otherwise its name and
      payload are recorded, and if the run has no workflow task it gets one that is visible at once. */
  lemma SignalRecords(db: Db, m: Metrics, now: int, key: RunKey, name: string, data: Bytes)
    ensures var r := SignalWorkflow(db, m, now, key, name, data);
      && (r.reply == Err(NotFound) <==> key !in db.executions)
      && (r.reply == Err(NotRunning) <==> key in db.executions && db.executions[key].status != Running)
      && (r.reply.Err? ==> r.db == db && r.metrics == m && (r.reply.error == NotFound || r.reply.error == NotRunning))
    ensures var r := SignalWorkflow(db, m, now, key, name, data);
      r.reply.Ok? ==>
        && OneMoreRow(db, r.db, key)
        && LastRow(r.db, key).kind == SignalReceived
        && LastRow(r.db, key).signalName == name && LastRow(r.db, key).data == data
        && if exists id :: id in db.tasks && db.tasks[id].kind == WorkflowTask && db.tasks[id].key == key
           then r.db.tasks == db.tasks
           else OneMoreWorkflowTask(db, r.db, key) && r.db.tasks[db.taskSeq].visibleAt == now
  {
  }

  /* ---- and how it is observed ---- */

  /** The first end of an activity that is appended is how the activity ended. */
  lemma AppendedEnd(rows: seq<Event>, e: Event, f: Future)
    requires forall i :: !EndsAt(rows, i, f.name, f.index)
    requires e.kind == ActivityCompleted || e.kind == ActivityFailed
    requires e.activityName == f.name && e.activityIndex == f.index
    ensures EndsWith(rows + [e], f.name, f.index, e.kind, e.data)
  {
    var u := rows + [e];
    forall j | 0 <= j < |rows| ensures !EndsAt(u, j, f.name, f.index) {
      assert !EndsAt(rows, j, f.name, f.index);
    }
    assert FirstEndAt(u, |rows|, f.name, f.index);
  }

  lemma OneMore(a: Db, b: Db, key: RunKey)
    requires OneMoreRow(a, b, key)
    ensures Rows(b, key) == Rows(a, key) + [LastRow(b, key)]
  {
    assert Rows(b, key)[..|Rows(a, key)|] + [LastRow(b, key)] == Rows(b, key);
  }

  lemma GetObserves(w: Workflow, h: seq<Event>, n: nat, f: Future)
    requires Replay(w, h, n).stop.None? && w(Replay(w, h, n).obs) == Get(f)
    ensures OutcomeOf(h, f).Some? ==>
      Replay(w, h, n + 1) == Trace(Replay(w, h, n).obs + [Got(f, OutcomeOf(h, f).value)], None)
  {
    hide OutcomeOf;
  }

  /** A workflow that awaits an activity gets the very result that the worker reported for it. */
  lemma ResultIsObserved(db: Db, m: Metrics, id: int, key: RunKey, result: Bytes, w: Workflow, n: nat)
    requires id in db.tasks && id < db.taskSeq && key in db.executions
    requires forall i :: !EndsAt(Rows(db, key), i, db.tasks[id].activityName, db.tasks[id].activityIndex)
    requires var f := Future(db.tasks[id].activityName, db.tasks[id].activityIndex);
      var t := Replay(w, Rows(CompleteActivityTask(db, m, id, key, result).db, key), n);
      t.stop.None? && w(t.obs) == Get(f)
    ensures var f := Future(db.tasks[id].activityName, db.tasks[id].activityIndex);
      var rows := Rows(CompleteActivityTask(db, m, id, key, result).db, key);
      Replay(w, rows, n + 1) == Trace(Replay(w, rows, n).obs + [Got(f, Succeeded(result))], None)
  {
    var b := CompleteActivityTask(db, m, id, key, result).db;
    var f := Future(db.tasks[id].activityName, db.tasks[id].activityIndex);
    CompletionRecords(db, m, id, key, result);
    hide CompleteActivityTask, Replay, OutcomeOf, EndsAt;
    OneMore(db, b, key);
    AppendedEnd(Rows(db, key), LastRow(b, key), f);
    hide Rows;
    OutcomeMeans(Rows(b, key), f);
    GetObserves(w, Rows(b, key), n, f);
  }

  /** And after the last failed attempt the very message. */
  lemma MessageIsObserved(db: Db, m: Metrics, now: int, id: int, key: RunKey, message: Bytes, jitter: real,
                          w: Workflow, n: nat)
    requires id in db.tasks && id < db.taskSeq && key in db.executions
    requires db.tasks[id].attempt >= db.tasks[id].maxAttempts
    requires forall i :: !EndsAt(Rows(db, key), i, db.tasks[id].activityName, db.tasks[id].activityIndex)
    requires var f := Future(db.tasks[id].activityName, db.tasks[id].activityIndex);
      var t := Replay(w, Rows(FailActivityTask(db, m, now, id, key, message, jitter).db, key), n);
      t.stop.None? && w(t.obs) == Get(f)
    ensures var f := Future(db.tasks[id].activityName, db.tasks[id].activityIndex);
      var rows := Rows(FailActivityTask(db, m, now, id, key, message, jitter).db, key);
      Replay(w, rows, n + 1) == Trace(Replay(w, rows, n).obs + [Got(f, Errored(message))], None)
  {
    var b := FailActivityTask(db, m, now, id, key, message, jitter).db;
    var f := Future(db.tasks[id].activityName, db.tasks[id].activityIndex);
    FailureRecords(db, m, now, id, key, message, jitter);
    hide FailActivityTask, Replay, OutcomeOf, EndsAt;
    OneMore(db, b, key);
    AppendedEnd(Rows(db, key), LastRow(b, key), f);
    hide Rows;
    OutcomeMeans(Rows(b, key), f);
    GetObserves(w, Rows(b, key), n, f);
  }

  /** A workflow that has taken all earlier signals of the name and receives once more gets the very payload. */
  lemma SignalIsObserved(db: Db, m: Metrics, now: int, key: RunKey, name: string, data: Bytes, w: Workflow, n: nat)
    requires key in db.executions && db.executions[key].status == Running
    requires var t := Replay(w, Rows(SignalWorkflow(db, m, now, key, name, data).db, key), n);
      && t.stop.None? && w(t.obs) == ReceiveSignal(name)
      && Tally(t.obs, ReceiptOf(name)) == Tally(Rows(db, key), SignalNamed(name))
    ensures var rows := Rows(SignalWorkflow(db, m, now, key, name, data).db, key);
      var k := Tally(Rows(db, key), SignalNamed(name));
      Replay(w, rows, n + 1) == Trace(Replay(w, rows, n).obs + [Received(name, k, data)], None)
  {
    var b := SignalWorkflow(db, m, now, key, name, data).db;
    SignalRecords(db, m, now, key, name, data);
    assert SignalWorkflow(db, m, now, key, name, data).reply.Ok?;
    hide SignalWorkflow, Replay, Tally;
    var k := Tally(Rows(db, key), SignalNamed(name));
    assert NthSignalAt(Rows(b, key), |Rows(db, key)|, name, k);
    hide Rows;
    SignalOrder(w, Rows(b, key), n, name);
  }
}
