/** The events each step appends to each run, and what happens to the status of the run. */
module Effects {
  import opened Types
  import opened Interpreter
  import opened Tables
  import opened Handlers
  import opened Engine
  import opened Steps

  predicate IsEnding(cmd: Command) { cmd.CompleteWorkflow? || cmd.FailWorkflow? }

  /** The command lists executeWorkflowTask builds: at most one terminal command, and that one last. */
  predicate Honest(cmds: seq<Command>) {
    forall i :: 0 <= i < |cmds| - 1 ==> !IsEnding(cmds[i])
  }

  function CommandEvents(cmds: seq<Command>, base: int): seq<Event> {
    seq(|cmds|, i requires 0 <= i < |cmds| => CommandEvent(cmds[i], base + i))
  }

  lemma ResponseIsHonest(code: Code, g: Grant, calls: nat)
    requires CanRespond(code, g, calls)
    ensures Honest(ResponseCommands(code, g, calls))
  {
    hide Replay, Honest, Commands;
    CommandsAreHonest(g.view, Replay(FunctionFor(code, g.workflowType, g.view).value, g.view, calls), g.queue);
  }

  lemma CommandsAreHonest(h: seq<Event>, t: Trace, queue: string)
    ensures Honest(Commands(h, t, queue))
  {
    var rs := Unrecorded(h, Requests(t));
    hide Unrecorded, Requests, Milliseconds;
    assert forall i :: 0 <= i < |rs| ==> !IsEnding(CommandsOf(rs, queue)[i]);
    assert |Ending(t)| <= 1;
    hide CommandsOf, Ending, IsEnding;
  }

  lemma CommandRows(p: Progress, now: int, key: RunKey, ex: Execution, cmd: Command)
    ensures var q := ApplyCommand(p, now, key, ex, cmd);
      && Rows(q.db, key) == Rows(p.db, key) + [CommandEvent(cmd, p.nextEventId)]
      && (forall k :: k != key ==> Rows(q.db, k) == Rows(p.db, k))
      && (!IsEnding(cmd) ==> q.nextEventId == p.nextEventId + 1)
  {
    hide CommandEvent;
  }

  lemma {:induction false} CommandsRows(p: Progress, now: int, key: RunKey, ex: Execution, cmds: seq<Command>)
    requires Honest(cmds)
    ensures var q := ApplyCommands(p, now, key, ex, cmds);
      && Rows(q.db, key) == Rows(p.db, key) + CommandEvents(cmds, p.nextEventId)
      && (forall k :: k != key ==> Rows(q.db, k) == Rows(p.db, k))
      && ((forall i :: 0 <= i < |cmds| ==> !IsEnding(cmds[i])) ==> q.nextEventId == p.nextEventId + |cmds|)
  {
    hide ApplyCommand, CommandEvent, Rows, IsEnding;
    if cmds != [] {
      var init, last := cmds[..|cmds| - 1], cmds[|cmds| - 1];
      CommandsRows(p, now, key, ex, init);
      var q := ApplyCommands(p, now, key, ex, init);
      CommandRows(q, now, key, ex, last);
      assert forall i :: 0 <= i < |init| ==> !IsEnding(init[i]);
      assert CommandEvents(cmds, p.nextEventId)
          == CommandEvents(init, p.nextEventId) + [CommandEvent(last, p.nextEventId + |init|)];
    } else {
      assert CommandEvents(cmds, p.nextEventId) == [];
    }
  }

  function FiredEvent(db: Db, key: RunKey, t: Timer): Event {
    BlankEvent(|Rows(db, key)| + 1, TimerFired).(timerIndex := t.timerIndex)
  }

  /** The TimerFired events one scan appends to a run: all carry the id computed before the scan began. */
  function FiredEvents(db: Db, batch: seq<int>, key: RunKey): seq<Event>
    requires forall i :: 0 <= i < |batch| ==> batch[i] in db.timers
  {
    if batch == [] then [] else
      var t := db.timers[batch[|batch| - 1]];
      FiredEvents(db, batch[..|batch| - 1], key) + if t.key == key then [FiredEvent(db, key, t)] else []
  }

  lemma FireRows(db: Db, committed: Db, id: int)
    requires id in committed.timers && committed.timers[id].key in committed.executions
    ensures var b, t := FireTimer(db, committed, id), committed.timers[id];
      && Rows(b, t.key) == Rows(db, t.key) + [FiredEvent(committed, t.key, t)]
      && b.executions == db.executions
      && forall k :: k != t.key ==> Rows(b, k) == Rows(db, k)
  {
  }

  lemma {:induction false} FireAllRows(committed: Db, batch: seq<int>, key: RunKey)
    requires Owned(committed, batch)
    ensures Rows(FireTimers(committed, batch), key) == Rows(committed, key) + FiredEvents(committed, batch, key)
    ensures FireTimers(committed, batch).executions == committed.executions
  {
    hide FireTimer, FiredEvent, Rows;
    if batch != [] {
      FireAllRows(committed, batch[..|batch| - 1], key);
      var db := FireTimers(committed, batch[..|batch| - 1]);
      FireRows(db, committed, batch[|batch| - 1]);
      assert Rows(db, key) + [] == Rows(db, key);
    }
  }

  lemma {:induction false} FiredEventsShape(db: Db, batch: seq<int>, key: RunKey)
    requires forall i :: 0 <= i < |batch| ==> batch[i] in db.timers
    ensures forall i :: 0 <= i < |FiredEvents(db, batch, key)| ==>
      FiredEvents(db, batch, key)[i].kind == TimerFired && FiredEvents(db, batch, key)[i].eventId == |Rows(db, key)| + 1
    ensures |FiredEvents(db, batch, key)| > 0 <==> exists i :: 0 <= i < |batch| && db.timers[batch[i]].key == key
  {
    hide Rows;
    if batch != [] {
      var init := batch[..|batch| - 1];
      FiredEventsShape(db, init, key);
      assert forall i :: 0 <= i < |init| ==> init[i] == batch[i];
      if |FiredEvents(db, init, key)| > 0 {
        var i :| 0 <= i < |init| && db.timers[init[i]].key == key;
        assert db.timers[batch[i]].key == key;
      }
      if i :| 0 <= i < |batch| && db.timers[batch[i]].key == key {
        if i < |init| {
          assert db.timers[init[i]].key == key;
        }
      }
    }
  }

  predicate Accepts(s: State, g: Grant) {
    g.key in s.db.executions && s.db.executions[g.key].status == Running
  }

  predicate AcceptedAnswer(s: State, step: Step) {
    step.Respond? && step.grant in s.grants && Accepts(s, s.grants[step.grant])
  }

  /** Whether a failure report is the last one the activity's policy allows. */
  predicate LastAttempt(t: Task) { t.attempt >= t.maxAttempts }

  /** The events a step appends to the history of a run. */
  function NewEvents(code: Code, s: State, step: Step, key: RunKey): seq<Event>
    requires Enabled(code, s, step)
  {
    match step
    case Start(k, latest, _, _, input) =>
      if k == key && StartWorkflow(s.db, s.metrics, s.clock, key, latest, "", "", input).reply.Ok?
      then [BlankEvent(1, WorkflowStarted).(data := input)] else []
    case Respond(g, calls) =>
      if s.grants[g].key == key && Accepts(s, s.grants[g])
      then CommandEvents(ResponseCommands(code, s.grants[g], calls), |Rows(s.db, key)| + 1) else []
    case CompleteActivity(g, result) =>
      if s.grants[g].key == key && s.grants[g].taskId in s.db.tasks && key in s.db.executions
      then [ActivityEvent(ActivityCompleted, s.db.tasks[s.grants[g].taskId], |Rows(s.db, key)| + 1, result)] else []
    case FailActivity(g, message, _) =>
      if s.grants[g].key == key && s.grants[g].taskId in s.db.tasks && LastAttempt(s.db.tasks[s.grants[g].taskId])
         && key in s.db.executions
      then [ActivityEvent(ActivityFailed, s.db.tasks[s.grants[g].taskId], |Rows(s.db, key)| + 1, message)] else []
    case Scan(batch) => if Owned(s.db, batch) then FiredEvents(s.db, batch, key) else []
    case Signal(k, name, data) =>
      if k == key && key in s.db.executions && s.db.executions[key].status == Running
      then [Event(|Rows(s.db, key)| + 1, SignalReceived, "", 0, name, 0, data)] else []
    case _ => []
  }

  lemma OnlyScansFire(code: Code, s: State, step: Step, key: RunKey)
    requires Enabled(code, s, step) && !step.Scan?
    ensures forall i :: 0 <= i < |NewEvents(code, s, step, key)| ==> NewEvents(code, s, step, key)[i].kind != TimerFired
  {
    hide Rows, LatestIs, NextTask, OrderedBy, ResponseCommands, CanRespond;
  }

  lemma RespondRows(db: Db, m: Metrics, now: int, taskId: int, k: RunKey, cmds: seq<Command>, key: RunKey)
    requires Honest(cmds)
    ensures Rows(CompleteWorkflowTask(db, m, now, taskId, k, cmds).db, key) == Rows(db, key) +
      if k == key && k in db.executions && db.executions[k].status == Running
      then CommandEvents(cmds, |Rows(db, key)| + 1) else []
  {
    hide ApplyCommands, CommandEvents, Honest;
    if k in db.executions && db.executions[k].status == Running {
      var q := ApplyCommands(Begin(db, k), now, k, db.executions[k], cmds);
      CommandsRows(Begin(db, k), now, k, db.executions[k], cmds);
      assert Rows(DeleteTask(q.db, taskId), key) == Rows(q.db, key);
    }
  }

  lemma StepRows(code: Code, s: State, step: Step, key: RunKey)
    requires Base(s) && Enabled(code, s, step)
    ensures Rows(Apply(code, s, step).db, key) == Rows(s.db, key) + NewEvents(code, s, step, key)
  {
    hide *;
    if step.Respond? {
      AnswerRowsOf(code, s, step, key);
    } else if step.CompleteActivity? {
      CompletionRows(code, s, step, key);
    } else if step.FailActivity? {
      FailureRows(code, s, step, key);
    } else {
      EngineRows(code, s, step, key);
    }
  }

  lemma AnswerRowsOf(code: Code, s: State, step: Step, key: RunKey)
    requires Enabled(code, s, step) && step.Respond?
    ensures Rows(Apply(code, s, step).db, key) == Rows(s.db, key) + NewEvents(code, s, step, key)
  {
    var v := s.grants[step.grant];
    ResponseIsHonest(code, v, step.calls);
    hide Honest, ResponseCommands, CanRespond, CompleteWorkflowTask, CommandEvents, Longer, NewChains, Rows;
    RespondRows(s.db, s.metrics, s.clock, v.taskId, v.key, ResponseCommands(code, v, step.calls), key);
  }

  lemma CompletionRows(code: Code, s: State, step: Step, key: RunKey)
    requires Enabled(code, s, step) && step.CompleteActivity?
    ensures Rows(Apply(code, s, step).db, key) == Rows(s.db, key) + NewEvents(code, s, step, key)
  {
    hide WakeTask;
    assert Rows(s.db, key) + [] == Rows(s.db, key);
  }

  lemma FailureRows(code: Code, s: State, step: Step, key: RunKey)
    requires Enabled(code, s, step) && step.FailActivity?
    ensures Rows(Apply(code, s, step).db, key) == Rows(s.db, key) + NewEvents(code, s, step, key)
  {
    hide RetryTask, WakeTask;
    assert Rows(s.db, key) + [] == Rows(s.db, key);
  }

  lemma EngineRows(code: Code, s: State, step: Step, key: RunKey)
    requires Base(s) && Enabled(code, s, step) && !step.Respond? && !step.CompleteActivity? && !step.FailActivity?
    ensures Rows(Apply(code, s, step).db, key) == Rows(s.db, key) + NewEvents(code, s, step, key)
  {
    hide Base, LatestIs, NextTask, DueBatch, OrderedBy, FireTimers, FiredEvents, SignalWorkflow;
    assert Rows(s.db, key) + [] == Rows(s.db, key);
    match step {
      case Scan(batch) =>
        if Owned(s.db, batch) {
          FireAllRows(s.db, batch, key);
        }
      case Signal(k, name, data) =>
        SignalRows(s.db, s.metrics, s.clock, k, name, data, key);
      case _ =>
    }
  }

  lemma SignalRows(db: Db, m: Metrics, now: int, k: RunKey, name: string, data: Bytes, key: RunKey)
    ensures Rows(SignalWorkflow(db, m, now, k, name, data).db, key) == Rows(db, key) +
      if k == key && key in db.executions && db.executions[key].status == Running
      then [Event(|Rows(db, key)| + 1, SignalReceived, "", 0, name, 0, data)] else []
  {
    hide AnyWorkflowTask, WakeTask;
    assert Rows(db, key) + [] == Rows(db, key);
  }
}
