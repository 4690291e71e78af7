/** How runs close. */
module Terminal {
  import opened Types
  import opened HistoryFacts
  import opened Interpreter
  import opened Tables
  import opened Handlers
  import opened Structure
  import opened Engine
  import opened Steps
  import opened Effects

  /** The status a command list leaves a running run in. */
  function StatusAfter(cmds: seq<Command>): Status {
    if cmds == [] then Running
    else match cmds[|cmds| - 1]
      case CompleteWorkflow(_) => Completed
      case FailWorkflow(_) => Failed
      case _ => Running
  }

  lemma CommandStatus(p: Progress, now: int, key: RunKey, ex: Execution, cmd: Command)
    requires key in p.db.executions
    ensures var q := ApplyCommand(p, now, key, ex, cmd);
      && q.db.executions.Keys == p.db.executions.Keys
      && (forall k :: k in p.db.executions && k != key ==> q.db.executions[k] == p.db.executions[k])
      && q.db.executions[key].status == if IsEnding(cmd) then StatusAfter([cmd]) else p.db.executions[key].status
  {
    hide CommandEvent, Rows;
  }

  lemma {:induction false} CommandsStatus(p: Progress, now: int, key: RunKey, ex: Execution, cmds: seq<Command>)
    requires key in p.db.executions && p.db.executions[key].status == Running && Honest(cmds)
    ensures var q := ApplyCommands(p, now, key, ex, cmds);
      && q.db.executions.Keys == p.db.executions.Keys
      && (forall k :: k in p.db.executions && k != key ==> q.db.executions[k] == p.db.executions[k])
      && q.db.executions[key].status == StatusAfter(cmds)
  {
    hide ApplyCommand;
    if cmds != [] {
      var init := cmds[..|cmds| - 1];
      assert init != [] ==> !IsEnding(init[|init| - 1]);
      CommandsStatus(p, now, key, ex, init);
      CommandStatus(ApplyCommands(p, now, key, ex, init), now, key, ex, cmds[|cmds| - 1]);
    }
  }

  function StatusIn(db: Db, key: RunKey): Option<Status> {
    if key in db.executions then Some(db.executions[key].status) else None
  }

  /** The status of a run after a step: only an accepted answer of its own changes it. */
  function NextStatus(code: Code, s: State, step: Step, key: RunKey): Option<Status>
    requires Enabled(code, s, step)
  {
    match step
    case Start(k, latest, _, _, _) =>
      if k == key && StartWorkflow(s.db, s.metrics, s.clock, k, latest, "", "", []).reply.Ok? then Some(Running)
      else StatusIn(s.db, key)
    case Respond(g, calls) =>
      if s.grants[g].key == key && Accepts(s, s.grants[g])
      then Some(StatusAfter(ResponseCommands(code, s.grants[g], calls))) else StatusIn(s.db, key)
    case _ => StatusIn(s.db, key)
  }

  lemma RespondStatus(db: Db, m: Metrics, now: int, taskId: int, k: RunKey, cmds: seq<Command>, key: RunKey)
    requires Honest(cmds)
    ensures StatusIn(CompleteWorkflowTask(db, m, now, taskId, k, cmds).db, key) ==
      if k == key && k in db.executions && db.executions[k].status == Running then Some(StatusAfter(cmds))
      else StatusIn(db, key)
  {
    hide ApplyCommands, StatusAfter, Honest;
    if k in db.executions && db.executions[k].status == Running {
      CommandsStatus(Begin(db, k), now, k, db.executions[k], cmds);
    }
  }

  lemma StepStatus(code: Code, s: State, step: Step, key: RunKey)
    requires Base(s) && Enabled(code, s, step)
    ensures StatusIn(Apply(code, s, step).db, key) == NextStatus(code, s, step, key)
  {
    hide Base, Honest, ResponseCommands, CanRespond, LatestIs, NextTask, DueBatch, OrderedBy, CompleteWorkflowTask,
      FireTimers, RetryTask, AnyWorkflowTask, Longer, NewChains, StatusAfter, Rows;
    match step {
      case Respond(g, calls) =>
        var v := s.grants[g];
        ResponseIsHonest(code, v, calls);
        RespondStatus(s.db, s.metrics, s.clock, v.taskId, v.key, ResponseCommands(code, v, calls), key);
      case Scan(batch) =>
        if Owned(s.db, batch) {
          FireAllRows(s.db, batch, key);
        }
      case _ =>
    }
  }

  /** The events that may still arrive once a run has closed. */
  predicate Late(k: EventType) {
    k == ActivityCompleted || k == ActivityFailed || k == TimerFired
  }

  predicate ClosesAt(rows: seq<Event>, p: nat, kind: EventType) {
    && p < |rows| && rows[p].kind == kind
    && (forall i :: 0 <= i < p ==> !Terminal(rows[i].kind))
    && (forall i :: p < i < |rows| ==> Late(rows[i].kind))
  }

  /** Open runs hold no terminal event; closed ones exactly one, of the kind their status names, and only late
      outcomes of activities and timers come after it. */
  ghost predicate Disciplined(status: Status, rows: seq<Event>) {
    match status
    case Running => forall i :: 0 <= i < |rows| ==> !Terminal(rows[i].kind)
    case Completed => exists p: nat :: ClosesAt(rows, p, WorkflowCompleted)
    case Failed => exists p: nat :: ClosesAt(rows, p, WorkflowFailed)
  }

  ghost predicate AllDisciplined(db: Db) {
    forall key :: key in db.executions ==> Disciplined(db.executions[key].status, Rows(db, key))
  }

  lemma LateKeepsDiscipline(status: Status, rows: seq<Event>, more: seq<Event>)
    requires Disciplined(status, rows)
    requires forall i :: 0 <= i < |more| ==> Late(more[i].kind) || (status == Running && !Terminal(more[i].kind))
    ensures Disciplined(status, rows + more)
  {
    match status {
      case Running =>
      case Completed =>
        var p: nat :| ClosesAt(rows, p, WorkflowCompleted);
        assert ClosesAt(rows + more, p, WorkflowCompleted);
      case Failed =>
        var p: nat :| ClosesAt(rows, p, WorkflowFailed);
        assert ClosesAt(rows + more, p, WorkflowFailed);
    }
  }

  lemma AnswerKeepsDiscipline(rows: seq<Event>, cmds: seq<Command>, base: int)
    requires Disciplined(Running, rows) && Honest(cmds)
    ensures Disciplined(StatusAfter(cmds), rows + CommandEvents(cmds, base))
  {
    var more := CommandEvents(cmds, base);
    assert forall i :: 0 <= i < |cmds| - 1 ==> !Terminal(more[i].kind);
    match StatusAfter(cmds) {
      case Running =>
        assert cmds != [] ==> !Terminal(more[|cmds| - 1].kind);
      case Completed =>
        assert ClosesAt(rows + more, |rows| + |cmds| - 1, WorkflowCompleted);
      case Failed =>
        assert ClosesAt(rows + more, |rows| + |cmds| - 1, WorkflowFailed);
    }
  }

  lemma StepDiscipline(code: Code, s: State, step: Step)
    requires Base(s) && AllDisciplined(s.db) && Enabled(code, s, step)
    ensures AllDisciplined(Apply(code, s, step).db)
  {
    var s' := Apply(code, s, step);
    forall key | key in s'.db.executions ensures Disciplined(s'.db.executions[key].status, Rows(s'.db, key)) {
      StepRows(code, s, step, key);
      StepStatus(code, s, step, key);
      StepDisciplineOf(code, s, step, key);
    }
  }

  lemma NewRunHasNoRows(db: Db, key: RunKey)
    requires Shape(db) && key !in db.executions
    ensures Rows(db, key) == []
  {
  }

  /** Steps other than a start and an answer append late outcomes, and signals while the run is open. */
  lemma NewKinds(code: Code, s: State, step: Step, key: RunKey)
    requires Base(s) && Enabled(code, s, step) && !step.Respond? && key in s.db.executions
    ensures forall i :: 0 <= i < |NewEvents(code, s, step, key)| ==>
      var k := NewEvents(code, s, step, key)[i].kind;
      Late(k) || (s.db.executions[key].status == Running && k == SignalReceived)
  {
    hide GrantOk, LatestIs, NextTask, DueBatch, OrderedBy, FiredEvents, Rows, StartWorkflow;
    if step.Scan? && Owned(s.db, step.batch) {
      hide Shape;
      FiredEventsShape(s.db, step.batch, key);
    }
  }

  lemma StepDisciplineOf(code: Code, s: State, step: Step, key: RunKey)
    requires Base(s) && AllDisciplined(s.db) && Enabled(code, s, step) && NextStatus(code, s, step, key).Some?
    ensures Disciplined(NextStatus(code, s, step, key).value, Rows(s.db, key) + NewEvents(code, s, step, key))
  {
    hide *;
    if key !in s.db.executions {
      NewRunDisciplined(code, s, step, key);
    } else if step.Respond? {
      AnswerDisciplined(code, s, step, key);
    } else {
      OtherDisciplined(code, s, step, key);
    }
  }

  lemma NewRunDisciplined(code: Code, s: State, step: Step, key: RunKey)
    requires Base(s) && Enabled(code, s, step) && NextStatus(code, s, step, key).Some? && key !in s.db.executions
    ensures Disciplined(NextStatus(code, s, step, key).value, Rows(s.db, key) + NewEvents(code, s, step, key))
  {
    NewRunHasNoRows(s.db, key);
    assert [] + NewEvents(code, s, step, key) == NewEvents(code, s, step, key);
    hide Base, FiredEvents, FiredEvent, CommandEvents, Rows, LatestIs, OrderedBy, NextTask, DueBatch;
  }

  lemma AnswerDisciplined(code: Code, s: State, step: Step, key: RunKey)
    requires AllDisciplined(s.db) && Enabled(code, s, step) && key in s.db.executions && step.Respond?
    requires NextStatus(code, s, step, key).Some?
    ensures Disciplined(NextStatus(code, s, step, key).value, Rows(s.db, key) + NewEvents(code, s, step, key))
  {
    assert step.grant in s.grants;
    hide *;
    if s.grants[step.grant].key == key && s.db.executions[key].status == Running {
      AcceptedDisciplined(code, s, step, key);
    } else {
      RefusedDisciplined(code, s, step, key);
    }
  }

  lemma DisciplinedAt(db: Db, key: RunKey)
    requires AllDisciplined(db) && key in db.executions
    ensures Disciplined(db.executions[key].status, Rows(db, key))
  {
  }

  lemma AcceptedDisciplined(code: Code, s: State, step: Step, key: RunKey)
    requires AllDisciplined(s.db) && Enabled(code, s, step) && key in s.db.executions && step.Respond?
    requires s.grants[step.grant].key == key && s.db.executions[key].status == Running
    requires NextStatus(code, s, step, key).Some?
    ensures Disciplined(NextStatus(code, s, step, key).value, Rows(s.db, key) + NewEvents(code, s, step, key))
  {
    hide AllDisciplined, Disciplined, ResponseCommands, CanRespond, StatusAfter, CommandEvents, Rows, Honest;
    DisciplinedAt(s.db, key);
    ResponseIsHonest(code, s.grants[step.grant], step.calls);
    AnswerKeepsDiscipline(Rows(s.db, key), ResponseCommands(code, s.grants[step.grant], step.calls),
                          |Rows(s.db, key)| + 1);
  }

  /** An answer to another run, or to a closed one, changes nothing here. */
  lemma RefusedDisciplined(code: Code, s: State, step: Step, key: RunKey)
    requires AllDisciplined(s.db) && Enabled(code, s, step) && key in s.db.executions && step.Respond?
    requires !(s.grants[step.grant].key == key && s.db.executions[key].status == Running)
    requires NextStatus(code, s, step, key).Some?
    ensures Disciplined(NextStatus(code, s, step, key).value, Rows(s.db, key) + NewEvents(code, s, step, key))
  {
    hide AllDisciplined, Disciplined, ResponseCommands, CanRespond, StatusAfter, CommandEvents, Rows;
    DisciplinedAt(s.db, key);
    assert Rows(s.db, key) + [] == Rows(s.db, key);
  }

  lemma OtherDisciplined(code: Code, s: State, step: Step, key: RunKey)
    requires Base(s) && AllDisciplined(s.db) && Enabled(code, s, step) && key in s.db.executions && !step.Respond?
    requires NextStatus(code, s, step, key).Some?
    ensures Disciplined(NextStatus(code, s, step, key).value, Rows(s.db, key) + NewEvents(code, s, step, key))
  {
    assert Disciplined(s.db.executions[key].status, Rows(s.db, key));
    hide AllDisciplined, Disciplined, NewEvents, Rows;
    NewKinds(code, s, step, key);
    hide Base;
    assert NextStatus(code, s, step, key) == Some(s.db.executions[key].status);
    hide NextStatus, Enabled;
    LateKeepsDiscipline(s.db.executions[key].status, Rows(s.db, key), NewEvents(code, s, step, key));
  }

  lemma {:induction false} TerminalDiscipline(code: Code, states: seq<State>, steps: seq<Step>, i: nat)
    requires Behavior(code, states, steps) && i < |states|
    ensures AllDisciplined(states[i].db)
  {
    if i > 0 {
      hide AllDisciplined, Enabled, Apply;
      TerminalDiscipline(code, states, steps, i - 1);
      BaseAlways(code, states, steps, i - 1);
      assert Enabled(code, states[i - 1], steps[i - 1]);
      StepDiscipline(code, states[i - 1], steps[i - 1]);
    }
  }

  /** A closed run keeps its status for good, and no run disappears. */
  lemma {:induction false} StatusIsFinal(code: Code, states: seq<State>, steps: seq<Step>, i: nat, j: nat, key: RunKey)
    requires Behavior(code, states, steps) && i <= j < |states| && key in states[i].db.executions
    ensures key in states[j].db.executions
    ensures states[i].db.executions[key].status != Running
      ==> states[j].db.executions[key].status == states[i].db.executions[key].status
  {
    if i < j {
      hide Enabled, Apply;
      StatusIsFinal(code, states, steps, i, j - 1, key);
      BaseAlways(code, states, steps, j - 1);
      var s, step := states[j - 1], steps[j - 1];
      assert Enabled(code, s, step);
      StepStatus(code, s, step, key);
      FinalStep(code, s, step, key);
    }
  }

  lemma FinalStep(code: Code, s: State, step: Step, key: RunKey)
    requires Base(s) && Enabled(code, s, step) && key in s.db.executions
    ensures NextStatus(code, s, step, key).Some?
    ensures s.db.executions[key].status != Running
      ==> NextStatus(code, s, step, key) == Some(s.db.executions[key].status)
  {
    hide Base, LatestIs, NextTask, DueBatch, OrderedBy, ResponseCommands, CanRespond, StatusAfter;
  }
}
