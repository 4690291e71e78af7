/** When runs close: closed_at is set once, with the status, and never before the run started. */
module ClosingTimes {
  import opened Types
  import opened Interpreter
  import opened Tables
  import opened Handlers
  import opened Engine
  import opened Steps
  import opened Effects
  import opened Terminal
  import opened OneRunning

  predicate Stamped(ex: Execution, clock: int) {
    if ex.status == Running then ex.closedAt.None?
    else ex.closedAt.Some? && ex.startedAt <= ex.closedAt.value <= clock
  }

  ghost predicate AllStamped(s: State) {
    forall k :: k in s.db.executions ==> Stamped(s.db.executions[k], s.clock)
  }

  /** The row of a run after an honest command list: closed now, or as it was. */
  function ClosedBy(ex: Execution, cmds: seq<Command>, now: int): Execution {
    if StatusAfter(cmds) == Running then ex else ex.(status := StatusAfter(cmds), closedAt := Some(now))
  }

  lemma CommandCloses(p: Progress, now: int, key: RunKey, ex: Execution, cmd: Command)
    requires key in p.db.executions
    ensures ApplyCommand(p, now, key, ex, cmd).db.executions
         == p.db.executions[key := ClosedBy(p.db.executions[key], [cmd], now)]
  {
    hide CommandEvent, Rows;
  }

  lemma {:induction false} CommandsClose(p: Progress, now: int, key: RunKey, ex: Execution, cmds: seq<Command>)
    requires key in p.db.executions && Honest(cmds)
    ensures ApplyCommands(p, now, key, ex, cmds).db.executions
         == p.db.executions[key := ClosedBy(p.db.executions[key], cmds, now)]
  {
    if cmds != [] {
      var init, last := cmds[..|cmds| - 1], cmds[|cmds| - 1];
      assert init != [] ==> !IsEnding(init[|init| - 1]);
      assert StatusAfter(init) == Running && StatusAfter(cmds) == StatusAfter([last]);
      CommandsClose(p, now, key, ex, init);
      CommandCloses(ApplyCommands(p, now, key, ex, init), now, key, ex, last);
      hide ApplyCommand, StatusAfter;
    }
  }

  lemma RespondCloses(db: Db, m: Metrics, now: int, id: int, key: RunKey, cmds: seq<Command>)
    requires Honest(cmds)
    ensures var b := CompleteWorkflowTask(db, m, now, id, key, cmds).db;
      b.executions == if key in db.executions && db.executions[key].status == Running
                      then db.executions[key := ClosedBy(db.executions[key], cmds, now)] else db.executions
  {
    hide ApplyCommands, ClosedBy, Honest;
    if key in db.executions && db.executions[key].status == Running {
      CommandsClose(Begin(db, key), now, key, db.executions[key], cmds);
    }
  }

  /** Steps other than an answer and a start leave every run's row alone. */
  lemma OthersCloseNothing(code: Code, s: State, step: Step)
    requires Enabled(code, s, step) && !step.Respond? && !step.Start?
    ensures Apply(code, s, step).db.executions == s.db.executions
  {
    hide Rows, LatestIs, NextTask, OrderedBy, DueBatch, FireTimers, AnyWorkflowTask, RetryTask;
    if step.Scan? && Owned(s.db, step.batch) {
      FireAllRows(s.db, step.batch, RunKey("", ""));
    }
  }

  lemma StepStamped(code: Code, s: State, step: Step)
    requires Enabled(code, s, step) && AllStamped(s) && StartedInThePast(s)
    ensures AllStamped(Apply(code, s, step))
  {
    ClockRuns(code, s, step);
    hide Enabled, Apply;
    if step.Respond? {
      AnswerStamped(code, s, step);
    } else if step.Start? {
      StartStamped(code, s, step);
    } else {
      OthersCloseNothing(code, s, step);
    }
  }

  lemma AnswerStamped(code: Code, s: State, step: Step)
    requires Enabled(code, s, step) && AllStamped(s) && StartedInThePast(s) && step.Respond?
    ensures AllStamped(Apply(code, s, step))
  {
    var v := s.grants[step.grant];
    ResponseIsHonest(code, v, step.calls);
    hide ResponseCommands, CanRespond, CompleteWorkflowTask, Honest, StatusAfter, Longer, NewChains;
    RespondCloses(s.db, s.metrics, s.clock, v.taskId, v.key, ResponseCommands(code, v, step.calls));
  }

  lemma StartStamped(code: Code, s: State, step: Step)
    requires Enabled(code, s, step) && AllStamped(s) && step.Start?
    ensures AllStamped(Apply(code, s, step))
  {
    hide Rows, LatestIs;
  }

  /** A run has a closing time exactly when it is closed, between its start and now; and it keeps it. */
  lemma {:induction false} ClosedAtIsRight(code: Code, states: seq<State>, steps: seq<Step>, n: nat)
    requires Behavior(code, states, steps) && n < |states|
    ensures AllStamped(states[n])
  {
    hide Enabled, Apply;
    if n > 0 {
      ClosedAtIsRight(code, states, steps, n - 1);
      OneRunningEach(code, states, steps, n - 1);
      assert Enabled(code, states[n - 1], steps[n - 1]);
      hide AllStamped, StartedInThePast, OnlyLatestOpen;
      StepStamped(code, states[n - 1], steps[n - 1]);
    }
  }
}
