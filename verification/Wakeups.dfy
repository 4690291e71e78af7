/** Every event that can move a run on is still waited for by a task whose holders will see it. */
module Wakeups {
  import opened Types
  import opened HistoryFacts
  import opened Interpreter
  import opened Tables
  import opened Handlers
  import opened Structure
  import opened Engine
  import opened Steps
  import opened Effects
  import opened Terminal
  import opened WorkflowTasks

  /** How much of a run's history accepted answers have been computed from. */
  function Length(s: State, key: RunKey): nat {
    if key in s.replayed then s.replayed[key].length else 0
  }

  /** Task id is still there, and whoever answers it will have seen event j of the run. */
  ghost predicate Covers(s: State, key: RunKey, id: int, j: int) {
    && id in s.db.tasks && IsWorkflowTaskOf(s.db.tasks[id], key)
    && forall g :: g in s.grants && s.grants[g].Viewed? && s.grants[g].taskId == id ==> |s.grants[g].view| > j
  }

  ghost predicate Covered(s: State, key: RunKey, j: int) {
    exists id :: Covers(s, key, id, j)
  }

  /** The events watched for; signals only where strict. */
  predicate Rings(k: EventType, strict: bool) {
    Wakes(k) && (strict || k != SignalReceived)
  }

  ghost predicate Watchful(s: State, key: RunKey, strict: bool) {
    forall j: int | Length(s, key) <= j < |Rows(s.db, key)| && Rings(Rows(s.db, key)[j].kind, strict) ::
      Covered(s, key, j)
  }

  ghost predicate OpenWatchful(s: State, key: RunKey, strict: bool) {
    key in s.db.executions && s.db.executions[key].status == Running ==> Watchful(s, key, strict)
  }

  /** A workflow task of the run that no outstanding view was taken for. */
  ghost predicate Unseen(s: State, key: RunKey, id: int) {
    && id in s.db.tasks && IsWorkflowTaskOf(s.db.tasks[id], key)
    && forall g :: g in s.grants && s.grants[g].Viewed? ==> s.grants[g].taskId != id
  }

  ghost predicate Accepted(s: State, step: Step) {
    step.Signal? && step.key in s.db.executions && s.db.executions[step.key].status == Running
  }

  /** When an accepted signal inserts a task, or the task that keeps it from doing so has not been viewed. */
  ghost predicate SafeSignal(s: State, step: Step) {
    Accepted(s, step) ==> !AnyWorkflowTask(s.db, step.key) || exists id :: Unseen(s, step.key, id)
  }

  /** The step is no unsafe signal to this run. */
  ghost predicate SafeFor(s: State, step: Step, key: RunKey) {
    step.Signal? && step.key == key ==> SafeSignal(s, step)
  }

  lemma StepLength(code: Code, s: State, step: Step, key: RunKey)
    requires Enabled(code, s, step)
    ensures Length(Apply(code, s, step), key) >= Length(s, key)
    ensures step.Respond? && s.grants[step.grant].key == key && Accepts(s, s.grants[step.grant])
      ==> Length(Apply(code, s, step), key) >= |s.grants[step.grant].view|
  {
    hide CompleteWorkflowTask, StartWorkflow, CompleteActivityTask, FailActivityTask, SignalWorkflow, ScanTimers,
      ResponseCommands, LatestIs, NextTask, OrderedBy, DueBatch, NewChains, LeaseTask, ReclaimExpired, Replay,
      FunctionFor;
  }

  /** The views a step adds are of the whole history. */
  lemma ViewsGrow(code: Code, s: State, step: Step, key: RunKey, id: int, j: int)
    requires Base(s) && Enabled(code, s, step) && Covers(s, key, id, j) && j < |Rows(s.db, key)|
    ensures var gs := Apply(code, s, step).grants;
      forall g :: g in gs && gs[g].Viewed? && gs[g].taskId == id ==> |gs[g].view| > j
  {
    var s' := Apply(code, s, step);
    hide Base, Apply, Rows;
    forall g | g in s'.grants && s'.grants[g].Viewed? && s'.grants[g].taskId == id ensures |s'.grants[g].view| > j {
      StepGrants(code, s, step, g);
      if g !in s.grants || s'.grants[g] != s.grants[g] {
        hide Enabled;
        NewViewIsWhole(code, s, step, g, key);
      }
    }
  }

  lemma NewViewIsWhole(code: Code, s: State, step: Step, g: nat, key: RunKey)
    requires Base(s) && Enabled(code, s, step)
    requires g in Apply(code, s, step).grants && Apply(code, s, step).grants[g].Viewed?
    requires g in s.grants ==> Apply(code, s, step).grants[g] != s.grants[g]
    requires var id := Apply(code, s, step).grants[g].taskId; id in s.db.tasks && IsWorkflowTaskOf(s.db.tasks[id], key)
    ensures |Apply(code, s, step).grants[g].view| == |Rows(s.db, key)|
  {
    StepGrants(code, s, step, g);
    hide CompleteWorkflowTask, StartWorkflow, CompleteActivityTask, FailActivityTask, SignalWorkflow, ScanTimers,
      ResponseCommands, CanRespond, LatestIs, NextTask, DueBatch, Longer, NewChains, LeaseTask, ReclaimExpired, Rows,
      Shape;
    if step.Snapshot? {
      assert GrantOk(s.db, s.grants[step.grant]);
      assert |multiset(step.view)| == |step.view|;
      assert |multiset(Rows(s.db, s.grants[step.grant].key))| == |Rows(s.db, s.grants[step.grant].key)|;
    }
  }

  lemma OldStaysCovered(code: Code, s: State, step: Step, key: RunKey, j: int)
    requires Base(s) && Enabled(code, s, step) && key in s.db.executions
    requires StatusIn(Apply(code, s, step).db, key) == Some(Running)
    requires Length(Apply(code, s, step), key) <= j < |Rows(s.db, key)| && Covered(s, key, j)
    ensures Covered(Apply(code, s, step), key, j)
  {
    var s' := Apply(code, s, step);
    var id :| Covers(s, key, id, j);
    StepLength(code, s, step, key);
    StepStatus(code, s, step, key);
    FinalStep(code, s, step, key);
    ViewsGrow(code, s, step, key, id, j);
    if step.Respond? {
      assert GrantOk(s.db, s.grants[step.grant]);
    }
    assert step.Respond? ==> s.grants[step.grant].taskId != id;
    hide Base, Apply, Enabled, NextStatus, Rows, Length;
    TaskSurvives(code, s, step, key, id);
    assert Covers(s', key, id, j);
  }

  /** A task no grant knows of covers everything. */
  lemma NewTaskCovers(s: State, s': State, key: RunKey, id: int, j: int)
    requires Base(s) && s.db.taskSeq <= id && id in s'.db.tasks && IsWorkflowTaskOf(s'.db.tasks[id], key)
    requires s'.grants == s.grants || exists g :: s'.grants == s.grants - {g}
    ensures Covered(s', key, j)
  {
    forall g | g in s'.grants ensures s'.grants[g].taskId < id {
      assert g in s.grants && GrantOk(s.db, s.grants[g]);
    }
    assert Covers(s', key, id, j);
  }

  lemma NewIsCovered(code: Code, s: State, step: Step, key: RunKey, j: nat, strict: bool)
    requires Base(s) && Enabled(code, s, step) && (strict ==> SafeFor(s, step, key))
    requires j < |NewEvents(code, s, step, key)| && Rings(NewEvents(code, s, step, key)[j].kind, strict)
    ensures Covered(Apply(code, s, step), key, |Rows(s.db, key)| + j)
  {
    hide Base, Covered, SafeSignal, Apply, LatestIs, NextTask, OrderedBy, DueBatch, ResponseCommands, CanRespond, Rows;
    match step {
      case Start(_, _, _, _, _) => StartCovers(code, s, step, j);
      case CompleteActivity(_, _) => EndCovers(code, s, step, |Rows(s.db, key)| + j);
      case FailActivity(_, _, _) => EndCovers(code, s, step, |Rows(s.db, key)| + j);
      case Scan(batch) => ScanCovers(code, s, step, key, |Rows(s.db, key)| + j);
      case Signal(_, _, _) => SignalCovers(code, s, step);
      case _ =>
    }
  }

  lemma StartCovers(code: Code, s: State, step: Step, j: int)
    requires Base(s) && Enabled(code, s, step) && step.Start?
    requires NewEvents(code, s, step, step.key) != []
    ensures Covered(Apply(code, s, step), step.key, |Rows(s.db, step.key)| + j)
  {
    hide Base, Rows, LatestIs, Covered;
    NewTaskCovers(s, Apply(code, s, step), step.key, s.db.taskSeq, |Rows(s.db, step.key)| + j);
  }

  lemma EndCovers(code: Code, s: State, step: Step, j: int)
    requires Base(s) && Enabled(code, s, step) && (step.CompleteActivity? || step.FailActivity?)
    requires NewEvents(code, s, step, s.grants[step.grant].key) != []
    ensures Covered(Apply(code, s, step), s.grants[step.grant].key, j)
  {
    hide Base, Rows, RetryTask, Covered;
    var s' := Apply(code, s, step);
    assert s'.grants == s.grants - {step.grant};
    NewTaskCovers(s, s', s.grants[step.grant].key, s.db.taskSeq, j);
  }

  lemma ScanCovers(code: Code, s: State, step: Step, key: RunKey, j: int)
    requires Base(s) && Enabled(code, s, step) && step.Scan?
    requires NewEvents(code, s, step, key) != []
    ensures Covered(Apply(code, s, step), key, j)
  {
    hide Base, Rows, DueBatch, FireTimers, Covered;
    var batch := step.batch;
    FiredEventsShape(s.db, batch, key);
    var i :| 0 <= i < |batch| && s.db.timers[batch[i]].key == key;
    BaseShape(s);
    var id := FireAllWakes(s.db, batch, i);
    NewTaskCovers(s, Apply(code, s, step), key, id, j);
  }

  /** A safe signal leaves its event covered. */
  lemma SignalCovers(code: Code, s: State, step: Step)
    requires Base(s) && Accepted(s, step) && SafeSignal(s, step)
    ensures Covered(Apply(code, s, step), step.key, |Rows(s.db, step.key)|)
  {
    var s', key := Apply(code, s, step), step.key;
    hide Base, Rows;
    if AnyWorkflowTask(s.db, key) {
      var id :| Unseen(s, key, id);
      assert s'.db.tasks == s.db.tasks;
      assert Covers(s', key, id, |Rows(s.db, key)|);
    } else {
      hide AnyWorkflowTask;
      NewTaskCovers(s, s', key, s.db.taskSeq, |Rows(s.db, key)|);
    }
  }

  lemma StepCovered(code: Code, s: State, step: Step, strict: bool, key: RunKey, j: int)
    requires Base(s) && OpenWatchful(s, key, strict) && Enabled(code, s, step) && (strict ==> SafeFor(s, step, key))
    requires var s' := Apply(code, s, step);
      && StatusIn(s'.db, key) == Some(Running) && Length(s', key) <= j < |Rows(s'.db, key)|
      && Rings(Rows(s'.db, key)[j].kind, strict)
    ensures Covered(Apply(code, s, step), key, j)
  {
    hide Covered, SafeFor, Base, Apply, Enabled, NewEvents, Rings, Length, Rows, OpenWatchful;
    StepRows(code, s, step, key);
    StepLength(code, s, step, key);
    if j < |Rows(s.db, key)| {
      RunsHaveRows(s, key);
      StepStatus(code, s, step, key);
      FinalStep(code, s, step, key);
      WatchfulAt(s, strict, key, j);
      OldStaysCovered(code, s, step, key, j);
    } else {
      NewIsCovered(code, s, step, key, j - |Rows(s.db, key)|, strict);
    }
  }

  lemma RunsHaveRows(s: State, key: RunKey)
    requires Base(s)
    ensures |Rows(s.db, key)| > 0 <==> key in s.db.executions
  {
  }

  lemma WatchfulAt(s: State, strict: bool, key: RunKey, j: int)
    requires OpenWatchful(s, key, strict) && StatusIn(s.db, key) == Some(Running)
    requires Length(s, key) <= j < |Rows(s.db, key)| && Rings(Rows(s.db, key)[j].kind, strict)
    ensures Covered(s, key, j)
  {
  }

  /** Every step keeps the run's unanswered wake-ups covered; its signals too, as long as they are safe. */
  lemma StepWatchful(code: Code, s: State, step: Step, key: RunKey, strict: bool)
    requires Base(s) && OpenWatchful(s, key, strict) && Enabled(code, s, step) && (strict ==> SafeFor(s, step, key))
    ensures OpenWatchful(Apply(code, s, step), key, strict)
  {
    var s' := Apply(code, s, step);
    hide Covered, SafeFor, Base, Apply, Enabled, Rings, Length, Rows;
    if key in s'.db.executions && s'.db.executions[key].status == Running {
      forall j: int | Length(s', key) <= j < |Rows(s'.db, key)| && Rings(Rows(s'.db, key)[j].kind, strict)
        ensures Covered(s', key, j)
      {
        StepCovered(code, s, step, strict, key, j);
      }
    }
  }
}
