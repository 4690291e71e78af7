/** Every step keeps the shape of the tables and of the outstanding grants. */
module Steps {
  import opened Types
  import opened Interpreter
  import opened Tables
  import opened Handlers
  import opened Structure
  import opened Engine

  /** A grant names a run, repeats what its task row says while the row exists, and views a prefix of the history. */
  ghost predicate GrantOk(db: Db, g: Grant) {
    && g.key in db.executions
    && g.taskId < db.taskSeq
    && (g.ActivityGrant? && g.taskId in db.tasks ==>
          db.tasks[g.taskId].kind == ActivityTask && db.tasks[g.taskId].key == g.key)
    && (!g.ActivityGrant? ==>
          && g.queue == db.executions[g.key].taskQueue
          && g.workflowType == db.executions[g.key].workflowType
          && (g.taskId in db.tasks ==> IsWorkflowTaskOf(db.tasks[g.taskId], g.key)))
    && (g.Viewed? ==> |g.view| <= |Rows(db, g.key)| && OrderedBy(g.view, Rows(db, g.key)[..|g.view|]) && |g.view| > 0)
  }

  ghost predicate Base(s: State) {
    && Shape(s.db)
    && (forall g :: g in s.grants ==> g < s.nextGrant && GrantOk(s.db, s.grants[g]))
  }

  lemma BaseShape(s: State)
    requires Base(s)
    ensures Shape(s.db)
  {
  }

  lemma GrantSurvives(a: Db, b: Db, g: Grant)
    requires GrantOk(a, g) && Evolves(a, b)
    ensures GrantOk(b, g)
  {
    EvolvesRun(a, b, g.key);
    if g.Viewed? {
      assert Rows(a, g.key)[..|g.view|] == Rows(b, g.key)[..|g.view|];
    }
    hide OrderedBy, Rows;
  }

  lemma StepEvolves(code: Code, s: State, step: Step)
    requires Base(s) && Enabled(code, s, step)
    ensures Shape(Apply(code, s, step).db) && Evolves(s.db, Apply(code, s, step).db)
  {
    hide Shape, Evolves, GrantOk, StartWorkflow, CompleteWorkflowTask, CompleteActivityTask, FailActivityTask,
      SignalWorkflow, FireTimers, LeaseTask, ReclaimExpired, ResponseCommands, CanRespond, LatestIs, NextTask,
      OrderedBy, DueBatch;
    EvolvesReflexive(s.db);
    match step {
      case Start(key, latest, workflowType, queue, input) =>
        StartShape(s.db, s.metrics, s.clock, key, latest, workflowType, queue, input);
      case PollWorkflow(queue, owner, id) =>
        NextTaskExists(s.db, queue, WorkflowTask, s.clock, id);
        LeaseShape(s.db, id, owner, s.clock);
      case PollActivity(queue, owner, id) =>
        NextTaskExists(s.db, queue, ActivityTask, s.clock, id);
        LeaseShape(s.db, id, owner, s.clock);
      case Respond(g, calls) =>
        var v := s.grants[g];
        RespondShape(s.db, s.metrics, s.clock, v.taskId, v.key, ResponseCommands(code, v, calls));
      case CompleteActivity(g, result) =>
        CompleteShape(s.db, s.metrics, s.grants[g].taskId, s.grants[g].key, result);
      case FailActivity(g, message, jitter) =>
        GrantedActivity(s, g);
        FailShape(s.db, s.metrics, s.clock, s.grants[g].taskId, s.grants[g].key, message, jitter);
      case Scan(batch) =>
        if Owned(s.db, batch) {
          FireAllShape(s.db, batch);
        }
      case Signal(key, name, data) =>
        SignalShape(s.db, s.metrics, s.clock, key, name, data);
      case Reclaim => ReclaimShape(s.db, s.clock);
      case _ =>
    }
  }

  lemma NextTaskExists(db: Db, queue: string, kind: TaskType, now: int, id: int)
    requires NextTask(db, queue, kind, now, id)
    ensures id in db.tasks && db.tasks[id].kind == kind && db.tasks[id].queue == queue
    ensures db.tasks[id].leaseOwner.None? && db.tasks[id].visibleAt <= now
  {
  }

  lemma GrantedActivity(s: State, g: nat)
    requires Base(s) && g in s.grants && s.grants[g].ActivityGrant?
    ensures s.grants[g].taskId in s.db.tasks ==> s.db.tasks[s.grants[g].taskId].kind == ActivityTask
    ensures s.grants[g].taskId in s.db.tasks ==> s.db.tasks[s.grants[g].taskId].key == s.grants[g].key
    ensures s.grants[g].key in s.db.executions
  {
    assert GrantOk(s.db, s.grants[g]);
  }

  /** Which grants a step leaves as they were. */
  lemma StepGrants(code: Code, s: State, step: Step, g: nat)
    requires Base(s) && Enabled(code, s, step) && g in Apply(code, s, step).grants
    ensures g in s.grants && Apply(code, s, step).grants[g] != s.grants[g] ==> step.Snapshot? && step.grant == g
    ensures g !in s.grants ==> g == s.nextGrant && (step.PollWorkflow? || step.PollActivity?)
  {
    hide Shape, GrantOk, StartWorkflow, CompleteWorkflowTask, CompleteActivityTask, FailActivityTask, SignalWorkflow,
      ScanTimers, LeaseTask, ReclaimExpired, ResponseCommands, CanRespond, LatestIs, OrderedBy, DueBatch, Longer,
      NewChains;
  }

  lemma NewGrantOk(code: Code, s: State, step: Step)
    requires Base(s) && Enabled(code, s, step)
    requires step.PollWorkflow? || step.PollActivity?
    ensures GrantOk(s.db, Apply(code, s, step).grants[s.nextGrant])
  {
    assert TaskOk(s.db, step.taskId);
    hide Shape, LeaseTask, OrderedBy, Rows;
  }

  lemma SnapshotOk(code: Code, s: State, step: Step)
    requires Base(s) && Enabled(code, s, step) && step.Snapshot?
    ensures GrantOk(s.db, Apply(code, s, step).grants[step.grant])
  {
    var l := s.grants[step.grant];
    assert GrantOk(s.db, l);
    var rows := Rows(s.db, l.key);
    assert RowsOk(rows);
    hide Shape;
    assert multiset(step.view) == multiset(rows);
    assert |multiset(step.view)| == |step.view| && |multiset(rows)| == |rows|;
    assert rows[..|step.view|] == rows;
  }

  lemma StepBase(code: Code, s: State, step: Step)
    requires Base(s) && Enabled(code, s, step)
    ensures Base(Apply(code, s, step))
  {
    StepEvolves(code, s, step);
    var s' := Apply(code, s, step);
    hide Shape, Evolves, GrantOk, Enabled, Apply;
    forall g | g in s'.grants ensures g < s'.nextGrant && GrantOk(s'.db, s'.grants[g]) {
      StepGrants(code, s, step, g);
      StepNextGrant(code, s, step);
      if g !in s.grants {
        NewGrantOk(code, s, step);
      } else if s'.grants[g] != s.grants[g] {
        SnapshotOk(code, s, step);
      }
      GrantSurvives(s.db, s'.db, s'.grants[g]);
    }
  }

  lemma StepNextGrant(code: Code, s: State, step: Step)
    requires Enabled(code, s, step)
    ensures Apply(code, s, step).nextGrant == s.nextGrant + if step.PollWorkflow? || step.PollActivity? then 1 else 0
  {
    hide StartWorkflow, CompleteWorkflowTask, CompleteActivityTask, FailActivityTask, SignalWorkflow, ScanTimers,
      LeaseTask, ReclaimExpired, ResponseCommands, CanRespond, LatestIs, OrderedBy, DueBatch, Longer, NewChains;
  }

  lemma ClockRuns(code: Code, s: State, step: Step)
    requires Enabled(code, s, step)
    ensures Apply(code, s, step).clock >= s.clock
  {
    hide StartWorkflow, CompleteWorkflowTask, CompleteActivityTask, FailActivityTask, SignalWorkflow, ScanTimers,
      LeaseTask, ReclaimExpired, ResponseCommands, CanRespond, LatestIs, NextTask, OrderedBy, DueBatch, Longer,
      NewChains;
  }

  lemma {:induction false} BaseAlways(code: Code, states: seq<State>, steps: seq<Step>, i: nat)
    requires Behavior(code, states, steps) && i < |states|
    ensures Base(states[i])
  {
    hide Base, Enabled, Apply;
    if i == 0 {
      InitialBase(states[0].clock);
    } else {
      BaseAlways(code, states, steps, i - 1);
      assert Enabled(code, states[i - 1], steps[i - 1]);
      StepBase(code, states[i - 1], steps[i - 1]);
    }
  }

  lemma InitialBase(clock: int)
    ensures Base(Initial(clock))
  {
  }

  /** A run of the system can go on with any enabled step. */
  lemma Extend(code: Code, states: seq<State>, steps: seq<Step>, step: Step, next: State)
    requires Behavior(code, states, steps) && var last := states[|states| - 1];
      Enabled(code, last, step) && next == Apply(code, last, step)
    ensures Behavior(code, states + [next], steps + [step])
  {
    hide Enabled, Apply;
  }

  /** Over a whole run, histories only grow and ids are never used twice. */
  lemma {:induction false} EvolvesAlways(code: Code, states: seq<State>, steps: seq<Step>, i: nat, j: nat)
    requires Behavior(code, states, steps) && i <= j < |states|
    ensures Evolves(states[i].db, states[j].db)
  {
    hide Evolves, Enabled, Apply, Base;
    if i == j {
      EvolvesReflexive(states[i].db);
    } else {
      EvolvesAlways(code, states, steps, i, j - 1);
      BaseAlways(code, states, steps, j - 1);
      assert Enabled(code, states[j - 1], steps[j - 1]);
      StepEvolves(code, states[j - 1], steps[j - 1]);
      EvolvesTransitive(states[i].db, states[j - 1].db, states[j].db);
    }
  }
}
