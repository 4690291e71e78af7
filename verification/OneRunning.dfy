/** At most one run of a workflow id is open. */
module OneRunning {
  import opened Types
  import opened Interpreter
  import opened Tables
  import opened Structure
  import opened Engine
  import opened Steps
  import opened Terminal

  /** Of the runs of one workflow id, only the one that started last may be open, and no two started together. */
  ghost predicate OnlyLatestOpen(db: Db) {
    forall k, l | k in db.executions && l in db.executions && k.workflowId == l.workflowId && k != l ::
      && db.executions[k].startedAt != db.executions[l].startedAt
      && (db.executions[k].startedAt < db.executions[l].startedAt ==> db.executions[k].status != Running)
  }

  /** No run started in the future. */
  ghost predicate StartedInThePast(s: State) {
    forall k :: k in s.db.executions ==> s.db.executions[k].startedAt <= s.clock
  }

  /** StartWorkflow's guard looks at one row only, and that is enough. */
  lemma GuardSuffices(db: Db, workflowId: string, latest: Option<RunKey>)
    requires OnlyLatestOpen(db) && LatestIs(db, workflowId, latest)
    ensures (latest.Some? && db.executions[latest.value].status == Running)
       <==> exists k :: k in db.executions && k.workflowId == workflowId && db.executions[k].status == Running
  {
    if k :| k in db.executions && k.workflowId == workflowId && db.executions[k].status == Running {
      assert latest.Some?;
    }
  }

  /** What a step does to the runs that exist. */
  lemma StepRun(code: Code, s: State, step: Step, k: RunKey)
    requires Base(s) && Enabled(code, s, step) && k in s.db.executions
    ensures var s' := Apply(code, s, step);
      && k in s'.db.executions && s'.db.executions[k].startedAt == s.db.executions[k].startedAt
      && (s.db.executions[k].status != Running ==> s'.db.executions[k].status != Running)
  {
    hide Apply, Enabled, NextStatus, Base;
    StepEvolves(code, s, step);
    EvolvesRun(s.db, Apply(code, s, step).db, k);
    StepStatus(code, s, step, k);
    FinalStep(code, s, step, k);
    hide Evolves;
  }

  /** A run appears only when it is started, after all others of its workflow id, and only when they have closed. */
  lemma NewRun(code: Code, s: State, step: Step, k: RunKey)
    requires Base(s) && Enabled(code, s, step) && OnlyLatestOpen(s.db)
    requires k in Apply(code, s, step).db.executions && k !in s.db.executions
    ensures step.Start? && step.key == k && Apply(code, s, step).db.executions[k].startedAt == s.clock
    ensures forall l :: l in s.db.executions && l.workflowId == k.workflowId ==>
      s.db.executions[l].startedAt < s.clock && s.db.executions[l].status != Running
  {
    StepStatus(code, s, step, k);
    if step.Start? && step.key == k {
      GuardSuffices(s.db, k.workflowId, step.latest);
      hide Base, OnlyLatestOpen, Rows;
    } else {
      NotStarted(code, s, step, k);
    }
  }

  lemma NotStarted(code: Code, s: State, step: Step, k: RunKey)
    requires Base(s) && Enabled(code, s, step) && k !in s.db.executions && !(step.Start? && step.key == k)
    ensures k !in Apply(code, s, step).db.executions
  {
    StepStatus(code, s, step, k);
    hide Base, Apply, LatestIs, NextTask, OrderedBy, DueBatch, CanRespond, ResponseCommands, StatusAfter;
  }

  lemma StepOnlyLatestOpen(code: Code, s: State, step: Step)
    requires Base(s) && Enabled(code, s, step) && OnlyLatestOpen(s.db) && StartedInThePast(s)
    ensures OnlyLatestOpen(Apply(code, s, step).db) && StartedInThePast(Apply(code, s, step))
  {
    var s' := Apply(code, s, step);
    ClockRuns(code, s, step);
    hide Apply, Enabled, Base;
    forall k | k in s'.db.executions
      ensures k in s.db.executions ==> s'.db.executions[k].startedAt == s.db.executions[k].startedAt <= s.clock
      ensures k in s.db.executions && s.db.executions[k].status != Running ==> s'.db.executions[k].status != Running
      ensures k !in s.db.executions ==> s'.db.executions[k].startedAt == s.clock && step.Start? && step.key == k
      ensures forall l :: k !in s.db.executions && l in s.db.executions && l.workflowId == k.workflowId ==>
        s.db.executions[l].startedAt < s.clock && s.db.executions[l].status != Running
    {
      if k in s.db.executions {
        StepRun(code, s, step, k);
      } else {
        NewRun(code, s, step, k);
      }
    }
  }

  /** At most one run of each workflow id is open at any time. */
  lemma {:induction false} OneRunningEach(code: Code, states: seq<State>, steps: seq<Step>, n: nat)
    requires Behavior(code, states, steps) && n < |states|
    ensures OnlyLatestOpen(states[n].db) && StartedInThePast(states[n])
    ensures var runs := states[n].db.executions;
      forall k, l | k in runs && l in runs && k.workflowId == l.workflowId ::
        runs[k].status == Running && runs[l].status == Running ==> k == l
  {
    hide Enabled, Apply;
    if n > 0 {
      OneRunningEach(code, states, steps, n - 1);
      BaseAlways(code, states, steps, n - 1);
      assert Enabled(code, states[n - 1], steps[n - 1]);
      hide OnlyLatestOpen, StartedInThePast, Base;
      StepOnlyLatestOpen(code, states[n - 1], steps[n - 1]);
    }
    assert OnlyLatestOpen(states[n].db);
    OnlyOne(states[n].db);
  }

  lemma OnlyOne(db: Db)
    requires OnlyLatestOpen(db)
    ensures forall k, l | k in db.executions && l in db.executions && k.workflowId == l.workflowId ::
      db.executions[k].status == Running && db.executions[l].status == Running ==> k == l
  {
  }

  /** A start is accepted exactly when no run of its workflow id is open, although only the latest one is inspected. */
  lemma StartNeedsNoneOpen(code: Code, states: seq<State>, steps: seq<Step>, n: nat)
    requires Behavior(code, states, steps) && n < |steps| && steps[n].Start?
    ensures steps[n].key in states[n + 1].db.executions
       <==> forall k :: k in states[n].db.executions && k.workflowId == steps[n].key.workflowId
              ==> states[n].db.executions[k].status != Running
  {
    var s, step := states[n], steps[n];
    assert Enabled(code, s, step) && states[n + 1] == Apply(code, s, step);
    OneRunningEach(code, states, steps, n);
    hide Behavior, OnlyLatestOpen, Rows;
    GuardSuffices(s.db, step.key.workflowId, step.latest);
  }
}
