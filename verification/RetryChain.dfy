/** The tasks that carry one scheduled activity from its first attempt to its end. */
module RetryChain {
  import opened Types
  import opened Interpreter
  import opened Tables
  import opened Backoff
  import opened Handlers
  import opened Structure
  import opened Engine
  import opened Steps
  import opened Effects

  /* ---- time ---- */

  /** The least time that the backoffs before the given number of retries take together. */
  function LeastBackoff(retries: nat): int {
    if retries == 0 then 0 else LeastBackoff(retries - 1) + RetryDelay(DEFAULT_RETRY_POLICY, retries, 0.0)
  }

  lemma NoJitterIsLeast(policy: RetryPolicy, attempt: int, jitter: real)
    requires Sensible(policy) && 0.0 <= jitter < 1.0
    ensures RetryDelay(policy, attempt, 0.0) <= RetryDelay(policy, attempt, jitter)
  {
    var c := Capped(policy, attempt);
    CappedBounds(policy, attempt);
    hide Capped;
    ProductNonNegative(c, jitter);
    assert Jittered(c, jitter) == c / 2.0 + (c * jitter) / 2.0;
    assert Jittered(c, 0.0) == c / 2.0;
  }

  /** Half of each capped backoff, but for what truncation takes: less than one nanosecond each. */
  lemma {:induction false} LeastBackoffIsHalf(retries: nat)
    ensures LeastBackoff(retries) as real >= HalfBackoff(retries) - retries as real
  {
    if retries > 0 {
      LeastBackoffIsHalf(retries - 1);
      DelayBounds(DEFAULT_RETRY_POLICY, retries, 0.0);
    }
  }

  function HalfBackoff(retries: nat): real {
    if retries == 0 then 0.0 else HalfBackoff(retries - 1) + Capped(DEFAULT_RETRY_POLICY, retries) / 2.0
  }

  lemma TwoRetries()
    ensures LeastBackoff(2) == 1_500_000_000
  {
    assert Pow(2.0, 0) == 1.0 && Pow(2.0, 1) == 2.0;
    assert Capped(DEFAULT_RETRY_POLICY, 1) == 1_000_000_000.0;
    assert Capped(DEFAULT_RETRY_POLICY, 2) == 2_000_000_000.0;
    assert RetryDelay(DEFAULT_RETRY_POLICY, 1, 0.0) == 500_000_000;
    assert RetryDelay(DEFAULT_RETRY_POLICY, 2, 0.0) == 1_000_000_000;
    assert LeastBackoff(1) == 500_000_000;
  }

  /* ---- the invariant ---- */

  /** The task still says what the ActivityScheduled event it names said. */
  predicate Origin(rows: seq<Event>, t: Task) {
    && 1 <= t.scheduledEventId <= |rows|
    && var e := rows[t.scheduledEventId - 1];
    && e.kind == ActivityScheduled && e.eventId == t.scheduledEventId
    && e.activityName == t.activityName && e.activityIndex == t.activityIndex && e.data == t.input
  }

  predicate Timely(t: Task, c: Chain, clock: int) {
    && t.attempt == c.reports + 1
    && c.scheduledAt <= clock
    && if c.reports == 0 then t.visibleAt == GO_ZERO_TIME else c.scheduledAt + LeastBackoff(c.reports) <= t.visibleAt
  }

  ghost predicate ChainOk(s: State, id: int)
    requires id in s.db.tasks
  {
    var t := s.db.tasks[id];
    t.kind == ActivityTask ==> Origin(Rows(s.db, t.key), t) && id in s.chains && Timely(t, s.chains[id], s.clock)
  }

  /** Nobody holds an activity task that is still hidden. */
  ghost predicate GrantDue(s: State, g: Grant) {
    g.ActivityGrant? && g.taskId in s.db.tasks ==> s.db.tasks[g.taskId].visibleAt <= s.clock
  }

  /** Each scheduling has at most one live task. */
  ghost predicate OneEach(db: Db) {
    forall i, j | i in db.tasks && j in db.tasks && SameOrigin(db.tasks[i], db.tasks[j]) :: i == j
  }

  predicate SameOrigin(t: Task, u: Task) {
    t.kind == ActivityTask && u.kind == ActivityTask && t.key == u.key && t.scheduledEventId == u.scheduledEventId
  }

  ghost predicate Chained(s: State) {
    && (forall id :: id in s.db.tasks ==> ChainOk(s, id))
    && (forall g :: g in s.grants ==> GrantDue(s, s.grants[g]))
    && OneEach(s.db)
  }

  /* ---- where activity tasks come from ---- */

  /** A first attempt, for an event that was not in rows. */
  ghost predicate FirstAttempt(rows: seq<Event>, db: Db, key: RunKey, t: Task) {
    && t.key == key && t.attempt == 1 && t.visibleAt == GO_ZERO_TIME
    && t.scheduledEventId > |rows| && Origin(Rows(db, key), t)
  }

  /** Every activity task of b that a did not have is a first attempt, and no two are for the same event. */
  ghost predicate NewAreFirst(a: Db, b: Db, key: RunKey) {
    && (forall id :: id in b.tasks && id !in a.tasks && b.tasks[id].kind == ActivityTask
          ==> FirstAttempt(Rows(a, key), b, key, b.tasks[id]))
    && forall i, j | i in b.tasks && j in b.tasks && i !in a.tasks && j !in a.tasks
         && SameOrigin(b.tasks[i], b.tasks[j]) :: i == j
  }

  lemma CommandFirst(p: Progress, now: int, key: RunKey, ex: Execution, cmd: Command)
    requires p.nextEventId == |Rows(p.db, key)| + 1 && p.db.taskSeq !in p.db.tasks
    ensures var q := ApplyCommand(p, now, key, ex, cmd);
      forall id :: id in q.db.tasks && id !in p.db.tasks ==>
        FirstAttempt(Rows(p.db, key), q.db, key, q.db.tasks[id]) && q.db.tasks[id].scheduledEventId == p.nextEventId
          && id == p.db.taskSeq
    ensures var q := ApplyCommand(p, now, key, ex, cmd);
      forall id :: id in p.db.tasks ==> id in q.db.tasks && q.db.tasks[id] == p.db.tasks[id]
  {
    var q := ApplyCommand(p, now, key, ex, cmd);
    assert Rows(q.db, key) == Rows(p.db, key) + [CommandEvent(cmd, p.nextEventId)];
  }

  lemma FirstAttemptGrows(rows: seq<Event>, rows': seq<Event>, a: Db, b: Db, key: RunKey, t: Task)
    requires FirstAttempt(rows', a, key, t) && |rows| <= |rows'| && Rows(a, key) <= Rows(b, key)
    ensures FirstAttempt(rows, b, key, t)
  {
  }

  /** One more command's task among those of the commands before it. */
  lemma NewAreFirstStep(a: Db, b: Db, c: Db, key: RunKey, seqNo: int)
    requires NewAreFirst(a, b, key) && Rows(a, key) <= Rows(b, key) <= Rows(c, key)
    requires forall id :: id in b.tasks ==> id in c.tasks && c.tasks[id] == b.tasks[id]
    requires forall id :: id in a.tasks ==> id in b.tasks
    requires forall id :: id in c.tasks && id !in b.tasks ==>
      id == seqNo && FirstAttempt(Rows(b, key), c, key, c.tasks[id])
    ensures NewAreFirst(a, c, key)
  {
    hide Rows;
    forall id | id in c.tasks && id !in a.tasks && c.tasks[id].kind == ActivityTask
      ensures FirstAttempt(Rows(a, key), c, key, c.tasks[id])
    {
      if id in b.tasks {
        FirstAttemptGrows(Rows(a, key), Rows(a, key), b, c, key, c.tasks[id]);
      } else {
        FirstAttemptGrows(Rows(a, key), Rows(b, key), c, c, key, c.tasks[id]);
      }
    }
  }

  lemma {:induction false} CommandsFirst(p: Progress, now: int, key: RunKey, ex: Execution, cmds: seq<Command>)
    requires Shape(p.db) && key in p.db.executions && SameRun(p.db.executions[key], ex) && Honest(cmds)
    requires p.nextEventId == |Rows(p.db, key)| + 1
    ensures var q := ApplyCommands(p, now, key, ex, cmds);
      && NewAreFirst(p.db, q.db, key)
      && Rows(p.db, key) <= Rows(q.db, key)
      && forall id :: id in p.db.tasks ==> id in q.db.tasks && q.db.tasks[id] == p.db.tasks[id]
  {
    hide ApplyCommand, Rows, NewAreFirst, Shape, IsEnding, CommandEvents;
    if cmds != [] {
      var init, last := cmds[..|cmds| - 1], cmds[|cmds| - 1];
      assert forall i :: 0 <= i < |init| ==> !IsEnding(init[i]);
      var q := ApplyCommands(p, now, key, ex, init);
      CommandsFirst(p, now, key, ex, init);
      CommandsRows(p, now, key, ex, init);
      assert |CommandEvents(init, p.nextEventId)| == |init| by { CommandEventsLength(init, p.nextEventId); }
      CommandsShape(p, now, key, ex, init);
      SeqIsFresh(q.db);
      CommandFirst(q, now, key, ex, last);
      CommandRows(q, now, key, ex, last);
      NewAreFirstStep(p.db, q.db, ApplyCommands(p, now, key, ex, cmds).db, key, q.db.taskSeq);
    } else {
      NothingNew(p.db, key);
    }
  }

  lemma CommandEventsLength(cmds: seq<Command>, base: int)
    ensures |CommandEvents(cmds, base)| == |cmds|
  {
  }

  lemma NothingNew(db: Db, key: RunKey)
    ensures NewAreFirst(db, db, key)
  {
  }

  lemma SeqIsFresh(db: Db)
    requires Shape(db)
    ensures db.taskSeq !in db.tasks
  {
    assert forall id :: id in db.tasks ==> TaskOk(db, id);
  }

  lemma RespondFirst(db: Db, m: Metrics, now: int, taskId: int, key: RunKey, cmds: seq<Command>)
    requires Shape(db) && Honest(cmds) && key in db.executions && db.executions[key].status == Running
    ensures NewAreFirst(db, CompleteWorkflowTask(db, m, now, taskId, key, cmds).db, key)
  {
    var q := ApplyCommands(Begin(db, key), now, key, db.executions[key], cmds).db;
    hide ApplyCommands, Shape, Honest;
    CommandsFirst(Begin(db, key), now, key, db.executions[key], cmds);
    assert Rows(DeleteTask(q, taskId), key) == Rows(q, key);
    hide Rows, Origin;
  }

  /* ---- one step ---- */

  predicate Retries(s: State, step: Step) {
    && step.FailActivity? && step.grant in s.grants && s.grants[step.grant].taskId in s.db.tasks
    && !LastAttempt(s.db.tasks[s.grants[step.grant].taskId])
  }

  /** Only accepted answers and retries put activity tasks into the table. */
  lemma NoNewActivity(code: Code, s: State, step: Step, id: int)
    requires Base(s) && Enabled(code, s, step) && !Retries(s, step) && !AcceptedAnswer(s, step)
    requires id in Apply(code, s, step).db.tasks && id !in s.db.tasks
    ensures Apply(code, s, step).db.tasks[id].kind == WorkflowTask
  {
    hide Base, Rows, LatestIs, NextTask, OrderedBy, DueBatch, CanRespond, ResponseCommands, FireTimers, AnyWorkflowTask,
      RetryTask;
    match step {
      case Scan(batch) =>
        if Owned(s.db, batch) {
          FireAllAddsWakes(s.db, batch, id);
        }
      case PollWorkflow(queue, _, k) => NextTaskExists(s.db, queue, WorkflowTask, s.clock, k);
      case PollActivity(queue, _, k) => NextTaskExists(s.db, queue, ActivityTask, s.clock, k);
      case _ =>
    }
  }

  lemma {:induction false} FireAllAddsWakes(committed: Db, batch: seq<int>, id: int)
    requires Owned(committed, batch) && id in FireTimers(committed, batch).tasks && id !in committed.tasks
    ensures FireTimers(committed, batch).tasks[id].kind == WorkflowTask
  {
    hide Rows, AppendEvent, MarkFired;
    if batch != [] {
      var init := batch[..|batch| - 1];
      FireAddsOne(FireTimers(committed, init), committed, batch[|batch| - 1], id);
      if id in FireTimers(committed, init).tasks {
        FireAllAddsWakes(committed, init, id);
      }
    }
  }

  lemma FireAddsOne(db: Db, committed: Db, n: int, id: int)
    requires n in committed.timers && committed.timers[n].key in committed.executions
    requires id in FireTimer(db, committed, n).tasks
    ensures var t := FireTimer(db, committed, n).tasks[id];
      t.kind == WorkflowTask || (id in db.tasks && t == db.tasks[id])
  {
    hide Rows;
  }

  lemma RetryStep(code: Code, s: State, step: Step)
    requires Base(s) && Enabled(code, s, step) && Retries(s, step)
    ensures var s', old0 := Apply(code, s, step), s.grants[step.grant].taskId;
      && s'.db == AddTask(DeleteTask(s.db, old0), RetryTask(s.db.tasks[old0], s.clock, step.jitter))
      && s'.clock == s.clock && s'.grants == s.grants - {step.grant}
      && (old0 in s.chains ==>
            s'.chains == s.chains[s.db.taskSeq := s.chains[old0].(reports := s.chains[old0].reports + 1)])
  {
    hide Base, RetryDelay;
  }

  lemma AnswerStep(code: Code, s: State, step: Step)
    requires Base(s) && Enabled(code, s, step) && AcceptedAnswer(s, step)
    ensures var s', key := Apply(code, s, step), s.grants[step.grant].key;
      && NewAreFirst(s.db, s'.db, key) && s'.clock == s.clock && s'.chains == NewChains(s, s'.db)
      && s'.grants == s.grants - {step.grant}
  {
    var v := s.grants[step.grant];
    var cmds := ResponseCommands(code, v, step.calls);
    ResponseIsHonest(code, v, step.calls);
    BaseShape(s);
    hide Shape, Base, Honest, NewAreFirst, CanRespond, ResponseCommands, CompleteWorkflowTask, NewChains, Longer;
    RespondFirst(s.db, s.metrics, s.clock, v.taskId, v.key, cmds);
  }

  /** The clock does not go back, and what is known of a live chain is kept. */
  lemma StepKeepsChain(code: Code, s: State, step: Step, id: int)
    requires Base(s) && Enabled(code, s, step) && id in s.db.tasks && id in s.chains
    ensures var s' := Apply(code, s, step); s'.clock >= s.clock && id in s'.chains && s'.chains[id] == s.chains[id]
  {
    hide *;
    ClockRuns(code, s, step);
    if step.Respond? {
      AnswerKeepsChain(code, s, step, id);
    } else if step.FailActivity? {
      BaseShape(s);
      SeqIsFresh(s.db);
      FailureKeepsChain(code, s, step, id);
    } else {
      OthersKeepChains(code, s, step);
    }
  }

  lemma AnswerKeepsChain(code: Code, s: State, step: Step, id: int)
    requires Enabled(code, s, step) && step.Respond? && id in s.db.tasks && id in s.chains
    ensures id in Apply(code, s, step).chains && Apply(code, s, step).chains[id] == s.chains[id]
  {
    hide CompleteWorkflowTask, ResponseCommands, CanRespond, Longer;
  }

  lemma FailureKeepsChain(code: Code, s: State, step: Step, id: int)
    requires Enabled(code, s, step) && step.FailActivity? && id in s.chains && id != s.db.taskSeq
    ensures id in Apply(code, s, step).chains && Apply(code, s, step).chains[id] == s.chains[id]
  {
    hide FailActivityTask;
  }

  lemma OthersKeepChains(code: Code, s: State, step: Step)
    requires Enabled(code, s, step) && !step.Respond? && !step.FailActivity?
    ensures Apply(code, s, step).chains == s.chains
  {
    hide StartWorkflow, CompleteActivityTask, SignalWorkflow, ScanTimers, LeaseTask, ReclaimExpired, LatestIs, NextTask,
      OrderedBy, DueBatch;
  }

  /** A row that was there before is the same task still, and its event too. */
  lemma OldChainOk(code: Code, s: State, step: Step, id: int)
    requires Base(s) && Enabled(code, s, step) && Chained(s)
    requires id in Apply(code, s, step).db.tasks && id in s.db.tasks
    ensures ChainOk(Apply(code, s, step), id)
  {
    assert ChainOk(s, id);
    hide Base, Shape, Evolves, Apply, Enabled, Chained, Rows, Origin, Timely;
    var s' := Apply(code, s, step);
    StepEvolves(code, s, step);
    BaseShape(s);
    OldTask(s.db, s'.db, id);
    if s.db.tasks[id].kind == ActivityTask {
      StepKeepsChain(code, s, step, id);
      KeptChainOk(s, s', id);
    }
  }

  lemma KeptChainOk(s: State, s': State, id: int)
    requires id in s.db.tasks && id in s'.db.tasks && SameTask(s.db.tasks[id], s'.db.tasks[id])
    requires s.clock <= s'.clock && id in s.chains && id in s'.chains && s'.chains[id] == s.chains[id]
    requires Rows(s.db, s.db.tasks[id].key) <= Rows(s'.db, s.db.tasks[id].key) && ChainOk(s, id)
    ensures ChainOk(s', id)
  {
    hide Rows, LeastBackoff;
  }

  lemma OldTask(a: Db, b: Db, id: int)
    requires Shape(a) && Evolves(a, b) && id in a.tasks && id in b.tasks
    ensures SameTask(a.tasks[id], b.tasks[id]) && Rows(a, a.tasks[id].key) <= Rows(b, a.tasks[id].key)
  {
    assert TaskOk(a, id);
  }

  lemma NewChainOk(code: Code, s: State, step: Step, id: int)
    requires Base(s) && Enabled(code, s, step) && Chained(s)
    requires id in Apply(code, s, step).db.tasks && id !in s.db.tasks
    ensures ChainOk(Apply(code, s, step), id)
  {
    hide *;
    if Retries(s, step) {
      RetryChainOk(code, s, step, id);
    } else if AcceptedAnswer(s, step) {
      FirstChainOk(code, s, step, id);
    } else {
      NoNewActivity(code, s, step, id);
      NoChainNeeded(Apply(code, s, step), id);
    }
  }

  lemma NoChainNeeded(s: State, id: int)
    requires id in s.db.tasks && s.db.tasks[id].kind == WorkflowTask
    ensures ChainOk(s, id)
  {
  }

  lemma FirstChainOk(code: Code, s: State, step: Step, id: int)
    requires Base(s) && Enabled(code, s, step) && AcceptedAnswer(s, step)
    requires id in Apply(code, s, step).db.tasks && id !in s.db.tasks
    ensures ChainOk(Apply(code, s, step), id)
  {
    var s' := Apply(code, s, step);
    AnswerStep(code, s, step);
    hide Base, Apply, Enabled, Rows, Origin;
  }

  /** The reported task was due, so its successor is due no earlier than the chain's backoffs allow. */
  lemma RetryChainOk(code: Code, s: State, step: Step, id: int)
    requires Base(s) && Enabled(code, s, step) && Chained(s) && Retries(s, step)
    requires id in Apply(code, s, step).db.tasks && id !in s.db.tasks
    ensures ChainOk(Apply(code, s, step), id)
  {
    var s', g := Apply(code, s, step), s.grants[step.grant];
    var t := s.db.tasks[g.taskId];
    GrantedActivity(s, step.grant);
    ReportIsTimely(code, s, step);
    RetryStep(code, s, step);
    assert Rows(s'.db, t.key) == Rows(s.db, t.key);
    NoJitterIsLeast(DEFAULT_RETRY_POLICY, t.attempt, step.jitter);
    hide Base, Apply, Enabled, Rows, Chained, RetryDelay, Origin;
  }

  /** A failure can be reported only after the task has become visible. */
  lemma ReportIsTimely(code: Code, s: State, step: Step)
    requires Base(s) && Enabled(code, s, step) && Chained(s) && (step.FailActivity? || step.CompleteActivity?)
    requires s.grants[step.grant].taskId in s.db.tasks
    ensures var id := s.grants[step.grant].taskId; var t := s.db.tasks[id];
      && t.kind == ActivityTask && 1 <= t.attempt <= t.maxAttempts == DEFAULT_RETRY_POLICY.maxAttempts
      && Origin(Rows(s.db, t.key), t) && id in s.chains && Timely(t, s.chains[id], s.clock)
      && s.chains[id].scheduledAt + LeastBackoff(s.chains[id].reports) <= s.clock
  {
    var id := s.grants[step.grant].taskId;
    GrantedActivity(s, step.grant);
    assert TaskOk(s.db, id) && ChainOk(s, id) && GrantDue(s, s.grants[step.grant]);
    hide Rows, Base, RetryDelay, Origin, OneEach;
  }

  lemma StepGrantDue(code: Code, s: State, step: Step, g: nat)
    requires Base(s) && Enabled(code, s, step) && Chained(s) && g in Apply(code, s, step).grants
    ensures GrantDue(Apply(code, s, step), Apply(code, s, step).grants[g])
  {
    var s' := Apply(code, s, step);
    StepGrants(code, s, step, g);
    if g in s.grants {
      assert GrantDue(s, s.grants[g]) && GrantOk(s.db, s.grants[g]);
      StepEvolves(code, s, step);
      ClockRuns(code, s, step);
      hide Base, Apply, Enabled, Chained, GrantOk;
      if s'.grants[g] != s.grants[g] {
        SnapshotIsNoActivity(code, s, step);
      } else {
        assert s.grants[g].taskId < s.db.taskSeq by { GrantIsOld(s.db, s.grants[g]); }
        StaysDue(s, s', s.grants[g]);
      }
    } else {
      NewGrantDue(code, s, step);
      StepNextGrant(code, s, step);
    }
  }

  lemma GrantIsOld(db: Db, g: Grant)
    requires GrantOk(db, g)
    ensures g.taskId < db.taskSeq
  {
  }

  lemma SnapshotIsNoActivity(code: Code, s: State, step: Step)
    requires Enabled(code, s, step) && step.Snapshot?
    ensures !Apply(code, s, step).grants[step.grant].ActivityGrant?
  {
    hide OrderedBy;
  }

  lemma StaysDue(s: State, s': State, g: Grant)
    requires GrantDue(s, g) && Evolves(s.db, s'.db) && s.clock <= s'.clock && g.taskId < s.db.taskSeq
    ensures GrantDue(s', g)
  {
    hide Rows;
  }

  lemma NewGrantDue(code: Code, s: State, step: Step)
    requires Enabled(code, s, step) && (step.PollWorkflow? || step.PollActivity?)
    ensures GrantDue(Apply(code, s, step), Apply(code, s, step).grants[s.nextGrant])
  {
    hide NewChains, Longer;
  }

  lemma StepOneEach(code: Code, s: State, step: Step)
    requires Base(s) && Enabled(code, s, step) && Chained(s)
    ensures OneEach(Apply(code, s, step).db)
  {
    var s' := Apply(code, s, step);
    StepEvolves(code, s, step);
    BaseShape(s);
    hide Apply, Enabled, Base, Evolves, Shape, Chained;
    forall i, j | i in s'.db.tasks && j in s'.db.tasks
      ensures SameOrigin(s'.db.tasks[i], s'.db.tasks[j]) ==> i == j
    {
      if i in s.db.tasks && j in s.db.tasks {
        BothOld(s, s'.db, i, j);
      } else if i in s.db.tasks {
        OldAndNew(code, s, step, i, j);
      } else if j in s.db.tasks {
        OldAndNew(code, s, step, j, i);
      } else {
        BothNew(code, s, step, i, j);
      }
    }
  }

  lemma BothOld(s: State, b: Db, i: int, j: int)
    requires Shape(s.db) && Chained(s) && Evolves(s.db, b)
    requires i in s.db.tasks && j in s.db.tasks && i in b.tasks && j in b.tasks
    ensures SameOrigin(b.tasks[i], b.tasks[j]) ==> i == j
  {
    OldTask(s.db, b, i);
    OldTask(s.db, b, j);
    hide Shape, Evolves, Rows, ChainOk;
    assert SameOrigin(s.db.tasks[i], s.db.tasks[j]) <==> SameOrigin(b.tasks[i], b.tasks[j]);
  }

  lemma OldAndNew(code: Code, s: State, step: Step, i: int, j: int)
    requires Base(s) && Enabled(code, s, step) && Chained(s)
    requires var b := Apply(code, s, step).db; i in b.tasks && j in b.tasks
    requires i in s.db.tasks && j !in s.db.tasks
    ensures var b := Apply(code, s, step).db; !SameOrigin(b.tasks[i], b.tasks[j])
  {
    hide *;
    if AcceptedAnswer(s, step) {
      OldAndFirst(code, s, step, i, j);
    } else if Retries(s, step) {
      OldAndRetry(code, s, step, i, j);
    } else {
      NoNewActivity(code, s, step, j);
      NoSameOrigin(Apply(code, s, step).db.tasks[i], Apply(code, s, step).db.tasks[j]);
    }
  }

  lemma NoSameOrigin(t: Task, u: Task)
    requires u.kind == WorkflowTask
    ensures !SameOrigin(t, u)
  {
  }

  lemma OldAndFirst(code: Code, s: State, step: Step, i: int, j: int)
    requires Base(s) && Enabled(code, s, step) && Chained(s) && AcceptedAnswer(s, step)
    requires var b := Apply(code, s, step).db; i in b.tasks && j in b.tasks
    requires i in s.db.tasks && j !in s.db.tasks
    ensures var b := Apply(code, s, step).db; !SameOrigin(b.tasks[i], b.tasks[j])
  {
    StepEvolves(code, s, step);
    BaseShape(s);
    assert ChainOk(s, i);
    AnswerStep(code, s, step);
    hide Base, Apply, Enabled, Chained;
    OldTask(s.db, Apply(code, s, step).db, i);
    hide Rows, Evolves, Shape;
  }

  lemma OldAndRetry(code: Code, s: State, step: Step, i: int, j: int)
    requires Base(s) && Enabled(code, s, step) && Chained(s) && Retries(s, step)
    requires var b := Apply(code, s, step).db; i in b.tasks && j in b.tasks
    requires i in s.db.tasks && j !in s.db.tasks
    ensures var b := Apply(code, s, step).db; !SameOrigin(b.tasks[i], b.tasks[j])
  {
    var reported := s.grants[step.grant].taskId;
    GrantedActivity(s, step.grant);
    RetryStep(code, s, step);
    assert OneEach(s.db);
    hide Base, Apply, Enabled, Chained, Rows, RetryDelay;
    var b := Apply(code, s, step).db;
    assert j == s.db.taskSeq && i != reported && b.tasks[i] == s.db.tasks[i];
    assert SameOrigin(b.tasks[i], b.tasks[j]) <==> SameOrigin(s.db.tasks[i], s.db.tasks[reported]);
  }

  lemma BothNew(code: Code, s: State, step: Step, i: int, j: int)
    requires Base(s) && Enabled(code, s, step)
    requires var b := Apply(code, s, step).db; i in b.tasks && j in b.tasks
    requires i !in s.db.tasks && j !in s.db.tasks
    ensures var b := Apply(code, s, step).db; SameOrigin(b.tasks[i], b.tasks[j]) ==> i == j
  {
    var s' := Apply(code, s, step);
    if AcceptedAnswer(s, step) {
      AnswerStep(code, s, step);
    } else if Retries(s, step) {
      RetryStep(code, s, step);
    } else {
      NoNewActivity(code, s, step, j);
    }
    hide Base, Apply, Enabled, Rows, Origin, RetryTask;
  }

  lemma StepChained(code: Code, s: State, step: Step)
    requires Base(s) && Enabled(code, s, step) && Chained(s)
    ensures Chained(Apply(code, s, step))
  {
    var s' := Apply(code, s, step);
    StepOneEach(code, s, step);
    hide Apply, Enabled, Base, ChainOk, GrantDue, OneEach;
    forall id | id in s'.db.tasks ensures ChainOk(s', id) {
      if id in s.db.tasks {
        OldChainOk(code, s, step, id);
      } else {
        NewChainOk(code, s, step, id);
      }
    }
    forall g | g in s'.grants ensures GrantDue(s', s'.grants[g]) {
      StepGrantDue(code, s, step, g);
    }
  }

  lemma {:induction false} ChainedAlways(code: Code, states: seq<State>, steps: seq<Step>, n: nat)
    requires Behavior(code, states, steps) && n < |states|
    ensures Chained(states[n])
  {
    if n > 0 {
      hide Enabled, Apply, Chained;
      ChainedAlways(code, states, steps, n - 1);
      BaseAlways(code, states, steps, n - 1);
      assert Enabled(code, states[n - 1], steps[n - 1]);
      StepChained(code, states[n - 1], steps[n - 1]);
    }
  }

  /* ---- counted along the run ---- */

  /** The step reports a failure of the activity that event e of the run scheduled, and the engine accepts it. */
  predicate AcceptedReport(s: State, step: Step, key: RunKey, e: int) {
    && step.FailActivity? && step.grant in s.grants && s.grants[step.grant].taskId in s.db.tasks
    && var t := s.db.tasks[s.grants[step.grant].taskId];
    && t.kind == ActivityTask && t.key == key && t.scheduledEventId == e
  }

  /** How many of the first n steps are such reports. */
  function Reports(states: seq<State>, steps: seq<Step>, n: nat, key: RunKey, e: int): nat
    requires n <= |steps| < |states|
  {
    if n == 0 then 0
    else Reports(states, steps, n - 1, key, e) + if AcceptedReport(states[n - 1], steps[n - 1], key, e) then 1 else 0
  }

  /** Event e of the run was appended by step j. */
  ghost predicate AppendedBy(states: seq<State>, j: nat, key: RunKey, e: int) {
    j + 1 < |states| && |Rows(states[j].db, key)| < e <= |Rows(states[j + 1].db, key)|
  }

  /** What chains records of the task is what happened. */
  ghost predicate Traced(states: seq<State>, steps: seq<Step>, n: nat, id: int)
    requires n <= |steps| < |states| && id in states[n].db.tasks
  {
    var t := states[n].db.tasks[id];
    t.kind == ActivityTask ==>
      && id in states[n].chains
      && states[n].chains[id].reports == Reports(states, steps, n, t.key, t.scheduledEventId)
      && exists j: nat :: j < n && AppendedBy(states, j, t.key, t.scheduledEventId)
           && states[n].chains[id].scheduledAt == states[j].clock
  }

  lemma {:induction false} NoReportsYet(code: Code, states: seq<State>, steps: seq<Step>, n: nat, key: RunKey, e: int)
    requires Behavior(code, states, steps) && n <= |steps| && e > |Rows(states[n].db, key)|
    ensures Reports(states, steps, n, key, e) == 0
  {
    hide Enabled, Apply, Rows;
    if n > 0 {
      EvolvesAlways(code, states, steps, n - 1, n);
      RowsGrow(states[n - 1].db, states[n].db, key);
      NoReportsYet(code, states, steps, n - 1, key, e);
      ChainedAlways(code, states, steps, n - 1);
      hide Behavior, Evolves;
      NotReported(states[n - 1], steps[n - 1], key, e);
    }
  }

  lemma NotReported(s: State, step: Step, key: RunKey, e: int)
    requires Chained(s) && e > |Rows(s.db, key)|
    ensures !AcceptedReport(s, step, key, e)
  {
    hide Rows;
    if step.FailActivity? && step.grant in s.grants && s.grants[step.grant].taskId in s.db.tasks {
      assert ChainOk(s, s.grants[step.grant].taskId);
    }
  }

  lemma FirstTraced(code: Code, states: seq<State>, steps: seq<Step>, n: nat, id: int)
    requires Behavior(code, states, steps) && n < |steps|
    requires id in states[n + 1].db.tasks && id !in states[n].db.tasks && AcceptedAnswer(states[n], steps[n])
    ensures Traced(states, steps, n + 1, id)
  {
    var s, step := states[n], steps[n];
    assert Enabled(code, s, step) && states[n + 1] == Apply(code, s, step);
    BaseAlways(code, states, steps, n);
    hide Enabled, Apply, Base, Behavior, Rows;
    AnswerStep(code, s, step);
    var t := states[n + 1].db.tasks[id];
    if t.kind == ActivityTask {
      assert AppendedBy(states, n, t.key, t.scheduledEventId);
      NoReportsYet(code, states, steps, n, t.key, t.scheduledEventId);
    }
  }

  lemma RetryTraced(code: Code, states: seq<State>, steps: seq<Step>, n: nat, id: int)
    requires Behavior(code, states, steps) && n < |steps|
    requires id in states[n + 1].db.tasks && id !in states[n].db.tasks && Retries(states[n], steps[n])
    requires Traced(states, steps, n, states[n].grants[steps[n].grant].taskId)
    ensures Traced(states, steps, n + 1, id)
  {
    var s, step := states[n], steps[n];
    assert Enabled(code, s, step) && states[n + 1] == Apply(code, s, step);
    BaseAlways(code, states, steps, n);
    RetryStep(code, s, step);
    GrantedActivity(s, step.grant);
    hide Enabled, Apply, Base, Behavior, Rows, AppendedBy, RetryDelay;
  }

  lemma OldTraced(code: Code, states: seq<State>, steps: seq<Step>, n: nat, id: int)
    requires Behavior(code, states, steps) && n < |steps|
    requires id in states[n + 1].db.tasks && id in states[n].db.tasks && Traced(states, steps, n, id)
    ensures Traced(states, steps, n + 1, id)
  {
    var s, step := states[n], steps[n];
    assert Enabled(code, s, step) && states[n + 1] == Apply(code, s, step);
    BaseAlways(code, states, steps, n);
    ChainedAlways(code, states, steps, n);
    EvolvesAlways(code, states, steps, n, n + 1);
    hide Behavior, Rows, AppendedBy;
    BaseShape(s);
    OldTask(s.db, states[n + 1].db, id);
    var t := s.db.tasks[id];
    if t.kind == ActivityTask {
      StepKeepsChain(code, s, step, id);
      ReportConsumes(code, s, step, id);
    }
    hide Enabled, Apply, Base, Evolves, Shape, Chained;
  }

  /** Whoever reports a failure of the activity the task stands for, consumes the task. */
  lemma ReportConsumes(code: Code, s: State, step: Step, id: int)
    requires Base(s) && Enabled(code, s, step) && Chained(s)
    requires id in s.db.tasks && id in Apply(code, s, step).db.tasks && s.db.tasks[id].kind == ActivityTask
    ensures !AcceptedReport(s, step, s.db.tasks[id].key, s.db.tasks[id].scheduledEventId)
  {
    BaseShape(s);
    SeqIsFresh(s.db);
    if step.FailActivity? && s.grants[step.grant].taskId in s.db.tasks {
      var reported := s.grants[step.grant].taskId;
      GrantedActivity(s, step.grant);
      assert reported !in Apply(code, s, step).db.tasks by {
        hide Shape, Chained, Rows, RetryTask;
      }
      assert OneEach(s.db);
      hide Base, Apply, Enabled, Chained, Shape;
      assert id != reported;
      assert !SameOrigin(s.db.tasks[id], s.db.tasks[reported]);
    }
  }

  lemma {:induction false} TracedAlways(code: Code, states: seq<State>, steps: seq<Step>, n: nat, id: int)
    requires Behavior(code, states, steps) && n < |states| && id in states[n].db.tasks
    ensures Traced(states, steps, n, id)
  {
    hide Enabled, Apply, Traced, Retries, AcceptedAnswer;
    if n > 0 {
      var s, step := states[n - 1], steps[n - 1];
      if id in s.db.tasks {
        TracedAlways(code, states, steps, n - 1, id);
        OldTraced(code, states, steps, n - 1, id);
      } else if Retries(s, step) {
        TracedAlways(code, states, steps, n - 1, ReportedTask(s, step));
        RetryTraced(code, states, steps, n - 1, id);
      } else if AcceptedAnswer(s, step) {
        FirstTraced(code, states, steps, n - 1, id);
      } else {
        assert Enabled(code, s, step) && states[n] == Apply(code, s, step);
        BaseAlways(code, states, steps, n - 1);
        NoNewActivity(code, s, step, id);
        WorkflowTaskTraced(states, steps, n, id);
      }
    }
  }

  function ReportedTask(s: State, step: Step): (id: int)
    requires Retries(s, step)
    ensures id in s.db.tasks && step.FailActivity? && step.grant in s.grants && id == s.grants[step.grant].taskId
  {
    s.grants[step.grant].taskId
  }

  lemma WorkflowTaskTraced(states: seq<State>, steps: seq<Step>, n: nat, id: int)
    requires n <= |steps| < |states| && id in states[n].db.tasks && states[n].db.tasks[id].kind == WorkflowTask
    ensures Traced(states, steps, n, id)
  {
  }

  /** The next attempt: the same activity, one attempt further, hidden for half a second to one second after the first
      attempt and for one to two seconds after the second. */
  predicate NextAttempt(t: Task, u: Task, now: int) {
    && u == t.(attempt := t.attempt + 1, visibleAt := u.visibleAt, leaseOwner := None, leaseExpiresAt := None)
    && (t.attempt == 1 ==> 500_000_000 <= u.visibleAt - now < 1_000_000_000)
    && (t.attempt == 2 ==> 1_000_000_000 <= u.visibleAt - now < 2_000_000_000)
  }

  /** The first two reported failures of a scheduled activity lead to a next attempt, the third one to its
      ActivityFailed event, which comes at least the sum of the halved backoffs after the scheduling. */
  lemma GivesUpAfterThree(code: Code, states: seq<State>, steps: seq<Step>, n: nat, key: RunKey, e: int)
    requires Behavior(code, states, steps) && n < |steps| && AcceptedReport(states[n], steps[n], key, e)
    ensures var s, t := states[n], states[n].db.tasks[states[n].grants[steps[n].grant].taskId];
      var reports := Reports(states, steps, n + 1, key, e);
      var added := NewEvents(code, s, steps[n], key);
      && reports == t.attempt <= 3
      && Origin(Rows(s.db, key), t)
      && if reports < 3
         then
           && added == [] && s.db.taskSeq in states[n + 1].db.tasks
           && NextAttempt(t, states[n + 1].db.tasks[s.db.taskSeq], s.clock)
         else
           && |added| == 1 && added[0].kind == ActivityFailed
           && added[0].activityName == t.activityName && added[0].activityIndex == t.activityIndex
           && added[0].data == steps[n].message
           && exists j: nat :: j < n && AppendedBy(states, j, key, e) && s.clock >= states[j].clock + LeastBackoff(2)
  {
    var s, step := states[n], steps[n];
    assert Enabled(code, s, step) && states[n + 1] == Apply(code, s, step);
    hide Enabled, Apply, Rows, LeastBackoff, NewEvents, NextAttempt, RetryDelay, Origin, AppendedBy;
    BaseAlways(code, states, steps, n);
    ReportInTime(code, states, steps, n, key, e);
    hide Behavior, Base, Reports;
    if !LastAttempt(s.db.tasks[s.grants[step.grant].taskId]) {
      EarlyReport(code, s, step, key);
    } else {
      LastReport(code, s, step, key);
    }
  }

  lemma ReportInTime(code: Code, states: seq<State>, steps: seq<Step>, n: nat, key: RunKey, e: int)
    requires Behavior(code, states, steps) && n < |steps| && AcceptedReport(states[n], steps[n], key, e)
    ensures var s, t := states[n], states[n].db.tasks[states[n].grants[steps[n].grant].taskId];
      && t.kind == ActivityTask && t.maxAttempts == DEFAULT_RETRY_POLICY.maxAttempts
      && Reports(states, steps, n + 1, key, e) == t.attempt <= t.maxAttempts
      && Origin(Rows(s.db, key), t)
      && exists j: nat :: j < n && AppendedBy(states, j, key, e)
           && s.clock >= states[j].clock + LeastBackoff(t.attempt - 1)
  {
    var s, step := states[n], steps[n];
    assert Enabled(code, s, step);
    hide Enabled, Base, Rows, LeastBackoff, Origin, AppendedBy, Chained;
    BaseAlways(code, states, steps, n);
    ChainedAlways(code, states, steps, n);
    TracedAlways(code, states, steps, n, s.grants[step.grant].taskId);
    ReportIsTimely(code, s, step);
  }

  /** Every ActivityFailed event ends a chain: it comes with the third accepted report of one scheduling, names the
      activity that was scheduled, and keeps to the time bound. */
  lemma FailuresEndChains(code: Code, states: seq<State>, steps: seq<Step>, n: nat, key: RunKey, i: nat)
    returns (e: int)
    requires Behavior(code, states, steps) && n < |steps|
    requires i < |NewEvents(code, states[n], steps[n], key)|
    requires NewEvents(code, states[n], steps[n], key)[i].kind == ActivityFailed
    ensures AcceptedReport(states[n], steps[n], key, e)
    ensures Reports(states, steps, n + 1, key, e) == 3
    ensures 1 <= e <= |Rows(states[n].db, key)|
    ensures var scheduled, failed := Rows(states[n].db, key)[e - 1], NewEvents(code, states[n], steps[n], key)[i];
      && scheduled.kind == ActivityScheduled && scheduled.eventId == e
      && failed.activityName == scheduled.activityName && failed.activityIndex == scheduled.activityIndex
    ensures exists j: nat :: j < n && AppendedBy(states, j, key, e)
              && states[n].clock >= states[j].clock + LeastBackoff(2)
  {
    assert Enabled(code, states[n], steps[n]);
    hide *;
    BaseAlways(code, states, steps, n);
    OnlyFailureReportsFail(code, states[n], steps[n], key, i);
    e := ReportedEvent(states[n], steps[n], key);
    ThirdReport(code, states, steps, n, key, e);
  }

  lemma ThirdReport(code: Code, states: seq<State>, steps: seq<Step>, n: nat, key: RunKey, e: int)
    requires Behavior(code, states, steps) && n < |steps| && AcceptedReport(states[n], steps[n], key, e)
    requires NewEvents(code, states[n], steps[n], key) != []
    ensures Reports(states, steps, n + 1, key, e) == 3
    ensures 1 <= e <= |Rows(states[n].db, key)| && |NewEvents(code, states[n], steps[n], key)| == 1
    ensures var scheduled, failed := Rows(states[n].db, key)[e - 1], NewEvents(code, states[n], steps[n], key)[0];
      && scheduled.kind == ActivityScheduled && scheduled.eventId == e
      && failed.activityName == scheduled.activityName && failed.activityIndex == scheduled.activityIndex
    ensures exists j: nat :: j < n && AppendedBy(states, j, key, e)
              && states[n].clock >= states[j].clock + LeastBackoff(2)
  {
    assert Enabled(code, states[n], steps[n]) && states[n + 1] == Apply(code, states[n], steps[n]);
    hide Behavior, Enabled, Apply, Base, Rows, LeastBackoff, NewEvents, Reports, Origin, AppendedBy;
    BaseAlways(code, states, steps, n);
    ReportInTime(code, states, steps, n, key, e);
    ThirdFailure(code, states[n], steps[n], key, e);
  }

  lemma ThirdFailure(code: Code, s: State, step: Step, key: RunKey, e: int)
    requires Base(s) && Enabled(code, s, step) && AcceptedReport(s, step, key, e) && NewEvents(code, s, step, key) != []
    requires var t := s.db.tasks[s.grants[step.grant].taskId];
      Origin(Rows(s.db, key), t) && t.attempt <= t.maxAttempts
    ensures var t := s.db.tasks[s.grants[step.grant].taskId];
      t.attempt == t.maxAttempts && 1 <= e <= |Rows(s.db, key)| && |NewEvents(code, s, step, key)| == 1
    ensures var scheduled, failed := Rows(s.db, key)[e - 1], NewEvents(code, s, step, key)[0];
      && scheduled.kind == ActivityScheduled && scheduled.eventId == e
      && failed.activityName == scheduled.activityName && failed.activityIndex == scheduled.activityIndex
  {
    hide Enabled, Apply, Base, Rows, NewEvents, NextAttempt, Origin;
    OriginSays(Rows(s.db, key), s.db.tasks[s.grants[step.grant].taskId]);
    if Retries(s, step) {
      EarlyReport(code, s, step, key);
    } else {
      LastReport(code, s, step, key);
    }
  }

  lemma OriginSays(rows: seq<Event>, t: Task)
    requires Origin(rows, t)
    ensures 1 <= t.scheduledEventId <= |rows|
    ensures var e := rows[t.scheduledEventId - 1];
      && e.kind == ActivityScheduled && e.eventId == t.scheduledEventId
      && e.activityName == t.activityName && e.activityIndex == t.activityIndex
  {
  }

  lemma ReportedEvent(s: State, step: Step, key: RunKey) returns (e: int)
    requires Base(s) && step.FailActivity? && step.grant in s.grants && s.grants[step.grant].ActivityGrant?
    requires s.grants[step.grant].taskId in s.db.tasks && s.grants[step.grant].key == key
    ensures AcceptedReport(s, step, key, e)
  {
    GrantedActivity(s, step.grant);
    e := s.db.tasks[s.grants[step.grant].taskId].scheduledEventId;
  }

  lemma OnlyFailureReportsFail(code: Code, s: State, step: Step, key: RunKey, i: nat)
    requires Enabled(code, s, step) && i < |NewEvents(code, s, step, key)|
    requires NewEvents(code, s, step, key)[i].kind == ActivityFailed
    ensures step.FailActivity? && s.grants[step.grant].ActivityGrant?
    ensures s.grants[step.grant].taskId in s.db.tasks && s.grants[step.grant].key == key
  {
    hide Rows, LatestIs, NextTask, OrderedBy, DueBatch, FiredEvents, ResponseCommands, CanRespond;
    if step.Scan? && Owned(s.db, step.batch) {
      FiredEventsShape(s.db, step.batch, key);
    }
  }

  lemma EarlyReport(code: Code, s: State, step: Step, key: RunKey)
    requires Base(s) && Enabled(code, s, step) && Retries(s, step)
    ensures var t, s' := s.db.tasks[s.grants[step.grant].taskId], Apply(code, s, step);
      && NewEvents(code, s, step, key) == []
      && s.db.taskSeq in s'.db.tasks && NextAttempt(t, s'.db.tasks[s.db.taskSeq], s.clock)
  {
    RetryStep(code, s, step);
    GrantedActivity(s, step.grant);
    assert TaskOk(s.db, s.grants[step.grant].taskId);
    DefaultDelays(s.db.tasks[s.grants[step.grant].taskId].attempt, step.jitter);
    hide Apply, Base, RetryDelay, Rows;
  }

  lemma LastReport(code: Code, s: State, step: Step, key: RunKey)
    requires Base(s) && Enabled(code, s, step) && step.FailActivity? && s.grants[step.grant].taskId in s.db.tasks
    requires LastAttempt(s.db.tasks[s.grants[step.grant].taskId]) && s.db.tasks[s.grants[step.grant].taskId].key == key
    ensures var t, added := s.db.tasks[s.grants[step.grant].taskId], NewEvents(code, s, step, key);
      && |added| == 1 && added[0].kind == ActivityFailed
      && added[0].activityName == t.activityName && added[0].activityIndex == t.activityIndex
      && added[0].data == step.message
  {
    GrantedActivity(s, step.grant);
    hide Base, RetryDelay, Rows;
  }
}
