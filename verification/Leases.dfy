/** Who holds a task, and for how long nobody else can. */
module Leases {
  import opened Types
  import opened Interpreter
  import opened Tables
  import opened Handlers
  import opened Structure
  import opened Engine
  import opened Steps
  import opened Effects
  import opened RetryChain
  import opened Records

  /** Every row of a that is still there in b is unchanged. */
  ghost predicate RowsKept(a: Db, b: Db) {
    forall id :: id in a.tasks && id in b.tasks ==> b.tasks[id] == a.tasks[id]
  }

  lemma {:induction false} FireAllKeepsRows(committed: Db, batch: seq<int>)
    requires Shape(committed) && Owned(committed, batch)
    ensures RowsKept(committed, FireTimers(committed, batch))
    ensures committed.tasks.Keys <= FireTimers(committed, batch).tasks.Keys
  {
    if batch != [] {
      var init, last := batch[..|batch| - 1], batch[|batch| - 1];
      FireAllKeepsRows(committed, init);
      FireAllShape(committed, init);
      FireKeepsRows(FireTimers(committed, init), committed, last);
      hide FireTimer, Shape, Evolves;
    }
  }

  lemma FireKeepsRows(db: Db, committed: Db, id: int)
    requires Shape(db) && id in committed.timers && committed.timers[id].key in committed.executions
    ensures RowsKept(db, FireTimer(db, committed, id)) && db.tasks.Keys <= FireTimer(db, committed, id).tasks.Keys
  {
    SeqIsFresh(db);
    hide Shape, Rows;
  }

  lemma RespondKeepsRows(db: Db, m: Metrics, now: int, taskId: int, key: RunKey, cmds: seq<Command>)
    requires Shape(db) && Honest(cmds)
    ensures RowsKept(db, CompleteWorkflowTask(db, m, now, taskId, key, cmds).db)
  {
    hide ApplyCommands, Shape, Honest, NewAreFirst;
    if key in db.executions && db.executions[key].status == Running {
      CommandsFirst(Begin(db, key), now, key, db.executions[key], cmds);
    }
    hide Rows;
  }

  /** A task row changes only when it is handed out or when its lease is reclaimed. */
  lemma StepKeepsRows(code: Code, s: State, step: Step)
    requires Base(s) && Enabled(code, s, step)
    ensures !step.PollWorkflow? && !step.PollActivity? && !step.Reclaim? ==> RowsKept(s.db, Apply(code, s, step).db)
  {
    BaseShape(s);
    hide Base, Shape, RowsKept, LatestIs, NextTask, OrderedBy, DueBatch, CanRespond, ResponseCommands, ScanTimers,
      StartWorkflow, SignalWorkflow, CompleteActivityTask, FailActivityTask, CompleteWorkflowTask, NewChains, Longer,
      LeaseTask, ReclaimExpired;
    assert RowsKept(s.db, s.db) by { KeepsItself(s.db); }
    match step {
      case Start(k, latest, workflowType, queue, input) =>
        StartKeepsRows(s.db, s.metrics, s.clock, k, latest, workflowType, queue, input);
      case Respond(g, calls) =>
        var v := s.grants[g];
        ResponseIsHonest(code, v, calls);
        RespondKeepsRows(s.db, s.metrics, s.clock, v.taskId, v.key, ResponseCommands(code, v, calls));
      case CompleteActivity(g, result) =>
        CompleteKeepsRows(s.db, s.metrics, s.grants[g].taskId, s.grants[g].key, result);
      case FailActivity(g, message, jitter) =>
        FailKeepsRows(s.db, s.metrics, s.clock, s.grants[g].taskId, s.grants[g].key, message, jitter);
      case Scan(batch) =>
        ScanKeepsRows(s.db, s.metrics, batch);
      case Signal(k, name, data) =>
        SignalKeepsRows(s.db, s.metrics, s.clock, k, name, data);
      case _ =>
    }
  }

  lemma KeepsItself(db: Db)
    ensures RowsKept(db, db)
  {
  }

  lemma StartKeepsRows(db: Db, m: Metrics, now: int, k: RunKey, latest: Option<RunKey>, workflowType: string,
                       queue: string,
                       input: Bytes)
    requires Shape(db)
    ensures RowsKept(db, StartWorkflow(db, m, now, k, latest, workflowType, queue, input).db)
  {
    SeqIsFresh(db);
    hide Shape, Rows;
  }

  lemma CompleteKeepsRows(db: Db, m: Metrics, id: int, key: RunKey, result: Bytes)
    requires Shape(db)
    ensures RowsKept(db, CompleteActivityTask(db, m, id, key, result).db)
  {
    SeqIsFresh(db);
    hide Shape, Rows;
  }

  lemma FailKeepsRows(db: Db, m: Metrics, now: int, id: int, key: RunKey, message: Bytes, jitter: real)
    requires Shape(db)
    ensures RowsKept(db, FailActivityTask(db, m, now, id, key, message, jitter).db)
  {
    SeqIsFresh(db);
    hide Shape, Rows, RetryTask;
  }

  lemma ScanKeepsRows(db: Db, m: Metrics, batch: seq<int>)
    requires Shape(db)
    ensures RowsKept(db, ScanTimers(db, m, batch).db)
  {
    hide Shape, FireTimers;
    if Owned(db, batch) {
      FireAllKeepsRows(db, batch);
    }
  }

  lemma SignalKeepsRows(db: Db, m: Metrics, now: int, key: RunKey, name: string, data: Bytes)
    requires Shape(db)
    ensures RowsKept(db, SignalWorkflow(db, m, now, key, name, data).db)
  {
    SeqIsFresh(db);
    hide Shape, Rows, AnyWorkflowTask;
  }

  predicate Polls(step: Step, id: int) {
    (step.PollWorkflow? || step.PollActivity?) && step.taskId == id
  }

  /** The row, while it exists, is leased until the given time. */
  predicate HeldUntil(db: Db, id: int, expiry: int) {
    && id < db.taskSeq
    && (id in db.tasks ==> db.tasks[id].leaseOwner.Some? && db.tasks[id].leaseExpiresAt == Some(expiry))
  }

  lemma PollHolds(code: Code, s: State, step: Step, id: int)
    requires Base(s) && Enabled(code, s, step) && Polls(step, id)
    ensures HeldUntil(Apply(code, s, step).db, id, s.clock + LEASE)
    ensures id in s.db.tasks && s.db.tasks[id].leaseOwner.None?
  {
    assert TaskOk(s.db, id);
    hide Base, Shape;
  }

  /** Nobody else is given a task, and nobody's lease is cut short. */
  lemma StepHolds(code: Code, s: State, step: Step, id: int, expiry: int)
    requires Base(s) && Enabled(code, s, step) && HeldUntil(s.db, id, expiry)
    ensures !Polls(step, id)
    ensures !(step.Reclaim? && s.clock > expiry) ==> HeldUntil(Apply(code, s, step).db, id, expiry)
  {
    var s' := Apply(code, s, step);
    if step.PollWorkflow? || step.PollActivity? || step.Reclaim? {
      hide Base;
    } else {
      StepKeepsRows(code, s, step);
      StepEvolves(code, s, step);
      hide Base, Apply, Enabled, Rows;
    }
  }

  lemma {:induction false} HeldThroughout(code: Code, states: seq<State>, steps: seq<Step>, i: nat, j: nat, id: int)
    requires Behavior(code, states, steps) && i < j < |states| && Polls(steps[i], id)
    requires forall r :: i < r < j ==> !(steps[r].Reclaim? && states[r].clock > states[i].clock + LEASE)
    ensures HeldUntil(states[j].db, id, states[i].clock + LEASE)
  {
    hide Enabled, Apply, Base, HeldUntil;
    var s, step := states[j - 1], steps[j - 1];
    assert Enabled(code, s, step) && states[j] == Apply(code, s, step);
    BaseAlways(code, states, steps, j - 1);
    if i == j - 1 {
      PollHolds(code, s, step, id);
    } else {
      HeldThroughout(code, states, steps, i, j - 1, id);
      StepHolds(code, s, step, id, states[i].clock + LEASE);
    }
  }

  lemma {:induction false} ClockOnlyRuns(code: Code, states: seq<State>, steps: seq<Step>, i: nat, j: nat)
    requires Behavior(code, states, steps) && i <= j < |states|
    ensures states[i].clock <= states[j].clock
  {
    hide Enabled, Apply;
    if i < j {
      ClockOnlyRuns(code, states, steps, i, j - 1);
      assert Enabled(code, states[j - 1], steps[j - 1]);
      ClockRuns(code, states[j - 1], steps[j - 1]);
    }
  }

  /** Between two grants of one task its expired lease was reclaimed, so more than thirty seconds lie between them. */
  lemma GrantsAreApart(code: Code, states: seq<State>, steps: seq<Step>, i: nat, j: nat, id: int) returns (r: nat)
    requires Behavior(code, states, steps) && i < j < |steps| && Polls(steps[i], id) && Polls(steps[j], id)
    ensures i < r < j && steps[r].Reclaim? && states[r].clock > states[i].clock + 30_000_000_000
    ensures states[j].clock > states[i].clock + 30_000_000_000
  {
    hide Enabled, Apply, Base, HeldUntil;
    if forall r :: i < r < j ==> !(steps[r].Reclaim? && states[r].clock > states[i].clock + LEASE) {
      HeldThroughout(code, states, steps, i, j, id);
      BaseAlways(code, states, steps, j);
      assert Enabled(code, states[j], steps[j]);
      StepHolds(code, states[j], steps[j], id, states[i].clock + LEASE);
      assert false;
    }
    r :| i < r < j && steps[r].Reclaim? && states[r].clock > states[i].clock + LEASE;
    ClockOnlyRuns(code, states, steps, r, j);
  }

  /** The row, while it exists, is leased until the given time or not at all. */
  predicate HeldOrFree(db: Db, id: int, expiry: int) {
    && id < db.taskSeq
    && (id in db.tasks ==> Unleased(db.tasks[id]) || HeldUntil(db, id, expiry))
  }

  lemma StepHeldOrFree(code: Code, s: State, step: Step, id: int, expiry: int)
    requires Base(s) && Enabled(code, s, step) && HeldOrFree(s.db, id, expiry) && !Polls(step, id)
    ensures HeldOrFree(Apply(code, s, step).db, id, expiry)
    ensures step.Reclaim? && s.clock > expiry && id in Apply(code, s, step).db.tasks ==>
      Unleased(Apply(code, s, step).db.tasks[id])
  {
    if step.PollWorkflow? || step.PollActivity? || step.Reclaim? {
      hide Base, Rows, CanRespond, ResponseCommands, OrderedBy, DueBatch;
    } else {
      StepEvolves(code, s, step);
      StepKeepsRows(code, s, step);
      hide *;
      RowStays(s.db, Apply(code, s, step).db, id, expiry);
    }
  }

  lemma RowStays(a: Db, b: Db, id: int, expiry: int)
    requires HeldOrFree(a, id, expiry) && RowsKept(a, b) && Evolves(a, b)
    ensures HeldOrFree(b, id, expiry)
  {
    hide Rows;
  }

  lemma {:induction false} HeldOrFreeSince(code: Code, states: seq<State>, steps: seq<Step>, i: nat, j: nat, id: int)
    requires Behavior(code, states, steps) && i < j < |states| && Polls(steps[i], id)
    requires forall k :: i < k < j ==> !Polls(steps[k], id)
    ensures HeldOrFree(states[j].db, id, states[i].clock + LEASE)
  {
    hide Enabled, Apply, Base, HeldOrFree, Polls;
    var s, step := states[j - 1], steps[j - 1];
    assert Enabled(code, s, step) && states[j] == Apply(code, s, step);
    BaseAlways(code, states, steps, j - 1);
    if i == j - 1 {
      PollHolds(code, s, step, id);
      HeldIsHeldOrFree(states[j].db, id, states[i].clock + LEASE);
    } else {
      HeldOrFreeSince(code, states, steps, i, j - 1, id);
      StepHeldOrFree(code, s, step, id, states[i].clock + LEASE);
    }
  }

  lemma HeldIsHeldOrFree(db: Db, id: int, expiry: int)
    requires HeldUntil(db, id, expiry)
    ensures HeldOrFree(db, id, expiry)
  {
  }

  /** A task whose worker is never heard of again comes back: the first reclaim that comes more than thirty seconds
      after the poll leaves it unleased, if it is still there. */
  lemma AbandonedTaskReturns(code: Code, states: seq<State>, steps: seq<Step>, i: nat, r: nat, id: int)
    requires Behavior(code, states, steps) && i < r < |steps| && Polls(steps[i], id)
    requires forall k :: i < k < r ==> !Polls(steps[k], id)
    requires steps[r].Reclaim? && states[r].clock > states[i].clock + 30_000_000_000
    ensures id in states[r + 1].db.tasks ==>
      && states[r + 1].db.tasks[id].leaseOwner.None? && states[r + 1].db.tasks[id].leaseExpiresAt.None?
  {
    hide Enabled, Apply, Base, HeldOrFree;
    BaseAlways(code, states, steps, r);
    HeldOrFreeSince(code, states, steps, i, r, id);
    assert Enabled(code, states[r], steps[r]) && states[r + 1] == Apply(code, states[r], steps[r]);
    StepHeldOrFree(code, states[r], steps[r], id, states[i].clock + LEASE);
  }

  /** A task has an owner exactly when it has an expiry time; and the task a poll hands out is unleased, visible, of
      the queue and type asked for, and the oldest such; it is then the owner's for thirty seconds. */
  lemma PollTakesTheOldest(code: Code, states: seq<State>, steps: seq<Step>, n: nat)
    requires Behavior(code, states, steps) && n < |steps|
    ensures forall id :: id in states[n].db.tasks ==>
      (states[n].db.tasks[id].leaseOwner.Some? <==> states[n].db.tasks[id].leaseExpiresAt.Some?)
    ensures steps[n].PollWorkflow? || steps[n].PollActivity? ==>
      var tasks, step, now := states[n].db.tasks, steps[n], states[n].clock;
      var kind := if step.PollWorkflow? then WorkflowTask else ActivityTask;
      && step.taskId in tasks
      && (forall k | k in tasks && tasks[k].queue == step.queue && tasks[k].kind == kind && tasks[k].leaseOwner.None?
            && tasks[k].visibleAt <= now :: step.taskId <= k)
      && var t := tasks[step.taskId];
      && t.queue == step.queue && t.kind == kind && t.leaseOwner.None? && t.visibleAt <= now
      && states[n + 1].db.tasks ==
           tasks[step.taskId := t.(leaseOwner := Some(step.owner), leaseExpiresAt := Some(now + 30_000_000_000))]
  {
    BaseAlways(code, states, steps, n);
    var s, step := states[n], steps[n];
    assert Enabled(code, s, step) && states[n + 1] == Apply(code, s, step);
    forall id | id in states[n].db.tasks
      ensures states[n].db.tasks[id].leaseOwner.Some? <==> states[n].db.tasks[id].leaseExpiresAt.Some?
    {
      assert TaskOk(states[n].db, id);
    }
    hide Behavior, Base;
    if step.PollWorkflow? || step.PollActivity? {
      var kind := if step.PollWorkflow? then WorkflowTask else ActivityTask;
      assert NextTask(s.db, step.queue, kind, s.clock, step.taskId);
      forall k | k in s.db.tasks && s.db.tasks[k].queue == step.queue && s.db.tasks[k].kind == kind
                 && s.db.tasks[k].leaseOwner.None? && s.db.tasks[k].visibleAt <= s.clock
        ensures step.taskId <= k
      {
        assert Pollable(s.db.tasks[k], step.queue, kind, s.clock);
      }
    }
  }
}
