/** A closed run drains: whatever still happens to its tasks and timers happens finitely often. */
module Drain {
  import opened Types
  import opened Counting
  import opened Backoff
  import opened Interpreter
  import opened Tables
  import opened Handlers
  import opened Structure
  import opened Engine
  import opened Steps
  import opened RowCounts
  import opened Conservation
  import opened RetryChain
  import opened Terminal

  /** How often the row of a task can still be replaced by another one, and then go. */
  function TaskWeight(t: Task): nat {
    if t.kind == WorkflowTask then 1 else if t.attempt <= t.maxAttempts then 2 + t.maxAttempts - t.attempt else 2
  }

  ghost function TaskWeights(db: Db, key: RunKey): map<int, nat> {
    map id | id in db.tasks && db.tasks[id].key == key :: TaskWeight(db.tasks[id])
  }

  ghost function TimerWeights(db: Db, key: RunKey): map<int, nat> {
    map id | id in db.timers && db.timers[id].key == key && !db.timers[id].fired :: 2
  }

  ghost function Potential(db: Db, key: RunKey): nat {
    Total(TaskWeights(db, key)) + Total(TimerWeights(db, key))
  }

  /** b has the task and timer rows of a for the run, but for leases. */
  ghost predicate Untouched(a: Db, b: Db, key: RunKey) {
    && (forall id :: id in a.tasks && a.tasks[id].key == key ==> id in b.tasks && SameTask(a.tasks[id], b.tasks[id]))
    && (forall id :: id in b.tasks && b.tasks[id].key == key ==> id in a.tasks && a.tasks[id].key == key)
    && (forall id :: id in a.timers && a.timers[id].key == key ==> id in b.timers && b.timers[id] == a.timers[id])
    && (forall id :: id in b.timers && b.timers[id].key == key ==> id in a.timers && a.timers[id].key == key)
  }

  lemma UntouchedPotential(a: Db, b: Db, key: RunKey)
    requires Untouched(a, b, key)
    ensures Potential(b, key) == Potential(a, key)
  {
    var v, w := TaskWeights(a, key), TaskWeights(b, key);
    forall id ensures id in v <==> id in w {
      assert id in v ==> id in a.tasks && a.tasks[id].key == key;
      assert id in w ==> id in b.tasks && b.tasks[id].key == key;
    }
    forall id | id in v ensures v[id] == w[id] {
      assert id in a.tasks && id in b.tasks && SameTask(a.tasks[id], b.tasks[id]);
    }
    assert v == w;
    var x, y := TimerWeights(a, key), TimerWeights(b, key);
    forall id ensures id in x <==> id in y {
      assert id in x ==> id in a.timers && a.timers[id].key == key;
      assert id in y ==> id in b.timers && b.timers[id].key == key;
    }
    assert x == y;
  }

  ghost predicate Drains(a: Db, b: Db, key: RunKey) {
    Untouched(a, b, key) || Potential(b, key) < Potential(a, key)
  }

  lemma UntouchedTransitive(a: Db, b: Db, c: Db, key: RunKey)
    requires Untouched(a, b, key) && Untouched(b, c, key)
    ensures Untouched(a, c, key)
  {
  }

  lemma DrainsTransitive(a: Db, b: Db, c: Db, key: RunKey)
    requires Drains(a, b, key) && Drains(b, c, key)
    ensures Drains(a, c, key)
  {
    hide Untouched, Potential;
    if Untouched(a, b, key) {
      UntouchedPotential(a, b, key);
    }
    if Untouched(b, c, key) {
      UntouchedPotential(b, c, key);
      if Untouched(a, b, key) {
        UntouchedTransitive(a, b, c, key);
      }
    }
  }

  /* ---- one statement at a time ---- */

  lemma AddElsewhere(db: Db, t: Task, key: RunKey)
    requires Shape(db) && t.key != key
    ensures Untouched(db, AddTask(db, t), key)
  {
    assert forall id :: id in db.tasks ==> TaskOk(db, id);
  }

  lemma DeleteDrains(db: Db, id: int, key: RunKey)
    ensures Drains(db, DeleteTask(db, id), key)
  {
    var b := DeleteTask(db, id);
    if id in db.tasks && db.tasks[id].key == key {
      TotalRemove(TaskWeights(db, key), id);
      assert TaskWeights(b, key) == TaskWeights(db, key) - {id};
      assert TimerWeights(b, key) == TimerWeights(db, key);
    }
  }

  /** One task makes way for a lighter one of the same run. */
  lemma ReplaceDrains(db: Db, id: int, t: Task, key: RunKey)
    requires Shape(db) && id in db.tasks && t.key == db.tasks[id].key && TaskWeight(t) < TaskWeight(db.tasks[id])
    ensures Drains(db, AddTask(DeleteTask(db, id), t), key)
  {
    SeqIsFresh(db);
    var c, b := DeleteTask(db, id), AddTask(DeleteTask(db, id), t);
    hide Shape, Total, TaskWeight, SameTask;
    if t.key == key {
      var w := TaskWeights(db, key);
      TotalRemove(w, id);
      TotalInsert(w - {id}, db.taskSeq, TaskWeight(t));
      DeletedWeights(db, id, key);
      AddedWeights(c, t, key);
      assert TimerWeights(b, key) == TimerWeights(db, key);
      hide TaskWeights, TimerWeights, AddTask, DeleteTask, Untouched;
    } else {
      hide Potential;
      assert Untouched(db, b, key) by { OthersUntouched(db, id, t, key); }
    }
  }

  lemma DeletedWeights(db: Db, id: int, key: RunKey)
    ensures TaskWeights(DeleteTask(db, id), key) == TaskWeights(db, key) - {id}
  {
  }

  lemma AddedWeights(db: Db, t: Task, key: RunKey)
    requires db.taskSeq !in db.tasks && t.key == key
    ensures TaskWeights(AddTask(db, t), key) == TaskWeights(db, key)[db.taskSeq := TaskWeight(t)]
  {
    hide TaskWeight;
  }

  lemma OthersUntouched(db: Db, id: int, t: Task, key: RunKey)
    requires id in db.tasks && db.tasks[id].key != key && t.key != key && db.taskSeq !in db.tasks
    ensures Untouched(db, AddTask(DeleteTask(db, id), t), key)
  {
  }

  lemma FireDrains(db: Db, committed: Db, id: int, key: RunKey)
    requires Shape(db) && id in committed.timers && committed.timers[id].key in committed.executions
    requires id in db.timers && db.timers[id] == committed.timers[id] && !db.timers[id].fired
    ensures Drains(db, FireTimer(db, committed, id), key)
  {
    var b := FireTimer(db, committed, id);
    var t := FiringTask(committed, id);
    assert b.tasks == db.tasks[db.taskSeq := t] && b.timers == db.timers[id := db.timers[id].(fired := true)];
    assert t.key == db.timers[id].key && TaskWeight(t) == 1;
    assert forall k :: k in db.tasks ==> TaskOk(db, k);
    hide Shape, FireTimer, FiringTask, TaskWeight, Rows, Potential, Total;
    if t.key == key {
      TimerGoesTaskComes(db, b, id, t);
    } else {
      hide Drains;
      assert Untouched(db, b, key);
      UntouchedDrains(db, b, key);
    }
  }

  lemma UntouchedDrains(a: Db, b: Db, key: RunKey)
    requires Untouched(a, b, key)
    ensures Drains(a, b, key)
  {
  }

  lemma TimerGoesTaskComes(a: Db, b: Db, id: int, t: Task)
    requires id in a.timers && !a.timers[id].fired && a.taskSeq !in a.tasks
    requires b.tasks == a.tasks[a.taskSeq := t] && b.timers == a.timers[id := a.timers[id].(fired := true)]
    requires t.key == a.timers[id].key && TaskWeight(t) == 1
    ensures Potential(b, t.key) < Potential(a, t.key)
  {
    hide TaskWeight, Total;
    TotalInsert(TaskWeights(a, t.key), a.taskSeq, 1);
    assert TaskWeights(b, t.key) == TaskWeights(a, t.key)[a.taskSeq := 1];
    TotalRemove(TimerWeights(a, t.key), id);
    assert TimerWeights(b, t.key) == TimerWeights(a, t.key) - {id};
  }

  lemma {:induction false} FireAllDrains(committed: Db, batch: seq<int>, key: RunKey)
    requires Shape(committed) && Owned(committed, batch) && Distinct(batch) && AllUnfired(committed, batch)
    ensures Drains(committed, FireTimers(committed, batch), key)
  {
    hide Shape, Evolves, Drains, FireTimer;
    if batch != [] {
      var init, last := batch[..|batch| - 1], batch[|batch| - 1];
      assert last !in init;
      FireAllDrains(committed, init, key);
      FireAllShape(committed, init);
      FiredRows(committed, init, last);
      FireDrains(FireTimers(committed, init), committed, last, key);
      DrainsTransitive(committed, FireTimers(committed, init), FireTimers(committed, batch), key);
    } else {
      NothingDrains(committed, key);
    }
  }

  lemma NothingDrains(db: Db, key: RunKey)
    ensures Drains(db, db, key)
  {
  }

  /* ---- answers to other runs ---- */

  lemma CommandElsewhere(p: Progress, now: int, k: RunKey, ex: Execution, cmd: Command, key: RunKey)
    requires Shape(p.db) && k in p.db.executions && k != key
    ensures Untouched(p.db, ApplyCommand(p, now, k, ex, cmd).db, key)
  {
    var e := CommandEvent(cmd, p.nextEventId);
    var q := ApplyCommand(p, now, k, ex, cmd);
    var db := AppendEvent(p.db, k, e);
    AppendUntouched(p.db, k, e, key);
    assert e.kind != WorkflowStarted;
    hide Shape, Rows, CommandEvent, AppendEvent, Untouched;
    AppendShape(p.db, k, e);
    match cmd {
      case ScheduleActivity(_, _, _, _) => AddElsewhere(db, q.db.tasks[db.taskSeq], key);
      case StartTimer(_, _) => AddTimerElsewhere(db, q.db.timers[db.timerSeq], key);
      case CompleteWorkflow(_) => StatusUntouched(db, k, Completed, now, key);
      case FailWorkflow(_) => StatusUntouched(db, k, Failed, now, key);
    }
    UntouchedTransitive(p.db, db, q.db, key);
  }

  lemma AddTimerElsewhere(db: Db, t: Timer, key: RunKey)
    requires Shape(db) && t.key != key
    ensures Untouched(db, AddTimer(db, t), key)
  {
    assert forall id :: id in db.timers ==> TimerOk(db, id);
    hide Shape;
  }

  lemma StatusUntouched(db: Db, k: RunKey, status: Status, now: int, key: RunKey)
    ensures Untouched(db, SetStatus(db, k, status, now), key)
  {
  }

  lemma {:induction false} CommandsElsewhere(p: Progress, now: int, k: RunKey, ex: Execution, cmds: seq<Command>,
                                             key: RunKey)
    requires Shape(p.db) && k in p.db.executions && SameRun(p.db.executions[k], ex) && k != key
    ensures Untouched(p.db, ApplyCommands(p, now, k, ex, cmds).db, key)
  {
    hide Shape, Evolves, Untouched, ApplyCommand;
    if cmds != [] {
      var init := cmds[..|cmds| - 1];
      CommandsElsewhere(p, now, k, ex, init, key);
      CommandsShape(p, now, k, ex, init);
      CommandElsewhere(ApplyCommands(p, now, k, ex, init), now, k, ex, cmds[|cmds| - 1], key);
      UntouchedTransitive(p.db, ApplyCommands(p, now, k, ex, init).db, ApplyCommands(p, now, k, ex, cmds).db, key);
    } else {
      NothingTouched(p.db, key);
    }
  }

  lemma NothingTouched(db: Db, key: RunKey)
    ensures Untouched(db, db, key)
  {
  }

  lemma RespondDrains(db: Db, m: Metrics, now: int, id: int, k: RunKey, cmds: seq<Command>, key: RunKey)
    requires Shape(db) && (k == key ==> StatusIn(db, key) != Some(Running))
    ensures Drains(db, CompleteWorkflowTask(db, m, now, id, k, cmds).db, key)
  {
    hide Shape, Untouched, Potential, ApplyCommands;
    NothingTouched(db, key);
    DeleteDrains(db, id, key);
    if k in db.executions && db.executions[k].status == Running {
      var q := ApplyCommands(Begin(db, k), now, k, db.executions[k], cmds).db;
      CommandsElsewhere(Begin(db, k), now, k, db.executions[k], cmds, key);
      DeleteDrains(q, id, key);
      DrainsTransitive(db, q, DeleteTask(q, id), key);
    }
  }

  /* ---- reports ---- */

  lemma AppendUntouched(db: Db, k: RunKey, e: Event, key: RunKey)
    ensures Untouched(db, AppendEvent(db, k, e), key)
    ensures AppendEvent(db, k, e).tasks == db.tasks
  {
  }

  lemma FinishDrains(db: Db, ex: Execution, k: RunKey, id: int, e: Event, key: RunKey)
    requires Shape(db) && k in db.executions && id in db.tasks && e.kind != WorkflowStarted
    requires db.tasks[id].kind == ActivityTask && db.tasks[id].key == k
    ensures Drains(db, FinishActivity(db, ex, k, id, e), key)
  {
    var db1 := AppendEvent(db, k, e);
    hide Shape, Potential, Untouched, Rows;
    AppendUntouched(db, k, e, key);
    AppendShape(db, k, e);
    ReplaceDrains(db1, id, WakeTask(ex, k, e.eventId), key);
    DrainsTransitive(db, db1, FinishActivity(db, ex, k, id, e), key);
  }

  lemma CompleteDrains(db: Db, m: Metrics, id: int, k: RunKey, result: Bytes, key: RunKey)
    requires Shape(db) && (id in db.tasks ==> db.tasks[id].kind == ActivityTask && db.tasks[id].key == k)
    ensures Drains(db, CompleteActivityTask(db, m, id, k, result).db, key)
  {
    hide Shape, Drains, FinishActivity;
    NothingDrains(db, key);
    if id in db.tasks && k in db.executions {
      FinishDrains(db, db.executions[k], k, id,
                   ActivityEvent(ActivityCompleted, db.tasks[id], |Rows(db, k)| + 1, result), key);
    }
  }

  lemma FailDrains(db: Db, m: Metrics, now: int, id: int, k: RunKey, message: Bytes, jitter: real, key: RunKey)
    requires Shape(db) && (id in db.tasks ==> db.tasks[id].kind == ActivityTask && db.tasks[id].key == k)
    ensures Drains(db, FailActivityTask(db, m, now, id, k, message, jitter).db, key)
  {
    NothingDrains(db, key);
    if id in db.tasks {
      var t := db.tasks[id];
      if t.attempt < t.maxAttempts {
        hide Shape, Drains, RetryDelay, AddTask, DeleteTask;
        ReplaceDrains(db, id, RetryTask(t, now, jitter), key);
      } else if k in db.executions {
        hide Shape, Drains, FinishActivity;
        FinishDrains(db, db.executions[k], k, id, ActivityEvent(ActivityFailed, t, |Rows(db, k)| + 1, message), key);
      }
    }
  }

  lemma StartUntouched(db: Db, m: Metrics, now: int, k: RunKey, latest: Option<RunKey>, workflowType: string,
                       queue: string, input: Bytes, key: RunKey)
    requires Shape(db) && k != key
    ensures Untouched(db, StartWorkflow(db, m, now, k, latest, workflowType, queue, input).db, key)
  {
    assert forall id :: id in db.tasks ==> TaskOk(db, id);
    hide Shape, Rows;
  }

  lemma SignalUntouched(db: Db, m: Metrics, now: int, k: RunKey, name: string, data: Bytes, key: RunKey)
    requires Shape(db) && (k == key ==> StatusIn(db, key) != Some(Running))
    ensures Untouched(db, SignalWorkflow(db, m, now, k, name, data).db, key)
  {
    assert forall id :: id in db.tasks ==> TaskOk(db, id);
    hide Shape, Rows, AnyWorkflowTask;
  }

  lemma LeasesUntouched(db: Db, id: int, owner: string, now: int, key: RunKey)
    ensures id in db.tasks ==> Untouched(db, LeaseTask(db, id, owner, now), key)
    ensures Untouched(db, ReclaimExpired(db, now), key)
  {
  }

  /* ---- one step ---- */

  predicate Closed(db: Db, key: RunKey) {
    key in db.executions && db.executions[key].status != Running
  }

  /** Every step leaves the rows of a closed run alone, or strictly lowers its potential. */
  lemma StepDrains(code: Code, s: State, step: Step, key: RunKey)
    requires Base(s) && Enabled(code, s, step) && Closed(s.db, key)
    ensures Drains(s.db, Apply(code, s, step).db, key)
  {
    hide Base, Shape, Untouched, Potential, GrantOk, StartWorkflow, CompleteWorkflowTask, CompleteActivityTask,
      FailActivityTask, SignalWorkflow, FireTimers, LeaseTask, ReclaimExpired, ResponseCommands, CanRespond, LatestIs,
      NextTask, OrderedBy;
    BaseShape(s);
    NothingTouched(s.db, key);
    match step {
      case Start(k, latest, workflowType, queue, input) =>
        StartUntouched(s.db, s.metrics, s.clock, k, latest, workflowType, queue, input, key);
      case PollWorkflow(queue, owner, id) =>
        NextTaskExists(s.db, queue, WorkflowTask, s.clock, id);
        LeasesUntouched(s.db, id, owner, s.clock, key);
      case PollActivity(queue, owner, id) =>
        NextTaskExists(s.db, queue, ActivityTask, s.clock, id);
        LeasesUntouched(s.db, id, owner, s.clock, key);
      case Respond(g, calls) =>
        var v := s.grants[g];
        RespondDrains(s.db, s.metrics, s.clock, v.taskId, v.key, ResponseCommands(code, v, calls), key);
      case CompleteActivity(g, result) =>
        GrantedActivity(s, g);
        CompleteDrains(s.db, s.metrics, s.grants[g].taskId, s.grants[g].key, result, key);
      case FailActivity(g, message, jitter) =>
        GrantedActivity(s, g);
        FailDrains(s.db, s.metrics, s.clock, s.grants[g].taskId, s.grants[g].key, message, jitter, key);
      case Scan(batch) =>
        if Owned(s.db, batch) {
          FireAllDrains(s.db, batch, key);
        }
      case Signal(k, name, data) =>
        SignalUntouched(s.db, s.metrics, s.clock, k, name, data, key);
      case Reclaim =>
        LeasesUntouched(s.db, 0, "", s.clock, key);
      case _ =>
    }
  }

  /* ---- over whole runs ---- */

  /** How many of the steps from i to j touch the run's tasks or timers. */
  ghost function Touches(states: seq<State>, i: nat, j: nat, key: RunKey): nat
    requires i <= j < |states|
  {
    if i == j then 0
    else Touches(states, i, j - 1, key) + if Untouched(states[j - 1].db, states[j].db, key) then 0 else 1
  }

  /** However a system runs on after a run has closed, its tasks and timers change at most as often as its potential
      was large when it closed. */
  lemma {:induction false} ClosedRunsDrain(code: Code, states: seq<State>, steps: seq<Step>, i: nat, j: nat,
                                           key: RunKey)
    requires Behavior(code, states, steps) && i <= j < |states| && Closed(states[i].db, key)
    ensures Touches(states, i, j, key) + Potential(states[j].db, key) <= Potential(states[i].db, key)
  {
    hide Potential, Untouched, Enabled, Apply;
    if i < j {
      ClosedRunsDrain(code, states, steps, i, j - 1, key);
      StatusIsFinal(code, states, steps, i, j - 1, key);
      BaseAlways(code, states, steps, j - 1);
      assert Enabled(code, states[j - 1], steps[j - 1]);
      StepDrains(code, states[j - 1], steps[j - 1], key);
      if Untouched(states[j - 1].db, states[j].db, key) {
        UntouchedPotential(states[j - 1].db, states[j].db, key);
      }
    }
  }
}
