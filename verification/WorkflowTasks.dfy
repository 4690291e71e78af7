/** Where workflow tasks come from and where they go. */
module WorkflowTasks {
  import opened Types
  import opened Interpreter
  import opened Tables
  import opened Handlers
  import opened Structure
  import opened Engine
  import opened Steps

  /** No task row but x goes away. */
  ghost predicate Keeps(a: Db, b: Db, x: Option<int>) {
    forall id :: id in a.tasks && x != Some(id) ==> id in b.tasks
  }

  lemma KeepsTransitive(a: Db, b: Db, c: Db, x: Option<int>)
    requires Keeps(a, b, x) && Keeps(b, c, x)
    ensures Keeps(a, c, x)
  {
  }

  lemma {:induction false} CommandsKeep(p: Progress, now: int, key: RunKey, ex: Execution, cmds: seq<Command>,
                                        x: Option<int>)
    ensures Keeps(p.db, ApplyCommands(p, now, key, ex, cmds).db, x)
  {
    if cmds != [] {
      var q := ApplyCommands(p, now, key, ex, cmds[..|cmds| - 1]);
      CommandsKeep(p, now, key, ex, cmds[..|cmds| - 1], x);
      CommandKeeps(q, now, key, ex, cmds[|cmds| - 1], x);
      hide Keeps, ApplyCommand;
      KeepsTransitive(p.db, q.db, ApplyCommands(p, now, key, ex, cmds).db, x);
    }
  }

  lemma CommandKeeps(p: Progress, now: int, key: RunKey, ex: Execution, cmd: Command, x: Option<int>)
    ensures Keeps(p.db, ApplyCommand(p, now, key, ex, cmd).db, x)
  {
    hide CommandEvent, Rows;
  }

  lemma RespondKeeps(db: Db, m: Metrics, now: int, taskId: int, key: RunKey, cmds: seq<Command>)
    ensures Keeps(db, CompleteWorkflowTask(db, m, now, taskId, key, cmds).db, Some(taskId))
  {
    hide ApplyCommands;
    if key in db.executions && db.executions[key].status == Running {
      CommandsKeep(Begin(db, key), now, key, db.executions[key], cmds, Some(taskId));
    }
  }

  lemma {:induction false} FireAllKeeps(committed: Db, batch: seq<int>, x: Option<int>)
    requires Owned(committed, batch)
    ensures Keeps(committed, FireTimers(committed, batch), x)
  {
    if batch != [] {
      var db := FireTimers(committed, batch[..|batch| - 1]);
      FireAllKeeps(committed, batch[..|batch| - 1], x);
      FireKeeps(db, committed, batch[|batch| - 1], x);
      hide Keeps, FireTimer;
      KeepsTransitive(committed, db, FireTimers(committed, batch), x);
    }
  }

  lemma FireKeeps(db: Db, committed: Db, id: int, x: Option<int>)
    requires id in committed.timers && committed.timers[id].key in committed.executions
    ensures Keeps(db, FireTimer(db, committed, id), x)
  {
    hide Rows;
  }

  /** The task a step consumes, if it consumes one. */
  function Consumes(s: State, step: Step): Option<int> {
    match step
    case Respond(g, _) => if g in s.grants then Some(s.grants[g].taskId) else None
    case CompleteActivity(g, _) => if g in s.grants then Some(s.grants[g].taskId) else None
    case FailActivity(g, _, _) => if g in s.grants then Some(s.grants[g].taskId) else None
    case _ => None
  }

  lemma StepKeeps(code: Code, s: State, step: Step)
    requires Enabled(code, s, step)
    ensures Keeps(s.db, Apply(code, s, step).db, Consumes(s, step))
  {
    hide CompleteWorkflowTask, FireTimers, ResponseCommands, CanRespond, LatestIs, OrderedBy, Longer, NewChains, Rows,
      AnyWorkflowTask, RetryTask, DueBatch;
    match step {
      case Respond(g, calls) =>
        var v := s.grants[g];
        RespondKeeps(s.db, s.metrics, s.clock, v.taskId, v.key, ResponseCommands(code, v, calls));
      case Scan(batch) =>
        if Owned(s.db, batch) {
          FireAllKeeps(s.db, batch, None);
        }
      case _ =>
    }
  }

  lemma TaskStays(a: Db, b: Db, id: int, key: RunKey, x: Option<int>)
    requires Shape(a) && Evolves(a, b) && Keeps(a, b, x) && x != Some(id)
    requires id in a.tasks && IsWorkflowTaskOf(a.tasks[id], key)
    ensures id in b.tasks && IsWorkflowTaskOf(b.tasks[id], key)
  {
    assert TaskOk(a, id);
  }

  /** A workflow task goes away only when it is answered. */
  lemma TaskSurvives(code: Code, s: State, step: Step, key: RunKey, id: int)
    requires Base(s) && Enabled(code, s, step)
    requires id in s.db.tasks && IsWorkflowTaskOf(s.db.tasks[id], key)
    requires step.Respond? ==> s.grants[step.grant].taskId != id
    ensures id in Apply(code, s, step).db.tasks && IsWorkflowTaskOf(Apply(code, s, step).db.tasks[id], key)
  {
    hide Base, Shape, Evolves, Keeps, Apply, CanRespond, LatestIs, NextTask, OrderedBy, DueBatch;
    StepKeeps(code, s, step);
    StepEvolves(code, s, step);
    if step.CompleteActivity? || step.FailActivity? {
      GrantedActivity(s, step.grant);
    }
    hide Enabled;
    BaseShape(s);
    TaskStays(s.db, Apply(code, s, step).db, id, key, Consumes(s, step));
  }

  /** One more timer fired keeps what the earlier ones woke. */
  lemma FireOneMore(db: Db, committed: Db, last: int, id: int, key: RunKey)
    requires Shape(db) && Evolves(committed, db)
    requires last in committed.timers && committed.timers[last].key in committed.executions
    requires id in db.tasks && IsWorkflowTaskOf(db.tasks[id], key)
    ensures id in FireTimer(db, committed, last).tasks
    ensures IsWorkflowTaskOf(FireTimer(db, committed, last).tasks[id], key)
  {
    hide Shape, Evolves, Keeps, FireTimer;
    FireShape(db, committed, last);
    FireKeeps(db, committed, last, None);
    TaskStays(db, FireTimer(db, committed, last), id, key, None);
  }

  lemma {:induction false} FireAllWakes(committed: Db, batch: seq<int>, i: nat) returns (id: int)
    requires Shape(committed) && Owned(committed, batch) && i < |batch|
    ensures committed.taskSeq <= id && id in FireTimers(committed, batch).tasks
    ensures IsWorkflowTaskOf(FireTimers(committed, batch).tasks[id], committed.timers[batch[i]].key)
  {
    hide Shape, Evolves, FireTimer, IsWorkflowTaskOf;
    var init, last := batch[..|batch| - 1], batch[|batch| - 1];
    var db := FireTimers(committed, init);
    FireAllShape(committed, init);
    if i < |init| {
      id := FireAllWakes(committed, init, i);
      FireOneMore(db, committed, last, id, committed.timers[batch[i]].key);
    } else {
      FireWakes(db, committed, last);
      EvolvesSeq(committed, db);
      id := db.taskSeq;
    }
  }

  lemma EvolvesSeq(a: Db, b: Db)
    requires Evolves(a, b)
    ensures a.taskSeq <= b.taskSeq
  {
  }

  lemma FireWakes(db: Db, committed: Db, id: int)
    requires id in committed.timers && committed.timers[id].key in committed.executions
    ensures var b, key := FireTimer(db, committed, id), committed.timers[id].key;
      db.taskSeq in b.tasks && IsWorkflowTaskOf(b.tasks[db.taskSeq], key)
  {
    hide Rows;
  }
}
