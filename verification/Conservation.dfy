/** Nothing scheduled is lost or done twice: activities and timers are conserved. */
module Conservation {
  import opened Types
  import opened Counting
  import opened HistoryFacts
  import opened Interpreter
  import opened Tables
  import opened Handlers
  import opened Structure
  import opened Engine
  import opened Steps
  import opened Effects
  import opened RowCounts

  function LiveActivity(key: RunKey, f: Future): Task -> bool {
    (t: Task) => t.kind == ActivityTask && t.key == key && t.activityName == f.name && t.activityIndex == f.index
  }

  function EventOf(kind: EventType, f: Future): Event -> bool {
    (e: Event) => e.kind == kind && e.activityName == f.name && e.activityIndex == f.index
  }

  function Unfired(key: RunKey, index: int): Timer -> bool {
    (t: Timer) => !t.fired && t.key == key && t.timerIndex == index
  }

  function TimerEvent(kind: EventType, index: int): Event -> bool {
    (e: Event) => e.kind == kind && e.timerIndex == index
  }

  /** Every scheduling of an activity is a live task, or has completed, or has failed. */
  ghost predicate ActivityBalance(db: Db, key: RunKey, f: Future) {
    Tally(Rows(db, key), EventOf(ActivityScheduled, f)) ==
      TaskCount(db, LiveActivity(key, f))
      + Tally(Rows(db, key), EventOf(ActivityCompleted, f)) + Tally(Rows(db, key), EventOf(ActivityFailed, f))
  }

  /** Every start of a timer is an unfired row or has fired. */
  ghost predicate TimerBalance(db: Db, key: RunKey, index: int) {
    Tally(Rows(db, key), TimerEvent(TimerStarted, index)) ==
      TimerCount(db, Unfired(key, index)) + Tally(Rows(db, key), TimerEvent(TimerFired, index))
  }

  ghost predicate Balanced(db: Db, key: RunKey, f: Future, index: int) {
    ActivityBalance(db, key, f) && TimerBalance(db, key, index)
  }

  /** What one event adds to the books of a run: scheduled less ended, started less fired. */
  function OpenActivities(e: Event, f: Future): int {
    One(EventOf(ActivityScheduled, f)(e)) - One(EventOf(ActivityCompleted, f)(e)) - One(EventOf(ActivityFailed, f)(e))
  }

  function OpenTimers(e: Event, index: int): int {
    One(TimerEvent(TimerStarted, index)(e)) - One(TimerEvent(TimerFired, index)(e))
  }

  /** The books balance again when the rows change by what the event adds. */
  lemma Rebalance(a: Db, b: Db, key: RunKey, f: Future, index: int, e: Event)
    requires Balanced(a, key, f, index) && Rows(b, key) == Rows(a, key) + [e]
    requires TaskCount(b, LiveActivity(key, f)) == TaskCount(a, LiveActivity(key, f)) + OpenActivities(e, f)
    requires TimerCount(b, Unfired(key, index)) == TimerCount(a, Unfired(key, index)) + OpenTimers(e, index)
    ensures Balanced(b, key, f, index)
  {
    hide TaskCount, TimerCount, Rows, Tally;
    TallyAppend(Rows(a, key), e, EventOf(ActivityScheduled, f));
    TallyAppend(Rows(a, key), e, EventOf(ActivityCompleted, f));
    TallyAppend(Rows(a, key), e, EventOf(ActivityFailed, f));
    TallyAppend(Rows(a, key), e, TimerEvent(TimerStarted, index));
    TallyAppend(Rows(a, key), e, TimerEvent(TimerFired, index));
  }

  lemma Unbothered(a: Db, b: Db, key: RunKey, f: Future, index: int)
    requires Balanced(a, key, f, index) && Rows(b, key) == Rows(a, key)
    requires TaskCount(b, LiveActivity(key, f)) == TaskCount(a, LiveActivity(key, f))
    requires TimerCount(b, Unfired(key, index)) == TimerCount(a, Unfired(key, index))
    ensures Balanced(b, key, f, index)
  {
  }

  lemma CommandBalance(p: Progress, now: int, k: RunKey, ex: Execution, cmd: Command, key: RunKey, f: Future, i: int)
    requires Shape(p.db) && k in p.db.executions && Balanced(p.db, key, f, i)
    ensures Balanced(ApplyCommand(p, now, k, ex, cmd).db, key, f, i)
  {
    var q := ApplyCommand(p, now, k, ex, cmd);
    hide Balanced, Shape, Rows, TaskCount, TimerCount, CommandEvent, ApplyCommand, LiveActivity, Unfired,
      OpenActivities, OpenTimers, NewActivityTask, NewTimer;
    CommandRows(p, now, k, ex, cmd);
    CommandCounts(p, now, k, ex, cmd, LiveActivity(key, f), Unfired(key, i));
    CommandEntries(p, now, k, ex, cmd, key, f, i);
    if key == k {
      Rebalance(p.db, q.db, key, f, i, CommandEvent(cmd, p.nextEventId));
    } else {
      Unbothered(p.db, q.db, key, f, i);
    }
  }

  /** The row a command inserts is what its event opens. */
  lemma CommandEntries(p: Progress, now: int, k: RunKey, ex: Execution, cmd: Command, key: RunKey, f: Future, i: int)
    ensures var tasks := if cmd.ScheduleActivity? then One(LiveActivity(key, f)(NewActivityTask(p, k, ex, cmd))) else 0;
      tasks == if key == k then OpenActivities(CommandEvent(cmd, p.nextEventId), f) else 0
    ensures var timers := if cmd.StartTimer? then One(Unfired(key, i)(NewTimer(k, now, cmd))) else 0;
      timers == if key == k then OpenTimers(CommandEvent(cmd, p.nextEventId), i) else 0
  {
    hide Rows;
  }

  lemma {:induction false} CommandsBalance(p: Progress, now: int, k: RunKey, ex: Execution, cmds: seq<Command>,
                                           key: RunKey, f: Future, i: int)
    requires Shape(p.db) && k in p.db.executions && SameRun(p.db.executions[k], ex) && Balanced(p.db, key, f, i)
    ensures Balanced(ApplyCommands(p, now, k, ex, cmds).db, key, f, i)
  {
    hide Shape, Evolves, Balanced, ApplyCommand;
    if cmds != [] {
      CommandsBalance(p, now, k, ex, cmds[..|cmds| - 1], key, f, i);
      CommandsShape(p, now, k, ex, cmds[..|cmds| - 1]);
      CommandBalance(ApplyCommands(p, now, k, ex, cmds[..|cmds| - 1]), now, k, ex, cmds[|cmds| - 1], key, f, i);
    }
  }

  lemma RespondBalance(db: Db, m: Metrics, now: int, id: int, k: RunKey, cmds: seq<Command>, key: RunKey, f: Future,
                       i: int)
    requires Shape(db) && Balanced(db, key, f, i)
    requires id < db.taskSeq && (id in db.tasks ==> db.tasks[id].kind == WorkflowTask)
    ensures Balanced(CompleteWorkflowTask(db, m, now, id, k, cmds).db, key, f, i)
  {
    hide Shape, Balanced, ApplyCommands, DeleteTask, Begin;
    if k in db.executions && db.executions[k].status == Running {
      AcceptedBalance(db, now, id, k, cmds, key, f, i);
    } else {
      DropBalance(db, id, key, f, i);
    }
  }

  lemma AcceptedBalance(db: Db, now: int, id: int, k: RunKey, cmds: seq<Command>, key: RunKey, f: Future, i: int)
    requires Shape(db) && Balanced(db, key, f, i) && k in db.executions
    requires id < db.taskSeq && (id in db.tasks ==> db.tasks[id].kind == WorkflowTask)
    ensures Balanced(DeleteTask(ApplyCommands(Begin(db, k), now, k, db.executions[k], cmds).db, id), key, f, i)
  {
    hide Shape, Balanced, ApplyCommands;
    var q := ApplyCommands(Begin(db, k), now, k, db.executions[k], cmds).db;
    CommandsBalance(Begin(db, k), now, k, db.executions[k], cmds, key, f, i);
    CommandsShape(Begin(db, k), now, k, db.executions[k], cmds);
    assert id in q.tasks ==> q.tasks[id].kind == WorkflowTask;
    hide Evolves, DeleteTask;
    DropBalance(q, id, key, f, i);
  }

  /** A workflow task goes without any entry in the books. */
  lemma DropBalance(db: Db, id: int, key: RunKey, f: Future, i: int)
    requires Balanced(db, key, f, i) && (id in db.tasks ==> db.tasks[id].kind == WorkflowTask)
    ensures Balanced(DeleteTask(db, id), key, f, i)
  {
    hide Balanced, TaskCount, TimerCount;
    DeleteTaskCount(db, id, LiveActivity(key, f));
    SameTimers(DeleteTask(db, id), db, Unfired(key, i));
    SameRows(DeleteTask(db, id), db, key);
    Unbothered(db, DeleteTask(db, id), key, f, i);
  }

  lemma SameRows(a: Db, b: Db, key: RunKey)
    requires a.events == b.events
    ensures Rows(a, key) == Rows(b, key)
  {
  }

  lemma FinishBalance(db: Db, ex: Execution, k: RunKey, id: int, e: Event, key: RunKey, f: Future, i: int)
    requires Shape(db) && Balanced(db, key, f, i) && k in db.executions && id in db.tasks
    requires db.tasks[id].kind == ActivityTask && db.tasks[id].key == k
    requires e.kind == ActivityCompleted || e.kind == ActivityFailed
    requires e.activityName == db.tasks[id].activityName && e.activityIndex == db.tasks[id].activityIndex
    ensures Balanced(FinishActivity(db, ex, k, id, e), key, f, i)
  {
    var b := FinishActivity(db, ex, k, id, e);
    assert One(LiveActivity(key, f)(WakeTask(ex, k, e.eventId))) == 0;
    assert key == k ==> OpenActivities(e, f) == 0 - One(LiveActivity(key, f)(db.tasks[id])) && OpenTimers(e, i) == 0;
    assert key != k ==> One(LiveActivity(key, f)(db.tasks[id])) == 0;
    assert Rows(b, key) == if key == k then Rows(db, key) + [e] else Rows(db, key);
    hide Shape, Balanced, Rows, TaskCount, TimerCount, LiveActivity, Unfired, OpenActivities, OpenTimers;
    FinishCounts(db, ex, k, id, e, LiveActivity(key, f), Unfired(key, i));
    hide FinishActivity, WakeTask;
    if key == k {
      Rebalance(db, b, key, f, i, e);
    } else {
      Unbothered(db, b, key, f, i);
    }
  }

  lemma RetryBalance(db: Db, id: int, now: int, jitter: real, key: RunKey, f: Future, i: int)
    requires Shape(db) && Balanced(db, key, f, i) && id in db.tasks && db.tasks[id].kind == ActivityTask
    ensures Balanced(AddTask(DeleteTask(db, id), RetryTask(db.tasks[id], now, jitter)), key, f, i)
  {
    var b := AddTask(DeleteTask(db, id), RetryTask(db.tasks[id], now, jitter));
    assert LiveActivity(key, f)(RetryTask(db.tasks[id], now, jitter)) == LiveActivity(key, f)(db.tasks[id]);
    hide Shape, Balanced, LiveActivity, RetryTask;
    RetryCounts(db, id, now, jitter, LiveActivity(key, f));
    SameTimers(b, db, Unfired(key, i));
    SameRows(b, db, key);
    Unbothered(db, b, key, f, i);
  }

  lemma FireBalance(db: Db, committed: Db, id: int, key: RunKey, f: Future, i: int)
    requires Shape(db) && Evolves(committed, db) && Balanced(db, key, f, i)
    requires id in committed.timers && committed.timers[id].key in committed.executions
    requires id in db.timers && db.timers[id] == committed.timers[id] && !db.timers[id].fired
    ensures Balanced(FireTimer(db, committed, id), key, f, i)
  {
    var b, t := FireTimer(db, committed, id), committed.timers[id];
    hide Shape, Evolves, Balanced, Rows, TaskCount, TimerCount, FireTimer, LiveActivity, Unfired, FiredEvent,
      FiringTask, OpenActivities, OpenTimers;
    FireRows(db, committed, id);
    FireTaskCount(db, committed, id, LiveActivity(key, f));
    FireTimerCount(db, committed, id, Unfired(key, i));
    FiringEntries(committed, id, key, f, i);
    if key == t.key {
      Rebalance(db, b, key, f, i, FiredEvent(committed, t.key, t));
    } else {
      Unbothered(db, b, key, f, i);
    }
  }

  /** The row a firing marks is what its event closes. */
  lemma FiringEntries(committed: Db, id: int, key: RunKey, f: Future, i: int)
    requires id in committed.timers && committed.timers[id].key in committed.executions && !committed.timers[id].fired
    ensures One(LiveActivity(key, f)(FiringTask(committed, id))) == 0
    ensures var t := committed.timers[id];
      && One(Unfired(key, i)(t.(fired := true))) == 0
      && if key == t.key
         then OpenTimers(FiredEvent(committed, t.key, t), i) == 0 - One(Unfired(key, i)(t))
              && OpenActivities(FiredEvent(committed, t.key, t), f) == 0
         else One(Unfired(key, i)(t)) == 0
  {
    hide Rows;
  }

  /** A batch of rows that are all due and all different. */
  ghost predicate Distinct(batch: seq<int>) {
    forall i, j :: 0 <= i < j < |batch| ==> batch[i] != batch[j]
  }

  ghost predicate AllUnfired(db: Db, batch: seq<int>) {
    forall i :: 0 <= i < |batch| ==> batch[i] in db.timers && !db.timers[batch[i]].fired
  }

  lemma {:induction false} FireAllBalance(committed: Db, batch: seq<int>, key: RunKey, f: Future, i: int)
    requires Shape(committed) && Owned(committed, batch) && Distinct(batch) && AllUnfired(committed, batch)
    requires Balanced(committed, key, f, i)
    ensures Balanced(FireTimers(committed, batch), key, f, i)
  {
    hide Shape, Evolves, Balanced, FireTimer;
    if batch != [] {
      var init, last := batch[..|batch| - 1], batch[|batch| - 1];
      assert last !in init;
      FireAllBalance(committed, init, key, f, i);
      FireAllShape(committed, init);
      FiredRows(committed, init, last);
      FireBalance(FireTimers(committed, init), committed, last, key, f, i);
    }
  }

  lemma LiveActivityIsLeaseBlind(key: RunKey, f: Future)
    ensures LeaseBlind(LiveActivity(key, f))
  {
  }

  lemma StepBalance(code: Code, s: State, step: Step, key: RunKey, f: Future, i: int)
    requires Base(s) && Enabled(code, s, step) && Balanced(s.db, key, f, i)
    ensures Balanced(Apply(code, s, step).db, key, f, i)
  {
    LiveActivityIsLeaseBlind(key, f);
    hide LeaseBlind, Base, GrantOk, Shape, Balanced, LiveActivity, Unfired, CompleteWorkflowTask, FireTimers,
      ResponseCommands, CanRespond, LatestIs, NextTask, OrderedBy, FinishActivity, RetryTask, TaskCount, TimerCount,
      Rows, Longer, NewChains, StartWorkflow, SignalWorkflow, LeaseTask, ReclaimExpired;
    assert Shape(s.db) by { BaseShape(s); }
    match step {
      case Start(k, latest, workflowType, queue, input) =>
        StartBalance(s.db, s.metrics, s.clock, k, latest, workflowType, queue, input, key, f, i);
      case PollWorkflow(queue, owner, id) =>
        NextTaskExists(s.db, queue, WorkflowTask, s.clock, id);
        LeaseBalance(s.db, id, owner, s.clock, key, f, i);
      case PollActivity(queue, owner, id) =>
        NextTaskExists(s.db, queue, ActivityTask, s.clock, id);
        LeaseBalance(s.db, id, owner, s.clock, key, f, i);
      case Respond(g, calls) =>
        GrantedWorkflow(code, s, step);
        var v := s.grants[g];
        RespondBalance(s.db, s.metrics, s.clock, v.taskId, v.key, ResponseCommands(code, v, calls), key, f, i);
      case CompleteActivity(g, result) =>
        GrantedActivity(s, g);
        var a := s.grants[g];
        if a.taskId in s.db.tasks {
          FinishBalance(s.db, s.db.executions[a.key], a.key, a.taskId,
                        ActivityEvent(ActivityCompleted, s.db.tasks[a.taskId], |Rows(s.db, a.key)| + 1, result),
                        key, f, i);
        }
      case FailActivity(g, message, jitter) =>
        GrantedActivity(s, g);
        var a := s.grants[g];
        if a.taskId in s.db.tasks {
          RetryBalance(s.db, a.taskId, s.clock, jitter, key, f, i);
          FinishBalance(s.db, s.db.executions[a.key], a.key, a.taskId,
                        ActivityEvent(ActivityFailed, s.db.tasks[a.taskId], |Rows(s.db, a.key)| + 1, message),
                        key, f, i);
        }
      case Scan(batch) =>
        if Owned(s.db, batch) {
          FireAllBalance(s.db, batch, key, f, i);
        }
      case Signal(k, name, data) =>
        SignalBalance(s.db, s.metrics, s.clock, k, name, data, key, f, i);
      case Reclaim =>
        ReclaimBalance(s.db, s.clock, key, f, i);
      case _ =>
    }
  }

  lemma GrantedWorkflow(code: Code, s: State, step: Step)
    requires Base(s) && Enabled(code, s, step) && step.Respond?
    ensures var g := s.grants[step.grant];
      g.taskId < s.db.taskSeq && (g.taskId in s.db.tasks ==> s.db.tasks[g.taskId].kind == WorkflowTask)
  {
    assert GrantOk(s.db, s.grants[step.grant]);
  }

  lemma LeaseBalance(db: Db, id: int, owner: string, now: int, key: RunKey, f: Future, i: int)
    requires Balanced(db, key, f, i) && id in db.tasks && LeaseBlind(LiveActivity(key, f))
    ensures Balanced(LeaseTask(db, id, owner, now), key, f, i)
  {
    LeaseCount(db, id, owner, now, LiveActivity(key, f));
  }

  lemma ReclaimBalance(db: Db, now: int, key: RunKey, f: Future, i: int)
    requires Balanced(db, key, f, i) && LeaseBlind(LiveActivity(key, f))
    ensures Balanced(ReclaimExpired(db, now), key, f, i)
  {
    ReclaimCount(db, now, LiveActivity(key, f));
  }

  lemma SignalTaskCount(db: Db, t: Task, g: Task -> bool)
    requires Shape(db) && !g(t)
    ensures TaskCount(AddWorkflowTaskIfNone(db, t), g) == TaskCount(db, g)
  {
    hide Shape, TaskCount, AnyWorkflowTask;
    AddTaskCount(db, t, g);
  }

  lemma SignalBalance(db: Db, m: Metrics, now: int, k: RunKey, name: string, data: Bytes, key: RunKey, f: Future,
                      i: int)
    requires Shape(db) && Balanced(db, key, f, i)
    ensures Balanced(SignalWorkflow(db, m, now, k, name, data).db, key, f, i)
  {
    var r := SignalWorkflow(db, m, now, k, name, data);
    if r.reply.Ok? {
      var e, t := SignalEvent(db, k, name, data), SignalTask(db, k, now);
      var db1 := AppendEvent(db, k, e);
      SignalEffect(db, m, now, k, name, data);
      assert !LiveActivity(key, f)(t) && OpenActivities(e, f) == 0 && OpenTimers(e, i) == 0;
      hide AnyWorkflowTask, Balanced, TaskCount, TimerCount, Shape, SignalWorkflow, AddWorkflowTaskIfNone, SignalTask,
        SignalEvent, LiveActivity, OpenActivities, OpenTimers, Unfired;
      AppendShape(db, k, e);
      AppendRows(db, k, e);
      SignalTaskCount(db1, t, LiveActivity(key, f));
      hide Rows, AppendEvent;
      SameTasks(db1, db, LiveActivity(key, f));
      SameTimers(r.db, db, Unfired(key, i));
      SameRows(r.db, db1, key);
      if key == k {
        Rebalance(db, r.db, key, f, i, e);
      } else {
        Unbothered(db, r.db, key, f, i);
      }
    }
  }

  lemma StartBalance(db: Db, m: Metrics, now: int, k: RunKey, latest: Option<RunKey>, workflowType: string,
                     queue: string,
                     input: Bytes, key: RunKey, f: Future, i: int)
    requires Shape(db) && Balanced(db, key, f, i) && k !in db.executions && k !in db.events
    ensures Balanced(StartWorkflow(db, m, now, k, latest, workflowType, queue, input).db, key, f, i)
  {
    var r := StartWorkflow(db, m, now, k, latest, workflowType, queue, input);
    if r.reply.Ok? {
      var ex := Execution(workflowType, queue, Running, now, None);
      var e := BlankEvent(1, WorkflowStarted).(data := input);
      var db2 := AppendEvent(AddExecution(db, k, ex), k, e);
      var t := WakeTask(ex, k, 1).(input := input);
      assert r.db == AddTask(db2, t) && Rows(r.db, key) == if key == k then Rows(db, key) + [e] else Rows(db, key);
      OpenRunShape(db, k, ex, e);
      hide Shape, Rows, Balanced, StartWorkflow, AddExecution;
      AddTaskCount(db2, t, LiveActivity(key, f));
      assert db2.tasks == db.tasks && db2.timers == db.timers by { NewRunKeepsRows(db, k, ex, e); }
      SameTasks(db2, db, LiveActivity(key, f));
      SameTimers(r.db, db, Unfired(key, i));
      hide AddTask, AppendEvent, TaskCount, TimerCount;
      if key == k {
        Rebalance(db, r.db, key, f, i, e);
      } else {
        Unbothered(db, r.db, key, f, i);
      }
    }
  }

  lemma NewRunKeepsRows(db: Db, k: RunKey, ex: Execution, e: Event)
    ensures var b := AppendEvent(AddExecution(db, k, ex), k, e); b.tasks == db.tasks && b.timers == db.timers
  {
  }

  /** In every reachable state, for every run and every activity and timer of it. */
  lemma {:induction false} Conserved(code: Code, states: seq<State>, steps: seq<Step>, n: nat, key: RunKey, f: Future,
                                     i: int)
    requires Behavior(code, states, steps) && n < |states|
    ensures ActivityBalance(states[n].db, key, f)
    ensures TimerBalance(states[n].db, key, i)
  {
    if n == 0 {
      hide Enabled, Apply;
    } else {
      hide ActivityBalance, TimerBalance, Enabled, Apply;
      Conserved(code, states, steps, n - 1, key, f, i);
      BaseAlways(code, states, steps, n - 1);
      assert Enabled(code, states[n - 1], steps[n - 1]);
      StepBalance(code, states[n - 1], steps[n - 1], key, f, i);
    }
  }

  /** Once a task is consumed, every later report for it is refused as not found and changes nothing. */
  lemma ConsumedOnce(code: Code, states: seq<State>, steps: seq<Step>, i: nat, j: nat, id: int)
    requires Behavior(code, states, steps) && i <= j < |steps|
    requires id < states[i].db.taskSeq && id !in states[i].db.tasks
    requires (steps[j].CompleteActivity? || steps[j].FailActivity?) && states[j].grants[steps[j].grant].taskId == id
    ensures states[j + 1].db == states[j].db && states[j + 1].metrics == states[j].metrics
    ensures var s, key := states[j], states[j].grants[steps[j].grant].key;
      var h := match steps[j]
        case CompleteActivity(_, result) => CompleteActivityTask(s.db, s.metrics, id, key, result)
        case FailActivity(_, message, jitter) => FailActivityTask(s.db, s.metrics, s.clock, id, key, message, jitter);
      h == Handled(s.db, s.metrics, Err(NotFound))
  {
    EvolvesAlways(code, states, steps, i, j);
    assert id !in states[j].db.tasks;
    hide Evolves;
    assert Enabled(code, states[j], steps[j]);
  }
}
