/** The metrics agree with the tables. */
module Counters {
  import opened Types
  import opened Counting
  import opened Interpreter
  import opened Tables
  import opened Handlers
  import opened Structure
  import opened Engine
  import opened Steps
  import opened Effects
  import opened Terminal
  import opened RowCounts
  import opened Conservation

  function IsOpen(): Execution -> bool { (ex: Execution) => ex.status == Running }

  function IsActivity(): Task -> bool { (t: Task) => t.kind == ActivityTask }

  function IsUnfired(): Timer -> bool { (t: Timer) => !t.fired }

  ghost function OpenRuns(db: Db): nat { |Matching(db.executions, IsOpen())| }

  /** What was started and has not ended is what the tables hold. */
  ghost predicate Books(db: Db, m: Metrics) {
    && m.workflowsStarted - m.workflowsCompleted - m.workflowsFailed == OpenRuns(db)
    && m.activitiesScheduled - m.activitiesCompleted - m.activitiesFailed == TaskCount(db, IsActivity())
    && m.timersStarted - m.timersFired == TimerCount(db, IsUnfired())
  }

  /** The counters once those of a half-done answer are added. */
  function Adding(m: Metrics, p: Progress): Metrics {
    m.(activitiesScheduled := m.activitiesScheduled + p.scheduled,
       timersStarted := m.timersStarted + p.timersStarted,
       workflowsCompleted := m.workflowsCompleted + p.completed,
       workflowsFailed := m.workflowsFailed + p.failed)
  }

  lemma SameRuns(a: Db, b: Db)
    requires b.executions == a.executions
    ensures OpenRuns(b) == OpenRuns(a)
  {
  }

  lemma CloseRun(db: Db, key: RunKey, status: Status, now: int)
    requires key in db.executions && db.executions[key].status == Running && status != Running
    ensures OpenRuns(SetStatus(db, key, status, now)) == OpenRuns(db) - 1
  {
    MatchingUpdate(db.executions, key, SetStatus(db, key, status, now).executions[key], IsOpen());
  }

  lemma CommandOpenRuns(p: Progress, now: int, key: RunKey, ex: Execution, cmd: Command)
    requires key in p.db.executions && p.db.executions[key].status == Running
    ensures OpenRuns(ApplyCommand(p, now, key, ex, cmd).db) == OpenRuns(p.db) - One(IsEnding(cmd))
  {
    var db := AppendEvent(p.db, key, CommandEvent(cmd, p.nextEventId));
    assert db.executions == p.db.executions;
    hide OpenRuns, AppendEvent, CommandEvent;
    SameRuns(p.db, db);
    match cmd {
      case CompleteWorkflow(_) => hide SetStatus; CloseRun(db, key, Completed, now);
      case FailWorkflow(_) => hide SetStatus; CloseRun(db, key, Failed, now);
      case _ => SameRuns(db, ApplyCommand(p, now, key, ex, cmd).db);
    }
  }

  lemma CommandBooks(p: Progress, m: Metrics, now: int, key: RunKey, ex: Execution, cmd: Command)
    requires Shape(p.db) && key in p.db.executions && p.db.executions[key].status == Running
    requires Books(p.db, Adding(m, p))
    ensures Books(ApplyCommand(p, now, key, ex, cmd).db, Adding(m, ApplyCommand(p, now, key, ex, cmd)))
  {
    CommandOpenRuns(p, now, key, ex, cmd);
    CommandCounts(p, now, key, ex, cmd, IsActivity(), IsUnfired());
    hide Shape, OpenRuns, TaskCount, TimerCount, Rows, CommandEvent, SetStatus;
  }

  lemma {:induction false} CommandsBooks(p: Progress, m: Metrics, now: int, key: RunKey, ex: Execution,
                                         cmds: seq<Command>)
    requires Shape(p.db) && key in p.db.executions && SameRun(p.db.executions[key], ex)
    requires p.db.executions[key].status == Running && Honest(cmds) && Books(p.db, Adding(m, p))
    ensures Books(ApplyCommands(p, now, key, ex, cmds).db, Adding(m, ApplyCommands(p, now, key, ex, cmds)))
  {
    hide ApplyCommand, Shape, Evolves, Books, Adding;
    if cmds != [] {
      var init := cmds[..|cmds| - 1];
      assert init != [] ==> !IsEnding(init[|init| - 1]);
      CommandsBooks(p, m, now, key, ex, init);
      CommandsShape(p, now, key, ex, init);
      CommandsStatus(p, now, key, ex, init);
      CommandBooks(ApplyCommands(p, now, key, ex, init), m, now, key, ex, cmds[|cmds| - 1]);
    }
  }

  lemma RespondBooks(db: Db, m: Metrics, now: int, id: int, key: RunKey, cmds: seq<Command>)
    requires Shape(db) && Books(db, m) && Honest(cmds) && (id in db.tasks ==> db.tasks[id].kind == WorkflowTask)
    requires id < db.taskSeq
    ensures var r := CompleteWorkflowTask(db, m, now, id, key, cmds); Books(r.db, r.metrics)
  {
    hide Shape, Books, ApplyCommands, Begin, DeleteTask, Honest;
    if key in db.executions && db.executions[key].status == Running {
      AnswerBooks(db, m, now, id, key, cmds);
    } else {
      DropBooks(db, m, id);
    }
  }

  lemma AnswerBooks(db: Db, m: Metrics, now: int, id: int, key: RunKey, cmds: seq<Command>)
    requires Shape(db) && Books(db, m) && Honest(cmds) && (id in db.tasks ==> db.tasks[id].kind == WorkflowTask)
    requires id < db.taskSeq && key in db.executions && db.executions[key].status == Running
    ensures var p := ApplyCommands(Begin(db, key), now, key, db.executions[key], cmds);
      Books(DeleteTask(p.db, id), Adding(m, p))
  {
    var p := ApplyCommands(Begin(db, key), now, key, db.executions[key], cmds);
    assert Adding(m, Begin(db, key)) == m;
    hide ApplyCommands, Shape, Honest, Books, Adding;
    CommandsShape(Begin(db, key), now, key, db.executions[key], cmds);
    CommandsBooks(Begin(db, key), m, now, key, db.executions[key], cmds);
    assert id in p.db.tasks ==> p.db.tasks[id].kind == WorkflowTask;
    hide Evolves;
    DropBooks(p.db, Adding(m, p), id);
  }

  /** A workflow task goes without any entry in the books. */
  lemma DropBooks(db: Db, m: Metrics, id: int)
    requires Books(db, m) && (id in db.tasks ==> db.tasks[id].kind == WorkflowTask)
    ensures Books(DeleteTask(db, id), m)
  {
    DeleteTaskCount(db, id, IsActivity());
    SameRuns(db, DeleteTask(db, id));
    SameTimers(DeleteTask(db, id), db, IsUnfired());
  }

  lemma FinishBooks(db: Db, m: Metrics, m': Metrics, key: RunKey, id: int, e: Event)
    requires Shape(db) && Books(db, m) && key in db.executions && id in db.tasks && db.tasks[id].kind == ActivityTask
    requires e.kind != WorkflowStarted
    requires
      || m' == m.(activitiesCompleted := m.activitiesCompleted + 1)
      || m' == m.(activitiesFailed := m.activitiesFailed + 1)
    ensures Books(FinishActivity(db, db.executions[key], key, id, e), m')
  {
    var b := FinishActivity(db, db.executions[key], key, id, e);
    assert b.executions == db.executions && b.timers == db.timers;
    hide Shape, OpenRuns, TaskCount, TimerCount, Rows, FinishActivity;
    FinishCounts(db, db.executions[key], key, id, e, IsActivity(), IsUnfired());
    SameRuns(db, b);
  }

  lemma RetryBooks(db: Db, m: Metrics, id: int, now: int, jitter: real)
    requires Shape(db) && Books(db, m) && id in db.tasks && db.tasks[id].kind == ActivityTask
    ensures Books(AddTask(DeleteTask(db, id), RetryTask(db.tasks[id], now, jitter)),
                  m.(activityRetries := m.activityRetries + 1))
  {
    var b := AddTask(DeleteTask(db, id), RetryTask(db.tasks[id], now, jitter));
    assert IsActivity()(RetryTask(db.tasks[id], now, jitter));
    hide Shape, OpenRuns, TaskCount, TimerCount, RetryTask;
    RetryCounts(db, id, now, jitter, IsActivity());
    SameRuns(db, b);
    SameTimers(b, db, IsUnfired());
  }

  lemma CompleteBooks(db: Db, m: Metrics, id: int, key: RunKey, result: Bytes)
    requires Shape(db) && Books(db, m) && (id in db.tasks ==> db.tasks[id].kind == ActivityTask)
    ensures var r := CompleteActivityTask(db, m, id, key, result); Books(r.db, r.metrics)
  {
    hide Shape, Books, FinishActivity;
    if id in db.tasks && key in db.executions {
      FinishBooks(db, m, m.(activitiesCompleted := m.activitiesCompleted + 1), key, id,
                  ActivityEvent(ActivityCompleted, db.tasks[id], |Rows(db, key)| + 1, result));
    }
  }

  lemma FailBooks(db: Db, m: Metrics, now: int, id: int, key: RunKey, message: Bytes, jitter: real)
    requires Shape(db) && Books(db, m) && (id in db.tasks ==> db.tasks[id].kind == ActivityTask)
    ensures var r := FailActivityTask(db, m, now, id, key, message, jitter); Books(r.db, r.metrics)
  {
    hide Shape, Books, FinishActivity, RetryTask, AddTask, DeleteTask;
    if id in db.tasks {
      RetryBooks(db, m, id, now, jitter);
      if key in db.executions {
        FinishBooks(db, m, m.(activitiesFailed := m.activitiesFailed + 1), key, id,
                    ActivityEvent(ActivityFailed, db.tasks[id], |Rows(db, key)| + 1, message));
      }
    }
  }

  lemma FireBooks(db: Db, m: Metrics, committed: Db, id: int)
    requires Shape(db) && Evolves(committed, db) && Books(db, m)
    requires id in committed.timers && committed.timers[id].key in committed.executions
    requires id in db.timers && !db.timers[id].fired
    ensures Books(FireTimer(db, committed, id), m.(timersFired := m.timersFired + 1))
  {
    var b := FireTimer(db, committed, id);
    FireRows(db, committed, id);
    assert !IsActivity()(FiringTask(committed, id));
    hide Shape, Evolves, OpenRuns, TaskCount, TimerCount, Rows, FireTimer, FiringTask;
    FireTaskCount(db, committed, id, IsActivity());
    FireTimerCount(db, committed, id, IsUnfired());
    SameRuns(db, b);
  }

  lemma {:induction false} FireAllBooks(committed: Db, m: Metrics, batch: seq<int>)
    requires Shape(committed) && Owned(committed, batch) && Distinct(batch) && AllUnfired(committed, batch)
    requires Books(committed, m)
    ensures Books(FireTimers(committed, batch), m.(timersFired := m.timersFired + |batch|))
  {
    hide Shape, Evolves, Books, FireTimer;
    if batch != [] {
      var init, last := batch[..|batch| - 1], batch[|batch| - 1];
      assert last !in init;
      FireAllBooks(committed, m, init);
      FireAllShape(committed, init);
      FiredRows(committed, init, last);
      FireBooks(FireTimers(committed, init), m.(timersFired := m.timersFired + |init|), committed, last);
    } else {
      assert m.(timersFired := m.timersFired + |batch|) == m;
    }
  }

  lemma ScanBooks(db: Db, m: Metrics, now: int, batch: seq<int>)
    requires Shape(db) && DueBatch(db, now, batch) && Books(db, m)
    ensures var r := ScanTimers(db, m, batch); Books(r.db, r.metrics)
  {
    hide Shape, Books, FireTimers;
    if Owned(db, batch) {
      FireAllBooks(db, m, batch);
    }
  }

  lemma StartBooks(db: Db, m: Metrics, now: int, key: RunKey, latest: Option<RunKey>, workflowType: string,
                   queue: string,
                   input: Bytes)
    requires Shape(db) && Books(db, m) && key !in db.executions
    ensures var r := StartWorkflow(db, m, now, key, latest, workflowType, queue, input); Books(r.db, r.metrics)
  {
    var r := StartWorkflow(db, m, now, key, latest, workflowType, queue, input);
    if r.reply.Ok? {
      var ex := Execution(workflowType, queue, Running, now, None);
      var e := BlankEvent(1, WorkflowStarted).(data := input);
      var db2 := AppendEvent(AddExecution(db, key, ex), key, e);
      var t := WakeTask(ex, key, 1).(input := input);
      assert r.db == AddTask(db2, t) && r.metrics == m.(workflowsStarted := m.workflowsStarted + 1);
      assert db2.tasks == db.tasks && db2.timers == db.timers && db2.executions == db.executions[key := ex];
      OpenRunShape(db, key, ex, e);
      hide Shape, Rows, StartWorkflow, AddExecution, AppendEvent, TaskCount, TimerCount;
      MatchingInsert(db.executions, key, ex, IsOpen());
      AddTaskCount(db2, t, IsActivity());
      SameTasks(db2, db, IsActivity());
      SameTimers(r.db, db, IsUnfired());
    }
  }

  lemma SignalBooks(db: Db, m: Metrics, now: int, key: RunKey, name: string, data: Bytes)
    requires Shape(db) && Books(db, m)
    ensures var r := SignalWorkflow(db, m, now, key, name, data); Books(r.db, r.metrics)
  {
    var r := SignalWorkflow(db, m, now, key, name, data);
    if r.reply.Ok? {
      var e, t := SignalEvent(db, key, name, data), SignalTask(db, key, now);
      var db1 := AppendEvent(db, key, e);
      SignalEffect(db, m, now, key, name, data);
      assert !IsActivity()(t);
      hide Rows, SignalWorkflow, AddWorkflowTaskIfNone, AppendEvent, TaskCount, TimerCount, OpenRuns, Shape, SignalTask,
        SignalEvent, AnyWorkflowTask;
      AppendShape(db, key, e);
      SignalTaskCount(db1, t, IsActivity());
      SameTasks(db1, db, IsActivity());
      SameTimers(r.db, db, IsUnfired());
      SameRuns(db, r.db);
    }
  }

  lemma LeaseBooks(db: Db, m: Metrics, id: int, owner: string, now: int)
    requires Books(db, m)
    ensures id in db.tasks ==> Books(LeaseTask(db, id, owner, now), m)
    ensures Books(ReclaimExpired(db, now), m)
  {
    assert LeaseBlind(IsActivity());
    hide TaskCount, TimerCount, OpenRuns, LeaseBlind;
    ReclaimCount(db, now, IsActivity());
    SameRuns(db, ReclaimExpired(db, now));
    SameTimers(ReclaimExpired(db, now), db, IsUnfired());
    if id in db.tasks {
      LeaseCount(db, id, owner, now, IsActivity());
      SameRuns(db, LeaseTask(db, id, owner, now));
      SameTimers(LeaseTask(db, id, owner, now), db, IsUnfired());
    }
  }

  lemma StepBooks(code: Code, s: State, step: Step)
    requires Base(s) && Enabled(code, s, step) && Books(s.db, s.metrics)
    ensures Books(Apply(code, s, step).db, Apply(code, s, step).metrics)
  {
    hide *;
    if step.Respond? || step.CompleteActivity? || step.FailActivity? {
      WorkerBooks(code, s, step);
    } else {
      EngineBooks(code, s, step);
    }
  }

  lemma WorkerBooks(code: Code, s: State, step: Step)
    requires Base(s) && Enabled(code, s, step) && Books(s.db, s.metrics)
    requires step.Respond? || step.CompleteActivity? || step.FailActivity?
    ensures Books(Apply(code, s, step).db, Apply(code, s, step).metrics)
  {
    BaseShape(s);
    var g := s.grants[step.grant];
    if step.Respond? {
      GrantedWorkflow(code, s, step);
      ResponseIsHonest(code, g, step.calls);
      hide Base, Shape, Books, Honest, CompleteWorkflowTask, ResponseCommands, CanRespond, Longer, NewChains;
      RespondBooks(s.db, s.metrics, s.clock, g.taskId, g.key, ResponseCommands(code, g, step.calls));
    } else {
      GrantedActivity(s, step.grant);
      hide Base, Shape, Books, CompleteActivityTask, FailActivityTask;
      if step.CompleteActivity? {
        CompleteBooks(s.db, s.metrics, g.taskId, g.key, step.result);
      } else {
        FailBooks(s.db, s.metrics, s.clock, g.taskId, g.key, step.message, step.jitter);
      }
    }
  }

  lemma EngineBooks(code: Code, s: State, step: Step)
    requires Base(s) && Enabled(code, s, step) && Books(s.db, s.metrics)
    requires !step.Respond? && !step.CompleteActivity? && !step.FailActivity?
    ensures Books(Apply(code, s, step).db, Apply(code, s, step).metrics)
  {
    BaseShape(s);
    hide Base, Shape, Books, ScanTimers, LatestIs, NextTask, OrderedBy, DueBatch, StartWorkflow, SignalWorkflow,
      LeaseTask, ReclaimExpired;
    match step {
      case Start(k, latest, workflowType, queue, input) =>
        StartBooks(s.db, s.metrics, s.clock, k, latest, workflowType, queue, input);
      case PollWorkflow(queue, owner, id) =>
        NextTaskExists(s.db, queue, WorkflowTask, s.clock, id);
        LeaseBooks(s.db, s.metrics, id, owner, s.clock);
      case PollActivity(queue, owner, id) =>
        NextTaskExists(s.db, queue, ActivityTask, s.clock, id);
        LeaseBooks(s.db, s.metrics, id, owner, s.clock);
      case Scan(batch) =>
        ScanBooks(s.db, s.metrics, s.clock, batch);
      case Signal(k, name, data) =>
        SignalBooks(s.db, s.metrics, s.clock, k, name, data);
      case Reclaim =>
        LeaseBooks(s.db, s.metrics, 0, "", s.clock);
      case _ =>
    }
  }

  lemma NothingYet(clock: int)
    ensures Books(Initial(clock).db, Initial(clock).metrics)
  {
  }

  /** After every step: started less terminated is the number of open runs, scheduled less finished the number of live
      activity tasks, timers started less fired the number of unfired rows. */
  lemma {:induction false} CountersBalance(code: Code, states: seq<State>, steps: seq<Step>, n: nat)
    requires Behavior(code, states, steps) && n < |states|
    ensures Books(states[n].db, states[n].metrics)
  {
    hide Books, Enabled, Apply;
    if n == 0 {
      NothingYet(states[0].clock);
    } else {
      CountersBalance(code, states, steps, n - 1);
      BaseAlways(code, states, steps, n - 1);
      assert Enabled(code, states[n - 1], steps[n - 1]);
      StepBooks(code, states[n - 1], steps[n - 1]);
    }
  }
}
