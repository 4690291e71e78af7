/** What an accepted answer leaves in the tables, command by command, and what every task row says of its run. */
module TaskRows {
  import opened Types
  import opened HistoryFacts
  import opened Interpreter
  import opened Tables
  import opened Handlers
  import opened Structure
  import opened Backoff
  import opened Engine
  import opened Steps
  import opened Effects
  import opened RequestLaws
  import opened RetryChain
  import opened Records

  /* ---- an answer, command by command ---- */

  /** The first attempt at the activity that the command schedules. */
  predicate FirstTask(t: Task, key: RunKey, ex: Execution, eventId: int, cmd: Command) {
    && cmd.ScheduleActivity?
    && t.kind == ActivityTask && t.key == key && t.workflowType == ex.workflowType && t.queue == cmd.queue
    && t.activityName == cmd.name && t.activityIndex == cmd.index && t.input == cmd.input
    && t.scheduledEventId == eventId
    && t.attempt == 1 && t.maxAttempts == 3 && t.visibleAt == GO_ZERO_TIME && Unleased(t)
  }

  predicate TimerOf(t: Timer, key: RunKey, now: int, cmd: Command) {
    cmd.StartTimer? && t == Timer(key, cmd.timerIndex, now + cmd.durationMs * 1_000_000, false)
  }

  predicate ClosedBy(ex: Execution, now: int, status: Status) { ex.status == status && ex.closedAt == Some(now) }

  /** Event number eventId says what the command asked for, and the row that makes it happen is new. */
  ghost predicate CarriedOut(a: Db, b: Db, now: int, key: RunKey, eventId: int, cmd: Command) {
    && key in b.executions && 1 <= eventId <= |Rows(b, key)|
    && var e := Rows(b, key)[eventId - 1];
    && e.eventId == eventId
    && match cmd
       case ScheduleActivity(_, name, index, input) =>
         && e.kind == ActivityScheduled && e.activityName == name && e.activityIndex == index && e.data == input
         && exists id ::
              id in b.tasks && id >= a.taskSeq && FirstTask(b.tasks[id], key, b.executions[key], eventId, cmd)
       case StartTimer(index, _) =>
         && e.kind == TimerStarted && e.timerIndex == index
         && exists id :: id in b.timers && id >= a.timerSeq && TimerOf(b.timers[id], key, now, cmd)
       case CompleteWorkflow(result) =>
         e.kind == WorkflowCompleted && e.data == result && ClosedBy(b.executions[key], now, Completed)
       case FailWorkflow(message) =>
         e.kind == WorkflowFailed && e.data == message && ClosedBy(b.executions[key], now, Failed)
  }

  lemma CommandCarriedOut(p: Progress, now: int, key: RunKey, ex: Execution, cmd: Command)
    requires key in p.db.executions && SameRun(p.db.executions[key], ex)
    requires p.nextEventId == |Rows(p.db, key)| + 1
    ensures CarriedOut(p.db, ApplyCommand(p, now, key, ex, cmd).db, now, key, p.nextEventId, cmd)
  {
    var q := ApplyCommand(p, now, key, ex, cmd);
    CommandRows(p, now, key, ex, cmd);
    hide Rows;
    match cmd {
      case ScheduleActivity(_, _, _, _) =>
        assert FirstTask(q.db.tasks[p.db.taskSeq], key, q.db.executions[key], p.nextEventId, cmd);
      case StartTimer(_, _) =>
        assert TimerOf(q.db.timers[p.db.timerSeq], key, now, cmd);
      case _ =>
    }
  }

  /** A command leaves the rows of those before it alone. */
  lemma CommandKeepsRows(p: Progress, now: int, key: RunKey, ex: Execution, cmd: Command)
    requires Shape(p.db) && key in p.db.executions
    ensures var q := ApplyCommand(p, now, key, ex, cmd);
      && (forall id :: id in p.db.tasks ==> id in q.db.tasks && q.db.tasks[id] == p.db.tasks[id])
      && (forall id :: id in p.db.timers ==> id in q.db.timers && q.db.timers[id] == p.db.timers[id])
      && key in q.db.executions && q.db.executions[key].workflowType == p.db.executions[key].workflowType
  {
    SeqIsFresh(p.db);
    assert forall id :: id in p.db.timers ==> TimerOk(p.db, id);
    hide Shape, Rows, CommandEvent;
  }

  lemma CarriedOutStill(a: Db, p: Progress, now: int, key: RunKey, ex: Execution, eventId: int, cmd: Command,
                        next: Command)
    requires Shape(p.db) && !IsEnding(cmd) && CarriedOut(a, p.db, now, key, eventId, cmd)
    ensures CarriedOut(a, ApplyCommand(p, now, key, ex, next).db, now, key, eventId, cmd)
  {
    var q := ApplyCommand(p, now, key, ex, next);
    CommandKeepsRows(p, now, key, ex, next);
    CommandRows(p, now, key, ex, next);
    hide Rows, Shape, ApplyCommand;
    if cmd.ScheduleActivity? {
      var id :| id in p.db.tasks && id >= a.taskSeq
                && FirstTask(p.db.tasks[id], key, p.db.executions[key], eventId, cmd);
      assert FirstTask(q.db.tasks[id], key, q.db.executions[key], eventId, cmd);
    }
  }

  lemma CarriedOutSince(a: Db, p: Db, b: Db, now: int, key: RunKey, eventId: int, cmd: Command)
    requires CarriedOut(p, b, now, key, eventId, cmd) && a.taskSeq <= p.taskSeq && a.timerSeq <= p.timerSeq
    ensures CarriedOut(a, b, now, key, eventId, cmd)
  {
    hide Rows;
    if cmd.ScheduleActivity? {
      var id :| id in b.tasks && id >= p.taskSeq && FirstTask(b.tasks[id], key, b.executions[key], eventId, cmd);
      assert id >= a.taskSeq;
    }
  }

  lemma {:induction false} CommandsCarriedOut(p: Progress, now: int, key: RunKey, ex: Execution, cmds: seq<Command>,
                                              i: nat)
    requires Shape(p.db) && key in p.db.executions && SameRun(p.db.executions[key], ex) && Honest(cmds) && i < |cmds|
    requires p.nextEventId == |Rows(p.db, key)| + 1
    ensures CarriedOut(p.db, ApplyCommands(p, now, key, ex, cmds).db, now, key, p.nextEventId + i, cmds[i])
  {
    hide ApplyCommand, Shape, Rows, SameRun, CarriedOut, IsEnding;
    var init, last := cmds[..|cmds| - 1], cmds[|cmds| - 1];
    var q := ApplyCommands(p, now, key, ex, init);
    assert ApplyCommands(p, now, key, ex, cmds) == ApplyCommand(q, now, key, ex, last);
    assert forall k :: 0 <= k < |init| ==> !IsEnding(init[k]);
    CommandsReach(p, now, key, ex, init);
    hide ApplyCommands;
    if i < |init| {
      CommandsCarriedOut(p, now, key, ex, init, i);
      CarriedOutStill(p.db, q, now, key, ex, p.nextEventId + i, cmds[i], last);
    } else {
      CommandCarriedOut(q, now, key, ex, last);
      CarriedOutSince(p.db, q.db, ApplyCommands(p, now, key, ex, cmds).db, now, key, p.nextEventId + i, last);
    }
  }

  lemma CommandsReach(p: Progress, now: int, key: RunKey, ex: Execution, cmds: seq<Command>)
    requires Shape(p.db) && key in p.db.executions && SameRun(p.db.executions[key], ex)
    requires forall k :: 0 <= k < |cmds| ==> !IsEnding(cmds[k])
    requires p.nextEventId == |Rows(p.db, key)| + 1
    ensures var q := ApplyCommands(p, now, key, ex, cmds);
      && Shape(q.db) && key in q.db.executions && SameRun(q.db.executions[key], ex)
      && q.nextEventId == p.nextEventId + |cmds| == |Rows(q.db, key)| + 1
      && p.db.taskSeq <= q.db.taskSeq && p.db.timerSeq <= q.db.timerSeq
  {
    hide ApplyCommands, Shape, Rows, IsEnding, SameRun;
    CommandsShape(p, now, key, ex, cmds);
    CommandsRows(p, now, key, ex, cmds);
    hide CommandEvent;
  }

  /** Every new row was asked for. */
  lemma {:induction false} CommandsAddOnly(p: Progress, now: int, key: RunKey, ex: Execution, cmds: seq<Command>)
    requires Shape(p.db) && key in p.db.executions && SameRun(p.db.executions[key], ex) && Honest(cmds)
    requires p.nextEventId == |Rows(p.db, key)| + 1
    ensures var b := ApplyCommands(p, now, key, ex, cmds).db;
      && (forall id :: id in p.db.tasks ==> id in b.tasks && b.tasks[id] == p.db.tasks[id])
      && (forall id :: id in p.db.timers ==> id in b.timers && b.timers[id] == p.db.timers[id])
      && (forall id :: id in b.tasks && id !in p.db.tasks ==>
            exists i :: 0 <= i < |cmds| && FirstTask(b.tasks[id], key, ex, p.nextEventId + i, cmds[i]))
      && (forall id :: id in b.timers && id !in p.db.timers ==>
            exists i :: 0 <= i < |cmds| && TimerOf(b.timers[id], key, now, cmds[i]))
  {
    if cmds != [] {
      var init, last := cmds[..|cmds| - 1], cmds[|cmds| - 1];
      var q := ApplyCommands(p, now, key, ex, init);
      assert forall k :: 0 <= k < |init| ==> !IsEnding(init[k]);
      hide ApplyCommand, Shape, IsEnding, CommandEvent, Rows;
      CommandsShape(p, now, key, ex, init);
      CommandsRows(p, now, key, ex, init);
      CommandsAddOnly(p, now, key, ex, init);
      CommandKeepsRows(q, now, key, ex, last);
      CommandAddsOne(q, now, key, ex, last);
      AskedForToo(p, q.db, ApplyCommands(p, now, key, ex, cmds).db, now, key, ex, cmds);
    }
  }

  lemma CommandAddsOne(p: Progress, now: int, key: RunKey, ex: Execution, cmd: Command)
    ensures var b := ApplyCommand(p, now, key, ex, cmd).db;
      && (forall id :: id in b.tasks && id !in p.db.tasks ==> FirstTask(b.tasks[id], key, ex, p.nextEventId, cmd))
      && (forall id :: id in b.timers && id !in p.db.timers ==> TimerOf(b.timers[id], key, now, cmd))
  {
    hide Rows, CommandEvent;
  }

  lemma AskedForToo(p: Progress, b: Db, c: Db, now: int, key: RunKey, ex: Execution, cmds: seq<Command>)
    requires cmds != []
    requires var n := |cmds| - 1;
      && (forall id :: id in b.tasks ==> id in c.tasks && c.tasks[id] == b.tasks[id])
      && (forall id :: id in b.timers ==> id in c.timers && c.timers[id] == b.timers[id])
      && (forall id :: id in b.tasks && id !in p.db.tasks ==>
            exists i :: 0 <= i < n && FirstTask(b.tasks[id], key, ex, p.nextEventId + i, cmds[..n][i]))
      && (forall id :: id in b.timers && id !in p.db.timers ==>
            exists i :: 0 <= i < n && TimerOf(b.timers[id], key, now, cmds[..n][i]))
      && (forall id :: id in c.tasks && id !in b.tasks ==>
            FirstTask(c.tasks[id], key, ex, p.nextEventId + n, cmds[n]))
      && (forall id :: id in c.timers && id !in b.timers ==> TimerOf(c.timers[id], key, now, cmds[n]))
    ensures forall id :: id in c.tasks && id !in p.db.tasks ==>
      exists i :: 0 <= i < |cmds| && FirstTask(c.tasks[id], key, ex, p.nextEventId + i, cmds[i])
    ensures forall id :: id in c.timers && id !in p.db.timers ==>
      exists i :: 0 <= i < |cmds| && TimerOf(c.timers[id], key, now, cmds[i])
  {
    hide FirstTask, TimerOf;
  }

  /** An accepted answer records every command under the next event id in its order, schedules every activity on the
      queue and with the input that the command names, starts every timer for the time it names, closes the run if it
      says so, consumes its own task, and adds no other row. */
  lemma AnswerRecords(db: Db, m: Metrics, now: int, taskId: int, key: RunKey, cmds: seq<Command>)
    requires Shape(db) && Honest(cmds) && key in db.executions && db.executions[key].status == Running
    requires taskId < db.taskSeq
    ensures var b := CompleteWorkflowTask(db, m, now, taskId, key, cmds).db;
      && CompleteWorkflowTask(db, m, now, taskId, key, cmds).reply == Ok(())
      && |Rows(b, key)| == |Rows(db, key)| + |cmds| && Rows(b, key)[..|Rows(db, key)|] == Rows(db, key)
      && (forall i :: 0 <= i < |cmds| ==> CarriedOut(db, b, now, key, |Rows(db, key)| + 1 + i, cmds[i]))
      && taskId !in b.tasks
      && (forall id :: id in db.tasks && id != taskId ==> id in b.tasks && b.tasks[id] == db.tasks[id])
      && (forall id :: id in b.tasks && id !in db.tasks ==> exists i ::
            0 <= i < |cmds| && FirstTask(b.tasks[id], key, db.executions[key], |Rows(db, key)| + 1 + i, cmds[i]))
      && (forall id :: id in db.timers ==> id in b.timers && b.timers[id] == db.timers[id])
      && (forall id :: id in b.timers && id !in db.timers ==>
            exists i :: 0 <= i < |cmds| && TimerOf(b.timers[id], key, now, cmds[i]))
  {
    var p, ex := Begin(db, key), db.executions[key];
    var q := ApplyCommands(p, now, key, ex, cmds).db;
    var b := CompleteWorkflowTask(db, m, now, taskId, key, cmds).db;
    assert b == DeleteTask(q, taskId);
    hide CompleteWorkflowTask, ApplyCommands, Shape, Honest, CommandEvent;
    CommandsRows(p, now, key, ex, cmds);
    CommandsAddOnly(p, now, key, ex, cmds);
    assert Rows(b, key) == Rows(q, key);
    hide Rows, FirstTask, TimerOf;
    assert |Rows(q, key)| == |Rows(db, key)| + |cmds|;
    forall i | 0 <= i < |cmds| ensures CarriedOut(db, b, now, key, |Rows(db, key)| + 1 + i, cmds[i]) {
      CommandsCarriedOut(p, now, key, ex, cmds, i);
      CarriedOutDespite(db, q, now, key, |Rows(db, key)| + 1 + i, cmds[i], taskId);
    }
  }

  lemma CarriedOutDespite(a: Db, b: Db, now: int, key: RunKey, eventId: int, cmd: Command, taskId: int)
    requires CarriedOut(a, b, now, key, eventId, cmd) && taskId < a.taskSeq
    ensures CarriedOut(a, DeleteTask(b, taskId), now, key, eventId, cmd)
  {
    assert Rows(DeleteTask(b, taskId), key) == Rows(b, key);
    hide Rows, FirstTask;
    if cmd.ScheduleActivity? {
      var id :| id in b.tasks && id >= a.taskSeq && FirstTask(b.tasks[id], key, b.executions[key], eventId, cmd);
      assert id in DeleteTask(b, taskId).tasks;
    }
  }

  /* ---- every task row ---- */

  /** The row waits on the queue of its run, for workers that run the function of its run. */
  predicate OnItsQueue(db: Db, t: Task) {
    && t.key in db.executions
    && t.queue == db.executions[t.key].taskQueue && t.workflowType == db.executions[t.key].workflowType
  }

  /** Workflow tasks and first attempts are visible now; a second attempt is within a second, a third within two. A
      time that was never set lies in year 1. */
  predicate VisibleSoon(t: Task, now: int) {
    || t.visibleAt == -62_135_596_800_000_000_000
    || t.visibleAt <= now
    || (t.kind == ActivityTask && t.attempt == 2 && t.visibleAt <= now + 1_000_000_000)
    || (t.kind == ActivityTask && t.attempt == 3 && t.visibleAt <= now + 2_000_000_000)
  }

  ghost predicate Offered(s: State) {
    forall id :: id in s.db.tasks ==> OnItsQueue(s.db, s.db.tasks[id]) && VisibleSoon(s.db.tasks[id], s.clock)
  }

  lemma ActivityCommandIsCall(h: seq<Event>, t: Trace, queue: string, i: nat)
    requires i < |Commands(h, t, queue)| && Commands(h, t, queue)[i].ScheduleActivity?
    ensures var c := Commands(h, t, queue)[i];
      c.queue == queue && Activity(Future(c.name, c.index), c.input) in Requests(t)
  {
    var rs := Unrecorded(h, Requests(t));
    hide Unrecorded, Requests, Milliseconds;
    assert i < |rs|;
    UnrecordedMembers(h, Requests(t), rs[i]);
  }

  lemma ResponseCall(code: Code, g: Grant, calls: nat, i: nat)
    requires CanRespond(code, g, calls)
    requires i < |ResponseCommands(code, g, calls)| && ResponseCommands(code, g, calls)[i].ScheduleActivity?
    ensures var c := ResponseCommands(code, g, calls)[i];
      && c.queue == g.queue
      && Activity(Future(c.name, c.index), c.input)
           in Requests(Replay(FunctionFor(code, g.workflowType, g.view).value, g.view, calls))
  {
    hide Replay, Requests, Commands;
    ActivityCommandIsCall(g.view, Replay(FunctionFor(code, g.workflowType, g.view).value, g.view, calls), g.queue, i);
  }

  /** The step is an accepted answer whose replay calls ExecuteActivity for the activity, by that name and number and
      with that input. */
  ghost predicate AskedForBy(code: Code, s: State, step: Step, t: Task) {
    && AcceptedAnswer(s, step) && s.grants[step.grant].key == t.key
    && CanRespond(code, s.grants[step.grant], step.calls)
    && var g := s.grants[step.grant];
    && Activity(Future(t.activityName, t.activityIndex), t.input)
         in Requests(Replay(FunctionFor(code, g.workflowType, g.view).value, g.view, step.calls))
  }

  lemma NewTaskWasAskedFor(code: Code, s: State, step: Step, id: int)
    requires Base(s) && Enabled(code, s, step) && AcceptedAnswer(s, step)
    requires id in Apply(code, s, step).db.tasks && id !in s.db.tasks
    ensures var t := Apply(code, s, step).db.tasks[id];
      AskedForBy(code, s, step, t) && OnItsQueue(s.db, t) && t.visibleAt == GO_ZERO_TIME && t.attempt == 1
  {
    var g := s.grants[step.grant];
    var i := NewTaskHasCommand(code, s, step, id);
    GrantedQueue(s, g);
    hide Base, CanRespond, ResponseCommands, Apply, Rows, Replay, Requests;
    ResponseCall(code, g, step.calls, i);
  }

  lemma GrantedQueue(s: State, g: Grant)
    requires Base(s) && g in s.grants.Values && g.Viewed?
    ensures g.key in s.db.executions && g.queue == s.db.executions[g.key].taskQueue
  {
    var n :| n in s.grants && s.grants[n] == g;
    assert GrantOk(s.db, s.grants[n]);
  }

  lemma NewTaskHasCommand(code: Code, s: State, step: Step, id: int) returns (i: nat)
    requires Base(s) && Enabled(code, s, step) && AcceptedAnswer(s, step)
    requires id in Apply(code, s, step).db.tasks && id !in s.db.tasks
    ensures var g := s.grants[step.grant];
      && g.key in s.db.executions && i < |ResponseCommands(code, g, step.calls)|
      && FirstTask(Apply(code, s, step).db.tasks[id], g.key, s.db.executions[g.key], |Rows(s.db, g.key)| + 1 + i,
                   ResponseCommands(code, g, step.calls)[i])
  {
    var g := s.grants[step.grant];
    var cmds := ResponseCommands(code, g, step.calls);
    GrantIsOld(s.db, g);
    BaseShape(s);
    ResponseIsHonest(code, g, step.calls);
    assert Apply(code, s, step).db == CompleteWorkflowTask(s.db, s.metrics, s.clock, g.taskId, g.key, cmds).db;
    hide *;
    i := CommandOfNew(s.db, s.metrics, s.clock, g.taskId, g.key, cmds, id);
  }

  lemma CommandOfNew(db: Db, m: Metrics, now: int, taskId: int, key: RunKey, cmds: seq<Command>, id: int)
    returns (i: nat)
    requires Shape(db) && Honest(cmds) && key in db.executions && db.executions[key].status == Running
    requires taskId < db.taskSeq
    requires id in CompleteWorkflowTask(db, m, now, taskId, key, cmds).db.tasks && id !in db.tasks
    ensures i < |cmds|
    ensures FirstTask(CompleteWorkflowTask(db, m, now, taskId, key, cmds).db.tasks[id], key, db.executions[key],
                      |Rows(db, key)| + 1 + i, cmds[i])
  {
    AnswerRecords(db, m, now, taskId, key, cmds);
    hide *;
    var b := CompleteWorkflowTask(db, m, now, taskId, key, cmds).db;
    i :| 0 <= i < |cmds| && FirstTask(b.tasks[id], key, db.executions[key], |Rows(db, key)| + 1 + i, cmds[i]);
  }

  /** The workflow tasks that the engine inserts of its own accord are visible at once. */
  lemma NewTaskIsVisible(code: Code, s: State, step: Step, id: int)
    requires Base(s) && Enabled(code, s, step) && !Retries(s, step) && !AcceptedAnswer(s, step)
    requires id in Apply(code, s, step).db.tasks && id !in s.db.tasks
    ensures var t := Apply(code, s, step).db.tasks[id]; t.visibleAt == GO_ZERO_TIME || t.visibleAt == s.clock
  {
    hide Base, Rows, LatestIs, NextTask, OrderedBy, DueBatch, CanRespond, ResponseCommands, FireTimers, AnyWorkflowTask,
      RetryTask;
    match step {
      case Scan(batch) =>
        if Owned(s.db, batch) {
          FireAllAddsVisible(s.db, batch, id);
        }
      case PollWorkflow(queue, _, k) => NextTaskExists(s.db, queue, WorkflowTask, s.clock, k);
      case PollActivity(queue, _, k) => NextTaskExists(s.db, queue, ActivityTask, s.clock, k);
      case _ =>
    }
  }

  lemma {:induction false} FireAllAddsVisible(committed: Db, batch: seq<int>, id: int)
    requires Owned(committed, batch) && id in FireTimers(committed, batch).tasks && id !in committed.tasks
    ensures FireTimers(committed, batch).tasks[id].visibleAt == GO_ZERO_TIME
  {
    hide Rows, AppendEvent, MarkFired;
    if batch != [] {
      var init := batch[..|batch| - 1];
      FireAddsVisible(FireTimers(committed, init), committed, batch[|batch| - 1], id);
      if id in FireTimers(committed, init).tasks {
        FireAllAddsVisible(committed, init, id);
      }
    }
  }

  lemma FireAddsVisible(db: Db, committed: Db, n: int, id: int)
    requires n in committed.timers && committed.timers[n].key in committed.executions
    requires id in FireTimer(db, committed, n).tasks
    ensures var t := FireTimer(db, committed, n).tasks[id];
      t.visibleAt == GO_ZERO_TIME || (id in db.tasks && t == db.tasks[id])
  {
    hide Rows;
  }

  lemma NewTaskOffered(code: Code, s: State, step: Step, id: int)
    requires Base(s) && Enabled(code, s, step) && Offered(s)
    requires id in Apply(code, s, step).db.tasks && id !in s.db.tasks
    ensures var t := Apply(code, s, step).db.tasks[id];
      (OnItsQueue(s.db, t) || t.kind == WorkflowTask) && VisibleSoon(t, s.clock)
  {
    hide Base, Enabled, Apply, AskedForBy, AcceptedAnswer;
    if Retries(s, step) {
      RetryOffered(code, s, step, id);
    } else if AcceptedAnswer(s, step) {
      NewTaskWasAskedFor(code, s, step, id);
    } else {
      NoNewActivity(code, s, step, id);
      NewTaskIsVisible(code, s, step, id);
    }
  }

  lemma RetryOffered(code: Code, s: State, step: Step, id: int)
    requires Base(s) && Enabled(code, s, step) && Offered(s) && Retries(s, step)
    requires id in Apply(code, s, step).db.tasks && id !in s.db.tasks
    ensures OnItsQueue(s.db, Apply(code, s, step).db.tasks[id])
    ensures VisibleSoon(Apply(code, s, step).db.tasks[id], s.clock)
  {
    var reported := s.grants[step.grant].taskId;
    GrantedActivity(s, step.grant);
    assert TaskOk(s.db, reported);
    RetryStep(code, s, step);
    DefaultDelays(s.db.tasks[reported].attempt, step.jitter);
    hide Base, Enabled, Apply, RetryDelay;
  }

  lemma StillOffered(a: Db, b: Db, t: Task, u: Task, now: int, now': int)
    requires OnItsQueue(a, t) && VisibleSoon(t, now) && Evolves(a, b) && SameTask(t, u) && now <= now'
    ensures OnItsQueue(b, u) && VisibleSoon(u, now')
  {
    EvolvesRun(a, b, t.key);
  }

  lemma WorkflowTaskOnItsQueue(db: Db, id: int)
    requires Shape(db) && id in db.tasks && db.tasks[id].kind == WorkflowTask
    ensures OnItsQueue(db, db.tasks[id])
  {
    assert TaskOk(db, id);
  }

  lemma StepOffered(code: Code, s: State, step: Step)
    requires Base(s) && Enabled(code, s, step) && Offered(s)
    ensures Offered(Apply(code, s, step))
  {
    var s' := Apply(code, s, step);
    StepEvolves(code, s, step);
    ClockRuns(code, s, step);
    BaseShape(s);
    hide Base, Enabled, Apply, Shape, Evolves, OnItsQueue, VisibleSoon;
    forall id | id in s'.db.tasks
      ensures OnItsQueue(s'.db, s'.db.tasks[id]) && VisibleSoon(s'.db.tasks[id], s'.clock)
    {
      var t := s'.db.tasks[id];
      if id in s.db.tasks {
        OldTask(s.db, s'.db, id);
        StillOffered(s.db, s'.db, s.db.tasks[id], t, s.clock, s'.clock);
      } else {
        NewTaskOffered(code, s, step, id);
        VisibleLater(t, s.clock, s'.clock);
        if t.kind == WorkflowTask {
          WorkflowTaskOnItsQueue(s'.db, id);
        } else {
          StillOffered(s.db, s'.db, t, t, s.clock, s'.clock);
        }
      }
    }
  }

  lemma VisibleLater(t: Task, now: int, now': int)
    requires VisibleSoon(t, now) && now <= now'
    ensures VisibleSoon(t, now')
  {
  }

  /** In every reachable state every task, of whatever kind and attempt, waits on the queue its run was started on, and
      is or soon will be visible there. */
  lemma {:induction false} OfferedAlways(code: Code, states: seq<State>, steps: seq<Step>, n: nat)
    requires Behavior(code, states, steps) && n < |states|
    ensures Offered(states[n])
  {
    hide Enabled, Apply, Offered;
    if n == 0 {
      NothingToOffer(states[0].clock);
    } else {
      OfferedAlways(code, states, steps, n - 1);
      BaseAlways(code, states, steps, n - 1);
      assert Enabled(code, states[n - 1], steps[n - 1]);
      StepOffered(code, states[n - 1], steps[n - 1]);
    }
  }

  lemma NothingToOffer(clock: int)
    ensures Offered(Initial(clock))
  {
  }

  /** In every reachable state every activity task, whatever its attempt, goes back to a call of the run's workflow
      function: by that name and number, and with that very input. */
  lemma {:induction false} TasksWereAskedFor(code: Code, states: seq<State>, steps: seq<Step>, n: nat, id: int)
    requires Behavior(code, states, steps) && n < |states|
    requires id in states[n].db.tasks && states[n].db.tasks[id].kind == ActivityTask
    ensures exists j: nat :: j < n && AskedForBy(code, states[j], steps[j], states[n].db.tasks[id])
    decreases n, 1
  {
    hide Enabled, Apply, AskedForBy, Base;
    if n > 0 {
      var s, step := states[n - 1], steps[n - 1];
      assert Enabled(code, s, step) && states[n] == Apply(code, s, step);
      BaseAlways(code, states, steps, n - 1);
      if id in s.db.tasks {
        EvolvesAlways(code, states, steps, n - 1, n);
        BaseShape(s);
        OldTask(s.db, states[n].db, id);
        AskedForLike(code, states, steps, n, id, id);
      } else if Retries(s, step) {
        RetryRepeats(code, s, step, id);
        AskedForLike(code, states, steps, n, id, ReportedTask(s, step));
      } else if AcceptedAnswer(s, step) {
        NewTaskWasAskedFor(code, s, step, id);
      } else {
        NoNewActivity(code, s, step, id);
      }
    }
  }

  /** The two rows are for the same activity with the same input. */
  predicate SameWork(t: Task, u: Task) {
    t.key == u.key && t.activityName == u.activityName && t.activityIndex == u.activityIndex && t.input == u.input
  }

  lemma AskedForLike(code: Code, states: seq<State>, steps: seq<Step>, n: nat, id: int, before: int)
    requires Behavior(code, states, steps) && 0 < n < |states| && id in states[n].db.tasks
    requires before in states[n - 1].db.tasks && states[n - 1].db.tasks[before].kind == ActivityTask
    requires SameWork(states[n - 1].db.tasks[before], states[n].db.tasks[id])
    ensures exists j: nat :: j < n && AskedForBy(code, states[j], steps[j], states[n].db.tasks[id])
    decreases n, 0
  {
    TasksWereAskedFor(code, states, steps, n - 1, before);
    var j: nat :| j < n - 1 && AskedForBy(code, states[j], steps[j], states[n - 1].db.tasks[before]);
    hide Enabled, Apply, CanRespond, Replay, Requests, Behavior;
    assert AskedForBy(code, states[j], steps[j], states[n].db.tasks[id]);
  }

  lemma RetryRepeats(code: Code, s: State, step: Step, id: int)
    requires Base(s) && Enabled(code, s, step) && Retries(s, step)
    requires id in Apply(code, s, step).db.tasks && id !in s.db.tasks
    ensures var t := s.db.tasks[ReportedTask(s, step)];
      t.kind == ActivityTask && SameWork(t, Apply(code, s, step).db.tasks[id])
  {
    GrantedActivity(s, step.grant);
    RetryStep(code, s, step);
    hide Base, Enabled, Apply, RetryDelay;
  }
}
