/** The metrics agree with the histories. */
module Ledger {
  import opened Types
  import opened Counting
  import opened Interpreter
  import opened Tables
  import opened Handlers
  import opened Backoff
  import opened Engine
  import opened Effects
  import opened RowCounts
  import opened RetryChain
  import opened Counters

  function OfKind(kind: EventType): Event -> bool { (e: Event) => e.kind == kind }

  /** How many events of the kind each run has. */
  ghost function Tallies(db: Db, kind: EventType): map<RunKey, nat> {
    map key | key in db.events :: Tally(db.events[key], OfKind(kind))
  }

  /** How many events of the kind all runs have together. */
  ghost function EventTotal(db: Db, kind: EventType): nat { Total(Tallies(db, kind)) }

  /** Every counter is the number of events that it stands for. */
  ghost predicate Counted(db: Db, m: Metrics) {
    && m.workflowsStarted == EventTotal(db, WorkflowStarted)
    && m.workflowsCompleted == EventTotal(db, WorkflowCompleted)
    && m.workflowsFailed == EventTotal(db, WorkflowFailed)
    && m.activitiesScheduled == EventTotal(db, ActivityScheduled)
    && m.activitiesCompleted == EventTotal(db, ActivityCompleted)
    && m.activitiesFailed == EventTotal(db, ActivityFailed)
    && m.timersStarted == EventTotal(db, TimerStarted)
    && m.timersFired == EventTotal(db, TimerFired)
    && m.signalsDelivered == EventTotal(db, SignalReceived)
  }

  /** The counters with one event more. */
  function Noted(m: Metrics, kind: EventType): Metrics {
    match kind
    case WorkflowStarted => m.(workflowsStarted := m.workflowsStarted + 1)
    case WorkflowCompleted => m.(workflowsCompleted := m.workflowsCompleted + 1)
    case WorkflowFailed => m.(workflowsFailed := m.workflowsFailed + 1)
    case ActivityScheduled => m.(activitiesScheduled := m.activitiesScheduled + 1)
    case ActivityCompleted => m.(activitiesCompleted := m.activitiesCompleted + 1)
    case ActivityFailed => m.(activitiesFailed := m.activitiesFailed + 1)
    case TimerStarted => m.(timersStarted := m.timersStarted + 1)
    case TimerFired => m.(timersFired := m.timersFired + 1)
    case SignalReceived => m.(signalsDelivered := m.signalsDelivered + 1)
  }

  lemma AppendTotal(db: Db, key: RunKey, e: Event, kind: EventType)
    ensures EventTotal(AppendEvent(db, key, e), kind) == EventTotal(db, kind) + One(e.kind == kind)
  {
    var w, n := Tallies(db, kind), Tally(Rows(db, key) + [e], OfKind(kind));
    TallyAppend(Rows(db, key), e, OfKind(kind));
    NothingToTally(kind);
    hide Tally, Total;
    assert Tallies(AppendEvent(db, key, e), kind) == w[key := n];
    TotalUpdate(w, key, n);
  }

  lemma TotalUpdate(w: map<RunKey, nat>, key: RunKey, n: nat)
    ensures Total(w[key := n]) == Total(w) + n - if key in w then w[key] else 0
  {
    hide Total;
    if key in w {
      TotalRemove(w, key);
      TotalInsert(w - {key}, key, n);
      assert w[key := n] == (w - {key})[key := n];
    } else {
      TotalInsert(w, key, n);
    }
  }

  lemma NothingToTally(kind: EventType)
    ensures Tally<Event>([], OfKind(kind)) == 0
  {
  }

  lemma AppendCounted(db: Db, m: Metrics, key: RunKey, e: Event)
    requires Counted(db, m)
    ensures Counted(AppendEvent(db, key, e), Noted(m, e.kind))
  {
    hide EventTotal, AppendEvent;
    var b := AppendEvent(db, key, e);
    forall kind ensures EventTotal(b, kind) == EventTotal(db, kind) + One(e.kind == kind) {
      AppendTotal(db, key, e, kind);
    }
  }

  /** Only the histories matter, and the counter of retries does not. */
  lemma SameCounted(a: Db, b: Db, m: Metrics, m': Metrics)
    requires Counted(a, m) && b.events == a.events && m' == m.(activityRetries := m'.activityRetries)
    ensures Counted(b, m')
  {
  }

  /** A step that writes one event and counts it. */
  lemma OneEventCounted(a: Db, b: Db, m: Metrics, key: RunKey, e: Event)
    requires Counted(a, m) && b.events == AppendEvent(a, key, e).events
    ensures Counted(b, Noted(m, e.kind))
  {
    hide Counted, AppendEvent;
    AppendCounted(a, m, key, e);
    SameCounted(AppendEvent(a, key, e), b, Noted(m, e.kind), Noted(m, e.kind));
  }

  lemma CommandCounted(p: Progress, m: Metrics, now: int, key: RunKey, ex: Execution, cmd: Command)
    requires Counted(p.db, Adding(m, p))
    ensures Counted(ApplyCommand(p, now, key, ex, cmd).db, Adding(m, ApplyCommand(p, now, key, ex, cmd)))
  {
    hide Counted, AppendEvent;
    OneEventCounted(p.db, ApplyCommand(p, now, key, ex, cmd).db, Adding(m, p), key, CommandEvent(cmd, p.nextEventId));
  }

  lemma {:induction false} CommandsCounted(p: Progress, m: Metrics, now: int, key: RunKey, ex: Execution,
                                           cmds: seq<Command>)
    requires Counted(p.db, Adding(m, p))
    ensures Counted(ApplyCommands(p, now, key, ex, cmds).db, Adding(m, ApplyCommands(p, now, key, ex, cmds)))
  {
    hide ApplyCommand, Counted, Adding;
    if cmds != [] {
      CommandsCounted(p, m, now, key, ex, cmds[..|cmds| - 1]);
      CommandCounted(ApplyCommands(p, now, key, ex, cmds[..|cmds| - 1]), m, now, key, ex, cmds[|cmds| - 1]);
    }
  }

  lemma RespondCounted(db: Db, m: Metrics, now: int, id: int, key: RunKey, cmds: seq<Command>)
    requires Counted(db, m)
    ensures var r := CompleteWorkflowTask(db, m, now, id, key, cmds); Counted(r.db, r.metrics)
  {
    var r := CompleteWorkflowTask(db, m, now, id, key, cmds);
    if key in db.executions && db.executions[key].status == Running {
      var p := Begin(db, key);
      assert Adding(m, p) == m;
      var q := ApplyCommands(p, now, key, db.executions[key], cmds);
      assert r.metrics == Adding(m, q);
      hide ApplyCommands, Counted, Adding;
      CommandsCounted(p, m, now, key, db.executions[key], cmds);
      SameCounted(q.db, r.db, r.metrics, r.metrics);
    } else {
      hide Counted;
      SameCounted(db, r.db, m, m);
    }
  }

  lemma FireCounted(db: Db, m: Metrics, committed: Db, id: int)
    requires Counted(db, m) && id in committed.timers && committed.timers[id].key in committed.executions
    ensures Counted(FireTimer(db, committed, id), m.(timersFired := m.timersFired + 1))
  {
    hide Counted, AppendEvent;
    var t := committed.timers[id];
    OneEventCounted(db, FireTimer(db, committed, id), m, t.key, FiredEvent(committed, t.key, t));
  }

  lemma {:induction false} FireAllCounted(committed: Db, m: Metrics, batch: seq<int>)
    requires Owned(committed, batch) && Counted(committed, m)
    ensures Counted(FireTimers(committed, batch), m.(timersFired := m.timersFired + |batch|))
  {
    hide Counted, FireTimer;
    if batch != [] {
      var init := batch[..|batch| - 1];
      FireAllCounted(committed, m, init);
      FireCounted(FireTimers(committed, init), m.(timersFired := m.timersFired + |init|), committed,
                  batch[|batch| - 1]);
    } else {
      assert m.(timersFired := m.timersFired + |batch|) == m;
    }
  }

  lemma StartCounted(db: Db, m: Metrics, now: int, key: RunKey, latest: Option<RunKey>, workflowType: string,
                     queue: string, input: Bytes)
    requires Counted(db, m)
    ensures var r := StartWorkflow(db, m, now, key, latest, workflowType, queue, input); Counted(r.db, r.metrics)
  {
    var r := StartWorkflow(db, m, now, key, latest, workflowType, queue, input);
    hide Counted;
    if r.reply.Ok? {
      OneEventCounted(db, r.db, m, key, BlankEvent(1, WorkflowStarted).(data := input));
    }
  }

  lemma SignalCounted(db: Db, m: Metrics, now: int, key: RunKey, name: string, data: Bytes)
    requires Counted(db, m)
    ensures var r := SignalWorkflow(db, m, now, key, name, data); Counted(r.db, r.metrics)
  {
    var r := SignalWorkflow(db, m, now, key, name, data);
    hide Counted, AnyWorkflowTask;
    if r.reply.Ok? {
      OneEventCounted(db, r.db, m, key, SignalEvent(db, key, name, data));
    }
  }

  lemma CompleteCounted(db: Db, m: Metrics, id: int, key: RunKey, result: Bytes)
    requires Counted(db, m)
    ensures var r := CompleteActivityTask(db, m, id, key, result); Counted(r.db, r.metrics)
  {
    var r := CompleteActivityTask(db, m, id, key, result);
    hide Counted;
    if r.reply.Ok? {
      OneEventCounted(db, r.db, m, key, ActivityEvent(ActivityCompleted, db.tasks[id], |Rows(db, key)| + 1, result));
    }
  }

  lemma FailCounted(db: Db, m: Metrics, now: int, id: int, key: RunKey, message: Bytes, jitter: real)
    requires Counted(db, m)
    ensures var r := FailActivityTask(db, m, now, id, key, message, jitter); Counted(r.db, r.metrics)
  {
    var r := FailActivityTask(db, m, now, id, key, message, jitter);
    hide Counted, RetryDelay;
    if id in db.tasks && db.tasks[id].attempt < db.tasks[id].maxAttempts {
      SameCounted(db, r.db, m, r.metrics);
    } else if r.reply.Ok? {
      OneEventCounted(db, r.db, m, key, ActivityEvent(ActivityFailed, db.tasks[id], |Rows(db, key)| + 1, message));
    }
  }

  lemma LeaseCounted(db: Db, m: Metrics, id: int, owner: string, now: int)
    requires Counted(db, m)
    ensures id in db.tasks ==> Counted(LeaseTask(db, id, owner, now), m)
    ensures Counted(ReclaimExpired(db, now), m)
  {
    hide Counted;
    if id in db.tasks {
      SameCounted(db, LeaseTask(db, id, owner, now), m, m);
    }
    SameCounted(db, ReclaimExpired(db, now), m, m);
  }

  lemma ScanCounted(db: Db, m: Metrics, batch: seq<int>)
    requires Counted(db, m)
    ensures var r := ScanTimers(db, m, batch); Counted(r.db, r.metrics)
  {
    hide Counted, FireTimers;
    if Owned(db, batch) {
      FireAllCounted(db, m, batch);
    }
  }

  lemma StepCounted(code: Code, s: State, step: Step)
    requires Enabled(code, s, step) && Counted(s.db, s.metrics)
    ensures Counted(Apply(code, s, step).db, Apply(code, s, step).metrics)
  {
    var db, m, now := s.db, s.metrics, s.clock;
    hide Counted, LatestIs, OrderedBy, DueBatch, StartWorkflow, SignalWorkflow, CompleteWorkflowTask, ScanTimers,
      CompleteActivityTask, FailActivityTask, LeaseTask, ReclaimExpired, ResponseCommands, CanRespond, Longer,
      NewChains;
    match step {
      case Start(key, latest, workflowType, queue, input) =>
        StartCounted(db, m, now, key, latest, workflowType, queue, input);
      case PollWorkflow(_, owner, id) => LeaseCounted(db, m, id, owner, now);
      case PollActivity(_, owner, id) => LeaseCounted(db, m, id, owner, now);
      case Respond(n, calls) =>
        var g := s.grants[n];
        RespondCounted(db, m, now, g.taskId, g.key, ResponseCommands(code, g, calls));
      case CompleteActivity(n, result) => CompleteCounted(db, m, s.grants[n].taskId, s.grants[n].key, result);
      case FailActivity(n, message, jitter) =>
        FailCounted(db, m, now, s.grants[n].taskId, s.grants[n].key, message, jitter);
      case Scan(batch) => ScanCounted(db, m, batch);
      case Signal(key, name, data) => SignalCounted(db, m, now, key, name, data);
      case Reclaim => LeaseCounted(db, m, 0, "", now);
      case _ =>
    }
  }

  /** How many of the first n steps reported a failure that led to another attempt. */
  function RetriesMade(states: seq<State>, steps: seq<Step>, n: nat): nat
    requires n <= |steps| < |states|
  {
    if n == 0 then 0 else RetriesMade(states, steps, n - 1) + One(Retries(states[n - 1], steps[n - 1]))
  }

  lemma RetriesAreCounted(code: Code, s: State, step: Step)
    requires Enabled(code, s, step)
    ensures Apply(code, s, step).metrics.activityRetries == s.metrics.activityRetries + One(Retries(s, step))
  {
    hide LatestIs, OrderedBy, DueBatch, CompleteActivityTask, FailActivityTask, LeaseTask, ReclaimExpired, FireTimers,
      AnyWorkflowTask, ResponseCommands, CanRespond, Longer, NewChains, Rows, ApplyCommands, FinishActivity;
    if step.FailActivity? {
      var g := s.grants[step.grant];
      FailRetries(s.db, s.metrics, s.clock, g.taskId, g.key, step.message, step.jitter);
    } else if step.CompleteActivity? {
      CompleteRetries(s.db, s.metrics, s.grants[step.grant].taskId, s.grants[step.grant].key, step.result);
    }
  }

  lemma FailRetries(db: Db, m: Metrics, now: int, id: int, key: RunKey, message: Bytes, jitter: real)
    ensures FailActivityTask(db, m, now, id, key, message, jitter).metrics.activityRetries ==
      m.activityRetries + One(id in db.tasks && db.tasks[id].attempt < db.tasks[id].maxAttempts)
  {
    hide RetryTask, FinishActivity, Rows;
  }

  lemma CompleteRetries(db: Db, m: Metrics, id: int, key: RunKey, result: Bytes)
    ensures CompleteActivityTask(db, m, id, key, result).metrics.activityRetries == m.activityRetries
  {
    hide FinishActivity, Rows;
  }

  lemma NothingCounted(clock: int)
    ensures Counted(Initial(clock).db, Initial(clock).metrics)
  {
  }

  /** After every step: each of the nine counters is the number of events of its kind in the histories of all runs, and
      the tenth is the number of failure reports that led to another attempt. */
  lemma {:induction false} CountersCount(code: Code, states: seq<State>, steps: seq<Step>, n: nat)
    requires Behavior(code, states, steps) && n < |states|
    ensures Counted(states[n].db, states[n].metrics)
    ensures states[n].metrics.activityRetries == RetriesMade(states, steps, n)
  {
    hide Counted, Enabled, Apply, Retries;
    if n == 0 {
      NothingCounted(states[0].clock);
    } else {
      CountersCount(code, states, steps, n - 1);
      assert Enabled(code, states[n - 1], steps[n - 1]);
      StepCounted(code, states[n - 1], steps[n - 1]);
      RetriesAreCounted(code, states[n - 1], steps[n - 1]);
    }
  }
}
