/** The engine and its workers as one state machine. */
module Engine {
  import opened Types
  import opened Interpreter
  import opened Tables
  import opened Handlers

  /** A task handed to a worker that has not answered yet: the worker may be slow, its lease may have been reclaimed,
      and it may have crashed. A workflow task is leased first and its history is read afterwards. */
  datatype Grant =
    | Leased(taskId: int, key: RunKey, queue: string, workflowType: string)
    | Viewed(taskId: int, key: RunKey, queue: string, workflowType: string, view: seq<Event>)
    | ActivityGrant(taskId: int, key: RunKey)

  /** For each live activity task: when the activity was scheduled, and how many failures of it were accepted. */
  datatype Chain = Chain(scheduledAt: int, reports: nat)

  /** The longest history an accepted answer of a run was computed from, and how many calls its replay made. */
  datatype Replayed = Replayed(length: nat, calls: nat)

  /** replayed and chains record the past; no step depends on them. */
  datatype State = State(
    db: Db,
    metrics: Metrics,
    clock: int,
    grants: map<nat, Grant>,
    nextGrant: nat,
    replayed: map<RunKey, Replayed>,
    chains: map<int, Chain>)

  datatype Step =
    | Start(key: RunKey, latest: Option<RunKey>, workflowType: string, queue: string, input: Bytes)
    | PollWorkflow(queue: string, owner: string, taskId: int)
    | Snapshot(grant: nat, view: seq<Event>)
    | PollActivity(queue: string, owner: string, taskId: int)
    | Respond(grant: nat, calls: nat)
    | CompleteActivity(grant: nat, result: Bytes)
    | FailActivity(grant: nat, message: Bytes, jitter: real)
    | Scan(batch: seq<int>)
    | Signal(key: RunKey, name: string, data: Bytes)
    | Reclaim
    | Tick(elapsed: nat)
    | Crash(grant: nat)

  function Initial(clock: int): State {
    State(EMPTY, ZERO, clock, map[], 0, map[], map[])
  }

  /** executeWorkflowTask: the input is the data of the first WorkflowStarted event. */
  function InputOf(h: seq<Event>): Bytes {
    if h == [] then []
    else if h[0].kind == WorkflowStarted then h[0].data
    else InputOf(h[1..])
  }

  function FunctionFor(code: Code, workflowType: string, h: seq<Event>): Option<Workflow> {
    code(workflowType, InputOf(h))
  }

  /** The replay behind an answer has run to its end or to a suspension. */
  predicate CanRespond(code: Code, g: Grant, calls: nat) {
    && g.Viewed?
    && FunctionFor(code, g.workflowType, g.view).Some?
    && Replay(FunctionFor(code, g.workflowType, g.view).value, g.view, calls).stop.Some?
  }

  function ResponseCommands(code: Code, g: Grant, calls: nat): seq<Command>
    requires CanRespond(code, g, calls)
  {
    Commands(g.view, Replay(FunctionFor(code, g.workflowType, g.view).value, g.view, calls), g.queue)
  }

  /** When a step can happen. The environment supplies fresh run ids, and start times that tell the runs of one
      workflow id apart. */
  ghost predicate Enabled(code: Code, s: State, step: Step) {
    match step
    case Start(key, latest, _, _, _) =>
      && key !in s.db.executions && key !in s.db.events
      && LatestIs(s.db, key.workflowId, latest)
      && forall k :: k in s.db.executions && k.workflowId == key.workflowId ==> s.db.executions[k].startedAt < s.clock
    case PollWorkflow(queue, _, id) => NextTask(s.db, queue, WorkflowTask, s.clock, id)
    case Snapshot(g, view) => g in s.grants && s.grants[g].Leased? && OrderedBy(view, Rows(s.db, s.grants[g].key))
    case PollActivity(queue, _, id) => NextTask(s.db, queue, ActivityTask, s.clock, id)
    case Respond(g, calls) => g in s.grants && CanRespond(code, s.grants[g], calls)
    case CompleteActivity(g, _) => g in s.grants && s.grants[g].ActivityGrant?
    case FailActivity(g, _, jitter) => g in s.grants && s.grants[g].ActivityGrant? && 0.0 <= jitter < 1.0
    case Scan(batch) => DueBatch(s.db, s.clock, batch)
    case Signal(_, _, _) => true
    case Reclaim => true
    case Tick(_) => true
    case Crash(g) => g in s.grants
  }

  function Settle(s: State, h: Handled): State {
    s.(db := h.db, metrics := h.metrics)
  }

  function Grants(s: State, g: Grant): State {
    s.(grants := s.grants[s.nextGrant := g], nextGrant := s.nextGrant + 1)
  }

  function Longer(s: State, key: RunKey, length: nat, calls: nat): map<RunKey, Replayed> {
    if key in s.replayed && s.replayed[key].length > length then s.replayed
    else s.replayed[key := Replayed(length, calls)]
  }

  function NewChains(s: State, db: Db): map<int, Chain> {
    s.chains + map id | id in db.tasks && id !in s.db.tasks && db.tasks[id].kind == ActivityTask :: Chain(s.clock, 0)
  }

  function Apply(code: Code, s: State, step: Step): State
    requires Enabled(code, s, step)
  {
    match step
    case Start(key, latest, workflowType, queue, input) =>
      Settle(s, StartWorkflow(s.db, s.metrics, s.clock, key, latest, workflowType, queue, input))
    case PollWorkflow(queue, owner, id) =>
      var t := s.db.tasks[id];
      Grants(s.(db := LeaseTask(s.db, id, owner, s.clock)), Leased(id, t.key, queue, t.workflowType))
    case Snapshot(g, view) =>
      var l := s.grants[g];
      s.(grants := s.grants[g := Viewed(l.taskId, l.key, l.queue, l.workflowType, view)])
    case PollActivity(queue, owner, id) =>
      Grants(s.(db := LeaseTask(s.db, id, owner, s.clock)), ActivityGrant(id, s.db.tasks[id].key))
    case Respond(g, calls) =>
      var v := s.grants[g];
      var h := CompleteWorkflowTask(s.db, s.metrics, s.clock, v.taskId, v.key, ResponseCommands(code, v, calls));
      var accepted := v.key in s.db.executions && s.db.executions[v.key].status == Running;
      Settle(s, h).(
        grants := s.grants - {g},
        replayed := if accepted then Longer(s, v.key, |v.view|, calls) else s.replayed,
        chains := if accepted then NewChains(s, h.db) else s.chains)
    case CompleteActivity(g, result) =>
      var a := s.grants[g];
      Settle(s, CompleteActivityTask(s.db, s.metrics, a.taskId, a.key, result)).(grants := s.grants - {g})
    case FailActivity(g, message, jitter) =>
      var a := s.grants[g];
      var h := FailActivityTask(s.db, s.metrics, s.clock, a.taskId, a.key, message, jitter);
      Settle(s, h).(
        grants := s.grants - {g},
        chains := if s.db.taskSeq in h.db.tasks && h.db.tasks[s.db.taskSeq].kind == ActivityTask && a.taskId in s.chains
                  then s.chains[s.db.taskSeq := s.chains[a.taskId].(reports := s.chains[a.taskId].reports + 1)]
                  else s.chains)
    case Scan(batch) => Settle(s, ScanTimers(s.db, s.metrics, batch))
    case Signal(key, name, data) => Settle(s, SignalWorkflow(s.db, s.metrics, s.clock, key, name, data))
    case Reclaim => s.(db := ReclaimExpired(s.db, s.clock))
    case Tick(elapsed) => s.(clock := s.clock + elapsed)
    case Crash(g) => s.(grants := s.grants - {g})
  }

  /** A run of the whole system: its states, one more than its steps. */
  ghost predicate Behavior(code: Code, states: seq<State>, steps: seq<Step>) {
    && |states| == |steps| + 1
    && states[0] == Initial(states[0].clock)
    && forall i :: 0 <= i < |steps| ==>
         Enabled(code, states[i], steps[i]) && states[i + 1] == Apply(code, states[i], steps[i])
  }
}
