/** Workflow functions, and the replay of one of them against a history. */
module Interpreter {
  import opened Types
  import opened HistoryFacts

  /** The calls a workflow function makes into the SDK, and its return. */
  datatype Primitive =
    | ExecuteActivity(name: string, input: Bytes)
    | Get(future: Future)
    | Sleep(duration: int)
    | ReceiveSignal(name: string)
    | Return(error: Option<Bytes>)

  /** What the function sees come back from a call. */
  datatype Observation =
    | Called(future: Future, input: Bytes)
    | Got(future: Future, outcome: Outcome)
    | Slept(index: int, duration: int)
    | Received(name: string, position: int, data: Bytes)

  /** A deterministic workflow function: what it has seen so far decides its next call. */
  type Workflow = seq<Observation> -> Primitive

  /** The code deployed on the workers, by workflow type and input; None where no function is registered or the
      input does not decode, in which case the worker drops the task without answering. */
  type Code = (string, Bytes) -> Option<Workflow>

  datatype Wait =
    | OnActivity(future: Future)
    | OnTimer(index: int, duration: int)
    | OnSignal(name: string, position: int)

  datatype Stop = Finished(error: Option<Bytes>) | Waiting(wait: Wait)

  /** A replay: what has been observed, and why it stopped if it has. */
  datatype Trace = Trace(obs: seq<Observation>, stop: Option<Stop>)

  /** Context.activityCallCount. */
  function Calls(obs: seq<Observation>): nat {
    if obs == [] then 0 else Calls(obs[..|obs| - 1]) + if obs[|obs| - 1].Called? then 1 else 0
  }

  /** Context.timerCallCount. */
  function Timers(obs: seq<Observation>): nat {
    if obs == [] then 0 else Timers(obs[..|obs| - 1]) + if obs[|obs| - 1].Slept? then 1 else 0
  }

  predicate IsReceipt(o: Observation, name: string) { o.Received? && o.name == name }

  /** Context.signalConsumed[name]. */
  function Consumed(obs: seq<Observation>, name: string): nat {
    if obs == [] then 0
    else Consumed(obs[..|obs| - 1], name) + if IsReceipt(obs[|obs| - 1], name) then 1 else 0
  }

  lemma CountersSnoc(obs: seq<Observation>, o: Observation)
    ensures Calls(obs + [o]) == Calls(obs) + if o.Called? then 1 else 0
    ensures Timers(obs + [o]) == Timers(obs) + if o.Slept? then 1 else 0
    ensures forall name :: Consumed(obs + [o], name) == Consumed(obs, name) + if IsReceipt(o, name) then 1 else 0
  {
    assert (obs + [o])[..|obs|] == obs;
  }

  /** What a replay may consult: outcomes of activities, timers that fired, signals by name and position. */
  datatype Answers = Answers(
    outcome: Future -> Option<Outcome>,
    fired: int -> bool,
    signal: (string, nat) -> Option<Bytes>)

  /** The answers a history holds. */
  function FromHistory(h: seq<Event>): Answers {
    Answers(
      f => OutcomeOf(h, f),
      i => Fired(h, i),
      (name: string, k: nat) => if k < |Signals(h, name)| then Some(Signals(h, name)[k]) else None)
  }

  /** One call of the workflow function into the SDK. */
  function Answer(a: Answers, obs: seq<Observation>, p: Primitive): Trace {
    match p
    case ExecuteActivity(name, input) => Trace(obs + [Called(Future(name, Calls(obs)), input)], None)
    case Get(f) =>
      (match a.outcome(f)
       case None => Trace(obs, Some(Waiting(OnActivity(f))))
       case Some(outcome) => Trace(obs + [Got(f, outcome)], None))
    case Sleep(d) =>
      if a.fired(Timers(obs)) then Trace(obs + [Slept(Timers(obs), d)], None)
      else Trace(obs, Some(Waiting(OnTimer(Timers(obs), d))))
    case ReceiveSignal(name) =>
      (match a.signal(name, Consumed(obs, name))
       case None => Trace(obs, Some(Waiting(OnSignal(name, Consumed(obs, name)))))
       case Some(data) => Trace(obs + [Received(name, Consumed(obs, name), data)], None))
    case Return(e) => Trace(obs, Some(Finished(e)))
  }

  /** The first n calls of w. */
  function Run(w: Workflow, a: Answers, n: nat): Trace {
    if n == 0 then Trace([], None) else
      var t := Run(w, a, n - 1);
      if t.stop.Some? then t else Answer(a, t.obs, w(t.obs))
  }

  /** The first n calls of w, answered by a history. */
  function Replay(w: Workflow, h: seq<Event>, n: nat): Trace {
    Run(w, FromHistory(h), n)
  }

  /** The rules the SDK's types put on a function: only futures it was handed are awaited, and fewer than 2^31
      activities and timers are started, so that the int32 casts lose nothing. */
  ghost predicate Sound(w: Workflow) {
    && (forall obs :: w(obs).Get? ==> HasCall(obs, w(obs).future))
    && (forall obs :: w(obs).ExecuteActivity? ==> Calls(obs) < 0x7fff_ffff)
    && (forall obs :: w(obs).Sleep? ==> Timers(obs) < 0x7fff_ffff)
  }

  ghost predicate SoundCode(code: Code) {
    forall t, input :: code(t, input).Some? ==> Sound(code(t, input).value)
  }

  ghost predicate HasCall(obs: seq<Observation>, f: Future) {
    exists i :: 0 <= i < |obs| && obs[i].Called? && obs[i].future == f
  }

  /* ---- what a replay asks the engine for ---- */

  datatype Request = Activity(future: Future, input: Bytes) | Nap(index: int, duration: int)

  function RequestIn(o: Observation): seq<Request> {
    match o
    case Called(f, input) => [Activity(f, input)]
    case Slept(i, d) => [Nap(i, d)]
    case _ => []
  }

  function RequestsIn(obs: seq<Observation>): seq<Request> {
    if obs == [] then [] else RequestsIn(obs[..|obs| - 1]) + RequestIn(obs[|obs| - 1])
  }

  /** Every activity and timer the replayed part of the function starts, in order. */
  function Requests(t: Trace): seq<Request> {
    RequestsIn(t.obs) +
    match t.stop
    case Some(Waiting(OnTimer(i, d))) => [Nap(i, d)]
    case _ => []
  }

  /** Whether a history shows that the engine has already carried a request out. */
  predicate Recorded(h: seq<Event>, r: Request) {
    match r
    case Activity(f, _) => Scheduled(h, f)
    case Nap(i, _) => Started(h, i) || Fired(h, i)
  }

  function Unrecorded(h: seq<Event>, rs: seq<Request>): seq<Request> {
    if rs == [] then [] else
      var r := rs[|rs| - 1];
      Unrecorded(h, rs[..|rs| - 1]) + if Recorded(h, r) then [] else [r]
  }

  /** time.Duration.Milliseconds: integer division that truncates toward zero. */
  function Milliseconds(d: int): int {
    if d >= 0 then d / MILLISECOND else -((-d) / MILLISECOND)
  }

  function CommandOf(r: Request, queue: string): Command {
    match r
    case Activity(f, input) => ScheduleActivity(queue, f.name, f.index, input)
    case Nap(i, d) => StartTimer(i, Milliseconds(d))
  }

  function CommandsOf(rs: seq<Request>, queue: string): seq<Command> {
    seq(|rs|, i requires 0 <= i < |rs| => CommandOf(rs[i], queue))
  }

  /** The command that reports how the function ended, if it did. */
  function Ending(t: Trace): seq<Command> {
    match t.stop
    case Some(Finished(None)) => [CompleteWorkflow([])]
    case Some(Finished(Some(message))) => [FailWorkflow(message)]
    case _ => []
  }

  /** The command list executeWorkflowTask sends back. */
  function Commands(h: seq<Event>, t: Trace, queue: string): seq<Command> {
    CommandsOf(Unrecorded(h, Requests(t)), queue) + Ending(t)
  }

  /* ---- basic laws ---- */

  lemma {:induction false} RunSettles(w: Workflow, a: Answers, n: nat, m: nat)
    requires n <= m && Run(w, a, n).stop.Some?
    ensures Run(w, a, m) == Run(w, a, n)
  {
    if n < m {
      RunSettles(w, a, n, m - 1);
    }
  }

  lemma ReplaySettles(w: Workflow, h: seq<Event>, m: nat, n: nat)
    requires m <= n && Replay(w, h, m).stop.Some?
    ensures Replay(w, h, n) == Replay(w, h, m)
  {
    RunSettles(w, FromHistory(h), m, n);
  }

  lemma RequestsSnoc(obs: seq<Observation>, o: Observation)
    ensures RequestsIn(obs + [o]) == RequestsIn(obs) + RequestIn(o)
  {
    assert (obs + [o])[..|obs|] == obs;
  }

  /** A call either adds one observation or stops the run. */
  lemma AnswerShape(a: Answers, obs: seq<Observation>, p: Primitive)
    ensures var t := Answer(a, obs, p);
      if t.stop.Some? then t.obs == obs else |t.obs| == |obs| + 1 && obs <= t.obs
  {
  }

  lemma RunStep(w: Workflow, a: Answers, n: nat)
    ensures Run(w, a, n).obs <= Run(w, a, n + 1).obs
    ensures Requests(Run(w, a, n)) <= Requests(Run(w, a, n + 1))
  {
    var t, u := Run(w, a, n), Run(w, a, n + 1);
    if t.stop.None? {
      AnswerShape(a, t.obs, w(t.obs));
      if u.stop.None? {
        RequestsSnoc(t.obs, u.obs[|t.obs|]);
        assert u.obs == t.obs + [u.obs[|t.obs|]];
      }
    }
  }

  lemma {:induction false} RunGrows(w: Workflow, a: Answers, n: nat, m: nat)
    requires n <= m
    ensures Run(w, a, n).obs <= Run(w, a, m).obs
    ensures Requests(Run(w, a, n)) <= Requests(Run(w, a, m))
  {
    hide *;
    if n < m {
      RunGrows(w, a, n, m - 1);
      RunStep(w, a, m - 1);
    }
  }

  /** Each call that does not stop the run adds one observation. */
  lemma {:induction false} RunLength(w: Workflow, a: Answers, n: nat)
    ensures |Run(w, a, n).obs| <= n
    ensures Run(w, a, n).stop.None? ==> |Run(w, a, n).obs| == n
  {
    if n > 0 {
      RunLength(w, a, n - 1);
      AnswerShape(a, Run(w, a, n - 1).obs, w(Run(w, a, n - 1).obs));
    }
  }
}
