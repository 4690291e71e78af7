/** What replay guarantees, whatever the workflow function. */
module ReplayLaws {
  import opened Types
  import opened Counting
  import opened HistoryFacts
  import opened HistoryMeaning
  import opened Interpreter

  /** Every answer a gives, b gives too. */
  ghost predicate AnswersGrow(a: Answers, b: Answers) {
    && (forall f :: a.outcome(f).Some? ==> b.outcome(f) == a.outcome(f))
    && (forall i :: a.fired(i) ==> b.fired(i))
    && (forall name, k: nat :: a.signal(name, k).Some? ==> b.signal(name, k) == a.signal(name, k))
  }

  lemma GrowingHistory(h: seq<Event>, h': seq<Event>)
    requires FactsGrow(h, h')
    ensures AnswersGrow(FromHistory(h), FromHistory(h'))
  {
    forall name, k: nat | k < |Signals(h, name)|
      ensures k < |Signals(h', name)| && Signals(h', name)[k] == Signals(h, name)[k]
    {
    }
  }

  /* ---- prefix determinism ---- */

  /** With more answers a run repeats what it did with fewer, and then may go on. */
  lemma {:induction false} RunMonotone(w: Workflow, a: Answers, b: Answers, n: nat)
    requires AnswersGrow(a, b)
    ensures Run(w, a, n).obs <= Run(w, b, n).obs
    ensures Run(w, a, n).stop.None? || Run(w, a, n).stop.value.Finished? ==> Run(w, b, n) == Run(w, a, n)
    ensures Requests(Run(w, a, n)) <= Requests(Run(w, b, n))
  {
    hide Answer, Requests, AnswersGrow;
    if n > 0 {
      RunMonotone(w, a, b, n - 1);
      var t := Run(w, a, n - 1);
      if t.stop.None? {
        AnswerGrows(a, b, t.obs, w(t.obs));
      } else if t.stop.value.Waiting? {
        RunStep(w, b, n - 1);
      }
    }
  }

  lemma AnswerGrows(a: Answers, b: Answers, obs: seq<Observation>, p: Primitive)
    requires AnswersGrow(a, b)
    ensures Answer(a, obs, p).obs <= Answer(b, obs, p).obs
    ensures Answer(a, obs, p).stop.None? || Answer(a, obs, p).stop.value.Finished?
      ==> Answer(b, obs, p) == Answer(a, obs, p)
    ensures Requests(Answer(a, obs, p)) <= Requests(Answer(b, obs, p))
  {
    hide Calls, Timers, Consumed, RequestsIn, Requests;
    var t, u := Answer(a, obs, p), Answer(b, obs, p);
    if u != t {
      assert t.obs == obs && t.stop.Some? && t.stop.value.Waiting?;
      assert t.stop.value.wait.OnTimer? ==> u.obs == obs + [Slept(t.stop.value.wait.index, t.stop.value.wait.duration)];
      assert u.stop.None? && u.obs == obs + [u.obs[|obs|]];
      hide Answer;
      WaitingAsksNoMore(obs, t.stop.value.wait, u.obs[|obs|]);
    }
  }

  /** A call that gets an answer asks for what it asked for without one. */
  lemma WaitingAsksNoMore(obs: seq<Observation>, wait: Wait, o: Observation)
    requires wait.OnTimer? ==> o == Slept(wait.index, wait.duration)
    ensures Requests(Trace(obs, Some(Waiting(wait)))) <= Requests(Trace(obs + [o], None))
  {
    hide RequestsIn;
    RequestsSnoc(obs, o);
  }

  /** Replay on a longer history repeats the replay on a shorter one: the same calls with the same results, and
      the same end if there was one. A worker that re-polls after a crash never contradicts the first. */
  lemma PrefixDeterminism(w: Workflow, h: seq<Event>, h': seq<Event>, n: nat)
    requires h <= h'
    ensures Replay(w, h, n).obs <= Replay(w, h', n).obs
    ensures Requests(Replay(w, h, n)) <= Requests(Replay(w, h', n))
    ensures Replay(w, h, n).stop.None? || Replay(w, h, n).stop.value.Finished?
      ==> Replay(w, h', n) == Replay(w, h, n)
  {
    hide Run, Requests, FromHistory, AnswersGrow;
    PrefixFactsGrow(h, h');
    GrowingHistory(h, h');
    RunMonotone(w, FromHistory(h), FromHistory(h'), n);
  }

  /* ---- replay against uninterrupted execution ---- */

  /** How the outside world turns out: every activity's outcome and every signal that will ever be sent. */
  datatype Oracle = Oracle(outcome: Future -> Outcome, signal: (string, nat) -> Bytes)

  function DirectCall(o: Oracle, obs: seq<Observation>, p: Primitive): Trace {
    match p
    case ExecuteActivity(name, input) => Trace(obs + [Called(Future(name, Calls(obs)), input)], None)
    case Get(f) => Trace(obs + [Got(f, o.outcome(f))], None)
    case Sleep(d) => Trace(obs + [Slept(Timers(obs), d)], None)
    case ReceiveSignal(name) =>
      Trace(obs + [Received(name, Consumed(obs, name), o.signal(name, Consumed(obs, name)))], None)
    case Return(e) => Trace(obs, Some(Finished(e)))
  }

  /** The first n calls of w run once from start to end, with nothing ever missing. */
  function Direct(w: Workflow, o: Oracle, n: nat): Trace {
    if n == 0 then Trace([], None) else
      var t := Direct(w, o, n - 1);
      if t.stop.Some? then t else DirectCall(o, t.obs, w(t.obs))
  }

  /** What the history says is what the oracle foretold. */
  ghost predicate Agrees(h: seq<Event>, o: Oracle) {
    && (forall f :: OutcomeOf(h, f).Some? ==> OutcomeOf(h, f).value == o.outcome(f))
    && (forall name, k: nat :: k < |Signals(h, name)| ==> Signals(h, name)[k] == o.signal(name, k))
  }

  function Foretold(o: Oracle): Answers {
    Answers(f => Some(o.outcome(f)), i => true, (name: string, k: nat) => Some(o.signal(name, k)))
  }

  lemma {:induction false} DirectIsForetold(w: Workflow, o: Oracle, n: nat)
    ensures Direct(w, o, n) == Run(w, Foretold(o), n)
    ensures Direct(w, o, n).stop.Some? ==> Direct(w, o, n).stop.value.Finished?
  {
    if n > 0 {
      DirectIsForetold(w, o, n - 1);
    }
  }

  /** Replay observes a prefix of what the uninterrupted run observes, asks for nothing that run does not ask for,
      and, unless it suspends, has done exactly what that run has done and ends as it ends. */
  lemma ReplayRefinesDirect(w: Workflow, h: seq<Event>, o: Oracle, n: nat)
    requires Agrees(h, o)
    ensures Replay(w, h, n).obs <= Direct(w, o, n).obs
    ensures Requests(Replay(w, h, n)) <= RequestsIn(Direct(w, o, n).obs)
    ensures var t := Replay(w, h, n);
      t.stop.None? || t.stop.value.Finished? ==> t == Direct(w, o, n) && Ending(t) == Ending(Direct(w, o, n))
  {
    hide Run, Direct, RequestsIn, Ending;
    assert AnswersGrow(FromHistory(h), Foretold(o));
    RunMonotone(w, FromHistory(h), Foretold(o), n);
    DirectIsForetold(w, o, n);
  }

  /** No history rules out every oracle. */
  lemma OracleExists(h: seq<Event>) returns (o: Oracle)
    ensures Agrees(h, o)
  {
    o := Oracle(
      f => if OutcomeOf(h, f).Some? then OutcomeOf(h, f).value else Succeeded([]),
      (name: string, k: nat) => if k < |Signals(h, name)| then Signals(h, name)[k] else []);
  }

  /* ---- every observation is the history's ---- */

  function IsCall(): Observation -> bool { (o: Observation) => o.Called? }

  function IsNap(): Observation -> bool { (o: Observation) => o.Slept? }

  function ReceiptOf(name: string): Observation -> bool { (o: Observation) => o.Received? && o.name == name }

  lemma {:induction false} CountersMean(obs: seq<Observation>)
    ensures Calls(obs) == Tally(obs, IsCall()) && Timers(obs) == Tally(obs, IsNap())
    ensures forall name :: Consumed(obs, name) == Tally(obs, ReceiptOf(name))
  {
    if obs != [] {
      CountersMean(obs[..|obs| - 1]);
    }
  }

  /** What the call observes is what the rows of the history say: a new future with the call's own number, the end of
      the activity in its first ending row, a timer of that number that has fired, the payload of the next signal of
      the name. A return observes nothing. */
  ghost predicate Faithful(h: seq<Event>, obs: seq<Observation>, call: Primitive, o: Observation) {
    match call
    case ExecuteActivity(name, input) => o == Called(Future(name, Tally(obs, IsCall())), input)
    case Get(f) =>
      && o.Got? && o.future == f
      && (match o.outcome
          case Succeeded(d) => EndsWith(h, f.name, f.index, ActivityCompleted, d)
          case Errored(d) => EndsWith(h, f.name, f.index, ActivityFailed, d))
    case Sleep(d) =>
      && o == Slept(Tally(obs, IsNap()), d)
      && exists i :: 0 <= i < |h| && h[i].kind == TimerFired && h[i].timerIndex == Tally(obs, IsNap())
    case ReceiveSignal(name) =>
      && o.Received? && o.name == name && o.position == Tally(obs, ReceiptOf(name))
      && exists i :: NthSignalAt(h, i, name, Tally(obs, ReceiptOf(name))) && o.data == h[i].data
    case Return(_) => false
  }

  /** The rows hold no answer to the call. */
  ghost predicate Unanswered(h: seq<Event>, obs: seq<Observation>, call: Primitive) {
    match call
    case ExecuteActivity(_, _) => false
    case Get(f) => forall i :: !EndsAt(h, i, f.name, f.index)
    case Sleep(_) => forall i :: 0 <= i < |h| ==> !(h[i].kind == TimerFired && h[i].timerIndex == Tally(obs, IsNap()))
    case ReceiveSignal(name) => Tally(h, SignalNamed(name)) <= Tally(obs, ReceiptOf(name))
    case Return(_) => false
  }

  lemma AnswerIsFaithful(h: seq<Event>, obs: seq<Observation>, call: Primitive)
    ensures var t := Answer(FromHistory(h), obs, call);
      if t.stop.Some? then
        && t.obs == obs
        && if call.Return? then t.stop == Some(Finished(call.error))
           else t.stop.value.Waiting? && Unanswered(h, obs, call)
      else
        && |t.obs| == |obs| + 1 && obs == t.obs[..|obs|] && Faithful(h, obs, call, t.obs[|obs|])
        && !Unanswered(h, obs, call)
  {
    CountersMean(obs);
    hide Calls, Timers, Consumed, OutcomeOf, Signals, Tally;
    match call {
      case Get(f) => OutcomeMeans(h, f);
      case ReceiveSignal(name) =>
        SignalCount(h, name);
        if Consumed(obs, name) < |Signals(h, name)| {
          var i := NthSignal(h, name, Consumed(obs, name));
          SignalMeans(h, name, i, Consumed(obs, name));
        }
      case _ =>
    }
  }

  /** Every observation of a replay answers the call that the function made there, as the rows say. */
  lemma {:induction false} ReplayIsFaithful(w: Workflow, h: seq<Event>, n: nat, p: nat)
    requires p < |Replay(w, h, n).obs|
    ensures var obs := Replay(w, h, n).obs; Faithful(h, obs[..p], w(obs[..p]), obs[p])
  {
    var t, u := Replay(w, h, n - 1), Replay(w, h, n);
    assert u == if t.stop.Some? then t else Answer(FromHistory(h), t.obs, w(t.obs));
    hide Answer, Faithful, Run, Replay;
    AnswerIsFaithful(h, t.obs, w(t.obs));
    if p < |t.obs| {
      ReplayIsFaithful(w, h, n - 1, p);
      assert t.obs[..p] == u.obs[..p];
    }
  }

  /** A replay stops at a call exactly when the function returns there, or the rows hold no answer to the call. */
  lemma ReplayStops(w: Workflow, h: seq<Event>, n: nat)
    requires Replay(w, h, n).stop.None?
    ensures var obs, t := Replay(w, h, n).obs, Replay(w, h, n + 1);
      && (t.stop.Some? <==> w(obs).Return? || Unanswered(h, obs, w(obs)))
      && (w(obs).Return? ==> t.stop == Some(Finished(w(obs).error)))
  {
    hide Answer, Unanswered, Faithful;
    var obs := Replay(w, h, n).obs;
    AnswerIsFaithful(h, obs, w(obs));
    NoReturnIsUnanswered(h, obs, w(obs));
  }

  lemma NoReturnIsUnanswered(h: seq<Event>, obs: seq<Observation>, call: Primitive)
    ensures call.Return? ==> !Unanswered(h, obs, call) && forall o :: !Faithful(h, obs, call, o)
  {
  }

  /** Replay takes no more signals of a name than the history holds. */
  lemma {:induction false} ConsumedBound(w: Workflow, h: seq<Event>, n: nat, name: string)
    ensures Consumed(Replay(w, h, n).obs, name) <= |Signals(h, name)|
  {
    if n > 0 {
      ConsumedBound(w, h, n - 1, name);
      var t, u := Replay(w, h, n - 1), Replay(w, h, n);
      if t.stop.None? {
        ReceiptInBounds(FromHistory(h), t.obs, w(t.obs), name, |Signals(h, name)|);
      }
    }
  }

  lemma ReceiptInBounds(a: Answers, obs: seq<Observation>, call: Primitive, name: string, bound: nat)
    requires Consumed(obs, name) <= bound && a.signal(name, bound).None?
    ensures Consumed(Answer(a, obs, call).obs, name) <= bound
  {
    var t := Answer(a, obs, call);
    if t.stop.None? {
      assert t.obs == obs + [t.obs[|obs|]];
      CountersSnoc(obs, t.obs[|obs|]);
    }
  }

  /** The k-th ReceiveSignal of a name returns the payload of the k-th row that carries that name, whatever rows come
      between, and suspends exactly when the history holds no k-th one. */
  lemma SignalOrder(w: Workflow, h: seq<Event>, n: nat, name: string)
    requires Replay(w, h, n).stop.None? && w(Replay(w, h, n).obs) == ReceiveSignal(name)
    ensures var obs, total := Replay(w, h, n).obs, Tally(h, SignalNamed(name));
      var k := Tally(obs, ReceiptOf(name));
      && k <= total
      && (Replay(w, h, n + 1).stop.Some? <==> k == total)
      && (forall i :: NthSignalAt(h, i, name, k) ==>
            Replay(w, h, n + 1) == Trace(obs + [Received(name, k, h[i].data)], None))
      && (k < total ==> exists i :: NthSignalAt(h, i, name, k))
  {
    var obs := Replay(w, h, n).obs;
    ConsumedBound(w, h, n, name);
    CountersMean(obs);
    SignalCount(h, name);
    var k := Tally(obs, ReceiptOf(name));
    hide Signals, Tally, Consumed;
    forall i | NthSignalAt(h, i, name, k)
      ensures Replay(w, h, n + 1) == Trace(obs + [Received(name, k, h[i].data)], None)
    {
      SignalMeans(h, name, i, k);
    }
    if k < |Signals(h, name)| {
      var i := NthSignal(h, name, k);
    }
  }

  /** What a suspended replay is waiting for is not in the history. */
  lemma {:induction false} WaitIsUnmet(w: Workflow, h: seq<Event>, n: nat)
    requires Replay(w, h, n).stop.Some? && Replay(w, h, n).stop.value.Waiting?
    ensures match Replay(w, h, n).stop.value.wait
      case OnActivity(f) => OutcomeOf(h, f).None?
      case OnTimer(i, _) => !Fired(h, i)
      case OnSignal(name, k) => k == |Signals(h, name)|
  {
    hide Signals, OutcomeOf, Fired;
    if Replay(w, h, n - 1).stop.Some? {
      WaitIsUnmet(w, h, n - 1);
    } else if w(Replay(w, h, n - 1).obs).ReceiveSignal? {
      ConsumedBound(w, h, n - 1, w(Replay(w, h, n - 1).obs).name);
    }
  }

  /* ---- replay does not look at anything else ---- */

  /** Histories that answer alike are replayed alike. */
  lemma {:induction false} SameFactsSameReplay(w: Workflow, h: seq<Event>, h': seq<Event>, n: nat)
    requires SameFacts(h, h')
    ensures Replay(w, h, n) == Replay(w, h', n)
  {
    if n > 0 {
      SameFactsSameReplay(w, h, h', n - 1);
      hide OutcomeOf, Fired, Signals, Calls, Timers, Consumed;
    }
  }
}
