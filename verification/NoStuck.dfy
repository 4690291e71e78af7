/** An open run is always waiting for something that is on its way. */
module NoStuck {
  import opened Types
  import opened Counting
  import opened HistoryFacts
  import opened Interpreter
  import opened ReplayLaws
  import opened RequestLaws
  import opened Tables
  import opened Engine
  import opened Steps
  import opened Numbering
  import opened Conservation
  import opened Wakeups
  import opened AcceptedAnswers

  /* ---- parked runs ---- */

  /** What a suspended workflow waits for is still to come: a live activity task, an unfired timer row, or a signal
      that has not been received. */
  ghost predicate Alive(db: Db, key: RunKey, wait: Wait) {
    match wait
    case OnActivity(f) => exists id :: id in db.tasks && LiveActivity(key, f)(db.tasks[id])
    case OnTimer(i, _) => exists id :: id in db.timers && Unfired(key, i)(db.timers[id])
    case OnSignal(name, k) => |Signals(Rows(db, key), name)| <= k
  }

  ghost predicate ParkedAt(w: Workflow, db: Db, key: RunKey, n: nat)
    requires key in db.executions
  {
    var t := Replay(w, Rows(db, key), n);
    && t.stop.Some? && t.stop.value.Waiting?
    && Commands(Rows(db, key), t, db.executions[key].taskQueue) == []
    && Alive(db, key, t.stop.value.wait)
  }

  function Function(code: Code, db: Db, key: RunKey): Option<Workflow>
    requires key in db.executions
  {
    FunctionFor(code, db.executions[key].workflowType, Rows(db, key))
  }

  /** Replayed on its present history the run asks for nothing new, and waits for something alive. */
  ghost predicate Parked(code: Code, db: Db, key: RunKey)
    requires key in db.executions
  {
    Function(code, db, key).Some? && exists n: nat :: ParkedAt(Function(code, db, key).value, db, key, n)
  }

  lemma ScheduledIsLive(db: Db, key: RunKey, f: Future)
    requires ActivityBalance(db, key, f) && Scheduled(Rows(db, key), f) && OutcomeOf(Rows(db, key), f).None?
    ensures exists id :: id in db.tasks && LiveActivity(key, f)(db.tasks[id])
  {
    var rows := Rows(db, key);
    var i :| 0 <= i < |rows| && IsScheduled(rows[i], f);
    TallyPositive(rows, i, EventOf(ActivityScheduled, f));
    assert Tally(rows, EventOf(ActivityCompleted, f)) == 0 by {
      if Tally(rows, EventOf(ActivityCompleted, f)) > 0 {
        var k := TallyWitness(rows, EventOf(ActivityCompleted, f));
        OutcomePresent(rows, k, f);
      }
    }
    assert Tally(rows, EventOf(ActivityFailed, f)) == 0 by {
      if Tally(rows, EventOf(ActivityFailed, f)) > 0 {
        var k := TallyWitness(rows, EventOf(ActivityFailed, f));
        OutcomePresent(rows, k, f);
      }
    }
    assert |Matching(db.tasks, LiveActivity(key, f))| > 0;
    var id := MatchingWitness(db.tasks, LiveActivity(key, f));
  }

  lemma StartedIsUnfired(db: Db, key: RunKey, index: int)
    requires TimerBalance(db, key, index) && Started(Rows(db, key), index) && !Fired(Rows(db, key), index)
    ensures exists id :: id in db.timers && Unfired(key, index)(db.timers[id])
  {
    var rows := Rows(db, key);
    var i :| 0 <= i < |rows| && IsStarted(rows[i], index);
    TallyPositive(rows, i, TimerEvent(TimerStarted, index));
    assert Tally(rows, TimerEvent(TimerFired, index)) == 0 by {
      if Tally(rows, TimerEvent(TimerFired, index)) > 0 {
        var k := TallyWitness(rows, TimerEvent(TimerFired, index));
        assert IsFired(rows[k], index);
      }
    }
    assert |Matching(db.timers, Unfired(key, index))| > 0;
    var id := MatchingWitness(db.timers, Unfired(key, index));
  }

  ghost predicate BooksBalance(db: Db, key: RunKey) {
    forall f, i :: Balanced(db, key, f, i)
  }

  lemma WaitIsAlive(w: Workflow, db: Db, key: RunKey, n: nat)
    requires Sound(w) && BooksBalance(db, key)
    requires var t := Replay(w, Rows(db, key), n);
      && t.stop.Some? && t.stop.value.Waiting?
      && forall r :: r in Requests(t) ==> Recorded(Rows(db, key), r)
    ensures Alive(db, key, Replay(w, Rows(db, key), n).stop.value.wait)
  {
    var rows := Rows(db, key);
    var t := Replay(w, rows, n);
    WaitIsUnmet(w, rows, n);
    match t.stop.value.wait {
      case OnActivity(f) =>
        hide Requests, Run, FromHistory;
        var r := AwaitedIsRequested(w, FromHistory(rows), n);
        assert Recorded(rows, r) && Balanced(db, key, f, 0);
        hide Replay, Rows, ActivityBalance, OutcomeOf;
        ScheduledIsLive(db, key, f);
      case OnTimer(i, d) =>
        hide Run;
        assert Nap(i, d) in Requests(t);
        assert Recorded(rows, Nap(i, d)) && Balanced(db, key, Future("", 0), i);
        hide Replay, Rows, TimerBalance, Requests;
        StartedIsUnfired(db, key, i);
      case OnSignal(_, _) =>
    }
  }

  /** A suspended replay with all its requests on record waits for something alive. */
  lemma RecordedIsAlive(w: Workflow, db: Db, key: RunKey, n: nat)
    requires Sound(w) && key in db.executions && BooksBalance(db, key)
    requires var t := Replay(w, Rows(db, key), n);
      && t.stop.Some? && t.stop.value.Waiting?
      && forall r :: r in Requests(t) ==> Recorded(Rows(db, key), r)
    ensures ParkedAt(w, db, key, n)
  {
    hide Replay, Requests, Recorded, Rows, Alive, BooksBalance, Sound, Unrecorded;
    UnrecordedEmpty(Rows(db, key), Requests(Replay(w, Rows(db, key), n)));
    WaitIsAlive(w, db, key, n);
  }

  /* ---- what an idle run has last answered ---- */

  /** An open run that no worker is going to look at unless something happens. */
  predicate Idle(s: State, key: RunKey) {
    key in s.db.executions && s.db.executions[key].status == Running && !AnyWorkflowTask(s.db, key)
  }

  ghost predicate Invariant(code: Code, s: State) {
    Base(s) && AllNumbered(s.db) && ReplayedKnown(s) && AllAnswered(code, s)
  }

  lemma IdleHasAnswered(code: Code, s: State, key: RunKey, strict: bool)
    requires Invariant(code, s) && OpenWatchful(s, key, strict) && Idle(s, key)
    ensures key in s.replayed && Answered(code, s, key)
    ensures forall j :: s.replayed[key].length <= j < |Rows(s.db, key)| ==> !Rings(Rows(s.db, key)[j].kind, strict)
  {
    var rows := Rows(s.db, key);
    hide Base, AllNumbered, ReplayedKnown, Rows;
    assert Watchful(s, key, strict);
    assert forall j :: !Covered(s, key, j) by { NothingCovers(s, key); }
    assert Length(s, key) <= 0 ==> Rings(rows[0].kind, strict) by { OpensWithStart(s, key); }
    OpensWithStart(s, key);
  }

  lemma NothingCovers(s: State, key: RunKey)
    requires !AnyWorkflowTask(s.db, key)
    ensures forall j :: !Covered(s, key, j)
  {
  }

  lemma SoundFunction(code: Code, t: string, input: Bytes)
    requires SoundCode(code) && code(t, input).Some?
    ensures Sound(code(t, input).value)
  {
  }

  /* ---- lost signals ---- */

  /** The last answered replay waited for a signal that has come since. */
  ghost predicate LostSignal(code: Code, s: State, key: RunKey)
    requires key in s.db.executions
  {
    && key in s.replayed && Function(code, s.db, key).Some? && s.replayed[key].length <= |Rows(s.db, key)|
    && var last := s.replayed[key];
    && var t := Replay(Function(code, s.db, key).value, Rows(s.db, key)[..last.length], last.calls);
    && t.stop.Some? && t.stop.value.Waiting? && t.stop.value.wait.OnSignal?
    && |Signals(Rows(s.db, key), t.stop.value.wait.name)| > t.stop.value.wait.position
  }

  /** Replayed on its present history the run would get further than any answer of it has. */
  ghost predicate Behind(code: Code, s: State, key: RunKey)
    requires key in s.db.executions
  {
    && key in s.replayed && Function(code, s.db, key).Some? && s.replayed[key].length <= |Rows(s.db, key)|
    && var w, rows, last := Function(code, s.db, key).value, Rows(s.db, key), s.replayed[key];
    exists n: nat :: |Replay(w, rows, n).obs| > |Replay(w, rows[..last.length], last.calls).obs|
  }

  /** The call at which a run stopped. */
  lemma {:induction false} StopPoint(w: Workflow, a: Answers, n: nat) returns (m: nat)
    requires Run(w, a, n).stop.Some?
    ensures m < n && Run(w, a, m) == Trace(Run(w, a, n).obs, None) && Run(w, a, m + 1) == Run(w, a, n)
  {
    hide Answer;
    if Run(w, a, n - 1).stop.Some? {
      m := StopPoint(w, a, n - 1);
    } else {
      m := n - 1;
      AnswerShape(a, Run(w, a, m).obs, w(Run(w, a, m).obs));
    }
  }

  /** With more answers, a run still makes the call it stopped at, at the same point. */
  lemma SameStopPoint(w: Workflow, a: Answers, b: Answers, n: nat) returns (m: nat)
    requires AnswersGrow(a, b) && Run(w, a, n).stop.Some?
    ensures m < n && Run(w, b, m + 1) == Answer(b, Run(w, a, n).obs, w(Run(w, a, n).obs))
    ensures Run(w, a, n) == Answer(a, Run(w, a, n).obs, w(Run(w, a, n).obs))
  {
    hide Answer;
    m := StopPoint(w, a, n);
    RunMonotone(w, a, b, m);
  }

  /** rows answers what h answers, and beyond that only signals. */
  ghost predicate OnlySignalsNew(h: seq<Event>, rows: seq<Event>) {
    && FactsGrow(h, rows)
    && (forall f :: OutcomeOf(rows, f) == OutcomeOf(h, f))
    && (forall i :: Fired(rows, i) <==> Fired(h, i))
  }

  lemma {:induction false} OnlySignalsSince(h: seq<Event>, t: seq<Event>)
    requires forall i :: 0 <= i < |t| ==> !Rings(t[i].kind, false)
    ensures OnlySignalsNew(h, h + t)
  {
    PrefixFactsGrow(h, h + t);
    forall f ensures OutcomeOf(h + t, f) == OutcomeOf(h, f) {
      OutcomeAppend(h, t, f);
      if OutcomeOf(t, f).Some? {
        var i := OutcomeWitness(t, f);
      }
    }
    forall i ensures Fired(h + t, i) <==> Fired(h, i) {
      FiredAppend(h, t, i);
    }
  }

  predicate Answerable(rows: seq<Event>, wait: Wait) {
    wait.OnSignal? && |Signals(rows, wait.name)| > wait.position
  }

  /** Unless its signal has come, the call gets no answer now either. */
  lemma StillUnanswered(h: seq<Event>, rows: seq<Event>, obs: seq<Observation>, p: Primitive)
    requires OnlySignalsNew(h, rows)
    requires var t := Answer(FromHistory(h), obs, p); t.stop.Some? && t.stop.value.Waiting?
    ensures var t, u := Answer(FromHistory(h), obs, p), Answer(FromHistory(rows), obs, p);
      if Answerable(rows, t.stop.value.wait) then |u.obs| > |obs| else u == t
  {
    hide OutcomeOf, Fired, Signals, Calls, Timers, Consumed;
  }

  /** The next call of a suspended replay, made on a history with nothing but signals added. */
  lemma ResumePoint(w: Workflow, h: seq<Event>, rows: seq<Event>, n: nat) returns (m: nat)
    requires OnlySignalsNew(h, rows)
    requires Replay(w, h, n).stop.Some? && Replay(w, h, n).stop.value.Waiting?
    ensures m < n
    ensures var t, u := Replay(w, h, n), Replay(w, rows, m + 1);
      if Answerable(rows, t.stop.value.wait) then |u.obs| > |t.obs| else u == t
  {
    var t := Replay(w, h, n);
    GrowingHistory(h, rows);
    hide OnlySignalsNew, AnswersGrow, Run, Answerable, Answer, FromHistory;
    m := SameStopPoint(w, FromHistory(h), FromHistory(rows), n);
    StillUnanswered(h, rows, t.obs, w(t.obs));
  }

  /** Only a signal can have let a suspended replay go on, when nothing else has come since. */
  lemma SignalOrNothing(w: Workflow, h: seq<Event>, rows: seq<Event>, n: nat)
    requires OnlySignalsNew(h, rows)
    requires Replay(w, h, n).stop.Some? && Replay(w, h, n).stop.value.Waiting?
    ensures var t := Replay(w, h, n);
      if Answerable(rows, t.stop.value.wait) then exists m: nat :: |Replay(w, rows, m).obs| > |t.obs|
      else forall m: nat :: m >= n ==> Replay(w, rows, m) == t
  {
    hide OnlySignalsNew, Replay, Answerable;
    var m := ResumePoint(w, h, rows, n);
    var t := Replay(w, h, n);
    if !Answerable(rows, t.stop.value.wait) {
      forall k: nat | k >= n ensures Replay(w, rows, k) == t {
        ReplaySettles(w, rows, m + 1, k);
      }
    }
  }

  lemma IdleIsParkedOrMissedASignal(code: Code, s: State, key: RunKey)
    requires SoundCode(code) && Invariant(code, s) && OpenWatchful(s, key, false) && BooksBalance(s.db, key)
    requires Idle(s, key)
    ensures LostSignal(code, s, key) || Parked(code, s.db, key)
    ensures LostSignal(code, s, key) <==> Behind(code, s, key)
  {
    hide Invariant, OpenWatchful, BooksBalance, Rows, Replay, InputOf, Requests, Recorded, ParkedAt, AnyWorkflowTask,
      OnlySignalsNew, Signals;
    IdleHasAnswered(code, s, key, false);
    var rows, last := Rows(s.db, key), s.replayed[key];
    var w := Function(code, s.db, key).value;
    var h, more := rows[..last.length], rows[last.length..];
    assert forall i :: 0 <= i < |more| ==> more[i] == rows[last.length + i];
    assert forall wait :: Answerable(rows, wait) <==> wait.OnSignal? && |Signals(rows, wait.name)| > wait.position;
    hide Answerable;
    OnlySignalsSince(h, more);
    assert h + more == rows;
    SignalOrNothing(w, h, rows, last.calls);
    if !LostSignal(code, s, key) {
      SoundFunction(code, s.db.executions[key].workflowType, InputOf(rows));
      RecordedIsAlive(w, s.db, key, last.calls);
      NotBehind(w, rows, Replay(w, h, last.calls), last.calls);
    }
  }

  lemma NotBehind(w: Workflow, rows: seq<Event>, t: Trace, n: nat)
    requires forall m: nat :: m >= n ==> Replay(w, rows, m) == t
    ensures forall m: nat :: |Replay(w, rows, m).obs| <= |t.obs|
  {
    hide Replay;
    forall m: nat ensures |Replay(w, rows, m).obs| <= |t.obs| {
      if m < n {
        ReplayOnlyGrows(w, rows, m, n);
        assert Replay(w, rows, n) == t;
      }
    }
  }

  lemma ReplayOnlyGrows(w: Workflow, h: seq<Event>, m: nat, n: nat)
    requires m <= n
    ensures |Replay(w, h, m).obs| <= |Replay(w, h, n).obs|
  {
    RunGrows(w, FromHistory(h), m, n);
  }

  /* ---- over whole runs ---- */

  lemma InitialInvariant(code: Code, clock: int)
    ensures Invariant(code, Initial(clock))
  {
  }

  lemma {:induction false} InvariantAlways(code: Code, states: seq<State>, steps: seq<Step>, n: nat)
    requires Behavior(code, states, steps) && n < |states|
    ensures Invariant(code, states[n])
  {
    hide Enabled, Apply;
    if n == 0 {
      InitialInvariant(code, states[0].clock);
    } else {
      var s, step := states[n - 1], steps[n - 1];
      InvariantAlways(code, states, steps, n - 1);
      assert Enabled(code, s, step);
      hide Base, AllNumbered, ReplayedKnown, AllAnswered;
      StepBase(code, s, step);
      StepNumbering(code, s, step);
      StepReplayedKnown(code, s, step);
      StepAnswered(code, s, step);
    }
  }

  lemma {:induction false} WatchfulAlways(code: Code, states: seq<State>, steps: seq<Step>, n: nat, key: RunKey,
                                          strict: bool)
    requires Behavior(code, states, steps) && n < |states|
    requires strict ==> forall i :: 0 <= i < n ==> SafeFor(states[i], steps[i], key)
    ensures OpenWatchful(states[n], key, strict)
  {
    hide Enabled, Apply, SafeFor, Base, Watchful;
    if n > 0 {
      var s, step := states[n - 1], steps[n - 1];
      WatchfulAlways(code, states, steps, n - 1, key, strict);
      BaseAlways(code, states, steps, n - 1);
      assert Enabled(code, s, step);
      hide OpenWatchful;
      StepWatchful(code, s, step, key, strict);
    }
  }

  lemma BooksAlwaysBalance(code: Code, states: seq<State>, steps: seq<Step>, n: nat, key: RunKey)
    requires Behavior(code, states, steps) && n < |states|
    ensures BooksBalance(states[n].db, key)
  {
    hide Behavior, ActivityBalance, TimerBalance;
    forall f, i ensures Balanced(states[n].db, key, f, i) {
      Conserved(code, states, steps, n, key, f, i);
    }
  }

  /** When the run's signals are watched too, none has been lost. */
  lemma NoSignalLost(code: Code, s: State, key: RunKey)
    requires Invariant(code, s) && OpenWatchful(s, key, true) && Idle(s, key)
    ensures !LostSignal(code, s, key)
  {
    hide Invariant, OpenWatchful, Rows, Replay, InputOf, Requests, Recorded, AnyWorkflowTask, Signals;
    IdleHasAnswered(code, s, key, true);
    var rows, last := Rows(s.db, key), s.replayed[key];
    var w := Function(code, s.db, key).value;
    var h, more := rows[..last.length], rows[last.length..];
    assert forall i :: 0 <= i < |more| ==> more[i] == rows[last.length + i];
    QuietSuffixSameFacts(h, more);
    assert h + more == rows;
    WaitIsUnmet(w, h, last.calls);
  }

  lemma SafeForOf(code: Code, states: seq<State>, steps: seq<Step>, n: nat, key: RunKey)
    requires Behavior(code, states, steps) && n < |states|
    requires forall i :: 0 <= i < n && steps[i].Signal? && steps[i].key == key ==> SafeSignal(states[i], steps[i])
    ensures OpenWatchful(states[n], key, true)
  {
    assert forall i :: 0 <= i < n ==> SafeFor(states[i], steps[i], key) by { hide SafeSignal; }
    hide Behavior, SafeFor, OpenWatchful;
    WatchfulAlways(code, states, steps, n, key, true);
  }

  /** No stuck run. With any number of workers, crashes, reclaimed leases and late answers, an open run either has a
      workflow task, or is parked on something alive; provided every signal to it so far was safe. */
  lemma NoStuckRun(code: Code, states: seq<State>, steps: seq<Step>, n: nat, key: RunKey)
    requires SoundCode(code) && Behavior(code, states, steps) && n < |states|
    requires forall i :: 0 <= i < n && steps[i].Signal? && steps[i].key == key ==> SafeSignal(states[i], steps[i])
    requires key in states[n].db.executions && states[n].db.executions[key].status == Running
    ensures AnyWorkflowTask(states[n].db, key) || Parked(code, states[n].db, key)
  {
    SafeForOf(code, states, steps, n, key);
    hide SoundCode, Behavior, SafeSignal, Invariant, OpenWatchful, BooksBalance, Parked, AnyWorkflowTask, LostSignal,
      Behind;
    if Idle(states[n], key) {
      OnlyALostSignalStrands(code, states, steps, n, key);
      InvariantAlways(code, states, steps, n);
      NoSignalLost(code, states[n], key);
    }
  }

  /** Without that proviso, a run can be left behind only by a signal that has come while every workflow task of the
      run was being answered from an older view; and it is left behind exactly then. */
  lemma OnlyALostSignalStrands(code: Code, states: seq<State>, steps: seq<Step>, n: nat, key: RunKey)
    requires SoundCode(code) && Behavior(code, states, steps) && n < |states|
    requires Idle(states[n], key)
    ensures LostSignal(code, states[n], key) || Parked(code, states[n].db, key)
    ensures LostSignal(code, states[n], key) <==> Behind(code, states[n], key)
    ensures LostSignal(code, states[n], key) ==>
      exists i :: 0 <= i < n && steps[i].Signal? && steps[i].key == key && !SafeSignal(states[i], steps[i])
  {
    hide SoundCode, Invariant, OpenWatchful, BooksBalance, Parked, LostSignal, Behind, AnyWorkflowTask, SafeSignal,
      Enabled, Apply;
    InvariantAlways(code, states, steps, n);
    WatchfulAlways(code, states, steps, n, key, false);
    BooksAlwaysBalance(code, states, steps, n, key);
    IdleIsParkedOrMissedASignal(code, states[n], key);
    if forall i :: 0 <= i < n && steps[i].Signal? && steps[i].key == key ==> SafeSignal(states[i], steps[i]) {
      SafeForOf(code, states, steps, n, key);
      NoSignalLost(code, states[n], key);
    }
  }
}
