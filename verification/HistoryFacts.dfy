/** What a workflow can learn from a history: the questions sdk/workflow asks of it. */
module HistoryFacts {
  import opened Types

  /** The handle ExecuteActivity returns: the activity's name and the number of the call. */
  datatype Future = Future(name: string, index: int)

  datatype Outcome = Succeeded(data: Bytes) | Errored(message: Bytes)

  predicate IsScheduled(e: Event, f: Future) {
    e.kind == ActivityScheduled && e.activityName == f.name && e.activityIndex == f.index
  }

  predicate Scheduled(h: seq<Event>, f: Future) {
    exists i :: 0 <= i < |h| && IsScheduled(h[i], f)
  }

  predicate IsStarted(e: Event, index: int) {
    e.kind == TimerStarted && e.timerIndex == index
  }

  predicate Started(h: seq<Event>, index: int) {
    exists i :: 0 <= i < |h| && IsStarted(h[i], index)
  }

  predicate IsFired(e: Event, index: int) {
    e.kind == TimerFired && e.timerIndex == index
  }

  predicate Fired(h: seq<Event>, index: int) {
    exists i :: 0 <= i < |h| && IsFired(h[i], index)
  }

  /** What one event says about a future. */
  function OutcomeIn(e: Event, f: Future): Option<Outcome> {
    if e.activityName != f.name || e.activityIndex != f.index then None
    else if e.kind == ActivityCompleted then Some(Succeeded(e.data))
    else if e.kind == ActivityFailed then Some(Errored(e.data))
    else None
  }

  /** The first outcome the history holds for a future. */
  function OutcomeOf(h: seq<Event>, f: Future): Option<Outcome> {
    if h == [] then None else
      var earlier := OutcomeOf(h[..|h| - 1], f);
      if earlier.Some? then earlier else OutcomeIn(h[|h| - 1], f)
  }

  function SignalIn(e: Event, name: string): seq<Bytes> {
    if e.kind == SignalReceived && e.signalName == name then [e.data] else []
  }

  /** The payloads of the signals of one name, in order of arrival. */
  function Signals(h: seq<Event>, name: string): seq<Bytes> {
    if h == [] then [] else Signals(h[..|h| - 1], name) + SignalIn(h[|h| - 1], name)
  }

  lemma OutcomeSnoc(h: seq<Event>, e: Event, f: Future)
    ensures OutcomeOf(h + [e], f) == if OutcomeOf(h, f).Some? then OutcomeOf(h, f) else OutcomeIn(e, f)
  {
    assert (h + [e])[..|h|] == h;
  }

  lemma SignalsSnoc(h: seq<Event>, e: Event, name: string)
    ensures Signals(h + [e], name) == Signals(h, name) + SignalIn(e, name)
  {
    assert (h + [e])[..|h|] == h;
  }

  /** Appending a list is appending its last element last. */
  lemma LastOfAppend<T>(a: seq<T>, b: seq<T>)
    requires b != []
    ensures var init, last := b[..|b| - 1], b[|b| - 1]; b == init + [last] && a + b == (a + init) + [last]
  {
  }

  lemma Regroup<T>(a: seq<T>, b: seq<T>, c: seq<T>)
    ensures (a + b) + c == a + (b + c)
  {
  }

  lemma {:induction false} OutcomeAppend(h: seq<Event>, t: seq<Event>, f: Future)
    ensures OutcomeOf(h + t, f) == if OutcomeOf(h, f).Some? then OutcomeOf(h, f) else OutcomeOf(t, f)
  {
    if t == [] {
      assert h + t == h;
    } else {
      OutcomeAppend(h, t[..|t| - 1], f);
      assert (h + t)[..|h + t| - 1] == h + t[..|t| - 1];
    }
  }

  lemma {:induction false} SignalsAppend(h: seq<Event>, t: seq<Event>, name: string)
    ensures Signals(h + t, name) == Signals(h, name) + Signals(t, name)
  {
    assert Signals([], name) == [];
    hide Signals;
    if t == [] {
      assert h + t == h;
    } else {
      var t', e := t[..|t| - 1], t[|t| - 1];
      LastOfAppend(h, t);
      SignalsAppend(h, t', name);
      SignalsSnoc(h + t', e, name);
      SignalsSnoc(t', e, name);
      Regroup(Signals(h, name), Signals(t', name), SignalIn(e, name));
    }
  }

  /** An outcome in a history comes from an event about that future. */
  lemma {:induction false} OutcomeWitness(h: seq<Event>, f: Future) returns (i: nat)
    requires OutcomeOf(h, f).Some?
    ensures i < |h| && OutcomeIn(h[i], f).Some?
  {
    if OutcomeOf(h[..|h| - 1], f).Some? {
      i := OutcomeWitness(h[..|h| - 1], f);
    } else {
      i := |h| - 1;
    }
  }

  lemma {:induction false} OutcomePresent(h: seq<Event>, i: nat, f: Future)
    requires i < |h| && OutcomeIn(h[i], f).Some?
    ensures OutcomeOf(h, f).Some?
  {
    if i < |h| - 1 {
      OutcomePresent(h[..|h| - 1], i, f);
    }
  }

  /** Every answer h gives, h' gives too. */
  ghost predicate FactsGrow(h: seq<Event>, h': seq<Event>) {
    && (forall f :: OutcomeOf(h, f).Some? ==> OutcomeOf(h', f) == OutcomeOf(h, f))
    && (forall i :: Fired(h, i) ==> Fired(h', i))
    && (forall name :: Signals(h, name) <= Signals(h', name))
  }

  /** h and h' answer every question alike. */
  ghost predicate SameFacts(h: seq<Event>, h': seq<Event>) {
    && (forall f :: OutcomeOf(h, f) == OutcomeOf(h', f))
    && (forall i :: Fired(h, i) <==> Fired(h', i))
    && (forall name :: Signals(h, name) == Signals(h', name))
  }

  /** h and h' record the same scheduled activities and timers. */
  ghost predicate SameRequests(h: seq<Event>, h': seq<Event>) {
    && (forall f :: Scheduled(h, f) <==> Scheduled(h', f))
    && (forall i :: Started(h, i) <==> Started(h', i))
  }

  lemma PrefixFactsGrow(h: seq<Event>, h': seq<Event>)
    requires h <= h'
    ensures FactsGrow(h, h')
  {
    assert h' == h + h'[|h|..];
    forall f ensures OutcomeOf(h, f).Some? ==> OutcomeOf(h', f) == OutcomeOf(h, f) {
      OutcomeAppend(h, h'[|h|..], f);
    }
    forall name ensures Signals(h, name) <= Signals(h', name) {
      SignalsAppend(h, h'[|h|..], name);
    }
    forall i | Fired(h, i) ensures Fired(h', i) {
      var j :| 0 <= j < |h| && IsFired(h[j], i);
      assert h'[j] == h[j];
    }
  }

  /** Events that make a suspended workflow worth replaying. */
  predicate Wakes(k: EventType) {
    k == WorkflowStarted || k == ActivityCompleted || k == ActivityFailed || k == TimerFired || k == SignalReceived
  }

  predicate Terminal(k: EventType) {
    k == WorkflowCompleted || k == WorkflowFailed
  }

  /** Appending events that wake nobody changes no fact. */
  lemma {:induction false} QuietSuffixSameFacts(h: seq<Event>, t: seq<Event>)
    requires forall i :: 0 <= i < |t| ==> !Wakes(t[i].kind)
    ensures SameFacts(h, h + t)
  {
    forall f ensures OutcomeOf(h + t, f) == OutcomeOf(h, f) {
      OutcomeAppend(h, t, f);
      if OutcomeOf(t, f).Some? {
        var i := OutcomeWitness(t, f);
      }
    }
    forall name ensures Signals(h + t, name) == Signals(h, name) {
      SignalsAppend(h, t, name);
      QuietSignals(t, name);
    }
    forall i ensures Fired(h + t, i) <==> Fired(h, i) {
      FiredAppend(h, t, i);
    }
  }

  lemma {:induction false} QuietSignals(t: seq<Event>, name: string)
    requires forall i :: 0 <= i < |t| ==> t[i].kind != SignalReceived
    ensures Signals(t, name) == []
  {
    if t != [] {
      QuietSignals(t[..|t| - 1], name);
    }
  }

  lemma FiredAppend(h: seq<Event>, t: seq<Event>, i: int)
    ensures Fired(h + t, i) <==> Fired(h, i) || Fired(t, i)
  {
    var u := h + t;
    if Fired(h, i) {
      var j :| 0 <= j < |h| && IsFired(h[j], i);
      assert IsFired(u[j], i);
    }
    if Fired(t, i) {
      var j :| 0 <= j < |t| && IsFired(t[j], i);
      assert IsFired(u[|h| + j], i);
    }
    if Fired(u, i) {
      var j :| 0 <= j < |u| && IsFired(u[j], i);
      assert if j < |h| then IsFired(h[j], i) else IsFired(t[j - |h|], i);
    }
  }
}
