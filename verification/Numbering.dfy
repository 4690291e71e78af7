/** Event ids, and why reading a history ORDER BY event_id is as good as reading it in the order of insertion. */
module Numbering {
  import opened Types
  import opened HistoryFacts
  import opened Interpreter
  import opened Tables
  import opened Handlers
  import opened Structure
  import opened Engine
  import opened Steps
  import opened Effects

  /** An event's id is its position, or it repeats the id of the event before it and both are TimerFired. */
  predicate NumberedAt(rows: seq<Event>, i: nat)
    requires i < |rows|
  {
    || rows[i].eventId == i + 1
    || (i > 0 && rows[i].kind == TimerFired && rows[i - 1].kind == TimerFired && rows[i].eventId == rows[i - 1].eventId)
  }

  ghost predicate Numbered(rows: seq<Event>) {
    forall i: nat :: i < |rows| ==> NumberedAt(rows, i)
  }

  ghost predicate AllNumbered(db: Db) {
    forall key :: key in db.executions ==> Numbered(Rows(db, key))
  }

  /** Ids never exceed positions and never decrease; only TimerFired events fall behind or share an id. */
  lemma {:induction false} IdBounds(rows: seq<Event>, i: nat, j: nat)
    requires Numbered(rows) && i <= j < |rows|
    ensures 1 <= rows[i].eventId <= i + 1
    ensures rows[i].eventId < i + 1 ==> rows[i].kind == TimerFired
    ensures rows[i].eventId <= rows[j].eventId
    ensures i < j && rows[i].eventId == rows[j].eventId ==> rows[i].kind == TimerFired && rows[j].kind == TimerFired
    decreases j
  {
    assert NumberedAt(rows, i) && NumberedAt(rows, j);
    if i < j {
      IdBounds(rows, i, j - 1);
      IdBounds(rows, j - 1, j - 1);
    } else if i > 0 {
      IdBounds(rows, i - 1, i - 1);
    }
  }

  /** New events take the next ids in turn, or are TimerFired and all take the next id. */
  ghost predicate FreshIds(n: nat, more: seq<Event>) {
    || (forall i :: 0 <= i < |more| ==> more[i].eventId == n + 1 + i)
    || (forall i :: 0 <= i < |more| ==> more[i].eventId == n + 1 && more[i].kind == TimerFired)
  }

  lemma NumberedAppend(rows: seq<Event>, more: seq<Event>)
    requires Numbered(rows) && FreshIds(|rows|, more)
    ensures Numbered(rows + more)
  {
    var u := rows + more;
    forall i: nat | i < |u| ensures NumberedAt(u, i) {
      if i < |rows| {
        assert NumberedAt(rows, i);
      } else {
        assert u[i] == more[i - |rows|];
        assert i > |rows| ==> u[i - 1] == more[i - 1 - |rows|];
      }
    }
  }

  lemma NewIds(code: Code, s: State, step: Step, key: RunKey)
    requires Base(s) && Enabled(code, s, step)
    ensures FreshIds(|Rows(s.db, key)|, NewEvents(code, s, step, key))
  {
    hide *;
    if step.Scan? {
      ScanIds(code, s, step, key);
    } else if step.Start? {
      StartIds(code, s, step, key);
    } else if step.Respond? {
      RespondIds(code, s, step, key);
    } else {
      OneNewId(code, s, step, key);
    }
  }

  lemma ScanIds(code: Code, s: State, step: Step, key: RunKey)
    requires Enabled(code, s, step) && step.Scan?
    ensures FreshIds(|Rows(s.db, key)|, NewEvents(code, s, step, key))
  {
    hide Rows, DueBatch;
    if Owned(s.db, step.batch) {
      FiredEventsShape(s.db, step.batch, key);
    }
  }

  lemma StartIds(code: Code, s: State, step: Step, key: RunKey)
    requires Base(s) && Enabled(code, s, step) && step.Start?
    ensures FreshIds(|Rows(s.db, key)|, NewEvents(code, s, step, key))
  {
    hide Base, LatestIs;
  }

  lemma RespondIds(code: Code, s: State, step: Step, key: RunKey)
    requires Enabled(code, s, step) && step.Respond?
    ensures FreshIds(|Rows(s.db, key)|, NewEvents(code, s, step, key))
  {
    hide Rows, ResponseCommands, CanRespond;
  }

  lemma OneNewId(code: Code, s: State, step: Step, key: RunKey)
    requires Enabled(code, s, step) && !step.Scan? && !step.Start? && !step.Respond?
    ensures FreshIds(|Rows(s.db, key)|, NewEvents(code, s, step, key))
  {
    hide Rows, NextTask, OrderedBy;
  }

  lemma StepNumbering(code: Code, s: State, step: Step)
    requires Base(s) && AllNumbered(s.db) && Enabled(code, s, step)
    ensures AllNumbered(Apply(code, s, step).db)
  {
    var s' := Apply(code, s, step);
    forall key | key in s'.db.executions ensures Numbered(Rows(s'.db, key)) {
      assert Numbered(Rows(s.db, key)) by {
        if key !in s.db.executions {
          assert Rows(s.db, key) == [];
        }
      }
      hide Base, Apply, Enabled, NewEvents, Rows, AllNumbered;
      StepRows(code, s, step, key);
      NewIds(code, s, step, key);
      NumberedAppend(Rows(s.db, key), NewEvents(code, s, step, key));
    }
  }

  /** Every history of every reachable state is numbered so. */
  lemma {:induction false} EventNumbering(code: Code, states: seq<State>, steps: seq<Step>, i: nat)
    requires Behavior(code, states, steps) && i < |states|
    ensures AllNumbered(states[i].db)
  {
    if i > 0 {
      hide AllNumbered, Enabled, Apply;
      EventNumbering(code, states, steps, i - 1);
      BaseAlways(code, states, steps, i - 1);
      assert Enabled(code, states[i - 1], steps[i - 1]);
      StepNumbering(code, states[i - 1], steps[i - 1]);
    }
  }

  /** The step that appended the event at a position. */
  lemma {:induction false} AppendedAt(code: Code, states: seq<State>, steps: seq<Step>, n: nat, key: RunKey, i: nat)
    returns (j: nat)
    requires Behavior(code, states, steps) && n < |states| && i < |Rows(states[n].db, key)|
    ensures j < n && |Rows(states[j].db, key)| <= i < |Rows(states[j + 1].db, key)|
  {
    hide Enabled, Apply;
    assert Rows(states[0].db, key) == [];
    if i < |Rows(states[n - 1].db, key)| {
      j := AppendedAt(code, states, steps, n - 1, key, i);
    } else {
      j := n - 1;
    }
  }

  /** It is still the event that step appended. */
  lemma AppendedEvent(code: Code, states: seq<State>, steps: seq<Step>, j: nat, n: nat, key: RunKey, i: nat)
    requires Behavior(code, states, steps) && j < n < |states|
    requires |Rows(states[j].db, key)| <= i < |Rows(states[j + 1].db, key)|
    ensures i < |Rows(states[n].db, key)|
    ensures var before, added := |Rows(states[j].db, key)|, NewEvents(code, states[j], steps[j], key);
      i - before < |added| && Rows(states[n].db, key)[i] == added[i - before] && FreshIds(before, added)
  {
    hide Enabled, Apply, Rows, NewEvents, FreshIds;
    BaseAlways(code, states, steps, j);
    assert Enabled(code, states[j], steps[j]);
    StepRows(code, states[j], steps[j], key);
    NewIds(code, states[j], steps[j], key);
    EvolvesAlways(code, states, steps, j + 1, n);
    hide Behavior, Base;
    RowsGrow(states[j + 1].db, states[n].db, key);
  }

  /** Two events of a run that share an id are firings of one scan. */
  lemma SharedIdsAreOneScan(code: Code, states: seq<State>, steps: seq<Step>, n: nat, key: RunKey, i: nat, k: nat)
    returns (j: nat)
    requires Behavior(code, states, steps) && n < |states|
    requires i < k < |Rows(states[n].db, key)|
    requires Rows(states[n].db, key)[i].eventId == Rows(states[n].db, key)[k].eventId
    ensures j < n && steps[j].Scan? && |Rows(states[j].db, key)| <= i < k < |Rows(states[j + 1].db, key)|
    ensures Rows(states[n].db, key)[i].kind == Rows(states[n].db, key)[k].kind == TimerFired
  {
    var rows := Rows(states[n].db, key);
    RunIsNumbered(code, states, steps, n, key);
    IdBounds(rows, i, k);
    j := AppendedAt(code, states, steps, n, key, i);
    var l := AppendedAt(code, states, steps, n, key, k);
    AppendedEvent(code, states, steps, j, n, key, i);
    AppendedEvent(code, states, steps, l, n, key, k);
    assert Enabled(code, states[j], steps[j]);
    hide Enabled, Apply, Rows, NewEvents, Numbered;
    if l < j {
      LaterRows(code, states, steps, l + 1, j, key);
      assert false;
    }
    if j < l {
      LaterRows(code, states, steps, j + 1, l, key);
      assert false;
    }
    hide Behavior;
    if !steps[j].Scan? {
      OnlyScansFire(code, states[j], steps[j], key);
      assert false;
    }
  }

  lemma RunIsNumbered(code: Code, states: seq<State>, steps: seq<Step>, n: nat, key: RunKey)
    requires Behavior(code, states, steps) && n < |states|
    ensures Numbered(Rows(states[n].db, key))
  {
    hide Behavior, Numbered;
    EventNumbering(code, states, steps, n);
    BaseAlways(code, states, steps, n);
    if key !in states[n].db.executions {
      BaseShape(states[n]);
      assert Rows(states[n].db, key) == [];
      NoRowsNumbered();
    }
  }

  lemma NoRowsNumbered()
    ensures Numbered([])
  {
  }

  lemma LaterRows(code: Code, states: seq<State>, steps: seq<Step>, i: nat, j: nat, key: RunKey)
    requires Behavior(code, states, steps) && i <= j < |states|
    ensures |Rows(states[i].db, key)| <= |Rows(states[j].db, key)|
  {
    EvolvesAlways(code, states, steps, i, j);
    hide Behavior, Rows;
  }

  /* ---- reading in another order ---- */

  /** The history without its TimerFired events. */
  function Steady(h: seq<Event>): seq<Event> {
    if h == [] then []
    else Steady(h[..|h| - 1]) + if h[|h| - 1].kind == TimerFired then [] else [h[|h| - 1]]
  }

  lemma {:induction false} SteadyMembers(h: seq<Event>)
    ensures forall e :: multiset(Steady(h))[e] == if e.kind == TimerFired then 0 else multiset(h)[e]
  {
    if h != [] {
      SteadyMembers(h[..|h| - 1]);
      assert h == h[..|h| - 1] + [h[|h| - 1]];
    }
  }

  predicate Ascending(h: seq<Event>) {
    forall i, j :: 0 <= i < j < |h| ==> h[i].eventId <= h[j].eventId
  }

  predicate StrictlyAscending(h: seq<Event>) {
    forall i, j :: 0 <= i < j < |h| ==> h[i].eventId < h[j].eventId
  }

  lemma SteadyMember(h: seq<Event>, e: Event)
    requires e in Steady(h)
    ensures e in h && e.kind != TimerFired
  {
    SteadyMembers(h);
    assert multiset(Steady(h))[e] > 0;
  }

  lemma {:induction false} SteadyAscending(h: seq<Event>)
    requires Ascending(h)
    ensures Ascending(Steady(h))
  {
    if h != [] {
      var init := h[..|h| - 1];
      SteadyAscending(init);
      forall e | e in Steady(init) ensures e.eventId <= h[|h| - 1].eventId {
        SteadyMember(init, e);
      }
      hide Steady;
    }
  }

  lemma {:induction false} SteadyStrict(rows: seq<Event>)
    requires Numbered(rows)
    ensures StrictlyAscending(Steady(rows))
  {
    if rows != [] {
      var n := |rows| - 1;
      var init := rows[..n];
      assert forall i: nat :: i < n ==> NumberedAt(rows, i) ==> NumberedAt(init, i);
      SteadyStrict(init);
      if rows[n].kind != TimerFired {
        forall e | e in Steady(init) ensures e.eventId < rows[n].eventId {
          SteadyMember(init, e);
          var i :| 0 <= i < n && init[i] == e;
          IdBounds(rows, i, n);
        }
      }
      hide Steady, Numbered;
    }
  }

  lemma SameLast(a: seq<Event>, b: seq<Event>)
    requires a != [] && b != [] && StrictlyAscending(a) && Ascending(b) && multiset(a) == multiset(b)
    ensures a[|a| - 1] == b[|b| - 1]
  {
    var x, y := a[|a| - 1], b[|b| - 1];
    assert y in multiset(a) && x in multiset(b);
    var i :| 0 <= i < |a| && a[i] == y;
    var j :| 0 <= j < |b| && b[j] == x;
  }

  lemma WithoutLast(a: seq<Event>)
    requires a != []
    ensures multiset(a[..|a| - 1]) == multiset(a) - multiset{a[|a| - 1]}
  {
    assert a == a[..|a| - 1] + [a[|a| - 1]];
  }

  lemma {:induction false} SortedLists(a: seq<Event>, b: seq<Event>)
    requires StrictlyAscending(a) && Ascending(b) && multiset(a) == multiset(b)
    ensures a == b
  {
    assert |multiset(a)| == |a| && |multiset(b)| == |b|;
    if a != [] {
      SameLast(a, b);
      WithoutLast(a);
      WithoutLast(b);
      SortedLists(a[..|a| - 1], b[..|b| - 1]);
      hide StrictlyAscending, Ascending;
      assert a == a[..|a| - 1] + [a[|a| - 1]];
      assert b == b[..|b| - 1] + [b[|b| - 1]];
    }
  }

  lemma {:induction false} SteadyOutcome(h: seq<Event>, f: Future)
    ensures OutcomeOf(Steady(h), f) == OutcomeOf(h, f)
  {
    if h != [] {
      var init, last := h[..|h| - 1], h[|h| - 1];
      SteadyOutcome(init, f);
      assert h == init + [last] && Steady(init) + [] == Steady(init);
      assert Steady(h) == Steady(init) + if last.kind == TimerFired then [] else [last];
      hide OutcomeOf, Steady;
      OutcomeSnoc(init, last, f);
      OutcomeSnoc(Steady(init), last, f);
    }
  }

  lemma {:induction false} SteadySignals(h: seq<Event>, name: string)
    ensures Signals(Steady(h), name) == Signals(h, name)
  {
    if h != [] {
      var init, last := h[..|h| - 1], h[|h| - 1];
      SteadySignals(init, name);
      assert h == init + [last] && Steady(init) + [] == Steady(init);
      assert Steady(h) == Steady(init) + if last.kind == TimerFired then [] else [last];
      assert last.kind == TimerFired ==> SignalIn(last, name) == [];
      assert Signals(init, name) + [] == Signals(init, name);
      hide Signals, Steady, SignalIn;
      SignalsSnoc(init, last, name);
      SignalsSnoc(Steady(init), last, name);
    }
  }

  /** Whatever order ties come back in, a view of a numbered history holds the same facts and the same requests. */
  lemma AnyOrderWillDo(view: seq<Event>, rows: seq<Event>)
    requires Numbered(rows) && OrderedBy(view, rows)
    ensures SameFacts(view, rows) && SameRequests(view, rows)
    ensures Steady(view) == Steady(rows)
  {
    SameSteady(view, rows);
    forall e ensures e in view <==> e in rows {
      assert e in multiset(view) <==> e in multiset(rows);
    }
    hide Steady, Numbered, OrderedBy;
    forall f ensures OutcomeOf(view, f) == OutcomeOf(rows, f) {
      SteadyOutcome(view, f);
      SteadyOutcome(rows, f);
    }
    forall name ensures Signals(view, name) == Signals(rows, name) {
      SteadySignals(view, name);
      SteadySignals(rows, name);
    }
    SameMembersSameRequests(view, rows);
  }

  lemma SameSteady(view: seq<Event>, rows: seq<Event>)
    requires Numbered(rows) && OrderedBy(view, rows)
    ensures Steady(view) == Steady(rows)
  {
    SteadyStrict(rows);
    SteadyAscending(view);
    SteadyMembers(rows);
    SteadyMembers(view);
    assert multiset(Steady(rows)) == multiset(Steady(view));
    hide Steady, Numbered, StrictlyAscending, Ascending;
    SortedLists(Steady(rows), Steady(view));
  }

  lemma SameMembersSameRequests(view: seq<Event>, rows: seq<Event>)
    requires forall e :: e in view <==> e in rows
    ensures SameRequests(view, rows)
    ensures forall i :: Fired(view, i) <==> Fired(rows, i)
  {
    MembersRecord(view, rows);
    MembersRecord(rows, view);
  }

  lemma MembersRecord(a: seq<Event>, b: seq<Event>)
    requires forall e :: e in a ==> e in b
    ensures forall f :: Scheduled(a, f) ==> Scheduled(b, f)
    ensures forall i :: Started(a, i) ==> Started(b, i)
    ensures forall i :: Fired(a, i) ==> Fired(b, i)
  {
    forall f | Scheduled(a, f) ensures Scheduled(b, f) {
      var i :| 0 <= i < |a| && IsScheduled(a[i], f);
      assert a[i] in b;
    }
    forall k | Started(a, k) ensures Started(b, k) {
      var i :| 0 <= i < |a| && IsStarted(a[i], k);
      assert a[i] in b;
    }
    forall k | Fired(a, k) ensures Fired(b, k) {
      var i :| 0 <= i < |a| && IsFired(a[i], k);
      assert a[i] in b;
    }
  }
}
