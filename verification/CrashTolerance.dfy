/** Workers may crash, be slow, or answer twice: replay tells every one of them the same story. */
module CrashTolerance {
  import opened Types
  import opened HistoryFacts
  import opened Interpreter
  import opened ReplayLaws
  import opened RequestLaws
  import opened Tables
  import opened Structure
  import opened Engine
  import opened Steps
  import opened Effects
  import opened Numbering
  import opened AcceptedAnswers
  import opened NoStuck
  import opened ExactlyOnce

  /* ---- answering twice ---- */

  /** The commands of a suspended replay set things going, and that alone wakes nobody. */
  lemma SuspendedCommandsAreQuiet(h: seq<Event>, t: Trace, queue: string, base: int)
    requires t.stop.Some? && t.stop.value.Waiting?
    ensures forall i :: 0 <= i < |CommandEvents(Commands(h, t, queue), base)| ==>
      !Wakes(CommandEvents(Commands(h, t, queue), base)[i].kind)
  {
    hide Requests, Unrecorded;
  }

  /** Once the commands of a suspended replay are carried out, replay sends no commands, and is suspended at the same
      point with the same observations. */
  lemma CommandsAreIdempotent(w: Workflow, h: seq<Event>, n: nat, queue: string, base: int)
    requires Replay(w, h, n).stop.Some? && Replay(w, h, n).stop.value.Waiting?
    ensures var h' := h + CommandEvents(Commands(h, Replay(w, h, n), queue), base);
      Replay(w, h', n) == Replay(w, h, n) && forall q :: Commands(h', Replay(w, h', n), q) == []
  {
    var t := Replay(w, h, n);
    var events := CommandEvents(Commands(h, t, queue), base);
    SuspendedCommandsAreQuiet(h, t, queue, base);
    hide Replay, Requests, Unrecorded, CommandEvents, Recorded;
    QuietSuffixSameFacts(h, events);
    SameFactsSameReplay(w, h, h + events, n);
    assert h + [] == h;
    forall r | r in Requests(t) ensures Recorded(h + events, r) {
      AnswerRecordsAll(h, [], t, queue, base, r);
    }
    UnrecordedEmpty(h + events, Requests(t));
    hide SameFacts;
    NoCommandsLeft(h + events, t);
  }

  lemma NoCommandsLeft(h: seq<Event>, t: Trace)
    requires Unrecorded(h, Requests(t)) == [] && t.stop.Some? && t.stop.value.Waiting?
    ensures forall q :: Commands(h, t, q) == []
  {
    hide Requests, Unrecorded;
  }

  /** The same in the engine: after an accepted answer from an up-to-date view, whoever replays the run next from the
      tables as they are then sends nothing and is suspended where the answer was. */
  lemma AnsweredIsQuiet(code: Code, s: State, step: Step) returns (w: Workflow)
    requires Base(s) && AllNumbered(s.db) && Enabled(code, s, step) && step.Respond? && Accepts(s, s.grants[step.grant])
    requires |s.grants[step.grant].view| == |Rows(s.db, s.grants[step.grant].key)|
    ensures var g := s.grants[step.grant];
      var before, after := Rows(s.db, g.key), Rows(Apply(code, s, step).db, g.key);
      && FunctionFor(code, g.workflowType, g.view) == Some(w)
      && Replay(w, g.view, step.calls).stop.Some?
      && (Replay(w, g.view, step.calls).stop.value.Waiting? ==>
            Replay(w, after, step.calls) == Replay(w, g.view, step.calls)
            && forall q :: Commands(after, Replay(w, after, step.calls), q) == [])
  {
    var g := s.grants[step.grant];
    var rows := Rows(s.db, g.key);
    assert GrantOk(s.db, g) && Numbered(rows);
    BaseShape(s);
    ViewedFunction(s, code, g);
    hide Base, Apply, Enabled, Rows, AllNumbered, Shape, GrantOk, Commands, Replay, FunctionFor, Fresh, CommandEvents,
      OrderedBy;
    w := AnswerRows(code, s, step);
    assert rows[..|g.view|] == rows;
    ViewReplay(w, g.view, rows, step.calls, g.queue);
    if Replay(w, rows, step.calls).stop.value.Waiting? {
      CommandsAreIdempotent(w, rows, step.calls, g.queue, |rows| + 1);
    }
  }

  /** A worker finds for its view the function that the run has. */
  lemma ViewedFunction(s: State, code: Code, g: Grant)
    requires Base(s) && GrantOk(s.db, g) && g.Viewed?
    ensures FunctionFor(code, g.workflowType, g.view) == Function(code, s.db, g.key)
  {
    var rows := Rows(s.db, g.key);
    BaseShape(s);
    assert RowsOk(rows);
    hide Base, Shape, Rows, InputOf;
    PrefixOk(rows, |g.view|);
    ViewInput(g.view, rows[..|g.view|]);
  }

  /* ---- crashing and polling again ---- */

  /** Whatever two workers see of one run at different times, crashed or not: the one with the longer history repeats
      all that the other one observed and asks for all it asked for, and then may go on. */
  lemma ViewsAgree(code: Code, states: seq<State>, steps: seq<Step>, i: nat, j: nat, g: nat, h: nat, w: Workflow,
                   n: nat)
    requires Behavior(code, states, steps) && i <= j < |states|
    requires g in states[i].grants && states[i].grants[g].Viewed?
    requires h in states[j].grants && states[j].grants[h].Viewed?
    requires states[i].grants[g].key == states[j].grants[h].key
    requires FunctionFor(code, states[i].grants[g].workflowType, states[i].grants[g].view) == Some(w)
    ensures var a, b := states[i].grants[g], states[j].grants[h];
      && FunctionFor(code, b.workflowType, b.view) == Some(w)
      && (|a.view| <= |b.view| ==>
            Replay(w, a.view, n).obs <= Replay(w, b.view, n).obs
            && Requests(Replay(w, a.view, n)) <= Requests(Replay(w, b.view, n)))
      && (|b.view| <= |a.view| ==>
            Replay(w, b.view, n).obs <= Replay(w, a.view, n).obs
            && Requests(Replay(w, b.view, n)) <= Requests(Replay(w, a.view, n)))
  {
    var a, b := states[i].grants[g], states[j].grants[h];
    hide Enabled, Apply, Rows, Numbered;
    BaseAlways(code, states, steps, i);
    BaseAlways(code, states, steps, j);
    EvolvesAlways(code, states, steps, i, j);
    EventNumbering(code, states, steps, j);
    hide Behavior;
    assert GrantOk(states[i].db, a) && GrantOk(states[j].db, b);
    GrantSurvives(states[i].db, states[j].db, a);
    ViewedFunction(states[j], code, a);
    assert Numbered(Rows(states[j].db, b.key));
    ViewedFunction(states[j], code, b);
    hide Base, Evolves, GrantOk, AllNumbered, Replay, Requests, FunctionFor, Function, OrderedBy;
    if |a.view| <= |b.view| {
      TwoViews(w, states[j].db, a, b, n);
    }
    if |b.view| <= |a.view| {
      TwoViews(w, states[j].db, b, a, n);
    }
  }

  lemma TwoViews(w: Workflow, db: Db, a: Grant, b: Grant, n: nat)
    requires a.Viewed? && b.Viewed? && a.key == b.key && GrantOk(db, a) && GrantOk(db, b)
    requires Numbered(Rows(db, a.key)) && |a.view| <= |b.view|
    ensures Replay(w, a.view, n).obs <= Replay(w, b.view, n).obs
    ensures Requests(Replay(w, a.view, n)) <= Requests(Replay(w, b.view, n))
  {
    var rows := Rows(db, a.key);
    assert OrderedBy(a.view, rows[..|a.view|]) && OrderedBy(b.view, rows[..|b.view|]);
    hide GrantOk, Rows, OrderedBy, Replay, Requests;
    NumberedPrefix(rows, |a.view|);
    NumberedPrefix(rows, |b.view|);
    ViewReplay(w, a.view, rows[..|a.view|], n, "");
    ViewReplay(w, b.view, rows[..|b.view|], n, "");
    PrefixDeterminism(w, rows[..|a.view|], rows[..|b.view|], n);
  }

  lemma NumberedPrefix(rows: seq<Event>, n: nat)
    requires Numbered(rows) && n <= |rows|
    ensures Numbered(rows[..n])
  {
    forall i: nat | i < n ensures NumberedAt(rows[..n], i) {
      assert NumberedAt(rows, i);
    }
  }
}
