/** Activities and timers are scheduled once each, in the order the workflow calls for them; exactly as long as no
    answer is accepted from a view that others have overtaken. */
module ExactlyOnce {
  import opened Types
  import opened Counting
  import opened HistoryFacts
  import opened Interpreter
  import opened ReplayLaws
  import opened RequestLaws
  import opened Tables
  import opened Handlers
  import opened Structure
  import opened Engine
  import opened Steps
  import opened Effects
  import opened Terminal
  import opened Numbering
  import opened Conservation
  import opened AcceptedAnswers
  import opened NoStuck
  import opened Marks

  /* ---- one answer ---- */

  /** The events of an answer that was computed from the first n events of the history. */
  function Sent(w: Workflow, rows: seq<Event>, n: nat, calls: nat, queue: string): seq<Event>
    requires n <= |rows|
  {
    CommandEvents(Commands(rows[..n], Replay(w, rows[..n], calls), queue), |rows| + 1)
  }

  function After(w: Workflow, rows: seq<Event>, n: nat, calls: nat, queue: string): seq<Event>
    requires n <= |rows|
  {
    rows + Sent(w, rows, n, calls, queue)
  }

  /** The answer schedules nothing, or nothing has been scheduled since its view was taken. */
  predicate Fresh(w: Workflow, rows: seq<Event>, n: nat, calls: nat)
    requires n <= |rows|
  {
    Unrecorded(rows[..n], Requests(Replay(w, rows[..n], calls))) == [] || MarksOf(rows[n..]) == []
  }

  lemma EndingsEnd(t: Trace)
    ensures forall k :: 0 <= k < |Ending(t)| ==> IsEnding(Ending(t)[k])
  {
  }

  lemma PrefixOnce(w: Workflow, rows: seq<Event>, n: nat)
    requires Once(w, rows) && n <= |rows|
    ensures OnceAt(w, rows[..n])
  {
  }

  /** The record after part of the answer's events. */
  lemma AnswerMarks(w: Workflow, rows: seq<Event>, n: nat, calls: nat, queue: string, i: nat)
    requires n <= |rows| && i <= |Sent(w, rows, n, calls, queue)|
    ensures var rs := Unrecorded(rows[..n], Requests(Replay(w, rows[..n], calls)));
      MarksOf(rows + Sent(w, rows, n, calls, queue)[..i])
        == MarksOf(rows) + RequestMarks(rs)[..if i <= |rs| then i else |rs|]
  {
    var h := rows[..n];
    var t := Replay(w, h, calls);
    var rs := Unrecorded(h, Requests(t));
    hide MarksOf, Replay, Requests, Unrecorded, Ending;
    EndingsEnd(t);
    CommandMarks(rs, queue, Ending(t), |rows| + 1, i);
    MarksAppend(rows, CommandEvents(Commands(h, t, queue), |rows| + 1)[..i]);
  }

  lemma FreshKeepsOnceAt(w: Workflow, rows: seq<Event>, n: nat, calls: nat, queue: string, i: nat)
    requires n <= |rows| && Once(w, rows) && StartedFirst(rows[..n]) && Replay(w, rows[..n], calls).stop.Some?
    requires MarksOf(rows[n..]) == [] && i <= |Sent(w, rows, n, calls, queue)|
    ensures OnceAt(w, rows + Sent(w, rows, n, calls, queue)[..i])
  {
    var h := rows[..n];
    var t := Replay(w, h, calls);
    var sent := Unrecorded(h, Requests(t));
    var u := rows + Sent(w, rows, n, calls, queue)[..i];
    hide *;
    PrefixOfMore(rows, n, Sent(w, rows, n, calls, queue)[..i]);
    AnswerMarks(w, rows, n, calls, queue, i);
    PrefixOnce(w, rows, n);
    SendsTheRest(w, h, calls);
    MarksBefore(rows, n);
    RestIsWithin(Requests(t), sent, MarksOf(h), MarksOf(rows), MarksOf(u), if i <= |sent| then i else |sent|);
    OnceByMarks(w, h, u, calls);
  }

  lemma PrefixOfMore(rows: seq<Event>, n: nat, more: seq<Event>)
    requires n <= |rows|
    ensures rows[..n] <= rows + more
  {
  }

  /** The marks of the rest of some requests continue the marks of the others. */
  lemma RestIsWithin(rs: seq<Request>, sent: seq<Request>, before: seq<Mark>, marks: seq<Mark>, after: seq<Mark>,
                     i: nat)
    requires before <= RequestMarks(rs) && sent == rs[|before|..] && marks == before + []
    requires i <= |sent| && after == marks + RequestMarks(sent)[..i]
    ensures after <= RequestMarks(rs)
  {
  }

  /** The first of the rest, after something else has been put on record, is on record for the second time. */
  lemma RestRepeats(rs: seq<Request>, sent: seq<Request>, before: seq<Mark>, since: seq<Mark>, marks: seq<Mark>,
                    after: seq<Mark>)
    requires before <= RequestMarks(rs) && sent == rs[|before|..] && sent != []
    requires since != [] && marks == before + since && after == marks + RequestMarks(sent)[..1]
    ensures |before| < |marks| < |after| && |before| < |rs| && after[|marks|] == RequestMark(rs[|before|])
  {
  }

  lemma MarksBefore(rows: seq<Event>, n: nat)
    requires n <= |rows|
    ensures MarksOf(rows) == MarksOf(rows[..n]) + MarksOf(rows[n..])
  {
    hide MarksOf;
    MarksAppend(rows[..n], rows[n..]);
    assert rows[..n] + rows[n..] == rows;
  }

  lemma OnceByMarks(w: Workflow, h: seq<Event>, u: seq<Event>, calls: nat)
    requires h <= u && MarksOf(u) <= RequestMarks(Requests(Replay(w, h, calls)))
    ensures OnceAt(w, u)
  {
    hide MarksOf, Requests, Replay;
    PrefixDeterminism(w, h, u, calls);
    PrefixMarks(Requests(Replay(w, h, calls)), Requests(Replay(w, u, calls)));
  }

  lemma FreshKeepsOnce(w: Workflow, rows: seq<Event>, n: nat, calls: nat, queue: string)
    requires n <= |rows| && Once(w, rows) && StartedFirst(rows[..n]) && Replay(w, rows[..n], calls).stop.Some?
    requires Fresh(w, rows, n, calls)
    ensures Once(w, After(w, rows, n, calls, queue))
  {
    hide *;
    if MarksOf(rows[n..]) == [] {
      UpToDateKeepsOnce(w, rows, n, calls, queue);
    } else {
      NothingUnrecorded(w, rows, n, calls);
      NothingSentKeepsOnce(w, rows, n, calls, queue);
    }
  }

  lemma NothingUnrecorded(w: Workflow, rows: seq<Event>, n: nat, calls: nat)
    requires n <= |rows| && Fresh(w, rows, n, calls) && MarksOf(rows[n..]) != []
    ensures Unrecorded(rows[..n], Requests(Replay(w, rows[..n], calls))) == []
  {
    hide MarksOf, Unrecorded, Requests, Replay;
  }

  lemma UpToDateKeepsOnce(w: Workflow, rows: seq<Event>, n: nat, calls: nat, queue: string)
    requires n <= |rows| && Once(w, rows) && StartedFirst(rows[..n]) && Replay(w, rows[..n], calls).stop.Some?
    requires MarksOf(rows[n..]) == []
    ensures Once(w, After(w, rows, n, calls, queue))
  {
    var events := Sent(w, rows, n, calls, queue);
    hide MarksOf, Requests, Replay, Once, StartedFirst, OnceAt, Sent;
    forall i | 0 <= i <= |events| ensures OnceAt(w, rows + events[..i]) {
      FreshKeepsOnceAt(w, rows, n, calls, queue, i);
    }
    OnceExtends(w, rows, events);
  }

  lemma NothingSentKeepsOnce(w: Workflow, rows: seq<Event>, n: nat, calls: nat, queue: string)
    requires n <= |rows| && Once(w, rows)
    requires Unrecorded(rows[..n], Requests(Replay(w, rows[..n], calls))) == []
    ensures Once(w, After(w, rows, n, calls, queue))
  {
    var t := Replay(w, rows[..n], calls);
    var events := Sent(w, rows, n, calls, queue);
    assert events == CommandEvents(CommandsOf([], queue) + Ending(t), |rows| + 1);
    hide Replay, Requests, Unrecorded, Sent, CommandEvents, CommandsOf, Ending, MarksOf, Once;
    EndingsEnd(t);
    NoCommandMarks(queue, Ending(t), |rows| + 1);
    QuietKeepsOnce(w, rows, events);
  }

  lemma NoCommandMarks(queue: string, ending: seq<Command>, base: int)
    requires forall k :: 0 <= k < |ending| ==> IsEnding(ending[k])
    ensures MarksOf(CommandEvents(CommandsOf([], queue) + ending, base)) == []
  {
    var events := CommandEvents(CommandsOf([], queue) + ending, base);
    assert |events| == |ending| && events[..|ending|] == events;
    hide MarksOf;
    CommandMarks([], queue, ending, base, |ending|);
  }

  /** The first thing a stale answer schedules has been scheduled already. */
  lemma StaleBreaksOnce(w: Workflow, rows: seq<Event>, n: nat, calls: nat, queue: string)
    requires n <= |rows| && Once(w, rows) && StartedFirst(rows[..n]) && Replay(w, rows[..n], calls).stop.Some?
    requires !Fresh(w, rows, n, calls)
    ensures !Once(w, After(w, rows, n, calls, queue))
  {
    var h := rows[..n];
    var t := Replay(w, h, calls);
    var sent := Unrecorded(h, Requests(t));
    assert sent != [] && MarksOf(rows[n..]) != [];
    hide *;
    AnswerLength(w, rows, n, calls, queue);
    var u := rows + Sent(w, rows, n, calls, queue)[..1];
    PrefixOfMore(rows, n, Sent(w, rows, n, calls, queue)[..1]);
    AnswerMarks(w, rows, n, calls, queue, 1);
    PrefixOnce(w, rows, n);
    SendsTheRest(w, h, calls);
    MarksBefore(rows, n);
    RestRepeats(Requests(t), sent, MarksOf(h), MarksOf(rows[n..]), MarksOf(rows), MarksOf(u));
    NotTwice(w, h, u, calls, |MarksOf(h)|, |MarksOf(rows)|);
    NotOnceSoon(w, rows, n, calls, queue);
  }

  lemma AnswerLength(w: Workflow, rows: seq<Event>, n: nat, calls: nat, queue: string)
    requires n <= |rows| && Unrecorded(rows[..n], Requests(Replay(w, rows[..n], calls))) != []
    ensures |Sent(w, rows, n, calls, queue)| > 0
  {
    hide Unrecorded, Requests, Replay, Ending;
  }

  lemma NotOnceSoon(w: Workflow, rows: seq<Event>, n: nat, calls: nat, queue: string)
    requires n <= |rows| && |Sent(w, rows, n, calls, queue)| > 0
    requires !OnceAt(w, rows + Sent(w, rows, n, calls, queue)[..1])
    ensures !Once(w, After(w, rows, n, calls, queue))
  {
    hide Sent, OnceAt;
    assert After(w, rows, n, calls, queue)[..|rows| + 1] == rows + Sent(w, rows, n, calls, queue)[..1];
  }

  /** A record that repeats at p what a shorter history already calls for at k is not as it should be. */
  lemma NotTwice(w: Workflow, h: seq<Event>, u: seq<Event>, calls: nat, k: nat, p: nat)
    requires h <= u && k < p < |MarksOf(u)| && k < |Requests(Replay(w, h, calls))|
    requires MarksOf(u)[p] == RequestMark(Requests(Replay(w, h, calls))[k])
    ensures !OnceAt(w, u)
  {
    hide MarksOf, Requests, Run;
    forall m: nat ensures !(MarksOf(u) <= RequestMarks(Requests(Replay(w, u, m)))) {
      var q := Requests(Replay(w, u, m));
      RequestsAreNumbered(w, FromHistory(u), m);
      if p < |q| {
        Comparable(w, h, u, calls, m, k);
        RequestsAreDistinct(q, k, p);
      }
    }
  }

  /** An answer keeps the record as it should be if and only if it is fresh. */
  lemma AnswerIsFresh(w: Workflow, rows: seq<Event>, n: nat, calls: nat, queue: string)
    requires n <= |rows| && Once(w, rows) && StartedFirst(rows[..n]) && Replay(w, rows[..n], calls).stop.Some?
    ensures Once(w, After(w, rows, n, calls, queue)) <==> Fresh(w, rows, n, calls)
  {
    hide *;
    if Fresh(w, rows, n, calls) {
      FreshKeepsOnce(w, rows, n, calls, queue);
    } else {
      StaleBreaksOnce(w, rows, n, calls, queue);
    }
  }

  /* ---- the engine ---- */

  /** The record of every run is as it should be. */
  ghost predicate OnceFor(code: Code, db: Db, key: RunKey)
    requires key in db.executions
  {
    match Function(code, db, key)
    case None => MarksOf(Rows(db, key)) == []
    case Some(w) => Once(w, Rows(db, key))
  }

  ghost predicate AllOnce(code: Code, db: Db) {
    forall key :: key in db.executions ==> OnceFor(code, db, key)
  }

  /** An accepted answer schedules nothing, or nothing has been scheduled in the run since its view was taken. */
  ghost predicate FreshAnswer(code: Code, s: State, step: Step) {
    step.Respond? && step.grant in s.grants && s.grants[step.grant].Viewed? && Accepts(s, s.grants[step.grant]) ==>
      var g := s.grants[step.grant];
      var w := Function(code, s.db, g.key);
      |g.view| <= |Rows(s.db, g.key)| && w.Some? && Fresh(w.value, Rows(s.db, g.key), |g.view|, step.calls)
  }

  /** A timer fires only from a row, and rows come with TimerStarted events. */
  ghost predicate AllStartedFirst(db: Db) {
    forall key, k :: key in db.executions && 0 <= k <= |Rows(db, key)| ==> StartedFirst(Rows(db, key)[..k])
  }

  lemma FiringWasStarted(db: Db, batch: seq<int>, i: nat)
    requires i < |batch| && batch[i] in db.timers && !db.timers[batch[i]].fired
    requires BooksBalance(db, db.timers[batch[i]].key)
    ensures Started(Rows(db, db.timers[batch[i]].key), db.timers[batch[i]].timerIndex)
  {
    var t := db.timers[batch[i]];
    assert Balanced(db, t.key, Future("", 0), t.timerIndex);
    assert batch[i] in Matching(db.timers, Unfired(t.key, t.timerIndex));
    assert Matching(db.timers, Unfired(t.key, t.timerIndex)) != {};
    hide Rows, ActivityBalance, Matching;
    var k := TallyWitness(Rows(db, t.key), TimerEvent(TimerStarted, t.timerIndex));
    assert IsStarted(Rows(db, t.key)[k], t.timerIndex);
  }

  lemma {:induction false} FiredComesFromBatch(db: Db, batch: seq<int>, key: RunKey, index: int) returns (i: nat)
    requires forall i :: 0 <= i < |batch| ==> batch[i] in db.timers
    requires Fired(FiredEvents(db, batch, key), index)
    ensures i < |batch| && db.timers[batch[i]].key == key && db.timers[batch[i]].timerIndex == index
  {
    hide Rows;
    var init, t := batch[..|batch| - 1], db.timers[batch[|batch| - 1]];
    if Fired(FiredEvents(db, init, key), index) {
      assert forall k :: 0 <= k < |init| ==> init[k] == batch[k];
      i := FiredComesFromBatch(db, init, key, index);
    } else {
      i := |batch| - 1;
    }
  }

  lemma NewFiringsWereStarted(code: Code, s: State, step: Step, key: RunKey, index: int)
    requires Enabled(code, s, step) && BooksBalance(s.db, key) && Fired(NewEvents(code, s, step, key), index)
    ensures Started(Rows(s.db, key), index)
  {
    if step.Scan? {
      hide Rows, BooksBalance, Fired;
      var i := FiredComesFromBatch(s.db, step.batch, key, index);
      FiringWasStarted(s.db, step.batch, i);
    } else {
      hide Rows, BooksBalance, Enabled, NewEvents;
      OnlyScansFire(code, s, step, key);
    }
  }

  lemma StartedGrows(h: seq<Event>, h': seq<Event>, index: int)
    requires h <= h' && Started(h, index)
    ensures Started(h', index)
  {
    assert forall e :: e in h ==> e in h';
    MembersRecord(h, h');
  }

  lemma StartedFirstGrows(rows: seq<Event>, more: seq<Event>, k: nat)
    requires StartedFirst(rows) && k <= |more| && forall i :: Fired(more, i) ==> Started(rows, i)
    ensures StartedFirst(rows + more[..k])
  {
    hide Fired, Started;
    forall i | Fired(rows + more[..k], i) ensures Started(rows + more[..k], i) {
      FiredAppend(rows, more[..k], i);
      FiredAppend(more[..k], more[k..], i);
      assert more[..k] + more[k..] == more;
      StartedGrows(rows, rows + more[..k], i);
    }
  }

  lemma StepStartedFirst(code: Code, s: State, step: Step)
    requires Base(s) && Enabled(code, s, step) && AllStartedFirst(s.db) && forall key :: BooksBalance(s.db, key)
    ensures AllStartedFirst(Apply(code, s, step).db)
  {
    var s' := Apply(code, s, step);
    hide Base, Enabled, Apply, BooksBalance, StartedFirst, NewEvents, Rows, AllStartedFirst;
    forall key | key in s'.db.executions
      ensures forall k :: 0 <= k <= |Rows(s'.db, key)| ==> StartedFirst(Rows(s'.db, key)[..k])
    {
      StepRows(code, s, step, key);
      RowsStartedFirst(s, key);
      forall i | Fired(NewEvents(code, s, step, key), i) ensures Started(Rows(s.db, key), i) {
        NewFiringsWereStarted(code, s, step, key, i);
      }
      StartedFirstThroughout(Rows(s.db, key), NewEvents(code, s, step, key));
    }
    StartedFirstEverywhere(s'.db);
  }

  lemma StartedFirstEverywhere(db: Db)
    requires forall key :: key in db.executions ==>
      forall k :: 0 <= k <= |Rows(db, key)| ==> StartedFirst(Rows(db, key)[..k])
    ensures AllStartedFirst(db)
  {
  }

  lemma StartedFirstThroughout(rows: seq<Event>, more: seq<Event>)
    requires forall k :: 0 <= k <= |rows| ==> StartedFirst(rows[..k])
    requires forall i :: Fired(more, i) ==> Started(rows, i)
    ensures forall k :: 0 <= k <= |rows + more| ==> StartedFirst((rows + more)[..k])
  {
    hide StartedFirst, Fired, Started;
    forall k: nat | k <= |rows + more| ensures StartedFirst((rows + more)[..k]) {
      if k <= |rows| {
        assert (rows + more)[..k] == rows[..k];
      } else {
        assert rows[..|rows|] == rows;
        StartedFirstGrows(rows, more, k - |rows|);
        assert (rows + more)[..k] == rows + more[..k - |rows|];
      }
    }
  }

  lemma RowsStartedFirst(s: State, key: RunKey)
    requires Base(s) && AllStartedFirst(s.db)
    ensures forall k :: 0 <= k <= |Rows(s.db, key)| ==> StartedFirst(Rows(s.db, key)[..k])
  {
    if key !in s.db.executions {
      NewRunHasNoRows(s.db, key);
    }
  }

  /* ---- one step ---- */

  lemma NothingSetGoing(code: Code, s: State, step: Step, key: RunKey)
    requires Base(s) && Enabled(code, s, step)
    requires !(step.Respond? && s.grants[step.grant].key == key && Accepts(s, s.grants[step.grant]))
    ensures MarksOf(NewEvents(code, s, step, key)) == []
  {
    hide MarksOf, Base, ResponseCommands, CanRespond, LatestIs, NextTask, OrderedBy, DueBatch, Rows, FiredEvents;
    NoMarks(NewEvents(code, s, step, key));
    if step.Scan? && Owned(s.db, step.batch) {
      FiredEventsShape(s.db, step.batch, key);
    }
  }

  /** The rows of the answering run after the step, put in terms of replay. */
  lemma AnswerRows(code: Code, s: State, step: Step) returns (w: Workflow)
    requires Base(s) && AllNumbered(s.db) && Enabled(code, s, step) && step.Respond?
    requires Accepts(s, s.grants[step.grant])
    ensures var g := s.grants[step.grant]; var rows := Rows(s.db, g.key);
      && 0 < |g.view| <= |rows|
      && Function(code, s.db, g.key) == Some(w)
      && Replay(w, rows[..|g.view|], step.calls).stop.Some?
      && Rows(Apply(code, s, step).db, g.key) == After(w, rows, |g.view|, step.calls, g.queue)
  {
    var g := s.grants[step.grant];
    BaseShape(s);
    AnswerEvents(code, s, step);
    StepRows(code, s, step, g.key);
    hide Base, GrantOk, Shape, AllNumbered, Rows, Replay, Commands, ResponseCommands, Apply, CanRespond, InputOf,
      Enabled, NewEvents, CommandEvents;
    var t;
    w, t := ResponseIsReplay(code, s, g, step.calls);
  }

  lemma AnswerEvents(code: Code, s: State, step: Step)
    requires Base(s) && Enabled(code, s, step) && step.Respond? && Accepts(s, s.grants[step.grant])
    ensures var g := s.grants[step.grant];
      && GrantOk(s.db, g) && CanRespond(code, g, step.calls)
      && NewEvents(code, s, step, g.key)
           == CommandEvents(ResponseCommands(code, g, step.calls), |Rows(s.db, g.key)| + 1)
  {
    hide Rows, ResponseCommands, CanRespond;
  }

  lemma SameFunction(code: Code, s: State, step: Step, key: RunKey)
    requires Base(s) && Enabled(code, s, step) && key in s.db.executions
    ensures key in Apply(code, s, step).db.executions
    ensures Function(code, Apply(code, s, step).db, key) == Function(code, s.db, key)
  {
    hide Apply, Enabled, NewEvents, Rows, InputOf, Base, Evolves;
    StepEvolves(code, s, step);
    StepRows(code, s, step, key);
    KeepsType(s.db, Apply(code, s, step).db, key);
    OpensWithStart(s, key);
    InputGrows(Rows(s.db, key), NewEvents(code, s, step, key));
  }

  /** A run that no accepted answer concerns keeps its record. */
  lemma OthersKeepOnce(code: Code, s: State, step: Step, key: RunKey)
    requires Base(s) && Enabled(code, s, step) && AllOnce(code, s.db) && key in Apply(code, s, step).db.executions
    requires !(step.Respond? && s.grants[step.grant].key == key && Accepts(s, s.grants[step.grant]))
    ensures OnceFor(code, Apply(code, s, step).db, key)
  {
    var s' := Apply(code, s, step);
    var rows, more := Rows(s.db, key), NewEvents(code, s, step, key);
    hide Apply, Enabled, NewEvents, Rows, Base, MarksOf, Once, Function;
    StepRows(code, s, step, key);
    NothingSetGoing(code, s, step, key);
    if key in s.db.executions {
      assert OnceFor(code, s.db, key);
      SameFunction(code, s, step, key);
      if Function(code, s.db, key).Some? {
        QuietKeepsOnce(Function(code, s.db, key).value, rows, more);
      } else {
        MarksAppend(rows, more);
      }
    } else {
      BaseShape(s);
      NewRunHasNoRows(s.db, key);
      assert [] + more == more;
      if Function(code, s'.db, key).Some? {
        EmptyIsOnce(Function(code, s'.db, key).value);
        QuietKeepsOnce(Function(code, s'.db, key).value, [], more);
      }
    }
  }

  lemma EmptyIsOnce(w: Workflow)
    ensures Once(w, [])
  {
    assert MarksOf([]) <= RequestMarks(Requests(Replay(w, [], 0)));
    assert OnceAt(w, []);
  }

  lemma OnceAtKey(code: Code, db: Db, key: RunKey)
    requires AllOnce(code, db) && key in db.executions
    ensures OnceFor(code, db, key)
  {
  }

  /** A step keeps every record as it should be if and only if it is no stale answer. */
  lemma StepOnce(code: Code, s: State, step: Step)
    requires Base(s) && AllNumbered(s.db) && Enabled(code, s, step) && AllOnce(code, s.db) && AllStartedFirst(s.db)
    ensures AllOnce(code, Apply(code, s, step).db) <==> FreshAnswer(code, s, step)
  {
    var s' := Apply(code, s, step);
    hide Apply, Enabled, Base, AllNumbered, Rows, Function, Once, AllOnce, Fresh, AllStartedFirst, After, Replay,
      Accepts;
    if step.Respond? && Accepts(s, s.grants[step.grant]) {
      var g := s.grants[step.grant];
      var rows := Rows(s.db, g.key);
      var w := AnswerRows(code, s, step);
      AcceptsKnown(s, g);
      OnceAtKey(code, s.db, g.key);
      RowsStartedFirst(s, g.key);
      AnswerIsFresh(w, rows, |g.view|, step.calls, g.queue);
      SameFunction(code, s, step, g.key);
      if FreshAnswer(code, s, step) {
        EveryoneElse(code, s, step, g.key);
      } else if AllOnce(code, s'.db) {
        OnceAtKey(code, s'.db, g.key);
      }
    } else {
      NobodyAnswers(code, s, step);
    }
  }

  lemma AcceptsKnown(s: State, g: Grant)
    requires Accepts(s, g)
    ensures g.key in s.db.executions
  {
  }

  lemma EveryoneElse(code: Code, s: State, step: Step, key: RunKey)
    requires Base(s) && Enabled(code, s, step) && AllOnce(code, s.db)
    requires step.Respond? && s.grants[step.grant].key == key
    requires key in Apply(code, s, step).db.executions && OnceFor(code, Apply(code, s, step).db, key)
    ensures AllOnce(code, Apply(code, s, step).db)
  {
    var s' := Apply(code, s, step);
    forall k | k in s'.db.executions ensures OnceFor(code, s'.db, k) {
      hide Apply, Enabled, Base, OnceFor;
      if k != key {
        OthersKeepOnce(code, s, step, k);
      }
    }
  }

  lemma NobodyAnswers(code: Code, s: State, step: Step)
    requires Base(s) && Enabled(code, s, step) && AllOnce(code, s.db)
    requires !(step.Respond? && Accepts(s, s.grants[step.grant]))
    ensures AllOnce(code, Apply(code, s, step).db)
  {
    var s' := Apply(code, s, step);
    forall k | k in s'.db.executions ensures OnceFor(code, s'.db, k) {
      hide Apply, Enabled, Base, OnceFor;
      OthersKeepOnce(code, s, step, k);
    }
  }

  /* ---- over whole runs ---- */

  lemma {:induction false} AlwaysStartedFirst(code: Code, states: seq<State>, steps: seq<Step>, n: nat)
    requires Behavior(code, states, steps) && n < |states|
    ensures AllStartedFirst(states[n].db)
  {
    hide Enabled, Apply, Base, AllStartedFirst, BooksBalance;
    if n == 0 {
      NothingFired(states[0].clock);
    } else {
      AlwaysStartedFirst(code, states, steps, n - 1);
      BaseAlways(code, states, steps, n - 1);
      AllBooksBalance(code, states, steps, n - 1);
      assert Enabled(code, states[n - 1], steps[n - 1]);
      StepStartedFirst(code, states[n - 1], steps[n - 1]);
    }
  }

  lemma NothingFired(clock: int)
    ensures AllStartedFirst(Initial(clock).db)
  {
  }

  lemma AllBooksBalance(code: Code, states: seq<State>, steps: seq<Step>, n: nat)
    requires Behavior(code, states, steps) && n < |states|
    ensures forall key :: BooksBalance(states[n].db, key)
  {
    hide Behavior, BooksBalance;
    forall key ensures BooksBalance(states[n].db, key) {
      BooksAlwaysBalance(code, states, steps, n, key);
    }
  }

  lemma NextOnce(code: Code, states: seq<State>, steps: seq<Step>, n: nat)
    requires Behavior(code, states, steps) && n < |steps| && AllOnce(code, states[n].db)
    ensures AllOnce(code, states[n + 1].db) <==> FreshAnswer(code, states[n], steps[n])
  {
    assert Enabled(code, states[n], steps[n]);
    assert states[n + 1] == Apply(code, states[n], steps[n]);
    hide Behavior, Enabled, Apply, Base, AllStartedFirst, AllOnce, FreshAnswer, AllNumbered;
    BaseAlways(code, states, steps, n);
    EventNumbering(code, states, steps, n);
    AlwaysStartedFirst(code, states, steps, n);
    StepOnce(code, states[n], steps[n]);
  }

  /** Every activity and timer of every run is scheduled exactly once and in the order of the workflow's calls, in
      every state up to n, if and only if no answer accepted before was a stale one. */
  lemma {:induction false} ExactlyOnceWhenFresh(code: Code, states: seq<State>, steps: seq<Step>, n: nat)
    requires Behavior(code, states, steps) && n < |states|
    ensures (forall i :: 0 <= i <= n ==> AllOnce(code, states[i].db))
       <==> (forall i :: 0 <= i < n ==> FreshAnswer(code, states[i], steps[i]))
  {
    hide FreshAnswer, Enabled, Apply, OnceFor;
    if n > 0 {
      ExactlyOnceWhenFresh(code, states, steps, n - 1);
      hide Behavior, AllOnce;
      if AllOnce(code, states[n - 1].db) {
        NextOnce(code, states, steps, n - 1);
      }
    }
  }

  /** No two views of one run are in flight. Tasks that were leased and whose history was not yet read do not count. */
  ghost predicate SoleViews(s: State) {
    forall g, h | g in s.grants && h in s.grants && s.grants[g].Viewed? && s.grants[h].Viewed? ::
      s.grants[g].key == s.grants[h].key ==> g == h
  }

  /** Nothing has been scheduled since any outstanding view was taken. */
  ghost predicate ViewsUpToDate(s: State) {
    forall g :: g in s.grants && s.grants[g].Viewed? ==> UpToDate(s.db, s.grants[g])
  }

  ghost predicate UpToDate(db: Db, g: Grant)
    requires g.Viewed?
  {
    |g.view| <= |Rows(db, g.key)| && MarksOf(Rows(db, g.key)[|g.view|..]) == []
  }

  lemma StaysUpToDate(code: Code, s: State, step: Step, g: Grant)
    requires Base(s) && Enabled(code, s, step) && g.Viewed? && UpToDate(s.db, g)
    requires !(step.Respond? && s.grants[step.grant].key == g.key)
    ensures UpToDate(Apply(code, s, step).db, g)
  {
    hide Base, Enabled, Apply, NewEvents, Rows, MarksOf, Accepts;
    StepRows(code, s, step, g.key);
    NothingSetGoing(code, s, step, g.key);
    QuietSinceView(Rows(s.db, g.key), NewEvents(code, s, step, g.key), |g.view|);
  }

  lemma QuietSinceView(rows: seq<Event>, more: seq<Event>, n: nat)
    requires n <= |rows| && MarksOf(rows[n..]) == [] && MarksOf(more) == []
    ensures MarksOf((rows + more)[n..]) == []
  {
    hide MarksOf;
    assert (rows + more)[n..] == rows[n..] + more;
    MarksAppend(rows[n..], more);
  }

  lemma FreshViewUpToDate(code: Code, s: State, step: Step)
    requires Base(s) && Enabled(code, s, step) && step.Snapshot?
    ensures var s' := Apply(code, s, step); s'.grants[step.grant].Viewed? && UpToDate(s'.db, s'.grants[step.grant])
  {
    var rows := Rows(s.db, s.grants[step.grant].key);
    assert |multiset(step.view)| == |step.view| && |multiset(rows)| == |rows|;
    assert rows[|rows|..] == [];
  }

  lemma StepUpToDate(code: Code, s: State, step: Step)
    requires Base(s) && Enabled(code, s, step) && SoleViews(s) && ViewsUpToDate(s)
    ensures ViewsUpToDate(Apply(code, s, step))
  {
    var s' := Apply(code, s, step);
    hide Base, Apply, UpToDate;
    forall g | g in s'.grants && s'.grants[g].Viewed? ensures UpToDate(s'.db, s'.grants[g]) {
      StepGrants(code, s, step, g);
      if g !in s.grants {
        NewGrantsAreUnviewed(code, s, step, g);
      } else if s'.grants[g] != s.grants[g] {
        FreshViewUpToDate(code, s, step);
      } else {
        AnswererLeaves(code, s, step, g);
        StaysUpToDate(code, s, step, s.grants[g]);
      }
    }
  }

  lemma NewGrantsAreUnviewed(code: Code, s: State, step: Step, g: nat)
    requires Base(s) && Enabled(code, s, step) && g in Apply(code, s, step).grants && g !in s.grants
    ensures !Apply(code, s, step).grants[g].Viewed?
  {
    StepGrants(code, s, step, g);
    hide Base, LeaseTask, NextTask;
  }

  lemma AnswererLeaves(code: Code, s: State, step: Step, g: nat)
    requires Enabled(code, s, step) && SoleViews(s) && g in Apply(code, s, step).grants
    requires g in s.grants && s.grants[g].Viewed?
    ensures !(step.Respond? && s.grants[step.grant].key == s.grants[g].key)
  {
    if step.Respond? {
      hide SoleViews, CompleteWorkflowTask, ResponseCommands, CanRespond, Longer, NewChains;
      assert g != step.grant;
    }
    hide Apply;
    assert step.Respond? ==> s.grants[step.grant].Viewed?;
  }

  /** With at most one view of each run in flight at any time, every answer is fresh, whatever completions, signals
      and timer firings come between a snapshot and its answer, and however many tasks of the run are leased. */
  lemma {:induction false} SoleViewsAreFresh(code: Code, states: seq<State>, steps: seq<Step>, n: nat)
    requires Behavior(code, states, steps) && n < |states| && forall i :: 0 <= i < n ==> SoleViews(states[i])
    ensures ViewsUpToDate(states[n])
    ensures forall i :: 0 <= i < n ==> FreshAnswer(code, states[i], steps[i])
  {
    hide FreshAnswer, Enabled, Apply, SoleViews;
    if n > 0 {
      var s, step := states[n - 1], steps[n - 1];
      assert Enabled(code, s, step) && states[n] == Apply(code, s, step);
      SoleViewsAreFresh(code, states, steps, n - 1);
      BaseAlways(code, states, steps, n - 1);
      EventNumbering(code, states, steps, n - 1);
      hide Behavior, ViewsUpToDate, Base, AllNumbered;
      StepUpToDate(code, s, step);
      UpToDateIsFresh(code, s, step);
    }
  }

  lemma UpToDateIsFresh(code: Code, s: State, step: Step)
    requires Base(s) && AllNumbered(s.db) && Enabled(code, s, step) && ViewsUpToDate(s)
    ensures FreshAnswer(code, s, step)
  {
    hide Base, AllNumbered, Apply, Rows, MarksOf, Replay, Requests, Unrecorded, Function;
    if step.Respond? && Accepts(s, s.grants[step.grant]) {
      assert UpToDate(s.db, s.grants[step.grant]);
      var w := AnswerRows(code, s, step);
    }
  }

  /** Hence exactly-once scheduling, with the indices 0, 1, 2, ... in the order of the calls. */
  lemma ExactlyOnceWhenSole(code: Code, states: seq<State>, steps: seq<Step>, n: nat, key: RunKey)
    requires Behavior(code, states, steps) && n < |states| && forall i :: 0 <= i < n ==> SoleViews(states[i])
    requires key in states[n].db.executions
    ensures AllOnce(code, states[n].db)
    ensures forall i :: 0 <= i < |MarksOf(Rows(states[n].db, key))| ==>
      var ms := MarksOf(Rows(states[n].db, key));
      match ms[i]
      case ActivityMark(_, index, _) => index == ActivityMarks(ms[..i])
      case TimerMark(index) => index == TimerMarks(ms[..i])
  {
    hide Behavior, SoleViews, AllOnce, FreshAnswer, Rows, MarksOf, OnceAt, Function;
    SoleViewsAreFresh(code, states, steps, n);
    ExactlyOnceWhenFresh(code, states, steps, n);
    assert AllOnce(code, states[n].db);
    OnceAtKey(code, states[n].db, key);
    var rows := Rows(states[n].db, key);
    if Function(code, states[n].db, key).Some? {
      var w := Function(code, states[n].db, key).value;
      assert rows[..|rows|] == rows;
      forall i: nat | i < |MarksOf(rows)|
        ensures match MarksOf(rows)[i]
          case ActivityMark(_, index, _) => index == ActivityMarks(MarksOf(rows)[..i])
          case TimerMark(index) => index == TimerMarks(MarksOf(rows)[..i])
      {
        OnceIsNumbered(w, rows, i);
      }
    }
  }
}
