/** The schedulings on record, compared with the calls a replay makes. */
module Marks {
  import opened Types
  import opened HistoryFacts
  import opened Interpreter
  import opened ReplayLaws
  import opened RequestLaws
  import opened Effects

  /** An activity or a timer the engine has set going. */
  datatype Mark = ActivityMark(name: string, index: int, input: Bytes) | TimerMark(index: int)

  function MarkIn(e: Event): seq<Mark> {
    if e.kind == ActivityScheduled then [ActivityMark(e.activityName, e.activityIndex, e.data)]
    else if e.kind == TimerStarted then [TimerMark(e.timerIndex)]
    else []
  }

  /** The ActivityScheduled and TimerStarted events of a history, in order. */
  function MarksOf(h: seq<Event>): seq<Mark> {
    if h == [] then [] else MarksOf(h[..|h| - 1]) + MarkIn(h[|h| - 1])
  }

  function RequestMark(r: Request): Mark {
    match r
    case Activity(f, input) => ActivityMark(f.name, f.index, input)
    case Nap(i, _) => TimerMark(i)
  }

  function RequestMarks(rs: seq<Request>): seq<Mark> {
    seq(|rs|, i requires 0 <= i < |rs| => RequestMark(rs[i]))
  }

  lemma MarksSnoc(h: seq<Event>, e: Event)
    ensures MarksOf(h + [e]) == MarksOf(h) + MarkIn(e)
  {
    assert (h + [e])[..|h|] == h;
  }

  lemma {:induction false} MarksAppend(h: seq<Event>, t: seq<Event>)
    ensures MarksOf(h + t) == MarksOf(h) + MarksOf(t)
  {
    assert MarksOf([]) == [];
    hide MarksOf, MarkIn;
    if t == [] {
      assert h + t == h;
    } else {
      var t', e := t[..|t| - 1], t[|t| - 1];
      LastOfAppend(h, t);
      MarksAppend(h, t');
      MarksSnoc(h + t', e);
      MarksSnoc(t', e);
      Regroup(MarksOf(h), MarksOf(t'), MarkIn(e));
    }
  }

  lemma {:induction false} NoMarks(t: seq<Event>)
    ensures MarksOf(t) == [] <==> forall i :: 0 <= i < |t| ==> MarkIn(t[i]) == []
  {
    if t != [] {
      NoMarks(t[..|t| - 1]);
    }
  }

  lemma {:induction false} MarkOfEvent(h: seq<Event>, i: nat) returns (p: nat)
    requires i < |h| && MarkIn(h[i]) != []
    ensures p < |MarksOf(h)| && MarksOf(h)[p] == MarkIn(h[i])[0]
  {
    if i < |h| - 1 {
      p := MarkOfEvent(h[..|h| - 1], i);
    } else {
      p := |MarksOf(h[..|h| - 1])|;
    }
  }

  lemma {:induction false} EventOfMark(h: seq<Event>, p: nat) returns (i: nat)
    requires p < |MarksOf(h)|
    ensures i < |h| && MarkIn(h[i]) == [MarksOf(h)[p]]
  {
    if p < |MarksOf(h[..|h| - 1])| {
      i := EventOfMark(h[..|h| - 1], p);
    } else {
      i := |h| - 1;
    }
  }

  /** Everything set going so far is, in order, what replay calls for, and nothing is set going twice. */
  ghost predicate OnceAt(w: Workflow, h: seq<Event>) {
    exists n: nat :: MarksOf(h) <= RequestMarks(Requests(Replay(w, h, n)))
  }

  /** That has been so after every event. */
  ghost predicate Once(w: Workflow, h: seq<Event>) {
    forall k :: 0 <= k <= |h| ==> OnceAt(w, h[..k])
  }

  /* ---- indices ---- */

  function ActivityMarks(ms: seq<Mark>): nat {
    if ms == [] then 0 else ActivityMarks(ms[..|ms| - 1]) + if ms[|ms| - 1].ActivityMark? then 1 else 0
  }

  function TimerMarks(ms: seq<Mark>): nat {
    if ms == [] then 0 else TimerMarks(ms[..|ms| - 1]) + if ms[|ms| - 1].TimerMark? then 1 else 0
  }

  lemma {:induction false} MarksCountRequests(rs: seq<Request>)
    ensures ActivityMarks(RequestMarks(rs)) == Activities(rs)
    ensures TimerMarks(RequestMarks(rs)) == Naps(rs)
  {
    if rs != [] {
      MarksCountRequests(rs[..|rs| - 1]);
      assert RequestMarks(rs)[..|rs| - 1] == RequestMarks(rs[..|rs| - 1]);
    }
  }

  /** The k-th ActivityScheduled event carries index k, the k-th TimerStarted event timer index k. */
  lemma OnceIsNumbered(w: Workflow, h: seq<Event>, i: nat)
    requires OnceAt(w, h) && i < |MarksOf(h)|
    ensures match MarksOf(h)[i]
      case ActivityMark(_, index, _) => index == ActivityMarks(MarksOf(h)[..i])
      case TimerMark(index) => index == TimerMarks(MarksOf(h)[..i])
  {
    var n: nat :| MarksOf(h) <= RequestMarks(Requests(Replay(w, h, n)));
    var rs := Requests(Replay(w, h, n));
    hide MarksOf, Requests, Run;
    RequestsAreNumbered(w, FromHistory(h), n);
    assert IndexedAt(rs, i);
    MarksCountRequests(rs[..i]);
    assert RequestMarks(rs[..i]) == MarksOf(h)[..i];
  }

  /* ---- growth ---- */

  lemma PrefixMarks(a: seq<Request>, b: seq<Request>)
    requires a <= b
    ensures RequestMarks(a) <= RequestMarks(b)
  {
  }

  /** Replays of one history and of a longer one, however far they are taken, call for the same things. */
  lemma Comparable(w: Workflow, h: seq<Event>, h': seq<Event>, m: nat, n: nat, i: nat)
    requires h <= h' && i < |Requests(Replay(w, h, m))| && i < |Requests(Replay(w, h', n))|
    ensures Requests(Replay(w, h, m))[i] == Requests(Replay(w, h', n))[i]
  {
    hide Requests, Run, FromHistory;
    PrefixDeterminism(w, h, h', m);
    if m <= n {
      RunGrows(w, FromHistory(h'), m, n);
    } else {
      RunGrows(w, FromHistory(h'), n, m);
    }
  }

  /** Events that set nothing going leave the record as it should be. */
  lemma QuietKeepsOnceAt(w: Workflow, h: seq<Event>, t: seq<Event>)
    requires OnceAt(w, h) && MarksOf(t) == []
    ensures OnceAt(w, h + t)
  {
    var n: nat :| MarksOf(h) <= RequestMarks(Requests(Replay(w, h, n)));
    hide MarksOf, Requests, Replay;
    MarksAppend(h, t);
    assert h <= h + t;
    PrefixDeterminism(w, h, h + t, n);
    PrefixMarks(Requests(Replay(w, h, n)), Requests(Replay(w, h + t, n)));
  }

  lemma OnceExtends(w: Workflow, h: seq<Event>, t: seq<Event>)
    requires Once(w, h) && forall i :: 0 <= i <= |t| ==> OnceAt(w, h + t[..i])
    ensures Once(w, h + t)
  {
    hide OnceAt;
    var u := h + t;
    forall k | 0 <= k <= |u| ensures OnceAt(w, u[..k]) {
      if k <= |h| {
        assert u[..k] == h[..k];
      } else {
        assert u[..k] == h + t[..k - |h|];
      }
    }
  }

  lemma QuietKeepsOnce(w: Workflow, h: seq<Event>, t: seq<Event>)
    requires Once(w, h) && MarksOf(t) == []
    ensures Once(w, h + t)
  {
    hide OnceAt;
    assert h[..|h|] == h;
    NoMarks(t);
    forall i | 0 <= i <= |t| ensures OnceAt(w, h + t[..i]) {
      NoMarks(t[..i]);
      QuietKeepsOnceAt(w, h, t[..i]);
    }
    OnceExtends(w, h, t);
  }

  /* ---- an answer ---- */

  /** A timer that has fired was started before. */
  ghost predicate StartedFirst(h: seq<Event>) {
    forall i :: Fired(h, i) ==> Started(h, i)
  }

  /** On a record as it should be, a replay's requests are recorded up to a point and not beyond. */
  lemma RecordedUpTo(w: Workflow, h: seq<Event>, n: nat, i: nat)
    requires OnceAt(w, h) && StartedFirst(h)
    requires Replay(w, h, n).stop.Some? && i < |Requests(Replay(w, h, n))|
    ensures |MarksOf(h)| <= |Requests(Replay(w, h, n))|
    ensures MarksOf(h) <= RequestMarks(Requests(Replay(w, h, n)))
    ensures Recorded(h, Requests(Replay(w, h, n))[i]) <==> i < |MarksOf(h)|
  {
    MarksWithin(w, h, n);
    var rs, r := Requests(Replay(w, h, n)), Requests(Replay(w, h, n))[i];
    RequestsAreNumbered(w, FromHistory(h), n);
    hide MarksOf, Requests, Run, Replay, StartedFirst, WellIndexed;
    if i < |MarksOf(h)| {
      var k := EventOfMark(h, i);
      assert MarksOf(h)[i] == RequestMark(r);
      MarkRecords(h, k, r);
    } else if Recorded(h, r) {
      var k := RecordMarks(h, r);
      var p := MarkOfEvent(h, k);
      assert RequestMark(rs[p]) == MarksOf(h)[p];
      assert SameIndex(rs[p], r);
      RequestsAreDistinct(rs, p, i);
    }
  }

  lemma MarksWithin(w: Workflow, h: seq<Event>, n: nat)
    requires OnceAt(w, h) && Replay(w, h, n).stop.Some?
    ensures MarksOf(h) <= RequestMarks(Requests(Replay(w, h, n)))
  {
    var m: nat :| MarksOf(h) <= RequestMarks(Requests(Replay(w, h, m)));
    hide MarksOf, Requests, Run, FromHistory;
    if m <= n {
      RunGrows(w, FromHistory(h), m, n);
      PrefixMarks(Requests(Replay(w, h, m)), Requests(Replay(w, h, n)));
    } else {
      RunSettles(w, FromHistory(h), n, m);
    }
  }

  lemma MarkRecords(h: seq<Event>, k: nat, r: Request)
    requires k < |h| && MarkIn(h[k]) == [RequestMark(r)]
    ensures Recorded(h, r)
  {
    match r {
      case Activity(f, _) => assert IsScheduled(h[k], f);
      case Nap(i, _) => assert IsStarted(h[k], i);
    }
  }

  lemma RecordMarks(h: seq<Event>, r: Request) returns (k: nat)
    requires StartedFirst(h) && Recorded(h, r)
    ensures k < |h| && MarkIn(h[k]) != [] && (
      match r
      case Activity(f, _) => MarkIn(h[k])[0].ActivityMark? && MarkIn(h[k])[0].index == f.index
      case Nap(i, _) => MarkIn(h[k])[0] == TimerMark(i))
  {
    match r {
      case Activity(f, _) => k :| 0 <= k < |h| && IsScheduled(h[k], f);
      case Nap(i, _) => k :| 0 <= k < |h| && IsStarted(h[k], i);
    }
  }

  /** What such an answer sends is the rest of the replay's requests. */
  lemma SendsTheRest(w: Workflow, h: seq<Event>, n: nat)
    requires OnceAt(w, h) && StartedFirst(h) && Replay(w, h, n).stop.Some?
    ensures var rs := Requests(Replay(w, h, n));
      && MarksOf(h) <= RequestMarks(rs)
      && Unrecorded(h, rs) == rs[|MarksOf(h)|..]
  {
    var rs := Requests(Replay(w, h, n));
    MarksWithin(w, h, n);
    hide MarksOf, Requests, Replay, StartedFirst, OnceAt, Recorded;
    forall i | 0 <= i < |rs| ensures Recorded(h, rs[i]) <==> i < |MarksOf(h)| {
      RecordedUpTo(w, h, n, i);
    }
    UnrecordedSuffix(h, rs, |MarksOf(h)|);
  }

  lemma CommandMark(rs: seq<Request>, queue: string, ending: seq<Command>, base: int, i: nat)
    requires i < |rs| + |ending| && forall k :: 0 <= k < |ending| ==> IsEnding(ending[k])
    ensures MarkIn(CommandEvents(CommandsOf(rs, queue) + ending, base)[i])
         == if i < |rs| then [RequestMark(rs[i])] else []
  {
  }

  lemma {:induction false} LeadingMarks(es: seq<Event>, ms: seq<Mark>, i: nat)
    requires i <= |es| && forall k :: 0 <= k < |es| ==> MarkIn(es[k]) == if k < |ms| then [ms[k]] else []
    ensures MarksOf(es[..i]) == ms[..if i <= |ms| then i else |ms|]
  {
    hide MarkIn;
    if i > 0 {
      LeadingMarks(es, ms, i - 1);
      assert es[..i][..i - 1] == es[..i - 1];
    }
  }

  lemma CommandMarks(rs: seq<Request>, queue: string, ending: seq<Command>, base: int, i: nat)
    requires i <= |rs| + |ending| && forall k :: 0 <= k < |ending| ==> IsEnding(ending[k])
    ensures MarksOf(CommandEvents(CommandsOf(rs, queue) + ending, base)[..i])
         == RequestMarks(rs)[..if i <= |rs| then i else |rs|]
  {
    var es := CommandEvents(CommandsOf(rs, queue) + ending, base);
    assert |es| == |rs| + |ending|;
    hide CommandEvents, CommandsOf, MarkIn, RequestMark;
    forall k | 0 <= k < |es|
      ensures MarkIn(es[k]) == if k < |rs| then [RequestMarks(rs)[k]] else []
    {
      CommandMark(rs, queue, ending, base, k);
    }
    LeadingMarks(es, RequestMarks(rs), i);
  }
}
