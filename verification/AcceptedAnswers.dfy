/** What the last answers of a run have left on record. */
module AcceptedAnswers {
  import opened Types
  import opened HistoryFacts
  import opened Interpreter
  import opened ReplayLaws
  import opened RequestLaws
  import opened Tables
  import opened Handlers
  import opened Structure
  import opened Engine
  import opened Steps
  import opened Effects
  import opened Terminal
  import opened Numbering

  /* ---- a view is as good as the prefix of the history it was taken of ---- */

  lemma {:induction false} InputFound(h: seq<Event>, e: Event)
    requires e in h && e.kind == WorkflowStarted
    requires forall x :: x in h && x.kind == WorkflowStarted ==> x == e
    ensures InputOf(h) == e.data
  {
    if h[0].kind == WorkflowStarted {
      assert h[0] in h;
    } else {
      assert forall x :: x in h[1..] ==> x in h;
      InputFound(h[1..], e);
    }
  }

  lemma ViewInput(view: seq<Event>, rows: seq<Event>)
    requires RowsOk(rows) && OrderedBy(view, rows)
    ensures InputOf(view) == rows[0].data
  {
    forall e ensures e in view <==> e in rows {
      assert e in multiset(view) <==> e in multiset(rows);
    }
    hide InputOf;
    InputFound(view, rows[0]);
  }

  lemma PrefixOk(rows: seq<Event>, n: nat)
    requires RowsOk(rows) && 0 < n <= |rows|
    ensures RowsOk(rows[..n]) && InputOf(rows[..n]) == InputOf(rows) == rows[0].data
    ensures Numbered(rows) ==> Numbered(rows[..n])
  {
    if Numbered(rows) {
      forall i: nat | i < n ensures NumberedAt(rows[..n], i) {
        assert NumberedAt(rows, i);
      }
    }
  }

  /** A worker that was given view behaves as if it had read the history in order of insertion. */
  lemma ViewReplay(w: Workflow, view: seq<Event>, rows: seq<Event>, calls: nat, queue: string)
    requires Numbered(rows) && OrderedBy(view, rows)
    ensures Replay(w, view, calls) == Replay(w, rows, calls)
    ensures forall t :: Commands(view, t, queue) == Commands(rows, t, queue)
    ensures forall t :: Unrecorded(view, Requests(t)) == Unrecorded(rows, Requests(t))
  {
    hide Replay, OrderedBy, Numbered, Requests, CommandsOf, Ending;
    AnyOrderWillDo(view, rows);
    SameFactsSameReplay(w, view, rows, calls);
    forall t ensures Unrecorded(view, Requests(t)) == Unrecorded(rows, Requests(t)) {
      UnrecordedSame(view, rows, Requests(t));
    }
  }

  /** The function, the prefix and the replay behind an answer. */
  lemma ResponseIsReplay(code: Code, s: State, g: Grant, calls: nat) returns (w: Workflow, t: Trace)
    requires Shape(s.db) && AllNumbered(s.db) && GrantOk(s.db, g) && CanRespond(code, g, calls)
    ensures var rows := Rows(s.db, g.key);
      && 0 < |g.view| <= |rows|
      && FunctionFor(code, s.db.executions[g.key].workflowType, rows) == Some(w)
      && t == Replay(w, rows[..|g.view|], calls) && t.stop.Some?
      && ResponseCommands(code, g, calls) == Commands(rows[..|g.view|], t, g.queue)
  {
    var rows := Rows(s.db, g.key);
    assert RowsOk(rows) && Numbered(rows);
    hide Shape, AllNumbered, Rows, Replay, Commands, Numbered;
    PrefixOk(rows, |g.view|);
    ViewInput(g.view, rows[..|g.view|]);
    w := FunctionFor(code, g.workflowType, g.view).value;
    ViewReplay(w, g.view, rows[..|g.view|], calls, g.queue);
    t := Replay(w, rows[..|g.view|], calls);
  }

  /* ---- what was answered is on record ---- */

  lemma RecordedGrows(h: seq<Event>, h': seq<Event>, r: Request)
    requires h <= h' && Recorded(h, r)
    ensures Recorded(h', r)
  {
    assert forall e :: e in h ==> e in h';
    MembersRecord(h, h');
  }

  lemma CommandIsRecorded(rs: seq<Request>, i: nat, queue: string, ending: seq<Command>, base: int)
    requires i < |rs|
    ensures Recorded(CommandEvents(CommandsOf(rs, queue) + ending, base), rs[i])
  {
    var h := CommandEvents(CommandsOf(rs, queue) + ending, base);
    assert (CommandsOf(rs, queue) + ending)[i] == CommandOf(rs[i], queue);
    match rs[i] {
      case Activity(f, _) => assert IsScheduled(h[i], f);
      case Nap(k, _) => assert IsStarted(h[i], k);
    }
  }

  /** After an answer everything its replay asked for is on record. */
  lemma AnswerRecordsAll(h: seq<Event>, more: seq<Event>, t: Trace, queue: string, base: int, r: Request)
    requires r in Requests(t)
    ensures Recorded(h + more + CommandEvents(Commands(h, t, queue), base), r)
  {
    var rs := Unrecorded(h, Requests(t));
    var u := h + more + CommandEvents(Commands(h, t, queue), base);
    hide Requests, Recorded;
    UnrecordedMembers(h, Requests(t), r);
    if Recorded(h, r) {
      assert h <= u;
      RecordedGrows(h, u, r);
    } else {
      var i :| 0 <= i < |rs| && rs[i] == r;
      CommandIsRecorded(rs, i, queue, Ending(t), base);
      RecordedLater(h + more, CommandEvents(Commands(h, t, queue), base), r);
    }
  }

  lemma RecordedLater(h: seq<Event>, t: seq<Event>, r: Request)
    requires Recorded(t, r)
    ensures Recorded(h + t, r)
  {
    assert forall e :: e in t ==> e in h + t;
    MembersRecord(t, h + t);
  }

  /** The longest answered replay of an open run is suspended, and all it asked for is on record. */
  ghost predicate Answered(code: Code, s: State, key: RunKey)
    requires key in s.db.executions
  {
    key in s.replayed ==>
      var rows, last := Rows(s.db, key), s.replayed[key];
      var w := FunctionFor(code, s.db.executions[key].workflowType, rows);
      && 0 < last.length <= |rows|
      && w.Some?
      && Settled(w.value, rows, last)
  }

  ghost predicate Settled(w: Workflow, rows: seq<Event>, last: Replayed)
    requires last.length <= |rows|
  {
    var t := Replay(w, rows[..last.length], last.calls);
    && t.stop.Some? && t.stop.value.Waiting?
    && forall r :: r in Requests(t) ==> Recorded(rows, r)
  }

  ghost predicate AllAnswered(code: Code, s: State) {
    forall key :: key in s.db.executions && s.db.executions[key].status == Running ==> Answered(code, s, key)
  }

  lemma SettledGrows(w: Workflow, rows: seq<Event>, more: seq<Event>, last: Replayed)
    requires last.length <= |rows| && Settled(w, rows, last)
    ensures Settled(w, rows + more, last)
  {
    assert (rows + more)[..last.length] == rows[..last.length];
    hide Replay, Requests, Recorded;
    forall r | r in Requests(Replay(w, rows[..last.length], last.calls)) ensures Recorded(rows + more, r) {
      RecordedGrows(rows, rows + more, r);
    }
  }

  lemma StepReplayed(code: Code, s: State, step: Step, key: RunKey)
    requires Enabled(code, s, step)
    ensures var s' := Apply(code, s, step);
      if step.Respond? && s.grants[step.grant].key == key && Accepts(s, s.grants[step.grant])
         && !(key in s.replayed && s.replayed[key].length > |s.grants[step.grant].view|)
      then key in s'.replayed && s'.replayed[key] == Replayed(|s.grants[step.grant].view|, step.calls)
      else (key in s'.replayed <==> key in s.replayed) && (key in s.replayed ==> s'.replayed[key] == s.replayed[key])
  {
    hide CompleteWorkflowTask, StartWorkflow, CompleteActivityTask, FailActivityTask, SignalWorkflow, ScanTimers,
      ResponseCommands, LatestIs, NextTask, OrderedBy, DueBatch, NewChains, LeaseTask, ReclaimExpired, Replay,
      FunctionFor;
  }

  /** An answer that leaves its run open comes from a suspended replay. */
  lemma OpenAnswerWaits(h: seq<Event>, t: Trace, queue: string)
    requires t.stop.Some? && StatusAfter(Commands(h, t, queue)) == Running
    ensures t.stop.value.Waiting?
  {
    hide Requests, Unrecorded;
  }

  lemma AnswerSettles(w: Workflow, rows: seq<Event>, last: Replayed, queue: string, base: int)
    requires last.length <= |rows|
    requires var t := Replay(w, rows[..last.length], last.calls); t.stop.Some? && t.stop.value.Waiting?
    ensures var h := rows[..last.length];
      Settled(w, rows + CommandEvents(Commands(h, Replay(w, h, last.calls), queue), base), last)
  {
    hide Replay, Requests, Recorded, Commands, CommandEvents;
    var h, more := rows[..last.length], rows[last.length..];
    var t := Replay(w, h, last.calls);
    var events := CommandEvents(Commands(h, t, queue), base);
    assert (rows + events)[..last.length] == h;
    assert h + more == rows;
    forall r | r in Requests(t) ensures Recorded(rows + events, r) {
      AnswerRecordsAll(h, more, t, queue, base, r);
    }
  }

  lemma RespondSettles(code: Code, s: State, step: Step)
    requires Base(s) && AllNumbered(s.db) && Enabled(code, s, step) && step.Respond?
    requires var g := s.grants[step.grant];
      Accepts(s, g) && StatusAfter(ResponseCommands(code, g, step.calls)) == Running
    ensures var g := s.grants[step.grant];
      var rows := Rows(s.db, g.key) + NewEvents(code, s, step, g.key);
      var w := FunctionFor(code, s.db.executions[g.key].workflowType, rows);
      && 0 < |g.view| <= |rows| && w.Some? && Settled(w.value, rows, Replayed(|g.view|, step.calls))
  {
    var g := s.grants[step.grant];
    assert GrantOk(s.db, g);
    BaseShape(s);
    hide Base, GrantOk, Rows, Replay, StatusAfter, Commands, CommandEvents, Settled, InputOf, ResponseCommands, Shape,
      AllNumbered, CanRespond;
    var rows := Rows(s.db, g.key);
    OpensWithStart(s, g.key);
    var w, t := ResponseIsReplay(code, s, g, step.calls);
    OpenAnswerWaits(rows[..|g.view|], t, g.queue);
    AnswerSettles(w, rows, Replayed(|g.view|, step.calls), g.queue, |rows| + 1);
    InputGrows(rows, NewEvents(code, s, step, g.key));
  }

  lemma InputGrows(rows: seq<Event>, more: seq<Event>)
    requires |rows| > 0 && rows[0].kind == WorkflowStarted
    ensures InputOf(rows + more) == InputOf(rows)
  {
  }

  /** Events added to a history disturb nothing that was answered from its beginning. */
  lemma AnsweredStays(code: Code, s: State, s': State, key: RunKey, more: seq<Event>)
    requires key in s.db.executions && key in s'.db.executions && key in s.replayed && key in s'.replayed
    requires s'.db.executions[key].workflowType == s.db.executions[key].workflowType
    requires s'.replayed[key] == s.replayed[key] && Rows(s'.db, key) == Rows(s.db, key) + more
    requires |Rows(s.db, key)| > 0 && Rows(s.db, key)[0].kind == WorkflowStarted
    requires Answered(code, s, key)
    ensures Answered(code, s', key)
  {
    hide Rows, InputOf, Settled;
    InputGrows(Rows(s.db, key), more);
    SettledGrows(FunctionFor(code, s.db.executions[key].workflowType, Rows(s.db, key)).value, Rows(s.db, key), more,
                 s.replayed[key]);
  }

  lemma StepAnsweredOf(code: Code, s: State, step: Step, key: RunKey)
    requires Base(s) && AllNumbered(s.db) && AllAnswered(code, s) && Enabled(code, s, step)
    requires StatusIn(Apply(code, s, step).db, key) == Some(Running)
    requires key !in s.db.executions ==> key !in s.replayed
    ensures Answered(code, Apply(code, s, step), key)
  {
    var s' := Apply(code, s, step);
    hide Apply, Enabled, Settled, AllAnswered, Base, Rows, AllNumbered, InputOf;
    if key in s'.replayed {
      StepReplayed(code, s, step, key);
      if key !in s.replayed || s'.replayed[key] != s.replayed[key] {
        LastAnswerSettles(code, s, step, key);
      } else {
        EarlierAnswerStays(code, s, step, key);
      }
    }
  }

  lemma LastAnswerSettles(code: Code, s: State, step: Step, key: RunKey)
    requires Base(s) && AllNumbered(s.db) && Enabled(code, s, step) && step.Respond?
    requires s.grants[step.grant].key == key && Accepts(s, s.grants[step.grant])
    requires StatusIn(Apply(code, s, step).db, key) == Some(Running)
    requires key in Apply(code, s, step).replayed
    requires Apply(code, s, step).replayed[key] == Replayed(|s.grants[step.grant].view|, step.calls)
    ensures Answered(code, Apply(code, s, step), key)
  {
    var s' := Apply(code, s, step);
    hide Apply, Enabled, Settled, Base, Rows, AllNumbered, InputOf, NewEvents;
    StepRows(code, s, step, key);
    StepStatus(code, s, step, key);
    StepEvolves(code, s, step);
    RespondSettles(code, s, step);
    KeepsType(s.db, s'.db, key);
    hide Evolves;
  }

  lemma EarlierAnswerStays(code: Code, s: State, step: Step, key: RunKey)
    requires Base(s) && AllNumbered(s.db) && AllAnswered(code, s) && Enabled(code, s, step)
    requires StatusIn(Apply(code, s, step).db, key) == Some(Running)
    requires key in s.db.executions && key in s.replayed
    requires key in Apply(code, s, step).replayed && Apply(code, s, step).replayed[key] == s.replayed[key]
    ensures Answered(code, Apply(code, s, step), key)
  {
    var s' := Apply(code, s, step);
    hide Apply, Enabled, Settled, AllAnswered, Base, Rows, AllNumbered, InputOf;
    StepRows(code, s, step, key);
    StepStatus(code, s, step, key);
    StepEvolves(code, s, step);
    FinalStep(code, s, step, key);
    AnsweredAt(code, s, key);
    OpensWithStart(s, key);
    KeepsType(s.db, s'.db, key);
    hide Answered, NewEvents, NextStatus, FunctionFor, Evolves;
    AnsweredStays(code, s, s', key, NewEvents(code, s, step, key));
  }

  /** replayed speaks of known runs only. */
  ghost predicate ReplayedKnown(s: State) {
    forall key :: key in s.replayed ==> key in s.db.executions
  }

  lemma StepReplayedKnown(code: Code, s: State, step: Step)
    requires Base(s) && ReplayedKnown(s) && Enabled(code, s, step)
    ensures ReplayedKnown(Apply(code, s, step))
  {
    var s' := Apply(code, s, step);
    StepEvolves(code, s, step);
    hide Apply, Enabled, Base;
    forall key | key in s'.replayed ensures key in s'.db.executions {
      StepReplayed(code, s, step, key);
    }
  }

  lemma StepAnswered(code: Code, s: State, step: Step)
    requires Base(s) && AllNumbered(s.db) && AllAnswered(code, s) && ReplayedKnown(s) && Enabled(code, s, step)
    ensures AllAnswered(code, Apply(code, s, step))
  {
    var s' := Apply(code, s, step);
    hide Apply, Enabled, Base, AllNumbered, Answered;
    forall key | key in s'.db.executions && s'.db.executions[key].status == Running ensures Answered(code, s', key) {
      StepAnsweredOf(code, s, step, key);
    }
  }

  lemma KeepsType(a: Db, b: Db, key: RunKey)
    requires Evolves(a, b) && key in a.executions
    ensures key in b.executions && b.executions[key].workflowType == a.executions[key].workflowType
  {
  }

  lemma AnsweredAt(code: Code, s: State, key: RunKey)
    requires AllAnswered(code, s) && StatusIn(s.db, key) == Some(Running)
    ensures Answered(code, s, key)
  {
  }

  lemma OpensWithStart(s: State, key: RunKey)
    requires Base(s) && key in s.db.executions
    ensures |Rows(s.db, key)| > 0 && Rows(s.db, key)[0].kind == WorkflowStarted
  {
  }
}
