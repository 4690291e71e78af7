/** A run closes the way its workflow function ends when it is run once, uninterrupted. */
module Outcomes {
  import opened Types
  import opened HistoryFacts
  import opened Interpreter
  import opened ReplayLaws
  import opened Tables
  import opened Engine
  import opened Steps
  import opened Effects
  import opened Terminal
  import opened Numbering
  import opened AcceptedAnswers
  import opened NoStuck
  import opened ExactlyOnce

  /** The run's last word is the function's own: its terminal event reports how the function returned. */
  predicate Reports(rows: seq<Event>, p: nat, error: Option<Bytes>) {
    && ClosesAt(rows, p, if error.None? then WorkflowCompleted else WorkflowFailed)
    && rows[p].data == if error.Some? then error.value else []
  }

  ghost predicate EndsLike(w: Workflow, rows: seq<Event>, status: Status, n: nat, p: nat, error: Option<Bytes>) {
    && Replay(w, rows, n).stop == Some(Finished(error))
    && Reports(rows, p, error)
    && status == if error.None? then Completed else Failed
  }

  ghost predicate Truthful(code: Code, db: Db, key: RunKey)
    requires key in db.executions
  {
    db.executions[key].status != Running ==>
      var w := Function(code, db, key);
      w.Some? && exists n: nat, p: nat, e :: EndsLike(w.value, Rows(db, key), db.executions[key].status, n, p, e)
  }

  ghost predicate AllTruthful(code: Code, db: Db) {
    forall key :: key in db.executions ==> Truthful(code, db, key)
  }

  /** What comes later changes neither the function's end nor the report of it. */
  lemma EndStays(w: Workflow, rows: seq<Event>, more: seq<Event>, status: Status, n: nat, p: nat, e: Option<Bytes>)
    requires EndsLike(w, rows, status, n, p, e) && forall i :: 0 <= i < |more| ==> Late(more[i].kind)
    ensures EndsLike(w, rows + more, status, n, p, e)
  {
    hide Replay;
    PrefixDeterminism(w, rows, rows + more, n);
  }

  /** An answer that closes the run comes from a replay that has finished, and says how. */
  lemma ClosingAnswer(h: seq<Event>, t: Trace, queue: string) returns (e: Option<Bytes>)
    requires t.stop.Some? && StatusAfter(Commands(h, t, queue)) != Running
    ensures t.stop == Some(Finished(e))
    ensures var cmds := Commands(h, t, queue);
      && cmds != []
      && cmds[|cmds| - 1] == (if e.None? then CompleteWorkflow([]) else FailWorkflow(e.value))
      && StatusAfter(cmds) == (if e.None? then Completed else Failed)
  {
    hide Requests, Unrecorded;
    if t.stop.value.Finished? {
      e := t.stop.value.error;
    }
  }

  lemma ClosingEvents(rows: seq<Event>, cmds: seq<Command>, e: Option<Bytes>)
    requires Disciplined(Running, rows) && Honest(cmds) && cmds != []
    requires cmds[|cmds| - 1] == if e.None? then CompleteWorkflow([]) else FailWorkflow(e.value)
    ensures Reports(rows + CommandEvents(cmds, |rows| + 1), |rows| + |cmds| - 1, e)
  {
    var more := CommandEvents(cmds, |rows| + 1);
    assert forall i :: 0 <= i < |cmds| - 1 ==> !HistoryFacts.Terminal(more[i].kind);
  }

  /** The answer that closes a run reports how its function ends. */
  lemma AnswerEnds(w: Workflow, rows: seq<Event>, n: nat, calls: nat, queue: string) returns (e: Option<Bytes>, p: nat)
    requires n <= |rows| && Disciplined(Running, rows) && Replay(w, rows[..n], calls).stop.Some?
    requires StatusAfter(Commands(rows[..n], Replay(w, rows[..n], calls), queue)) != Running
    ensures EndsLike(w, After(w, rows, n, calls, queue),
                     StatusAfter(Commands(rows[..n], Replay(w, rows[..n], calls), queue)), calls, p, e)
  {
    var h := rows[..n];
    var t := Replay(w, h, calls);
    hide Replay, Commands, StatusAfter, CommandEvents, Disciplined, Reports;
    e := ClosingAnswer(h, t, queue);
    CommandsAreHonest(h, t, queue);
    ClosingEvents(rows, Commands(h, t, queue), e);
    p := |rows| + |Commands(h, t, queue)| - 1;
    PrefixOfMore(rows, n, Sent(w, rows, n, calls, queue));
    PrefixDeterminism(w, h, After(w, rows, n, calls, queue), calls);
  }

  lemma ClosingStep(code: Code, s: State, step: Step, key: RunKey)
    requires Base(s) && AllNumbered(s.db) && AllDisciplined(s.db) && Enabled(code, s, step)
    requires step.Respond? && s.grants[step.grant].key == key && Accepts(s, s.grants[step.grant])
    ensures key in Apply(code, s, step).db.executions && Truthful(code, Apply(code, s, step).db, key)
  {
    var g, s' := s.grants[step.grant], Apply(code, s, step);
    var rows := Rows(s.db, key);
    StepStatus(code, s, step, key);
    AcceptsKnown(s, g);
    RunIsDisciplined(s, key);
    hide Apply, Enabled, Base, AllNumbered, AllDisciplined, Disciplined, Rows, Replay, StatusAfter, EndsLike, Function,
      After, ResponseCommands, Commands, CanRespond;
    var w := AnswerRows(code, s, step);
    AnswerCommands(code, s, step, w);
    SameFunction(code, s, step, key);
    if s'.db.executions[key].status != Running {
      var e, p := AnswerEnds(w, rows, |g.view|, step.calls, g.queue);
    }
  }

  lemma RunIsDisciplined(s: State, key: RunKey)
    requires AllDisciplined(s.db) && key in s.db.executions
    ensures Disciplined(s.db.executions[key].status, Rows(s.db, key))
  {
  }

  lemma AnswerCommands(code: Code, s: State, step: Step, w: Workflow)
    requires Base(s) && AllNumbered(s.db) && Enabled(code, s, step) && step.Respond?
    requires Accepts(s, s.grants[step.grant]) && Function(code, s.db, s.grants[step.grant].key) == Some(w)
    ensures var g := s.grants[step.grant]; var rows := Rows(s.db, g.key);
      && |g.view| <= |rows|
      && ResponseCommands(code, g, step.calls)
           == Commands(rows[..|g.view|], Replay(w, rows[..|g.view|], step.calls), g.queue)
  {
    BaseShape(s);
    AnswerEvents(code, s, step);
    hide Base, GrantOk, AllNumbered, Rows, Replay, Commands, ResponseCommands, Apply, CanRespond, InputOf, Enabled,
      NewEvents, CommandEvents;
    var u, t := ResponseIsReplay(code, s, s.grants[step.grant], step.calls);
  }

  /** Every other step leaves a closed run's end and report as they are, and closes no run. */
  lemma OtherStep(code: Code, s: State, step: Step, key: RunKey)
    requires Base(s) && AllTruthful(code, s.db) && Enabled(code, s, step) && key in Apply(code, s, step).db.executions
    requires !(step.Respond? && s.grants[step.grant].key == key && Accepts(s, s.grants[step.grant]))
    ensures Truthful(code, Apply(code, s, step).db, key)
  {
    var s' := Apply(code, s, step);
    StepStatus(code, s, step, key);
    SameStatus(code, s, step, key);
    hide Apply, Enabled, Base, AllTruthful, NextStatus, NewEvents, Rows, EndsLike, Function;
    if s'.db.executions[key].status != Running {
      TruthfulAt(code, s.db, key);
      SameFunction(code, s, step, key);
      StepRows(code, s, step, key);
      LateOnly(code, s, step, key);
      var w, rows, more := Function(code, s.db, key).value, Rows(s.db, key), NewEvents(code, s, step, key);
      var n: nat, p: nat, e :| EndsLike(w, rows, s.db.executions[key].status, n, p, e);
      EndStays(w, rows, more, s.db.executions[key].status, n, p, e);
    }
  }

  lemma SameStatus(code: Code, s: State, step: Step, key: RunKey)
    requires Enabled(code, s, step)
    requires !(step.Respond? && s.grants[step.grant].key == key && Accepts(s, s.grants[step.grant]))
    ensures var next := NextStatus(code, s, step, key);
      next.Some? && next != Some(Running) ==> next == StatusIn(s.db, key)
  {
    hide StatusAfter, CanRespond, ResponseCommands, LatestIs, NextTask, OrderedBy, DueBatch;
  }

  lemma TruthfulAt(code: Code, db: Db, key: RunKey)
    requires AllTruthful(code, db) && key in db.executions
    ensures Truthful(code, db, key)
  {
  }

  lemma LateOnly(code: Code, s: State, step: Step, key: RunKey)
    requires Base(s) && Enabled(code, s, step) && key in s.db.executions && s.db.executions[key].status != Running
    ensures forall i :: 0 <= i < |NewEvents(code, s, step, key)| ==> Late(NewEvents(code, s, step, key)[i].kind)
  {
    if step.Respond? {
      hide Base, ResponseCommands, CanRespond, CommandEvents, Rows;
    } else {
      hide Base, NewEvents, Enabled;
      NewKinds(code, s, step, key);
    }
  }

  lemma StepTruthful(code: Code, s: State, step: Step)
    requires Base(s) && AllNumbered(s.db) && AllDisciplined(s.db) && AllTruthful(code, s.db) && Enabled(code, s, step)
    ensures AllTruthful(code, Apply(code, s, step).db)
  {
    var s' := Apply(code, s, step);
    hide Apply, Enabled, Base, AllNumbered, AllDisciplined, Truthful;
    forall key | key in s'.db.executions ensures Truthful(code, s'.db, key) {
      if step.Respond? && s.grants[step.grant].key == key && Accepts(s, s.grants[step.grant]) {
        ClosingStep(code, s, step, key);
      } else {
        OtherStep(code, s, step, key);
      }
    }
  }

  lemma {:induction false} TruthfulAlways(code: Code, states: seq<State>, steps: seq<Step>, n: nat)
    requires Behavior(code, states, steps) && n < |states|
    ensures AllTruthful(code, states[n].db)
  {
    hide Enabled, Apply, Base, AllNumbered, AllDisciplined, Truthful;
    if n > 0 {
      TruthfulAlways(code, states, steps, n - 1);
      BaseAlways(code, states, steps, n - 1);
      EventNumbering(code, states, steps, n - 1);
      TerminalDiscipline(code, states, steps, n - 1);
      assert Enabled(code, states[n - 1], steps[n - 1]);
      StepTruthful(code, states[n - 1], steps[n - 1]);
    }
  }

  /** In every reachable state, a closed run has the status, and its one terminal event the data, that its function's
      uninterrupted execution ends with, whatever the oracle, as long as it agrees with the history; however many
      crashes, retries, stale or duplicate answers there were. */
  lemma ClosedAsIfUninterrupted(code: Code, states: seq<State>, steps: seq<Step>, n: nat, key: RunKey, o: Oracle)
    returns (w: Workflow, calls: nat, error: Option<Bytes>, p: nat)
    requires Behavior(code, states, steps) && n < |states|
    requires key in states[n].db.executions && states[n].db.executions[key].status != Running
    requires Agrees(Rows(states[n].db, key), o)
    ensures Function(code, states[n].db, key) == Some(w)
    ensures Direct(w, o, calls).stop == Some(Finished(error))
    ensures states[n].db.executions[key].status == if error.None? then Completed else Failed
    ensures Reports(Rows(states[n].db, key), p, error)
  {
    hide Behavior, AllTruthful, Rows, Function, Replay, Direct, Reports, Agrees;
    TruthfulAlways(code, states, steps, n);
    TruthfulAt(code, states[n].db, key);
    w := Function(code, states[n].db, key).value;
    calls, p, error :| EndsLike(w, Rows(states[n].db, key), states[n].db.executions[key].status, calls, p, error);
    ReplayRefinesDirect(w, Rows(states[n].db, key), o, calls);
  }
}
