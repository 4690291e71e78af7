/** Timers fire when they are due, and are due when the workflow asked for. */
module TimersOnTime {
  import opened Types
  import opened HistoryFacts
  import opened Interpreter
  import opened RequestLaws
  import opened Tables
  import opened Handlers
  import opened Structure
  import opened Engine
  import opened Steps
  import opened Effects
  import opened RowCounts
  import opened ExactlyOnce

  const MAX_INT64: int := 0x7fff_ffff_ffff_ffff
  const MIN_INT64: int := -0x8000_0000_0000_0000

  /** The delay a Sleep(d) ends up with is d rounded toward zero to whole milliseconds, and fits a time.Duration. */
  lemma SleepArithmetic(d: int)
    requires MIN_INT64 <= d <= MAX_INT64
    ensures var delay := Milliseconds(d) * 1_000_000;
      && MIN_INT64 <= delay <= MAX_INT64
      && if d >= 0 then d - 1_000_000 < delay <= d else d <= delay < d + 1_000_000
  {
    if d < 0 {
      var q := (-d) / MILLISECOND;
      assert q * MILLISECOND <= -d < (q + 1) * MILLISECOND;
    }
  }

  /** The step is an accepted answer whose replay calls Sleep(d) for this timer; the row is due d after the answer,
      but for rounding. */
  ghost predicate StartedWith(code: Code, s: State, step: Step, t: Timer, d: int) {
    && AcceptedAnswer(s, step) && s.grants[step.grant].key == t.key
    && CanRespond(code, s.grants[step.grant], step.calls)
    && var g := s.grants[step.grant];
    && Nap(t.timerIndex, d) in Requests(Replay(FunctionFor(code, g.workflowType, g.view).value, g.view, step.calls))
    && t.fireAt == s.clock + Milliseconds(d) * 1_000_000
  }

  ghost predicate StartedBefore(code: Code, states: seq<State>, steps: seq<Step>, n: nat, t: Timer)
    requires n <= |steps| < |states|
  {
    exists j: nat, d :: j < n && StartedWith(code, states[j], steps[j], t, d)
  }

  lemma CommandAddsTimer(p: Progress, now: int, key: RunKey, ex: Execution, cmd: Command, id: int)
    requires id in ApplyCommand(p, now, key, ex, cmd).db.timers && id !in p.db.timers
    ensures cmd.StartTimer? && ApplyCommand(p, now, key, ex, cmd).db.timers[id] == NewTimer(key, now, cmd)
  {
    hide Rows, CommandEvent;
  }

  lemma CommandKeepsTimer(p: Progress, now: int, key: RunKey, ex: Execution, cmd: Command, id: int)
    requires Shape(p.db) && id in p.db.timers
    ensures id in ApplyCommand(p, now, key, ex, cmd).db.timers
    ensures ApplyCommand(p, now, key, ex, cmd).db.timers[id] == p.db.timers[id]
  {
    assert TimerOk(p.db, id);
    hide Shape, Rows, CommandEvent;
  }

  lemma {:induction false} CommandsAddTimer(p: Progress, now: int, key: RunKey, ex: Execution, cmds: seq<Command>,
                                            id: int)
    returns (i: nat)
    requires Shape(p.db) && key in p.db.executions && SameRun(p.db.executions[key], ex)
    requires id in ApplyCommands(p, now, key, ex, cmds).db.timers && id !in p.db.timers
    ensures i < |cmds| && cmds[i].StartTimer?
    ensures ApplyCommands(p, now, key, ex, cmds).db.timers[id] == NewTimer(key, now, cmds[i])
  {
    hide ApplyCommand, Shape, Evolves;
    var init := cmds[..|cmds| - 1];
    var q := ApplyCommands(p, now, key, ex, init);
    CommandsShape(p, now, key, ex, init);
    if id in q.db.timers {
      i := CommandsAddTimer(p, now, key, ex, init, id);
      CommandKeepsTimer(q, now, key, ex, cmds[|cmds| - 1], id);
    } else {
      i := |cmds| - 1;
      CommandAddsTimer(q, now, key, ex, cmds[i], id);
    }
  }

  lemma TimerCommandIsNap(h: seq<Event>, t: Trace, queue: string, i: nat) returns (d: int)
    requires i < |Commands(h, t, queue)| && Commands(h, t, queue)[i].StartTimer?
    ensures Commands(h, t, queue)[i].durationMs == Milliseconds(d)
    ensures Nap(Commands(h, t, queue)[i].timerIndex, d) in Requests(t)
  {
    var rs := Unrecorded(h, Requests(t));
    hide Unrecorded, Requests, Milliseconds;
    assert i < |rs|;
    d := rs[i].duration;
    UnrecordedMembers(h, Requests(t), rs[i]);
  }

  lemma NewTimerWasAskedFor(code: Code, s: State, step: Step, id: int) returns (d: int)
    requires Base(s) && Enabled(code, s, step) && AcceptedAnswer(s, step)
    requires id in Apply(code, s, step).db.timers && id !in s.db.timers
    ensures StartedWith(code, s, step, Apply(code, s, step).db.timers[id], d)
  {
    var g := s.grants[step.grant];
    var cmds := ResponseCommands(code, g, step.calls);
    BaseShape(s);
    hide Base, Shape, CanRespond, ResponseCommands, ApplyCommands, Rows, Longer, NewChains;
    var i := CommandsAddTimer(Begin(s.db, g.key), s.clock, g.key, s.db.executions[g.key], cmds, id);
    d := ResponseTimer(code, g, step.calls, i);
  }

  lemma ResponseTimer(code: Code, g: Grant, calls: nat, i: nat) returns (d: int)
    requires CanRespond(code, g, calls)
    requires i < |ResponseCommands(code, g, calls)| && ResponseCommands(code, g, calls)[i].StartTimer?
    ensures ResponseCommands(code, g, calls)[i].durationMs == Milliseconds(d)
    ensures Nap(ResponseCommands(code, g, calls)[i].timerIndex, d)
         in Requests(Replay(FunctionFor(code, g.workflowType, g.view).value, g.view, calls))
  {
    hide Replay, Requests, Commands, Milliseconds;
    d := TimerCommandIsNap(g.view, Replay(FunctionFor(code, g.workflowType, g.view).value, g.view, calls), g.queue, i);
  }

  lemma {:induction false} FireAllAddsNoTimer(committed: Db, batch: seq<int>)
    requires Owned(committed, batch)
    ensures FireTimers(committed, batch).timers.Keys == committed.timers.Keys
  {
    hide FireTimer;
    if batch != [] {
      FireAllAddsNoTimer(committed, batch[..|batch| - 1]);
      FireAddsNoTimer(FireTimers(committed, batch[..|batch| - 1]), committed, batch[|batch| - 1]);
    }
  }

  lemma FireAddsNoTimer(db: Db, committed: Db, id: int)
    requires id in committed.timers && committed.timers[id].key in committed.executions
    ensures FireTimer(db, committed, id).timers.Keys == db.timers.Keys
  {
    hide Rows;
  }

  lemma OthersAddNoTimer(code: Code, s: State, step: Step)
    requires Base(s) && Enabled(code, s, step) && !AcceptedAnswer(s, step)
    ensures Apply(code, s, step).db.timers.Keys == s.db.timers.Keys
  {
    hide Base, Rows, LatestIs, NextTask, OrderedBy, DueBatch, CanRespond, ResponseCommands, FireTimers, AnyWorkflowTask,
      RetryTask, ReclaimExpired;
    match step {
      case Scan(batch) =>
        if Owned(s.db, batch) {
          FireAllAddsNoTimer(s.db, batch);
        }
      case Reclaim => ReclaimKeepsTimers(s.db, s.clock);
      case _ =>
    }
  }

  lemma ReclaimKeepsTimers(db: Db, now: int)
    ensures ReclaimExpired(db, now).timers == db.timers
  {
  }

  lemma StartedWithSame(code: Code, s: State, step: Step, t: Timer, u: Timer, d: int)
    requires StartedWith(code, s, step, t, d) && SameTimer(t, u)
    ensures StartedWith(code, s, step, u, d)
  {
    hide CanRespond, Replay, Requests;
  }

  /** Every timer row goes back to a Sleep of its run. */
  lemma {:induction false} TimersWereAskedFor(code: Code, states: seq<State>, steps: seq<Step>, n: nat, id: int)
    requires Behavior(code, states, steps) && n < |states| && id in states[n].db.timers
    ensures StartedBefore(code, states, steps, n, states[n].db.timers[id])
  {
    hide Enabled, Apply, StartedWith;
    if n > 0 {
      var s, step := states[n - 1], steps[n - 1];
      assert Enabled(code, s, step) && states[n] == Apply(code, s, step);
      BaseAlways(code, states, steps, n - 1);
      if id in s.db.timers {
        TimersWereAskedFor(code, states, steps, n - 1, id);
        var j: nat, d :| j < n - 1 && StartedWith(code, states[j], steps[j], s.db.timers[id], d);
        EvolvesAlways(code, states, steps, n - 1, n);
        TimerStaysSame(s.db, states[n].db, id);
        StartedWithSame(code, states[j], steps[j], s.db.timers[id], states[n].db.timers[id], d);
      } else {
        hide Behavior, Base;
        TimerIsNew(code, s, step, id);
        var d := NewTimerWasAskedFor(code, s, step, id);
      }
    }
  }

  lemma TimerStaysSame(a: Db, b: Db, id: int)
    requires Evolves(a, b) && id in a.timers
    ensures id in b.timers && SameTimer(a.timers[id], b.timers[id])
  {
  }

  lemma TimerIsNew(code: Code, s: State, step: Step, id: int)
    requires Base(s) && Enabled(code, s, step) && id in Apply(code, s, step).db.timers && id !in s.db.timers
    ensures AcceptedAnswer(s, step)
  {
    hide Base, Enabled, Apply, AcceptedAnswer;
    if !AcceptedAnswer(s, step) {
      OthersAddNoTimer(code, s, step);
    }
  }

  /** A TimerFired event comes from a scan that found an unfired row past its time, marks the row, and so never comes
      before the Sleep it belongs to is over. */
  lemma FiresOnTime(code: Code, states: seq<State>, steps: seq<Step>, n: nat, key: RunKey, index: int) returns (id: int)
    requires Behavior(code, states, steps) && n < |steps|
    requires Fired(NewEvents(code, states[n], steps[n], key), index)
    ensures id in states[n].db.timers && id in states[n + 1].db.timers
    ensures var t := states[n].db.timers[id];
      && t.key == key && t.timerIndex == index
      && !t.fired && states[n + 1].db.timers[id].fired
      && t.fireAt <= states[n].clock
      && StartedBefore(code, states, steps, n, t)
  {
    var s, step := states[n], steps[n];
    assert Enabled(code, s, step) && states[n + 1] == Apply(code, s, step);
    hide Behavior, StartedBefore, Rows;
    var i := FiringIsDue(code, s, step, key, index);
    id := step.batch[i];
    TimersWereAskedFor(code, states, steps, n, id);
  }

  lemma FiringIsDue(code: Code, s: State, step: Step, key: RunKey, index: int) returns (i: nat)
    requires Enabled(code, s, step) && Fired(NewEvents(code, s, step, key), index)
    ensures step.Scan? && i < |step.batch| && step.batch[i] in s.db.timers
    ensures var id := step.batch[i]; var t := s.db.timers[id];
      && Due(t, s.clock) && t.key == key && t.timerIndex == index
      && id in Apply(code, s, step).db.timers && Apply(code, s, step).db.timers[id] == t.(fired := true)
  {
    if step.Scan? {
      hide Rows, FireTimers;
      i := FiredComesFromBatch(s.db, step.batch, key, index);
      FiredRows(s.db, step.batch, step.batch[i]);
    } else {
      hide Rows, Enabled, NewEvents, Apply;
      OnlyScansFire(code, s, step, key);
    }
  }

  /** A timer of a Sleep(d) fires less than a millisecond early at worst, counted from the answer that started it. */
  lemma SleepsLongEnough(code: Code, states: seq<State>, steps: seq<Step>, n: nat, key: RunKey, index: int)
    returns (j: nat, d: int)
    requires Behavior(code, states, steps) && n < |steps|
    requires Fired(NewEvents(code, states[n], steps[n], key), index)
    ensures j < n && AcceptedAnswer(states[j], steps[j]) && states[j].grants[steps[j].grant].key == key
    ensures var g := states[j].grants[steps[j].grant];
      && CanRespond(code, g, steps[j].calls)
      && Nap(index, d) in Requests(Replay(FunctionFor(code, g.workflowType, g.view).value, g.view, steps[j].calls))
    ensures d >= 0 ==> states[n].clock > states[j].clock + d - 1_000_000
    ensures d < 0 ==> states[n].clock >= states[j].clock + d
  {
    assert |states| == |steps| + 1;
    hide Behavior, NewEvents, Fired, CanRespond, Replay, Requests;
    var id := FiresOnTime(code, states, steps, n, key, index);
    var t := states[n].db.timers[id];
    j, d :| j < n && StartedWith(code, states[j], steps[j], t, d);
    Rounding(d);
  }

  lemma Rounding(d: int)
    ensures var delay := Milliseconds(d) * MILLISECOND; if d >= 0 then d - MILLISECOND < delay <= d else d <= delay
  {
    if d < 0 {
      var q := (-d) / MILLISECOND;
      assert q * MILLISECOND <= -d;
    }
  }

  /* ---- and fire once their time has come ---- */

  ghost function Overdue(db: Db, now: int): set<int> {
    set id | id in db.timers && !db.timers[id].fired && db.timers[id].fireAt <= now
  }

  ghost function FiredSince(a: Db, b: Db): set<int> {
    set id | id in a.timers && id in b.timers && !a.timers[id].fired && b.timers[id].fired
  }

  /** A new row of the run says that the timer has fired. */
  ghost predicate FiringRecorded(a: Db, b: Db, t: Timer) {
    exists i :: |Rows(a, t.key)| <= i < |Rows(b, t.key)|
                && Rows(b, t.key)[i].kind == TimerFired && Rows(b, t.key)[i].timerIndex == t.timerIndex
  }

  lemma {:induction false} FiringOf(db: Db, batch: seq<int>, i: nat) returns (k: nat)
    requires Owned(db, batch) && i < |batch|
    ensures var t := db.timers[batch[i]]; var fired := FiredEvents(db, batch, t.key);
      k < |fired| && fired[k].kind == TimerFired && fired[k].timerIndex == t.timerIndex
  {
    hide Rows;
    var init := batch[..|batch| - 1];
    if i < |init| {
      k := FiringOf(db, init, i);
    } else {
      k := |FiredEvents(db, init, db.timers[batch[i]].key)|;
    }
  }

  lemma FiringIsRecorded(db: Db, batch: seq<int>, id: int)
    requires Shape(db) && Owned(db, batch) && id in batch && id in db.timers
    ensures FiringRecorded(db, FireTimers(db, batch), db.timers[id])
    ensures Woken(db, FireTimers(db, batch), db.timers[id].key)
  {
    var i :| 0 <= i < |batch| && batch[i] == id;
    hide Shape, Woken;
    FiringWakes(db, batch, i);
    var k := FiringOf(db, batch, i);
    var key := db.timers[id].key;
    hide Rows, FireTimers, FiredEvents;
    FireAllRows(db, batch, key);
    assert Rows(FireTimers(db, batch), key)[|Rows(db, key)| + k] == FiredEvents(db, batch, key)[k];
  }

  /** A new task for replaying the run, which nobody holds yet. */
  ghost predicate Woken(a: Db, b: Db, key: RunKey) {
    exists id :: id in b.tasks && id >= a.taskSeq && IsWorkflowTaskOf(b.tasks[id], key) && b.tasks[id].leaseOwner.None?
  }

  lemma {:induction false} FiringWakes(db: Db, batch: seq<int>, i: nat)
    requires Shape(db) && Owned(db, batch) && i < |batch|
    ensures Woken(db, FireTimers(db, batch), db.timers[batch[i]].key)
  {
    var init, last := batch[..|batch| - 1], batch[|batch| - 1];
    hide Shape, Woken, FireTimer;
    FiredShape(db, init);
    FireWakes(db, FireTimers(db, init), last);
    if i < |init| {
      FiringWakes(db, init, i);
      StaysWoken(db, FireTimers(db, init), last, db.timers[batch[i]].key);
    }
  }

  lemma FiredShape(db: Db, batch: seq<int>)
    requires Shape(db) && Owned(db, batch)
    ensures Shape(FireTimers(db, batch)) && db.taskSeq <= FireTimers(db, batch).taskSeq
  {
    hide Shape, FireTimers;
    FireAllShape(db, batch);
  }

  lemma FireWakes(committed: Db, db: Db, n: int)
    requires n in committed.timers && committed.timers[n].key in committed.executions && committed.taskSeq <= db.taskSeq
    ensures Woken(committed, FireTimer(db, committed, n), committed.timers[n].key)
  {
    hide Rows;
    assert db.taskSeq in FireTimer(db, committed, n).tasks;
  }

  lemma StaysWoken(committed: Db, db: Db, n: int, key: RunKey)
    requires n in committed.timers && committed.timers[n].key in committed.executions && Shape(db)
    requires Woken(committed, db, key)
    ensures Woken(committed, FireTimer(db, committed, n), key)
  {
    hide Rows;
    var id :| id in db.tasks && id >= committed.taskSeq && IsWorkflowTaskOf(db.tasks[id], key)
              && db.tasks[id].leaseOwner.None?;
    assert TaskOk(db, id);
    hide Shape;
    assert FireTimer(db, committed, n).tasks[id] == db.tasks[id];
  }

  lemma DistinctCount(batch: seq<int>)
    requires forall i, j :: 0 <= i < j < |batch| ==> batch[i] != batch[j]
    ensures |set id | id in batch| == |batch|
  {
    if batch != [] {
      var init, last := batch[..|batch| - 1], batch[|batch| - 1];
      DistinctCount(init);
      assert (set id | id in batch) == (set id | id in init) + {last};
    }
  }

  lemma BatchOfOverdue(db: Db, now: int, batch: seq<int>)
    requires DueBatch(db, now, batch)
    ensures var b := set id | id in batch;
      b <= Overdue(db, now) && |b| == if |Overdue(db, now)| < 100 then |Overdue(db, now)| else 100
  {
    var b := set id | id in batch;
    DistinctCount(batch);
    assert b <= Overdue(db, now);
    CardinalityOrder(b, Overdue(db, now));
    if |batch| < 100 {
      forall id | id in Overdue(db, now) ensures id in b {
        assert Due(db.timers[id], now);
      }
      assert b == Overdue(db, now);
    }
  }

  lemma CardinalityOrder<T>(a: set<T>, b: set<T>)
    requires a <= b
    ensures |a| <= |b|
  {
    assert b == a + (b - a);
  }

  lemma BatchIsOwned(db: Db, now: int, batch: seq<int>)
    requires Shape(db) && DueBatch(db, now, batch)
    ensures Owned(db, batch)
  {
    assert forall id :: id in db.timers ==> TimerOk(db, id);
  }

  /** One scan fires the timers whose time has come: all of them if they are fewer than a hundred, otherwise a hundred
      of them; and no other. */
  lemma ScanFires(db: Db, m: Metrics, now: int, batch: seq<int>)
    requires Shape(db) && DueBatch(db, now, batch)
    ensures var r := ScanTimers(db, m, batch); var fired := FiredSince(db, r.db);
      && r.reply == Ok(()) && r.db.timers.Keys == db.timers.Keys
      && fired <= Overdue(db, now)
      && |fired| == (if |Overdue(db, now)| < 100 then |Overdue(db, now)| else 100)
      && (forall id :: id in fired ==> FiringRecorded(db, r.db, db.timers[id]) && Woken(db, r.db, db.timers[id].key))
      && (forall id :: id in db.timers && id in r.db.timers ==>
            r.db.timers[id] == db.timers[id].(fired := db.timers[id].fired || id in fired))
  {
    BatchIsOwned(db, now, batch);
    hide Shape, FireTimers, FiringRecorded, Woken;
    var b := FireTimers(db, batch);
    FireAllAddsNoTimer(db, batch);
    BatchOfOverdue(db, now, batch);
    forall id | id in db.timers
      ensures id in b.timers
      ensures b.timers[id] == if id in batch then db.timers[id].(fired := true) else db.timers[id]
    {
      FiredRows(db, batch, id);
    }
    assert FiredSince(db, b) == set id | id in batch;
    forall id | id in batch ensures FiringRecorded(db, b, db.timers[id]) && Woken(db, b, db.timers[id].key) {
      FiringIsRecorded(db, batch, id);
    }
  }

  /** In every run of the system a scan leaves no timer overdue, unless a hundred or more were, of which it then fires a
      hundred; and each that fires is recorded in the history of its run, which gets a new workflow task. */
  lemma DueTimersFire(code: Code, states: seq<State>, steps: seq<Step>, n: nat)
    requires Behavior(code, states, steps) && n < |steps| && steps[n].Scan?
    ensures var a, b, now := states[n].db, states[n + 1].db, states[n].clock;
      var overdue, fired := Overdue(a, now), FiredSince(a, b);
      && fired <= overdue
      && (|overdue| < 100 ==> fired == overdue && Overdue(b, now) == {})
      && (|overdue| >= 100 ==> |fired| == 100)
      && (forall id :: id in fired ==> FiringRecorded(a, b, a.timers[id]) && Woken(a, b, a.timers[id].key))
  {
    var s, step := states[n], steps[n];
    assert Enabled(code, s, step) && states[n + 1] == Apply(code, s, step);
    BaseAlways(code, states, steps, n);
    BaseShape(s);
    assert DueBatch(s.db, s.clock, step.batch) && states[n + 1].db == ScanTimers(s.db, s.metrics, step.batch).db;
    hide Behavior, Base, Enabled, Apply, Shape, DueBatch, ScanTimers, FiringRecorded, Woken;
    ScanFires(s.db, s.metrics, s.clock, step.batch);
    var overdue, fired := Overdue(s.db, s.clock), FiredSince(s.db, states[n + 1].db);
    if |overdue| < 100 {
      SameSize(fired, overdue);
      NoneLeft(s.db, states[n + 1].db, s.clock);
    }
  }

  lemma NoneLeft(a: Db, b: Db, now: int)
    requires b.timers.Keys == a.timers.Keys && FiredSince(a, b) == Overdue(a, now)
    requires forall id :: id in a.timers && id in b.timers ==>
      b.timers[id] == a.timers[id].(fired := a.timers[id].fired || id in FiredSince(a, b))
    ensures Overdue(b, now) == {}
  {
    forall id: int ensures id !in Overdue(b, now) {
      assert id in b.timers.Keys <==> id in a.timers.Keys;
      assert id in FiredSince(a, b) <==> id in Overdue(a, now);
    }
  }

  lemma SameSize<T>(a: set<T>, b: set<T>)
    requires a <= b && |a| == |b|
    ensures a == b
  {
    assert b == a + (b - a);
  }
}
