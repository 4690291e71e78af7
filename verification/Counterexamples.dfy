/** Two short runs of the system that show why the provisos of the main results are needed. */
module Counterexamples {
  import opened Types
  import opened HistoryFacts
  import opened Interpreter
  import opened RequestLaws
  import opened Tables
  import opened Handlers
  import opened Engine
  import opened Steps
  import opened Effects
  import opened Terminal
  import opened Wakeups
  import opened NoStuck
  import opened ExactlyOnce

  const KEY: RunKey := RunKey("w", "1")
  const EX: Execution := Execution("t", "q", Running, 0, None)
  const STARTED: Event := BlankEvent(1, WorkflowStarted)
  const WAKE: Task := Task("q", WorkflowTask, "t", KEY, 1, [], "", 0, 0, 0, GO_ZERO_TIME, None, None)
  const START: Step := Start(KEY, None, "t", "q", [])
  const POLL: Step := PollWorkflow("q", "worker", 1)

  function Held(now: int): Task { WAKE.(leaseOwner := Some("worker"), leaseExpiresAt := Some(now + LEASE)) }

  function OneRun(rows: seq<Event>, tasks: map<int, Task>, taskSeq: int): Db {
    Db(map[KEY := EX], map[KEY := rows], tasks, map[], taskSeq, 1)
  }

  const STARTED_ONCE: Metrics := ZERO.(workflowsStarted := 1)
  const LEASED: Grant := Leased(1, KEY, "q", "t")
  const VIEWED: Grant := Viewed(1, KEY, "q", "t", [STARTED])

  lemma Starts(code: Code)
    ensures Enabled(code, Initial(0), START)
    ensures Apply(code, Initial(0), START) ==
      State(OneRun([STARTED], map[1 := WAKE], 2), STARTED_ONCE, 0, map[], 0, map[], map[])
  {
    var r := StartWorkflow(EMPTY, ZERO, 0, KEY, None, "t", "q", []);
    assert r.db.events[KEY] == [STARTED];
    assert r.db.events == map[KEY := [STARTED]];
    assert r.db.tasks == map[1 := WAKE];
    assert r.db.executions == map[KEY := EX];
    assert r.metrics == STARTED_ONCE;
  }

  lemma OneRow(db: Db, now: int)
    requires db.tasks == map[1 := WAKE] && now >= 0
    ensures NextTask(db, "q", WorkflowTask, now, 1)
  {
  }

  lemma PollsFirst(code: Code, s: State)
    requires s.db == OneRun([STARTED], map[1 := WAKE], 2) && s.clock >= 0
    ensures Enabled(code, s, POLL)
    ensures Apply(code, s, POLL) == s.(db := OneRun([STARTED], map[1 := Held(s.clock)], 2),
                                       grants := s.grants[s.nextGrant := LEASED], nextGrant := s.nextGrant + 1)
  {
    OneRow(s.db, s.clock);
  }

  lemma Views(code: Code, s: State, g: nat)
    requires s.db.events == map[KEY := [STARTED]] && g in s.grants && s.grants[g] == LEASED
    ensures Enabled(code, s, Snapshot(g, [STARTED]))
    ensures Apply(code, s, Snapshot(g, [STARTED])) == s.(grants := s.grants[g := VIEWED])
  {
  }

  /* ---- a lost signal ---- */

  function Waits(obs: seq<Observation>): Primitive {
    if obs == [] then ReceiveSignal("go") else Return(None)
  }

  function WaitingCode(): Code { (t, input) => Some(Waits) }

  const GO: Event := Event(2, SignalReceived, "", 0, "go", 0, [])

  lemma WaitingReplay()
    ensures Replay(Waits, [STARTED], 1) == Trace([], Some(Waiting(OnSignal("go", 0))))
    ensures Commands([STARTED], Replay(Waits, [STARTED], 1), "q") == []
  {
    assert Signals([STARTED], "go") == [];
    assert Run(Waits, FromHistory([STARTED]), 0) == Trace([], None);
  }

  lemma {:induction false} ResumedReplay(n: nat)
    ensures Replay(Waits, [STARTED, GO], n) ==
      if n == 0 then Trace([], None)
      else Trace([Received("go", 0, [])], if n == 1 then None else Some(Finished(None)))
  {
    var h := [STARTED, GO];
    assert Signals(h, "go") == [[]] by {
      assert h[..1] == [STARTED];
      assert Signals([STARTED], "go") == [];
    }
    if n > 0 {
      ResumedReplay(n - 1);
    }
  }

  function Begun(): State {
    State(OneRun([STARTED], map[1 := WAKE], 2), STARTED_ONCE, 0, map[], 0, map[], map[])
  }

  function Polled(): State {
    State(OneRun([STARTED], map[1 := Held(0)], 2), STARTED_ONCE, 0, map[0 := LEASED], 1, map[], map[])
  }

  function Viewing(): State {
    Polled().(grants := map[0 := VIEWED])
  }

  function Signalled(): State {
    State(OneRun([STARTED, GO], map[1 := Held(0)], 2), STARTED_ONCE.(signalsDelivered := 1), 0,
          map[0 := VIEWED], 1, map[], map[])
  }

  function Stranded(): State {
    State(OneRun([STARTED, GO], map[], 2), STARTED_ONCE.(signalsDelivered := 1), 0,
          map[], 1, map[KEY := Replayed(1, 1)], map[])
  }

  lemma SignalComes(s: State)
    requires s == Viewing()
    ensures Enabled(WaitingCode(), s, Signal(KEY, "go", []))
    ensures Apply(WaitingCode(), s, Signal(KEY, "go", [])) == Signalled()
    ensures !SafeSignal(s, Signal(KEY, "go", []))
  {
    assert IsWorkflowTaskOf(s.db.tasks[1], KEY);
    assert AnyWorkflowTask(s.db, KEY);
    assert Rows(s.db, KEY) == [STARTED];
    var r := SignalWorkflow(s.db, s.metrics, 0, KEY, "go", []);
    assert r.db.events[KEY] == [STARTED, GO];
    assert r.db.events == map[KEY := [STARTED, GO]];
    assert r.db == Signalled().db && r.metrics == Signalled().metrics;
    forall id ensures !Unseen(s, KEY, id) {
      assert s.grants[0].taskId == 1;
    }
  }

  lemma AnswerComes()
    ensures Enabled(WaitingCode(), Signalled(), Respond(0, 1))
    ensures Apply(WaitingCode(), Signalled(), Respond(0, 1)) == Stranded()
  {
    WaitingReplay();
    hide Replay, Commands;
    var s := Signalled();
    assert CanRespond(WaitingCode(), VIEWED, 1) && ResponseCommands(WaitingCode(), VIEWED, 1) == [];
    hide CanRespond, ResponseCommands;
    assert s.db.tasks - {1} == map[];
    assert s.grants - {0} == map[];
    var h := CompleteWorkflowTask(s.db, s.metrics, s.clock, 1, KEY, []);
    assert h.db == Stranded().db && h.metrics == s.metrics;
    assert NewChains(s, h.db) == map[];
  }

  /** A signal that arrives while the only task of the run is being answered from an older view inserts no task, and the
      run stays open with nothing left in the tables that could move it, although replay would now finish it. */
  lemma ASignalCanBeLost() returns (code: Code, states: seq<State>, steps: seq<Step>)
    ensures Behavior(code, states, steps) && |steps| == 5
    ensures steps[3].Signal? && !SafeSignal(states[3], steps[3])
    ensures var s := states[5];
      && KEY in s.db.executions && s.db.executions[KEY].status == Running
      && s.db.tasks == map[] && s.db.timers == map[] && s.grants == map[]
      && !Parked(code, s.db, KEY) && LostSignal(code, s, KEY)
      && exists n: nat, w :: Function(code, s.db, KEY) == Some(w)
           && Replay(w, Rows(s.db, KEY), n).stop == Some(Finished(None))
  {
    hide *;
    code := WaitingCode();
    SignalComes(Viewing());
    AnswerComes();
    StrandedIsStuck();
    states, steps := Beginning(code);
    Extend(code, states, steps, Signal(KEY, "go", []), Signalled());
    states, steps := states + [Signalled()], steps + [Signal(KEY, "go", [])];
    Extend(code, states, steps, Respond(0, 1), Stranded());
    states, steps := states + [Stranded()], steps + [Respond(0, 1)];
  }

  lemma Beginning(code: Code) returns (states: seq<State>, steps: seq<Step>)
    ensures Behavior(code, states, steps)
    ensures states == [Initial(0), Begun(), Polled(), Viewing()] && |steps| == 3
  {
    hide Enabled, Apply;
    Opening(code);
    states, steps := [Initial(0)], [];
    Extend(code, states, steps, START, Begun());
    states, steps := states + [Begun()], steps + [START];
    Extend(code, states, steps, POLL, Polled());
    states, steps := states + [Polled()], steps + [POLL];
    Extend(code, states, steps, Snapshot(0, [STARTED]), Viewing());
    states, steps := states + [Viewing()], steps + [Snapshot(0, [STARTED])];
  }

  /** The run is started, and a worker polls its task and reads its history. */
  lemma Opening(code: Code)
    ensures Enabled(code, Initial(0), START) && Apply(code, Initial(0), START) == Begun()
    ensures Enabled(code, Begun(), POLL) && Apply(code, Begun(), POLL) == Polled()
    ensures Enabled(code, Polled(), Snapshot(0, [STARTED]))
    ensures Apply(code, Polled(), Snapshot(0, [STARTED])) == Viewing()
  {
    hide Enabled, Apply;
    Starts(code);
    ViewingIsNext();
    PollsFirst(code, Begun());
    Views(code, Polled(), 0);
  }

  lemma ViewingIsNext()
    ensures Polled().grants == map[0 := LEASED] && Viewing() == Polled().(grants := Polled().grants[0 := VIEWED])
    ensures Begun().clock == 0 && Begun().db == OneRun([STARTED], map[1 := WAKE], 2)
    ensures Polled() == Begun().(db := OneRun([STARTED], map[1 := Held(0)], 2), grants := Begun().grants[0 := LEASED],
                                 nextGrant := 1)
    ensures Begun().nextGrant == 0 && Polled().db.events == map[KEY := [STARTED]]
  {
  }

  lemma StrandedIsStuck()
    ensures var s, code := Stranded(), WaitingCode();
      && Function(code, s.db, KEY) == Some(Waits)
      && !Parked(code, s.db, KEY) && LostSignal(code, s, KEY)
      && Replay(Waits, Rows(s.db, KEY), 2).stop == Some(Finished(None))
      && KEY in s.db.executions && s.db.executions[KEY].status == Running
      && s.db.tasks == map[] && s.db.timers == map[] && s.grants == map[]
  {
    var s, code := Stranded(), WaitingCode();
    assert Rows(s.db, KEY) == [STARTED, GO];
    ResumedReplay(2);
    WaitingReplay();
    hide Replay;
    forall n: nat ensures !ParkedAt(Waits, s.db, KEY, n) {
      ResumedReplay(n);
    }
    assert [STARTED, GO][..1] == [STARTED];
    assert |Signals([STARTED, GO], "go")| > 0 by {
      assert [STARTED, GO][..1] == [STARTED];
    }
  }

  /* ---- an activity scheduled twice ---- */

  const A: Future := Future("a", 0)

  function CallsA(obs: seq<Observation>): Primitive {
    if obs == [] then ExecuteActivity("a", []) else if |obs| == 1 then Get(A) else Return(None)
  }

  function CallingCode(): Code { (t, input) => Some(CallsA) }

  lemma CallingReplay()
    ensures Replay(CallsA, [STARTED], 2) == Trace([Called(A, [])], Some(Waiting(OnActivity(A))))
    ensures Commands([STARTED], Replay(CallsA, [STARTED], 2), "q") == [ScheduleActivity("q", "a", 0, [])]
  {
    CallingRun();
    var t, rs := Replay(CallsA, [STARTED], 2), [Activity(A, [])];
    assert !Scheduled([STARTED], A);
    hide Run, Scheduled;
    assert [] + [Called(A, [])] == t.obs && [] + rs == rs;
    RequestsSnoc([], Called(A, []));
    UnrecordedSnoc([STARTED], [], rs[0]);
    assert RequestsIn([]) == [] && Unrecorded([STARTED], []) == [];
    hide RequestsIn, Unrecorded;
    assert Requests(t) == rs + [] == rs && Unrecorded([STARTED], rs) == rs;
    hide Requests;
    assert CommandsOf(rs, "q") == [ScheduleActivity("q", "a", 0, [])];
  }

  lemma CallingRun()
    ensures Replay(CallsA, [STARTED], 2) == Trace([Called(A, [])], Some(Waiting(OnActivity(A))))
  {
    var a := FromHistory([STARTED]);
    assert [STARTED][..0] == [];
    assert OutcomeOf([], A) == None && OutcomeOf([STARTED], A) == None;
    hide OutcomeOf;
    assert Run(CallsA, a, 0) == Trace([], None);
    assert Calls([]) == 0;
    assert Run(CallsA, a, 1) == Trace([Called(A, [])], None);
  }

  const WAIT: nat := LEASE + 1

  function LeaseOver(): State {
    Viewing().(clock := WAIT)
  }

  function Reclaimed(): State {
    Begun().(clock := WAIT, grants := map[0 := VIEWED], nextGrant := 1)
  }

  function PolledAgain(): State {
    Reclaimed().(db := OneRun([STARTED], map[1 := Held(WAIT)], 2),
                 grants := map[0 := VIEWED, 1 := LEASED], nextGrant := 2)
  }

  function BothView(): State {
    PolledAgain().(grants := map[0 := VIEWED, 1 := VIEWED])
  }

  lemma TimePasses(code: Code)
    ensures Enabled(code, Viewing(), Tick(WAIT)) && Apply(code, Viewing(), Tick(WAIT)) == LeaseOver()
    ensures Enabled(code, LeaseOver(), Reclaim) && Apply(code, LeaseOver(), Reclaim) == Reclaimed()
  {
    assert Released(Held(0), WAIT) == WAKE;
    assert ReclaimExpired(LeaseOver().db, WAIT).tasks == map[1 := WAKE];
  }

  /** Its lease reclaimed, the task is handed out again while its first holder is still at work. */
  lemma SecondHolder(code: Code)
    ensures Enabled(code, Reclaimed(), POLL) && Apply(code, Reclaimed(), POLL) == PolledAgain()
    ensures Enabled(code, PolledAgain(), Snapshot(1, [STARTED]))
    ensures Apply(code, PolledAgain(), Snapshot(1, [STARTED])) == BothView()
  {
    hide Enabled, Apply;
    PollsFirst(code, Reclaimed());
    assert map[0 := VIEWED][1 := LEASED] == map[0 := VIEWED, 1 := LEASED];
    Views(code, PolledAgain(), 1);
    assert PolledAgain().grants[1 := VIEWED] == map[0 := VIEWED, 1 := VIEWED];
  }

  predicate OpenRun(s: State) {
    KEY in s.db.executions && s.db.executions[KEY].status == Running
  }

  /** Either of them schedules the activity. */
  lemma Schedules(s: State, g: nat)
    requires g in s.grants && s.grants[g] == VIEWED && OpenRun(s)
    ensures Enabled(CallingCode(), s, Respond(g, 2))
    ensures var s', rows := Apply(CallingCode(), s, Respond(g, 2)), Rows(s.db, KEY);
      && OpenRun(s') && s'.grants == s.grants - {g}
      && |Rows(s'.db, KEY)| == |rows| + 1 && rows <= Rows(s'.db, KEY) && IsScheduled(Rows(s'.db, KEY)[|rows|], A)
  {
    var cmds := [ScheduleActivity("q", "a", 0, [])];
    CallingReplay();
    hide Replay, Commands;
    assert CanRespond(CallingCode(), VIEWED, 2) && ResponseCommands(CallingCode(), VIEWED, 2) == cmds;
    hide CanRespond, ResponseCommands, CompleteWorkflowTask, Rows, Longer, NewChains;
    RespondRows(s.db, s.metrics, s.clock, 1, KEY, cmds, KEY);
    RespondStatus(s.db, s.metrics, s.clock, 1, KEY, cmds, KEY);
    assert |CommandEvents(cmds, |Rows(s.db, KEY)| + 1)| == 1;
  }

  /** With two views of one run in flight, the same activity is scheduled twice. */
  lemma AnActivityCanBeScheduledTwice() returns (code: Code, states: seq<State>, steps: seq<Step>)
    ensures Behavior(code, states, steps) && |steps| == 9 && !SoleViews(states[7])
    ensures var rows := Rows(states[9].db, KEY); |rows| == 3 && IsScheduled(rows[1], A) && IsScheduled(rows[2], A)
  {
    hide *;
    code := CallingCode();
    TimePasses(code);
    SecondHolder(code);
    states, steps := Beginning(code);
    Extend(code, states, steps, Tick(WAIT), LeaseOver());
    states, steps := states + [LeaseOver()], steps + [Tick(WAIT)];
    Extend(code, states, steps, Reclaim, Reclaimed());
    states, steps := states + [Reclaimed()], steps + [Reclaim];
    Extend(code, states, steps, POLL, PolledAgain());
    states, steps := states + [PolledAgain()], steps + [POLL];
    Extend(code, states, steps, Snapshot(1, [STARTED]), BothView());
    states, steps := states + [BothView()], steps + [Snapshot(1, [STARTED])];
    var s8, s9 := BothAnswer();
    Extend(code, states, steps, Respond(0, 2), s8);
    states, steps := states + [s8], steps + [Respond(0, 2)];
    Extend(code, states, steps, Respond(1, 2), s9);
    states, steps := states + [s9], steps + [Respond(1, 2)];
    NotSole();
  }

  lemma BothAnswer() returns (s8: State, s9: State)
    ensures Enabled(CallingCode(), BothView(), Respond(0, 2)) && s8 == Apply(CallingCode(), BothView(), Respond(0, 2))
    ensures Enabled(CallingCode(), s8, Respond(1, 2)) && s9 == Apply(CallingCode(), s8, Respond(1, 2))
    ensures var rows := Rows(s9.db, KEY); |rows| == 3 && IsScheduled(rows[1], A) && IsScheduled(rows[2], A)
  {
    assert Rows(BothView().db, KEY) == [STARTED];
    hide Enabled, Apply, Rows, IsScheduled;
    Schedules(BothView(), 0);
    s8 := Apply(CallingCode(), BothView(), Respond(0, 2));
    Schedules(s8, 1);
    s9 := Apply(CallingCode(), s8, Respond(1, 2));
  }

  lemma NotSole()
    ensures !SoleViews(BothView())
  {
    assert BothView().grants[0].key == BothView().grants[1].key;
  }
}
