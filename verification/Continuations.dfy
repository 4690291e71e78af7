/** What can still happen, and what must: signals are seen by later answers or can be missed by all of them, and an open
    run with a workflow task can always be carried on. */
module Continuations {
  import opened Types
  import opened Counting
  import opened Interpreter
  import opened Tables
  import opened Handlers
  import opened Structure
  import opened Engine
  import opened Steps
  import opened Effects
  import opened Terminal
  import opened Numbering
  import opened Wakeups
  import opened AcceptedAnswers
  import opened NoStuck

  /** Step j is an accepted answer of the run, computed from a view that reaches beyond position p of its history. */
  ghost predicate SeesBeyond(states: seq<State>, steps: seq<Step>, j: nat, key: RunKey, p: int)
    requires j < |steps| < |states|
  {
    && AcceptedAnswer(states[j], steps[j])
    && var g := states[j].grants[steps[j].grant];
    && g.key == key && g.Viewed? && |g.view| > p
  }

  /* ---- safe signals are seen ---- */

  /** Until an answer has seen the event, a task covers it. */
  lemma CoverOrSee(code: Code, states: seq<State>, steps: seq<Step>, n: nat, key: RunKey, p: nat)
    requires Behavior(code, states, steps) && n < |steps|
    requires p < |Rows(states[n].db, key)| && Covered(states[n], key, p) && Length(states[n], key) <= p
    requires StatusIn(states[n + 1].db, key) == Some(Running) && key in states[n].db.executions
    ensures SeesBeyond(states, steps, n, key, p)
         || (Covered(states[n + 1], key, p) && Length(states[n + 1], key) <= p)
  {
    var s, step := states[n], steps[n];
    assert Enabled(code, s, step) && states[n + 1] == Apply(code, s, step);
    BaseAlways(code, states, steps, n);
    StepReplayed(code, s, step, key);
    AnswererViews(code, s, step);
    hide Behavior, Base, Apply, Enabled, Covered, Rows;
    if Length(states[n + 1], key) <= p {
      OldStaysCovered(code, s, step, key, p);
    }
  }

  lemma AnswererViews(code: Code, s: State, step: Step)
    requires Enabled(code, s, step)
    ensures step.Respond? ==> step.grant in s.grants && s.grants[step.grant].Viewed?
  {
  }

  /** Since step i and before state n, an accepted answer of the run has seen beyond position p. */
  ghost predicate SeenSince(states: seq<State>, steps: seq<Step>, i: nat, n: nat, key: RunKey, p: int)
    requires n <= |steps| < |states|
  {
    exists j: nat :: i < j < n && SeesBeyond(states, steps, j, key, p)
  }

  lemma WasOpen(code: Code, states: seq<State>, steps: seq<Step>, i: nat, n: nat, key: RunKey)
    requires Behavior(code, states, steps) && i <= n < |states| && key in states[i].db.executions
    requires StatusIn(states[n].db, key) == Some(Running)
    ensures StatusIn(states[i].db, key) == Some(Running)
  {
    StatusIsFinal(code, states, steps, i, n, key);
    hide Behavior;
  }

  /** Accepted answers cannot have seen more than there is. */
  lemma LengthIsWithin(code: Code, states: seq<State>, steps: seq<Step>, n: nat, key: RunKey)
    requires Behavior(code, states, steps) && n < |states| && StatusIn(states[n].db, key) == Some(Running)
    ensures Length(states[n], key) <= |Rows(states[n].db, key)|
  {
    InvariantAlways(code, states, steps, n);
    hide Behavior, Base, AllNumbered, Rows;
    AnsweredAt(code, states[n], key);
    hide Settled, InputOf;
  }

  lemma SignalArrives(code: Code, states: seq<State>, steps: seq<Step>, i: nat)
    requires Behavior(code, states, steps) && i < |steps| && Accepted(states[i], steps[i])
    ensures var key := steps[i].key;
      && key in states[i].db.executions && key in states[i + 1].db.executions
      && |Rows(states[i + 1].db, key)| == |Rows(states[i].db, key)| + 1
      && Length(states[i + 1], key) == Length(states[i], key) <= |Rows(states[i].db, key)|
      && Rows(states[i + 1].db, key)[|Rows(states[i].db, key)|].kind == SignalReceived
  {
    LengthIsWithin(code, states, steps, i, steps[i].key);
    assert states[i + 1] == Apply(code, states[i], steps[i]);
    hide Behavior;
    var s, step := states[i], steps[i];
    SignalRows(s.db, s.metrics, s.clock, step.key, step.name, step.data, step.key);
    hide Rows, AnyWorkflowTask;
  }

  lemma {:induction false} SeenOrCovered(code: Code, states: seq<State>, steps: seq<Step>, i: nat, n: nat, key: RunKey)
    requires Behavior(code, states, steps) && i < n < |states|
    requires Accepted(states[i], steps[i]) && SafeSignal(states[i], steps[i]) && steps[i].key == key
    requires StatusIn(states[n].db, key) == Some(Running)
    ensures var p := |Rows(states[i].db, key)|;
      || SeenSince(states, steps, i, n, key, p)
      || (Covered(states[n], key, p) && Length(states[n], key) <= p)
  {
    hide Enabled, Apply, Rows, Covered, SafeSignal, SeesBeyond, Base, Length;
    var p := |Rows(states[i].db, key)|;
    SignalArrives(code, states, steps, i);
    if n == i + 1 {
      BaseAlways(code, states, steps, i);
      assert Enabled(code, states[i], steps[i]);
      SignalCovers(code, states[i], steps[i]);
    } else {
      StatusIsFinal(code, states, steps, i + 1, n - 1, key);
      WasOpen(code, states, steps, n - 1, n, key);
      SeenOrCovered(code, states, steps, i, n - 1, key);
      LaterRows(code, states, steps, i + 1, n - 1, key);
      hide Behavior;
      if !SeenSince(states, steps, i, n - 1, key, p) {
        CoverOrSee(code, states, steps, n - 1, key, p);
      }
    }
  }

  /** By the time the run has no workflow task, some accepted answer has seen an accepted safe signal. */
  lemma SafeSignalIsSeen(code: Code, states: seq<State>, steps: seq<Step>, i: nat, n: nat, key: RunKey)
    requires Behavior(code, states, steps) && i < n < |states|
    requires Accepted(states[i], steps[i]) && SafeSignal(states[i], steps[i]) && steps[i].key == key
    requires Idle(states[n], key)
    ensures SeenSince(states, steps, i, n, key, |Rows(states[i].db, key)|)
  {
    SeenOrCovered(code, states, steps, i, n, key);
    hide Behavior, SafeSignal, SeenSince, Rows, Covered, AnyWorkflowTask;
    NothingCovers(states[n], key);
  }

  /* ---- unsafe signals can be missed ---- */

  /** The worker's replay comes to wait, and its answer leaves the run open. */
  predicate Suspends(code: Code, g: Grant, calls: nat) {
    CanRespond(code, g, calls) && StatusAfter(ResponseCommands(code, g, calls)) == Running
  }

  /** Whoever is at work on a view of the run will answer that it waits. */
  ghost predicate ViewsSuspend(code: Code, s: State, key: RunKey) {
    forall g :: g in s.grants && s.grants[g].Viewed? && s.grants[g].key == key ==>
      exists calls: nat :: Suspends(code, s.grants[g], calls)
  }

  /** Somebody is at work on the task with a view that does not reach beyond position p. */
  predicate AtWork(s: State, key: RunKey, id: int, p: int, g: nat) {
    && g in s.grants && s.grants[g].Viewed? && s.grants[g].key == key && s.grants[g].taskId == id
    && |s.grants[g].view| <= p
  }

  ghost predicate AllAtWork(s: State, key: RunKey, p: int) {
    forall id :: id in s.db.tasks && IsWorkflowTaskOf(s.db.tasks[id], key) ==> exists g :: AtWork(s, key, id, p, g)
  }

  ghost function WorkflowTasksOf(db: Db, key: RunKey): set<int> {
    set id | id in db.tasks && IsWorkflowTaskOf(db.tasks[id], key)
  }

  lemma CommandAddsActivity(p: Progress, now: int, key: RunKey, ex: Execution, cmd: Command, id: int)
    requires id in ApplyCommand(p, now, key, ex, cmd).db.tasks
    ensures var t := ApplyCommand(p, now, key, ex, cmd).db.tasks[id];
      t.kind == ActivityTask || (id in p.db.tasks && t == p.db.tasks[id])
  {
    hide CommandEvent, Rows;
  }

  lemma {:induction false} CommandsAddActivities(p: Progress, now: int, key: RunKey, ex: Execution, cmds: seq<Command>,
                                                 id: int)
    requires id in ApplyCommands(p, now, key, ex, cmds).db.tasks
    ensures var t := ApplyCommands(p, now, key, ex, cmds).db.tasks[id];
      t.kind == ActivityTask || (id in p.db.tasks && t == p.db.tasks[id])
  {
    hide ApplyCommand;
    if cmds != [] {
      var q := ApplyCommands(p, now, key, ex, cmds[..|cmds| - 1]);
      CommandAddsActivity(q, now, key, ex, cmds[|cmds| - 1], id);
      if id in q.db.tasks {
        CommandsAddActivities(p, now, key, ex, cmds[..|cmds| - 1], id);
      }
    }
  }

  /** An answer takes its task away and adds no workflow task. */
  lemma AnswerTakesTask(db: Db, m: Metrics, now: int, taskId: int, key: RunKey, cmds: seq<Command>, k: RunKey)
    ensures WorkflowTasksOf(CompleteWorkflowTask(db, m, now, taskId, key, cmds).db, k) <= WorkflowTasksOf(db, k)
    ensures taskId in db.tasks && key in db.executions ==>
      taskId !in WorkflowTasksOf(CompleteWorkflowTask(db, m, now, taskId, key, cmds).db, k)
  {
    hide ApplyCommands;
    if key in db.executions && db.executions[key].status == Running {
      var q := ApplyCommands(Begin(db, key), now, key, db.executions[key], cmds).db;
      forall id | id in WorkflowTasksOf(DeleteTask(q, taskId), k) ensures id in WorkflowTasksOf(db, k) {
        CommandsAddActivities(Begin(db, key), now, key, db.executions[key], cmds, id);
      }
    }
  }

  /** One of the workers answers from its old view. */
  lemma OldAnswer(code: Code, s: State, key: RunKey, p: int, g: nat, calls: nat)
    requires Base(s) && StatusIn(s.db, key) == Some(Running) && AllAtWork(s, key, p) && ViewsSuspend(code, s, key)
    requires g in s.grants && AtWork(s, key, s.grants[g].taskId, p, g) && Suspends(code, s.grants[g], calls)
    requires s.grants[g].taskId in WorkflowTasksOf(s.db, key)
    ensures Enabled(code, s, Respond(g, calls))
    ensures var s' := Apply(code, s, Respond(g, calls));
      && StatusIn(s'.db, key) == Some(Running) && AllAtWork(s', key, p) && ViewsSuspend(code, s', key)
      && WorkflowTasksOf(s'.db, key) < WorkflowTasksOf(s.db, key)
  {
    var v, step := s.grants[g], Respond(g, calls);
    var cmds := ResponseCommands(code, v, calls);
    var s' := Apply(code, s, step);
    hide Base, CanRespond, ResponseCommands, StatusAfter, Rows, CompleteWorkflowTask, Longer, NewChains;
    StepStatus(code, s, step, key);
    AnswerTakesTask(s.db, s.metrics, s.clock, v.taskId, key, cmds, key);
    assert s'.grants == s.grants - {g};
    assert s'.db == CompleteWorkflowTask(s.db, s.metrics, s.clock, v.taskId, key, cmds).db;
    hide Apply, Enabled, NextStatus;
    StillAtWork(s, s', key, p, g);
    StillSuspend(code, s, s', key, g);
  }

  lemma StillAtWork(s: State, s': State, key: RunKey, p: int, g: nat)
    requires g in s.grants && s'.grants == s.grants - {g} && AllAtWork(s, key, p)
    requires WorkflowTasksOf(s'.db, key) <= WorkflowTasksOf(s.db, key)
    requires s.grants[g].taskId !in WorkflowTasksOf(s'.db, key)
    ensures AllAtWork(s', key, p)
  {
    forall id | id in s'.db.tasks && IsWorkflowTaskOf(s'.db.tasks[id], key)
      ensures exists h :: AtWork(s', key, id, p, h)
    {
      assert id in WorkflowTasksOf(s'.db, key);
      assert id in WorkflowTasksOf(s.db, key);
      var h :| AtWork(s, key, id, p, h);
      assert AtWork(s', key, id, p, h);
    }
  }

  lemma StillSuspend(code: Code, s: State, s': State, key: RunKey, g: nat)
    requires s'.grants == s.grants - {g} && ViewsSuspend(code, s, key)
    ensures ViewsSuspend(code, s', key)
  {
    hide Suspends;
  }

  /** The system has run on from the one run to the other. */
  ghost predicate Continues(code: Code, states: seq<State>, steps: seq<Step>, states': seq<State>, steps': seq<Step>) {
    Behavior(code, states', steps') && states <= states' && steps <= steps'
  }

  lemma AnswerBlind(states: seq<State>, steps: seq<Step>, key: RunKey, p: int, s: State, step: Step)
    requires |states| == |steps| + 1 && step.Respond? && step.grant in states[|steps|].grants
    requires states[|steps|].grants[step.grant].Viewed? && |states[|steps|].grants[step.grant].view| <= p
    ensures !SeesBeyond(states + [s], steps + [step], |steps|, key, p)
  {
  }

  lemma SeenInPrefix(states: seq<State>, steps: seq<Step>, states': seq<State>, steps': seq<Step>, i: nat, key: RunKey,
                     p: int)
    requires |states| == |steps| + 1 && |states'| == |steps'| + 1 && states <= states' && steps <= steps'
    requires |steps'| == |steps| + 1 && !SeesBeyond(states', steps', |steps|, key, p)
    requires !SeenSince(states, steps, i, |steps|, key, p)
    ensures !SeenSince(states', steps', i, |steps'|, key, p)
  {
    forall j: nat | i < j < |steps'| ensures !SeesBeyond(states', steps', j, key, p) {
      if j < |steps| {
        assert states'[j] == states[j] && steps'[j] == steps[j];
        assert SeesBeyond(states', steps', j, key, p) == SeesBeyond(states, steps, j, key, p);
      }
    }
  }

  /** All of them answer, and none has seen the event. */
  lemma {:induction false} AllAnswerBlind(code: Code, states: seq<State>, steps: seq<Step>, i: nat, key: RunKey, p: int)
    returns (states': seq<State>, steps': seq<Step>)
    requires Behavior(code, states, steps) && i < |steps| && !SeenSince(states, steps, i, |steps|, key, p)
    requires var s := states[|steps|];
      StatusIn(s.db, key) == Some(Running) && AllAtWork(s, key, p) && ViewsSuspend(code, s, key)
    ensures Continues(code, states, steps, states', steps') && Idle(states'[|steps'|], key)
    ensures !SeenSince(states', steps', i, |steps'|, key, p)
    decreases WorkflowTasksOf(states[|steps|].db, key)
  {
    assert |states| == |steps| + 1;
    hide Behavior, SeenSince, ViewsSuspend, AllAtWork;
    if AnyWorkflowTask(states[|steps|].db, key) {
      var more, moreSteps := OneAnswersBlind(code, states, steps, i, key, p);
      states', steps' := AllAnswerBlind(code, more, moreSteps, i, key, p);
    } else {
      states', steps' := states, steps;
    }
  }

  lemma OneAnswersBlind(code: Code, states: seq<State>, steps: seq<Step>, i: nat, key: RunKey, p: int)
    returns (states': seq<State>, steps': seq<Step>)
    requires Behavior(code, states, steps) && i < |steps| && !SeenSince(states, steps, i, |steps|, key, p)
    requires var s := states[|steps|];
      && StatusIn(s.db, key) == Some(Running) && AllAtWork(s, key, p) && ViewsSuspend(code, s, key)
      && AnyWorkflowTask(s.db, key)
    ensures Continues(code, states, steps, states', steps')
    ensures |steps'| == |steps| + 1 && |states'| == |steps'| + 1 && !SeenSince(states', steps', i, |steps'|, key, p)
    ensures var s, s' := states[|steps|], states'[|steps'|];
      && StatusIn(s'.db, key) == Some(Running) && AllAtWork(s', key, p) && ViewsSuspend(code, s', key)
      && WorkflowTasksOf(s'.db, key) < WorkflowTasksOf(s.db, key)
  {
    var s := states[|steps|];
    BaseAlways(code, states, steps, |steps|);
    var id :| id in s.db.tasks && IsWorkflowTaskOf(s.db.tasks[id], key);
    hide Enabled, Apply, Base, SeesBeyond, SeenSince, ViewsSuspend, Suspends, AllAtWork;
    var g, calls := Worker(code, s, key, id, p);
    OldAnswer(code, s, key, p, g, calls);
    var step, s' := Respond(g, calls), Apply(code, s, Respond(g, calls));
    Extend(code, states, steps, step, s');
    AnswerBlind(states, steps, key, p, s', step);
    states', steps' := states + [s'], steps + [step];
    hide Behavior;
    SeenInPrefix(states, steps, states', steps', i, key, p);
  }

  lemma Worker(code: Code, s: State, key: RunKey, id: int, p: int) returns (g: nat, calls: nat)
    requires AllAtWork(s, key, p) && ViewsSuspend(code, s, key)
    requires id in s.db.tasks && IsWorkflowTaskOf(s.db.tasks[id], key)
    ensures AtWork(s, key, id, p, g) && Suspends(code, s.grants[g], calls)
  {
    g :| AtWork(s, key, id, p, g);
    hide Suspends;
    calls :| Suspends(code, s.grants[g], calls);
  }

  /** After an unsafe signal all workflow tasks of the run are being worked on with views that lack it. */
  lemma UnsafeSignalAtWork(code: Code, s: State, step: Step)
    requires Base(s) && Accepted(s, step) && !SafeSignal(s, step)
    ensures Apply(code, s, step).grants == s.grants && StatusIn(Apply(code, s, step).db, step.key) == Some(Running)
    ensures AllAtWork(Apply(code, s, step), step.key, |Rows(s.db, step.key)|)
  {
    var s', key := Apply(code, s, step), step.key;
    assert s'.db.tasks == s.db.tasks && s'.grants == s.grants;
    hide Apply, Rows;
    forall id | id in s'.db.tasks && IsWorkflowTaskOf(s'.db.tasks[id], key)
      ensures exists g :: AtWork(s', key, id, |Rows(s.db, key)|, g)
    {
      assert !Unseen(s, key, id);
      var g :| g in s.grants && s.grants[g].Viewed? && s.grants[g].taskId == id;
      assert GrantOk(s.db, s.grants[g]);
      assert AtWork(s', key, id, |Rows(s.db, key)|, g);
    }
  }

  /** However the system runs on, once the run has no workflow task an answer has seen the event at p. */
  ghost predicate AlwaysSeen(code: Code, states: seq<State>, steps: seq<Step>, i: nat, key: RunKey, p: int) {
    forall states', steps' |
      Continues(code, states, steps, states', steps') && |states'| == |steps'| + 1 && Idle(states'[|steps'|], key) ::
      SeenSince(states', steps', i, |steps'|, key, p)
  }

  lemma UnsafeSignalCanBeMissed(code: Code, states: seq<State>, steps: seq<Step>, i: nat)
    returns (states': seq<State>, steps': seq<Step>)
    requires Behavior(code, states, steps) && |steps| == i + 1
    requires Accepted(states[i], steps[i]) && !SafeSignal(states[i], steps[i])
    requires ViewsSuspend(code, states[i], steps[i].key)
    ensures Continues(code, states, steps, states', steps') && Idle(states'[|steps'|], steps[i].key)
    ensures !SeenSince(states', steps', i, |steps'|, steps[i].key, |Rows(states[i].db, steps[i].key)|)
  {
    var key, p := steps[i].key, |Rows(states[i].db, steps[i].key)|;
    BaseAlways(code, states, steps, i);
    assert states[i + 1] == Apply(code, states[i], steps[i]);
    UnsafeSignalAtWork(code, states[i], steps[i]);
    hide Enabled, Apply, Base, Rows, SafeSignal, AllAtWork, SeesBeyond, Suspends;
    states', steps' := AllAnswerBlind(code, states, steps, i, key, p);
  }

  /** An accepted signal is sure to be seen by an answer before the run comes to rest, however the system runs on, if
      and only if it inserts a task or some task of the run has no outstanding view; given that the workers that have a
      view of the run will find it waiting, for otherwise they close it. */
  lemma SignalGuard(code: Code, states: seq<State>, steps: seq<Step>, i: nat)
    requires Behavior(code, states, steps) && |steps| == i + 1 && Accepted(states[i], steps[i])
    requires ViewsSuspend(code, states[i], steps[i].key)
    ensures AlwaysSeen(code, states, steps, i, steps[i].key, |Rows(states[i].db, steps[i].key)|)
       <==> SafeSignal(states[i], steps[i])
  {
    var key, p := steps[i].key, |Rows(states[i].db, steps[i].key)|;
    hide Enabled, Apply, Rows, SafeSignal, SeenSince, ViewsSuspend, AnyWorkflowTask;
    if SafeSignal(states[i], steps[i]) {
      forall states', steps' |
        Continues(code, states, steps, states', steps') && |states'| == |steps'| + 1 && Idle(states'[|steps'|], key)
        ensures SeenSince(states', steps', i, |steps'|, key, p)
      {
        assert states'[i] == states[i] && steps'[i] == steps[i];
        hide Behavior, Idle;
        SafeSignalIsSeen(code, states', steps', i, |steps'|, key);
      }
    } else {
      var states', steps' := UnsafeSignalCanBeMissed(code, states, steps, i);
    }
  }

  /* ---- work can always be carried on ---- */

  /** The tasks a poll of the queue hands out before the given one. */
  ghost function Ahead(s: State, queue: string, id: int): set<int> {
    set k | k in s.db.tasks && Pollable(s.db.tasks[k], queue, WorkflowTask, s.clock) && k < id
  }

  lemma Smallest(ks: set<int>) returns (m: int)
    requires ks != {}
    ensures m in ks && forall k :: k in ks ==> m <= k
  {
    var k := HasMember(ks);
    var rest := ks - {k};
    assert forall l :: l in ks ==> l == k || l in rest;
    m := k;
    if rest != {} {
      var n := Smallest(rest);
      m := if k < n then k else n;
    }
  }

  /** The step that hands out a task of the queue leaves everything but its lease and the grants. */
  lemma PollEffect(code: Code, s: State, queue: string, id: int)
    requires NextTask(s.db, queue, WorkflowTask, s.clock, id)
    ensures Enabled(code, s, PollWorkflow(queue, "", id))
    ensures var s', t := Apply(code, s, PollWorkflow(queue, "", id)), s.db.tasks[id];
      && s'.clock == s.clock && s'.db == LeaseTask(s.db, id, "", s.clock)
      && s'.grants == s.grants[s.nextGrant := Leased(id, t.key, queue, t.workflowType)]
  {
    hide LeaseTask, NewChains, Longer;
  }

  /** Polling the queue often enough hands out the task. */
  lemma {:induction false} PollUntil(code: Code, states: seq<State>, steps: seq<Step>, queue: string, id: int)
    returns (states': seq<State>, steps': seq<Step>, g: nat)
    requires Behavior(code, states, steps)
    requires var s := states[|steps|];
      id in s.db.tasks && Pollable(s.db.tasks[id], queue, WorkflowTask, s.clock)
    ensures Continues(code, states, steps, states', steps')
    ensures var s, s' := states[|steps|], states'[|steps'|];
      && s'.db.events == s.db.events && s'.db.executions == s.db.executions
      && g in s'.grants && s'.grants[g] == Leased(id, s.db.tasks[id].key, queue, s.db.tasks[id].workflowType)
    decreases Ahead(states[|steps|], queue, id)
  {
    var s := states[|steps|];
    var k := id;
    if Ahead(s, queue, id) != {} {
      k := Smallest(Ahead(s, queue, id));
    }
    assert NextTask(s.db, queue, WorkflowTask, s.clock, k) by { FirstInQueue(s, queue, id, k); }
    hide Enabled, Apply;
    PollEffect(code, s, queue, k);
    var step := PollWorkflow(queue, "", k);
    var s1 := Apply(code, s, step);
    Extend(code, states, steps, step, s1);
    if k == id {
      states', steps', g := states + [s1], steps + [step], s.nextGrant;
    } else {
      OneLess(s, s1, queue, id, k);
      hide Behavior, NextTask, Ahead, Pollable;
      states', steps', g := PollUntil(code, states + [s1], steps + [step], queue, id);
    }
  }

  lemma FirstInQueue(s: State, queue: string, id: int, k: int)
    requires id in s.db.tasks && Pollable(s.db.tasks[id], queue, WorkflowTask, s.clock)
    requires if Ahead(s, queue, id) == {} then k == id
             else k in Ahead(s, queue, id) && forall l :: l in Ahead(s, queue, id) ==> k <= l
    ensures NextTask(s.db, queue, WorkflowTask, s.clock, k)
  {
    forall l | l in s.db.tasks && Pollable(s.db.tasks[l], queue, WorkflowTask, s.clock) ensures k <= l {
      if l < id {
        assert l in Ahead(s, queue, id);
      }
    }
  }

  lemma OneLess(s: State, s1: State, queue: string, id: int, k: int)
    requires k in Ahead(s, queue, id) && id in s.db.tasks && Pollable(s.db.tasks[id], queue, WorkflowTask, s.clock)
    requires s1.clock == s.clock && s1.db == LeaseTask(s.db, k, "", s.clock)
    ensures Ahead(s1, queue, id) < Ahead(s, queue, id)
    ensures id in s1.db.tasks && s1.db.tasks[id] == s.db.tasks[id]
  {
    assert k !in Ahead(s1, queue, id);
  }

  /** Time passes until the task is visible and any lease of it has run out, and leases are reclaimed. */
  lemma FreeTask(code: Code, states: seq<State>, steps: seq<Step>, id: int)
    returns (states': seq<State>, steps': seq<Step>)
    requires Behavior(code, states, steps) && id in states[|steps|].db.tasks
    ensures Continues(code, states, steps, states', steps')
    ensures var s, s' := states[|steps|], states'[|steps'|];
      && s'.db.events == s.db.events && s'.db.executions == s.db.executions && id in s'.db.tasks
      && Pollable(s'.db.tasks[id], s.db.tasks[id].queue, s.db.tasks[id].kind, s'.clock)
      && s'.db.tasks[id].key == s.db.tasks[id].key && s'.db.tasks[id].workflowType == s.db.tasks[id].workflowType
  {
    var s := states[|steps|];
    var t := s.db.tasks[id];
    BaseAlways(code, states, steps, |steps|);
    LeaseIsWhole(s, id);
    hide Base, Enabled, Apply;
    var expiry := if t.leaseExpiresAt.Some? then t.leaseExpiresAt.value else t.visibleAt;
    var latest := if expiry < t.visibleAt then t.visibleAt else expiry;
    var elapsed: nat := if latest < s.clock then 0 else latest - s.clock + 1;
    TimeEffect(code, s, elapsed);
    var s1 := Apply(code, s, Tick(elapsed));
    Extend(code, states, steps, Tick(elapsed), s1);
    ReclaimEffect(code, s1);
    var s2 := Apply(code, s1, Reclaim);
    Extend(code, states + [s1], steps + [Tick(elapsed)], Reclaim, s2);
    states', steps' := states + [s1] + [s2], steps + [Tick(elapsed)] + [Reclaim];
  }

  lemma LeaseIsWhole(s: State, id: int)
    requires Base(s) && id in s.db.tasks
    ensures s.db.tasks[id].leaseOwner.Some? <==> s.db.tasks[id].leaseExpiresAt.Some?
  {
    assert TaskOk(s.db, id);
  }

  lemma TimeEffect(code: Code, s: State, elapsed: nat)
    ensures Enabled(code, s, Tick(elapsed)) && Apply(code, s, Tick(elapsed)) == s.(clock := s.clock + elapsed)
  {
  }

  lemma ReclaimEffect(code: Code, s: State)
    ensures Enabled(code, s, Reclaim) && Apply(code, s, Reclaim) == s.(db := ReclaimExpired(s.db, s.clock))
  {
  }

  lemma RowsAreInOrder(rows: seq<Event>)
    requires Numbered(rows)
    ensures OrderedBy(rows, rows)
  {
    forall i, j | 0 <= i < j < |rows| ensures rows[i].eventId <= rows[j].eventId {
      IdBounds(rows, i, j);
    }
  }

  /** Once a worker has the task, it can read the history and answer. */
  lemma ReadAndAnswer(code: Code, states: seq<State>, steps: seq<Step>, g: nat, calls: nat)
    returns (states': seq<State>, steps': seq<Step>)
    requires Behavior(code, states, steps)
    requires var s := states[|steps|];
      && g in s.grants && s.grants[g].Leased? && StatusIn(s.db, s.grants[g].key) == Some(Running)
      && Function(code, s.db, s.grants[g].key).Some?
      && Replay(Function(code, s.db, s.grants[g].key).value, Rows(s.db, s.grants[g].key), calls).stop.Some?
    ensures Continues(code, states, steps, states', steps') && |steps'| == |steps| + 2 && |states'| == |steps'| + 1
    ensures var s := states[|steps|];
      SeesBeyond(states', steps', |steps'| - 1, s.grants[g].key, |Rows(s.db, s.grants[g].key)| - 1)
  {
    var s := states[|steps|];
    var l := s.grants[g];
    var rows := Rows(s.db, l.key);
    BaseAlways(code, states, steps, |steps|);
    RunIsNumbered(code, states, steps, |steps|, l.key);
    RowsAreInOrder(rows);
    LeasedType(s, g);
    hide Rows, Replay, Base, Numbered, OrderedBy;
    SnapshotEffect(code, s, g, rows);
    var s1 := Apply(code, s, Snapshot(g, rows));
    var v := s1.grants[g];
    assert CanRespond(code, v, calls);
    assert Enabled(code, s1, Respond(g, calls));
    hide Enabled, Apply, CanRespond, Function;
    var s2 := Apply(code, s1, Respond(g, calls));
    Extend(code, states, steps, Snapshot(g, rows), s1);
    Extend(code, states + [s1], steps + [Snapshot(g, rows)], Respond(g, calls), s2);
    states', steps' := states + [s1] + [s2], steps + [Snapshot(g, rows)] + [Respond(g, calls)];
  }

  lemma LeasedType(s: State, g: nat)
    requires Base(s) && g in s.grants && !s.grants[g].ActivityGrant?
    ensures s.grants[g].key in s.db.executions
    ensures s.grants[g].workflowType == s.db.executions[s.grants[g].key].workflowType
  {
    assert GrantOk(s.db, s.grants[g]);
  }

  lemma SnapshotEffect(code: Code, s: State, g: nat, view: seq<Event>)
    requires g in s.grants && s.grants[g].Leased? && OrderedBy(view, Rows(s.db, s.grants[g].key))
    ensures Enabled(code, s, Snapshot(g, view))
    ensures var l := s.grants[g]; var v := Viewed(l.taskId, l.key, l.queue, l.workflowType, view);
      Apply(code, s, Snapshot(g, view)) == s.(grants := s.grants[g := v])
  {
  }

  /** A task of the run can be handed out again, whoever has it now. */
  lemma LeaseAgain(code: Code, states: seq<State>, steps: seq<Step>, key: RunKey)
    returns (states': seq<State>, steps': seq<Step>, g: nat)
    requires Behavior(code, states, steps) && AnyWorkflowTask(states[|steps|].db, key)
    ensures Continues(code, states, steps, states', steps') && |states'| == |steps'| + 1
    ensures var s, s' := states[|steps|], states'[|steps'|];
      && s'.db.events == s.db.events && s'.db.executions == s.db.executions
      && g in s'.grants && s'.grants[g].Leased? && s'.grants[g].key == key
  {
    var s := states[|steps|];
    var id :| id in s.db.tasks && IsWorkflowTaskOf(s.db.tasks[id], key);
    hide Enabled, Apply, Pollable, AnyWorkflowTask;
    var free, freeSteps := FreeTask(code, states, steps, id);
    states', steps', g := PollUntil(code, free, freeSteps, s.db.tasks[id].queue, id);
  }

  /** An open run with a workflow task is never beyond help: whatever its workers and leases are up to, the system can
      run on to an accepted answer that has seen the whole of its history, if its function ends or waits on it. */
  lemma WorkCanGoOn(code: Code, states: seq<State>, steps: seq<Step>, key: RunKey, calls: nat)
    returns (states': seq<State>, steps': seq<Step>)
    requires Behavior(code, states, steps)
    requires var s := states[|steps|];
      && StatusIn(s.db, key) == Some(Running) && AnyWorkflowTask(s.db, key)
      && Function(code, s.db, key).Some? && Replay(Function(code, s.db, key).value, Rows(s.db, key), calls).stop.Some?
    ensures Continues(code, states, steps, states', steps') && |steps'| > |steps| && |states'| == |steps'| + 1
    ensures SeesBeyond(states', steps', |steps'| - 1, key, |Rows(states[|steps|].db, key)| - 1)
  {
    var s := states[|steps|];
    hide Behavior, Replay, SeesBeyond, AnyWorkflowTask, Function, Rows;
    var leased, leasedSteps, g := LeaseAgain(code, states, steps, key);
    SameHistory(code, s.db, leased[|leasedSteps|].db, key);
    states', steps' := ReadAndAnswer(code, leased, leasedSteps, g, calls);
  }

  lemma SameHistory(code: Code, a: Db, b: Db, key: RunKey)
    requires a.events == b.events && a.executions == b.executions && key in a.executions
    ensures Rows(b, key) == Rows(a, key) && Function(code, b, key) == Function(code, a, key)
  {
  }
}
