/** sdk/workflow/context.go and sdk/worker.go: the context a workflow function calls into, and the worker that runs the
    function against a history; proved to be the replay that the rest of the model reasons about. */
module Sdk {
  import opened Types
  import opened Counting
  import opened HistoryFacts
  import opened HistoryMeaning
  import opened Interpreter
  import opened RequestLaws
  import opened Engine

  /** Go's conversion of an int to an int32: the low 32 bits, read as two's complement. */
  function Int32(n: int): int {
    (n + 0x8000_0000) % 0x1_0000_0000 - 0x8000_0000
  }

  /** One per replay. The ghost parameter obs of its methods is what the function has observed so far: the fields must
      count it, and each call must answer as replay does after it. */
  class Context {
    const history: seq<Event>
    const queue: string
    var commands: seq<Command>
    var signalConsumed: map<string, int>
    var activityCallCount: int
    var timerCallCount: int

    constructor (history: seq<Event>, queue: string)
      ensures this.history == history && this.queue == queue
      ensures Counts([]) && Asked([])
    {
      this.history := history;
      this.queue := queue;
      commands := [];
      signalConsumed := map[];
      activityCallCount := 0;
      timerCallCount := 0;
    }

    function ConsumedOf(name: string): int
      reads this
    {
      if name in signalConsumed then signalConsumed[name] else 0
    }

    /** The counters count what the function has observed. */
    ghost predicate Counts(obs: seq<Observation>)
      reads this
    {
      && activityCallCount == Calls(obs)
      && timerCallCount == Timers(obs)
      && forall name :: ConsumedOf(name) == Consumed(obs, name)
    }

    /** The commands ask for what is requested and not on record. */
    ghost predicate Asked(rs: seq<Request>)
      reads this
    {
      commands == CommandsOf(Unrecorded(history, rs), queue)
    }

    method ExecuteActivity(name: string, input: Bytes, ghost obs: seq<Observation>) returns (f: Future)
      requires Counts(obs) && Asked(RequestsIn(obs)) && activityCallCount < 0x7fff_ffff
      modifies this
      ensures Answer(FromHistory(history), obs, Primitive.ExecuteActivity(name, input))
           == Trace(obs + [Called(f, input)], None)
      ensures f == Future(name, old(activityCallCount)) && activityCallCount == old(activityCallCount) + 1
      ensures commands == old(commands) +
        if exists i :: 0 <= i < |history| && history[i].kind == ActivityScheduled
             && history[i].activityName == name && history[i].activityIndex == old(activityCallCount)
        then [] else [ScheduleActivity(queue, name, old(activityCallCount), input)]
      ensures Counts(obs + [Called(f, input)]) && Asked(RequestsIn(obs + [Called(f, input)]))
    {
      var callIndex := activityCallCount;
      hide Calls, Timers, Consumed, RequestsIn, Unrecorded, CommandsOf;
      activityCallCount := activityCallCount + 1;
      var alreadyScheduled := false;
      for i := 0 to |history|
        invariant !alreadyScheduled
        invariant forall k :: 0 <= k < i ==> !IsScheduled(history[k], Future(name, callIndex))
      {
        if history[i].kind == ActivityScheduled && history[i].activityName == name
           && history[i].activityIndex == Int32(callIndex) {
          alreadyScheduled := true;
          break;
        }
      }
      f := Future(name, callIndex);
      assert alreadyScheduled == Scheduled(history, f);
      assert commands + [] == commands;
      if !alreadyScheduled {
        commands := commands + [ScheduleActivity(queue, name, Int32(callIndex), input)];
      }
      CountersSnoc(obs, Called(f, input));
      RequestsSnoc(obs, Called(f, input));
      AskedMore(history, RequestsIn(obs), Activity(f, input), queue);
    }

    /** None where the original panics with ErrPendingActivity. */
    method Get(f: Future, ghost obs: seq<Observation>) returns (r: Option<Outcome>)
      requires Counts(obs) && Asked(RequestsIn(obs)) && -0x8000_0000 <= f.index < 0x8000_0000
      ensures Answer(FromHistory(history), obs, Primitive.Get(f)) ==
        if r.Some? then Trace(obs + [Got(f, r.value)], None) else Trace(obs, Some(Waiting(OnActivity(f))))
      ensures forall d :: r == Some(Succeeded(d)) <==> EndsWith(history, f.name, f.index, ActivityCompleted, d)
      ensures forall d :: r == Some(Errored(d)) <==> EndsWith(history, f.name, f.index, ActivityFailed, d)
      ensures r.None? <==> forall i :: !EndsAt(history, i, f.name, f.index)
      ensures r.Some? ==> Counts(obs + [Got(f, r.value)]) && Asked(RequestsIn(obs + [Got(f, r.value)]))
    {
      OutcomeMeans(history, f);
      hide EndsWith, EndsAt;
      for i := 0 to |history|
        invariant OutcomeOf(history[..i], f).None?
      {
        var event := history[i];
        assert history[..i + 1] == history[..i] + [event];
        OutcomeSnoc(history[..i], event, f);
        if event.activityName != f.name {
          continue;
        }
        if event.activityIndex != Int32(f.index) {
          continue;
        }
        if event.kind == ActivityCompleted || event.kind == ActivityFailed {
          var outcome := if event.kind == ActivityCompleted then Succeeded(event.data) else Errored(event.data);
          assert history == history[..i + 1] + history[i + 1..];
          OutcomeAppend(history[..i + 1], history[i + 1..], f);
          CountersSnoc(obs, Got(f, outcome));
          RequestsSnoc(obs, Got(f, outcome));
          assert RequestsIn(obs) + [] == RequestsIn(obs);
          return Some(outcome);
        }
      }
      assert history[..|history|] == history;
      return None;
    }

    /** False where the original panics with ErrPendingActivity. */
    method Sleep(duration: int, ghost obs: seq<Observation>) returns (over: bool)
      requires Counts(obs) && Asked(RequestsIn(obs)) && timerCallCount < 0x7fff_ffff
      modifies this
      ensures var index := old(timerCallCount);
        Answer(FromHistory(history), obs, Primitive.Sleep(duration)) ==
          if over then Trace(obs + [Slept(index, duration)], None)
          else Trace(obs, Some(Waiting(OnTimer(index, duration))))
      ensures over <==> exists i ::
        0 <= i < |history| && history[i].kind == TimerFired && history[i].timerIndex == old(timerCallCount)
      ensures timerCallCount == old(timerCallCount) + 1
      ensures commands == old(commands) +
        if exists i :: 0 <= i < |history| && history[i].timerIndex == old(timerCallCount)
             && (history[i].kind == TimerFired || history[i].kind == TimerStarted)
        then [] else [StartTimer(old(timerCallCount), Milliseconds(duration))]
      ensures Asked(RequestsIn(obs) + [Nap(old(timerCallCount), duration)])
      ensures over ==> Counts(obs + [Slept(old(timerCallCount), duration)])
    {
      var timerIndex := timerCallCount;
      SleepAnswer(history, obs, duration);
      hide Calls, Timers, Consumed, RequestsIn, Unrecorded, CommandsOf, Answer, FromHistory, Milliseconds;
      timerCallCount := timerCallCount + 1;
      assert commands + [] == commands;
      AskedMore(history, RequestsIn(obs), Nap(timerIndex, duration), queue);
      CountersSnoc(obs, Slept(timerIndex, duration));
      for i := 0 to |history|
        invariant forall k :: 0 <= k < i ==> !IsFired(history[k], timerIndex)
      {
        if history[i].kind == TimerFired && history[i].timerIndex == Int32(timerIndex) {
          assert IsFired(history[i], timerIndex);
          return true;
        }
      }
      for i := 0 to |history|
        invariant forall k :: 0 <= k < i ==> !IsStarted(history[k], timerIndex)
      {
        if history[i].kind == TimerStarted && history[i].timerIndex == Int32(timerIndex) {
          assert IsStarted(history[i], timerIndex);
          return false;
        }
      }
      commands := commands + [StartTimer(Int32(timerIndex), Milliseconds(duration))];
      return false;
    }

    /** None where the original panics with ErrPendingActivity. */
    method ReceiveSignal(signalName: string, ghost obs: seq<Observation>) returns (r: Option<Bytes>)
      requires Counts(obs) && Asked(RequestsIn(obs))
      modifies this`signalConsumed
      ensures var k := Consumed(obs, signalName);
        Answer(FromHistory(history), obs, Primitive.ReceiveSignal(signalName)) ==
          if r.Some? then Trace(obs + [Received(signalName, k, r.value)], None)
          else Trace(obs, Some(Waiting(OnSignal(signalName, k))))
      ensures r.Some? <==> Tally(history, SignalNamed(signalName)) > old(ConsumedOf(signalName))
      ensures r.Some? ==> exists i, k ::
        NthSignalAt(history, i, signalName, k) && k == old(ConsumedOf(signalName)) && r.value == history[i].data
      ensures r.None? ==> signalConsumed == old(signalConsumed)
      ensures r.Some? ==> signalConsumed == old(signalConsumed)[signalName := old(ConsumedOf(signalName)) + 1]
      ensures r.Some? ==> var o := Received(signalName, Consumed(obs, signalName), r.value);
        Counts(obs + [o]) && Asked(RequestsIn(obs + [o]))
    {
      var consumed := ConsumedOf(signalName);
      var seen := 0;
      SignalAnswer(history, obs, signalName);
      SignalsOfNone(history, signalName);
      SignalCount(history, signalName);
      hide Tally, Signals, Unrecorded, CommandsOf, Consumed, Calls, Timers, RequestsIn, Answer, FromHistory;
      for i := 0 to |history|
        invariant seen == |Signals(history[..i], signalName)| <= consumed
        invariant signalConsumed == old(signalConsumed)
      {
        var event := history[i];
        SignalsStep(history, i, signalName);
        SignalCount(history[..i], signalName);
        if event.kind == SignalReceived && event.signalName == signalName {
          if seen == consumed {
            signalConsumed := signalConsumed[signalName := consumed + 1];
            QuietSnoc(obs, Received(signalName, consumed, event.data));
            assert NthSignalAt(history, i, signalName, consumed);
            return Some(event.data);
          }
          seen := seen + 1;
        }
      }
      return None;
    }
  }

  lemma SleepAnswer(h: seq<Event>, obs: seq<Observation>, d: int)
    ensures Answer(FromHistory(h), obs, Primitive.Sleep(d)) ==
      if Fired(h, Timers(obs)) then Trace(obs + [Slept(Timers(obs), d)], None)
      else Trace(obs, Some(Waiting(OnTimer(Timers(obs), d))))
  {
    hide Fired, Timers;
  }

  lemma SignalsOfNone(h: seq<Event>, name: string)
    ensures Signals(h[..0], name) == [] && h[..|h|] == h
  {
  }

  /** One event more may be the next signal of its name. */
  lemma SignalsStep(h: seq<Event>, i: nat, name: string)
    requires i < |h|
    ensures Signals(h[..i + 1], name) == Signals(h[..i], name) + SignalIn(h[i], name)
    ensures SignalIn(h[i], name) != [] ==>
      var k := |Signals(h[..i], name)|; k < |Signals(h, name)| && Signals(h, name)[k] == h[i].data
  {
    hide Signals;
    SignalsSnoc(h[..i], h[i], name);
    assert h[..i + 1] == h[..i] + [h[i]];
    assert h == h[..i + 1] + h[i + 1..];
    SignalsAppend(h[..i + 1], h[i + 1..], name);
  }

  lemma QuietSnoc(obs: seq<Observation>, o: Observation)
    requires RequestIn(o) == []
    ensures RequestsIn(obs + [o]) == RequestsIn(obs)
    ensures Calls(obs + [o]) == Calls(obs) + if o.Called? then 1 else 0
    ensures Timers(obs + [o]) == Timers(obs) + if o.Slept? then 1 else 0
    ensures forall name :: Consumed(obs + [o], name) == Consumed(obs, name) + if IsReceipt(o, name) then 1 else 0
  {
    CountersSnoc(obs, o);
    RequestsSnoc(obs, o);
    assert RequestsIn(obs) + [] == RequestsIn(obs);
  }

  /** A request adds its command to the list unless it is on record. */
  lemma AskedMore(h: seq<Event>, rs: seq<Request>, r: Request, queue: string)
    ensures CommandsOf(Unrecorded(h, rs + [r]), queue) ==
      CommandsOf(Unrecorded(h, rs), queue) + if Recorded(h, r) then [] else [CommandOf(r, queue)]
  {
    hide Unrecorded, Recorded, CommandOf;
    UnrecordedSnoc(h, rs, r);
    var sent := Unrecorded(h, rs);
    assert sent + [] == sent && CommandsOf(sent, queue) + [] == CommandsOf(sent, queue);
    assert CommandsOf(sent + [r], queue) == CommandsOf(sent, queue) + [CommandOf(r, queue)];
  }

  lemma SignalAnswer(h: seq<Event>, obs: seq<Observation>, name: string)
    ensures Answer(FromHistory(h), obs, Primitive.ReceiveSignal(name)) ==
      var k := Consumed(obs, name);
      if k < |Signals(h, name)| then Trace(obs + [Received(name, k, Signals(h, name)[k])], None)
      else Trace(obs, Some(Waiting(OnSignal(name, k))))
  {
    hide Signals, Consumed;
  }

  /* ---- the worker ---- */

  method WorkflowInput(history: seq<Event>) returns (input: Bytes)
    ensures input == InputOf(history)
    ensures forall i | 0 <= i < |history| && history[i].kind == WorkflowStarted
              && (forall j :: 0 <= j < i ==> history[j].kind != WorkflowStarted) :: input == history[i].data
    ensures (forall i :: 0 <= i < |history| ==> history[i].kind != WorkflowStarted) ==> input == []
  {
    for i := 0 to |history|
      invariant InputOf(history) == InputOf(history[i..])
      invariant forall j :: 0 <= j < i ==> history[j].kind != WorkflowStarted
    {
      if history[i].kind == WorkflowStarted {
        return history[i].data;
      }
    }
    return [];
  }

  /** A context that has served the calls of t: its counters and commands are those of t. */
  ghost predicate Serves(ctx: Context, t: Trace)
    reads ctx
  {
    ctx.Asked(Requests(t)) && (t.stop.None? ==> ctx.Counts(t.obs))
  }

  /** One call of the workflow function into the SDK; None where it returns or panics. */
  method Serve(ctx: Context, seen: seq<Observation>, call: Primitive) returns (o: Option<Observation>)
    requires !call.Return? && ctx.Counts(seen) && ctx.Asked(RequestsIn(seen))
    requires call.ExecuteActivity? ==> Calls(seen) < 0x7fff_ffff
    requires call.Sleep? ==> Timers(seen) < 0x7fff_ffff
    requires call.Get? ==> -0x8000_0000 <= call.future.index < 0x8000_0000
    modifies ctx
    ensures var t := Answer(FromHistory(ctx.history), seen, call);
      && Serves(ctx, t)
      && if o.Some? then t == Trace(seen + [o.value], None) else t.stop.Some? && t.stop.value.Waiting?
  {
    hide Answer, Calls, Timers, Consumed, RequestsIn, FromHistory, Requests, Unrecorded, CommandsOf;
    match call {
      case ExecuteActivity(name, input) =>
        var f := ctx.ExecuteActivity(name, input, seen);
        o := Some(Called(f, input));
        RequestsRunning(seen + [o.value]);
      case Get(f) =>
        var r := ctx.Get(f, seen);
        o := if r.Some? then Some(Got(f, r.value)) else None;
        RequestsRunning(if r.Some? then seen + [o.value] else seen);
        RequestsWaiting(seen, OnActivity(f));
      case Sleep(d) =>
        var index := ctx.timerCallCount;
        var over := ctx.Sleep(d, seen);
        o := if over then Some(Slept(index, d)) else None;
        RequestsSnoc(seen, Slept(index, d));
        RequestsRunning(seen + [Slept(index, d)]);
        RequestsWaiting(seen, OnTimer(index, d));
      case ReceiveSignal(name) =>
        var r := ctx.ReceiveSignal(name, seen);
        o := if r.Some? then Some(Received(name, Consumed(seen, name), r.value)) else None;
        RequestsRunning(if r.Some? then seen + [o.value] else seen);
        RequestsWaiting(seen, OnSignal(name, Consumed(seen, name)));
    }
  }

  lemma RequestsRunning(obs: seq<Observation>)
    ensures Requests(Trace(obs, None)) == RequestsIn(obs)
  {
    assert RequestsIn(obs) + [] == RequestsIn(obs);
  }

  lemma RequestsWaiting(obs: seq<Observation>, wait: Wait)
    ensures Requests(Trace(obs, Some(Waiting(wait)))) ==
      if wait.OnTimer? then RequestsIn(obs) + [Nap(wait.index, wait.duration)] else RequestsIn(obs)
  {
    assert RequestsIn(obs) + [] == RequestsIn(obs);
  }

  /** No call number outgrows an int32. */
  lemma {:induction false} IndicesInRange(w: Workflow, h: seq<Event>, n: nat)
    requires Sound(w)
    ensures var obs := Replay(w, h, n).obs;
      forall i :: 0 <= i < |obs| && obs[i].Called? ==> 0 <= obs[i].future.index < 0x7fff_ffff
  {
    if n > 0 {
      var t := Replay(w, h, n - 1);
      IndicesInRange(w, h, n - 1);
      assert Replay(w, h, n) == if t.stop.Some? then t else Answer(FromHistory(h), t.obs, w(t.obs));
      hide Replay, Calls, Timers, Consumed, FromHistory, Run;
    }
  }

  lemma CallsAreInRange(w: Workflow, seen: seq<Observation>, h: seq<Event>, n: nat)
    requires Sound(w) && Replay(w, h, n) == Trace(seen, None)
    ensures w(seen).ExecuteActivity? ==> Calls(seen) < 0x7fff_ffff
    ensures w(seen).Sleep? ==> Timers(seen) < 0x7fff_ffff
    ensures w(seen).Get? ==> 0 <= w(seen).future.index < 0x7fff_ffff
  {
    hide Replay;
    IndicesInRange(w, h, n);
  }

  lemma NextCall(w: Workflow, h: seq<Event>, n: nat, seen: seq<Observation>)
    requires Replay(w, h, n) == Trace(seen, None)
    ensures Replay(w, h, n + 1) == Answer(FromHistory(h), seen, w(seen))
  {
    hide Answer;
  }

  lemma StopsLater(w: Workflow, h: seq<Event>, n: nat, calls: nat)
    requires n <= calls && Replay(w, h, n).stop.None? && Replay(w, h, calls).stop.Some?
    ensures n < calls
  {
  }

  lemma ReturnEnds(obs: seq<Observation>, a: Answers, error: Option<Bytes>)
    ensures Answer(a, obs, Return(error)) == Trace(obs, Some(Finished(error)))
    ensures Requests(Trace(obs, Some(Finished(error)))) == RequestsIn(obs)
  {
    assert RequestsIn(obs) + [] == RequestsIn(obs);
  }

  /** executeWorkflowTask: run the function from the top against the history until it returns or panics, and report the
      commands it gave. There is no report when no function is registered for the workflow type or its input does not
      decode. The function's run is finite: calls bounds its length. */
  method ExecuteWorkflowTask(code: Code, workflowType: string, history: seq<Event>, queue: string, ghost calls: nat)
    returns (report: Option<seq<Command>>)
    requires SoundCode(code)
    requires var fn := FunctionFor(code, workflowType, history);
      fn.Some? ==> Replay(fn.value, history, calls).stop.Some?
    ensures var fn := FunctionFor(code, workflowType, history);
      report == if fn.Some? then Some(Commands(history, Replay(fn.value, history, calls), queue)) else None
  {
    var input := WorkflowInput(history);
    var fn := code(workflowType, input);
    if fn.None? {
      return None;
    }
    var w := fn.value;
    var ctx := new Context(history, queue);
    var seen: seq<Observation> := [];
    ghost var n := 0;
    StartsEmpty(w, history);
    assert Sound(w);
    hide Answer, RequestsIn, Calls, Timers, Consumed, Unrecorded, Replay, Requests, Sound, FromHistory, InputOf;
    while true
      invariant ctx.history == history && ctx.queue == queue
      invariant ctx.Counts(seen) && ctx.Asked(RequestsIn(seen))
      invariant n <= calls && Replay(w, history, n) == Trace(seen, None)
      decreases calls - n
    {
      CallsAreInRange(w, seen, history, n);
      StopsLater(w, history, n, calls);
      NextCall(w, history, n, seen);
      n := n + 1;
      var call := w(seen);
      if call.Return? {
        ReturnEnds(seen, FromHistory(history), call.error);
        ReplaySettles(w, history, n, calls);
        var commands := ctx.commands;
        if call.error.Some? {
          commands := commands + [FailWorkflow(call.error.value)];
        } else {
          commands := commands + [CompleteWorkflow([])];
        }
        return Some(commands);
      }
      var o := Serve(ctx, seen, call);
      if o.None? {
        ReplaySettles(w, history, n, calls);
        assert ctx.commands + [] == ctx.commands;
        return Some(ctx.commands);
      }
      seen := seen + [o.value];
      RequestsRunning(seen);
    }
  }

  lemma StartsEmpty(w: Workflow, h: seq<Event>)
    ensures Replay(w, h, 0) == Trace([], None) && RequestsIn([]) == []
  {
  }
}
