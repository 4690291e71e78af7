/** The activities and timers a replay asks for: the calls they come from, their numbering, and which of them are still
    to be sent. */
module RequestLaws {
  import opened Types
  import opened Counting
  import opened HistoryFacts
  import opened Interpreter
  import opened ReplayLaws

  function Activities(rs: seq<Request>): nat {
    if rs == [] then 0 else Activities(rs[..|rs| - 1]) + if rs[|rs| - 1].Activity? then 1 else 0
  }

  function Naps(rs: seq<Request>): nat {
    if rs == [] then 0 else Naps(rs[..|rs| - 1]) + if rs[|rs| - 1].Nap? then 1 else 0
  }

  predicate IndexedAt(rs: seq<Request>, i: nat)
    requires i < |rs|
  {
    match rs[i]
    case Activity(f, _) => f.index == Activities(rs[..i])
    case Nap(k, _) => k == Naps(rs[..i])
  }

  /** Activities are numbered 0, 1, 2, ... in the order they are asked for, and so are timers. */
  ghost predicate WellIndexed(rs: seq<Request>) {
    forall i: nat :: i < |rs| ==> IndexedAt(rs, i)
  }

  lemma WellIndexedSnoc(rs: seq<Request>, r: Request)
    requires WellIndexed(rs)
    requires match r case Activity(f, _) => f.index == Activities(rs) case Nap(k, _) => k == Naps(rs)
    ensures WellIndexed(rs + [r])
    ensures Activities(rs + [r]) == Activities(rs) + if r.Activity? then 1 else 0
    ensures Naps(rs + [r]) == Naps(rs) + if r.Nap? then 1 else 0
  {
    var u := rs + [r];
    assert u[..|rs|] == rs;
    hide Activities, Naps;
    forall i: nat | i < |u| ensures IndexedAt(u, i) {
      if i < |rs| {
        assert IndexedAt(rs, i);
        assert u[..i] == rs[..i];
      }
    }
  }

  ghost predicate InStep(obs: seq<Observation>) {
    && WellIndexed(RequestsIn(obs))
    && Activities(RequestsIn(obs)) == Calls(obs)
    && Naps(RequestsIn(obs)) == Timers(obs)
  }

  lemma InStepSnoc(obs: seq<Observation>, o: Observation)
    requires InStep(obs)
    requires o.Called? ==> o.future.index == Calls(obs)
    requires o.Slept? ==> o.index == Timers(obs)
    ensures InStep(obs + [o])
  {
    hide RequestsIn, Calls, Timers, WellIndexed, Activities, Naps;
    RequestsSnoc(obs, o);
    CountersSnoc(obs, o);
    if o.Called? || o.Slept? {
      WellIndexedSnoc(RequestsIn(obs), RequestIn(o)[0]);
    } else {
      assert RequestsIn(obs) + [] == RequestsIn(obs);
    }
  }

  lemma AnswerInStep(a: Answers, obs: seq<Observation>, p: Primitive)
    requires InStep(obs)
    ensures InStep(Answer(a, obs, p).obs)
  {
    hide InStep, Calls, Timers, Consumed;
    var t := Answer(a, obs, p);
    if t.stop.None? {
      InStepSnoc(obs, t.obs[|obs|]);
      assert t.obs == obs + [t.obs[|obs|]];
    }
  }

  lemma {:induction false} ObservedRequests(w: Workflow, a: Answers, n: nat)
    ensures InStep(Run(w, a, n).obs)
  {
    if n > 0 {
      hide InStep, Answer;
      ObservedRequests(w, a, n - 1);
      AnswerInStep(a, Run(w, a, n - 1).obs, w(Run(w, a, n - 1).obs));
    }
  }

  /** Replay's k-th ExecuteActivity carries index k, its k-th Sleep timer index k. */
  lemma RequestsAreNumbered(w: Workflow, a: Answers, n: nat)
    ensures WellIndexed(Requests(Run(w, a, n)))
  {
    var t := Run(w, a, n);
    hide Run, WellIndexed, Calls, Timers, Activities, Naps;
    ObservedRequests(w, a, n);
    if t.stop.Some? && t.stop.value.Waiting? && t.stop.value.wait.OnTimer? {
      StopIsAnswer(w, a, n);
      WellIndexedSnoc(RequestsIn(t.obs), Nap(t.stop.value.wait.index, t.stop.value.wait.duration));
    } else {
      assert RequestsIn(t.obs) + [] == RequestsIn(t.obs);
    }
  }

  /** A run stops where its next call got no answer. */
  lemma {:induction false} StopIsAnswer(w: Workflow, a: Answers, n: nat)
    requires Run(w, a, n).stop.Some?
    ensures Run(w, a, n) == Answer(a, Run(w, a, n).obs, w(Run(w, a, n).obs))
  {
    hide Answer;
    if Run(w, a, n - 1).stop.Some? {
      StopIsAnswer(w, a, n - 1);
    } else {
      AnswerShape(a, Run(w, a, n - 1).obs, w(Run(w, a, n - 1).obs));
    }
  }

  lemma {:induction false} CountsGrow(rs: seq<Request>, i: nat, j: nat)
    requires i <= j <= |rs|
    ensures Activities(rs[..i]) <= Activities(rs[..j])
    ensures Naps(rs[..i]) <= Naps(rs[..j])
  {
    if i < j {
      CountsGrow(rs, i, j - 1);
      assert rs[..j][..j - 1] == rs[..j - 1];
    }
  }

  predicate SameIndex(r: Request, q: Request) {
    match (r, q)
    case (Activity(f, _), Activity(g, _)) => f.index == g.index
    case (Nap(i, _), Nap(k, _)) => i == k
    case _ => false
  }

  /** No two requests of one replay share a kind and an index. */
  lemma RequestsAreDistinct(rs: seq<Request>, i: nat, j: nat)
    requires WellIndexed(rs) && i < j < |rs|
    ensures !SameIndex(rs[i], rs[j])
  {
    CountsGrow(rs, i + 1, j);
    assert rs[..i + 1][..i] == rs[..i];
    assert IndexedAt(rs, i) && IndexedAt(rs, j);
  }

  lemma {:induction false} CallIsRequested(obs: seq<Observation>, i: nat)
    requires i < |obs| && obs[i].Called?
    ensures Activity(obs[i].future, obs[i].input) in RequestsIn(obs)
  {
    if i < |obs| - 1 {
      CallIsRequested(obs[..|obs| - 1], i);
    }
  }

  /** A sound workflow waits only for activities it asked for. */
  lemma AwaitedIsRequested(w: Workflow, a: Answers, n: nat) returns (r: Request)
    requires Sound(w)
    requires Run(w, a, n).stop.Some? && Run(w, a, n).stop.value.Waiting?
    requires Run(w, a, n).stop.value.wait.OnActivity?
    ensures r in Requests(Run(w, a, n)) && r.Activity? && r.future == Run(w, a, n).stop.value.wait.future
  {
    var t := Run(w, a, n);
    StopIsAnswer(w, a, n);
    hide Run;
    var i :| 0 <= i < |t.obs| && t.obs[i].Called? && t.obs[i].future == t.stop.value.wait.future;
    CallIsRequested(t.obs, i);
    r := Activity(t.obs[i].future, t.obs[i].input);
  }

  lemma {:induction false} RequestIsObserved(obs: seq<Observation>, r: Request) returns (p: nat)
    requires r in RequestsIn(obs)
    ensures p < |obs| && r in RequestIn(obs[p])
  {
    if r in RequestIn(obs[|obs| - 1]) {
      p := |obs| - 1;
    } else {
      p := RequestIsObserved(obs[..|obs| - 1], r);
    }
  }

  /** A replay asks for an activity only where the function calls ExecuteActivity with that name and that input, and for
      a timer only where it calls Sleep with that duration; the number is that of the calls of its kind before. */
  lemma RequestsAreCalls(w: Workflow, h: seq<Event>, n: nat, r: Request) returns (p: nat)
    requires r in Requests(Replay(w, h, n))
    ensures p <= |Replay(w, h, n).obs|
    ensures var obs := Replay(w, h, n).obs[..p];
      match r
      case Activity(f, input) => w(obs) == ExecuteActivity(f.name, input) && f.index == Tally(obs, IsCall())
      case Nap(i, d) => w(obs) == Sleep(d) && i == Tally(obs, IsNap())
  {
    var t := Replay(w, h, n);
    if r in RequestsIn(t.obs) {
      p := RequestIsObserved(t.obs, r);
      hide Replay, RequestsIn, Tally;
      ReplayIsFaithful(w, h, n, p);
    } else {
      p := |t.obs|;
      StopIsAnswer(w, FromHistory(h), n);
      hide RequestsIn, Run, Tally;
      CountersMean(t.obs);
      assert t.obs[..p] == t.obs;
    }
  }

  /* ---- what is still to be sent ---- */

  lemma UnrecordedSnoc(h: seq<Event>, rs: seq<Request>, r: Request)
    ensures Unrecorded(h, rs + [r]) == Unrecorded(h, rs) + if Recorded(h, r) then [] else [r]
  {
    assert (rs + [r])[..|rs|] == rs;
  }

  /** Nothing is sent exactly when everything asked for is on record. */
  lemma {:induction false} UnrecordedEmpty(h: seq<Event>, rs: seq<Request>)
    ensures Unrecorded(h, rs) == [] <==> forall r :: r in rs ==> Recorded(h, r)
  {
    if rs != [] {
      UnrecordedEmpty(h, rs[..|rs| - 1]);
      hide Recorded;
      assert rs == rs[..|rs| - 1] + [rs[|rs| - 1]];
    }
  }

  lemma {:induction false} UnrecordedMembers(h: seq<Event>, rs: seq<Request>, r: Request)
    ensures r in Unrecorded(h, rs) <==> r in rs && !Recorded(h, r)
  {
    if rs != [] {
      UnrecordedMembers(h, rs[..|rs| - 1], r);
      hide Recorded;
      assert rs == rs[..|rs| - 1] + [rs[|rs| - 1]];
    }
  }

  lemma {:induction false} UnrecordedSame(h: seq<Event>, h': seq<Event>, rs: seq<Request>)
    requires SameRequests(h, h') && SameFacts(h, h')
    ensures Unrecorded(h, rs) == Unrecorded(h', rs)
  {
    if rs != [] {
      UnrecordedSame(h, h', rs[..|rs| - 1]);
      hide Scheduled, Started, Fired;
    }
  }

  /** When the first k requests are on record and no later one is, the rest are sent. */
  lemma {:induction false} UnrecordedSuffix(h: seq<Event>, rs: seq<Request>, k: nat)
    requires k <= |rs|
    requires forall i :: 0 <= i < |rs| ==> (Recorded(h, rs[i]) <==> i < k)
    ensures Unrecorded(h, rs) == rs[k..]
  {
    if rs != [] {
      var init := rs[..|rs| - 1];
      hide Recorded;
      UnrecordedSuffix(h, init, if k < |rs| then k else k - 1);
      assert rs == init + [rs[|rs| - 1]];
    }
  }
}
