/** The answers a history gives, in terms of the fields of its rows. */
module HistoryMeaning {
  import opened Types
  import opened Counting
  import opened HistoryFacts

  /* ---- how an activity ended ---- */

  /** Row i ends the activity. */
  predicate EndsAt(h: seq<Event>, i: int, name: string, index: int) {
    && 0 <= i < |h|
    && (h[i].kind == ActivityCompleted || h[i].kind == ActivityFailed)
    && h[i].activityName == name && h[i].activityIndex == index
  }

  ghost predicate FirstEndAt(h: seq<Event>, i: int, name: string, index: int) {
    EndsAt(h, i, name, index) && forall j :: 0 <= j < i ==> !EndsAt(h, j, name, index)
  }

  /** The first row that ends the activity is of this kind and carries this data. */
  ghost predicate EndsWith(h: seq<Event>, name: string, index: int, kind: EventType, data: Bytes) {
    exists i :: FirstEndAt(h, i, name, index) && h[i].kind == kind && h[i].data == data
  }

  lemma NoEnd(h: seq<Event>, f: Future)
    requires OutcomeOf(h, f).None?
    ensures forall i :: !EndsAt(h, i, f.name, f.index)
  {
    forall i: int ensures !EndsAt(h, i, f.name, f.index) {
      if EndsAt(h, i, f.name, f.index) {
        OutcomePresent(h, i, f);
      }
    }
  }

  lemma {:induction false} FirstEnd(h: seq<Event>, f: Future) returns (i: nat)
    requires OutcomeOf(h, f).Some?
    ensures FirstEndAt(h, i, f.name, f.index)
    ensures OutcomeOf(h, f).value == if h[i].kind == ActivityCompleted then Succeeded(h[i].data) else Errored(h[i].data)
  {
    var init := h[..|h| - 1];
    if OutcomeOf(init, f).Some? {
      i := FirstEnd(init, f);
    } else {
      NoEnd(init, f);
      i := |h| - 1;
    }
    assert forall j :: 0 <= j < |init| ==> (EndsAt(h, j, f.name, f.index) <==> EndsAt(init, j, f.name, f.index));
  }

  /** An activity has succeeded with what its first ending row carries if that row is ActivityCompleted, has failed with
      it if that row is ActivityFailed, and is pending when there is no such row. */
  lemma OutcomeMeans(h: seq<Event>, f: Future)
    ensures forall d :: OutcomeOf(h, f) == Some(Succeeded(d)) <==> EndsWith(h, f.name, f.index, ActivityCompleted, d)
    ensures forall d :: OutcomeOf(h, f) == Some(Errored(d)) <==> EndsWith(h, f.name, f.index, ActivityFailed, d)
    ensures OutcomeOf(h, f).None? <==> forall i :: !EndsAt(h, i, f.name, f.index)
  {
    if OutcomeOf(h, f).None? {
      NoEnd(h, f);
    } else {
      var i := FirstEnd(h, f);
      hide OutcomeOf;
      assert forall j :: FirstEndAt(h, j, f.name, f.index) ==> j == i;
    }
  }

  /* ---- which signals have come ---- */

  function SignalNamed(name: string): Event -> bool {
    (e: Event) => e.kind == SignalReceived && e.signalName == name
  }

  /** Row i is the signal of the name that k others of that name precede. */
  ghost predicate NthSignalAt(h: seq<Event>, i: int, name: string, k: nat) {
    && 0 <= i < |h| && h[i].kind == SignalReceived && h[i].signalName == name
    && Tally(h[..i], SignalNamed(name)) == k
  }

  lemma {:induction false} SignalCount(h: seq<Event>, name: string)
    ensures |Signals(h, name)| == Tally(h, SignalNamed(name))
  {
    if h != [] {
      SignalCount(h[..|h| - 1], name);
    }
  }

  /** The signals of a name are the payloads of the rows that carry it, in order, whatever rows come between. */
  lemma SignalMeans(h: seq<Event>, name: string, i: int, k: nat)
    requires NthSignalAt(h, i, name, k)
    ensures k < |Signals(h, name)| && Signals(h, name)[k] == h[i].data
  {
    hide Signals, Tally;
    SignalCount(h[..i], name);
    SignalsSnoc(h[..i], h[i], name);
    assert h[..i + 1] == h[..i] + [h[i]];
    assert h == h[..i + 1] + h[i + 1..];
    SignalsAppend(h[..i + 1], h[i + 1..], name);
  }

  lemma {:induction false} NthSignal(h: seq<Event>, name: string, k: nat) returns (i: nat)
    requires k < |Signals(h, name)|
    ensures NthSignalAt(h, i, name, k)
  {
    var init, last := h[..|h| - 1], h[|h| - 1];
    if k < |Signals(init, name)| {
      i := NthSignal(init, name, k);
      assert h[..i] == init[..i];
    } else {
      i := |h| - 1;
      SignalCount(init, name);
    }
  }
}
