/** Counting rows of a table and entries of a list. */
module Counting {

  /** The keys of the rows that satisfy a filter: SELECT id FROM m WHERE f. */
  ghost function Matching<K, V>(m: map<K, V>, f: V -> bool): set<K> {
    set k | k in m && f(m[k])
  }

  function One(b: bool): nat { if b then 1 else 0 }

  lemma MatchingInsert<K, V>(m: map<K, V>, k: K, v: V, f: V -> bool)
    requires k !in m
    ensures |Matching(m[k := v], f)| == |Matching(m, f)| + One(f(v))
  {
    assert Matching(m[k := v], f) == Matching(m, f) + if f(v) then {k} else {};
  }

  lemma MatchingRemove<K, V>(m: map<K, V>, k: K, f: V -> bool)
    requires k in m
    ensures |Matching(m - {k}, f)| == |Matching(m, f)| - One(f(m[k]))
  {
    assert Matching(m - {k}, f) == Matching(m, f) - {k};
  }

  lemma MatchingUpdate<K, V>(m: map<K, V>, k: K, v: V, f: V -> bool)
    requires k in m
    ensures |Matching(m[k := v], f)| == |Matching(m, f)| - One(f(m[k])) + One(f(v))
  {
    assert m[k := v] == (m - {k})[k := v];
    MatchingRemove(m, k, f);
    MatchingInsert(m - {k}, k, v, f);
  }

  lemma MatchingWitness<K, V>(m: map<K, V>, f: V -> bool) returns (k: K)
    requires |Matching(m, f)| > 0
    ensures k in m && f(m[k])
  {
    assert Matching(m, f) != {};
    k :| k in Matching(m, f);
  }

  lemma HasMember<T>(s: set<T>) returns (x: T)
    requires s != {}
    ensures x in s
  {
    x :| x in s;
  }

  /** How many entries of a list satisfy a filter. */
  function Tally<T>(xs: seq<T>, f: T -> bool): nat {
    if xs == [] then 0 else Tally(xs[..|xs| - 1], f) + One(f(xs[|xs| - 1]))
  }

  lemma TallyAppend<T>(xs: seq<T>, x: T, f: T -> bool)
    ensures Tally(xs + [x], f) == Tally(xs, f) + One(f(x))
  {
    assert (xs + [x])[..|xs|] == xs;
  }

  lemma {:induction false} TallyPositive<T>(xs: seq<T>, i: nat, f: T -> bool)
    requires i < |xs| && f(xs[i])
    ensures Tally(xs, f) > 0
  {
    if i < |xs| - 1 {
      TallyPositive(xs[..|xs| - 1], i, f);
    }
  }

  lemma {:induction false} TallyWitness<T>(xs: seq<T>, f: T -> bool) returns (i: nat)
    requires Tally(xs, f) > 0
    ensures i < |xs| && f(xs[i])
  {
    if f(xs[|xs| - 1]) {
      i := |xs| - 1;
    } else {
      i := TallyWitness(xs[..|xs| - 1], f);
    }
  }

  /** The total weight of a table whose rows have been replaced by their weights. */
  ghost function Total<K>(w: map<K, nat>): nat {
    if w == map[] then 0 else
      var k :| k in w;
      w[k] + Total(w - {k})
  }

  lemma {:induction false} TotalRemove<K>(w: map<K, nat>, k: K)
    requires k in w
    ensures Total(w) == w[k] + Total(w - {k})
  {
    var c :| c in w && Total(w) == w[c] + Total(w - {c});
    if c != k {
      TotalRemove(w - {c}, k);
      TotalRemove(w - {k}, c);
      assert w - {c} - {k} == w - {k} - {c};
    }
  }

  lemma TotalInsert<K>(w: map<K, nat>, k: K, n: nat)
    requires k !in w
    ensures Total(w[k := n]) == n + Total(w)
  {
    TotalRemove(w[k := n], k);
    assert w[k := n] - {k} == w;
  }
}
