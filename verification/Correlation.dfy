/**
 internal/fleet/correlate.go: which signals two or more judged clusters showed.
 Evidence holds sets of signals and the accumulation ranges over Go maps, so the
 result is specified without any order and then proved unique.
 */
module Correlation {
  import opened Basics
  import opened Sorting

  const MIN_SHARED: nat := 2

  datatype Evidence = Evidence(id: string, issues: set<string>, blindspots: set<string>)

  /** Every issue entry comes before every blind-spot entry. */
  datatype Source = Issue | Blindspot

  datatype Shared = Shared(signal: string, source: Source, clusters: seq<string>)

  function Signals(e: Evidence, source: Source): (s: set<string>) {
    match source case Issue => e.issues case Blindspot => e.blindspots
  }

  function Shows(source: Source, signal: string): Evidence -> bool { e => signal in Signals(e, source) }

  function IdOf(e: Evidence): (id: string) { e.id }

  /** The clusters that showed a signal, in evidence order. */
  function ShownBy(evidence: seq<Evidence>, source: Source, signal: string): (ids: seq<string>) {
    Map(IdOf, Filter(Shows(source, signal), evidence))
  }

  /** Issues first, most widespread first, then by signal. */
  function SharedOrder(s: Shared): (k: Key) {
    [Num(if s.source == Issue then 0 else 1), Num(-|s.clusters|), Text(s.signal)]
  }

  /** A signal shown by enough clusters, with those clusters sorted. */
  ghost predicate IsEntry(evidence: seq<Evidence>, s: Shared) {
    |s.clusters| >= MIN_SHARED && IsSortOf(TextKey, ShownBy(evidence, s.source, s.signal), s.clusters)
  }

  /** All such signals, each once, in order. */
  ghost predicate IsCorrelation(evidence: seq<Evidence>, shared: seq<Shared>) {
    && NoDup(shared) && Sorted(SharedOrder, shared)
    && forall s :: s in shared <==> IsEntry(evidence, s)
  }

  // ---- uniqueness

  lemma {:induction false} TextKeyIdentifies(ids: seq<string>)
    ensures KeyIdentifies(TextKey, ids)
  {
    forall i, j | 0 <= i < |ids| && 0 <= j < |ids| && TextKey(ids[i]) == TextKey(ids[j]) ensures ids[i] == ids[j] {
      assert TextKey(ids[i])[0] == TextKey(ids[j])[0];
    }
  }

  /** A signal has one entry. */
  lemma {:induction false} EntryUnique(evidence: seq<Evidence>, a: Shared, b: Shared)
    requires IsEntry(evidence, a) && IsEntry(evidence, b) && a.source == b.source && a.signal == b.signal
    ensures a == b
  {
    TextKeyIdentifies(a.clusters);
    SortUnique(TextKey, a.clusters, b.clusters);
  }

  lemma {:induction false} OrderIdentifies(evidence: seq<Evidence>, shared: seq<Shared>)
    requires IsCorrelation(evidence, shared)
    ensures KeyIdentifies(SharedOrder, shared)
  {
    forall i, j | 0 <= i < |shared| && 0 <= j < |shared| && SharedOrder(shared[i]) == SharedOrder(shared[j])
      ensures shared[i] == shared[j]
    {
      var a, b := shared[i], shared[j];
      assert SharedOrder(a)[0] == SharedOrder(b)[0] && SharedOrder(a)[2] == SharedOrder(b)[2];
      assert a in shared && b in shared;
      EntryUnique(evidence, a, b);
    }
  }

  /** Which entries there are does not depend on the order of the evidence. */
  lemma {:induction false} EntryOrderFree(xs: seq<Evidence>, ys: seq<Evidence>, s: Shared)
    requires multiset(xs) == multiset(ys) && IsEntry(xs, s)
    ensures IsEntry(ys, s)
  {
    FilterPermutation(Shows(s.source, s.signal), xs, ys);
    MapPermutation(IdOf, Filter(Shows(s.source, s.signal), xs), Filter(Shows(s.source, s.signal), ys));
  }

  /** The whole result is the same for every order of the evidence and of map iteration. */
  lemma {:induction false} CorrelationOrderFree(xs: seq<Evidence>, a: seq<Shared>, ys: seq<Evidence>, b: seq<Shared>)
    requires multiset(xs) == multiset(ys) && IsCorrelation(xs, a) && IsCorrelation(ys, b)
    ensures a == b
  {
    forall s ensures s in a <==> s in b {
      if s in a { EntryOrderFree(xs, ys, s); }
      if s in b { EntryOrderFree(ys, xs, s); }
    }
    NoDupSameElements(a, b);
    OrderIdentifies(xs, a);
    SortUnique(SharedOrder, a, b);
  }

  /** Issues before blind spots, the more widespread first, then by signal. */
  predicate ComesBefore(a: Shared, b: Shared) {
    if a.source != b.source then a.source == Issue
    else |a.clusters| > |b.clusters| || (|a.clusters| == |b.clusters| && TextLe(a.signal, b.signal))
  }

  lemma {:induction false} CorrelationInOrder(evidence: seq<Evidence>, shared: seq<Shared>, i: nat, j: nat)
    requires IsCorrelation(evidence, shared) && i < j < |shared|
    ensures ComesBefore(shared[i], shared[j])
  {
    var a, b := shared[i], shared[j];
    NumThenText(-|a.clusters|, a.signal, -|b.clusters|, b.signal);
    assert KeyLe(SharedOrder(a), SharedOrder(b));
    assert SharedOrder(a)[1..] == [Num(-|a.clusters|), Text(a.signal)];
    assert SharedOrder(b)[1..] == [Num(-|b.clusters|), Text(b.signal)];
  }

  // ---- what an entry says

  ghost predicate DistinctIds(es: seq<Evidence>) {
    forall i, j :: 0 <= i < j < |es| ==> es[i].id != es[j].id
  }

  ghost predicate ShownAt(evidence: seq<Evidence>, source: Source, signal: string, i: int) {
    0 <= i < |evidence| && signal in Signals(evidence[i], source)
  }

  lemma {:induction false} FilterKeepsDistinct(source: Source, signal: string, es: seq<Evidence>)
    requires DistinctIds(es)
    ensures DistinctIds(Filter(Shows(source, signal), es))
    ensures forall x :: x in ShownBy(es, source, signal) <==> exists i :: ShownAt(es, source, signal, i) && es[i].id == x
  {
    if es != [] {
      var n := |es| - 1;
      var init := es[..n];
      FilterKeepsDistinct(source, signal, init);
      var before := Filter(Shows(source, signal), init);
      FilterElements(Shows(source, signal), init);
      forall j | 0 <= j < |before| ensures before[j].id != es[n].id { assert before[j] in init; }
      assert forall i :: ShownAt(init, source, signal, i) ==> ShownAt(es, source, signal, i) && es[i] == init[i];
      assert forall i :: ShownAt(es, source, signal, i) ==> i == n || ShownAt(init, source, signal, i);
      assert ShownBy(es, source, signal)
          == ShownBy(init, source, signal) + (if signal in Signals(es[n], source) then [es[n].id] else []);
    }
  }

  /** Two different clusters showed the signal. */
  ghost predicate ShownTwice(evidence: seq<Evidence>, source: Source, signal: string) {
    exists i, j :: i < j && ShownAt(evidence, source, signal, i) && ShownAt(evidence, source, signal, j)
  }

  lemma {:induction false} ShownByStep(evidence: seq<Evidence>, source: Source, signal: string, i: nat)
    requires i < |evidence|
    ensures ShownBy(evidence[..i + 1], source, signal)
         == ShownBy(evidence[..i], source, signal) + (if signal in Signals(evidence[i], source) then [evidence[i].id] else [])
  {
    FilterStep(Shows(source, signal), evidence, i);
  }

  /** The shown positions below n + 1 are those below n and possibly n. */
  lemma {:induction false} ShownAtStep(es: seq<Evidence>, source: Source, signal: string, n: nat)
    requires n < |es|
    ensures forall i :: ShownAt(es[..n + 1], source, signal, i) <==>
      ShownAt(es[..n], source, signal, i) || (i == n && signal in Signals(es[n], source))
  {
  }

  lemma {:induction false} ShownOnceIff(source: Source, signal: string, es: seq<Evidence>, n: nat)
    requires n <= |es|
    ensures |ShownBy(es[..n], source, signal)| >= 1 <==> exists i :: ShownAt(es[..n], source, signal, i)
  {
    if n > 0 {
      ShownOnceIff(source, signal, es, n - 1);
      ShownByStep(es, source, signal, n - 1);
      ShownAtStep(es, source, signal, n - 1);
      assert signal in Signals(es[n - 1], source) ==> ShownAt(es[..n], source, signal, n - 1);
      assert forall i :: ShownAt(es[..n - 1], source, signal, i) ==> ShownAt(es[..n], source, signal, i);
      if i :| ShownAt(es[..n], source, signal, i) {
        assert i == n - 1 || ShownAt(es[..n - 1], source, signal, i);
      }
    }
  }

  /** Two shown positions below n + 1: two below n, or one below n and n itself. */
  lemma {:induction false} ShownTwiceStep(source: Source, signal: string, es: seq<Evidence>, n: nat)
    requires n < |es|
    ensures ShownTwice(es[..n + 1], source, signal) <==>
      || ShownTwice(es[..n], source, signal)
      || (signal in Signals(es[n], source) && exists i :: ShownAt(es[..n], source, signal, i))
  {
    ShownAtStep(es, source, signal, n);
    var before, after := es[..n], es[..n + 1];
    if ShownTwice(before, source, signal) {
      var i, j :| i < j && ShownAt(before, source, signal, i) && ShownAt(before, source, signal, j);
      assert ShownAt(after, source, signal, i) && ShownAt(after, source, signal, j);
    }
    if signal in Signals(es[n], source) && exists i :: ShownAt(before, source, signal, i) {
      var i :| ShownAt(before, source, signal, i);
      assert i < n && ShownAt(after, source, signal, i) && ShownAt(after, source, signal, n);
    }
    if ShownTwice(after, source, signal) {
      var i, j :| i < j && ShownAt(after, source, signal, i) && ShownAt(after, source, signal, j);
      assert ShownAt(before, source, signal, i);
      assert j == n || ShownAt(before, source, signal, j);
    }
  }

  lemma {:induction false} ShownTwiceIff(source: Source, signal: string, es: seq<Evidence>, n: nat)
    requires n <= |es|
    ensures |ShownBy(es[..n], source, signal)| >= 2 <==> ShownTwice(es[..n], source, signal)
  {
    if n > 0 {
      ShownTwiceIff(source, signal, es, n - 1);
      ShownOnceIff(source, signal, es, n - 1);
      ShownByStep(es, source, signal, n - 1);
      ShownTwiceStep(source, signal, es, n - 1);
    }
  }

  /** An entry lists exactly the clusters that showed its signal, each once, in ascending order. */
  lemma {:induction false} EntryClusters(evidence: seq<Evidence>, s: Shared)
    requires DistinctIds(evidence) && IsEntry(evidence, s)
    ensures NoDup(s.clusters) && Sorted(TextKey, s.clusters)
    ensures forall x :: x in s.clusters <==> exists i :: ShownAt(evidence, s.source, s.signal, i) && evidence[i].id == x
    ensures ShownTwice(evidence, s.source, s.signal)
  {
    FilterKeepsDistinct(s.source, s.signal, evidence);
    var ids := ShownBy(evidence, s.source, s.signal);
    SameElements(ids, s.clusters);
    assert NoDup(ids);
    NoDupPermutation(ids, s.clusters);
    ShownTwiceIff(s.source, s.signal, evidence, |evidence|);
    assert evidence[..|evidence|] == evidence;
  }

  lemma {:induction false} EntryExists(evidence: seq<Evidence>, source: Source, signal: string) returns (s: Shared)
    requires ShownTwice(evidence, source, signal)
    ensures s.source == source && s.signal == signal && IsEntry(evidence, s)
  {
    var ids := ShownBy(evidence, source, signal);
    ShownTwiceIff(source, signal, evidence, |evidence|);
    assert evidence[..|evidence|] == evidence;
    SortBySorts(TextKey, ids);
    SameElements(ids, SortBy(TextKey, ids));
    s := Shared(signal, source, SortBy(TextKey, ids));
  }

  /**
   Correlation is exact: with distinct cluster ids a signal has an entry if and
   only if two clusters showed it, and the entry lists exactly the clusters that
   did, each once, in ascending order.
   */
  lemma {:induction false} CorrelationIsExact(evidence: seq<Evidence>, shared: seq<Shared>, source: Source, signal: string)
    requires DistinctIds(evidence) && IsCorrelation(evidence, shared)
    ensures (exists s :: s in shared && s.source == source && s.signal == signal) <==> ShownTwice(evidence, source, signal)
    ensures forall s :: s in shared && s.source == source && s.signal == signal ==>
      && NoDup(s.clusters) && Sorted(TextKey, s.clusters)
      && forall x :: x in s.clusters <==> exists i :: ShownAt(evidence, source, signal, i) && evidence[i].id == x
  {
    if ShownTwice(evidence, source, signal) {
      var s := EntryExists(evidence, source, signal);
      assert s in shared;
    }
    forall s | s in shared && s.source == source && s.signal == signal
      ensures NoDup(s.clusters) && Sorted(TextKey, s.clusters) && ShownTwice(evidence, source, signal)
      ensures forall x :: x in s.clusters <==> exists i :: ShownAt(evidence, source, signal, i) && evidence[i].id == x
    {
      EntryClusters(evidence, s);
    }
  }

  // ---- the fold

  function At(m: map<string, seq<string>>, signal: string): (ids: seq<string>) { if signal in m then m[signal] else [] }

  /** Adds one cluster under each of its signals, in arbitrary order. */
  method AddSignals(m0: map<string, seq<string>>, id: string, signals: set<string>) returns (m: map<string, seq<string>>)
    requires forall s :: s in m0 ==> m0[s] != []
    ensures forall s :: s in m ==> m[s] != []
    ensures forall s :: At(m, s) == At(m0, s) + (if s in signals then [id] else [])
  {
    m := m0;
    var todo := signals;
    while todo != {}
      invariant todo <= signals && forall s :: s in m ==> m[s] != []
      invariant forall s :: At(m, s) == At(m0, s) + (if s in signals && s !in todo then [id] else [])
    {
      var s :| s in todo;
      m := m[s := At(m, s) + [id]];
      todo := todo - {s};
    }
  }

  method Accumulate(evidence: seq<Evidence>, source: Source) returns (m: map<string, seq<string>>)
    ensures forall s :: s in m ==> m[s] != []
    ensures forall s :: At(m, s) == ShownBy(evidence, source, s)
  {
    m := map[];
    for i := 0 to |evidence|
      invariant forall s :: s in m ==> m[s] != []
      invariant forall s :: At(m, s) == ShownBy(evidence[..i], source, s)
    {
      forall s ensures ShownBy(evidence[..i + 1], source, s)
        == ShownBy(evidence[..i], source, s) + (if s in Signals(evidence[i], source) then [evidence[i].id] else [])
      {
        ShownByStep(evidence, source, s, i);
      }
      m := AddSignals(m, evidence[i].id, Signals(evidence[i], source));
    }
    assert evidence[..|evidence|] == evidence;
  }

  /** The entries of one source whose signal clears the minimum. */
  ghost predicate Gathered(evidence: seq<Evidence>, source: Source, done: set<string>, out: seq<Shared>) {
    && NoDup(out)
    && forall s :: s in out <==> s.source == source && s.signal in done && IsEntry(evidence, s)
  }

  lemma {:induction false} GatherOne(evidence: seq<Evidence>, source: Source, done: set<string>, out: seq<Shared>, s: Shared)
    requires Gathered(evidence, source, done, out) && s.signal !in done && s.source == source && IsEntry(evidence, s)
    ensures Gathered(evidence, source, done + {s.signal}, out + [s])
  {
    forall x ensures x in out + [s] <==> x.source == source && x.signal in done + {s.signal} && IsEntry(evidence, x) {
      if x.source == source && x.signal == s.signal && IsEntry(evidence, x) {
        EntryUnique(evidence, s, x);
      }
    }
  }

  lemma {:induction false} SkipOne(evidence: seq<Evidence>, source: Source, done: set<string>, out: seq<Shared>, signal: string)
    requires Gathered(evidence, source, done, out) && |ShownBy(evidence, source, signal)| < MIN_SHARED
    ensures Gathered(evidence, source, done + {signal}, out)
  {
    forall x: Shared | x.source == source && x.signal == signal ensures !IsEntry(evidence, x) {
      if IsEntry(evidence, x) {
        SameElements(x.clusters, ShownBy(evidence, source, signal));
      }
    }
  }

  method Gather(evidence: seq<Evidence>, m: map<string, seq<string>>, source: Source) returns (out: seq<Shared>)
    requires forall s :: At(m, s) == ShownBy(evidence, source, s)
    ensures NoDup(out) && forall s :: s in out <==> s.source == source && IsEntry(evidence, s)
  {
    out := [];
    var todo := m.Keys;
    while todo != {}
      invariant todo <= m.Keys && Gathered(evidence, source, m.Keys - todo, out)
    {
      var signal :| signal in todo;
      assert m[signal] == At(m, signal) == ShownBy(evidence, source, signal);
      assert m.Keys - todo + {signal} == m.Keys - (todo - {signal});
      if |m[signal]| < MIN_SHARED {
        SkipOne(evidence, source, m.Keys - todo, out, signal);
      } else {
        var ids := SortSlice(TextKey, m[signal]);
        SameElements(ids, m[signal]);
        GatherOne(evidence, source, m.Keys - todo, out, Shared(signal, source, ids));
        out := out + [Shared(signal, source, ids)];
      }
      todo := todo - {signal};
    }
    forall s: Shared | s.source == source && IsEntry(evidence, s) ensures s.signal in m.Keys {
      SameElements(s.clusters, At(m, s.signal));
    }
  }

  /** correlate. */
  method Correlate(evidence: seq<Evidence>) returns (shared: seq<Shared>)
    ensures IsCorrelation(evidence, shared)
  {
    if |evidence| < MIN_SHARED {
      forall s ensures !IsEntry(evidence, s) {
        if IsEntry(evidence, s) {
          SameElements(s.clusters, ShownBy(evidence, s.source, s.signal));
          FilterShorter(Shows(s.source, s.signal), evidence);
        }
      }
      return [];
    }
    var issues := Accumulate(evidence, Issue);
    var blindspots := Accumulate(evidence, Blindspot);
    var a := Gather(evidence, issues, Issue);
    var b := Gather(evidence, blindspots, Blindspot);
    assert NoDup(a + b);
    shared := SortSlice(SharedOrder, a + b);
    SameElements(shared, a + b);
    NoDupPermutation(a + b, shared);
  }

  lemma {:induction false} FilterShorter(p: Evidence -> bool, es: seq<Evidence>)
    ensures |Filter(p, es)| <= |es|
  {
    if es != [] {
      FilterShorter(p, es[..|es| - 1]);
    }
  }
}
