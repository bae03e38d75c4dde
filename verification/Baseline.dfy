/**
 internal/baseline: a workload's restart rate pooled over its pods, captured once
 and compared later.  Ages and rates are reals; the IEEE corner cases the source
 guards against do not exist here.
 */
module Baseline {
  import opened Basics
  import opened Sorting

  datatype PodSample = PodSample(kind: string, namespace: string, name: string, restarts: int, age: real)

  datatype Entry = Entry(kind: string, namespace: string, name: string, rate: real, pods: nat, observed: real)

  datatype Document = Document(minPodAge: real, workloads: seq<Entry>)

  datatype Deviation = Deviation(kind: string, namespace: string, name: string, baseline: real, current: real, pods: nat)

  datatype Report = Report(deviations: seq<Deviation>, compared: nat, notInBaseline: nat, goneFromCluster: nat)

  datatype Options = Options(factor: real, floor: real)

  const DEFAULT_FACTOR: real := 3.0
  const DEFAULT_FLOOR: real := 0.5

  function SampleKey(p: PodSample): (k: string) { ObjectKey(p.kind, p.namespace, p.name) }

  function EntryKey(e: Entry): (k: string) { ObjectKey(e.kind, e.namespace, e.name) }

  /** A young pod, or one with a meaningless age or count, contributes to neither side of the rate. */
  predicate Counts(p: PodSample, minAge: real) { p.age > 0.0 && p.restarts >= 0 && p.age >= minAge }

  function RatePerHour(restarts: int, seconds: real): (r: real) {
    if seconds <= 0.0 then 0.0 else restarts as real / (seconds / 3600.0)
  }

  // ---- rates

  datatype Total = Total(id: PodSample, restarts: int, seconds: real, pods: nat)

  function AddSample(before: Option<Total>, p: PodSample): (t: Total) {
    match before
    case None => Total(p, p.restarts, p.age, 1)
    case Some(t) => Total(t.id, t.restarts + p.restarts, t.seconds + p.age, t.pods + 1)
  }

  /** The counted pods of one workload key, pooled. */
  function Pooled(pods: seq<PodSample>, minAge: real, k: string): (t: Option<Total>) {
    if pods == [] then None
    else
      var p := pods[|pods| - 1];
      var before := Pooled(pods[..|pods| - 1], minAge, k);
      if Counts(p, minAge) && SampleKey(p) == k then Some(AddSample(before, p)) else before
  }

  function EntryOf(t: Total): (e: Entry) {
    Entry(t.id.kind, t.id.namespace, t.id.name, RatePerHour(t.restarts, t.seconds), t.pods, t.seconds)
  }

  function EntrySortKey(e: Entry): (k: Key) { [Text(e.kind), Text(e.namespace), Text(e.name)] }

  ghost predicate DistinctEntries(es: seq<Entry>) {
    forall i, j :: 0 <= i < j < |es| ==> EntryKey(es[i]) != EntryKey(es[j])
  }

  ghost predicate HasKey(es: seq<Entry>, k: string) {
    exists i :: 0 <= i < |es| && EntryKey(es[i]) == k
  }

  /** One entry per workload with a counted pod, in order. */
  ghost predicate IsRates(pods: seq<PodSample>, minAge: real, es: seq<Entry>) {
    && DistinctEntries(es)
    && Sorted(EntrySortKey, es)
    && (forall k :: HasKey(es, k) <==> Pooled(pods, minAge, k).Some?)
    && (forall i :: 0 <= i < |es| ==>
          Pooled(pods, minAge, EntryKey(es[i])).Some? && es[i] == EntryOf(Pooled(pods, minAge, EntryKey(es[i])).value))
  }

  lemma {:induction false} PooledKey(pods: seq<PodSample>, minAge: real, k: string)
    ensures Pooled(pods, minAge, k).Some? ==>
      var t := Pooled(pods, minAge, k).value; SampleKey(t.id) == k && t.seconds > 0.0 && t.restarts >= 0 && t.pods >= 1
  {
    if pods != [] {
      PooledKey(pods[..|pods| - 1], minAge, k);
    }
  }

  method PoolAll(pods: seq<PodSample>, minAge: real) returns (totals: map<string, Total>)
    ensures forall k :: k in totals <==> Pooled(pods, minAge, k).Some?
    ensures forall k :: k in totals ==> Pooled(pods, minAge, k) == Some(totals[k])
  {
    totals := map[];
    for i := 0 to |pods|
      invariant forall k :: k in totals <==> Pooled(pods[..i], minAge, k).Some?
      invariant forall k :: k in totals ==> Pooled(pods[..i], minAge, k) == Some(totals[k])
    {
      var p := pods[i];
      assert pods[..i + 1][..i] == pods[..i];
      if !Counts(p, minAge) {
        continue;
      }
      var k := SampleKey(p);
      var before := if k in totals then Some(totals[k]) else None;
      totals := totals[k := AddSample(before, p)];
    }
    assert pods[..|pods|] == pods;
  }

  /** Entries gathered so far for the keys in `done`. */
  ghost predicate Gathered(totals: map<string, Total>, done: set<string>, es: seq<Entry>) {
    && DistinctEntries(es)
    && (forall k :: HasKey(es, k) <==> k in done)
    && (forall i :: 0 <= i < |es| ==> EntryKey(es[i]) in totals && es[i] == EntryOf(totals[EntryKey(es[i])]))
  }

  lemma {:induction false} GatherOne(totals: map<string, Total>, done: set<string>, es: seq<Entry>, k: string)
    requires Gathered(totals, done, es) && k in totals && k !in done && EntryKey(EntryOf(totals[k])) == k
    ensures Gathered(totals, done + {k}, es + [EntryOf(totals[k])])
  {
    var es' := es + [EntryOf(totals[k])];
    assert EntryKey(es'[|es|]) == k;
    forall x ensures HasKey(es', x) <==> x in done + {k} {
      if HasKey(es, x) {
        var i :| 0 <= i < |es| && EntryKey(es[i]) == x;
        assert EntryKey(es'[i]) == x;
      }
      if HasKey(es', x) && x != k {
        var i :| 0 <= i < |es'| && EntryKey(es'[i]) == x;
        assert EntryKey(es[i]) == x;
      }
    }
    forall i | 0 <= i < |es| ensures EntryKey(es[i]) != k { assert HasKey(es, EntryKey(es[i])); }
  }

  lemma {:induction false} SortKeepsRates(es: seq<Entry>, sorted: seq<Entry>, totals: map<string, Total>, done: set<string>)
    requires Gathered(totals, done, es) && IsSortOf(EntrySortKey, es, sorted)
    ensures Gathered(totals, done, sorted)
  {
    SameElements(es, sorted);
    NoDupPermutation(es, sorted);
    forall i, j | 0 <= i < j < |sorted| ensures EntryKey(sorted[i]) != EntryKey(sorted[j]) {
      assert sorted[i] in es && sorted[j] in es;
    }
    forall k ensures HasKey(sorted, k) <==> HasKey(es, k) {
      if HasKey(es, k) { var i :| 0 <= i < |es| && EntryKey(es[i]) == k; assert es[i] in sorted; }
      if HasKey(sorted, k) { var i :| 0 <= i < |sorted| && EntryKey(sorted[i]) == k; assert sorted[i] in es; }
    }
    forall i | 0 <= i < |sorted|
      ensures EntryKey(sorted[i]) in totals && sorted[i] == EntryOf(totals[EntryKey(sorted[i])])
    {
      assert sorted[i] in es;
    }
  }

  /** rates; the map is iterated in arbitrary order. */
  method Rates(pods: seq<PodSample>, minAge: real) returns (es: seq<Entry>)
    ensures IsRates(pods, minAge, es)
  {
    var totals := PoolAll(pods, minAge);
    var raw: seq<Entry> := [];
    var todo := totals.Keys;
    while todo != {}
      invariant todo <= totals.Keys && Gathered(totals, totals.Keys - todo, raw)
    {
      var k :| k in todo;
      PooledKey(pods, minAge, k);
      GatherOne(totals, totals.Keys - todo, raw, k);
      assert totals.Keys - todo + {k} == totals.Keys - (todo - {k});
      raw := raw + [EntryOf(totals[k])];
      todo := todo - {k};
    }
    es := SortSlice(EntrySortKey, raw);
    SortKeepsRates(raw, es, totals, totals.Keys);
  }

  /** The result does not depend on the order the map was iterated in. */
  lemma {:induction false} RatesUnique(pods: seq<PodSample>, minAge: real, a: seq<Entry>, b: seq<Entry>)
    requires IsRates(pods, minAge, a) && IsRates(pods, minAge, b)
    ensures a == b
  {
    forall e ensures e in a <==> e in b {
      if e in a { SharedEntry(pods, minAge, a, b, e); }
      if e in b { SharedEntry(pods, minAge, b, a, e); }
    }
    NoDupSameElements(a, b);
    forall i, j | 0 <= i < |a| && 0 <= j < |a| && EntrySortKey(a[i]) == EntrySortKey(a[j]) ensures a[i] == a[j] {
      assert EntrySortKey(a[i])[0] == EntrySortKey(a[j])[0] && EntrySortKey(a[i])[1] == EntrySortKey(a[j])[1]
          && EntrySortKey(a[i])[2] == EntrySortKey(a[j])[2];
    }
    SortUnique(EntrySortKey, a, b);
  }

  lemma {:induction false} SharedEntry(pods: seq<PodSample>, minAge: real, a: seq<Entry>, b: seq<Entry>, e: Entry)
    requires IsRates(pods, minAge, a) && IsRates(pods, minAge, b) && e in a
    ensures e in b
  {
    var i :| 0 <= i < |a| && a[i] == e;
    assert HasKey(a, EntryKey(e));
    assert HasKey(b, EntryKey(e));
  }

  // ---- the pooled rate lies between individual rates

  lemma {:induction false} Times(w: real, x: real, y: real)
    requires w >= 0.0 && x <= y
    ensures w * x <= w * y
  {
    assert w * (y - x) >= 0.0;
  }

  lemma {:induction false} TimesStrict(w: real, x: real, y: real)
    requires w > 0.0 && x < y
    ensures w * x < w * y
  {
    assert w * (y - x) > 0.0;
  }

  lemma {:induction false} CancelFactor(w: real, x: real, y: real)
    requires w > 0.0 && w * x <= w * y
    ensures x <= y
  {
    if y < x {
      TimesStrict(w, y, x);
    }
  }

  lemma {:induction false} Quotient(p: real, g: real)
    requires g > 0.0
    ensures g * (p / g) == p && (p > 0.0 ==> p / g > 0.0)
  {
    if p > 0.0 && p / g <= 0.0 {
      Times(g, p / g, 0.0);
    }
  }

  lemma {:induction false} Spread(b: real, d: real, x: real)
    ensures (b + d) * x == b * x + d * x
  {
  }

  lemma {:induction false} OrderedByProducts(w: real, x: real, z: real, p: real, q: real)
    requires w > 0.0 && w * x == p && w * z == q && p <= q
    ensures x <= z
  {
    CancelFactor(w, x, z);
  }

  lemma {:induction false} MediantOfProducts(b: real, d: real, x: real, y: real, z: real)
    requires b > 0.0 && d > 0.0 && x <= y && (b + d) * z == b * x + d * y
    ensures x <= z <= y
  {
    Spread(b, d, x);
    Spread(b, d, y);
    Times(d, x, y);
    Times(b, x, y);
    OrderedByProducts(b + d, x, z, b * x + d * x, b * x + d * y);
    OrderedByProducts(b + d, z, y, b * x + d * y, b * y + d * y);
  }

  /** The pooled ratio of two positive spans lies between the two ratios. */
  lemma {:induction false} Mediant(a: real, b: real, c: real, d: real)
    requires b > 0.0 && d > 0.0 && a / b <= c / d
    ensures a / b <= (a + c) / (b + d) <= c / d
  {
    Quotient(a, b);
    Quotient(c, d);
    Quotient(a + c, b + d);
    MediantOfProducts(b, d, a / b, c / d, (a + c) / (b + d));
  }

  lemma {:induction false} RateJoins(r1: int, s1: real, r2: int, s2: real)
    requires s1 > 0.0 && s2 > 0.0
    ensures var (x, y, z) := (RatePerHour(r1, s1), RatePerHour(r2, s2), RatePerHour(r1 + r2, s1 + s2));
      (x <= y ==> x <= z <= y) && (y <= x ==> y <= z <= x)
  {
    assert (s1 + s2) / 3600.0 == s1 / 3600.0 + s2 / 3600.0;
    if RatePerHour(r1, s1) <= RatePerHour(r2, s2) {
      Mediant(r1 as real, s1 / 3600.0, r2 as real, s2 / 3600.0);
    }
    if RatePerHour(r2, s2) <= RatePerHour(r1, s1) {
      Mediant(r2 as real, s2 / 3600.0, r1 as real, s1 / 3600.0);
    }
  }

  ghost predicate IsCountedPod(pods: seq<PodSample>, minAge: real, k: string, p: PodSample) {
    p in pods && Counts(p, minAge) && SampleKey(p) == k
  }

  /** A workload's pooled rate lies between the rates of its slowest and fastest counted pod. */
  lemma {:induction false} PooledRateIsBetween(pods: seq<PodSample>, minAge: real, k: string) returns (lo: PodSample, hi: PodSample)
    requires Pooled(pods, minAge, k).Some?
    ensures IsCountedPod(pods, minAge, k, lo) && IsCountedPod(pods, minAge, k, hi)
    ensures RatePerHour(lo.restarts, lo.age) <= EntryOf(Pooled(pods, minAge, k).value).rate <= RatePerHour(hi.restarts, hi.age)
  {
    var init, p := pods[..|pods| - 1], pods[|pods| - 1];
    var before := Pooled(init, minAge, k);
    if Counts(p, minAge) && SampleKey(p) == k {
      lo, hi := p, p;
      if before.Some? {
        var l, h := PooledRateIsBetween(init, minAge, k);
        PooledKey(init, minAge, k);
        RateJoins(before.value.restarts, before.value.seconds, p.restarts, p.age);
        if RatePerHour(l.restarts, l.age) <= RatePerHour(p.restarts, p.age) { lo := l; }
        if RatePerHour(h.restarts, h.age) >= RatePerHour(p.restarts, p.age) { hi := h; }
      }
    } else {
      lo, hi := PooledRateIsBetween(init, minAge, k);
    }
  }

  // ---- capture and compare

  method Capture(pods: seq<PodSample>, minPodAge: real) returns (doc: Document)
    ensures doc.minPodAge == (if minPodAge < 0.0 then 0.0 else minPodAge)
    ensures IsRates(pods, doc.minPodAge, doc.workloads)
  {
    var minSeconds := if minPodAge < 0.0 then 0.0 else minPodAge;
    var es := Rates(pods, minSeconds);
    doc := Document(minSeconds, es);
  }

  /** Zero fields take their defaults. */
  function Effective(o: Options): (r: Options)
    ensures r.factor > 0.0 && r.floor > 0.0
  {
    Options(if o.factor <= 0.0 then DEFAULT_FACTOR else o.factor, if o.floor <= 0.0 then DEFAULT_FLOOR else o.floor)
  }

  /** Both thresholds, multiplicative and absolute, have to be reached. */
  predicate Deviates(baseline: real, current: real, o: Options) {
    current >= baseline * o.factor && current - baseline >= o.floor
  }

  /** The document's entry for a key; the last one when a loaded document repeats a key. */
  function BaseOf(es: seq<Entry>, k: string): (e: Option<Entry>) {
    if es == [] then None
    else if EntryKey(es[|es| - 1]) == k then Some(es[|es| - 1])
    else BaseOf(es[..|es| - 1], k)
  }

  function DeviationOf(base: Entry, e: Entry): (d: Deviation) {
    Deviation(e.kind, e.namespace, e.name, base.rate, e.rate, e.pods)
  }

  function DeviationsOf(base: seq<Entry>, current: seq<Entry>, o: Options): (ds: seq<Deviation>) {
    if current == [] then []
    else
      var e := current[|current| - 1];
      var before := DeviationsOf(base, current[..|current| - 1], o);
      match BaseOf(base, EntryKey(e))
      case None => before
      case Some(b) => if Deviates(b.rate, e.rate, o) then before + [DeviationOf(b, e)] else before
  }

  /** Positions of the entries of `es` whose key occurs in `others`. */
  ghost function In(es: seq<Entry>, others: seq<Entry>): set<int> {
    set i | 0 <= i < |es| && HasKey(others, EntryKey(es[i]))
  }

  function DeviationSortKey(d: Deviation): (k: Key) { [Text(d.kind), Text(d.namespace), Text(d.name)] }

  lemma {:induction false} BaseOfFinds(es: seq<Entry>, k: string)
    ensures BaseOf(es, k).Some? <==> HasKey(es, k)
    ensures BaseOf(es, k).Some? ==> BaseOf(es, k).value in es && EntryKey(BaseOf(es, k).value) == k
  {
    if es != [] {
      var n := |es| - 1;
      BaseOfFinds(es[..n], k);
      if HasKey(es[..n], k) {
        var i :| 0 <= i < n && EntryKey(es[..n][i]) == k;
        assert EntryKey(es[i]) == k;
      }
      if HasKey(es, k) && EntryKey(es[n]) != k {
        var i :| 0 <= i < |es| && EntryKey(es[i]) == k;
        assert EntryKey(es[..n][i]) == k;
      }
    }
  }

  lemma {:induction false} InStep(es: seq<Entry>, others: seq<Entry>, i: nat)
    requires i < |es|
    ensures |In(es[..i + 1], others)| == |In(es[..i], others)| + (if HasKey(others, EntryKey(es[i])) then 1 else 0)
  {
    var before, after := In(es[..i], others), In(es[..i + 1], others);
    assert after == if HasKey(others, EntryKey(es[i])) then before + {i} else before;
  }

  method IndexBase(es: seq<Entry>) returns (base: map<string, Entry>)
    ensures forall k :: k in base <==> BaseOf(es, k).Some?
    ensures forall k :: k in base ==> BaseOf(es, k) == Some(base[k])
  {
    base := map[];
    for i := 0 to |es|
      invariant forall k :: k in base <==> BaseOf(es[..i], k).Some?
      invariant forall k :: k in base ==> BaseOf(es[..i], k) == Some(base[k])
    {
      assert es[..i + 1][..i] == es[..i];
      base := base[EntryKey(es[i]) := es[i]];
    }
    assert es[..|es|] == es;
  }

  /** The loop over the current entries. */
  method Judge(base: map<string, Entry>, doc: seq<Entry>, current: seq<Entry>, o: Options)
    returns (rep: Report, seen: set<string>)
    requires forall k :: k in base <==> BaseOf(doc, k).Some?
    requires forall k :: k in base ==> BaseOf(doc, k) == Some(base[k])
    ensures rep.deviations == DeviationsOf(doc, current, o) && rep.goneFromCluster == 0
    ensures rep.compared == |In(current, doc)| && rep.compared + rep.notInBaseline == |current|
    ensures forall k :: k in seen <==> HasKey(doc, k) && HasKey(current, k)
  {
    rep, seen := Report([], 0, 0, 0), {};
    assert In(current[..0], doc) == {};
    for i := 0 to |current|
      invariant rep.deviations == DeviationsOf(doc, current[..i], o) && rep.goneFromCluster == 0
      invariant rep.compared == |In(current[..i], doc)| && rep.compared + rep.notInBaseline == i
      invariant forall k :: k in seen <==> HasKey(doc, k) && HasKey(current[..i], k)
    {
      var e := current[i];
      var k := EntryKey(e);
      assert current[..i + 1][..i] == current[..i];
      InStep(current, doc, i);
      BaseOfFinds(doc, k);
      HasKeyStep(current, i);
      if k !in base {
        rep := rep.(notInBaseline := rep.notInBaseline + 1);
        continue;
      }
      seen := seen + {k};
      rep := rep.(compared := rep.compared + 1);
      if Deviates(base[k].rate, e.rate, o) {
        rep := rep.(deviations := rep.deviations + [DeviationOf(base[k], e)]);
      }
    }
    assert current[..|current|] == current;
  }

  lemma {:induction false} HasKeyStep(es: seq<Entry>, i: nat)
    requires i < |es|
    ensures forall k :: HasKey(es[..i + 1], k) <==> HasKey(es[..i], k) || k == EntryKey(es[i])
  {
    assert es[..i + 1][i] == es[i];
    forall k ensures HasKey(es[..i + 1], k) <==> HasKey(es[..i], k) || k == EntryKey(es[i]) {
      if HasKey(es[..i], k) { var j :| 0 <= j < i && EntryKey(es[..i][j]) == k; assert EntryKey(es[..i + 1][j]) == k; }
      if HasKey(es[..i + 1], k) { var j :| 0 <= j < i + 1 && EntryKey(es[..i + 1][j]) == k; assert j == i || EntryKey(es[..i][j]) == k; }
    }
  }

  /** What a comparison of a document with a cluster's current rates reports. */
  ghost predicate IsComparison(doc: Document, current: seq<Entry>, o: Options, rep: Report) {
    && IsSortOf(DeviationSortKey, DeviationsOf(doc.workloads, current, Effective(o)), rep.deviations)
    && rep.compared == |In(current, doc.workloads)|
    && rep.compared + rep.notInBaseline == |current|
    && rep.goneFromCluster + |In(doc.workloads, current)| == |doc.workloads|
  }

  /** The report of a document against a cluster, whose rates use the document's minimum pod age. */
  ghost predicate ComparesTo(doc: Document, pods: seq<PodSample>, o: Options, rep: Report) {
    exists current :: IsRates(pods, doc.minPodAge, current) && IsComparison(doc, current, o, rep)
  }

  method Compare(doc: Document, pods: seq<PodSample>, o: Options) returns (rep: Report)
    ensures ComparesTo(doc, pods, o, rep)
  {
    var opts := Effective(o);
    var base := IndexBase(doc.workloads);
    var es := Rates(pods, doc.minPodAge);
    var seen;
    rep, seen := Judge(base, doc.workloads, es, opts);
    var gone := 0;
    assert In(doc.workloads[..0], es) == {};
    for i := 0 to |doc.workloads|
      invariant gone + |In(doc.workloads[..i], es)| == i
    {
      InStep(doc.workloads, es, i);
      assert HasKey(doc.workloads, EntryKey(doc.workloads[i]));
      if EntryKey(doc.workloads[i]) !in seen {
        gone := gone + 1;
      }
    }
    assert doc.workloads[..|doc.workloads|] == doc.workloads;
    var ds := SortSlice(DeviationSortKey, rep.deviations);
    rep := rep.(deviations := ds, goneFromCluster := gone);
    assert IsComparison(doc, es, o, rep);
  }

  // ---- laws of comparison

  lemma {:induction false} BaseOfSelf(es: seq<Entry>, i: nat)
    requires DistinctEntries(es) && i < |es|
    ensures BaseOf(es, EntryKey(es[i])) == Some(es[i])
  {
    BaseOfFinds(es, EntryKey(es[i]));
    assert HasKey(es, EntryKey(es[i]));
  }

  lemma {:induction false} NoSelfDeviation(es: seq<Entry>, i: nat, o: Options)
    requires DistinctEntries(es) && i <= |es| && o.floor > 0.0
    ensures DeviationsOf(es, es[..i], o) == []
  {
    if i > 0 {
      NoSelfDeviation(es, i - 1, o);
      assert es[..i][..i - 1] == es[..i - 1];
      BaseOfSelf(es, i - 1);
    }
  }

  lemma {:induction false} AllIn(es: seq<Entry>, i: nat)
    requires i <= |es|
    ensures |In(es[..i], es)| == i
  {
    if i == 0 {
      assert In(es[..0], es) == {};
    } else {
      AllIn(es, i - 1);
      InStep(es, es, i - 1);
      assert HasKey(es, EntryKey(es[i - 1]));
    }
  }

  /** Comparing a cluster with a document just captured from it reports nothing. */
  lemma {:induction false} CaptureThenCompare(pods: seq<PodSample>, doc: Document, o: Options, current: seq<Entry>, rep: Report)
    requires IsRates(pods, doc.minPodAge, doc.workloads) && IsRates(pods, doc.minPodAge, current)
    requires IsComparison(doc, current, o, rep)
    ensures rep.deviations == [] && rep.notInBaseline == 0 && rep.goneFromCluster == 0
    ensures rep.compared == |doc.workloads|
  {
    RatesUnique(pods, doc.minPodAge, doc.workloads, current);
    NoSelfDeviation(current, |current|, Effective(o));
    assert current[..|current|] == current;
    AllIn(current, |current|);
    SameElements(rep.deviations, []);
  }

  ghost function CommonKeys(es: seq<Entry>, others: seq<Entry>): set<string> {
    set i | 0 <= i < |es| && HasKey(others, EntryKey(es[i])) :: EntryKey(es[i])
  }

  lemma {:induction false} InCountsKeys(es: seq<Entry>, others: seq<Entry>, i: nat)
    requires DistinctEntries(es) && i <= |es|
    ensures |In(es[..i], others)| == |CommonKeys(es[..i], others)|
  {
    if i == 0 {
      assert In(es[..0], others) == {} && CommonKeys(es[..0], others) == {};
    } else {
      InCountsKeys(es, others, i - 1);
      InStep(es, others, i - 1);
      assert es[..i] == es[..i - 1] + [es[i - 1]];
      CommonKeysStep(es[..i - 1], es[i - 1], others);
    }
  }

  lemma {:induction false} CommonKeysStep(es: seq<Entry>, e: Entry, others: seq<Entry>)
    requires forall j :: 0 <= j < |es| ==> EntryKey(es[j]) != EntryKey(e)
    ensures |CommonKeys(es + [e], others)| == |CommonKeys(es, others)| + (if HasKey(others, EntryKey(e)) then 1 else 0)
  {
    var before, after := CommonKeys(es, others), CommonKeys(es + [e], others);
    var k := EntryKey(e);
    assert (es + [e])[|es|] == e;
    forall x | x in before ensures x in after {
      var j :| 0 <= j < |es| && HasKey(others, EntryKey(es[j])) && EntryKey(es[j]) == x;
      assert (es + [e])[j] == es[j];
    }
    assert after == if HasKey(others, k) then before + {k} else before;
  }

  lemma {:induction false} CommonKeysSymmetric(a: seq<Entry>, b: seq<Entry>)
    ensures CommonKeys(a, b) == CommonKeys(b, a)
  {
    forall k | k in CommonKeys(a, b) ensures k in CommonKeys(b, a) { CommonOneWay(a, b, k); }
    forall k | k in CommonKeys(b, a) ensures k in CommonKeys(a, b) { CommonOneWay(b, a, k); }
  }

  lemma {:induction false} CommonOneWay(a: seq<Entry>, b: seq<Entry>, k: string)
    requires k in CommonKeys(a, b)
    ensures k in CommonKeys(b, a)
  {
    var i :| 0 <= i < |a| && HasKey(b, EntryKey(a[i])) && EntryKey(a[i]) == k;
    var j :| 0 <= j < |b| && EntryKey(b[j]) == k;
    assert HasKey(a, EntryKey(b[j]));
  }

  /** Every current workload is compared or new, every captured one compared or gone. */
  lemma {:induction false} CountsBalance(doc: Document, pods: seq<PodSample>, o: Options, current: seq<Entry>, rep: Report)
    requires IsRates(pods, doc.minPodAge, current) && IsComparison(doc, current, o, rep)
    requires DistinctEntries(doc.workloads)
    ensures rep.compared + rep.notInBaseline == |current|
    ensures rep.compared + rep.goneFromCluster == |doc.workloads|
  {
    InCountsKeys(current, doc.workloads, |current|);
    InCountsKeys(doc.workloads, current, |doc.workloads|);
    assert current[..|current|] == current && doc.workloads[..|doc.workloads|] == doc.workloads;
    CommonKeysSymmetric(current, doc.workloads);
  }

  /** Options a only ever report what options b report as well, at every non-negative pair of rates. */
  ghost predicate Stricter(a: Options, b: Options) {
    forall base: real, current: real :: base >= 0.0 && current >= 0.0 && Deviates(base, current, a) ==> Deviates(base, current, b)
  }

  lemma {:induction false} FloorDecides(a: Options, b: Options)
    requires a.factor > 0.0 && a.floor > 0.0 && Stricter(a, b)
    ensures b.floor <= a.floor
  {
    assert Deviates(0.0, a.floor, a);
    assert Deviates(0.0, a.floor, b);
  }

  /** Above 1 a smaller factor lets a fast workload through that the larger one stops. */
  lemma {:induction false} FactorDecides(a: Options, b: Options)
    requires a.factor > 0.0 && a.floor > 0.0 && b.factor > 1.0 && b.factor > a.factor
    ensures !Stricter(a, b)
  {
    var base := (a.floor + 1.0) / (b.factor - 1.0);
    Quotient(a.floor + 1.0, b.factor - 1.0);
    var byFloor, byFactor := base + a.floor, base * a.factor;
    var current := if byFloor >= byFactor then byFloor else byFactor;
    TimesStrict(base, a.factor, b.factor);
    assert base * b.factor == (b.factor - 1.0) * base + base;
    assert Deviates(base, current, a) && !Deviates(base, current, b);
  }

  lemma {:induction false} StricterAt(base: real, current: real, a: Options, b: Options)
    requires base >= 0.0 && Deviates(base, current, a)
    requires a.floor > 0.0 && b.floor <= a.floor && (b.factor <= a.factor || b.factor <= 1.0)
    ensures Deviates(base, current, b)
  {
    if b.factor <= a.factor {
      Times(base, b.factor, a.factor);
    } else {
      Times(base, b.factor, 1.0);
      assert base * 1.0 == base;
    }
  }

  lemma {:induction false} StricterSuffices(a: Options, b: Options)
    requires a.floor > 0.0 && b.floor <= a.floor && (b.factor <= a.factor || b.factor <= 1.0)
    ensures Stricter(a, b)
  {
    forall base: real, current: real | base >= 0.0 && current >= 0.0 && Deviates(base, current, a)
      ensures Deviates(base, current, b)
    {
      StricterAt(base, current, a, b);
    }
  }

  /**
   Raising a threshold only removes deviations, stated exactly on the options in
   force: the floor must not fall, and the factor must not fall unless the lower
   bound it sets is at most 1, which the floor already implies.
   */
  lemma {:induction false} RaisingThresholds(a: Options, b: Options)
    ensures var (x, y) := (Effective(a), Effective(b));
      Stricter(x, y) <==> y.floor <= x.floor && (y.factor <= x.factor || y.factor <= 1.0)
  {
    var x, y := Effective(a), Effective(b);
    if Stricter(x, y) {
      FloorDecides(x, y);
      if !(y.factor <= x.factor || y.factor <= 1.0) {
        FactorDecides(x, y);
      }
    }
    if y.floor <= x.floor && (y.factor <= x.factor || y.factor <= 1.0) {
      StricterSuffices(x, y);
    }
  }

  lemma {:induction false} OnePodRates(p: PodSample, minAge: real, e: Entry)
    requires Counts(p, minAge) && e == EntryOf(Total(p, p.restarts, p.age, 1))
    ensures IsRates([p], minAge, [e])
  {
    assert [p][..0] == [];
    assert EntryKey(e) == SampleKey(p);
    forall k ensures HasKey([e], k) <==> Pooled([p], minAge, k).Some? {
      assert [e][0] == e;
      assert Pooled([p], minAge, k) == if SampleKey(p) == k then Some(Total(p, p.restarts, p.age, 1)) else None;
    }
  }

  /** A document and a cluster of one workload each. */
  lemma {:induction false} OneWorkload(base: Entry, e: Entry, o: Options, doc: Document) returns (rep: Report)
    requires EntryKey(base) == EntryKey(e) && doc.workloads == [base]
    ensures IsComparison(doc, [e], o, rep)
    ensures rep.deviations == if Deviates(base.rate, e.rate, Effective(o)) then [DeviationOf(base, e)] else []
  {
    var ds := DeviationsOf([base], [e], Effective(o));
    assert [e][..0] == [];
    assert BaseOf([base], EntryKey(e)) == Some(base);
    assert DeviationsOf([base], [], Effective(o)) == [];
    assert [base][0] == base && [e][0] == e;
    assert In([e], [base]) == {0} && In([base], [e]) == {0};
    rep := Report(ds, 1, 0, 0);
    assert multiset(ds) == multiset(rep.deviations);
  }

  /**
   A raised flag can still add deviations when it was 0 before: 0 stands for the
   default 3, so a workload that went from 1 to 2 restarts per hour is not reported
   under Factor 0 and is reported under Factor 2.
   */
  lemma {:induction false} RaisingFromDefaultCanAdd()
    returns (doc: Document, pods: seq<PodSample>, current: seq<Entry>, low: Report, raised: Report)
    ensures IsRates(pods, doc.minPodAge, current)
    ensures IsComparison(doc, current, Options(0.0, 0.0), low) && IsComparison(doc, current, Options(2.0, 0.0), raised)
    ensures low.deviations == [] && |raised.deviations| == 1
  {
    var p := PodSample("Deployment", "shop", "web", 2, 3600.0);
    var base, e := Entry("Deployment", "shop", "web", 1.0, 1, 3600.0), EntryOf(Total(p, 2, 3600.0, 1));
    doc, pods, current := Document(0.0, [base]), [p], [e];
    OnePodRates(p, 0.0, e);
    assert e.rate == 2.0;
    low := OneWorkload(base, e, Options(0.0, 0.0), doc);
    raised := OneWorkload(base, e, Options(2.0, 0.0), doc);
  }

  lemma {:induction false} DeviationsShrink(base: seq<Entry>, current: seq<Entry>, a: Options, b: Options)
    requires Stricter(a, b)
    requires forall i :: 0 <= i < |base| ==> base[i].rate >= 0.0
    requires forall i :: 0 <= i < |current| ==> current[i].rate >= 0.0
    ensures multiset(DeviationsOf(base, current, a)) <= multiset(DeviationsOf(base, current, b))
  {
    if current != [] {
      var e := current[|current| - 1];
      DeviationsShrink(base, current[..|current| - 1], a, b);
      BaseOfFinds(base, EntryKey(e));
    }
  }

  lemma {:induction false} RatesNonNegative(pods: seq<PodSample>, minAge: real, es: seq<Entry>)
    requires IsRates(pods, minAge, es)
    ensures forall i :: 0 <= i < |es| ==> es[i].rate >= 0.0
  {
    forall i | 0 <= i < |es| ensures es[i].rate >= 0.0 {
      PooledKey(pods, minAge, EntryKey(es[i]));
    }
  }

  /** The same comparison under stricter options reports a sub-multiset of the deviations. */
  lemma {:induction false} StricterReportsLess(doc: Document, pods: seq<PodSample>, current: seq<Entry>,
                            a: Options, repA: Report, b: Options, repB: Report)
    requires IsRates(pods, doc.minPodAge, current)
    requires forall i :: 0 <= i < |doc.workloads| ==> doc.workloads[i].rate >= 0.0
    requires IsComparison(doc, current, a, repA) && IsComparison(doc, current, b, repB)
    requires Stricter(Effective(a), Effective(b))
    ensures multiset(repA.deviations) <= multiset(repB.deviations)
  {
    RatesNonNegative(pods, doc.minPodAge, current);
    DeviationsShrink(doc.workloads, current, Effective(a), Effective(b));
  }

  /** On one document and cluster, options a report no deviation that options b do not. */
  ghost predicate ShrinksOn(a: Options, b: Options, doc: Document, pods: seq<PodSample>, current: seq<Entry>, repA: Report, repB: Report) {
    && IsRates(pods, doc.minPodAge, current) && (forall i :: 0 <= i < |doc.workloads| ==> doc.workloads[i].rate >= 0.0)
    && IsComparison(doc, current, a, repA) && IsComparison(doc, current, b, repB)
    ==> multiset(repA.deviations) <= multiset(repB.deviations)
  }

  ghost predicate ReportsShrink(a: Options, b: Options) {
    forall doc, pods, current, repA, repB :: ShrinksOn(a, b, doc, pods, current, repA, repB)
  }

  /** A pod that restarts at any given positive rate. */
  lemma {:induction false} PodAtRate(rate: real) returns (p: PodSample)
    requires rate > 0.0
    ensures Counts(p, 0.0) && RatePerHour(p.restarts, p.age) == rate
  {
    var age := 3600.0 / rate;
    Quotient(3600.0, rate);
    p := PodSample("Deployment", "shop", "web", 1, age);
    var hours, seen := age / 3600.0, RatePerHour(1, age);
    Quotient(1.0, hours);
    assert rate * hours == 1.0 by {
      assert 3600.0 * hours == age;
      Scaled(3600.0, rate, hours);
    }
    SameByProducts(hours, seen, rate);
  }

  lemma {:induction false} Scaled(g: real, rate: real, hours: real)
    requires g > 0.0 && rate * (g * hours) == g
    ensures rate * hours == 1.0
  {
    assert g * (rate * hours) == g * 1.0;
    CancelFactor(g, rate * hours, 1.0);
    CancelFactor(g, 1.0, rate * hours);
  }

  lemma {:induction false} SameByProducts(w: real, x: real, y: real)
    requires w > 0.0 && w * x == 1.0 && y * w == 1.0
    ensures x == y
  {
    CancelFactor(w, x, y);
    CancelFactor(w, y, x);
  }

  /** Two rates that one pair of options tells apart make a cluster that it tells apart. */
  lemma {:induction false} RatesMakeReports(a: Options, b: Options, base: real, current: real)
    requires base >= 0.0 && current > 0.0 && Deviates(base, current, Effective(a)) && !Deviates(base, current, Effective(b))
    ensures !ReportsShrink(a, b)
  {
    var p := PodAtRate(current);
    var e := EntryOf(Total(p, p.restarts, p.age, 1));
    var before := Entry(p.kind, p.namespace, p.name, base, 1, p.age);
    var doc := Document(0.0, [before]);
    OnePodRates(p, 0.0, e);
    var repA := OneWorkload(before, e, a, doc);
    var repB := OneWorkload(before, e, b, doc);
    assert DeviationOf(before, e) in multiset(repA.deviations);
    assert !ShrinksOn(a, b, doc, [p], [e], repA, repB);
  }

  /** The exact condition on reports: over every document and cluster, options a only remove what options b report. */
  lemma {:induction false} RaisingShrinksReports(a: Options, b: Options)
    ensures var (x, y) := (Effective(a), Effective(b));
      ReportsShrink(a, b) <==> y.floor <= x.floor && (y.factor <= x.factor || y.factor <= 1.0)
  {
    var x, y := Effective(a), Effective(b);
    RaisingThresholds(a, b);
    if Stricter(x, y) {
      forall doc, pods, current, repA, repB ensures ShrinksOn(a, b, doc, pods, current, repA, repB) {
        if IsRates(pods, doc.minPodAge, current) && (forall i :: 0 <= i < |doc.workloads| ==> doc.workloads[i].rate >= 0.0)
          && IsComparison(doc, current, a, repA) && IsComparison(doc, current, b, repB)
        {
          StricterReportsLess(doc, pods, current, a, repA, b, repB);
        }
      }
    } else {
      var base: real, current: real :| base >= 0.0 && current >= 0.0 && Deviates(base, current, x) && !Deviates(base, current, y);
      RatesMakeReports(a, b, base, current);
    }
  }

  // ---- what a rate and a deviation are

  /** A pod that counts towards a workload: old enough, with a meaningful age and count. */
  function CountedFor(minAge: real, k: string): (f: PodSample -> bool) {
    (p: PodSample) => p.age > 0.0 && p.restarts >= 0 && p.age >= minAge && ObjectKey(p.kind, p.namespace, p.name) == k
  }

  function RestartsOf(p: PodSample): (n: int) { p.restarts }

  function SecondsOf(ps: seq<PodSample>): (r: real) { if ps == [] then 0.0 else SecondsOf(ps[..|ps| - 1]) + ps[|ps| - 1].age }

  lemma {:induction false} PooledSums(pods: seq<PodSample>, minAge: real, k: string)
    ensures var counted := Filter(CountedFor(minAge, k), pods);
      match Pooled(pods, minAge, k)
      case None => counted == []
      case Some(t) => counted != [] && t.restarts == Sum(RestartsOf, counted) && t.seconds == SecondsOf(counted) && t.pods == |counted|
  {
    if pods != [] {
      var n := |pods| - 1;
      PooledSums(pods[..n], minAge, k);
      var counted := Filter(CountedFor(minAge, k), pods[..n]);
      assert (counted + [pods[n]])[..|counted|] == counted;
      if counted == [] {
        assert Sum(RestartsOf, counted) == 0 && SecondsOf(counted) == 0.0;
      }
    }
  }

  /** An entry is its workload's restarts per hour of observed age over all counted pods. */
  lemma {:induction false} RateExact(pods: seq<PodSample>, minAge: real, es: seq<Entry>, e: Entry)
    requires IsRates(pods, minAge, es) && e in es
    ensures var counted := Filter(CountedFor(minAge, EntryKey(e)), pods);
      && counted != [] && e.pods == |counted| && e.observed == SecondsOf(counted) && e.observed > 0.0
      && IsHourly(e.rate, Sum(RestartsOf, counted), e.observed)
  {
    var i :| 0 <= i < |es| && es[i] == e;
    PooledSums(pods, minAge, EntryKey(e));
    PooledKey(pods, minAge, EntryKey(e));
    var t := Pooled(pods, minAge, EntryKey(e)).value;
    RatePerHourTimes(t.restarts, t.seconds);
  }

  predicate IsHourly(rate: real, restarts: int, seconds: real) { rate * seconds == 3600.0 * (restarts as real) }

  lemma {:induction false} RatePerHourTimes(restarts: int, seconds: real)
    requires seconds > 0.0
    ensures IsHourly(RatePerHour(restarts, seconds), restarts, seconds)
  {
    var hours := seconds / 3600.0;
    Quotient(restarts as real, hours);
    var rate := RatePerHour(restarts, seconds);
    assert hours * rate == restarts as real;
    assert seconds == 3600.0 * hours;
    Regroup(rate, hours);
  }

  lemma {:induction false} Regroup(rate: real, hours: real)
    ensures rate * (3600.0 * hours) == 3600.0 * (hours * rate)
  {
  }

  /** A deviation is reported iff a current workload in the baseline reached both thresholds against it. */
  lemma {:induction false} DeviationsExact(base: seq<Entry>, current: seq<Entry>, o: Options, d: Deviation)
    ensures d in DeviationsOf(base, current, o) <==> exists i :: 0 <= i < |current| && DeviatesAs(base, current[i], o, d)
  {
    if current != [] {
      var n := |current| - 1;
      DeviationsExact(base, current[..n], o, d);
      if i :| 0 <= i < |current| && DeviatesAs(base, current[i], o, d) {
        assert i < n ==> current[..n][i] == current[i];
      }
      if i :| 0 <= i < n && DeviatesAs(base, current[..n][i], o, d) {
        assert current[..n][i] == current[i];
      }
    }
  }

  ghost predicate DeviatesAs(base: seq<Entry>, e: Entry, o: Options, d: Deviation) {
    && BaseOf(base, EntryKey(e)).Some?
    && var b := BaseOf(base, EntryKey(e)).value;
       && e.rate >= b.rate * o.factor && e.rate - b.rate >= o.floor
       && d == Deviation(e.kind, e.namespace, e.name, b.rate, e.rate, e.pods)
  }
}
