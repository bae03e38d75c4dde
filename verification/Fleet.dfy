/**
 internal/fleet: many clusters swept in one pass, each judged by the gate, folded
 into one report.  A visit is a target together with what reading it returned;
 the sweep is the sequential fold over the visits.
 */
module Fleet {
  import opened Basics
  import opened Sorting
  import opened Gate
  import opened Correlation

  datatype Target = Target(name: string, context: string)

  /** What scan.Evaluate returned for a target: nothing, or findings and failed reads. */
  datatype Scan = Unreached(why: string) | Scanned(flat: seq<Finding>, unread: seq<ReadFailure>)

  datatype Visit = Visit(target: Target, scan: Scan)

  datatype ClusterSummary = ClusterSummary(name: string, context: string, outcome: Outcome,
                                           critical: int, warning: int, info: int, blindspots: int, topIssues: seq<string>)

  datatype Unreachable = Unreachable(name: string, context: string, reason: string)

  datatype Report = Report(outcome: Outcome, code: int, clusters: seq<ClusterSummary>,
                           unreachable: seq<Unreachable>, shared: seq<Shared>)

  const MAX_TOP_ISSUES: nat := 3

  // ---- row identity

  /** The pair a row carries: the context, and the name only when it says more than the context. */
  function Resolve(t: Target): (r: (string, string)) {
    var ctx := if t.context == "" then t.name else t.context;
    (if t.name == ctx then "" else t.name, ctx)
  }

  function Identity(name: string, context: string): (id: string) { if name != "" then name else context }

  function RowId(t: Target): (id: string) { Identity(Resolve(t).0, Resolve(t).1) }

  // ---- one cluster's row

  function FleetOptions(failOn: int): (o: Gate.Options) { Gate.Options(failOn, "", "", "", [], false, [], [], []) }

  /** The outcome of the target's own gate. */
  function GateOutcome(flat: seq<Finding>, unread: seq<ReadFailure>, failOn: int): (r: Outcome) {
    var failing := Filter(FailsUnder(FleetOptions(failOn)), flat);
    OutcomeOf(false, HasUnevaluated(failing), Blind(unread, []), failing != [])
  }

  lemma {:induction false} OwnGate(flat: seq<Finding>, unread: seq<ReadFailure>, failOn: int, v: Verdict)
    requires IsVerdict(flat, unread, FleetOptions(failOn), v)
    ensures v.outcome == GateOutcome(flat, unread, failOn)
  {
    var failing := Filter(FailsUnder(FleetOptions(failOn)), flat);
    UnevaluatedInMultiset(v.failing, failing);
    SameElements(v.failing, failing);
  }

  function IsCritical(f: Finding): (n: int) { if f.level == CRITICAL then 1 else 0 }

  function IsWarning(f: Finding): (n: int) { if f.level == WARNING then 1 else 0 }

  function IsOther(f: Finding): (n: int) { if f.level == CRITICAL || f.level == WARNING then 0 else 1 }

  function IssueIs(k: string): Finding -> int { (f: Finding) => if f.issue == k then 1 else 0 }

  /** The distinct issue kinds, in order of first appearance. */
  function Kinds(fs: seq<Finding>): (ks: seq<string>) {
    if fs == [] then []
    else
      var before := Kinds(fs[..|fs| - 1]);
      if fs[|fs| - 1].issue in before then before else before + [fs[|fs| - 1].issue]
  }

  /** Most frequent first, ties by name. */
  function KindOrder(fs: seq<Finding>): string -> Key { k => [Num(-Sum(IssueIs(k), fs)), Text(k)] }

  function Take<T>(n: nat, xs: seq<T>): (r: seq<T>) { if |xs| > n then xs[..n] else xs }

  function TopIssues(fs: seq<Finding>): (r: seq<string>) { Take(MAX_TOP_ISSUES, SortBy(KindOrder(fs), Kinds(fs))) }

  function SummaryOf(t: Target, flat: seq<Finding>, unread: seq<ReadFailure>, failOn: int): (s: ClusterSummary) {
    var (name, ctx) := Resolve(t);
    ClusterSummary(name, ctx, GateOutcome(flat, unread, failOn),
                   Sum(IsCritical, flat), Sum(IsWarning, flat), Sum(IsOther, flat), |unread|, TopIssues(flat))
  }

  function EvidenceOf(t: Target, flat: seq<Finding>, unread: seq<ReadFailure>): (e: Evidence) {
    Evidence(RowId(t), set i | 0 <= i < |flat| :: flat[i].issue, set i | 0 <= i < |unread| :: unread[i].resource)
  }

  lemma {:induction false} KindsAreDistinct(fs: seq<Finding>)
    ensures NoDup(Kinds(fs))
    ensures forall k :: k in Kinds(fs) <==> exists i :: 0 <= i < |fs| && fs[i].issue == k
  {
    if fs != [] {
      var n := |fs| - 1;
      var init := fs[..n];
      KindsAreDistinct(init);
      forall k ensures k in Kinds(fs) <==> exists i :: 0 <= i < |fs| && fs[i].issue == k {
        assert fs[n].issue in Kinds(fs);
        if k in Kinds(init) {
          var i :| 0 <= i < n && init[i].issue == k;
          assert fs[i].issue == k;
        }
        if i :| 0 <= i < |fs| && fs[i].issue == k {
          assert i == n || init[i].issue == k;
        }
      }
    }
  }

  lemma {:induction false} SameKinds(fs: seq<Finding>, gs: seq<Finding>)
    requires multiset(fs) == multiset(gs)
    ensures forall k :: k in Kinds(fs) <==> k in Kinds(gs)
  {
    KindsAreDistinct(fs);
    KindsAreDistinct(gs);
    SameElements(fs, gs);
    forall k ensures k in Kinds(fs) <==> k in Kinds(gs) {
      if i :| 0 <= i < |fs| && fs[i].issue == k { assert fs[i] in gs; }
      if i :| 0 <= i < |gs| && gs[i].issue == k { assert gs[i] in fs; }
    }
  }

  lemma {:induction false} SameKindOrder(fs: seq<Finding>, gs: seq<Finding>, full: seq<string>)
    requires multiset(fs) == multiset(gs) && Sorted(KindOrder(gs), full)
    ensures Sorted(KindOrder(fs), full) && KeyIdentifies(KindOrder(fs), full)
  {
    forall i, j | 0 <= i < j < |full| ensures KeyLe(KindOrder(fs)(full[i]), KindOrder(fs)(full[j])) {
      SumPermutation(IssueIs(full[i]), fs, gs);
      SumPermutation(IssueIs(full[j]), fs, gs);
      assert KindOrder(fs)(full[i]) == KindOrder(gs)(full[i]) && KindOrder(fs)(full[j]) == KindOrder(gs)(full[j]);
    }
    forall i, j | 0 <= i < |full| && 0 <= j < |full| && KindOrder(fs)(full[i]) == KindOrder(fs)(full[j])
      ensures full[i] == full[j]
    {
      assert KindOrder(fs)(full[i])[1] == KindOrder(fs)(full[j])[1];
    }
  }

  /** The shortlist of a list of findings depends only on the findings, not on their order. */
  lemma {:induction false} TopIssuesUnique(fs: seq<Finding>, gs: seq<Finding>, full: seq<string>)
    requires multiset(fs) == multiset(gs)
    requires NoDup(full) && (forall k :: k in full <==> k in Kinds(gs)) && Sorted(KindOrder(gs), full)
    ensures full == SortBy(KindOrder(fs), Kinds(fs))
  {
    var listed := SortBy(KindOrder(fs), Kinds(fs));
    SortBySorts(KindOrder(fs), Kinds(fs));
    KindsAreDistinct(fs);
    SameElements(listed, Kinds(fs));
    NoDupPermutation(Kinds(fs), listed);
    SameKinds(fs, gs);
    SameKindOrder(fs, gs, full);
    NoDupSameElements(full, listed);
    SortUnique(KindOrder(fs), full, listed);
  }

  // ---- summarize

  function CountAt(counts: map<string, int>, k: string): (n: int) { if k in counts then counts[k] else 0 }

  method CountIssues(fs: seq<Finding>) returns (counts: map<string, int>)
    ensures forall k :: k in counts <==> k in Kinds(fs)
    ensures forall k :: CountAt(counts, k) == Sum(IssueIs(k), fs)
  {
    counts := map[];
    for i := 0 to |fs|
      invariant forall k :: k in counts <==> k in Kinds(fs[..i])
      invariant forall k :: CountAt(counts, k) == Sum(IssueIs(k), fs[..i])
    {
      assert fs[..i + 1][..i] == fs[..i];
      counts := counts[fs[i].issue := CountAt(counts, fs[i].issue) + 1];
    }
    assert fs[..|fs|] == fs;
  }

  function CountOrder(counts: map<string, int>): string -> Key { k => [Num(-CountAt(counts, k)), Text(k)] }

  function Self(k: string): (r: string) { k }

  lemma {:induction false} CountOrderIsKindOrder(fs: seq<Finding>, counts: map<string, int>, kinds: seq<string>)
    requires forall k :: CountAt(counts, k) == Sum(IssueIs(k), fs)
    requires Sorted(CountOrder(counts), kinds)
    ensures Sorted(KindOrder(fs), kinds)
  {
    forall i, j | 0 <= i < j < |kinds| ensures KeyLe(KindOrder(fs)(kinds[i]), KindOrder(fs)(kinds[j])) {
      assert KindOrder(fs)(kinds[i]) == CountOrder(counts)(kinds[i]);
      assert KindOrder(fs)(kinds[j]) == CountOrder(counts)(kinds[j]);
    }
  }

  /** topIssues: the map is ranged over in arbitrary order, sorted and cut. */
  method PickTop(fs: seq<Finding>, counts: map<string, int>, ghost flat: seq<Finding>) returns (top: seq<string>)
    requires multiset(fs) == multiset(flat)
    requires forall k :: k in counts <==> k in Kinds(fs)
    requires forall k :: CountAt(counts, k) == Sum(IssueIs(k), fs)
    ensures top == TopIssues(flat)
  {
    var kinds := ListSorted(Self, CountOrder(counts), map k | k in counts :: k);
    CountOrderIsKindOrder(fs, counts, kinds);
    forall k ensures k in kinds <==> k in Kinds(fs) {
      assert k in kinds <==> Self(k) in counts;
    }
    TopIssuesUnique(flat, fs, kinds);
    top := if |kinds| > MAX_TOP_ISSUES then kinds[..MAX_TOP_ISSUES] else kinds;
  }

  /** The level counts of a list of findings. */
  method CountLevels(fs: seq<Finding>) returns (critical: int, warning: int, info: int)
    ensures critical == Sum(IsCritical, fs) && warning == Sum(IsWarning, fs) && info == Sum(IsOther, fs)
  {
    critical, warning, info := 0, 0, 0;
    for i := 0 to |fs|
      invariant critical == Sum(IsCritical, fs[..i]) && warning == Sum(IsWarning, fs[..i]) && info == Sum(IsOther, fs[..i])
    {
      assert fs[..i + 1][..i] == fs[..i];
      if fs[i].level == CRITICAL { critical := critical + 1; }
      else if fs[i].level == WARNING { warning := warning + 1; }
      else { info := info + 1; }
    }
    assert fs[..|fs|] == fs;
  }

  /** summarize: the row and the evidence of one judged cluster. */
  method Summarize(t: Target, flat: seq<Finding>, unread: seq<ReadFailure>, failOn: int)
    returns (s: ClusterSummary, e: Evidence)
    ensures s == SummaryOf(t, flat, unread, failOn) && e == EvidenceOf(t, flat, unread)
  {
    var o := FleetOptions(failOn);
    assert AllFindings(flat, o) == flat;
    var v := Decide(flat, unread, o);
    OwnGate(flat, unread, failOn, v);
    VerdictPartitions(flat, unread, o, v);
    var fs := v.failing + v.reported;
    assert multiset(fs) == multiset(flat);
    SumPermutation(IsCritical, fs, flat);
    SumPermutation(IsWarning, fs, flat);
    SumPermutation(IsOther, fs, flat);
    var critical, warning, info := CountLevels(fs);
    var counts := CountIssues(fs);
    var top := PickTop(fs, counts, flat);
    var (name, ctx) := Resolve(t);
    s := ClusterSummary(name, ctx, v.outcome, critical, warning, info, |v.inconclusive|, top);
    e := Evidence(Identity(name, ctx), set i | 0 <= i < |fs| :: fs[i].issue,
                  set i | 0 <= i < |v.inconclusive| :: v.inconclusive[i].resource);
    SameIssues(fs, flat);
    SameResources(v.inconclusive, unread);
  }

  lemma {:induction false} SameIssues(fs: seq<Finding>, gs: seq<Finding>)
    requires multiset(fs) == multiset(gs)
    ensures (set i | 0 <= i < |fs| :: fs[i].issue) == (set i | 0 <= i < |gs| :: gs[i].issue)
  {
    SameElements(fs, gs);
    var a, b := set i | 0 <= i < |fs| :: fs[i].issue, set i | 0 <= i < |gs| :: gs[i].issue;
    forall k | k in a ensures k in b { var i :| 0 <= i < |fs| && fs[i].issue == k; assert fs[i] in gs; }
    forall k | k in b ensures k in a { var i :| 0 <= i < |gs| && gs[i].issue == k; assert gs[i] in fs; }
  }

  lemma {:induction false} SameResources(spots: seq<Gate.Blindspot>, unread: seq<ReadFailure>)
    requires spots == Blindspots(unread, [])
    ensures (set i | 0 <= i < |spots| :: spots[i].resource) == (set i | 0 <= i < |unread| :: unread[i].resource)
  {
    forall i | 0 <= i < |unread| ensures spots[i].resource == unread[i].resource {
    }
  }

  // ---- the sweep

  function SummaryRow(failOn: int): Visit -> ClusterSummary {
    (v: Visit) => if v.scan.Scanned? then SummaryOf(v.target, v.scan.flat, v.scan.unread, failOn)
         else ClusterSummary("", "", Pass, 0, 0, 0, 0, [])
  }

  function UnreachableRow(v: Visit): (u: Unreachable) {
    Unreachable(Resolve(v.target).0, Resolve(v.target).1, if v.scan.Unreached? then v.scan.why else "")
  }

  function EvidenceRow(v: Visit): (e: Evidence) {
    if v.scan.Scanned? then EvidenceOf(v.target, v.scan.flat, v.scan.unread) else Evidence("", {}, {})
  }

  predicate Reached(v: Visit) { v.scan.Scanned? }

  predicate NotReached(v: Visit) { v.scan.Unreached? }

  function Rank(o: Outcome): (n: int) {
    match o case Inconclusive => 1 case Fail => 2 case _ => 3
  }

  /** Worst first; the row identity breaks the last tie. */
  function SummaryOrder(s: ClusterSummary): (k: Key) {
    [Num(Rank(s.outcome)), Num(-s.critical), Num(-s.warning), Num(-s.info), Text(Identity(s.name, s.context))]
  }

  function UnreachableOrder(u: Unreachable): (k: Key) { [Text(Identity(u.name, u.context))] }

  /** decide: inconclusive outranks fail, and a cluster that was not reached is inconclusive. */
  function FleetOutcome(clusters: seq<ClusterSummary>, unreachable: seq<Unreachable>): (o: Outcome) {
    if (exists i :: 0 <= i < |clusters| && clusters[i].outcome == Inconclusive) || unreachable != [] then Inconclusive
    else if exists i :: 0 <= i < |clusters| && clusters[i].outcome == Fail then Fail
    else Pass
  }

  method DecideFleet(clusters: seq<ClusterSummary>, unreachable: seq<Unreachable>) returns (o: Outcome)
    ensures o == FleetOutcome(clusters, unreachable)
  {
    var failing := false;
    for i := 0 to |clusters|
      invariant forall j :: 0 <= j < i ==> clusters[j].outcome != Inconclusive
      invariant failing <==> exists j :: 0 <= j < i && clusters[j].outcome == Fail
    {
      if clusters[i].outcome == Inconclusive { return Inconclusive; }
      if clusters[i].outcome == Fail { failing := true; }
    }
    if |unreachable| > 0 { return Inconclusive; }
    if failing { return Fail; }
    return Pass;
  }

  /** What a sweep reports. */
  ghost predicate IsReport(visits: seq<Visit>, failOn: int, r: Report) {
    && IsSortOf(SummaryOrder, Map(SummaryRow(failOn), Filter(Reached, visits)), r.clusters)
    && IsSortOf(UnreachableOrder, Map(UnreachableRow, Filter(NotReached, visits)), r.unreachable)
    && IsCorrelation(Map(EvidenceRow, Filter(Reached, visits)), r.shared)
    && r.outcome == FleetOutcome(r.clusters, r.unreachable) && r.code == CodeOf(r.outcome)
  }

  /** One more visit adds at most its own row. */
  lemma {:induction false} RowStep<R>(p: Visit -> bool, row: Visit -> R, visits: seq<Visit>, i: nat)
    requires i < |visits|
    ensures Map(row, Filter(p, visits[..i + 1]))
         == Map(row, Filter(p, visits[..i])) + (if p(visits[i]) then [row(visits[i])] else [])
  {
    FilterStep(p, visits, i);
  }

  /** The sequential fold of Sweep. */
  method Sweep(visits: seq<Visit>, failOn: int) returns (r: Report)
    ensures IsReport(visits, failOn, r)
  {
    var clusters: seq<ClusterSummary>, unreachable: seq<Unreachable>, evidence: seq<Evidence> := [], [], [];
    for i := 0 to |visits|
      invariant clusters == Map(SummaryRow(failOn), Filter(Reached, visits[..i]))
      invariant unreachable == Map(UnreachableRow, Filter(NotReached, visits[..i]))
      invariant evidence == Map(EvidenceRow, Filter(Reached, visits[..i]))
    {
      RowStep(Reached, SummaryRow(failOn), visits, i);
      RowStep(Reached, EvidenceRow, visits, i);
      RowStep(NotReached, UnreachableRow, visits, i);
      var v := visits[i];
      match v.scan {
        case Unreached(_) => unreachable := unreachable + [UnreachableRow(v)];
        case Scanned(flat, unread) =>
          var s, e := Summarize(v.target, flat, unread, failOn);
          clusters, evidence := clusters + [s], evidence + [e];
      }
    }
    assert visits[..|visits|] == visits;
    var shared := Correlate(evidence);
    clusters := SortSlice(SummaryOrder, clusters);
    unreachable := SortSlice(UnreachableOrder, unreachable);
    var o := DecideFleet(clusters, unreachable);
    r := Report(o, CodeOf(o), clusters, unreachable, shared);
  }

  // ---- verdict laws

  /** How one visit counts towards the fleet verdict. */
  function VisitOutcome(v: Visit, failOn: int): (o: Outcome) {
    match v.scan
    case Unreached(_) => Inconclusive
    case Scanned(flat, unread) => GateOutcome(flat, unread, failOn)
  }

  function Severity(o: Outcome): (n: int) {
    match o case Pass => 0 case Fail => 1 case _ => 2
  }

  function RowOutcome(s: ClusterSummary): (o: Outcome) { s.outcome }

  function OutcomeUnder(failOn: int): (f: Visit -> Outcome) { (v: Visit) => VisitOutcome(v, failOn) }

  /** The verdict over a list of outcomes. */
  function Worst(os: seq<Outcome>, lost: bool): (o: Outcome) {
    if lost || Inconclusive in os then Inconclusive else if Fail in os then Fail else Pass
  }

  lemma {:induction false} WorstOfRows(clusters: seq<ClusterSummary>, unreachable: seq<Unreachable>)
    ensures FleetOutcome(clusters, unreachable) == Worst(Map(RowOutcome, clusters), unreachable != [])
  {
    var os := Map(RowOutcome, clusters);
    assert forall i :: 0 <= i < |clusters| ==> os[i] == clusters[i].outcome;
  }

  /** The rows' outcomes are those of the visits behind them. */
  lemma {:induction false} RowOutcomes(vs: seq<Visit>, row: Visit -> ClusterSummary, f: Visit -> Outcome, clusters: seq<ClusterSummary>)
    requires multiset(clusters) == multiset(Map(row, vs))
    requires forall i :: 0 <= i < |vs| ==> row(vs[i]).outcome == f(vs[i])
    ensures multiset(Map(RowOutcome, clusters)) == multiset(Map(f, vs))
  {
    MapPermutation(RowOutcome, clusters, Map(row, vs));
    MapTwice(row, RowOutcome, f, vs);
  }

  lemma {:induction false} MapTwice<T, U, V>(f: T -> U, g: U -> V, h: T -> V, xs: seq<T>)
    requires forall i :: 0 <= i < |xs| ==> g(f(xs[i])) == h(xs[i])
    ensures Map(g, Map(f, xs)) == Map(h, xs)
  {
  }

  lemma {:induction false} MapHolds<T, U>(f: T -> U, xs: seq<T>, y: U)
    ensures y in Map(f, xs) <==> exists x :: x in xs && f(x) == y
  {
    var ys := Map(f, xs);
    if y in ys {
      var i :| 0 <= i < |ys| && ys[i] == y;
      assert xs[i] in xs && f(xs[i]) == y;
    }
    if x :| x in xs && f(x) == y {
      var i :| 0 <= i < |xs| && xs[i] == x;
      assert ys[i] == y;
    }
  }

  /** The worst of the visits' outcomes, one that was not reached counting as inconclusive. */
  lemma {:induction false} WorstOfVisits(visits: seq<Visit>, f: Visit -> Outcome, os: seq<Outcome>)
    requires forall v :: NotReached(v) ==> f(v) == Inconclusive
    requires forall v :: f(v) != Timeout
    requires multiset(os) == multiset(Map(f, Filter(Reached, visits)))
    ensures var o := Worst(os, Filter(NotReached, visits) != []);
      && o != Timeout
      && (forall v :: v in visits ==> Severity(f(v)) <= Severity(o))
      && (o == Pass || exists v :: v in visits && f(v) == o)
  {
    var reached, not := Filter(Reached, visits), Filter(NotReached, visits);
    var o := Worst(os, not != []);
    FilterElements(Reached, visits);
    FilterElements(NotReached, visits);
    SameElements(os, Map(f, reached));
    MapHolds(f, reached, Inconclusive);
    MapHolds(f, reached, Fail);
    forall v | v in visits ensures Severity(f(v)) <= Severity(o) {
      assert Reached(v) ==> v in reached;
      assert NotReached(v) ==> v in not;
    }
    if not != [] {
      assert not[0] in not;
    }
  }

  lemma {:induction false} OutcomesOfVisits(failOn: int)
    ensures forall v :: NotReached(v) ==> OutcomeUnder(failOn)(v) == Inconclusive
    ensures forall v :: OutcomeUnder(failOn)(v) != Timeout
    ensures forall v :: Reached(v) ==> SummaryRow(failOn)(v).outcome == OutcomeUnder(failOn)(v)
  {
  }

  /** The fleet verdict is the worst verdict of any visit (pass < fail < inconclusive). */
  lemma {:induction false} FleetIsWorstVisit(visits: seq<Visit>, failOn: int, r: Report)
    requires IsReport(visits, failOn, r)
    ensures forall v :: v in visits ==> Severity(VisitOutcome(v, failOn)) <= Severity(r.outcome)
    ensures r.outcome == Pass || exists v :: v in visits && VisitOutcome(v, failOn) == r.outcome
    ensures r.outcome != Timeout
  {
    var reached, f := Filter(Reached, visits), OutcomeUnder(failOn);
    OutcomesOfVisits(failOn);
    FilterElements(Reached, visits);
    forall i | 0 <= i < |reached| ensures SummaryRow(failOn)(reached[i]).outcome == f(reached[i]) {
      assert reached[i] in reached;
    }
    RowOutcomes(reached, SummaryRow(failOn), f, r.clusters);
    SameElements(r.unreachable, Map(UnreachableRow, Filter(NotReached, visits)));
    WorstOfRows(r.clusters, r.unreachable);
    WorstOfVisits(visits, f, Map(RowOutcome, r.clusters));
  }

  /** A fleet passes exactly when every target was reached and its own gate passed. */
  lemma {:induction false} FleetPassesIffAllPass(visits: seq<Visit>, failOn: int, r: Report)
    requires IsReport(visits, failOn, r)
    ensures r.outcome == Pass <==> forall v :: v in visits ==> Reached(v) && VisitOutcome(v, failOn) == Pass
  {
    FleetIsWorstVisit(visits, failOn, r);
  }

  /** Adding targets never improves the verdict. */
  lemma {:induction false} MoreTargetsNeverImprove(visits: seq<Visit>, more: seq<Visit>, failOn: int, r: Report, r': Report)
    requires forall v :: v in visits ==> v in more
    requires IsReport(visits, failOn, r) && IsReport(more, failOn, r')
    ensures Severity(r.outcome) <= Severity(r'.outcome)
  {
    FleetIsWorstVisit(visits, failOn, r);
    FleetIsWorstVisit(more, failOn, r');
  }

  // ---- order

  ghost predicate DistinctRows(visits: seq<Visit>) {
    forall i, j :: 0 <= i < j < |visits| ==> RowId(visits[i].target) != RowId(visits[j].target)
  }

  lemma {:induction false} FilterDistinctRows(p: Visit -> bool, visits: seq<Visit>)
    requires DistinctRows(visits)
    ensures DistinctRows(Filter(p, visits))
  {
    if visits != [] {
      var n := |visits| - 1;
      FilterDistinctRows(p, visits[..n]);
      FilterElements(p, visits[..n]);
      var before := Filter(p, visits[..n]);
      forall i | 0 <= i < |before| ensures RowId(before[i].target) != RowId(visits[n].target) {
        assert before[i] in visits[..n];
      }
    }
  }

  /** Rows that carry their visit's identity are told apart by it. */
  lemma {:induction false} RowsToldApart<R>(vs: seq<Visit>, row: Visit -> R, id: R -> string, rows: seq<R>)
    requires DistinctRows(vs) && multiset(rows) == multiset(Map(row, vs))
    requires forall i :: 0 <= i < |vs| ==> id(row(vs[i])) == RowId(vs[i].target)
    ensures forall i, j :: 0 <= i < |rows| && 0 <= j < |rows| && id(rows[i]) == id(rows[j]) ==> rows[i] == rows[j]
  {
    forall i, j | 0 <= i < |rows| && 0 <= j < |rows| && id(rows[i]) == id(rows[j]) ensures rows[i] == rows[j] {
      var a := VisitBehind(vs, row, rows, i);
      var b := VisitBehind(vs, row, rows, j);
      assert RowId(vs[a].target) == RowId(vs[b].target);
      assert a == b;
    }
  }

  lemma {:induction false} VisitBehind<R>(vs: seq<Visit>, row: Visit -> R, rows: seq<R>, i: nat) returns (a: nat)
    requires multiset(rows) == multiset(Map(row, vs)) && i < |rows|
    ensures a < |vs| && rows[i] == row(vs[a])
  {
    a := FindIn(rows, Map(row, vs), rows[i]);
  }

  function SummaryId(s: ClusterSummary): (id: string) { Identity(s.name, s.context) }

  function UnreachableId(u: Unreachable): (id: string) { Identity(u.name, u.context) }

  lemma {:induction false} SummaryCarriesId(v: Visit, failOn: int)
    requires Reached(v)
    ensures SummaryId(SummaryRow(failOn)(v)) == RowId(v.target)
  {
  }

  lemma {:induction false} ClustersIdentified(visits: seq<Visit>, failOn: int, clusters: seq<ClusterSummary>)
    requires DistinctRows(visits) && IsSortOf(SummaryOrder, Map(SummaryRow(failOn), Filter(Reached, visits)), clusters)
    ensures KeyIdentifies(SummaryOrder, clusters)
  {
    var reached := Filter(Reached, visits);
    FilterDistinctRows(Reached, visits);
    FilterElements(Reached, visits);
    forall i | 0 <= i < |reached| ensures SummaryId(SummaryRow(failOn)(reached[i])) == RowId(reached[i].target) {
      assert reached[i] in reached;
      SummaryCarriesId(reached[i], failOn);
    }
    RowsToldApart(reached, SummaryRow(failOn), SummaryId, clusters);
    forall i, j | 0 <= i < |clusters| && 0 <= j < |clusters| && SummaryOrder(clusters[i]) == SummaryOrder(clusters[j])
      ensures clusters[i] == clusters[j]
    {
      assert SummaryOrder(clusters[i])[4] == SummaryOrder(clusters[j])[4];
      assert SummaryId(clusters[i]) == SummaryId(clusters[j]);
    }
  }

  lemma {:induction false} UnreachableIdentified(visits: seq<Visit>, rows: seq<Unreachable>)
    requires DistinctRows(visits) && IsSortOf(UnreachableOrder, Map(UnreachableRow, Filter(NotReached, visits)), rows)
    ensures KeyIdentifies(UnreachableOrder, rows)
  {
    var not := Filter(NotReached, visits);
    FilterDistinctRows(NotReached, visits);
    RowsToldApart(not, UnreachableRow, UnreachableId, rows);
    forall i, j | 0 <= i < |rows| && 0 <= j < |rows| && UnreachableOrder(rows[i]) == UnreachableOrder(rows[j])
      ensures rows[i] == rows[j]
    {
      assert UnreachableOrder(rows[i])[0] == UnreachableOrder(rows[j])[0];
      assert UnreachableId(rows[i]) == UnreachableId(rows[j]);
    }
  }

  /** The whole report is the same whatever order the targets were given in. */
  lemma {:induction false} SweepOrderFree(visits: seq<Visit>, other: seq<Visit>, failOn: int, r: Report, r': Report)
    requires multiset(visits) == multiset(other) && DistinctRows(visits)
    requires IsReport(visits, failOn, r) && IsReport(other, failOn, r')
    ensures r == r'
  {
    FilterPermutation(Reached, visits, other);
    FilterPermutation(NotReached, visits, other);
    MapPermutation(SummaryRow(failOn), Filter(Reached, visits), Filter(Reached, other));
    MapPermutation(UnreachableRow, Filter(NotReached, visits), Filter(NotReached, other));
    MapPermutation(EvidenceRow, Filter(Reached, visits), Filter(Reached, other));
    ClustersIdentified(visits, failOn, r.clusters);
    UnreachableIdentified(visits, r.unreachable);
    SortUnique(SummaryOrder, r.clusters, r'.clusters);
    SortUnique(UnreachableOrder, r.unreachable, r'.unreachable);
    CorrelationOrderFree(Map(EvidenceRow, Filter(Reached, visits)), r.shared,
                         Map(EvidenceRow, Filter(Reached, other)), r'.shared);
  }

  // ---- what the rows say

  function AtLevel(level: int): (f: Finding -> bool) { (x: Finding) => x.level == level }

  function OfIssue(k: string): (f: Finding -> bool) { (x: Finding) => x.issue == k }

  lemma {:induction false} LevelsAddUp(fs: seq<Finding>)
    ensures Sum(IsCritical, fs) == |Filter(AtLevel(CRITICAL), fs)| && Sum(IsWarning, fs) == |Filter(AtLevel(WARNING), fs)|
    ensures Sum(IsCritical, fs) + Sum(IsWarning, fs) + Sum(IsOther, fs) == |fs|
  {
    if fs != [] {
      LevelsAddUp(fs[..|fs| - 1]);
    }
  }

  lemma {:induction false} IssueSumCounts(fs: seq<Finding>, k: string)
    ensures Sum(IssueIs(k), fs) == |Filter(OfIssue(k), fs)|
  {
    if fs != [] {
      IssueSumCounts(fs[..|fs| - 1], k);
    }
  }

  /** A row counts every finding of its cluster once, under its level, and every failed read. */
  lemma {:induction false} SummaryCounts(t: Target, flat: seq<Finding>, unread: seq<ReadFailure>, failOn: int)
    ensures var s := SummaryOf(t, flat, unread, failOn);
      && s.critical == |Filter(AtLevel(CRITICAL), flat)| && s.warning == |Filter(AtLevel(WARNING), flat)|
      && s.critical + s.warning + s.info == |flat| && s.blindspots == |unread|
  {
    LevelsAddUp(flat);
  }

  /** A row is known by the name its target was given, or by the context without one. */
  lemma {:induction false} RowIdentity(t: Target)
    ensures RowId(t) == if t.name != "" then t.name else t.context
    ensures Resolve(t).1 == if t.context != "" then t.context else t.name
    ensures Resolve(t).0 == "" || Resolve(t).0 != Resolve(t).1
  {
  }

  /** More frequent, or as frequent and earlier by name. */
  predicate Outranks(fs: seq<Finding>, a: string, b: string) {
    |Filter(OfIssue(a), fs)| > |Filter(OfIssue(b), fs)| || (|Filter(OfIssue(a), fs)| == |Filter(OfIssue(b), fs)| && TextLe(a, b))
  }

  lemma {:induction false} OrderOutranks(fs: seq<Finding>, a: string, b: string)
    requires KeyLe(KindOrder(fs)(a), KindOrder(fs)(b))
    ensures Outranks(fs, a, b)
  {
    IssueSumCounts(fs, a);
    IssueSumCounts(fs, b);
    var x, y := KindOrder(fs)(a), KindOrder(fs)(b);
    TextLeTotal(a, a);
    assert x[1..][0] == Text(a) && y[1..][0] == Text(b);
  }

  /** The top issues: at most three of the kinds that occur, each once, and none left out outranks one of them. */
  lemma {:induction false} TopIssuesAreTop(fs: seq<Finding>)
    ensures var top := TopIssues(fs);
      && |top| == (if |Kinds(fs)| > MAX_TOP_ISSUES then MAX_TOP_ISSUES else |Kinds(fs)|) && NoDup(top)
      && (forall k :: k in top ==> k in Kinds(fs))
      && (forall i, j :: 0 <= i < j < |top| ==> Outranks(fs, top[i], top[j]))
      && (forall i, k :: 0 <= i < |top| && k in Kinds(fs) && k !in top ==> Outranks(fs, top[i], k))
  {
    var full, top := SortBy(KindOrder(fs), Kinds(fs)), TopIssues(fs);
    SortBySorts(KindOrder(fs), Kinds(fs));
    KindsAreDistinct(fs);
    SameElements(full, Kinds(fs));
    NoDupPermutation(Kinds(fs), full);
    forall i, j | 0 <= i < j < |full| ensures Outranks(fs, full[i], full[j]) {
      OrderOutranks(fs, full[i], full[j]);
    }
    forall i, k | 0 <= i < |top| && k in Kinds(fs) && k !in top ensures Outranks(fs, top[i], k) {
      assert forall j :: 0 <= j < |top| ==> full[j] == top[j];
      var j :| 0 <= j < |full| && full[j] == k;
    }
  }

  /** Worse outcomes first, then more critical findings, more warnings, more infos, then by identity. */
  predicate WorseThan(a: ClusterSummary, b: ClusterSummary) {
    if a.outcome != b.outcome then Severity(a.outcome) > Severity(b.outcome)
    else if a.critical != b.critical then a.critical > b.critical
    else if a.warning != b.warning then a.warning > b.warning
    else a.info > b.info || (a.info == b.info && TextLe(Identity(a.name, a.context), Identity(b.name, b.context)))
  }

  /** The report lists the worst clusters first. */
  lemma {:induction false} WorstFirst(visits: seq<Visit>, failOn: int, r: Report)
    requires IsReport(visits, failOn, r)
    ensures forall i, j :: 0 <= i < j < |r.clusters| ==> WorseThan(r.clusters[i], r.clusters[j])
  {
    FilterElements(Reached, visits);
    forall i, j | 0 <= i < j < |r.clusters| ensures WorseThan(r.clusters[i], r.clusters[j]) {
      NoTimeouts(visits, failOn, r, i);
      NoTimeouts(visits, failOn, r, j);
      RankedBefore(r.clusters[i], r.clusters[j]);
    }
  }

  function CountColumns(s: ClusterSummary): (k: Key) { [Num(-s.warning)] + [Num(-s.info), Text(Identity(s.name, s.context))] }

  lemma {:induction false} RankedBefore(a: ClusterSummary, b: ClusterSummary)
    requires KeyLe(SummaryOrder(a), SummaryOrder(b)) && a.outcome != Timeout && b.outcome != Timeout
    ensures WorseThan(a, b)
  {
    assert SummaryOrder(a) == [Num(Rank(a.outcome))] + ([Num(-a.critical)] + CountColumns(a));
    assert SummaryOrder(b) == [Num(Rank(b.outcome))] + ([Num(-b.critical)] + CountColumns(b));
    LeadingColumn(Num(Rank(a.outcome)), [Num(-a.critical)] + CountColumns(a), Num(Rank(b.outcome)), [Num(-b.critical)] + CountColumns(b));
    LeadingColumn(Num(-a.critical), CountColumns(a), Num(-b.critical), CountColumns(b));
    var x, y := Identity(a.name, a.context), Identity(b.name, b.context);
    LeadingColumn(Num(-a.warning), [Num(-a.info), Text(x)], Num(-b.warning), [Num(-b.info), Text(y)]);
    NumThenText(-a.info, x, -b.info, y);
  }

  lemma {:induction false} NoTimeouts(visits: seq<Visit>, failOn: int, r: Report, i: nat)
    requires IsReport(visits, failOn, r) && i < |r.clusters|
    ensures r.clusters[i].outcome != Timeout
  {
    var reached, f := Filter(Reached, visits), OutcomeUnder(failOn);
    OutcomesOfVisits(failOn);
    FilterElements(Reached, visits);
    forall k | 0 <= k < |reached| ensures SummaryRow(failOn)(reached[k]).outcome == f(reached[k]) {
      assert reached[k] in reached;
    }
    RowOutcomes(reached, SummaryRow(failOn), f, r.clusters);
    var os := Map(RowOutcome, r.clusters);
    SameElements(os, Map(f, reached));
    MapHolds(f, reached, Timeout);
    assert os[i] in os;
  }
}
