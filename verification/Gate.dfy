/**
 internal/findings and internal/gate: a scan projected into one list of findings,
 and the CI verdict over it.
 */
module Gate {
  import opened Basics
  import opened Sorting
  import opened Inventory

  const WARNING: int := 1
  const CRITICAL: int := 2

  datatype Finding = Finding(level: int, kind: string, namespace: string, name: string,
                             issue: string, reason: string, owner: string)

  // ---- flattening a scan

  /** An issue row of one of the other scan classes (services, ingresses, claims, budgets, ...). */
  datatype ClassRow = ClassRow(kind: string, namespace: string, name: string, issue: string, reason: string, expected: bool)

  /** The name half of a "namespace/name" reference; a reference with no slash is a bare name. */
  function SplitName(s: string): (r: (string, string)) {
    if s == "" then ("", "")
    else if s[0] == '/' then ("", s[1..])
    else if '/' !in s then ("", s)
    else
      var (ns, name) := SplitName(s[1..]);
      ([s[0]] + ns, name)
  }

  function FromDiagnose(f: PodFinding, owner: string): (r: Finding) {
    var (ns, name) := SplitName(f.pod);
    var reason := if f.evidence != "" then TrimSpace(f.reason + " (" + f.evidence + ")") else f.reason;
    Finding(CRITICAL, "Pod", ns, name, f.issue, reason, owner)
  }

  function OwnerText(w: Workload): (s: string) { w.kind + "/" + w.name }

  function FromWorkload(w: Workload): (r: Finding) {
    Finding(WARNING, w.kind, w.namespace, w.name, w.status, Decimal(w.ready) + "/" + Decimal(w.desired) + " ready", OwnerText(w))
  }

  function FromDiagnoses(fs: seq<PodFinding>, owner: string): (r: seq<Finding>)
    ensures |r| == |fs|
    ensures forall i :: 0 <= i < |fs| ==> r[i] == FromDiagnose(fs[i], owner)
  {
    seq(|fs|, i requires 0 <= i < |fs| => FromDiagnose(fs[i], owner))
  }

  /** One workload's findings: its detector matches, else itself when it needs attention. */
  function OfWorkload(w: Workload): (r: seq<Finding>) {
    if w.findings != [] then FromDiagnoses(w.findings, OwnerText(w))
    else if Flagged(w) then [FromWorkload(w)]
    else []
  }

  function OfWorkloads(ws: seq<Workload>): (r: seq<Finding>) {
    if ws == [] then [] else OfWorkloads(ws[..|ws| - 1]) + OfWorkload(ws[|ws| - 1])
  }

  function OfRow(c: ClassRow): (r: Finding) { Finding(WARNING, c.kind, c.namespace, c.name, c.issue, c.reason, "") }

  function OfRows(rows: seq<ClassRow>): (r: seq<Finding>) {
    if rows == [] then []
    else OfRows(rows[..|rows| - 1]) + (if rows[|rows| - 1].expected then [] else [OfRow(rows[|rows| - 1])])
  }

  /** Highest severity first, then by object and issue; reason and owner are not compared. */
  function FindingOrder(f: Finding): (k: Key) {
    [Num(-f.level), Text(f.namespace), Text(f.kind), Text(f.name), Text(f.issue)]
  }

  method FlattenWorkloads(ws: seq<Workload>) returns (all: seq<Finding>)
    ensures all == OfWorkloads(ws)
  {
    all := [];
    for i := 0 to |ws|
      invariant all == OfWorkloads(ws[..i])
    {
      assert ws[..i + 1][..i] == ws[..i];
      if |ws[i].findings| == 0 {
        if Flagged(ws[i]) { all := all + [FromWorkload(ws[i])]; }
        continue;
      }
      all := all + FromDiagnoses(ws[i].findings, OwnerText(ws[i]));
    }
    assert ws[..|ws|] == ws;
  }

  method FlattenRows(rows: seq<ClassRow>) returns (all: seq<Finding>)
    ensures all == OfRows(rows)
  {
    all := [];
    for i := 0 to |rows|
      invariant all == OfRows(rows[..i])
    {
      assert rows[..i + 1][..i] == rows[..i];
      if rows[i].expected { continue; }
      all := all + [OfRow(rows[i])];
    }
    assert rows[..|rows|] == rows;
  }

  /** Flatten: the workloads' findings, then the unexpected rows of the other classes, sorted. */
  method Flatten(ws: seq<Workload>, rows: seq<ClassRow>) returns (out: seq<Finding>)
    ensures IsStableSortOf(FindingOrder, OfWorkloads(ws) + OfRows(rows), out)
  {
    var fromWorkloads := FlattenWorkloads(ws);
    var fromRows := FlattenRows(rows);
    out := SortStable(FindingOrder, fromWorkloads + fromRows);
  }

  /** A quiet cluster is one where nothing needs attention: no flagged workload, no unexpected row. */
  lemma {:induction false} NoWorkloadFindings(ws: seq<Workload>)
    ensures OfWorkloads(ws) == [] <==> forall i :: 0 <= i < |ws| ==> !Flagged(ws[i])
  {
    if ws != [] {
      NoWorkloadFindings(ws[..|ws| - 1]);
    }
  }

  lemma {:induction false} NoRowFindings(rows: seq<ClassRow>)
    ensures OfRows(rows) == [] <==> forall i :: 0 <= i < |rows| ==> rows[i].expected
  {
    if rows != [] {
      var n := |rows| - 1;
      var init := rows[..n];
      NoRowFindings(init);
      assert OfRows(rows) == [] <==> OfRows(init) == [] && rows[n].expected;
      assert forall i :: 0 <= i < n ==> rows[i] == init[i];
    }
  }

  // ---- policy and baseline findings

  datatype PolicyResult = PolicyResult(level: int, kind: string, namespace: string, name: string, ruleID: string, reason: string)

  function FromViolation(v: PolicyResult): (r: Finding) {
    Finding(v.level, v.kind, v.namespace, v.name, "policy/" + v.ruleID, v.reason, "")
  }

  /** A rule that never ran: no object was examined, so the finding names none. */
  function FromUnevaluated(u: PolicyResult): (r: Finding) {
    Finding(u.level, u.kind, "", "", "policy/" + u.ruleID, u.reason, "")
  }

  function Violations(vs: seq<PolicyResult>): (r: seq<Finding>)
    ensures |r| == |vs| && forall i :: 0 <= i < |vs| ==> r[i] == FromViolation(vs[i])
  {
    seq(|vs|, i requires 0 <= i < |vs| => FromViolation(vs[i]))
  }

  function Unevaluated(us: seq<PolicyResult>): (r: seq<Finding>)
    ensures |r| == |us| && forall i :: 0 <= i < |us| ==> r[i] == FromUnevaluated(us[i])
  {
    seq(|us|, i requires 0 <= i < |us| => FromUnevaluated(us[i]))
  }

  predicate IsUnevaluatedRule(f: Finding) { "policy/" <= f.issue && f.name == "" }

  // ---- the verdict

  datatype ReadFailure = ReadFailure(resource: string, reason: string)

  datatype Blindspot = Blindspot(resource: string, reason: string, waived: bool)

  datatype Options = Options(failOn: int, scopeKind: string, scopeName: string, scopeNamespace: string,
                             allowPartialRead: seq<string>, timedOut: bool,
                             violations: seq<PolicyResult>, notEvaluated: seq<PolicyResult>, deviations: seq<Finding>)

  datatype Outcome = Pass | Fail | Inconclusive | Timeout

  datatype Verdict = Verdict(outcome: Outcome, code: int, failing: seq<Finding>, reported: seq<Finding>,
                             inconclusive: seq<Blindspot>)

  function CodeOf(o: Outcome): (c: int) {
    match o case Pass => 0 case Fail => 1 case Inconclusive => 2 case Timeout => 3
  }

  predicate InScope(o: Options, f: Finding) {
    || o.scopeKind == ""
    || IsUnevaluatedRule(f)
    || (f.namespace == o.scopeNamespace
        && ((f.kind == o.scopeKind && f.name == o.scopeName) || f.owner == o.scopeKind + "/" + o.scopeName))
  }

  predicate Fails(o: Options, f: Finding) { InScope(o, f) && f.level >= o.failOn }

  function FailsUnder(o: Options): Finding -> bool { f => Fails(o, f) }

  function PassesUnder(o: Options): Finding -> bool { f => !Fails(o, f) }

  /** Everything a gate run judges. */
  function AllFindings(flat: seq<Finding>, o: Options): (r: seq<Finding>) {
    flat + Violations(o.violations) + Unevaluated(o.notEvaluated) + o.deviations
  }

  function Blindspots(unread: seq<ReadFailure>, allowed: seq<string>): (r: seq<Blindspot>)
    ensures |r| == |unread|
    ensures forall i :: 0 <= i < |unread| ==> r[i] == Blindspot(unread[i].resource, unread[i].reason, unread[i].resource in allowed)
  {
    seq(|unread|, i requires 0 <= i < |unread| => Blindspot(unread[i].resource, unread[i].reason, unread[i].resource in allowed))
  }

  /** A read failed and nobody waived it. */
  predicate Blind(unread: seq<ReadFailure>, allowed: seq<string>) {
    exists i :: 0 <= i < |unread| && unread[i].resource !in allowed
  }

  predicate HasUnevaluated(fs: seq<Finding>) {
    exists i :: 0 <= i < |fs| && IsUnevaluatedRule(fs[i])
  }

  /** The precedence timeout, unevaluated rule, blind, fail, pass. */
  function OutcomeOf(timedOut: bool, ruleNeverRan: bool, blind: bool, failing: bool): (r: Outcome) {
    if timedOut then Timeout
    else if ruleNeverRan then Fail
    else if blind then Inconclusive
    else if failing then Fail
    else Pass
  }

  /** What a verdict over a list of findings says. */
  ghost predicate IsVerdict(all: seq<Finding>, unread: seq<ReadFailure>, o: Options, v: Verdict) {
    && IsStableSortOf(FindingOrder, Filter(FailsUnder(o), all), v.failing)
    && IsStableSortOf(FindingOrder, Filter(PassesUnder(o), all), v.reported)
    && v.inconclusive == Blindspots(unread, o.allowPartialRead)
    && v.outcome == OutcomeOf(o.timedOut, HasUnevaluated(v.failing), Blind(unread, o.allowPartialRead), v.failing != [])
    && v.code == CodeOf(v.outcome)
  }

  /** gate.Decide over a flattened scan. */
  method Decide(flat: seq<Finding>, unread: seq<ReadFailure>, o: Options) returns (v: Verdict)
    ensures IsVerdict(AllFindings(flat, o), unread, o, v)
  {
    var blind := false;
    var spots: seq<Blindspot> := [];
    for i := 0 to |unread|
      invariant spots == Blindspots(unread[..i], o.allowPartialRead) && blind == Blind(unread[..i], o.allowPartialRead)
    {
      var b := Blindspot(unread[i].resource, unread[i].reason, unread[i].resource in o.allowPartialRead);
      BlindStep(unread, o.allowPartialRead, i);
      if !b.waived { blind := true; }
      spots := spots + [b];
    }
    assert unread[..|unread|] == unread;

    var raw := AllFindings(flat, o);
    var all := SortStable(FindingOrder, raw);
    var failing: seq<Finding>, reported: seq<Finding> := [], [];
    for i := 0 to |all|
      invariant failing == Filter(FailsUnder(o), all[..i]) && reported == Filter(PassesUnder(o), all[..i])
    {
      FilterStep(FailsUnder(o), all, i);
      FilterStep(PassesUnder(o), all, i);
      if InScope(o, all[i]) && all[i].level >= o.failOn {
        failing := failing + [all[i]];
        continue;
      }
      reported := reported + [all[i]];
    }
    assert all[..|all|] == all;
    FilterStable(FindingOrder, FailsUnder(o), raw, all);
    FilterStable(FindingOrder, PassesUnder(o), raw, all);
    ghost var (fs, rs) := (failing, reported);
    failing := SortStable(FindingOrder, failing);
    reported := SortStable(FindingOrder, reported);
    StableTwice(FindingOrder, Filter(FailsUnder(o), raw), fs, failing);
    StableTwice(FindingOrder, Filter(PassesUnder(o), raw), rs, reported);
    var outcome := OutcomeOf(o.timedOut, HasUnevaluated(failing), blind, |failing| > 0);
    v := Verdict(outcome, CodeOf(outcome), failing, reported, spots);
  }

  lemma {:induction false} BlindStep(unread: seq<ReadFailure>, allowed: seq<string>, i: nat)
    requires i < |unread|
    ensures Blind(unread[..i + 1], allowed) <==> Blind(unread[..i], allowed) || unread[i].resource !in allowed
  {
    assert unread[..i + 1][i] == unread[i];
    if Blind(unread[..i], allowed) {
      var j :| 0 <= j < i && unread[..i][j].resource !in allowed;
      assert unread[..i + 1][j].resource !in allowed;
    }
    if Blind(unread[..i + 1], allowed) && unread[i].resource in allowed {
      var j :| 0 <= j < i + 1 && unread[..i + 1][j].resource !in allowed;
      assert unread[..i][j].resource !in allowed;
    }
  }

  // ---- laws

  /** Failing and reported partition the findings. */
  lemma {:induction false} VerdictPartitions(all: seq<Finding>, unread: seq<ReadFailure>, o: Options, v: Verdict)
    requires IsVerdict(all, unread, o, v)
    ensures multiset(v.failing) + multiset(v.reported) == multiset(all)
    ensures forall f :: f in v.failing <==> f in all && Fails(o, f)
    ensures forall f :: f in v.reported <==> f in all && !Fails(o, f)
  {
    FilterPartition(FailsUnder(o), PassesUnder(o), all);
    FilterElements(FailsUnder(o), all);
    FilterElements(PassesUnder(o), all);
    SameElements(v.failing, Filter(FailsUnder(o), all));
    SameElements(v.reported, Filter(PassesUnder(o), all));
  }

  lemma {:induction false} UnevaluatedInMultiset(xs: seq<Finding>, ys: seq<Finding>)
    requires multiset(xs) == multiset(ys)
    ensures HasUnevaluated(xs) == HasUnevaluated(ys)
  {
    SameElements(xs, ys);
    if HasUnevaluated(xs) { var i :| 0 <= i < |xs| && IsUnevaluatedRule(xs[i]); assert xs[i] in ys; }
    if HasUnevaluated(ys) { var i :| 0 <= i < |ys| && IsUnevaluatedRule(ys[i]); assert ys[i] in xs; }
  }

  /** Waiving more reads never changes what fails, and moves the outcome only away from inconclusive. */
  lemma {:induction false} WaivingOnlyResolvesBlindness(all: seq<Finding>, unread: seq<ReadFailure>, o: Options, more: seq<string>, v: Verdict, v': Verdict)
    requires forall r :: r in o.allowPartialRead ==> r in more
    requires IsVerdict(all, unread, o, v) && IsVerdict(all, unread, o.(allowPartialRead := more), v')
    ensures v'.failing == v.failing && v'.reported == v.reported
    ensures v'.outcome == v.outcome || v.outcome == Inconclusive
    ensures v'.outcome == Inconclusive ==> v.outcome == Inconclusive
  {
    var o' := o.(allowPartialRead := more);
    FilterSame(FailsUnder(o), FailsUnder(o'), all);
    FilterSame(PassesUnder(o), PassesUnder(o'), all);
    StableSortUnique(FindingOrder, Filter(FailsUnder(o), all), v.failing, v'.failing);
    StableSortUnique(FindingOrder, Filter(PassesUnder(o), all), v.reported, v'.reported);
    if Blind(unread, more) {
      var i :| 0 <= i < |unread| && unread[i].resource !in more;
      assert unread[i].resource !in o.allowPartialRead;
    }
  }

  /** Raising --fail-on keeps of what fails exactly what still reaches the level, in order, and never spoils a pass. */
  lemma {:induction false} RaisingFailOnShrinks(all: seq<Finding>, unread: seq<ReadFailure>, o: Options, higher: int, v: Verdict, v': Verdict)
    requires o.failOn <= higher
    requires IsVerdict(all, unread, o, v) && IsVerdict(all, unread, o.(failOn := higher), v')
    ensures v'.failing == Filter(FailsUnder(o.(failOn := higher)), v.failing)
    ensures v.outcome == Pass ==> v'.outcome == Pass
  {
    var p, q := FailsUnder(o), FailsUnder(o.(failOn := higher));
    FilterStable(FindingOrder, q, Filter(p, all), v.failing);
    FilterNarrower(q, p, all);
    StableSortUnique(FindingOrder, Filter(q, all), v'.failing, Filter(q, v.failing));
  }

  lemma {:induction false} FilterNarrower(q: Finding -> bool, p: Finding -> bool, xs: seq<Finding>)
    requires forall f :: q(f) ==> p(f)
    ensures Filter(q, Filter(p, xs)) == Filter(q, xs)
  {
    if xs != [] {
      var n := |xs| - 1;
      FilterNarrower(q, p, xs[..n]);
      FilterAppend(q, Filter(p, xs[..n]), xs[n]);
    }
  }

  /** A gate passes exactly when it settled, saw everything it was not excused from, and found nothing in scope at the level. */
  lemma {:induction false} PassIffClean(all: seq<Finding>, unread: seq<ReadFailure>, o: Options, v: Verdict)
    requires IsVerdict(all, unread, o, v)
    ensures v.outcome == Pass <==>
      && !o.timedOut
      && (forall i :: 0 <= i < |unread| ==> unread[i].resource in o.allowPartialRead)
      && (forall f :: f in all ==> !Fails(o, f))
  {
    VerdictPartitions(all, unread, o, v);
    if v.failing != [] {
      assert v.failing[0] in all && Fails(o, v.failing[0]);
    }
  }

  /** A rule that never ran, at or above the level, fails every settled gate whatever is waived or scoped. */
  lemma {:induction false} UnevaluatedRuleFails(flat: seq<Finding>, unread: seq<ReadFailure>, o: Options, v: Verdict, u: PolicyResult)
    requires IsVerdict(AllFindings(flat, o), unread, o, v)
    requires u in o.notEvaluated && u.level >= o.failOn && !o.timedOut
    ensures v.outcome == Fail
  {
    var f := FromUnevaluated(u);
    var i :| 0 <= i < |o.notEvaluated| && o.notEvaluated[i] == u;
    assert Unevaluated(o.notEvaluated)[i] == f;
    assert f in AllFindings(flat, o);
    assert IsUnevaluatedRule(f) && Fails(o, f);
    VerdictPartitions(AllFindings(flat, o), unread, o, v);
    var j :| 0 <= j < |v.failing| && v.failing[j] == f;
    assert HasUnevaluated(v.failing);
  }

  lemma {:induction false} WorkloadLevels(ws: seq<Workload>)
    ensures forall i :: 0 <= i < |OfWorkloads(ws)| ==> OfWorkloads(ws)[i].level >= WARNING
  {
    if ws != [] {
      WorkloadLevels(ws[..|ws| - 1]);
    }
  }

  lemma {:induction false} RowLevels(rows: seq<ClassRow>)
    ensures forall i :: 0 <= i < |OfRows(rows)| ==> OfRows(rows)[i].level >= WARNING
  {
    if rows != [] {
      RowLevels(rows[..|rows| - 1]);
    }
  }

  /** The flattened scan is empty exactly when nothing needs attention. */
  lemma {:induction false} FlatIsQuiet(ws: seq<Workload>, rows: seq<ClassRow>, flat: seq<Finding>)
    requires multiset(OfWorkloads(ws) + OfRows(rows)) == multiset(flat)
    ensures flat == [] <==>
      (forall i :: 0 <= i < |ws| ==> !Flagged(ws[i])) && (forall i :: 0 <= i < |rows| ==> rows[i].expected)
  {
    NoWorkloadFindings(ws);
    NoRowFindings(rows);
    SameElements(OfWorkloads(ws) + OfRows(rows), flat);
  }

  lemma {:induction false} FlatLevels(ws: seq<Workload>, rows: seq<ClassRow>, flat: seq<Finding>)
    requires multiset(OfWorkloads(ws) + OfRows(rows)) == multiset(flat)
    ensures forall f :: f in flat ==> f.level >= WARNING
  {
    WorkloadLevels(ws);
    RowLevels(rows);
    SameElements(OfWorkloads(ws) + OfRows(rows), flat);
  }

  /** The options of a cluster-wide gate at warning with no policy, baseline, waiver or wait. */
  const WHOLE_CLUSTER := Options(WARNING, "", "", "", [], false, [], [], [])

  lemma {:induction false} PassIffEmpty(flat: seq<Finding>, unread: seq<ReadFailure>, v: Verdict)
    requires IsVerdict(flat, unread, WHOLE_CLUSTER, v) && forall f :: f in flat ==> f.level >= WARNING
    ensures v.outcome == Pass <==> flat == [] && unread == []
  {
    PassIffClean(flat, unread, WHOLE_CLUSTER, v);
    assert |unread| > 0 ==> unread[0].resource !in WHOLE_CLUSTER.allowPartialRead;
    assert |flat| > 0 ==> flat[0] in flat && Fails(WHOLE_CLUSTER, flat[0]);
  }

  /**
   End to end: a cluster-wide gate at warning passes exactly when no workload is
   flagged, no other row is unexpected and every read succeeded.
   */
  lemma {:induction false} CleanClusterIffPass(ws: seq<Workload>, rows: seq<ClassRow>, flat: seq<Finding>,
                                               unread: seq<ReadFailure>, v: Verdict)
    requires IsStableSortOf(FindingOrder, OfWorkloads(ws) + OfRows(rows), flat)
    requires IsVerdict(flat, unread, WHOLE_CLUSTER, v)
    ensures v.outcome == Pass <==>
      && (forall i :: 0 <= i < |ws| ==> !Flagged(ws[i]))
      && (forall i :: 0 <= i < |rows| ==> rows[i].expected)
      && unread == []
  {
    FlatIsQuiet(ws, rows, flat);
    FlatLevels(ws, rows, flat);
    PassIffEmpty(flat, unread, v);
  }

  /** A shown workload is one of the list, tagged. */
  lemma {:induction false} ShownFrom(ws: seq<Workload>, opts: Opts, x: Workload) returns (i: nat)
    requires x in ShownOf(ws, opts)
    ensures i < |ws| && x == ws[i].(priority := x.priority)
  {
    var n := |ws| - 1;
    if x in ShownOf(ws[..n], opts) {
      i := ShownFrom(ws[..n], opts, x);
    } else {
      i := n;
    }
  }

  /** Prioritizing neither hides nor invents a flagged workload. */
  lemma {:induction false} FlaggedSurvive(ws: seq<Workload>, opts: Opts, shown: seq<Workload>)
    requires IsSortOf(PriorityOrder, ShownOf(ws, opts), shown)
    ensures (forall i :: 0 <= i < |shown| ==> !Flagged(shown[i])) <==> (forall i :: 0 <= i < |ws| ==> !Flagged(ws[i]))
  {
    FatesAddUp(ws, opts);
    SameElements(shown, ShownOf(ws, opts));
    if i :| 0 <= i < |ws| && Flagged(ws[i]) {
      var x := ws[i].(priority := 2);
      assert x in shown && Flagged(x);
    }
    if i :| 0 <= i < |shown| && Flagged(shown[i]) {
      assert shown[i] in ShownOf(ws, opts);
      var j := ShownFrom(ws, opts, shown[i]);
      assert Flagged(ws[j]);
    }
  }

  /**
   From the snapshot to the exit code: under every report option, a cluster-wide
   gate at warning over the assembled and prioritized workloads passes exactly when
   no assembled workload is flagged, no other row is unexpected and every read
   succeeded.
   */
  lemma {:induction false} CleanSnapshotIffPass(inp: Inputs, findings: seq<PodFinding>, ws: seq<Workload>, opts: Opts,
                                                shown: seq<Workload>, rows: seq<ClassRow>, flat: seq<Finding>,
                                                unread: seq<ReadFailure>, v: Verdict)
    requires IsAssembly(inp, findings, ws) && IsSortOf(PriorityOrder, ShownOf(ws, opts), shown)
    requires IsStableSortOf(FindingOrder, OfWorkloads(shown) + OfRows(rows), flat) && IsVerdict(flat, unread, WHOLE_CLUSTER, v)
    ensures v.outcome == Pass <==>
      && (forall k :: WorkloadAt(inp, findings, k).Some? ==> !Flagged(WorkloadAt(inp, findings, k).value))
      && (forall i :: 0 <= i < |rows| ==> rows[i].expected)
      && unread == []
  {
    CleanClusterIffPass(shown, rows, flat, unread, v);
    FlaggedSurvive(ws, opts, shown);
    AssembledAre(inp, findings, ws);
  }

  lemma {:induction false} AssembledAre(inp: Inputs, findings: seq<PodFinding>, ws: seq<Workload>)
    requires IsAssembly(inp, findings, ws)
    ensures (forall i :: 0 <= i < |ws| ==> !Flagged(ws[i]))
       <==> (forall k :: WorkloadAt(inp, findings, k).Some? ==> !Flagged(WorkloadAt(inp, findings, k).value))
  {
    if k :| WorkloadAt(inp, findings, k).Some? && Flagged(WorkloadAt(inp, findings, k).value) {
      var w := WorkloadAt(inp, findings, k).value;
      FinishKeepsKey(inp, findings, k);
      assert w in ws;
    }
    if i :| 0 <= i < |ws| && Flagged(ws[i]) {
      assert ws[i] in ws;
      assert WorkloadAt(inp, findings, KeyOf(ws[i])) == Some(ws[i]);
    }
  }

  // ---- the exact outcome

  /** Some read failed that nobody waived. */
  ghost predicate SomethingUnseen(unread: seq<ReadFailure>, o: Options) {
    exists i :: 0 <= i < |unread| && unread[i].resource !in o.allowPartialRead
  }

  ghost predicate SomethingFails(all: seq<Finding>, o: Options) { exists f :: f in all && Fails(o, f) }

  ghost predicate SomeRuleNeverRan(all: seq<Finding>, o: Options) { exists f :: f in all && Fails(o, f) && IsUnevaluatedRule(f) }

  /** Every outcome, exactly: timeout first, a rule that never ran, a read nobody saw, a failing finding, and the exit codes. */
  lemma {:induction false} OutcomeExact(all: seq<Finding>, unread: seq<ReadFailure>, o: Options, v: Verdict)
    requires IsVerdict(all, unread, o, v)
    ensures v.outcome == Timeout <==> o.timedOut
    ensures v.outcome == Inconclusive <==> !o.timedOut && !SomeRuleNeverRan(all, o) && SomethingUnseen(unread, o)
    ensures v.outcome == Fail <==>
      !o.timedOut && (SomeRuleNeverRan(all, o) || (!SomethingUnseen(unread, o) && SomethingFails(all, o)))
    ensures (v.outcome == Pass <==> v.code == 0) && (v.outcome == Fail <==> v.code == 1)
    ensures (v.outcome == Inconclusive <==> v.code == 2) && (v.outcome == Timeout <==> v.code == 3)
  {
    VerdictPartitions(all, unread, o, v);
    if HasUnevaluated(v.failing) {
      var i :| 0 <= i < |v.failing| && IsUnevaluatedRule(v.failing[i]);
      assert v.failing[i] in v.failing;
    }
    if SomeRuleNeverRan(all, o) {
      var f :| f in all && Fails(o, f) && IsUnevaluatedRule(f);
      assert f in v.failing;
    }
    if v.failing != [] {
      assert v.failing[0] in v.failing;
    }
  }

  // ---- a gate scoped to one workload

  lemma {:induction false} SplitNameOf(namespace: string, name: string)
    requires SlashFree(namespace)
    ensures SplitName(namespace + "/" + name) == (namespace, name)
  {
    var s := namespace + "/" + name;
    if namespace == "" {
      assert s[1..] == name;
    } else {
      SplitNameOf(namespace[1..], name);
      assert s[1..] == namespace[1..] + "/" + name && s[0] == namespace[0];
      assert '/' in s by { assert s[|namespace|] == '/'; }
      assert [namespace[0]] + namespace[1..] == namespace;
    }
  }

  function ScopedTo(kind: string, namespace: string, name: string): (o: Options) {
    Options(WARNING, kind, name, namespace, [], false, [], [], [])
  }

  predicate IsNamed(w: Workload, kind: string, namespace: string, name: string) {
    w.kind == kind && w.namespace == namespace && w.name == name
  }

  /** Names are not empty, kinds hold no slash, and a workload's findings are about pods of its namespace. */
  ghost predicate WellNamed(ws: seq<Workload>, rows: seq<ClassRow>) {
    && (forall i :: 0 <= i < |ws| ==> PlainWorkload(ws[i])) && (forall i :: 0 <= i < |rows| ==> rows[i].name != "")
  }

  ghost predicate PlainWorkload(w: Workload) {
    && w.name != "" && SlashFree(w.kind) && SlashFree(w.namespace)
    && forall i :: 0 <= i < |w.findings| ==> exists pod :: pod != "" && w.findings[i].pod == NamedKey(w.namespace, pod)
  }

  /** The workload a finding comes from. */
  lemma {:induction false} WorkloadOfFinding(ws: seq<Workload>, f: Finding) returns (i: nat)
    requires f in OfWorkloads(ws)
    ensures i < |ws| && f in OfWorkload(ws[i])
  {
    var n := |ws| - 1;
    if f in OfWorkloads(ws[..n]) {
      i := WorkloadOfFinding(ws[..n], f);
    } else {
      i := n;
    }
  }

  lemma {:induction false} FindingOfWorkload(ws: seq<Workload>, i: nat, f: Finding)
    requires i < |ws| && f in OfWorkload(ws[i])
    ensures f in OfWorkloads(ws)
  {
    var n := |ws| - 1;
    if i < n {
      FindingOfWorkload(ws[..n], i, f);
    }
  }

  ghost predicate RowGives(rows: seq<ClassRow>, i: int, f: Finding) {
    0 <= i < |rows| && !rows[i].expected && f == OfRow(rows[i])
  }

  lemma {:induction false} OfRowsHolds(rows: seq<ClassRow>, f: Finding)
    ensures f in OfRows(rows) <==> exists i :: RowGives(rows, i, f)
  {
    if rows != [] {
      var n := |rows| - 1;
      var last := if rows[n].expected then [] else [OfRow(rows[n])];
      OfRowsHolds(rows[..n], f);
      assert forall i :: RowGives(rows, i, f) <==> RowGives(rows[..n], i, f) || (i == n && RowGives(rows, n, f));
      assert f in last <==> RowGives(rows, n, f);
      assert OfRows(rows) == OfRows(rows[..n]) + last;
    }
  }

  /** A workload's findings are in a scope iff it is the workload named. */
  lemma {:induction false} WorkloadInScope(w: Workload, f: Finding, kind: string, namespace: string, name: string)
    requires PlainWorkload(w) && f in OfWorkload(w) && kind != "" && kind != "Pod" && SlashFree(kind)
    ensures Fails(ScopedTo(kind, namespace, name), f) <==> IsNamed(w, kind, namespace, name)
  {
    if OwnerText(w) == kind + "/" + name {
      SplitAtSlash(w.kind, w.name, kind, name);
    }
    if w.findings != [] {
      var i :| 0 <= i < |w.findings| && f == FromDiagnose(w.findings[i], OwnerText(w));
      var pod :| pod != "" && w.findings[i].pod == NamedKey(w.namespace, pod);
      SplitNameOf(w.namespace, pod);
    }
  }

  /** A row of another class is in a scope iff it is about the very object named. */
  lemma {:induction false} RowInScope(r: ClassRow, kind: string, namespace: string, name: string)
    requires r.name != "" && kind != ""
    ensures Fails(ScopedTo(kind, namespace, name), OfRow(r)) <==> r.kind == kind && r.namespace == namespace && r.name == name
  {
    assert |kind + "/" + name| > 0;
  }

  lemma {:induction false} FlaggedHasFinding(w: Workload)
    ensures Flagged(w) <==> OfWorkload(w) != []
  {
  }

  /** The workload named is flagged. */
  ghost predicate WorkloadHit(ws: seq<Workload>, kind: string, namespace: string, name: string) {
    exists i :: 0 <= i < |ws| && IsNamed(ws[i], kind, namespace, name) && Flagged(ws[i])
  }

  /** An unexpected row is about the object named. */
  ghost predicate RowHit(rows: seq<ClassRow>, kind: string, namespace: string, name: string) {
    exists i :: 0 <= i < |rows| && rows[i].kind == kind && rows[i].namespace == namespace && rows[i].name == name && !rows[i].expected
  }

  lemma {:induction false} WorkloadsFail(ws: seq<Workload>, kind: string, namespace: string, name: string)
    requires (forall i :: 0 <= i < |ws| ==> PlainWorkload(ws[i])) && kind != "" && kind != "Pod" && SlashFree(kind)
    ensures SomethingFails(OfWorkloads(ws), ScopedTo(kind, namespace, name)) <==> WorkloadHit(ws, kind, namespace, name)
  {
    var o, all := ScopedTo(kind, namespace, name), OfWorkloads(ws);
    if SomethingFails(all, o) {
      var f :| f in all && Fails(o, f);
      var i := WorkloadOfFinding(ws, f);
      WorkloadInScope(ws[i], f, kind, namespace, name);
      FlaggedHasFinding(ws[i]);
    }
    if WorkloadHit(ws, kind, namespace, name) {
      var i :| 0 <= i < |ws| && IsNamed(ws[i], kind, namespace, name) && Flagged(ws[i]);
      FlaggedHasFinding(ws[i]);
      var f := OfWorkload(ws[i])[0];
      WorkloadInScope(ws[i], f, kind, namespace, name);
      FindingOfWorkload(ws, i, f);
    }
  }

  lemma {:induction false} RowsFail(rows: seq<ClassRow>, kind: string, namespace: string, name: string)
    requires (forall i :: 0 <= i < |rows| ==> rows[i].name != "") && kind != ""
    ensures SomethingFails(OfRows(rows), ScopedTo(kind, namespace, name)) <==> RowHit(rows, kind, namespace, name)
  {
    var o, all := ScopedTo(kind, namespace, name), OfRows(rows);
    if SomethingFails(all, o) {
      var f :| f in all && Fails(o, f);
      OfRowsHolds(rows, f);
      var i :| 0 <= i < |rows| && !rows[i].expected && f == OfRow(rows[i]);
      RowInScope(rows[i], kind, namespace, name);
    }
    if RowHit(rows, kind, namespace, name) {
      var i :| 0 <= i < |rows| && rows[i].kind == kind && rows[i].namespace == namespace && rows[i].name == name && !rows[i].expected;
      RowInScope(rows[i], kind, namespace, name);
      assert RowGives(rows, i, OfRow(rows[i]));
      OfRowsHolds(rows, OfRow(rows[i]));
    }
  }

  lemma {:induction false} FailsInEither(a: seq<Finding>, b: seq<Finding>, flat: seq<Finding>, o: Options)
    requires multiset(a + b) == multiset(flat)
    ensures SomethingFails(flat, o) <==> SomethingFails(a, o) || SomethingFails(b, o)
  {
    SameElements(a + b, flat);
    assert forall f :: f in flat <==> f in a || f in b;
  }

  /**
   A gate waiting on one workload passes exactly when that workload is not flagged,
   no other row is about it, and every read succeeded, whatever the rest of the
   cluster looks like.
   */
  lemma {:induction false} ScopedGatePassIff(ws: seq<Workload>, rows: seq<ClassRow>, flat: seq<Finding>, unread: seq<ReadFailure>,
                                             kind: string, namespace: string, name: string, v: Verdict)
    requires WellNamed(ws, rows) && kind != "" && kind != "Pod" && SlashFree(kind)
    requires IsStableSortOf(FindingOrder, OfWorkloads(ws) + OfRows(rows), flat)
    requires IsVerdict(flat, unread, ScopedTo(kind, namespace, name), v)
    ensures v.outcome == Pass <==>
      !WorkloadHit(ws, kind, namespace, name) && !RowHit(rows, kind, namespace, name) && unread == []
  {
    var o := ScopedTo(kind, namespace, name);
    OutcomeExact(flat, unread, o, v);
    assert |unread| > 0 ==> unread[0].resource !in o.allowPartialRead;
    assert SomeRuleNeverRan(flat, o) ==> SomethingFails(flat, o);
    FailsInEither(OfWorkloads(ws), OfRows(rows), flat, o);
    WorkloadsFail(ws, kind, namespace, name);
    RowsFail(rows, kind, namespace, name);
  }

  /** What a finding says: a detector match is critical and about its pod, a flagged workload without one a warning about itself. */
  lemma {:induction false} WorkloadFindingsSay(w: Workload, f: Finding)
    requires PlainWorkload(w) && f in OfWorkload(w)
    ensures f.namespace == w.namespace && f.owner == w.kind + "/" + w.name
    ensures if w.findings == [] then
        f.level == WARNING && f.kind == w.kind && f.name == w.name && f.issue == w.status
      else
        && f.level == CRITICAL && f.kind == "Pod"
        && exists i :: 0 <= i < |w.findings| && w.findings[i].pod == NamedKey(w.namespace, f.name) && f.issue == w.findings[i].issue
  {
    if w.findings != [] {
      var i :| 0 <= i < |w.findings| && f == FromDiagnose(w.findings[i], OwnerText(w));
      var pod :| pod != "" && w.findings[i].pod == NamedKey(w.namespace, pod);
      SplitNameOf(w.namespace, pod);
    }
  }

  // ---- the order of findings

  /** Higher levels first, then by namespace, kind, name and issue. */
  predicate ComesBefore(a: Finding, b: Finding) {
    if a.level != b.level then a.level > b.level
    else if a.namespace != b.namespace then TextLe(a.namespace, b.namespace)
    else Texts3Le(a.kind, a.name, a.issue, b.kind, b.name, b.issue)
  }

  lemma {:induction false} OrderIsComesBefore(a: Finding, b: Finding)
    requires KeyLe(FindingOrder(a), FindingOrder(b))
    ensures ComesBefore(a, b)
  {
    var k, l := [Text(a.kind), Text(a.name), Text(a.issue)], [Text(b.kind), Text(b.name), Text(b.issue)];
    assert FindingOrder(a) == [Num(-a.level)] + ([Text(a.namespace)] + k);
    assert FindingOrder(b) == [Num(-b.level)] + ([Text(b.namespace)] + l);
    LeadingColumn(Num(-a.level), [Text(a.namespace)] + k, Num(-b.level), [Text(b.namespace)] + l);
    LeadingColumn(Text(a.namespace), k, Text(b.namespace), l);
    ThreeTexts(a.kind, a.name, a.issue, b.kind, b.name, b.issue);
  }

  /** Both lists of a verdict are in that order. */
  lemma {:induction false} VerdictInOrder(all: seq<Finding>, unread: seq<ReadFailure>, o: Options, v: Verdict, i: nat, j: nat)
    requires IsVerdict(all, unread, o, v) && i < j
    ensures j < |v.failing| ==> ComesBefore(v.failing[i], v.failing[j])
    ensures j < |v.reported| ==> ComesBefore(v.reported[i], v.reported[j])
  {
    if j < |v.failing| {
      OrderIsComesBefore(v.failing[i], v.failing[j]);
    }
    if j < |v.reported| {
      OrderIsComesBefore(v.reported[i], v.reported[j]);
    }
  }
}
