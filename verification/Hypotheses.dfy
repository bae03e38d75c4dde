/**
 internal/hypothesis: rules that re-check a workload's root-cause candidates
 against objects read in this run, and decide its row.
 */
module Hypotheses {
  import opened Basics
  import opened Sorting
  import opened Inventory
  import Scope

  // ---- what was read

  datatype NodeObject = NodeObject(conditions: seq<Condition>)

  datatype Claim = Claim(phase: string, storageClass: Option<string>)

  datatype Event = Event(reason: string, message: string)

  /** Names one read; `path` is "namespace/name". */
  datatype ReadKey = NodeKey(name: string) | ClaimKey(path: string) | EventsKey(path: string)

  datatype Reads = Reads(nodes: map<string, NodeObject>, pvcs: map<string, Claim>, events: map<string, seq<Event>>,
                         failed: map<ReadKey, string>)

  /** The map key the code writes for a read. */
  function KeyText(k: ReadKey): (s: string) {
    match k
    case NodeKey(name) => "node/" + name
    case ClaimKey(path) => "pvc/" + path
    case EventsKey(path) => "events/" + path
  }

  /** Distinct reads have distinct key texts. */
  lemma {:induction false} KeyTextInjective(a: ReadKey, b: ReadKey)
    ensures KeyText(a) == KeyText(b) ==> a == b
  {
    if KeyText(a) == KeyText(b) {
      assert KeyText(a)[0] == KeyText(b)[0];
      match a
      case NodeKey(n) => assert KeyText(a)[5..] == n && KeyText(b)[5..] == b.name;
      case ClaimKey(p) => assert KeyText(a)[4..] == p && KeyText(b)[4..] == b.path;
      case EventsKey(p) => assert KeyText(a)[7..] == p && KeyText(b)[7..] == b.path;
    }
  }

  // ---- text

  /** The name half of "namespace/name", or "" without a slash. */
  function PodPart(pod: string): (name: string) {
    if pod == "" then "" else if pod[0] == '/' then pod[1..] else PodPart(pod[1..])
  }

  /** Position of the last c, or -1. */
  function LastIndex(s: string, c: char): (i: int)
    ensures -1 <= i < |s| && (i >= 0 ==> s[i] == c) && forall j :: i < j < |s| ==> s[j] != c
  {
    if s == "" then -1 else if s[|s| - 1] == c then |s| - 1 else LastIndex(s[..|s| - 1], c)
  }

  /** The text inside the last "(...)" pair, or "". */
  function Parenthesized(s: string): (r: string) {
    var end := LastIndex(s, ')');
    if end < 0 then ""
    else
      var start := LastIndex(s[..end], '(');
      if start < 0 then "" else s[start + 1..end]
  }

  predicate OccursAt(s: string, sub: string, i: int) { 0 <= i <= |s| - |sub| && s[i..i + |sub|] == sub }

  predicate Contains(s: string, sub: string) { exists i :: 0 <= i <= |s| && OccursAt(s, sub, i) }

  // ---- rules

  datatype Outcome = Confirmed | Refuted | Unverified

  datatype Verdict = Verdict(outcome: Outcome, evidence: string)

  const NEVER_READ := "not re-read: the read budget was spent first"
  const FAILED_PREFIX := "fresh read failed: "
  const NO_RULE := "no rule re-checks this candidate kind"
  const NO_PULL_EVENT := "no pull event names the failure; events may have aged out"
  const PULL_POD_UNREAD := "events of the pulling pod were not read"

  const CONNECTION: seq<string> := ["dial tcp", "i/o timeout", "connection refused", "connection reset",
    "no such host", "network is unreachable", "tls handshake", "x509:", "502 bad gateway",
    "503 service unavailable", "504 gateway timeout", "toomanyrequests", "429 too many requests"]
  const AUTH: seq<string> := ["pull access denied", "no basic auth credentials", "unauthorized", "denied"]
  const IMAGE: seq<string> := ["manifest unknown", "not found", "name unknown", "repository does not exist",
    "invalid reference format"]

  /** Reasons that a Ready condition alone cannot refute. */
  predicate Heartbeat(h: Hypothesis) {
    Parenthesized(h.cause) in {"kubelet not heartbeating", "no kubelet lease"}
  }

  function JudgeNode(h: Hypothesis, n: NodeObject): (v: Verdict) {
    match ReadyStatus(n.conditions)
    case None => Verdict(Confirmed, "the node has no Ready condition")
    case Some(s) =>
      if s == "False" then Verdict(Confirmed, "Ready condition is False now")
      else if s == "Unknown" then Verdict(Confirmed, "Ready condition is Unknown now")
      else if s == "True" && Heartbeat(h) then
        Verdict(Unverified, "Ready condition is True, but the kubelet lease was not re-read")
      else if s == "True" then Verdict(Refuted, "Ready condition is True now")
      else Verdict(Unverified, "Ready condition is not one kubeagent expects")
  }

  function CheckNode(h: Hypothesis, rs: Reads): (v: Verdict) {
    if h.subject == "" then Verdict(Unverified, NEVER_READ)
    else if NodeKey(h.subject) in rs.failed then Verdict(Unverified, FAILED_PREFIX + rs.failed[NodeKey(h.subject)])
    else if h.subject !in rs.nodes then Verdict(Unverified, NEVER_READ)
    else JudgeNode(h, rs.nodes[h.subject])
  }

  function JudgeClaim(c: Claim): (v: Verdict) {
    if c.phase == "Bound" then Verdict(Refuted, "phase is Bound now")
    else if c.phase == "Pending" then Verdict(Confirmed, "phase is still Pending")
    else if c.phase == "Lost" then Verdict(Confirmed, "phase is Lost")
    else Verdict(Unverified, "phase is not one kubeagent expects")
  }

  function CheckClaim(w: Workload, h: Hypothesis, rs: Reads): (v: Verdict) {
    var key := NamedKey(w.namespace, h.subject);
    if h.subject == "" then Verdict(Unverified, NEVER_READ)
    else if ClaimKey(key) in rs.failed then Verdict(Unverified, FAILED_PREFIX + rs.failed[ClaimKey(key)])
    else if key !in rs.pvcs then Verdict(Unverified, NEVER_READ)
    else JudgeClaim(rs.pvcs[key])
  }

  function FirstPull(fs: seq<PodFinding>): (pod: string) {
    if fs == [] then ""
    else if fs[0].issue == "ImagePullBackOff" || fs[0].issue == "ErrImagePull" then PodPart(fs[0].pod)
    else FirstPull(fs[1..])
  }

  /** The pod of the first pull finding. */
  function PullPod(w: Workload): (pod: string) { FirstPull(w.findings) }

  /** The object whose events are read: the first finding's pod, else the workload. */
  function EventsPod(w: Workload): (name: string) {
    if w.findings != [] && PodPart(w.findings[0].pod) != "" then PodPart(w.findings[0].pod) else w.name
  }

  predicate IsPullEvent(e: Event) {
    (e.reason == "Failed" || e.reason == "BackOff") && Contains(Scope.ToLower(e.message), "pull")
  }

  function PullMessages(evs: seq<Event>): (msgs: seq<string>) {
    if evs == [] then []
    else
      var n := |evs| - 1;
      if IsPullEvent(evs[n]) then PullMessages(evs[..n]) + [Scope.ToLower(evs[n].message)] else PullMessages(evs[..n])
  }

  predicate SomeContains(msgs: seq<string>, lit: string) { exists i :: 0 <= i < |msgs| && Contains(msgs[i], lit) }

  /** The first literal, in list order, that a message contains. */
  function FirstMatch(msgs: seq<string>, literals: seq<string>): (lit: Option<string>) {
    if literals == [] then None
    else if SomeContains(msgs, literals[0]) then Some(literals[0])
    else FirstMatch(msgs, literals[1..])
  }

  /** Connection beats auth beats image. */
  function Classify(evs: seq<Event>): (v: Verdict) {
    var msgs := PullMessages(evs);
    match FirstMatch(msgs, CONNECTION)
    case Some(lit) => Verdict(Confirmed, "a pull event shows a connection error: " + lit)
    case None =>
      match FirstMatch(msgs, AUTH)
      case Some(lit) =>
        Verdict(Unverified, "a pull event shows an auth error: " + lit + "; that can be one image or the whole host")
      case None =>
        match FirstMatch(msgs, IMAGE)
        case Some(lit) =>
          Verdict(Refuted, "a pull event shows an image error: " + lit + "; this pull fails for this image, not the host")
        case None => Verdict(Unverified, NO_PULL_EVENT)
  }

  function CheckRegistry(w: Workload, rs: Reads): (v: Verdict) {
    var pod := PullPod(w);
    var key := NamedKey(w.namespace, pod);
    if pod != "" && key in rs.events then Classify(rs.events[key])
    else if pod != "" && EventsKey(key) in rs.failed then Verdict(Unverified, FAILED_PREFIX + rs.failed[EventsKey(key)])
    else if pod == "" || pod != EventsPod(w) then Verdict(Unverified, PULL_POD_UNREAD)
    else Verdict(Unverified, NEVER_READ)
  }

  function Check(w: Workload, h: Hypothesis, rs: Reads): (v: Verdict) {
    if h.kind == "node" then CheckNode(h, rs)
    else if h.kind == "pvc" then CheckClaim(w, h, rs)
    else if h.kind == "registry" then CheckRegistry(w, rs)
    else Verdict(Unverified, NO_RULE)
  }

  // ---- what the node and claim rules say of what was read

  /** `reason` is what stands in the last "(...)" of the text: between its last ")" and the last "(" before that. */
  ghost predicate LastParenthesis(s: string, reason: string) {
    exists a, b :: ParenthesisAt(s, a, b) && s[a + 1..b] == reason
  }

  ghost predicate ParenthesisAt(s: string, a: int, b: int) {
    && 0 <= a < b < |s| && s[a] == '(' && s[b] == ')'
    && (forall j :: b < j < |s| ==> s[j] != ')') && (forall j :: a < j < b ==> s[j] != '(')
  }

  lemma {:induction false} LastIndexIs(s: string, c: char, i: int)
    requires 0 <= i < |s| && s[i] == c && forall j :: i < j < |s| ==> s[j] != c
    ensures LastIndex(s, c) == i
  {
    var k := LastIndex(s, c);
  }

  lemma {:induction false} ParenthesisUnique(s: string, a: int, b: int)
    requires ParenthesisAt(s, a, b)
    ensures LastIndex(s, ')') == b && LastIndex(s[..b], '(') == a && Parenthesized(s) == s[a + 1..b]
  {
    LastIndexIs(s, ')', b);
    LastIndexIs(s[..b], '(', a);
  }

  lemma {:induction false} ParenthesisFound(s: string)
    requires Parenthesized(s) != ""
    ensures exists a, b :: ParenthesisAt(s, a, b)
  {
    var end := LastIndex(s, ')');
    var start := LastIndex(s[..end], '(');
    assert ParenthesisAt(s, start, end);
  }

  lemma {:induction false} ParenthesizedExact(s: string, reason: string)
    requires reason != ""
    ensures Parenthesized(s) == reason <==> LastParenthesis(s, reason)
  {
    if Parenthesized(s) == reason {
      ParenthesisFound(s);
      var a, b :| ParenthesisAt(s, a, b);
      ParenthesisUnique(s, a, b);
      assert ParenthesisAt(s, a, b) && s[a + 1..b] == reason;
    }
    if LastParenthesis(s, reason) {
      var a, b :| ParenthesisAt(s, a, b) && s[a + 1..b] == reason;
      ParenthesisUnique(s, a, b);
    }
  }

  /** Reasons that a Ready condition cannot refute, because the lease was not read again. */
  ghost predicate NeedsLease(h: Hypothesis) {
    LastParenthesis(h.cause, "kubelet not heartbeating") || LastParenthesis(h.cause, "no kubelet lease")
  }

  ghost predicate NodeDown(n: NodeObject) {
    NoReady(n.conditions) || FirstReadyIs(n.conditions, "False") || FirstReadyIs(n.conditions, "Unknown")
  }

  /** A read node confirms its candidate iff it is down now, and refutes it iff it is Ready and the reason is no heartbeat. */
  lemma {:induction false} NodeRuleExact(h: Hypothesis, n: NodeObject)
    ensures JudgeNode(h, n).outcome == Confirmed <==> NodeDown(n)
    ensures JudgeNode(h, n).outcome == Refuted <==> FirstReadyIs(n.conditions, "True") && !NeedsLease(h)
  {
    ReadyStatusExact(n.conditions, "False");
    ReadyStatusExact(n.conditions, "Unknown");
    ReadyStatusExact(n.conditions, "True");
    ParenthesizedExact(h.cause, "kubelet not heartbeating");
    ParenthesizedExact(h.cause, "no kubelet lease");
  }

  ghost predicate ClaimStuck(c: Claim) { c.phase == "Pending" || c.phase == "Lost" }

  lemma {:induction false} ClaimRuleExact(c: Claim)
    ensures JudgeClaim(c).outcome == Confirmed <==> ClaimStuck(c)
    ensures JudgeClaim(c).outcome == Refuted <==> c.phase == "Bound"
  {
    assert "Bound" != "Pending" && "Bound" != "Lost";
  }

  // ---- whose events are read

  ghost predicate IsPull(f: PodFinding) { f.issue == "ImagePullBackOff" || f.issue == "ErrImagePull" }

  ghost predicate FirstPullAt(w: Workload, i: int) {
    0 <= i < |w.findings| && IsPull(w.findings[i]) && forall j :: 0 <= j < i ==> !IsPull(w.findings[j])
  }

  /** The name half of a reference is what follows its first slash. */
  lemma {:induction false} PodPartExact(pod: string, namespace: string, name: string)
    ensures SlashFree(pod) ==> PodPart(pod) == ""
    ensures SlashFree(namespace) && pod == namespace + "/" + name ==> PodPart(pod) == name
  {
    if SlashFree(pod) && pod != "" {
      PodPartExact(pod[1..], namespace, name);
    }
    if SlashFree(namespace) && pod == namespace + "/" + name {
      if namespace == "" {
        assert pod[1..] == name;
      } else {
        assert pod[1..] == namespace[1..] + "/" + name;
        PodPartExact(pod[1..], namespace[1..], name);
      }
    }
  }

  lemma {:induction false} FirstPullExact(fs: seq<PodFinding>, i: nat)
    requires i <= |fs| && (forall j :: 0 <= j < i ==> !IsPull(fs[j])) && (i < |fs| ==> IsPull(fs[i]))
    ensures FirstPull(fs) == if i < |fs| then PodPart(fs[i].pod) else ""
  {
    if i > 0 {
      assert forall j :: 0 <= j < i - 1 ==> fs[1..][j] == fs[j + 1];
      FirstPullExact(fs[1..], i - 1);
    }
  }

  /** The pulling pod is that of the first pull finding, and there is none without such a finding. */
  lemma {:induction false} PullPodExact(w: Workload, i: nat, namespace: string, name: string)
    ensures FirstPullAt(w, i) && SlashFree(namespace) && w.findings[i].pod == namespace + "/" + name ==> PullPod(w) == name
    ensures (forall j :: 0 <= j < |w.findings| ==> !IsPull(w.findings[j])) ==> PullPod(w) == ""
  {
    if FirstPullAt(w, i) {
      FirstPullExact(w.findings, i);
      PodPartExact(w.findings[i].pod, namespace, name);
    }
    if forall j :: 0 <= j < |w.findings| ==> !IsPull(w.findings[j]) {
      FirstPullExact(w.findings, |w.findings|);
    }
  }

  /** A workload's own events are those of its first finding's pod, else those under its own name. */
  lemma {:induction false} EventsPodExact(w: Workload, namespace: string, name: string)
    ensures w.findings == [] || SlashFree(w.findings[0].pod) ==> EventsPod(w) == w.name
    ensures w.findings != [] && SlashFree(namespace) && w.findings[0].pod == namespace + "/" + name ==>
      EventsPod(w) == if name == "" then w.name else name
  {
    if w.findings != [] {
      PodPartExact(w.findings[0].pod, namespace, name);
    }
  }

  // ---- the classes of pull events

  /** Some pull event mentions one of the literals. */
  ghost predicate Shows(evs: seq<Event>, literals: seq<string>) {
    exists e, lit :: ShownBy(evs, literals, e, lit)
  }

  ghost predicate ShownBy(evs: seq<Event>, literals: seq<string>, e: Event, lit: string) {
    e in evs && IsPullEvent(e) && lit in literals && Contains(Scope.ToLower(e.message), lit)
  }

  lemma {:induction false} PullMessagesExact(evs: seq<Event>, m: string)
    ensures m in PullMessages(evs) <==> exists e :: e in evs && IsPullEvent(e) && Scope.ToLower(e.message) == m
  {
    if evs != [] {
      var n := |evs| - 1;
      PullMessagesExact(evs[..n], m);
      assert evs == evs[..n] + [evs[n]];
      assert forall e :: e in evs <==> e in evs[..n] || e == evs[n];
    }
  }

  lemma {:induction false} FirstMatchExact(msgs: seq<string>, literals: seq<string>)
    ensures FirstMatch(msgs, literals).Some? <==> exists lit :: lit in literals && SomeContains(msgs, lit)
    ensures FirstMatch(msgs, literals).Some? ==>
      FirstMatch(msgs, literals).value in literals && SomeContains(msgs, FirstMatch(msgs, literals).value)
  {
    if literals != [] {
      FirstMatchExact(msgs, literals[1..]);
      assert forall lit :: lit in literals <==> lit == literals[0] || lit in literals[1..];
    }
  }

  lemma {:induction false} MatchExact(evs: seq<Event>, literals: seq<string>)
    ensures FirstMatch(PullMessages(evs), literals).Some? <==> Shows(evs, literals)
  {
    var msgs := PullMessages(evs);
    FirstMatchExact(msgs, literals);
    if FirstMatch(msgs, literals).Some? {
      var lit := FirstMatch(msgs, literals).value;
      var i :| 0 <= i < |msgs| && Contains(msgs[i], lit);
      PullMessagesExact(evs, msgs[i]);
      var e :| e in evs && IsPullEvent(e) && Scope.ToLower(e.message) == msgs[i];
      assert ShownBy(evs, literals, e, lit);
    }
    if Shows(evs, literals) {
      var e, lit :| ShownBy(evs, literals, e, lit);
      PullMessagesExact(evs, Scope.ToLower(e.message));
      assert SomeContains(msgs, lit);
    }
  }

  /** What each outcome of the registry rule says about the events, and that their order is irrelevant to it. */
  lemma {:induction false} ClassifyExact(evs: seq<Event>)
    ensures Classify(evs).outcome == Confirmed <==> Shows(evs, CONNECTION)
    ensures Classify(evs).outcome == Refuted <==> Shows(evs, IMAGE) && !Shows(evs, AUTH) && !Shows(evs, CONNECTION)
  {
    MatchExact(evs, CONNECTION);
    MatchExact(evs, AUTH);
    MatchExact(evs, IMAGE);
  }

  // ---- deciding a row

  datatype Decision = Decision(candidate: Hypothesis, outcome: Outcome, evidence: string)

  datatype Row = Row(workload: string, decided: bool, cause: string, outcome: Option<Outcome>, evidence: string,
                     groupKey: string, groupText: string, decisions: seq<Decision>)

  predicate Open(h: Hypothesis) { !h.ruledOut }

  function Judged(w: Workload, rs: Reads): (f: Hypothesis -> Decision) {
    (h: Hypothesis) => Decision(h, Check(w, h, rs).outcome, Check(w, h, rs).evidence)
  }

  predicate PlainChar(c: char) { 'a' <= c <= 'z' || '0' <= c <= '9' || c == '.' || c == '-' }

  predicate PlainName(s: string) { s != "" && forall i :: 0 <= i < |s| ==> PlainChar(s[i]) }

  /** What a confirmed cause points at. */
  function GroupOf(w: Workload, h: Hypothesis, rs: Reads): (g: (string, string)) {
    if h.kind == "node" then ("node/" + h.subject, h.cause)
    else if h.kind == "registry" then ("registry/" + h.subject, h.cause)
    else if h.kind == "pvc" then
      var reason, key := Parenthesized(h.cause), NamedKey(w.namespace, h.subject);
      if (reason == "ProvisionerNotResponding" || reason == "MissingStorageClass") && key in rs.pvcs
         && rs.pvcs[key].storageClass.Some? && PlainName(rs.pvcs[key].storageClass.value) then
        var class_ := rs.pvcs[key].storageClass.value;
        ("storageclass/" + class_ + "/" + reason, "storage class " + class_ + " (" + reason + ")")
      else ("pvc/" + w.namespace + "/" + h.subject, h.cause)
    else ("", "")
  }

  ghost predicate First(ds: seq<Decision>, o: Outcome, k: int) {
    0 <= k < |ds| && ds[k].outcome == o && forall j :: 0 <= j < k ==> ds[j].outcome != o
  }

  /** The candidate that decides the row: the first confirmed one, else the first unverified one. */
  ghost predicate Deciding(ds: seq<Decision>, k: int) {
    First(ds, Confirmed, k) || ((forall j :: 0 <= j < |ds| ==> ds[j].outcome != Confirmed) && First(ds, Unverified, k))
  }

  /** The row carries the deciding candidate's cause, outcome and evidence, and a group only if confirmed. */
  ghost predicate DecidedBy(w: Workload, rs: Reads, r: Row, d: Decision) {
    && r.cause == d.candidate.cause && r.outcome == Some(d.outcome) && r.evidence == d.evidence
    && (r.groupKey, r.groupText) == (if d.outcome == Confirmed then GroupOf(w, d.candidate, rs) else ("", ""))
  }

  ghost predicate IsRow(w: Workload, rs: Reads, r: Row) {
    && r.workload == NamedKey(w.namespace, w.name)
    && r.decisions == Map(Judged(w, rs), Filter(Open, w.trace))
    && (r.decided <==> exists k :: Deciding(r.decisions, k))
    && (forall k :: Deciding(r.decisions, k) ==> DecidedBy(w, rs, r, r.decisions[k]))
    && (!r.decided ==> r.outcome == None && r.cause == r.evidence == r.groupKey == r.groupText == "")
  }

  function Settled(r: Row, d: Decision, w: Workload, rs: Reads): (r': Row) {
    var s := r.(decided := true, cause := d.candidate.cause, outcome := Some(d.outcome), evidence := d.evidence);
    if d.outcome == Confirmed then s.(groupKey := GroupOf(w, d.candidate, rs).0, groupText := GroupOf(w, d.candidate, rs).1)
    else s
  }

  method Recheck(w: Workload, rs: Reads) returns (ds: seq<Decision>)
    ensures ds == Map(Judged(w, rs), Filter(Open, w.trace))
  {
    ds := [];
    ghost var open: seq<Hypothesis> := [];
    for i := 0 to |w.trace|
      invariant open == Filter(Open, w.trace[..i]) && ds == Map(Judged(w, rs), open)
    {
      FilterStep(Open, w.trace, i);
      if w.trace[i].ruledOut {
        continue;
      }
      var v := Check(w, w.trace[i], rs);
      ds := ds + [Decision(w.trace[i], v.outcome, v.evidence)];
      open := open + [w.trace[i]];
    }
    assert w.trace[..|w.trace|] == w.trace;
  }

  lemma {:induction false} DecidingUnique(ds: seq<Decision>, i: int, j: int)
    requires Deciding(ds, i) && Deciding(ds, j)
    ensures i == j
  {
  }

  lemma {:induction false} SettledIsRow(w: Workload, rs: Reads, r: Row, k: nat)
    requires r == Row(NamedKey(w.namespace, w.name), false, "", None, "", "", "", Map(Judged(w, rs), Filter(Open, w.trace)))
    requires Deciding(r.decisions, k)
    ensures IsRow(w, rs, Settled(r, r.decisions[k], w, rs))
  {
    forall j | Deciding(r.decisions, j) ensures j == k {
      DecidingUnique(r.decisions, j, k);
    }
    assert DecidedBy(w, rs, Settled(r, r.decisions[k], w, rs), r.decisions[k]);
  }

  /** Position of the first decision with an outcome, or the length. */
  method Find(ds: seq<Decision>, o: Outcome) returns (k: nat)
    ensures k <= |ds| && (k < |ds| ==> First(ds, o, k)) && forall j :: 0 <= j < k ==> ds[j].outcome != o
  {
    k := 0;
    while k < |ds| && ds[k].outcome != o
      invariant k <= |ds| && forall j :: 0 <= j < k ==> ds[j].outcome != o
    {
      k := k + 1;
    }
  }

  method Decide(w: Workload, rs: Reads) returns (r: Row)
    ensures IsRow(w, rs, r)
  {
    var ds := Recheck(w, rs);
    r := Row(NamedKey(w.namespace, w.name), false, "", None, "", "", "", ds);
    var k := Find(ds, Confirmed);
    if k == |ds| {
      k := Find(ds, Unverified);
    }
    if k < |ds| {
      SettledIsRow(w, rs, r, k);
      r := Settled(r, ds[k], w, rs);
    }
  }

  lemma {:induction false} ConfirmedHasGroup(w: Workload, h: Hypothesis, rs: Reads)
    requires Check(w, h, rs).outcome == Confirmed
    ensures GroupOf(w, h, rs).0 != ""
  {
  }

  /** A row has a group exactly when it is confirmed; it is open exactly when every candidate was refuted. */
  lemma {:induction false} GroupIffConfirmed(w: Workload, rs: Reads, r: Row)
    requires IsRow(w, rs, r)
    ensures r.groupKey != "" <==> r.outcome == Some(Confirmed)
    ensures r.decided <==> r.outcome.Some?
    ensures r.decided <==> exists k :: 0 <= k < |r.decisions| && r.decisions[k].outcome != Refuted
  {
    if r.decided {
      var k :| Deciding(r.decisions, k);
      var h := Filter(Open, w.trace)[k];
      assert r.decisions[k] == Judged(w, rs)(h);
      if r.decisions[k].outcome == Confirmed {
        ConfirmedHasGroup(w, h, rs);
      }
      assert DecidedBy(w, rs, r, r.decisions[k]);
    }
    if k :| 0 <= k < |r.decisions| && r.decisions[k].outcome != Refuted {
      var j := SomeDeciding(r.decisions, k);
      assert Deciding(r.decisions, j);
    }
  }

  lemma {:induction false} SomeDeciding(ds: seq<Decision>, k: nat) returns (j: nat)
    requires k < |ds| && ds[k].outcome != Refuted
    ensures Deciding(ds, j)
  {
    j := FirstWith(ds, Confirmed);
    if j == |ds| {
      j := FirstWith(ds, Unverified);
    }
  }

  lemma {:induction false} FirstWith(ds: seq<Decision>, o: Outcome) returns (k: nat)
    ensures First(ds, o, k) || (k == |ds| && forall j :: 0 <= j < |ds| ==> ds[j].outcome != o)
  {
    k := 0;
    while k < |ds| && ds[k].outcome != o
      invariant k <= |ds| && forall j :: 0 <= j < k ==> ds[j].outcome != o
    {
      k := k + 1;
    }
  }

  // ---- which confirmed candidates share a group

  predicate HasRule(h: Hypothesis) { h.kind == "node" || h.kind == "pvc" || h.kind == "registry" }

  predicate ClassReason(reason: string) { reason == "ProvisionerNotResponding" || reason == "MissingStorageClass" }

  /** The cause is about the class of a claim that was read, and the class has a plain name. */
  ghost predicate BlamesClass(w: Workload, h: Hypothesis, rs: Reads, class_: string, reason: string) {
    var key := NamedKey(w.namespace, h.subject);
    && h.kind == "pvc" && ClassReason(reason) && LastParenthesis(h.cause, reason)
    && key in rs.pvcs && rs.pvcs[key].storageClass == Some(class_) && PlainName(class_)
  }

  ghost predicate BlamesSomeClass(w: Workload, h: Hypothesis, rs: Reads) {
    exists class_, reason :: BlamesClass(w, h, rs, class_, reason)
  }

  ghost predicate SameClass(w1: Workload, h1: Hypothesis, w2: Workload, h2: Hypothesis, rs: Reads) {
    exists class_, reason :: BlamesClass(w1, h1, rs, class_, reason) && BlamesClass(w2, h2, rs, class_, reason)
  }

  /** Both candidates are about one upstream object: a node, a registry host, a storage class and reason, or a claim. */
  ghost predicate SameUpstream(w1: Workload, h1: Hypothesis, w2: Workload, h2: Hypothesis, rs: Reads) {
    h1.kind == h2.kind &&
    if h1.kind != "pvc" then h1.subject == h2.subject
    else if BlamesSomeClass(w1, h1, rs) || BlamesSomeClass(w2, h2, rs) then SameClass(w1, h1, w2, h2, rs)
    else w1.namespace == w2.namespace && h1.subject == h2.subject
  }

  lemma {:induction false} ClassBlamed(w: Workload, h: Hypothesis, rs: Reads, class_: string, reason: string)
    requires BlamesClass(w, h, rs, class_, reason)
    ensures GroupOf(w, h, rs).0 == "storageclass/" + class_ + "/" + reason
    ensures Parenthesized(h.cause) == reason && rs.pvcs[NamedKey(w.namespace, h.subject)].storageClass == Some(class_)
  {
    ParenthesizedExact(h.cause, reason);
  }

  lemma {:induction false} ClassFound(w: Workload, h: Hypothesis, rs: Reads)
    requires h.kind == "pvc"
    ensures BlamesSomeClass(w, h, rs) || GroupOf(w, h, rs) == ("pvc/" + w.namespace + "/" + h.subject, h.cause)
  {
    var reason, key := Parenthesized(h.cause), NamedKey(w.namespace, h.subject);
    if ClassReason(reason) && key in rs.pvcs && rs.pvcs[key].storageClass.Some? && PlainName(rs.pvcs[key].storageClass.value) {
      ParenthesizedExact(h.cause, reason);
      assert BlamesClass(w, h, rs, rs.pvcs[key].storageClass.value, reason);
    }
  }

  function KeyInitial(h: Hypothesis, blamesClass: bool): (c: char) {
    if h.kind == "node" then 'n' else if h.kind == "registry" then 'r' else if blamesClass then 's' else 'p'
  }

  lemma {:induction false} GroupKeyInitial(w: Workload, h: Hypothesis, rs: Reads)
    requires HasRule(h)
    ensures |GroupOf(w, h, rs).0| >= 5 && GroupOf(w, h, rs).0[0] == KeyInitial(h, BlamesSomeClass(w, h, rs))
    ensures h.kind == "node" ==> GroupOf(w, h, rs).0[5..] == h.subject
  {
    if h.kind == "pvc" {
      ClassFound(w, h, rs);
      if BlamesSomeClass(w, h, rs) {
        var class_, reason :| BlamesClass(w, h, rs, class_, reason);
        ClassBlamed(w, h, rs, class_, reason);
      }
    }
  }

  /** Two confirmed candidates of a run get one group key iff they are about one upstream object. */
  lemma {:induction false} GroupsShareExactly(w1: Workload, h1: Hypothesis, w2: Workload, h2: Hypothesis, rs: Reads)
    requires HasRule(h1) && HasRule(h2) && SlashFree(w1.namespace) && SlashFree(w2.namespace)
    ensures GroupOf(w1, h1, rs).0 == GroupOf(w2, h2, rs).0 <==> SameUpstream(w1, h1, w2, h2, rs)
  {
    GroupKeyInitial(w1, h1, rs);
    GroupKeyInitial(w2, h2, rs);
    var k1, k2 := GroupOf(w1, h1, rs).0, GroupOf(w2, h2, rs).0;
    if h1.kind != h2.kind {
      assert k1[0] != k2[0];
    } else if h1.kind == "registry" {
      assert k1[9..] == h1.subject && k2[9..] == h2.subject;
    } else if h1.kind == "pvc" {
      ClaimsShareExactly(w1, h1, w2, h2, rs);
    }
  }

  lemma {:induction false} ClaimsShareExactly(w1: Workload, h1: Hypothesis, w2: Workload, h2: Hypothesis, rs: Reads)
    requires h1.kind == "pvc" && h2.kind == "pvc" && SlashFree(w1.namespace) && SlashFree(w2.namespace)
    ensures GroupOf(w1, h1, rs).0 == GroupOf(w2, h2, rs).0 <==> SameUpstream(w1, h1, w2, h2, rs)
  {
    GroupKeyInitial(w1, h1, rs);
    GroupKeyInitial(w2, h2, rs);
    ClassFound(w1, h1, rs);
    ClassFound(w2, h2, rs);
    if BlamesSomeClass(w1, h1, rs) && BlamesSomeClass(w2, h2, rs) {
      ClassesShareExactly(w1, h1, w2, h2, rs);
    } else if !BlamesSomeClass(w1, h1, rs) && !BlamesSomeClass(w2, h2, rs) {
      var k1, k2 := GroupOf(w1, h1, rs).0, GroupOf(w2, h2, rs).0;
      assert k1[4..] == w1.namespace + "/" + h1.subject && k2[4..] == w2.namespace + "/" + h2.subject;
      if k1 == k2 {
        SplitAtSlash(w1.namespace, h1.subject, w2.namespace, h2.subject);
      }
    } else {
      NotSameClass(w1, h1, w2, h2, rs);
    }
  }

  lemma {:induction false} NotSameClass(w1: Workload, h1: Hypothesis, w2: Workload, h2: Hypothesis, rs: Reads)
    ensures SameClass(w1, h1, w2, h2, rs) ==> BlamesSomeClass(w1, h1, rs) && BlamesSomeClass(w2, h2, rs)
  {
  }

  lemma {:induction false} ClassesShareExactly(w1: Workload, h1: Hypothesis, w2: Workload, h2: Hypothesis, rs: Reads)
    requires BlamesSomeClass(w1, h1, rs) && BlamesSomeClass(w2, h2, rs)
    ensures GroupOf(w1, h1, rs).0 == GroupOf(w2, h2, rs).0 <==> SameClass(w1, h1, w2, h2, rs)
  {
    var c1, r1 :| BlamesClass(w1, h1, rs, c1, r1);
    var c2, r2 :| BlamesClass(w2, h2, rs, c2, r2);
    ClassBlamed(w1, h1, rs, c1, r1);
    ClassBlamed(w2, h2, rs, c2, r2);
    if GroupOf(w1, h1, rs).0 == GroupOf(w2, h2, rs).0 {
      ClassKeyInjective(c1, r1, c2, r2);
    }
    if SameClass(w1, h1, w2, h2, rs) {
      var c, r :| BlamesClass(w1, h1, rs, c, r) && BlamesClass(w2, h2, rs, c, r);
      ClassBlamed(w1, h1, rs, c, r);
      ClassBlamed(w2, h2, rs, c, r);
    }
  }

  lemma {:induction false} ClassKeyInjective(c1: string, r1: string, c2: string, r2: string)
    requires PlainName(c1) && PlainName(c2) && "storageclass/" + c1 + "/" + r1 == "storageclass/" + c2 + "/" + r2
    ensures c1 == c2 && r1 == r2
  {
    TailOf("storageclass/", c1, r1);
    TailOf("storageclass/", c2, r2);
    SplitAtSlash(c1, r1, c2, r2);
  }

  lemma {:induction false} TailOf(head: string, a: string, b: string)
    ensures (head + a + "/" + b)[|head|..] == a + "/" + b
  {
  }

  // ---- shared causes

  const MAX_SHARED_LINES: nat := 4

  datatype Group = Group(key: string, text: string, n: nat)

  datatype SharedLine = Together(n: nat, text: string) | NoneShared(confirmed: nat) | Cut

  predicate IsConfirmed(r: Row) { r.decided && r.outcome == Some(Confirmed) }

  predicate Grouped(r: Row) { IsConfirmed(r) && r.groupKey != "" }

  function RowGroup(r: Row): (k: string) { r.groupKey }

  function One(r: Row): (n: int) { 1 }

  function Members(rows: seq<Row>, key: string): (n: int) { GroupTotal(RowGroup, One, Filter(Grouped, rows), key) }

  /** Largest first, then by key. */
  function GroupOrder(g: Group): (k: Key) { [Num(0 - g.n), Text(g.key)] }

  function GroupName(g: Group): (k: string) { g.key }

  /** The text of the first row of a group. */
  function FirstText(rows: seq<Row>, key: string): (text: Option<string>) {
    if rows == [] then None
    else
      var r, earlier := rows[|rows| - 1], FirstText(rows[..|rows| - 1], key);
      if earlier.None? && Grouped(r) && r.groupKey == key then Some(r.groupText) else earlier
  }

  /** A group's entry: its size and its first row's text. */
  ghost predicate IsGroup(rows: seq<Row>, g: Group) {
    g.n > 0 && g.n == Members(rows, g.key) && Some(g.text) == FirstText(rows, g.key)
  }

  /** Every group of grouped rows, each once, in order. */
  ghost predicate IsGrouping(rows: seq<Row>, groups: seq<Group>) {
    NoDup(groups) && Sorted(GroupOrder, groups) && forall g :: g in groups <==> IsGroup(rows, g)
  }

  predicate Large(g: Group) { g.n >= 2 }

  function LineOf(g: Group): (l: SharedLine) { Together(g.n, g.text) }

  function LinesOf(confirmed: nat, groups: seq<Group>): (r: seq<SharedLine>) {
    var lines := Map(LineOf, Filter(Large, groups));
    if confirmed < 2 then []
    else if lines == [] then [NoneShared(confirmed)]
    else if |lines| > MAX_SHARED_LINES then lines[..MAX_SHARED_LINES] + [Cut]
    else lines
  }

  /** The groups seen so far, keyed by name. */
  ghost predicate IsTally(rows: seq<Row>, m: map<string, Group>) {
    && (forall k :: k in m ==> m[k].key == k && IsGroup(rows, m[k]))
    && (forall k :: k !in m ==> Members(rows, k) == 0 && FirstText(rows, k) == None)
  }

  lemma {:induction false} TallyStep(rows: seq<Row>, r: Row, k: string)
    ensures Members(rows + [r], k) == Members(rows, k) + (if Grouped(r) && r.groupKey == k then 1 else 0)
    ensures FirstText(rows + [r], k)
         == if FirstText(rows, k).None? && Grouped(r) && r.groupKey == k then Some(r.groupText) else FirstText(rows, k)
  {
    FilterAppend(Grouped, rows, r);
    var g := Filter(Grouped, rows);
    assert (rows + [r])[..|rows|] == rows;
    assert (g + [r])[..|g|] == g;
  }

  lemma {:induction false} TallyGrows(rows: seq<Row>, r: Row, m: map<string, Group>, m': map<string, Group>)
    requires IsTally(rows, m)
    requires m' == if !Grouped(r) then m
                   else if r.groupKey in m then m[r.groupKey := m[r.groupKey].(n := m[r.groupKey].n + 1)]
                   else m[r.groupKey := Group(r.groupKey, r.groupText, 1)]
    ensures IsTally(rows + [r], m')
  {
    forall k ensures k in m' ==> m'[k].key == k && IsGroup(rows + [r], m'[k]) {
      TallyStep(rows, r, k);
    }
    forall k | k !in m' ensures Members(rows + [r], k) == 0 && FirstText(rows + [r], k) == None {
      TallyStep(rows, r, k);
    }
  }

  /** The tally's values are the groups. */
  lemma {:induction false} TallyListing(rows: seq<Row>, m: map<string, Group>, groups: seq<Group>)
    requires IsTally(rows, m) && IsListing(GroupName, GroupOrder, m, groups)
    ensures IsGrouping(rows, groups)
  {
    forall g ensures g in groups <==> IsGroup(rows, g) {
      if g.key in m {
        assert IsGroup(rows, m[g.key]);
      }
    }
  }

  method Tally(rows: seq<Row>) returns (confirmed: nat, m: map<string, Group>)
    ensures confirmed == |Filter(IsConfirmed, rows)| && IsTally(rows, m)
  {
    confirmed, m := 0, map[];
    for i := 0 to |rows|
      invariant confirmed == |Filter(IsConfirmed, rows[..i])| && IsTally(rows[..i], m)
    {
      var r := rows[i];
      FilterStep(IsConfirmed, rows, i);
      ghost var before := m;
      if IsConfirmed(r) {
        confirmed := confirmed + 1;
        if r.groupKey != "" {
          if r.groupKey in m {
            m := m[r.groupKey := m[r.groupKey].(n := m[r.groupKey].n + 1)];
          } else {
            m := m[r.groupKey := Group(r.groupKey, r.groupText, 1)];
          }
        }
      }
      TallyGrows(rows[..i], r, before, m);
      assert rows[..i + 1] == rows[..i] + [r];
    }
    assert rows[..|rows|] == rows;
  }

  lemma {:induction false} LargePrefix(gs: seq<Group>, i: nat)
    requires i < |gs|
    ensures Map(LineOf, Filter(Large, gs[..i + 1]))
         == Map(LineOf, Filter(Large, gs[..i])) + (if Large(gs[i]) then [LineOf(gs[i])] else [])
    ensures Map(LineOf, Filter(Large, gs[..i + 1])) <= Map(LineOf, Filter(Large, gs))
  {
    FilterStep(Large, gs, i);
    FilterConcat(Large, gs[..i + 1], gs[i + 1..]);
    assert gs == gs[..i + 1] + gs[i + 1..];
  }

  /** The lines of the large groups, cut after four. */
  method LargeLines(gs: seq<Group>) returns (lines: seq<SharedLine>)
    ensures var all := Map(LineOf, Filter(Large, gs));
      lines == if |all| > MAX_SHARED_LINES then all[..MAX_SHARED_LINES] + [Cut] else all
  {
    lines := [];
    for i := 0 to |gs|
      invariant lines == Map(LineOf, Filter(Large, gs[..i])) && |lines| <= MAX_SHARED_LINES
    {
      LargePrefix(gs, i);
      if gs[i].n < 2 {
        continue;
      }
      if |lines| == MAX_SHARED_LINES {
        return lines + [Cut];
      }
      lines := lines + [LineOf(gs[i])];
    }
    assert gs[..|gs|] == gs;
  }

  /** The lines of the groups of two or more, largest first, cut after four. */
  ghost predicate AreSharedLines(rows: seq<Row>, lines: seq<SharedLine>) {
    exists groups :: IsGrouping(rows, groups) && lines == LinesOf(|Filter(IsConfirmed, rows)|, groups)
  }

  method Shared(rows: seq<Row>) returns (lines: seq<SharedLine>)
    ensures AreSharedLines(rows, lines)
  {
    var confirmed, m := Tally(rows);
    var gs := ListSorted(GroupName, GroupOrder, m);
    TallyListing(rows, m, gs);
    assert IsGrouping(rows, gs);
    if confirmed < 2 {
      return [];
    }
    lines := LargeLines(gs);
    if lines == [] {
      lines := [NoneShared(confirmed)];
    }
  }

  lemma {:induction false} GroupOrderIdentifies(rows: seq<Row>, groups: seq<Group>)
    requires IsGrouping(rows, groups)
    ensures KeyIdentifies(GroupOrder, groups)
  {
    forall i, j | 0 <= i < |groups| && 0 <= j < |groups| && GroupOrder(groups[i]) == GroupOrder(groups[j])
      ensures groups[i] == groups[j]
    {
      assert GroupOrder(groups[i])[1] == GroupOrder(groups[j])[1];
      assert groups[i] in groups && groups[j] in groups;
    }
  }

  /** The shared lines do not depend on map iteration or on how ties are sorted. */
  lemma {:induction false} GroupingUnique(rows: seq<Row>, a: seq<Group>, b: seq<Group>)
    requires IsGrouping(rows, a) && IsGrouping(rows, b)
    ensures a == b
  {
    NoDupSameElements(a, b);
    GroupOrderIdentifies(rows, a);
    SortUnique(GroupOrder, a, b);
  }

  /** Larger groups first, equally large ones by key. */
  lemma {:induction false} LargestFirst(rows: seq<Row>, groups: seq<Group>, i: nat, j: nat)
    requires IsGrouping(rows, groups) && i < j < |groups|
    ensures groups[i].n > groups[j].n || (groups[i].n == groups[j].n && TextLe(groups[i].key, groups[j].key))
  {
    NumThenText(0 - groups[i].n, groups[i].key, 0 - groups[j].n, groups[j].key);
  }

  function SizeOf(g: Group): (n: int) { g.n }

  lemma {:induction false} SizesAreTotals(rows: seq<Row>, groups: seq<Group>)
    requires forall i :: 0 <= i < |groups| ==> IsGroup(rows, groups[i])
    ensures Sum(SizeOf, groups) == KeysTotal(RowGroup, One, Filter(Grouped, rows), Map(GroupName, groups))
  {
    if groups != [] {
      var n := |groups| - 1;
      SizesAreTotals(rows, groups[..n]);
      assert Map(GroupName, groups)[..n] == Map(GroupName, groups[..n]);
    }
  }

  ghost predicate FromRules(r: Row) { exists w, rs :: IsRow(w, rs, r) }

  /** Rows decided by the rules: no confirmed row is left out of the groups. */
  lemma {:induction false} GroupsCountConfirmed(rows: seq<Row>, groups: seq<Group>)
    requires IsGrouping(rows, groups)
    requires forall i :: 0 <= i < |rows| ==> FromRules(rows[i])
    ensures Sum(SizeOf, groups) == |Filter(IsConfirmed, rows)|
  {
    forall i | 0 <= i < |rows| ensures IsConfirmed(rows[i]) == Grouped(rows[i]) {
      assert FromRules(rows[i]);
      var w, rs :| IsRow(w, rs, rows[i]);
      GroupIffConfirmed(w, rs, rows[i]);
    }
    FilterSame(IsConfirmed, Grouped, rows);
    var gs, keys := Filter(Grouped, rows), Map(GroupName, groups);
    forall i | 0 <= i < |groups| ensures IsGroup(rows, groups[i]) { assert groups[i] in groups; }
    forall i, j | 0 <= i < j < |keys| ensures keys[i] != keys[j] {
      assert IsGroup(rows, groups[i]) && IsGroup(rows, groups[j]) && groups[i] != groups[j];
      assert keys[i] == groups[i].key && keys[j] == groups[j].key;
    }
    forall i | 0 <= i < |gs| ensures RowGroup(gs[i]) in keys {
      assert forall j :: 0 <= j < |gs| ==> One(gs[j]) > 0;
      GroupNotEmpty(RowGroup, One, gs, i);
      GroupListed(rows, groups, RowGroup(gs[i]));
    }
    SizesAreTotals(rows, groups);
    GroupsAddUp(RowGroup, One, gs, keys);
    SumOfOnes(One, gs);
  }

  lemma {:induction false} GroupListed(rows: seq<Row>, groups: seq<Group>, key: string)
    requires IsGrouping(rows, groups) && Members(rows, key) > 0
    ensures key in Map(GroupName, groups)
  {
    HasText(rows, key);
    var g := Group(key, FirstText(rows, key).value, Members(rows, key));
    assert g in groups;
    var i :| 0 <= i < |groups| && groups[i] == g;
    assert Map(GroupName, groups)[i] == key;
  }

  lemma {:induction false} HasText(rows: seq<Row>, key: string)
    ensures Members(rows, key) > 0 ==> FirstText(rows, key).Some?
  {
    if rows != [] {
      var n := |rows| - 1;
      HasText(rows[..n], key);
      assert rows == rows[..n] + [rows[n]];
      HasTextStep(rows[..n], rows[n], key);
    }
  }

  lemma {:induction false} HasTextStep(rows: seq<Row>, r: Row, key: string)
    requires Members(rows, key) > 0 ==> FirstText(rows, key).Some?
    ensures Members(rows + [r], key) > 0 ==> FirstText(rows + [r], key).Some?
  {
    TallyStep(rows, r, key);
    MembersNotNegative(rows, key);
  }

  lemma {:induction false} MembersNotNegative(rows: seq<Row>, key: string)
    ensures Members(rows, key) >= 0
  {
    GroupNotNegative(RowGroup, One, Filter(Grouped, rows), key);
  }
}
