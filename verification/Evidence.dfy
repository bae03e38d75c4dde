/**
 internal/investigate/gather.go and prime.go: the read-budgeted evidence
 pre-fetch of local verdict mode, and the candidate lines of its prompt.  The
 cluster may change between reads; its answers are functions of how many reads
 were made before.  Rendering and error reduction are arbitrary functions.
 */
module Evidence {
  import opened Basics
  import opened Inventory
  import opened Hypotheses

  const MAX_TOOL_CALLS: nat := 8
  const MAX_READ_BYTES: nat := 4096
  const MAX_GATHER_WORKLOADS: nat := 10
  const MAX_CANDIDATES: nat := 8
  const TRUNCATION_MARKER := "[truncated by kubeagent]"

  datatype Fetch<+T> = Got(value: T) | Failed(message: string)

  datatype Cluster = Cluster(
    events: (nat, string, string) -> Fetch<seq<Event>>,
    node: (nat, string) -> Fetch<NodeObject>,
    claim: (nat, string, string) -> Fetch<Claim>,
    logCauses: (nat, string, string, string) -> string,
    showEvents: (string, string, seq<Event>) -> string,
    showNode: NodeObject -> string,
    showClaim: Claim -> string,
    line: string -> string)

  /** One read of the cluster. */
  datatype Read =
    | EventsRead(namespace: string, name: string)
    | NodeRead(name: string)
    | ClaimRead(namespace: string, name: string)
    | LogRead(namespace: string, pod: string, container: string)

  // ---- the workloads that are judged

  /** flaggedScope: the first ten flagged workloads, in report order. */
  method FlaggedScope(ws: seq<Workload>) returns (scoped: seq<Workload>)
    ensures var all := Filter(Flagged, ws); scoped == if |all| > MAX_GATHER_WORKLOADS then all[..MAX_GATHER_WORKLOADS] else all
  {
    scoped := [];
    for i := 0 to |ws|
      invariant scoped == Filter(Flagged, ws[..i]) && |scoped| < MAX_GATHER_WORKLOADS
    {
      FilterStep(Flagged, ws, i);
      if !Flagged(ws[i]) {
        continue;
      }
      scoped := scoped + [ws[i]];
      if |scoped| == MAX_GATHER_WORKLOADS {
        FilterConcat(Flagged, ws[..i + 1], ws[i + 1..]);
        assert ws == ws[..i + 1] + ws[i + 1..];
        return;
      }
    }
    assert ws[..|ws|] == ws;
  }

  // ---- sections

  function LabelOf(r: Read): (s: string) {
    match r
    case EventsRead(ns, name) => "events " + ns + "/" + name
    case NodeRead(name) => "describe node /" + name
    case ClaimRead(ns, name) => "describe pvc " + ns + "/" + name
    case LogRead(ns, pod, container) => "log causes " + ns + "/" + pod + " container " + container
  }

  /** capContent: a long read is cut at its last full line and marked. */
  function CapContent(s: string): (r: string)
    ensures |s| <= MAX_READ_BYTES ==> r == s
    ensures |s| > MAX_READ_BYTES ==>
      exists k :: 0 < k <= MAX_READ_BYTES && r == s[..k] + "\n" + TRUNCATION_MARKER && CutsAtLine(s, k)
  {
    if |s| <= MAX_READ_BYTES then s
    else
      var i := LastIndex(s[..MAX_READ_BYTES], '\n');
      var k := if i > 0 then i else MAX_READ_BYTES;
      assert CutsAtLine(s, k);
      s[..k] + "\n" + TRUNCATION_MARKER
  }

  /** The cut is before the last newline within the cap, or the cap holds no newline past its start. */
  predicate CutsAtLine(s: string, k: int) {
    && 0 < k <= MAX_READ_BYTES < |s|
    && (forall j :: k < j < MAX_READ_BYTES ==> s[j] != '\n')
    && (if k < MAX_READ_BYTES then s[k] == '\n' else forall j :: 0 < j < MAX_READ_BYTES ==> s[j] != '\n')
  }

  function TrimNewlines(s: string): (r: string) {
    if s != "" && s[|s| - 1] == '\n' then TrimNewlines(s[..|s| - 1]) else s
  }

  function FailureText(message: string): (s: string) { "read failed: " + message }

  /** What the t-th read returned, as text. */
  function Content(c: Cluster, t: nat, r: Read): (s: string) {
    match r
    case EventsRead(ns, name) =>
      (match c.events(t, ns, name) case Got(v) => c.showEvents(ns, name, v) case Failed(m) => FailureText(m))
    case NodeRead(name) => (match c.node(t, name) case Got(v) => c.showNode(v) case Failed(m) => FailureText(m))
    case ClaimRead(ns, name) => (match c.claim(t, ns, name) case Got(v) => c.showClaim(v) case Failed(m) => FailureText(m))
    case LogRead(ns, pod, container) => c.logCauses(t, ns, pod, container)
  }

  function Section(c: Cluster, t: nat, r: Read): (s: string) {
    "== " + LabelOf(r) + " ==\n" + TrimNewlines(CapContent(Content(c, t, r))) + "\n\n"
  }

  /** A cluster as the cache sees it: answers, and the section each read renders to. */
  datatype Feed = Feed(
    events: (nat, string, string) -> Fetch<seq<Event>>,
    node: (nat, string) -> Fetch<NodeObject>,
    claim: (nat, string, string) -> Fetch<Claim>,
    line: string -> string,
    section: (nat, Read) -> string)

  function FeedOf(c: Cluster): (f: Feed) {
    Feed(c.events, c.node, c.claim, c.line, (t: nat, r: Read) => Section(c, t, r))
  }

  // ---- the cache

  datatype Gathered = Gathered(trail: seq<string>, spent: nat, rs: Reads, described: map<ReadKey, string>,
                               seenLog: set<string>)

  predicate IsDescribe(r: Read) { r.NodeRead? || r.ClaimRead? }

  /** The cache key of a describe. */
  function DescribeKey(r: Read): (k: ReadKey)
    requires IsDescribe(r)
  {
    match r case NodeRead(name) => NodeKey(name) case ClaimRead(ns, name) => ClaimKey(NamedKey(ns, name))
  }

  function LogKey(namespace: string, pod: string, container: string): (k: string) {
    namespace + "/" + pod + "/" + container
  }

  function LogKeyOf(r: Read): (k: string)
    requires r.LogRead?
  {
    LogKey(r.namespace, r.pod, r.container)
  }

  predicate Describes(r: Read, k: ReadKey) { IsDescribe(r) && DescribeKey(r) == k }

  predicate Classifies(r: Read, k: string) { r.LogRead? && LogKeyOf(r) == k }

  /** The t-th read left its result in the cache, and nothing contradicts it. */
  predicate Kept(c: Feed, g: Gathered, t: nat, r: Read) {
    match r
    case EventsRead(ns, name) =>
      (match c.events(t, ns, name)
       case Got(_) => NamedKey(ns, name) in g.rs.events
       case Failed(_) => EventsKey(NamedKey(ns, name)) in g.rs.failed)
    case NodeRead(name) =>
      && NodeKey(name) in g.described && g.described[NodeKey(name)] == c.section(t, r)
      && (match c.node(t, name)
          case Got(v) => name in g.rs.nodes && g.rs.nodes[name] == v && NodeKey(name) !in g.rs.failed
          case Failed(m) => name !in g.rs.nodes && NodeKey(name) in g.rs.failed && g.rs.failed[NodeKey(name)] == c.line(m))
    case ClaimRead(ns, name) =>
      var p := NamedKey(ns, name);
      && ClaimKey(p) in g.described && g.described[ClaimKey(p)] == c.section(t, r)
      && (match c.claim(t, ns, name)
          case Got(v) => p in g.rs.pvcs && g.rs.pvcs[p] == v && ClaimKey(p) !in g.rs.failed
          case Failed(m) => p !in g.rs.pvcs && ClaimKey(p) in g.rs.failed && g.rs.failed[ClaimKey(p)] == c.line(m))
    case LogRead(ns, pod, container) => LogKey(ns, pod, container) in g.seenLog
  }

  ghost predicate WasDescribed(log: seq<Read>, k: ReadKey) { exists t :: 0 <= t < |log| && Describes(log[t], k) }

  ghost predicate WasClassified(log: seq<Read>, k: string) { exists t :: 0 <= t < |log| && Classifies(log[t], k) }

  /** The t-th read listed these events. */
  ghost predicate ListedAt(c: Feed, log: seq<Read>, t: int, path: string, answer: Fetch<seq<Event>>) {
    && 0 <= t < |log| && log[t].EventsRead? && NamedKey(log[t].namespace, log[t].name) == path
    && c.events(t, log[t].namespace, log[t].name) == answer
  }

  /** The t-th read listed some events of this path. */
  ghost predicate GotAt(c: Feed, log: seq<Read>, t: int, path: string) {
    && 0 <= t < |log| && log[t].EventsRead? && NamedKey(log[t].namespace, log[t].name) == path
    && c.events(t, log[t].namespace, log[t].name).Got?
  }

  /** The latest successful listing of this path. */
  ghost predicate LatestAt(c: Feed, log: seq<Read>, t: int, path: string, evs: seq<Event>) {
    ListedAt(c, log, t, path, Got(evs)) && forall i :: t < i < |log| ==> !GotAt(c, log, i, path)
  }

  ghost predicate EventsFrom(c: Feed, log: seq<Read>, path: string, evs: seq<Event>) {
    exists t :: LatestAt(c, log, t, path, evs)
  }

  /** Every object and every failed object read was described. */
  ghost predicate SourcedObjects(log: seq<Read>, g: Gathered) {
    && (forall k :: k in g.described ==> WasDescribed(log, k))
    && (forall n :: n in g.rs.nodes ==> NodeKey(n) in g.described)
    && (forall p :: p in g.rs.pvcs ==> ClaimKey(p) in g.described)
    && (forall k :: k in g.rs.failed && !k.EventsKey? ==> k in g.described)
  }

  ghost predicate SourcedEvents(c: Feed, log: seq<Read>, g: Gathered) {
    forall p :: p in g.rs.events ==> EventsFrom(c, log, p, g.rs.events[p])
  }

  ghost predicate SourcedLogs(log: seq<Read>, g: Gathered) {
    forall s :: s in g.seenLog ==> WasClassified(log, s)
  }

  /** Everything in the cache comes from a read of the log. */
  ghost predicate Sourced(c: Feed, log: seq<Read>, g: Gathered) {
    SourcedObjects(log, g) && SourcedEvents(c, log, g) && SourcedLogs(log, g)
  }

  ghost predicate AllKept(c: Feed, log: seq<Read>, g: Gathered) {
    forall t {:trigger Kept(c, g, t, log[t])} :: 0 <= t < |log| ==> Kept(c, g, t, log[t])
  }

  predicate Differ(a: Read, b: Read) {
    && (IsDescribe(a) && IsDescribe(b) ==> DescribeKey(a) != DescribeKey(b))
    && (a.LogRead? && b.LogRead? ==> LogKeyOf(a) != LogKeyOf(b))
  }

  /** No object is fetched twice and no container's log is classified twice. */
  ghost predicate NoRepeats(log: seq<Read>) {
    forall s, t {:trigger Differ(log[s], log[t])} :: 0 <= s < t < |log| ==> Differ(log[s], log[t])
  }

  /** The cache is exact: it holds what the log's reads returned and nothing else. */
  ghost predicate Exact(c: Feed, log: seq<Read>, g: Gathered) {
    && g.trail == Map(LabelOf, log) && g.spent == |log| <= MAX_TOOL_CALLS
    && AllKept(c, log, g) && Sourced(c, log, g) && NoRepeats(log)
  }

  // ---- one read

  function Recorded(g: Gathered, r: Read): (g': Gathered) { g.(trail := g.trail + [LabelOf(r)], spent := g.spent + 1) }

  function AfterEvents(c: Feed, g: Gathered, ns: string, name: string): (g': Gathered) {
    var g1 := Recorded(g, EventsRead(ns, name));
    match c.events(g.spent, ns, name)
    case Got(v) => g1.(rs := g.rs.(events := g.rs.events[NamedKey(ns, name) := v]))
    case Failed(m) => g1.(rs := g.rs.(failed := g.rs.failed[EventsKey(NamedKey(ns, name)) := c.line(m)]))
  }

  function AfterNode(c: Feed, g: Gathered, name: string): (g': Gathered) {
    var r := NodeRead(name);
    var g1 := Recorded(g, r).(described := g.described[NodeKey(name) := c.section(g.spent, r)]);
    match c.node(g.spent, name)
    case Got(v) => g1.(rs := g.rs.(nodes := g.rs.nodes[name := v]))
    case Failed(m) => g1.(rs := g.rs.(failed := g.rs.failed[NodeKey(name) := c.line(m)]))
  }

  function AfterClaim(c: Feed, g: Gathered, ns: string, name: string): (g': Gathered) {
    var r, p := ClaimRead(ns, name), NamedKey(ns, name);
    var g1 := Recorded(g, r).(described := g.described[ClaimKey(p) := c.section(g.spent, r)]);
    match c.claim(g.spent, ns, name)
    case Got(v) => g1.(rs := g.rs.(pvcs := g.rs.pvcs[p := v]))
    case Failed(m) => g1.(rs := g.rs.(failed := g.rs.failed[ClaimKey(p) := c.line(m)]))
  }

  function AfterLog(g: Gathered, ns: string, pod: string, container: string): (g': Gathered) {
    Recorded(g, LogRead(ns, pod, container)).(seenLog := g.seenLog + {LogKey(ns, pod, container)})
  }

  function After(c: Feed, g: Gathered, r: Read): (g': Gathered) {
    match r
    case EventsRead(ns, name) => AfterEvents(c, g, ns, name)
    case NodeRead(name) => AfterNode(c, g, name)
    case ClaimRead(ns, name) => AfterClaim(c, g, ns, name)
    case LogRead(ns, pod, container) => AfterLog(g, ns, pod, container)
  }

  /** The cache answers no such read yet. */
  predicate NotCached(g: Gathered, r: Read) {
    && (IsDescribe(r) ==> DescribeKey(r) !in g.described)
    && (r.LogRead? ==> LogKeyOf(r) !in g.seenLog)
  }

  /** Nothing an earlier read left is overwritten by a node read of another key. */
  lemma {:induction false} NodeKeeps(c: Feed, g: Gathered, name: string, t: nat, earlier: Read)
    requires Kept(c, g, t, earlier) && NodeKey(name) !in g.described
    ensures Kept(c, AfterNode(c, g, name), t, earlier)
  {
    assert AfterNode(c, g, name).rs.pvcs == g.rs.pvcs && AfterNode(c, g, name).rs.events == g.rs.events;
  }

  /** Nor by a claim read. */
  lemma {:induction false} ClaimKeeps(c: Feed, g: Gathered, ns: string, name: string, t: nat, earlier: Read)
    requires Kept(c, g, t, earlier) && ClaimKey(NamedKey(ns, name)) !in g.described
    ensures Kept(c, AfterClaim(c, g, ns, name), t, earlier)
  {
    assert AfterClaim(c, g, ns, name).rs.nodes == g.rs.nodes && AfterClaim(c, g, ns, name).rs.events == g.rs.events;
  }

  lemma {:induction false} StillKept(c: Feed, g: Gathered, r: Read, t: nat, earlier: Read)
    requires Kept(c, g, t, earlier) && NotCached(g, r)
    ensures Kept(c, After(c, g, r), t, earlier)
  {
    var g' := After(c, g, r);
    if r.NodeRead? {
      NodeKeeps(c, g, r.name, t, earlier);
    } else if r.ClaimRead? {
      ClaimKeeps(c, g, r.namespace, r.name, t, earlier);
    } else {
      assert g'.described == g.described && g'.rs.nodes == g.rs.nodes && g'.rs.pvcs == g.rs.pvcs;
    }
  }

  lemma {:induction false} KeptAfter(c: Feed, log: seq<Read>, g: Gathered, r: Read)
    requires Exact(c, log, g) && NotCached(g, r)
    ensures AllKept(c, log + [r], After(c, g, r))
  {
    forall t | 0 <= t < |log + [r]| ensures Kept(c, After(c, g, r), t, (log + [r])[t]) {
      if t < |log| {
        StillKept(c, g, r, t, log[t]);
      } else {
        NewIsKept(c, log, g, r);
      }
    }
  }

  lemma {:induction false} NewIsKept(c: Feed, log: seq<Read>, g: Gathered, r: Read)
    requires Exact(c, log, g) && NotCached(g, r)
    ensures Kept(c, After(c, g, r), |log|, r)
  {
  }

  lemma {:induction false} StillSourced(c: Feed, log: seq<Read>, r: Read)
    ensures forall k :: WasDescribed(log, k) ==> WasDescribed(log + [r], k)
    ensures forall k :: WasClassified(log, k) ==> WasClassified(log + [r], k)
    ensures IsDescribe(r) ==> WasDescribed(log + [r], DescribeKey(r))
    ensures r.LogRead? ==> WasClassified(log + [r], LogKeyOf(r))
  {
    var log' := log + [r];
    assert log'[|log|] == r;
    forall k | WasDescribed(log, k) ensures WasDescribed(log', k) {
      var t :| 0 <= t < |log| && Describes(log[t], k);
      assert log'[t] == log[t];
    }
    forall k | WasClassified(log, k) ensures WasClassified(log', k) {
      var t :| 0 <= t < |log| && Classifies(log[t], k);
      assert log'[t] == log[t];
    }
  }

  /** A successful listing is the latest of its path; the others stay the latest of theirs. */
  lemma {:induction false} StillListed(c: Feed, log: seq<Read>, r: Read, path: string, evs: seq<Event>)
    ensures var listed := r.EventsRead? && NamedKey(r.namespace, r.name) == path && c.events(|log|, r.namespace, r.name).Got?;
      (if listed then c.events(|log|, r.namespace, r.name) == Got(evs) else EventsFrom(c, log, path, evs))
      ==> EventsFrom(c, log + [r], path, evs)
  {
    var log' := log + [r];
    assert log'[|log|] == r;
    if r.EventsRead? && NamedKey(r.namespace, r.name) == path && c.events(|log|, r.namespace, r.name).Got? {
      if c.events(|log|, r.namespace, r.name) == Got(evs) {
        assert LatestAt(c, log', |log|, path, evs);
      }
    } else if EventsFrom(c, log, path, evs) {
      var t :| LatestAt(c, log, t, path, evs);
      assert LatestAt(c, log', t, path, evs) by {
        forall i | t < i < |log'| ensures !GotAt(c, log', i, path) {
          assert i < |log| ==> !GotAt(c, log, i, path) && log'[i] == log[i];
        }
      }
    }
  }

  lemma {:induction false} ObjectsAfter(c: Feed, log: seq<Read>, g: Gathered, r: Read)
    requires SourcedObjects(log, g)
    ensures SourcedObjects(log + [r], After(c, g, r))
  {
    StillSourced(c, log, r);
  }

  lemma {:induction false} EventsAfter(c: Feed, log: seq<Read>, g: Gathered, r: Read)
    requires SourcedEvents(c, log, g) && g.spent == |log|
    ensures SourcedEvents(c, log + [r], After(c, g, r))
  {
    var g' := After(c, g, r);
    forall p | p in g'.rs.events ensures EventsFrom(c, log + [r], p, g'.rs.events[p]) {
      StillListed(c, log, r, p, g'.rs.events[p]);
    }
  }

  lemma {:induction false} LogsAfter(c: Feed, log: seq<Read>, g: Gathered, r: Read)
    requires SourcedLogs(log, g)
    ensures SourcedLogs(log + [r], After(c, g, r))
  {
    StillSourced(c, log, r);
  }

  lemma {:induction false} NoRepeatsAfter(c: Feed, log: seq<Read>, g: Gathered, r: Read)
    requires AllKept(c, log, g) && NoRepeats(log) && NotCached(g, r)
    ensures NoRepeats(log + [r])
  {
    var log' := log + [r];
    forall s, t | 0 <= s < t < |log'| ensures Differ(log'[s], log'[t]) {
      if t < |log| {
        assert Differ(log[s], log[t]);
      } else {
        assert Kept(c, g, s, log[s]);
      }
    }
  }

  /** A read that the cache cannot answer keeps the cache exact. */
  lemma {:induction false} ReadKeepsExact(c: Feed, log: seq<Read>, g: Gathered, r: Read)
    requires Exact(c, log, g) && NotCached(g, r) && g.spent < MAX_TOOL_CALLS
    ensures Exact(c, log + [r], After(c, g, r))
  {
    KeptAfter(c, log, g, r);
    ObjectsAfter(c, log, g, r);
    EventsAfter(c, log, g, r);
    LogsAfter(c, log, g, r);
    NoRepeatsAfter(c, log, g, r);
    assert Map(LabelOf, log + [r]) == Map(LabelOf, log) + [LabelOf(r)];
  }

  // ---- what a workload asks for

  /** A candidate with an object to read. */
  predicate Needs(h: Hypothesis) { !h.ruledOut && h.subject != "" && (h.kind == "node" || h.kind == "pvc") }

  function CandidateRead(w: Workload, h: Hypothesis): (r: Read)
    requires Needs(h)
    ensures IsDescribe(r)
  {
    if h.kind == "node" then NodeRead(h.subject) else ClaimRead(w.namespace, h.subject)
  }

  predicate CrashFamily(issue: string) { issue in {"CrashLoopBackOff", "ContainerStartError", "OOMKilled"} }

  /** A finding with a previous log to classify. */
  predicate Crashed(f: PodFinding) { CrashFamily(f.issue) && f.container != "" && PodPart(f.pod) != "" }

  function CrashRead(w: Workload, f: PodFinding): (r: Read) { LogRead(w.namespace, PodPart(f.pod), f.container) }

  ghost predicate ForEvents(w: Workload, r: Read) { r == EventsRead(w.namespace, EventsPod(w)) }

  /** A read of the object of one of the workload's open candidates. */
  ghost predicate ForCandidate(w: Workload, r: Read) {
    IsDescribe(r) && exists h :: h in w.trace && Needs(h) && DescribeKey(r) == DescribeKey(CandidateRead(w, h))
  }

  ghost predicate ForCrash(w: Workload, r: Read) {
    exists f :: f in w.findings && Crashed(f) && r == CrashRead(w, f)
  }

  ghost predicate Relevant(w: Workload, r: Read) { ForEvents(w, r) || ForCandidate(w, r) || ForCrash(w, r) }

  // ---- a workload's share of the evidence

  /** One section of a workload's evidence: which read it shows. */
  datatype Entry = Entry(at: nat, what: Read)

  function Join(c: Feed, part: seq<Entry>): (text: string) {
    if part == [] then ""
    else Join(c, part[..|part| - 1]) + c.section(part[|part| - 1].at, part[|part| - 1].what)
  }

  ghost predicate Shown(part: seq<Entry>, k: ReadKey) {
    exists i :: 0 <= i < |part| && Describes(part[i].what, k)
  }

  /** A workload's own reads stay in its namespace; nodes have none. */
  predicate InNamespace(w: Workload, r: Read) { r.NodeRead? || r.namespace == w.namespace }

  /** An entry shows a read of the log that the workload has a use for; an earlier workload's only if it is a describe. */
  ghost predicate EntryOk(w: Workload, log: seq<Read>, lo: nat, e: Entry) {
    && e.at < |log| && log[e.at] == e.what && Relevant(w, e.what)
    && (if e.at < lo then IsDescribe(e.what) else InNamespace(w, e.what))
  }

  ghost predicate AtMostOnce(part: seq<Entry>) {
    forall i, j :: 0 <= i < j < |part| ==> part[i].at != part[j].at
  }

  /** The sections of a workload whose own reads start at `lo`: each once, and its own reads all among them. */
  ghost predicate Collected(w: Workload, log: seq<Read>, lo: nat, part: seq<Entry>) {
    && lo <= |log| && AtMostOnce(part)
    && (forall i :: 0 <= i < |part| ==> EntryOk(w, log, lo, part[i]))
    && (forall t :: lo <= t < |log| ==> Entry(t, log[t]) in part)
  }

  lemma {:induction false} CollectNew(w: Workload, log: seq<Read>, lo: nat, part: seq<Entry>, r: Read)
    requires Collected(w, log, lo, part) && Relevant(w, r) && InNamespace(w, r)
    ensures Collected(w, log + [r], lo, part + [Entry(|log|, r)])
  {
    var log', part' := log + [r], part + [Entry(|log|, r)];
    forall i | 0 <= i < |part'| ensures EntryOk(w, log', lo, part'[i]) {
      assert i < |part| ==> part'[i] == part[i] && EntryOk(w, log, lo, part[i]);
    }
    forall t | lo <= t < |log'| ensures Entry(t, log'[t]) in part' {
      assert t < |log| ==> Entry(t, log[t]) in part;
      assert part'[|part|] == Entry(|log|, r);
    }
    assert forall i :: 0 <= i < |part| ==> EntryOk(w, log, lo, part[i]);
  }

  lemma {:induction false} CollectOld(w: Workload, log: seq<Read>, lo: nat, part: seq<Entry>, t: nat, k: ReadKey)
    requires Collected(w, log, lo, part) && t < |log| && Describes(log[t], k) && ForCandidate(w, log[t]) && !Shown(part, k)
    ensures Collected(w, log, lo, part + [Entry(t, log[t])])
  {
    var part' := part + [Entry(t, log[t])];
    forall i | 0 <= i < |part| ensures part[i].at != t {
      assert EntryOk(w, log, lo, part[i]);
    }
    forall i | 0 <= i < |part'| ensures EntryOk(w, log, lo, part'[i]) {
      assert i < |part| ==> part'[i] == part[i] && EntryOk(w, log, lo, part[i]);
      assert Relevant(w, log[t]);
      assert t < lo ==> IsDescribe(log[t]);
      assert lo <= t ==> Entry(t, log[t]) in part;
    }
    forall s | lo <= s < |log| ensures Entry(s, log[s]) in part' {
      assert Entry(s, log[s]) in part;
    }
  }

  lemma {:induction false} JoinAppend(c: Feed, part: seq<Entry>, e: Entry)
    ensures Join(c, part + [e]) == Join(c, part) + c.section(e.at, e.what)
  {
    assert (part + [e])[..|part|] == part;
  }

  lemma {:induction false} ShownAppend(part: seq<Entry>, e: Entry, k: ReadKey)
    ensures Shown(part + [e], k) <==> Shown(part, k) || Describes(e.what, k)
  {
    var part' := part + [e];
    assert part'[|part|] == e;
    if Shown(part, k) {
      var i :| 0 <= i < |part| && Describes(part[i].what, k);
      assert part'[i] == part[i];
    }
  }

  /** An open candidate's section is shown, unless the budget was spent before its object was ever read. */
  ghost predicate Answered(w: Workload, log: seq<Read>, part: seq<Entry>, h: Hypothesis) {
    Needs(h) ==>
      var k := DescribeKey(CandidateRead(w, h));
      Shown(part, k) || (|log| == MAX_TOOL_CALLS && !WasDescribed(log, k))
  }

  /** A crash finding's log was classified, unless the budget is spent. */
  ghost predicate Explained(w: Workload, log: seq<Read>, f: PodFinding) {
    Crashed(f) ==> WasClassified(log, LogKeyOf(CrashRead(w, f))) || |log| == MAX_TOOL_CALLS
  }

  /** Everything a workload gets out of the gather, its own reads being those of the log from `lo` on. */
  ghost predicate Served(w: Workload, log: seq<Read>, lo: nat, part: seq<Entry>) {
    && Collected(w, log, lo, part)
    && (lo < MAX_TOOL_CALLS ==> lo < |log| && log[lo] == EventsRead(w.namespace, EventsPod(w)))
    && (forall i :: 0 <= i < |w.trace| ==> Answered(w, log, part, w.trace[i]))
    && (forall i :: 0 <= i < |w.findings| ==> Explained(w, log, w.findings[i]))
  }

  // ---- the candidates of one workload

  ghost predicate IsOwn(part: seq<Entry>, own: set<ReadKey>) { forall k :: k in own <==> Shown(part, k) }

  ghost predicate CandidatesAt(c: Feed, w: Workload, start: seq<Read>, lo: nat, i: nat, log: seq<Read>, g: Gathered,
                               text: string, own: set<ReadKey>, part: seq<Entry>)
  {
    && Exact(c, log, g) && start <= log && Collected(w, log, lo, part) && text == Join(c, part) && IsOwn(part, own)
    && i <= |w.trace| && forall j :: 0 <= j < i ==> Answered(w, log, part, w.trace[j])
  }

  /** A candidate that needs nothing, is shown already, or comes after the budget is spent. */
  lemma {:induction false} CandidateSkipped(c: Feed, w: Workload, start: seq<Read>, lo: nat, i: nat, log: seq<Read>,
                                            g: Gathered, text: string, own: set<ReadKey>, part: seq<Entry>)
    requires CandidatesAt(c, w, start, lo, i, log, g, text, own, part) && i < |w.trace|
    requires var h := w.trace[i];
      Needs(h) ==>
        var k := DescribeKey(CandidateRead(w, h));
        k in own || (k !in g.described && g.spent >= MAX_TOOL_CALLS)
    ensures CandidatesAt(c, w, start, lo, i + 1, log, g, text, own, part)
  {
    var h := w.trace[i];
    if Needs(h) {
      NotDescribed(c, log, g, DescribeKey(CandidateRead(w, h)));
    }
    assert Answered(w, log, part, h);
  }

  lemma {:induction false} NotDescribed(c: Feed, log: seq<Read>, g: Gathered, k: ReadKey)
    requires Exact(c, log, g)
    ensures WasDescribed(log, k) <==> k in g.described
  {
    if WasDescribed(log, k) {
      var t :| 0 <= t < |log| && Describes(log[t], k);
      assert Kept(c, g, t, log[t]);
    }
  }

  lemma {:induction false} StillAnswered(w: Workload, log: seq<Read>, part: seq<Entry>, e: Entry, h: Hypothesis)
    requires Answered(w, log, part, h)
    ensures Answered(w, log, part + [e], h)
    ensures |log| < MAX_TOOL_CALLS ==> forall r :: Answered(w, log + [r], part + [e], h)
  {
    if Needs(h) {
      ShownAppend(part, e, DescribeKey(CandidateRead(w, h)));
    }
  }

  /** The cached section of an object that an earlier candidate read. */
  lemma {:induction false} CachedSection(c: Feed, log: seq<Read>, g: Gathered, k: ReadKey) returns (t: nat)
    requires Exact(c, log, g) && k in g.described
    ensures t < |log| && Describes(log[t], k) && g.described[k] == c.section(t, log[t])
  {
    assert WasDescribed(log, k);
    t :| 0 <= t < |log| && Describes(log[t], k);
    assert Kept(c, g, t, log[t]);
  }

  lemma {:induction false} OwnGrows(part: seq<Entry>, own: set<ReadKey>, e: Entry)
    requires IsOwn(part, own) && IsDescribe(e.what)
    ensures IsOwn(part + [e], own + {DescribeKey(e.what)})
  {
    forall k ensures k in own + {DescribeKey(e.what)} <==> Shown(part + [e], k) {
      ShownAppend(part, e, k);
    }
  }

  /** A candidate whose object was described before gets a copy of that very section. */
  lemma {:induction false} CandidateReused(c: Feed, w: Workload, start: seq<Read>, lo: nat, i: nat, log: seq<Read>,
                                           g: Gathered, text: string, own: set<ReadKey>, part: seq<Entry>)
    returns (e: Entry)
    requires CandidatesAt(c, w, start, lo, i, log, g, text, own, part) && i < |w.trace| && Needs(w.trace[i])
    requires var k := DescribeKey(CandidateRead(w, w.trace[i])); k !in own && k in g.described
    ensures var k := DescribeKey(CandidateRead(w, w.trace[i]));
      CandidatesAt(c, w, start, lo, i + 1, log, g, text + g.described[k], own + {k}, part + [e])
  {
    var h := w.trace[i];
    var k := DescribeKey(CandidateRead(w, h));
    var t := CachedSection(c, log, g, k);
    e := Entry(t, log[t]);
    assert h in w.trace && ForCandidate(w, log[t]);
    CollectOld(w, log, lo, part, t, k);
    JoinAppend(c, part, e);
    OwnGrows(part, own, e);
    AnswersReused(w, i, log, part, e);
  }

  lemma {:induction false} AnswersReused(w: Workload, i: nat, log: seq<Read>, part: seq<Entry>, e: Entry)
    requires i < |w.trace| && Needs(w.trace[i]) && Describes(e.what, DescribeKey(CandidateRead(w, w.trace[i])))
    requires forall j :: 0 <= j < i ==> Answered(w, log, part, w.trace[j])
    ensures forall j :: 0 <= j < i + 1 ==> Answered(w, log, part + [e], w.trace[j])
  {
    forall j | 0 <= j < i + 1 ensures Answered(w, log, part + [e], w.trace[j]) {
      if j < i {
        StillAnswered(w, log, part, e, w.trace[j]);
      }
      ShownAppend(part, e, DescribeKey(CandidateRead(w, w.trace[i])));
    }
  }

  lemma {:induction false} AnswersFetched(w: Workload, i: nat, log: seq<Read>, part: seq<Entry>, r: Read, e: Entry)
    requires i < |w.trace| && Needs(w.trace[i]) && r == CandidateRead(w, w.trace[i]) && e.what == r
    requires |log| < MAX_TOOL_CALLS && forall j :: 0 <= j < i ==> Answered(w, log, part, w.trace[j])
    ensures forall j :: 0 <= j < i + 1 ==> Answered(w, log + [r], part + [e], w.trace[j])
  {
    forall j | 0 <= j < i + 1 ensures Answered(w, log + [r], part + [e], w.trace[j]) {
      if j < i {
        StillAnswered(w, log, part, e, w.trace[j]);
      }
      ShownAppend(part, e, DescribeKey(r));
    }
  }

  /** A candidate whose object is read now. */
  lemma {:induction false} CandidateFetched(c: Feed, w: Workload, start: seq<Read>, lo: nat, i: nat, log: seq<Read>,
                                            g: Gathered, text: string, own: set<ReadKey>, part: seq<Entry>, r: Read, g': Gathered)
    requires CandidatesAt(c, w, start, lo, i, log, g, text, own, part) && i < |w.trace| && Needs(w.trace[i])
    requires r == CandidateRead(w, w.trace[i]) && |log| < MAX_TOOL_CALLS && Exact(c, log + [r], g')
    ensures CandidatesAt(c, w, start, lo, i + 1, log + [r], g', text + c.section(|log|, r),
                         own + {DescribeKey(r)}, part + [Entry(|log|, r)])
  {
    var h, e := w.trace[i], Entry(|log|, r);
    assert h in w.trace && ForCandidate(w, r);
    CollectNew(w, log, lo, part, r);
    JoinAppend(c, part, e);
    OwnGrows(part, own, e);
    AnswersFetched(w, i, log, part, r, e);
  }

  method DescribeCandidates(c: Feed, w: Workload, g0: Gathered, text0: string, ghost lo: nat, ghost log0: seq<Read>,
                            ghost part0: seq<Entry>)
    returns (g: Gathered, text: string, ghost log: seq<Read>, ghost part: seq<Entry>)
    requires Exact(c, log0, g0) && Collected(w, log0, lo, part0) && text0 == Join(c, part0)
    requires forall k :: !Shown(part0, k)
    ensures Exact(c, log, g) && log0 <= log && Collected(w, log, lo, part) && text == Join(c, part)
    ensures forall i :: 0 <= i < |w.trace| ==> Answered(w, log, part, w.trace[i])
  {
    g, text, log, part := g0, text0, log0, part0;
    var own: set<ReadKey> := {};
    for i := 0 to |w.trace|
      invariant CandidatesAt(c, w, log0, lo, i, log, g, text, own, part)
    {
      var h := w.trace[i];
      if h.ruledOut || h.subject == "" || (h.kind != "node" && h.kind != "pvc") {
        CandidateSkipped(c, w, log0, lo, i, log, g, text, own, part);
        continue;
      }
      var r := CandidateRead(w, h);
      var key := DescribeKey(r);
      if key in own {
        CandidateSkipped(c, w, log0, lo, i, log, g, text, own, part);
        continue;
      }
      if key in g.described {
        ghost var e := CandidateReused(c, w, log0, lo, i, log, g, text, own, part);
        own, text, part := own + {key}, text + g.described[key], part + [e];
        continue;
      }
      if g.spent >= MAX_TOOL_CALLS {
        CandidateSkipped(c, w, log0, lo, i, log, g, text, own, part);
        continue;
      }
      ReadKeepsExact(c, log, g, r);
      CandidateFetched(c, w, log0, lo, i, log, g, text, own, part, r, After(c, g, r));
      own, text, part := own + {key}, text + c.section(g.spent, r), part + [Entry(g.spent, r)];
      g, log := After(c, g, r), log + [r];
    }
  }

  // ---- the crash logs of one workload

  ghost predicate LogsAt(c: Feed, w: Workload, start: seq<Read>, startPart: seq<Entry>, lo: nat, i: nat, log: seq<Read>,
                         g: Gathered, text: string, part: seq<Entry>)
  {
    && Exact(c, log, g) && start <= log && startPart <= part && Collected(w, log, lo, part) && text == Join(c, part)
    && (|start| == MAX_TOOL_CALLS ==> log == start)
    && (forall t :: |start| <= t < |log| ==> log[t].LogRead?)
    && i <= |w.findings| && forall j :: 0 <= j < i ==> Explained(w, log, w.findings[j])
  }

  lemma {:induction false} LogClassified(c: Feed, w: Workload, start: seq<Read>, startPart: seq<Entry>, lo: nat, i: nat,
                                         log: seq<Read>, g: Gathered, text: string, part: seq<Entry>, r: Read, g': Gathered)
    requires LogsAt(c, w, start, startPart, lo, i, log, g, text, part) && i < |w.findings| && Crashed(w.findings[i])
    requires r == CrashRead(w, w.findings[i]) && |log| < MAX_TOOL_CALLS && Exact(c, log + [r], g')
    ensures LogsAt(c, w, start, startPart, lo, i + 1, log + [r], g', text + c.section(|log|, r), part + [Entry(|log|, r)])
  {
    assert w.findings[i] in w.findings && ForCrash(w, r);
    CollectNew(w, log, lo, part, r);
    JoinAppend(c, part, Entry(|log|, r));
    ExplainedAfter(c, w, i, log, r);
  }

  lemma {:induction false} ExplainedAfter(c: Feed, w: Workload, i: nat, log: seq<Read>, r: Read)
    requires i < |w.findings| && r == CrashRead(w, w.findings[i])
    requires forall j :: 0 <= j < i ==> Explained(w, log, w.findings[j])
    requires |log| < MAX_TOOL_CALLS
    ensures forall j :: 0 <= j < i + 1 ==> Explained(w, log + [r], w.findings[j])
  {
    StillSourced(c, log, r);
    forall j | 0 <= j < i + 1 ensures Explained(w, log + [r], w.findings[j]) {
      assert j < i ==> Explained(w, log, w.findings[j]);
    }
  }

  /** A finding that is no crash, or whose log was classified before. */
  lemma {:induction false} LogSkipped(c: Feed, w: Workload, start: seq<Read>, startPart: seq<Entry>, lo: nat, i: nat,
                                      log: seq<Read>, g: Gathered, text: string, part: seq<Entry>)
    requires LogsAt(c, w, start, startPart, lo, i, log, g, text, part) && i < |w.findings|
    requires Crashed(w.findings[i]) ==> LogKeyOf(CrashRead(w, w.findings[i])) in g.seenLog
    ensures LogsAt(c, w, start, startPart, lo, i + 1, log, g, text, part)
  {
    assert Explained(w, log, w.findings[i]);
  }

  method ClassifyLogs(c: Feed, w: Workload, g0: Gathered, text0: string, ghost lo: nat, ghost log0: seq<Read>,
                      ghost part0: seq<Entry>)
    returns (g: Gathered, text: string, ghost log: seq<Read>, ghost part: seq<Entry>)
    requires Exact(c, log0, g0) && Collected(w, log0, lo, part0) && text0 == Join(c, part0)
    ensures LogsAt(c, w, log0, part0, lo, 0, log, g, text, part)
    ensures forall i :: 0 <= i < |w.findings| ==> Explained(w, log, w.findings[i])
  {
    g, text, log, part := g0, text0, log0, part0;
    for i := 0 to |w.findings|
      invariant LogsAt(c, w, log0, part0, lo, i, log, g, text, part)
    {
      if g.spent >= MAX_TOOL_CALLS {
        return;
      }
      var f := w.findings[i];
      if !CrashFamily(f.issue) || f.container == "" || PodPart(f.pod) == "" {
        LogSkipped(c, w, log0, part0, lo, i, log, g, text, part);
        continue;
      }
      var r := CrashRead(w, f);
      if LogKeyOf(r) in g.seenLog {
        LogSkipped(c, w, log0, part0, lo, i, log, g, text, part);
        continue;
      }
      ReadKeepsExact(c, log, g, r);
      LogClassified(c, w, log0, part0, lo, i, log, g, text, part, r, After(c, g, r));
      text, part := text + c.section(g.spent, r), part + [Entry(g.spent, r)];
      g, log := After(c, g, r), log + [r];
    }
  }

  // ---- the whole gather

  lemma {:induction false} AnsweredStays(w: Workload, log: seq<Read>, part: seq<Entry>, log': seq<Read>, part': seq<Entry>,
                                         h: Hypothesis)
    requires Answered(w, log, part, h) && part <= part' && (|log| == MAX_TOOL_CALLS ==> log' == log)
    ensures Answered(w, log', part', h)
  {
    if Needs(h) {
      var k := DescribeKey(CandidateRead(w, h));
      if Shown(part, k) {
        var i :| 0 <= i < |part| && Describes(part[i].what, k);
        assert part'[i] == part[i];
      }
    }
  }

  lemma {:induction false} FirstSection(c: Feed, w: Workload, log: seq<Read>, r: Read)
    requires ForEvents(w, r)
    ensures var part := [Entry(|log|, r)];
      Collected(w, log + [r], |log|, part) && Join(c, part) == c.section(|log|, r) && forall k :: !Shown(part, k)
  {
    var part := [Entry(|log|, r)];
    assert part[..0] == [];
    assert EntryOk(w, log + [r], |log|, part[0]);
    assert (log + [r])[|log|] == r && part[0] in part;
  }

  /** The events of the first finding's pod, or of the workload, while the budget lasts. */
  method ReadEvents(c: Feed, w: Workload, g0: Gathered, ghost log0: seq<Read>)
    returns (g: Gathered, text: string, ghost log: seq<Read>, ghost part: seq<Entry>)
    requires Exact(c, log0, g0)
    ensures Exact(c, log, g) && Collected(w, log, |log0|, part) && text == Join(c, part)
    ensures log == if |log0| < MAX_TOOL_CALLS then log0 + [EventsRead(w.namespace, EventsPod(w))] else log0
    ensures forall k :: !Shown(part, k)
  {
    g, text, log, part := g0, "", log0, [];
    if g.spent >= MAX_TOOL_CALLS {
      return;
    }
    var name := w.name;
    if |w.findings| > 0 {
      var p := PodPart(w.findings[0].pod);
      if p != "" {
        name := p;
      }
    }
    var r := EventsRead(w.namespace, name);
    ReadKeepsExact(c, log0, g, r);
    FirstSection(c, w, log0, r);
    g, text, log, part := After(c, g, r), c.section(g.spent, r), log0 + [r], [Entry(|log0|, r)];
  }

  lemma {:induction false} AllServed(c: Feed, w: Workload, log1: seq<Read>, log2: seq<Read>, part2: seq<Entry>, g: Gathered,
                                     log: seq<Read>, part: seq<Entry>, text: string, lo: nat)
    requires lo <= |log1| && log1 <= log2 && LogsAt(c, w, log2, part2, lo, 0, log, g, text, part)
    requires lo < MAX_TOOL_CALLS ==> lo < |log1| && log1[lo] == EventsRead(w.namespace, EventsPod(w))
    requires forall i :: 0 <= i < |w.trace| ==> Answered(w, log2, part2, w.trace[i])
    requires forall i :: 0 <= i < |w.findings| ==> Explained(w, log, w.findings[i])
    ensures Served(w, log, lo, part)
  {
    forall i | 0 <= i < |w.trace| ensures Answered(w, log, part, w.trace[i]) {
      AnsweredStays(w, log2, part2, log, part, w.trace[i]);
    }
  }

  /** A workload's events and its candidates' objects. */
  method ReadObjects(c: Feed, w: Workload, g0: Gathered, ghost log0: seq<Read>)
    returns (g: Gathered, text: string, ghost log1: seq<Read>, ghost log: seq<Read>, ghost part: seq<Entry>)
    requires Exact(c, log0, g0)
    ensures Exact(c, log, g) && Collected(w, log, |log0|, part) && text == Join(c, part)
    ensures log1 == (if |log0| < MAX_TOOL_CALLS then log0 + [EventsRead(w.namespace, EventsPod(w))] else log0) && log1 <= log
    ensures forall i :: 0 <= i < |w.trace| ==> Answered(w, log, part, w.trace[i])
  {
    g, text, log1, part := ReadEvents(c, w, g0, log0);
    g, text, log, part := DescribeCandidates(c, w, g, text, |log0|, log1, part);
  }

  /** One workload: its events, its candidates' objects, its crash logs. */
  method GatherOne(c: Feed, w: Workload, g0: Gathered, ghost log0: seq<Read>)
    returns (g: Gathered, text: string, ghost log: seq<Read>, ghost part: seq<Entry>)
    requires Exact(c, log0, g0)
    ensures Exact(c, log, g) && log0 <= log && Served(w, log, |log0|, part) && text == Join(c, part)
  {
    ghost var log1, log2, part2;
    g, text, log1, log2, part2 := ReadObjects(c, w, g0, log0);
    g, text, log, part := ClassifyLogs(c, w, g, text, |log0|, log2, part2);
    AllServed(c, w, log1, log2, part2, g, log, part, text, |log0|);
  }

  ghost predicate ServedAt(c: Feed, scoped: seq<Workload>, log: seq<Read>, bounds: seq<nat>, parts: seq<seq<Entry>>,
                           evidence: seq<string>, i: nat)
    requires i < |scoped| && |bounds| > i + 1 && |parts| > i && |evidence| > i
  {
    && bounds[i] <= bounds[i + 1] <= |log|
    && Served(scoped[i], log[..bounds[i + 1]], bounds[i], parts[i]) && evidence[i] == Join(c, parts[i])
  }

  /** Workload i's own reads are those of the log between bounds[i] and bounds[i + 1], its sections parts[i]. */
  ghost predicate IsGathering(c: Feed, scoped: seq<Workload>, log: seq<Read>, bounds: seq<nat>, parts: seq<seq<Entry>>,
                              evidence: seq<string>)
  {
    && |parts| == |evidence| == |scoped| && |bounds| == |scoped| + 1 && bounds[0] == 0 && bounds[|scoped|] == |log|
    && forall i {:trigger ServedAt(c, scoped, log, bounds, parts, evidence, i)} :: 0 <= i < |scoped| ==>
         ServedAt(c, scoped, log, bounds, parts, evidence, i)
  }

  lemma {:induction false} GatheringGrows(c: Feed, scoped: seq<Workload>, log: seq<Read>, bounds: seq<nat>,
                                          parts: seq<seq<Entry>>, evidence: seq<string>,
                                          w: Workload, log': seq<Read>, part: seq<Entry>)
    requires IsGathering(c, scoped, log, bounds, parts, evidence) && log <= log' && Served(w, log', |log|, part)
    ensures IsGathering(c, scoped + [w], log', bounds + [|log'|], parts + [part], evidence + [Join(c, part)])
  {
    var scoped', bounds', parts', evidence' := scoped + [w], bounds + [|log'|], parts + [part], evidence + [Join(c, part)];
    forall i | 0 <= i < |scoped'| ensures ServedAt(c, scoped', log', bounds', parts', evidence', i) {
      if i < |scoped| {
        assert ServedAt(c, scoped, log, bounds, parts, evidence, i);
        assert log'[..bounds[i + 1]] == log[..bounds[i + 1]];
      } else {
        assert log'[..|log'|] == log';
      }
    }
  }

  /** Some run of at most eight reads explains the cache and every workload's evidence. */
  ghost predicate GatheredFrom(c: Feed, scoped: seq<Workload>, g: Gathered, evidence: seq<string>) {
    exists log, bounds, parts :: Exact(c, log, g) && IsGathering(c, scoped, log, bounds, parts, evidence)
  }

  /** gatherEvidence; `g.trail` is the evidence trail and `g.rs` what the rules see. */
  method Gather(c: Cluster, scoped: seq<Workload>) returns (g: Gathered, evidence: seq<string>)
    ensures GatheredFrom(FeedOf(c), scoped, g, evidence)
  {
    ghost var log, bounds, parts;
    g, evidence, log, bounds, parts := GatherAll(FeedOf(c), scoped);
  }

  const NOTHING := Gathered([], 0, Reads(map[], map[], map[], map[]), map[], {})

  lemma {:induction false} NothingGathered(c: Feed)
    ensures Exact(c, [], NOTHING) && IsGathering(c, [], [], [0], [], [])
  {
  }

  method GatherAll(c: Feed, scoped: seq<Workload>)
    returns (g: Gathered, evidence: seq<string>, ghost log: seq<Read>, ghost bounds: seq<nat>, ghost parts: seq<seq<Entry>>)
    ensures Exact(c, log, g) && IsGathering(c, scoped, log, bounds, parts, evidence)
  {
    g, evidence := NOTHING, [];
    log, bounds, parts := [], [0], [];
    NothingGathered(c);
    assert scoped[..0] == [];
    for i := 0 to |scoped|
      invariant Exact(c, log, g) && IsGathering(c, scoped[..i], log, bounds, parts, evidence)
    {
      ghost var before := log;
      var text;
      ghost var part;
      g, text, log, part := GatherOne(c, scoped[i], g, log);
      GatheringGrows(c, scoped[..i], before, bounds, parts, evidence, scoped[i], log, part);
      assert scoped[..i + 1] == scoped[..i] + [scoped[i]];
      evidence, bounds, parts := evidence + [text], bounds + [|log|], parts + [part];
    }
    assert scoped[..|scoped|] == scoped;
  }

  // ---- the rules are honest about what was read

  ghost predicate SlashFreeReads(log: seq<Read>) {
    forall t :: 0 <= t < |log| ==> !log[t].NodeRead? ==> SlashFree(log[t].namespace)
  }

  /** A node candidate is judged by the one read of its node, or reported as failed or never read. */
  lemma {:induction false} NodeVerdictIsFresh(c: Feed, log: seq<Read>, g: Gathered, h: Hypothesis)
    requires Exact(c, log, g) && h.subject != ""
    ensures forall t :: 0 <= t < |log| && log[t] == NodeRead(h.subject) ==>
      CheckNode(h, g.rs) == match c.node(t, h.subject)
        case Got(n) => JudgeNode(h, n)
        case Failed(m) => Verdict(Unverified, FAILED_PREFIX + c.line(m))
    ensures NodeRead(h.subject) !in log ==> CheckNode(h, g.rs) == Verdict(Unverified, NEVER_READ)
  {
    var k := NodeKey(h.subject);
    forall t | 0 <= t < |log| && log[t] == NodeRead(h.subject) ensures Kept(c, g, t, log[t]) {
    }
    if k in g.described {
      var t :| 0 <= t < |log| && Describes(log[t], k);
      assert log[t] == NodeRead(h.subject);
    }
  }

  lemma {:induction false} ClaimVerdictIsFresh(c: Feed, log: seq<Read>, g: Gathered, w: Workload, h: Hypothesis)
    requires Exact(c, log, g) && h.subject != "" && SlashFree(w.namespace) && SlashFreeReads(log)
    ensures forall t :: 0 <= t < |log| && log[t] == ClaimRead(w.namespace, h.subject) ==>
      CheckClaim(w, h, g.rs) == match c.claim(t, w.namespace, h.subject)
        case Got(v) => JudgeClaim(v)
        case Failed(m) => Verdict(Unverified, FAILED_PREFIX + c.line(m))
    ensures ClaimRead(w.namespace, h.subject) !in log ==> CheckClaim(w, h, g.rs) == Verdict(Unverified, NEVER_READ)
  {
    var k := ClaimKey(NamedKey(w.namespace, h.subject));
    forall t | 0 <= t < |log| && log[t] == ClaimRead(w.namespace, h.subject) ensures Kept(c, g, t, log[t]) {
    }
    if k in g.described {
      var t :| 0 <= t < |log| && Describes(log[t], k);
      SplitAtSlash(log[t].namespace, log[t].name, w.namespace, h.subject);
      assert log[t] == ClaimRead(w.namespace, h.subject);
    }
  }

  /** The candidate's own object was read in this run, and the read succeeded. */
  ghost predicate Backed(c: Feed, log: seq<Read>, w: Workload, h: Hypothesis, t: int) {
    && 0 <= t < |log|
    && if h.kind == "node" then log[t] == NodeRead(h.subject) && c.node(t, h.subject).Got?
       else if h.kind == "pvc" then log[t] == ClaimRead(w.namespace, h.subject) && c.claim(t, w.namespace, h.subject).Got?
       else log[t] == EventsRead(w.namespace, PullPod(w)) && c.events(t, w.namespace, PullPod(w)).Got?
  }

  lemma {:induction false} RegistryVerdictIsBacked(c: Feed, log: seq<Read>, g: Gathered, w: Workload)
    returns (t: nat)
    requires Exact(c, log, g) && SlashFree(w.namespace) && SlashFreeReads(log)
    requires CheckRegistry(w, g.rs).outcome != Unverified
    ensures t < |log| && log[t] == EventsRead(w.namespace, PullPod(w))
    ensures c.events(t, w.namespace, PullPod(w)).Got? && CheckRegistry(w, g.rs) == Classify(c.events(t, w.namespace, PullPod(w)).value)
  {
    var path := NamedKey(w.namespace, PullPod(w));
    assert EventsFrom(c, log, path, g.rs.events[path]);
    t :| LatestAt(c, log, t, path, g.rs.events[path]);
    SplitAtSlash(log[t].namespace, log[t].name, w.namespace, PullPod(w));
  }

  /** Confirmed and refuted candidates rest on a successful read of their own object in this run. */
  lemma {:induction false} VerdictIsBacked(c: Feed, log: seq<Read>, g: Gathered, w: Workload, h: Hypothesis)
    requires Exact(c, log, g) && SlashFree(w.namespace) && SlashFreeReads(log)
    requires Check(w, h, g.rs).outcome != Unverified
    ensures exists t :: Backed(c, log, w, h, t)
  {
    if h.kind == "node" {
      NodeVerdictIsFresh(c, log, g, h);
      var t :| 0 <= t < |log| && log[t] == NodeRead(h.subject);
      assert Backed(c, log, w, h, t);
    } else if h.kind == "pvc" {
      ClaimVerdictIsFresh(c, log, g, w, h);
      var t :| 0 <= t < |log| && log[t] == ClaimRead(w.namespace, h.subject);
      assert Backed(c, log, w, h, t);
    } else {
      var t := RegistryVerdictIsBacked(c, log, g, w);
      assert Backed(c, log, w, h, t);
    }
  }

  /** Every decision of a row that is not "unverified" is backed; so is a confirmed row's cause. */
  lemma {:induction false} RowIsBacked(c: Feed, log: seq<Read>, g: Gathered, w: Workload, r: Row, k: nat)
    requires Exact(c, log, g) && SlashFree(w.namespace) && SlashFreeReads(log)
    requires IsRow(w, g.rs, r) && k < |r.decisions| && r.decisions[k].outcome != Unverified
    ensures exists t :: Backed(c, log, w, r.decisions[k].candidate, t)
  {
    var h := Filter(Open, w.trace)[k];
    assert r.decisions[k] == Judged(w, g.rs)(h);
    VerdictIsBacked(c, log, g, w, h);
  }

  // ---- verdicts, over what was read

  /** The t-th read succeeded and shows that the candidate is the cause. */
  ghost predicate ConfirmedAt(c: Feed, log: seq<Read>, w: Workload, h: Hypothesis, t: int) {
    && 0 <= t < |log|
    && if h.kind == "node" then
         h.subject != "" && log[t] == NodeRead(h.subject) && c.node(t, h.subject).Got? && NodeDown(c.node(t, h.subject).value)
       else if h.kind == "pvc" then
         && h.subject != "" && log[t] == ClaimRead(w.namespace, h.subject)
         && c.claim(t, w.namespace, h.subject).Got? && ClaimStuck(c.claim(t, w.namespace, h.subject).value)
       else
         h.kind == "registry" && PullEventsAt(c, log, w, t) && Shows(c.events(t, w.namespace, PullPod(w)).value, CONNECTION)
  }

  /** The t-th read succeeded and shows that the candidate is not the cause. */
  ghost predicate RefutedAt(c: Feed, log: seq<Read>, w: Workload, h: Hypothesis, t: int) {
    && 0 <= t < |log|
    && if h.kind == "node" then
         && h.subject != "" && log[t] == NodeRead(h.subject) && c.node(t, h.subject).Got?
         && FirstReadyIs(c.node(t, h.subject).value.conditions, "True") && !NeedsLease(h)
       else if h.kind == "pvc" then
         && h.subject != "" && log[t] == ClaimRead(w.namespace, h.subject)
         && c.claim(t, w.namespace, h.subject).Got? && c.claim(t, w.namespace, h.subject).value.phase == "Bound"
       else
         && h.kind == "registry" && PullEventsAt(c, log, w, t)
         && var evs := c.events(t, w.namespace, PullPod(w)).value;
            Shows(evs, IMAGE) && !Shows(evs, AUTH) && !Shows(evs, CONNECTION)
  }

  /** The latest successful listing of the pulling pod's events. */
  ghost predicate PullEventsAt(c: Feed, log: seq<Read>, w: Workload, t: int) {
    && 0 <= t < |log| && PullPod(w) != "" && log[t] == EventsRead(w.namespace, PullPod(w))
    && c.events(t, w.namespace, PullPod(w)).Got?
    && forall i :: t < i < |log| ==> !GotAt(c, log, i, NamedKey(w.namespace, PullPod(w)))
  }

  lemma {:induction false} NodeCandidateExact(c: Feed, log: seq<Read>, g: Gathered, w: Workload, h: Hypothesis)
    requires Exact(c, log, g) && h.kind == "node"
    ensures CheckNode(h, g.rs).outcome == Confirmed <==> exists t :: ConfirmedAt(c, log, w, h, t)
    ensures CheckNode(h, g.rs).outcome == Refuted <==> exists t :: RefutedAt(c, log, w, h, t)
  {
    if h.subject != "" {
      NodeVerdictIsFresh(c, log, g, h);
      forall t | 0 <= t < |log| && log[t] == NodeRead(h.subject) && c.node(t, h.subject).Got?
        ensures CheckNode(h, g.rs).outcome == Confirmed <==> ConfirmedAt(c, log, w, h, t)
        ensures CheckNode(h, g.rs).outcome == Refuted <==> RefutedAt(c, log, w, h, t)
      {
        NodeRuleExact(h, c.node(t, h.subject).value);
      }
      if NodeRead(h.subject) in log {
        var t :| 0 <= t < |log| && log[t] == NodeRead(h.subject);
      }
    }
  }

  lemma {:induction false} ClaimCandidateExact(c: Feed, log: seq<Read>, g: Gathered, w: Workload, h: Hypothesis)
    requires Exact(c, log, g) && SlashFree(w.namespace) && SlashFreeReads(log) && h.kind == "pvc"
    ensures CheckClaim(w, h, g.rs).outcome == Confirmed <==> exists t :: ConfirmedAt(c, log, w, h, t)
    ensures CheckClaim(w, h, g.rs).outcome == Refuted <==> exists t :: RefutedAt(c, log, w, h, t)
  {
    if h.subject != "" {
      ClaimVerdictIsFresh(c, log, g, w, h);
      forall t | 0 <= t < |log| && log[t] == ClaimRead(w.namespace, h.subject) && c.claim(t, w.namespace, h.subject).Got?
        ensures CheckClaim(w, h, g.rs).outcome == Confirmed <==> ConfirmedAt(c, log, w, h, t)
        ensures CheckClaim(w, h, g.rs).outcome == Refuted <==> RefutedAt(c, log, w, h, t)
      {
        ClaimRuleExact(c.claim(t, w.namespace, h.subject).value);
      }
      if ClaimRead(w.namespace, h.subject) in log {
        var t :| 0 <= t < |log| && log[t] == ClaimRead(w.namespace, h.subject);
      }
    }
  }

  /** The cached events of the pulling pod are those of its latest successful listing. */
  lemma {:induction false} PullEventsCached(c: Feed, log: seq<Read>, g: Gathered, w: Workload)
    requires Exact(c, log, g) && SlashFree(w.namespace) && SlashFreeReads(log) && PullPod(w) != ""
    ensures var path := NamedKey(w.namespace, PullPod(w));
      path in g.rs.events <==> exists t :: PullEventsAt(c, log, w, t)
    ensures var path := NamedKey(w.namespace, PullPod(w));
      forall t :: PullEventsAt(c, log, w, t) ==> path in g.rs.events && g.rs.events[path] == c.events(t, w.namespace, PullPod(w)).value
  {
    var path := NamedKey(w.namespace, PullPod(w));
    if path in g.rs.events {
      assert EventsFrom(c, log, path, g.rs.events[path]);
      var k :| LatestAt(c, log, k, path, g.rs.events[path]);
      SplitAtSlash(log[k].namespace, log[k].name, w.namespace, PullPod(w));
      assert PullEventsAt(c, log, w, k);
      forall t | PullEventsAt(c, log, w, t) ensures t == k {
        assert GotAt(c, log, t, path) && GotAt(c, log, k, path);
      }
    }
    forall t | PullEventsAt(c, log, w, t) ensures path in g.rs.events {
      assert Kept(c, g, t, log[t]);
    }
  }

  lemma {:induction false} RegistryCandidateExact(c: Feed, log: seq<Read>, g: Gathered, w: Workload, h: Hypothesis)
    requires Exact(c, log, g) && SlashFree(w.namespace) && SlashFreeReads(log) && h.kind == "registry"
    ensures CheckRegistry(w, g.rs).outcome == Confirmed <==> exists t :: ConfirmedAt(c, log, w, h, t)
    ensures CheckRegistry(w, g.rs).outcome == Refuted <==> exists t :: RefutedAt(c, log, w, h, t)
  {
    if PullPod(w) != "" {
      PullEventsCached(c, log, g, w);
      var path := NamedKey(w.namespace, PullPod(w));
      if path in g.rs.events {
        ClassifyExact(g.rs.events[path]);
        var t :| PullEventsAt(c, log, w, t);
        assert ConfirmedAt(c, log, w, h, t) <==> Shows(g.rs.events[path], CONNECTION);
        assert RefutedAt(c, log, w, h, t) <==> CheckRegistry(w, g.rs).outcome == Refuted;
      }
    }
  }

  /** A candidate is confirmed or refuted exactly when a read of this run confirms or refutes it. */
  lemma {:induction false} CandidateExact(c: Feed, log: seq<Read>, g: Gathered, w: Workload, h: Hypothesis)
    requires Exact(c, log, g) && SlashFree(w.namespace) && SlashFreeReads(log)
    ensures Check(w, h, g.rs).outcome == Confirmed <==> exists t :: ConfirmedAt(c, log, w, h, t)
    ensures Check(w, h, g.rs).outcome == Refuted <==> exists t :: RefutedAt(c, log, w, h, t)
  {
    if h.kind == "node" {
      NodeCandidateExact(c, log, g, w, h);
    } else if h.kind == "pvc" {
      ClaimCandidateExact(c, log, g, w, h);
    } else if h.kind == "registry" {
      RegistryCandidateExact(c, log, g, w, h);
    }
  }

  ghost predicate ReadConfirms(c: Feed, log: seq<Read>, w: Workload, h: Hypothesis) { exists t :: ConfirmedAt(c, log, w, h, t) }

  ghost predicate ReadRefutes(c: Feed, log: seq<Read>, w: Workload, h: Hypothesis) { exists t :: RefutedAt(c, log, w, h, t) }

  /** The k-th open candidate is the first that a read of this run confirms. */
  ghost predicate FirstConfirmed(c: Feed, log: seq<Read>, w: Workload, k: int) {
    var open := Filter(Open, w.trace);
    0 <= k < |open| && ReadConfirms(c, log, w, open[k]) && forall j :: 0 <= j < k ==> !ReadConfirms(c, log, w, open[j])
  }

  /** What a row says, over what was read: the first confirmed cause, else undecided iff every open candidate is refuted. */
  ghost predicate RowSays(c: Feed, log: seq<Read>, w: Workload, r: Row) {
    var open := Filter(Open, w.trace);
    && (r.outcome == Some(Confirmed) <==> exists k :: FirstConfirmed(c, log, w, k))
    && (forall k :: FirstConfirmed(c, log, w, k) ==> r.cause == open[k].cause)
    && (!r.decided <==> forall k :: 0 <= k < |open| ==> ReadRefutes(c, log, w, open[k]))
    && (r.decided <==> r.outcome == Some(Confirmed) || r.outcome == Some(Unverified))
  }

  lemma {:induction false} DecisionsExact(c: Feed, log: seq<Read>, g: Gathered, w: Workload, r: Row)
    requires Exact(c, log, g) && SlashFree(w.namespace) && SlashFreeReads(log) && IsRow(w, g.rs, r)
    ensures var open := Filter(Open, w.trace);
      && |r.decisions| == |open|
      && forall k :: 0 <= k < |open| ==>
           && r.decisions[k].candidate == open[k]
           && (r.decisions[k].outcome == Confirmed <==> ReadConfirms(c, log, w, open[k]))
           && (r.decisions[k].outcome == Refuted <==> ReadRefutes(c, log, w, open[k]))
  {
    var open := Filter(Open, w.trace);
    forall k | 0 <= k < |open|
      ensures r.decisions[k].candidate == open[k]
      ensures r.decisions[k].outcome == Confirmed <==> ReadConfirms(c, log, w, open[k])
      ensures r.decisions[k].outcome == Refuted <==> ReadRefutes(c, log, w, open[k])
    {
      assert r.decisions[k] == Judged(w, g.rs)(open[k]);
      CandidateExact(c, log, g, w, open[k]);
    }
  }

  lemma {:induction false} RowExact(c: Feed, log: seq<Read>, g: Gathered, w: Workload, r: Row)
    requires Exact(c, log, g) && SlashFree(w.namespace) && SlashFreeReads(log) && IsRow(w, g.rs, r)
    ensures RowSays(c, log, w, r)
  {
    DecisionsExact(c, log, g, w, r);
    GroupIffConfirmed(w, g.rs, r);
    var ds := r.decisions;
    forall k ensures FirstConfirmed(c, log, w, k) <==> First(ds, Confirmed, k) {
    }
    forall k | First(ds, Confirmed, k) ensures Deciding(ds, k) && DecidedBy(w, g.rs, r, ds[k]) {
      assert Deciding(ds, k);
    }
    if r.decided {
      var k :| Deciding(ds, k);
      assert DecidedBy(w, g.rs, r, ds[k]);
    }
  }

  // ---- reads stay in the workloads' namespaces

  /** The workload whose own read the t-th one is. */
  lemma {:induction false} OwnerOfRead(bounds: seq<nat>, n: nat, t: nat) returns (i: nat)
    requires |bounds| == n + 1 && bounds[0] == 0 && t < bounds[n]
    ensures i < n && bounds[i] <= t < bounds[i + 1]
  {
    if bounds[n - 1] <= t {
      i := n - 1;
    } else {
      i := OwnerOfRead(bounds[..n], n - 1, t);
    }
  }

  lemma {:induction false} GatheringIsSlashFree(c: Feed, scoped: seq<Workload>, log: seq<Read>, bounds: seq<nat>,
                                                parts: seq<seq<Entry>>, evidence: seq<string>)
    requires IsGathering(c, scoped, log, bounds, parts, evidence)
    requires forall i :: 0 <= i < |scoped| ==> SlashFree(scoped[i].namespace)
    ensures SlashFreeReads(log)
  {
    forall t | 0 <= t < |log| && !log[t].NodeRead? ensures SlashFree(log[t].namespace) {
      var i := OwnerOfRead(bounds, |scoped|, t);
      assert ServedAt(c, scoped, log, bounds, parts, evidence, i);
      var before := log[..bounds[i + 1]];
      assert before[t] == log[t];
      assert Entry(t, before[t]) in parts[i];
      var k :| 0 <= k < |parts[i]| && parts[i][k] == Entry(t, before[t]);
      assert EntryOk(scoped[i], before, bounds[i], parts[i][k]);
    }
  }

  /** The run behind a gathering. */
  ghost predicate Explains(c: Feed, scoped: seq<Workload>, g: Gathered, evidence: seq<string>, log: seq<Read>) {
    exists bounds, parts :: Exact(c, log, g) && IsGathering(c, scoped, log, bounds, parts, evidence)
  }

  /** From the gather to the row: over the reads of that run, every scoped workload's row says what was read. */
  lemma {:induction false} GatheredRowsSay(c: Feed, scoped: seq<Workload>, g: Gathered, evidence: seq<string>) returns (log: seq<Read>)
    requires GatheredFrom(c, scoped, g, evidence) && forall i :: 0 <= i < |scoped| ==> SlashFree(scoped[i].namespace)
    ensures Explains(c, scoped, g, evidence, log)
    ensures forall i, r :: 0 <= i < |scoped| && IsRow(scoped[i], g.rs, r) ==> RowSays(c, log, scoped[i], r)
  {
    var log', bounds, parts :| Exact(c, log', g) && IsGathering(c, scoped, log', bounds, parts, evidence);
    log := log';
    GatheringIsSlashFree(c, scoped, log, bounds, parts, evidence);
    forall i, r | 0 <= i < |scoped| && IsRow(scoped[i], g.rs, r) ensures RowSays(c, log, scoped[i], r) {
      RowExact(c, log, g, scoped[i], r);
    }
  }

  // ---- the candidate lines of the prompt

  datatype PromptLine =
    | Heading(path: string, kind: string)
    | Considered(candidate: Hypothesis)
    | Fresh(outcome: Outcome, evidence: string)
    | ByRules(cause: string, result: Option<Outcome>)
    | Truncated

  /** The first n candidates, each followed by its own verdict when the rules re-checked it. */
  function CandidateLines(w: Workload, rs: Reads, n: nat): (ls: seq<PromptLine>)
    requires n <= |w.trace|
  {
    if n == 0 then []
    else
      var h := w.trace[n - 1];
      var v := Check(w, h, rs);
      CandidateLines(w, rs, n - 1) + [Considered(h)] + (if h.ruledOut then [] else [Fresh(v.outcome, v.evidence)])
  }

  function ShownLines(w: Workload, rs: Reads): (ls: seq<PromptLine>) {
    if |w.trace| > MAX_CANDIDATES then CandidateLines(w, rs, MAX_CANDIDATES) + [Truncated]
    else CandidateLines(w, rs, |w.trace|)
  }

  /** What the prompt should say of a workload decided by the rules. */
  function Prompt(w: Workload, rs: Reads, r: Row): (ls: seq<PromptLine>) {
    if w.trace == [] then []
    else
      [Heading(NamedKey(w.namespace, w.name), w.kind)] + ShownLines(w, rs)
      + (if r.decided then [ByRules(r.cause, r.outcome)] else [])
  }

  /** One decision per open candidate, in trace order. */
  ghost predicate InTraceOrder(w: Workload, rs: Reads, ds: seq<Decision>) {
    ds == Map(Judged(w, rs), Filter(Open, w.trace))
  }

  lemma {:induction false} CursorAligned(w: Workload, rs: Reads, ds: seq<Decision>, i: nat)
    requires InTraceOrder(w, rs, ds) && i < |w.trace| && !w.trace[i].ruledOut
    ensures |Filter(Open, w.trace[..i])| < |ds| && ds[|Filter(Open, w.trace[..i])|] == Judged(w, rs)(w.trace[i])
  {
    FilterStep(Open, w.trace, i);
    FilterConcat(Open, w.trace[..i + 1], w.trace[i + 1..]);
    assert w.trace == w.trace[..i + 1] + w.trace[i + 1..];
  }

  /** The candidate lines; a cursor over the decisions stays aligned with the trace. */
  method WriteShown(w: Workload, ds: seq<Decision>, ghost rs: Reads) returns (ls: seq<PromptLine>)
    ensures InTraceOrder(w, rs, ds) ==> ls == ShownLines(w, rs)
  {
    ls := [];
    var next := 0;
    ghost var aligned := InTraceOrder(w, rs, ds);
    for i := 0 to |w.trace|
      invariant i <= MAX_CANDIDATES && next == |Filter(Open, w.trace[..i])|
      invariant aligned ==> ls == CandidateLines(w, rs, i)
    {
      if i == MAX_CANDIDATES {
        return ls + [Truncated];
      }
      var h := w.trace[i];
      FilterStep(Open, w.trace, i);
      ls := ls + [Considered(h)];
      if h.ruledOut {
        continue;
      }
      if aligned {
        CursorAligned(w, rs, ds, i);
      }
      if next < |ds| {
        ls := ls + [Fresh(ds[next].outcome, ds[next].evidence)];
      }
      next := next + 1;
    }
  }

  /** writeWorkloadCandidates. */
  method WriteCandidates(w: Workload, r: Row, ghost rs: Reads) returns (ls: seq<PromptLine>)
    ensures IsRow(w, rs, r) ==> ls == Prompt(w, rs, r)
  {
    if |w.trace| == 0 {
      return [];
    }
    var shown := WriteShown(w, r.decisions, rs);
    ls := [Heading(NamedKey(w.namespace, w.name), w.kind)] + shown;
    if r.decided {
      ls := ls + [ByRules(r.cause, r.outcome)];
    }
  }
}
