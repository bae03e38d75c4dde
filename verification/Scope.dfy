/**
 internal/investigate/scope.go and the scope checks of reader.go: which cluster
 objects a model-driven investigation may read.  The reader answers one tool call
 at a time against a cluster that may change between calls; `Cluster` gives the
 API's answers as a function of how many calls have been executed before.
 */
module Scope {
  import opened Basics
  import opened Inventory

  // ---- kinds

  function LowerChar(c: char): (r: char) { if 'A' <= c <= 'Z' then (c as int + 32) as char else c }

  function ToLower(s: string): (r: string)
    ensures |r| == |s| && forall i :: 0 <= i < |s| ==> r[i] == LowerChar(s[i])
  {
    seq(|s|, i requires 0 <= i < |s| => LowerChar(s[i]))
  }

  const LONG_CLAIM_KIND := "persistentvolumeclaim"

  /** Lower case, trimmed, with the long claim kind shortened. */
  function NormKind(k: string): (r: string) {
    var t := ToLower(TrimSpace(k));
    if t == LONG_CLAIM_KIND then "pvc" else t
  }

  lemma {:induction false} TrimRightKeepsHead(s: string)
    requires s == "" || !IsBlank(s[0])
    ensures Trimmed(TrimRight(s))
  {
    if s != "" && IsBlank(s[|s| - 1]) {
      TrimRightKeepsHead(s[..|s| - 1]);
    }
  }

  lemma {:induction false} TrimLeftHead(s: string)
    ensures TrimLeft(s) == "" || !IsBlank(TrimLeft(s)[0])
  {
    if s != "" && IsBlank(s[0]) {
      TrimLeftHead(s[1..]);
    }
  }

  /** Normalizing twice is normalizing once, so checking a normalized kind checks the kind. */
  lemma {:induction false} NormKindIdempotent(k: string)
    ensures NormKind(NormKind(k)) == NormKind(k)
  {
    TrimLeftHead(k);
    TrimRightKeepsHead(TrimLeft(k));
    var t := ToLower(TrimSpace(k));
    assert Trimmed(t);
    assert TrimSpace(t) == t;
    assert ToLower(t) == t;
    assert TrimSpace("pvc") == "pvc" && ToLower("pvc") == "pvc";
  }

  /** The kind that is looked up: the text without the blanks around it, in lower case, the long claim kind shortened. */
  lemma {:induction false} NormKindExact(left: string, kind: string, right: string)
    requires Blanks(left) && Trimmed(kind) && Blanks(right)
    ensures ToLower(kind) == LONG_CLAIM_KIND ==> NormKind(left + kind + right) == "pvc"
    ensures ToLower(kind) != LONG_CLAIM_KIND ==> NormKind(left + kind + right) == ToLower(kind)
  {
    TrimExact(left, kind, right);
  }

  // ---- scope

  datatype ScopeKey = ScopeKey(kind: string, namespace: string, name: string)

  function PodAt(namespace: string, name: string): (k: ScopeKey) { ScopeKey("pod", namespace, name) }

  /** A workload's pods and the nodes they run on. */
  function PodSeeds(namespace: string, rows: seq<PodRow>): (s: set<ScopeKey>) {
    if rows == [] then {}
    else
      var p := rows[|rows| - 1];
      PodSeeds(namespace, rows[..|rows| - 1]) + {PodAt(namespace, p.name)}
        + (if p.node != "" then {ScopeKey("node", "", p.node)} else {})
  }

  function SeedsOf(w: Workload): (s: set<ScopeKey>) {
    {ScopeKey(NormKind(w.kind), w.namespace, w.name)} + PodSeeds(w.namespace, w.pods)
  }

  function AllSeeds(ws: seq<Workload>): (s: set<ScopeKey>) {
    if ws == [] then {} else AllSeeds(ws[..|ws| - 1]) + SeedsOf(ws[|ws| - 1])
  }

  lemma {:induction false} PlainKind(k: string)
    requires Trimmed(k) && k != LONG_CLAIM_KIND && forall i :: 0 <= i < |k| ==> LowerChar(k[i]) == k[i]
    ensures NormKind(k) == k
  {
    assert TrimSpace(k) == k;
    assert ToLower(k) == k;
  }

  lemma {:induction false} PlainKinds()
    ensures NormKind("pod") == "pod" && NormKind("node") == "node" && NormKind("pvc") == "pvc" && NormKind("service") == "service"
  {
    PlainKind("pod");
    PlainKind("node");
    PlainKind("pvc");
    PlainKind("service");
  }

  class ScopeSet {
    var allowed: set<ScopeKey>

    constructor ()
      ensures allowed == {}
    {
      allowed := {};
    }

    predicate Allowed(kind: string, namespace: string, name: string)
      reads this
    {
      ScopeKey(NormKind(kind), namespace, name) in allowed
    }

    method Add(kind: string, namespace: string, name: string)
      modifies this
      ensures allowed == old(allowed) + {ScopeKey(NormKind(kind), namespace, name)}
    {
      allowed := allowed + {ScopeKey(NormKind(kind), namespace, name)};
    }

    /** NewScope's loops over the flagged workloads. */
    method Seed(ws: seq<Workload>)
      modifies this
      ensures allowed == old(allowed) + AllSeeds(ws)
    {
      PlainKinds();
      for i := 0 to |ws|
        invariant allowed == old(allowed) + AllSeeds(ws[..i])
      {
        assert ws[..i + 1][..i] == ws[..i];
        SeedOne(ws[i]);
      }
      assert ws[..|ws|] == ws;
    }

    method SeedOne(w: Workload)
      modifies this
      ensures allowed == old(allowed) + SeedsOf(w)
    {
      Add(w.kind, w.namespace, w.name);
      SeedPods(w.namespace, w.pods);
    }

    method SeedPods(namespace: string, rows: seq<PodRow>)
      modifies this
      ensures allowed == old(allowed) + PodSeeds(namespace, rows)
    {
      PlainKinds();
      for j := 0 to |rows|
        invariant allowed == old(allowed) + PodSeeds(namespace, rows[..j])
      {
        var p := rows[j];
        assert rows[..j + 1][..j] == rows[..j];
        Add("pod", namespace, p.name);
        if p.node != "" {
          Add("node", "", p.node);
        }
      }
      assert rows[..|rows|] == rows;
    }
  }

  // ---- the cluster as the reader sees it

  datatype Ref = Ref(kind: string, name: string)

  datatype PodObject = PodObject(owners: seq<Ref>, node: string, claims: seq<string>, labels: map<string, string>)

  datatype Service = Service(name: string, selector: map<string, string>)

  /** The API's answers at one moment; None is an error answer. */
  datatype Snapshot = Snapshot(
    pod: (string, string) -> Option<PodObject>,
    services: string -> Option<seq<Service>>,
    get: ScopeKey -> bool)

  /** The reader's surroundings: the cluster over time and the sanitizer for names read from other objects. */
  datatype World = World(at: nat -> Snapshot, line: string -> string)

  predicate Selects(s: Service, labels: map<string, string>) {
    s.selector != map[] && forall k :: k in s.selector ==> k in labels && labels[k] == s.selector[k]
  }

  datatype Input = Input(kind: string, namespace: string, name: string, relation: string, pod: string, container: string)

  /** A model-requested read; input None does not parse. */
  datatype ToolCall = ToolCall(id: string, name: string, input: Option<Input>)

  datatype ToolResult = ToolResult(id: string, isError: bool)

  /** What a call read from the cluster. */
  datatype Access =
    | Describe(key: ScopeKey)
    | ClassifyLog(key: ScopeKey)
    | ListEvents(namespace: string, name: string)
    | ReadRelations(key: ScopeKey)

  /** The effect of one executed call: error flag, the scope afterwards, the object it read. */
  datatype Effect = Effect(isError: bool, allowed: set<ScopeKey>, access: Option<Access>)

  const DESCRIBABLE := {"pod", "deployment", "replicaset", "statefulset", "daemonset", "job", "node", "pvc", "service"}

  function NamespaceFor(kind: string, namespace: string): (n: string) { if kind == "node" then "" else namespace }

  function Refused(allowed: set<ScopeKey>): (e: Effect) { Effect(true, allowed, None) }

  function DescribeEffect(w: World, t: nat, inp: Input, allowed: set<ScopeKey>): (e: Effect) {
    var kind := NormKind(inp.kind);
    var key := ScopeKey(NormKind(kind), NamespaceFor(kind, inp.namespace), inp.name);
    if key !in allowed then Refused(allowed)
    else if kind !in DESCRIBABLE then Refused(allowed)
    else
      var target := ScopeKey(kind, NamespaceFor(kind, inp.namespace), inp.name);
      Effect(!w.at(t).get(target), allowed, Some(Describe(target)))
  }

  predicate NameInScope(allowed: set<ScopeKey>, namespace: string, name: string) {
    exists k :: k in allowed && k.namespace == namespace && k.name == name
  }

  function EventsEffect(w: World, t: nat, inp: Input, allowed: set<ScopeKey>): (e: Effect) {
    if !NameInScope(allowed, inp.namespace, inp.name) then Refused(allowed)
    else Effect(!w.at(t).get(ScopeKey("events", inp.namespace, inp.name)), allowed, Some(ListEvents(inp.namespace, inp.name)))
  }

  function LogEffect(w: World, t: nat, inp: Input, allowed: set<ScopeKey>): (e: Effect) {
    var key := PodAt(inp.namespace, inp.pod);
    if key !in allowed then Refused(allowed)
    else Effect(!w.at(t).get(ScopeKey("log", inp.namespace, inp.pod)), allowed, Some(ClassifyLog(key)))
  }

  /** The objects a pod's owner references resolve to. */
  function Owners(w: World, refs: seq<Ref>, namespace: string): (s: set<ScopeKey>) {
    if refs == [] then {}
    else
      var o := refs[|refs| - 1];
      Owners(w, refs[..|refs| - 1], namespace) + {ScopeKey(NormKind(w.line(o.kind)), namespace, w.line(o.name))}
  }

  function NodeOf(w: World, p: PodObject): (s: set<ScopeKey>) {
    if p.node == "" then {} else {ScopeKey("node", "", w.line(p.node))}
  }

  function Claims(w: World, claims: seq<string>, namespace: string): (s: set<ScopeKey>) {
    if claims == [] then {}
    else Claims(w, claims[..|claims| - 1], namespace) + {ScopeKey("pvc", namespace, w.line(claims[|claims| - 1]))}
  }

  /** The services whose selector matches; a service without a selector selects nothing. */
  function Selecting(svcs: seq<Service>, labels: map<string, string>, namespace: string): (s: set<ScopeKey>) {
    if svcs == [] then {}
    else
      var svc := svcs[|svcs| - 1];
      Selecting(svcs[..|svcs| - 1], labels, namespace)
        + (if Selects(svc, labels) then {ScopeKey("service", namespace, svc.name)} else {})
  }

  function RelatedEffect(w: World, t: nat, inp: Input, allowed: set<ScopeKey>): (e: Effect) {
    var key := PodAt(inp.namespace, inp.name);
    if key !in allowed then Refused(allowed)
    else
      var read := Some(ReadRelations(key));
      match w.at(t).pod(inp.namespace, inp.name)
      case None => Effect(true, allowed, read)
      case Some(p) =>
        if inp.relation == "owner" then Effect(false, allowed + Owners(w, p.owners, inp.namespace), read)
        else if inp.relation == "node" then Effect(false, allowed + NodeOf(w, p), read)
        else if inp.relation == "pvc" then Effect(false, allowed + Claims(w, p.claims, inp.namespace), read)
        else if inp.relation == "service" then
          match w.at(t).services(inp.namespace)
          case None => Effect(true, allowed, read)
          case Some(svcs) => Effect(false, allowed + Selecting(svcs, p.labels, inp.namespace), read)
        else Effect(true, allowed, read)
  }

  /** Reader.execute on the t-th executed call. */
  function Execute(w: World, t: nat, c: ToolCall, allowed: set<ScopeKey>): (e: Effect) {
    match c.input
    case None => Refused(allowed)
    case Some(inp) =>
      if c.name == "describe" then DescribeEffect(w, t, inp, allowed)
      else if c.name == "get_events" then EventsEffect(w, t, inp, allowed)
      else if c.name == "get_related" then RelatedEffect(w, t, inp, allowed)
      else if c.name == "get_log_causes" then LogEffect(w, t, inp, allowed)
      else Refused(allowed)
  }

  // ---- safety

  /** At moment t the pod `from` has an edge of this relation to `to`. */
  ghost predicate EdgeAt(w: World, t: nat, relation: string, from: ScopeKey, to: ScopeKey) {
    var pod := w.at(t).pod(from.namespace, from.name);
    && from.kind == "pod" && pod.Some?
    && (|| (relation == "owner" && to in Owners(w, pod.value.owners, from.namespace))
        || (relation == "node" && to in NodeOf(w, pod.value))
        || (relation == "pvc" && to in Claims(w, pod.value.claims, from.namespace))
        || (relation == "service" && w.at(t).services(from.namespace).Some?
            && to in Selecting(w.at(t).services(from.namespace).value, pod.value.labels, from.namespace)))
  }

  /** The pod whose relation a call asks for. */
  function SourceOf(c: ToolCall): (k: ScopeKey)
    requires c.input.Some?
  {
    PodAt(c.input.value.namespace, c.input.value.name)
  }

  /** The t-th call asks for a relation of its pod and the cluster answers with `to`. */
  ghost predicate Resolves(w: World, t: nat, c: ToolCall, to: ScopeKey) {
    c.name == "get_related" && c.input.Some? && EdgeAt(w, t, c.input.value.relation, SourceOf(c), to)
  }

  /** A seed, or resolved by one of the first n calls from a key that the calls before it had already reached. */
  ghost predicate Reached(w: World, calls: seq<ToolCall>, seeds: set<ScopeKey>, k: ScopeKey, n: nat)
    requires n <= |calls|
    decreases n
  {
    || k in seeds
    || (n > 0 && (|| Reached(w, calls, seeds, k, n - 1)
                  || (Resolves(w, n - 1, calls[n - 1], k) && Reached(w, calls, seeds, SourceOf(calls[n - 1]), n - 1))))
  }

  /** What an access reads is within a set of keys: the object itself, or for events an object of that name. */
  ghost predicate Within(allowed: set<ScopeKey>, a: Access) {
    match a
    case Describe(k) => k in allowed
    case ClassifyLog(k) => k in allowed
    case ReadRelations(k) => k in allowed
    case ListEvents(ns, name) => NameInScope(allowed, ns, name)
  }

  lemma {:induction false} RelatedGrows(w: World, t: nat, inp: Input, allowed: set<ScopeKey>, k: ScopeKey)
    ensures var from := PodAt(inp.namespace, inp.name);
      k in RelatedEffect(w, t, inp, allowed).allowed <==> k in allowed || (from in allowed && EdgeAt(w, t, inp.relation, from, k))
  {
  }

  /** One call adds to the scope exactly what it resolves from a pod in scope. */
  lemma {:induction false} ExecuteGrows(w: World, t: nat, c: ToolCall, allowed: set<ScopeKey>, k: ScopeKey)
    ensures k in Execute(w, t, c, allowed).allowed
       <==> k in allowed || (Resolves(w, t, c, k) && SourceOf(c) in allowed)
  {
    if c.name == "get_related" && c.input.Some? {
      RelatedGrows(w, t, c.input.value, allowed, k);
    }
  }

  /** One call: the scope only grows, a failed or refused call leaves it alone, and what is read was in scope before. */
  lemma {:induction false} ExecuteIsSafe(w: World, t: nat, c: ToolCall, allowed: set<ScopeKey>)
    ensures var e := Execute(w, t, c, allowed);
      && allowed <= e.allowed && (e.isError ==> e.allowed == allowed)
      && (e.access.Some? ==> Within(allowed, e.access.value))
  {
    if c.input.Some? {
      NormKindIdempotent(c.input.value.kind);
    }
  }

  /** The scope after a sequence of executed calls. */
  function ScopeAfter(w: World, calls: seq<ToolCall>, allowed: set<ScopeKey>): (s: set<ScopeKey>) {
    if calls == [] then allowed
    else
      var n := |calls| - 1;
      Execute(w, n, calls[n], ScopeAfter(w, calls[..n], allowed)).allowed
  }

  lemma {:induction false} ScopeStep(w: World, calls: seq<ToolCall>, seeds: set<ScopeKey>, n: nat)
    requires 0 < n <= |calls|
    ensures ScopeAfter(w, calls[..n], seeds) == Execute(w, n - 1, calls[n - 1], ScopeAfter(w, calls[..n - 1], seeds)).allowed
  {
    assert calls[..n][..n - 1] == calls[..n - 1];
  }

  /**
   Scope is exact over every call sequence a model can send: after n calls it holds
   the seeds and what the executed relation calls resolved, each from a pod that
   was in scope when the call was made, and nothing else.
   */
  lemma {:induction false} ScopeIsReached(w: World, calls: seq<ToolCall>, seeds: set<ScopeKey>, n: nat, k: ScopeKey)
    requires n <= |calls|
    ensures k in ScopeAfter(w, calls[..n], seeds) <==> Reached(w, calls, seeds, k, n)
    decreases n
  {
    if n > 0 {
      var before := ScopeAfter(w, calls[..n - 1], seeds);
      ScopeStep(w, calls, seeds, n);
      ExecuteGrows(w, n - 1, calls[n - 1], before, k);
      forall x ensures x in before <==> Reached(w, calls, seeds, x, n - 1) {
        ScopeIsReached(w, calls, seeds, n - 1, x);
      }
    }
  }

  /** The scope only grows. */
  lemma {:induction false} ScopeOnlyGrows(w: World, calls: seq<ToolCall>, seeds: set<ScopeKey>, m: nat, n: nat)
    requires m <= n <= |calls|
    ensures ScopeAfter(w, calls[..m], seeds) <= ScopeAfter(w, calls[..n], seeds)
    decreases n
  {
    if m < n {
      ScopeOnlyGrows(w, calls, seeds, m, n - 1);
      ScopeStep(w, calls, seeds, n);
      ExecuteIsSafe(w, n - 1, calls[n - 1], ScopeAfter(w, calls[..n - 1], seeds));
    }
  }

  /** What an access reads was reached before call n. */
  ghost predicate SafeAccess(w: World, calls: seq<ToolCall>, seeds: set<ScopeKey>, n: nat, a: Access)
    requires n <= |calls|
  {
    match a
    case Describe(k) => Reached(w, calls, seeds, k, n)
    case ClassifyLog(k) => Reached(w, calls, seeds, k, n)
    case ReadRelations(k) => Reached(w, calls, seeds, k, n)
    case ListEvents(ns, name) => exists k :: Reached(w, calls, seeds, k, n) && k.namespace == ns && k.name == name
  }

  /** Whatever the n-th call reads had been reached from the seeds by the calls before it. */
  lemma {:induction false} EveryReadWasReached(w: World, calls: seq<ToolCall>, seeds: set<ScopeKey>, n: nat)
    requires n < |calls|
    ensures var e := Execute(w, n, calls[n], ScopeAfter(w, calls[..n], seeds));
      e.access.Some? ==> SafeAccess(w, calls, seeds, n, e.access.value)
  {
    ExecuteIsSafe(w, n, calls[n], ScopeAfter(w, calls[..n], seeds));
    forall k ensures k in ScopeAfter(w, calls[..n], seeds) <==> Reached(w, calls, seeds, k, n) {
      ScopeIsReached(w, calls, seeds, n, k);
    }
  }

  // ---- what the relations and the seeds hold

  /** A service that selects something, and selects these labels. */
  ghost predicate SelectedBy(svc: Service, labels: map<string, string>) {
    |svc.selector| > 0 && forall x :: x in svc.selector ==> x in labels && labels[x] == svc.selector[x]
  }

  lemma {:induction false} SelectsIs(svc: Service, labels: map<string, string>)
    ensures Selects(svc, labels) <==> SelectedBy(svc, labels)
  {
    assert svc.selector == map[] <==> |svc.selector| == 0;
  }

  ghost predicate OwnerNamed(w: World, p: PodObject, namespace: string, i: int, k: ScopeKey) {
    0 <= i < |p.owners| && k == ScopeKey(NormKind(w.line(p.owners[i].kind)), namespace, w.line(p.owners[i].name))
  }

  ghost predicate ClaimNamed(w: World, p: PodObject, namespace: string, i: int, k: ScopeKey) {
    0 <= i < |p.claims| && k == ScopeKey("pvc", namespace, w.line(p.claims[i]))
  }

  ghost predicate ServiceNamed(svcs: seq<Service>, labels: map<string, string>, namespace: string, i: int, k: ScopeKey) {
    0 <= i < |svcs| && SelectedBy(svcs[i], labels) && k == ScopeKey("service", namespace, svcs[i].name)
  }

  lemma {:induction false} OwnerIn(w: World, refs: seq<Ref>, namespace: string, i: nat)
    requires i < |refs|
    ensures ScopeKey(NormKind(w.line(refs[i].kind)), namespace, w.line(refs[i].name)) in Owners(w, refs, namespace)
  {
    if i < |refs| - 1 {
      OwnerIn(w, refs[..|refs| - 1], namespace, i);
    }
  }

  lemma {:induction false} OwnerFound(w: World, refs: seq<Ref>, namespace: string, k: ScopeKey) returns (i: nat)
    requires k in Owners(w, refs, namespace)
    ensures i < |refs| && k == ScopeKey(NormKind(w.line(refs[i].kind)), namespace, w.line(refs[i].name))
  {
    var n := |refs| - 1;
    if k in Owners(w, refs[..n], namespace) {
      i := OwnerFound(w, refs[..n], namespace, k);
    } else {
      i := n;
    }
  }

  lemma {:induction false} OwnersHold(w: World, p: PodObject, namespace: string, k: ScopeKey)
    ensures k in Owners(w, p.owners, namespace) <==> exists i :: OwnerNamed(w, p, namespace, i, k)
  {
    if k in Owners(w, p.owners, namespace) {
      var i := OwnerFound(w, p.owners, namespace, k);
      assert OwnerNamed(w, p, namespace, i, k);
    }
    if i :| OwnerNamed(w, p, namespace, i, k) {
      OwnerIn(w, p.owners, namespace, i);
    }
  }

  lemma {:induction false} ClaimsHold(w: World, p: PodObject, n: nat, namespace: string, k: ScopeKey)
    requires n <= |p.claims|
    ensures k in Claims(w, p.claims[..n], namespace) <==> exists i :: i < n && ClaimNamed(w, p, namespace, i, k)
  {
    if n > 0 {
      ClaimsHold(w, p, n - 1, namespace, k);
      assert p.claims[..n][..n - 1] == p.claims[..n - 1];
      assert ClaimNamed(w, p, namespace, n - 1, k) <==> k == ScopeKey("pvc", namespace, w.line(p.claims[n - 1]));
    }
  }

  lemma {:induction false} SelectingHold(svcs: seq<Service>, labels: map<string, string>, n: nat, namespace: string, k: ScopeKey)
    requires n <= |svcs|
    ensures k in Selecting(svcs[..n], labels, namespace) <==> exists i :: i < n && ServiceNamed(svcs, labels, namespace, i, k)
  {
    if n > 0 {
      SelectingHold(svcs, labels, n - 1, namespace, k);
      SelectsIs(svcs[n - 1], labels);
      assert svcs[..n][..n - 1] == svcs[..n - 1];
      var svc := svcs[n - 1];
      assert ServiceNamed(svcs, labels, namespace, n - 1, k) <==>
        Selects(svc, labels) && k == ScopeKey("service", namespace, svc.name);
    }
  }

  /** What an edge is: an owner reference, the node, a claim or a selecting service of the pod as it was read. */
  lemma {:induction false} EdgeExact(w: World, t: nat, relation: string, from: ScopeKey, to: ScopeKey)
    requires from.kind == "pod" && w.at(t).pod(from.namespace, from.name).Some?
    ensures var p := w.at(t).pod(from.namespace, from.name).value;
      EdgeAt(w, t, relation, from, to) <==>
        || (relation == "owner" && exists i :: OwnerNamed(w, p, from.namespace, i, to))
        || (relation == "node" && p.node != "" && to == ScopeKey("node", "", w.line(p.node)))
        || (relation == "pvc" && exists i :: ClaimNamed(w, p, from.namespace, i, to))
        || (relation == "service" && w.at(t).services(from.namespace).Some?
            && exists i :: ServiceNamed(w.at(t).services(from.namespace).value, p.labels, from.namespace, i, to))
  {
    var p := w.at(t).pod(from.namespace, from.name).value;
    OwnersHold(w, p, from.namespace, to);
    ClaimsHold(w, p, |p.claims|, from.namespace, to);
    assert p.claims[..|p.claims|] == p.claims;
    if w.at(t).services(from.namespace).Some? {
      var svcs := w.at(t).services(from.namespace).value;
      SelectingHold(svcs, p.labels, |svcs|, from.namespace, to);
      assert svcs[..|svcs|] == svcs;
    }
  }

  ghost predicate PodSeed(namespace: string, rows: seq<PodRow>, i: int, k: ScopeKey) {
    && 0 <= i < |rows|
    && (k == ScopeKey("pod", namespace, rows[i].name) || (rows[i].node != "" && k == ScopeKey("node", "", rows[i].node)))
  }

  lemma {:induction false} PodSeedsHold(namespace: string, rows: seq<PodRow>, n: nat, k: ScopeKey)
    requires n <= |rows|
    ensures k in PodSeeds(namespace, rows[..n]) <==> exists i :: i < n && PodSeed(namespace, rows, i, k)
  {
    if n > 0 {
      PodSeedsHold(namespace, rows, n - 1, k);
      assert rows[..n][..n - 1] == rows[..n - 1];
      var p := rows[n - 1];
      assert PodSeed(namespace, rows, n - 1, k) <==>
        k == PodAt(namespace, p.name) || (p.node != "" && k == ScopeKey("node", "", p.node));
    }
  }

  /** A seed is a workload, one of its pods, or the node of one. */
  ghost predicate SeedOf(w: Workload, k: ScopeKey) {
    k == ScopeKey(NormKind(w.kind), w.namespace, w.name) || exists i :: PodSeed(w.namespace, w.pods, i, k)
  }

  lemma {:induction false} SeedsHold(ws: seq<Workload>, k: ScopeKey)
    ensures k in AllSeeds(ws) <==> exists i :: 0 <= i < |ws| && SeedOf(ws[i], k)
  {
    if ws != [] {
      var n := |ws| - 1;
      SeedsHold(ws[..n], k);
      PodSeedsHold(ws[n].namespace, ws[n].pods, |ws[n].pods|, k);
      assert ws[n].pods[..|ws[n].pods|] == ws[n].pods;
      assert k in SeedsOf(ws[n]) <==> SeedOf(ws[n], k);
      if i :| 0 <= i < |ws| && SeedOf(ws[i], k) {
        assert i < n ==> ws[..n][i] == ws[i];
      }
      if i :| 0 <= i < n && SeedOf(ws[..n][i], k) {
        assert ws[..n][i] == ws[i];
      }
    }
  }

  // ---- the reader against a mutable scope

  method AddOwners(w: World, refs: seq<Ref>, namespace: string, scope: ScopeSet)
    modifies scope
    ensures scope.allowed == old(scope.allowed) + Owners(w, refs, namespace)
  {
    for i := 0 to |refs|
      invariant scope.allowed == old(scope.allowed) + Owners(w, refs[..i], namespace)
    {
      assert refs[..i + 1][..i] == refs[..i];
      scope.Add(w.line(refs[i].kind), namespace, w.line(refs[i].name));
    }
    assert refs[..|refs|] == refs;
  }

  method AddClaims(w: World, claims: seq<string>, namespace: string, scope: ScopeSet)
    modifies scope
    ensures scope.allowed == old(scope.allowed) + Claims(w, claims, namespace)
  {
    PlainKinds();
    for i := 0 to |claims|
      invariant scope.allowed == old(scope.allowed) + Claims(w, claims[..i], namespace)
    {
      assert claims[..i + 1][..i] == claims[..i];
      scope.Add("pvc", namespace, w.line(claims[i]));
    }
    assert claims[..|claims|] == claims;
  }

  method AddServices(svcs: seq<Service>, labels: map<string, string>, namespace: string, scope: ScopeSet)
    modifies scope
    ensures scope.allowed == old(scope.allowed) + Selecting(svcs, labels, namespace)
  {
    PlainKinds();
    for i := 0 to |svcs|
      invariant scope.allowed == old(scope.allowed) + Selecting(svcs[..i], labels, namespace)
    {
      assert svcs[..i + 1][..i] == svcs[..i];
      if !Selects(svcs[i], labels) {
        continue;
      }
      scope.Add("service", namespace, svcs[i].name);
    }
    assert svcs[..|svcs|] == svcs;
  }

  method GetRelated(w: World, t: nat, inp: Input, scope: ScopeSet) returns (isError: bool, access: Option<Access>)
    modifies scope
    ensures Effect(isError, scope.allowed, access) == RelatedEffect(w, t, inp, old(scope.allowed))
  {
    PlainKinds();
    if !scope.Allowed("pod", inp.namespace, inp.name) {
      return true, None;
    }
    access := Some(ReadRelations(PodAt(inp.namespace, inp.name)));
    var pod := w.at(t).pod(inp.namespace, inp.name);
    if pod.None? {
      return true, access;
    }
    isError := false;
    if inp.relation == "owner" {
      AddOwners(w, pod.value.owners, inp.namespace, scope);
    } else if inp.relation == "node" {
      if pod.value.node != "" {
        scope.Add("node", "", w.line(pod.value.node));
      }
    } else if inp.relation == "pvc" {
      AddClaims(w, pod.value.claims, inp.namespace, scope);
    } else if inp.relation == "service" {
      var svcs := w.at(t).services(inp.namespace);
      if svcs.None? {
        return true, access;
      }
      AddServices(svcs.value, pod.value.labels, inp.namespace, scope);
    } else {
      isError := true;
    }
  }

  /** Reader.execute against a scope it may grow. */
  method Run(w: World, t: nat, c: ToolCall, scope: ScopeSet) returns (res: ToolResult, access: Option<Access>)
    modifies scope
    ensures res.id == c.id
    ensures Effect(res.isError, scope.allowed, access) == Execute(w, t, c, old(scope.allowed))
  {
    if c.name == "get_related" && c.input.Some? {
      var isError, a := GetRelated(w, t, c.input.value, scope);
      return ToolResult(c.id, isError), a;
    }
    var e := Execute(w, t, c, scope.allowed);
    return ToolResult(c.id, e.isError), e.access;
  }
}
