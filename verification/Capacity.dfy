/**
 internal/capacity: which nodes count, what their pods request, and whether the
 pods of the largest node would fit on the others.  Quantities are milli-cores
 and bytes as unbounded integers.
 */
module Capacity {
  import opened Basics
  import opened Sorting

  datatype Container = Container(cpu: int, mem: int)

  datatype Pod = Pod(namespace: string, name: string, node: string, phase: string,
                     containers: seq<Container>, owners: seq<OwnerRef>)

  datatype Node = Node(name: string, conditions: seq<Condition>, unschedulable: bool,
                       taints: seq<string>, cpuAlloc: int, memAlloc: int)

  /** One included node's arithmetic. */
  datatype NodeCapacity = NodeCapacity(name: string, cpuAlloc: int, memAlloc: int, cpuReq: int, memReq: int)

  datatype Exclusion = Exclusion(node: string, reason: string)

  // ---- pods and nodes

  /** Summed requests over a pod's containers. */
  function Requests(containers: seq<Container>): (r: (int, int)) {
    if containers == [] then (0, 0)
    else
      var (cpu, mem) := Requests(containers[..|containers| - 1]);
      var c := containers[|containers| - 1];
      (cpu + c.cpu, mem + c.mem)
  }

  function CpuOf(c: Container): (r: int) { c.cpu }

  function MemOf(c: Container): (r: int) { c.mem }

  /** Requests are the sums over all containers. */
  lemma {:induction false} RequestsAreSums(cs: seq<Container>)
    ensures Requests(cs) == (Sum(CpuOf, cs), Sum(MemOf, cs))
  {
    if cs != [] {
      RequestsAreSums(cs[..|cs| - 1]);
    }
  }

  function Cpu(p: Pod): (r: int) { Requests(p.containers).0 }

  function Mem(p: Pod): (r: int) { Requests(p.containers).1 }

  predicate Terminal(p: Pod) { p.phase == "Succeeded" || p.phase == "Failed" }

  predicate OwnedByDaemonSet(p: Pod) {
    var o := ControllerOwner(p.owners);
    o.Some? && o.value.kind == "DaemonSet"
  }

  /** Why a node's capacity is not counted, "" when it is. */
  function ExcludeReason(n: Node): (r: string) {
    if ReadyStatus(n.conditions) != Some("True") then "NotReady"
    else if n.unschedulable then "cordoned"
    else if "NoSchedule" in n.taints then "NoSchedule taint"
    else if "NoExecute" in n.taints then "NoExecute taint"
    else ""
  }

  predicate Included(n: Node) { ExcludeReason(n) == "" }

  function Max(a: int, b: int): (m: int) { if a > b then a else b }

  function FreeCpu(n: NodeCapacity): (r: int) { Max(0, n.cpuAlloc - n.cpuReq) }

  function FreeMem(n: NodeCapacity): (r: int) { Max(0, n.memAlloc - n.memReq) }

  // ---- what runs on a node

  /** Requests of the live pods bound to a node, over a prefix of the pod list. */
  function Bound(pods: seq<Pod>, node: string): (r: (int, int)) {
    if pods == [] then (0, 0)
    else
      var (cpu, mem) := Bound(pods[..|pods| - 1], node);
      var p := pods[|pods| - 1];
      if p.node == node && !Terminal(p) then (cpu + Cpu(p), mem + Mem(p)) else (cpu, mem)
  }

  ghost predicate DistinctNames(nodes: seq<Node>) {
    forall i, j :: 0 <= i < j < |nodes| ==> nodes[i].name != nodes[j].name
  }

  function NameKey(n: NodeCapacity): (k: Key) { [Text(n.name)] }

  function ExclusionKey(e: Exclusion): (k: Key) { [Text(e.node)] }

  /** The included row of a node under a pod list. */
  function RowOf(n: Node, pods: seq<Pod>): (r: NodeCapacity) {
    NodeCapacity(n.name, n.cpuAlloc, n.memAlloc, Bound(pods, n.name).0, Bound(pods, n.name).1)
  }

  function RowsOf(nodes: seq<Node>, pods: seq<Pod>): (rows: seq<NodeCapacity>) {
    if nodes == [] then []
    else
      var n := nodes[|nodes| - 1];
      RowsOf(nodes[..|nodes| - 1], pods) + (if Included(n) then [RowOf(n, pods)] else [])
  }

  function ExclusionsOf(nodes: seq<Node>): (rows: seq<Exclusion>) {
    if nodes == [] then []
    else
      var n := nodes[|nodes| - 1];
      ExclusionsOf(nodes[..|nodes| - 1]) + (if Included(n) then [] else [Exclusion(n.name, ExcludeReason(n))])
  }

  /** Each included node's name leads to its row. */
  ghost predicate Indexed(rows: seq<NodeCapacity>, byName: map<string, nat>) {
    && (forall name :: name in byName ==> byName[name] < |rows| && rows[byName[name]].name == name)
    && (forall i :: 0 <= i < |rows| ==> rows[i].name in byName)
  }

  ghost predicate HasNode(nodes: seq<Node>, name: string) {
    exists j :: 0 <= j < |nodes| && nodes[j].name == name
  }

  lemma {:induction false} RowsNameNodes(nodes: seq<Node>, pods: seq<Pod>)
    ensures forall i :: 0 <= i < |RowsOf(nodes, pods)| ==> HasNode(nodes, RowsOf(nodes, pods)[i].name)
  {
    if nodes != [] {
      var k := |nodes| - 1;
      RowsNameNodes(nodes[..k], pods);
      forall name | HasNode(nodes[..k], name) ensures HasNode(nodes, name) {
        var j :| 0 <= j < k && nodes[..k][j].name == name;
        assert nodes[j].name == name;
      }
      assert nodes[k].name == RowOf(nodes[k], pods).name;
    }
  }

  lemma {:induction false} RowsAreDistinct(nodes: seq<Node>, pods: seq<Pod>)
    requires DistinctNames(nodes)
    ensures DistinctRows(RowsOf(nodes, pods))
  {
    if nodes != [] {
      var k := |nodes| - 1;
      RowsAreDistinct(nodes[..k], pods);
      RowsNameNodes(nodes[..k], pods);
      forall j | 0 <= j < k ensures nodes[..k][j].name != nodes[k].name {
        assert nodes[..k][j] == nodes[j];
      }
    }
  }

  ghost predicate DistinctRows(rows: seq<NodeCapacity>) {
    forall i, j :: 0 <= i < j < |rows| ==> rows[i].name != rows[j].name
  }

  lemma {:induction false} NodeStep(nodes: seq<Node>, k: nat)
    requires k < |nodes|
    ensures var n := nodes[k];
      && RowsOf(nodes[..k + 1], []) == RowsOf(nodes[..k], [])
           + (if Included(n) then [NodeCapacity(n.name, n.cpuAlloc, n.memAlloc, 0, 0)] else [])
      && ExclusionsOf(nodes[..k + 1]) == ExclusionsOf(nodes[..k]) + (if Included(n) then [] else [Exclusion(n.name, ExcludeReason(n))])
  {
    assert nodes[..k + 1][..k] == nodes[..k];
  }

  /** The first loop of classifyNodes: rows with no requests yet. */
  method SplitNodes(nodes: seq<Node>)
    returns (rows: seq<NodeCapacity>, excluded: seq<Exclusion>, byName: map<string, nat>)
    ensures rows == RowsOf(nodes, []) && excluded == ExclusionsOf(nodes) && Indexed(rows, byName)
  {
    rows, excluded, byName := [], [], map[];
    for k := 0 to |nodes|
      invariant rows == RowsOf(nodes[..k], []) && excluded == ExclusionsOf(nodes[..k]) && Indexed(rows, byName)
    {
      var n := nodes[k];
      NodeStep(nodes, k);
      if ExcludeReason(n) != "" {
        excluded := excluded + [Exclusion(n.name, ExcludeReason(n))];
        continue;
      }
      byName := byName[n.name := |rows|];
      rows := rows + [NodeCapacity(n.name, n.cpuAlloc, n.memAlloc, 0, 0)];
    }
    assert nodes[..|nodes|] == nodes;
  }

  /** Row i after the requests of `pods` have been added to it. */
  ghost predicate Charged(row: NodeCapacity, bare: NodeCapacity, pods: seq<Pod>) {
    row == bare.(cpuReq := Bound(pods, bare.name).0, memReq := Bound(pods, bare.name).1)
  }

  lemma {:induction false} RowsCharge(nodes: seq<Node>, pods: seq<Pod>)
    ensures |RowsOf(nodes, pods)| == |RowsOf(nodes, [])|
    ensures forall i :: 0 <= i < |RowsOf(nodes, pods)| ==> Charged(RowsOf(nodes, pods)[i], RowsOf(nodes, [])[i], pods)
  {
    if nodes != [] {
      RowsCharge(nodes[..|nodes| - 1], pods);
    }
  }

  /** The second loop of classifyNodes: add each live pod's requests to its node's row. */
  method ChargePods(bare: seq<NodeCapacity>, byName: map<string, nat>, pods: seq<Pod>)
    returns (rows: seq<NodeCapacity>)
    requires Indexed(bare, byName)
    requires forall i :: 0 <= i < |bare| ==> bare[i].cpuReq == 0 && bare[i].memReq == 0
    ensures |rows| == |bare|
    ensures DistinctRows(bare) ==> forall i :: 0 <= i < |rows| ==> Charged(rows[i], bare[i], pods)
  {
    rows := bare;
    for k := 0 to |pods|
      invariant |rows| == |bare|
      invariant DistinctRows(bare) ==> forall i :: 0 <= i < |rows| ==> Charged(rows[i], bare[i], pods[..k])
    {
      var p := pods[k];
      assert pods[..k + 1][..k] == pods[..k];
      if p.node !in byName || Terminal(p) {
        continue;
      }
      var i := byName[p.node];
      rows := rows[i := rows[i].(cpuReq := rows[i].cpuReq + Cpu(p), memReq := rows[i].memReq + Mem(p))];
    }
    assert pods[..|pods|] == pods;
  }

  /**
   classifyNodes: the usable nodes with the summed requests of their live pods,
   the rest with the first reason that applies, both by node name.
   */
  method ClassifyNodes(nodes: seq<Node>, pods: seq<Pod>)
    returns (included: seq<NodeCapacity>, excluded: seq<Exclusion>)
    ensures DistinctNames(nodes) ==> IsSortOf(NameKey, RowsOf(nodes, pods), included)
    ensures IsSortOf(ExclusionKey, ExclusionsOf(nodes), excluded)
  {
    var bare, raw, byName := SplitNodes(nodes);
    RowsCharge(nodes, []);
    var rows := ChargePods(bare, byName, pods);
    if DistinctNames(nodes) {
      RowsAreDistinct(nodes, []);
      RowsCharge(nodes, pods);
      assert rows == RowsOf(nodes, pods);
    }
    included := SortSlice(NameKey, rows);
    excluded := SortSlice(ExclusionKey, raw);
  }

  // ---- first fit

  datatype Slot = Slot(cpu: int, mem: int)

  predicate FitsIn(p: Pod, s: Slot) { s.cpu >= Cpu(p) && s.mem >= Mem(p) }

  function Less(s: Slot, p: Pod): (r: Slot) { Slot(s.cpu - Cpu(p), s.mem - Mem(p)) }

  /** The first slot a pod fits in, |slots| when there is none. */
  function FirstSlot(slots: seq<Slot>, p: Pod): (j: nat)
    ensures j <= |slots|
    ensures j < |slots| ==> FitsIn(p, slots[j])
    ensures forall i :: 0 <= i < j ==> !FitsIn(p, slots[i])
  {
    if slots == [] then 0 else if FitsIn(p, slots[0]) then 0 else 1 + FirstSlot(slots[1..], p)
  }

  /** First-fit, with the first |at| pods already placed and `left` of every slot. */
  function Pack(left: seq<Slot>, pods: seq<Pod>, at: seq<nat>): (r: seq<nat>)
    requires |at| <= |pods|
    ensures |at| <= |r| <= |pods|
    decreases |pods| - |at|
  {
    if |at| == |pods| then at
    else
      var p := pods[|at|];
      var j := FirstSlot(left, p);
      if j == |left| then at else Pack(left[j := Less(left[j], p)], pods, at + [j])
  }

  /** Summed requests of the pods that the placements `at` of the first |at| pods put in slot j. */
  function Moved(pods: seq<Pod>, at: seq<nat>, j: nat): (r: (int, int))
    requires |at| <= |pods|
    decreases |at|
  {
    if at == [] then (0, 0)
    else
      var (cpu, mem) := Moved(pods, at[..|at| - 1], j);
      var p := pods[|at| - 1];
      if at[|at| - 1] == j then (cpu + Cpu(p), mem + Mem(p)) else (cpu, mem)
  }

  /** What those pods leave of slot j. */
  function Residual(slots: seq<Slot>, pods: seq<Pod>, at: seq<nat>, j: nat): (r: Slot)
    requires j < |slots| && |at| <= |pods|
  {
    Slot(slots[j].cpu - Moved(pods, at, j).0, slots[j].mem - Moved(pods, at, j).1)
  }

  /** An assignment of the first |at| pods to slots whose sums stay within every slot. */
  ghost predicate IsPlacement(slots: seq<Slot>, pods: seq<Pod>, at: seq<nat>) {
    && |at| <= |pods|
    && (forall i :: 0 <= i < |at| ==> at[i] < |slots|)
    && (forall j :: 0 <= j < |slots| ==>
          var (cpu, mem) := Moved(pods, at, j); cpu <= slots[j].cpu && mem <= slots[j].mem)
  }

  ghost predicate NonNegative(slots: seq<Slot>) {
    forall j :: 0 <= j < |slots| ==> slots[j].cpu >= 0 && slots[j].mem >= 0
  }

  /** `left` is what the placements so far leave of the slots. */
  ghost predicate IsLeft(slots: seq<Slot>, pods: seq<Pod>, at: seq<nat>, left: seq<Slot>)
    requires |at| <= |pods|
  {
    |left| == |slots| && forall j :: 0 <= j < |slots| ==> left[j] == Residual(slots, pods, at, j)
  }

  /** Placing one more pod where it fits keeps every slot within its sums. */
  lemma {:induction false} PlaceStep(slots: seq<Slot>, pods: seq<Pod>, at: seq<nat>, left: seq<Slot>, j: nat)
    requires IsPlacement(slots, pods, at) && |at| < |pods| && IsLeft(slots, pods, at, left)
    requires j < |left| && FitsIn(pods[|at|], left[j])
    ensures IsPlacement(slots, pods, at + [j])
    ensures IsLeft(slots, pods, at + [j], left[j := Less(left[j], pods[|at|])])
  {
    assert (at + [j])[..|at|] == at;
    forall i | 0 <= i < |slots|
      ensures var (cpu, mem) := Moved(pods, at + [j], i);
        && cpu <= slots[i].cpu && mem <= slots[i].mem
        && left[j := Less(left[j], pods[|at|])][i] == Residual(slots, pods, at + [j], i)
    {
      assert left[i] == Residual(slots, pods, at, i);
    }
  }

  /**
   First-fit is sound: the pods it placed have an assignment that overdraws no
   slot, and the pod it stopped at fits in no residual slot.
   */
  lemma {:induction false} PackIsSound(slots: seq<Slot>, pods: seq<Pod>, at: seq<nat>, left: seq<Slot>)
    requires IsPlacement(slots, pods, at) && IsLeft(slots, pods, at, left)
    ensures var r := Pack(left, pods, at);
      && IsPlacement(slots, pods, r)
      && (|r| < |pods| ==> forall j :: 0 <= j < |slots| ==> !FitsIn(pods[|r|], Residual(slots, pods, r, j)))
    decreases |pods| - |at|
  {
    if |at| < |pods| {
      var j := FirstSlot(left, pods[|at|]);
      if j < |left| {
        PlaceStep(slots, pods, at, left, j);
        PackIsSound(slots, pods, at + [j], left[j := Less(left[j], pods[|at|])]);
      }
    }
  }

  lemma {:induction false} NothingPlaced(slots: seq<Slot>, pods: seq<Pod>)
    requires NonNegative(slots)
    ensures IsPlacement(slots, pods, []) && IsLeft(slots, pods, [], slots)
  {
  }

  // ---- what a failed pass proves

  ghost predicate NonNegativePods(pods: seq<Pod>) {
    forall i :: 0 <= i < |pods| ==> Cpu(pods[i]) >= 0 && Mem(pods[i]) >= 0
  }

  /** Some assignment places every pod. */
  ghost predicate Placeable(slots: seq<Slot>, pods: seq<Pod>) {
    exists at :: IsPlacement(slots, pods, at) && |at| == |pods|
  }

  /** A longer assignment moves at least as much, and at least each of its pods. */
  lemma {:induction false} MovedGrows(pods: seq<Pod>, at: seq<nat>, k: nat, j: nat)
    requires NonNegativePods(pods) && k <= |at| <= |pods|
    ensures Moved(pods, at[..k], j).0 <= Moved(pods, at, j).0 && Moved(pods, at[..k], j).1 <= Moved(pods, at, j).1
    decreases |at|
  {
    if k == |at| {
      assert at[..k] == at;
    } else {
      var init := at[..|at| - 1];
      MovedGrows(pods, init, k, j);
      assert init[..k] == at[..k];
    }
  }

  lemma {:induction false} MovedHolds(pods: seq<Pod>, at: seq<nat>, i: nat)
    requires NonNegativePods(pods) && i < |at| <= |pods|
    ensures Cpu(pods[i]) <= Moved(pods, at, at[i]).0 && Mem(pods[i]) <= Moved(pods, at, at[i]).1
  {
    MovedGrows(pods, at, i + 1, at[i]);
    MovedGrows(pods, at[..i], 0, at[i]);
    assert at[..i + 1][..i] == at[..i] && at[..i][..0] == [];
  }

  /** A pod that no slot could hold even when empty refutes every assignment. */
  lemma {:induction false} TooBigRefutes(slots: seq<Slot>, pods: seq<Pod>, i: nat)
    requires NonNegativePods(pods) && i < |pods| && forall j :: 0 <= j < |slots| ==> !FitsIn(pods[i], slots[j])
    ensures !Placeable(slots, pods)
  {
    forall at | IsPlacement(slots, pods, at) ensures |at| != |pods| {
      if i < |at| {
        MovedHolds(pods, at, i);
        assert FitsIn(pods[i], slots[at[i]]) || Moved(pods, at, at[i]).0 > slots[at[i]].cpu || Moved(pods, at, at[i]).1 > slots[at[i]].mem;
      }
    }
  }

  /** With at most one slot there is nothing to choose: first-fit places everything if anything does. */
  lemma {:induction false} OneSlotExact(slots: seq<Slot>, pods: seq<Pod>)
    requires NonNegative(slots) && NonNegativePods(pods) && |slots| <= 1
    ensures |Pack(slots, pods, [])| == |pods| <==> Placeable(slots, pods)
  {
    NothingPlaced(slots, pods);
    PackIsSound(slots, pods, [], slots);
    var r := Pack(slots, pods, []);
    if |r| < |pods| {
      forall at | IsPlacement(slots, pods, at) ensures |at| != |pods| {
        if |at| == |pods| {
          NoRoomForNext(slots, pods, r, at);
        }
      }
    }
  }

  lemma {:induction false} NoRoomForNext(slots: seq<Slot>, pods: seq<Pod>, r: seq<nat>, at: seq<nat>)
    requires NonNegativePods(pods) && |slots| <= 1 && |r| < |pods| == |at|
    requires IsPlacement(slots, pods, r) && IsPlacement(slots, pods, at)
    ensures |slots| == 1 && FitsIn(pods[|r|], Residual(slots, pods, r, 0))
  {
    var k := |r|;
    assert at[k] < |slots|;
    assert at[..k] == r;
    assert at[..k + 1][..k] == r;
    MovedGrows(pods, at, k + 1, 0);
  }

  /** First-fit over pods in decreasing order fails although some assignment places them all. */
  ghost predicate Misses(slots: seq<Slot>, pods: seq<Pod>) {
    && NonNegative(slots) && NonNegativePods(pods) && Sorted(EvicteeKey, pods)
    && |Pack(slots, pods, [])| < |pods| && Placeable(slots, pods)
  }

  lemma {:induction false} FirstFitCanMiss(slots: seq<Slot>, a: Pod, b: Pod)
    requires |slots| >= 2 && slots[0] == Slot(10, 10) && slots[1] == Slot(10, 5)
    requires forall j :: 2 <= j < |slots| ==> slots[j] == Slot(0, 0)
    requires Cpu(a) == 5 && Mem(a) == 5 && Cpu(b) == 4 && Mem(b) == 10
    ensures |Pack(slots, [a, b], [])| == 1
    ensures IsPlacement(slots, [a, b], [1, 0])
  {
    var slots' := slots[0 := Less(slots[0], a)];
    assert FirstSlot(slots, a) == 0;
    assert forall j :: 0 <= j < |slots'| ==> !FitsIn(b, slots'[j]);
    assert [] + [0] == [0];
    assert Pack(slots', [a, b], [0]) == [0];
    assert [1, 0][..1] == [1] && [1][..0] == [];
    assert forall j :: Moved([a, b], [1], j) == if j == 1 then (5, 5) else (0, 0);
  }

  /** Exactly: on some n slots first-fit over decreasing pods misses if and only if n is at least two. */
  lemma {:induction false} FirstFitMissesIff(n: nat)
    ensures (exists slots, pods :: |slots| == n && Misses(slots, pods)) <==> n >= 2
  {
    if n >= 2 {
      var slots := [Slot(10, 10), Slot(10, 5)] + seq(n - 2, _ => Slot(0, 0));
      var a, b := PairExists();
      FirstFitCanMiss(slots, a, b);
      PairSorted(a, b);
      assert Misses(slots, [a, b]);
    } else {
      forall slots, pods | |slots| == n ensures !Misses(slots, pods) {
        if NonNegative(slots) && NonNegativePods(pods) {
          OneSlotExact(slots, pods);
        }
      }
    }
  }

  // ---- losing the largest node

  datatype Loss = Loss(node: string, singleNode: bool, fits: bool, placed: nat, blocker: string, blockerCpu: int)

  /** Most allocatable CPU; among equals the smallest name. */
  ghost predicate IsLargest(included: seq<NodeCapacity>, v: NodeCapacity) {
    && v in included
    && forall n :: n in included ==> n.cpuAlloc < v.cpuAlloc || (n.cpuAlloc == v.cpuAlloc && TextLe(v.name, n.name))
  }

  method LargestNode(included: seq<NodeCapacity>) returns (best: NodeCapacity)
    requires included != []
    ensures IsLargest(included, best)
  {
    best := included[0];
    TextLeTotal(best.name, best.name);
    for k := 1 to |included|
      invariant IsLargest(included[..k], best)
    {
      var n := included[k];
      TextLeTotal(n.name, best.name);
      TextLeTotal(n.name, n.name);
      assert included[..k + 1] == included[..k] + [n];
      if n.cpuAlloc > best.cpuAlloc || (n.cpuAlloc == best.cpuAlloc && TextLess(n.name, best.name)) {
        forall m | m in included[..k] && m.cpuAlloc == n.cpuAlloc ensures TextLe(n.name, m.name) {
          TextLeTransitive(n.name, best.name, m.name);
        }
        best := n;
      }
    }
    assert included[..|included|] == included;
  }

  predicate TextLess(a: string, b: string) { TextLe(a, b) && a != b }

  /** The slots of the nodes that survive the loss. */
  function Survivors(included: seq<NodeCapacity>, victim: string): (slots: seq<Slot>) {
    if included == [] then []
    else
      var n := included[|included| - 1];
      Survivors(included[..|included| - 1], victim) + (if n.name == victim then [] else [Slot(FreeCpu(n), FreeMem(n))])
  }

  predicate IsEvictee(p: Pod, victim: string) { p.node == victim && !Terminal(p) && !OwnedByDaemonSet(p) }

  function Evictees(pods: seq<Pod>, victim: string): (r: seq<Pod>) {
    if pods == [] then []
    else
      var p := pods[|pods| - 1];
      Evictees(pods[..|pods| - 1], victim) + (if IsEvictee(p, victim) then [p] else [])
  }

  /** Decreasing by CPU, then memory, then by namespace and name. */
  function EvicteeKey(p: Pod): (k: Key) { [Num(-Cpu(p)), Num(-Mem(p)), Text(p.namespace), Text(p.name)] }

  function OwnerLabel(p: Pod): (s: string) {
    match ControllerOwner(p.owners)
    case Some(o) => o.kind + "/" + p.namespace + "/" + o.name
    case None => "Pod/" + p.namespace + "/" + p.name
  }

  lemma {:induction false} SurvivorsNonNegative(included: seq<NodeCapacity>, victim: string)
    ensures NonNegative(Survivors(included, victim))
  {
    if included != [] {
      SurvivorsNonNegative(included[..|included| - 1], victim);
    }
  }

  /** What a node-loss report for more than one node claims: first-fit, which overdraws no slot. */
  ghost predicate IsLossReport(included: seq<NodeCapacity>, pods: seq<Pod>, r: Loss, order: seq<Pod>, at: seq<nat>) {
    var slots := Survivors(included, r.node);
    && !r.singleNode
    && IsSortOf(EvicteeKey, Evictees(pods, r.node), order)
    && at == Pack(slots, order, [])
    && IsPlacement(slots, order, at) && r.placed == |at|
    && (r.fits <==> |at| == |order|)
    && (r.fits ==> r.blocker == "" && r.blockerCpu == 0)
    && (!r.fits ==>
        && (forall j :: 0 <= j < |slots| ==> !FitsIn(order[|at|], Residual(slots, order, at, j)))
        && r.blocker == OwnerLabel(order[|at|]) && r.blockerCpu == Cpu(order[|at|]))
  }

  /** The whole report; `order` and `at` are the packing behind it. */
  ghost predicate IsNodeLoss(included: seq<NodeCapacity>, pods: seq<Pod>, r: Option<Loss>, order: seq<Pod>, at: seq<nat>) {
    && (r.None? <==> included == [])
    && (r.Some? ==> exists v :: IsLargest(included, v) && v.name == r.value.node)
    && (|included| == 1 ==> r.value == Loss(r.value.node, true, false, 0, "", 0))
    && (|included| > 1 ==> IsLossReport(included, pods, r.value, order, at))
  }

  method SurvivorSlots(included: seq<NodeCapacity>, victim: string) returns (slots: seq<Slot>)
    ensures slots == Survivors(included, victim)
  {
    slots := [];
    for k := 0 to |included|
      invariant slots == Survivors(included[..k], victim)
    {
      assert included[..k + 1][..k] == included[..k];
      if included[k].name == victim {
        continue;
      }
      slots := slots + [Slot(FreeCpu(included[k]), FreeMem(included[k]))];
    }
    assert included[..|included|] == included;
  }

  method CollectEvictees(pods: seq<Pod>, victim: string) returns (r: seq<Pod>)
    ensures r == Evictees(pods, victim)
  {
    r := [];
    for k := 0 to |pods|
      invariant r == Evictees(pods[..k], victim)
    {
      assert pods[..k + 1][..k] == pods[..k];
      if pods[k].node != victim || Terminal(pods[k]) || OwnedByDaemonSet(pods[k]) {
        continue;
      }
      r := r + [pods[k]];
    }
    assert pods[..|pods|] == pods;
  }

  /** The inner loop: place one pod in the first slot it fits. */
  method PlaceOne(remaining: array<Slot>, p: Pod) returns (fitted: bool, ghost j: nat)
    modifies remaining
    ensures j == FirstSlot(old(remaining[..]), p)
    ensures fitted <==> j < remaining.Length
    ensures remaining[..] == if fitted then old(remaining[..])[j := Less(old(remaining[j]), p)] else old(remaining[..])
  {
    var i := 0;
    ghost var slots := remaining[..];
    while i < remaining.Length
      invariant 0 <= i <= remaining.Length && remaining[..] == slots
      invariant forall k :: 0 <= k < i ==> !FitsIn(p, slots[k])
    {
      if remaining[i].cpu >= Cpu(p) && remaining[i].mem >= Mem(p) {
        remaining[i] := Slot(remaining[i].cpu - Cpu(p), remaining[i].mem - Mem(p));
        return true, i;
      }
      i := i + 1;
    }
    return false, i;
  }

  /** The outer loop: place pods in order until one fits nowhere. */
  method PlaceAll(remaining: array<Slot>, pods: seq<Pod>) returns (placed: nat, ghost at: seq<nat>)
    modifies remaining
    ensures at == Pack(old(remaining[..]), pods, []) && placed == |at|
  {
    placed, at := 0, [];
    ghost var all := Pack(remaining[..], pods, []);
    while placed < |pods|
      invariant 0 <= placed <= |pods| && placed == |at|
      invariant all == Pack(remaining[..], pods, at)
    {
      var fitted, j := PlaceOne(remaining, pods[placed]);
      if !fitted {
        return;
      }
      at := at + [j];
      placed := placed + 1;
    }
  }

  /** nodeLoss: remove the largest node and first-fit its pods, largest first, onto the others. */
  method NodeLoss(included: seq<NodeCapacity>, pods: seq<Pod>)
    returns (r: Option<Loss>, ghost order: seq<Pod>, ghost at: seq<nat>)
    ensures IsNodeLoss(included, pods, r, order, at)
  {
    order, at := [], [];
    if |included| == 0 {
      return None, [], [];
    }
    var victim := LargestNode(included);
    if |included| == 1 {
      return Some(Loss(victim.name, true, false, 0, "", 0)), [], [];
    }
    var slots := SurvivorSlots(included, victim.name);
    var remaining := new Slot[|slots|](i requires 0 <= i < |slots| => slots[i]);
    assert remaining[..] == slots;
    var evictees := CollectEvictees(pods, victim.name);
    evictees := SortSlice(EvicteeKey, evictees);
    order := evictees;
    SurvivorsNonNegative(included, victim.name);
    NothingPlaced(slots, evictees);
    PackIsSound(slots, evictees, [], slots);
    var placed;
    placed, at := PlaceAll(remaining, evictees);
    if placed < |evictees| {
      var p := evictees[placed];
      r := Some(Loss(victim.name, false, false, placed, OwnerLabel(p), Cpu(p)));
    } else {
      r := Some(Loss(victim.name, false, true, placed, "", 0));
    }
  }

  /** The nodes behind the slots. */
  function SurvivorNodes(included: seq<NodeCapacity>, victim: string): (r: seq<NodeCapacity>) {
    if included == [] then []
    else
      var n := included[|included| - 1];
      SurvivorNodes(included[..|included| - 1], victim) + (if n.name == victim then [] else [n])
  }

  lemma {:induction false} SlotsAreFreeCapacity(included: seq<NodeCapacity>, victim: string)
    ensures |Survivors(included, victim)| == |SurvivorNodes(included, victim)|
    ensures forall j :: 0 <= j < |Survivors(included, victim)| ==>
      var n := SurvivorNodes(included, victim)[j];
      n in included && n.name != victim && Survivors(included, victim)[j] == Slot(FreeCpu(n), FreeMem(n))
  {
    if included != [] {
      SlotsAreFreeCapacity(included[..|included| - 1], victim);
    }
  }

  /**
   A report that fits is a constructive proof: every evictee has a surviving
   node, and no node's requests exceed the larger of its allocatable and what it
   had before.
   */
  lemma {:induction false} FitsIsConstructive(included: seq<NodeCapacity>, pods: seq<Pod>, r: Loss, order: seq<Pod>, at: seq<nat>)
    requires IsLossReport(included, pods, r, order, at) && r.fits
    ensures r.placed == |Evictees(pods, r.node)|
    ensures forall i :: 0 <= i < |order| ==> at[i] < |SurvivorNodes(included, r.node)|
    ensures forall j :: 0 <= j < |SurvivorNodes(included, r.node)| ==>
      var n := SurvivorNodes(included, r.node)[j];
      && n.cpuReq + Moved(order, at, j).0 <= Max(n.cpuAlloc, n.cpuReq)
      && n.memReq + Moved(order, at, j).1 <= Max(n.memAlloc, n.memReq)
  {
    SlotsAreFreeCapacity(included, r.node);
    SameElements(order, Evictees(pods, r.node));
  }

  lemma {:induction false} RowIsNode(nodes: seq<Node>, pods: seq<Pod>, n: NodeCapacity) returns (i: nat)
    requires n in RowsOf(nodes, pods)
    ensures i < |nodes| && Included(nodes[i]) && n == RowOf(nodes[i], pods)
  {
    var k := |nodes| - 1;
    if n in RowsOf(nodes[..k], pods) {
      i := RowIsNode(nodes[..k], pods, n);
    } else {
      i := k;
    }
  }

  /** Taking its share keeps a node within the larger of its allocatable and what the live pods bound to it request. */
  ghost predicate StaysWithin(node: Node, pods: seq<Pod>, share: (int, int)) {
    && Bound(pods, node.name).0 + share.0 <= Max(node.cpuAlloc, Bound(pods, node.name).0)
    && Bound(pods, node.name).1 + share.1 <= Max(node.memAlloc, Bound(pods, node.name).1)
  }

  /** The same over the cluster itself: the j-th surviving row is a usable node, counted with the pods bound to it. */
  lemma {:induction false} FitsOnNodes(nodes: seq<Node>, pods: seq<Pod>, included: seq<NodeCapacity>, r: Loss, order: seq<Pod>,
                                       at: seq<nat>, j: nat) returns (i: nat)
    requires IsSortOf(NameKey, RowsOf(nodes, pods), included) && IsLossReport(included, pods, r, order, at) && r.fits
    requires j < |SurvivorNodes(included, r.node)|
    ensures i < |nodes| && Included(nodes[i]) && nodes[i].name != r.node
    ensures SurvivorNodes(included, r.node)[j] == RowOf(nodes[i], pods) && StaysWithin(nodes[i], pods, Moved(order, at, j))
  {
    FitsIsConstructive(included, pods, r, order, at);
    SlotsAreFreeCapacity(included, r.node);
    SameElements(RowsOf(nodes, pods), included);
    i := RowIsNode(nodes, pods, SurvivorNodes(included, r.node)[j]);
  }

  ghost predicate DistinctPods(pods: seq<Pod>) {
    forall i, j :: 0 <= i < j < |pods| ==> pods[i].namespace != pods[j].namespace || pods[i].name != pods[j].name
  }

  lemma {:induction false} EvicteesArePods(pods: seq<Pod>, victim: string)
    ensures forall i :: 0 <= i < |Evictees(pods, victim)| ==> Evictees(pods, victim)[i] in pods
  {
    if pods != [] {
      EvicteesArePods(pods[..|pods| - 1], victim);
    }
  }

  lemma {:induction false} EvicteeKeyIdentifies(pods: seq<Pod>, victim: string, order: seq<Pod>)
    requires DistinctPods(pods) && multiset(order) == multiset(Evictees(pods, victim))
    ensures KeyIdentifies(EvicteeKey, order)
  {
    SameElements(order, Evictees(pods, victim));
    EvicteesArePods(pods, victim);
    forall i, j | 0 <= i < |order| && 0 <= j < |order| && EvicteeKey(order[i]) == EvicteeKey(order[j])
      ensures order[i] == order[j]
    {
      assert EvicteeKey(order[i])[2] == EvicteeKey(order[j])[2] && EvicteeKey(order[i])[3] == EvicteeKey(order[j])[3];
      assert order[i] in Evictees(pods, victim) && order[j] in Evictees(pods, victim);
      assert order[i] in pods && order[j] in pods;
      var x :| 0 <= x < |pods| && pods[x] == order[i];
      var y :| 0 <= y < |pods| && pods[y] == order[j];
    }
  }

  lemma {:induction false} OneVictim(included: seq<NodeCapacity>, v: NodeCapacity, w: NodeCapacity)
    requires IsLargest(included, v) && IsLargest(included, w)
    ensures v.name == w.name
  {
    TextLeTotal(v.name, w.name);
  }

  /** With distinct pods the report, its blocker included, never varies between runs. */
  lemma {:induction false} NodeLossUnique(included: seq<NodeCapacity>, pods: seq<Pod>,
                                          a: Option<Loss>, orderA: seq<Pod>, atA: seq<nat>,
                                          b: Option<Loss>, orderB: seq<Pod>, atB: seq<nat>)
    requires DistinctPods(pods) && IsNodeLoss(included, pods, a, orderA, atA) && IsNodeLoss(included, pods, b, orderB, atB)
    ensures a == b
  {
    if included != [] {
      var v :| IsLargest(included, v) && v.name == a.value.node;
      var w :| IsLargest(included, w) && w.name == b.value.node;
      OneVictim(included, v, w);
      if |included| > 1 {
        EvicteeKeyIdentifies(pods, a.value.node, orderA);
        SortUnique(EvicteeKey, orderA, orderB);
      }
    }
  }

  /** A failed report refutes every assignment when its blocker is too big for every survivor, or only one node survives. */
  lemma {:induction false} FailureRefutes(included: seq<NodeCapacity>, pods: seq<Pod>, r: Loss, order: seq<Pod>, at: seq<nat>)
    requires IsLossReport(included, pods, r, order, at) && !r.fits && NonNegativePods(order)
    requires var slots := Survivors(included, r.node);
      |slots| <= 1 || forall j :: 0 <= j < |slots| ==> !FitsIn(order[r.placed], slots[j])
    ensures !Placeable(Survivors(included, r.node), order)
  {
    var slots := Survivors(included, r.node);
    SurvivorsNonNegative(included, r.node);
    if |slots| <= 1 {
      OneSlotExact(slots, order);
    } else {
      TooBigRefutes(slots, order, r.placed);
    }
  }

  // ---- a cluster on which first-fit misses

  /** A node-loss report of this cluster says "may not fit" although the pods do fit. */
  ghost predicate MissedReport(nodes: seq<Node>, pods: seq<Pod>, included: seq<NodeCapacity>, r: Loss, order: seq<Pod>, at: seq<nat>) {
    && IsSortOf(NameKey, RowsOf(nodes, pods), included) && IsNodeLoss(included, pods, Some(r), order, at)
    && !r.singleNode && !r.fits && NonNegativePods(order) && Placeable(Survivors(included, r.node), order)
  }

  ghost predicate MissesOn(nodes: seq<Node>, pods: seq<Pod>, survivors: nat) {
    && DistinctNames(nodes) && DistinctPods(pods) && |RowsOf(nodes, pods)| == survivors + 1
    && exists included, r, order, at :: MissedReport(nodes, pods, included, r, order, at)
  }

  lemma {:induction false} VictimIsGone(included: seq<NodeCapacity>, v: NodeCapacity)
    requires v in included
    ensures |Survivors(included, v.name)| < |included|
  {
    var k := |included| - 1;
    SurvivorsAtMost(included[..k], v.name);
    if v in included[..k] {
      VictimIsGone(included[..k], v);
    }
  }

  lemma {:induction false} SurvivorsAtMost(included: seq<NodeCapacity>, victim: string)
    ensures |Survivors(included, victim)| <= |included|
  {
    if included != [] {
      SurvivorsAtMost(included[..|included| - 1], victim);
    }
  }

  /** With one survivor or none no report misses. */
  lemma {:induction false} FewSurvivorsNeverMiss(nodes: seq<Node>, pods: seq<Pod>, survivors: nat)
    requires survivors <= 1
    ensures !MissesOn(nodes, pods, survivors)
  {
    if MissesOn(nodes, pods, survivors) {
      var included, r, order, at :| MissedReport(nodes, pods, included, r, order, at);
      SameElements(RowsOf(nodes, pods), included);
      var v :| IsLargest(included, v) && v.name == r.node;
      VictimIsGone(included, v);
      FailureRefutes(included, pods, r, order, at);
    }
  }

  /** Two pods of node v that fill the slots (10, 10) and (10, 5) only crosswise. */
  ghost predicate IsPair(a: Pod, b: Pod) {
    && IsEvictee(a, "v") && IsEvictee(b, "v") && a.name != b.name
    && Cpu(a) == 5 && Mem(a) == 5 && Cpu(b) == 4 && Mem(b) == 10
  }

  lemma {:induction false} OneContainer(p: Pod, cpu: int, mem: int)
    requires p.containers == [Container(cpu, mem)]
    ensures Cpu(p) == cpu && Mem(p) == mem
  {
    assert p.containers[..0] == [];
    assert Requests(p.containers[..0]) == (0, 0);
    assert Requests(p.containers) == (0 + p.containers[0].cpu, 0 + p.containers[0].mem);
  }

  lemma {:induction false} PairExists() returns (a: Pod, b: Pod)
    ensures IsPair(a, b)
  {
    a := Pod("shop", "a", "v", "Running", [Container(5, 5)], []);
    b := Pod("shop", "b", "v", "Running", [Container(4, 10)], []);
    OneContainer(a, 5, 5);
    OneContainer(b, 4, 10);
  }

  lemma {:induction false} PairEvicted(a: Pod, b: Pod)
    requires IsPair(a, b)
    ensures Evictees([a, b], "v") == [a, b]
  {
    assert [a, b][..1] == [a] && [a][..0] == [];
    assert Evictees([a], "v") == [] + [a];
    assert Evictees([a, b], "v") == Evictees([a], "v") + [b];
  }

  lemma {:induction false} PairSorted(a: Pod, b: Pod)
    requires IsPair(a, b)
    ensures IsSortOf(EvicteeKey, [a, b], [a, b])
  {
    assert EvicteeKey(a)[0] == Num(-5) && EvicteeKey(b)[0] == Num(-4);
  }

  lemma {:induction false} PairBound(a: Pod, b: Pod, name: string)
    requires IsPair(a, b) && name != "v"
    ensures Bound([a, b], name) == (0, 0)
  {
    assert [a, b][..1] == [a] && [a][..0] == [];
    assert Bound([a], name) == (0, 0);
  }

  function NameOf(i: nat): (s: string) { seq(i + 1, _ => 'n') }

  function CapacityAt(i: nat): (s: Slot) { if i == 0 then Slot(10, 10) else if i == 1 then Slot(10, 5) else Slot(0, 0) }

  /** Two survivors worth having, n - 2 empty ones, and node v. */
  ghost predicate IsTight(nodes: seq<Node>, n: nat) {
    && |nodes| == n + 1 && nodes[n].name == "v" && nodes[n].cpuAlloc == 20 && (forall i :: 0 <= i <= n ==> Included(nodes[i]))
    && forall i :: 0 <= i < n ==> nodes[i].name == NameOf(i) && Slot(nodes[i].cpuAlloc, nodes[i].memAlloc) == CapacityAt(i)
  }

  function NodeOf(name: string, s: Slot): (n: Node)
    ensures Included(n)
  {
    var n := Node(name, [Condition("Ready", "True")], false, [], s.cpu, s.mem);
    assert ReadyStatus(n.conditions) == Some("True");
    n
  }

  lemma {:induction false} TightExists(n: nat) returns (nodes: seq<Node>)
    ensures IsTight(nodes, n)
  {
    nodes := seq(n, i requires 0 <= i < n => NodeOf(NameOf(i), CapacityAt(i))) + [NodeOf("v", Slot(20, 20))];
  }

  lemma {:induction false} PrefixLe(a: string, b: string)
    requires a <= b
    ensures TextLe(a, b)
  {
    if a != [] {
      PrefixLe(a[1..], b[1..]);
    }
  }

  lemma {:induction false} NamesAscend(i: nat, j: nat)
    requires i <= j
    ensures TextLe(NameOf(i), NameOf(j)) && (NameOf(i) == NameOf(j) ==> i == j)
    ensures TextLe(NameOf(i), "v") && NameOf(i) != "v"
  {
    assert NameOf(i)[0] == 'n' && "v"[0] == 'v';
    assert |NameOf(i)| == i + 1 && |NameOf(j)| == j + 1;
    PrefixLe(NameOf(i), NameOf(j));
  }

  lemma {:induction false} TightNames(nodes: seq<Node>, n: nat)
    requires IsTight(nodes, n)
    ensures forall i, j :: 0 <= i < j < |nodes| ==> TextLe(nodes[i].name, nodes[j].name) && nodes[i].name != nodes[j].name
  {
    forall i, j | 0 <= i < j < |nodes| ensures TextLe(nodes[i].name, nodes[j].name) && nodes[i].name != nodes[j].name {
      NamesAscend(i, if j < n then j else i);
    }
  }

  lemma {:induction false} AllRows(nodes: seq<Node>, pods: seq<Pod>)
    requires forall i :: 0 <= i < |nodes| ==> Included(nodes[i])
    ensures |RowsOf(nodes, pods)| == |nodes| && forall i :: 0 <= i < |nodes| ==> RowsOf(nodes, pods)[i] == RowOf(nodes[i], pods)
  {
    if nodes != [] {
      AllRows(nodes[..|nodes| - 1], pods);
    }
  }

  lemma {:induction false} AllSurvive(rows: seq<NodeCapacity>, victim: string)
    requires forall i :: 0 <= i < |rows| ==> rows[i].name != victim
    ensures |Survivors(rows, victim)| == |rows|
    ensures forall i :: 0 <= i < |rows| ==> Survivors(rows, victim)[i] == Slot(FreeCpu(rows[i]), FreeMem(rows[i]))
  {
    if rows != [] {
      AllSurvive(rows[..|rows| - 1], victim);
    }
  }

  /** Rows of a tight cluster: the survivors with nothing bound to them, then node v. */
  ghost predicate AreTightRows(rows: seq<NodeCapacity>, n: nat) {
    && |rows| == n + 1 && rows[n].name == "v" && rows[n].cpuAlloc == 20
    && forall i :: 0 <= i < n ==>
         rows[i] == NodeCapacity(NameOf(i), CapacityAt(i).cpu, CapacityAt(i).mem, 0, 0)
  }

  lemma {:induction false} TightRows(nodes: seq<Node>, n: nat, a: Pod, b: Pod)
    requires IsTight(nodes, n) && IsPair(a, b)
    ensures AreTightRows(RowsOf(nodes, [a, b]), n)
  {
    AllRows(nodes, [a, b]);
    forall i | 0 <= i < n ensures Bound([a, b], nodes[i].name) == (0, 0) {
      NamesAscend(i, i);
      PairBound(a, b, nodes[i].name);
    }
  }

  lemma {:induction false} TightSorted(nodes: seq<Node>, n: nat, pods: seq<Pod>)
    requires IsTight(nodes, n)
    ensures Sorted(NameKey, RowsOf(nodes, pods)) && DistinctNames(nodes)
  {
    AllRows(nodes, pods);
    TightNames(nodes, n);
    var rows := RowsOf(nodes, pods);
    forall i, j | 0 <= i < j < |rows| ensures KeyLe(NameKey(rows[i]), NameKey(rows[j])) {
      assert NameKey(rows[i])[0] == Text(nodes[i].name) && NameKey(rows[j])[0] == Text(nodes[j].name);
    }
  }

  lemma {:induction false} TightSlots(rows: seq<NodeCapacity>, n: nat)
    requires AreTightRows(rows, n)
    ensures |Survivors(rows, "v")| == n && forall i :: 0 <= i < n ==> Survivors(rows, "v")[i] == CapacityAt(i)
  {
    forall i | 0 <= i < n ensures rows[..n][i].name != "v" {
      NamesAscend(i, i);
    }
    AllSurvive(rows[..n], "v");
    assert Survivors(rows, "v") == Survivors(rows[..n], "v");
  }

  /** First-fit over the pair on the tight slots places one pod, and both fit. */
  lemma {:induction false} TightReport(rows: seq<NodeCapacity>, n: nat, a: Pod, b: Pod) returns (r: Loss, at: seq<nat>)
    requires n >= 2 && AreTightRows(rows, n) && IsPair(a, b)
    ensures IsLossReport(rows, [a, b], r, [a, b], at) && !r.fits && r.node == "v"
    ensures Placeable(Survivors(rows, "v"), [a, b])
  {
    var slots := Survivors(rows, "v");
    TightSlots(rows, n);
    FirstFitCanMiss(slots, a, b);
    PairEvicted(a, b);
    PairSorted(a, b);
    at := Pack(slots, [a, b], []);
    SurvivorsNonNegative(rows, "v");
    NothingPlaced(slots, [a, b]);
    PackIsSound(slots, [a, b], [], slots);
    r := Loss("v", false, false, 1, OwnerLabel(b), Cpu(b));
    assert IsPlacement(slots, [a, b], [1, 0]);
  }

  lemma {:induction false} TightLargest(rows: seq<NodeCapacity>, n: nat)
    requires AreTightRows(rows, n)
    ensures IsLargest(rows, rows[n])
  {
    TextLeTotal("v", "v");
    forall m | m in rows ensures m.cpuAlloc < 20 || m == rows[n] {
      var i :| 0 <= i < |rows| && rows[i] == m;
      assert i < n ==> m.cpuAlloc == CapacityAt(i).cpu;
    }
  }

  lemma {:induction false} IsWholeReport(included: seq<NodeCapacity>, pods: seq<Pod>, v: NodeCapacity, r: Loss, order: seq<Pod>, at: seq<nat>)
    requires |included| > 1 && IsLargest(included, v) && v.name == r.node && IsLossReport(included, pods, r, order, at)
    ensures IsNodeLoss(included, pods, Some(r), order, at)
  {
  }

  /** What the report of a tight cluster needs from its rows and pods. */
  ghost predicate MissesWith(rows: seq<NodeCapacity>, pods: seq<Pod>, r: Loss, order: seq<Pod>, at: seq<nat>) {
    && DistinctPods(pods) && IsNodeLoss(rows, pods, Some(r), order, at)
    && !r.singleNode && !r.fits && NonNegativePods(order) && Placeable(Survivors(rows, r.node), order)
  }

  lemma {:induction false} TightRowsMiss(rows: seq<NodeCapacity>, n: nat, a: Pod, b: Pod) returns (r: Loss, at: seq<nat>)
    requires n >= 2 && AreTightRows(rows, n) && IsPair(a, b)
    ensures MissesWith(rows, [a, b], r, [a, b], at)
  {
    TightLargest(rows, n);
    r, at := TightReport(rows, n, a, b);
    IsWholeReport(rows, [a, b], rows[n], r, [a, b], at);
  }

  lemma {:induction false} FoundMiss(nodes: seq<Node>, pods: seq<Pod>, n: nat, rows: seq<NodeCapacity>, r: Loss, order: seq<Pod>, at: seq<nat>)
    requires IsTight(nodes, n) && rows == RowsOf(nodes, pods) && |rows| == n + 1 && MissesWith(rows, pods, r, order, at)
    ensures MissesOn(nodes, pods, n)
  {
    TightSorted(nodes, n, pods);
    assert MissedReport(nodes, pods, rows, r, order, at);
  }

  /** With two survivors or more, a cluster whose report misses. */
  lemma {:induction false} TightClusterMisses(n: nat) returns (nodes: seq<Node>, pods: seq<Pod>)
    requires n >= 2
    ensures MissesOn(nodes, pods, n)
  {
    nodes := TightExists(n);
    var a, b := PairExists();
    TightRows(nodes, n, a, b);
    pods := [a, b];
    var rows := RowsOf(nodes, pods);
    var r, at := TightRowsMiss(rows, n, a, b);
    FoundMiss(nodes, pods, n, rows, r, pods, at);
  }

  /** Exactly: some cluster with n survivors gets a report that misses an assignment if and only if n is at least two. */
  lemma {:induction false} NodeLossMissesIff(n: nat)
    ensures (exists nodes, pods :: MissesOn(nodes, pods, n)) <==> n >= 2
  {
    if n >= 2 {
      var nodes, pods := TightClusterMisses(n);
    } else {
      forall nodes, pods ensures !MissesOn(nodes, pods, n) {
        FewSurvivorsNeverMiss(nodes, pods, n);
      }
    }
  }

  // ---- over containers

  /** All containers of some pods. */
  function Containers(pods: seq<Pod>): (cs: seq<Container>) {
    if pods == [] then [] else Containers(pods[..|pods| - 1]) + pods[|pods| - 1].containers
  }

  function LiveOn(node: string): (f: Pod -> bool) { (p: Pod) => p.node == node && !(p.phase == "Succeeded" || p.phase == "Failed") }

  /** The pods that the placements put in slot j. */
  function PlacedIn(pods: seq<Pod>, at: seq<nat>, j: nat): (r: seq<Pod>)
    requires |at| <= |pods|
    decreases |at|
  {
    if at == [] then []
    else PlacedIn(pods, at[..|at| - 1], j) + (if at[|at| - 1] == j then [pods[|at| - 1]] else [])
  }

  lemma {:induction false} SumConcat(f: Container -> int, a: seq<Container>, b: seq<Container>)
    ensures Sum(f, a + b) == Sum(f, a) + Sum(f, b)
  {
    if b == [] {
      assert a + b == a;
    } else {
      var n := |b| - 1;
      SumConcat(f, a, b[..n]);
      assert a + b == (a + b[..n]) + [b[n]];
      SumAppend(f, a + b[..n], b[n]);
    }
  }

  /** Requests are additive over containers. */
  lemma {:induction false} RequestsAdd(a: seq<Container>, b: seq<Container>)
    ensures Requests(a + b) == (Requests(a).0 + Requests(b).0, Requests(a).1 + Requests(b).1)
  {
    RequestsAreSums(a);
    RequestsAreSums(b);
    RequestsAreSums(a + b);
    SumConcat(CpuOf, a, b);
    SumConcat(MemOf, a, b);
  }

  lemma {:induction false} BoundIsContainers(pods: seq<Pod>, node: string)
    ensures Bound(pods, node) == Requests(Containers(Filter(LiveOn(node), pods)))
  {
    if pods != [] {
      var n := |pods| - 1;
      BoundIsContainers(pods[..n], node);
      var live := Filter(LiveOn(node), pods[..n]);
      assert (live + [pods[n]])[..|live|] == live;
      RequestsAdd(Containers(live), pods[n].containers);
    }
  }

  lemma {:induction false} MovedIsContainers(pods: seq<Pod>, at: seq<nat>, j: nat)
    requires |at| <= |pods|
    ensures Moved(pods, at, j) == Requests(Containers(PlacedIn(pods, at, j)))
    decreases |at|
  {
    if at == [] {
      assert Containers([]) == [];
    } else {
      var n := |at| - 1;
      MovedIsContainers(pods, at[..n], j);
      var placed := PlacedIn(pods, at[..n], j);
      assert (placed + [pods[n]])[..|placed|] == placed && placed + [] == placed;
      RequestsAdd(Containers(placed), pods[n].containers);
    }
  }

  /** The placed pods are the evictees themselves, each in the slot it was given. */
  lemma {:induction false} PlacedInIs(pods: seq<Pod>, at: seq<nat>, j: nat, p: Pod)
    requires |at| <= |pods|
    ensures p in PlacedIn(pods, at, j) <==> exists i :: 0 <= i < |at| && at[i] == j && pods[i] == p
    decreases |at|
  {
    if at != [] {
      var n := |at| - 1;
      PlacedInIs(pods, at[..n], j, p);
      assert forall i :: 0 <= i < n ==> at[..n][i] == at[i];
    }
  }

  /** What the containers of a node's own live pods and of the pods moved to it request in total. */
  ghost predicate ContainersFit(node: Node, own: seq<Container>, moved: seq<Container>) {
    && Sum(CpuOf, own + moved) <= Max(node.cpuAlloc, Sum(CpuOf, own))
    && Sum(MemOf, own + moved) <= Max(node.memAlloc, Sum(MemOf, own))
  }

  /**
   Fits, over containers: on each surviving node the containers of the live pods
   bound to it or moved to it request at most the larger of its allocatable and
   what was requested before.
   */
  lemma {:induction false} FitsOverContainers(nodes: seq<Node>, pods: seq<Pod>, included: seq<NodeCapacity>, r: Loss, order: seq<Pod>,
                                              at: seq<nat>, j: nat) returns (i: nat)
    requires IsSortOf(NameKey, RowsOf(nodes, pods), included) && IsLossReport(included, pods, r, order, at) && r.fits
    requires j < |SurvivorNodes(included, r.node)|
    ensures i < |nodes| && Included(nodes[i]) && nodes[i].name != r.node && SurvivorNodes(included, r.node)[j].name == nodes[i].name
    ensures ContainersFit(nodes[i], Containers(Filter(LiveOn(nodes[i].name), pods)), Containers(PlacedIn(order, at, j)))
  {
    i := FitsOnNodes(nodes, pods, included, r, order, at, j);
    var own, moved := Containers(Filter(LiveOn(nodes[i].name), pods)), Containers(PlacedIn(order, at, j));
    BoundIsContainers(pods, nodes[i].name);
    MovedIsContainers(order, at, j);
    RequestsAreSums(own);
    RequestsAreSums(moved);
    SumConcat(CpuOf, own, moved);
    SumConcat(MemOf, own, moved);
  }

  /** Who is evicted: the live pods of the victim that no DaemonSet owns, most CPU first, then most memory, then by name. */
  lemma {:induction false} EvictionOrder(included: seq<NodeCapacity>, pods: seq<Pod>, r: Loss, order: seq<Pod>, at: seq<nat>)
    requires IsLossReport(included, pods, r, order, at)
    ensures forall p :: p in order <==> p in pods && LiveOn(r.node)(p) && !OwnedByDaemonSet(p)
    ensures forall i, j :: 0 <= i < j < |order| ==> EvictedBefore(order[i], order[j])
  {
    SameElements(order, Evictees(pods, r.node));
    forall p ensures p in order <==> p in pods && LiveOn(r.node)(p) && !OwnedByDaemonSet(p) {
      EvicteeIff(pods, r.node, p);
    }
    forall i, j | 0 <= i < j < |order| ensures EvictedBefore(order[i], order[j]) {
      KeysInOrder(order[i], order[j]);
    }
  }

  predicate EvictedBefore(a: Pod, b: Pod) {
    || Sum(CpuOf, a.containers) > Sum(CpuOf, b.containers)
    || (Sum(CpuOf, a.containers) == Sum(CpuOf, b.containers)
        && (|| Sum(MemOf, a.containers) > Sum(MemOf, b.containers)
            || (Sum(MemOf, a.containers) == Sum(MemOf, b.containers)
                && (TextLess(a.namespace, b.namespace) || (a.namespace == b.namespace && TextLe(a.name, b.name))))))
  }

  lemma {:induction false} KeysInOrder(a: Pod, b: Pod)
    requires KeyLe(EvicteeKey(a), EvicteeKey(b))
    ensures EvictedBefore(a, b)
  {
    RequestsAreSums(a.containers);
    RequestsAreSums(b.containers);
    var x, y := EvicteeKey(a), EvicteeKey(b);
    if x[0] == y[0] {
      var x1, y1 := x[1..], y[1..];
      assert KeyLe(x1, y1) && x1[0] == Num(-Mem(a)) && y1[0] == Num(-Mem(b));
      if x1[0] == y1[0] {
        var x2, y2 := x1[1..], y1[1..];
        assert KeyLe(x2, y2) && x2[0] == Text(a.namespace) && y2[0] == Text(b.namespace);
        if x2[0] == y2[0] {
          var x3, y3 := x2[1..], y2[1..];
          assert KeyLe(x3, y3) && x3[0] == Text(a.name) && y3[0] == Text(b.name);
          TextLeTotal(a.name, b.name);
        }
      }
    }
  }

  lemma {:induction false} EvicteeIff(pods: seq<Pod>, victim: string, p: Pod)
    ensures p in Evictees(pods, victim) <==> p in pods && LiveOn(victim)(p) && !OwnedByDaemonSet(p)
  {
    if pods != [] {
      var n := |pods| - 1;
      EvicteeIff(pods[..n], victim, p);
      assert pods == pods[..n] + [pods[n]];
    }
  }

  // ---- which nodes count

  /** A node counts iff its first Ready condition is "True", it is schedulable and no taint keeps new pods off it. */
  lemma {:induction false} IncludedExact(n: Node)
    ensures Included(n) <==>
      FirstReadyIs(n.conditions, "True") && !n.unschedulable && "NoSchedule" !in n.taints && "NoExecute" !in n.taints
    ensures ExcludeReason(n) == "NotReady" <==> !FirstReadyIs(n.conditions, "True")
    ensures ExcludeReason(n) == "cordoned" <==> FirstReadyIs(n.conditions, "True") && n.unschedulable
  {
    ReadyStatusExact(n.conditions, "True");
    assert |"NotReady"| == 8 && |"cordoned"| == 8 && "NotReady"[0] == 'N' && "cordoned"[0] == 'c';
    assert |"NoSchedule taint"| == 16 && |"NoExecute taint"| == 15;
  }
}
