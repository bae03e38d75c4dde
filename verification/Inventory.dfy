/**
 internal/inventory: pods rolled up into workloads.  A workload is identified by
 the text kind/namespace/name, as in the source; `Assemble` fills a map from that
 key and `Prioritize` filters what is shown.
 */
module Inventory {
  import opened Basics
  import opened Sorting

  datatype ContainerStatus = ContainerStatus(restarts: nat, ready: bool)

  /** The columns of a corev1.Pod that the roll-up reads. */
  datatype Pod = Pod(namespace: string, name: string, phase: string, node: string, image: string,
                     statuses: seq<ContainerStatus>, owners: seq<OwnerRef>)

  /** A Deployment, StatefulSet or DaemonSet; an unset replica count means one. */
  datatype Controller = Controller(kind: string, namespace: string, name: string, replicas: Option<int>, ready: int)

  datatype ReplicaSet = ReplicaSet(namespace: string, name: string, owners: seq<OwnerRef>)

  datatype Job = Job(namespace: string, name: string, owners: seq<OwnerRef>, status: string)

  datatype CronJob = CronJob(namespace: string, name: string, status: string, schedule: string)

  datatype Inputs = Inputs(pods: seq<Pod>, controllers: seq<Controller>, replicaSets: seq<ReplicaSet>,
                           jobs: seq<Job>, cronJobs: seq<CronJob>)

  /** A detector's match; `pod` is "namespace/name". */
  datatype PodFinding = PodFinding(pod: string, issue: string, reason: string, evidence: string, container: string)

  /** One root-cause candidate of the attribution pass. */
  datatype Hypothesis = Hypothesis(cause: string, kind: string, ruledOut: bool, subject: string)

  datatype PodRow = PodRow(name: string, phase: string, restarts: int, node: string)

  datatype Workload = Workload(
    namespace: string, name: string, kind: string, desired: int, ready: int, status: string,
    restarts: int, image: string, pods: seq<PodRow>, podsOmitted: nat, findings: seq<PodFinding>,
    schedule: string, priority: nat, trace: seq<Hypothesis>)

  datatype Owner = Owner(kind: string, namespace: string, name: string)

  const JOB_POD_CAP: nat := 3

  predicate Flagged(w: Workload) { w.findings != [] || w.ready < w.desired || w.status == "Failed" }

  function NamedKey(namespace: string, name: string): (k: string) { namespace + "/" + name }

  function PodId(p: Pod): (k: string) { NamedKey(p.namespace, p.name) }

  function KeyOf(w: Workload): (k: string) { ObjectKey(w.kind, w.namespace, w.name) }

  // ---- pod columns

  function PodRestarts(p: Pod): (n: int) { Sum((c: ContainerStatus) => c.restarts, p.statuses) }

  predicate PodIsReady(p: Pod) { p.statuses != [] && forall i :: 0 <= i < |p.statuses| ==> p.statuses[i].ready }

  function RowFor(p: Pod): (r: PodRow) { PodRow(p.name, p.phase, PodRestarts(p), p.node) }

  function WorkloadStatus(ready: int, desired: int): (s: string) {
    if desired == 0 then "Scaled Down" else if ready >= desired then "Running" else "Degraded"
  }

  /** "" while any pod is live; else whether any failed. */
  function TerminalPodStatus(rows: seq<PodRow>): (s: string) {
    if rows == [] || exists i :: 0 <= i < |rows| && rows[i].phase !in {"Succeeded", "Failed"} then ""
    else if exists i :: 0 <= i < |rows| && rows[i].phase == "Failed" then "Failed"
    else "Complete"
  }

  // ---- pod to workload

  /** The Deployment behind a ReplicaSet key; a later entry for the same key wins. */
  function DeploymentOf(sets: seq<ReplicaSet>, key: string): (d: Option<string>) {
    if sets == [] then None
    else
      var rs := sets[|sets| - 1];
      var o := ControllerOwner(rs.owners);
      if NamedKey(rs.namespace, rs.name) == key && o.Some? && o.value.kind == "Deployment" then Some(o.value.name)
      else DeploymentOf(sets[..|sets| - 1], key)
  }

  /** The CronJob a Job key names; a later entry for the same key wins. */
  function CronJobOf(jobs: seq<Job>, key: string): (c: Option<string>) {
    if jobs == [] then None
    else
      var j := jobs[|jobs| - 1];
      var o := ControllerOwner(j.owners);
      if NamedKey(j.namespace, j.name) == key && o.Some? && o.value.kind == "CronJob" then Some(o.value.name)
      else CronJobOf(jobs[..|jobs| - 1], key)
  }

  predicate KnownCronJob(cronJobs: seq<CronJob>, key: string) {
    exists i :: 0 <= i < |cronJobs| && NamedKey(cronJobs[i].namespace, cronJobs[i].name) == key
  }

  /** The roll-up rule for one pod. */
  function OwnerOf(inp: Inputs, p: Pod): (o: Owner) {
    match ControllerOwner(p.owners)
    case None => Owner("Pod", p.namespace, p.name)
    case Some(ref) =>
      if ref.kind == "ReplicaSet" then
        match DeploymentOf(inp.replicaSets, NamedKey(p.namespace, ref.name))
        case Some(d) => Owner("Deployment", p.namespace, d)
        case None => Owner("ReplicaSet", p.namespace, ref.name)
      else if ref.kind == "Job" then
        match CronJobOf(inp.jobs, NamedKey(p.namespace, ref.name))
        case Some(c) =>
          if KnownCronJob(inp.cronJobs, NamedKey(p.namespace, c)) then Owner("CronJob", p.namespace, c)
          else Owner("Job", p.namespace, ref.name)
        case None => Owner("Job", p.namespace, ref.name)
      else Owner(ref.kind, p.namespace, ref.name)
  }

  /** What PodOwners records under a pod id: the owner of the last pod with that id. */
  function OwnerAt(inp: Inputs, pods: seq<Pod>, id: string): (o: Option<Owner>) {
    if pods == [] then None
    else if PodId(pods[|pods| - 1]) == id then Some(OwnerOf(inp, pods[|pods| - 1]))
    else OwnerAt(inp, pods[..|pods| - 1], id)
  }

  lemma {:induction false} OwnerAtFinds(inp: Inputs, pods: seq<Pod>, i: nat)
    requires i < |pods|
    ensures OwnerAt(inp, pods, PodId(pods[i])).Some?
    ensures (forall j :: i < j < |pods| ==> PodId(pods[j]) != PodId(pods[i])) ==>
      OwnerAt(inp, pods, PodId(pods[i])) == Some(OwnerOf(inp, pods[i]))
  {
    var n := |pods| - 1;
    if PodId(pods[n]) != PodId(pods[i]) {
      OwnerAtFinds(inp, pods[..n], i);
    }
  }

  method IndexReplicaSets(sets: seq<ReplicaSet>) returns (m: map<string, string>)
    ensures forall k :: DeploymentOf(sets, k) == if k in m then Some(m[k]) else None
  {
    m := map[];
    for i := 0 to |sets|
      invariant forall k :: DeploymentOf(sets[..i], k) == if k in m then Some(m[k]) else None
    {
      assert sets[..i + 1][..i] == sets[..i];
      var o := ControllerOwner(sets[i].owners);
      if o.Some? && o.value.kind == "Deployment" {
        m := m[NamedKey(sets[i].namespace, sets[i].name) := o.value.name];
      }
    }
    assert sets[..|sets|] == sets;
  }

  method IndexJobs(jobs: seq<Job>) returns (m: map<string, string>)
    ensures forall k :: CronJobOf(jobs, k) == if k in m then Some(m[k]) else None
  {
    m := map[];
    for i := 0 to |jobs|
      invariant forall k :: CronJobOf(jobs[..i], k) == if k in m then Some(m[k]) else None
    {
      assert jobs[..i + 1][..i] == jobs[..i];
      var o := ControllerOwner(jobs[i].owners);
      if o.Some? && o.value.kind == "CronJob" {
        m := m[NamedKey(jobs[i].namespace, jobs[i].name) := o.value.name];
      }
    }
    assert jobs[..|jobs|] == jobs;
  }

  /** PodOwners: kubeagent's single pod-to-workload rule, as a table by pod id. */
  method PodOwners(inp: Inputs) returns (out: map<string, Owner>)
    ensures forall id :: OwnerAt(inp, inp.pods, id) == if id in out then Some(out[id]) else None
  {
    var rsToDeploy := IndexReplicaSets(inp.replicaSets);
    var jobToCronJob := IndexJobs(inp.jobs);
    var cronJobs := set i | 0 <= i < |inp.cronJobs| :: NamedKey(inp.cronJobs[i].namespace, inp.cronJobs[i].name);
    out := map[];
    for i := 0 to |inp.pods|
      invariant forall id :: OwnerAt(inp, inp.pods[..i], id) == if id in out then Some(out[id]) else None
    {
      var p := inp.pods[i];
      assert inp.pods[..i + 1][..i] == inp.pods[..i];
      var kind, name := "Pod", p.name;
      var o := ControllerOwner(p.owners);
      if o.Some? {
        var key := NamedKey(p.namespace, o.value.name);
        if o.value.kind == "ReplicaSet" {
          if key in rsToDeploy { kind, name := "Deployment", rsToDeploy[key]; }
          else { kind, name := "ReplicaSet", o.value.name; }
        } else if o.value.kind == "Job" {
          if key in jobToCronJob && NamedKey(p.namespace, jobToCronJob[key]) in cronJobs {
            kind, name := "CronJob", jobToCronJob[key];
          } else { kind, name := "Job", o.value.name; }
        } else { kind, name := o.value.kind, o.value.name; }
      }
      assert Owner(kind, p.namespace, name) == OwnerOf(inp, p);
      out := out[PodId(p) := Owner(kind, p.namespace, name)];
    }
    assert inp.pods[..|inp.pods|] == inp.pods;
  }

  // ---- seeds

  function Blank(namespace: string, name: string, kind: string): (w: Workload) {
    Workload(namespace, name, kind, 0, 0, "", 0, "", [], 0, [], "", 0, [])
  }

  function ControllerSeed(c: Controller): (w: Workload) {
    Blank(c.namespace, c.name, c.kind).(desired := if c.replicas.Some? then c.replicas.value else 1, ready := c.ready)
  }

  function CronJobSeed(c: CronJob): (w: Workload) {
    Blank(c.namespace, c.name, "CronJob").(status := c.status, schedule := c.schedule)
  }

  function JobSeed(j: Job): (w: Workload) { Blank(j.namespace, j.name, "Job").(status := j.status) }

  predicate OwnedByCronJob(j: Job) {
    var o := ControllerOwner(j.owners);
    o.Some? && o.value.kind == "CronJob"
  }

  /** The workloads that exist without pods, in seeding order. */
  function Seeds(inp: Inputs): (ws: seq<Workload>) {
    seq(|inp.controllers|, i requires 0 <= i < |inp.controllers| => ControllerSeed(inp.controllers[i]))
    + seq(|inp.cronJobs|, i requires 0 <= i < |inp.cronJobs| => CronJobSeed(inp.cronJobs[i]))
    + JobSeeds(inp.jobs)
  }

  function JobSeeds(jobs: seq<Job>): (ws: seq<Workload>) {
    if jobs == [] then []
    else
      var j := jobs[|jobs| - 1];
      JobSeeds(jobs[..|jobs| - 1]) + (if OwnedByCronJob(j) then [] else [JobSeed(j)])
  }

  /** The seed under a key; a later seed for the same key wins. */
  function SeedAt(seeds: seq<Workload>, k: string): (w: Option<Workload>) {
    if seeds == [] then None
    else if KeyOf(seeds[|seeds| - 1]) == k then Some(seeds[|seeds| - 1])
    else SeedAt(seeds[..|seeds| - 1], k)
  }

  function At<T>(m: map<string, T>, k: string): (r: Option<T>) { if k in m then Some(m[k]) else None }

  method SeedAll(seeds: seq<Workload>) returns (m: map<string, Workload>)
    ensures forall k :: At(m, k) == SeedAt(seeds, k)
  {
    m := map[];
    for i := 0 to |seeds|
      invariant forall k :: At(m, k) == SeedAt(seeds[..i], k)
    {
      assert seeds[..i + 1][..i] == seeds[..i];
      m := m[KeyOf(seeds[i]) := seeds[i]];
    }
    assert seeds[..|seeds|] == seeds;
  }

  // ---- rolling pods up

  /** The workload key a pod rolls up to. */
  function PodKey(inp: Inputs, p: Pod): (k: string) {
    match OwnerAt(inp, inp.pods, PodId(p))
    case None => ""
    case Some(o) => ObjectKey(o.kind, p.namespace, o.name)
  }

  function PodGroup(inp: Inputs): Pod -> string { p => PodKey(inp, p) }

  function One(p: Pod): (n: int) { 1 }

  function OneIfReady(p: Pod): (n: int) { if PodIsReady(p) then 1 else 0 }

  function AddPod(inp: Inputs, before: Option<Workload>, p: Pod): (w: Workload) {
    var o := OwnerAt(inp, inp.pods, PodId(p));
    var w := match before case Some(w) => w
                          case None => Blank(p.namespace, if o.Some? then o.value.name else "", if o.Some? then o.value.kind else "");
    w.(restarts := w.restarts + PodRestarts(p), image := if w.image == "" then p.image else w.image,
       pods := w.pods + [RowFor(p)])
  }

  /** The workload under a key after a prefix of the pods. */
  function RollAt(inp: Inputs, pods: seq<Pod>, k: string): (w: Option<Workload>) {
    if pods == [] then SeedAt(Seeds(inp), k)
    else
      var p := pods[|pods| - 1];
      var before := RollAt(inp, pods[..|pods| - 1], k);
      if PodKey(inp, p) == k then Some(AddPod(inp, before, p)) else before
  }

  /** The key that the findings of a pod id attach to. */
  function KeyAtId(inp: Inputs, pods: seq<Pod>, id: string): (k: Option<string>) {
    if pods == [] then None
    else if PodId(pods[|pods| - 1]) == id then Some(PodKey(inp, pods[|pods| - 1]))
    else KeyAtId(inp, pods[..|pods| - 1], id)
  }

  /** The pod loop of Assemble: grow the owner's workload and remember where the pod went. */
  method RollPods(inp: Inputs, seeds: map<string, Workload>)
    returns (workloads: map<string, Workload>, podKey: map<string, string>)
    requires forall k :: At(seeds, k) == SeedAt(Seeds(inp), k)
    ensures forall k :: At(workloads, k) == RollAt(inp, inp.pods, k)
    ensures forall id :: At(podKey, id) == KeyAtId(inp, inp.pods, id)
  {
    var owners := PodOwners(inp);
    workloads, podKey := seeds, map[];
    for i := 0 to |inp.pods|
      invariant forall k :: At(workloads, k) == RollAt(inp, inp.pods[..i], k)
      invariant forall id :: At(podKey, id) == KeyAtId(inp, inp.pods[..i], id)
    {
      var p := inp.pods[i];
      assert inp.pods[..i + 1][..i] == inp.pods[..i];
      OwnerAtFinds(inp, inp.pods, i);
      var o := owners[PodId(p)];
      var k := ObjectKey(o.kind, p.namespace, o.name);
      assert k == PodKey(inp, p);
      workloads := workloads[k := AddPod(inp, At(workloads, k), p)];
      podKey := podKey[PodId(p) := k];
    }
    assert inp.pods[..|inp.pods|] == inp.pods;
  }

  /** The same loop's count of ready pods per workload. */
  method CountReady(inp: Inputs) returns (derivedReady: map<string, int>)
    ensures forall k :: ReadyCount(derivedReady, k) == GroupTotal(PodGroup(inp), OneIfReady, inp.pods, k)
  {
    derivedReady := map[];
    for i := 0 to |inp.pods|
      invariant forall k :: ReadyCount(derivedReady, k) == GroupTotal(PodGroup(inp), OneIfReady, inp.pods[..i], k)
    {
      assert inp.pods[..i + 1][..i] == inp.pods[..i];
      var k := PodKey(inp, inp.pods[i]);
      if PodIsReady(inp.pods[i]) {
        derivedReady := derivedReady[k := ReadyCount(derivedReady, k) + 1];
      }
    }
    assert inp.pods[..|inp.pods|] == inp.pods;
  }

  function ReadyCount(m: map<string, int>, k: string): (n: int) { if k in m then m[k] else 0 }

  // ---- findings

  function FindingsAt(inp: Inputs, findings: seq<PodFinding>, k: string): (fs: seq<PodFinding>) {
    if findings == [] then []
    else
      var f := findings[|findings| - 1];
      FindingsAt(inp, findings[..|findings| - 1], k) + (if KeyAtId(inp, inp.pods, f.pod) == Some(k) then [f] else [])
  }

  method AttachFindings(inp: Inputs, findings: seq<PodFinding>, workloads: map<string, Workload>, podKey: map<string, string>)
    returns (out: map<string, Workload>)
    requires forall id :: At(podKey, id) == KeyAtId(inp, inp.pods, id)
    requires forall id :: id in podKey ==> podKey[id] in workloads
    requires forall k :: k in workloads ==> workloads[k].findings == []
    ensures out.Keys == workloads.Keys
    ensures forall k :: k in out ==> out[k] == workloads[k].(findings := FindingsAt(inp, findings, k))
  {
    out := workloads;
    for i := 0 to |findings|
      invariant out.Keys == workloads.Keys
      invariant forall k :: k in out ==> out[k] == workloads[k].(findings := FindingsAt(inp, findings[..i], k))
    {
      var f := findings[i];
      assert findings[..i + 1][..i] == findings[..i];
      if f.pod in podKey {
        var k := podKey[f.pod];
        out := out[k := out[k].(findings := out[k].findings + [f])];
      }
      assert KeyAtId(inp, inp.pods, f.pod) == At(podKey, f.pod);
    }
    assert findings[..|findings|] == findings;
  }

  // ---- finishing

  predicate JobLike(w: Workload) { w.kind == "Job" || w.kind == "CronJob" }

  /** Derived counts for a workload with no controller, the row cap for job-like ones, the default status. */
  function Finish(w: Workload, ready: int, seeded: bool): (r: Workload) {
    var s := TerminalPodStatus(w.pods);
    var counted :=
      if seeded then w
      else if s != "" then w.(desired := 0, ready := 0, status := s)
      else w.(desired := |w.pods|, ready := ready);
    var capped :=
      if JobLike(w) && |w.pods| > JOB_POD_CAP
      then counted.(podsOmitted := |w.pods| - JOB_POD_CAP, pods := w.pods[..JOB_POD_CAP])
      else counted;
    if capped.status == "" then capped.(status := WorkloadStatus(capped.ready, capped.desired)) else capped
  }

  /** The finished workload under a key. */
  function WorkloadAt(inp: Inputs, findings: seq<PodFinding>, k: string): (w: Option<Workload>) {
    match RollAt(inp, inp.pods, k)
    case None => None
    case Some(w) =>
      Some(Finish(w.(findings := FindingsAt(inp, findings, k)),
                  GroupTotal(PodGroup(inp), OneIfReady, inp.pods, k), SeedAt(Seeds(inp), k).Some?))
  }

  /** Flagged first, then by namespace, name and kind. */
  function AssemblyOrder(w: Workload): (k: Key) {
    [Num(if Flagged(w) then 0 else 1), Text(w.namespace), Text(w.name), Text(w.kind)]
  }

  /** Exactly the finished workloads, each once, in order. */
  ghost predicate IsAssembly(inp: Inputs, findings: seq<PodFinding>, out: seq<Workload>) {
    && NoDup(out) && Sorted(AssemblyOrder, out)
    && forall w :: w in out <==> WorkloadAt(inp, findings, KeyOf(w)) == Some(w)
  }

  lemma {:induction false} SeedAtKey(seeds: seq<Workload>, k: string)
    ensures SeedAt(seeds, k).Some? ==> SeedAt(seeds, k).value in seeds && KeyOf(SeedAt(seeds, k).value) == k
  {
    if seeds != [] {
      SeedAtKey(seeds[..|seeds| - 1], k);
    }
  }

  lemma {:induction false} JobSeedsBlank(jobs: seq<Job>)
    ensures forall i :: 0 <= i < |JobSeeds(jobs)| ==> IsBare(JobSeeds(jobs)[i])
  {
    if jobs != [] {
      JobSeedsBlank(jobs[..|jobs| - 1]);
    }
  }

  predicate IsBare(w: Workload) { w.pods == [] && w.restarts == 0 && w.findings == [] && w.podsOmitted == 0 }

  lemma {:induction false} SeedsBare(inp: Inputs, k: string)
    ensures SeedAt(Seeds(inp), k).Some? ==> IsBare(SeedAt(Seeds(inp), k).value)
  {
    JobSeedsBlank(inp.jobs);
    SeedAtKey(Seeds(inp), k);
  }

  function UnderKey(inp: Inputs, k: string): (f: Pod -> bool) { (p: Pod) => PodKey(inp, p) == k }

  /** The rows of the pods of a key, in pod order. */
  function RowsAt(inp: Inputs, pods: seq<Pod>, k: string): (rows: seq<PodRow>) { Map(RowFor, Filter(UnderKey(inp, k), pods)) }

  lemma {:induction false} RowsStep(inp: Inputs, pods: seq<Pod>, n: nat, k: string)
    requires n < |pods|
    ensures RowsAt(inp, pods[..n + 1], k) == RowsAt(inp, pods[..n], k) + (if PodKey(inp, pods[n]) == k then [RowFor(pods[n])] else [])
  {
    FilterStep(UnderKey(inp, k), pods, n);
  }

  lemma {:induction false} RollStep(inp: Inputs, pods: seq<Pod>, n: nat, k: string)
    requires n < |pods|
    ensures var before := RollAt(inp, pods[..n], k);
      RollAt(inp, pods[..n + 1], k) == if PodKey(inp, pods[n]) == k then Some(AddPod(inp, before, pods[n])) else before
  {
    assert pods[..n + 1][..n] == pods[..n];
  }

  function RowsOf(w: Option<Workload>): (rows: seq<PodRow>) { match w case None => [] case Some(w) => w.pods }

  lemma {:induction false} NoRowsYet(inp: Inputs, k: string)
    ensures RowsOf(RollAt(inp, [], k)) == [] && RowsAt(inp, [], k) == []
  {
    SeedsBare(inp, k);
  }

  lemma {:induction false} AddedRow(inp: Inputs, before: Option<Workload>, p: Pod)
    ensures AddPod(inp, before, p).pods == RowsOf(before) + [RowFor(p)]
  {
  }

  /** The rows after one more pod, from the rows before it. */
  lemma {:induction false} RowsFollow(inp: Inputs, k: string, p: Pod, before: Option<Workload>, after: Option<Workload>,
                                      rows: seq<PodRow>, rows': seq<PodRow>)
    requires RowsOf(before) == rows
    requires after == if PodKey(inp, p) == k then Some(AddPod(inp, before, p)) else before
    requires rows' == rows + (if PodKey(inp, p) == k then [RowFor(p)] else [])
    ensures RowsOf(after) == rows'
  {
    AddedRow(inp, before, p);
  }

  lemma {:induction false} RollRows(inp: Inputs, n: nat, k: string)
    requires n <= |inp.pods|
    ensures RowsOf(RollAt(inp, inp.pods[..n], k)) == RowsAt(inp, inp.pods[..n], k)
  {
    if n == 0 {
      NoRowsYet(inp, k);
    } else {
      var m := n - 1;
      RollRows(inp, m, k);
      RowsStep(inp, inp.pods, m, k);
      RollStep(inp, inp.pods, m, k);
      RowsFollow(inp, k, inp.pods[m], RollAt(inp, inp.pods[..m], k), RollAt(inp, inp.pods[..m + 1], k),
                 RowsAt(inp, inp.pods[..m], k), RowsAt(inp, inp.pods[..m + 1], k));
    }
  }

  /** A rolled-up workload carries its key, as many rows as it has pods, their restarts, and no findings yet. */
  lemma {:induction false} RollAtTotals(inp: Inputs, n: nat, k: string)
    requires n <= |inp.pods|
    ensures RollAt(inp, inp.pods[..n], k).Some? ==>
      var w := RollAt(inp, inp.pods[..n], k).value;
      && KeyOf(w) == k && w.findings == [] && w.podsOmitted == 0
      && |w.pods| == GroupTotal(PodGroup(inp), One, inp.pods[..n], k)
      && w.restarts == GroupTotal(PodGroup(inp), PodRestarts, inp.pods[..n], k)
    ensures RollAt(inp, inp.pods[..n], k).None? ==>
      && GroupTotal(PodGroup(inp), One, inp.pods[..n], k) == 0
      && GroupTotal(PodGroup(inp), PodRestarts, inp.pods[..n], k) == 0
  {
    if n == 0 {
      SeedAtKey(Seeds(inp), k);
      SeedsBare(inp, k);
    } else {
      var p := inp.pods[n - 1];
      RollAtTotals(inp, n - 1, k);
      assert inp.pods[..n][..n - 1] == inp.pods[..n - 1];
      OwnerAtFinds(inp, inp.pods, n - 1);
      assert PodGroup(inp)(p) == PodKey(inp, p);
    }
  }

  /** A rolled-up workload: its pods' rows in order, their restarts, no findings yet; none only where there is no pod. */
  lemma {:induction false} RollAtExact(inp: Inputs, n: nat, k: string)
    requires n <= |inp.pods|
    ensures match RollAt(inp, inp.pods[..n], k)
      case None => RowsAt(inp, inp.pods[..n], k) == []
      case Some(w) =>
        && KeyOf(w) == k && w.findings == [] && w.podsOmitted == 0 && w.pods == RowsAt(inp, inp.pods[..n], k)
        && w.restarts == GroupTotal(PodGroup(inp), PodRestarts, inp.pods[..n], k)
  {
    RollRows(inp, n, k);
    RollAtTotals(inp, n, k);
  }

  /** Every pod's key has a workload. */
  lemma {:induction false} PodKeyIsRolled(inp: Inputs, i: nat)
    requires i < |inp.pods|
    ensures RollAt(inp, inp.pods, PodKey(inp, inp.pods[i])).Some?
  {
    assert inp.pods[..|inp.pods|] == inp.pods;
    assert PodGroup(inp)(inp.pods[i]) == PodKey(inp, inp.pods[i]);
    GroupNotEmpty(PodGroup(inp), One, inp.pods, i);
    RollAtTotals(inp, |inp.pods|, PodKey(inp, inp.pods[i]));
  }

  /** The pod behind a pod id's key. */
  lemma {:induction false} KeyAtIdFinds(inp: Inputs, n: nat, id: string) returns (i: nat)
    requires n <= |inp.pods| && KeyAtId(inp, inp.pods[..n], id).Some?
    ensures i < n && PodId(inp.pods[i]) == id && KeyAtId(inp, inp.pods[..n], id) == Some(PodKey(inp, inp.pods[i]))
  {
    assert inp.pods[..n][..n - 1] == inp.pods[..n - 1];
    i := n - 1;
    if PodId(inp.pods[n - 1]) != id {
      i := KeyAtIdFinds(inp, n - 1, id);
    }
  }

  lemma {:induction false} RolledFacts(inp: Inputs, rolled: map<string, Workload>, podKey: map<string, string>)
    requires forall k :: At(rolled, k) == RollAt(inp, inp.pods, k)
    requires forall id :: At(podKey, id) == KeyAtId(inp, inp.pods, id)
    ensures forall id :: id in podKey ==> podKey[id] in rolled
    ensures forall k :: k in rolled ==> rolled[k].findings == [] && KeyOf(rolled[k]) == k
  {
    assert inp.pods[..|inp.pods|] == inp.pods;
    forall id | id in podKey ensures podKey[id] in rolled {
      assert At(podKey, id).Some?;
      var i := KeyAtIdFinds(inp, |inp.pods|, id);
      PodKeyIsRolled(inp, i);
      assert At(rolled, podKey[id]).Some?;
    }
    forall k | k in rolled ensures rolled[k].findings == [] && KeyOf(rolled[k]) == k {
      RollAtTotals(inp, |inp.pods|, k);
      assert At(rolled, k).Some?;
    }
  }

  /** The final loop of Assemble. */
  method FinishAll(inp: Inputs, findings: seq<PodFinding>, seeds: map<string, Workload>, rolled: map<string, Workload>,
                   attached: map<string, Workload>, derivedReady: map<string, int>)
    returns (finished: map<string, Workload>)
    requires forall k :: At(seeds, k) == SeedAt(Seeds(inp), k)
    requires forall k :: At(rolled, k) == RollAt(inp, inp.pods, k)
    requires attached.Keys == rolled.Keys
    requires forall k :: k in attached ==> attached[k] == rolled[k].(findings := FindingsAt(inp, findings, k))
    requires forall k :: ReadyCount(derivedReady, k) == GroupTotal(PodGroup(inp), OneIfReady, inp.pods, k)
    ensures forall k :: At(finished, k) == WorkloadAt(inp, findings, k)
  {
    finished := map k | k in attached :: Finish(attached[k], ReadyCount(derivedReady, k), k in seeds);
    forall k ensures At(finished, k) == WorkloadAt(inp, findings, k) {
      assert At(rolled, k) == RollAt(inp, inp.pods, k);
      assert At(seeds, k) == SeedAt(Seeds(inp), k);
    }
  }

  lemma {:induction false} FinishKeepsKey(inp: Inputs, findings: seq<PodFinding>, k: string)
    ensures WorkloadAt(inp, findings, k).Some? ==> KeyOf(WorkloadAt(inp, findings, k).value) == k
  {
    assert inp.pods[..|inp.pods|] == inp.pods;
    RollAtTotals(inp, |inp.pods|, k);
  }

  /** Assemble: the map is ranged over in arbitrary order and the result is sorted. */
  method Assemble(inp: Inputs, findings: seq<PodFinding>) returns (out: seq<Workload>)
    ensures IsAssembly(inp, findings, out)
  {
    var seeds := SeedAll(Seeds(inp));
    var rolled, podKey := RollPods(inp, seeds);
    var derivedReady := CountReady(inp);
    RolledFacts(inp, rolled, podKey);
    var attached := AttachFindings(inp, findings, rolled, podKey);
    var finished := FinishAll(inp, findings, seeds, rolled, attached, derivedReady);
    forall k | k in finished ensures KeyOf(finished[k]) == k {
      FinishKeepsKey(inp, findings, k);
      assert At(finished, k).Some?;
    }
    out := ListSorted(KeyOf, AssemblyOrder, finished);
    forall w ensures w in out <==> WorkloadAt(inp, findings, KeyOf(w)) == Some(w) {
      assert At(finished, KeyOf(w)) == WorkloadAt(inp, findings, KeyOf(w));
    }
  }

  /** The report is the same whatever order the map was ranged in. */
  lemma {:induction false} AssemblyUnique(inp: Inputs, findings: seq<PodFinding>, a: seq<Workload>, b: seq<Workload>)
    requires IsAssembly(inp, findings, a) && IsAssembly(inp, findings, b)
    ensures a == b
  {
    NoDupSameElements(a, b);
    forall i, j | 0 <= i < |a| && 0 <= j < |a| && AssemblyOrder(a[i]) == AssemblyOrder(a[j]) ensures a[i] == a[j] {
      var x, y := AssemblyOrder(a[i]), AssemblyOrder(a[j]);
      assert x[1] == y[1] && x[2] == y[2] && x[3] == y[3];
      assert a[i] in a && a[j] in a && KeyOf(a[i]) == KeyOf(a[j]);
    }
    SortUnique(AssemblyOrder, a, b);
  }

  // ---- conservation

  /** Rows shown and rows omitted. */
  function RowCount(w: Workload): (n: int) { |w.pods| + w.podsOmitted }

  function Restarts(w: Workload): (n: int) { w.restarts }

  function Keys(ws: seq<Workload>): (ks: seq<string>)
    ensures |ks| == |ws|
    ensures forall i :: 0 <= i < |ws| ==> ks[i] == KeyOf(ws[i])
  {
    if ws == [] then [] else Keys(ws[..|ws| - 1]) + [KeyOf(ws[|ws| - 1])]
  }

  /** A finished workload accounts for all pods of its key: rows, omitted rows and restarts. */
  lemma {:induction false} FinishedTotals(inp: Inputs, findings: seq<PodFinding>, w: Workload)
    requires WorkloadAt(inp, findings, KeyOf(w)) == Some(w)
    ensures RowCount(w) == GroupTotal(PodGroup(inp), One, inp.pods, KeyOf(w))
    ensures Restarts(w) == GroupTotal(PodGroup(inp), PodRestarts, inp.pods, KeyOf(w))
  {
    assert inp.pods[..|inp.pods|] == inp.pods;
    RollAtTotals(inp, |inp.pods|, KeyOf(w));
  }

  /** All rows, or the first three of a job-like workload. */
  function CapRows(w: Workload, rows: seq<PodRow>): (r: seq<PodRow>) {
    if JobLike(w) && |rows| > JOB_POD_CAP then rows[..JOB_POD_CAP] else rows
  }

  lemma {:induction false} FinishRows(w: Workload, ready: int, seeded: bool)
    requires w.podsOmitted == 0
    ensures var r := Finish(w, ready, seeded); r.pods == CapRows(r, w.pods) && r.podsOmitted == |w.pods| - |r.pods|
  {
  }

  /** A finished workload shows the rows of its pods in order, all of them or the first three of a job-like one. */
  lemma {:induction false} FinishedRows(inp: Inputs, findings: seq<PodFinding>, w: Workload)
    requires WorkloadAt(inp, findings, KeyOf(w)) == Some(w)
    ensures var rows := RowsAt(inp, inp.pods, KeyOf(w)); w.pods == CapRows(w, rows) && w.podsOmitted == |rows| - |w.pods|
  {
    var k := KeyOf(w);
    assert inp.pods[..|inp.pods|] == inp.pods;
    RollAtExact(inp, |inp.pods|, k);
    var rolled := RollAt(inp, inp.pods, k).value;
    FinishRows(rolled.(findings := FindingsAt(inp, findings, k)), GroupTotal(PodGroup(inp), OneIfReady, inp.pods, k),
               SeedAt(Seeds(inp), k).Some?);
  }

  lemma {:induction false} SumsMatchGroups(inp: Inputs, findings: seq<PodFinding>, ws: seq<Workload>)
    requires forall i :: 0 <= i < |ws| ==> WorkloadAt(inp, findings, KeyOf(ws[i])) == Some(ws[i])
    ensures Sum(RowCount, ws) == KeysTotal(PodGroup(inp), One, inp.pods, Keys(ws))
    ensures Sum(Restarts, ws) == KeysTotal(PodGroup(inp), PodRestarts, inp.pods, Keys(ws))
  {
    if ws != [] {
      var n := |ws| - 1;
      SumsMatchGroups(inp, findings, ws[..n]);
      FinishedTotals(inp, findings, ws[n]);
      assert Keys(ws)[..n] == Keys(ws[..n]);
    }
  }

  lemma {:induction false} AssemblyKeys(inp: Inputs, findings: seq<PodFinding>, out: seq<Workload>)
    requires IsAssembly(inp, findings, out)
    ensures forall i, j :: 0 <= i < j < |out| ==> KeyOf(out[i]) != KeyOf(out[j])
    ensures forall i :: 0 <= i < |inp.pods| ==> PodKey(inp, inp.pods[i]) in Keys(out)
  {
    forall i, j | 0 <= i < j < |out| ensures KeyOf(out[i]) != KeyOf(out[j]) {
      assert out[i] in out && out[j] in out;
    }
    forall i | 0 <= i < |inp.pods| ensures PodKey(inp, inp.pods[i]) in Keys(out) {
      var w := LandedOn(inp, findings, out, i);
    }
  }

  /** The workload a pod's key leads to. */
  lemma {:induction false} LandedOn(inp: Inputs, findings: seq<PodFinding>, out: seq<Workload>, i: nat) returns (w: Workload)
    requires IsAssembly(inp, findings, out) && i < |inp.pods|
    ensures w in out && KeyOf(w) == PodKey(inp, inp.pods[i]) && KeyOf(w) in Keys(out)
  {
    var k := PodKey(inp, inp.pods[i]);
    assert inp.pods[..|inp.pods|] == inp.pods;
    PodKeyIsRolled(inp, i);
    FinishKeepsKey(inp, findings, k);
    w := WorkloadAt(inp, findings, k).value;
    assert w in out;
    var j :| 0 <= j < |out| && out[j] == w;
    assert Keys(out)[j] == k;
  }

  /**
   The roll-up conserves: shown and omitted rows add up to the pods, and the
   workloads' restarts to the pods' restarts.
   */
  lemma {:induction false} RollUpConserves(inp: Inputs, findings: seq<PodFinding>, out: seq<Workload>)
    requires IsAssembly(inp, findings, out)
    ensures Sum(RowCount, out) == |inp.pods|
    ensures Sum(Restarts, out) == Sum(PodRestarts, inp.pods)
  {
    AssemblyKeys(inp, findings, out);
    forall i | 0 <= i < |out| ensures WorkloadAt(inp, findings, KeyOf(out[i])) == Some(out[i]) { assert out[i] in out; }
    SumsMatchGroups(inp, findings, out);
    forall i | 0 <= i < |inp.pods| ensures PodGroup(inp)(inp.pods[i]) in Keys(out) {
      assert PodKey(inp, inp.pods[i]) in Keys(out);
    }
    GroupsAddUp(PodGroup(inp), One, inp.pods, Keys(out));
    GroupsAddUp(PodGroup(inp), PodRestarts, inp.pods, Keys(out));
    SumOfOnes(One, inp.pods);
  }

  // ---- every pod on its owner

  ghost predicate DistinctPods(pods: seq<Pod>) {
    forall i, j :: 0 <= i < j < |pods| ==> PodId(pods[i]) != PodId(pods[j])
  }

  /** Kinds and namespaces hold no slash, as the API server guarantees. */
  ghost predicate PlainNames(inp: Inputs) {
    && (forall i :: 0 <= i < |inp.pods| ==> SlashFree(inp.pods[i].namespace) && SlashFree(OwnerOf(inp, inp.pods[i]).kind))
    && (forall i :: 0 <= i < |Seeds(inp)| ==> SlashFree(Seeds(inp)[i].namespace) && SlashFree(Seeds(inp)[i].kind))
  }

  predicate IsPlain(w: Workload) { SlashFree(w.kind) && SlashFree(w.namespace) }

  lemma {:induction false} AddPodPlain(inp: Inputs, before: Option<Workload>, i: nat)
    requires PlainNames(inp) && DistinctPods(inp.pods) && i < |inp.pods| && (before.Some? ==> IsPlain(before.value))
    ensures IsPlain(AddPod(inp, before, inp.pods[i]))
  {
    OwnerAtFinds(inp, inp.pods, i);
  }

  lemma {:induction false} RollAtPlain(inp: Inputs, n: nat, k: string)
    requires PlainNames(inp) && DistinctPods(inp.pods) && n <= |inp.pods|
    ensures RollAt(inp, inp.pods[..n], k).Some? ==> IsPlain(RollAt(inp, inp.pods[..n], k).value)
  {
    if n == 0 {
      SeedAtKey(Seeds(inp), k);
    } else {
      RollAtPlain(inp, n - 1, k);
      assert inp.pods[..n][..n - 1] == inp.pods[..n - 1];
      AddPodPlain(inp, RollAt(inp, inp.pods[..n - 1], k), n - 1);
    }
  }

  lemma {:induction false} FinishedPlain(inp: Inputs, findings: seq<PodFinding>, w: Workload)
    requires PlainNames(inp) && DistinctPods(inp.pods) && WorkloadAt(inp, findings, KeyOf(w)) == Some(w)
    ensures SlashFree(w.kind) && SlashFree(w.namespace)
  {
    assert inp.pods[..|inp.pods|] == inp.pods;
    RollAtPlain(inp, |inp.pods|, KeyOf(w));
  }

  lemma {:induction false} PodKeyIsOwner(inp: Inputs, i: nat)
    requires DistinctPods(inp.pods) && i < |inp.pods|
    ensures var o := OwnerOf(inp, inp.pods[i]);
      o.namespace == inp.pods[i].namespace && PodKey(inp, inp.pods[i]) == ObjectKey(o.kind, o.namespace, o.name)
  {
    OwnerAtFinds(inp, inp.pods, i);
  }

  /** Every pod lands on exactly the workload the roll-up rule names. */
  lemma {:induction false} PodLandsOnOwner(inp: Inputs, findings: seq<PodFinding>, out: seq<Workload>, i: nat) returns (w: Workload)
    requires IsAssembly(inp, findings, out) && PlainNames(inp) && DistinctPods(inp.pods) && i < |inp.pods|
    ensures w in out && Owner(w.kind, w.namespace, w.name) == OwnerOf(inp, inp.pods[i])
    ensures PodKey(inp, inp.pods[i]) == KeyOf(w)
  {
    w := LandedOn(inp, findings, out, i);
    FinishedPlain(inp, findings, w);
    PodKeyIsOwner(inp, i);
    var o := OwnerOf(inp, inp.pods[i]);
    ObjectKeyInjective(w.kind, w.namespace, w.name, o.kind, o.namespace, o.name);
  }

  lemma {:induction false} KeyAtIdOf(inp: Inputs, pods: seq<Pod>, i: nat)
    requires DistinctPods(pods) && i < |pods|
    ensures KeyAtId(inp, pods, PodId(pods[i])) == Some(PodKey(inp, pods[i]))
  {
    if i < |pods| - 1 {
      KeyAtIdOf(inp, pods[..|pods| - 1], i);
    }
  }

  lemma {:induction false} FindingsAtElements(inp: Inputs, findings: seq<PodFinding>, k: string, f: PodFinding)
    ensures f in FindingsAt(inp, findings, k) <==> f in findings && KeyAtId(inp, inp.pods, f.pod) == Some(k)
  {
    if findings != [] {
      var n := |findings| - 1;
      FindingsAtElements(inp, findings[..n], k, f);
      assert findings == findings[..n] + [findings[n]];
    }
  }

  /** A finding that names a pod of the snapshot is on that pod's workload and on no other. */
  lemma {:induction false} FindingsFollowPods(inp: Inputs, findings: seq<PodFinding>, out: seq<Workload>, i: nat, f: PodFinding, w: Workload)
    requires IsAssembly(inp, findings, out) && DistinctPods(inp.pods)
    requires i < |inp.pods| && f in findings && f.pod == PodId(inp.pods[i]) && w in out
    ensures f in w.findings <==> KeyOf(w) == PodKey(inp, inp.pods[i])
    ensures f in w.findings ==> Flagged(w)
  {
    KeyAtIdOf(inp, inp.pods, i);
    FindingsAtElements(inp, findings, KeyOf(w), f);
    assert WorkloadAt(inp, findings, KeyOf(w)) == Some(w);
  }

  // ---- what is shown

  datatype Opts = Opts(includeRestarts: bool, includeCron: bool)

  datatype Result = Result(workloads: seq<Workload>, hiddenRestarts: nat, hiddenCron: nat, good: nat, total: nat)

  /** What Prioritize does with a workload. */
  datatype Fate = Show(priority: nat) | HideRestart | HideCron | Quiet

  function FateOf(w: Workload, opts: Opts): (f: Fate) {
    if Flagged(w) then Show(2)
    else if w.kind == "CronJob" then (if opts.includeCron then Show(4) else HideCron)
    else if w.restarts > 0 then (if opts.includeRestarts then Show(3) else HideRestart)
    else Quiet
  }

  /** The shown workloads, tagged. */
  function ShownOf(ws: seq<Workload>, opts: Opts): (r: seq<Workload>) {
    if ws == [] then []
    else
      var w := ws[|ws| - 1];
      var before := ShownOf(ws[..|ws| - 1], opts);
      match FateOf(w, opts)
      case Show(p) => before + [w.(priority := p)]
      case _ => before
  }

  function CountFate(ws: seq<Workload>, opts: Opts, f: Fate): (n: nat) {
    if ws == [] then 0 else CountFate(ws[..|ws| - 1], opts, f) + (if FateOf(ws[|ws| - 1], opts) == f then 1 else 0)
  }

  function PriorityOrder(w: Workload): (k: Key) {
    [Num(w.priority), Text(w.namespace), Text(w.name), Text(w.kind)]
  }

  predicate LongRunning(w: Workload) { w.kind != "Job" && w.kind != "CronJob" }

  method Prioritize(ws: seq<Workload>, opts: Opts) returns (res: Result)
    ensures IsSortOf(PriorityOrder, ShownOf(ws, opts), res.workloads)
    ensures res.hiddenRestarts == CountFate(ws, opts, HideRestart) && res.hiddenCron == CountFate(ws, opts, HideCron)
    ensures res.total == |Filter(LongRunning, ws)|
    ensures res.good == |Filter(w => LongRunning(w) && !Flagged(w), ws)|
  {
    res := Result([], 0, 0, 0, 0);
    ghost var healthy := w => LongRunning(w) && !Flagged(w);
    for i := 0 to |ws|
      invariant res.workloads == ShownOf(ws[..i], opts)
      invariant res.hiddenRestarts == CountFate(ws[..i], opts, HideRestart)
      invariant res.hiddenCron == CountFate(ws[..i], opts, HideCron)
      invariant res.total == |Filter(LongRunning, ws[..i])| && res.good == |Filter(healthy, ws[..i])|
    {
      var w := ws[i];
      assert ws[..i + 1][..i] == ws[..i];
      FilterStep(LongRunning, ws, i);
      FilterStep(healthy, ws, i);
      if w.kind != "Job" && w.kind != "CronJob" {
        res := res.(total := res.total + 1, good := if Flagged(w) then res.good else res.good + 1);
      }
      if w.kind == "CronJob" {
        if Flagged(w) { res := res.(workloads := res.workloads + [w.(priority := 2)]); }
        else if opts.includeCron { res := res.(workloads := res.workloads + [w.(priority := 4)]); }
        else { res := res.(hiddenCron := res.hiddenCron + 1); }
      } else if Flagged(w) {
        res := res.(workloads := res.workloads + [w.(priority := 2)]);
      } else if w.restarts > 0 {
        if opts.includeRestarts { res := res.(workloads := res.workloads + [w.(priority := 3)]); }
        else { res := res.(hiddenRestarts := res.hiddenRestarts + 1); }
      }
    }
    assert ws[..|ws|] == ws;
    var sorted := SortSlice(PriorityOrder, res.workloads);
    res := res.(workloads := sorted);
  }

  lemma {:induction false} FatesAddUp(ws: seq<Workload>, opts: Opts)
    ensures |ShownOf(ws, opts)| + CountFate(ws, opts, HideRestart) + CountFate(ws, opts, HideCron)
          + CountFate(ws, opts, Quiet) == |ws|
    ensures forall i :: 0 <= i < |ws| && Flagged(ws[i]) ==> ws[i].(priority := 2) in ShownOf(ws, opts)
  {
    if ws != [] {
      FatesAddUp(ws[..|ws| - 1], opts);
    }
  }

  /** Nothing disappears from the report: flagged workloads are always shown, the rest is shown or counted. */
  lemma {:induction false} PrioritizeConserves(ws: seq<Workload>, opts: Opts, res: Result)
    requires IsSortOf(PriorityOrder, ShownOf(ws, opts), res.workloads)
    requires res.hiddenRestarts == CountFate(ws, opts, HideRestart) && res.hiddenCron == CountFate(ws, opts, HideCron)
    ensures |res.workloads| + res.hiddenRestarts + res.hiddenCron + CountFate(ws, opts, Quiet) == |ws|
    ensures forall i :: 0 <= i < |ws| && Flagged(ws[i]) ==> ws[i].(priority := 2) in res.workloads
  {
    FatesAddUp(ws, opts);
    SameElements(res.workloads, ShownOf(ws, opts));
  }

  // ---- the owner rule, over the references

  ghost predicate OwnedByKind(refs: seq<OwnerRef>, kind: string, name: string) {
    exists r :: IsOwnerRef(refs, r) && r.kind == kind && r.name == name
  }

  /** The last ReplicaSet of this key that a Deployment owns, and its owner. */
  ghost predicate SetBehind(sets: seq<ReplicaSet>, key: string, d: string) { exists i :: SetBehindAt(sets, i, key, d) }

  ghost predicate SetBehindAt(sets: seq<ReplicaSet>, i: int, key: string, d: string) {
    && 0 <= i < |sets| && NamedKey(sets[i].namespace, sets[i].name) == key && OwnedByKind(sets[i].owners, "Deployment", d)
    && forall j, e :: i < j < |sets| && NamedKey(sets[j].namespace, sets[j].name) == key ==> !OwnedByKind(sets[j].owners, "Deployment", e)
  }

  /** The last Job of this key that a CronJob owns, and its owner. */
  ghost predicate JobBehind(jobs: seq<Job>, key: string, c: string) { exists i :: JobBehindAt(jobs, i, key, c) }

  ghost predicate JobBehindAt(jobs: seq<Job>, i: int, key: string, c: string) {
    && 0 <= i < |jobs| && NamedKey(jobs[i].namespace, jobs[i].name) == key && OwnedByKind(jobs[i].owners, "CronJob", c)
    && forall j, e :: i < j < |jobs| && NamedKey(jobs[j].namespace, jobs[j].name) == key ==> !OwnedByKind(jobs[j].owners, "CronJob", e)
  }

  lemma {:induction false} OwnedByKindIs(refs: seq<OwnerRef>, kind: string, name: string)
    ensures OwnedByKind(refs, kind, name) <==>
      ControllerOwner(refs).Some? && ControllerOwner(refs).value.kind == kind && ControllerOwner(refs).value.name == name
  {
    forall r ensures ControllerOwner(refs) == Some(r) <==> IsOwnerRef(refs, r) {
      ControllerOwnerExact(refs, r);
    }
  }

  lemma {:induction false} SetBehindIs(sets: seq<ReplicaSet>, key: string, d: string)
    ensures DeploymentOf(sets, key) == Some(d) <==> SetBehind(sets, key, d)
  {
    if sets != [] {
      var n := |sets| - 1;
      var init, last := sets[..n], sets[n];
      SetBehindIs(init, key, d);
      forall e ensures OwnedByKind(last.owners, "Deployment", e) <==>
        ControllerOwner(last.owners).Some? && ControllerOwner(last.owners).value.kind == "Deployment" && ControllerOwner(last.owners).value.name == e
      {
        OwnedByKindIs(last.owners, "Deployment", e);
      }
      assert forall i :: 0 <= i < n ==> init[i] == sets[i];
      var o := ControllerOwner(last.owners);
      if NamedKey(last.namespace, last.name) == key && o.Some? && o.value.kind == "Deployment" {
        assert OwnedByKind(last.owners, "Deployment", o.value.name);
        assert SetBehindAt(sets, n, key, d) <==> OwnedByKind(last.owners, "Deployment", d);
      } else {
        forall i ensures SetBehindAt(sets, i, key, d) <==> SetBehindAt(init, i, key, d) {
        }
      }
    }
  }

  lemma {:induction false} JobBehindIs(jobs: seq<Job>, key: string, c: string)
    ensures CronJobOf(jobs, key) == Some(c) <==> JobBehind(jobs, key, c)
  {
    if jobs != [] {
      var n := |jobs| - 1;
      var init, last := jobs[..n], jobs[n];
      JobBehindIs(init, key, c);
      forall e ensures OwnedByKind(last.owners, "CronJob", e) <==>
        ControllerOwner(last.owners).Some? && ControllerOwner(last.owners).value.kind == "CronJob" && ControllerOwner(last.owners).value.name == e
      {
        OwnedByKindIs(last.owners, "CronJob", e);
      }
      assert forall i :: 0 <= i < n ==> init[i] == jobs[i];
      var o := ControllerOwner(last.owners);
      if NamedKey(last.namespace, last.name) == key && o.Some? && o.value.kind == "CronJob" {
        assert OwnedByKind(last.owners, "CronJob", o.value.name);
        assert JobBehindAt(jobs, n, key, c) <==> OwnedByKind(last.owners, "CronJob", c);
      } else {
        forall i ensures JobBehindAt(jobs, i, key, c) <==> JobBehindAt(init, i, key, c) {
        }
      }
    }
  }

  /** The promotion of a pod's reference: a ReplicaSet to its Deployment, a Job to its known CronJob, anything else as it stands. */
  ghost predicate Promoted(inp: Inputs, namespace: string, ref: OwnerRef, o: Owner) {
    var key := NamedKey(namespace, ref.name);
    && o.namespace == namespace
    && if ref.kind == "ReplicaSet" then
         if o.kind == "Deployment" then SetBehind(inp.replicaSets, key, o.name)
         else o.kind == "ReplicaSet" && o.name == ref.name && forall d :: !SetBehind(inp.replicaSets, key, d)
       else if ref.kind == "Job" then
         if o.kind == "CronJob" then JobBehind(inp.jobs, key, o.name) && KnownCronJob(inp.cronJobs, NamedKey(namespace, o.name))
         else
           && o.kind == "Job" && o.name == ref.name
           && forall c :: JobBehind(inp.jobs, key, c) ==> !KnownCronJob(inp.cronJobs, NamedKey(namespace, c))
       else o.kind == ref.kind && o.name == ref.name
  }

  /** The roll-up rule: a pod without owners stands for itself, any other goes where its owner reference is promoted to. */
  lemma {:induction false} OwnerRule(inp: Inputs, p: Pod, o: Owner)
    ensures OwnerOf(inp, p) == o <==>
      if p.owners == [] then o == Owner("Pod", p.namespace, p.name)
      else exists ref :: IsOwnerRef(p.owners, ref) && Promoted(inp, p.namespace, ref, o)
  {
    if p.owners != [] {
      ControllerOwnerExact(p.owners, p.owners[0]);
      var ref := ControllerOwner(p.owners).value;
      forall r ensures IsOwnerRef(p.owners, r) <==> r == ref {
        ControllerOwnerExact(p.owners, r);
      }
      PromotedIs(inp, p, ref, o);
    }
  }

  lemma {:induction false} PromotedIs(inp: Inputs, p: Pod, ref: OwnerRef, o: Owner)
    requires ControllerOwner(p.owners) == Some(ref)
    ensures OwnerOf(inp, p) == o <==> Promoted(inp, p.namespace, ref, o)
  {
    var key := NamedKey(p.namespace, ref.name);
    assert "Deployment" != "ReplicaSet" && "CronJob" != "Job";
    if ref.kind == "ReplicaSet" {
      forall d ensures DeploymentOf(inp.replicaSets, key) == Some(d) <==> SetBehind(inp.replicaSets, key, d) {
        SetBehindIs(inp.replicaSets, key, d);
      }
    } else if ref.kind == "Job" {
      forall c ensures CronJobOf(inp.jobs, key) == Some(c) <==> JobBehind(inp.jobs, key, c) {
        JobBehindIs(inp.jobs, key, c);
      }
    }
  }

  // ---- when an assembled workload is flagged

  ghost predicate SomeUnready(inp: Inputs, pods: seq<Pod>, k: string) {
    exists i :: 0 <= i < |pods| && PodKey(inp, pods[i]) == k && !PodIsReady(pods[i])
  }

  lemma {:induction false} UnreadyStep(inp: Inputs, pods: seq<Pod>, k: string)
    requires pods != []
    ensures var n := |pods| - 1;
      SomeUnready(inp, pods, k) <==> SomeUnready(inp, pods[..n], k) || (PodKey(inp, pods[n]) == k && !PodIsReady(pods[n]))
  {
    var n := |pods| - 1;
    assert forall i :: 0 <= i < n ==> pods[..n][i] == pods[i];
  }

  lemma {:induction false} ReadyAtMost(inp: Inputs, pods: seq<Pod>, k: string)
    ensures var ready, rows := GroupTotal(PodGroup(inp), OneIfReady, pods, k), RowsAt(inp, pods, k);
      ready <= |rows| && (ready < |rows| <==> SomeUnready(inp, pods, k))
  {
    if pods != [] {
      var n := |pods| - 1;
      ReadyAtMost(inp, pods[..n], k);
      assert pods[..|pods|] == pods;
      RowsStep(inp, pods, n, k);
      UnreadyStep(inp, pods, k);
    }
  }

  /** Every pod of the key has finished. */
  ghost predicate AllFinished(inp: Inputs, k: string) {
    forall i :: 0 <= i < |inp.pods| && PodKey(inp, inp.pods[i]) == k ==> inp.pods[i].phase == "Succeeded" || inp.pods[i].phase == "Failed"
  }

  ghost predicate SomePod(inp: Inputs, k: string, test: Pod -> bool) {
    exists i :: 0 <= i < |inp.pods| && PodKey(inp, inp.pods[i]) == k && test(inp.pods[i])
  }

  function HasFailed(): (f: Pod -> bool) { (p: Pod) => p.phase == "Failed" }

  function NotReady(): (f: Pod -> bool) { (p: Pod) => !(p.statuses != [] && forall i :: 0 <= i < |p.statuses| ==> p.statuses[i].ready) }

  ghost predicate RowIn(rows: seq<PodRow>, phase: string) { exists i :: 0 <= i < |rows| && rows[i].phase == phase }

  ghost predicate PodIn(inp: Inputs, k: string, phase: string) {
    exists i :: 0 <= i < |inp.pods| && PodKey(inp, inp.pods[i]) == k && inp.pods[i].phase == phase
  }

  /** The rows of a key have the phases of its pods. */
  lemma {:induction false} RowPhases(inp: Inputs, k: string, phase: string)
    ensures RowIn(RowsAt(inp, inp.pods, k), phase) <==> PodIn(inp, k, phase)
  {
    var pods, rows, kept := inp.pods, RowsAt(inp, inp.pods, k), Filter(UnderKey(inp, k), inp.pods);
    FilterElements(UnderKey(inp, k), pods);
    if RowIn(rows, phase) {
      var i :| 0 <= i < |rows| && rows[i].phase == phase;
      assert kept[i] in kept;
      var j :| 0 <= j < |pods| && pods[j] == kept[i];
    }
    if PodIn(inp, k, phase) {
      var i :| 0 <= i < |pods| && PodKey(inp, pods[i]) == k && pods[i].phase == phase;
      assert pods[i] in kept;
      var j :| 0 <= j < |kept| && kept[j] == pods[i];
      assert rows[j].phase == phase;
    }
  }

  lemma {:induction false} TerminalRows(rows: seq<PodRow>)
    requires rows != []
    ensures TerminalPodStatus(rows) != "" <==> forall phase :: RowIn(rows, phase) ==> phase == "Succeeded" || phase == "Failed"
    ensures TerminalPodStatus(rows) == "Failed" <==> TerminalPodStatus(rows) != "" && RowIn(rows, "Failed")
  {
    assert "Complete" != "Failed" && |"Complete"| > 0 && |"Failed"| > 0;
    forall i | 0 <= i < |rows| ensures RowIn(rows, rows[i].phase) {
    }
  }

  /** Finished status of the rows of a key, over its pods. */
  lemma {:induction false} TerminalIs(inp: Inputs, k: string)
    requires RowsAt(inp, inp.pods, k) != []
    ensures TerminalPodStatus(RowsAt(inp, inp.pods, k)) != "" <==> AllFinished(inp, k)
    ensures TerminalPodStatus(RowsAt(inp, inp.pods, k)) == "Failed" <==> AllFinished(inp, k) && SomePod(inp, k, HasFailed())
  {
    var rows := RowsAt(inp, inp.pods, k);
    TerminalRows(rows);
    forall phase ensures RowIn(rows, phase) <==> PodIn(inp, k, phase) {
      RowPhases(inp, k, phase);
    }
    FinishedByPhase(inp, k);
  }

  lemma {:induction false} FinishedByPhase(inp: Inputs, k: string)
    ensures AllFinished(inp, k) <==> forall phase :: PodIn(inp, k, phase) ==> phase == "Succeeded" || phase == "Failed"
    ensures SomePod(inp, k, HasFailed()) <==> PodIn(inp, k, "Failed")
  {
    forall i | 0 <= i < |inp.pods| && PodKey(inp, inp.pods[i]) == k ensures PodIn(inp, k, inp.pods[i].phase) {
    }
    if SomePod(inp, k, HasFailed()) {
      var i :| 0 <= i < |inp.pods| && PodKey(inp, inp.pods[i]) == k && HasFailed()(inp.pods[i]);
    }
    if PodIn(inp, k, "Failed") {
      var i :| 0 <= i < |inp.pods| && PodKey(inp, inp.pods[i]) == k && inp.pods[i].phase == "Failed";
      assert HasFailed()(inp.pods[i]);
    }
  }

  /**
   A workload with a controller needs attention iff a finding hit it, it has fewer
   ready pods than it wants, or its controller says Failed; one known only by its
   pods iff a finding hit it, it finished with a failure, or it has not finished
   and some pod is not ready.
   */
  lemma {:induction false} FlaggedExact(inp: Inputs, findings: seq<PodFinding>, k: string)
    requires WorkloadAt(inp, findings, k).Some?
    ensures Flagged(WorkloadAt(inp, findings, k).value) <==>
      || FindingsAt(inp, findings, k) != []
      || match SeedAt(Seeds(inp), k)
         case Some(s) => s.ready < s.desired || s.status == "Failed"
         case None => if AllFinished(inp, k) then SomePod(inp, k, HasFailed()) else SomePod(inp, k, NotReady())
  {
    assert inp.pods[..|inp.pods|] == inp.pods;
    RollRows(inp, |inp.pods|, k);
    SeedCarried(inp, inp.pods, k);
    var w := RollAt(inp, inp.pods, k).value.(findings := FindingsAt(inp, findings, k));
    if SeedAt(Seeds(inp), k).None? {
      UnseededHasRows(inp, inp.pods, k);
      TerminalIs(inp, k);
      ReadyAtMost(inp, inp.pods, k);
      assert SomePod(inp, k, NotReady()) <==> GroupTotal(PodGroup(inp), OneIfReady, inp.pods, k) < |RowsAt(inp, inp.pods, k)|;
    }
    FinishFlagged(w, GroupTotal(PodGroup(inp), OneIfReady, inp.pods, k), SeedAt(Seeds(inp), k).Some?);
  }

  lemma {:induction false} FinishFlagged(w: Workload, ready: int, seeded: bool)
    requires !seeded ==> w.status == ""
    ensures Flagged(Finish(w, ready, seeded)) <==>
      || w.findings != []
      || if seeded then w.ready < w.desired || w.status == "Failed"
         else if TerminalPodStatus(w.pods) != "" then TerminalPodStatus(w.pods) == "Failed" else ready < |w.pods|
  {
    assert "Failed" != "Scaled Down" && "Failed" != "Running" && "Failed" != "Degraded" && "Failed" != "Complete";
  }

  /** Pods leave a seed's counts and status alone. */
  lemma {:induction false} SeedCarried(inp: Inputs, pods: seq<Pod>, k: string)
    ensures match SeedAt(Seeds(inp), k)
      case Some(s) =>
        && RollAt(inp, pods, k).Some?
        && var w := RollAt(inp, pods, k).value; w.ready == s.ready && w.desired == s.desired && w.status == s.status
      case None => RollAt(inp, pods, k).Some? ==> RollAt(inp, pods, k).value.status == ""
  {
    if pods != [] {
      SeedCarried(inp, pods[..|pods| - 1], k);
    }
  }

  lemma {:induction false} UnseededHasRows(inp: Inputs, pods: seq<Pod>, k: string)
    requires SeedAt(Seeds(inp), k).None? && RollAt(inp, pods, k).Some?
    ensures RollAt(inp, pods, k).value.pods != []
  {
    if pods != [] && PodKey(inp, pods[|pods| - 1]) != k {
      UnseededHasRows(inp, pods[..|pods| - 1], k);
    }
  }

  /** A controller under its own key: it wants its replicas, one when unset, and is short iff fewer are ready. */
  lemma {:induction false} ControllerCounts(inp: Inputs, i: nat)
    requires i < |inp.controllers|
    requires forall j :: 0 <= j < |Seeds(inp)| && j != i ==> KeyOf(Seeds(inp)[j]) != KeyOf(Seeds(inp)[i])
    ensures var c := inp.controllers[i];
      SeedAt(Seeds(inp), ObjectKey(c.kind, c.namespace, c.name)) ==
        Some(Workload(c.namespace, c.name, c.kind, if c.replicas == None then 1 else c.replicas.value, c.ready, "", 0, "", [], 0, [], "", 0, []))
  {
    SeedUnique(Seeds(inp), i);
  }

  lemma {:induction false} SeedUnique(seeds: seq<Workload>, i: nat)
    requires i < |seeds| && forall j :: 0 <= j < |seeds| && j != i ==> KeyOf(seeds[j]) != KeyOf(seeds[i])
    ensures SeedAt(seeds, KeyOf(seeds[i])) == Some(seeds[i])
  {
    var n := |seeds| - 1;
    if i < n {
      SeedUnique(seeds[..n], i);
    }
  }

  // ---- what prioritizing shows and hides

  function HiddenCron(): (f: Workload -> bool) { (w: Workload) => !Flagged(w) && w.kind == "CronJob" }

  function HiddenRestart(): (f: Workload -> bool) { (w: Workload) => !Flagged(w) && w.kind != "CronJob" && w.restarts > 0 }

  /** A shown workload and its tier: flagged 2, restarted 3, cron 4. */
  ghost predicate ShownAs(opts: Opts, w: Workload, x: Workload) {
    || (Flagged(w) && x == w.(priority := 2))
    || (HiddenRestart()(w) && opts.includeRestarts && x == w.(priority := 3))
    || (HiddenCron()(w) && opts.includeCron && x == w.(priority := 4))
  }

  /** An option shows its class or counts it as hidden; nothing else is hidden. */
  lemma {:induction false} FatesExact(ws: seq<Workload>, opts: Opts)
    ensures CountFate(ws, opts, HideCron) == (if opts.includeCron then 0 else |Filter(HiddenCron(), ws)|)
    ensures CountFate(ws, opts, HideRestart) == (if opts.includeRestarts then 0 else |Filter(HiddenRestart(), ws)|)
    ensures forall x :: x in ShownOf(ws, opts) <==> exists i :: 0 <= i < |ws| && ShownAs(opts, ws[i], x)
  {
    if ws != [] {
      var n := |ws| - 1;
      FatesExact(ws[..n], opts);
      assert forall i :: 0 <= i < n ==> ws[..n][i] == ws[i];
      forall x ensures x in ShownOf(ws, opts) <==> exists i :: 0 <= i < |ws| && ShownAs(opts, ws[i], x) {
        assert x in ShownOf(ws, opts) <==> x in ShownOf(ws[..n], opts) || ShownAs(opts, ws[n], x);
      }
    }
  }

  // ---- the order of the two reports

  predicate ByPlace(a: Workload, b: Workload) { Texts3Le(a.namespace, a.name, a.kind, b.namespace, b.name, b.kind) }

  /** The inventory lists flagged workloads first, then goes by namespace, name and kind. */
  lemma {:induction false} AssembledInOrder(inp: Inputs, findings: seq<PodFinding>, out: seq<Workload>, i: nat, j: nat)
    requires IsAssembly(inp, findings, out) && i < j < |out|
    ensures if Flagged(out[i]) != Flagged(out[j]) then Flagged(out[i]) else ByPlace(out[i], out[j])
  {
    var a, b := out[i], out[j];
    assert KeyLe(AssemblyOrder(a), AssemblyOrder(b));
    NumThenTexts(if Flagged(a) then 0 else 1, a.namespace, a.name, a.kind, if Flagged(b) then 0 else 1, b.namespace, b.name, b.kind);
  }

  /** The prioritized report goes by priority, then by namespace, name and kind. */
  lemma {:induction false} PrioritizedInOrder(shown: seq<Workload>, out: seq<Workload>, i: nat, j: nat)
    requires IsSortOf(PriorityOrder, shown, out) && i < j < |out|
    ensures out[i].priority < out[j].priority || (out[i].priority == out[j].priority && ByPlace(out[i], out[j]))
  {
    var a, b := out[i], out[j];
    assert KeyLe(PriorityOrder(a), PriorityOrder(b));
    NumThenTexts(a.priority, a.namespace, a.name, a.kind, b.priority, b.namespace, b.name, b.kind);
  }
}
