/**
 internal/alertstate: one alert per object, rolled up from the tracker's active
 records.  The first half gives one `Roll`; the second half is about whole runs
 of Rolls, seen by a receiver that knows nothing but the notifications.

 Times are integers (nanoseconds); the caller passes `now`.
 */
module AlertState {
  import opened Basics
  import opened Sorting

  datatype Object = Object(cluster: string, kind: string, namespace: string, name: string)

  /** Object.String(), the order of a Roll's result. */
  function ObjectText(o: Object): (s: string) {
    if o.namespace == "" then o.cluster + "/" + o.kind + "/" + o.name
    else o.cluster + "/" + o.kind + "/" + o.namespace + "/" + o.name
  }

  /** The columns of a watchstate.Record that a Roll reads. */
  datatype Record = Record(kind: string, namespace: string, name: string, issue: string,
                           firingSince: int, flapping: bool)

  function ObjectOf(cluster: string, r: Record): (o: Object) {
    Object(cluster, r.kind, r.namespace, r.name)
  }

  datatype Status = Firing | Resolved

  datatype Reason = New | Changed | Repeated | Recovered

  datatype Notification = Notification(
    about: Object, status: Status, issues: seq<string>, firingSince: int,
    resolvedAt: Option<int>, flapping: bool, reason: Reason)

  datatype Alert = Alert(firingSince: int, issues: seq<string>, lastSent: int)

  datatype Group = Group(issues: seq<string>, firingSince: int, flapping: bool)

  const DEFAULT_REPEAT: int := 4 * 3600 * 1_000_000_000

  // ---- what a set of active records says about one object

  ghost predicate About(cluster: string, active: seq<Record>, o: Object, i: int) {
    0 <= i < |active| && ObjectOf(cluster, active[i]) == o
  }

  ghost predicate Broken(cluster: string, active: seq<Record>, o: Object) {
    exists i :: About(cluster, active, o, i)
  }

  /** Exactly the object's distinct issues, in ascending order. */
  ghost predicate IsIssueList(cluster: string, active: seq<Record>, o: Object, issues: seq<string>) {
    && StrictlyAscending(issues)
    && (forall i :: About(cluster, active, o, i) ==> active[i].issue in issues)
    && (forall x :: x in issues ==> exists i :: About(cluster, active, o, i) && active[i].issue == x)
  }

  ghost predicate StrictlyAscending(issues: seq<string>) {
    forall i, j :: 0 <= i < j < |issues| ==> TextLe(issues[i], issues[j]) && issues[i] != issues[j]
  }

  // ---- uniqueSorted

  lemma {:induction false} TextKeyOrder(a: string, b: string)
    ensures KeyLe(TextKey(a), TextKey(b)) <==> TextLe(a, b)
  {
    TextLeTotal(a, b);
  }

  /** Drops every element equal to its successor. */
  function Dedup(xs: seq<string>): (r: seq<string>) {
    if |xs| <= 1 then xs
    else if xs[0] == xs[1] then Dedup(xs[1..])
    else [xs[0]] + Dedup(xs[1..])
  }

  function Distinct(xs: seq<string>): (r: seq<string>) {
    Dedup(SortBy(TextKey, xs))
  }

  lemma {:induction false} DedupAscends(xs: seq<string>)
    requires forall i, j :: 0 <= i < j < |xs| ==> TextLe(xs[i], xs[j])
    ensures StrictlyAscending(Dedup(xs))
    ensures forall x :: x in Dedup(xs) <==> x in xs
  {
    if |xs| > 1 {
      assert xs == [xs[0]] + xs[1..];
      DedupAscends(xs[1..]);
      if xs[0] != xs[1] {
        var rest := Dedup(xs[1..]);
        forall j | 0 <= j < |rest| ensures TextLe(xs[0], rest[j]) && xs[0] != rest[j] {
          assert rest[j] in xs[1..];
          var k :| 1 <= k < |xs| && xs[k] == rest[j];
          TextLeTotal(xs[0], xs[1]);
          if k > 1 && xs[0] == xs[k] { assert TextLe(xs[1], xs[k]); }
        }
      }
    }
  }

  lemma {:induction false} DistinctAscends(xs: seq<string>)
    ensures StrictlyAscending(Distinct(xs))
    ensures forall x :: x in Distinct(xs) <==> x in xs
  {
    var sorted := SortBy(TextKey, xs);
    SortBySorts(TextKey, xs);
    SameElements(sorted, xs);
    forall i, j | 0 <= i < j < |sorted| ensures TextLe(sorted[i], sorted[j]) { TextKeyOrder(sorted[i], sorted[j]); }
    DedupAscends(sorted);
  }

  /** uniqueSorted: sort, then keep every element that differs from its predecessor. */
  method UniqueSorted(xs: seq<string>) returns (out: seq<string>)
    ensures out == Distinct(xs)
  {
    var sorted := SortSlice(TextKey, xs);
    SameElements(sorted, xs);
    out := [];
    for i := 0 to |sorted|
      invariant StrictlyAscending(out) && (i == 0 ==> out == [])
      invariant forall x :: x in out <==> x in sorted[..i]
      invariant i > 0 ==> out != [] && out[|out| - 1] == sorted[i - 1]
    {
      assert sorted[..i + 1] == sorted[..i] + [sorted[i]];
      if i > 0 && sorted[i] == sorted[i - 1] {
        continue;
      }
      if i > 0 {
        assert KeyLe(TextKey(sorted[i - 1]), TextKey(sorted[i]));
        TextKeyOrder(sorted[i - 1], sorted[i]);
        AscendingExtends(out, sorted[i - 1], sorted[i]);
      }
      out := out + [sorted[i]];
    }
    assert sorted[..|sorted|] == sorted;
    DistinctAscends(xs);
    AscendingUnique(out, Distinct(xs));
  }

  lemma {:induction false} AscendingExtends(out: seq<string>, last: string, x: string)
    requires StrictlyAscending(out) && out != [] && out[|out| - 1] == last
    requires TextLe(last, x) && last != x
    ensures StrictlyAscending(out + [x])
  {
    forall i | 0 <= i < |out| ensures TextLe(out[i], x) && out[i] != x {
      if i < |out| - 1 {
        TextLeTransitive(out[i], last, x);
        TextLeTotal(out[i], last);
        TextLeTotal(last, x);
      }
    }
  }

  /** A strictly ascending list is determined by its elements. */
  lemma {:induction false} AscendingUnique(xs: seq<string>, ys: seq<string>)
    requires StrictlyAscending(xs) && StrictlyAscending(ys)
    requires forall x :: x in xs <==> x in ys
    ensures xs == ys
  {
    NoDupSameElements(xs, ys);
    forall i, j | 0 <= i < j < |xs| ensures KeyLe(TextKey(xs[i]), TextKey(xs[j])) { TextKeyOrder(xs[i], xs[j]); }
    forall i, j | 0 <= i < j < |ys| ensures KeyLe(TextKey(ys[i]), TextKey(ys[j])) { TextKeyOrder(ys[i], ys[j]); }
    SortUnique(TextKey, xs, ys);
  }

  // ---- grouping

  /** One object's group after a prefix of the active records. */
  function GroupOf(cluster: string, active: seq<Record>, o: Object): (g: Option<Group>) {
    if active == [] then None
    else
      var last := active[|active| - 1];
      var before := GroupOf(cluster, active[..|active| - 1], o);
      if ObjectOf(cluster, last) != o then before
      else Some(AddRecord(before, last))
  }

  function AddRecord(before: Option<Group>, r: Record): (g: Group) {
    match before
    case None => Group([r.issue], r.firingSince, r.flapping)
    case Some(g) =>
      Group(g.issues + [r.issue],
            if r.firingSince < g.firingSince then r.firingSince else g.firingSince,
            g.flapping || r.flapping)
  }

  ghost predicate IsEarliest(cluster: string, active: seq<Record>, o: Object, t: int) {
    && (forall i :: About(cluster, active, o, i) ==> t <= active[i].firingSince)
    && (exists i :: About(cluster, active, o, i) && active[i].firingSince == t)
  }

  /** A group holds its object's issues, its earliest start, and whether any record flaps. */
  lemma {:induction false} GroupIsExact(cluster: string, active: seq<Record>, o: Object)
    ensures GroupOf(cluster, active, o).Some? <==> Broken(cluster, active, o)
    ensures GroupOf(cluster, active, o).Some? ==>
      var g := GroupOf(cluster, active, o).value;
      && IsEarliest(cluster, active, o, g.firingSince)
      && (forall i :: About(cluster, active, o, i) ==> active[i].issue in g.issues)
      && (forall x :: x in g.issues ==> exists i :: About(cluster, active, o, i) && active[i].issue == x)
      && (g.flapping <==> exists i :: About(cluster, active, o, i) && active[i].flapping)
  {
    if active != [] {
      var n := |active| - 1;
      var init := active[..n];
      GroupIsExact(cluster, init, o);
      assert forall i :: About(cluster, init, o, i) ==> About(cluster, active, o, i) && active[i] == init[i];
      assert forall i :: About(cluster, active, o, i) ==> i == n || About(cluster, init, o, i);
      if ObjectOf(cluster, active[n]) == o {
        assert About(cluster, active, o, n);
      }
    }
  }

  method GroupActive(cluster: string, active: seq<Record>) returns (groups: map<Object, Group>)
    ensures forall o :: o in groups <==> GroupOf(cluster, active, o).Some?
    ensures forall o :: o in groups ==> Some(groups[o]) == GroupOf(cluster, active, o)
  {
    groups := map[];
    for i := 0 to |active|
      invariant forall o :: o in groups <==> GroupOf(cluster, active[..i], o).Some?
      invariant forall o :: o in groups ==> Some(groups[o]) == GroupOf(cluster, active[..i], o)
    {
      var rec := active[i];
      assert active[..i + 1][..i] == active[..i];
      var o := ObjectOf(cluster, rec);
      if o !in groups {
        groups := groups[o := Group([rec.issue], rec.firingSince, rec.flapping)];
      } else {
        groups := groups[o := AddRecord(Some(groups[o]), rec)];
      }
    }
    assert active[..|active|] == active;
  }

  // ---- one object's part of a Roll

  function Lookup(open: map<Object, Alert>, o: Object): (a: Option<Alert>) {
    if o in open then Some(open[o]) else None
  }

  /** The alert after the roll and the reason to notify, if there is one. */
  function Advance(before: Option<Alert>, g: Group, now: int, repeat: int): (r: (Alert, Option<Reason>)) {
    match before
    case None => (Alert(g.firingSince, g.issues, now), Some(New))
    case Some(a) =>
      var since := if g.firingSince < a.firingSince then g.firingSince else a.firingSince;
      if a.issues != g.issues then (Alert(since, g.issues, now), Some(Changed))
      else if now - a.lastSent >= repeat then (Alert(since, a.issues, now), Some(Repeated))
      else (Alert(since, a.issues, a.lastSent), None)
  }

  function FiringNote(o: Object, a: Alert, g: Group, reason: Reason): (n: Notification) {
    Notification(o, Firing, g.issues, a.firingSince, None, g.flapping, reason)
  }

  function ResolvedNote(o: Object, a: Alert, now: int): (n: Notification) {
    Notification(o, Resolved, [], a.firingSince, Some(now), false, Recovered)
  }

  /** What the roll leaves open for one object, and what it sends about it. */
  function After(before: Option<Alert>, group: Option<Group>, o: Object, now: int, repeat: int)
    : (r: (Option<Alert>, Option<Notification>))
  {
    match (before, group)
    case (None, None) => (None, None)
    case (Some(a), None) => (None, Some(ResolvedNote(o, a, now)))
    case (_, Some(g)) =>
      var (a, reason) := Advance(before, g, now, repeat);
      (Some(a), if reason.None? then None else Some(FiringNote(o, a, g, reason.value)))
  }

  /** One object's group with its issue list sorted and free of duplicates. */
  function Seen(cluster: string, active: seq<Record>, o: Object): (g: Option<Group>) {
    match GroupOf(cluster, active, o)
    case None => None
    case Some(g) => Some(g.(issues := Distinct(g.issues)))
  }

  lemma {:induction false} SeenIsExact(cluster: string, active: seq<Record>, o: Object)
    ensures Seen(cluster, active, o).Some? <==> Broken(cluster, active, o)
    ensures Seen(cluster, active, o).Some? ==>
      var g := Seen(cluster, active, o).value;
      && IsIssueList(cluster, active, o, g.issues)
      && IsEarliest(cluster, active, o, g.firingSince)
      && (g.flapping <==> exists i :: About(cluster, active, o, i) && active[i].flapping)
  {
    GroupIsExact(cluster, active, o);
    if Broken(cluster, active, o) {
      DistinctAscends(GroupOf(cluster, active, o).value.issues);
    }
  }

  ghost predicate DistinctObjects(out: seq<Notification>) {
    forall i, j :: 0 <= i < j < |out| ==> out[i].about != out[j].about
  }

  /** The objects in `done` have been handled, the others not yet. */
  ghost predicate Handled(open0: map<Object, Alert>, groups: map<Object, Group>, now: int, repeat: int,
                          done: set<Object>, open: map<Object, Alert>, out: seq<Notification>)
  {
    && (forall o :: Lookup(open, o) ==
          if o in done then After(Lookup(open0, o), GroupAt(groups, o), o, now, repeat).0 else Lookup(open0, o))
    && (forall n :: n in out <==>
          n.about in done && After(Lookup(open0, n.about), GroupAt(groups, n.about), n.about, now, repeat).1 == Some(n))
    && DistinctObjects(out)
  }

  function GroupAt(groups: map<Object, Group>, o: Object): (g: Option<Group>) {
    if o in groups then Some(groups[o]) else None
  }

  lemma {:induction false} HandleOne(open0: map<Object, Alert>, groups: map<Object, Group>, now: int, repeat: int,
                  done: set<Object>, open: map<Object, Alert>, out: seq<Notification>,
                  o: Object, open': map<Object, Alert>, out': seq<Notification>)
    requires Handled(open0, groups, now, repeat, done, open, out) && o !in done
    requires var (a, n) := After(Lookup(open0, o), GroupAt(groups, o), o, now, repeat);
      && open' == (if a.Some? then open[o := a.value] else open - {o})
      && out' == (if n.Some? then out + [n.value] else out)
    ensures Handled(open0, groups, now, repeat, done + {o}, open', out')
  {
    var (a, n) := After(Lookup(open0, o), GroupAt(groups, o), o, now, repeat);
    assert n.Some? ==> n.value.about == o;
    forall i, j | 0 <= i < j < |out'| ensures out'[i].about != out'[j].about {
      if j == |out| { assert out[i] in out; }
    }
  }

  method SortGroups(raw: map<Object, Group>) returns (groups: map<Object, Group>)
    ensures groups.Keys == raw.Keys
    ensures forall o :: o in groups ==> groups[o] == raw[o].(issues := Distinct(raw[o].issues))
  {
    groups := map[];
    var todo := raw.Keys;
    while todo != {}
      invariant todo <= raw.Keys && groups.Keys == raw.Keys - todo
      invariant forall o :: o in groups ==> groups[o] == raw[o].(issues := Distinct(raw[o].issues))
    {
      var o :| o in todo;
      var issues := UniqueSorted(raw[o].issues);
      groups := groups[o := raw[o].(issues := issues)];
      todo := todo - {o};
    }
  }

  /** What one Roll does, object by object: the alerts it leaves open and the notes it sends. */
  ghost predicate Rolled(cluster: string, repeat: int, open0: map<Object, Alert>, active: seq<Record>, now: int,
                         open: map<Object, Alert>, out: seq<Notification>)
  {
    && DistinctObjects(out)
    && Sorted(NoteKey, out)
    && (forall o :: Lookup(open, o) == After(Lookup(open0, o), Seen(cluster, active, o), o, now, repeat).0)
    && (forall n :: n in out <==>
          After(Lookup(open0, n.about), Seen(cluster, active, n.about), n.about, now, repeat).1 == Some(n))
  }

  lemma {:induction false} FinishRoll(cluster: string, repeat: int, open0: map<Object, Alert>, active: seq<Record>, now: int,
                   groups: map<Object, Group>, done: set<Object>,
                   open: map<Object, Alert>, notes: seq<Notification>, out: seq<Notification>)
    requires forall o :: GroupAt(groups, o) == Seen(cluster, active, o)
    requires Handled(open0, groups, now, repeat, done, open, notes)
    requires done == groups.Keys + open0.Keys
    requires IsSortOf(NoteKey, notes, out)
    ensures Rolled(cluster, repeat, open0, active, now, open, out)
  {
    SameElements(out, notes);
    forall i, j | 0 <= i < j < |out| ensures out[i].about != out[j].about {
      NoDupPermutation(notes, out) by {
        assert NoDup(notes);
      }
      assert out[i] in notes && out[j] in notes;
    }
  }

  function NoteKey(n: Notification): (k: Key) { [Text(ObjectText(n.about))] }

  class Roller {
    const repeat: int
    const cluster: string
    var open: map<Object, Alert>

    constructor (repeat: int, cluster: string)
      ensures this.repeat == (if repeat <= 0 then DEFAULT_REPEAT else repeat) && this.repeat > 0
      ensures this.cluster == cluster && open == map[]
    {
      this.repeat := if repeat <= 0 then DEFAULT_REPEAT else repeat;
      this.cluster := cluster;
      open := map[];
    }

    /** The first loop of Roll: every object with an active record; map order is arbitrary. */
    method FireGroups(groups: map<Object, Group>, now: int) returns (notes: seq<Notification>)
      modifies this
      ensures Handled(old(open), groups, now, repeat, groups.Keys, open, notes)
    {
      ghost var open0 := open;
      notes := [];
      var todo := groups.Keys;
      while todo != {}
        invariant todo <= groups.Keys
        invariant Handled(open0, groups, now, repeat, groups.Keys - todo, open, notes)
      {
        var o :| o in todo;
        ghost var (open1, notes1) := (open, notes);
        var g := groups[o];
        assert Lookup(open, o) == Lookup(open0, o);
        var (a, reason) := Advance(Lookup(open, o), g, now, repeat);
        open := open[o := a];
        if reason.Some? {
          notes := notes + [FiringNote(o, a, g, reason.value)];
        }
        HandleOne(open0, groups, now, repeat, groups.Keys - todo, open1, notes1, o, open, notes);
        assert groups.Keys - todo + {o} == groups.Keys - (todo - {o});
        todo := todo - {o};
      }
    }

    /** The second loop of Roll: open alerts whose object has no active record left. */
    method ResolveStale(groups: map<Object, Group>, now: int, fired: seq<Notification>,
                        ghost open0: map<Object, Alert>)
      returns (notes: seq<Notification>)
      requires Handled(open0, groups, now, repeat, groups.Keys, open, fired)
      modifies this
      ensures Handled(open0, groups, now, repeat, groups.Keys + open0.Keys, open, notes)
    {
      notes := fired;
      var todo := open.Keys - groups.Keys;
      ghost var stale := todo;
      assert groups.Keys == groups.Keys + (stale - todo);
      forall o | o in open0 ensures o in groups.Keys + stale {
        assert o !in groups ==> Lookup(open, o) == Lookup(open0, o);
      }
      forall o | o in stale ensures o in open0 {
        assert Lookup(open, o) == Lookup(open0, o);
      }
      while todo != {}
        invariant todo <= stale
        invariant Handled(open0, groups, now, repeat, groups.Keys + (stale - todo), open, notes)
      {
        var o :| o in todo;
        ghost var (open1, notes1) := (open, notes);
        assert Lookup(open, o) == Lookup(open0, o);
        notes := notes + [ResolvedNote(o, open[o], now)];
        open := open - {o};
        HandleOne(open0, groups, now, repeat, groups.Keys + (stale - todo), open1, notes1, o, open, notes);
        assert groups.Keys + (stale - todo) + {o} == groups.Keys + (stale - (todo - {o}));
        todo := todo - {o};
      }
      assert groups.Keys + (stale - todo) == groups.Keys + open0.Keys;
    }

    /** Folds the active records into alerts and returns the notifications to deliver. */
    method Roll(active: seq<Record>, now: int) returns (out: seq<Notification>)
      modifies this
      ensures Rolled(cluster, repeat, old(open), active, now, open, out)
    {
      var raw := GroupActive(cluster, active);
      var groups := SortGroups(raw);
      ghost var open0 := open;
      var notes := FireGroups(groups, now);
      notes := ResolveStale(groups, now, notes, open0);
      out := SortSlice(NoteKey, notes);
      forall o ensures GroupAt(groups, o) == Seen(cluster, active, o) {
        assert o in raw <==> o in groups;
      }
      FinishRoll(cluster, repeat, open0, active, now, groups, groups.Keys + open0.Keys, open, notes, out);
    }
  }

  // ---- whole runs

  /** One completed Roll: its inputs, its notifications, the alerts left open. */
  datatype Step = Step(active: seq<Record>, now: int, out: seq<Notification>, open: map<Object, Alert>)

  function OpenBefore(run: seq<Step>, t: nat): (open: map<Object, Alert>)
    requires t <= |run|
  {
    if t == 0 then map[] else run[t - 1].open
  }

  ghost predicate RolledAt(cluster: string, repeat: int, run: seq<Step>, t: nat)
    requires t < |run|
  {
    Rolled(cluster, repeat, OpenBefore(run, t), run[t].active, run[t].now, run[t].open, run[t].out)
  }

  /** A run of Rolls on a fresh Roller. */
  ghost predicate IsRun(cluster: string, repeat: int, run: seq<Step>) {
    && repeat > 0
    && forall t {:trigger RolledAt(cluster, repeat, run, t)} :: 0 <= t < |run| ==> RolledAt(cluster, repeat, run, t)
  }

  lemma {:induction false} RunGrows(cluster: string, repeat: int, run: seq<Step>, s: Step)
    requires IsRun(cluster, repeat, run) && Rolled(cluster, repeat, OpenBefore(run, |run|), s.active, s.now, s.open, s.out)
    ensures IsRun(cluster, repeat, run + [s])
  {
    var run' := run + [s];
    forall t | 0 <= t < |run'| ensures RolledAt(cluster, repeat, run', t) {
      assert OpenBefore(run', t) == OpenBefore(run, t);
      if t < |run| {
        assert RolledAt(cluster, repeat, run, t);
      }
    }
  }

  /** A watch cycle after another: every sequence of Rolls on a new Roller is a run. */
  method RollAll(repeat: int, cluster: string, cycles: seq<(seq<Record>, int)>)
    returns (sent: seq<seq<Notification>>, ghost run: seq<Step>)
    ensures |sent| == |run| == |cycles|
    ensures forall t :: 0 <= t < |run| ==> (run[t].active, run[t].now) == cycles[t] && run[t].out == sent[t]
    ensures IsRun(cluster, if repeat <= 0 then DEFAULT_REPEAT else repeat, run)
  {
    sent, run := [], [];
    var r := new Roller(repeat, cluster);
    for t := 0 to |cycles|
      invariant |sent| == |run| == t && r.open == OpenBefore(run, t)
      invariant forall i :: 0 <= i < t ==> (run[i].active, run[i].now) == cycles[i] && run[i].out == sent[i]
      invariant IsRun(cluster, r.repeat, run)
    {
      var (active, now) := cycles[t];
      var out := r.Roll(active, now);
      ghost var s := Step(active, now, out, r.open);
      RunGrows(cluster, r.repeat, run, s);
      sent, run := sent + [out], run + [s];
    }
  }

  /** The first notification about an object in a Roll's result. */
  function NoteAbout(out: seq<Notification>, o: Object): (n: Option<Notification>) {
    if out == [] then None
    else if out[0].about == o then Some(out[0])
    else NoteAbout(out[1..], o)
  }

  lemma {:induction false} NoteAboutFinds(out: seq<Notification>, o: Object)
    ensures match NoteAbout(out, o)
      case None => forall n :: n in out ==> n.about != o
      case Some(n) => n in out && n.about == o
  {
    if out != [] {
      NoteAboutFinds(out[1..], o);
    }
  }

  /** The one notification about an object is the one the roll owes it. */
  lemma {:induction false} NoteOwed(out: seq<Notification>, o: Object, owed: Option<Notification>)
    requires forall n :: n in out && n.about == o <==> owed == Some(n)
    ensures NoteAbout(out, o) == owed
  {
    NoteAboutFinds(out, o);
    if owed.Some? {
      assert owed.value in out;
    }
  }

  lemma {:induction false} AfterIsAbout(before: Option<Alert>, group: Option<Group>, o: Object, now: int, repeat: int)
    ensures var note := After(before, group, o, now, repeat).1; note.Some? ==> note.value.about == o
  {
  }

  /** What a Roll leaves open and sends about one object, read off the run. */
  lemma {:induction false} StepOf(cluster: string, repeat: int, run: seq<Step>, t: nat, o: Object)
    requires IsRun(cluster, repeat, run) && t < |run|
    ensures (Lookup(run[t].open, o), NoteAbout(run[t].out, o))
         == After(Lookup(OpenBefore(run, t), o), Seen(cluster, run[t].active, o), o, run[t].now, repeat)
    ensures DistinctObjects(run[t].out)
    ensures o in run[t].open <==> Broken(cluster, run[t].active, o)
  {
    assert RolledAt(cluster, repeat, run, t);
    SeenIsExact(cluster, run[t].active, o);
    AfterIsAbout(Lookup(OpenBefore(run, t), o), Seen(cluster, run[t].active, o), o, run[t].now, repeat);
    NoteOwed(run[t].out, o,
             After(Lookup(OpenBefore(run, t), o), Seen(cluster, run[t].active, o), o, run[t].now, repeat).1);
  }

  /** There is at most one notification about an object, so any one is the one found. */
  lemma {:induction false} OnlyNote(out: seq<Notification>, n: Notification)
    requires DistinctObjects(out) && n in out
    ensures NoteAbout(out, n.about) == Some(n)
  {
    NoteAboutFinds(out, n.about);
  }

  // -- the receiver's view

  /** A receiver stores the issues of a firing object and forgets a resolved one. */
  function Receive(memory: map<Object, seq<string>>, n: Notification): (m: map<Object, seq<string>>) {
    match n.status
    case Firing => memory[n.about := n.issues]
    case Resolved => memory - {n.about}
  }

  function ReceiveAll(memory: map<Object, seq<string>>, out: seq<Notification>): (m: map<Object, seq<string>>)
    decreases |out|
  {
    if out == [] then memory else ReceiveAll(Receive(memory, out[0]), out[1..])
  }

  /** The receiver's memory after the first t Rolls. */
  function Memory(run: seq<Step>, t: nat): (m: map<Object, seq<string>>)
    requires t <= |run|
  {
    if t == 0 then map[] else ReceiveAll(Memory(run, t - 1), run[t - 1].out)
  }

  function Recall(memory: map<Object, seq<string>>, o: Object): (r: Option<seq<string>>) {
    if o in memory then Some(memory[o]) else None
  }

  lemma {:induction false} ReceiveAllAt(memory: map<Object, seq<string>>, out: seq<Notification>, o: Object)
    requires DistinctObjects(out)
    ensures Recall(ReceiveAll(memory, out), o) == match NoteAbout(out, o)
      case None => Recall(memory, o)
      case Some(n) => if n.status == Firing then Some(n.issues) else None
    decreases |out|
  {
    if out != [] {
      ReceiveAllAt(Receive(memory, out[0]), out[1..], o);
      if out[0].about == o {
        NoteAboutFinds(out[1..], o);
      }
    }
  }

  lemma {:induction false} MemoryMirrorsOpen(cluster: string, repeat: int, run: seq<Step>, t: nat, o: Object)
    requires IsRun(cluster, repeat, run) && t <= |run|
    ensures Recall(Memory(run, t), o)
         == (match Lookup(OpenBefore(run, t), o) case None => None case Some(a) => Some(a.issues))
  {
    if t > 0 {
      MemoryMirrorsOpen(cluster, repeat, run, t - 1, o);
      StepOf(cluster, repeat, run, t - 1, o);
      ReceiveAllAt(Memory(run, t - 1), run[t - 1].out, o);
    }
  }

  /** Every open alert carries its object's exact current issue list. */
  lemma {:induction false} OpenIssuesExact(cluster: string, repeat: int, run: seq<Step>, t: nat, o: Object)
    requires IsRun(cluster, repeat, run) && t < |run| && o in run[t].open
    ensures IsIssueList(cluster, run[t].active, o, run[t].open[o].issues)
  {
    StepOf(cluster, repeat, run, t, o);
    SeenIsExact(cluster, run[t].active, o);
  }

  /**
   The receiver is exact: after every Roll of every run it remembers precisely
   the broken objects, each with its sorted list of distinct active issues.
   */
  lemma {:induction false} ReceiverIsExact(cluster: string, repeat: int, run: seq<Step>, t: nat, o: Object)
    requires IsRun(cluster, repeat, run) && t < |run|
    ensures o in Memory(run, t + 1) <==> Broken(cluster, run[t].active, o)
    ensures o in Memory(run, t + 1) ==> IsIssueList(cluster, run[t].active, o, Memory(run, t + 1)[o])
  {
    MemoryMirrorsOpen(cluster, repeat, run, t + 1, o);
    StepOf(cluster, repeat, run, t, o);
    if o in run[t].open {
      OpenIssuesExact(cluster, repeat, run, t, o);
    }
  }

  // -- the shape of one object's stream

  /** The reasons sent about one object in one Roll's result. */
  function Reasons(out: seq<Notification>, o: Object): (r: seq<Reason>) {
    if out == [] then []
    else (if out[0].about == o then [out[0].reason] else []) + Reasons(out[1..], o)
  }

  /** The reasons sent about one object in the first t Rolls. */
  function Stream(run: seq<Step>, t: nat, o: Object): (r: seq<Reason>)
    requires t <= |run|
  {
    if t == 0 then [] else Stream(run, t - 1, o) + Reasons(run[t - 1].out, o)
  }

  /**
   The streams (new (changed | repeat)* resolved)*; `open` says that the last
   episode is still missing its resolved.
   */
  predicate WellFormed(stream: seq<Reason>, open: bool) {
    if stream == [] then !open
    else
      var init := stream[..|stream| - 1];
      match stream[|stream| - 1]
      case New => open && WellFormed(init, false)
      case Changed => open && WellFormed(init, true)
      case Repeated => open && WellFormed(init, true)
      case Recovered => !open && WellFormed(init, true)
  }

  lemma {:induction false} ReasonsAt(out: seq<Notification>, o: Object)
    requires DistinctObjects(out)
    ensures Reasons(out, o) == match NoteAbout(out, o) case None => [] case Some(n) => [n.reason]
  {
    if out != [] {
      ReasonsAt(out[1..], o);
      if out[0].about == o {
        NoteAboutFinds(out[1..], o);
      }
    }
  }

  lemma {:induction false} WellFormedExtends(stream: seq<Reason>, r: Reason, before: bool, after: bool)
    requires WellFormed(stream, before)
    requires Fits(r, before, after)
    ensures WellFormed(stream + [r], after)
  {
    assert (stream + [r])[..|stream|] == stream;
  }

  /** A reason is sent exactly when it fits whether the object was open before and is open after. */
  predicate Fits(r: Reason, before: bool, after: bool) {
    match r case New => !before && after case Recovered => before && !after case _ => before && after
  }

  lemma {:induction false} ReasonFits(cluster: string, repeat: int, run: seq<Step>, t: nat, o: Object)
    requires IsRun(cluster, repeat, run) && t < |run|
    ensures var before, after := o in OpenBefore(run, t), o in run[t].open;
      match NoteAbout(run[t].out, o)
      case None => before == after
      case Some(n) => Fits(n.reason, before, after)
    ensures DistinctObjects(run[t].out)
  {
    StepOf(cluster, repeat, run, t, o);
  }

  /** Every object's notifications form whole episodes, the last one possibly still open. */
  lemma {:induction false} StreamIsWellFormed(cluster: string, repeat: int, run: seq<Step>, t: nat, o: Object)
    requires IsRun(cluster, repeat, run) && t <= |run|
    ensures WellFormed(Stream(run, t, o), o in OpenBefore(run, t))
  {
    if t > 0 {
      StreamIsWellFormed(cluster, repeat, run, t - 1, o);
      ReasonFits(cluster, repeat, run, t - 1, o);
      ReasonsAt(run[t - 1].out, o);
      StreamGrows(Stream(run, t - 1, o), NoteAbout(run[t - 1].out, o), o in OpenBefore(run, t - 1), o in run[t - 1].open);
    }
  }

  lemma {:induction false} StreamGrows(stream: seq<Reason>, note: Option<Notification>, before: bool, after: bool)
    requires WellFormed(stream, before)
    requires match note case None => before == after case Some(n) => Fits(n.reason, before, after)
    ensures WellFormed(stream + (match note case None => [] case Some(n) => [n.reason]), after)
  {
    match note
    case None => assert stream + [] == stream;
    case Some(n) => WellFormedExtends(stream, n.reason, before, after);
  }

  /** A resolved is sent exactly when an open object has no active issue left. */
  lemma {:induction false} NoFalseRecovery(cluster: string, repeat: int, run: seq<Step>, t: nat, n: Notification)
    requires IsRun(cluster, repeat, run) && t < |run| && n in run[t].out
    ensures n.status == Resolved <==> !Broken(cluster, run[t].active, n.about)
    ensures n.status == Firing ==> IsIssueList(cluster, run[t].active, n.about, n.issues)
  {
    StepOf(cluster, repeat, run, t, n.about);
    OnlyNote(run[t].out, n);
    SeenIsExact(cluster, run[t].active, n.about);
  }

  // -- when the object broke

  /** The object is broken at every step from s to t and was not broken just before s. */
  ghost predicate IsEpisode(cluster: string, run: seq<Step>, o: Object, s: nat, t: nat) {
    && s <= t < |run|
    && (forall k :: s <= k <= t ==> Broken(cluster, run[k].active, o))
    && (s > 0 ==> !Broken(cluster, run[s - 1].active, o))
  }

  /** Some record about the object, seen in steps s to t, started at `when`. */
  ghost predicate SeenStart(cluster: string, run: seq<Step>, o: Object, s: nat, t: nat, when: int) {
    exists k, i :: s <= k <= t < |run| && About(cluster, run[k].active, o, i) && run[k].active[i].firingSince == when
  }

  /** Every record about the object, seen in steps s to t, started at `when` or later. */
  ghost predicate NoneEarlier(cluster: string, run: seq<Step>, o: Object, s: nat, t: nat, when: int) {
    forall k, i :: s <= k <= t < |run| && About(cluster, run[k].active, o, i) ==> when <= run[k].active[i].firingSince
  }

  /** One Roll: the start is this Roll's earliest, or the old start if that is earlier. */
  lemma {:induction false} SinceStep(cluster: string, repeat: int, run: seq<Step>, o: Object, t: nat) returns (earliest: int)
    requires IsRun(cluster, repeat, run) && t < |run| && Broken(cluster, run[t].active, o)
    ensures IsEarliest(cluster, run[t].active, o, earliest) && o in run[t].open
    ensures run[t].open[o].firingSince ==
      if o in OpenBefore(run, t) && OpenBefore(run, t)[o].firingSince <= earliest then OpenBefore(run, t)[o].firingSince
      else earliest
  {
    StepOf(cluster, repeat, run, t, o);
    SeenIsExact(cluster, run[t].active, o);
    earliest := Seen(cluster, run[t].active, o).value.firingSince;
  }

  lemma {:induction false} EarliestAlone(cluster: string, run: seq<Step>, o: Object, t: nat, when: int)
    requires t < |run| && IsEarliest(cluster, run[t].active, o, when)
    ensures NoneEarlier(cluster, run, o, t, t, when) && SeenStart(cluster, run, o, t, t, when)
  {
    var i :| About(cluster, run[t].active, o, i) && run[t].active[i].firingSince == when;
    assert t <= t;
  }

  lemma {:induction false} EarliestJoins(cluster: string, run: seq<Step>, o: Object, s: nat, t: nat, before: int, earliest: int)
    requires s < t < |run| && IsEarliest(cluster, run[t].active, o, earliest)
    requires NoneEarlier(cluster, run, o, s, t - 1, before) && SeenStart(cluster, run, o, s, t - 1, before)
    ensures var when := if before <= earliest then before else earliest;
      NoneEarlier(cluster, run, o, s, t, when) && SeenStart(cluster, run, o, s, t, when)
  {
    EpisodeGrows(cluster, run, o, s, t, before);
    var i :| About(cluster, run[t].active, o, i) && run[t].active[i].firingSince == earliest;
    assert SeenStart(cluster, run, o, s, t, earliest);
  }

  /** An alert's firingSince is the earliest start over all records since the alert opened. */
  lemma {:induction false} FiringSinceIsEpisodeMinimum(cluster: string, repeat: int, run: seq<Step>, o: Object, s: nat, t: nat)
    requires IsRun(cluster, repeat, run) && IsEpisode(cluster, run, o, s, t)
    ensures o in run[t].open
    ensures SeenStart(cluster, run, o, s, t, run[t].open[o].firingSince)
    ensures NoneEarlier(cluster, run, o, s, t, run[t].open[o].firingSince)
    decreases t
  {
    var earliest := SinceStep(cluster, repeat, run, o, t);
    if s == t {
      if s > 0 {
        StepOf(cluster, repeat, run, s - 1, o);
      }
      EarliestAlone(cluster, run, o, t, earliest);
    } else {
      FiringSinceIsEpisodeMinimum(cluster, repeat, run, o, s, t - 1);
      EarliestJoins(cluster, run, o, s, t, run[t - 1].open[o].firingSince, earliest);
    }
  }

  lemma {:induction false} EpisodeGrows(cluster: string, run: seq<Step>, o: Object, s: nat, t: nat, when: int)
    requires s < t < |run| && SeenStart(cluster, run, o, s, t - 1, when)
    ensures SeenStart(cluster, run, o, s, t, when)
  {
    var k, i :| s <= k <= t - 1 < |run| && About(cluster, run[k].active, o, i) && run[k].active[i].firingSince == when;
    assert s <= k <= t;
  }

  /** While an alert stays open its start never moves later, and notifications carry it. */
  lemma {:induction false} FiringSinceOnlyMovesEarlier(cluster: string, repeat: int, run: seq<Step>, o: Object, t: nat)
    requires IsRun(cluster, repeat, run) && 0 < t < |run| && o in run[t - 1].open
    ensures o in run[t].open ==> run[t].open[o].firingSince <= run[t - 1].open[o].firingSince
    ensures forall n :: n in run[t].out && n.about == o ==>
      n.firingSince == if o in run[t].open then run[t].open[o].firingSince else run[t - 1].open[o].firingSince
  {
    StepOf(cluster, repeat, run, t, o);
    forall n | n in run[t].out && n.about == o ensures NoteAbout(run[t].out, o) == Some(n) {
      OnlyNote(run[t].out, n);
    }
  }

  // -- cadence

  /** Step k sent a firing notification about o with exactly these issues. */
  ghost predicate SentFiring(run: seq<Step>, k: int, o: Object, issues: seq<string>) {
    0 <= k < |run| && exists n :: n in run[k].out && n.about == o && n.status == Firing && n.issues == issues
  }

  lemma {:induction false} LastSentIsWitnessed(cluster: string, repeat: int, run: seq<Step>, o: Object, t: nat)
    requires IsRun(cluster, repeat, run) && t < |run| && o in run[t].open
    ensures run[t].now - run[t].open[o].lastSent < repeat
    ensures exists k :: k <= t && SentFiring(run, k, o, run[t].open[o].issues) && run[k].now == run[t].open[o].lastSent
  {
    StepOf(cluster, repeat, run, t, o);
    if NoteAbout(run[t].out, o).Some? {
      NoteAboutFinds(run[t].out, o);
      assert SentFiring(run, t, o, run[t].open[o].issues);
    } else {
      LastSentIsWitnessed(cluster, repeat, run, o, t - 1);
    }
  }

  /**
   Cadence: after every Roll, each broken object's exact current issue list was
   sent less than Repeat ago.
   */
  lemma {:induction false} RecentlyTold(cluster: string, repeat: int, run: seq<Step>, o: Object, t: nat)
    requires IsRun(cluster, repeat, run) && t < |run| && Broken(cluster, run[t].active, o)
    ensures exists k, issues ::
      && k <= t && SentFiring(run, k, o, issues) && IsIssueList(cluster, run[t].active, o, issues)
      && run[t].now - run[k].now < repeat
  {
    StepOf(cluster, repeat, run, t, o);
    OpenIssuesExact(cluster, repeat, run, t, o);
    LastSentIsWitnessed(cluster, repeat, run, o, t);
  }

  // -- silence: exactly when something is sent, and what

  ghost predicate Noted(run: seq<Step>, k: int, o: Object) {
    0 <= k < |run| && exists n :: n in run[k].out && n.about == o
  }

  /** The latest Roll before t that sent anything about the object. */
  ghost predicate LastNoted(run: seq<Step>, o: Object, k: int, t: int) {
    0 <= k < t <= |run| && Noted(run, k, o) && forall i :: k < i < t ==> !Noted(run, i, o)
  }

  /** The last word about the object is at least Repeat old. */
  ghost predicate Due(run: seq<Step>, repeat: int, o: Object, t: nat)
    requires t < |run|
  {
    exists k :: LastNoted(run, o, k, t) && run[t].now - run[k].now >= repeat
  }

  ghost predicate WasBroken(cluster: string, run: seq<Step>, o: Object, t: nat)
    requires t < |run|
  {
    t > 0 && Broken(cluster, run[t - 1].active, o)
  }

  ghost predicate HasIssue(cluster: string, active: seq<Record>, o: Object, x: string) {
    exists i :: About(cluster, active, o, i) && active[i].issue == x
  }

  /** The object has the same active issues in both. */
  ghost predicate SameIssues(cluster: string, before: seq<Record>, after: seq<Record>, o: Object) {
    forall x :: HasIssue(cluster, before, o, x) <==> HasIssue(cluster, after, o, x)
  }

  lemma {:induction false} ListsAgree(cluster: string, before: seq<Record>, after: seq<Record>, o: Object, a: seq<string>, b: seq<string>)
    requires IsIssueList(cluster, before, o, a) && IsIssueList(cluster, after, o, b)
    ensures a == b <==> SameIssues(cluster, before, after, o)
  {
    forall x ensures (x in a <==> HasIssue(cluster, before, o, x)) && (x in b <==> HasIssue(cluster, after, o, x)) {
    }
    if SameIssues(cluster, before, after, o) {
      AscendingUnique(a, b);
    }
  }

  lemma {:induction false} NotedIff(run: seq<Step>, k: nat, o: Object)
    requires k < |run|
    ensures Noted(run, k, o) <==> NoteAbout(run[k].out, o).Some?
  {
    NoteAboutFinds(run[k].out, o);
  }

  /** An open alert remembers the time of the last note about its object. */
  lemma {:induction false} LastSentIsLastNote(cluster: string, repeat: int, run: seq<Step>, o: Object, t: nat) returns (k: nat)
    requires IsRun(cluster, repeat, run) && t <= |run| && o in OpenBefore(run, t)
    ensures LastNoted(run, o, k, t) && OpenBefore(run, t)[o].lastSent == run[k].now
  {
    StepOf(cluster, repeat, run, t - 1, o);
    NotedIff(run, t - 1, o);
    if NoteAbout(run[t - 1].out, o).Some? {
      k := t - 1;
    } else {
      k := LastSentIsLastNote(cluster, repeat, run, o, t - 1);
    }
  }

  lemma {:induction false} OpenIffWasBroken(cluster: string, repeat: int, run: seq<Step>, o: Object, t: nat)
    requires IsRun(cluster, repeat, run) && t < |run|
    ensures o in OpenBefore(run, t) <==> WasBroken(cluster, run, o, t)
  {
    if t > 0 {
      StepOf(cluster, repeat, run, t - 1, o);
    }
  }

  /** The guard of the transition, read off the run. */
  lemma {:induction false} GuardsAre(cluster: string, repeat: int, run: seq<Step>, o: Object, t: nat)
    requires IsRun(cluster, repeat, run) && t < |run| && WasBroken(cluster, run, o, t) && Broken(cluster, run[t].active, o)
    ensures o in OpenBefore(run, t) && Seen(cluster, run[t].active, o).Some?
    ensures var a, g := OpenBefore(run, t)[o], Seen(cluster, run[t].active, o).value;
      && (a.issues == g.issues <==> SameIssues(cluster, run[t - 1].active, run[t].active, o))
      && (run[t].now - a.lastSent >= repeat <==> Due(run, repeat, o, t))
  {
    OpenIffWasBroken(cluster, repeat, run, o, t);
    OpenIssuesExact(cluster, repeat, run, t - 1, o);
    SeenIsExact(cluster, run[t].active, o);
    var a, g := OpenBefore(run, t)[o], Seen(cluster, run[t].active, o).value;
    ListsAgree(cluster, run[t - 1].active, run[t].active, o, a.issues, g.issues);
    var k := LastSentIsLastNote(cluster, repeat, run, o, t);
    forall k' | LastNoted(run, o, k', t) ensures k' == k {
    }
  }

  /**
   Something is sent about an object exactly when it breaks, recovers, changes its
   issues, or stays broken with the last word about it at least Repeat old.
   */
  lemma {:induction false} NotedExactly(cluster: string, repeat: int, run: seq<Step>, o: Object, t: nat)
    requires IsRun(cluster, repeat, run) && t < |run|
    ensures var was, broken := WasBroken(cluster, run, o, t), Broken(cluster, run[t].active, o);
      Noted(run, t, o) <==>
        was != broken
        || (was && broken && (!SameIssues(cluster, run[t - 1].active, run[t].active, o) || Due(run, repeat, o, t)))
  {
    StepOf(cluster, repeat, run, t, o);
    NotedIff(run, t, o);
    OpenIffWasBroken(cluster, repeat, run, o, t);
    SeenIsExact(cluster, run[t].active, o);
    if WasBroken(cluster, run, o, t) && Broken(cluster, run[t].active, o) {
      GuardsAre(cluster, repeat, run, o, t);
    }
  }

  /** Why a note was sent. */
  ghost predicate RightReason(cluster: string, run: seq<Step>, t: nat, n: Notification)
    requires t < |run|
  {
    var o := n.about;
    match n.reason
    case New => !WasBroken(cluster, run, o, t) && Broken(cluster, run[t].active, o)
    case Recovered => WasBroken(cluster, run, o, t) && !Broken(cluster, run[t].active, o)
    case Changed =>
      && WasBroken(cluster, run, o, t) && Broken(cluster, run[t].active, o)
      && !SameIssues(cluster, run[t - 1].active, run[t].active, o)
    case Repeated =>
      && WasBroken(cluster, run, o, t) && Broken(cluster, run[t].active, o)
      && SameIssues(cluster, run[t - 1].active, run[t].active, o)
  }

  /** Every note says what is so: its reason, its status, its issues, its flapping and its time of recovery. */
  lemma {:induction false} NoteSaysWhatIsSo(cluster: string, repeat: int, run: seq<Step>, t: nat, n: Notification)
    requires IsRun(cluster, repeat, run) && t < |run| && n in run[t].out
    ensures RightReason(cluster, run, t, n)
    ensures n.flapping <==> exists i :: About(cluster, run[t].active, n.about, i) && run[t].active[i].flapping
    ensures if Broken(cluster, run[t].active, n.about)
      then n.status == Firing && n.resolvedAt == None && IsIssueList(cluster, run[t].active, n.about, n.issues)
      else n.status == Resolved && n.resolvedAt == Some(run[t].now) && n.issues == []
  {
    var o := n.about;
    StepOf(cluster, repeat, run, t, o);
    OnlyNote(run[t].out, n);
    OpenIffWasBroken(cluster, repeat, run, o, t);
    SeenIsExact(cluster, run[t].active, o);
    if WasBroken(cluster, run, o, t) && Broken(cluster, run[t].active, o) {
      GuardsAre(cluster, repeat, run, o, t);
    }
  }
}
