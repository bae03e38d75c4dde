/** Small shared vocabulary: options, owner references, slash-separated keys, sums and counts over lists. */
module Basics {
  datatype Option<+T> = None | Some(value: T)

  /** A metav1.OwnerReference as the code reads it. */
  datatype OwnerRef = OwnerRef(kind: string, name: string, controller: bool)

  function FirstController(refs: seq<OwnerRef>): (o: Option<OwnerRef>) {
    if refs == [] then None
    else if refs[0].controller then Some(refs[0])
    else FirstController(refs[1..])
  }

  /** The controller reference, else the first one. */
  function ControllerOwner(refs: seq<OwnerRef>): (o: Option<OwnerRef>) {
    match FirstController(refs)
    case Some(r) => Some(r)
    case None => if refs == [] then None else Some(refs[0])
  }

  /** The first reference that is the controller, or the first of all when none is. */
  ghost predicate IsOwnerRef(refs: seq<OwnerRef>, r: OwnerRef) { exists i :: OwnerRefAt(refs, i) && refs[i] == r }

  ghost predicate OwnerRefAt(refs: seq<OwnerRef>, i: int) {
    && 0 <= i < |refs|
    && if refs[i].controller then forall j :: 0 <= j < i ==> !refs[j].controller
       else i == 0 && forall j :: 0 <= j < |refs| ==> !refs[j].controller
  }

  lemma {:induction false} FirstControllerExact(refs: seq<OwnerRef>)
    ensures FirstController(refs) == None <==> forall j :: 0 <= j < |refs| ==> !refs[j].controller
    ensures FirstController(refs).Some? ==>
      exists i :: 0 <= i < |refs| && refs[i].controller && refs[i] == FirstController(refs).value && forall j :: 0 <= j < i ==> !refs[j].controller
  {
    if refs != [] && !refs[0].controller {
      var rest := refs[1..];
      FirstControllerExact(rest);
      assert forall j :: 0 < j < |refs| ==> refs[j] == rest[j - 1];
      if FirstController(refs).Some? {
        var i :| 0 <= i < |rest| && rest[i].controller && rest[i] == FirstController(rest).value && forall j :: 0 <= j < i ==> !rest[j].controller;
        assert refs[i + 1] == rest[i];
      }
    }
  }

  lemma {:induction false} ControllerOwnerExact(refs: seq<OwnerRef>, r: OwnerRef)
    ensures ControllerOwner(refs) == Some(r) <==> IsOwnerRef(refs, r)
    ensures ControllerOwner(refs) == None <==> refs == []
  {
    FirstControllerExact(refs);
    if FirstController(refs).Some? {
      var i :| 0 <= i < |refs| && refs[i].controller && refs[i] == FirstController(refs).value && forall j :: 0 <= j < i ==> !refs[j].controller;
      assert OwnerRefAt(refs, i);
    } else if refs != [] {
      assert OwnerRefAt(refs, 0);
    }
  }

  /** A status condition of a node. */
  datatype Condition = Condition(kind: string, status: string)

  /** Status of the first Ready condition. */
  function ReadyStatus(conditions: seq<Condition>): (s: Option<string>) {
    if conditions == [] then None
    else if conditions[0].kind == "Ready" then Some(conditions[0].status)
    else ReadyStatus(conditions[1..])
  }

  /** The first Ready condition has this status. */
  ghost predicate FirstReadyIs(conditions: seq<Condition>, status: string) {
    exists i :: FirstReadyAt(conditions, i) && conditions[i].status == status
  }

  ghost predicate FirstReadyAt(conditions: seq<Condition>, i: int) {
    0 <= i < |conditions| && conditions[i].kind == "Ready" && forall j :: 0 <= j < i ==> conditions[j].kind != "Ready"
  }

  ghost predicate NoReady(conditions: seq<Condition>) { forall j :: 0 <= j < |conditions| ==> conditions[j].kind != "Ready" }

  lemma {:induction false} ReadyStatusExact(conditions: seq<Condition>, status: string)
    ensures ReadyStatus(conditions) == Some(status) <==> FirstReadyIs(conditions, status)
    ensures ReadyStatus(conditions) == None <==> NoReady(conditions)
  {
    if conditions != [] {
      var rest := conditions[1..];
      ReadyStatusExact(rest, status);
      if conditions[0].kind == "Ready" {
        assert FirstReadyAt(conditions, 0);
      } else {
        forall i ensures FirstReadyAt(conditions, i) <==> FirstReadyAt(rest, i - 1) {
          assert forall j :: 0 < j < |conditions| ==> conditions[j] == rest[j - 1];
        }
        if i :| FirstReadyAt(rest, i) && rest[i].status == status {
          assert FirstReadyAt(conditions, i + 1) && conditions[i + 1].status == status;
        }
        assert NoReady(conditions) <==> NoReady(rest) by {
          assert forall j :: 0 < j < |conditions| ==> conditions[j] == rest[j - 1];
          assert forall j :: 0 <= j < |rest| ==> rest[j] == conditions[j + 1];
        }
      }
    }
  }

  // ---- text

  predicate IsBlank(c: char) { c in {' ', '\t', '\n', '\r', '\U{000B}', '\U{000C}', '\U{0085}', '\U{00A0}'} }

  function TrimLeft(s: string): (r: string) { if s != "" && IsBlank(s[0]) then TrimLeft(s[1..]) else s }

  function TrimRight(s: string): (r: string) {
    if s != "" && IsBlank(s[|s| - 1]) then TrimRight(s[..|s| - 1]) else s
  }

  function TrimSpace(s: string): (r: string) { TrimRight(TrimLeft(s)) }

  predicate Blanks(s: string) { forall i :: 0 <= i < |s| ==> IsBlank(s[i]) }

  predicate Trimmed(s: string) { s == "" || (!IsBlank(s[0]) && !IsBlank(s[|s| - 1])) }

  /** Trimming removes exactly the blanks around the text. */
  lemma {:induction false} TrimExact(left: string, core: string, right: string)
    requires Blanks(left) && Trimmed(core) && Blanks(right)
    ensures TrimSpace(left + core + right) == core
  {
    TrimLeftOf(left, core + right);
    assert left + core + right == left + (core + right);
    if core == "" {
      TrimLeftOf(right, "");
      assert core + right == right && right + "" == right;
    } else {
      assert TrimLeft(core + right) == core + right;
      TrimRightOf(core, right);
    }
  }

  lemma {:induction false} TrimLeftOf(left: string, rest: string)
    requires Blanks(left)
    ensures TrimLeft(left + rest) == TrimLeft(rest)
  {
    if left == "" {
      assert left + rest == rest;
    } else {
      assert (left + rest)[1..] == left[1..] + rest;
      TrimLeftOf(left[1..], rest);
    }
  }

  lemma {:induction false} TrimRightOf(rest: string, right: string)
    requires Blanks(right) && Trimmed(rest)
    ensures TrimRight(rest + right) == rest
  {
    if right == "" {
      assert rest + right == rest;
    } else {
      var s := rest + right;
      assert s[..|s| - 1] == rest + right[..|right| - 1];
      TrimRightOf(rest, right[..|right| - 1]);
    }
  }

  /** A number in decimal. */
  function Decimal(n: int): (s: string)
    decreases if n < 0 then 1 - n else n
  {
    if n < 0 then "-" + Decimal(-n)
    else if n < 10 then [('0' as int + n) as char]
    else Decimal(n / 10) + [('0' as int + n % 10) as char]
  }

  // ---- slash-separated keys

  predicate SlashFree(s: string) { '/' !in s }

  /** The first slash of a joined text is where a slash-free head ends. */
  lemma {:induction false} SplitAtSlash(a: string, b: string, c: string, d: string)
    requires SlashFree(a) && SlashFree(c) && a + "/" + b == c + "/" + d
    ensures a == c && b == d
  {
    var left, right := a + "/" + b, c + "/" + d;
    if a == "" || c == "" {
      assert left[0] == right[0];
      assert a == "" && c == "";
      assert left[1..] == b && right[1..] == d;
    } else {
      assert left[0] == a[0] && right[0] == c[0];
      assert left[1..] == a[1..] + "/" + b && right[1..] == c[1..] + "/" + d;
      SplitAtSlash(a[1..], b, c[1..], d);
      assert a == [a[0]] + a[1..] && c == [c[0]] + c[1..];
    }
  }

  /** kind/namespace/name. */
  function ObjectKey(kind: string, namespace: string, name: string): (k: string) {
    kind + "/" + namespace + "/" + name
  }

  /** With slash-free kinds and namespaces, as the API server demands, a key names one object. */
  lemma {:induction false} ObjectKeyInjective(k1: string, n1: string, m1: string, k2: string, n2: string, m2: string)
    requires SlashFree(k1) && SlashFree(n1) && SlashFree(k2) && SlashFree(n2)
    requires ObjectKey(k1, n1, m1) == ObjectKey(k2, n2, m2)
    ensures k1 == k2 && n1 == n2 && m1 == m2
  {
    assert ObjectKey(k1, n1, m1) == k1 + "/" + (n1 + "/" + m1);
    assert ObjectKey(k2, n2, m2) == k2 + "/" + (n2 + "/" + m2);
    SplitAtSlash(k1, n1 + "/" + m1, k2, n2 + "/" + m2);
    SplitAtSlash(n1, m1, n2, m2);
  }

  // ---- sums and counts

  function Sum<T>(f: T -> int, xs: seq<T>): (n: int) {
    if xs == [] then 0 else Sum(f, xs[..|xs| - 1]) + f(xs[|xs| - 1])
  }

  function Filter<T>(p: T -> bool, xs: seq<T>): (ys: seq<T>) {
    if xs == [] then []
    else if p(xs[|xs| - 1]) then Filter(p, xs[..|xs| - 1]) + [xs[|xs| - 1]]
    else Filter(p, xs[..|xs| - 1])
  }

  lemma {:induction false} SumAppend<T>(f: T -> int, xs: seq<T>, x: T)
    ensures Sum(f, xs + [x]) == Sum(f, xs) + f(x)
  {
    assert (xs + [x])[..|xs|] == xs;
  }

  lemma {:induction false} FilterAppend<T>(p: T -> bool, xs: seq<T>, x: T)
    ensures Filter(p, xs + [x]) == Filter(p, xs) + (if p(x) then [x] else [])
  {
    assert (xs + [x])[..|xs|] == xs;
  }

  lemma {:induction false} FilterStep<T>(p: T -> bool, xs: seq<T>, k: nat)
    requires k < |xs|
    ensures Filter(p, xs[..k + 1]) == Filter(p, xs[..k]) + (if p(xs[k]) then [xs[k]] else [])
  {
    assert xs[..k + 1][..k] == xs[..k];
  }

  /** Filtering keeps exactly the elements that satisfy the test. */
  lemma {:induction false} FilterElements<T>(p: T -> bool, xs: seq<T>)
    ensures forall x :: x in Filter(p, xs) <==> x in xs && p(x)
  {
    if xs != [] {
      FilterElements(p, xs[..|xs| - 1]);
      assert xs == xs[..|xs| - 1] + [xs[|xs| - 1]];
    }
  }

  /** A test and its negation split a list without loss. */
  lemma {:induction false} FilterPartition<T>(p: T -> bool, q: T -> bool, xs: seq<T>)
    requires forall i :: 0 <= i < |xs| ==> q(xs[i]) == !p(xs[i])
    ensures multiset(Filter(p, xs)) + multiset(Filter(q, xs)) == multiset(xs)
  {
    if xs != [] {
      var n := |xs| - 1;
      var a, b, x := Filter(p, xs[..n]), Filter(q, xs[..n]), xs[n];
      FilterPartition(p, q, xs[..n]);
      assert xs == xs[..n] + [x];
      if p(x) {
        assert multiset(a + [x]) == multiset(a) + multiset{x};
      } else {
        assert multiset(b + [x]) == multiset(b) + multiset{x};
      }
    }
  }

  lemma {:induction false} FilterSame<T>(p: T -> bool, q: T -> bool, xs: seq<T>)
    requires forall i :: 0 <= i < |xs| ==> p(xs[i]) == q(xs[i])
    ensures Filter(p, xs) == Filter(q, xs)
  {
    if xs != [] {
      FilterSame(p, q, xs[..|xs| - 1]);
    }
  }

  lemma {:induction false} RemoveAt<T>(ys: seq<T>, i: nat)
    requires i < |ys|
    ensures multiset(ys[..i] + ys[i + 1..]) == multiset(ys) - multiset{ys[i]}
  {
    assert ys == ys[..i] + ([ys[i]] + ys[i + 1..]);
    assert multiset(ys) == multiset(ys[..i]) + (multiset{ys[i]} + multiset(ys[i + 1..]));
  }

  lemma {:induction false} FindIn<T>(xs: seq<T>, ys: seq<T>, x: T) returns (i: nat)
    requires multiset(xs) == multiset(ys) && x in xs
    ensures i < |ys| && ys[i] == x
  {
    assert x in multiset(ys);
    i :| 0 <= i < |ys| && ys[i] == x;
  }

  /** A sum does not depend on the order of its terms. */
  lemma {:induction false} SumPermutation<T>(f: T -> int, xs: seq<T>, ys: seq<T>)
    requires multiset(xs) == multiset(ys)
    ensures Sum(f, xs) == Sum(f, ys)
    decreases |xs|
  {
    assert |multiset(xs)| == |multiset(ys)|;
    if xs != [] {
      var n := |xs| - 1;
      var i := FindIn(xs, ys, xs[n]);
      SumRemove(f, ys, i);
      RemoveAt(xs, n);
      RemoveAt(ys, i);
      assert xs[..n] + xs[n + 1..] == xs[..n];
      SumPermutation(f, xs[..n], ys[..i] + ys[i + 1..]);
    }
  }

  lemma {:induction false} SumRemove<T>(f: T -> int, ys: seq<T>, i: nat)
    requires i < |ys|
    ensures Sum(f, ys) == Sum(f, ys[..i] + ys[i + 1..]) + f(ys[i])
    decreases |ys|
  {
    var n := |ys| - 1;
    if i == n {
      assert ys[..i] + ys[i + 1..] == ys[..n];
    } else {
      SumRemove(f, ys[..n], i);
      assert ys[..i] + ys[i + 1..] == (ys[..n][..i] + ys[..n][i + 1..]) + [ys[n]];
      SumAppend(f, ys[..n][..i] + ys[..n][i + 1..], ys[n]);
    }
  }

  lemma {:induction false} SumOfOnes<T>(one: T -> int, xs: seq<T>)
    requires forall i :: 0 <= i < |xs| ==> one(xs[i]) == 1
    ensures Sum(one, xs) == |xs|
  {
    if xs != [] {
      SumOfOnes(one, xs[..|xs| - 1]);
    }
  }

  // ---- grouping conserves

  /** Summed weights of the elements of one group. */
  function GroupTotal<T>(group: T -> string, weight: T -> int, xs: seq<T>, k: string): (n: int) {
    if xs == [] then 0
    else
      var x := xs[|xs| - 1];
      GroupTotal(group, weight, xs[..|xs| - 1], k) + (if group(x) == k then weight(x) else 0)
  }

  /** Group totals added up over a list of groups. */
  function KeysTotal<T>(group: T -> string, weight: T -> int, xs: seq<T>, keys: seq<string>): (n: int) {
    if keys == [] then 0
    else KeysTotal(group, weight, xs, keys[..|keys| - 1]) + GroupTotal(group, weight, xs, keys[|keys| - 1])
  }

  lemma {:induction false} OneGroupGrows<T>(group: T -> string, weight: T -> int, xs: seq<T>, x: T, keys: seq<string>)
    requires forall i, j :: 0 <= i < j < |keys| ==> keys[i] != keys[j]
    ensures KeysTotal(group, weight, xs + [x], keys)
         == KeysTotal(group, weight, xs, keys) + (if group(x) in keys then weight(x) else 0)
  {
    if keys != [] {
      var n := |keys| - 1;
      OneGroupGrows(group, weight, xs, x, keys[..n]);
      assert (xs + [x])[..|xs|] == xs;
      assert keys == keys[..n] + [keys[n]];
    }
  }

  lemma {:induction false} NoElementsNoTotal<T>(group: T -> string, weight: T -> int, keys: seq<string>)
    ensures KeysTotal(group, weight, [], keys) == 0
  {
    if keys != [] {
      NoElementsNoTotal(group, weight, keys[..|keys| - 1]);
    }
  }

  /** When distinct keys cover all groups, the group totals add up to the total. */
  lemma {:induction false} GroupsAddUp<T>(group: T -> string, weight: T -> int, xs: seq<T>, keys: seq<string>)
    requires forall i, j :: 0 <= i < j < |keys| ==> keys[i] != keys[j]
    requires forall i :: 0 <= i < |xs| ==> group(xs[i]) in keys
    ensures KeysTotal(group, weight, xs, keys) == Sum(weight, xs)
  {
    if xs == [] {
      NoElementsNoTotal(group, weight, keys);
    } else {
      var n := |xs| - 1;
      GroupsAddUp(group, weight, xs[..n], keys);
      OneGroupGrows(group, weight, xs[..n], xs[n], keys);
      assert xs == xs[..n] + [xs[n]];
    }
  }

  /** A group with an element of positive weight has a positive total. */
  lemma {:induction false} GroupNotEmpty<T>(group: T -> string, weight: T -> int, xs: seq<T>, i: nat)
    requires i < |xs| && forall j :: 0 <= j < |xs| ==> weight(xs[j]) > 0
    ensures GroupTotal(group, weight, xs, group(xs[i])) > 0
  {
    var n := |xs| - 1;
    GroupNotNegative(group, weight, xs[..n], group(xs[i]));
    if i < n {
      GroupNotEmpty(group, weight, xs[..n], i);
    }
  }

  lemma {:induction false} GroupNotNegative<T>(group: T -> string, weight: T -> int, xs: seq<T>, k: string)
    requires forall j :: 0 <= j < |xs| ==> weight(xs[j]) > 0
    ensures GroupTotal(group, weight, xs, k) >= 0
  {
    if xs != [] {
      GroupNotNegative(group, weight, xs[..|xs| - 1], k);
    }
  }

  // ---- filtering and order

  lemma {:induction false} FilterConcat<T>(p: T -> bool, a: seq<T>, b: seq<T>)
    ensures Filter(p, a + b) == Filter(p, a) + Filter(p, b)
  {
    if b == [] {
      assert a + b == a;
    } else {
      var n := |b| - 1;
      FilterConcat(p, a, b[..n]);
      FilterAppend(p, a + b[..n], b[n]);
      assert a + b == (a + b[..n]) + [b[n]];
    }
  }

  lemma {:induction false} FilterCommutes<T>(p: T -> bool, q: T -> bool, xs: seq<T>)
    ensures Filter(p, Filter(q, xs)) == Filter(q, Filter(p, xs))
  {
    if xs != [] {
      var n := |xs| - 1;
      FilterCommutes(p, q, xs[..n]);
      FilterAppend(p, Filter(q, xs[..n]), xs[n]);
      FilterAppend(q, Filter(p, xs[..n]), xs[n]);
    }
  }

  lemma {:induction false} FilterRemove<T>(p: T -> bool, ys: seq<T>, i: nat)
    requires i < |ys|
    ensures multiset(Filter(p, ys)) == multiset(Filter(p, ys[..i] + ys[i + 1..])) + (if p(ys[i]) then multiset{ys[i]} else multiset{})
  {
    FilterConcat(p, ys[..i], ys[i + 1..]);
    FilterConcat(p, ys[..i] + [ys[i]], ys[i + 1..]);
    FilterAppend(p, ys[..i], ys[i]);
    assert ys == (ys[..i] + [ys[i]]) + ys[i + 1..];
  }

  /** Filtering a permutation gives a permutation of the filtered list. */
  lemma {:induction false} FilterPermutation<T>(p: T -> bool, xs: seq<T>, ys: seq<T>)
    requires multiset(xs) == multiset(ys)
    ensures multiset(Filter(p, xs)) == multiset(Filter(p, ys))
    decreases |xs|
  {
    assert |multiset(xs)| == |multiset(ys)|;
    if xs != [] {
      var n := |xs| - 1;
      var i := FindIn(xs, ys, xs[n]);
      FilterRemove(p, ys, i);
      FilterRemove(p, xs, n);
      RemoveAt(xs, n);
      RemoveAt(ys, i);
      assert xs[..n] + xs[n + 1..] == xs[..n];
      FilterPermutation(p, xs[..n], ys[..i] + ys[i + 1..]);
    }
  }

  function Map<T, U>(f: T -> U, xs: seq<T>): (ys: seq<U>)
    ensures |ys| == |xs| && forall i :: 0 <= i < |xs| ==> ys[i] == f(xs[i])
  {
    if xs == [] then [] else Map(f, xs[..|xs| - 1]) + [f(xs[|xs| - 1])]
  }

  lemma {:induction false} MapRemove<T, U>(f: T -> U, ys: seq<T>, i: nat)
    requires i < |ys|
    ensures multiset(Map(f, ys)) == multiset(Map(f, ys[..i] + ys[i + 1..])) + multiset{f(ys[i])}
  {
    var a, b := Map(f, ys[..i]), Map(f, ys[i + 1..]);
    assert Map(f, ys) == a + ([f(ys[i])] + b);
    assert Map(f, ys[..i] + ys[i + 1..]) == a + b;
  }

  /** Mapping a permutation gives a permutation of the mapped list. */
  lemma {:induction false} MapPermutation<T, U>(f: T -> U, xs: seq<T>, ys: seq<T>)
    requires multiset(xs) == multiset(ys)
    ensures multiset(Map(f, xs)) == multiset(Map(f, ys))
    decreases |xs|
  {
    assert |multiset(xs)| == |multiset(ys)|;
    if xs != [] {
      var n := |xs| - 1;
      var i := FindIn(xs, ys, xs[n]);
      MapRemove(f, ys, i);
      MapRemove(f, xs, n);
      RemoveAt(xs, n);
      RemoveAt(ys, i);
      assert xs[..n] + xs[n + 1..] == xs[..n];
      MapPermutation(f, xs[..n], ys[..i] + ys[i + 1..]);
    }
  }
}
