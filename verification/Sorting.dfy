/**
 Sorting as the Go code uses it.  Every `sort.Slice` comparator in the modelled
 packages compares a fixed list of integer and string columns in turn, so an
 element's position is decided by its key, a sequence of columns.  A sort is
 specified as "a permutation whose keys ascend", which is all that `sort.Slice`
 promises, and a sort is proved unique when no two elements share a key.
 */
module Sorting {
  import opened Basics

  datatype Column = Num(n: int) | Text(s: string)

  type Key = seq<Column>

  /** Go's `<=` on strings: bytewise lexicographic. */
  predicate TextLe(a: string, b: string) {
    a == [] || (b != [] && (a[0] < b[0] || (a[0] == b[0] && TextLe(a[1..], b[1..]))))
  }

  predicate ColumnLe(a: Column, b: Column) {
    match (a, b)
    case (Num(m), Num(n)) => m <= n
    case (Text(s), Text(t)) => TextLe(s, t)
    case (Num(_), Text(_)) => true
    case (Text(_), Num(_)) => false
  }

  /** Keys compare column by column; the first differing column decides. */
  predicate KeyLe(a: Key, b: Key) {
    a == [] || (b != [] && if a[0] == b[0] then KeyLe(a[1..], b[1..]) else ColumnLe(a[0], b[0]))
  }

  ghost predicate Sorted<T>(key: T -> Key, xs: seq<T>) {
    forall i, j :: 0 <= i < j < |xs| ==> KeyLe(key(xs[i]), key(xs[j]))
  }

  /** What a `sort.Slice` call guarantees about its result. */
  ghost predicate IsSortOf<T>(key: T -> Key, xs: seq<T>, ys: seq<T>) {
    multiset(ys) == multiset(xs) && Sorted(key, ys)
  }

  ghost predicate NoDup<T>(xs: seq<T>) {
    forall i, j :: 0 <= i < j < |xs| ==> xs[i] != xs[j]
  }

  /** Two elements with one key are one element. */
  ghost predicate KeyIdentifies<T>(key: T -> Key, xs: seq<T>) {
    forall i, j :: 0 <= i < |xs| && 0 <= j < |xs| && key(xs[i]) == key(xs[j]) ==> xs[i] == xs[j]
  }

  // ---- TextLe, ColumnLe and KeyLe are total orders

  lemma {:induction false} TextLeTotal(a: string, b: string)
    ensures TextLe(a, b) || TextLe(b, a)
    ensures TextLe(a, b) && TextLe(b, a) ==> a == b
  {
    if a != [] && b != [] && a[0] == b[0] {
      TextLeTotal(a[1..], b[1..]);
      assert a == [a[0]] + a[1..] && b == [b[0]] + b[1..];
    }
  }

  lemma {:induction false} TextLeTransitive(a: string, b: string, c: string)
    requires TextLe(a, b) && TextLe(b, c)
    ensures TextLe(a, c)
  {
    if a != [] && a[0] == b[0] && b[0] == c[0] {
      TextLeTransitive(a[1..], b[1..], c[1..]);
    }
  }

  lemma {:induction false} ColumnLeTotal(a: Column, b: Column)
    ensures ColumnLe(a, b) || ColumnLe(b, a)
    ensures ColumnLe(a, b) && ColumnLe(b, a) ==> a == b
  {
    if a.Text? && b.Text? {
      TextLeTotal(a.s, b.s);
    }
  }

  lemma {:induction false} ColumnLeTransitive(a: Column, b: Column, c: Column)
    requires ColumnLe(a, b) && ColumnLe(b, c)
    ensures ColumnLe(a, c)
  {
    if a.Text? && b.Text? && c.Text? {
      TextLeTransitive(a.s, b.s, c.s);
    }
  }

  lemma {:induction false} KeyLeTotal(a: Key, b: Key)
    ensures KeyLe(a, b) || KeyLe(b, a)
    ensures KeyLe(a, b) && KeyLe(b, a) ==> a == b
  {
    if a != [] && b != [] {
      ColumnLeTotal(a[0], b[0]);
      KeyLeTotal(a[1..], b[1..]);
      assert a == [a[0]] + a[1..] && b == [b[0]] + b[1..];
    }
  }

  lemma {:induction false} KeyLeTransitive(a: Key, b: Key, c: Key)
    requires KeyLe(a, b) && KeyLe(b, c)
    ensures KeyLe(a, c)
  {
    if a != [] {
      if a[0] == b[0] && b[0] == c[0] {
        KeyLeTransitive(a[1..], b[1..], c[1..]);
      } else if a[0] != b[0] && b[0] != c[0] {
        ColumnLeTransitive(a[0], b[0], c[0]);
        ColumnLeTotal(a[0], b[0]);
      }
    }
  }

  // ---- an insertion sort that meets the specification

  /** A leading column decides unless it is the same. */
  lemma {:induction false} LeadingColumn(x: Column, k: Key, y: Column, l: Key)
    ensures KeyLe([x] + k, [y] + l) <==> if x == y then KeyLe(k, l) else ColumnLe(x, y)
  {
    assert ([x] + k)[1..] == k && ([y] + l)[1..] == l;
  }

  /** Three texts compare by the first that differs. */
  predicate Texts3Le(a1: string, a2: string, a3: string, b1: string, b2: string, b3: string) {
    if a1 != b1 then TextLe(a1, b1) else if a2 != b2 then TextLe(a2, b2) else TextLe(a3, b3)
  }

  lemma {:induction false} ThreeTexts(a1: string, a2: string, a3: string, b1: string, b2: string, b3: string)
    ensures KeyLe([Text(a1), Text(a2), Text(a3)], [Text(b1), Text(b2), Text(b3)]) <==> Texts3Le(a1, a2, a3, b1, b2, b3)
  {
    assert [Text(a1), Text(a2), Text(a3)] == [Text(a1)] + [Text(a2), Text(a3)];
    assert [Text(b1), Text(b2), Text(b3)] == [Text(b1)] + [Text(b2), Text(b3)];
    LeadingColumn(Text(a1), [Text(a2), Text(a3)], Text(b1), [Text(b2), Text(b3)]);
    TwoTexts(a2, a3, b2, b3);
  }

  lemma {:induction false} TwoTexts(a2: string, a3: string, b2: string, b3: string)
    ensures KeyLe([Text(a2), Text(a3)], [Text(b2), Text(b3)]) <==> if a2 != b2 then TextLe(a2, b2) else TextLe(a3, b3)
  {
    assert [Text(a2), Text(a3)] == [Text(a2)] + [Text(a3)] && [Text(b2), Text(b3)] == [Text(b2)] + [Text(b3)];
    LeadingColumn(Text(a2), [Text(a3)], Text(b2), [Text(b3)]);
    assert [Text(a3)] == [Text(a3)] + [] && [Text(b3)] == [Text(b3)] + [];
    LeadingColumn(Text(a3), [], Text(b3), []);
    TextLeTotal(a3, a3);
  }

  lemma {:induction false} NumThenTexts(m: int, a1: string, a2: string, a3: string, n: int, b1: string, b2: string, b3: string)
    ensures KeyLe([Num(m), Text(a1), Text(a2), Text(a3)], [Num(n), Text(b1), Text(b2), Text(b3)])
       <==> m < n || (m == n && Texts3Le(a1, a2, a3, b1, b2, b3))
  {
    assert [Num(m), Text(a1), Text(a2), Text(a3)] == [Num(m)] + [Text(a1), Text(a2), Text(a3)];
    assert [Num(n), Text(b1), Text(b2), Text(b3)] == [Num(n)] + [Text(b1), Text(b2), Text(b3)];
    LeadingColumn(Num(m), [Text(a1), Text(a2), Text(a3)], Num(n), [Text(b1), Text(b2), Text(b3)]);
    ThreeTexts(a1, a2, a3, b1, b2, b3);
  }

  /** Keys of a number and a text: the number decides, the text breaks ties. */
  lemma {:induction false} NumThenText(m: int, s: string, n: int, t: string)
    ensures KeyLe([Num(m), Text(s)], [Num(n), Text(t)]) <==> m < n || (m == n && TextLe(s, t))
  {
    assert [Num(m), Text(s)][1..] == [Text(s)] && [Num(n), Text(t)][1..] == [Text(t)];
    assert [Text(s)][1..] == [] && [Text(t)][1..] == [];
    TextLeTotal(s, s);
    assert KeyLe([Text(s)], [Text(t)]) == if Text(s) == Text(t) then KeyLe([], []) else ColumnLe(Text(s), Text(t));
  }

  function Insert<T>(key: T -> Key, x: T, xs: seq<T>): (r: seq<T>) {
    if xs == [] then [x]
    else if KeyLe(key(x), key(xs[0])) then [x] + xs
    else [xs[0]] + Insert(key, x, xs[1..])
  }

  function SortBy<T>(key: T -> Key, xs: seq<T>): (r: seq<T>) {
    if xs == [] then [] else Insert(key, xs[0], SortBy(key, xs[1..]))
  }

  lemma {:induction false} InsertKeepsSorted<T>(key: T -> Key, x: T, xs: seq<T>)
    requires Sorted(key, xs)
    ensures IsSortOf(key, [x] + xs, Insert(key, x, xs))
  {
    if xs == [] {
    } else if KeyLe(key(x), key(xs[0])) {
      forall j | 0 <= j < |xs| ensures KeyLe(key(x), key(xs[j])) {
        if j > 0 { KeyLeTransitive(key(x), key(xs[0]), key(xs[j])); }
      }
    } else {
      InsertKeepsSorted(key, x, xs[1..]);
      KeyLeTotal(key(x), key(xs[0]));
      var rest := Insert(key, x, xs[1..]);
      assert xs == [xs[0]] + xs[1..];
      assert multiset(rest) == multiset([x] + xs[1..]);
      forall j | 0 <= j < |rest| ensures KeyLe(key(xs[0]), key(rest[j])) {
        assert rest[j] in multiset(rest);
        assert rest[j] == x || rest[j] in xs[1..];
      }
    }
  }

  lemma {:induction false} SortBySorts<T>(key: T -> Key, xs: seq<T>)
    ensures IsSortOf(key, xs, SortBy(key, xs))
  {
    if xs != [] {
      SortBySorts(key, xs[1..]);
      InsertKeepsSorted(key, xs[0], SortBy(key, xs[1..]));
      assert xs == [xs[0]] + xs[1..];
    }
  }

  /** `sort.Slice`: which permutation is returned among ties is not promised. */
  method SortSlice<T>(key: T -> Key, xs: seq<T>) returns (ys: seq<T>)
    ensures IsSortOf(key, xs, ys)
  {
    SortBySorts(key, xs);
    ys := SortBy(key, xs);
  }

  // ---- a stable sort

  function SameKey<T>(key: T -> Key, k: Key): (p: T -> bool) { (x: T) => key(x) == k }

  /** What a `sort.SliceStable` call guarantees: elements with one key keep their order. */
  ghost predicate IsStableSortOf<T>(key: T -> Key, xs: seq<T>, ys: seq<T>) {
    IsSortOf(key, xs, ys) && forall k :: Filter(SameKey(key, k), ys) == Filter(SameKey(key, k), xs)
  }

  lemma {:induction false} FilterOne<T>(p: T -> bool, x: T)
    ensures Filter(p, [x]) == if p(x) then [x] else []
  {
    assert [x][..0] == [];
  }

  lemma {:induction false} FilterHead<T>(p: T -> bool, xs: seq<T>)
    requires xs != []
    ensures Filter(p, xs) == (if p(xs[0]) then [xs[0]] else []) + Filter(p, xs[1..])
  {
    FilterConcat(p, [xs[0]], xs[1..]);
    FilterOne(p, xs[0]);
    assert xs == [xs[0]] + xs[1..];
  }

  lemma {:induction false} InsertIsStable<T>(key: T -> Key, x: T, xs: seq<T>, k: Key)
    ensures Filter(SameKey(key, k), Insert(key, x, xs)) == (if key(x) == k then [x] else []) + Filter(SameKey(key, k), xs)
  {
    var p := SameKey(key, k);
    if xs == [] {
      FilterOne(p, x);
    } else if KeyLe(key(x), key(xs[0])) {
      FilterHead(p, [x] + xs);
      assert ([x] + xs)[1..] == xs;
    } else {
      var rest := Insert(key, x, xs[1..]);
      InsertIsStable(key, x, xs[1..], k);
      KeyLeTotal(key(x), key(xs[0]));
      FilterHead(p, [xs[0]] + rest);
      assert ([xs[0]] + rest)[1..] == rest;
      FilterHead(p, xs);
    }
  }

  lemma {:induction false} SortByIsStable<T>(key: T -> Key, xs: seq<T>)
    ensures IsStableSortOf(key, xs, SortBy(key, xs))
  {
    SortBySorts(key, xs);
    forall k ensures Filter(SameKey(key, k), SortBy(key, xs)) == Filter(SameKey(key, k), xs) {
      if xs != [] {
        SortByIsStable(key, xs[1..]);
        InsertIsStable(key, xs[0], SortBy(key, xs[1..]), k);
        FilterHead(SameKey(key, k), xs);
      }
    }
  }

  method SortStable<T>(key: T -> Key, xs: seq<T>) returns (ys: seq<T>)
    ensures IsStableSortOf(key, xs, ys)
  {
    SortByIsStable(key, xs);
    ys := SortBy(key, xs);
  }

  /** The first element of a sorted list is the first of its key. */
  lemma {:induction false} HeadOfKey<T>(key: T -> Key, xs: seq<T>)
    requires xs != []
    ensures Filter(SameKey(key, key(xs[0])), xs) != [] && Filter(SameKey(key, key(xs[0])), xs)[0] == xs[0]
  {
    FilterHead(SameKey(key, key(xs[0])), xs);
  }

  lemma {:induction false} SameHeadKey<T>(key: T -> Key, xs: seq<T>, ys: seq<T>)
    requires xs != [] && multiset(xs) == multiset(ys) && Sorted(key, xs) && Sorted(key, ys)
    ensures ys != [] && key(xs[0]) == key(ys[0])
  {
    SameElements(xs, ys);
    assert xs[0] in ys && ys[0] in xs;
    var i :| 0 <= i < |ys| && ys[i] == xs[0];
    var j :| 0 <= j < |xs| && xs[j] == ys[0];
    KeyLeTotal(key(xs[0]), key(ys[0]));
  }

  /** A stable sort is unique, whatever its keys. */
  lemma {:induction false} StableUnique<T>(key: T -> Key, xs: seq<T>, ys: seq<T>)
    requires multiset(xs) == multiset(ys) && Sorted(key, xs) && Sorted(key, ys)
    requires forall k :: Filter(SameKey(key, k), xs) == Filter(SameKey(key, k), ys)
    ensures xs == ys
    decreases |xs|
  {
    if xs == [] {
      SameElements(xs, ys);
    } else {
      SameHeadKey(key, xs, ys);
      HeadOfKey(key, xs);
      HeadOfKey(key, ys);
      SameTail(xs, ys);
      assert xs == [xs[0]] + xs[1..] && ys == [ys[0]] + ys[1..];
      forall k ensures Filter(SameKey(key, k), xs[1..]) == Filter(SameKey(key, k), ys[1..]) {
        TailOfKey(SameKey(key, k), xs, ys);
      }
      StableUnique(key, xs[1..], ys[1..]);
    }
  }

  lemma {:induction false} TailOfKey<T>(p: T -> bool, xs: seq<T>, ys: seq<T>)
    requires xs != [] && ys != [] && xs[0] == ys[0] && Filter(p, xs) == Filter(p, ys)
    ensures Filter(p, xs[1..]) == Filter(p, ys[1..])
  {
    FilterHead(p, xs);
    FilterHead(p, ys);
    var head := if p(xs[0]) then [xs[0]] else [];
    assert (head + Filter(p, xs[1..]))[|head|..] == Filter(p, xs[1..]);
    assert (head + Filter(p, ys[1..]))[|head|..] == Filter(p, ys[1..]);
  }

  lemma {:induction false} FilteredFrom<T>(p: T -> bool, xs: seq<T>, i: nat) returns (j: nat)
    requires i < |Filter(p, xs)|
    ensures j < |xs| && xs[j] == Filter(p, xs)[i]
  {
    var n := |xs| - 1;
    if i < |Filter(p, xs[..n])| {
      j := FilteredFrom(p, xs[..n], i);
    } else {
      j := n;
    }
  }

  lemma {:induction false} FilterKeepsSorted<T>(key: T -> Key, p: T -> bool, xs: seq<T>)
    requires Sorted(key, xs)
    ensures Sorted(key, Filter(p, xs))
  {
    if xs != [] {
      var n := |xs| - 1;
      FilterKeepsSorted(key, p, xs[..n]);
      var init := Filter(p, xs[..n]);
      forall i | 0 <= i < |init| ensures KeyLe(key(init[i]), key(xs[n])) {
        var j := FilteredFrom(p, xs[..n], i);
        assert xs[j] == init[i];
      }
    }
  }

  /** Filtering a stable sort is a stable sort of the filtered list. */
  lemma {:induction false} FilterStable<T>(key: T -> Key, p: T -> bool, xs: seq<T>, ys: seq<T>)
    requires IsStableSortOf(key, xs, ys)
    ensures IsStableSortOf(key, Filter(p, xs), Filter(p, ys))
  {
    FilterPermutation(p, xs, ys);
    FilterKeepsSorted(key, p, ys);
    forall k ensures Filter(SameKey(key, k), Filter(p, ys)) == Filter(SameKey(key, k), Filter(p, xs)) {
      FilterCommutes(SameKey(key, k), p, xs);
      FilterCommutes(SameKey(key, k), p, ys);
    }
  }

  lemma {:induction false} StableTwice<T>(key: T -> Key, xs: seq<T>, ys: seq<T>, zs: seq<T>)
    requires IsStableSortOf(key, xs, ys) && IsStableSortOf(key, ys, zs)
    ensures IsStableSortOf(key, xs, zs)
  {
  }

  lemma {:induction false} StableSortUnique<T>(key: T -> Key, xs: seq<T>, ys: seq<T>, zs: seq<T>)
    requires IsStableSortOf(key, xs, ys) && IsStableSortOf(key, xs, zs)
    ensures ys == zs
  {
    StableUnique(key, ys, zs);
  }

  /** The key of a list of strings. */
  function TextKey(s: string): (k: Key) { [Text(s)] }

  // ---- a sort is unique when keys identify elements

  lemma {:induction false} SameElements<T>(xs: seq<T>, ys: seq<T>)
    requires multiset(xs) == multiset(ys)
    ensures |xs| == |ys|
    ensures forall x :: x in xs <==> x in ys
  {
    assert |multiset(xs)| == |multiset(ys)|;
    forall x ensures x in xs <==> x in ys {
      assert x in multiset(xs) <==> x in multiset(ys);
    }
  }

  /** Two sorts of the same elements start alike. */
  lemma {:induction false} SameHead<T>(key: T -> Key, xs: seq<T>, ys: seq<T>)
    requires xs != [] && multiset(xs) == multiset(ys)
    requires Sorted(key, xs) && Sorted(key, ys)
    requires KeyIdentifies(key, xs)
    ensures ys != [] && xs[0] == ys[0]
  {
    SameElements(xs, ys);
    assert xs[0] in ys && ys[0] in xs;
    var i :| 0 <= i < |ys| && ys[i] == xs[0];
    var j :| 0 <= j < |xs| && xs[j] == ys[0];
    KeyLeTotal(key(xs[0]), key(ys[0]));
  }

  lemma {:induction false} SameTail<T>(xs: seq<T>, ys: seq<T>)
    requires xs != [] && ys != [] && xs[0] == ys[0] && multiset(xs) == multiset(ys)
    ensures multiset(xs[1..]) == multiset(ys[1..])
  {
    assert xs == [xs[0]] + xs[1..] && ys == [ys[0]] + ys[1..];
    assert multiset(xs[1..]) == multiset(xs) - multiset{xs[0]};
    assert multiset(ys[1..]) == multiset(ys) - multiset{ys[0]};
  }

  lemma {:induction false} SortUnique<T>(key: T -> Key, xs: seq<T>, ys: seq<T>)
    requires multiset(xs) == multiset(ys)
    requires Sorted(key, xs) && Sorted(key, ys)
    requires KeyIdentifies(key, xs)
    ensures xs == ys
    decreases |xs|
  {
    if xs == [] {
      SameElements(xs, ys);
    } else {
      SameHead(key, xs, ys);
      SameTail(xs, ys);
      SortUnique(key, xs[1..], ys[1..]);
      assert xs == [xs[0]] + xs[1..] && ys == [ys[0]] + ys[1..];
    }
  }

  lemma {:induction false} NoDupPermutation<T>(xs: seq<T>, ys: seq<T>)
    requires NoDup(xs) && multiset(xs) == multiset(ys)
    ensures NoDup(ys)
  {
    forall i, j | 0 <= i < j < |ys| ensures ys[i] != ys[j] {
      if ys[i] == ys[j] {
        CountTwice(ys, i, j);
        CountOnce(xs, ys[i]);
      }
    }
  }

  lemma {:induction false} CountTwice<T>(ys: seq<T>, i: nat, j: nat)
    requires i < j < |ys| && ys[i] == ys[j]
    ensures multiset(ys)[ys[i]] >= 2
  {
    assert ys == ys[..j] + ys[j..];
    assert ys[i] in ys[..j] && ys[j] in ys[j..];
  }

  lemma {:induction false} CountOnce<T>(xs: seq<T>, x: T)
    requires NoDup(xs)
    ensures multiset(xs)[x] <= 1
  {
    if xs != [] {
      assert xs == [xs[0]] + xs[1..];
      CountOnce(xs[1..], x);
      if xs[0] == x {
        assert x !in xs[1..];
      }
    }
  }

  /** Duplicate-free sequences with the same elements are permutations of each other. */
  lemma {:induction false} NoDupSameElements<T>(xs: seq<T>, ys: seq<T>)
    requires NoDup(xs) && NoDup(ys)
    requires forall x :: x in xs <==> x in ys
    ensures multiset(xs) == multiset(ys)
  {
    forall x ensures multiset(xs)[x] == multiset(ys)[x] {
      CountOnce(xs, x);
      CountOnce(ys, x);
      assert x in xs <==> x in multiset(xs);
      assert x in ys <==> x in multiset(ys);
    }
  }

  // ---- listing a map

  /** The values of a map, each once and in sorted order; a value's key can be read off the value. */
  ghost predicate IsListing<T(!new)>(key: T -> string, order: T -> Key, m: map<string, T>, xs: seq<T>) {
    && NoDup(xs) && Sorted(order, xs)
    && forall x :: x in xs <==> key(x) in m && m[key(x)] == x
  }

  /** Ranging over a map in arbitrary order and sorting what was collected. */
  method ListSorted<T(!new)>(key: T -> string, order: T -> Key, m: map<string, T>) returns (xs: seq<T>)
    requires forall k :: k in m ==> key(m[k]) == k
    ensures IsListing(key, order, m, xs)
  {
    var raw: seq<T> := [];
    var todo := m.Keys;
    while todo != {}
      invariant todo <= m.Keys && NoDup(raw)
      invariant forall x :: x in raw <==> key(x) in m && key(x) !in todo && m[key(x)] == x
    {
      var k :| k in todo;
      raw := raw + [m[k]];
      todo := todo - {k};
    }
    xs := SortSlice(order, raw);
    SameElements(raw, xs);
    NoDupPermutation(raw, xs);
  }
}
