/**
 internal/glob: a two-metacharacter matcher over byte strings.  `*` matches any
 run of bytes, `?` exactly one, everything else itself.  The loop remembers only
 the last star it opened; the recursive definition below is what it has to
 decide.
 */
module Glob {
  /** What the pattern from `p` on means for the string from `i` on. */
  predicate Matches(pattern: string, p: nat, s: string, i: nat)
    requires p <= |pattern| && i <= |s|
    decreases |pattern| - p, |s| - i
  {
    if p == |pattern| then i == |s|
    else if pattern[p] == '*' then
      Matches(pattern, p + 1, s, i) || (i < |s| && Matches(pattern, p, s, i + 1))
    else i < |s| && (pattern[p] == '?' || pattern[p] == s[i]) && Matches(pattern, p + 1, s, i + 1)
  }

  /** The pattern from `p` on matches some suffix that starts at `from` or later. */
  ghost predicate MatchesLater(pattern: string, p: nat, s: string, from: nat)
    requires p <= |pattern|
  {
    exists k :: from <= k <= |s| && Matches(pattern, p, s, k)
  }

  ghost predicate StarFree(pattern: string, from: nat, to: nat)
    requires to <= |pattern|
  {
    forall k :: from <= k < to ==> pattern[k] != '*'
  }

  /** A star tries every later position. */
  lemma {:induction false} StarMeansLater(pattern: string, p: nat, s: string, i: nat)
    requires p < |pattern| && i <= |s| && pattern[p] == '*'
    ensures Matches(pattern, p, s, i) <==> MatchesLater(pattern, p + 1, s, i)
    decreases |s| - i
  {
    if i < |s| {
      StarMeansLater(pattern, p, s, i + 1);
      LaterSplits(pattern, p + 1, s, i);
    }
  }

  lemma {:induction false} LaterSplits(pattern: string, p: nat, s: string, from: nat)
    requires p <= |pattern| && from <= |s|
    ensures MatchesLater(pattern, p, s, from)
       <==> Matches(pattern, p, s, from) || MatchesLater(pattern, p, s, from + 1)
  {
    if MatchesLater(pattern, p, s, from) {
      var k :| from <= k <= |s| && Matches(pattern, p, s, k);
      assert k == from || from + 1 <= k;
    }
    if MatchesLater(pattern, p, s, from + 1) {
      var k :| from + 1 <= k <= |s| && Matches(pattern, p, s, k);
      assert from <= k;
    }
  }

  // ---- what a match is, without recursion

  /** What one pattern byte covers: a star any stretch, `?` one byte, anything else itself. */
  predicate Covers(c: char, s: string, a: nat, b: nat) {
    a <= b <= |s| && (if c == '*' then true else b == a + 1 && (c == '?' || c == s[a]))
  }

  /** The cuts divide the string from `i` on into one stretch for each pattern byte from `p` on. */
  ghost predicate Divides(pattern: string, p: nat, s: string, i: nat, cuts: seq<nat>) {
    && p <= |pattern| && |cuts| == |pattern| + 1 && cuts[p] == i && cuts[|pattern|] == |s|
    && forall k :: p <= k < |pattern| ==> Covers(pattern[k], s, cuts[k], cuts[k + 1])
  }

  lemma {:induction false} MatchDivides(pattern: string, p: nat, s: string, i: nat) returns (cuts: seq<nat>)
    requires p <= |pattern| && i <= |s| && Matches(pattern, p, s, i)
    ensures Divides(pattern, p, s, i, cuts)
    decreases |pattern| - p
  {
    if p == |pattern| {
      cuts := seq(|pattern| + 1, k => i);
    } else {
      var j := i + 1;
      if pattern[p] == '*' {
        StarMeansLater(pattern, p, s, i);
        j :| i <= j <= |s| && Matches(pattern, p + 1, s, j);
      }
      var rest := MatchDivides(pattern, p + 1, s, j);
      cuts := rest[p := i];
    }
  }

  lemma {:induction false} DivisionMatches(pattern: string, p: nat, s: string, i: nat, cuts: seq<nat>)
    requires i <= |s| && Divides(pattern, p, s, i, cuts)
    ensures Matches(pattern, p, s, i)
    decreases |pattern| - p
  {
    if p < |pattern| {
      assert Covers(pattern[p], s, cuts[p], cuts[p + 1]);
      DivisionMatches(pattern, p + 1, s, cuts[p + 1], cuts);
      if pattern[p] == '*' {
        StarMeansLater(pattern, p, s, i);
      }
    }
  }

  /** The string matches iff it can be cut into stretches that the pattern's bytes cover one by one. */
  lemma {:induction false} MatchesExact(pattern: string, s: string)
    ensures Matches(pattern, 0, s, 0) <==> exists cuts :: Divides(pattern, 0, s, 0, cuts)
  {
    if Matches(pattern, 0, s, 0) {
      var cuts := MatchDivides(pattern, 0, s, 0);
    }
    if exists cuts :: Divides(pattern, 0, s, 0, cuts) {
      var cuts :| Divides(pattern, 0, s, 0, cuts);
      DivisionMatches(pattern, 0, s, 0, cuts);
    }
  }

  /** A star-free stretch of the pattern consumes exactly its own length. */
  lemma {:induction false} StarFreeConsumes(pattern: string, p: nat, q: nat, s: string, i: nat)
    requires p <= q <= |pattern| && i <= |s| && StarFree(pattern, p, q) && Matches(pattern, p, s, i)
    ensures i + (q - p) <= |s| && Matches(pattern, q, s, i + (q - p))
    decreases q - p
  {
    if p < q {
      StarFreeConsumes(pattern, p + 1, q, s, i + 1);
    }
  }

  /**
   Why forgetting every star but the last is safe: with a star-free stretch
   between the open star and a new one, whatever the older star could still
   match later, the new star can match later too.
   */
  lemma {:induction false} OlderStarIsRedundant(pattern: string, s: string, starP: nat, starI: nat, p: nat, i: nat)
    requires starP < p < |pattern| && pattern[p] == '*' && StarFree(pattern, starP + 1, p)
    requires starI <= i <= |s| && i - starI == p - (starP + 1)
    requires MatchesLater(pattern, starP + 1, s, starI + 1)
    ensures MatchesLater(pattern, p + 1, s, i)
  {
    var k :| starI + 1 <= k <= |s| && Matches(pattern, starP + 1, s, k);
    StarFreeConsumes(pattern, starP + 1, p, s, k);
    var k' := k + (p - (starP + 1));
    StarMeansLater(pattern, p, s, k');
    var m :| k' <= m <= |s| && Matches(pattern, p + 1, s, m);
    assert i <= m;
  }

  /** What the cursors have established about the answer so far. */
  ghost predicate Pending(pattern: string, s: string, p: nat, i: nat, starP: int, starI: nat)
    requires p <= |pattern| && i <= |s| && starP < p
  {
    Matches(pattern, 0, s, 0) <==>
      (Matches(pattern, p, s, i) || (starP >= 0 && MatchesLater(pattern, starP + 1, s, starI + 1)))
  }

  /** Opening a star forgets the previous one without changing the answer. */
  lemma {:induction false} OpenStar(pattern: string, s: string, p: nat, i: nat, starP: int, starI: nat)
    requires p < |pattern| && i < |s| && -1 <= starP < p && pattern[p] == '*'
    requires starP >= 0 ==> starI <= i && i - starI == p - (starP + 1) && StarFree(pattern, starP + 1, p)
    requires Pending(pattern, s, p, i, starP, starI)
    ensures Pending(pattern, s, p + 1, i, p, i)
  {
    StarMeansLater(pattern, p, s, i);
    LaterSplits(pattern, p + 1, s, i);
    if starP >= 0 && MatchesLater(pattern, starP + 1, s, starI + 1) {
      OlderStarIsRedundant(pattern, s, starP, starI, p, i);
    }
  }

  /** A literal or `?` moves both cursors. */
  lemma {:induction false} Advance(pattern: string, s: string, p: nat, i: nat, starP: int, starI: nat)
    requires p < |pattern| && i < |s| && -1 <= starP < p && pattern[p] != '*'
    requires pattern[p] == '?' || pattern[p] == s[i]
    requires Pending(pattern, s, p, i, starP, starI)
    ensures Pending(pattern, s, p + 1, i + 1, starP, starI)
  {
  }

  /** After a mismatch the open star swallows one more byte. */
  lemma {:induction false} WidenStar(pattern: string, s: string, p: nat, i: nat, starP: nat, starI: nat)
    requires p <= |pattern| && i < |s| && starP < p && starI <= i
    requires p < |pattern| ==> pattern[p] != '*' && pattern[p] != '?' && pattern[p] != s[i]
    requires Pending(pattern, s, p, i, starP, starI)
    ensures Pending(pattern, s, starP + 1, starI + 1, starP, starI + 1)
  {
    assert !Matches(pattern, p, s, i);
    LaterSplits(pattern, starP + 1, s, starI + 1);
  }

  /** With the string used up, a later start for the star leaves too few bytes. */
  lemma {:induction false} LateStarCannotHelp(pattern: string, s: string, starP: nat, starI: nat, p: nat)
    requires starP < p <= |pattern| && StarFree(pattern, starP + 1, p)
    requires starI <= |s| && |s| - starI == p - (starP + 1)
    ensures !MatchesLater(pattern, starP + 1, s, starI + 1)
  {
    if MatchesLater(pattern, starP + 1, s, starI + 1) {
      var k :| starI + 1 <= k <= |s| && Matches(pattern, starP + 1, s, k);
      StarFreeConsumes(pattern, starP + 1, p, s, k);
    }
  }

  /** The string is used up and no later start can help, so the rest of the pattern decides. */
  lemma {:induction false} Exhausted(pattern: string, s: string, p: nat, starP: int, starI: nat)
    requires p <= |pattern| && -1 <= starP < p && starI <= |s|
    requires starP >= 0 ==> |s| - starI == p - (starP + 1) && StarFree(pattern, starP + 1, p)
    requires Pending(pattern, s, p, |s|, starP, starI)
    ensures Matches(pattern, 0, s, 0) == Matches(pattern, p, s, |s|)
  {
    if starP >= 0 {
      LateStarCannotHelp(pattern, s, starP, starI, p);
    }
  }

  /** `stars` re-scans of the whole pattern, one round per pattern byte and one to restart. */
  ghost function Budget(n: nat, stars: nat): nat {
    if stars == 0 then 0 else Budget(n, stars - 1) + n + 1
  }

  lemma {:induction false} BudgetIsProduct(n: nat, stars: nat)
    ensures Budget(n, stars) == stars * (n + 1)
  {
    if stars > 0 {
      BudgetIsProduct(n, stars - 1);
    }
  }

  lemma {:induction false} BudgetGrows(n: nat, a: nat, b: nat)
    requires a <= b
    ensures Budget(n, a) <= Budget(n, b)
    decreases b
  {
    if a < b {
      BudgetGrows(n, a, b - 1);
    }
  }

  /**
   Last-star backtracking decides `Matches`, and both loops together take at
   most Budget(|pattern|, |s|+1) = (|pattern|+1)*(|s|+1) rounds (`BudgetIsProduct`).
   */
  method Match(pattern: string, s: string) returns (r: bool, ghost rounds: nat)
    ensures r == Matches(pattern, 0, s, 0)
    ensures rounds <= Budget(|pattern|, |s| + 1)
  {
    var p, i := 0, 0;
    var starP, starI := -1, 0;
    rounds := 0;
    while i < |s|
      invariant 0 <= p <= |pattern| && 0 <= starI <= i <= |s| && -1 <= starP < p
      invariant starP >= 0 ==> i - starI == p - (starP + 1) && StarFree(pattern, starP + 1, p)
      invariant Pending(pattern, s, p, i, starP, starI)
      invariant rounds <= Budget(|pattern|, starI) + p
      decreases |s| - starI, |pattern| - p
    {
      rounds := rounds + 1;
      if p < |pattern| && pattern[p] == '*' {
        OpenStar(pattern, s, p, i, starP, starI);
        BudgetGrows(|pattern|, starI, i);
        starP, starI := p, i;
        p := p + 1;
      } else if p < |pattern| && (pattern[p] == '?' || pattern[p] == s[i]) {
        Advance(pattern, s, p, i, starP, starI);
        p, i := p + 1, i + 1;
      } else if starP >= 0 {
        WidenStar(pattern, s, p, i, starP, starI);
        p, starI := starP + 1, starI + 1;
        i := starI;
      } else {
        BudgetGrows(|pattern|, starI, |s|);
        return false, rounds;
      }
    }
    Exhausted(pattern, s, p, starP, starI);
    while p < |pattern| && pattern[p] == '*'
      invariant p <= |pattern|
      invariant Matches(pattern, 0, s, 0) == Matches(pattern, p, s, |s|)
      invariant rounds <= Budget(|pattern|, starI) + p
    {
      rounds := rounds + 1;
      p := p + 1;
    }
    BudgetGrows(|pattern|, starI, |s|);
    r := p == |pattern|;
  }
}
