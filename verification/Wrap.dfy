/**
 internal/cli/knownissues.go, `wrapProse`: greedy line filling.  A text is a
 sequence of words, a layout cuts it into groups, one group per line.  The loop
 is proved to lay out exactly the text's words, to overflow only on a line that
 holds a single word, and to use as few lines as any layout can.
 */
module Wrap {
  /** The space characters of unicode.IsSpace that fit the Latin-1 range. */
  predicate IsSpace(c: char) {
    c in {' ', '\t', '\n', '\r', '\U{000B}', '\U{000C}', '\U{0085}', '\U{00A0}'}
  }

  /** Length of the leading run of non-space characters. */
  function WordLen(s: string): (n: nat)
    ensures n <= |s|
    ensures forall i :: 0 <= i < n ==> !IsSpace(s[i])
    ensures n < |s| ==> IsSpace(s[n])
  {
    if s == "" || IsSpace(s[0]) then 0 else 1 + WordLen(s[1..])
  }

  /** strings.Fields. */
  function Fields(s: string): (words: seq<string>)
    decreases |s|
  {
    if s == "" then []
    else if IsSpace(s[0]) then Fields(s[1..])
    else [s[..WordLen(s)]] + Fields(s[WordLen(s)..])
  }

  /** Words separated by single spaces. */
  function Join(words: seq<string>): (s: string) {
    if words == [] then ""
    else if |words| == 1 then words[0]
    else words[0] + " " + Join(words[1..])
  }

  /** Rendered width of a group of words: their lengths and one space between two. */
  function TextWidth(words: seq<string>): (w: int) {
    if words == [] then 0
    else if |words| == 1 then |words[0]|
    else |words[0]| + 1 + TextWidth(words[1..])
  }

  lemma {:induction false} WidthOfJoin(words: seq<string>)
    ensures |Join(words)| == TextWidth(words)
  {
    if |words| > 1 {
      WidthOfJoin(words[1..]);
    }
  }

  function Flatten(groups: seq<seq<string>>): (words: seq<string>) {
    if groups == [] then [] else groups[0] + Flatten(groups[1..])
  }

  function Prefix(first: string, cont: string, line: nat): (p: string) {
    if line == 0 then first else cont
  }

  /** A line fits when its prefix and text stay within the width. */
  predicate Fits(prefix: string, group: seq<string>, width: int) {
    |prefix| + TextWidth(group) <= width
  }

  /** A layout of `words`: non-empty lines in order, each within the width or a single word. */
  ghost predicate IsLayout(groups: seq<seq<string>>, words: seq<string>, first: string, cont: string, width: int) {
    && Flatten(groups) == words
    && forall k :: 0 <= k < |groups| ==>
        groups[k] != [] && (|groups[k]| == 1 || Fits(Prefix(first, cont, k), groups[k], width))
  }

  /** No line but the last could have taken the next word. */
  ghost predicate IsGreedy(groups: seq<seq<string>>, first: string, cont: string, width: int) {
    forall k :: 0 <= k < |groups| - 1 && groups[k + 1] != [] ==>
      !Fits(Prefix(first, cont, k), groups[k] + [groups[k + 1][0]], width)
  }

  // ---- widths

  lemma {:induction false} WidthAppend(a: seq<string>, b: seq<string>)
    requires a != [] && b != []
    ensures TextWidth(a + b) == TextWidth(a) + 1 + TextWidth(b)
  {
    if |a| == 1 {
      assert (a + b)[1..] == b;
    } else {
      WidthAppend(a[1..], b);
      assert (a + b)[1..] == a[1..] + b;
    }
  }

  lemma {:induction false} WidthNonNegative(a: seq<string>)
    ensures TextWidth(a) >= 0
  {
    if |a| > 1 {
      WidthNonNegative(a[1..]);
    }
  }

  /** A contiguous part of a line is no wider than the line. */
  lemma {:induction false} WidthOfPart(words: seq<string>, lo: nat, a: nat, b: nat, hi: nat)
    requires lo <= a < b <= hi <= |words|
    ensures TextWidth(words[a..b]) <= TextWidth(words[lo..hi])
  {
    WidthNonNegative(words[lo..a]);
    WidthNonNegative(words[b..hi]);
    assert words[lo..b] == words[lo..a] + words[a..b];
    assert words[lo..hi] == words[lo..b] + words[b..hi];
    if lo < a { WidthAppend(words[lo..a], words[a..b]); }
    if b < hi { WidthAppend(words[lo..b], words[b..hi]); }
  }

  /** If a line from `a` to `b` fits, so does the part of it from `g` to just past `e`. */
  lemma {:induction false} OneMoreFits(words: seq<string>, a: nat, g: nat, e: nat, b: nat, prefix: string, width: int)
    requires a <= g < e < b <= |words| && Fits(prefix, words[a..b], width)
    ensures Fits(prefix, words[g..e] + [words[e]], width)
  {
    assert words[g..e] + [words[e]] == words[g..e + 1];
    WidthOfPart(words, a, g, e + 1, b);
  }

  // ---- how far a layout has come after k lines

  function Consumed(groups: seq<seq<string>>, k: nat): (n: nat)
    requires k <= |groups|
  {
    if k == 0 then 0 else Consumed(groups, k - 1) + |groups[k - 1]|
  }

  lemma {:induction false} FlattenAppend(a: seq<seq<string>>, b: seq<seq<string>>)
    ensures Flatten(a + b) == Flatten(a) + Flatten(b)
  {
    if a == [] {
      assert a + b == b;
    } else {
      FlattenAppend(a[1..], b);
      assert a + b == [a[0]] + (a[1..] + b);
      assert a[0] + (Flatten(a[1..]) + Flatten(b)) == a[0] + Flatten(a[1..]) + Flatten(b);
    }
  }

  lemma {:induction false} ConsumedIsPrefix(groups: seq<seq<string>>, k: nat)
    requires k <= |groups|
    ensures |Flatten(groups[..k])| == Consumed(groups, k)
  {
    if k > 0 {
      ConsumedIsPrefix(groups, k - 1);
      assert groups[..k] == groups[..k - 1] + [groups[k - 1]];
      FlattenAppend(groups[..k - 1], [groups[k - 1]]);
      assert [groups[k - 1]][1..] == [];
    }
  }

  /** Line k of a layout is the stretch of words between two consumption marks. */
  lemma {:induction false} LineIsSlice(groups: seq<seq<string>>, words: seq<string>, k: nat)
    requires k < |groups| && Flatten(groups) == words
    ensures Consumed(groups, k + 1) <= |words|
    ensures groups[k] == words[Consumed(groups, k)..Consumed(groups, k + 1)]
  {
    ConsumedIsPrefix(groups, k);
    assert groups == groups[..k] + groups[k..];
    FlattenAppend(groups[..k], groups[k..]);
    assert Flatten(groups[k..]) == groups[k] + Flatten(groups[k..][1..]);
  }

  lemma {:induction false} ConsumedAll(groups: seq<seq<string>>, words: seq<string>)
    requires Flatten(groups) == words
    ensures Consumed(groups, |groups|) == |words|
  {
    ConsumedIsPrefix(groups, |groups|);
    assert groups[..|groups|] == groups;
  }

  /** One line: a greedy layout that is not behind before the line is not behind after it. */
  lemma {:induction false} StaysAhead(greedy: seq<seq<string>>, other: seq<seq<string>>, words: seq<string>,
                   first: string, cont: string, width: int, k: nat)
    requires IsLayout(greedy, words, first, cont, width) && IsGreedy(greedy, first, cont, width)
    requires IsLayout(other, words, first, cont, width)
    requires k < |greedy| - 1 && k < |other|
    requires Consumed(greedy, k) >= Consumed(other, k)
    ensures Consumed(greedy, k + 1) >= Consumed(other, k + 1)
  {
    LineIsSlice(greedy, words, k);
    LineIsSlice(greedy, words, k + 1);
    LineIsSlice(other, words, k);
    var g, e := Consumed(greedy, k), Consumed(greedy, k + 1);
    var a, b := Consumed(other, k), Consumed(other, k + 1);
    if e < b {
      OneMoreFits(words, a, g, e, b, Prefix(first, cont, k), width);
    }
  }

  lemma {:induction false} NeverBehind(greedy: seq<seq<string>>, other: seq<seq<string>>, words: seq<string>,
                                       first: string, cont: string, width: int, k: nat)
    requires IsLayout(greedy, words, first, cont, width) && IsGreedy(greedy, first, cont, width)
    requires IsLayout(other, words, first, cont, width)
    requires k < |greedy| && k <= |other|
    ensures Consumed(greedy, k) >= Consumed(other, k)
  {
    if k > 0 {
      NeverBehind(greedy, other, words, first, cont, width, k - 1);
      StaysAhead(greedy, other, words, first, cont, width, k - 1);
    }
  }

  /** Greedy filling is optimal: no layout of the same words has fewer lines. */
  lemma {:induction false} GreedyIsOptimal(greedy: seq<seq<string>>, other: seq<seq<string>>, words: seq<string>,
                        first: string, cont: string, width: int)
    requires IsLayout(greedy, words, first, cont, width) && IsGreedy(greedy, first, cont, width)
    requires IsLayout(other, words, first, cont, width)
    ensures |greedy| <= |other|
  {
    if |other| < |greedy| {
      NeverBehind(greedy, other, words, first, cont, width, |other|);
      ConsumedAll(other, words);
      LineIsSlice(greedy, words, |other|);
    }
  }

  // ---- words survive rendering

  ghost predicate IsWord(w: string) {
    w != "" && forall i :: 0 <= i < |w| ==> !IsSpace(w[i])
  }

  lemma {:induction false} FieldsAreWords(s: string)
    ensures forall i :: 0 <= i < |Fields(s)| ==> IsWord(Fields(s)[i])
    decreases |s|
  {
    if s != "" {
      if IsSpace(s[0]) {
        FieldsAreWords(s[1..]);
      } else {
        var n := WordLen(s);
        FieldsAreWords(s[n..]);
        assert IsWord(s[..n]);
      }
    }
  }

  lemma {:induction false} WordLenOf(w: string, tail: string)
    requires (forall i :: 0 <= i < |w| ==> !IsSpace(w[i])) && (tail == "" || IsSpace(tail[0]))
    ensures WordLen(w + tail) == |w|
  {
    if w == "" {
      assert w + tail == tail;
    } else {
      WordLenOf(w[1..], tail);
      assert (w + tail)[1..] == w[1..] + tail;
    }
  }

  /** A word, then nothing or a space, then the rest. */
  lemma {:induction false} FieldsWord(w: string, tail: string)
    requires IsWord(w) && (tail == "" || IsSpace(tail[0]))
    ensures Fields(w + tail) == [w] + Fields(tail)
  {
    WordLenOf(w, tail);
    assert (w + tail)[..|w|] == w && (w + tail)[|w|..] == tail;
  }

  lemma {:induction false} FieldsTwoWords(w: string, rest: string)
    requires IsWord(w)
    ensures Fields(w + (" " + rest)) == [w] + Fields(rest)
  {
    FieldsWord(w, " " + rest);
    assert (" " + rest)[1..] == rest;
  }

  lemma {:induction false} JoinStep(words: seq<string>, tail: string)
    requires |words| > 1
    ensures Join(words) + tail == words[0] + (" " + (Join(words[1..]) + tail))
  {
  }

  lemma {:induction false} FieldsOfJoin(words: seq<string>, tail: string)
    requires forall i :: 0 <= i < |words| ==> IsWord(words[i])
    requires tail == "" || IsSpace(tail[0])
    ensures Fields(Join(words) + tail) == words + Fields(tail)
  {
    if words == [] {
      assert Join(words) + tail == tail;
    } else if |words| == 1 {
      FieldsWord(words[0], tail);
    } else {
      calc {
        Fields(Join(words) + tail);
        { JoinStep(words, tail); }
        Fields(words[0] + (" " + (Join(words[1..]) + tail)));
        { FieldsTwoWords(words[0], Join(words[1..]) + tail); }
        [words[0]] + Fields(Join(words[1..]) + tail);
        { FieldsOfJoin(words[1..], tail); }
        [words[0]] + (words[1..] + Fields(tail));
        words + Fields(tail);
      }
    }
  }

  ghost predicate Blank(s: string) {
    forall i :: 0 <= i < |s| ==> IsSpace(s[i])
  }

  lemma {:induction false} FieldsSkipsBlank(blank: string, tail: string)
    requires Blank(blank)
    ensures Fields(blank + tail) == Fields(tail)
  {
    if blank == "" {
      assert blank + tail == tail;
    } else {
      FieldsSkipsBlank(blank[1..], tail);
      assert (blank + tail)[1..] == blank[1..] + tail;
    }
  }

  /** The printed block: each line ends in a newline, as printEntry writes it. */
  function Printed(lines: seq<string>): (s: string) {
    if lines == [] then "" else lines[0] + ("\n" + Printed(lines[1..]))
  }

  ghost predicate Renders(lines: seq<string>, groups: seq<seq<string>>, first: string, cont: string) {
    |lines| == |groups| && forall k :: 0 <= k < |lines| ==> lines[k] == Prefix(first, cont, k) + Join(groups[k])
  }

  lemma {:induction false} FieldsNewline(rest: string)
    ensures Fields("\n" + rest) == Fields(rest)
  {
    assert ("\n" + rest)[1..] == rest;
  }

  lemma {:induction false} FieldsOfLine(prefix: string, text: string, tail: string)
    requires Blank(prefix)
    ensures Fields((prefix + text) + tail) == Fields(text + tail)
  {
    FieldsSkipsBlank(prefix, text + tail);
    assert (prefix + text) + tail == prefix + (text + tail);
  }

  /** One printed line contributes its group's words. */
  lemma {:induction false} LineWords(prefix: string, group: seq<string>, rest: string)
    requires Blank(prefix) && forall i :: 0 <= i < |group| ==> IsWord(group[i])
    ensures Fields((prefix + Join(group)) + ("\n" + rest)) == group + Fields(rest)
  {
    FieldsOfLine(prefix, Join(group), "\n" + rest);
    FieldsOfJoin(group, "\n" + rest);
    FieldsNewline(rest);
  }

  lemma {:induction false} PrintedWords(lines: seq<string>, groups: seq<seq<string>>, first: string, cont: string)
    requires Renders(lines, groups, first, cont) && Blank(first) && Blank(cont)
    requires forall k, i :: 0 <= k < |groups| && 0 <= i < |groups[k]| ==> IsWord(groups[k][i])
    ensures Fields(Printed(lines)) == Flatten(groups)
    decreases |lines|
  {
    if lines != [] {
      assert Renders(lines[1..], groups[1..], cont, cont);
      PrintedWords(lines[1..], groups[1..], cont, cont);
      LineWords(first, groups[0], Printed(lines[1..]));
      assert lines[0] == first + Join(groups[0]);
    }
  }

  lemma {:induction false} GroupsHoldWords(groups: seq<seq<string>>, words: seq<string>)
    requires Flatten(groups) == words && forall i :: 0 <= i < |words| ==> IsWord(words[i])
    ensures forall k, i :: 0 <= k < |groups| && 0 <= i < |groups[k]| ==> IsWord(groups[k][i])
  {
    forall k, i | 0 <= k < |groups| && 0 <= i < |groups[k]| ensures IsWord(groups[k][i]) {
      LineIsSlice(groups, words, k);
    }
  }

  /** With blank prefixes, reading the printed block back gives the words of the text. */
  lemma {:induction false} WrappingKeepsWords(s: string, lines: seq<string>, groups: seq<seq<string>>, first: string, cont: string)
    requires Flatten(groups) == Fields(s) && Renders(lines, groups, first, cont)
    requires Blank(first) && Blank(cont)
    ensures Fields(Printed(lines)) == Fields(s)
  {
    FieldsAreWords(s);
    GroupsHoldWords(groups, Fields(s));
    PrintedWords(lines, groups, first, cont);
  }

  /** Layouts in terms of the printed lines: none is longer than the width unless it holds a single word. */
  lemma {:induction false} PrintedLinesFit(lines: seq<string>, groups: seq<seq<string>>, words: seq<string>,
                                           first: string, cont: string, width: int)
    requires Renders(lines, groups, first, cont)
    ensures IsLayout(groups, words, first, cont, width) <==>
      Flatten(groups) == words && forall k :: 0 <= k < |groups| ==> groups[k] != [] && (|groups[k]| == 1 || |lines[k]| <= width)
  {
    forall k | 0 <= k < |groups| ensures |lines[k]| <= width <==> Fits(Prefix(first, cont, k), groups[k], width) {
      WidthOfJoin(groups[k]);
    }
  }

  // ---- the loop

  lemma {:induction false} JoinAppend(group: seq<string>, word: string)
    requires group != []
    ensures Join(group + [word]) == Join(group) + " " + word
  {
    if |group| > 1 {
      JoinAppend(group[1..], word);
      assert (group + [word])[1..] == group[1..] + [word];
    } else {
      assert (group + [word])[1..] == [word];
    }
  }

  /** The words up to `k` laid out greedily, the last line still open. */
  ghost predicate Filling(done: seq<seq<string>>, open: seq<string>, words: seq<string>,
                          first: string, cont: string, width: int)
  {
    open != [] && IsLayout(done + [open], words, first, cont, width) && IsGreedy(done + [open], first, cont, width)
  }

  /** A word that does not fit starts a line of its own. */
  lemma {:induction false} CloseLine(done: seq<seq<string>>, open: seq<string>, words: seq<string>, word: string,
                  first: string, cont: string, width: int)
    requires Filling(done, open, words, first, cont, width)
    requires !Fits(Prefix(first, cont, |done|), open + [word], width)
    ensures Filling(done + [open], [word], words + [word], first, cont, width)
  {
    var now := done + [open];
    var next := now + [[word]];
    FlattenAppend(now, [[word]]);
    assert Flatten([[word]]) == [word];
    forall k | 0 <= k < |next| - 1 && next[k + 1] != []
      ensures !Fits(Prefix(first, cont, k), next[k] + [next[k + 1][0]], width)
    {
      assert k < |done| ==> next[k] == now[k] && next[k + 1] == now[k + 1];
    }
  }

  /** A word that fits extends the open line. */
  lemma {:induction false} GrowLine(done: seq<seq<string>>, open: seq<string>, words: seq<string>, word: string,
                 first: string, cont: string, width: int)
    requires Filling(done, open, words, first, cont, width)
    requires Fits(Prefix(first, cont, |done|), open + [word], width)
    ensures Filling(done, open + [word], words + [word], first, cont, width)
  {
    var now := done + [open];
    var next := done + [open + [word]];
    FlattenAppend(done, [open]);
    FlattenAppend(done, [open + [word]]);
    assert Flatten([open]) == open && Flatten([open + [word]]) == open + [word];
    assert forall k :: 0 <= k < |done| ==> next[k] == now[k];
    forall k | 0 <= k < |next| - 1 && next[k + 1] != []
      ensures !Fits(Prefix(first, cont, k), next[k] + [next[k + 1][0]], width)
    {
      assert next[k] == now[k] && next[k + 1][0] == now[k + 1][0];
    }
  }

  /** What the loop compares is the width of the line with the word added. */
  lemma {:induction false} LineWidth(prefix: string, open: seq<string>, word: string, width: int)
    requires open != []
    ensures Fits(prefix, open + [word], width) <==> |prefix + Join(open)| + 1 + |word| <= width
    ensures prefix + Join(open + [word]) == prefix + Join(open) + " " + word
  {
    WidthOfJoin(open);
    WidthAppend(open, [word]);
    JoinAppend(open, word);
  }

  /** The lines render a layout of exactly the text's words. */
  ghost predicate IsWrapping(s: string, first: string, cont: string, width: int, lines: seq<string>) {
    exists groups :: IsLayout(groups, Fields(s), first, cont, width) && Renders(lines, groups, first, cont)
  }

  /** `wrapProse`: a layout of the text's words, and none has fewer lines. */
  method WrapProse(s: string, first: string, cont: string, width: int) returns (lines: seq<string>)
    ensures IsWrapping(s, first, cont, width, lines)
    ensures forall other :: IsLayout(other, Fields(s), first, cont, width) ==> |lines| <= |other|
  {
    var words := Fields(s);
    if |words| == 0 {
      lines := [];
      assert IsLayout([], words, first, cont, width) && Renders(lines, [], first, cont);
      return;
    }
    var out: seq<string> := [];
    var line := first + words[0];
    ghost var done: seq<seq<string>>, open := [], [words[0]];
    assert Flatten(done + [open]) == words[..1];
    for k := 1 to |words|
      invariant Filling(done, open, words[..k], first, cont, width)
      invariant Renders(out, done, first, cont)
      invariant line == Prefix(first, cont, |done|) + Join(open)
    {
      var word := words[k];
      LineWidth(Prefix(first, cont, |done|), open, word, width);
      assert words[..k + 1] == words[..k] + [word];
      if |line| + 1 + |word| > width {
        CloseLine(done, open, words[..k], word, first, cont, width);
        out := out + [line];
        line := cont + word;
        done, open := done + [open], [word];
      } else {
        GrowLine(done, open, words[..k], word, first, cont, width);
        line := line + " " + word;
        open := open + [word];
      }
    }
    assert words[..|words|] == words;
    lines := out + [line];
    ghost var groups := done + [open];
    assert IsLayout(groups, words, first, cont, width) && IsGreedy(groups, first, cont, width);
    assert Renders(lines, groups, first, cont);
    forall other | IsLayout(other, words, first, cont, width) ensures |lines| <= |other| {
      GreedyIsOptimal(groups, other, words, first, cont, width);
    }
  }
}
