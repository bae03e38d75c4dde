/**
 internal/cli/normalize.go: the standard library's flag package reads `-flag` and
 `--flag` alike, pflag only the latter.  `Normalize` respells a command line so
 that pflag reads from it what the standard library would have read.

 A reading gives every argument its role.  Parsers differ in whether a single dash
 can introduce a long flag and in whether the first positional ends the flags.  A
 single-dash argument that is no registered long flag may still owe a value (`-n
 ns`); which ones do is an arbitrary predicate.  Both parsers honour it and
 `Normalize` does not know it, so the reading is preserved under an exact condition.
 */
module Normalize {
  import opened Basics

  /** The target command's answer about a long-flag name. */
  datatype Flag = Flag(registered: bool, takesValue: bool)

  type Lookup = string -> Flag

  /** Does a single-dash argument that is no registered long flag take the next argument as its value? */
  type Shorthands = string -> bool

  datatype Role =
    | LongFlag(name: string, inline: Option<string>)  // a registered flag, `inline` when written with =
    | FlagValue(text: string)                         // the argument a flag or shorthand consumed
    | Terminator                                      // the bare -- in flag position
    | Positional(text: string)                        // a plain argument, or anything once flags have ended
    | Dashed(text: string)                            // shorthands and unregistered flags

  /** A flag's name followed by its inline value, if it has one. */
  function Body(name: string, inline: Option<string>): (s: string) {
    match inline
    case None => name
    case Some(v) => name + "=" + v
  }

  /** strings.Cut(s, "="). */
  function Cut(s: string): (r: (string, Option<string>))
    ensures '=' !in r.0
    ensures s == Body(r.0, r.1)
  {
    if s == "" then ("", None)
    else if s[0] == '=' then ("", Some(s[1..]))
    else
      var (name, inline) := Cut(s[1..]);
      ([s[0]] + name, inline)
  }

  lemma {:induction false} CutCons(c: char, t: string)
    requires c != '='
    ensures Cut([c] + t) == ([c] + Cut(t).0, Cut(t).1)
  {
    assert ([c] + t)[1..] == t;
  }

  /** Cut undoes the spelling of a name and its inline value. */
  lemma {:induction false} CutSpelled(name: string, inline: Option<string>)
    requires '=' !in name
    ensures Cut(Body(name, inline)) == (name, inline)
  {
    if name == "" {
      assert inline.Some? ==> Body(name, inline)[1..] == inline.value;
    } else {
      var rest := name[1..];
      CutSpelled(rest, inline);
      CutCons(name[0], Body(rest, inline));
      assert name == [name[0]] + rest;
      assert Body(name, inline) == [name[0]] + Body(rest, inline);
    }
  }

  predicate DoubleDash(a: string) {
    |a| >= 2 && a[0] == '-' && a[1] == '-'
  }

  predicate SingleDash(a: string) {
    |a| > 1 && a[0] == '-' && a[1] != '-'
  }

  /** A parser: whether `-name` can be a long flag, and whether the first positional ends the flags. */
  datatype Parser = Parser(singleDash: bool, stops: bool)

  const STDLIB := Parser(true, true)
  const PFLAG := Parser(false, false)

  /** pflag's grammar with single-dash long flags: what a command line is meant to say. */
  const MEANT := Parser(true, false)

  /** Where a reader stands: free, owed a value by a long flag or by a shorthand, past the terminator or a positional. */
  datatype Mode = Free | Owed | OwedShort | Done | Stopped

  /** What follows the dashes of an argument that can introduce a long flag. */
  function FlagBody(a: string, singleDash: bool): (r: Option<string>)
    ensures r.Some? ==> r.value != ""
  {
    if singleDash && SingleDash(a) then Some(a[1..])
    else if DoubleDash(a) && |a| > 2 then Some(a[2..])
    else None
  }

  /** The role of an argument in flag position. */
  function RoleOf(a: string, lookup: Lookup, singleDash: bool): (r: Role) {
    if a == "--" then Terminator
    else if !SingleDash(a) && !DoubleDash(a) then Positional(a)
    else match FlagBody(a, singleDash)
      case None => Dashed(a)
      case Some(body) =>
        var (name, inline) := Cut(body);
        if lookup(name).registered then LongFlag(name, inline) else Dashed(a)
  }

  /** A registered long flag written with one dash: the spelling Normalize is for. */
  predicate IsShortSpelt(a: string, lookup: Lookup) { SingleDash(a) && lookup(Cut(a[1..]).0).registered }

  predicate ConsumesNext(r: Role, lookup: Lookup) {
    r.LongFlag? && r.inline.None? && lookup(r.name).takesValue
  }

  function Read1(a: string, mode: Mode, lookup: Lookup, p: Parser): (r: Role) {
    match mode
    case Free => RoleOf(a, lookup, p.singleDash)
    case Owed => FlagValue(a)
    case OwedShort => FlagValue(a)
    case Done => Positional(a)
    case Stopped => Positional(a)
  }

  function NextMode(r: Role, mode: Mode, lookup: Lookup, owes: Shorthands, p: Parser): (m: Mode) {
    if mode == Done || mode == Stopped then mode
    else if r == Terminator then Done
    else if r.Positional? && p.stops then Stopped
    else if ConsumesNext(r, lookup) then Owed
    else if r.Dashed? && SingleDash(r.text) && owes(r.text) then OwedShort
    else Free
  }

  /** Reading a whole command line. */
  function Read(args: seq<string>, mode: Mode, lookup: Lookup, owes: Shorthands, p: Parser): (roles: seq<Role>)
    ensures |roles| == |args|
  {
    if args == [] then []
    else
      var r := Read1(args[0], mode, lookup, p);
      [r] + Read(args[1..], NextMode(r, mode, lookup, owes, p), lookup, owes, p)
  }

  lemma {:induction false} ReadCons(a: string, rest: seq<string>, mode: Mode, lookup: Lookup, owes: Shorthands, p: Parser)
    ensures var r := Read1(a, mode, lookup, p);
      Read([a] + rest, mode, lookup, owes, p) == [r] + Read(rest, NextMode(r, mode, lookup, owes, p), lookup, owes, p)
  {
    assert ([a] + rest)[1..] == rest;
  }

  /** The canonical spelling of a role. */
  function Spell(r: Role): (a: string) {
    match r
    case LongFlag(name, inline) => "--" + Body(name, inline)
    case Terminator => "--"
    case FlagValue(text) => text
    case Positional(text) => text
    case Dashed(text) => text
  }

  function SpellAll(roles: seq<Role>): (args: seq<string>)
    ensures |args| == |roles|
    ensures forall i :: 0 <= i < |roles| ==> args[i] == Spell(roles[i])
  {
    if roles == [] then [] else [Spell(roles[0])] + SpellAll(roles[1..])
  }

  // ---- what Normalize does

  /** Normalize tracks values after long flags only. */
  function Untracked(): (owes: Shorthands) { (a: string) => false }

  /** The roles Normalize itself goes by. */
  function Tracked(args: seq<string>, mode: Mode, lookup: Lookup): (roles: seq<Role>)
    ensures |roles| == |args|
  {
    Read(args, mode, lookup, Untracked(), MEANT)
  }

  function TrackNext(r: Role, mode: Mode, lookup: Lookup): (m: Mode) { NextMode(r, mode, lookup, Untracked(), MEANT) }

  lemma {:induction false} TrackedCons(a: string, rest: seq<string>, mode: Mode, lookup: Lookup)
    ensures var r := Read1(a, mode, lookup, MEANT);
      && Tracked([a] + rest, mode, lookup) == [r] + Tracked(rest, TrackNext(r, mode, lookup), lookup)
      && SpellAll(Tracked([a] + rest, mode, lookup)) == [Spell(r)] + SpellAll(Tracked(rest, TrackNext(r, mode, lookup), lookup))
  {
    ReadCons(a, rest, mode, lookup, Untracked(), MEANT);
  }

  /** What `Normalize` returns: every argument respelt from the role it goes by. */
  function Normalized(args: seq<string>, lookup: Lookup): (out: seq<string>)
    ensures |out| == |args|
  {
    SpellAll(Tracked(args, Free, lookup))
  }

  /** Respelling changes exactly the single-dash registered long flags in flag position, by one more dash. */
  lemma {:induction false} SpellOf(a: string, mode: Mode, lookup: Lookup)
    ensures var r := Read1(a, mode, lookup, MEANT);
      && Spell(r) == (if mode == Free && IsShortSpelt(a, lookup) then "-" + a else a)
      && (mode == Free && IsShortSpelt(a, lookup) ==> r == LongFlag(Cut(a[1..]).0, Cut(a[1..]).1))
  {
    var r := Read1(a, mode, lookup, MEANT);
    if r.LongFlag? {
      assert a == (if SingleDash(a) then "-" else "--") + Body(r.name, r.inline);
    }
  }

  /** A role keeps its argument's text; a long flag written with one dash gains another. */
  predicate KeepsText(a: string, r: Role, out: string) {
    && out == (if r.LongFlag? && SingleDash(a) then "-" + a else a)
    && (r.FlagValue? || r.Positional? || r.Dashed? ==> r.text == a)
  }

  lemma {:induction false} KeepsText1(a: string, mode: Mode, lookup: Lookup)
    ensures var r := Read1(a, mode, lookup, MEANT); KeepsText(a, r, Spell(r))
  {
    SpellOf(a, mode, lookup);
  }

  /** Every role is the reading of its argument in some mode. */
  lemma {:induction false} TrackedAt(args: seq<string>, mode: Mode, lookup: Lookup, i: nat) returns (m: Mode)
    requires i < |args|
    ensures Tracked(args, mode, lookup)[i] == Read1(args[i], m, lookup, MEANT)
    decreases |args|
  {
    var r := Read1(args[0], mode, lookup, MEANT);
    var tail := Tracked(args[1..], TrackNext(r, mode, lookup), lookup);
    assert Tracked(args, mode, lookup) == [r] + tail;
    if i == 0 {
      m := mode;
    } else {
      m := TrackedAt(args[1..], TrackNext(r, mode, lookup), lookup, i - 1);
      assert Tracked(args, mode, lookup)[i] == tail[i - 1] && args[i] == args[1..][i - 1];
    }
  }

  lemma {:induction false} OnlyLongFlagsChange(args: seq<string>, mode: Mode, lookup: Lookup, i: nat)
    requires i < |args|
    ensures KeepsText(args[i], Tracked(args, mode, lookup)[i], SpellAll(Tracked(args, mode, lookup))[i])
  {
    var m := TrackedAt(args, mode, lookup, i);
    KeepsText1(args[i], m, lookup);
  }

  /** A registered name spelt with two dashes reads as itself under every parser. */
  lemma {:induction false} LongFlagReadsBack(name: string, inline: Option<string>, lookup: Lookup, singleDash: bool)
    requires '=' !in name && Body(name, inline) != "" && lookup(name).registered
    ensures RoleOf("--" + Body(name, inline), lookup, singleDash) == LongFlag(name, inline)
  {
    var a := "--" + Body(name, inline);
    assert a[2..] == Body(name, inline);
    CutSpelled(name, inline);
  }

  /** A respelt argument read again in the same mode keeps its role, with or without single-dash long flags. */
  lemma {:induction false} SpellThenRead1(a: string, mode: Mode, lookup: Lookup, p: Parser)
    ensures var r := Read1(a, mode, lookup, MEANT); Read1(Spell(r), mode, lookup, p) == r
  {
    var r := Read1(a, mode, lookup, MEANT);
    if r.LongFlag? {
      LongFlagReadsBack(r.name, r.inline, lookup, p.singleDash);
    }
  }

  lemma {:induction false} TrackedAgain(args: seq<string>, mode: Mode, lookup: Lookup)
    ensures Tracked(SpellAll(Tracked(args, mode, lookup)), mode, lookup) == Tracked(args, mode, lookup)
  {
    if args != [] {
      var r := Read1(args[0], mode, lookup, MEANT);
      SpellThenRead1(args[0], mode, lookup, MEANT);
      TrackedAgain(args[1..], TrackNext(r, mode, lookup), lookup);
      TrackedCons(args[0], args[1..], mode, lookup);
      TrackedCons(Spell(r), SpellAll(Tracked(args[1..], TrackNext(r, mode, lookup), lookup)), mode, lookup);
      assert args == [args[0]] + args[1..];
    }
  }

  lemma {:induction false} NormalizeIdempotent(args: seq<string>, lookup: Lookup)
    ensures Normalized(Normalized(args, lookup), lookup) == Normalized(args, lookup)
  {
    TrackedAgain(args, Free, lookup);
  }

  // ---- which arguments change, said of the text alone

  /** A registered long flag, with one dash or two, that takes a value and is written without `=`. */
  ghost predicate Calls(a: string, lookup: Lookup) { exists name :: CallsAs(a, name, lookup) }

  predicate CallsAs(a: string, name: string, lookup: Lookup) {
    && name != "" && '=' !in name && (a == "--" + name || (a == "-" + name && name[0] != '-'))
    && lookup(name).registered && lookup(name).takesValue
  }

  /** How many arguments in a row right before `i` call for a value. */
  ghost function CallsBefore(args: seq<string>, i: nat, lookup: Lookup): (n: nat)
    requires i <= |args|
    ensures n <= i && (forall k :: i - n <= k < i ==> Calls(args[k], lookup)) && (n < i ==> !Calls(args[i - n - 1], lookup))
  {
    if i == 0 || !Calls(args[i - 1], lookup) then 0 else 1 + CallsBefore(args, i - 1, lookup)
  }

  /** Of a row of calling arguments each second one is the value of the one before it. */
  ghost predicate IsValue(args: seq<string>, i: nat, lookup: Lookup)
    requires i <= |args|
  {
    CallsBefore(args, i, lookup) % 2 == 1
  }

  /** A `--` that is nobody's value stands before `i`. */
  ghost predicate Ended(args: seq<string>, i: nat, lookup: Lookup)
    requires i <= |args|
  {
    exists j :: 0 <= j < i && args[j] == "--" && !IsValue(args, j, lookup)
  }

  lemma {:induction false} CallsExact(a: string, lookup: Lookup)
    ensures ConsumesNext(RoleOf(a, lookup, true), lookup) <==> Calls(a, lookup)
  {
    if ConsumesNext(RoleOf(a, lookup, true), lookup) {
      var name := RoleOf(a, lookup, true).name;
      assert a == (if SingleDash(a) then "-" else "--") + name;
      assert CallsAs(a, name, lookup);
    }
    if Calls(a, lookup) {
      var name :| CallsAs(a, name, lookup);
      CutSpelled(name, None);
      assert SingleDash(a) ==> a[1..] == name;
      assert DoubleDash(a) ==> a[2..] == name;
    }
  }

  /** The mode in which argument `i` is met. */
  function ModeAt(args: seq<string>, mode: Mode, lookup: Lookup, i: nat): (m: Mode)
    requires i <= |args|
  {
    if i == 0 then mode
    else ModeAt(args[1..], TrackNext(Read1(args[0], mode, lookup, MEANT), mode, lookup), lookup, i - 1)
  }

  lemma {:induction false} ModeStep(args: seq<string>, mode: Mode, lookup: Lookup, i: nat)
    requires i < |args|
    ensures var m := ModeAt(args, mode, lookup, i);
      && Tracked(args, mode, lookup)[i] == Read1(args[i], m, lookup, MEANT)
      && ModeAt(args, mode, lookup, i + 1) == TrackNext(Read1(args[i], m, lookup, MEANT), m, lookup)
  {
    var r := Read1(args[0], mode, lookup, MEANT);
    assert Tracked(args, mode, lookup) == [r] + Tracked(args[1..], TrackNext(r, mode, lookup), lookup);
    if i > 0 {
      ModeStep(args[1..], TrackNext(r, mode, lookup), lookup, i - 1);
    }
  }

  /** The tracking in one step: `--` ends it, a calling argument is owed the next one. */
  ghost function NextSaid(a: string, mode: Mode, lookup: Lookup): (m: Mode) {
    if mode == Done then Done
    else if mode == Owed then Free
    else if a == "--" then Done else if Calls(a, lookup) then Owed else Free
  }

  lemma {:induction false} TrackNextExact(a: string, mode: Mode, lookup: Lookup)
    requires mode == Done || mode == Owed || mode == Free
    ensures TrackNext(Read1(a, mode, lookup, MEANT), mode, lookup) == NextSaid(a, mode, lookup)
  {
    CallsExact(a, lookup);
  }

  lemma {:induction false} EndedStep(args: seq<string>, i: nat, lookup: Lookup)
    requires i < |args|
    ensures Ended(args, i + 1, lookup) <==> Ended(args, i, lookup) || (args[i] == "--" && !IsValue(args, i, lookup))
  {
  }

  lemma {:induction false} ValueStep(args: seq<string>, i: nat, lookup: Lookup)
    requires i < |args|
    ensures IsValue(args, i + 1, lookup) <==> Calls(args[i], lookup) && !IsValue(args, i, lookup)
  {
    assert CallsBefore(args, i + 1, lookup) == if Calls(args[i], lookup) then 1 + CallsBefore(args, i, lookup) else 0;
  }

  ghost function ModeSaid(args: seq<string>, i: nat, lookup: Lookup): (m: Mode)
    requires i <= |args|
  {
    if Ended(args, i, lookup) then Done else if IsValue(args, i, lookup) then Owed else Free
  }

  lemma {:induction false} SaidStep(args: seq<string>, i: nat, lookup: Lookup)
    requires i < |args|
    ensures ModeSaid(args, i + 1, lookup) == NextSaid(args[i], ModeSaid(args, i, lookup), lookup)
  {
    EndedStep(args, i, lookup);
    ValueStep(args, i, lookup);
  }

  lemma {:induction false} ModeGrows(args: seq<string>, lookup: Lookup, i: nat)
    requires i < |args| && ModeAt(args, Free, lookup, i) == ModeSaid(args, i, lookup)
    ensures ModeAt(args, Free, lookup, i + 1) == ModeSaid(args, i + 1, lookup)
  {
    var m := ModeSaid(args, i, lookup);
    ModeStep(args, Free, lookup, i);
    TrackNextExact(args[i], m, lookup);
    SaidStep(args, i, lookup);
  }

  lemma {:induction false} ModeExact(args: seq<string>, lookup: Lookup, i: nat)
    requires i <= |args|
    ensures ModeAt(args, Free, lookup, i) == ModeSaid(args, i, lookup)
  {
    if i == 0 {
      assert !Ended(args, 0, lookup) && !IsValue(args, 0, lookup);
    } else {
      var j := i - 1;
      ModeExact(args, lookup, j);
      ModeGrows(args, lookup, j);
    }
  }

  /**
   An argument gains a dash iff it is a registered long flag with one dash, is
   nobody's value, and comes before the first `--` that is nobody's value.
   */
  lemma {:induction false} RewritesExact(args: seq<string>, lookup: Lookup, i: nat)
    requires i < |args|
    ensures Normalized(args, lookup)[i]
         == if IsShortSpelt(args[i], lookup) && !IsValue(args, i, lookup) && !Ended(args, i, lookup)
            then "-" + args[i] else args[i]
  {
    ModeExact(args, lookup, i);
    ModeStep(args, Free, lookup, i);
    SpellOf(args[i], ModeAt(args, Free, lookup, i), lookup);
  }

  // ---- when the reading is preserved

  /**
   Reading the line with shorthands (`mode`) beside what Normalize tracks
   (`track`): wherever a single-dash registered long flag stands, both agree
   whether it is in flag position.
   */
  predicate InStep(args: seq<string>, track: Mode, mode: Mode, lookup: Lookup, owes: Shorthands) {
    args == [] ||
    (&& (IsShortSpelt(args[0], lookup) ==> (track == Free <==> mode == Free))
     && InStep(args[1..], TrackNext(Read1(args[0], track, lookup, MEANT), track, lookup),
               NextMode(Read1(args[0], mode, lookup, MEANT), mode, lookup, owes, MEANT), lookup, owes))
  }

  /** One argument: pflag reads the respelt one as the original was meant iff the trackers agree on it. */
  lemma {:induction false} HeadExact(a: string, track: Mode, mode: Mode, lookup: Lookup)
    ensures Read1(Spell(Read1(a, track, lookup, MEANT)), mode, lookup, PFLAG) == Read1(a, mode, lookup, MEANT)
       <==> (IsShortSpelt(a, lookup) ==> (track == Free <==> mode == Free))
  {
    SpellOf(a, track, lookup);
    SpellOf(a, mode, lookup);
    if mode == Free && IsShortSpelt(a, lookup) {
      SpellThenRead1(a, Free, lookup, PFLAG);
    }
    assert |"-" + a| != |a|;
  }

  lemma {:induction false} ReadingExact(args: seq<string>, track: Mode, mode: Mode, lookup: Lookup, owes: Shorthands)
    ensures Read(SpellAll(Tracked(args, track, lookup)), mode, lookup, owes, PFLAG) == Read(args, mode, lookup, owes, MEANT)
       <==> InStep(args, track, mode, lookup, owes)
  {
    if args != [] {
      var a, rest := args[0], args[1..];
      var seen, r := Read1(a, track, lookup, MEANT), Read1(a, mode, lookup, MEANT);
      var track', mode' := TrackNext(seen, track, lookup), NextMode(r, mode, lookup, owes, MEANT);
      var out := SpellAll(Tracked(rest, track', lookup));
      assert args == [a] + rest;
      TrackedCons(a, rest, track, lookup);
      ReadCons(a, rest, mode, lookup, owes, MEANT);
      ReadCons(Spell(seen), out, mode, lookup, owes, PFLAG);
      HeadExact(a, track, mode, lookup);
      ReadingExact(rest, track', mode', lookup, owes);
      var left := Read(out, NextMode(Read1(Spell(seen), mode, lookup, PFLAG), mode, lookup, owes, PFLAG), lookup, owes, PFLAG);
      SameCons(Read1(Spell(seen), mode, lookup, PFLAG), left, r, Read(rest, mode', lookup, owes, MEANT));
    }
  }

  lemma {:induction false} SameCons(a: Role, xs: seq<Role>, b: Role, ys: seq<Role>)
    ensures [a] + xs == [b] + ys <==> a == b && xs == ys
  {
    if [a] + xs == [b] + ys {
      assert ([a] + xs)[0] == a && ([b] + ys)[0] == b;
      assert ([a] + xs)[1..] == xs && ([b] + ys)[1..] == ys;
    }
  }

  /**
   pflag reads from the normalized line, argument for argument, what the original
   was meant to say, if and only if Normalize's tracking stays in step with the
   values that shorthands consume.
   */
  lemma {:induction false} NormalizePreservesReading(args: seq<string>, lookup: Lookup, owes: Shorthands)
    ensures Read(Normalized(args, lookup), Free, lookup, owes, PFLAG) == Read(args, Free, lookup, owes, MEANT)
       <==> InStep(args, Free, Free, lookup, owes)
  {
    ReadingExact(args, Free, Free, lookup, owes);
  }

  /** No argument consumed by a shorthand is `--`, a single-dash registered long flag, or a long flag that takes a value. */
  predicate PlainShorthandValues(args: seq<string>, mode: Mode, lookup: Lookup, owes: Shorthands) {
    args == [] ||
    (&& (mode == OwedShort ==>
           args[0] != "--" && !IsShortSpelt(args[0], lookup) && !ConsumesNext(RoleOf(args[0], lookup, true), lookup))
     && PlainShorthandValues(args[1..], NextMode(Read1(args[0], mode, lookup, MEANT), mode, lookup, owes, MEANT), lookup, owes))
  }

  lemma {:induction false} PlainStaysInStep(args: seq<string>, track: Mode, mode: Mode, lookup: Lookup, owes: Shorthands)
    requires PlainShorthandValues(args, mode, lookup, owes)
    requires mode != Stopped && track == (if mode == OwedShort then Free else mode)
    ensures InStep(args, track, mode, lookup, owes)
  {
    if args != [] {
      PlainStaysInStep(args[1..], TrackNext(Read1(args[0], track, lookup, MEANT), track, lookup),
                       NextMode(Read1(args[0], mode, lookup, MEANT), mode, lookup, owes, MEANT), lookup, owes);
    }
  }

  /** So it is preserved on every line whose shorthand values do not look like flags. */
  lemma {:induction false} PlainValuesPreserveReading(args: seq<string>, lookup: Lookup, owes: Shorthands)
    requires PlainShorthandValues(args, Free, lookup, owes)
    ensures Read(Normalized(args, lookup), Free, lookup, owes, PFLAG) == Read(args, Free, lookup, owes, MEANT)
  {
    PlainStaysInStep(args, Free, Free, lookup, owes);
    NormalizePreservesReading(args, lookup, owes);
  }

  // ---- the standard library

  predicate DashLed(a: string) { SingleDash(a) || DoubleDash(a) }

  /** Once a positional has ended the flags, no argument looks like one. */
  predicate PositionalsLast(args: seq<string>, mode: Mode, lookup: Lookup, owes: Shorthands) {
    args == [] ||
    (&& (mode == Stopped ==> !DashLed(args[0]))
     && PositionalsLast(args[1..], NextMode(Read1(args[0], mode, lookup, STDLIB), mode, lookup, owes, STDLIB), lookup, owes))
  }

  /** After the standard library has stopped, the two readings agree iff nothing looks like a flag. */
  lemma {:induction false} StoppedExact(args: seq<string>, track: Mode, lookup: Lookup, owes: Shorthands)
    ensures Read(SpellAll(Tracked(args, track, lookup)), Free, lookup, owes, PFLAG) == Read(args, Stopped, lookup, owes, STDLIB)
       <==> PositionalsLast(args, Stopped, lookup, owes)
    ensures PositionalsLast(args, Stopped, lookup, owes) ==> InStep(args, track, Free, lookup, owes)
  {
    if args != [] {
      var a, rest := args[0], args[1..];
      var seen := Read1(a, track, lookup, MEANT);
      var track' := TrackNext(seen, track, lookup);
      var out := SpellAll(Tracked(rest, track', lookup));
      assert args == [a] + rest;
      TrackedCons(a, rest, track, lookup);
      ReadCons(a, rest, Stopped, lookup, owes, STDLIB);
      ReadCons(Spell(seen), out, Free, lookup, owes, PFLAG);
      SpellOf(a, track, lookup);
      StoppedExact(rest, track', lookup, owes);
      var r := Read1(Spell(seen), Free, lookup, PFLAG);
      SameCons(r, Read(out, NextMode(r, Free, lookup, owes, PFLAG), lookup, owes, PFLAG),
               Positional(a), Read(rest, Stopped, lookup, owes, STDLIB));
      assert r == Positional(a) <==> !DashLed(a);
    }
  }

  /** pflag reads the respelt line as the standard library reads the original. */
  predicate SameReading(args: seq<string>, track: Mode, pflag: Mode, stdlib: Mode, lookup: Lookup, owes: Shorthands) {
    Read(SpellAll(Tracked(args, track, lookup)), pflag, lookup, owes, PFLAG) == Read(args, stdlib, lookup, owes, STDLIB)
  }

  /** The two readings agree on a line iff they agree on its head and on the rest. */
  lemma {:induction false} StdlibCons(a: string, rest: seq<string>, track: Mode, mode: Mode, lookup: Lookup, owes: Shorthands)
    requires mode != Stopped
    ensures var (seen, r) := (Read1(a, track, lookup, MEANT), Read1(a, mode, lookup, STDLIB));
      var (track', mode') := (TrackNext(seen, track, lookup), NextMode(r, mode, lookup, owes, STDLIB));
      SameReading([a] + rest, track, mode, mode, lookup, owes) <==>
        && (IsShortSpelt(a, lookup) ==> (track == Free <==> mode == Free))
        && SameReading(rest, track', if mode' == Stopped then Free else mode', mode', lookup, owes)
  {
    var seen, r := Read1(a, track, lookup, MEANT), Read1(a, mode, lookup, STDLIB);
    var out := SpellAll(Tracked(rest, TrackNext(seen, track, lookup), lookup));
    TrackedCons(a, rest, track, lookup);
    ReadCons(a, rest, mode, lookup, owes, STDLIB);
    ReadCons(Spell(seen), out, mode, lookup, owes, PFLAG);
    HeadExact(a, track, mode, lookup);
    var l := Read1(Spell(seen), mode, lookup, PFLAG);
    SameCons(l, Read(out, NextMode(l, mode, lookup, owes, PFLAG), lookup, owes, PFLAG),
             r, Read(rest, NextMode(r, mode, lookup, owes, STDLIB), lookup, owes, STDLIB));
  }

  /** Where the standard library stops, the meant reading goes on. */
  lemma {:induction false} MeantBeside(a: string, mode: Mode, lookup: Lookup, owes: Shorthands)
    requires mode != Stopped
    ensures var mode' := NextMode(Read1(a, mode, lookup, STDLIB), mode, lookup, owes, STDLIB);
      NextMode(Read1(a, mode, lookup, MEANT), mode, lookup, owes, MEANT) == if mode' == Stopped then Free else mode'
  {
  }

  function MeantMode(stdlib: Mode): (m: Mode) { if stdlib == Stopped then Free else stdlib }

  predicate StdlibIff(args: seq<string>, track: Mode, mode: Mode, lookup: Lookup, owes: Shorthands) {
    SameReading(args, track, MeantMode(mode), mode, lookup, owes) <==>
      (InStep(args, track, MeantMode(mode), lookup, owes) && PositionalsLast(args, mode, lookup, owes))
  }

  lemma {:induction false} StdlibIffCons(a: string, rest: seq<string>, track: Mode, mode: Mode, lookup: Lookup, owes: Shorthands)
    requires mode != Stopped
    requires StdlibIff(rest, TrackNext(Read1(a, track, lookup, MEANT), track, lookup),
                       NextMode(Read1(a, mode, lookup, STDLIB), mode, lookup, owes, STDLIB), lookup, owes)
    ensures StdlibIff([a] + rest, track, mode, lookup, owes)
  {
    assert ([a] + rest)[1..] == rest && ([a] + rest)[0] == a;
    StdlibCons(a, rest, track, mode, lookup, owes);
    MeantBeside(a, mode, lookup, owes);
  }

  lemma {:induction false} StdlibReadingExact(args: seq<string>, track: Mode, mode: Mode, lookup: Lookup, owes: Shorthands)
    ensures StdlibIff(args, track, mode, lookup, owes)
  {
    if mode == Stopped {
      StoppedExact(args, track, lookup, owes);
    } else if args != [] {
      var a, rest := args[0], args[1..];
      StdlibReadingExact(rest, TrackNext(Read1(a, track, lookup, MEANT), track, lookup),
                         NextMode(Read1(a, mode, lookup, STDLIB), mode, lookup, owes, STDLIB), lookup, owes);
      assert args == [a] + rest;
      StdlibIffCons(a, rest, track, mode, lookup, owes);
    }
  }

  /**
   pflag reads from the normalized line what the standard library reads from the
   original, if and only if the tracking stays in step and nothing after the
   first positional looks like a flag.
   */
  lemma {:induction false} StdlibReadingPreserved(args: seq<string>, lookup: Lookup, owes: Shorthands)
    ensures Read(Normalized(args, lookup), Free, lookup, owes, PFLAG) == Read(args, Free, lookup, owes, STDLIB)
       <==> InStep(args, Free, Free, lookup, owes) && PositionalsLast(args, Free, lookup, owes)
  {
    StdlibReadingExact(args, Free, Free, lookup, owes);
  }

  // ---- lines on which it is not

  /** A shorthand that is no registered long flag and owes a value, such as `-n`. */
  predicate OwingShorthand(sh: string, lookup: Lookup, owes: Shorthands) {
    SingleDash(sh) && !IsShortSpelt(sh, lookup) && owes(sh)
  }

  lemma {:induction false} ReadShorthand(sh: string, lookup: Lookup, owes: Shorthands)
    requires OwingShorthand(sh, lookup, owes)
    ensures Read1(sh, Free, lookup, MEANT) == Dashed(sh)
    ensures NextMode(Dashed(sh), Free, lookup, owes, MEANT) == OwedShort && TrackNext(Dashed(sh), Free, lookup) == Free
  {
  }

  /** `-n -explain` becomes `-n --explain`: the value that the shorthand consumes is rewritten. */
  lemma {:induction false} ShorthandValueRewritten(sh: string, a: string, lookup: Lookup, owes: Shorthands)
    requires OwingShorthand(sh, lookup, owes) && IsShortSpelt(a, lookup)
    ensures Normalized([sh, a], lookup) == [sh, "-" + a]
    ensures !InStep([sh, a], Free, Free, lookup, owes)
  {
    ReadShorthand(sh, lookup, owes);
    assert [sh] + [a] == [sh, a] && [sh, a][1..] == [a] && [a] + [] == [a];
    TrackedCons(sh, [a], Free, lookup);
    TrackedCons(a, [], Free, lookup);
    SpellOf(a, Free, lookup);
  }

  /** `-n -- -output` stays as it is: a `--` that the shorthand consumes ends the rewriting. */
  lemma {:induction false} ConsumedTerminatorFreezes(sh: string, a: string, lookup: Lookup, owes: Shorthands)
    requires OwingShorthand(sh, lookup, owes) && IsShortSpelt(a, lookup)
    ensures Normalized([sh, "--", a], lookup) == [sh, "--", a]
    ensures !InStep([sh, "--", a], Free, Free, lookup, owes)
  {
    ReadShorthand(sh, lookup, owes);
    var rest := ["--", a];
    assert [sh] + rest == [sh, "--", a] && [sh, "--", a][1..] == rest;
    assert ["--"] + [a] == rest && rest[1..] == [a];
    TrackedCons(sh, rest, Free, lookup);
    TrackedCons("--", [a], Free, lookup);
    DoneIsCopied([a], lookup);
    assert !InStep([a], Done, Free, lookup, owes);
  }

  /** Past the terminator the rest is copied. */
  lemma {:induction false} DoneIsCopied(args: seq<string>, lookup: Lookup)
    ensures SpellAll(Tracked(args, Done, lookup)) == args
    ensures forall i :: 0 <= i < |args| ==> Tracked(args, Done, lookup)[i] == Positional(args[i])
  {
    if args != [] {
      DoneIsCopied(args[1..], lookup);
      assert args == [args[0]] + args[1..];
      TrackedCons(args[0], args[1..], Done, lookup);
    }
  }

  /** A `--` in flag position freezes everything from there on. */
  lemma {:induction false} TerminatorFreezesRest(args: seq<string>, mode: Mode, lookup: Lookup, t: nat)
    requires t < |args| && Tracked(args, mode, lookup)[t] == Terminator
    ensures SpellAll(Tracked(args, mode, lookup))[t..] == args[t..]
    decreases |args|
  {
    var r := Read1(args[0], mode, lookup, MEANT);
    var tail := Tracked(args[1..], TrackNext(r, mode, lookup), lookup);
    TrackedCons(args[0], args[1..], mode, lookup);
    assert args == [args[0]] + args[1..];
    var out := SpellAll(Tracked(args, mode, lookup));
    assert out == [Spell(r)] + SpellAll(tail);
    if t == 0 {
      DoneIsCopied(args[1..], lookup);
      SpellOf(args[0], mode, lookup);
      assert out[0..] == out && args[0..] == args;
    } else {
      TerminatorFreezesRest(args[1..], TrackNext(r, mode, lookup), lookup, t - 1);
      assert out[t..] == SpellAll(tail)[t - 1..] && args[t..] == args[1..][t - 1..];
    }
  }

  /** One round of the loop: the new spelling and whether the next argument is a value. */
  function Respell(a: string, lookup: Lookup): (r: (string, bool)) {
    if SingleDash(a) then
      var (name, inline) := Cut(a[1..]);
      var answer := lookup(name);
      if !answer.registered then (a, false)
      else ("--" + Body(name, inline), inline.None? && answer.takesValue)
    else if DoubleDash(a) then
      var (name, inline) := Cut(a[2..]);
      var answer := lookup(name);
      (a, inline.None? && answer.registered && answer.takesValue)
    else (a, false)
  }

  lemma {:induction false} RespellIsSpell(a: string, lookup: Lookup)
    requires a != "--"
    ensures var r := RoleOf(a, lookup, true);
            Respell(a, lookup) == (Spell(r), ConsumesNext(r, lookup)) && r != Terminator
  {
    if DoubleDash(a) {
      assert a == "--" + a[2..];
    }
  }

  /** Where the loop stands after k arguments: what is out, then the respelling of the rest, is the result. */
  ghost predicate At(args: seq<string>, k: nat, expectValue: bool, lookup: Lookup, out: seq<string>) {
    && k <= |args| && |out| == k
    && out + SpellAll(Tracked(args[k..], if expectValue then Owed else Free, lookup)) == Normalized(args, lookup)
  }

  lemma {:induction false} SuffixStep(args: seq<string>, k: nat, mode: Mode, lookup: Lookup)
    requires k < |args|
    ensures var r := Read1(args[k], mode, lookup, MEANT);
      SpellAll(Tracked(args[k..], mode, lookup)) == [Spell(r)] + SpellAll(Tracked(args[k + 1..], TrackNext(r, mode, lookup), lookup))
  {
    TrackedCons(args[k], args[k + 1..], mode, lookup);
    assert args[k..] == [args[k]] + args[k + 1..];
  }

  lemma {:induction false} Shift(out: seq<string>, a: string, rest: seq<string>)
    ensures out + ([a] + rest) == (out + [a]) + rest
  {
  }

  /** One argument respelt. */
  lemma {:induction false} Passed(args: seq<string>, k: nat, expectValue: bool, lookup: Lookup, out: seq<string>, a: string, takesNext: bool)
    requires At(args, k, expectValue, lookup, out) && k < |args|
    requires var mode := if expectValue then Owed else Free;
      var r := Read1(args[k], mode, lookup, MEANT);
      a == Spell(r) && TrackNext(r, mode, lookup) == if takesNext then Owed else Free
    ensures At(args, k + 1, takesNext, lookup, out + [a])
  {
    var mode := if expectValue then Owed else Free;
    SuffixStep(args, k, mode, lookup);
    Shift(out, a, SpellAll(Tracked(args[k + 1..], if takesNext then Owed else Free, lookup)));
  }

  /** The terminator: everything from it on is copied. */
  lemma {:induction false} Frozen(args: seq<string>, k: nat, lookup: Lookup, out: seq<string>)
    requires At(args, k, false, lookup, out) && k < |args| && args[k] == "--"
    ensures out + args[k..] == Normalized(args, lookup)
  {
    SuffixStep(args, k, Free, lookup);
    DoneIsCopied(args[k + 1..], lookup);
    assert [args[k]] + args[k + 1..] == args[k..];
  }

  /** The loop of `Normalize`. */
  method Normalize(args: seq<string>, lookup: Lookup) returns (out: seq<string>)
    ensures out == Normalized(args, lookup)
  {
    out := [];
    var expectValue := false;
    assert args[0..] == args && [] + Normalized(args, lookup) == Normalized(args, lookup);
    for k := 0 to |args|
      invariant At(args, k, expectValue, lookup, out)
    {
      var a, takesNext := args[k], false;
      if !expectValue {
        if a == "--" {
          Frozen(args, k, lookup, out);
          return out + args[|out|..];
        }
        RespellIsSpell(a, lookup);
        var r := Respell(a, lookup);
        a, takesNext := r.0, r.1;
      }
      Passed(args, k, expectValue, lookup, out, a, takesNext);
      out, expectValue := out + [a], takesNext;
    }
    assert args[|args|..] == [] && out + [] == out;
  }
}
