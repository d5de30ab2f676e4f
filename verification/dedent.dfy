/**
 * `textwrap.dedent`: lines holding only spaces and tabs are emptied, then
 * the longest run of leading spaces and tabs common to every line with text
 * is removed from the front of each line.
 */
module Dedent {
  import opened Wrappers
  import opened Text
  import opened Scan

  /** The characters `dedent` treats as indentation: space and tab only. */
  predicate IsMarginChar(c: char) {
    c == ' ' || c == '\t'
  }

  /** The leading spaces and tabs of a line. */
  function Leading(line: string): (r: string)
    ensures |r| <= |line| && r == line[..|r|]
    ensures forall i :: 0 <= i < |r| ==> IsMarginChar(r[i])
    ensures |r| < |line| ==> !IsMarginChar(line[|r|])
  {
    if line != [] && IsMarginChar(line[0]) then [line[0]] + Leading(line[1..]) else []
  }

  /** The line holds a character other than a space or a tab. */
  predicate HasText(line: string) {
    |Leading(line)| < |line|
  }

  /** A line of spaces and tabs only becomes empty. */
  function Unblank(line: string): (r: string)
    ensures HasText(line) ==> r == line
    ensures !HasText(line) ==> r == ""
  {
    if HasText(line) then line else ""
  }

  /** The longest common prefix of two texts. */
  function CommonPrefix(a: string, b: string): (r: string)
    ensures StartsWith(a, r) && StartsWith(b, r)
    ensures |r| == |a| || |r| == |b| || a[|r|] != b[|r|]
  {
    if a != [] && b != [] && a[0] == b[0] then [a[0]] + CommonPrefix(a[1..], b[1..]) else []
  }

  /** Every line with text starts its indentation with `m`. */
  predicate MarginOf(ls: seq<string>, m: string) {
    forall i :: 0 <= i < |ls| && HasText(ls[i]) ==> StartsWith(Leading(ls[i]), m)
  }

  /**
   * The margin: the longest indentation common to every line with text, or
   * `None` when no line has text. The lines are taken in order, narrowing
   * the margin to the common prefix with each new indentation.
   */
  function Margin(ls: seq<string>): (r: Option<string>)
    ensures r.Some? ==> forall i :: 0 <= i < |r.value| ==> IsMarginChar(r.value[i])
  {
    if ls == [] then None
    else
      var front, line := ls[..|ls| - 1], ls[|ls| - 1];
      var m := Margin(front);
      if !HasText(line) then m
      else
        var lead := Leading(line);
        match m
        case None => Some(lead)
        case Some(x) => Some(CommonPrefix(x, lead))
  }

  /**
   * The margin exists exactly when some line has text; it is then common to
   * every line with text, and no longer indentation is.
   */
  lemma {:induction false} MarginSpec(ls: seq<string>)
    ensures Margin(ls).Some? <==> exists i :: 0 <= i < |ls| && HasText(ls[i])
    ensures Margin(ls).Some? ==> MarginOf(ls, Margin(ls).value)
    ensures Margin(ls).Some? ==> forall c :: !MarginOf(ls, Margin(ls).value + [c])
    decreases |ls|
  {
    if ls != [] {
      var front, line := ls[..|ls| - 1], ls[|ls| - 1];
      MarginSpec(front);
      assert forall i :: 0 <= i < |front| ==> front[i] == ls[i];
      if !HasText(line) {
        MarginSpecBlankLast(ls);
      } else {
        var lead := Leading(line);
        match Margin(front)
        case None =>
          MarginLast(ls, lead);
        case Some(x) =>
          MarginNarrowed(ls, x, lead, CommonPrefix(x, lead));
      }
    }
  }

  /** A last line without text leaves the margin of the others. */
  lemma MarginSpecBlankLast(ls: seq<string>)
    requires ls != [] && !HasText(ls[|ls| - 1])
    ensures forall s :: MarginOf(ls, s) <==> MarginOf(ls[..|ls| - 1], s)
  {
    forall s
      ensures MarginOf(ls, s) <==> MarginOf(ls[..|ls| - 1], s)
    {
      MarginOfSnoc(ls, s);
    }
  }

  /** A margin stays a margin when shortened. */
  lemma MarginOfShorter(ls: seq<string>, y: string, z: string)
    requires MarginOf(ls, y) && StartsWith(y, z)
    ensures MarginOf(ls, z)
  {
    forall i | 0 <= i < |ls| && HasText(ls[i])
      ensures StartsWith(Leading(ls[i]), z)
    {
      assert Leading(ls[i])[..|z|] == y[..|z|];
    }
  }

  /** A margin of lines is a margin of all but the last and of the last. */
  lemma MarginOfSnoc(ls: seq<string>, m: string)
    requires ls != []
    ensures MarginOf(ls, m) <==>
      (MarginOf(ls[..|ls| - 1], m) && (HasText(ls[|ls| - 1]) ==> StartsWith(Leading(ls[|ls| - 1]), m)))
  {
    var front := ls[..|ls| - 1];
    assert forall i :: 0 <= i < |front| ==> front[i] == ls[i];
  }

  /** With a single line of text, its indentation is the margin. */
  lemma MarginLast(ls: seq<string>, lead: string)
    requires ls != [] && HasText(ls[|ls| - 1]) && lead == Leading(ls[|ls| - 1])
    requires forall i :: 0 <= i < |ls| - 1 ==> !HasText(ls[i])
    ensures MarginOf(ls, lead)
    ensures forall c :: !MarginOf(ls, lead + [c])
  {
    var last := |ls| - 1;
    assert StartsWith(lead, lead);
    forall c
      ensures !MarginOf(ls, lead + [c])
    {
      assert |lead + [c]| > |Leading(ls[last])|;
      assert HasText(ls[last]) && !StartsWith(Leading(ls[last]), lead + [c]);
    }
  }

  /** Adding a line narrows the margin to the common prefix with its indentation. */
  lemma MarginNarrowed(ls: seq<string>, x: string, lead: string, r: string)
    requires ls != [] && HasText(ls[|ls| - 1]) && lead == Leading(ls[|ls| - 1])
    requires MarginOf(ls[..|ls| - 1], x)
    requires forall c :: !MarginOf(ls[..|ls| - 1], x + [c])
    requires exists i :: 0 <= i < |ls| - 1 && HasText(ls[i])
    requires r == CommonPrefix(x, lead)
    ensures MarginOf(ls, r)
    ensures forall c :: !MarginOf(ls, r + [c])
  {
    var front := ls[..|ls| - 1];
    MarginOfShorter(front, x, r);
    MarginOfSnoc(ls, r);
    forall c
      ensures !MarginOf(ls, r + [c])
    {
      MarginOfSnoc(ls, r + [c]);
      var k :| 0 <= k < |ls| - 1 && HasText(ls[k]);
      assert front[k] == ls[k];
      NarrowedMaximal(front, k, x, lead, r, c);
    }
  }

  /** No longer prefix is common to the earlier lines and the new indentation. */
  lemma NarrowedMaximal(front: seq<string>, k: nat, x: string, lead: string, r: string, c: char)
    requires k < |front| && HasText(front[k]) && MarginOf(front, x)
    requires !MarginOf(front, x + [c])
    requires r == CommonPrefix(x, lead)
    ensures !(MarginOf(front, r + [c]) && StartsWith(lead, r + [c]))
  {
  }

  /** The margin removed from a line, when the line starts with it. */
  function DedentLine(line: string, m: string): (r: string)
    ensures StartsWith(line, m) ==> line == m + r
    ensures !StartsWith(line, m) ==> r == line
  {
    if StartsWith(line, m) then line[|m|..] else line
  }

  /** `dedent` line by line. */
  function DedentLines(ls: seq<string>): (r: seq<string>)
    ensures |r| == |ls|
  {
    var us := UnblankAll(ls);
    match Margin(us)
    case None => us
    case Some(m) => DedentAll(us, m)
  }

  /** Every line of spaces and tabs emptied. */
  function UnblankAll(ls: seq<string>): (us: seq<string>)
    ensures |us| == |ls|
    ensures forall i :: 0 <= i < |ls| ==> us[i] == Unblank(ls[i])
  {
    seq(|ls|, i requires 0 <= i < |ls| => Unblank(ls[i]))
  }

  /** The margin `m` taken off every line that starts with it. */
  function DedentAll(us: seq<string>, m: string): (r: seq<string>)
    ensures |r| == |us|
    ensures forall i :: 0 <= i < |us| ==> r[i] == DedentLine(us[i], m)
  {
    seq(|us|, i requires 0 <= i < |us| => DedentLine(us[i], m))
  }

  /** `textwrap.dedent(text)` */
  function DedentText(text: string): (r: string)
    ensures Lines(r) == DedentLines(Lines(text))
  {
    var ls := DedentLines(Lines(text));
    NoNewlineKept(Lines(text));
    SplitOnJoin(ls, '\n');
    JoinWith(ls, '\n')
  }

  /** Dedenting only removes characters, so it adds no line break. */
  lemma NoNewlineKept(ls: seq<string>)
    requires forall i :: 0 <= i < |ls| ==> '\n' !in ls[i]
    ensures forall i :: 0 <= i < |ls| ==> '\n' !in DedentLines(ls)[i]
  {
    var us := UnblankAll(ls);
    match Margin(us)
    case None =>
    case Some(m) =>
      forall i | 0 <= i < |ls|
        ensures '\n' !in DedentLines(ls)[i]
      {
        assert DedentLines(ls)[i] == DedentLine(us[i], m);
        if StartsWith(us[i], m) {
          assert us[i] == m + DedentLines(ls)[i];
        }
      }
  }

  /** Emptying blank lines changes no margin. */
  lemma {:induction false} SameMargin(ls: seq<string>, us: seq<string>)
    requires |us| == |ls|
    requires forall i :: 0 <= i < |ls| ==> HasText(us[i]) == HasText(ls[i])
    requires forall i :: 0 <= i < |ls| && HasText(ls[i]) ==> us[i] == ls[i]
    ensures Margin(us) == Margin(ls)
  {
    if ls != [] {
      SameMargin(ls[..|ls| - 1], us[..|us| - 1]);
    }
  }

  /** The blank-line step keeps lines of text and their presence. */
  lemma UnblankLines(ls: seq<string>, us: seq<string>)
    requires us == UnblankAll(ls)
    ensures forall i :: 0 <= i < |ls| ==> HasText(us[i]) == HasText(ls[i])
    ensures forall i :: 0 <= i < |ls| && HasText(ls[i]) ==> us[i] == ls[i]
    ensures Margin(us) == Margin(ls)
  {
    forall i | 0 <= i < |ls|
      ensures HasText(us[i]) == HasText(ls[i])
    {
      if !HasText(ls[i]) {
        assert us[i] == "";
      }
    }
    SameMargin(ls, us);
  }

  /** `dedent` empties every line without text. */
  lemma DedentEmptiesBlank(ls: seq<string>)
    ensures forall i :: 0 <= i < |ls| && !HasText(ls[i]) ==> DedentLines(ls)[i] == ""
  {
    var us := UnblankAll(ls);
    match Margin(us)
    case None =>
    case Some(m) =>
      forall i | 0 <= i < |ls| && !HasText(ls[i])
        ensures DedentLines(ls)[i] == ""
      {
        assert us[i] == "";
        assert DedentLines(ls)[i] == DedentLine(us[i], m);
      }
  }

  /** `dedent` takes exactly the margin off every line with text. */
  lemma DedentKeepsText(ls: seq<string>)
    ensures Margin(ls).Some? ==>
      forall i :: 0 <= i < |ls| && HasText(ls[i]) ==> ls[i] == Margin(ls).value + DedentLines(ls)[i]
  {
    var us := UnblankAll(ls);
    UnblankLines(ls, us);
    MarginSpec(us);
    match Margin(us)
    case None =>
    case Some(m) =>
      forall i | 0 <= i < |ls| && HasText(ls[i])
        ensures ls[i] == m + DedentLines(ls)[i]
      {
        TextLineLosesMargin(us, i, m);
        assert DedentLines(ls)[i] == DedentLine(us[i], m);
      }
  }

  /** A line with text starts with the margin itself. */
  lemma TextLineLosesMargin(us: seq<string>, i: nat, m: string)
    requires i < |us| && HasText(us[i]) && MarginOf(us, m)
    ensures StartsWith(us[i], m)
  {
    assert StartsWith(Leading(us[i]), m);
    assert us[i][..|m|] == Leading(us[i])[..|m|];
  }

  /** After `dedent`, no character begins every line with text, when some line has text. */
  lemma DedentLeavesNoMargin(ls: seq<string>)
    requires exists i :: 0 <= i < |ls| && HasText(ls[i])
    ensures forall c :: !MarginOf(DedentLines(ls), [c])
  {
    DedentKeepsText(ls);
    MarginSpec(ls);
    var r := DedentLines(ls);
    var m := Margin(ls).value;
    forall c
      ensures !MarginOf(r, [c])
    {
      NoMarginLeft(ls, r, m, c);
    }
  }

  /** Lines that each lost the maximal margin share no further character. */
  lemma NoMarginLeft(ls: seq<string>, r: seq<string>, m: string, c: char)
    requires |r| == |ls|
    requires forall i :: 0 <= i < |ls| && HasText(ls[i]) ==> ls[i] == m + r[i]
    requires forall i :: 0 <= i < |m| ==> IsMarginChar(m[i])
    requires !MarginOf(ls, m + [c])
    ensures !MarginOf(r, [c])
  {
    if MarginOf(r, [c]) {
      forall i | 0 <= i < |ls| && HasText(ls[i])
        ensures StartsWith(Leading(ls[i]), m + [c])
      {
        DedentedLine(ls[i], m, r[i]);
        assert StartsWith(Leading(r[i]), [c]);
      }
    }
  }

  /** Every line left by `dedent` is empty or has text. */
  lemma DedentLinesTidy(ls: seq<string>)
    ensures forall i :: 0 <= i < |ls| ==> HasText(DedentLines(ls)[i]) || DedentLines(ls)[i] == ""
    ensures (exists i :: 0 <= i < |ls| && HasText(DedentLines(ls)[i])) ==> exists i :: 0 <= i < |ls| && HasText(ls[i])
  {
    DedentEmptiesBlank(ls);
    DedentKeepsText(ls);
    MarginSpec(ls);
    forall i | 0 <= i < |ls| && HasText(ls[i])
      ensures HasText(DedentLines(ls)[i])
    {
      DedentedLine(ls[i], Margin(ls).value, DedentLines(ls)[i]);
    }
  }

  /** Lines that are empty or have text, with no margin, are left alone. */
  lemma DedentNoop(r: seq<string>)
    requires forall i :: 0 <= i < |r| ==> HasText(r[i]) || r[i] == ""
    requires Margin(r).None? || Margin(r) == Some("")
    ensures DedentLines(r) == r
  {
    UnblankTidy(r);
    if Margin(r).Some? {
      DedentAllEmpty(r);
    }
  }

  lemma UnblankTidy(r: seq<string>)
    requires forall i :: 0 <= i < |r| ==> HasText(r[i]) || r[i] == ""
    ensures UnblankAll(r) == r
  {
    forall i | 0 <= i < |r|
      ensures UnblankAll(r)[i] == r[i]
    {
      if !HasText(r[i]) {
        assert r[i] == "";
      }
    }
  }

  lemma DedentAllEmpty(us: seq<string>)
    ensures DedentAll(us, "") == us
  {
    forall i | 0 <= i < |us|
      ensures DedentAll(us, "")[i] == us[i]
    {
      assert StartsWith(us[i], "");
    }
  }

  /** Dedenting a second time changes nothing. */
  lemma DedentIdempotent(ls: seq<string>)
    ensures DedentLines(DedentLines(ls)) == DedentLines(ls)
  {
    DedentLinesTidy(ls);
    DedentedMarginEmpty(ls);
    DedentNoop(DedentLines(ls));
  }

  /** Dedented lines have no margin left, or an empty one. */
  lemma DedentedMarginEmpty(ls: seq<string>)
    ensures Margin(DedentLines(ls)).None? || Margin(DedentLines(ls)) == Some("")
  {
    var r := DedentLines(ls);
    MarginSpec(r);
    if Margin(r).Some? && Margin(r).value != "" {
      var m' := Margin(r).value;
      MarginOfShorter(r, m', [m'[0]]);
      DedentLinesTidy(ls);
      DedentLeavesNoMargin(ls);
      assert false;
    }
  }

  /** A line of text that lost the margin keeps the rest of its indentation, and its text. */
  lemma {:induction false} DedentedLine(line: string, m: string, rest: string)
    requires line == m + rest && HasText(line)
    requires forall i :: 0 <= i < |m| ==> IsMarginChar(m[i])
    ensures Leading(line) == m + Leading(rest)
    ensures HasText(rest)
    decreases |m|
  {
    if m != [] {
      assert line[1..] == m[1..] + rest;
      DedentedLine(line[1..], m[1..], rest);
    } else {
      assert line == rest;
    }
  }
}
