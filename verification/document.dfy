/**
 * The text-scanning declaration locator. The regular-expression matches for
 * declarations, comments and strings are inputs: each is a `(start, end)`
 * range of character offsets into the source, in the order the matches
 * occur.
 */
module Document {
  import opened Wrappers
  import opened Text
  import opened Exc

  datatype Range = Range(start: nat, end: nat)

  /** `min(rng)` and `max(rng)` of a `(start, end)` tuple. */
  function Lo(r: Range): nat { if r.start <= r.end then r.start else r.end }
  function Hi(r: Range): nat { if r.start <= r.end then r.end else r.start }

  /**
   * A document: its source, the stored cursor position, and the matches of
   * the declaration pattern, the comment pattern and the string pattern.
   */
  datatype Doc = Doc(source: string, position: int, declMatches: seq<Range>, commentMatches: seq<Range>, stringMatches: seq<Range>)

  // ---------------------------------------------------------------------------
  // Excluding declarations inside strings and comments

  /** `overlap`: the length of the common part of two intervals, or 0. */
  function Overlap(min1: int, max1: int, min2: int, max2: int): (r: int)
    ensures r >= 0
    ensures r > 0 <==> max(min1, min2) < min(max1, max2)
    ensures r <= max1 - min1 || r <= 0
  {
    var common := min(max1, max2) - max(min1, min2);
    if 0 >= common then 0 else common
  }

  function min(a: int, b: int): int { if a <= b then a else b }
  function max(a: int, b: int): int { if a >= b then a else b }

  /** Intervals that meet at most at an end point do not overlap. */
  lemma DisjointNoOverlap(min1: int, max1: int, min2: int, max2: int)
    requires min1 <= max1 && min2 <= max2 && (max1 <= min2 || max2 <= min1)
    ensures Overlap(min1, max1, min2, max2) == 0
  {
  }

  lemma OverlapSymmetric(min1: int, max1: int, min2: int, max2: int)
    ensures Overlap(min1, max1, min2, max2) == Overlap(min2, max2, min1, max1)
  {
  }

  /** The exclusion range overlaps the declaration without lying strictly inside it. */
  predicate Excludes(exc: Range, rng: Range) {
    Overlap(Lo(rng), Hi(rng), Lo(exc), Hi(exc)) > 0 && !(Hi(rng) > Hi(exc) && Lo(rng) < Lo(exc))
  }

  /**
   * The inner loop of `find_all_declarations`: the exclusions are checked in
   * turn, one strictly inside the declaration (a default value's string) is
   * passed over, and the first other overlapping one drops the declaration.
   */
  function Survives(rng: Range, exclusions: seq<Range>): (r: bool)
    ensures r <==> forall i :: 0 <= i < |exclusions| ==> !Excludes(exclusions[i], rng)
  {
    if exclusions == [] then true
    else if Excludes(exclusions[0], rng) then false
    else
      assert forall i :: 1 <= i < |exclusions| ==> exclusions[i] == exclusions[1..][i - 1];
      Survives(rng, exclusions[1..])
  }

  /** The outer loop: the surviving declarations, in match order. */
  function KeepSurvivors(decls: seq<Range>, exclusions: seq<Range>): (r: seq<Range>)
    ensures forall i :: 0 <= i < |r| ==> r[i] in decls && Survives(r[i], exclusions)
    ensures forall i :: 0 <= i < |decls| && Survives(decls[i], exclusions) ==> decls[i] in r
  {
    if decls == [] then []
    else
      var rest := KeepSurvivors(decls[1..], exclusions);
      assert forall i :: 1 <= i < |decls| ==> decls[i] == decls[1..][i - 1];
      if Survives(decls[0], exclusions) then [decls[0]] + rest else rest
  }

  /** `xs` is `ys` with some elements left out, the rest in the same order. */
  predicate IsSubsequence(xs: seq<Range>, ys: seq<Range>)
    decreases |ys|
  {
    if ys == [] then xs == []
    else (xs != [] && xs[0] == ys[0] && IsSubsequence(xs[1..], ys[1..])) || IsSubsequence(xs, ys[1..])
  }

  lemma {:induction false} KeepSurvivorsInOrder(decls: seq<Range>, exclusions: seq<Range>)
    ensures IsSubsequence(KeepSurvivors(decls, exclusions), decls)
  {
    if decls != [] {
      KeepSurvivorsInOrder(decls[1..], exclusions);
      var rest := KeepSurvivors(decls[1..], exclusions);
      if Survives(decls[0], exclusions) {
        assert ([decls[0]] + rest)[1..] == rest;
      }
    }
  }

  /**
   * `find_all_declarations`: the declaration matches, in order, without
   * those a comment or a string overlaps (a string strictly inside a
   * declaration does not count).
   */
  function FindAllDeclarations(d: Doc): (r: seq<Range>)
    ensures IsSubsequence(r, d.declMatches)
    ensures forall i :: 0 <= i < |r| ==> Survives(r[i], d.commentMatches + d.stringMatches)
    ensures forall i :: 0 <= i < |d.declMatches| && Survives(d.declMatches[i], d.commentMatches + d.stringMatches) ==>
      d.declMatches[i] in r
  {
    KeepSurvivorsInOrder(d.declMatches, d.commentMatches + d.stringMatches);
    KeepSurvivors(d.declMatches, d.commentMatches + d.stringMatches)
  }

  // ---------------------------------------------------------------------------
  // The declarations around the cursor

  /** `position if position else self.position`: a missing or zero position means the stored one. */
  function Resolve(position: Option<int>, stored: int): (p: int)
    ensures position.Some? && position.value != 0 ==> p == position.value
    ensures (position.None? || position.value == 0) ==> p == stored
  {
    if position.Some? && position.value != 0 then position.value else stored
  }

  /** The index of the last range that starts before `p`. */
  function LastBefore(ds: seq<Range>, p: int): (r: Option<nat>)
    ensures r.Some? ==> (r.value < |ds| && ds[r.value].start < p
      && forall j :: r.value < j < |ds| ==> ds[j].start >= p)
    ensures r.None? ==> forall j :: 0 <= j < |ds| ==> ds[j].start >= p
  {
    if ds == [] then None
    else if ds[|ds| - 1].start < p then Some(|ds| - 1)
    else LastBefore(ds[..|ds| - 1], p)
  }

  /** The index of the first range that starts after `p`. */
  function FirstAfter(ds: seq<Range>, p: int): (r: Option<nat>)
    ensures r.Some? ==> (r.value < |ds| && ds[r.value].start > p
      && forall j :: 0 <= j < r.value ==> ds[j].start <= p)
    ensures r.None? ==> forall j :: 0 <= j < |ds| ==> ds[j].start <= p
  {
    if ds == [] then None
    else if ds[0].start > p then Some(0)
    else
      match FirstAfter(ds[1..], p)
      case None => None
      case Some(i) => Some(i + 1)
  }

  /**
   * `find_preceeding_declaration`: scanning the kept declarations from the
   * end, the first one starting before the position; so none after it in
   * the list starts before the position.
   */
  function FindPreceding(d: Doc, position: Option<int>): (r: Option<Range>)
    ensures var ds, p := FindAllDeclarations(d), Resolve(position, d.position);
      (r.Some? <==> exists i :: 0 <= i < |ds| && ds[i].start < p)
      && (r.Some? ==> exists i :: (0 <= i < |ds| && r.value == ds[i] && ds[i].start < p
                                   && forall j :: i < j < |ds| ==> ds[j].start >= p))
  {
    var ds, p := FindAllDeclarations(d), Resolve(position, d.position);
    match LastBefore(ds, p)
    case None => None
    case Some(i) => Some(ds[i])
  }

  /**
   * `find_next_declaration`: the first kept declaration starting after the
   * position; none before it in the list starts after the position.
   */
  function FindNext(d: Doc, position: Option<int>): (r: Option<Range>)
    ensures var ds, p := FindAllDeclarations(d), Resolve(position, d.position);
      (r.Some? <==> exists i :: 0 <= i < |ds| && ds[i].start > p)
      && (r.Some? ==> exists i :: (0 <= i < |ds| && r.value == ds[i] && ds[i].start > p
                                   && forall j :: 0 <= j < i ==> ds[j].start <= p))
  {
    var ds, p := FindAllDeclarations(d), Resolve(position, d.position);
    match FirstAfter(ds, p)
    case None => None
    case Some(i) => Some(ds[i])
  }

  /** `source[start:end]`: out-of-range bounds are clamped, and a reversed range is empty. */
  function GetRange(d: Doc, start: nat, end: nat): (r: string)
    ensures start <= end <= |d.source| ==> r == d.source[start..end]
    ensures |r| <= |d.source|
  {
    var lo := if start <= |d.source| then start else |d.source|;
    var hi := if end <= |d.source| then end else |d.source|;
    if lo < hi then d.source[lo..hi] else ""
  }

  /** The length of the leading whitespace. */
  function Indentation(text: string): (n: nat)
    ensures n <= |text| && AllSpace(text[..n])
    ensures n < |text| ==> !IsSpace(text[n])
  {
    |text| - |LStrip(text)|
  }

  // ---------------------------------------------------------------------------
  // The block around the cursor

  /**
   * `get_block` as written. The loop asks for the next declaration after
   * the cursor, which never changes, so it either stops on its first turn or
   * never stops (`Diverges`). The next declaration's indentation is measured
   * as `len(next_decl)`, the length of the `(start, end)` pair, minus the
   * length of its stripped text.
   */
  function GetBlockAsWritten(d: Doc, position: Option<int>): (r: Result<(int, int), Failure>)
    ensures r.Err? ==> r.error == Diverges
    ensures FindPreceding(d, Some(Resolve(position, d.position))).None? ==>
      r == Ok((Resolve(position, d.position), Resolve(position, d.position)))
    ensures r.Ok? && FindPreceding(d, Some(Resolve(position, d.position))).Some? ==>
      r.value.0 == FindPreceding(d, Some(Resolve(position, d.position))).value.start
  {
    var p := Resolve(position, d.position);
    match FindPreceding(d, Some(p))
    case None => Ok((p, p))
    case Some(decl) =>
      var indentation := Indentation(GetRange(d, decl.start, decl.end));
      match FindNext(d, Some(p))
      case None => Ok((decl.start, |d.source|))
      case Some(next) =>
        var nextIndentation := 2 - |LStrip(GetRange(d, next.start, next.end))|;
        if nextIndentation <= indentation then Ok((decl.start, next.start)) else Err(Diverges)
  }

  /**
   * The as-written block stops at the next declaration whatever its depth:
   * any declaration whose text holds at least two characters after its
   * indentation passes the indentation test.
   */
  lemma AsWrittenStopsAtNext(d: Doc, position: Option<int>)
    requires FindPreceding(d, Some(Resolve(position, d.position))).Some?
    requires FindNext(d, Some(Resolve(position, d.position))).Some?
    requires var next := FindNext(d, Some(Resolve(position, d.position))).value;
      |LStrip(GetRange(d, next.start, next.end))| >= 2
    ensures GetBlockAsWritten(d, position) == Ok((FindPreceding(d, Some(Resolve(position, d.position))).value.start,
      FindNext(d, Some(Resolve(position, d.position))).value.start))
  {
  }

  /** The declaration is indented deeper than `level`. */
  predicate Deeper(d: Doc, decl: Range, level: nat) {
    Indentation(GetRange(d, decl.start, decl.end)) > level
  }

  /**
   * `e` ends the block: it is the start of the first declaration after `p`
   * that is not deeper than `level`, or the end of the source when every
   * declaration after `p` is deeper.
   */
  predicate EndsBlock(d: Doc, ds: seq<Range>, p: int, level: nat, e: int) {
    || (e == |d.source| && forall j :: 0 <= j < |ds| && ds[j].start > p ==> Deeper(d, ds[j], level))
    || (exists i :: 0 <= i < |ds| && e == ds[i].start && ds[i].start > p && !Deeper(d, ds[i], level)
          && forall j :: 0 <= j < i && ds[j].start > p ==> Deeper(d, ds[j], level))
  }

  /** The index of the first element, at `from` or later, that `stop` holds of. */
  function FirstFrom<T>(xs: seq<T>, from: nat, stop: T -> bool): (r: Option<nat>)
    requires from <= |xs|
    ensures r.Some? ==> from <= r.value < |xs| && stop(xs[r.value])
    ensures forall j :: from <= j < (if r.Some? then r.value else |xs|) ==> !stop(xs[j])
    decreases |xs| - from
  {
    if from == |xs| then None
    else if stop(xs[from]) then Some(from)
    else FirstFrom(xs, from + 1, stop)
  }

  /** The index of the first range, at `from` or later, that starts after `p` and is not deeper than `level`. */
  function NextAtLevel(d: Doc, ds: seq<Range>, from: nat, p: int, level: nat): (r: Option<nat>)
    requires from <= |ds|
    ensures r.Some? ==> (from <= r.value < |ds| && ds[r.value].start > p && !Deeper(d, ds[r.value], level))
    ensures forall j :: from <= j < (if r.Some? then r.value else |ds|) && ds[j].start > p ==> Deeper(d, ds[j], level)
  {
    FirstFrom(ds, from, (x: Range) => x.start > p && !Deeper(d, x, level))
  }

  /** Where the block ends. */
  function BlockEnd(d: Doc, ds: seq<Range>, p: int, level: nat): (e: int)
    ensures EndsBlock(d, ds, p, level, e)
  {
    match NextAtLevel(d, ds, 0, p, level)
    case None => |d.source|
    case Some(i) => ds[i].start
  }

  /**
   * `get_block` as its documentation describes it: from the declaration
   * before the cursor to the next declaration at the same or an outer
   * level, or to the end of the source; every declaration in between is
   * nested deeper.
   */
  function GetBlock(d: Doc, position: Option<int>): (r: (int, int))
    ensures var p := Resolve(position, d.position);
      FindPreceding(d, Some(p)).None? ==> r == (p, p)
    ensures var p := Resolve(position, d.position);
      var decl := FindPreceding(d, Some(p));
      decl.Some? ==> (r.0 == decl.value.start
        && EndsBlock(d, FindAllDeclarations(d), p, Indentation(GetRange(d, decl.value.start, decl.value.end)), r.1))
  {
    var p := Resolve(position, d.position);
    match FindPreceding(d, Some(p))
    case None => (p, p)
    case Some(decl) =>
      (decl.start, BlockEnd(d, FindAllDeclarations(d), p, Indentation(GetRange(d, decl.start, decl.end))))
  }

  // ---------------------------------------------------------------------------
  // A class with one method, the cursor on the class line

  const ClassWithMethod := "class A:\n    def f(self):\n        pass\n"

  function ClassWithMethodDoc(): Doc {
    Doc(ClassWithMethod, 5, [Range(0, 8), Range(9, 25)], [], [])
  }

  lemma ClassWithMethodDecls()
    ensures FindAllDeclarations(ClassWithMethodDoc()) == [Range(0, 8), Range(9, 25)]
  {
    assert Survives(Range(0, 8), []) && Survives(Range(9, 25), []);
    assert [Range(0, 8), Range(9, 25)][1..] == [Range(9, 25)];
  }

  lemma ClassWithMethodAround()
    ensures FindPreceding(ClassWithMethodDoc(), Some(5)) == Some(Range(0, 8))
    ensures FindNext(ClassWithMethodDoc(), Some(5)) == Some(Range(9, 25))
  {
    ClassWithMethodDecls();
    var ds := [Range(0, 8), Range(9, 25)];
    assert ds[..1] == [Range(0, 8)];
    assert LastBefore(ds, 5) == Some(0);
    assert ds[1..] == [Range(9, 25)];
    assert FirstAfter(ds, 5) == Some(1);
  }

  lemma ClassLineFlush()
    ensures Indentation(GetRange(ClassWithMethodDoc(), 0, 8)) == 0
  {
    assert GetRange(ClassWithMethodDoc(), 0, 8) == "class A:";
  }

  lemma MiddleSlice(a: string, b: string, c: string)
    ensures (a + b + c)[|a|..|a| + |b|] == b
  {
  }

  lemma ClassWithMethodParts()
    ensures ClassWithMethod == "class A:\n" + ("    " + "def f(self):") + "\n        pass\n"
  {
  }

  lemma MethodLine()
    ensures GetRange(ClassWithMethodDoc(), 9, 25) == "    " + "def f(self):"
  {
    ClassWithMethodParts();
    MiddleSlice("class A:\n", "    " + "def f(self):", "\n        pass\n");
  }

  lemma MethodLineIndented()
    ensures LStrip(GetRange(ClassWithMethodDoc(), 9, 25)) == "def f(self):"
    ensures Indentation(GetRange(ClassWithMethodDoc(), 9, 25)) == 4
  {
    MethodLine();
    LStripAfterSpace("    ", "def f(self):");
  }

  /**
   * As written, the class's block stops where its own method starts; the
   * block the documentation describes runs to the end of the source,
   * because the method is nested deeper than the class.
   */
  lemma BlockOfClassWithMethod()
    ensures GetBlockAsWritten(ClassWithMethodDoc(), None) == Ok((0, 9))
    ensures GetBlock(ClassWithMethodDoc(), None) == (0, 39)
  {
    ClassWithMethodAsWritten();
    ClassWithMethodBlock();
  }

  lemma ClassWithMethodAsWritten()
    ensures GetBlockAsWritten(ClassWithMethodDoc(), None) == Ok((0, 9))
  {
    ClassWithMethodAround();
    MethodLineIndented();
    AsWrittenStopsAtNext(ClassWithMethodDoc(), None);
  }

  lemma ClassWithMethodBlock()
    ensures GetBlock(ClassWithMethodDoc(), None) == (0, 39)
  {
    var d := ClassWithMethodDoc();
    ClassWithMethodDecls();
    ClassWithMethodAround();
    ClassLineFlush();
    MethodLineIndented();
    NestedBlockRunsToEnd(d, Range(0, 8), Range(9, 25), 0);
    assert |ClassWithMethod| == 39;
  }

  /**
   * With two declarations, the cursor inside the first and the second nested
   * deeper, the block starts at the first and runs to the end of the source.
   */
  lemma NestedBlockRunsToEnd(d: Doc, a: Range, b: Range, level: nat)
    requires FindAllDeclarations(d) == [a, b]
    requires FindPreceding(d, Some(d.position)) == Some(a)
    requires d.position < b.start
    requires Indentation(GetRange(d, a.start, a.end)) == level && Deeper(d, b, level)
    ensures GetBlock(d, None) == (a.start, |d.source|)
  {
  }
}
