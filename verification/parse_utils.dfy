/**
 * The text-scanning extractor: a function's parameters and return type read
 * off its declaration line, the returns, yields and raises read off its
 * body, and attribute assignments read off a class or a module, each with a
 * pattern applied line by line.
 */
module ParseUtils {
  import opened Wrappers
  import opened Text
  import opened Exc
  import opened Scan
  import opened Dedent

  // ---------------------------------------------------------------------------
  // The text between the brackets of a declaration

  /** `\((.*)\)` can match from index `i`: an opening bracket with a closing one later on its line. */
  predicate OpensAt(s: string, i: int) {
    0 <= i < |s| && s[i] == '(' && ')' in UpToNewline(s[i + 1..])
  }

  /** The first index at or after `from` where the bracket pattern matches. */
  function FirstOpening(s: string, from: nat): (r: Option<nat>)
    requires from <= |s|
    ensures r.Some? ==> from <= r.value < |s| && OpensAt(s, r.value)
    ensures forall j :: from <= j < (if r.Some? then r.value else |s|) ==> !OpensAt(s, j)
    decreases |s| - from
  {
    if from == |s| then None
    else if OpensAt(s, from) then Some(from)
    else FirstOpening(s, from + 1)
  }

  /** Text that starts a line's worth of text ends where that line does. */
  lemma UpToNewlineAfter(s: string, n: nat)
    requires n <= |UpToNewline(s)|
    ensures UpToNewline(s[n..]) == UpToNewline(s)[n..]
  {
    var u, v := UpToNewline(s), UpToNewline(s[n..]);
    var w := u[n..];
    assert w == s[n..][..|w|];
    assert |v| == |w|;
  }

  /** No earlier index starts a match: `re.search` reports the leftmost one. */
  predicate FirstOpensAt(s: string, i: int) {
    OpensAt(s, i) && forall j :: 0 <= j < i ==> !OpensAt(s, j)
  }

  /**
   * `v` is what the group captures from index `i`: `"(" + v + ")"` stands
   * there, `v` stays on the line, and no closing bracket follows on it, so
   * the greedy `.*` could not have taken more.
   */
  predicate GroupAt(s: string, i: int, v: string) {
    && 0 <= i
    && i + |v| + 2 <= |s|
    && s[i..i + |v| + 2] == "(" + v + ")"
    && '\n' !in v
    && ')' !in UpToNewline(s[i + |v| + 2..])
  }

  /**
   * `re.search(r"\((.*)\)", declaration).group(1)`: the text after the first
   * opening bracket that has a closing bracket later on its line, up to the
   * last closing bracket on that line. With no match, `.group` is read off
   * `None` and raises.
   */
  function ParenContents(decl: string): (r: Result<string, Failure>)
    ensures r.Ok? <==> exists i :: OpensAt(decl, i)
    ensures r.Err? ==> r.error == AttributeFault("group")
    ensures r.Ok? ==> exists i :: FirstOpensAt(decl, i) && GroupAt(decl, i, r.value)
  {
    match FirstOpening(decl, 0)
    case None => Err(AttributeFault("group"))
    case Some(i) =>
      var line := UpToNewline(decl[i + 1..]);
      var k := LastIndexOf(line, ')').value;
      BracketedText(decl, i, k);
      assert FirstOpensAt(decl, i);
      Ok(line[..k])
  }

  /** The bracket at `i` opens a match whose last closing bracket on the line is `k` characters after it. */
  predicate ClosesAt(decl: string, i: nat, k: nat) {
    OpensAt(decl, i) && LastIndexOf(UpToNewline(decl[i + 1..]), ')') == Some(k)
  }

  /** The text matched between the brackets from index `i`, when the last closing bracket of the line is at `k`. */
  lemma BracketedText(decl: string, i: nat, k: nat)
    requires ClosesAt(decl, i, k)
    ensures GroupAt(decl, i, UpToNewline(decl[i + 1..])[..k])
  {
    var line := UpToNewline(decl[i + 1..]);
    var v := line[..k];
    BracketedSpan(decl, i, k);
    NothingClosesAfter(decl, i, k);
    NoNewlineInPrefix(line, k);
    GroupOfParts(decl, i, k, v);
  }

  lemma GroupOfParts(s: string, i: nat, k: nat, v: string)
    requires |v| == k && i + k + 2 <= |s| && s[i..i + k + 2] == "(" + v + ")"
    requires '\n' !in v && ')' !in UpToNewline(s[i + k + 2..])
    ensures GroupAt(s, i, v)
  {
  }

  lemma NoNewlineInPrefix(line: string, k: nat)
    requires '\n' !in line && k <= |line|
    ensures '\n' !in line[..k]
  {
    assert forall j :: 0 <= j < k ==> line[..k][j] == line[j];
  }

  lemma BracketedSpan(decl: string, i: nat, k: nat)
    requires ClosesAt(decl, i, k)
    ensures i + k + 2 <= |decl| && decl[i..i + k + 2] == "(" + UpToNewline(decl[i + 1..])[..k] + ")"
  {
    var line := UpToNewline(decl[i + 1..]);
    var v := line[..k];
    assert decl[i + 1..][..k + 1] == line[..k + 1];
    assert line[..k + 1] == v + ")";
    assert decl[i..i + k + 2] == [decl[i]] + decl[i + 1..][..k + 1];
  }

  lemma NothingClosesAfter(decl: string, i: nat, k: nat)
    requires ClosesAt(decl, i, k)
    ensures i + k + 2 <= |decl| && ')' !in UpToNewline(decl[i + k + 2..])
  {
    UpToNewlineAfter(decl[i + 1..], k + 1);
    assert decl[i + 1..][k + 1..] == decl[i + k + 2..];
  }

  // ---------------------------------------------------------------------------
  // Splitting the parameter list at commas outside brackets

  predicate IsOpening(c: char) {
    c == '(' || c == '{' || c == '['
  }

  predicate IsClosing(c: char) {
    c == ')' || c == '}' || c == ']'
  }

  /**
   * The lookahead `[^({[]*[]})]` from index `j` of `s`: some closing bracket
   * comes before any opening one.
   */
  predicate ClosesFirst(s: string, j: nat)
    decreases |s| - j
  {
    j < |s| && !IsOpening(s[j]) && (IsClosing(s[j]) || ClosesFirst(s, j + 1))
  }

  /** The recursive reading of the lookahead agrees with the pattern. */
  lemma {:induction false} ClosesFirstMeaning(s: string, j: nat)
    ensures ClosesFirst(s, j) <==>
      exists q :: j <= q < |s| && IsClosing(s[q]) && forall k :: j <= k < q ==> !IsOpening(s[k])
    decreases |s| - j
  {
    if j < |s| && !IsOpening(s[j]) && !IsClosing(s[j]) {
      ClosesFirstMeaning(s, j + 1);
      if ClosesFirst(s, j + 1) {
        var q :| j + 1 <= q < |s| && IsClosing(s[q]) && forall k :: j + 1 <= k < q ==> !IsOpening(s[k]);
        assert forall k :: j <= k < q ==> !IsOpening(s[k]);
      }
    }
  }

  /** The lookahead reads the same in a suffix as in the whole text. */
  lemma {:induction false} ClosesFirstShift(s: string, n: nat, j: nat)
    requires n <= |s|
    ensures ClosesFirst(s[n..], j) <==> ClosesFirst(s, n + j)
    decreases |s| - n - j
  {
    if j < |s| - n {
      ClosesFirstShift(s, n, j + 1);
    }
  }

  /** `,(?![^({[]*[]})])` matches at index `i`. */
  predicate SplitsAt(s: string, i: int) {
    0 <= i < |s| && s[i] == ',' && !ClosesFirst(s, i + 1)
  }

  /** Whether a comma splits depends only on the text after it. */
  lemma SplitsAtShift(s: string, n: nat, k: int)
    requires n <= |s| && 0 <= k
    ensures SplitsAt(s[n..], k) <==> SplitsAt(s, n + k)
  {
    ClosesFirstShift(s, n, k + 1);
  }

  function FirstSplit(s: string, from: nat): (r: Option<nat>)
    requires from <= |s|
    ensures r.Some? ==> from <= r.value < |s| && SplitsAt(s, r.value)
    ensures forall j :: from <= j < (if r.Some? then r.value else |s|) ==> !SplitsAt(s, j)
    decreases |s| - from
  {
    if from == |s| then None
    else if SplitsAt(s, from) then Some(from)
    else FirstSplit(s, from + 1)
  }

  /** The length of the pieces joined, each followed by its comma. */
  function Width(pieces: seq<string>): nat {
    if pieces == [] then 0 else Width(pieces[..|pieces| - 1]) + |pieces[|pieces| - 1]| + 1
  }

  /** Where piece `m` starts in the joined text. */
  function Offset(pieces: seq<string>, m: nat): nat
    requires m <= |pieces|
  {
    Width(pieces[..m])
  }

  lemma {:induction false} WidthCons(p: string, rest: seq<string>)
    ensures Width([p] + rest) == |p| + 1 + Width(rest)
    decreases |rest|
  {
    if rest != [] {
      var front := rest[..|rest| - 1];
      assert ([p] + rest)[..|rest|] == [p] + front;
      WidthCons(p, front);
    }
  }

  lemma OffsetCons(p: string, rest: seq<string>, m: nat)
    requires m <= |rest|
    ensures Offset([p] + rest, m + 1) == |p| + 1 + Offset(rest, m)
  {
    assert ([p] + rest)[..m + 1] == [p] + rest[..m];
    WidthCons(p, rest[..m]);
  }

  /** No comma splits in the `len` characters from `from`. */
  predicate NoSplitIn(s: string, from: int, len: int) {
    forall k :: from <= k < from + len ==> !SplitsAt(s, k)
  }

  /**
   * `r` is `s` cut at exactly its splitting commas: joined with commas the
   * pieces give `s` back, no piece holds a splitting comma, and a splitting
   * comma ends every piece but the last.
   */
  predicate CutAtSplits(s: string, r: seq<string>) {
    && |r| >= 1
    && JoinWith(r, ',') == s
    && (forall m :: 0 <= m < |r| ==> Offset(r, m) + |r[m]| <= |s| && NoSplitIn(s, Offset(r, m), |r[m]|))
    && (forall m :: 0 <= m < |r| - 1 ==> SplitsAt(s, Offset(r, m) + |r[m]|))
  }

  /** `param_sep.split(params_str)`: the text cut at the commas the pattern matches. */
  function SplitParams(s: string): (r: seq<string>)
    ensures CutAtSplits(s, r)
    decreases |s|
  {
    match FirstSplit(s, 0)
    case None =>
      assert NoSplitIn(s, 0, |s|);
      [s]
    case Some(i) =>
      var rest := SplitParams(s[i + 1..]);
      SplitParamsCons(s, i, rest);
      [s[..i]] + rest
  }

  /** The pieces after the first splitting comma sit past it. */
  lemma ShiftedOffsets(i: nat, p: string, rest: seq<string>, r: seq<string>)
    requires |p| == i && r == [p] + rest
    ensures forall m :: 1 <= m < |r| ==> Offset(r, m) == i + 1 + Offset(rest, m - 1) && r[m] == rest[m - 1]
  {
    forall m | 1 <= m < |r|
      ensures Offset(r, m) == i + 1 + Offset(rest, m - 1)
    {
      OffsetCons(p, rest, m - 1);
    }
  }

  /** A stretch without splitting commas in a suffix is one in the whole text. */
  lemma NoSplitShift(s: string, n: nat, from: nat, len: int)
    requires n <= |s| && NoSplitIn(s[n..], from, len)
    ensures NoSplitIn(s, n + from, len)
  {
    forall k | n + from <= k < n + from + len
      ensures !SplitsAt(s, k)
    {
      SplitsAtShift(s, n, k - n);
    }
  }

  /** Cutting at the first splitting comma and then cutting the rest cuts the whole text. */
  lemma SplitParamsCons(s: string, i: nat, rest: seq<string>)
    requires i < |s| && SplitsAt(s, i) && NoSplitIn(s, 0, i)
    requires CutAtSplits(s[i + 1..], rest)
    ensures CutAtSplits(s, [s[..i]] + rest)
  {
    var r := [s[..i]] + rest;
    assert s == s[..i] + [','] + s[i + 1..];
    JoinWithCons(s[..i], rest, ',');
    assert JoinWith(rest, ',') == s[i + 1..];
    assert JoinWith(r, ',') == s;
    ShiftedOffsets(i, s[..i], rest, r);
    PiecesShift(s, i, rest, r);
    SplitsShift(s, i, rest, r);
    assert |r| >= 1;
    assert forall m :: 0 <= m < |r| ==> Offset(r, m) + |r[m]| <= |s| && NoSplitIn(s, Offset(r, m), |r[m]|);
    assert forall m :: 0 <= m < |r| - 1 ==> SplitsAt(s, Offset(r, m) + |r[m]|);
    assert CutAtSplits(s, r);
  }

  lemma PiecesShift(s: string, i: nat, rest: seq<string>, r: seq<string>)
    requires i < |s| && NoSplitIn(s, 0, i)
    requires CutAtSplits(s[i + 1..], rest) && r == [s[..i]] + rest
    requires forall m :: 1 <= m < |r| ==> Offset(r, m) == i + 1 + Offset(rest, m - 1) && r[m] == rest[m - 1]
    ensures forall m :: 0 <= m < |r| ==> Offset(r, m) + |r[m]| <= |s| && NoSplitIn(s, Offset(r, m), |r[m]|)
  {
    forall m | 1 <= m < |r|
      ensures Offset(r, m) + |r[m]| <= |s| && NoSplitIn(s, Offset(r, m), |r[m]|)
    {
      NoSplitShift(s, i + 1, Offset(rest, m - 1), |rest[m - 1]|);
    }
  }

  lemma SplitsShift(s: string, i: nat, rest: seq<string>, r: seq<string>)
    requires i < |s| && SplitsAt(s, i) && r == [s[..i]] + rest
    requires forall m :: 0 <= m < |rest| - 1 ==> SplitsAt(s[i + 1..], Offset(rest, m) + |rest[m]|)
    ensures forall m :: 0 <= m < |r| - 1 ==> SplitsAt(s, Offset(r, m) + |r[m]|)
  {
    forall m | 1 <= m < |r| - 1
      ensures SplitsAt(s, Offset(r, m) + |r[m]|)
    {
      SplitShiftOne(s, i, rest, m - 1);
    }
  }

  lemma SplitShiftOne(s: string, i: nat, rest: seq<string>, m: nat)
    requires i < |s| && m < |rest| && SplitsAt(s[i + 1..], Offset(rest, m) + |rest[m]|)
    ensures SplitsAt(s, Offset([s[..i]] + rest, m + 1) + |rest[m]|)
  {
    OffsetCons(s[..i], rest, m);
    SplitsAtShift(s, i + 1, Offset(rest, m) + |rest[m]|);
  }

  /** Without brackets every comma splits: the split is plain `str.split(",")`. */
  lemma {:induction false} SplitParamsWithoutBrackets(s: string)
    requires forall i :: 0 <= i < |s| ==> !IsOpening(s[i]) && !IsClosing(s[i])
    ensures SplitParams(s) == SplitOn(s, ',')
    decreases |s|
  {
    assert forall n: nat :: !ClosesFirst(s, n) by {
      forall n: nat
        ensures !ClosesFirst(s, n)
      {
        ClosesFirstMeaning(s, n);
      }
    }
    match IndexOf(s, ',')
    case None =>
      assert FirstSplit(s, 0).None?;
    case Some(i) =>
      assert SplitsAt(s, i);
      assert FirstSplit(s, 0) == Some(i);
      SplitParamsWithoutBrackets(s[i + 1..]);
  }

  /** `x.strip() != "*" and x.strip()`: a piece names a parameter. */
  predicate Kept(piece: string) {
    Strip(piece) != "" && Strip(piece) != "*"
  }

  /** The pieces that name parameters, in order: empty pieces and the bare `*` go. */
  function KeepParams(pieces: seq<string>): (r: seq<string>)
    ensures forall i :: 0 <= i < |r| ==> Kept(r[i])
    ensures forall x :: x in r <==> x in pieces && Kept(x)
  {
    if pieces == [] then []
    else
      assert pieces == [pieces[0]] + pieces[1..];
      (if Kept(pieces[0]) then [pieces[0]] else []) + KeepParams(pieces[1..])
  }

  /** Filtering runs piece by piece: it distributes over concatenation. */
  lemma {:induction false} KeepParamsAppend(a: seq<string>, b: seq<string>)
    ensures KeepParams(a + b) == KeepParams(a) + KeepParams(b)
  {
    if a != [] {
      assert (a + b)[1..] == a[1..] + b;
      KeepParamsAppend(a[1..], b);
    } else {
      assert a + b == b;
    }
  }

  // ---------------------------------------------------------------------------
  // One parameter

  /** What the declaration says of a parameter: its default text and its type, each optional. */
  datatype ParamEntry = ParamEntry(default: Option<string>, typeName: Option<string>)

  /**
   * What `type(ast.literal_eval(text)).__name__` gives: the name of the
   * literal's type, a `ValueError` (a well-formed expression that is not a
   * literal), or some other exception, such as the `SyntaxError` raised on
   * text that does not parse.
   */
  datatype Evaluation = Evaluated(typeName: string) | Malformed | Raised(exception: string)

  /**
   * The type of a default. A literal gives its type name. A `ValueError` is
   * swallowed and leaves the type unknown, unless the default is braced:
   * then the set fallback calls `itertools.izip`, which Python 3 does not
   * have. Any other exception escapes.
   */
  function DefaultType(default: string, eval: string -> Evaluation): (r: Result<Option<string>, Failure>)
    ensures r.Ok? <==> eval(default).Evaluated? || (eval(default).Malformed? && !(StartsWith(default, "{") && EndsWith(default, "}")))
    ensures r.Ok? ==> (r.value.Some? <==> eval(default).Evaluated?)
    ensures r.Ok? && r.value.Some? ==> r.value.value == eval(default).typeName
    ensures r.Err? && eval(default).Raised? ==> r.error == LiteralFault(eval(default).exception)
    ensures r.Err? && eval(default).Malformed? ==> r.error == AttributeFault("izip")
  {
    match eval(default)
    case Evaluated(name) => Ok(Some(name))
    case Raised(e) => Err(LiteralFault(e))
    case Malformed =>
      if StartsWith(default, "{") && EndsWith(default, "}") then Err(AttributeFault("izip")) else Ok(None)
  }

  /** The entry of a parameter with a default, failing as the default's type does. */
  function DefaultEntry(default: string, eval: string -> Evaluation): (r: Result<ParamEntry, Failure>)
    ensures r.Ok? <==> DefaultType(default, eval).Ok?
    ensures r.Ok? ==> r.value == ParamEntry(Some(default), DefaultType(default, eval).value)
    ensures r.Err? ==> r.error == DefaultType(default, eval).error
  {
    match DefaultType(default, eval)
    case Ok(t) => Ok(ParamEntry(Some(default), t))
    case Err(e) => Err(e)
  }

  /**
   * One piece of the parameter list. With an `=`, the text before the first
   * `=` is the name and the text after it the default, whose type `eval`
   * decides; otherwise, with a `:`, the text before the first `:` is the
   * name and the text after it the type; otherwise the whole piece is the
   * name. Every part is stripped. Only a default can make the piece fail.
   */
  function ParseParam(piece: string, eval: string -> Evaluation): (r: Result<(string, ParamEntry), Failure>)
    ensures r.Err? ==> '=' in piece
    ensures r.Ok? ==> (r.value.1.default.Some? <==> '=' in piece)
  {
    match SplitFirst(piece, '=')
    case Some((name, default)) =>
      (match DefaultEntry(Strip(default), eval)
       case Ok(entry) => Ok((Strip(name), entry))
       case Err(e) => Err(e))
    case None =>
      match SplitFirst(piece, ':')
      case Some((name, annotation)) =>
        Ok((Strip(name), ParamEntry(None, Some(Strip(annotation)))))
      case None => Ok((Strip(piece), ParamEntry(None, None)))
  }

  /**
   * What a piece reads as, case by case: split at the first `=` and typed by
   * the default, or split at the first `:`, or taken whole.
   */
  lemma ParseParamMeaning(piece: string, eval: string -> Evaluation)
    ensures var r := ParseParam(piece, eval);
      '=' in piece ==> exists i :: (FirstAt(piece, '=', i)
      && var d := Strip(piece[i + 1..]);
      && (r.Ok? <==> DefaultType(d, eval).Ok?)
      && (r.Ok? ==> r.value == (Strip(piece[..i]), ParamEntry(Some(d), DefaultType(d, eval).value)))
      && (r.Err? ==> r.error == DefaultType(d, eval).error))
    ensures '=' !in piece && ':' in piece ==> exists i :: (FirstAt(piece, ':', i)
      && ParseParam(piece, eval) == Ok((Strip(piece[..i]), ParamEntry(None, Some(Strip(piece[i + 1..]))))))
    ensures '=' !in piece && ':' !in piece ==> ParseParam(piece, eval) == Ok((Strip(piece), ParamEntry(None, None)))
  {
    if '=' in piece {
      SplitFirstAt(piece, '=');
    } else if ':' in piece {
      SplitFirstAt(piece, ':');
    }
  }

  /** `name=default` reads back as that name with that default, or fails as the default's type does. */
  lemma DefaultParamParses(name: string, default: string, eval: string -> Evaluation)
    requires '=' !in name
    ensures var d := Strip(default);
      ParseParam(name + "=" + default, eval)
      == match DefaultType(d, eval)
         case Ok(t) => Ok((Strip(name), ParamEntry(Some(d), t)))
         case Err(e) => Err(e)
  {
    SplitFirstOfGlued(name, '=', default);
  }

  /** A default on which `ast.literal_eval` raises anything but `ValueError` makes the parameter raise it. */
  lemma BadDefaultRaises(name: string, default: string, eval: string -> Evaluation, e: string)
    requires '=' !in name && eval(Strip(default)) == Raised(e)
    ensures ParseParam(name + "=" + default, eval) == Err(LiteralFault(e))
  {
    DefaultParamParses(name, default, eval);
  }

  /** A braced default that is not a literal reaches `itertools.izip`, which Python 3 lacks. */
  lemma BracedNonLiteralRaises(name: string, default: string, eval: string -> Evaluation)
    requires '=' !in name && eval(Strip(default)) == Malformed
    requires StartsWith(Strip(default), "{") && EndsWith(Strip(default), "}")
    ensures ParseParam(name + "=" + default, eval) == Err(AttributeFault("izip"))
  {
    DefaultParamParses(name, default, eval);
  }

  /** Any other non-literal default is kept with no type. */
  lemma UnbracedNonLiteralUntyped(name: string, default: string, eval: string -> Evaluation)
    requires '=' !in name && eval(Strip(default)) == Malformed
    requires !(StartsWith(Strip(default), "{") && EndsWith(Strip(default), "}"))
    ensures ParseParam(name + "=" + default, eval) == Ok((Strip(name), ParamEntry(Some(Strip(default)), None)))
  {
    DefaultParamParses(name, default, eval);
  }

  /** `name: type` reads back as that name with that type and no default. */
  lemma AnnotatedParamParses(name: string, annotation: string, eval: string -> Evaluation)
    requires '=' !in name && '=' !in annotation && ':' !in name
    ensures ParseParam(name + ":" + annotation, eval) == Ok((Strip(name), ParamEntry(None, Some(Strip(annotation)))))
  {
    assert '=' !in name + ":" + annotation;
    SplitFirstOfGlued(name, ':', annotation);
  }

  // ---------------------------------------------------------------------------
  // The return annotation

  /**
   * `\)\s+->\s+(.*)\s*:` matched from index `i`: a closing bracket,
   * whitespace, an arrow, whitespace, then the rest of that line up to its
   * last colon.
   */
  function ReturnTypeAt(s: string, i: nat): (r: Option<string>)
    requires i < |s|
    ensures r.Some? ==> s[i] == ')' && '\n' !in r.value
  {
    if s[i] != ')' then None
    else
      var t := s[i + 1..];
      var a := LStrip(t);
      if |a| == |t| || !StartsWith(a, "->") then None
      else
        var b := a[2..];
        var c := LStrip(b);
        if |c| == |b| then None
        else
          var line := UpToNewline(c);
          match LastIndexOf(line, ':')
          case None => None
          case Some(j) => Some(line[..j])
  }

  predicate ReturnMatchesAt(s: string, i: int) {
    0 <= i < |s| && ReturnTypeAt(s, i).Some?
  }

  function FirstReturnMatch(s: string, from: nat): (r: Option<nat>)
    requires from <= |s|
    ensures r.Some? ==> from <= r.value < |s| && ReturnMatchesAt(s, r.value)
    ensures forall j :: from <= j < (if r.Some? then r.value else |s|) ==> !ReturnMatchesAt(s, j)
  {
    var r := FirstWhere(MatchesReturn(s), from, |s|);
    ReturnSearchMeaning(s, from, r);
    r
  }

  function MatchesReturn(s: string): nat -> bool {
    j => ReturnMatchesAt(s, j)
  }

  lemma ReturnSearchMeaning(s: string, from: nat, r: Option<nat>)
    requires from <= |s| && r == FirstWhere(MatchesReturn(s), from, |s|)
    ensures r.Some? ==> from <= r.value < |s| && ReturnMatchesAt(s, r.value)
    ensures forall j :: from <= j < (if r.Some? then r.value else |s|) ==> !ReturnMatchesAt(s, j)
  {
    forall j | from <= j < (if r.Some? then r.value else |s|)
      ensures !ReturnMatchesAt(s, j)
    {
      assert !MatchesReturn(s)(j);
    }
  }

  /**
   * The return annotation: what the pattern captures at the first index
   * where it matches, or `None` when it matches nowhere.
   */
  function ReturnType(s: string): (r: Option<string>)
    ensures r.Some? <==> exists i :: ReturnMatchesAt(s, i)
    ensures r.Some? ==> exists i :: (ReturnMatchesAt(s, i) && ReturnTypeAt(s, i) == r
      && forall j :: 0 <= j < i ==> !ReturnMatchesAt(s, j))
  {
    match FirstReturnMatch(s, 0)
    case None => None
    case Some(i) => ReturnTypeAt(s, i)
  }

  /** The parameter pieces of the text between the brackets. */
  function ParamPieces(inner: string): seq<string> {
    KeepParams(SplitParams(Strip(inner)))
  }

  /** `ParseParam` as a function of the piece alone. */
  function PieceParser(eval: string -> Evaluation): string -> Result<(string, ParamEntry), Failure> {
    piece => ParseParam(piece, eval)
  }

  /** The pieces parsed in order, or the failure of the first piece whose default raises. */
  function ParamEntries(pieces: seq<string>, eval: string -> Evaluation): Result<seq<(string, ParamEntry)>, Failure> {
    ParseEach(pieces, PieceParser(eval))
  }

  /**
   * `parse_function_declaration`: the parameters as an ordered dictionary,
   * each name once, in order of first appearance, holding the entry of its
   * last piece; and the return annotation. It fails as the bracket search
   * does, and otherwise as the first piece whose default raises.
   */
  function ParseFunctionDeclaration(decl: string, eval: string -> Evaluation)
    : (r: Result<(seq<(string, ParamEntry)>, Option<string>), Failure>)
    ensures r.Ok? <==> ParenContents(decl).Ok? && AllOk(ParamPieces(ParenContents(decl).value), PieceParser(eval))
    ensures ParenContents(decl).Err? ==> r == Err(AttributeFault("group"))
    ensures r.Err? && ParenContents(decl).Ok? ==>
      var pieces := ParamPieces(ParenContents(decl).value);
      exists i :: 0 <= i < |pieces| && PieceParser(eval)(pieces[i]) == Err(r.error)
        && AllOk(pieces[..i], PieceParser(eval))
    ensures r.Ok? ==> Distinct(Keys(r.value.0))
    ensures r.Ok? ==>
      var es := ParamEntries(ParamPieces(ParenContents(decl).value), eval).value;
      && Keys(r.value.0) == Dedup(Keys(es))
      && forall k :: Lookup(r.value.0, k) == LastValue(es, k)
    ensures r.Ok? ==> r.value.1 == ReturnType(decl)
  {
    match ParenContents(decl)
    case Err(e) => Err(e)
    case Ok(inner) =>
      match ParamEntries(ParamPieces(inner), eval)
      case Err(e) => Err(e)
      case Ok(es) => Ok((FromPairs(es), ReturnType(decl)))
  }

  /** When the first piece fails, the declaration fails with its error. */
  lemma FirstPieceFails(decl: string, eval: string -> Evaluation, pieces: seq<string>, e: Failure)
    requires ParenContents(decl).Ok? && ParamPieces(ParenContents(decl).value) == pieces
    requires pieces != [] && ParseParam(pieces[0], eval) == Err(e)
    ensures ParseFunctionDeclaration(decl, eval) == Err(e)
  {
    assert PieceParser(eval)(pieces[0]) == Err(e);
  }

  lemma KeptPieceStays(p: string)
    requires Kept(p)
    ensures KeepParams([p]) == [p]
  {
    assert [p][1..] == [];
  }

  lemma KeptPairStays(p: string, q: string)
    requires Kept(p) && Kept(q)
    ensures KeepParams([p, q]) == [p, q]
  {
    KeptPieceStays(p);
    KeptPieceStays(q);
    KeepParamsAppend([p], [q]);
    assert [p] + [q] == [p, q];
  }

  lemma UnspacedPieceKept(p: string)
    requires p != [] && !IsSpace(p[0]) && !IsSpace(p[|p| - 1]) && p != "*"
    ensures Kept(p)
  {
    StripUnspaced(p);
  }

  /** The comma split does not know about quotes: `a="x,y"` falls into two pieces. */
  lemma QuotedCommaSplit()
    ensures SplitParams("a=\"x,y\"") == ["a=\"x", "y\""]
  {
    var s := "a=\"x,y\"";
    assert forall i :: 0 <= i < |s| ==> !IsOpening(s[i]) && !IsClosing(s[i]);
    SplitParamsWithoutBrackets(s);
    QuotedCommaPlainSplit();
  }

  lemma QuotedCommaPlainSplit()
    ensures SplitOn("a=\"x,y\"", ',') == ["a=\"x", "y\""]
  {
    assert JoinWith(["a=\"x", "y\""], ',') == "a=\"x,y\"";
    SplitOnJoin(["a=\"x", "y\""], ',');
  }

  lemma QuotedCommaKept()
    ensures KeepParams(["a=\"x", "y\""]) == ["a=\"x", "y\""]
  {
    UnspacedPieceKept("a=\"x");
    UnspacedPieceKept("y\"");
    KeptPairStays("a=\"x", "y\"");
  }

  lemma QuotedCommaPieces()
    ensures ParamPieces("a=\"x,y\"") == ["a=\"x", "y\""]
  {
    StripUnspaced("a=\"x,y\"");
    QuotedCommaSplit();
    QuotedCommaKept();
  }

  lemma QuotedPieceRaisesAt(piece: string, name: string, default: string, eval: string -> Evaluation)
    requires name == "a" && default == "\"x" && piece == name + "=" + default
    requires eval(default) == Raised("SyntaxError")
    ensures ParseParam(piece, eval) == Err(LiteralFault("SyntaxError"))
  {
    StripUnspaced(default);
    BadDefaultRaises(name, default, eval, "SyntaxError");
  }

  lemma QuotedPieceRaises(eval: string -> Evaluation)
    requires eval("\"x") == Raised("SyntaxError")
    ensures ParseParam("a=\"x", eval) == Err(LiteralFault("SyntaxError"))
  {
    QuotedPieceRaisesAt("a=\"x", "a", "\"x", eval);
  }

  /**
   * For `def f(a="x,y"):` the first piece is `a="x`, whose default `"x` is
   * not Python; `ast.literal_eval` raises `SyntaxError` on it, which the
   * `except ValueError` does not catch, so the whole parse raises.
   */
  lemma QuotedCommaRaises(decl: string, eval: string -> Evaluation)
    requires ParenContents(decl) == Ok("a=\"x,y\"")
    requires eval("\"x") == Raised("SyntaxError")
    ensures ParseFunctionDeclaration(decl, eval) == Err(LiteralFault("SyntaxError"))
  {
    QuotedCommaPieces();
    QuotedPieceRaises(eval);
    FirstPieceFails(decl, eval, ["a=\"x", "y\""], LiteralFault("SyntaxError"));
  }

  // ---------------------------------------------------------------------------
  // Returns and yields

  /**
   * `^\s*(return|yield)\s*(.*)` on one line: after the leading whitespace,
   * the keyword, then the rest of the line without its leading whitespace.
   * The keyword need not end a word: `returned` reads as `return`, `ed`.
   */
  function ReturnMatch(line: string): (r: Option<(string, string)>)
    ensures r.Some? <==> StartsWith(LStrip(line), "return") || StartsWith(LStrip(line), "yield")
    ensures r.Some? ==> r.value.0 == "return" || r.value.0 == "yield"
    ensures r.Some? ==> r.value.1 == [] || !IsSpace(r.value.1[0])
    ensures r.Some? ==> exists gap :: AllSpace(gap) && LStrip(line) == r.value.0 + gap + r.value.1
  {
    var t := LStrip(line);
    if StartsWith(t, "return") then
      StartsWithSplit(t, "return");
      KeywordThenText(t, "return", t[6..]);
      Some(("return", LStrip(t[6..])))
    else if StartsWith(t, "yield") then
      StartsWithSplit(t, "yield");
      KeywordThenText(t, "yield", t[5..]);
      Some(("yield", LStrip(t[5..])))
    else None
  }

  /** A keyword followed by text is the keyword, whitespace, then text that starts with no whitespace. */
  lemma KeywordThenText(t: string, kw: string, u: string)
    requires t == kw + u
    ensures exists gap :: AllSpace(gap) && t == kw + gap + LStrip(u)
  {
    var gap := u[..|u| - |LStrip(u)|];
    LeadSplit(u);
    AppendAssoc(kw, gap, LStrip(u));
    assert AllSpace(gap) && t == kw + gap + LStrip(u);
  }

  /** The whitespace `lstrip` removes, followed by what it leaves, is the text. */
  lemma LeadSplit(u: string)
    ensures u == u[..|u| - |LStrip(u)|] + LStrip(u)
    ensures AllSpace(u[..|u| - |LStrip(u)|])
  {
    var r := LStrip(u);
    SplitAt(u, |u| - |r|);
  }

  /** An indented `return expr` or `yield expr` line reads back as that keyword and expression. */
  lemma ReturnStatementParses(indent: string, kw: string, expr: string)
    requires AllSpace(indent) && (kw == "return" || kw == "yield")
    requires expr == [] || !IsSpace(expr[0])
    ensures ReturnMatch(indent + kw + " " + expr) == Some((kw, expr))
  {
    var line := indent + kw + " " + expr;
    var t := kw + (" " + expr);
    Glue(line, indent, kw, " ", expr);
    LStripAfterSpace(indent, t);
    LStripAfterSpace(" ", expr);
    KeywordLine(kw, " " + expr, t);
  }

  /** The text after a keyword at the head of a stripped line. */
  lemma KeywordLine(kw: string, u: string, t: string)
    requires (kw == "return" || kw == "yield") && t == kw + u
    ensures kw == "return" ==> StartsWith(t, "return") && t[6..] == u
    ensures kw == "yield" ==> !StartsWith(t, "return") && StartsWith(t, "yield") && t[5..] == u
  {
    assert t[..|kw|] == kw && t[|kw|..] == u;
    if kw == "yield" {
      assert t[0] == 'y';
    }
  }

  /** What `return_re` reads off each line of the text. */
  function ReturnReadings(text: string): (r: seq<Option<(string, string)>>)
    ensures |r| == |Lines(text)|
    ensures forall i :: 0 <= i < |r| ==> r[i] == ReturnMatch(Lines(text)[i])
  {
    var ls := Lines(text);
    seq(|ls|, i requires 0 <= i < |ls| => ReturnMatch(ls[i]))
  }

  /**
   * `parse_return_keyword`: every (keyword, expression) pair some line
   * reads as, each once.
   */
  function ParseReturnKeyword(text: string): (r: seq<(string, string)>)
    ensures Distinct(r)
    ensures forall p :: p in r <==> exists i :: 0 <= i < |Lines(text)| && ReturnMatch(Lines(text)[i]) == Some(p)
  {
    var ms := ReturnReadings(text);
    var r := Dedup(Somes(ms));
    assert forall p :: p in r <==> Some(p) in ms;
    r
  }

  // ---------------------------------------------------------------------------
  // Raised exceptions

  /** The longest prefix free of whitespace and `(`: what `[^\s\(]+` takes. */
  function NamePrefix(s: string): (r: string)
    ensures |r| <= |s| && r == s[..|r|]
    ensures NoSpace(r) && '(' !in r
    ensures |r| == |s| || IsSpace(s[|r|]) || s[|r|] == '('
  {
    if s != [] && !IsSpace(s[0]) && s[0] != '(' then
      var rest := NamePrefix(s[1..]);
      assert [s[0]] + rest == s[..|rest| + 1];
      [s[0]] + rest
    else []
  }

  /** What may follow a raised name: nothing, whitespace or an opening bracket. */
  predicate EndsName(rest: string) {
    rest == [] || IsSpace(rest[0]) || rest[0] == '('
  }

  /** A name is taken whole, up to the whitespace or bracket that ends it. */
  lemma {:induction false} NamePrefixOf(name: string, rest: string)
    requires NoSpace(name) && '(' !in name
    requires EndsName(rest)
    ensures NamePrefix(name + rest) == name
    decreases |name|
  {
    if name == [] {
      assert name + rest == rest;
    } else {
      assert (name + rest)[1..] == name[1..] + rest;
      NamePrefixOf(name[1..], rest);
    }
  }

  /**
   * `^[^\S\n]*(raise)[^\S\n]+([^\s\(]+)` on one line: after the leading
   * whitespace, `raise`, at least one whitespace character, then a name up
   * to the next whitespace or opening bracket.
   */
  function RaiseMatch(line: string): (r: Option<string>)
    ensures r.Some? ==> StartsWith(LStrip(line), "raise")
    ensures r.Some? ==> r.value != [] && NoSpace(r.value) && '(' !in r.value
    ensures r.Some? ==> exists gap, rest :: (gap != [] && AllSpace(gap)
      && LStrip(line) == "raise" + gap + r.value + rest && EndsName(rest))
  {
    KeywordMatch(line, "raise")
  }

  /** The name after the keyword `kw` on one line, read as `RaiseMatch` reads it after `raise`. */
  function KeywordMatch(line: string, kw: string): (r: Option<string>)
    ensures r.Some? ==> StartsWith(LStrip(line), kw)
    ensures r.Some? ==> r.value != [] && NoSpace(r.value) && '(' !in r.value
    ensures r.Some? ==> exists gap, rest :: (gap != [] && AllSpace(gap)
      && LStrip(line) == kw + gap + r.value + rest && EndsName(rest))
  {
    var t := LStrip(line);
    if !StartsWith(t, kw) then None
    else
      var u := t[|kw|..];
      var w := LStrip(u);
      if |w| == |u| then None
      else
        var name := NamePrefix(w);
        if name == [] then None
        else
          StartsWithSplit(t, kw);
          RaiseThenName(t, kw, u);
          Some(name)
  }

  /** The parts of a keyword line: the keyword, the whitespace, the name, and what follows it. */
  lemma RaiseThenName(t: string, kw: string, u: string)
    requires t == kw + u && |LStrip(u)| < |u|
    ensures var name := NamePrefix(LStrip(u));
      exists gap, rest :: gap != [] && AllSpace(gap) && t == kw + gap + name + rest && EndsName(rest)
  {
    var w := LStrip(u);
    var name := NamePrefix(w);
    var gap := u[..|u| - |w|];
    var rest := w[|name|..];
    LeadSplit(u);
    NameSplit(w);
    NameEnds(w);
    KeywordParts(t, kw, u, gap, w, name, rest);
  }

  /** The keyword line glued back from its parts. */
  lemma KeywordParts(t: string, kw: string, u: string, gap: string, w: string, name: string, rest: string)
    requires t == kw + u && u == gap + w && w == name + rest
    requires gap != [] && AllSpace(gap) && EndsName(rest)
    ensures exists gap, rest :: gap != [] && AllSpace(gap) && t == kw + gap + name + rest && EndsName(rest)
  {
    Glue(t, kw, gap, name, rest);
    assert t == kw + gap + name + rest;
  }

  lemma NameEnds(w: string)
    ensures EndsName(w[|NamePrefix(w)|..])
  {
  }

  lemma NameSplit(w: string)
    ensures w == NamePrefix(w) + w[|NamePrefix(w)|..]
  {
  }

  lemma Glue(t: string, a: string, b: string, c: string, d: string)
    requires t == a + (b + (c + d))
    ensures t == a + b + c + d
  {
    AppendAssoc(b, c, d);
    AppendAssoc(a, b + c, d);
    AppendAssoc(a, b, c);
  }

  /**
   * A `raise` line reads as the exception's name: whatever follows the name,
   * such as the constructor's arguments, is ignored.
   */
  lemma RaiseStatementParses(indent: string, gap: string, name: string, rest: string)
    requires AllSpace(indent) && AllSpace(gap) && gap != []
    requires name != [] && NoSpace(name) && '(' !in name
    requires EndsName(rest)
    ensures RaiseMatch(indent + "raise" + gap + name + rest) == Some(name)
  {
    var line := indent + "raise" + gap + name + rest;
    var u := gap + (name + rest);
    var t := "raise" + u;
    Glue(t, "raise", gap, name, rest);
    AppendAssoc(indent, "raise" + gap + name, rest);
    AppendAssoc(indent, "raise" + gap, name);
    AppendAssoc(indent, "raise", gap);
    LStripAfterSpace(indent, t);
    LStripAfterSpace(gap, name + rest);
    NamePrefixOf(name, rest);
    RaiseOfStripped(line, u, name, rest);
  }

  lemma RaiseOfStripped(line: string, u: string, name: string, rest: string)
    requires LStrip(line) == "raise" + u && |LStrip(u)| < |u|
    requires LStrip(u) == name + rest && NamePrefix(name + rest) == name && name != []
    ensures RaiseMatch(line) == Some(name)
  {
    PrefixThenRest(LStrip(line), "raise", u);
  }

  lemma StartsWithSplit(t: string, p: string)
    requires StartsWith(t, p)
    ensures t == p + t[|p|..]
  {
  }

  lemma PrefixThenRest(t: string, p: string, u: string)
    requires t == p + u
    ensures StartsWith(t, p) && t[|p|..] == u
  {
  }

  /** What `execp_re` reads off each line of the text. */
  function RaiseReadings(text: string): (r: seq<Option<string>>)
    ensures |r| == |Lines(text)|
    ensures forall i :: 0 <= i < |r| ==> r[i] == RaiseMatch(Lines(text)[i])
  {
    var ls := Lines(text);
    seq(|ls|, i requires 0 <= i < |ls| => RaiseMatch(ls[i]))
  }

  /** `parse_function_exceptions`: every name some line raises, each once. */
  function ParseFunctionExceptions(text: string): (r: seq<string>)
    ensures Distinct(r)
    ensures forall e :: e in r <==> exists i :: 0 <= i < |Lines(text)| && RaiseMatch(Lines(text)[i]) == Some(e)
  {
    var ms := RaiseReadings(text);
    var r := Dedup(Somes(ms));
    assert forall e :: e in r <==> Some(e) in ms;
    r
  }

  // ---------------------------------------------------------------------------
  // Assignments

  predicate IdentChar(c: char) {
    'A' <= c <= 'Z' || 'a' <= c <= 'z' || '0' <= c <= '9' || c == '_'
  }

  predicate IsIdent(s: string) {
    s != [] && forall i :: 0 <= i < |s| ==> IdentChar(s[i])
  }

  /** The longest prefix of identifier characters: what `[A-Za-z0-9_]+` takes. */
  function IdentPrefix(s: string): (r: string)
    ensures |r| <= |s| && r == s[..|r|]
    ensures forall i :: 0 <= i < |r| ==> IdentChar(r[i])
    ensures |r| == |s| || !IdentChar(s[|r|])
  {
    if s != [] && IdentChar(s[0]) then
      var rest := IdentPrefix(s[1..]);
      assert [s[0]] + rest == s[..|rest| + 1];
      [s[0]] + rest
    else []
  }

  lemma {:induction false} IdentPrefixOf(name: string, rest: string)
    requires forall i :: 0 <= i < |name| ==> IdentChar(name[i])
    requires rest == [] || !IdentChar(rest[0])
    ensures IdentPrefix(name + rest) == name
    decreases |name|
  {
    if name == [] {
      assert name + rest == rest;
    } else {
      assert (name + rest)[1..] == name[1..] + rest;
      IdentPrefixOf(name[1..], rest);
    }
  }

  /** `rest` is whitespace, `=`, whitespace, then `v`. */
  ghost predicate SpacedEquals(rest: string, v: string) {
    exists a, b :: AllSpace(a) && AllSpace(b) && rest == a + "=" + b + v
  }

  /** `s` is `name`, whitespace, `=`, whitespace, then `v`. */
  ghost predicate NameAssigned(s: string, name: string, v: string) {
    exists a, b :: AllSpace(a) && AllSpace(b) && s == name + a + "=" + b + v
  }

  /**
   * `\s*=\s*(.*)` on the rest of a line: an `=` after optional whitespace;
   * the value is the text after it without its leading whitespace.
   */
  function AssignedValue(rest: string): (r: Option<string>)
    ensures r.Some? <==> LStrip(rest) != [] && LStrip(rest)[0] == '='
    ensures r.Some? ==> r.value == [] || !IsSpace(r.value[0])
    ensures r.Some? ==> SpacedEquals(rest, r.value)
  {
    var t := LStrip(rest);
    if t == [] || t[0] != '=' then None
    else
      HeadSplit(t, '=');
      EqualsParts(rest, t[1..]);
      Some(LStrip(t[1..]))
  }

  /** A non-empty string is its first character followed by the rest. */
  lemma HeadSplit(t: string, c: char)
    requires t != [] && t[0] == c
    ensures t == [c] + t[1..]
  {
  }

  lemma EqualsParts(rest: string, u: string)
    requires LStrip(rest) == "=" + u
    ensures SpacedEquals(rest, LStrip(u))
  {
    var v := LStrip(u);
    var a := rest[..|rest| - |LStrip(rest)|];
    var b := u[..|u| - |v|];
    LeadSplit(rest);
    LeadSplit(u);
    assert u == b + v;
    assert rest == a + ("=" + (b + v));
    Glue(rest, a, "=", b, v);
    assert AllSpace(a) && AllSpace(b) && rest == a + "=" + b + v;
  }

  /**
   * `([A-Za-z0-9_]+)\s*=\s*(.*)` from the start of `s`: the assigned name
   * and the text assigned to it.
   */
  function Assignment(s: string): (r: Option<(string, string)>)
    ensures s == [] || !IdentChar(s[0]) ==> r.None?
    ensures r.Some? ==> IsIdent(r.value.0)
    ensures r.Some? ==> r.value.1 == [] || !IsSpace(r.value.1[0])
    ensures r.Some? ==> NameAssigned(s, r.value.0, r.value.1)
  {
    var name := IdentPrefix(s);
    if name == [] then None
    else
      var rest := s[|name|..];
      var value := AssignedValue(rest);
      if value.None? then None
      else
        SplitAt(s, |name|);
        NamedParts(s, name, rest, value.value);
        Some((name, value.value))
  }

  lemma NamedParts(s: string, name: string, rest: string, v: string)
    requires s == name + rest
    requires SpacedEquals(rest, v)
    ensures NameAssigned(s, name, v)
  {
    var a, b :| AllSpace(a) && AllSpace(b) && rest == a + "=" + b + v;
    AppendAssoc(name, a + "=" + b, v);
    AppendAssoc(name, a + "=", b);
    AppendAssoc(name, a, "=");
    assert AllSpace(a) && AllSpace(b) && s == name + a + "=" + b + v;
  }

  /** `name = value`, with any whitespace around the `=`, reads back as that name and value. */
  lemma AssignmentParses(name: string, a: string, b: string, value: string)
    requires IsIdent(name) && AllSpace(a) && AllSpace(b)
    requires value == [] || !IsSpace(value[0])
    ensures Assignment(name + a + "=" + b + value) == Some((name, value))
  {
    var line := name + a + "=" + b + value;
    var u := b + value;
    var t := "=" + u;
    var rest := a + t;
    AssignmentLineParts(name, a, b, value);
    LStripAfterSpace(a, t);
    LStripAfterSpace(b, value);
    assert !IdentChar(rest[0]) by {
      if a != [] {
        assert rest[0] == a[0];
        SpaceNotIdent(a[0]);
      } else {
        assert rest[0] == '=';
      }
    }
    IdentPrefixOf(name, rest);
    ValueOfStripped(rest, u, value);
    AssignmentOfParts(line, name, rest, value);
  }

  lemma AssignmentLineParts(name: string, a: string, b: string, value: string)
    ensures name + a + "=" + b + value == name + (a + ("=" + (b + value)))
  {
    Glue(name + a + "=" + b + value, name, a, "=", b + value);
    AppendAssoc(name + a + "=", b, value);
  }

  lemma AssignmentOfParts(line: string, name: string, rest: string, value: string)
    requires line == name + rest && name != [] && IdentPrefix(line) == name
    requires AssignedValue(rest) == Some(value)
    ensures Assignment(line) == Some((name, value))
  {
    assert line[|name|..] == rest;
  }

  lemma ValueOfStripped(rest: string, u: string, value: string)
    requires LStrip(rest) == "=" + u && LStrip(u) == value
    ensures AssignedValue(rest) == Some(value)
  {
    assert LStrip(rest)[1..] == u;
  }

  // ---------------------------------------------------------------------------
  // Module attributes

  /** What `attrib_re` reads off each line: an assignment that starts in the first column. */
  function ModuleReadings(text: string): (r: seq<Option<(string, string)>>)
    ensures |r| == |Lines(text)|
    ensures forall i :: 0 <= i < |r| ==> r[i] == Assignment(Lines(text)[i])
  {
    var ls := Lines(text);
    seq(|ls|, i requires 0 <= i < |ls| => Assignment(ls[i]))
  }

  /**
   * `parse_module_attributes`: each assigned name once, with the value of
   * the last line that assigns it.
   */
  function ParseModuleAttributes(text: string): (r: seq<(string, string)>)
    ensures Distinct(Keys(r))
    ensures forall k, v :: (k, v) in r <==> exists i :: LastAssignedAt(ModuleReadings(text), i, k, v)
  {
    AllAssignmentsThatStand(ModuleReadings(text));
    FromPairs(Somes(ModuleReadings(text)))
  }

  /** Indented lines, comments and statements other than assignments are not module attributes. */
  lemma NotAtFirstColumn(line: string)
    requires line != [] && (IsSpace(line[0]) || line[0] == '#' || line[0] == '"' || line[0] == '\'')
    ensures Assignment(line).None?
  {
    SpaceNotIdent(line[0]);
  }

  lemma SpaceNotIdent(c: char)
    requires IsSpace(c) || c == '#' || c == '"' || c == '\''
    ensures !IdentChar(c)
  {
  }

  /** An assignment to a dotted target, such as `module.thing = 20`, is not a module attribute. */
  lemma DottedTargetIgnored(name: string, rest: string)
    requires IsIdent(name)
    ensures Assignment(name + "." + rest).None?
  {
    var t := "." + rest;
    AppendAssoc(name, ".", rest);
    IdentPrefixOf(name, t);
    assert LStrip(t) == t;
    assert (name + t)[|name|..] == t;
  }

  // ---------------------------------------------------------------------------
  // Class attributes

  /** `line[:len(line) - len(line.lstrip())]`: the whitespace a line starts with. */
  function Indentation(line: string): (r: string)
    ensures AllSpace(r)
    ensures line == r + LStrip(line)
  {
    LeadSplit(line);
    line[..|line| - |LStrip(line)|]
  }

  /** Python's `<=` on strings: character by character, a prefix before its extensions. */
  predicate LexLeq(a: string, b: string) {
    a == [] || (b != [] && (a[0] < b[0] || (a[0] == b[0] && LexLeq(a[1..], b[1..]))))
  }

  lemma {:induction false} LexLeqRefl(a: string)
    ensures LexLeq(a, a)
  {
    if a != [] {
      LexLeqRefl(a[1..]);
    }
  }

  lemma {:induction false} LexLeqTotal(a: string, b: string)
    ensures LexLeq(a, b) || LexLeq(b, a)
  {
    if a != [] && b != [] && a[0] == b[0] {
      LexLeqTotal(a[1..], b[1..]);
    }
  }

  lemma {:induction false} LexLeqTrans(a: string, b: string, c: string)
    requires LexLeq(a, b) && LexLeq(b, c)
    ensures LexLeq(a, c)
  {
    if a != [] && a[0] == b[0] && b[0] == c[0] {
      LexLeqTrans(a[1..], b[1..], c[1..]);
    }
  }

  lemma {:induction false} LexLeqAntisym(a: string, b: string)
    requires LexLeq(a, b) && LexLeq(b, a)
    ensures a == b
  {
    if a != [] {
      LexLeqAntisym(a[1..], b[1..]);
      assert a == [a[0]] + a[1..] && b == [b[0]] + b[1..];
    }
  }

  /** `min(xs)`: the least string, which is unique since `LexLeq` is antisymmetric. */
  function LexMin(xs: seq<string>): (r: string)
    requires xs != []
    ensures r in xs
    ensures forall i :: 0 <= i < |xs| ==> LexLeq(r, xs[i])
  {
    if |xs| == 1 then
      LexLeqRefl(xs[0]);
      xs[0]
    else
      var m := LexMin(xs[1..]);
      LexMinStep(xs, m);
      if LexLeq(xs[0], m) then xs[0] else m
  }

  lemma LexMinStep(xs: seq<string>, m: string)
    requires |xs| > 1 && m in xs[1..] && forall i :: 1 <= i < |xs| ==> LexLeq(m, xs[i])
    ensures LexLeq(xs[0], m) ==> forall i :: 0 <= i < |xs| ==> LexLeq(xs[0], xs[i])
    ensures !LexLeq(xs[0], m) ==> forall i :: 0 <= i < |xs| ==> LexLeq(m, xs[i])
  {
    LexLeqRefl(xs[0]);
    LexLeqTotal(xs[0], m);
    forall i | 1 <= i < |xs|
      ensures LexLeq(xs[0], m) ==> LexLeq(xs[0], xs[i])
    {
      if LexLeq(xs[0], m) {
        LexLeqTrans(xs[0], m, xs[i]);
      }
    }
  }

  /** `[indent for indent in indentations if indent]`: the non-empty indentations, in order. */
  function Indents(ls: seq<string>): (r: seq<string>)
    ensures forall x :: x in r <==> exists i :: 0 <= i < |ls| && Indentation(ls[i]) == x && x != []
  {
    if ls == [] then []
    else
      var rest := Indents(ls[1..]);
      assert forall i :: 0 < i < |ls| ==> ls[i] == ls[1..][i - 1];
      if Indentation(ls[0]) != [] then [Indentation(ls[0])] + rest else rest
  }

  /**
   * The class's unit of indentation: the least non-empty indentation of its
   * lines. With no indented line, `min` of the empty list raises.
   */
  function ClassIndent(ls: seq<string>): (r: Result<string, Failure>)
    ensures r.Err? <==> forall i :: 0 <= i < |ls| ==> Indentation(ls[i]) == []
    ensures r.Err? ==> r.error == EmptyMinimum
    ensures r.Ok? ==> r.value != [] && AllSpace(r.value)
    ensures r.Ok? ==> exists i :: 0 <= i < |ls| && Indentation(ls[i]) == r.value
    ensures r.Ok? ==> forall i :: 0 <= i < |ls| && Indentation(ls[i]) != [] ==> LexLeq(r.value, Indentation(ls[i]))
  {
    var xs := Indents(ls);
    if xs == [] then
      NoIndents(ls, xs);
      Err(EmptyMinimum)
    else
      var m := LexMin(xs);
      assert exists i :: 0 <= i < |ls| && Indentation(ls[i]) == m && m != [];
      IndentsAllBelow(ls, xs, m);
      Ok(m)
  }

  lemma NoIndents(ls: seq<string>, xs: seq<string>)
    requires forall x :: x in xs <==> exists i :: 0 <= i < |ls| && Indentation(ls[i]) == x && x != []
    requires xs == []
    ensures forall i :: 0 <= i < |ls| ==> Indentation(ls[i]) == []
  {
    forall i | 0 <= i < |ls|
      ensures Indentation(ls[i]) == []
    {
      var x := Indentation(ls[i]);
      assert x != [] ==> x in xs;
    }
  }

  lemma IndentsAllBelow(ls: seq<string>, xs: seq<string>, m: string)
    requires forall x :: x in xs <==> exists i :: 0 <= i < |ls| && Indentation(ls[i]) == x && x != []
    requires forall j :: 0 <= j < |xs| ==> LexLeq(m, xs[j])
    ensures forall i :: 0 <= i < |ls| && Indentation(ls[i]) != [] ==> LexLeq(m, Indentation(ls[i]))
  {
    forall i | 0 <= i < |ls| && Indentation(ls[i]) != []
      ensures LexLeq(m, Indentation(ls[i]))
    {
      var x := Indentation(ls[i]);
      assert x in xs;
    }
  }

  /**
   * `^(^{0}([A-Za-z0-9_]+)|^{1}self\.([A-Za-z0-9_]+))\s*=\s*(.*)` on one line,
   * with `{0}` one indentation and `{1}` two: an assignment to a name one
   * indentation in, or else to `self.name` two in.
   */
  function ClassAttrMatch(indent: string, line: string): (r: Option<(string, string)>)
    ensures r.Some? ==> IsIdent(r.value.0)
    ensures r.Some? ==> StartsWith(line, indent)
    ensures r.Some? ==>
      (|| NameAssigned(line[|indent|..], r.value.0, r.value.1)
       || (StartsWith(line, indent + indent + "self.")
           && NameAssigned(line[|indent + indent + "self."|..], r.value.0, r.value.1)))
  {
    var self := indent + indent + "self.";
    if StartsWith(line, indent) && Assignment(line[|indent|..]).Some? then
      Assignment(line[|indent|..])
    else if StartsWith(line, self) then
      assert line[..|indent|] == self[..|indent|];
      Assignment(line[|self|..])
    else None
  }

  /** A line without `=`, such as a method header, never reads as an attribute. */
  lemma NoEqualsNoReading(indent: string, line: string)
    requires forall i :: 0 <= i < |line| ==> line[i] != '='
    ensures ClassAttrMatch(indent, line) == None
  {
    var r := ClassAttrMatch(indent, line);
    if r.Some? {
      var self := indent + indent + "self.";
      if NameAssigned(line[|indent|..], r.value.0, r.value.1) {
        AssignedHasEquals(line[|indent|..], r.value.0, r.value.1);
      } else {
        AssignedHasEquals(line[|self|..], r.value.0, r.value.1);
      }
    }
  }

  /** Every assignment reading holds an `=`. */
  lemma AssignedHasEquals(s: string, name: string, v: string)
    requires NameAssigned(s, name, v)
    ensures exists i :: 0 <= i < |s| && s[i] == '='
  {
    var a, b :| AllSpace(a) && AllSpace(b) && s == name + a + "=" + b + v;
    assert s[|name + a|] == '=';
  }

  /** `name = value` one indentation in is a class variable. */
  lemma ClassVariableParses(indent: string, name: string, a: string, b: string, value: string)
    requires IsIdent(name) && AllSpace(a) && AllSpace(b)
    requires value == [] || !IsSpace(value[0])
    ensures ClassAttrMatch(indent, indent + (name + a + "=" + b + value)) == Some((name, value))
  {
    var line := indent + (name + a + "=" + b + value);
    assert line[..|indent|] == indent && line[|indent|..] == name + a + "=" + b + value;
    AssignmentParses(name, a, b, value);
  }

  /** `self.name = value` two indentations in is an instance variable. */
  lemma InstanceVariableParses(indent: string, name: string, a: string, b: string, value: string)
    requires indent != [] && AllSpace(indent)
    requires IsIdent(name) && AllSpace(a) && AllSpace(b)
    requires value == [] || !IsSpace(value[0])
    ensures ClassAttrMatch(indent, indent + indent + "self." + (name + a + "=" + b + value)) == Some((name, value))
  {
    var body := name + a + "=" + b + value;
    var self := indent + indent + "self.";
    var line := self + body;
    AppendAssoc(indent + indent, "self.", body);
    TwoIndentsIn(indent, "self." + body, line);
    PrefixThenRest(line, self, body);
    AssignmentParses(name, a, b, value);
  }

  /**
   * A line two indentations in starts with one indentation, and what
   * follows that starts with whitespace, so it names no class variable.
   */
  lemma TwoIndentsIn(indent: string, rest: string, line: string)
    requires indent != [] && AllSpace(indent) && line == indent + indent + rest
    ensures StartsWith(line, indent) && Assignment(line[|indent|..]).None?
  {
    AppendAssoc(indent, indent, rest);
    PrefixThenRest(line, indent, indent + rest);
    assert (indent + rest)[0] == indent[0];
  }

  /** Two indentations then `self.` start a line only when `self.` follows its two indentations. */
  lemma SelfAfterIndents(indent: string, rest: string)
    requires StartsWith(indent + indent + rest, indent + indent + "self.")
    ensures StartsWith(rest, "self.")
  {
    var n := |indent + indent|;
    var line := indent + indent + rest;
    assert line[n..n + 5] == rest[..5];
    assert (indent + indent + "self.")[n..n + 5] == "self.";
  }

  /**
   * A line two or more indentations in is not a class attribute unless it
   * assigns to `self.` exactly two in: the body of a nested class or of a
   * method's inner block contributes nothing.
   */
  lemma NestedLineIgnored(indent: string, rest: string)
    requires indent != [] && AllSpace(indent) && !StartsWith(rest, "self.")
    ensures ClassAttrMatch(indent, indent + indent + rest).None?
  {
    TwoIndentsIn(indent, rest, indent + indent + rest);
    if StartsWith(indent + indent + rest, indent + indent + "self.") {
      SelfAfterIndents(indent, rest);
    }
  }

  /** A line that starts in the first column, such as the `class` line, is not a class attribute. */
  lemma FlushLineIgnored(indent: string, line: string)
    requires indent != [] && AllSpace(indent) && (line == [] || !IsSpace(line[0]))
    ensures ClassAttrMatch(indent, line).None?
  {
    assert (indent + indent + "self.")[0] == indent[0];
  }

  /** What the class pattern reads off each line of the dedented text. */
  function ClassReadings(indent: string, ls: seq<string>): (r: seq<Option<(string, string)>>)
    ensures |r| == |ls|
    ensures forall i :: 0 <= i < |ls| ==> r[i] == ClassAttrMatch(indent, ls[i])
  {
    seq(|ls|, i requires 0 <= i < |ls| => ClassAttrMatch(indent, ls[i]))
  }

  /** The attributes the class pattern reads off the lines, each name once with the value that stands. */
  function ClassAttributesOf(indent: string, ls: seq<string>): (r: seq<(string, string)>)
    ensures Distinct(Keys(r))
    ensures forall k, v :: (k, v) in r <==> exists i :: LastAssignedAt(ClassReadings(indent, ls), i, k, v)
  {
    AllAssignmentsThatStand(ClassReadings(indent, ls));
    FromPairs(Somes(ClassReadings(indent, ls)))
  }

  /**
   * `parse_class_attributes`: the class text is dedented, its unit of
   * indentation found, and each attribute name kept once with the value of
   * the last line that assigns it. With no indented line it fails as `min`
   * does.
   */
  function ParseClassAttributes(text: string): (r: Result<seq<(string, string)>, Failure>)
    ensures var ls := Lines(DedentText(text));
      r.Err? <==> forall i :: 0 <= i < |ls| ==> Indentation(ls[i]) == []
    ensures r.Err? ==> r.error == EmptyMinimum
    ensures r.Ok? ==> Distinct(Keys(r.value))
    ensures r.Ok? ==> var ls := Lines(DedentText(text));
      && ClassIndent(ls).Ok?
      && forall k, v :: (k, v) in r.value <==> exists i :: LastAssignedAt(ClassReadings(ClassIndent(ls).value, ls), i, k, v)
  {
    var ls := Lines(DedentText(text));
    var indent := ClassIndent(ls);
    if indent.Err? then Err(indent.error) else Ok(ClassAttributesOf(indent.value, ls))
  }
}
