/**
 * Python `str.format` with positional fields only, which is all the style
 * templates use: a format string is a sequence of literal pieces and
 * `{k}` fields.
 */
module Template {
  import opened Text

  /** Literal text, or the positional field `{index}`. */
  datatype Piece = Lit(text: string) | Slot(index: nat)

  /** A format string, already split into its pieces. */
  type Format = seq<Piece>

  /** Every field of `t` reads an argument below `n`: `t.format` with `n` arguments does not raise `IndexError`. */
  predicate SlotsBelow(t: Format, n: nat) {
    forall i :: 0 <= i < |t| && t[i].Slot? ==> t[i].index < n
  }

  /** A format string without fields. */
  predicate IsLiteral(t: Format) {
    SlotsBelow(t, 0)
  }

  /** The last piece is literal text ending in a newline. */
  predicate EndsWithNewline(t: Format) {
    |t| > 0 && t[|t| - 1].Lit? && EndsWith(t[|t| - 1].text, "\n")
  }

  /** Some literal piece holds a non-whitespace character, so a filled line is never blank. */
  predicate HasVisibleText(t: Format) {
    t != [] && ((t[0].Lit? && HasNonSpace(t[0].text)) || HasVisibleText(t[1..]))
  }

  function PieceText(p: Piece, args: seq<string>): string
    requires p.Slot? ==> p.index < |args|
  {
    match p
    case Lit(s) => s
    case Slot(k) => args[k]
  }

  /** `t.format(*args)` */
  function Fill(t: Format, args: seq<string>): string
    requires SlotsBelow(t, |args|)
  {
    if t == [] then "" else PieceText(t[0], args) + Fill(t[1..], args)
  }

  lemma FillHead(t: Format, args: seq<string>)
    requires SlotsBelow(t, |args|) && t != []
    ensures Fill(t, args) == PieceText(t[0], args) + Fill(t[1..], args)
  {
  }

  /** Two leading pieces, literal text then a field, peeled off at once. */
  lemma FillPair(t: Format, p: string, i: nat, args: seq<string>)
    requires SlotsBelow(t, |args|) && |t| >= 2 && t[0] == Lit(p) && t[1] == Slot(i)
    ensures Fill(t, args) == p + (args[i] + Fill(t[2..], args))
  {
    FillHead(t, args);
    FillHead(t[1..], args);
    assert t[1..][1..] == t[2..];
  }

  // The shapes every style's entry templates take: literal text around one to four fields.

  lemma FillOne(t: Format, p: string, i: nat, q: string, args: seq<string>)
    requires i < |args| && |t| == 3 && t[0] == Lit(p) && t[1] == Slot(i) && t[2] == Lit(q)
    ensures SlotsBelow(t, |args|)
    ensures Fill(t, args) == p + (args[i] + q)
  {
    assert Fill(t, args) == p + (args[i] + Fill(t[2..], args)) by {
      FillPair(t, p, i, args);
    }
    assert Fill(t[2..], args) == q by {
      FillHead(t[2..], args);
      assert t[2..][1..] == [];
    }
  }

  lemma FillTwo(t: Format, p: string, i: nat, q: string, j: nat, r: string, args: seq<string>)
    requires i < |args| && j < |args| && |t| == 5
    requires t[0] == Lit(p) && t[1] == Slot(i) && t[2] == Lit(q) && t[3] == Slot(j) && t[4] == Lit(r)
    ensures SlotsBelow(t, |args|)
    ensures Fill(t, args) == p + (args[i] + (q + (args[j] + r)))
  {
    FillOne(t[2..], q, j, r, args);
    assert Fill(t, args) == p + (args[i] + Fill(t[2..], args)) by {
      FillPair(t, p, i, args);
    }
  }

  lemma FillThree(t: Format, p: string, i: nat, q: string, j: nat, r: string, k: nat, s: string, args: seq<string>)
    requires i < |args| && j < |args| && k < |args| && |t| == 7
    requires t[0] == Lit(p) && t[1] == Slot(i) && t[2] == Lit(q) && t[3] == Slot(j) && t[4] == Lit(r)
    requires t[5] == Slot(k) && t[6] == Lit(s)
    ensures SlotsBelow(t, |args|)
    ensures Fill(t, args) == p + (args[i] + (q + (args[j] + (r + (args[k] + s)))))
  {
    FillTwo(t[2..], q, j, r, k, s, args);
    assert Fill(t, args) == p + (args[i] + Fill(t[2..], args)) by {
      FillPair(t, p, i, args);
    }
  }

  lemma FillFour(t: Format, p: string, i: nat, q: string, j: nat, r: string, k: nat, s: string, l: nat, u: string,
                 args: seq<string>)
    requires i < |args| && j < |args| && k < |args| && l < |args| && |t| == 9
    requires t[0] == Lit(p) && t[1] == Slot(i) && t[2] == Lit(q) && t[3] == Slot(j) && t[4] == Lit(r)
    requires t[5] == Slot(k) && t[6] == Lit(s) && t[7] == Slot(l) && t[8] == Lit(u)
    ensures SlotsBelow(t, |args|)
    ensures Fill(t, args) == p + (args[i] + (q + (args[j] + (r + (args[k] + (s + (args[l] + u)))))))
  {
    FillThree(t[2..], q, j, r, k, s, l, u, args);
    assert Fill(t, args) == p + (args[i] + Fill(t[2..], args)) by {
      FillPair(t, p, i, args);
    }
  }

  /** Filling a concatenation of format strings concatenates the fillings. */
  lemma {:induction false} FillAppend(t1: Format, t2: Format, args: seq<string>)
    requires SlotsBelow(t1, |args|) && SlotsBelow(t2, |args|)
    ensures SlotsBelow(t1 + t2, |args|)
    ensures Fill(t1 + t2, args) == Fill(t1, args) + Fill(t2, args)
  {
    if t1 != [] {
      assert (t1 + t2)[1..] == t1[1..] + t2;
      FillAppend(t1[1..], t2, args);
    } else {
      assert t1 + t2 == t2;
    }
  }

  /** A format string without fields ignores its arguments. */
  lemma {:induction false} FillLiteral(t: Format, args: seq<string>)
    requires IsLiteral(t)
    ensures Fill(t, args) == Fill(t, [])
  {
    if t != [] {
      FillLiteral(t[1..], args);
    }
  }

  /** A filled line ends where its template's final literal ends. */
  lemma {:induction false} FillEndsWith(t: Format, args: seq<string>)
    requires SlotsBelow(t, |args|) && EndsWithNewline(t)
    ensures EndsWith(Fill(t, args), "\n")
  {
    if |t| == 1 {
      assert Fill(t, args) == t[0].text + Fill(t[1..], args);
    } else {
      assert t[1..][|t[1..]| - 1] == t[|t| - 1];
      FillEndsWith(t[1..], args);
    }
  }

  /** A filled line contains every literal piece, so it is never blank if one of them is not. */
  lemma {:induction false} FillVisible(t: Format, args: seq<string>)
    requires SlotsBelow(t, |args|) && HasVisibleText(t)
    ensures !AllSpace(Fill(t, args))
  {
    var head, rest := PieceText(t[0], args), Fill(t[1..], args);
    AllSpaceAppend(head, rest);
    if t[0].Lit? && HasNonSpace(t[0].text) {
      HasNonSpaceIff(t[0].text);
    } else {
      FillVisible(t[1..], args);
    }
  }

  /** One filled line per row, in order. */
  function FillRows(t: Format, rows: seq<seq<string>>): (lines: seq<string>)
    requires forall i :: 0 <= i < |rows| ==> SlotsBelow(t, |rows[i]|)
    ensures |lines| == |rows|
    ensures forall i :: 0 <= i < |rows| ==> lines[i] == Fill(t, rows[i])
  {
    if rows == [] then [] else [Fill(t, rows[0])] + FillRows(t, rows[1..])
  }

  /** The text of the filled rows is the first row filled, then the text of the rest. */
  lemma FillRowsHead(t: Format, rows: seq<seq<string>>)
    requires rows != [] && forall i :: 0 <= i < |rows| ==> SlotsBelow(t, |rows[i]|)
    ensures Concat(FillRows(t, rows)) == Fill(t, rows[0]) + Concat(FillRows(t, rows[1..]))
  {
    assert FillRows(t, rows)[1..] == FillRows(t, rows[1..]);
  }

  /**
   * `for row in rows: docstring += t.format(*row)`: the loop appends exactly
   * one filled line per row, in order, to what was there before.
   */
  function FillEach(acc: string, t: Format, rows: seq<seq<string>>): (r: string)
    requires forall i :: 0 <= i < |rows| ==> SlotsBelow(t, |rows[i]|)
    ensures r == acc + Concat(FillRows(t, rows))
    decreases |rows|
  {
    if rows == [] then acc
    else
      assert FillRows(t, rows)[1..] == FillRows(t, rows[1..]);
      FillEach(acc + Fill(t, rows[0]), t, rows[1..])
  }
}
