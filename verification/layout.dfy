/**
 * Text laid out as lines, and the inputs the hard-coded formatters share.
 * A formatter writes each entry as its text followed by `"\n"`; reading
 * such output back with `Lines` gives the entries again, plus the empty
 * text after the final newline.
 */
module Layout {
  import opened Wrappers
  import opened Text
  import opened Scan
  import opened ParseUtils

  /** The parameters, as `parse_function_declaration` returns them. */
  type Params = seq<(string, ParamEntry)>

  /** A `('return' | 'yield', expression)` pair, as `parse_return_keyword` returns them. */
  type Statement = (string, string)

  /** An attribute: its name, its expression, and its type when known. */
  type Attribute = (string, string, Option<string>)

  /** Each line followed by a newline. */
  function Unlines(ls: seq<string>): (r: string)
    ensures |r| >= |ls|
  {
    if ls == [] then "" else ls[0] + "\n" + Unlines(ls[1..])
  }

  lemma {:induction false} UnlinesAppend(a: seq<string>, b: seq<string>)
    ensures Unlines(a + b) == Unlines(a) + Unlines(b)
  {
    if a == [] {
      assert a + b == b;
    } else {
      assert (a + b)[1..] == a[1..] + b;
      UnlinesAppend(a[1..], b);
      AppendAssoc(a[0] + "\n", Unlines(a[1..]), Unlines(b));
    }
  }

  /** The same text as the lines joined with newlines, with one empty line appended. */
  lemma {:induction false} UnlinesJoin(ls: seq<string>)
    ensures Unlines(ls) == JoinWith(ls + [""], '\n')
  {
    if ls == [] {
      assert ls + [""] == [""];
    } else {
      assert (ls + [""])[1..] == ls[1..] + [""];
      UnlinesJoin(ls[1..]);
    }
  }

  /** A block opened by two blank lines and a header line. */
  lemma HeaderLines(h: string, body: seq<string>)
    ensures Unlines(["", "", h] + body) == "\n\n" + h + "\n" + Unlines(body)
  {
    var head := ["", "", h];
    UnlinesAppend(head, body);
    assert head[1..] == ["", h] && head[1..][1..] == [h] && head[1..][1..][1..] == [];
    assert Unlines([h]) == h + "\n";
    assert Unlines(["", h]) == "\n" + (h + "\n");
    assert Unlines(head) == "\n" + ("\n" + (h + "\n"));
    assert "\n" + ("\n" + (h + "\n")) == "\n\n" + h + "\n";
  }

  /** A block of two blank lines, a header line and one entry line. */
  lemma EntryBlock(h: string, header: string, line: string)
    requires header == "\n\n" + h + "\n"
    ensures Unlines(["", "", h, line]) == header + (line + "\n")
  {
    HeaderLines(h, [line]);
    assert ["", "", h] + [line] == ["", "", h, line];
    assert Unlines([line]) == line + "\n";
  }

  /** A block of two blank lines, a title line and its underline. */
  lemma TitledLines(title: string, rule: string, body: seq<string>)
    ensures Unlines(["", "", title, rule] + body) == "\n\n" + title + "\n" + rule + "\n" + Unlines(body)
  {
    var head := ["", "", title, rule];
    UnlinesAppend(head, body);
    assert head[1..] == ["", title, rule] && head[1..][1..] == [title, rule];
    assert head[1..][1..][1..] == [rule] && head[1..][1..][1..][1..] == [];
    assert Unlines([rule]) == rule + "\n";
    assert Unlines([title, rule]) == title + "\n" + (rule + "\n");
    assert Unlines(["", title, rule]) == "\n" + (title + "\n" + (rule + "\n"));
    assert Unlines(head) == "\n" + ("\n" + (title + "\n" + (rule + "\n")));
    assert "\n" + ("\n" + (title + "\n" + (rule + "\n"))) == "\n\n" + title + "\n" + rule + "\n";
  }

  /** A block opened by two blank lines. */
  lemma BlankLines(body: seq<string>)
    ensures Unlines(["", ""] + body) == "\n\n" + Unlines(body)
  {
    UnlinesAppend(["", ""], body);
    assert ["", ""][1..] == [""];
    assert Unlines([""]) == "\n";
    assert Unlines(["", ""]) == "\n" + "\n";
  }

  /** A titled block, given the literal text of its header. */
  lemma TitledSection(title: string, rule: string, header: string, body: seq<string>)
    requires header == "\n\n" + title + "\n" + rule + "\n"
    ensures Unlines(["", "", title, rule] + body) == header + Unlines(body)
  {
    TitledLines(title, rule, body);
  }

  /** Two lines, each followed by a newline. */
  lemma TwoLines(a: string, b: string)
    ensures Unlines([a, b]) == a + "\n" + b + "\n"
  {
    assert [a, b][1..] == [b];
    assert Unlines([b]) == b + "\n";
  }

  /** A titled block with one two-line entry. */
  lemma TitledEntry(title: string, rule: string, header: string, a: string, b: string)
    requires header == "\n\n" + title + "\n" + rule + "\n"
    ensures Unlines(["", "", title, rule, a, b]) == header + (a + "\n" + b + "\n")
  {
    TitledLines(title, rule, [a, b]);
    assert ["", "", title, rule] + [a, b] == ["", "", title, rule, a, b];
    TwoLines(a, b);
  }

  lemma UnlinesThree(a: seq<string>, b: seq<string>, c: seq<string>)
    ensures Unlines(a + b + c) == Unlines(a) + Unlines(b) + Unlines(c)
  {
    UnlinesAppend(a + b, c);
    UnlinesAppend(a, b);
  }

  lemma UnlinesFive(a: seq<string>, b: seq<string>, c: seq<string>, d: seq<string>, e: seq<string>)
    ensures Unlines(a + b + c + d + e) == Unlines(a) + Unlines(b) + Unlines(c) + Unlines(d) + Unlines(e)
  {
    UnlinesAppend(a + b + c + d, e);
    UnlinesAppend(a + b + c, d);
    UnlinesAppend(a + b, c);
    UnlinesAppend(a, b);
  }

  predicate OneLine(s: string) {
    '\n' !in s
  }

  predicate AllOneLine(ls: seq<string>) {
    forall i :: 0 <= i < |ls| ==> OneLine(ls[i])
  }

  lemma AllOneLineAppend(a: seq<string>, b: seq<string>)
    requires AllOneLine(a) && AllOneLine(b)
    ensures AllOneLine(a + b)
  {
    forall i | 0 <= i < |a + b|
      ensures OneLine((a + b)[i])
    {
      if i >= |a| {
        assert (a + b)[i] == b[i - |a|];
      }
    }
  }

  /** Reading laid-out text back line by line gives the lines, then the empty rest. */
  lemma LinesOfUnlines(ls: seq<string>)
    requires AllOneLine(ls)
    ensures Lines(Unlines(ls)) == ls + [""]
  {
    UnlinesJoin(ls);
    SplitOnJoin(ls + [""], '\n');
  }

  // ---------------------------------------------------------------------------
  // Entries of two lines each

  /** Each pair as two lines, in order. */
  function Flatten(pairs: seq<(string, string)>): (r: seq<string>)
    ensures |r| == |pairs| + |pairs|
  {
    if pairs == [] then [] else [pairs[0].0, pairs[0].1] + Flatten(pairs[1..])
  }

  /** Entry `i` occupies lines `2i` and `2i + 1`. */
  lemma {:induction false} FlattenAt(pairs: seq<(string, string)>, i: nat)
    requires i < |pairs|
    ensures Flatten(pairs)[i + i] == pairs[i].0 && Flatten(pairs)[i + i + 1] == pairs[i].1
  {
    if i > 0 {
      FlattenAt(pairs[1..], i - 1);
      assert Flatten(pairs)[i + i] == Flatten(pairs[1..])[(i - 1) + (i - 1)];
    }
  }

  lemma FlattenTwo(a: (string, string), b: (string, string))
    ensures Flatten([a, b]) == [a.0, a.1, b.0, b.1]
  {
    assert [a, b][1..] == [b] && [b][1..] == [];
  }

  lemma FlattenThree(a: (string, string), b: (string, string), c: (string, string))
    ensures Flatten([a, b, c]) == [a.0, a.1, b.0, b.1, c.0, c.1]
  {
    assert [a, b, c][1..] == [b, c];
    FlattenTwo(b, c);
  }

  /** The text of the entries: each pair's first line, a newline, its second line, a newline. */
  function PairsText(pairs: seq<(string, string)>): string {
    if pairs == [] then "" else pairs[0].0 + "\n" + pairs[0].1 + "\n" + PairsText(pairs[1..])
  }

  lemma {:induction false} PairsTextLines(pairs: seq<(string, string)>)
    ensures PairsText(pairs) == Unlines(Flatten(pairs))
  {
    if pairs != [] {
      PairsTextLines(pairs[1..]);
      TwoLines(pairs[0].0, pairs[0].1);
      UnlinesAppend([pairs[0].0, pairs[0].1], Flatten(pairs[1..]));
    }
  }

  predicate PairsOneLine(pairs: seq<(string, string)>) {
    forall i :: 0 <= i < |pairs| ==> OneLine(pairs[i].0) && OneLine(pairs[i].1)
  }

  lemma {:induction false} FlattenOneLine(pairs: seq<(string, string)>)
    requires PairsOneLine(pairs)
    ensures AllOneLine(Flatten(pairs))
  {
    if pairs != [] {
      FlattenOneLine(pairs[1..]);
      AllOneLineAppend([pairs[0].0, pairs[0].1], Flatten(pairs[1..]));
    }
  }

  /** A missing value, or one without a newline. */
  predicate MaybeOneLine(o: Option<string>) {
    o.Some? ==> OneLine(o.value)
  }

  /** No parameter name, default or type holds a newline. */
  predicate ParamsOneLine(params: Params) {
    forall i :: 0 <= i < |params| ==>
      OneLine(params[i].0) && MaybeOneLine(params[i].1.default) && MaybeOneLine(params[i].1.typeName)
  }

  /** No attribute name, expression or type holds a newline. */
  predicate AttributesOneLine(attributes: seq<Attribute>) {
    forall i :: 0 <= i < |attributes| ==>
      OneLine(attributes[i].0) && OneLine(attributes[i].1) && MaybeOneLine(attributes[i].2)
  }

  /** The expression of the first statement, the only one any formatter reads, holds no newline. */
  predicate FirstStatementOneLine(statements: seq<Statement>) {
    statements != [] ==> OneLine(statements[0].0) && OneLine(statements[0].1)
  }
}
