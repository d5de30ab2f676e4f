/**
 * The hard-coded reST formatter: field lists. Every parameter and
 * attribute gets a field line and a `:type` line, the return block is one
 * field and an `:rtype:` line, and all exceptions share one `:raises:`
 * line.
 */
module LegacyReST {
  import opened Wrappers
  import opened Text
  import opened Scan
  import opened DataStructures
  import opened ParseUtils
  import opened Layout

  /** The parameter's type, or `TYPE` when it has none. */
  function TypeText(e: ParamEntry): string {
    if Truthy(e.typeName) then e.typeName.value else Placeholder
  }

  /** `"default: ``d``"` when the parameter has a default, nothing otherwise. */
  function DefaultText(e: ParamEntry): string {
    if Truthy(e.default) then "default: ``" + e.default.value + "``" else ""
  }

  /** The attribute's type, or `TYPE` when it has none. */
  function AttrType(a: Attribute): string {
    if Truthy(a.2) then a.2.value else Placeholder
  }

  /** The two lines `":param {0}: {2}\n:type {0}: {1}\n"` writes for a parameter. */
  function ParamPair(p: (string, ParamEntry)): (string, string) {
    (":param " + p.0 + ": " + DefaultText(p.1), ":type " + p.0 + ": " + TypeText(p.1))
  }

  /** The two lines `":attr {0}: {2}\n:type {0}: {1}\n"` writes for an attribute. */
  function AttrPair(a: Attribute): (string, string) {
    (":attr " + a.0 + ": " + a.1, ":type " + a.0 + ": " + AttrType(a))
  }

  function ParamPairs(params: Params): (r: seq<(string, string)>)
    ensures |r| == |params|
    ensures forall i :: 0 <= i < |params| ==> r[i] == ParamPair(params[i])
  {
    seq(|params|, i requires 0 <= i < |params| => ParamPair(params[i]))
  }

  function AttrPairs(attributes: seq<Attribute>): (r: seq<(string, string)>)
    ensures |r| == |attributes|
    ensures forall i :: 0 <= i < |attributes| ==> r[i] == AttrPair(attributes[i])
  {
    seq(|attributes|, i requires 0 <= i < |attributes| => AttrPair(attributes[i]))
  }

  /** `", ".join(names)` */
  function JoinNames(names: seq<string>): string {
    if names == [] then ""
    else if |names| == 1 then names[0]
    else names[0] + ", " + JoinNames(names[1..])
  }

  /** The `if params:` block: two blank lines, then each parameter's two lines. */
  function ParamsSection(params: Params): string {
    if params == [] then "" else "\n\n" + PairsText(ParamPairs(params))
  }

  /** The field name of the return block: the first statement's keyword plus `s`, else `returns`. */
  function ReturnField(statements: seq<Statement>): string {
    if statements != [] then statements[0].0 + "s" else "returns"
  }

  /** The described expression: the first statement's, else nothing. */
  function ReturnExpression(statements: seq<Statement>): string {
    if statements != [] then statements[0].1 else ""
  }

  /** The declared return type, else `TYPE`. */
  function ReturnTypeText(returnType: Option<string>): string {
    if Truthy(returnType) then returnType.value else Placeholder
  }

  /** The return block, present when there is a return statement or a declared type. */
  function ReturnsSection(returnType: Option<string>, statements: seq<Statement>): string {
    if statements != [] || Truthy(returnType) then
      "\n\n" + (":" + ReturnField(statements) + ": " + ReturnExpression(statements) + "\n"
        + (":rtype: " + ReturnTypeText(returnType)) + "\n")
    else
      ""
  }

  /** The `if exceptions:` block: two blank lines, then every name on one `:raises:` line. */
  function RaisesSection(exceptions: seq<string>): string {
    if exceptions == [] then "" else "\n\n:raises: " + JoinNames(exceptions) + "\n"
  }

  /** The `if attributes:` block: two blank lines, then each attribute's two lines. */
  function AttributesSection(attributes: seq<Attribute>): string {
    if attributes == [] then "" else "\n\n" + PairsText(AttrPairs(attributes))
  }

  /** `function_docstring`: a newline, the three blocks, a newline. */
  function FunctionDocstring(params: Params, returnType: Option<string>, exceptions: seq<string>, statements: seq<Statement>)
    : (r: string)
    ensures StartsWith(r, "\n") && EndsWith(r, "\n")
    ensures params == [] && !Truthy(returnType) && exceptions == [] && statements == [] ==> r == "\n\n"
  {
    "\n" + ParamsSection(params) + ReturnsSection(returnType, statements) + RaisesSection(exceptions) + "\n"
  }

  /** `class_docstring`: a newline, the attribute block if there are attributes, a newline. */
  function ClassDocstring(attributes: seq<Attribute>): (r: string)
    ensures StartsWith(r, "\n") && EndsWith(r, "\n")
    ensures attributes == [] <==> r == "\n\n"
  {
    "\n" + AttributesSection(attributes) + "\n"
  }

  /** `module_docstring`: written out separately in the source, and the same text as for a class. */
  function ModuleDocstring(attributes: seq<Attribute>): (r: string)
    ensures r == ClassDocstring(attributes)
  {
    "\n" + AttributesSection(attributes) + "\n"
  }

  // ---------------------------------------------------------------------------
  // The docstrings as lists of lines

  function ParamBlock(params: Params): seq<string> {
    if params == [] then [] else ["", ""] + Flatten(ParamPairs(params))
  }

  /** The lines of the return block: blank, blank, the field line, the `:rtype:` line; or none. */
  function ReturnLines(returnType: Option<string>, statements: seq<Statement>): (r: seq<string>)
    ensures r == [] <==> statements == [] && !Truthy(returnType)
    ensures r != [] ==> |r| == 4 && r[..2] == ["", ""]
    ensures r != [] && statements != [] ==> r[2] == ":" + statements[0].0 + "s: " + statements[0].1
    ensures r != [] && statements == [] ==> r[2] == ":returns: "
    ensures r != [] ==> r[3] == ":rtype: " + (if Truthy(returnType) then returnType.value else Placeholder)
  {
    if statements != [] || Truthy(returnType) then
      ["", "", ":" + ReturnField(statements) + ": " + ReturnExpression(statements), ":rtype: " + ReturnTypeText(returnType)]
    else
      []
  }

  function RaiseBlock(exceptions: seq<string>): seq<string> {
    if exceptions == [] then [] else ["", "", ":raises: " + JoinNames(exceptions)]
  }

  /** The function docstring line by line. */
  function FunctionLines(params: Params, returnType: Option<string>, exceptions: seq<string>, statements: seq<Statement>)
    : seq<string>
  {
    [""] + ParamBlock(params) + ReturnLines(returnType, statements) + RaiseBlock(exceptions) + [""]
  }

  function AttrBlock(attributes: seq<Attribute>): seq<string> {
    if attributes == [] then [] else ["", ""] + Flatten(AttrPairs(attributes))
  }

  /** The class or module docstring line by line. */
  function AttributeDocLines(attributes: seq<Attribute>): seq<string> {
    [""] + AttrBlock(attributes) + [""]
  }

  lemma ParamsSectionLines(params: Params)
    ensures ParamsSection(params) == Unlines(ParamBlock(params))
  {
    if params != [] {
      PairsTextLines(ParamPairs(params));
      BlankLines(Flatten(ParamPairs(params)));
    }
  }

  lemma AttributesSectionLines(attributes: seq<Attribute>)
    ensures AttributesSection(attributes) == Unlines(AttrBlock(attributes))
  {
    if attributes != [] {
      PairsTextLines(AttrPairs(attributes));
      BlankLines(Flatten(AttrPairs(attributes)));
    }
  }

  lemma ReturnsSectionLines(returnType: Option<string>, statements: seq<Statement>)
    ensures ReturnsSection(returnType, statements) == Unlines(ReturnLines(returnType, statements))
  {
    if statements != [] || Truthy(returnType) {
      var a := ":" + ReturnField(statements) + ": " + ReturnExpression(statements);
      var b := ":rtype: " + ReturnTypeText(returnType);
      BlankLines([a, b]);
      TwoLines(a, b);
      assert ["", ""] + [a, b] == ["", "", a, b];
    }
  }

  lemma RaisesSectionLines(exceptions: seq<string>)
    ensures RaisesSection(exceptions) == Unlines(RaiseBlock(exceptions))
  {
    if exceptions != [] {
      var line := ":raises: " + JoinNames(exceptions);
      BlankLines([line]);
      assert ["", ""] + [line] == ["", "", line];
      assert Unlines([line]) == line + "\n";
      assert "\n\n:raises: " == "\n\n" + ":raises: ";
    }
  }

  /** The function docstring is exactly its lines, each followed by a newline. */
  lemma FunctionDocstringLines(params: Params, returnType: Option<string>, exceptions: seq<string>, statements: seq<Statement>)
    ensures FunctionDocstring(params, returnType, exceptions, statements)
      == Unlines(FunctionLines(params, returnType, exceptions, statements))
  {
    ParamsSectionLines(params);
    ReturnsSectionLines(returnType, statements);
    RaisesSectionLines(exceptions);
    UnlinesFive([""], ParamBlock(params), ReturnLines(returnType, statements), RaiseBlock(exceptions), [""]);
    assert Unlines([""]) == "\n";
  }

  /** The class docstring is exactly its lines, each followed by a newline. */
  lemma ClassDocstringLines(attributes: seq<Attribute>)
    ensures ClassDocstring(attributes) == Unlines(AttributeDocLines(attributes))
  {
    AttributesSectionLines(attributes);
    UnlinesThree([""], AttrBlock(attributes), [""]);
    assert Unlines([""]) == "\n";
  }

  // ---------------------------------------------------------------------------
  // Reading the exception names back

  /** Drops the one space that `", "` puts after a comma. */
  function Unspace(piece: string): string {
    if |piece| > 0 && piece[0] == ' ' then piece[1..] else piece
  }

  /** The first piece as it is, every later one without its leading space. */
  function Unspaced(pieces: seq<string>): (r: seq<string>)
    requires |pieces| >= 1
    ensures |r| == |pieces|
  {
    [pieces[0]] + seq(|pieces| - 1, i requires 0 <= i < |pieces| - 1 => Unspace(pieces[i + 1]))
  }

  /** The names on a `:raises:` line: split at every comma, without the space after it. */
  function ReadNames(text: string): seq<string> {
    Unspaced(SplitOn(text, ','))
  }

  /** The pieces `", ".join` separates by commas: the first name, then every other name after a space. */
  function Spaced(names: seq<string>): (r: seq<string>)
    requires |names| >= 1
    ensures |r| == |names| && r[0] == names[0]
    ensures forall i :: 1 <= i < |names| ==> r[i] == " " + names[i]
  {
    [names[0]] + seq(|names| - 1, i requires 0 <= i < |names| - 1 => " " + names[i + 1])
  }

  lemma JoinWithHeadSpace(a: string, rest: seq<string>)
    ensures JoinWith([" " + a] + rest, ',') == " " + JoinWith([a] + rest, ',')
  {
    if rest != [] {
      assert ([" " + a] + rest)[1..] == rest && ([a] + rest)[1..] == rest;
      AppendAssoc(" ", a + [','], JoinWith(rest, ','));
      AppendAssoc(" ", a, [',']);
    }
  }

  lemma {:induction false} JoinNamesSpaced(names: seq<string>)
    requires |names| >= 1
    ensures JoinNames(names) == JoinWith(Spaced(names), ',')
    decreases |names|
  {
    if |names| >= 2 {
      var tail := names[1..];
      JoinNamesSpaced(tail);
      assert Spaced(names)[1..] == [" " + tail[0]] + Spaced(tail)[1..];
      assert [tail[0]] + Spaced(tail)[1..] == Spaced(tail);
      JoinWithHeadSpace(tail[0], Spaced(tail)[1..]);
      assert JoinWith(Spaced(names), ',') == names[0] + [','] + (" " + JoinNames(tail));
      AppendAssoc(names[0] + [','], " ", JoinNames(tail));
      AppendAssoc(names[0], [','], " ");
      assert [','] + " " == ", ";
    }
  }

  /** Putting a space before every name after the first adds no comma. */
  lemma SpacedNoComma(names: seq<string>)
    requires names != []
    requires forall i :: 0 <= i < |names| ==> ',' !in names[i]
    ensures forall i :: 0 <= i < |names| ==> ',' !in Spaced(names)[i]
  {
    forall i | 1 <= i < |names|
      ensures ',' !in Spaced(names)[i]
    {
      assert Spaced(names)[i] == " " + names[i];
    }
  }

  lemma UnspacedSpaced(names: seq<string>)
    requires names != []
    ensures Unspaced(Spaced(names)) == names
  {
    var r := Unspaced(Spaced(names));
    forall i | 1 <= i < |names|
      ensures r[i] == names[i]
    {
      assert r[i] == Unspace(" " + names[i]);
      assert (" " + names[i])[1..] == names[i];
    }
  }

  /**
   * The `:raises:` line gives the exception names back: splitting its text
   * at the commas and dropping the space after each recovers every name,
   * in order, provided no name holds a comma.
   */
  lemma RaisesRoundTrip(names: seq<string>)
    requires names != []
    requires forall i :: 0 <= i < |names| ==> ',' !in names[i]
    ensures ReadNames(JoinNames(names)) == names
  {
    JoinNamesSpaced(names);
    SpacedNoComma(names);
    SplitOnJoin(Spaced(names), ',');
    UnspacedSpaced(names);
  }

  lemma {:induction false} JoinNamesOneLine(names: seq<string>)
    requires AllOneLine(names)
    ensures OneLine(JoinNames(names))
  {
    if |names| >= 2 {
      JoinNamesOneLine(names[1..]);
    }
  }

  // ---------------------------------------------------------------------------
  // Reading the docstrings back

  lemma ParamPairOneLine(p: (string, ParamEntry))
    requires OneLine(p.0) && MaybeOneLine(p.1.default) && MaybeOneLine(p.1.typeName)
    ensures OneLine(ParamPair(p).0) && OneLine(ParamPair(p).1)
  {
  }

  lemma ParamBlockOneLine(params: Params)
    requires ParamsOneLine(params)
    ensures AllOneLine(ParamBlock(params))
  {
    var pairs := ParamPairs(params);
    forall i | 0 <= i < |pairs|
      ensures OneLine(pairs[i].0) && OneLine(pairs[i].1)
    {
      ParamPairOneLine(params[i]);
    }
    FlattenOneLine(pairs);
    AllOneLineAppend(["", ""], Flatten(pairs));
  }

  lemma AttrBlockOneLine(attributes: seq<Attribute>)
    requires AttributesOneLine(attributes)
    ensures AllOneLine(AttrBlock(attributes))
  {
    FlattenOneLine(AttrPairs(attributes));
    AllOneLineAppend(["", ""], Flatten(AttrPairs(attributes)));
  }

  lemma ReturnLinesOneLine(returnType: Option<string>, statements: seq<Statement>)
    requires MaybeOneLine(returnType) && FirstStatementOneLine(statements)
    ensures AllOneLine(ReturnLines(returnType, statements))
  {
  }

  lemma RaiseBlockOneLine(exceptions: seq<string>)
    requires AllOneLine(exceptions)
    ensures AllOneLine(RaiseBlock(exceptions))
  {
    JoinNamesOneLine(exceptions);
  }

  /** When no input holds a newline, no line of the function docstring does. */
  lemma FunctionLinesOneLine(params: Params, returnType: Option<string>, exceptions: seq<string>, statements: seq<Statement>)
    requires ParamsOneLine(params) && MaybeOneLine(returnType) && AllOneLine(exceptions)
    requires FirstStatementOneLine(statements)
    ensures AllOneLine(FunctionLines(params, returnType, exceptions, statements))
  {
    var a, b, c := ParamBlock(params), ReturnLines(returnType, statements), RaiseBlock(exceptions);
    ParamBlockOneLine(params);
    ReturnLinesOneLine(returnType, statements);
    RaiseBlockOneLine(exceptions);
    AllOneLineAppend([""], a);
    AllOneLineAppend([""] + a, b);
    AllOneLineAppend([""] + a + b, c);
    AllOneLineAppend([""] + a + b + c, [""]);
  }

  /**
   * When no input holds a newline, reading the function docstring line by
   * line gives exactly its lines: two per parameter in order, the return
   * field and `:rtype:` lines, one `:raises:` line.
   */
  lemma FunctionReadsBack(params: Params, returnType: Option<string>, exceptions: seq<string>, statements: seq<Statement>)
    requires ParamsOneLine(params) && MaybeOneLine(returnType) && AllOneLine(exceptions)
    requires FirstStatementOneLine(statements)
    ensures Lines(FunctionDocstring(params, returnType, exceptions, statements))
      == FunctionLines(params, returnType, exceptions, statements) + [""]
  {
    FunctionDocstringLines(params, returnType, exceptions, statements);
    FunctionLinesOneLine(params, returnType, exceptions, statements);
    LinesOfUnlines(FunctionLines(params, returnType, exceptions, statements));
  }

  /** When no attribute holds a newline, the class docstring reads back as two lines per attribute, in order. */
  lemma ClassReadsBack(attributes: seq<Attribute>)
    requires AttributesOneLine(attributes)
    ensures Lines(ClassDocstring(attributes)) == AttributeDocLines(attributes) + [""]
  {
    ClassDocstringLines(attributes);
    AttrBlockOneLine(attributes);
    AllOneLineAppend([""], AttrBlock(attributes));
    AllOneLineAppend([""] + AttrBlock(attributes), [""]);
    LinesOfUnlines(AttributeDocLines(attributes));
  }

  /** Only the first return statement is ever read. */
  lemma FirstStatementOnly(params: Params, returnType: Option<string>, exceptions: seq<string>, statements: seq<Statement>)
    requires statements != []
    ensures FunctionDocstring(params, returnType, exceptions, statements)
      == FunctionDocstring(params, returnType, exceptions, statements[..1])
  {
    assert statements[..1][0] == statements[0];
    assert ReturnsSection(returnType, statements) == ReturnsSection(returnType, statements[..1]);
  }

  // ---------------------------------------------------------------------------
  // The outputs the formatter's tests pin, line by line (each docstring is
  // its lines, each followed by a newline)

  lemma NoFactsExample()
    ensures FunctionDocstring([], None, [], []) == "\n\n"
  {
  }

  lemma ParamsExamplePairs()
    ensures ParamPair(("p1", ParamEntry(None, None))) == (":param p1: ", ":type p1: TYPE")
    ensures ParamPair(("p2", ParamEntry(None, Some("int")))) == (":param p2: ", ":type p2: int")
    ensures ParamPair(("p3", ParamEntry(Some("2"), Some("int")))) == (":param p3: default: ``2``", ":type p3: int")
  {
    assert ":param " + "p1" + ": " + "" == ":param p1: " && ":type " + "p1" + ": " + "TYPE" == ":type p1: TYPE";
    assert ":param " + "p2" + ": " + "" == ":param p2: " && ":type " + "p2" + ": " + "int" == ":type p2: int";
    assert "default: ``" + "2" + "``" == "default: ``2``";
    assert ":param " + "p3" + ": " + "default: ``2``" == ":param p3: default: ``2``";
    assert ":type " + "p3" + ": " + "int" == ":type p3: int";
  }

  lemma ParamsExample()
    ensures FunctionLines(
      [("p1", ParamEntry(None, None)), ("p2", ParamEntry(None, Some("int"))), ("p3", ParamEntry(Some("2"), Some("int")))],
      None, [], [])
      == ["", "", "", ":param p1: ", ":type p1: TYPE", ":param p2: ", ":type p2: int",
          ":param p3: default: ``2``", ":type p3: int", ""]
  {
    var params := [("p1", ParamEntry(None, None)), ("p2", ParamEntry(None, Some("int"))), ("p3", ParamEntry(Some("2"), Some("int")))];
    var pairs := [(":param p1: ", ":type p1: TYPE"), (":param p2: ", ":type p2: int"), (":param p3: default: ``2``", ":type p3: int")];
    ParamsExamplePairs();
    assert ParamPairs(params) == pairs;
    FlattenThree(pairs[0], pairs[1], pairs[2]);
  }

  lemma ReturnTypeExample()
    ensures FunctionLines([], Some("int"), [], []) == ["", "", "", ":returns: ", ":rtype: int", ""]
  {
    assert ":" + "returns" + ": " + "" == ":returns: ";
    assert ":rtype: " + "int" == ":rtype: int";
  }

  lemma ReturnTypeAndStatementExample()
    ensures FunctionLines([], Some("int"), [], [("return", "var1")]) == ["", "", "", ":returns: var1", ":rtype: int", ""]
  {
    assert ":" + ("return" + "s") + ": " + "var1" == ":returns: var1";
    assert ":rtype: " + "int" == ":rtype: int";
  }

  lemma YieldExample()
    ensures FunctionLines([], None, [], [("yield", "var1")]) == ["", "", "", ":yields: var1", ":rtype: TYPE", ""]
  {
    assert ":" + ("yield" + "s") + ": " + "var1" == ":yields: var1";
    assert ":rtype: " + "TYPE" == ":rtype: TYPE";
  }

  lemma ExceptionExample()
    ensures FunctionLines([], None, ["MyException"], []) == ["", "", "", ":raises: MyException", ""]
  {
    assert ":raises: " + "MyException" == ":raises: MyException";
  }

  lemma AttributesExamplePairs()
    ensures AttrPair(("attr1", "3 * some_var", None)) == (":attr attr1: 3 * some_var", ":type attr1: TYPE")
    ensures AttrPair(("attr2", "2", Some("int"))) == (":attr attr2: 2", ":type attr2: int")
  {
    assert ":attr " + "attr1" + ": " + "3 * some_var" == ":attr attr1: 3 * some_var";
    assert ":type " + "attr1" + ": " + "TYPE" == ":type attr1: TYPE";
    assert ":attr " + "attr2" + ": " + "2" == ":attr attr2: 2" && ":type " + "attr2" + ": " + "int" == ":type attr2: int";
  }

  lemma AttributesExample()
    ensures AttributeDocLines([("attr1", "3 * some_var", None), ("attr2", "2", Some("int"))])
      == ["", "", "", ":attr attr1: 3 * some_var", ":type attr1: TYPE", ":attr attr2: 2", ":type attr2: int", ""]
  {
    var attributes := [("attr1", "3 * some_var", None), ("attr2", "2", Some("int"))];
    var pairs := [(":attr attr1: 3 * some_var", ":type attr1: TYPE"), (":attr attr2: 2", ":type attr2: int")];
    AttributesExamplePairs();
    assert AttrPairs(attributes) == pairs;
    FlattenTwo(pairs[0], pairs[1]);
  }
}
