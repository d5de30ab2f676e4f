/**
 * The hard-coded Numpy formatter: underlined section titles, and every
 * entry on two lines, `name : type` and then an indented description.
 */
module LegacyNumpy {
  import opened Wrappers
  import opened Text
  import opened Scan
  import opened DataStructures
  import opened ParseUtils
  import opened Layout

  /** The parameter's type, or `TYPE` when it has none. */
  function TypeText(e: ParamEntry): string {
    if Truthy(e.typeName) then e.typeName.value else Placeholder
  }

  /** `"default: ``d``"` when the parameter has a default, nothing otherwise. */
  function DefaultText(e: ParamEntry): string {
    if Truthy(e.default) then "default: ``" + e.default.value + "``" else ""
  }

  /** The attribute's type, or `TYPE` when it has none. */
  function AttrType(a: Attribute): string {
    if Truthy(a.2) then a.2.value else Placeholder
  }

  /** The two lines `"{0} : {1}\n    {2}\n"` writes for a parameter: name and type, then the default. */
  function ParamPair(p: (string, ParamEntry)): (string, string) {
    (p.0 + " : " + TypeText(p.1), "    " + DefaultText(p.1))
  }

  /** The two lines `"{0} : {1}\n    {2}\n"` writes for an attribute: name and type, then the expression. */
  function AttrPair(a: Attribute): (string, string) {
    (a.0 + " : " + AttrType(a), "    " + a.1)
  }

  function ParamPairs(params: Params): (r: seq<(string, string)>)
    ensures |r| == |params|
    ensures forall i :: 0 <= i < |params| ==> r[i] == ParamPair(params[i])
  {
    seq(|params|, i requires 0 <= i < |params| => ParamPair(params[i]))
  }

  /** The two lines `"{0}\n    \n"` writes for an exception: its name, then an empty description. */
  function RaisePairs(exceptions: seq<string>): (r: seq<(string, string)>)
    ensures |r| == |exceptions|
    ensures forall i :: 0 <= i < |exceptions| ==> r[i] == (exceptions[i], "    ")
  {
    seq(|exceptions|, i requires 0 <= i < |exceptions| => (exceptions[i], "    "))
  }

  function AttrPairs(attributes: seq<Attribute>): (r: seq<(string, string)>)
    ensures |r| == |attributes|
    ensures forall i :: 0 <= i < |attributes| ==> r[i] == AttrPair(attributes[i])
  {
    seq(|attributes|, i requires 0 <= i < |attributes| => AttrPair(attributes[i]))
  }

  /** The `if params:` block: the Parameters title, then each parameter. */
  function ParamsSection(params: Params): string {
    if params == [] then "" else "\n\nParameters\n----------\n" + PairsText(ParamPairs(params))
  }

  /**
   * The return block, with the Google formatter's precedence: a declared
   * type with return statements gives the type over the first expression;
   * a declared type alone gives the type over an empty description;
   * statements alone give `TYPE` over the first expression, titled Yields
   * when the first keyword is `yield`.
   */
  function ReturnsSection(returnType: Option<string>, statements: seq<Statement>): string {
    if Truthy(returnType) && statements != [] then
      "\n\nReturns\n-------\n" + (returnType.value + "\n" + ("    " + statements[0].1) + "\n")
    else if Truthy(returnType) then
      "\n\nReturns\n-------\n" + (returnType.value + "\n" + "    " + "\n")
    else if statements != [] then
      (if statements[0].0 == "yield" then "\n\nYields\n------\n" else "\n\nReturns\n-------\n")
      + (Placeholder + "\n" + ("    " + statements[0].1) + "\n")
    else
      ""
  }

  /** The `if exceptions:` block: the Raises title, then each exception. */
  function RaisesSection(exceptions: seq<string>): string {
    if exceptions == [] then "" else "\n\nRaises\n------\n" + PairsText(RaisePairs(exceptions))
  }

  /** The `if attributes:` block: the Attributes title, then each attribute. */
  function AttributesSection(attributes: seq<Attribute>): string {
    if attributes == [] then "" else "\n\nAttributes\n----------\n" + PairsText(AttrPairs(attributes))
  }

  /** `function_docstring`: a newline, the three blocks, a newline. */
  function FunctionDocstring(params: Params, returnType: Option<string>, exceptions: seq<string>, statements: seq<Statement>)
    : (r: string)
    ensures StartsWith(r, "\n") && EndsWith(r, "\n")
    ensures params == [] && !Truthy(returnType) && exceptions == [] && statements == [] ==> r == "\n\n"
  {
    "\n" + ParamsSection(params) + ReturnsSection(returnType, statements) + RaisesSection(exceptions) + "\n"
  }

  /** `class_docstring`: a newline, the Attributes block if there are attributes, a newline. */
  function ClassDocstring(attributes: seq<Attribute>): (r: string)
    ensures StartsWith(r, "\n") && EndsWith(r, "\n")
    ensures attributes == [] <==> r == "\n\n"
  {
    "\n" + AttributesSection(attributes) + "\n"
  }

  /** `module_docstring`: written out separately in the source, and the same text as for a class. */
  function ModuleDocstring(attributes: seq<Attribute>): (r: string)
    ensures r == ClassDocstring(attributes)
  {
    "\n" + AttributesSection(attributes) + "\n"
  }

  // ---------------------------------------------------------------------------
  // The docstrings as lists of lines

  function ParamBlock(params: Params): seq<string> {
    if params == [] then [] else ["", "", "Parameters", "----------"] + Flatten(ParamPairs(params))
  }

  /** The lines of the return block: blank, blank, title, underline, type, description; or none. */
  function ReturnLines(returnType: Option<string>, statements: seq<Statement>): (r: seq<string>)
    ensures r == [] <==> !Truthy(returnType) && statements == []
    ensures r != [] ==> |r| == 6 && r[..2] == ["", ""]
    ensures r != [] ==> (r[2] == "Yields" <==> !Truthy(returnType) && statements[0].0 == "yield")
    ensures r != [] && r[2] != "Yields" ==> r[2] == "Returns"
    ensures r != [] ==> r[3] == (if r[2] == "Yields" then "------" else "-------")
    ensures r != [] ==> r[4] == (if Truthy(returnType) then returnType.value else Placeholder)
    ensures r != [] ==> r[5] == "    " + (if statements != [] then statements[0].1 else "")
  {
    if Truthy(returnType) && statements != [] then
      ["", "", "Returns", "-------", returnType.value, "    " + statements[0].1]
    else if Truthy(returnType) then
      ["", "", "Returns", "-------", returnType.value, "    "]
    else if statements != [] && statements[0].0 == "yield" then
      ["", "", "Yields", "------", Placeholder, "    " + statements[0].1]
    else if statements != [] then
      ["", "", "Returns", "-------", Placeholder, "    " + statements[0].1]
    else
      []
  }

  function RaiseBlock(exceptions: seq<string>): seq<string> {
    if exceptions == [] then [] else ["", "", "Raises", "------"] + Flatten(RaisePairs(exceptions))
  }

  /** The function docstring line by line. */
  function FunctionLines(params: Params, returnType: Option<string>, exceptions: seq<string>, statements: seq<Statement>)
    : seq<string>
  {
    [""] + ParamBlock(params) + ReturnLines(returnType, statements) + RaiseBlock(exceptions) + [""]
  }

  function AttrBlock(attributes: seq<Attribute>): seq<string> {
    if attributes == [] then [] else ["", "", "Attributes", "----------"] + Flatten(AttrPairs(attributes))
  }

  /** The class or module docstring line by line. */
  function AttributeDocLines(attributes: seq<Attribute>): seq<string> {
    [""] + AttrBlock(attributes) + [""]
  }

  /** The literal header texts, piece by piece. */
  lemma HeaderTexts()
    ensures "\n\nParameters\n----------\n" == "\n\n" + "Parameters" + "\n" + "----------" + "\n"
    ensures "\n\nRaises\n------\n" == "\n\n" + "Raises" + "\n" + "------" + "\n"
    ensures "\n\nAttributes\n----------\n" == "\n\n" + "Attributes" + "\n" + "----------" + "\n"
  {
  }

  lemma ParamsSectionLines(params: Params)
    ensures ParamsSection(params) == Unlines(ParamBlock(params))
  {
    if params != [] {
      HeaderTexts();
      PairsTextLines(ParamPairs(params));
      TitledSection("Parameters", "----------", "\n\nParameters\n----------\n", Flatten(ParamPairs(params)));
    }
  }

  lemma RaisesSectionLines(exceptions: seq<string>)
    ensures RaisesSection(exceptions) == Unlines(RaiseBlock(exceptions))
  {
    if exceptions != [] {
      HeaderTexts();
      PairsTextLines(RaisePairs(exceptions));
      TitledSection("Raises", "------", "\n\nRaises\n------\n", Flatten(RaisePairs(exceptions)));
    }
  }

  lemma AttributesSectionLines(attributes: seq<Attribute>)
    ensures AttributesSection(attributes) == Unlines(AttrBlock(attributes))
  {
    if attributes != [] {
      HeaderTexts();
      PairsTextLines(AttrPairs(attributes));
      TitledSection("Attributes", "----------", "\n\nAttributes\n----------\n", Flatten(AttrPairs(attributes)));
    }
  }

  lemma ReturnsSectionLines(returnType: Option<string>, statements: seq<Statement>)
    ensures ReturnsSection(returnType, statements) == Unlines(ReturnLines(returnType, statements))
  {
    if Truthy(returnType) && statements != [] {
      TitledEntry("Returns", "-------", "\n\nReturns\n-------\n", returnType.value, "    " + statements[0].1);
    } else if Truthy(returnType) {
      TitledEntry("Returns", "-------", "\n\nReturns\n-------\n", returnType.value, "    ");
    } else if statements != [] {
      var line := "    " + statements[0].1;
      if statements[0].0 == "yield" {
        TitledEntry("Yields", "------", "\n\nYields\n------\n", Placeholder, line);
      } else {
        TitledEntry("Returns", "-------", "\n\nReturns\n-------\n", Placeholder, line);
      }
    }
  }

  /** The function docstring is exactly its lines, each followed by a newline. */
  lemma FunctionDocstringLines(params: Params, returnType: Option<string>, exceptions: seq<string>, statements: seq<Statement>)
    ensures FunctionDocstring(params, returnType, exceptions, statements)
      == Unlines(FunctionLines(params, returnType, exceptions, statements))
  {
    ParamsSectionLines(params);
    ReturnsSectionLines(returnType, statements);
    RaisesSectionLines(exceptions);
    UnlinesFive([""], ParamBlock(params), ReturnLines(returnType, statements), RaiseBlock(exceptions), [""]);
    assert Unlines([""]) == "\n";
  }

  /** The class docstring is exactly its lines, each followed by a newline. */
  lemma ClassDocstringLines(attributes: seq<Attribute>)
    ensures ClassDocstring(attributes) == Unlines(AttributeDocLines(attributes))
  {
    AttributesSectionLines(attributes);
    UnlinesThree([""], AttrBlock(attributes), [""]);
    assert Unlines([""]) == "\n";
  }

  // ---------------------------------------------------------------------------
  // Reading the docstrings back

  lemma ParamPairOneLine(p: (string, ParamEntry))
    requires OneLine(p.0) && MaybeOneLine(p.1.default) && MaybeOneLine(p.1.typeName)
    ensures OneLine(ParamPair(p).0) && OneLine(ParamPair(p).1)
  {
  }

  lemma ParamBlockOneLine(params: Params)
    requires ParamsOneLine(params)
    ensures AllOneLine(ParamBlock(params))
  {
    var pairs := ParamPairs(params);
    forall i | 0 <= i < |pairs|
      ensures OneLine(pairs[i].0) && OneLine(pairs[i].1)
    {
      ParamPairOneLine(params[i]);
    }
    FlattenOneLine(pairs);
    AllOneLineAppend(["", "", "Parameters", "----------"], Flatten(ParamPairs(params)));
  }

  lemma RaiseBlockOneLine(exceptions: seq<string>)
    requires AllOneLine(exceptions)
    ensures AllOneLine(RaiseBlock(exceptions))
  {
    FlattenOneLine(RaisePairs(exceptions));
    AllOneLineAppend(["", "", "Raises", "------"], Flatten(RaisePairs(exceptions)));
  }

  lemma AttrBlockOneLine(attributes: seq<Attribute>)
    requires AttributesOneLine(attributes)
    ensures AllOneLine(AttrBlock(attributes))
  {
    FlattenOneLine(AttrPairs(attributes));
    AllOneLineAppend(["", "", "Attributes", "----------"], Flatten(AttrPairs(attributes)));
  }

  lemma ReturnLinesOneLine(returnType: Option<string>, statements: seq<Statement>)
    requires MaybeOneLine(returnType) && FirstStatementOneLine(statements)
    ensures AllOneLine(ReturnLines(returnType, statements))
  {
  }

  /** When no input holds a newline, no line of the function docstring does. */
  lemma FunctionLinesOneLine(params: Params, returnType: Option<string>, exceptions: seq<string>, statements: seq<Statement>)
    requires ParamsOneLine(params) && MaybeOneLine(returnType) && AllOneLine(exceptions)
    requires FirstStatementOneLine(statements)
    ensures AllOneLine(FunctionLines(params, returnType, exceptions, statements))
  {
    var a, b, c := ParamBlock(params), ReturnLines(returnType, statements), RaiseBlock(exceptions);
    ParamBlockOneLine(params);
    ReturnLinesOneLine(returnType, statements);
    RaiseBlockOneLine(exceptions);
    AllOneLineAppend([""], a);
    AllOneLineAppend([""] + a, b);
    AllOneLineAppend([""] + a + b, c);
    AllOneLineAppend([""] + a + b + c, [""]);
  }

  /**
   * When no input holds a newline, reading the function docstring line by
   * line gives exactly its lines: two per parameter in order, one return
   * entry, two per exception in order.
   */
  lemma FunctionReadsBack(params: Params, returnType: Option<string>, exceptions: seq<string>, statements: seq<Statement>)
    requires ParamsOneLine(params) && MaybeOneLine(returnType) && AllOneLine(exceptions)
    requires FirstStatementOneLine(statements)
    ensures Lines(FunctionDocstring(params, returnType, exceptions, statements))
      == FunctionLines(params, returnType, exceptions, statements) + [""]
  {
    FunctionDocstringLines(params, returnType, exceptions, statements);
    FunctionLinesOneLine(params, returnType, exceptions, statements);
    LinesOfUnlines(FunctionLines(params, returnType, exceptions, statements));
  }

  /** When no attribute holds a newline, the class docstring reads back as two lines per attribute, in order. */
  lemma ClassReadsBack(attributes: seq<Attribute>)
    requires AttributesOneLine(attributes)
    ensures Lines(ClassDocstring(attributes)) == AttributeDocLines(attributes) + [""]
  {
    ClassDocstringLines(attributes);
    AttrBlockOneLine(attributes);
    AllOneLineAppend([""], AttrBlock(attributes));
    AllOneLineAppend([""] + AttrBlock(attributes), [""]);
    LinesOfUnlines(AttributeDocLines(attributes));
  }

  /** Only the first return statement is ever read. */
  lemma FirstStatementOnly(params: Params, returnType: Option<string>, exceptions: seq<string>, statements: seq<Statement>)
    requires statements != []
    ensures FunctionDocstring(params, returnType, exceptions, statements)
      == FunctionDocstring(params, returnType, exceptions, statements[..1])
  {
    assert statements[..1][0] == statements[0];
    assert ReturnsSection(returnType, statements) == ReturnsSection(returnType, statements[..1]);
  }

  // ---------------------------------------------------------------------------
  // The outputs the formatter's tests pin, line by line (each docstring is
  // its lines, each followed by a newline)

  lemma NoFactsExample()
    ensures FunctionDocstring([], None, [], []) == "\n\n"
  {
  }

  lemma ParamsExamplePairs()
    ensures ParamPair(("p1", ParamEntry(None, None))) == ("p1 : TYPE", "    ")
    ensures ParamPair(("p2", ParamEntry(None, Some("int")))) == ("p2 : int", "    ")
    ensures ParamPair(("p3", ParamEntry(Some("2"), Some("int")))) == ("p3 : int", "    default: ``2``")
  {
    assert "p1" + " : " + "TYPE" == "p1 : TYPE" && "    " + "" == "    ";
    assert "p2" + " : " + "int" == "p2 : int" && "p3" + " : " + "int" == "p3 : int";
    assert "default: ``" + "2" + "``" == "default: ``2``";
    assert "    " + "default: ``2``" == "    default: ``2``";
  }

  lemma ParamsExample()
    ensures FunctionLines(
      [("p1", ParamEntry(None, None)), ("p2", ParamEntry(None, Some("int"))), ("p3", ParamEntry(Some("2"), Some("int")))],
      None, [], [])
      == ["", "", "", "Parameters", "----------", "p1 : TYPE", "    ", "p2 : int", "    ", "p3 : int", "    default: ``2``", ""]
  {
    var params := [("p1", ParamEntry(None, None)), ("p2", ParamEntry(None, Some("int"))), ("p3", ParamEntry(Some("2"), Some("int")))];
    var pairs := [("p1 : TYPE", "    "), ("p2 : int", "    "), ("p3 : int", "    default: ``2``")];
    ParamsExamplePairs();
    assert ParamPairs(params) == pairs;
    FlattenThree(pairs[0], pairs[1], pairs[2]);
  }

  lemma ReturnTypeExample()
    ensures FunctionLines([], Some("int"), [], []) == ["", "", "", "Returns", "-------", "int", "    ", ""]
  {
  }

  lemma ReturnTypeAndStatementExample()
    ensures FunctionLines([], Some("int"), [], [("return", "var1")])
      == ["", "", "", "Returns", "-------", "int", "    var1", ""]
  {
    assert "    " + "var1" == "    var1";
  }

  lemma YieldExample()
    ensures FunctionLines([], None, [], [("yield", "var1")]) == ["", "", "", "Yields", "------", "TYPE", "    var1", ""]
  {
    assert "    " + "var1" == "    var1";
  }

  lemma ExceptionExample()
    ensures FunctionLines([], None, ["MyException"], []) == ["", "", "", "Raises", "------", "MyException", "    ", ""]
  {
    assert RaisePairs(["MyException"]) == [("MyException", "    ")];
    assert Flatten([("MyException", "    ")]) == ["MyException", "    "];
  }

  lemma AttributesExamplePairs()
    ensures AttrPair(("attr1", "3 * some_var", None)) == ("attr1 : TYPE", "    3 * some_var")
    ensures AttrPair(("attr2", "2", Some("int"))) == ("attr2 : int", "    2")
  {
    assert "attr1" + " : " + "TYPE" == "attr1 : TYPE" && "attr2" + " : " + "int" == "attr2 : int";
    assert "    " + "3 * some_var" == "    3 * some_var" && "    " + "2" == "    2";
  }

  lemma AttributesExample()
    ensures AttributeDocLines([("attr1", "3 * some_var", None), ("attr2", "2", Some("int"))])
      == ["", "", "", "Attributes", "----------", "attr1 : TYPE", "    3 * some_var", "attr2 : int", "    2", ""]
  {
    var attributes := [("attr1", "3 * some_var", None), ("attr2", "2", Some("int"))];
    var pairs := [("attr1 : TYPE", "    3 * some_var"), ("attr2 : int", "    2")];
    AttributesExamplePairs();
    assert AttrPairs(attributes) == pairs;
    FlattenTwo(pairs[0], pairs[1]);
  }
}
