/**
 * The hard-coded Google formatter: parameters, one return or yield entry,
 * and exceptions, written with fixed literal text.
 */
module LegacyGoogle {
  import opened Wrappers
  import opened Text
  import opened Scan
  import opened DataStructures
  import opened ParseUtils
  import opened Layout

  /** `" (T)"` when the parameter has a type, nothing otherwise. */
  function TypeSuffix(e: ParamEntry): string {
    if Truthy(e.typeName) then " (" + e.typeName.value + ")" else ""
  }

  /** `" default: `d`"` (single back-quotes) when the parameter has a default, nothing otherwise. */
  function DefaultSuffix(e: ParamEntry): string {
    if Truthy(e.default) then " default: `" + e.default.value + "`" else ""
  }

  /** The line of one parameter, without its newline. */
  function ParamLine(p: (string, ParamEntry)): string {
    "    " + p.0 + TypeSuffix(p.1) + ":" + DefaultSuffix(p.1)
  }

  function ParamLines(params: Params): (r: seq<string>)
    ensures |r| == |params|
    ensures forall i :: 0 <= i < |params| ==> r[i] == ParamLine(params[i])
  {
    seq(|params|, i requires 0 <= i < |params| => ParamLine(params[i]))
  }

  function RaiseLines(exceptions: seq<string>): (r: seq<string>)
    ensures |r| == |exceptions|
    ensures forall i :: 0 <= i < |exceptions| ==> r[i] == "    " + exceptions[i] + ": "
  {
    seq(|exceptions|, i requires 0 <= i < |exceptions| => "    " + exceptions[i] + ": ")
  }

  /** The `if params:` block: the Args header, then one line per parameter. */
  function ParamsSection(params: Params): string {
    if params == [] then "" else "\n\nArgs:\n" + Unlines(ParamLines(params))
  }

  /**
   * The return block: a declared type together with return statements
   * gives the type and the first statement's expression; a declared type
   * alone gives the type; statements alone give `TYPE` and the first
   * expression, under Yields when the first keyword is `yield`.
   */
  function ReturnsSection(returnType: Option<string>, statements: seq<Statement>): string {
    if Truthy(returnType) && statements != [] then
      "\n\nReturns:\n" + ("    " + returnType.value + ": " + statements[0].1 + "\n")
    else if Truthy(returnType) then
      "\n\nReturns:\n" + ("    " + returnType.value + ":" + "\n")
    else if statements != [] then
      (if statements[0].0 == "yield" then "\n\nYields:\n" else "\n\nReturns:\n")
      + ("    " + Placeholder + ": " + statements[0].1 + "\n")
    else
      ""
  }

  /** The `if exceptions:` block: the Raises header, then one line per exception. */
  function RaisesSection(exceptions: seq<string>): string {
    if exceptions == [] then "" else "\n\nRaises:\n" + Unlines(RaiseLines(exceptions))
  }

  // ---------------------------------------------------------------------------
  // The docstring as a list of lines

  /** The lines of the return block: blank, blank, header, entry; or none. */
  function ReturnLines(returnType: Option<string>, statements: seq<Statement>): (r: seq<string>)
    ensures r == [] <==> !Truthy(returnType) && statements == []
    ensures r != [] ==> |r| == 4 && r[..2] == ["", ""]
    ensures r != [] ==> (r[2] == "Yields:" <==> !Truthy(returnType) && statements[0].0 == "yield")
    ensures r != [] && r[2] != "Yields:" ==> r[2] == "Returns:"
    ensures r != [] ==>
      (r[3] == "    " + (if Truthy(returnType) then returnType.value else Placeholder) + ":"
         + (if statements != [] then " " + statements[0].1 else ""))
  {
    if Truthy(returnType) && statements != [] then ["", "", "Returns:", "    " + returnType.value + ": " + statements[0].1]
    else if Truthy(returnType) then ["", "", "Returns:", "    " + returnType.value + ":"]
    else if statements != [] then
      ["", "", if statements[0].0 == "yield" then "Yields:" else "Returns:", "    " + Placeholder + ": " + statements[0].1]
    else []
  }

  /** The lines of the `if params:` block. */
  function ParamBlock(params: Params): seq<string> {
    if params == [] then [] else ["", "", "Args:"] + ParamLines(params)
  }

  /** The lines of the `if exceptions:` block. */
  function RaiseBlock(exceptions: seq<string>): seq<string> {
    if exceptions == [] then [] else ["", "", "Raises:"] + RaiseLines(exceptions)
  }

  /**
   * The docstring line by line: an empty first line; the Args header and
   * one line per parameter, in order; the return block; the Raises header
   * and one line per exception, in order; an empty last line.
   */
  function FunctionLines(params: Params, returnType: Option<string>, exceptions: seq<string>, statements: seq<Statement>)
    : seq<string>
  {
    [""] + ParamBlock(params) + ReturnLines(returnType, statements) + RaiseBlock(exceptions) + [""]
  }

  lemma ParamsSectionLines(params: Params)
    ensures ParamsSection(params) == Unlines(ParamBlock(params))
  {
    if params != [] {
      HeaderLines("Args:", ParamLines(params));
    }
  }

  lemma RaisesSectionLines(exceptions: seq<string>)
    ensures RaisesSection(exceptions) == Unlines(RaiseBlock(exceptions))
  {
    if exceptions != [] {
      HeaderLines("Raises:", RaiseLines(exceptions));
    }
  }

  lemma ReturnsSectionLines(returnType: Option<string>, statements: seq<Statement>)
    ensures ReturnsSection(returnType, statements) == Unlines(ReturnLines(returnType, statements))
  {
    if Truthy(returnType) && statements != [] {
      EntryBlock("Returns:", "\n\nReturns:\n", "    " + returnType.value + ": " + statements[0].1);
    } else if Truthy(returnType) {
      EntryBlock("Returns:", "\n\nReturns:\n", "    " + returnType.value + ":");
    } else if statements != [] {
      var line := "    " + Placeholder + ": " + statements[0].1;
      if statements[0].0 == "yield" {
        EntryBlock("Yields:", "\n\nYields:\n", line);
      } else {
        EntryBlock("Returns:", "\n\nReturns:\n", line);
      }
    }
  }

  /**
   * `function_docstring`: a newline, the parameter block, the return
   * block, the exception block, a newline. It is exactly the lines of
   * `FunctionLines`, each followed by a newline.
   */
  function FunctionDocstring(params: Params, returnType: Option<string>, exceptions: seq<string>, statements: seq<Statement>)
    : (r: string)
    ensures StartsWith(r, "\n") && EndsWith(r, "\n")
    ensures params == [] && !Truthy(returnType) && exceptions == [] && statements == [] ==> r == "\n\n"
    ensures r == Unlines(FunctionLines(params, returnType, exceptions, statements))
  {
    ParamsSectionLines(params);
    ReturnsSectionLines(returnType, statements);
    RaisesSectionLines(exceptions);
    UnlinesFive([""], ParamBlock(params), ReturnLines(returnType, statements), RaiseBlock(exceptions), [""]);
    assert Unlines([""]) == "\n";
    "\n" + ParamsSection(params) + ReturnsSection(returnType, statements) + RaisesSection(exceptions) + "\n"
  }

  lemma ParamLineOneLine(p: (string, ParamEntry))
    requires OneLine(p.0) && MaybeOneLine(p.1.default) && MaybeOneLine(p.1.typeName)
    ensures OneLine(ParamLine(p))
  {
  }

  lemma ParamBlockOneLine(params: Params)
    requires ParamsOneLine(params)
    ensures AllOneLine(ParamBlock(params))
  {
    forall i | 0 <= i < |params|
      ensures OneLine(ParamLines(params)[i])
    {
      ParamLineOneLine(params[i]);
    }
    AllOneLineAppend(["", "", "Args:"], ParamLines(params));
  }

  lemma RaiseBlockOneLine(exceptions: seq<string>)
    requires AllOneLine(exceptions)
    ensures AllOneLine(RaiseBlock(exceptions))
  {
    AllOneLineAppend(["", "", "Raises:"], RaiseLines(exceptions));
  }

  lemma ReturnLinesOneLine(returnType: Option<string>, statements: seq<Statement>)
    requires MaybeOneLine(returnType) && FirstStatementOneLine(statements)
    ensures AllOneLine(ReturnLines(returnType, statements))
  {
  }

  /** When no input holds a newline, no line of the function docstring does. */
  lemma FunctionLinesOneLine(params: Params, returnType: Option<string>, exceptions: seq<string>, statements: seq<Statement>)
    requires ParamsOneLine(params) && MaybeOneLine(returnType) && AllOneLine(exceptions)
    requires FirstStatementOneLine(statements)
    ensures AllOneLine(FunctionLines(params, returnType, exceptions, statements))
  {
    var a, b, c := ParamBlock(params), ReturnLines(returnType, statements), RaiseBlock(exceptions);
    ParamBlockOneLine(params);
    ReturnLinesOneLine(returnType, statements);
    RaiseBlockOneLine(exceptions);
    AllOneLineAppend([""], a);
    AllOneLineAppend([""] + a, b);
    AllOneLineAppend([""] + a + b, c);
    AllOneLineAppend([""] + a + b + c, [""]);
  }

  /**
   * When no input holds a newline, reading the docstring line by line
   * gives exactly the lines of `FunctionLines`: one per parameter in
   * order, a single return entry, one per exception in order.
   */
  lemma FunctionReadsBack(params: Params, returnType: Option<string>, exceptions: seq<string>, statements: seq<Statement>)
    requires ParamsOneLine(params) && MaybeOneLine(returnType) && AllOneLine(exceptions)
    requires FirstStatementOneLine(statements)
    ensures Lines(FunctionDocstring(params, returnType, exceptions, statements))
      == FunctionLines(params, returnType, exceptions, statements) + [""]
  {
    FunctionLinesOneLine(params, returnType, exceptions, statements);
    LinesOfUnlines(FunctionLines(params, returnType, exceptions, statements));
  }

  /** Only the first return statement is ever read. */
  lemma FirstStatementOnly(params: Params, returnType: Option<string>, exceptions: seq<string>, statements: seq<Statement>)
    requires statements != []
    ensures FunctionDocstring(params, returnType, exceptions, statements)
      == FunctionDocstring(params, returnType, exceptions, statements[..1])
  {
    assert statements[..1][0] == statements[0];
    assert ReturnsSection(returnType, statements) == ReturnsSection(returnType, statements[..1]);
  }

  // ---------------------------------------------------------------------------
  // The outputs the formatter's tests pin, line by line (the docstring is
  // these lines, each followed by a newline)

  lemma NoFactsExample()
    ensures FunctionDocstring([], None, [], []) == "\n\n"
  {
  }

  lemma ReturnTypeExample()
    ensures FunctionLines([], Some("int"), [], []) == ["", "", "", "Returns:", "    int:", ""]
  {
    assert "    " + "int" + ":" == "    int:";
    assert ReturnLines(Some("int"), []) == ["", "", "Returns:", "    int:"];
  }

  lemma ReturnTypeAndStatementExample()
    ensures FunctionLines([], Some("int"), [], [("return", "var1")]) == ["", "", "", "Returns:", "    int: var1", ""]
  {
    assert "    " + "int" + ": " + "var1" == "    int: var1";
    assert ReturnLines(Some("int"), [("return", "var1")]) == ["", "", "Returns:", "    int: var1"];
  }

  lemma YieldExample()
    ensures FunctionLines([], None, [], [("yield", "var1")]) == ["", "", "", "Yields:", "    TYPE: var1", ""]
  {
    assert "    " + Placeholder + ": " + "var1" == "    TYPE: var1";
    assert ReturnLines(None, [("yield", "var1")]) == ["", "", "Yields:", "    TYPE: var1"];
  }

  lemma ExceptionExample()
    ensures FunctionLines([], None, ["MyException"], []) == ["", "", "", "Raises:", "    MyException: ", ""]
  {
    assert "    " + "MyException" + ": " == "    MyException: ";
    assert RaiseLines(["MyException"])[0] == "    MyException: ";
    assert RaiseLines(["MyException"]) == ["    MyException: "];
  }

  /** A parameter without a type gets no type suffix (the test file expects `(TYPE)`, which is never written). */
  lemma ParamsExample()
    ensures FunctionLines([("p1", ParamEntry(None, None)), ("p2", ParamEntry(None, Some("int")))], None, [], [])
      == ["", "", "", "Args:", "    p1:", "    p2 (int):", ""]
  {
    var params := [("p1", ParamEntry(None, None)), ("p2", ParamEntry(None, Some("int")))];
    assert ParamLine(params[0]) == "    p1:";
    assert ParamLine(params[1]) == "    p2 (int):";
    assert ParamLines(params) == ["    p1:", "    p2 (int):"];
  }
}
