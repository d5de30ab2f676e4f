/**
 * The lookup of a hard-coded formatter by name, case-insensitively, and
 * the calls made on the formatter it returns.
 */
module Formatters {
  import opened Wrappers
  import opened Text
  import opened Exc
  import opened Scan
  import opened Layout
  import LegacyGoogle
  import LegacyNumpy
  import LegacyReST

  /** The three formatter modules. */
  datatype Formatter = Google | Numpy | ReST

  /** `_formatter_map`: lower-case names to formatters. */
  const FormatterMap: seq<(string, Formatter)> := [("google", Google), ("numpy", Numpy), ("rest", ReST)]

  /**
   * `get`: the formatter registered under the lower-cased name; any other
   * name raises `InvalidFormatterError` carrying the lower-cased name.
   */
  function Get(formatterType: string): (r: Result<Formatter, Failure>)
    ensures r.Ok? <==> Lower(formatterType) == "google" || Lower(formatterType) == "numpy" || Lower(formatterType) == "rest"
    ensures r.Ok? ==> (Lower(formatterType), r.value) in FormatterMap
    ensures r.Err? ==> r.error == InvalidFormatter(Lower(formatterType))
  {
    var key := Lower(formatterType);
    assert Keys(FormatterMap) == ["google", "numpy", "rest"];
    match Lookup(FormatterMap, key)
    case None => Err(InvalidFormatter(key))
    case Some(f) => Ok(f)
  }

  /** Each name is registered once, so the formatter a name gives is determined. */
  lemma FormatterMapFunctional(name: string, f: Formatter, g: Formatter)
    requires (name, f) in FormatterMap && (name, g) in FormatterMap
    ensures f == g
  {
  }

  /** Asking with any capitalisation is asking with the lower-case name. */
  lemma GetIgnoresCase(formatterType: string)
    ensures Get(formatterType) == Get(Lower(formatterType))
  {
    LowerIdempotent(formatterType);
  }

  lemma LowerReST()
    ensures Lower("reST") == "rest"
  {
    var r := Lower("reST");
    assert r[0] == 'r' && r[1] == 'e';
    assert r[2] == LowerChar('S') == 's';
    assert r[3] == LowerChar('T') == 't';
  }

  lemma LowerGoogle()
    ensures Lower("Google") == "google"
  {
    var r := Lower("Google");
    assert r[0] == LowerChar('G') == 'g';
    assert r[1] == 'o' && r[2] == 'o' && r[3] == 'g' && r[4] == 'l' && r[5] == 'e';
  }

  /** The names the documentation uses, `reST` and `Google`, are found. */
  lemma MixedCaseNames()
    ensures Get("reST") == Ok(ReST)
    ensures Get("Google") == Ok(Google)
  {
    LowerReST();
    LowerGoogle();
  }

  /** `formatter.function_docstring(...)` on the formatter `get` returned. */
  function FunctionDocstring(f: Formatter, params: Params, returnType: Option<string>, exceptions: seq<string>,
                             statements: seq<Statement>): (r: string)
    ensures StartsWith(r, "\n") && EndsWith(r, "\n")
    ensures f == Google ==> r == LegacyGoogle.FunctionDocstring(params, returnType, exceptions, statements)
    ensures f == Numpy ==> r == LegacyNumpy.FunctionDocstring(params, returnType, exceptions, statements)
    ensures f == ReST ==> r == LegacyReST.FunctionDocstring(params, returnType, exceptions, statements)
  {
    match f
    case Google => LegacyGoogle.FunctionDocstring(params, returnType, exceptions, statements)
    case Numpy => LegacyNumpy.FunctionDocstring(params, returnType, exceptions, statements)
    case ReST => LegacyReST.FunctionDocstring(params, returnType, exceptions, statements)
  }

  /**
   * `formatter.class_docstring(...)`: the Google module has none, so the
   * call raises `AttributeError` there.
   */
  function ClassDocstring(f: Formatter, attributes: seq<Attribute>): (r: Result<string, Failure>)
    ensures r.Err? <==> f == Google
    ensures r.Err? ==> r.error == AttributeFault("class_docstring")
    ensures r.Ok? ==> StartsWith(r.value, "\n") && EndsWith(r.value, "\n")
  {
    match f
    case Google => Err(AttributeFault("class_docstring"))
    case Numpy => Ok(LegacyNumpy.ClassDocstring(attributes))
    case ReST => Ok(LegacyReST.ClassDocstring(attributes))
  }

  /** `formatter.module_docstring(...)`: likewise missing from the Google module. */
  function ModuleDocstring(f: Formatter, attributes: seq<Attribute>): (r: Result<string, Failure>)
    ensures r.Err? <==> f == Google
    ensures r.Err? ==> r.error == AttributeFault("module_docstring")
    ensures r.Ok? ==> r.value == ClassDocstring(f, attributes).value
  {
    match f
    case Google => Err(AttributeFault("module_docstring"))
    case Numpy => Ok(LegacyNumpy.ModuleDocstring(attributes))
    case ReST => Ok(LegacyReST.ModuleDocstring(attributes))
  }

  /** The lines each formatter lays the function docstring out as. */
  function FunctionLines(f: Formatter, params: Params, returnType: Option<string>, exceptions: seq<string>,
                         statements: seq<Statement>): seq<string>
  {
    match f
    case Google => LegacyGoogle.FunctionLines(params, returnType, exceptions, statements)
    case Numpy => LegacyNumpy.FunctionLines(params, returnType, exceptions, statements)
    case ReST => LegacyReST.FunctionLines(params, returnType, exceptions, statements)
  }

  /**
   * Whichever formatter `get` returns, when no input holds a newline the
   * function docstring reads back line by line as that formatter's lines.
   */
  lemma FunctionReadsBack(f: Formatter, params: Params, returnType: Option<string>, exceptions: seq<string>,
                          statements: seq<Statement>)
    requires ParamsOneLine(params) && MaybeOneLine(returnType) && AllOneLine(exceptions)
    requires FirstStatementOneLine(statements)
    ensures Lines(FunctionDocstring(f, params, returnType, exceptions, statements))
      == FunctionLines(f, params, returnType, exceptions, statements) + [""]
  {
    match f
    case Google => LegacyGoogle.FunctionReadsBack(params, returnType, exceptions, statements);
    case Numpy => LegacyNumpy.FunctionReadsBack(params, returnType, exceptions, statements);
    case ReST => LegacyReST.FunctionReadsBack(params, returnType, exceptions, statements);
  }

  /** With no facts at all, every formatter writes two newlines. */
  lemma NoFactsAnyFormatter(f: Formatter)
    ensures FunctionDocstring(f, [], None, [], []) == "\n\n"
  {
  }
}
