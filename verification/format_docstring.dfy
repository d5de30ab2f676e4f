/**
 * The renderer: turns one record of extracted facts into docstring text in
 * the chosen style.
 */
module FormatDocstring {
  import opened Wrappers
  import opened Text
  import opened Template
  import opened Exc
  import opened DataStructures
  import opened DocstringStyles
  import opened FormatUtils

  /** What a module without attributes renders to. */
  const EmptyModule := "\n\nEmpty Module\n\n"

  /** A function with nothing to document: no parameters, returns, annotation, yields or raises. */
  predicate IsBare(d: FunctionDetails) {
    !d.HasParameters() && d.returnValues == [] && !Truthy(d.annotation) && d.yieldValues == [] && d.raises == []
  }

  /** The parameters section, present when the function has parameters. */
  function ParamsPart(d: FunctionDetails, t: FormatTemplate): string
    requires WellFormed(t)
  {
    if d.HasParameters() then FormatParams(d, t) else ""
  }

  /** The returns section; the annotation stands in only when there is no return statement. */
  function ReturnsPart(d: FunctionDetails, t: FormatTemplate): string
    requires WellFormed(t)
  {
    if d.returnValues != [] then FormatReturns(d.returnValues, t)
    else if Truthy(d.annotation) then FormatAnnotation(d.annotation.value, t)
    else ""
  }

  function YieldsPart(d: FunctionDetails, t: FormatTemplate): string
    requires WellFormed(t)
  {
    if d.yieldValues != [] then FormatYields(d.yieldValues, t) else ""
  }

  function RaisesPart(d: FunctionDetails, t: FormatTemplate): string
    requires WellFormed(t)
  {
    if d.raises != [] then FormatRaises(d.raises, t) else ""
  }

  /** A section is empty or opens with a blank line. */
  predicate IsSection(s: string) {
    s == "" || StartsWith(s, "\n\n")
  }

  lemma PartsAreSections(d: FunctionDetails, t: FormatTemplate)
    requires WellFormed(t)
    ensures IsSection(ParamsPart(d, t)) && (ParamsPart(d, t) == "" <==> !d.HasParameters())
    ensures IsSection(ReturnsPart(d, t)) && (ReturnsPart(d, t) == "" <==> d.returnValues == [] && !Truthy(d.annotation))
    ensures IsSection(YieldsPart(d, t)) && (YieldsPart(d, t) == "" <==> d.yieldValues == [])
    ensures IsSection(RaisesPart(d, t)) && (RaisesPart(d, t) == "" <==> d.raises == [])
  {
  }

  /**
   * `format_function`: a newline, then the parameters, returns (or
   * annotation), yields and raises sections in that fixed order, each only
   * when it has content, then a newline. Only a bare function renders to
   * just the two newlines.
   */
  function FormatFunction(d: FunctionDetails, t: FormatTemplate): (r: string)
    requires WellFormed(t)
    ensures StartsWith(r, "\n") && EndsWith(r, "\n")
    ensures r == "\n\n" <==> IsBare(d)
  {
    var body := ParamsPart(d, t) + ReturnsPart(d, t) + YieldsPart(d, t) + RaisesPart(d, t);
    BodyEmptyIffBare(d, t);
    Wrapped(body);
    "\n" + body + "\n"
  }

  lemma BodyEmptyIffBare(d: FunctionDetails, t: FormatTemplate)
    requires WellFormed(t)
    ensures ParamsPart(d, t) + ReturnsPart(d, t) + YieldsPart(d, t) + RaisesPart(d, t) == "" <==> IsBare(d)
  {
    PartsAreSections(d, t);
    var a, b, c, e := ParamsPart(d, t), ReturnsPart(d, t), YieldsPart(d, t), RaisesPart(d, t);
    assert |a + b + c + e| == |a| + |b| + |c| + |e|;
  }

  /** Text between two newlines starts and ends with one, and is just the two exactly when it is empty. */
  lemma Wrapped(body: string)
    ensures StartsWith("\n" + body + "\n", "\n") && EndsWith("\n" + body + "\n", "\n")
    ensures "\n" + body + "\n" == "\n\n" <==> body == ""
  {
    var r := "\n" + body + "\n";
    assert r[..1] == "\n" && r[|r| - 1..] == "\n";
    assert |r| == |body| + 2;
  }

  /** The text between the opening and the closing newline. */
  function Inner(s: string): string
    requires |s| >= 2
  {
    s[1..|s| - 1]
  }

  lemma InnerOf(body: string)
    ensures Inner("\n" + body + "\n") == body
  {
    var s := "\n" + body + "\n";
    assert s[1..|s| - 1] == body;
  }

  function OnlyParams(d: FunctionDetails): FunctionDetails {
    NewFunction.(params := d.params, args := d.args, kwargs := d.kwargs)
  }

  function OnlyReturns(d: FunctionDetails): FunctionDetails {
    NewFunction.(returnValues := d.returnValues, annotation := d.annotation)
  }

  function OnlyYields(d: FunctionDetails): FunctionDetails {
    NewFunction.(yieldValues := d.yieldValues)
  }

  function OnlyRaises(d: FunctionDetails): FunctionDetails {
    NewFunction.(raises := d.raises)
  }

  /** The contents of a function docstring are its four sections, in order. */
  lemma InnerParts(d: FunctionDetails, t: FormatTemplate)
    requires WellFormed(t)
    ensures FormatFunction(d, t) == "\n" + Inner(FormatFunction(d, t)) + "\n"
    ensures Inner(FormatFunction(d, t)) == ParamsPart(d, t) + ReturnsPart(d, t) + YieldsPart(d, t) + RaisesPart(d, t)
  {
    InnerOf(ParamsPart(d, t) + ReturnsPart(d, t) + YieldsPart(d, t) + RaisesPart(d, t));
  }

  lemma Wrap4(a: string, b: string, c: string, e: string)
    ensures "\n" + (a + b + c + e) + "\n" == "\n" + a + b + c + e + "\n"
  {
  }

  lemma ParamsAlone(d: FunctionDetails, t: FormatTemplate)
    requires WellFormed(t)
    ensures Inner(FormatFunction(OnlyParams(d), t)) == ParamsPart(d, t)
  {
    InnerParts(OnlyParams(d), t);
    if d.HasParameters() {
      assert FormatParams(OnlyParams(d), t) == FormatParams(d, t);
    }
    assert ParamsPart(d, t) + "" + "" + "" == ParamsPart(d, t);
  }

  lemma ReturnsAlone(d: FunctionDetails, t: FormatTemplate)
    requires WellFormed(t)
    ensures Inner(FormatFunction(OnlyReturns(d), t)) == ReturnsPart(d, t)
  {
    var e := OnlyReturns(d);
    InnerParts(e, t);
    assert ParamsPart(e, t) == "" && YieldsPart(e, t) == "" && RaisesPart(e, t) == "";
    assert ReturnsPart(e, t) == ReturnsPart(d, t);
    assert "" + ReturnsPart(d, t) + "" + "" == ReturnsPart(d, t);
  }

  lemma YieldsAlone(d: FunctionDetails, t: FormatTemplate)
    requires WellFormed(t)
    ensures Inner(FormatFunction(OnlyYields(d), t)) == YieldsPart(d, t)
  {
    var e := OnlyYields(d);
    InnerParts(e, t);
    assert ParamsPart(e, t) == "" && ReturnsPart(e, t) == "" && RaisesPart(e, t) == "";
    assert YieldsPart(e, t) == YieldsPart(d, t);
    assert "" + "" + YieldsPart(d, t) + "" == YieldsPart(d, t);
  }

  lemma RaisesAlone(d: FunctionDetails, t: FormatTemplate)
    requires WellFormed(t)
    ensures Inner(FormatFunction(OnlyRaises(d), t)) == RaisesPart(d, t)
  {
    InnerParts(OnlyRaises(d), t);
    assert "" + "" + "" + RaisesPart(d, t) == RaisesPart(d, t);
  }

  /**
   * The sections are independent: a function's docstring is the four
   * single-section docstrings' contents, in the fixed order parameters,
   * returns, yields, raises, between one pair of newlines.
   */
  lemma SectionsInFixedOrder(d: FunctionDetails, t: FormatTemplate)
    requires WellFormed(t)
    ensures FormatFunction(d, t) == "\n"
      + Inner(FormatFunction(OnlyParams(d), t))
      + Inner(FormatFunction(OnlyReturns(d), t))
      + Inner(FormatFunction(OnlyYields(d), t))
      + Inner(FormatFunction(OnlyRaises(d), t))
      + "\n"
  {
    ParamsAlone(d, t);
    ReturnsAlone(d, t);
    YieldsAlone(d, t);
    RaisesAlone(d, t);
    InnerParts(d, t);
    Wrap4(ParamsPart(d, t), ReturnsPart(d, t), YieldsPart(d, t), RaisesPart(d, t));
  }

  /** When the function has a return statement, its annotation is not rendered. */
  lemma AnnotationIgnoredWithReturns(d: FunctionDetails, a: Option<string>, t: FormatTemplate)
    requires WellFormed(t) && d.returnValues != []
    ensures FormatFunction(d.(annotation := a), t) == FormatFunction(d, t)
  {
    assert ReturnsPart(d.(annotation := a), t) == ReturnsPart(d, t);
    assert ParamsPart(d.(annotation := a), t) == ParamsPart(d, t) by {
      if d.HasParameters() {
        assert FormatParams(d.(annotation := a), t) == FormatParams(d, t);
      }
    }
  }

  /** Without a return statement, a truthy annotation gives the returns section on its own. */
  lemma AnnotationStandsIn(d: FunctionDetails, t: FormatTemplate)
    requires WellFormed(t) && d.returnValues == [] && Truthy(d.annotation)
    ensures Inner(FormatFunction(OnlyReturns(d), t)) == FormatAnnotation(d.annotation.value, t)
  {
    ReturnsAlone(d, t);
  }

  /**
   * `format_class`: the attributes section between two newlines; a class
   * without attributes renders to just the two newlines.
   */
  function FormatClass(c: ClassDetails, t: FormatTemplate): (r: string)
    requires WellFormed(t)
    ensures StartsWith(r, "\n") && EndsWith(r, "\n")
    ensures r == "\n\n" <==> c.attrs == []
    ensures c.attrs != [] ==> !AllSpace(r) && StartsWith(r, "\n\n\n")
  {
    var body := if c.attrs != [] then FormatAttributes(c.attrs, t) else "";
    var r := "\n" + body + "\n";
    assert r[..1] == "\n" && r[|r| - 1..] == "\n";
    if c.attrs != [] then
      AllSpaceAppend("\n" + body, "\n");
      AllSpaceAppend("\n", body);
      assert r[1..3] == body[..2];
      r
    else r
  }

  /**
   * `format_module`: like a class, except that a docstring with no visible
   * text is replaced by the "Empty Module" text. That happens exactly when
   * the module has no attributes.
   */
  function FormatModule(m: ModuleDetails, t: FormatTemplate): (r: string)
    requires WellFormed(t)
    ensures r == EmptyModule <==> m.attrs == []
    ensures m.attrs != [] ==> r == FormatClass(ClassDetails(m.attrs), t)
  {
    var doc := FormatClass(ClassDetails(m.attrs), t);
    ModuleText(m, t);
    if Strip(doc) == [] then EmptyModule else doc
  }

  /** The module text before the empty check is blank exactly when there are no attributes, and is never the empty-module text. */
  lemma ModuleText(m: ModuleDetails, t: FormatTemplate)
    requires WellFormed(t)
    ensures Strip(FormatClass(ClassDetails(m.attrs), t)) == [] <==> m.attrs == []
    ensures FormatClass(ClassDetails(m.attrs), t) != EmptyModule
  {
    var doc := FormatClass(ClassDetails(m.attrs), t);
    assert Strip(doc) == [] <==> m.attrs == [] by {
      StripEmptyIffAllSpace(doc);
      if m.attrs == [] {
        assert IsSpace(doc[0]) && IsSpace(doc[1]);
      }
    }
    if m.attrs != [] {
      NotEmptyModule(doc);
    }
  }

  lemma NotEmptyModule(doc: string)
    requires StartsWith(doc, "\n\n\n")
    ensures doc != EmptyModule
  {
    assert doc[2] == doc[..3][2] == '\n';
    assert EmptyModule[2] == 'E';
  }

  /**
   * `run`: the style is looked up before anything is rendered, so an unknown
   * style fails with `InvalidFormatterError` whatever the facts are; a known
   * style dispatches on the kind of facts.
   */
  function Run(details: IngestedDetails, style: string): (r: Result<string, Failure>)
    ensures r.Err? <==> style !in ListValues
    ensures r.Err? ==> r.error == InvalidFormatter(style)
    ensures r.Ok? ==> StartsWith(r.value, "\n") && EndsWith(r.value, "\n")
    ensures style in ListValues ==> WellFormed(TemplateMap(StyleNamed(style).value))
    ensures style in ListValues && details.FunctionFacts? ==>
      r == Ok(FormatFunction(details.fn, TemplateMap(StyleNamed(style).value)))
    ensures style in ListValues && details.ClassFacts? ==>
      r == Ok(FormatClass(details.cls, TemplateMap(StyleNamed(style).value)))
    ensures style in ListValues && details.ModuleFacts? ==>
      r == Ok(FormatModule(details.mod, TemplateMap(StyleNamed(style).value)))
  {
    var t :- GetStyleTemplate(style);
    Ok(Render(details, t))
  }

  /** The renderer for the kind of facts given: each kind goes to its own, framed by newlines. */
  function Render(details: IngestedDetails, t: FormatTemplate): (r: string)
    requires WellFormed(t)
    ensures StartsWith(r, "\n") && EndsWith(r, "\n")
    ensures details.FunctionFacts? ==> r == FormatFunction(details.fn, t)
    ensures details.ClassFacts? ==> r == FormatClass(details.cls, t)
    ensures details.ModuleFacts? ==> r == FormatModule(details.mod, t)
  {
    match details
    case FunctionFacts(d) => FormatFunction(d, t)
    case ClassFacts(c) => FormatClass(c, t)
    case ModuleFacts(m) =>
      var doc := FormatModule(m, t);
      assert doc == EmptyModule || doc == FormatClass(ClassDetails(m.attrs), t);
      doc
  }

  /** Fresh records render the same in every style: two newlines, or the empty-module text. */
  lemma FreshDetailsRender(style: string)
    requires style in ListValues
    ensures Run(FunctionFacts(NewFunction), style) == Ok("\n\n")
    ensures Run(ClassFacts(NewClass), style) == Ok("\n\n")
    ensures Run(ModuleFacts(NewModule), style) == Ok(EmptyModule)
  {
    FreshRender(GetStyleTemplate(style).value);
  }

  lemma FreshRender(t: FormatTemplate)
    requires WellFormed(t)
    ensures FormatFunction(NewFunction, t) == "\n\n"
    ensures FormatClass(NewClass, t) == "\n\n"
    ensures FormatModule(NewModule, t) == EmptyModule
  {
    FreshFunctionIsEmpty();
  }

  // ---------------------------------------------------------------------------
  // Outputs the Google formatting tests pin

  /** The facts of a function declared with only `*args` and `**kwargs`. */
  const StarsOnly := NewFunction.(args := Some("args"), kwargs := Some("kwargs"))

  /** In any style, such a function gets the parameters header and the two star lines, nothing else. */
  lemma StarsOnlyRender(t: FormatTemplate)
    requires WellFormed(t)
    ensures FormatFunction(StarsOnly, t) == "\n" + (Fill(t.startArgsBlock, [])
      + Fill(t.paramPlaceholderArgs, ["args", ArgsDescription])
      + Fill(t.paramPlaceholderKwargs, ["kwargs", KwargsDescription])) + "\n"
  {
    assert ParamRows(StarsOnly.params) == [];
    assert ReturnsPart(StarsOnly, t) == "" && YieldsPart(StarsOnly, t) == "" && RaisesPart(StarsOnly, t) == "";
  }

  /**
   * The Google text of that function, as the formatting tests pin it: an
   * empty line, the `Args:` header, `    *args: ` and `    **kwargs: ` each
   * with its fixed description, and a closing empty line.
   */
  lemma GoogleStarsExample()
    ensures WellFormed(GoogleTemplate)
    ensures FormatFunction(StarsOnly, GoogleTemplate)
      == "\n" + "\n\nArgs:\n" + ("    *" + "args" + ": " + ArgsDescription + "\n")
      + ("    **" + "kwargs" + ": " + KwargsDescription + "\n") + "\n"
  {
    var t := GoogleTemplate;
    GoogleWellFormed();
    StarsOnlyRender(t);
    Headers();
    GoogleParamLines("args", ArgsDescription, "");
    GoogleParamLines("kwargs", KwargsDescription, "");
    AssembleFive("\n", "\n\nArgs:\n", "    *" + "args" + ": " + ArgsDescription + "\n",
      "    **" + "kwargs" + ": " + KwargsDescription + "\n", "\n");
  }

  lemma AssembleFive(a: string, b: string, c: string, d: string, e: string)
    ensures a + (b + c + d) + e == a + b + c + d + e
  {
  }
}
