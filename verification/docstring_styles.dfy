/**
 * The three output styles and their format templates, with the lookup that
 * refuses any other style name.
 */
module DocstringStyles {
  import opened Wrappers
  import opened Text
  import opened Template
  import opened Exc

  datatype DocstringStyle = Google | Numpy | ReST {
    /** The enum value; the enum is a string enum, so the value is also how a style is looked up. */
    function Value(): string {
      match this
      case Google => "google"
      case Numpy => "numpy"
      case ReST => "reST"
    }
  }

  /** `DocstringStyle.list_values()`, in declaration order. */
  const ListValues: seq<string> := [Google.Value(), Numpy.Value(), ReST.Value()]

  /** The style whose value is `name`, if any (string enum members compare equal to their values). */
  function StyleNamed(name: string): (r: Option<DocstringStyle>)
    ensures r.Some? <==> name in ListValues
    ensures r.Some? ==> r.value.Value() == name
  {
    if name == "google" then Some(Google)
    else if name == "numpy" then Some(Numpy)
    else if name == "reST" then Some(ReST)
    else None
  }

  /** Looking a style up by its own value finds that style. */
  lemma StyleNamedValue(s: DocstringStyle)
    ensures StyleNamed(s.Value()) == Some(s)
  {
  }

  /** The thirteen format strings of one style. */
  datatype FormatTemplate = FormatTemplate(
    startArgsBlock: Format,
    paramPlaceholder: Format,
    paramPlaceholderArgs: Format,
    paramPlaceholderKwargs: Format,
    startReturnBlock: Format,
    returnPlaceholder: Format,
    returnAnnotationPlaceholder: Format,
    startYieldBlock: Format,
    yieldPlaceholder: Format,
    startRaiseBlock: Format,
    raisePlaceholder: Format,
    startAttributes: Format,
    attributePlaceholder: Format)

  const GoogleTemplate := FormatTemplate(
    [Lit("\n\nArgs:\n")],
    [Lit("    "), Slot(0), Lit(" ("), Slot(1), Lit("): "), Slot(2), Lit("\n")],
    [Lit("    *"), Slot(0), Lit(": "), Slot(1), Lit("\n")],
    [Lit("    **"), Slot(0), Lit(": "), Slot(1), Lit("\n")],
    [Lit("\n\nReturns:\n")],
    [Lit("    "), Slot(0), Lit(": "), Slot(1), Lit("\n")],
    [Lit("    "), Slot(0), Lit(": \n")],
    [Lit("\n\nYields:\n")],
    [Lit("    "), Slot(0), Lit(": "), Slot(1), Lit("\n")],
    [Lit("\n\nRaises:\n")],
    [Lit("    "), Slot(0), Lit(": \n")],
    [Lit("\n\nAttributes:\n")],
    [Lit("    "), Slot(0), Lit(" ("), Slot(1), Lit("): "), Slot(2), Lit("\n")])

  const NumpyTemplate := FormatTemplate(
    [Lit("\n\n    Parameters\n    ----------\n")],
    [Lit("    "), Slot(0), Lit(" : "), Slot(1), Lit("\n        "), Slot(2), Lit("\n")],
    [Lit("    *"), Slot(0), Lit("\n        "), Slot(1), Lit("\n")],
    [Lit("    **"), Slot(0), Lit("\n        "), Slot(1), Lit("\n")],
    [Lit("\n\n    Returns\n    -------\n")],
    [Lit("    "), Slot(0), Lit("\n        "), Slot(1), Lit("\n")],
    [Lit("    "), Slot(0), Lit("\n        \n")],
    [Lit("\n\n    Yields\n    ------\n")],
    [Lit("    "), Slot(0), Lit("\n        "), Slot(1), Lit("\n")],
    [Lit("\n\n    Raises\n    ------\n")],
    [Lit("    "), Slot(0), Lit("\n        \n")],
    [Lit("\n\n    Attributes\n    ----------\n")],
    [Lit("    "), Slot(0), Lit(" : "), Slot(1), Lit("\n        "), Slot(2), Lit("\n")])

  const ReSTTemplate := FormatTemplate(
    [Lit("\n\n")],
    [Lit(":param "), Slot(0), Lit(": "), Slot(2), Lit("\n:type "), Slot(0), Lit(": "), Slot(1), Lit("\n")],
    [Lit(":param *"), Slot(0), Lit(": "), Slot(1), Lit("\n")],
    [Lit(":param **"), Slot(0), Lit(": "), Slot(1), Lit("\n")],
    [Lit("\n\n")],
    [Lit(":return: "), Slot(1), Lit("\n:rtype: "), Slot(0), Lit("\n")],
    [Lit(":return: \n:rtype: "), Slot(0), Lit("\n")],
    [Lit("\n\n")],
    [Lit(":yields: "), Slot(1), Lit("\n:ytype: "), Slot(0), Lit("\n")],
    [Lit("\n\n")],
    [Lit(":raises "), Slot(0), Lit(": \n")],
    [Lit("\n\n")],
    [Lit(":var "), Slot(0), Lit(": "), Slot(2), Lit("\n:type "), Slot(0), Lit(": "), Slot(1), Lit("\n")])

  /** `TEMPLATE_MAP[style]` */
  function TemplateMap(style: DocstringStyle): FormatTemplate {
    match style
    case Google => GoogleTemplate
    case Numpy => NumpyTemplate
    case ReST => ReSTTemplate
  }

  /** A section header: fixed text that opens with a blank line. */
  predicate IsHeader(h: Format) {
    IsLiteral(h) && StartsWith(Fill(h, []), "\n\n")
  }

  /** An entry line: reads only its `arity` arguments and ends the line. */
  predicate IsLine(p: Format, arity: nat) {
    SlotsBelow(p, arity) && EndsWithNewline(p)
  }

  /**
   * What the renderer relies on: every header opens with a blank line, every
   * entry template reads no more arguments than its call site passes (so no
   * `IndexError`) and ends its line, and an attribute entry is never blank.
   */
  predicate WellFormed(t: FormatTemplate) {
    && IsHeader(t.startArgsBlock) && IsHeader(t.startReturnBlock) && IsHeader(t.startYieldBlock)
    && IsHeader(t.startRaiseBlock) && IsHeader(t.startAttributes)
    && IsLine(t.paramPlaceholder, 3)
    && IsLine(t.paramPlaceholderArgs, 2) && IsLine(t.paramPlaceholderKwargs, 2)
    && IsLine(t.returnPlaceholder, 2) && IsLine(t.returnAnnotationPlaceholder, 1)
    && IsLine(t.yieldPlaceholder, 2) && IsLine(t.raisePlaceholder, 1)
    && IsLine(t.attributePlaceholder, 3)
    && HasVisibleText(t.attributePlaceholder)
  }

  lemma HeaderFill(s: string)
    ensures Fill([Lit(s)], []) == s
  {
    assert [Lit(s)][1..] == [];
  }

  lemma HeaderShape(h: Format, s: string)
    requires h == [Lit(s)] && StartsWith(s, "\n\n")
    ensures IsHeader(h)
  {
    HeaderFill(s);
  }

  lemma GoogleHeaders()
    ensures var t := GoogleTemplate;
      IsHeader(t.startArgsBlock) && IsHeader(t.startReturnBlock) && IsHeader(t.startYieldBlock)
      && IsHeader(t.startRaiseBlock) && IsHeader(t.startAttributes)
  {
    var t := GoogleTemplate;
    assert IsHeader(t.startArgsBlock) by { HeaderShape(t.startArgsBlock, "\n\nArgs:\n"); }
    assert IsHeader(t.startReturnBlock) by { HeaderShape(t.startReturnBlock, "\n\nReturns:\n"); }
    assert IsHeader(t.startYieldBlock) by { HeaderShape(t.startYieldBlock, "\n\nYields:\n"); }
    assert IsHeader(t.startRaiseBlock) by { HeaderShape(t.startRaiseBlock, "\n\nRaises:\n"); }
    assert IsHeader(t.startAttributes) by { HeaderShape(t.startAttributes, "\n\nAttributes:\n"); }
  }

  lemma GoogleParamEntries()
    ensures var t := GoogleTemplate;
      && IsLine(t.paramPlaceholder, 3)
      && IsLine(t.paramPlaceholderArgs, 2) && IsLine(t.paramPlaceholderKwargs, 2)
      && IsLine(t.attributePlaceholder, 3)
      && HasVisibleText(t.attributePlaceholder)
  {
    var t := GoogleTemplate;
    assert IsLine(t.paramPlaceholder, 3);
    assert IsLine(t.paramPlaceholderArgs, 2);
    assert IsLine(t.paramPlaceholderKwargs, 2);
    assert IsLine(t.attributePlaceholder, 3);
    assert HasVisibleText(t.attributePlaceholder);
  }

  lemma GoogleReturnEntries()
    ensures var t := GoogleTemplate;
      && IsLine(t.returnPlaceholder, 2) && IsLine(t.returnAnnotationPlaceholder, 1)
      && IsLine(t.yieldPlaceholder, 2) && IsLine(t.raisePlaceholder, 1)
  {
    var t := GoogleTemplate;
    assert IsLine(t.returnPlaceholder, 2);
    assert IsLine(t.returnAnnotationPlaceholder, 1) by { assert EndsWith(": \n", "\n"); }
    assert IsLine(t.yieldPlaceholder, 2);
    assert IsLine(t.raisePlaceholder, 1) by { assert EndsWith(": \n", "\n"); }
  }

  lemma GoogleWellFormed()
    ensures WellFormed(GoogleTemplate)
  {
    GoogleHeaders();
    GoogleParamEntries();
    GoogleReturnEntries();
  }

  lemma NumpyHeaders()
    ensures var t := NumpyTemplate;
      IsHeader(t.startArgsBlock) && IsHeader(t.startReturnBlock) && IsHeader(t.startYieldBlock)
      && IsHeader(t.startRaiseBlock) && IsHeader(t.startAttributes)
  {
    var t := NumpyTemplate;
    assert IsHeader(t.startArgsBlock) by { HeaderShape(t.startArgsBlock, "\n\n    Parameters\n    ----------\n"); }
    assert IsHeader(t.startReturnBlock) by { HeaderShape(t.startReturnBlock, "\n\n    Returns\n    -------\n"); }
    assert IsHeader(t.startYieldBlock) by { HeaderShape(t.startYieldBlock, "\n\n    Yields\n    ------\n"); }
    assert IsHeader(t.startRaiseBlock) by { HeaderShape(t.startRaiseBlock, "\n\n    Raises\n    ------\n"); }
    assert IsHeader(t.startAttributes) by { HeaderShape(t.startAttributes, "\n\n    Attributes\n    ----------\n"); }
  }

  lemma NumpyParamEntries()
    ensures var t := NumpyTemplate;
      && IsLine(t.paramPlaceholder, 3)
      && IsLine(t.paramPlaceholderArgs, 2) && IsLine(t.paramPlaceholderKwargs, 2)
      && IsLine(t.attributePlaceholder, 3)
      && HasVisibleText(t.attributePlaceholder)
  {
    NumpyNamedEntries();
    NumpyStarEntries();
  }

  lemma NumpyNamedEntries()
    ensures var t := NumpyTemplate;
      IsLine(t.paramPlaceholder, 3) && IsLine(t.attributePlaceholder, 3) && HasVisibleText(t.attributePlaceholder)
  {
    var t := NumpyTemplate;
    assert IsLine(t.paramPlaceholder, 3);
    assert IsLine(t.attributePlaceholder, 3);
    assert HasVisibleText(t.attributePlaceholder);
  }

  lemma NumpyStarEntries()
    ensures var t := NumpyTemplate;
      IsLine(t.paramPlaceholderArgs, 2) && IsLine(t.paramPlaceholderKwargs, 2)
  {
    var t := NumpyTemplate;
    assert IsLine(t.paramPlaceholderArgs, 2);
    assert IsLine(t.paramPlaceholderKwargs, 2);
  }

  lemma NumpyReturnEntries()
    ensures var t := NumpyTemplate;
      && IsLine(t.returnPlaceholder, 2) && IsLine(t.returnAnnotationPlaceholder, 1)
      && IsLine(t.yieldPlaceholder, 2) && IsLine(t.raisePlaceholder, 1)
  {
    var t := NumpyTemplate;
    assert IsLine(t.returnPlaceholder, 2);
    assert IsLine(t.returnAnnotationPlaceholder, 1) by { assert EndsWith("\n        \n", "\n"); }
    assert IsLine(t.yieldPlaceholder, 2);
    assert IsLine(t.raisePlaceholder, 1) by { assert EndsWith("\n        \n", "\n"); }
  }

  lemma NumpyWellFormed()
    ensures WellFormed(NumpyTemplate)
  {
    NumpyHeaders();
    NumpyParamEntries();
    NumpyReturnEntries();
  }

  lemma ReSTHeaders()
    ensures var t := ReSTTemplate;
      IsHeader(t.startArgsBlock) && IsHeader(t.startReturnBlock) && IsHeader(t.startYieldBlock)
      && IsHeader(t.startRaiseBlock) && IsHeader(t.startAttributes)
  {
    HeaderShape([Lit("\n\n")], "\n\n");
  }

  lemma ReSTParamEntries()
    ensures var t := ReSTTemplate;
      && IsLine(t.paramPlaceholder, 3)
      && IsLine(t.paramPlaceholderArgs, 2) && IsLine(t.paramPlaceholderKwargs, 2)
      && IsLine(t.attributePlaceholder, 3)
      && HasVisibleText(t.attributePlaceholder)
  {
    var t := ReSTTemplate;
    assert IsLine(t.paramPlaceholder, 3);
    assert IsLine(t.paramPlaceholderArgs, 2);
    assert IsLine(t.paramPlaceholderKwargs, 2);
    assert IsLine(t.attributePlaceholder, 3);
    assert HasVisibleText(t.attributePlaceholder);
  }

  lemma ReSTReturnEntries()
    ensures var t := ReSTTemplate;
      && IsLine(t.returnPlaceholder, 2) && IsLine(t.returnAnnotationPlaceholder, 1)
      && IsLine(t.yieldPlaceholder, 2) && IsLine(t.raisePlaceholder, 1)
  {
    var t := ReSTTemplate;
    assert IsLine(t.returnPlaceholder, 2);
    assert IsLine(t.returnAnnotationPlaceholder, 1);
    assert IsLine(t.yieldPlaceholder, 2);
    assert IsLine(t.raisePlaceholder, 1) by { assert EndsWith(": \n", "\n"); }
  }

  lemma ReSTWellFormed()
    ensures WellFormed(ReSTTemplate)
  {
    ReSTHeaders();
    ReSTParamEntries();
    ReSTReturnEntries();
  }

  /** Every style in the table is well formed. */
  lemma TemplateMapWellFormed(style: DocstringStyle)
    ensures WellFormed(TemplateMap(style))
  {
    match style
    case Google => GoogleWellFormed();
    case Numpy => NumpyWellFormed();
    case ReST => ReSTWellFormed();
  }

  /**
   * `get_style_template`: the template of a known style; any other name
   * fails with `InvalidFormatterError`.
   */
  function GetStyleTemplate(style: string): (r: Result<FormatTemplate, Failure>)
    ensures r.Ok? <==> style in ListValues
    ensures r.Ok? ==> WellFormed(r.value)
    ensures r.Ok? ==> r.value == TemplateMap(StyleNamed(style).value)
    ensures r.Err? ==> r.error == InvalidFormatter(style)
  {
    match StyleNamed(style)
    case None => Err(InvalidFormatter(style))
    case Some(s) =>
      TemplateMapWellFormed(s);
      Ok(TemplateMap(s))
  }

  // ---------------------------------------------------------------------------
  // What each entry template produces, style by style

  lemma GoogleParamLines(a: string, b: string, c: string)
    ensures Fill(GoogleTemplate.paramPlaceholder, [a, b, c]) == "    " + a + " (" + b + "): " + c + "\n"
    ensures Fill(GoogleTemplate.paramPlaceholderArgs, [a, b]) == "    *" + a + ": " + b + "\n"
    ensures Fill(GoogleTemplate.paramPlaceholderKwargs, [a, b]) == "    **" + a + ": " + b + "\n"
    ensures Fill(GoogleTemplate.attributePlaceholder, [a, b, c]) == "    " + a + " (" + b + "): " + c + "\n"
  {
    FillThree(GoogleTemplate.paramPlaceholder, "    ", 0, " (", 1, "): ", 2, "\n", [a, b, c]);
    FillTwo(GoogleTemplate.paramPlaceholderArgs, "    *", 0, ": ", 1, "\n", [a, b]);
    FillTwo(GoogleTemplate.paramPlaceholderKwargs, "    **", 0, ": ", 1, "\n", [a, b]);
  }

  lemma GoogleReturnLines(a: string, b: string)
    ensures Fill(GoogleTemplate.returnPlaceholder, [a, b]) == "    " + a + ": " + b + "\n"
    ensures Fill(GoogleTemplate.returnAnnotationPlaceholder, [a]) == "    " + a + ": \n"
    ensures Fill(GoogleTemplate.yieldPlaceholder, [a, b]) == "    " + a + ": " + b + "\n"
    ensures Fill(GoogleTemplate.raisePlaceholder, [a]) == "    " + a + ": \n"
  {
    FillTwo(GoogleTemplate.returnPlaceholder, "    ", 0, ": ", 1, "\n", [a, b]);
    FillOne(GoogleTemplate.raisePlaceholder, "    ", 0, ": \n", [a]);
  }

  lemma NumpyParamLines(a: string, b: string, c: string)
    ensures Fill(NumpyTemplate.paramPlaceholder, [a, b, c]) == "    " + a + " : " + b + "\n        " + c + "\n"
    ensures Fill(NumpyTemplate.paramPlaceholderArgs, [a, b]) == "    *" + a + "\n        " + b + "\n"
    ensures Fill(NumpyTemplate.paramPlaceholderKwargs, [a, b]) == "    **" + a + "\n        " + b + "\n"
    ensures Fill(NumpyTemplate.attributePlaceholder, [a, b, c]) == "    " + a + " : " + b + "\n        " + c + "\n"
  {
    FillThree(NumpyTemplate.paramPlaceholder, "    ", 0, " : ", 1, "\n        ", 2, "\n", [a, b, c]);
    FillTwo(NumpyTemplate.paramPlaceholderArgs, "    *", 0, "\n        ", 1, "\n", [a, b]);
    FillTwo(NumpyTemplate.paramPlaceholderKwargs, "    **", 0, "\n        ", 1, "\n", [a, b]);
  }

  lemma NumpyReturnLines(a: string, b: string)
    ensures Fill(NumpyTemplate.returnPlaceholder, [a, b]) == "    " + a + "\n        " + b + "\n"
    ensures Fill(NumpyTemplate.returnAnnotationPlaceholder, [a]) == "    " + a + "\n        \n"
    ensures Fill(NumpyTemplate.yieldPlaceholder, [a, b]) == "    " + a + "\n        " + b + "\n"
    ensures Fill(NumpyTemplate.raisePlaceholder, [a]) == "    " + a + "\n        \n"
  {
    FillTwo(NumpyTemplate.returnPlaceholder, "    ", 0, "\n        ", 1, "\n", [a, b]);
    FillOne(NumpyTemplate.raisePlaceholder, "    ", 0, "\n        \n", [a]);
  }

  /** In reST a parameter's name is written twice, and its description comes before its type. */
  lemma ReSTParamLines(a: string, b: string, c: string)
    ensures Fill(ReSTTemplate.paramPlaceholder, [a, b, c]) == ":param " + a + ": " + c + "\n:type " + a + ": " + b + "\n"
    ensures Fill(ReSTTemplate.paramPlaceholderArgs, [a, b]) == ":param *" + a + ": " + b + "\n"
    ensures Fill(ReSTTemplate.paramPlaceholderKwargs, [a, b]) == ":param **" + a + ": " + b + "\n"
    ensures Fill(ReSTTemplate.attributePlaceholder, [a, b, c]) == ":var " + a + ": " + c + "\n:type " + a + ": " + b + "\n"
  {
    ReSTNamedLines(a, b, c);
    ReSTStarLines(a, b);
  }

  lemma ReSTNamedLines(a: string, b: string, c: string)
    ensures Fill(ReSTTemplate.paramPlaceholder, [a, b, c]) == ":param " + a + ": " + c + "\n:type " + a + ": " + b + "\n"
    ensures Fill(ReSTTemplate.attributePlaceholder, [a, b, c]) == ":var " + a + ": " + c + "\n:type " + a + ": " + b + "\n"
  {
    FillFour(ReSTTemplate.paramPlaceholder, ":param ", 0, ": ", 2, "\n:type ", 0, ": ", 1, "\n", [a, b, c]);
    FillFour(ReSTTemplate.attributePlaceholder, ":var ", 0, ": ", 2, "\n:type ", 0, ": ", 1, "\n", [a, b, c]);
  }

  lemma ReSTStarLines(a: string, b: string)
    ensures Fill(ReSTTemplate.paramPlaceholderArgs, [a, b]) == ":param *" + a + ": " + b + "\n"
    ensures Fill(ReSTTemplate.paramPlaceholderKwargs, [a, b]) == ":param **" + a + ": " + b + "\n"
  {
    FillTwo(ReSTTemplate.paramPlaceholderArgs, ":param *", 0, ": ", 1, "\n", [a, b]);
    FillTwo(ReSTTemplate.paramPlaceholderKwargs, ":param **", 0, ": ", 1, "\n", [a, b]);
  }

  /** In reST a return entry puts the expression first and the type second. */
  lemma ReSTReturnLines(a: string, b: string)
    ensures Fill(ReSTTemplate.returnPlaceholder, [a, b]) == ":return: " + b + "\n:rtype: " + a + "\n"
    ensures Fill(ReSTTemplate.returnAnnotationPlaceholder, [a]) == ":return: \n:rtype: " + a + "\n"
    ensures Fill(ReSTTemplate.yieldPlaceholder, [a, b]) == ":yields: " + b + "\n:ytype: " + a + "\n"
    ensures Fill(ReSTTemplate.raisePlaceholder, [a]) == ":raises " + a + ": \n"
  {
    FillTwo(ReSTTemplate.returnPlaceholder, ":return: ", 1, "\n:rtype: ", 0, "\n", [a, b]);
    FillTwo(ReSTTemplate.yieldPlaceholder, ":yields: ", 1, "\n:ytype: ", 0, "\n", [a, b]);
    FillOne(ReSTTemplate.returnAnnotationPlaceholder, ":return: \n:rtype: ", 0, "\n", [a]);
    FillOne(ReSTTemplate.raisePlaceholder, ":raises ", 0, ": \n", [a]);
  }

  /** The section headers of each style, as text. */
  lemma Headers()
    ensures Fill(GoogleTemplate.startArgsBlock, []) == "\n\nArgs:\n"
    ensures Fill(GoogleTemplate.startReturnBlock, []) == "\n\nReturns:\n"
    ensures Fill(GoogleTemplate.startYieldBlock, []) == "\n\nYields:\n"
    ensures Fill(GoogleTemplate.startRaiseBlock, []) == "\n\nRaises:\n"
    ensures Fill(GoogleTemplate.startAttributes, []) == "\n\nAttributes:\n"
    ensures Fill(NumpyTemplate.startArgsBlock, []) == "\n\n    Parameters\n    ----------\n"
    ensures Fill(NumpyTemplate.startReturnBlock, []) == "\n\n    Returns\n    -------\n"
    ensures Fill(NumpyTemplate.startYieldBlock, []) == "\n\n    Yields\n    ------\n"
    ensures Fill(NumpyTemplate.startRaiseBlock, []) == "\n\n    Raises\n    ------\n"
    ensures Fill(NumpyTemplate.startAttributes, []) == "\n\n    Attributes\n    ----------\n"
    ensures Fill(ReSTTemplate.startArgsBlock, []) == "\n\n"
    ensures Fill(ReSTTemplate.startReturnBlock, []) == "\n\n"
    ensures Fill(ReSTTemplate.startYieldBlock, []) == "\n\n"
    ensures Fill(ReSTTemplate.startRaiseBlock, []) == "\n\n"
    ensures Fill(ReSTTemplate.startAttributes, []) == "\n\n"
  {
    HeaderFill("\n\nArgs:\n");
    HeaderFill("\n\nReturns:\n");
    HeaderFill("\n\nYields:\n");
    HeaderFill("\n\nRaises:\n");
    HeaderFill("\n\nAttributes:\n");
    HeaderFill("\n\n    Parameters\n    ----------\n");
    HeaderFill("\n\n    Returns\n    -------\n");
    HeaderFill("\n\n    Yields\n    ------\n");
    HeaderFill("\n\n    Raises\n    ------\n");
    HeaderFill("\n\n    Attributes\n    ----------\n");
    HeaderFill("\n\n");
  }
}
