/**
 * The section builders of the renderer: each returns a section header
 * followed by one filled entry line per item.
 */
module FormatUtils {
  import opened Wrappers
  import opened Text
  import opened Template
  import opened DataStructures
  import opened DocstringStyles

  /** The fixed description written for `*args`. */
  const ArgsDescription := "Variable length argument list."

  /** The fixed description written for `**kwargs`. */
  const KwargsDescription := "Arbitrary keyword arguments."

  /** The third argument of a parameter line: the default value in double back-quotes, or nothing. */
  function DefaultText(p: ParamDetails): (r: string)
    ensures r != "" <==> Truthy(p.default)
    ensures r != "" ==> StartsWith(r, " default: ``") && EndsWith(r, "``")
  {
    if Truthy(p.default) then " default: ``" + p.default.value + "``" else ""
  }

  /** Arguments of a parameter line: name, type, default text. */
  function ParamRows(ps: seq<ParamDetails>): seq<seq<string>> {
    seq(|ps|, i requires 0 <= i < |ps| => [ps[i].name, ps[i].typeName, DefaultText(ps[i])])
  }

  /** Arguments of a return or yield line: type, expression. */
  function ReturnRows(rs: seq<ReturnDetails>): seq<seq<string>> {
    seq(|rs|, i requires 0 <= i < |rs| => [rs[i].typeName, rs[i].expression])
  }

  /** Arguments of a raise line: the exception name. */
  function RaiseRows(names: seq<string>): seq<seq<string>> {
    seq(|names|, i requires 0 <= i < |names| => [names[i]])
  }

  /** Arguments of an attribute line: name, type, code. */
  function AttrRows(attrs: seq<AttrDetails>): seq<seq<string>> {
    seq(|attrs|, i requires 0 <= i < |attrs| => [attrs[i].name, attrs[i].typeName, attrs[i].code])
  }

  /** The `*args` or `**kwargs` line, present exactly when the name is truthy. */
  function StarLine(placeholder: Format, name: Option<string>, description: string): string
    requires SlotsBelow(placeholder, 2)
  {
    if Truthy(name) then Fill(placeholder, [name.value, description]) else ""
  }

  lemma HeaderPrefix(h: Format, rest: string)
    requires IsHeader(h)
    ensures StartsWith(Fill(h, []) + rest, "\n\n")
  {
    StartsWithAppend(Fill(h, []), rest, "\n\n");
  }

  /**
   * `format_params`: the parameters header, then the `*args` line, then the
   * `**kwargs` line, then one line per ordinary parameter in declaration order.
   */
  function FormatParams(d: FunctionDetails, t: FormatTemplate): (r: string)
    requires WellFormed(t)
    ensures r == Fill(t.startArgsBlock, [])
      + StarLine(t.paramPlaceholderArgs, d.args, ArgsDescription)
      + StarLine(t.paramPlaceholderKwargs, d.kwargs, KwargsDescription)
      + Concat(FillRows(t.paramPlaceholder, ParamRows(d.params)))
    ensures StartsWith(r, "\n\n")
  {
    var h := Fill(t.startArgsBlock, []);
    var stars := StarLine(t.paramPlaceholderArgs, d.args, ArgsDescription)
      + StarLine(t.paramPlaceholderKwargs, d.kwargs, KwargsDescription);
    var r := FillEach(h + stars, t.paramPlaceholder, ParamRows(d.params));
    var lines := Concat(FillRows(t.paramPlaceholder, ParamRows(d.params)));
    HeaderPrefix(t.startArgsBlock, stars + lines);
    AppendAssoc(h, stars, lines);
    r
  }

  /** `format_returns`: the returns header, then one line per return statement, in order. */
  function FormatReturns(rs: seq<ReturnDetails>, t: FormatTemplate): (r: string)
    requires WellFormed(t)
    ensures r == Fill(t.startReturnBlock, []) + Concat(FillRows(t.returnPlaceholder, ReturnRows(rs)))
    ensures StartsWith(r, "\n\n")
  {
    var r := FillEach(Fill(t.startReturnBlock, []), t.returnPlaceholder, ReturnRows(rs));
    HeaderPrefix(t.startReturnBlock, Concat(FillRows(t.returnPlaceholder, ReturnRows(rs))));
    r
  }

  /** `format_annotation`: the returns header, then the single annotation line. */
  function FormatAnnotation(annotation: string, t: FormatTemplate): (r: string)
    requires WellFormed(t)
    ensures StartsWith(r, Fill(t.startReturnBlock, [])) && StartsWith(r, "\n\n")
    ensures r[|Fill(t.startReturnBlock, [])|..] == Fill(t.returnAnnotationPlaceholder, [annotation])
  {
    var h := Fill(t.startReturnBlock, []);
    var line := Fill(t.returnAnnotationPlaceholder, [annotation]);
    HeaderPrefix(t.startReturnBlock, line);
    assert (h + line)[..|h|] == h && (h + line)[|h|..] == line;
    h + line
  }

  /** `format_yields`: the yields header, then one line per yield expression, in order. */
  function FormatYields(ys: seq<ReturnDetails>, t: FormatTemplate): (r: string)
    requires WellFormed(t)
    ensures r == Fill(t.startYieldBlock, []) + Concat(FillRows(t.yieldPlaceholder, ReturnRows(ys)))
    ensures StartsWith(r, "\n\n")
  {
    var r := FillEach(Fill(t.startYieldBlock, []), t.yieldPlaceholder, ReturnRows(ys));
    HeaderPrefix(t.startYieldBlock, Concat(FillRows(t.yieldPlaceholder, ReturnRows(ys))));
    r
  }

  /** `format_raises`: the raises header, then one line per raised exception, in order. */
  function FormatRaises(names: seq<string>, t: FormatTemplate): (r: string)
    requires WellFormed(t)
    ensures r == Fill(t.startRaiseBlock, []) + Concat(FillRows(t.raisePlaceholder, RaiseRows(names)))
    ensures StartsWith(r, "\n\n")
  {
    var r := FillEach(Fill(t.startRaiseBlock, []), t.raisePlaceholder, RaiseRows(names));
    HeaderPrefix(t.startRaiseBlock, Concat(FillRows(t.raisePlaceholder, RaiseRows(names))));
    r
  }

  /**
   * `format_attributes`: the attributes header, then one line per attribute,
   * in order; with at least one attribute the section has visible text.
   */
  function FormatAttributes(attrs: seq<AttrDetails>, t: FormatTemplate): (r: string)
    requires WellFormed(t)
    ensures r == Fill(t.startAttributes, []) + Concat(FillRows(t.attributePlaceholder, AttrRows(attrs)))
    ensures StartsWith(r, "\n\n")
    ensures attrs != [] ==> !AllSpace(r)
  {
    var h := Fill(t.startAttributes, []);
    var lines := FillRows(t.attributePlaceholder, AttrRows(attrs));
    var r := FillEach(h, t.attributePlaceholder, AttrRows(attrs));
    HeaderPrefix(t.startAttributes, Concat(lines));
    if attrs == [] then r
    else
      FillVisible(t.attributePlaceholder, AttrRows(attrs)[0]);
      AllSpaceAppend(lines[0], Concat(lines[1..]));
      AllSpaceAppend(h, Concat(lines));
      r
  }

  // ---------------------------------------------------------------------------
  // Adding one item adds exactly one line at the end of its section

  lemma {:induction false} RowsSnoc(t: Format, rows: seq<seq<string>>, row: seq<string>)
    requires forall i :: 0 <= i < |rows| ==> SlotsBelow(t, |rows[i]|)
    requires SlotsBelow(t, |row|)
    ensures Concat(FillRows(t, rows + [row])) == Concat(FillRows(t, rows)) + Fill(t, row)
  {
    assert FillRows(t, rows + [row]) == FillRows(t, rows) + [Fill(t, row)];
    ConcatAppend(FillRows(t, rows), [Fill(t, row)]);
    assert Concat([Fill(t, row)]) == Fill(t, row) + Concat([]);
  }

  /** A further parameter appends exactly its own line after everything already rendered. */
  lemma ParamsGrowByOneLine(d: FunctionDetails, p: ParamDetails, t: FormatTemplate)
    requires WellFormed(t)
    ensures FormatParams(d.(params := d.params + [p]), t)
      == FormatParams(d, t) + Fill(t.paramPlaceholder, [p.name, p.typeName, DefaultText(p)])
  {
    assert ParamRows(d.params + [p]) == ParamRows(d.params) + [[p.name, p.typeName, DefaultText(p)]];
    RowsSnoc(t.paramPlaceholder, ParamRows(d.params), [p.name, p.typeName, DefaultText(p)]);
  }

  /** A further return statement appends exactly its own line. */
  lemma ReturnsGrowByOneLine(rs: seq<ReturnDetails>, x: ReturnDetails, t: FormatTemplate)
    requires WellFormed(t)
    ensures FormatReturns(rs + [x], t) == FormatReturns(rs, t) + Fill(t.returnPlaceholder, [x.typeName, x.expression])
  {
    assert ReturnRows(rs + [x]) == ReturnRows(rs) + [[x.typeName, x.expression]];
    RowsSnoc(t.returnPlaceholder, ReturnRows(rs), [x.typeName, x.expression]);
  }

  /** A further attribute appends exactly its own line. */
  lemma AttributesGrowByOneLine(attrs: seq<AttrDetails>, a: AttrDetails, t: FormatTemplate)
    requires WellFormed(t)
    ensures FormatAttributes(attrs + [a], t) == FormatAttributes(attrs, t) + Fill(t.attributePlaceholder, [a.name, a.typeName, a.code])
  {
    assert AttrRows(attrs + [a]) == AttrRows(attrs) + [[a.name, a.typeName, a.code]];
    RowsSnoc(t.attributePlaceholder, AttrRows(attrs), [a.name, a.typeName, a.code]);
  }

  /** With nothing to list, a section is its header alone. */
  lemma EmptySections(t: FormatTemplate)
    requires WellFormed(t)
    ensures FormatReturns([], t) == Fill(t.startReturnBlock, [])
    ensures FormatYields([], t) == Fill(t.startYieldBlock, [])
    ensures FormatRaises([], t) == Fill(t.startRaiseBlock, [])
    ensures FormatAttributes([], t) == Fill(t.startAttributes, [])
  {
    assert ReturnRows([]) == [] && RaiseRows([]) == [] && AttrRows([]) == [];
  }
}
