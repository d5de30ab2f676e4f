/**
 * The combined extract-and-render layer: reads a function, class or module
 * node and writes the docstring directly with a style template, using the
 * older extraction helpers. Unlike the renderer, it writes the `*args` and
 * `**kwargs` lines where those parameters are declared.
 */
module DocstringFormatter {
  import opened Wrappers
  import opened Text
  import opened Template
  import opened Exc
  import opened DataStructures
  import opened DocstringStyles
  import opened FormatUtils
  import opened FormatDocstring
  import opened SyntaxTree
  import opened UnpackParso
  import opened LegacyFormatUtils

  // ---------------------------------------------------------------------------
  // Functions

  /** The line for one parameter: star parameters get their fixed description. */
  function ParamLine(p: ParamNode, t: FormatTemplate, infer: string -> string): (r: Result<string, Failure>)
    requires WellFormed(t)
    ensures r.Ok? <==> IsStar(p) || GetParamInfo(p, infer).Ok?
  {
    if p.starCount == 1 then Ok(Fill(t.paramPlaceholderArgs, [p.name, ArgsDescription]))
    else if p.starCount == 2 then Ok(Fill(t.paramPlaceholderKwargs, [p.name, KwargsDescription]))
    else
      var info :- GetParamInfo(p, infer);
      Ok(Fill(t.paramPlaceholder, [info.name, info.typeName, info.defaultText]))
  }

  /** One line per parameter, in declaration order. */
  function ParamLines(ps: seq<ParamNode>, t: FormatTemplate, infer: string -> string): (r: Result<string, Failure>)
    requires WellFormed(t)
    ensures r.Ok? <==> OrdinaryUnpack(ps, infer)
  {
    if ps == [] then Ok("")
    else
      assert forall i :: 1 <= i < |ps| ==> ps[i] == ps[1..][i - 1];
      Join(ParamLine(ps[0], t, infer), ParamLines(ps[1..], t, infer))
  }

  /** One line per return statement or yield expression, in order. */
  function ReturnLines(ns: seq<Node>, annotation: Option<Node>, placeholder: Format): (r: Result<string, Failure>)
    requires SlotsBelow(placeholder, 2)
    ensures r.Ok? <==> forall i :: 0 <= i < |ns| ==> GetReturnInfo(ns[i], annotation).Ok?
  {
    if ns == [] then Ok("")
    else
      var info :- GetReturnInfo(ns[0], annotation);
      var rest :- ReturnLines(ns[1..], annotation, placeholder);
      assert forall i :: 1 <= i < |ns| ==> ns[i] == ns[1..][i - 1];
      Ok(Fill(placeholder, [info.typeName, info.expression]) + rest)
  }

  /** One line per raise statement, in order, duplicates kept. */
  function RaiseLines(ns: seq<Node>, t: FormatTemplate): (r: Result<string, Failure>)
    requires WellFormed(t)
    ensures r.Ok? <==> forall i :: 0 <= i < |ns| ==> UnpackExceptionName(ns[i]).Ok?
  {
    if ns == [] then Ok("")
    else
      var name :- UnpackExceptionName(ns[0]);
      var rest :- RaiseLines(ns[1..], t);
      assert forall i :: 1 <= i < |ns| ==> ns[i] == ns[1..][i - 1];
      Ok(Fill(t.raisePlaceholder, [name]) + rest)
  }

  /** The arguments section, present whenever the function declares any parameter, star parameters included. */
  function ParamsBlock(f: FunctionNode, t: FormatTemplate, infer: string -> string): (r: Result<string, Failure>)
    requires WellFormed(t)
    ensures r.Ok? <==> OrdinaryUnpack(f.params, infer)
    ensures r.Ok? ==> IsSection(r.value) && (r.value == "" <==> f.params == [])
  {
    if f.params == [] then Ok("")
    else
      var lines :- ParamLines(f.params, t, infer);
      HeaderPrefix(t.startArgsBlock, lines);
      Ok(Fill(t.startArgsBlock, []) + lines)
  }

  /** The returns section: one line per return statement, or else the annotation line, or nothing. */
  function ReturnsBlock(f: FunctionNode, t: FormatTemplate): (r: Result<string, Failure>)
    requires WellFormed(t)
    ensures r.Ok? <==> ((f.annotation.Some? ==> f.annotation.value.Leaf?)
      && forall i :: 0 <= i < |f.returnStmts| ==> f.returnStmts[i].Branch?)
    ensures r.Ok? ==> IsSection(r.value) && (r.value == "" <==> f.returnStmts == [] && f.annotation.None?)
  {
    if f.returnStmts != [] then
      var lines :- ReturnLines(f.returnStmts, f.annotation, t.returnPlaceholder);
      HeaderPrefix(t.startReturnBlock, lines);
      Ok(Fill(t.startReturnBlock, []) + lines)
    else if f.annotation.Some? then
      var text :- Value(f.annotation.value);
      Ok(FormatAnnotation(text, t))
    else Ok("")
  }

  /** The yields section: one line per yield expression. */
  function YieldsBlock(f: FunctionNode, t: FormatTemplate): (r: Result<string, Failure>)
    requires WellFormed(t)
    ensures r.Ok? <==> (f.yieldExprs == [] ||
      ((f.annotation.Some? ==> f.annotation.value.Leaf?) && forall i :: 0 <= i < |f.yieldExprs| ==> f.yieldExprs[i].Branch?))
    ensures r.Ok? ==> IsSection(r.value) && (r.value == "" <==> f.yieldExprs == [])
  {
    if f.yieldExprs != [] then
      var lines :- ReturnLines(f.yieldExprs, f.annotation, t.yieldPlaceholder);
      HeaderPrefix(t.startYieldBlock, lines);
      Ok(Fill(t.startYieldBlock, []) + lines)
    else Ok("")
  }

  /** The raises section: one line per raise statement. */
  function RaisesBlock(f: FunctionNode, t: FormatTemplate): (r: Result<string, Failure>)
    requires WellFormed(t)
    ensures r.Ok? <==> forall i :: 0 <= i < |f.raiseStmts| ==> UnpackExceptionName(f.raiseStmts[i]).Ok?
    ensures r.Ok? ==> IsSection(r.value) && (r.value == "" <==> f.raiseStmts == [])
  {
    if f.raiseStmts != [] then
      var lines :- RaiseLines(f.raiseStmts, t);
      HeaderPrefix(t.startRaiseBlock, lines);
      Ok(Fill(t.startRaiseBlock, []) + lines)
    else Ok("")
  }

  /**
   * `function_docstring`: a newline, the arguments, returns, yields and
   * raises sections in that order, each only when it has content, then a
   * newline. It fails on exactly the functions the extractor fails on.
   */
  function FunctionDocstring(f: FunctionNode, t: FormatTemplate, infer: string -> string): (r: Result<string, Failure>)
    requires WellFormed(t)
    ensures r.Ok? <==> Unpackable(f, infer)
    ensures r.Ok? ==> StartsWith(r.value, "\n") && EndsWith(r.value, "\n")
    ensures r.Ok? ==> (r.value == "\n\n" <==>
      f.params == [] && f.returnStmts == [] && f.annotation.None? && f.yieldExprs == [] && f.raiseStmts == [])
  {
    var params := ParamsBlock(f, t, infer);
    var returnText := ReturnsBlock(f, t);
    var yieldText := YieldsBlock(f, t);
    var raiseText := RaisesBlock(f, t);
    BlocksOk(f, t, infer);
    if params.Err? then Err(params.error)
    else if returnText.Err? then Err(returnText.error)
    else if yieldText.Err? then Err(yieldText.error)
    else if raiseText.Err? then Err(raiseText.error)
    else
      var body := params.value + returnText.value + yieldText.value + raiseText.value;
      Wrapped(body);
      NoBlocks(params.value, returnText.value, yieldText.value, raiseText.value);
      Ok("\n" + body + "\n")
  }

  /** Every section reads without failing exactly when the extractor reads the function. */
  lemma BlocksOk(f: FunctionNode, t: FormatTemplate, infer: string -> string)
    requires WellFormed(t)
    ensures (&& ParamsBlock(f, t, infer).Ok? && ReturnsBlock(f, t).Ok?
             && YieldsBlock(f, t).Ok? && RaisesBlock(f, t).Ok?) <==> Unpackable(f, infer)
  {
  }

  /** Four sections together are empty exactly when each is. */
  lemma NoBlocks(a: string, b: string, c: string, e: string)
    ensures a + b + c + e == "" <==> a == "" && b == "" && c == "" && e == ""
  {
    assert |a + b + c + e| == |a| + |b| + |c| + |e|;
  }

  /** The combined layer fails on exactly the functions the extractor fails on. */
  lemma FunctionDocstringFails(f: FunctionNode, t: FormatTemplate, infer: string -> string)
    requires WellFormed(t)
    ensures FunctionDocstring(f, t, infer).Ok? <==> UnpackFunction(f, infer).Ok?
  {
  }

  /** Splitting the parameter list splits its lines. */
  lemma {:induction false} ParamLinesAppend(ps1: seq<ParamNode>, ps2: seq<ParamNode>, t: FormatTemplate, infer: string -> string)
    requires WellFormed(t)
    ensures ParamLines(ps1 + ps2, t, infer) == Join(ParamLines(ps1, t, infer), ParamLines(ps2, t, infer))
  {
    if ps1 == [] {
      assert ps1 + ps2 == ps2;
      JoinEmpty(ParamLines(ps2, t, infer));
    } else {
      assert (ps1 + ps2)[1..] == ps1[1..] + ps2;
      ParamLinesAppend(ps1[1..], ps2, t, infer);
      JoinAssoc(ParamLine(ps1[0], t, infer), ParamLines(ps1[1..], t, infer), ParamLines(ps2, t, infer));
    }
  }

  /**
   * A star parameter's line is written where the parameter is declared,
   * between the lines of the parameters before and after it, with its fixed
   * description.
   */
  lemma StarLineInPlace(before: seq<ParamNode>, p: ParamNode, after: seq<ParamNode>, t: FormatTemplate, infer: string -> string)
    requires WellFormed(t) && IsStar(p)
    ensures ParamLines(before + [p] + after, t, infer) == Join(Join(ParamLines(before, t, infer),
      Ok(if p.starCount == 1 then Fill(t.paramPlaceholderArgs, [p.name, ArgsDescription])
         else Fill(t.paramPlaceholderKwargs, [p.name, KwargsDescription]))), ParamLines(after, t, infer))
  {
    ParamLinesAppend(before + [p], after, t, infer);
    ParamLinesAppend(before, [p], t, infer);
    assert [p][1..] == [];
    JoinEmpty(ParamLine(p, t, infer));
  }

  // ---------------------------------------------------------------------------
  // Agreement with the extractor followed by the renderer

  predicate NoStars(ps: seq<ParamNode>) {
    forall i :: 0 <= i < |ps| ==> !IsStar(ps[i])
  }

  /** No default whose code is empty. */
  predicate SolidDefaults(ps: seq<ParamNode>) {
    forall i :: 0 <= i < |ps| ==> ps[i].default.Some? ==> Code(ps[i].default.value) != ""
  }

  /**
   * The functions on which the two layers are meant to agree: no star
   * parameter (the renderer moves those to the front), no default with
   * empty code and no empty annotation (where the older helpers read
   * presence and the extractor reads truthiness).
   */
  predicate Plain(f: FunctionNode) {
    && NoStars(f.params)
    && SolidDefaults(f.params)
    && (f.annotation.Some? ==> f.annotation.value.Leaf? && f.annotation.value.value != "")
  }

  lemma {:induction false} OrdinaryNoStars(ps: seq<ParamNode>)
    requires NoStars(ps)
    ensures Ordinary(ps) == ps
  {
    if ps != [] {
      OrdinaryNoStars(ps[1..]);
    }
  }

  lemma {:induction false} LastStarAbsent(ps: seq<ParamNode>, stars: nat, otherwise: Option<string>)
    requires forall i :: 0 <= i < |ps| ==> ps[i].starCount != stars
    ensures LastStar(ps, stars, otherwise) == otherwise
  {
    if ps != [] {
      LastStarAbsent(ps[..|ps| - 1], stars, otherwise);
    }
  }

  lemma {:induction false} ParamLinesAgree(ps: seq<ParamNode>, params: seq<ParamDetails>, t: FormatTemplate, infer: string -> string)
    requires WellFormed(t) && NoStars(ps) && SolidDefaults(ps)
    requires |params| == |ps| && forall j :: 0 <= j < |ps| ==> UnpackParam(ps[j], infer) == Ok(params[j])
    ensures ParamLines(ps, t, infer) == Ok(Concat(FillRows(t.paramPlaceholder, ParamRows(params))))
  {
    if ps != [] {
      ParamsTail(ps, params, infer);
      ParamLinesAgree(ps[1..], params[1..], t, infer);
      ParamHeadAgrees(ps, params, t, infer);
      var rows := ParamRows(params);
      assert rows[1..] == ParamRows(params[1..]);
      FillRowsHead(t.paramPlaceholder, rows);
    }
  }

  /** The tail of parameters that agree with their details still agrees. */
  lemma ParamsTail(ps: seq<ParamNode>, params: seq<ParamDetails>, infer: string -> string)
    requires ps != [] && NoStars(ps) && SolidDefaults(ps)
    requires |params| == |ps| && forall j :: 0 <= j < |ps| ==> UnpackParam(ps[j], infer) == Ok(params[j])
    ensures NoStars(ps[1..]) && SolidDefaults(ps[1..]) && |params[1..]| == |ps[1..]|
    ensures forall j :: 0 <= j < |ps[1..]| ==> UnpackParam(ps[1..][j], infer) == Ok(params[1..][j])
  {
    forall j | 0 <= j < |ps[1..]|
      ensures UnpackParam(ps[1..][j], infer) == Ok(params[1..][j])
    {
      assert ps[1..][j] == ps[j + 1] && params[1..][j] == params[j + 1];
    }
  }

  /** The first parameter's line is its row filled in, and the lines are that line then the rest. */
  lemma ParamHeadAgrees(ps: seq<ParamNode>, params: seq<ParamDetails>, t: FormatTemplate, infer: string -> string)
    requires WellFormed(t) && ps != [] && !IsStar(ps[0]) && |params| == |ps|
    requires ps[0].default.Some? ==> Code(ps[0].default.value) != ""
    requires UnpackParam(ps[0], infer) == Ok(params[0])
    requires ParamLines(ps[1..], t, infer).Ok?
    ensures ParamLines(ps, t, infer)
      == Ok(Fill(t.paramPlaceholder, ParamRows(params)[0]) + ParamLines(ps[1..], t, infer).value)
  {
    ParamInfoAgrees(ps[0], infer);
    assert ParamLine(ps[0], t, infer) == Ok(Fill(t.paramPlaceholder, ParamRows(params)[0]));
  }

  /** The annotation's text, as the extractor passes it on. */
  function AnnotationValue(annotation: Option<Node>): Option<string>
    requires annotation.Some? ==> annotation.value.Leaf?
  {
    if annotation.Some? then Some(annotation.value.value) else None
  }

  /** Each return statement reads as the details at its position. */
  predicate ReturnsRead(ns: seq<Node>, a: Option<string>, rets: seq<ReturnDetails>) {
    |rets| == |ns| && forall j :: 0 <= j < |ns| ==> UnpackReturn(ns[j], a) == Ok(rets[j])
  }

  lemma {:induction false} ReturnLinesAgree(ns: seq<Node>, annotation: Option<Node>, rets: seq<ReturnDetails>, placeholder: Format)
    requires SlotsBelow(placeholder, 2)
    requires annotation.Some? ==> annotation.value.Leaf? && annotation.value.value != ""
    requires ReturnsRead(ns, AnnotationValue(annotation), rets)
    ensures ReturnLines(ns, annotation, placeholder) == Ok(Concat(FillRows(placeholder, ReturnRows(rets))))
  {
    if ns != [] {
      ReturnsTail(ns, rets, AnnotationValue(annotation));
      ReturnLinesAgree(ns[1..], annotation, rets[1..], placeholder);
      ReturnHeadAgrees(ns, annotation, rets, placeholder);
      var rows := ReturnRows(rets);
      assert rows[1..] == ReturnRows(rets[1..]);
      FillRowsHead(placeholder, rows);
      var rest := Concat(FillRows(placeholder, rows[1..]));
      assert ReturnLines(ns, annotation, placeholder) == Ok(Fill(placeholder, rows[0]) + rest);
    }
  }

  /** The first statement's line is its row filled in, and the lines are that line then the rest. */
  lemma ReturnHeadAgrees(ns: seq<Node>, annotation: Option<Node>, rets: seq<ReturnDetails>, placeholder: Format)
    requires SlotsBelow(placeholder, 2) && ns != []
    requires annotation.Some? ==> annotation.value.Leaf? && annotation.value.value != ""
    requires ReturnsRead(ns, AnnotationValue(annotation), rets)
    requires ReturnLines(ns[1..], annotation, placeholder).Ok?
    ensures ReturnLines(ns, annotation, placeholder)
      == Ok(Fill(placeholder, ReturnRows(rets)[0]) + ReturnLines(ns[1..], annotation, placeholder).value)
  {
    ReturnInfoAgrees(ns[0], annotation);
    assert GetReturnInfo(ns[0], annotation) == Ok(rets[0]);
  }

  /** The tail of return statements that agree with their details still agrees. */
  lemma ReturnsTail(ns: seq<Node>, rets: seq<ReturnDetails>, a: Option<string>)
    requires ns != [] && ReturnsRead(ns, a, rets)
    ensures ReturnsRead(ns[1..], a, rets[1..])
  {
    forall j | 0 <= j < |ns[1..]|
      ensures UnpackReturn(ns[1..][j], a) == Ok(rets[1..][j])
    {
      assert ns[1..][j] == ns[j + 1] && rets[1..][j] == rets[j + 1];
    }
  }

  lemma {:induction false} RaiseLinesAgree(ns: seq<Node>, names: seq<string>, t: FormatTemplate)
    requires WellFormed(t)
    requires |names| == |ns| && forall j :: 0 <= j < |ns| ==> UnpackExceptionName(ns[j]) == Ok(names[j])
    ensures RaiseLines(ns, t) == Ok(Concat(FillRows(t.raisePlaceholder, RaiseRows(names))))
  {
    if ns != [] {
      RaisesTail(ns, names);
      RaiseLinesAgree(ns[1..], names[1..], t);
      var rows := RaiseRows(names);
      assert rows[1..] == RaiseRows(names[1..]);
      FillRowsHead(t.raisePlaceholder, rows);
      RaiseHeadAgrees(ns, names[0], t);
    }
  }

  /** The first raise's line is its name filled in, and the lines are that line then the rest. */
  lemma RaiseHeadAgrees(ns: seq<Node>, name: string, t: FormatTemplate)
    requires WellFormed(t) && ns != []
    requires UnpackExceptionName(ns[0]) == Ok(name) && RaiseLines(ns[1..], t).Ok?
    ensures RaiseLines(ns, t) == Ok(Fill(t.raisePlaceholder, [name]) + RaiseLines(ns[1..], t).value)
  {
  }

  /** The tail of raise statements that agree with their names still agrees. */
  lemma RaisesTail(ns: seq<Node>, names: seq<string>)
    requires ns != [] && |names| == |ns|
    requires forall j :: 0 <= j < |ns| ==> UnpackExceptionName(ns[j]) == Ok(names[j])
    ensures forall j :: 0 <= j < |ns[1..]| ==> UnpackExceptionName(ns[1..][j]) == Ok(names[1..][j])
  {
    forall j | 0 <= j < |ns[1..]|
      ensures UnpackExceptionName(ns[1..][j]) == Ok(names[1..][j])
    {
      assert ns[1..][j] == ns[j + 1] && names[1..][j] == names[j + 1];
    }
  }

  lemma ParamsInOrder(ps: seq<ParamNode>, params: seq<ParamDetails>, infer: string -> string)
    requires Ordinary(ps) == ps && ExtendsWithOrdinary(params, [], ps, infer)
    ensures |params| == |ps| && forall j :: 0 <= j < |ps| ==> UnpackParam(ps[j], infer) == Ok(params[j])
  {
    var none: seq<ParamDetails> := [];
    forall j | 0 <= j < |ps| ensures UnpackParam(ps[j], infer) == Ok(params[j]) {
      assert UnpackParam(Ordinary(ps)[j], infer) == Ok(params[|none| + j]);
    }
  }

  lemma ParamsBlockAgrees(f: FunctionNode, t: FormatTemplate, infer: string -> string)
    requires WellFormed(t) && Plain(f) && UnpackFunction(f, infer).Ok?
    ensures ParamsBlock(f, t, infer) == Ok(ParamsPart(UnpackFunction(f, infer).value, t))
  {
    var d := UnpackFunction(f, infer).value;
    OrdinaryNoStars(f.params);
    LastStarAbsent(f.params, 1, None);
    LastStarAbsent(f.params, 2, None);
    ParamsInOrder(f.params, d.params, infer);
    ParamsPartFromLines(f, d, t, infer);
  }

  lemma ParamsPartFromLines(f: FunctionNode, d: FunctionDetails, t: FormatTemplate, infer: string -> string)
    requires WellFormed(t) && NoStars(f.params) && SolidDefaults(f.params)
    requires d.args == None && d.kwargs == None
    requires |d.params| == |f.params| && forall j :: 0 <= j < |f.params| ==> UnpackParam(f.params[j], infer) == Ok(d.params[j])
    ensures ParamsBlock(f, t, infer) == Ok(ParamsPart(d, t))
  {
    if f.params != [] {
      var lines := Concat(FillRows(t.paramPlaceholder, ParamRows(d.params)));
      ParamLinesAgree(f.params, d.params, t, infer);
      ParamsBlockOfLines(f, t, infer, lines);
      ParamsPartOfRows(d, t);
    }
  }

  lemma ParamsBlockOfLines(f: FunctionNode, t: FormatTemplate, infer: string -> string, lines: string)
    requires WellFormed(t) && f.params != [] && ParamLines(f.params, t, infer) == Ok(lines)
    ensures ParamsBlock(f, t, infer) == Ok(Fill(t.startArgsBlock, []) + lines)
  {
  }

  lemma ParamsPartOfRows(d: FunctionDetails, t: FormatTemplate)
    requires WellFormed(t) && d.params != [] && d.args == None && d.kwargs == None
    ensures ParamsPart(d, t) == Fill(t.startArgsBlock, []) + Concat(FillRows(t.paramPlaceholder, ParamRows(d.params)))
  {
    assert StarLine(t.paramPlaceholderArgs, d.args, ArgsDescription) == "";
    assert StarLine(t.paramPlaceholderKwargs, d.kwargs, KwargsDescription) == "";
    assert Fill(t.startArgsBlock, []) + "" + "" == Fill(t.startArgsBlock, []);
  }

  lemma ReturnsBlockAgrees(f: FunctionNode, t: FormatTemplate, infer: string -> string)
    requires WellFormed(t) && Plain(f) && UnpackFunction(f, infer).Ok?
    ensures ReturnsBlock(f, t) == Ok(ReturnsPart(UnpackFunction(f, infer).value, t))
  {
    var d := UnpackFunction(f, infer).value;
    if f.returnStmts != [] {
      ReturnLinesAgree(f.returnStmts, f.annotation, d.returnValues, t.returnPlaceholder);
    }
  }

  lemma YieldsBlockAgrees(f: FunctionNode, t: FormatTemplate, infer: string -> string)
    requires WellFormed(t) && Plain(f) && UnpackFunction(f, infer).Ok?
    ensures YieldsBlock(f, t) == Ok(YieldsPart(UnpackFunction(f, infer).value, t))
  {
    var d := UnpackFunction(f, infer).value;
    if f.yieldExprs != [] {
      ReturnLinesAgree(f.yieldExprs, f.annotation, d.yieldValues, t.yieldPlaceholder);
    }
  }

  lemma RaisesBlockAgrees(f: FunctionNode, t: FormatTemplate, infer: string -> string)
    requires WellFormed(t) && UnpackFunction(f, infer).Ok?
    ensures RaisesBlock(f, t) == Ok(RaisesPart(UnpackFunction(f, infer).value, t))
  {
    var d := UnpackFunction(f, infer).value;
    if f.raiseStmts != [] {
      RaiseLinesAgree(f.raiseStmts, d.raises, t);
    }
  }

  /**
   * On plain functions the combined layer writes exactly what the extractor
   * followed by the renderer writes.
   */
  lemma FunctionLayersAgree(f: FunctionNode, t: FormatTemplate, infer: string -> string)
    requires WellFormed(t) && Plain(f) && UnpackFunction(f, infer).Ok?
    ensures FunctionDocstring(f, t, infer) == Ok(FormatFunction(UnpackFunction(f, infer).value, t))
  {
    ParamsBlockAgrees(f, t, infer);
    ReturnsBlockAgrees(f, t, infer);
    YieldsBlockAgrees(f, t, infer);
    RaisesBlockAgrees(f, t, infer);
  }

  // ---------------------------------------------------------------------------
  // Classes and modules

  /** The `expr_stmt` parts of a simple statement, in order. */
  function ExprParts(parts: seq<Node>): (es: seq<Node>)
    ensures |es| <= |parts|
    ensures forall i :: 0 <= i < |es| ==> es[i].kind == "expr_stmt"
  {
    if parts == [] then [] else (if parts[0].kind == "expr_stmt" then [parts[0]] else []) + ExprParts(parts[1..])
  }

  function StmtExprs(stmt: Node): Result<seq<Node>, Failure> {
    if stmt.kind == "simple_stmt" then
      var parts :- Children(stmt);
      Ok(ExprParts(parts))
    else Ok([])
  }

  /** The assignments collected from a statement list: only its simple statements are looked into. */
  function BodyExprs(stmts: seq<Node>): Result<seq<Node>, Failure> {
    if stmts == [] then Ok([]) else Join(StmtExprs(stmts[0]), BodyExprs(stmts[1..]))
  }

  function ClassChildExprs(child: Node): Result<seq<Node>, Failure> {
    if child.kind == "suite" then
      var stmts :- Children(child);
      BodyExprs(stmts)
    else Ok([])
  }

  /** The assignments collected from a class: only its `suite` children are looked into. */
  function ClassExprs(children: seq<Node>): Result<seq<Node>, Failure> {
    if children == [] then Ok([]) else Join(ClassChildExprs(children[0]), ClassExprs(children[1..]))
  }

  /** One attribute line: the target's name, the type inferred from the right-hand side, and that code. */
  function AttrLine(e: Node, t: FormatTemplate, infer: string -> string): (r: Result<string, Failure>)
    requires WellFormed(t)
    ensures r.Ok? <==> UnpackAttribute(e, infer).Ok?
    ensures r.Ok? ==> var a := UnpackAttribute(e, infer).value;
      r.value == Fill(t.attributePlaceholder, [a.name, a.typeName, a.code])
  {
    var target :- Child(e, 0);
    var name :- Value(target);
    var rhs :- Rhs(e);
    var code := Strip(Code(rhs));
    Ok(Fill(t.attributePlaceholder, [name, infer(code), code]))
  }

  function AttrLines(es: seq<Node>, t: FormatTemplate, infer: string -> string): Result<string, Failure>
    requires WellFormed(t)
  {
    if es == [] then Ok("") else Join(AttrLine(es[0], t, infer), AttrLines(es[1..], t, infer))
  }

  /** The docstring text for a list of collected assignments. */
  function AttributesDocstring(es: seq<Node>, t: FormatTemplate, infer: string -> string): Result<string, Failure>
    requires WellFormed(t)
  {
    var lines :- AttrLines(es, t, infer);
    Ok("\n" + (if es != [] then Fill(t.startAttributes, []) + lines else "") + "\n")
  }

  /** One collected assignment, unpacked. */
  function UnpackOne(e: Node, infer: string -> string): Result<seq<AttrDetails>, Failure> {
    var a :- UnpackAttribute(e, infer);
    Ok([a])
  }

  /** Every collected assignment unpacked, in order. */
  function UnpackAll(es: seq<Node>, infer: string -> string): (r: Result<seq<AttrDetails>, Failure>)
    ensures r.Ok? <==> forall i :: 0 <= i < |es| ==> UnpackAttribute(es[i], infer).Ok?
    ensures r.Ok? ==> |r.value| == |es| && forall i :: 0 <= i < |es| ==> r.value[i] == UnpackAttribute(es[i], infer).value
  {
    if es == [] then Ok([])
    else
      var a := UnpackAttribute(es[0], infer);
      var rest := UnpackAll(es[1..], infer);
      UnpackAllStep(es, infer, a, rest);
      if a.Err? then Err(a.error)
      else if rest.Err? then Err(rest.error)
      else Ok([a.value] + rest.value)
  }

  /** The facts about the first assignment and the rest that make up the facts about all of them. */
  lemma UnpackAllStep(es: seq<Node>, infer: string -> string, a: Result<AttrDetails, Failure>,
                      rest: Result<seq<AttrDetails>, Failure>)
    requires es != [] && a == UnpackAttribute(es[0], infer)
    requires rest.Ok? <==> forall i :: 0 <= i < |es[1..]| ==> UnpackAttribute(es[1..][i], infer).Ok?
    requires rest.Ok? ==> (|rest.value| == |es[1..]|
      && forall i :: 0 <= i < |es[1..]| ==> rest.value[i] == UnpackAttribute(es[1..][i], infer).value)
    ensures (a.Ok? && rest.Ok?) <==> forall i :: 0 <= i < |es| ==> UnpackAttribute(es[i], infer).Ok?
    ensures a.Ok? && rest.Ok? ==> var r := [a.value] + rest.value;
      |r| == |es| && forall i :: 0 <= i < |es| ==> r[i] == UnpackAttribute(es[i], infer).value
  {
    if a.Ok? && rest.Ok? {
      var r := [a.value] + rest.value;
      forall i | 0 <= i < |es|
        ensures UnpackAttribute(es[i], infer).Ok? && r[i] == UnpackAttribute(es[i], infer).value
      {
        if i > 0 {
          assert es[i] == es[1..][i - 1] && r[i] == rest.value[i - 1];
        }
      }
    } else if a.Err? {
      assert !UnpackAttribute(es[0], infer).Ok?;
    } else {
      var i :| 0 <= i < |es[1..]| && !UnpackAttribute(es[1..][i], infer).Ok?;
      assert es[1..][i] == es[i + 1];
    }
  }

  lemma UnpackAllFront(es: seq<Node>, infer: string -> string)
    requires es != []
    ensures UnpackAll(es, infer) == Join(UnpackOne(es[0], infer), UnpackAll(es[1..], infer))
  {
  }

  /**
   * `class_docstring`: the attributes section between two newlines. It
   * fails on exactly the classes the extractor fails on and otherwise
   * writes what the extractor followed by the renderer writes.
   */
  function ClassDocstring(cls: Node, t: FormatTemplate, infer: string -> string): (r: Result<string, Failure>)
    requires cls.Branch? && cls.kind == "classdef" && WellFormed(t)
    ensures r.Ok? <==> UnpackClass(cls, infer).Ok?
    ensures r.Ok? ==> r.value == FormatClass(UnpackClass(cls, infer).value, t)
  {
    ClassCollectsAlike(cls.children, infer);
    var es :- ClassExprs(cls.children);
    AttributesAgree(es, t, infer);
    AttributesDocstring(es, t, infer)
  }

  /**
   * `module_docstring`: like a class, with a blank result replaced by the
   * "Empty Module" text; it agrees with the extractor followed by the renderer.
   */
  function ModuleDocstring(m: Node, t: FormatTemplate, infer: string -> string): (r: Result<string, Failure>)
    requires m.Branch? && m.kind == "file_input" && WellFormed(t)
    ensures r.Ok? <==> UnpackModule(m, infer).Ok?
    ensures r.Ok? ==> r.value == FormatModule(UnpackModule(m, infer).value, t)
  {
    BodyCollectsAlike(m.children, infer);
    var es :- BodyExprs(m.children);
    AttributesAgree(es, t, infer);
    var doc :- AttributesDocstring(es, t, infer);
    Ok(if Strip(doc) == [] then EmptyModule else doc)
  }

  /** Two results with the same outcome: both fail, or both succeed with the same value. */
  predicate SameOutcome<T(==)>(a: Result<T, Failure>, b: Result<T, Failure>) {
    a.Ok? == b.Ok? && (a.Ok? ==> a.value == b.value)
  }

  /** The outcome of collecting and then unpacking. */
  function CollectThenUnpack(collected: Result<seq<Node>, Failure>, infer: string -> string): Result<seq<AttrDetails>, Failure> {
    var es :- collected;
    UnpackAll(es, infer)
  }

  lemma {:induction false} UnpackAllAppend(e1: seq<Node>, e2: seq<Node>, infer: string -> string)
    ensures UnpackAll(e1 + e2, infer) == Join(UnpackAll(e1, infer), UnpackAll(e2, infer))
  {
    if e1 == [] {
      assert e1 + e2 == e2;
      JoinEmpty(UnpackAll(e2, infer));
    } else {
      assert (e1 + e2)[1..] == e1[1..] + e2;
      UnpackAllAppend(e1[1..], e2, infer);
      UnpackAllFront(e1, infer);
      UnpackAllFront(e1 + e2, infer);
      JoinAssoc(UnpackOne(e1[0], infer), UnpackAll(e1[1..], infer), UnpackAll(e2, infer));
    }
  }

  /** Within one simple statement, collecting then unpacking is unpacking as the extractor does. */
  lemma {:induction false} SimpleCollectsAlike(parts: seq<Node>, infer: string -> string)
    ensures SimpleStmtAttrs(parts, infer) == UnpackAll(ExprParts(parts), infer)
  {
    if parts != [] {
      SimpleCollectsAlike(parts[1..], infer);
      var head := if parts[0].kind == "expr_stmt" then [parts[0]] else [];
      UnpackAllAppend(head, ExprParts(parts[1..]), infer);
      if parts[0].kind == "expr_stmt" {
        assert [parts[0]][1..] == [];
        JoinEmpty(UnpackOne(parts[0], infer));
        assert UnpackAll(head, infer) == PartAttrs(parts[0], infer);
      } else {
        assert PartAttrs(parts[0], infer) == Ok([]);
      }
    }
  }

  /** Unpacking as the extractor does, statement by statement, has the outcome of collecting everything first. */
  lemma {:induction false} BodyCollectsAlike(stmts: seq<Node>, infer: string -> string)
    ensures SameOutcome(BodyAttrs(stmts, infer), CollectThenUnpack(BodyExprs(stmts), infer))
  {
    if stmts != [] {
      BodyCollectsAlike(stmts[1..], infer);
      if stmts[0].kind == "simple_stmt" && stmts[0].Branch? {
        SimpleCollectsAlike(stmts[0].children, infer);
      }
      var rest := BodyExprs(stmts[1..]);
      if StmtExprs(stmts[0]).Ok? && rest.Ok? {
        UnpackAllAppend(StmtExprs(stmts[0]).value, rest.value, infer);
      }
    }
  }

  lemma {:induction false} ClassCollectsAlike(children: seq<Node>, infer: string -> string)
    ensures SameOutcome(ClassChildrenAttrs(children, infer), CollectThenUnpack(ClassExprs(children), infer))
  {
    if children != [] {
      ClassCollectsAlike(children[1..], infer);
      if children[0].kind == "suite" && children[0].Branch? {
        BodyCollectsAlike(children[0].children, infer);
      }
      var rest := ClassExprs(children[1..]);
      if ClassChildExprs(children[0]).Ok? && rest.Ok? {
        UnpackAllAppend(ClassChildExprs(children[0]).value, rest.value, infer);
      }
    }
  }

  lemma {:induction false} AttrLinesAgree(es: seq<Node>, t: FormatTemplate, infer: string -> string)
    requires WellFormed(t)
    ensures AttrLines(es, t, infer).Ok? <==> UnpackAll(es, infer).Ok?
    ensures AttrLines(es, t, infer).Ok? ==>
      AttrLines(es, t, infer).value == Concat(FillRows(t.attributePlaceholder, AttrRows(UnpackAll(es, infer).value)))
  {
    if es != [] {
      AttrLinesAgree(es[1..], t, infer);
      var head := PartAttrs(es[0], infer);
      if AttrLine(es[0], t, infer).Ok? && AttrLines(es[1..], t, infer).Ok? {
        var attrs := UnpackAll(es, infer).value;
        var a := UnpackAttribute(es[0], infer).value;
        if es[0].kind == "expr_stmt" {
          assert attrs == [a] + UnpackAll(es[1..], infer).value;
        }
        assert AttrRows(attrs)[1..] == AttrRows(attrs[1..]);
      }
    }
  }

  /** The text written for the collected assignments is the renderer's class text for their unpacked facts. */
  lemma AttributesAgree(es: seq<Node>, t: FormatTemplate, infer: string -> string)
    requires WellFormed(t)
    ensures AttributesDocstring(es, t, infer).Ok? <==> UnpackAll(es, infer).Ok?
    ensures AttributesDocstring(es, t, infer).Ok? ==>
      AttributesDocstring(es, t, infer).value == FormatClass(ClassDetails(UnpackAll(es, infer).value), t)
  {
    AttrLinesAgree(es, t, infer);
  }
}
