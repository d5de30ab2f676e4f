/**
 * The older extraction helpers that the combined extract-and-render layer
 * uses. They read the same tree as the extractor but return plain tuples,
 * and differ from it in two small ways: a present default is always
 * rendered and always drives inference, even when its code is empty, and a
 * present annotation is the return type even when its text is empty.
 */
module LegacyFormatUtils {
  import opened Wrappers
  import opened Text
  import opened Exc
  import opened DataStructures
  import opened SyntaxTree
  import opened FormatUtils
  import opened UnpackParso

  /** The `(name, type, default)` triple of `get_param_info`. */
  datatype ParamInfo = ParamInfo(name: string, typeName: string, defaultText: string)

  /**
   * `get_param_info`: the annotation or the placeholder is the type; a
   * present default gives the default text and, without an annotation, the
   * inferred type.
   */
  function GetParamInfo(p: ParamNode, infer: string -> string): (r: Result<ParamInfo, Failure>)
    ensures r.Ok? <==> (p.annotation.Some? ==> p.annotation.value.Leaf?)
    ensures r.Ok? ==> r.value.name == p.name
    ensures r.Ok? ==> (r.value.defaultText != "" <==> p.default.Some?)
    ensures r.Ok? && p.default.Some? ==> r.value.defaultText == " default: ``" + Code(p.default.value) + "``"
    ensures r.Ok? && p.annotation.Some? ==> r.value.typeName == p.annotation.value.value
    ensures r.Ok? && p.annotation.None? && p.default.Some? ==> r.value.typeName == infer(Code(p.default.value))
    ensures r.Ok? && p.annotation.None? && p.default.None? ==> r.value.typeName == Placeholder
  {
    var paramType :- if p.annotation.Some? then Value(p.annotation.value) else Ok(Placeholder);
    var paramDefault := if p.default.Some? then " default: ``" + Code(p.default.value) + "``" else "";
    var paramType := if paramDefault != "" && p.annotation.None? then infer(Code(p.default.value)) else paramType;
    Ok(ParamInfo(p.name, paramType, paramDefault))
  }

  /**
   * Where a default's code is non-empty, the older helper and the extractor
   * followed by the renderer's default text give the same triple.
   */
  lemma ParamInfoAgrees(p: ParamNode, infer: string -> string)
    requires p.default.Some? ==> Code(p.default.value) != ""
    ensures GetParamInfo(p, infer).Ok? <==> UnpackParam(p, infer).Ok?
    ensures UnpackParam(p, infer).Ok? ==>
      var d := UnpackParam(p, infer).value;
      GetParamInfo(p, infer).value == ParamInfo(d.name, d.typeName, DefaultText(d))
  {
  }

  /**
   * A default whose code is empty is where the layers part: the older helper
   * renders empty back-quotes and infers from the empty text, the extractor
   * treats it as no default for rendering and inference.
   */
  lemma EmptyDefaultDiffers(name: string, starCount: nat, default: Node, infer: string -> string)
    requires Code(default) == ""
    ensures GetParamInfo(ParamNode(name, starCount, None, Some(default)), infer)
      == Ok(ParamInfo(name, infer(""), " default: ````"))
    ensures UnpackParam(ParamNode(name, starCount, None, Some(default)), infer)
      == Ok(ParamDetails(name, Placeholder, Some("")))
  {
    assert " default: ``" + Code(default) + "``" == " default: ````";
    var r := UnpackParam(ParamNode(name, starCount, None, Some(default)), infer);
    assert r.Ok? && r.value.name == name && r.value.typeName == Placeholder && r.value.default == Some("");
  }

  /**
   * `get_return_info`: the annotation's text or the placeholder, and the
   * code after the keyword with its whitespace normalised.
   */
  function GetReturnInfo(ret: Node, annotation: Option<Node>): (r: Result<ReturnDetails, Failure>)
    ensures r.Ok? <==> (annotation.Some? ==> annotation.value.Leaf?) && ret.Branch?
    ensures r.Ok? ==> r.value.typeName == (if annotation.Some? then annotation.value.value else Placeholder)
  {
    var retType :- if annotation.Some? then Value(annotation.value) else Ok(Placeholder);
    var children :- Children(ret);
    var expression := StrippedCode(AfterFirst(children));
    Ok(ReturnDetails(retType, Normalize(expression)))
  }

  /**
   * The expression `get_return_info` reads is the code after the keyword
   * with its whitespace collapsed: the same words, already normalised.
   */
  lemma ReturnInfoText(ret: Node, annotation: Option<Node>)
    requires GetReturnInfo(ret, annotation).Ok?
    ensures var e := GetReturnInfo(ret, annotation).value.expression;
      IsNormalized(e) && Normalize(e) == e && Words(e) == Words(StrippedCode(AfterFirst(ret.children)))
  {
    var expression := StrippedCode(AfterFirst(ret.children));
    NormalizeKeepsWords(expression);
    NormalizeIdempotent(expression);
  }

  /** With a non-empty annotation, or none, the older helper and the extractor read a return alike. */
  lemma ReturnInfoAgrees(ret: Node, annotation: Option<Node>)
    requires annotation.Some? ==> annotation.value.Leaf? && annotation.value.value != ""
    ensures GetReturnInfo(ret, annotation)
      == UnpackReturn(ret, if annotation.Some? then Some(annotation.value.value) else None)
  {
  }
}
