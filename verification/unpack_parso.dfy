/**
 * The extractor: reads a function, class or module node of the parse tree
 * and produces the fact records the renderer consumes.
 *
 * Type inference from a literal (`safe_determine_type`) is the parameter
 * `infer`.
 */
module UnpackParso {
  import opened Wrappers
  import opened Text
  import opened Exc
  import opened DataStructures
  import opened SyntaxTree

  // ---------------------------------------------------------------------------
  // Parameters

  /**
   * `unpack_param`: an annotation is the type whatever the default; a
   * default is recorded as its code; the type is inferred from the default
   * only when there is a non-empty default and no annotation.
   */
  function UnpackParam(p: ParamNode, infer: string -> string): (r: Result<ParamDetails, Failure>)
    ensures r.Ok? <==> (p.annotation.Some? ==> p.annotation.value.Leaf?)
    ensures r.Ok? ==> r.value.name == p.name
    ensures r.Ok? ==> r.value.default == (if p.default.Some? then Some(Code(p.default.value)) else None)
    ensures r.Ok? && p.annotation.Some? ==> r.value.typeName == p.annotation.value.value
    ensures r.Ok? && p.annotation.None? && p.default.Some? && Code(p.default.value) != "" ==>
      r.value.typeName == infer(Code(p.default.value))
    ensures r.Ok? && p.annotation.None? && (p.default.None? || Code(p.default.value) == "") ==>
      r.value.typeName == Placeholder
  {
    var details := NewParam(p.name);
    var details :- if p.annotation.Some? then
        var v :- Value(p.annotation.value);
        Ok(details.(typeName := v))
      else Ok(details);
    var details := if p.default.Some? then details.(default := Some(Code(p.default.value))) else details;
    var details := if Truthy(details.default) && p.annotation.None? then details.(typeName := infer(details.default.value)) else details;
    Ok(details)
  }

  /** The oracle is consulted only for a parameter with a default and no annotation. */
  lemma InferenceOnlyWithoutAnnotation(p: ParamNode, infer: string -> string, other: string -> string)
    requires p.annotation.Some? || p.default.None?
    ensures UnpackParam(p, infer) == UnpackParam(p, other)
  {
  }

  /** A parameter with neither annotation nor default is a fresh record with that name. */
  lemma PlainParamIsFresh(name: string, starCount: nat, infer: string -> string)
    ensures UnpackParam(ParamNode(name, starCount, None, None), infer) == Ok(NewParam(name))
    ensures NewParam(name).typeName == "TYPE" && NewParam(name).default == None
  {
  }

  predicate IsStar(p: ParamNode) {
    p.starCount == 1 || p.starCount == 2
  }

  /** The parameters without a star, in declaration order. */
  function Ordinary(ps: seq<ParamNode>): (qs: seq<ParamNode>)
    ensures forall i :: 0 <= i < |qs| ==> !IsStar(qs[i])
    ensures |qs| <= |ps|
  {
    if ps == [] then [] else (if IsStar(ps[0]) then [] else [ps[0]]) + Ordinary(ps[1..])
  }

  /** The name of the last parameter with `stars` stars, or `otherwise` if there is none. */
  function LastStar(ps: seq<ParamNode>, stars: nat, otherwise: Option<string>): Option<string> {
    if ps == [] then otherwise
    else if ps[|ps| - 1].starCount == stars then Some(ps[|ps| - 1].name)
    else LastStar(ps[..|ps| - 1], stars, otherwise)
  }

  lemma {:induction false} LastStarFront(ps: seq<ParamNode>, stars: nat, otherwise: Option<string>)
    requires ps != []
    ensures LastStar(ps, stars, otherwise)
      == LastStar(ps[1..], stars, if ps[0].starCount == stars then Some(ps[0].name) else otherwise)
  {
    var first := if ps[0].starCount == stars then Some(ps[0].name) else otherwise;
    if |ps| > 1 {
      assert ps[..|ps| - 1][1..] == ps[1..][..|ps[1..]| - 1];
      LastStarFront(ps[..|ps| - 1], stars, otherwise);
    } else {
      assert ps[..0] == [];
    }
  }

  /** Every ordinary parameter can be unpacked. */
  predicate OrdinaryUnpack(ps: seq<ParamNode>, infer: string -> string) {
    forall i :: 0 <= i < |ps| && !IsStar(ps[i]) ==> UnpackParam(ps[i], infer).Ok?
  }

  /** `params` extends `before` with the unpacked ordinary parameters of `ps`, in order. */
  predicate ExtendsWithOrdinary(params: seq<ParamDetails>, before: seq<ParamDetails>, ps: seq<ParamNode>, infer: string -> string) {
    var qs := Ordinary(ps);
    && |params| == |before| + |qs|
    && params[..|before|] == before
    && forall j :: 0 <= j < |qs| ==> UnpackParam(qs[j], infer) == Ok(params[|before| + j])
  }

  /** One turn of the parameter loop. */
  function ParamStep(d: FunctionDetails, p: ParamNode, infer: string -> string): Result<FunctionDetails, Failure> {
    if p.starCount == 1 then Ok(d.(args := Some(p.name)))
    else if p.starCount == 2 then Ok(d.(kwargs := Some(p.name)))
    else
      var details :- UnpackParam(p, infer);
      Ok(d.(params := d.params + [details]))
  }

  /**
   * The parameter loop of `unpack_function`: a one-star parameter sets
   * `args`, a two-star parameter sets `kwargs`, and every other parameter is
   * unpacked and appended, in declaration order. Nothing else is touched.
   */
  function UnpackParams(ps: seq<ParamNode>, d: FunctionDetails, infer: string -> string): (r: Result<FunctionDetails, Failure>)
    ensures r.Ok? <==> OrdinaryUnpack(ps, infer)
    ensures r.Ok? ==> r.value.(params := d.params, args := d.args, kwargs := d.kwargs) == d
    decreases |ps|
  {
    if ps == [] then Ok(d)
    else
      var next :- ParamStep(d, ps[0], infer);
      assert forall i :: 1 <= i < |ps| ==> ps[i] == ps[1..][i - 1];
      UnpackParams(ps[1..], next, infer)
  }

  /** The parameter loop keeps the last one-star and the last two-star name. */
  lemma {:induction false} UnpackParamsStars(ps: seq<ParamNode>, d: FunctionDetails, infer: string -> string)
    requires OrdinaryUnpack(ps, infer)
    ensures UnpackParams(ps, d, infer).value.args == LastStar(ps, 1, d.args)
    ensures UnpackParams(ps, d, infer).value.kwargs == LastStar(ps, 2, d.kwargs)
  {
    if ps != [] {
      var next := ParamStep(d, ps[0], infer).value;
      assert OrdinaryUnpack(ps[1..], infer) by {
        assert forall i :: 1 <= i < |ps| ==> ps[i] == ps[1..][i - 1];
      }
      UnpackParamsStars(ps[1..], next, infer);
      LastStarFront(ps, 1, d.args);
      LastStarFront(ps, 2, d.kwargs);
    }
  }

  /** The parameter loop appends the ordinary parameters, unpacked, in declaration order. */
  lemma {:induction false} UnpackParamsOrdinary(ps: seq<ParamNode>, d: FunctionDetails, infer: string -> string)
    requires OrdinaryUnpack(ps, infer)
    ensures ExtendsWithOrdinary(UnpackParams(ps, d, infer).value.params, d.params, ps, infer)
  {
    if ps == [] {
      assert UnpackParams(ps, d, infer).value.params[..|d.params|] == d.params;
    } else {
      var next := ParamStep(d, ps[0], infer).value;
      assert OrdinaryUnpack(ps[1..], infer) by {
        assert forall i :: 1 <= i < |ps| ==> ps[i] == ps[1..][i - 1];
      }
      UnpackParamsOrdinary(ps[1..], next, infer);
      var params := UnpackParams(ps, d, infer).value.params;
      assert params == UnpackParams(ps[1..], next, infer).value.params;
      ExtendsStep(params, d.params, next.params, ps, infer);
    }
  }

  /** One parameter's step, then the rest, extends the list as the whole does. */
  lemma ExtendsStep(params: seq<ParamDetails>, before: seq<ParamDetails>, mid: seq<ParamDetails>,
                    ps: seq<ParamNode>, infer: string -> string)
    requires ps != []
    requires IsStar(ps[0]) ==> mid == before
    requires !IsStar(ps[0]) ==> UnpackParam(ps[0], infer).Ok? && mid == before + [UnpackParam(ps[0], infer).value]
    requires ExtendsWithOrdinary(params, mid, ps[1..], infer)
    ensures ExtendsWithOrdinary(params, before, ps, infer)
  {
    OrdinaryFront(ps);
    assert params[..|before|] == mid[..|before|];
  }

  lemma OrdinaryFront(ps: seq<ParamNode>)
    requires ps != []
    ensures Ordinary(ps) == (if IsStar(ps[0]) then [] else [ps[0]]) + Ordinary(ps[1..])
  {
  }

  // ---------------------------------------------------------------------------
  // Returns, yields and raises

  /** `"".join(x.get_code().strip() for x in nodes)` */
  function StrippedCode(ns: seq<Node>): string {
    if ns == [] then "" else Strip(Code(ns[0])) + StrippedCode(ns[1..])
  }

  /**
   * `unpack_return`: the type is the function's annotation when it is
   * non-empty, otherwise the placeholder; the expression is the code after
   * the keyword with every whitespace run, newlines included, collapsed to
   * one space. A bare keyword leaf has no children and fails.
   */
  function UnpackReturn(ret: Node, annotation: Option<string>): (r: Result<ReturnDetails, Failure>)
    ensures r.Ok? <==> ret.Branch?
    ensures r.Ok? ==> r.value.typeName == (if Truthy(annotation) then annotation.value else Placeholder)
    ensures r.Ok? ==> IsNormalized(r.value.expression) && '\n' !in r.value.expression
    ensures r.Ok? ==> Words(r.value.expression) == Words(StrippedCode(AfterFirst(ret.children)))
  {
    var details := NewReturn;
    var details := if Truthy(annotation) then details.(typeName := annotation.value) else details;
    var children :- Children(ret);
    var expression := StrippedCode(AfterFirst(children));
    NormalizeKeepsWords(expression);
    Ok(details.(expression := Normalize(expression)))
  }

  /** The name reached by following first children until a node of kind `"name"`. */
  function DescendToName(n: Node): (r: Result<string, Failure>)
    ensures n.kind == "name" ==> r == Value(n)
    ensures n.kind != "name" && n.Leaf? ==> r == Err(AttributeFault("children"))
    ensures n.kind != "name" && n.Branch? && n.children == [] ==> r == Err(IndexFault)
    ensures n.kind != "name" && n.Branch? && n.children != [] ==> r == DescendToName(n.children[0])
  {
    if n.kind == "name" then Value(n)
    else
      match n
      case Leaf(_, _, _) => Err(AttributeFault("children"))
      case Branch(_, children) => if children == [] then Err(IndexFault) else DescendToName(children[0])
  }

  /** Wrapping a node as the first child of a node of another kind does not change the name found. */
  lemma DescendThroughFirstChild(kind: string, n: Node, rest: seq<Node>)
    requires kind != "name"
    ensures DescendToName(Branch(kind, [n] + rest)) == DescendToName(n)
  {
  }

  /**
   * `unpack_exception_name`: the name under the raise statement's second
   * child. A leaf has no children to index and a statement with fewer than
   * two children has no second one.
   */
  function UnpackExceptionName(raise: Node): (r: Result<string, Failure>)
    ensures r.Ok? ==> raise.Branch? && |raise.children| >= 2
    ensures raise.Branch? && |raise.children| >= 2 ==> r == DescendToName(raise.children[1])
    ensures raise.Leaf? ==> r == Err(AttributeFault("children"))
    ensures raise.Branch? && |raise.children| < 2 ==> r == Err(IndexFault)
  {
    match raise
    case Leaf(_, _, _) => Err(AttributeFault("children"))
    case Branch(_, children) => if |children| < 2 then Err(IndexFault) else DescendToName(children[1])
  }

  /** `raise E(...)`: the name is the callee's, found through the call node's first child. */
  lemma RaiseCallName(kind: string, keyword: Node, prefix: string, name: string, trailers: seq<Node>, rest: seq<Node>)
    requires kind != "name"
    ensures UnpackExceptionName(Branch("raise_stmt", [keyword, Branch(kind, [Leaf("name", prefix, name)] + trailers)] + rest))
      == Ok(name)
  {
    var call := Branch(kind, [Leaf("name", prefix, name)] + trailers);
    assert ([keyword, call] + rest)[1] == call;
    DescendThroughFirstChild(kind, Leaf("name", prefix, name), trailers);
  }

  /** `list(map(lambda x: unpack_return(x, annotation), nodes))` */
  function UnpackReturns(ns: seq<Node>, annotation: Option<string>): (r: Result<seq<ReturnDetails>, Failure>)
    ensures r.Ok? <==> forall i :: 0 <= i < |ns| ==> ns[i].Branch?
    ensures r.Ok? ==> |r.value| == |ns| && forall i :: 0 <= i < |ns| ==> UnpackReturn(ns[i], annotation) == Ok(r.value[i])
  {
    ParseEach(ns, (n: Node) => UnpackReturn(n, annotation))
  }

  /** `list(map(unpack_exception_name, nodes))`: one name per raise statement, duplicates kept. */
  function UnpackRaises(ns: seq<Node>): (r: Result<seq<string>, Failure>)
    ensures r.Ok? <==> forall i :: 0 <= i < |ns| ==> UnpackExceptionName(ns[i]).Ok?
    ensures r.Ok? ==> |r.value| == |ns| && forall i :: 0 <= i < |ns| ==> UnpackExceptionName(ns[i]) == Ok(r.value[i])
  {
    ParseEach(ns, UnpackExceptionName)
  }

  // ---------------------------------------------------------------------------
  // Functions

  /** `parso_function.annotation.value`, if there is an annotation. */
  function AnnotationText(a: Option<Node>): (r: Result<Option<string>, Failure>)
    ensures r.Ok? <==> (a.Some? ==> a.value.Leaf?)
    ensures r.Ok? ==> r.value == (if a.Some? then Some(a.value.value) else None)
  {
    if a.Some? then
      var v :- Value(a.value);
      Ok(Some(v))
    else Ok(None)
  }

  /**
   * The functions the extractor reads without failing: the annotation is a
   * leaf, every ordinary parameter unpacks, every return and yield has
   * children, and every raise names its exception.
   */
  predicate Unpackable(f: FunctionNode, infer: string -> string) {
    && (f.annotation.Some? ==> f.annotation.value.Leaf?)
    && OrdinaryUnpack(f.params, infer)
    && (forall i :: 0 <= i < |f.returnStmts| ==> f.returnStmts[i].Branch?)
    && (forall i :: 0 <= i < |f.yieldExprs| ==> f.yieldExprs[i].Branch?)
    && (forall i :: 0 <= i < |f.raiseStmts| ==> UnpackExceptionName(f.raiseStmts[i]).Ok?)
  }

  /**
   * `unpack_function`: the annotation's text, the ordinary parameters in
   * order, the last one-star and two-star names, and one entry per return
   * statement, yield expression and raise statement, in order.
   */
  function UnpackFunction(f: FunctionNode, infer: string -> string): (r: Result<FunctionDetails, Failure>)
    ensures r.Ok? <==> Unpackable(f, infer)
    ensures r.Ok? ==> r.value.annotation == (if f.annotation.Some? then Some(f.annotation.value.value) else None)
    ensures r.Ok? ==> ExtendsWithOrdinary(r.value.params, [], f.params, infer)
    ensures r.Ok? ==> r.value.args == LastStar(f.params, 1, None) && r.value.kwargs == LastStar(f.params, 2, None)
    ensures r.Ok? ==> |r.value.returnValues| == |f.returnStmts| && |r.value.yieldValues| == |f.yieldExprs|
    ensures r.Ok? ==> forall i :: 0 <= i < |f.returnStmts| ==>
      UnpackReturn(f.returnStmts[i], r.value.annotation) == Ok(r.value.returnValues[i])
    ensures r.Ok? ==> forall i :: 0 <= i < |f.yieldExprs| ==>
      UnpackReturn(f.yieldExprs[i], r.value.annotation) == Ok(r.value.yieldValues[i])
    ensures r.Ok? ==> |r.value.raises| == |f.raiseStmts| && forall i :: 0 <= i < |f.raiseStmts| ==>
      UnpackExceptionName(f.raiseStmts[i]) == Ok(r.value.raises[i])
  {
    var annotation :- AnnotationText(f.annotation);
    var d :- UnpackParams(f.params, NewFunction.(annotation := annotation), infer);
    UnpackParamsStars(f.params, NewFunction.(annotation := annotation), infer);
    UnpackParamsOrdinary(f.params, NewFunction.(annotation := annotation), infer);
    var returnList :- UnpackReturns(f.returnStmts, annotation);
    var yieldList :- UnpackReturns(f.yieldExprs, annotation);
    var raises :- UnpackRaises(f.raiseStmts);
    Ok(d.(returnValues := returnList, yieldValues := yieldList, raises := raises))
  }

  // ---------------------------------------------------------------------------
  // Attributes of classes and modules

  /**
   * `unpack_attribute`: the name is the value of the first child, the code
   * is the stripped code of the right-hand side, and the type is inferred
   * from that code. A target that is not a plain name (`a.b = 1`,
   * `a, b = 1, 2`) has no value and fails.
   */
  function UnpackAttribute(n: Node, infer: string -> string): (r: Result<AttrDetails, Failure>)
    ensures r.Ok? <==> Rhs(n).Ok? && n.children[0].Leaf?
    ensures r.Ok? ==> r.value.name == n.children[0].value
    ensures r.Ok? ==> r.value.code == Strip(Code(Rhs(n).value))
    ensures r.Ok? ==> r.value.typeName == infer(r.value.code)
  {
    var rhs :- Rhs(n);
    var code := Strip(Code(rhs));
    var name :- Value(n.children[0]);
    Ok(AttrDetails(name, code, infer(code)))
  }

  /** `x: int = 3` documents the code `3`, not the annotation. */
  lemma AnnotatedAttributeCode(name: Node, colon: Node, typ: Node, eq: Node, value: Node, infer: string -> string)
    requires name.Leaf?
    ensures var r := UnpackAttribute(Branch("expr_stmt", [name, Branch("annassign", [colon, typ, eq, value])]), infer);
      r.Ok? && r.value.name == name.value && r.value.code == Strip(Code(value))
  {
    AnnotatedAssignmentRhs(name, colon, typ, eq, value);
  }

  /** Two results in sequence: the first failure, or both values joined. */
  function Join<T>(a: Result<seq<T>, Failure>, b: Result<seq<T>, Failure>): Result<seq<T>, Failure> {
    var x :- a;
    var y :- b;
    Ok(x + y)
  }

  lemma JoinAssoc<T>(a: Result<seq<T>, Failure>, b: Result<seq<T>, Failure>, c: Result<seq<T>, Failure>)
    ensures Join(Join(a, b), c) == Join(a, Join(b, c))
  {
    if a.Ok? && b.Ok? && c.Ok? {
      assert a.value + b.value + c.value == a.value + (b.value + c.value);
    }
  }

  lemma JoinEmpty<T>(a: Result<seq<T>, Failure>)
    ensures Join(a, Ok([])) == a && Join(Ok([]), a) == a
  {
    if a.Ok? {
      assert a.value + [] == a.value && [] + a.value == a.value;
    }
  }

  /** An `expr_stmt` part is one attribute; any other part of a simple statement is none. */
  function PartAttrs(part: Node, infer: string -> string): Result<seq<AttrDetails>, Failure> {
    if part.kind == "expr_stmt" then
      var a :- UnpackAttribute(part, infer);
      Ok([a])
    else Ok([])
  }

  /** The attributes of one simple statement: its `expr_stmt` parts, unpacked in order. */
  function SimpleStmtAttrs(parts: seq<Node>, infer: string -> string): Result<seq<AttrDetails>, Failure> {
    if parts == [] then Ok([]) else Join(PartAttrs(parts[0], infer), SimpleStmtAttrs(parts[1..], infer))
  }

  /** Only a simple statement is looked into; any other statement contributes nothing. */
  function StmtAttrs(stmt: Node, infer: string -> string): Result<seq<AttrDetails>, Failure> {
    if stmt.kind == "simple_stmt" then
      var parts :- Children(stmt);
      SimpleStmtAttrs(parts, infer)
    else Ok([])
  }

  /** The attributes of a statement list, statement by statement. */
  function BodyAttrs(stmts: seq<Node>, infer: string -> string): Result<seq<AttrDetails>, Failure> {
    if stmts == [] then Ok([]) else Join(StmtAttrs(stmts[0], infer), BodyAttrs(stmts[1..], infer))
  }

  /** Only a `suite` child of a class is looked into. */
  function ClassChildAttrs(child: Node, infer: string -> string): Result<seq<AttrDetails>, Failure> {
    if child.kind == "suite" then
      var stmts :- Children(child);
      BodyAttrs(stmts, infer)
    else Ok([])
  }

  /** The attributes of a class, child by child. */
  function ClassChildrenAttrs(children: seq<Node>, infer: string -> string): Result<seq<AttrDetails>, Failure> {
    if children == [] then Ok([]) else Join(ClassChildAttrs(children[0], infer), ClassChildrenAttrs(children[1..], infer))
  }

  /** `unpack_class`: the direct assignments of the class body, in order. */
  function UnpackClass(cls: Node, infer: string -> string): (r: Result<ClassDetails, Failure>)
    requires cls.Branch? && cls.kind == "classdef"
    ensures r.Ok? <==> ClassChildrenAttrs(cls.children, infer).Ok?
    ensures r.Ok? ==> r.value.attrs == ClassChildrenAttrs(cls.children, infer).value
  {
    var attrs :- ClassChildrenAttrs(cls.children, infer);
    Ok(ClassDetails(attrs))
  }

  /** `unpack_module`: the top-level assignments of the module, in order. */
  function UnpackModule(m: Node, infer: string -> string): (r: Result<ModuleDetails, Failure>)
    requires m.Branch? && m.kind == "file_input"
    ensures r.Ok? <==> BodyAttrs(m.children, infer).Ok?
    ensures r.Ok? ==> r.value.attrs == BodyAttrs(m.children, infer).value
  {
    var attrs :- BodyAttrs(m.children, infer);
    Ok(ModuleDetails(attrs))
  }

  /** A statement list is read statement by statement: splitting it splits the result. */
  lemma {:induction false} BodyAttrsAppend(s1: seq<Node>, s2: seq<Node>, infer: string -> string)
    ensures BodyAttrs(s1 + s2, infer) == Join(BodyAttrs(s1, infer), BodyAttrs(s2, infer))
  {
    if s1 == [] {
      assert s1 + s2 == s2;
      JoinEmpty(BodyAttrs(s2, infer));
    } else {
      assert (s1 + s2)[1..] == s1[1..] + s2;
      BodyAttrsAppend(s1[1..], s2, infer);
      JoinAssoc(StmtAttrs(s1[0], infer), BodyAttrs(s1[1..], infer), BodyAttrs(s2, infer));
    }
  }

  /**
   * Only direct assignments count: a statement that is not a simple
   * statement (a nested `def`, a nested `class`, an `if` block, ...)
   * contributes nothing, whatever it contains.
   */
  lemma NestedStatementIgnored(s1: seq<Node>, x: Node, s2: seq<Node>, infer: string -> string)
    requires x.kind != "simple_stmt"
    ensures BodyAttrs(s1 + [x] + s2, infer) == BodyAttrs(s1 + s2, infer)
  {
    BodyAttrsAppend(s1 + [x], s2, infer);
    BodyAttrsAppend(s1, [x], infer);
    BodyAttrsAppend(s1, s2, infer);
    assert [x][1..] == [];
    JoinEmpty<AttrDetails>(Ok([]));
    JoinEmpty(BodyAttrs(s1, infer));
  }

  /** A statement consisting of one assignment contributes exactly that attribute. */
  lemma SingleAssignment(e: Node, infer: string -> string)
    requires e.kind == "expr_stmt"
    ensures UnpackAttribute(e, infer).Ok? ==>
      BodyAttrs([Branch("simple_stmt", [e])], infer) == Ok([UnpackAttribute(e, infer).value])
    ensures UnpackAttribute(e, infer).Err? ==>
      BodyAttrs([Branch("simple_stmt", [e])], infer) == Err(UnpackAttribute(e, infer).error)
  {
    var stmt := Branch("simple_stmt", [e]);
    assert [e][1..] == [];
    assert [stmt][1..] == [];
    JoinEmpty(PartAttrs(e, infer));
    assert SimpleStmtAttrs([e], infer) == PartAttrs(e, infer);
    JoinEmpty(StmtAttrs(stmt, infer));
    assert BodyAttrs([stmt], infer) == StmtAttrs(stmt, infer);
  }

  /** A class body's suite is read exactly like a module body. */
  lemma ClassSuiteLikeModule(header: seq<Node>, stmts: seq<Node>, infer: string -> string)
    requires forall i :: 0 <= i < |header| ==> header[i].kind != "suite"
    ensures UnpackClass(Branch("classdef", header + [Branch("suite", stmts)]), infer).Ok?
      <==> UnpackModule(Branch("file_input", stmts), infer).Ok?
    ensures UnpackModule(Branch("file_input", stmts), infer).Ok? ==>
      UnpackClass(Branch("classdef", header + [Branch("suite", stmts)]), infer).value.attrs
      == UnpackModule(Branch("file_input", stmts), infer).value.attrs
  {
    HeaderIgnored(header, [Branch("suite", stmts)], infer);
    assert [Branch("suite", stmts)][1..] == [];
    JoinEmpty(BodyAttrs(stmts, infer));
  }

  lemma {:induction false} HeaderIgnored(header: seq<Node>, rest: seq<Node>, infer: string -> string)
    requires forall i :: 0 <= i < |header| ==> header[i].kind != "suite"
    ensures ClassChildrenAttrs(header + rest, infer) == ClassChildrenAttrs(rest, infer)
  {
    if header == [] {
      assert header + rest == rest;
    } else {
      assert (header + rest)[1..] == header[1..] + rest;
      HeaderIgnored(header[1..], rest, infer);
      JoinEmpty(ClassChildrenAttrs(rest, infer));
    }
  }
}
