/**
 * The parse tree the extractors read. A leaf holds its source text and the
 * whitespace before it; an inner node holds its children. Every node has a
 * kind, the grammar symbol or token type (`"name"`, `"suite"`,
 * `"simple_stmt"`, `"expr_stmt"`, ...).
 *
 * Reading `.value` of an inner node, `.children` of a leaf, or a child index
 * that does not exist raises in Python; here each is a `Failure`.
 */
module SyntaxTree {
  import opened Wrappers
  import opened Exc

  datatype Node =
    | Leaf(kind: string, prefix: string, value: string)
    | Branch(kind: string, children: seq<Node>)

  /** `node.get_code()`: the text of every leaf, each preceded by its prefix, left to right. */
  function Code(n: Node): string
    decreases n, 1
  {
    match n
    case Leaf(_, prefix, value) => prefix + value
    case Branch(_, children) => CodeOf(children)
  }

  /** The code of a run of sibling nodes, one after the other. */
  function CodeOf(ns: seq<Node>): string
    decreases ns, 0
  {
    if ns == [] then "" else Code(ns[0]) + CodeOf(ns[1..])
  }

  /** `node.value`: only leaves carry one. */
  function Value(n: Node): (r: Result<string, Failure>)
    ensures r.Ok? <==> n.Leaf?
    ensures r.Err? ==> r.error == AttributeFault("value")
  {
    match n
    case Leaf(_, _, value) => Ok(value)
    case Branch(_, _) => Err(AttributeFault("value"))
  }

  /** `node.children`: only inner nodes have them. */
  function Children(n: Node): (r: Result<seq<Node>, Failure>)
    ensures r.Ok? <==> n.Branch?
    ensures r.Err? ==> r.error == AttributeFault("children")
  {
    match n
    case Leaf(_, _, _) => Err(AttributeFault("children"))
    case Branch(_, children) => Ok(children)
  }

  /** `node.children[i]` */
  function Child(n: Node, i: nat): (r: Result<Node, Failure>)
    ensures r.Ok? <==> n.Branch? && i < |n.children|
    ensures r.Ok? ==> r.value == n.children[i]
  {
    var children :- Children(n);
    if i < |children| then Ok(children[i]) else Err(IndexFault)
  }

  /** `children[1:]`: everything after the first child, or nothing. */
  function AfterFirst(ns: seq<Node>): seq<Node> {
    if ns == [] then [] else ns[1..]
  }

  /**
   * `node.get_rhs()`: the last child, except that the last child of an
   * annotated assignment is an `annassign` node (`:`, the type, and then
   * `=` and the value when one is given), which gives the value when it has
   * four children and the type otherwise.
   */
  function Rhs(n: Node): (r: Result<Node, Failure>)
    ensures r.Ok? ==> n.Branch? && n.children != []
    ensures n.Leaf? ==> r == Err(AttributeFault("children"))
    ensures n.Branch? && n.children == [] ==> r == Err(IndexFault)
    ensures n.Branch? && n.children != [] ==>
      var last := n.children[|n.children| - 1];
      && (last.kind != "annassign" ==> r == Ok(last))
      && (last.kind == "annassign" && last.Branch? && |last.children| == 4 ==> r == Ok(last.children[3]))
      && (last.kind == "annassign" && last.Branch? && |last.children| != 4 && |last.children| >= 2 ==> r == Ok(last.children[1]))
      && (last.kind == "annassign" && !(last.Branch? && |last.children| >= 2) ==> r.Err?)
  {
    var children :- Children(n);
    if children == [] then Err(IndexFault)
    else
      var last := children[|children| - 1];
      if last.kind != "annassign" then Ok(last)
      else
        var parts :- Children(last);
        if |parts| == 4 then Ok(parts[3])
        else if |parts| >= 2 then Ok(parts[1])
        else Err(IndexFault)
  }

  /** `x = v`: the value node, the last child. */
  lemma PlainAssignmentRhs(target: Node, eq: Node, value: Node)
    requires value.kind != "annassign"
    ensures Rhs(Branch("expr_stmt", [target, eq, value])) == Ok(value)
  {
  }

  /** `x: T = v`: the value node, not the whole annotation. */
  lemma AnnotatedAssignmentRhs(target: Node, colon: Node, typ: Node, eq: Node, value: Node)
    ensures Rhs(Branch("expr_stmt", [target, Branch("annassign", [colon, typ, eq, value])])) == Ok(value)
  {
  }

  /** `x: T` with no value: the type node. */
  lemma BareAnnotationRhs(target: Node, colon: Node, typ: Node)
    ensures Rhs(Branch("expr_stmt", [target, Branch("annassign", [colon, typ])])) == Ok(typ)
  {
  }

  /** A parameter of a function definition: `*name` has star count 1, `**name` has 2. */
  datatype ParamNode = ParamNode(name: string, starCount: nat, annotation: Option<Node>, default: Option<Node>)

  /**
   * What the extractor asks of a function definition: its return
   * annotation, its parameters, and the return statements, yield
   * expressions and raise statements found in its body, each in source order.
   */
  datatype FunctionNode = FunctionNode(
    annotation: Option<Node>,
    params: seq<ParamNode>,
    returnStmts: seq<Node>,
    yieldExprs: seq<Node>,
    raiseStmts: seq<Node>)
}
