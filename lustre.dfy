/**
 * The parts of the Lustre program representation the engines and the writer read.
 * Expressions are opaque apart from being an identifier or not, and their printed form.
 */
module Lustre {

  type Id = string

  /** An expression: a bare identifier (`IdExpr`) or any other expression, known by its printed form. */
  datatype Expr = IdExpr(id: Id) | OtherExpr(text: string)

  /** `Expr.toString()`. */
  function ExprText(e: Expr): string {
    match e
    case IdExpr(id) => id
    case OtherExpr(text) => text
  }

  datatype LType =
    | BoolType
    | IntType
    | RealType
    | SubrangeIntType(low: int, high: int)
    | EnumType(name: string, values: seq<string>)

  /** A type constrains the values of its variables beyond the solver sort (`LustreUtil.typeConstraint` is non-null). */
  predicate HasTypeConstraint(t: LType) {
    t.SubrangeIntType? || t.EnumType?
  }

  datatype VarDecl = VarDecl(id: Id, typ: LType)

  type Lhs = s: seq<Id> | |s| > 0 witness [""]

  /** An equation `lhs = expr`; the engines read only its first left-hand identifier. */
  datatype Equation = Equation(lhs: Lhs, expr: Expr)

  function LhsId(eq: Equation): Id {
    eq.lhs[0]
  }

  datatype Node = Node(
    id: string,
    inputs: seq<VarDecl>,
    outputs: seq<VarDecl>,
    locals: seq<VarDecl>,
    equations: seq<Equation>,
    assertions: seq<Expr>,
    properties: seq<Id>,
    ivc: seq<Id>)

  /** `Util.getVarDecls(node)`: inputs, then outputs, then locals. */
  function NodeVarDecls(node: Node): seq<VarDecl> {
    node.inputs + node.outputs + node.locals
  }

  /** `Util.getIds(vars)`. */
  function Ids(vars: seq<VarDecl>): (r: seq<Id>)
    ensures |r| == |vars|
    ensures forall i :: 0 <= i < |vars| ==> r[i] == vars[i].id
  {
    if vars == [] then [] else [vars[0].id] + Ids(vars[1..])
  }

  /** End points of a numeric interval, known by their printed form when finite. */
  datatype Endpoint = NegativeInfinity | PositiveInfinity | Finite(text: string)

  /** Values of a counterexample signal or a solver model. */
  datatype Value =
    | BooleanValue(b: bool)
    | BoolInterval(low: bool, high: bool)
    | NumericInterval(lowEnd: Endpoint, highEnd: Endpoint)
    | OtherValue(text: string)

  /** `Util.isArbitrary`: an interval that admits every value of its type. */
  predicate IsArbitrary(v: Value) {
    match v
    case BoolInterval(low, high) => !low && high
    case NumericInterval(lo, hi) => lo == NegativeInfinity && hi == PositiveInfinity
    case _ => false
  }
}
