/**
 * The syntax tree of the Java draft (Expr.java): the four node classes
 * the visitors of Interpreter.java and PrettyPrinter.java dispatch on.
 * A literal's `Object` value is a `Value`.
 */
module ExprJava {
  import opened Values
  import opened Lexical
  import opened ScannerJava

  type Tok = Token<Kind>

  datatype Expr =
    | Binary(left: Expr, operator: Tok, right: Expr)
    | Unary(operator: Tok, operand: Expr)
    | Literal(value: Value)
    | Grouping(expression: Expr)

  /** The number of operator and grouping nodes, the nodes that are not literals. */
  function Inner(e: Expr): nat
  {
    match e
    case Binary(l, _, r) => 1 + Inner(l) + Inner(r)
    case Unary(_, x) => 1 + Inner(x)
    case Literal(_) => 0
    case Grouping(x) => 1 + Inner(x)
  }
}
