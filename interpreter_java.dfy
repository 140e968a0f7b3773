/**
 * The evaluator of the Java draft (Interpreter.java). The class has no
 * fields and evaluates a tree by recursive `accept` calls, so every part
 * of it is a function here: `isTrue`, `isEqual`, the operand checks, the
 * `switch` of each visitor, `evaluate` and `stringify`. A thrown
 * `RuntimeError` is the `Failure` of a `Result`.
 */
module InterpreterJava {
  import opened Wrappers
  import opened Values
  import opened ScannerJava
  import opened ExprJava

  datatype RuntimeError = RuntimeError(token: Tok, message: string)

  // ---------------------------------------------------------------------
  // Truthiness and equality
  // ---------------------------------------------------------------------

  /** `isTrue`: null is false, a Boolean is its own value, anything else is true. */
  predicate IsTrue(v: Value)
  {
    if v.Nil? then false
    else if v.Bool? then v.b
    else true
  }

  /** Exactly two values are false: null and `false`. */
  lemma FalseValues(v: Value)
    ensures !IsTrue(v) <==> v == Nil || v == Bool(false)
  {
  }

  /**
   * `isEqual` as written: true when both are null, true when only `a` is
   * null, else `a.equals(b)`, which for a Double, a String or a Boolean
   * is equality of value and type.
   */
  function IsEqual(a: Value, b: Value): bool
  {
    if a.Nil? && b.Nil? then true
    else if a.Nil? then true
    else a == b
  }

  /** What `isEqual` computes: null equals everything, other values only themselves. */
  lemma IsEqualMeans(a: Value, b: Value)
    ensures IsEqual(a, b) <==> a.Nil? || a == b
  {
  }

  /** The second test answers true, so null "equals" 1 while 1 does not equal null. */
  lemma NilEqualsAnything()
    ensures IsEqual(Nil, Num(1.0)) && IsEqual(Nil, Str("")) && IsEqual(Nil, Bool(false))
    ensures !IsEqual(Num(1.0), Nil)
  {
  }

  /** `isEqual` with the null test it evidently means: null equals only null. */
  function IsEqualCorrected(a: Value, b: Value): bool
  {
    if a.Nil? && b.Nil? then true
    else if a.Nil? then false
    else a == b
  }

  /** The corrected test is equality of values, hence symmetric. */
  lemma IsEqualCorrectedIsEquality(a: Value, b: Value)
    ensures IsEqualCorrected(a, b) <==> a == b
    ensures IsEqualCorrected(a, b) == IsEqualCorrected(b, a)
  {
  }

  // ---------------------------------------------------------------------
  // Operators
  // ---------------------------------------------------------------------

  /** `checkNumberOperand` on one operand: nothing for a Double, else the error it throws. */
  function CheckNumberOperand(op: Tok, right: Value): (r: Option<RuntimeError>)
    ensures r.None? <==> right.Num?
    ensures r.Some? ==> r.value == RuntimeError(op, "Operand must be a number")
  {
    if right.Num? then None else Some(RuntimeError(op, "Operand must be a number"))
  }

  /** `checkNumberOperand` on two operands: nothing when both are Doubles, else the error it throws. */
  function CheckNumberOperands(op: Tok, left: Value, right: Value): (r: Option<RuntimeError>)
    ensures r.None? <==> left.Num? && right.Num?
    ensures r.Some? ==> r.value == RuntimeError(op, "Operands must be numbers")
  {
    if left.Num? && right.Num? then None else Some(RuntimeError(op, "Operands must be numbers"))
  }

  /** The operators whose case checks for two numbers. */
  predicate IsNumericOperator(kind: Kind)
  {
    kind == MINUS || kind == SLASH || kind == STAR || kind == GREATER || kind == LESS || kind == GREATER_EQUAL || kind == LESS_EQUAL
  }

  /** The operation a numeric operator applies to two numbers (a division by zero is `Quotient`'s). */
  function Arithmetic(kind: Kind, x: real, y: real): (r: Value)
    requires IsNumericOperator(kind)
    ensures kind == MINUS || kind == SLASH || kind == STAR ==> r.Num?
    ensures !(kind == MINUS || kind == SLASH || kind == STAR) ==> r.Bool?
  {
    match kind
    case MINUS => Num(x - y)
    case SLASH => Num(Quotient(x, y))
    case STAR => Num(x * y)
    case GREATER => Bool(x > y)
    case LESS => Bool(x < y)
    case GREATER_EQUAL => Bool(x >= y)
    case LESS_EQUAL => Bool(x <= y)
  }

  /** The `PLUS` case: two Doubles add, two Strings concatenate, anything else throws. */
  function Plus(op: Tok, left: Value, right: Value): (r: Result<Value, RuntimeError>)
    ensures r.Success? <==> (left.Num? && right.Num?) || (left.Str? && right.Str?)
    ensures r.Success? && left.Num? ==> r.value == Num(left.n + right.n)
    ensures r.Success? && left.Str? ==> r.value == Str(left.s + right.s)
    ensures r.Failure? ==> r.error == RuntimeError(op, "Operands must be 2 numbers or 2 strings.")
  {
    if left.Num? && right.Num? then Success(Num(left.n + right.n))
    else if left.Str? && right.Str? then Success(Str(left.s + right.s))
    else Failure(RuntimeError(op, "Operands must be 2 numbers or 2 strings."))
  }

  /**
   * The `switch` of `visitBinaryExpr`, once both operands are evaluated.
   * An operator without a case, `==` and `!=` among them, falls out of
   * the switch and gives null.
   */
  function BinaryOp(op: Tok, left: Value, right: Value): (r: Result<Value, RuntimeError>)
    ensures op.kind == PLUS ==> r == Plus(op, left, right)
    ensures IsNumericOperator(op.kind) ==>
      (r.Success? <==> left.Num? && right.Num?) &&
      (r.Success? ==> r.value == Arithmetic(op.kind, left.n, right.n)) &&
      (r.Failure? ==> r.error == RuntimeError(op, "Operands must be numbers"))
    ensures op.kind != PLUS && !IsNumericOperator(op.kind) ==> r == Success(Nil)
  {
    if op.kind == PLUS then Plus(op, left, right)
    else if IsNumericOperator(op.kind) then
      var check := CheckNumberOperands(op, left, right);
      if check.Some? then Failure(check.value) else Success(Arithmetic(op.kind, left.n, right.n))
    else Success(Nil)
  }

  /** `==` and `!=` have no case: they never throw and always give null, whatever the operands. */
  lemma EqualityGivesNil(op: Tok, left: Value, right: Value)
    requires op.kind == EQUAL_EQUAL || op.kind == BANG_EQUAL
    ensures BinaryOp(op, left, right) == Success(Nil)
  {
  }

  /**
   * On two numbers the comparisons never throw and agree with each other:
   * `<=` is `<` or not `>`, `>=` is `>` or not `<`, and `<` and `>` never both hold.
   */
  lemma ComparisonsAgree(lt: Tok, le: Tok, ge: Tok, gt: Tok, x: real, y: real)
    requires lt.kind == LESS && le.kind == LESS_EQUAL && ge.kind == GREATER_EQUAL && gt.kind == GREATER
    ensures var a, b := Num(x), Num(y);
      BinaryOp(lt, a, b).Success? && BinaryOp(le, a, b).Success? &&
      BinaryOp(ge, a, b).Success? && BinaryOp(gt, a, b).Success?
    ensures var a, b := Num(x), Num(y);
      var L, LE := IsTrue(BinaryOp(lt, a, b).value), IsTrue(BinaryOp(le, a, b).value);
      var GE, G := IsTrue(BinaryOp(ge, a, b).value), IsTrue(BinaryOp(gt, a, b).value);
      (LE <==> !G) && (GE <==> !L) && !(L && G)
  {
  }

  /**
   * The `switch` of `visitUnaryExpr`, once the operand is evaluated: `!`
   * negates truthiness, `-` negates a Double and throws otherwise, and any
   * other operator gives null.
   */
  function UnaryOp(op: Tok, right: Value): (r: Result<Value, RuntimeError>)
    ensures op.kind == BANG ==> r == Success(Bool(!IsTrue(right)))
    ensures op.kind == MINUS ==>
      (r.Success? <==> right.Num?) &&
      (r.Success? ==> r.value == Num(-right.n)) &&
      (r.Failure? ==> r.error == RuntimeError(op, "Operand must be a number"))
    ensures op.kind != BANG && op.kind != MINUS ==> r == Success(Nil)
  {
    if op.kind == BANG then Success(Bool(!IsTrue(right)))
    else if op.kind == MINUS then
      var check := CheckNumberOperand(op, right);
      if check.Some? then Failure(check.value) else Success(Num(-right.n))
    else Success(Nil)
  }

  /** Negating a number twice gives it back; `!!v` is the truthiness of `v`. */
  lemma UnaryTwice(op: Tok, v: Value)
    requires op.kind == MINUS || op.kind == BANG
    requires UnaryOp(op, v).Success?
    ensures op.kind == MINUS ==> UnaryOp(op, UnaryOp(op, v).value) == Success(v)
    ensures op.kind == BANG ==> UnaryOp(op, UnaryOp(op, v).value) == Success(Bool(IsTrue(v)))
  {
  }

  // ---------------------------------------------------------------------
  // Evaluation
  // ---------------------------------------------------------------------

  /**
   * `evaluate`: a literal is its value, a grouping its expression's; a
   * unary node evaluates its operand, a binary node its left and then its
   * right operand, before the operator. The first error thrown is the result.
   */
  function Evaluate(e: Expr): (r: Result<Value, RuntimeError>)
    decreases e
  {
    match e
    case Literal(v) => Success(v)
    case Grouping(x) => Evaluate(x)
    case Unary(op, x) =>
      var v := Evaluate(x);
      if v.Failure? then v else UnaryOp(op, v.value)
    case Binary(l, op, rr) =>
      var a := Evaluate(l);
      if a.Failure? then a
      else
        var b := Evaluate(rr);
        if b.Failure? then b else BinaryOp(op, a.value, b.value)
  }

  /** The operator tokens of a tree. */
  function Operators(e: Expr): set<Tok>
  {
    match e
    case Literal(_) => {}
    case Grouping(x) => Operators(x)
    case Unary(op, x) => {op} + Operators(x)
    case Binary(l, op, r) => Operators(l) + {op} + Operators(r)
  }

  /** Every error evaluation throws is reported at an operator of the tree. */
  lemma {:induction false} ErrorsAtOperators(e: Expr)
    ensures Evaluate(e).Failure? ==> Evaluate(e).error.token in Operators(e)
  {
    match e
    case Literal(_) =>
    case Grouping(x) => ErrorsAtOperators(x);
    case Unary(_, x) => ErrorsAtOperators(x);
    case Binary(l, _, r) => ErrorsAtOperators(l); ErrorsAtOperators(r);
  }

  /** An error in the left operand is the result, whatever the right operand would do. */
  lemma LeftErrorWins(l: Expr, op: Tok, r: Expr)
    requires Evaluate(l).Failure?
    ensures Evaluate(Binary(l, op, r)) == Evaluate(l)
  {
  }

  /** A tree of number literals under `+`, `-`, `*` and `/` (and groupings and negations). */
  predicate Arithmetical(e: Expr)
  {
    match e
    case Literal(v) => v.Num?
    case Grouping(x) => Arithmetical(x)
    case Unary(op, x) => op.kind == MINUS && Arithmetical(x)
    case Binary(l, op, r) => (op.kind == PLUS || op.kind == MINUS || op.kind == STAR || op.kind == SLASH) && Arithmetical(l) && Arithmetical(r)
  }

  /** Arithmetic on numbers never throws, and gives a number. */
  lemma {:induction false} ArithmeticEvaluates(e: Expr)
    requires Arithmetical(e)
    ensures Evaluate(e).Success? && Evaluate(e).value.Num?
  {
    match e
    case Literal(_) =>
    case Grouping(x) => ArithmeticEvaluates(x);
    case Unary(_, x) => ArithmeticEvaluates(x);
    case Binary(l, _, r) => ArithmeticEvaluates(l); ArithmeticEvaluates(r);
  }

  // ---------------------------------------------------------------------
  // stringify and interpret
  // ---------------------------------------------------------------------

  /** `stringify`'s treatment of a number's text: a final ".0" is cut off. */
  function StripPointZero(text: string): (r: string)
  {
    if |text| >= 2 && text[|text| - 2..] == ".0" then text[..|text| - 2] else text
  }

  /** The cut undoes appending ".0", and leaves any other text alone. */
  lemma StripPointZeroMeans(text: string)
    ensures StripPointZero(text + ".0") == text
    ensures (|text| < 2 || text[|text| - 2..] != ".0") ==> StripPointZero(text) == text
  {
    var s := text + ".0";
    assert s[|s| - 2..] == ".0";
    assert s[..|s| - 2] == text;
  }

  /**
   * `stringify`: "nil" for null, a Double's text (`Double.toString`, given
   * here as `format`) less a final ".0", and `toString` of anything else.
   */
  function Stringify(v: Value, format: real -> string): (r: string)
    ensures v.Nil? ==> r == "nil"
    ensures v.Num? ==> r == StripPointZero(format(v.n))
    ensures v.Bool? ==> r == (if v.b then "true" else "false")
    ensures v.Str? ==> r == v.s
  {
    match v
    case Nil => "nil"
    case Num(n) => StripPointZero(format(n))
    case Bool(b) => if b then "true" else "false"
    case Str(s) => s
  }

  /** A whole number, which `Double.toString` writes with ".0", is shown without it. */
  lemma WholeNumberShown(n: real, digits: string, format: real -> string)
    requires format(n) == digits + ".0"
    ensures Stringify(Num(n), format) == digits
  {
    StripPointZeroMeans(digits);
  }

  /** `interpret`: the line printed for the value, or the error passed to `Metal.runtimeError`. */
  function Interpret(e: Expr, format: real -> string): (r: Result<string, RuntimeError>)
    ensures r.Success? <==> Evaluate(e).Success?
    ensures r.Success? ==> r.value == Stringify(Evaluate(e).value, format)
    ensures r.Failure? ==> r.error == Evaluate(e).error
  {
    var v := Evaluate(e);
    if v.Failure? then Failure(v.error) else Success(Stringify(v.value, format))
  }
}
