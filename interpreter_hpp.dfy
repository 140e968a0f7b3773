/**
 * The evaluator of interpreter.hpp (struct `interpreter`) over the syntax
 * tree of parser.hpp.
 *
 * `isTrue`, `isEqual`, the operand checks, the operator dispatch of
 * `visitBinaryExpr`/`visitUnaryExpr` and `stringify` are functions of their
 * arguments. Evaluating a tree can assign variables, so `Eval` threads the
 * environment's map through the tree in the source's order (left operand,
 * then right operand, then the operator). `Exec` and `Run` do the same for
 * statements and the `interpret` loop, and the class `Interpreter`, which
 * holds the `Environment` object and the printed lines, is proved to follow
 * them.
 */
module InterpreterHpp {
  import opened Wrappers
  import opened Values
  import opened ScannerHpp
  import opened ParserHpp

  // ---------------------------------------------------------------------
  // Truthiness and equality
  // ---------------------------------------------------------------------

  /** `isTrue`: nil is false, a bool is its own value, anything else is true. */
  predicate IsTrue(v: Value)
  {
    match v
    case Nil => false
    case Bool(b) => b
    case _ => true
  }

  /** Exactly two values are false: nil and `false`. */
  lemma FalseValues(v: Value)
    ensures !IsTrue(v) <==> v == Nil || v == Bool(false)
  {
  }

  /**
   * `isEqual`: two nils are equal, nil is unequal to anything else, values
   * of different dynamic types are unequal, and values of one type compare
   * by content.
   */
  function IsEqual(a: Value, b: Value): bool
  {
    if a.Nil? && b.Nil? then true
    else if a.Nil? then false
    else if TagOf(a) != TagOf(b) then false
    else
      match a
      case Num(x) => b.Num? && x == b.n
      case Bool(x) => b.Bool? && x == b.b
      case Str(x) => b.Str? && x == b.s
  }

  /** `isEqual` is exactly equality of values, so it is symmetric even though it tests `a` first. */
  lemma IsEqualIsEquality(a: Value, b: Value)
    ensures IsEqual(a, b) <==> a == b
  {
  }

  // ---------------------------------------------------------------------
  // Operators
  // ---------------------------------------------------------------------

  /** `checkNumberOperand`: nothing when the operand is a number, else the error it throws. */
  function CheckNumberOperand(op: Tok, operand: Value): (r: Option<RuntimeError>)
    ensures r.None? <==> operand.Num?
    ensures r.Some? ==> r.value == RuntimeError(op, "Operand must be a number.")
  {
    if operand.Num? then None else Some(RuntimeError(op, "Operand must be a number."))
  }

  /** `checkNumberOperands`: nothing when both operands are numbers, else the error it throws. */
  function CheckNumberOperands(left: Value, right: Value, op: Tok): (r: Option<RuntimeError>)
    ensures r.None? <==> left.Num? && right.Num?
    ensures r.Some? ==> r.value == RuntimeError(op, "Operands must be numbers.")
  {
    if left.Num? && right.Num? then None else Some(RuntimeError(op, "Operands must be numbers."))
  }

  /** The operators after which `visitBinaryExpr` checks for two numbers. */
  predicate IsNumericOperator(kind: Kind)
  {
    kind == SUB || kind == MUL || kind == DIV || kind == GREATER || kind == GREATER_EQUAL || kind == LESS || kind == LESS_EQUAL
  }

  /** The operators `visitBinaryExpr` has a case for. */
  predicate IsBinaryOperator(kind: Kind)
  {
    kind == ADD || IsNumericOperator(kind) || kind == NOT_EQUAL || kind == EQUAL_EQUAL
  }

  /** The operation a numeric operator applies to two numbers (a division by zero is `Quotient`'s). */
  function Arithmetic(kind: Kind, x: real, y: real): (r: Value)
    requires IsNumericOperator(kind)
    ensures kind == SUB || kind == MUL || kind == DIV ==> r.Num?
    ensures !(kind == SUB || kind == MUL || kind == DIV) ==> r.Bool?
  {
    match kind
    case SUB => Num(x - y)
    case MUL => Num(x * y)
    case DIV => Num(Quotient(x, y))
    case GREATER => Bool(x > y)
    case GREATER_EQUAL => Bool(x >= y)
    case LESS => Bool(x < y)
    case LESS_EQUAL => Bool(x <= y)
  }

  /** `+`: two numbers add, two strings concatenate, anything else throws. */
  function Add(op: Tok, left: Value, right: Value): (r: Result<Value, RuntimeError>)
    ensures r.Success? <==> (left.Num? && right.Num?) || (left.Str? && right.Str?)
    ensures r.Success? && left.Str? ==> r.value == Str(left.s + right.s)
    ensures r.Failure? ==> r.error == RuntimeError(op, "Operands must be either strings or numbers.")
  {
    if left.Num? && right.Num? then Success(Num(left.n + right.n))
    else if left.Str? && right.Str? then Success(Str(left.s + right.s))
    else Failure(RuntimeError(op, "Operands must be either strings or numbers."))
  }

  /** The `switch` of `visitBinaryExpr`, once both operands are evaluated. */
  function BinaryOp(op: Tok, left: Value, right: Value): (r: Result<Value, RuntimeError>)
    ensures op.kind == ADD ==> r == Add(op, left, right)
    ensures IsNumericOperator(op.kind) ==>
      (r.Success? <==> left.Num? && right.Num?) &&
      (r.Failure? ==> r.error == RuntimeError(op, "Operands must be numbers."))
    ensures op.kind == EQUAL_EQUAL ==> r == Success(Bool(left == right))
    ensures op.kind == NOT_EQUAL ==> r == Success(Bool(left != right))
    ensures !IsBinaryOperator(op.kind) ==> r == Failure(RuntimeError(op, "Unexpected binary operator."))
  {
    IsEqualIsEquality(left, right);
    if op.kind == ADD then Add(op, left, right)
    else if IsNumericOperator(op.kind) then
      var check := CheckNumberOperands(left, right, op);
      if check.Some? then Failure(check.value) else Success(Arithmetic(op.kind, left.n, right.n))
    else if op.kind == NOT_EQUAL then Success(Bool(!IsEqual(left, right)))
    else if op.kind == EQUAL_EQUAL then Success(Bool(IsEqual(left, right)))
    else Failure(RuntimeError(op, "Unexpected binary operator."))
  }

  /** `==` and `!=` never throw, and `!=` is the negation of `==`, whatever the operands. */
  lemma NotEqualNegatesEqual(ne: Tok, eq: Tok, left: Value, right: Value)
    requires ne.kind == NOT_EQUAL && eq.kind == EQUAL_EQUAL
    ensures BinaryOp(ne, left, right).Success? && BinaryOp(eq, left, right).Success?
    ensures BinaryOp(ne, left, right).value == Bool(!IsTrue(BinaryOp(eq, left, right).value))
  {
  }

  /**
   * On two numbers the comparisons never throw and agree with each other:
   * `<=` is `<` or `==`, `>=` is `>` or `==`, and exactly one of `<`, `==`,
   * `>` holds.
   */
  lemma ComparisonsAgree(lt: Tok, le: Tok, eq: Tok, ge: Tok, gt: Tok, x: real, y: real)
    requires lt.kind == LESS && le.kind == LESS_EQUAL && eq.kind == EQUAL_EQUAL
    requires ge.kind == GREATER_EQUAL && gt.kind == GREATER
    ensures var a, b := Num(x), Num(y);
      BinaryOp(lt, a, b).Success? && BinaryOp(le, a, b).Success? && BinaryOp(eq, a, b).Success? &&
      BinaryOp(ge, a, b).Success? && BinaryOp(gt, a, b).Success?
    ensures var a, b := Num(x), Num(y);
      var L, LE, E := IsTrue(BinaryOp(lt, a, b).value), IsTrue(BinaryOp(le, a, b).value), IsTrue(BinaryOp(eq, a, b).value);
      var GE, G := IsTrue(BinaryOp(ge, a, b).value), IsTrue(BinaryOp(gt, a, b).value);
      (LE <==> L || E) && (GE <==> G || E) && (L || E || G) && !(L && E) && !(L && G) && !(E && G)
  {
  }

  /** The `switch` of `visitUnaryExpr`, once the operand is evaluated. */
  function UnaryOp(op: Tok, right: Value): (r: Result<Value, RuntimeError>)
    ensures op.kind == SUB ==>
      (r.Success? <==> right.Num?) &&
      (r.Failure? ==> r.error == RuntimeError(op, "Operand must be a number."))
    ensures op.kind == NOT ==> r == Success(Bool(!IsTrue(right)))
    ensures op.kind != SUB && op.kind != NOT ==> r == Failure(RuntimeError(op, "Unexpected unary operator."))
  {
    match op.kind
    case SUB =>
      var check := CheckNumberOperand(op, right);
      if check.Some? then Failure(check.value) else Success(Num(-right.n))
    case NOT => Success(Bool(!IsTrue(right)))
    case _ => Failure(RuntimeError(op, "Unexpected unary operator."))
  }

  /** Negating a number twice gives it back; `!!v` is the truthiness of `v`. */
  lemma UnaryTwice(op: Tok, v: Value)
    requires op.kind == SUB || op.kind == NOT
    requires UnaryOp(op, v).Success?
    ensures op.kind == SUB ==> UnaryOp(op, UnaryOp(op, v).value) == Success(v)
    ensures op.kind == NOT ==> UnaryOp(op, UnaryOp(op, v).value) == Success(Bool(IsTrue(v)))
  {
  }

  // ---------------------------------------------------------------------
  // stringify
  // ---------------------------------------------------------------------

  /** `stringify`'s treatment of a number's text: a final ".0" is cut off when the text is longer than two characters. */
  function TrimPointZero(text: string): (r: string)
  {
    if |text| > 2 && text[|text| - 2..] == ".0" then text[..|text| - 2] else text
  }

  /** The cut undoes appending ".0" to a non-empty text, and otherwise leaves the text alone. */
  lemma TrimPointZeroMeans(text: string)
    ensures var r := TrimPointZero(text);
      (r == text || r + ".0" == text) &&
      (r != text <==> |text| > 2 && text[|text| - 2..] == ".0")
    ensures forall t: string :: |t| > 0 ==> TrimPointZero(t + ".0") == t
  {
    forall t: string | |t| > 0
      ensures TrimPointZero(t + ".0") == t
    {
      var s := t + ".0";
      assert s[|s| - 2..] == ".0";
      assert s[..|s| - 2] == t;
    }
    var r := TrimPointZero(text);
    if r != text {
      assert r + ".0" == text[..|text| - 2] + text[|text| - 2..];
    }
  }

  /**
   * `std::to_string` writes a `double` the way `%f` does, with six digits
   * after the point, so its text never ends in ".0" and the cut never
   * happens to it.
   */
  lemma SixDecimalsKept(text: string)
    requires |text| >= 7 && text[|text| - 7] == '.'
    requires forall k :: |text| - 6 <= k < |text| ==> '0' <= text[k] <= '9'
    ensures TrimPointZero(text) == text
  {
    assert text[|text| - 2..][0] == text[|text| - 2];
  }

  /**
   * `stringify`: "nil", the number's text (formatted by `std::to_string`,
   * given here as `format`) less a final ".0", "true"/"false", or the string
   * itself. The source's "????" is for types a value of this model never has.
   */
  function Stringify(v: Value, format: real -> string): (r: string)
    ensures v.Str? ==> r == v.s
    ensures v.Nil? ==> r == "nil"
    ensures v.Bool? ==> r == (if v.b then "true" else "false")
    ensures v.Num? ==> TrimPointZero(format(v.n)) == r
  {
    match v
    case Nil => "nil"
    case Num(n) => TrimPointZero(format(n))
    case Bool(b) => if b then "true" else "false"
    case Str(s) => s
  }

  // ---------------------------------------------------------------------
  // Evaluation
  // ---------------------------------------------------------------------

  /** The value of an expression (or the error it threw) and the variables afterwards. */
  datatype Evaluated = Evaluated(result: Result<Value, RuntimeError>, env: map<string, Value>)

  /**
   * `evaluate`: literals and groupings, `environment.get` for a variable,
   * `environment.assign` after the value for an assignment, the operand(s)
   * and then the operator for a unary or binary node. A thrown error stops
   * the evaluation, keeping any assignment already made. No variable is
   * ever added or removed.
   */
  function Eval(env: map<string, Value>, e: Expr): (r: Evaluated)
    ensures r.env.Keys == env.Keys
    decreases e
  {
    match e
    case Literal(v) => Evaluated(Success(v), env)
    case Grouping(x) => Eval(env, x)
    case Variable(name) => Evaluated(Lookup(env, name), env)
    case Assign(name, x) =>
      var v := Eval(env, x);
      if v.result.Failure? then v
      else
        var a := Reassigned(v.env, name, v.result.value);
        if a.Failure? then Evaluated(Failure(a.error), v.env)
        else Evaluated(v.result, a.value)
    case Unary(op, x) =>
      var v := Eval(env, x);
      if v.result.Failure? then v
      else Evaluated(UnaryOp(op, v.result.value), v.env)
    case Binary(l, op, rr) =>
      var a := Eval(env, l);
      if a.result.Failure? then a
      else
        var b := Eval(a.env, rr);
        if b.result.Failure? then b
        else Evaluated(BinaryOp(op, a.result.value, b.result.value), b.env)
  }

  /** An expression without an assignment in it leaves the variables as they were. */
  predicate AssignmentFree(e: Expr)
  {
    match e
    case Assign(_, _) => false
    case Grouping(x) => AssignmentFree(x)
    case Unary(_, x) => AssignmentFree(x)
    case Binary(l, _, r) => AssignmentFree(l) && AssignmentFree(r)
    case _ => true
  }

  lemma {:induction false} AssignmentFreeKeepsVariables(env: map<string, Value>, e: Expr)
    requires AssignmentFree(e)
    ensures Eval(env, e).env == env
    decreases e
  {
    match e
    case Grouping(x) => AssignmentFreeKeepsVariables(env, x);
    case Unary(_, x) => AssignmentFreeKeepsVariables(env, x);
    case Binary(l, _, r) =>
      AssignmentFreeKeepsVariables(env, l);
      AssignmentFreeKeepsVariables(env, r);
    case _ =>
  }

  /**
   * `visitAssignExpr` returns the value it assigned, and afterwards the
   * variable holds it; an undefined variable throws after the right-hand
   * side was evaluated.
   */
  lemma AssignmentReturnsValue(env: map<string, Value>, name: Tok, x: Expr)
    ensures var v, r := Eval(env, x), Eval(env, Assign(name, x));
      v.result.Success? ==>
        if name.lexeme in v.env then r.result == v.result && Lookup(r.env, name) == v.result
        else r.result == Failure(RuntimeError(name, "Undefined variable '" + name.lexeme + "'.")) && r.env == v.env
  {
  }

  // ---------------------------------------------------------------------
  // Execution
  // ---------------------------------------------------------------------

  /** The variables and the lines printed so far. */
  datatype State = State(env: map<string, Value>, output: seq<string>)

  /** A statement's (or a run's) state afterwards, and the error that stopped it. */
  datatype Executed = Executed(state: State, error: Option<RuntimeError>)

  /**
   * `execute`: an expression statement evaluates and drops the value; a
   * `print` evaluates and prints `stringify` of the value; a `var` defines
   * its name as nil, or as its initializer's value.
   */
  function Exec(st: State, s: Stmt, format: real -> string): (r: Executed)
  {
    match s
    case Expression(x) =>
      var v := Eval(st.env, x);
      Executed(State(v.env, st.output), if v.result.Failure? then Some(v.result.error) else None)
    case Print(x) =>
      var v := Eval(st.env, x);
      if v.result.Failure? then Executed(State(v.env, st.output), Some(v.result.error))
      else Executed(State(v.env, st.output + [Stringify(v.result.value, format)]), None)
    case Var(name, init) =>
      if init.None? then Executed(State(st.env[name.lexeme := Nil], st.output), None)
      else
        var v := Eval(st.env, init.value);
        if v.result.Failure? then Executed(State(v.env, st.output), Some(v.result.error))
        else Executed(State(v.env[name.lexeme := v.result.value], st.output), None)
  }

  /** A statement keeps every variable, prints at most one line, and only a `print` prints. */
  lemma ExecEffects(st: State, s: Stmt, format: real -> string)
    ensures var r := Exec(st, s, format);
      r.state.env.Keys >= st.env.Keys &&
      (r.state.output == st.output || (s.Print? && r.state.output == st.output + [Stringify(Eval(st.env, s.expression).result.value, format)]))
  {
  }

  /** `var` without an initializer defines nil; a `var` always succeeds when its initializer does. */
  lemma VarDefines(st: State, name: Tok, init: Option<Expr>, format: real -> string)
    ensures var r := Exec(st, Var(name, init), format);
      (init.None? ==> r.error.None? && r.state.env == st.env[name.lexeme := Nil]) &&
      (init.Some? && Eval(st.env, init.value).result.Success? ==>
        r.error.None? && Lookup(r.state.env, name) == Eval(st.env, init.value).result)
  {
  }

  /** `interpret`: the statements in order, stopping at the first `RuntimeError`. */
  function Run(st: State, stmts: seq<Stmt>, format: real -> string): (r: Executed)
    ensures r.state.env.Keys >= st.env.Keys
    ensures |r.state.output| >= |st.output| && r.state.output[..|st.output|] == st.output
    decreases |stmts|
  {
    if stmts == [] then Executed(st, None)
    else
      var x := Exec(st, stmts[0], format);
      ExecEffects(st, stmts[0], format);
      if x.error.Some? then x
      else Run(x.state, stmts[1..], format)
  }

  /**
   * Running two lists in a row is running the first, then, unless it
   * stopped at an error, the second: nothing after a failing statement
   * runs.
   */
  lemma {:induction false} RunAppend(st: State, a: seq<Stmt>, b: seq<Stmt>, format: real -> string)
    ensures var x := Run(st, a, format);
      Run(st, a + b, format) == if x.error.Some? then x else Run(x.state, b, format)
    decreases |a|
  {
    if a == [] {
      assert a + b == b;
    } else {
      assert (a + b)[0] == a[0];
      assert (a + b)[1..] == a[1..] + b;
      var x := Exec(st, a[0], format);
      if x.error.None? {
        RunAppend(x.state, a[1..], b, format);
      }
    }
  }

  // ---------------------------------------------------------------------
  // The interpreter object
  // ---------------------------------------------------------------------

  /**
   * The `interpreter` struct: its `Environment` (the flat one of
   * parser.hpp) and the lines `visitPrintStmt` writes to `std::cout`.
   * `metal_runtime_error` lies outside it; `Interpret` returns the error it
   * would be passed.
   */
  class Interpreter {
    const environment: Environment
    const format: real -> string
    var output: seq<string>

    constructor (format: real -> string)
      ensures fresh(environment) && environment.values == map[] && output == [] && this.format == format
    {
      environment := new Environment();
      this.format := format;
      output := [];
    }

    /** `evaluate` and the `visit*Expr` methods. */
    method Evaluate(e: Expr) returns (r: Result<Value, RuntimeError>)
      modifies environment
      ensures var ev := Eval(old(environment.values), e); r == ev.result && environment.values == ev.env
      decreases e
    {
      match e
      case Literal(v) =>
        r := Success(v);
      case Grouping(x) =>
        r := Evaluate(x);
      case Variable(name) =>
        r := environment.Get(name);
      case Assign(name, x) =>
        var value := Evaluate(x);
        if value.Failure? {
          return value;
        }
        var a := environment.Assign(name, value.value);
        if a.Failure? {
          return Failure(a.error);
        }
        r := value;
      case Unary(op, x) =>
        var right := Evaluate(x);
        if right.Failure? {
          return right;
        }
        r := UnaryOp(op, right.value);
      case Binary(l, op, x) =>
        var left := Evaluate(l);
        if left.Failure? {
          return left;
        }
        var right := Evaluate(x);
        if right.Failure? {
          return right;
        }
        r := BinaryOp(op, left.value, right.value);
    }

    /** `execute` and the `visit*Stmt` methods. */
    method Execute(s: Stmt) returns (error: Option<RuntimeError>)
      modifies this, environment
      ensures var x := Exec(State(old(environment.values), old(output)), s, format);
        environment.values == x.state.env && output == x.state.output && error == x.error
    {
      match s
      case Expression(x) =>
        var v := Evaluate(x);
        error := if v.Failure? then Some(v.error) else None;
      case Print(x) =>
        var v := Evaluate(x);
        if v.Failure? {
          return Some(v.error);
        }
        output := output + [Stringify(v.value, format)];
        error := None;
      case Var(name, init) =>
        var value := Nil;
        if init.Some? {
          var v := Evaluate(init.value);
          if v.Failure? {
            return Some(v.error);
          }
          value := v.value;
        }
        environment.Define(name.lexeme, value);
        error := None;
    }

    /** `interpret`: execute the statements in order; the first `RuntimeError` ends the loop. */
    method Interpret(statements: seq<Stmt>) returns (error: Option<RuntimeError>)
      modifies this, environment
      ensures var x := Run(State(old(environment.values), old(output)), statements, format);
        environment.values == x.state.env && output == x.state.output && error == x.error
    {
      var i := 0;
      while i < |statements|
        invariant i <= |statements|
        invariant var whole, rest := Run(State(old(environment.values), old(output)), statements, format),
                                     Run(State(environment.values, output), statements[i..], format);
          whole.state == rest.state && whole.error == rest.error
        decreases |statements| - i
      {
        assert statements[i..][1..] == statements[i + 1..];
        error := Execute(statements[i]);
        if error.Some? {
          return;
        }
        i := i + 1;
      }
      error := None;
    }
  }
}
