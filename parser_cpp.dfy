/**
 * The parser of parser.cpp (struct `parser`), the full statement grammar
 * of the second C++ draft, over the tokens of lexer.hpp.
 *
 * Every parsing routine is specified by a function from the token list
 * and the cursor to a `Parsed`: the node it returns, or `None` when it
 * throws `ParseError`, and the cursor afterwards. `error` only builds the
 * exception (it prints nothing), and the one handler, in `declaration`,
 * drops it, synchronizes and returns a null statement; so messages are
 * never observable, and `parse` always reaches the end of the tokens. The
 * class `Parser` keeps the source's `current` field and is proved to
 * follow the functions.
 */
module ParserCpp {
  import opened Wrappers
  import opened Values
  import opened Lexical
  import opened LexerHpp
  import opened EnvironmentsHpp

  /** What a routine leaves: its node (`None` when it throws), and the cursor. */
  datatype Parsed<T> = Parsed(value: Option<T>, next: nat)

  /** `o` is the outcome with that node and cursor. */
  predicate Yields<T(==)>(o: Parsed<T>, value: Option<T>, next: nat)
  {
    o.value == value && o.next == next
  }

  /** A thrown error passed on unchanged, as an outcome of another type. */
  function Rethrow<T, U>(o: Parsed<T>): (r: Parsed<U>)
    ensures r.value.None? && r.next == o.next
  {
    Parsed(None, o.next)
  }

  // ---------------------------------------------------------------------
  // The token list and the cursor
  // ---------------------------------------------------------------------

  /** What `scan_tokens` hands the parser: a list closed by EOF_TOKEN. */
  predicate Tokens(toks: seq<Tok>)
  {
    |toks| > 0 && toks[|toks| - 1].kind == EOF_TOKEN
  }

  /**
   * The cursor is on a token. Since `advance` only moves off a token that
   * is not EOF_TOKEN, and the last token is one, it never runs off the list.
   */
  predicate ValidPos(toks: seq<Tok>, pos: nat)
  {
    pos < |toks|
  }

  /** `check(type)`: false at the end, else whether the current token has that type. */
  predicate Check(toks: seq<Tok>, pos: nat, kind: Kind)
    requires pos < |toks|
  {
    toks[pos].kind != EOF_TOKEN && toks[pos].kind == kind
  }

  /** The variadic `match(types...)`: whether it advances, i.e. some listed type checks. */
  predicate MatchesAt(toks: seq<Tok>, pos: nat, kinds: seq<Kind>)
    requires pos < |toks|
  {
    toks[pos].kind != EOF_TOKEN && toks[pos].kind in kinds
  }

  /** Moving the cursor past a token that is not EOF_TOKEN keeps it valid. */
  lemma {:induction false} StepValid(toks: seq<Tok>, pos: nat)
    requires Tokens(toks) && ValidPos(toks, pos) && toks[pos].kind != EOF_TOKEN
    ensures ValidPos(toks, pos + 1)
  {
  }

  /** The token `advance` leaves the cursor after: it never moves past EOF_TOKEN. */
  function AdvanceFrom(toks: seq<Tok>, pos: nat): (r: nat)
    requires Tokens(toks) && ValidPos(toks, pos)
    ensures ValidPos(toks, r)
  {
    if toks[pos].kind == EOF_TOKEN then pos else StepValid(toks, pos); pos + 1
  }

  /** `consume(type, message)`: the expected token, or a thrown error at the current one. */
  function ConsumeAt(toks: seq<Tok>, pos: nat, kind: Kind): (r: Parsed<Tok>)
    requires Tokens(toks) && ValidPos(toks, pos)
    ensures ValidPos(toks, r.next)
    ensures r.value.Some? ==> r.next == pos + 1 && r.value.value == toks[pos] && Check(toks, pos, kind)
    ensures r.value.None? ==> r.next == pos && !Check(toks, pos, kind)
  {
    if Check(toks, pos, kind) then StepValid(toks, pos); Parsed(Some(toks[pos]), pos + 1)
    else Parsed(None, pos)
  }

  // ---------------------------------------------------------------------
  // Expressions
  // ---------------------------------------------------------------------

  /** The expression rules, from the loosest to the tightest. */
  datatype Rule = AssignmentRule | OrRule | AndRule | EqualityRule | ComparisonRule | TermRule | FactorRule | UnaryRule | CallRule | PrimaryRule

  /** Termination order: a rule calls tighter rules at the same cursor. */
  function Rank(rule: Rule): nat
  {
    match rule
    case AssignmentRule => 10
    case OrRule => 9
    case AndRule => 8
    case EqualityRule => 7
    case ComparisonRule => 6
    case TermRule => 5
    case FactorRule => 4
    case UnaryRule => 3
    case CallRule => 2
    case PrimaryRule => 1
  }

  /** The levels that loop over an operator: `orExpr`, `andExpr`, `equality`, `comparison`, `term`, `factor`. */
  predicate IsBinaryRule(rule: Rule)
  {
    rule == OrRule || rule == AndRule || rule == EqualityRule || rule == ComparisonRule || rule == TermRule || rule == FactorRule
  }

  /** The rule a binary level parses its operands with. */
  function Operand(rule: Rule): (r: Rule)
    requires IsBinaryRule(rule)
    ensures Rank(r) == Rank(rule) - 1
  {
    match rule
    case OrRule => AndRule
    case AndRule => EqualityRule
    case EqualityRule => ComparisonRule
    case ComparisonRule => TermRule
    case TermRule => FactorRule
    case FactorRule => UnaryRule
  }

  /** The token types a binary level passes to `match`, in the source's order. */
  function Operators(rule: Rule): seq<Kind>
    requires IsBinaryRule(rule)
  {
    match rule
    case OrRule => [OR]
    case AndRule => [AND]
    case EqualityRule => [NOT_EQUAL, EQUAL_EQUAL]
    case ComparisonRule => [GREATER_EQUALS, GREATER, LESSER, LESSER_EQUALS]
    case TermRule => [ADD, SUB]
    case FactorRule => [DIV, MUL]
  }

  /** The node a binary level builds: a `LogicalExpr` for `or` and `and`, a `BinaryExpr` otherwise. */
  function Node(rule: Rule, left: Expr, op: Tok, right: Expr): Expr
  {
    if rule == OrRule || rule == AndRule then Logical(left, right, op) else Binary(op, left, right)
  }

  /** What every expression routine promises: the cursor never moves back, and a result was read from at least one token. */
  predicate ExprOutcome(toks: seq<Tok>, pos: nat, r: Parsed<Expr>)
  {
    pos <= r.next && ValidPos(toks, r.next) && (r.value.Some? ==> pos < r.next)
  }

  /** The routine of a rule. */
  function RuleAt(rule: Rule, toks: seq<Tok>, pos: nat): (r: Parsed<Expr>)
    requires Tokens(toks) && ValidPos(toks, pos)
    ensures ExprOutcome(toks, pos, r)
    decreases |toks| - pos, Rank(rule), 1
  {
    match rule
    case AssignmentRule => AssignmentAt(toks, pos)
    case UnaryRule => UnaryAt(toks, pos)
    case CallRule => CallAt(toks, pos)
    case PrimaryRule => PrimaryAt(toks, pos)
    case _ => LevelAt(rule, toks, pos)
  }

  /** `assignment`: an `or` expression, then optionally '=' and a whole assignment. */
  function AssignmentAt(toks: seq<Tok>, pos: nat): (r: Parsed<Expr>)
    requires Tokens(toks) && ValidPos(toks, pos)
    ensures ExprOutcome(toks, pos, r)
    decreases |toks| - pos, Rank(AssignmentRule), 0
  {
    var l := LevelAt(OrRule, toks, pos);
    if l.value.None? || !Check(toks, l.next, EQUALS) then l
    else StepValid(toks, l.next); AssignTo(toks, l.value.value, l.next + 1)
  }

  /**
   * The rest of `assignment` once `target =` is read: a whole assignment
   * on the right, then an `AssignExpr` for a variable target; any other
   * target throws, with the cursor after the right-hand side.
   */
  function AssignTo(toks: seq<Tok>, target: Expr, pos: nat): (r: Parsed<Expr>)
    requires Tokens(toks) && ValidPos(toks, pos)
    ensures ExprOutcome(toks, pos, r)
    decreases |toks| - pos, Rank(AssignmentRule) + 1, 0
  {
    var v := AssignmentAt(toks, pos);
    if v.value.None? then v
    else if target.Variable? then Parsed(Some(Assign(target.name, v.value.value)), v.next)
    else Parsed(None, v.next)
  }

  /** A binary level: an operand, then the loop. */
  function LevelAt(rule: Rule, toks: seq<Tok>, pos: nat): (r: Parsed<Expr>)
    requires IsBinaryRule(rule) && Tokens(toks) && ValidPos(toks, pos)
    ensures ExprOutcome(toks, pos, r)
    decreases |toks| - pos, Rank(rule), 0
  {
    var l := RuleAt(Operand(rule), toks, pos);
    if l.value.None? then l else LoopAt(rule, toks, l.value.value, l.next)
  }

  /** The `while (match(...))` loop of a binary level: each operator makes a node with everything so far on its left. */
  function LoopAt(rule: Rule, toks: seq<Tok>, left: Expr, pos: nat): (r: Parsed<Expr>)
    requires IsBinaryRule(rule) && Tokens(toks) && ValidPos(toks, pos)
    ensures pos <= r.next && ValidPos(toks, r.next)
    decreases |toks| - pos, 0, 0
  {
    if MatchesAt(toks, pos, Operators(rule)) then
      StepValid(toks, pos);
      var right := RuleAt(Operand(rule), toks, pos + 1);
      if right.value.None? then right
      else LoopAt(rule, toks, Node(rule, left, toks[pos], right.value.value), right.next)
    else Parsed(Some(left), pos)
  }

  /** `unary`: '-' or '!' applied to a unary, or a call. */
  function UnaryAt(toks: seq<Tok>, pos: nat): (r: Parsed<Expr>)
    requires Tokens(toks) && ValidPos(toks, pos)
    ensures ExprOutcome(toks, pos, r)
    decreases |toks| - pos, Rank(UnaryRule), 0
  {
    if MatchesAt(toks, pos, [SUB, NOT]) then
      StepValid(toks, pos);
      var r := UnaryAt(toks, pos + 1);
      if r.value.None? then r else Parsed(Some(Unary(toks[pos], r.value.value)), r.next)
    else CallAt(toks, pos)
  }

  /** `call`: a primary, then any number of argument lists. */
  function CallAt(toks: seq<Tok>, pos: nat): (r: Parsed<Expr>)
    requires Tokens(toks) && ValidPos(toks, pos)
    ensures ExprOutcome(toks, pos, r)
    decreases |toks| - pos, Rank(CallRule), 0
  {
    var p := PrimaryAt(toks, pos);
    if p.value.None? then p else CallLoop(toks, p.value.value, p.next)
  }

  /** The `while (true)` loop of `call`: each '(' wraps the callee so far. */
  function CallLoop(toks: seq<Tok>, callee: Expr, pos: nat): (r: Parsed<Expr>)
    requires Tokens(toks) && ValidPos(toks, pos)
    ensures pos <= r.next && ValidPos(toks, r.next)
    decreases |toks| - pos, 0, 0
  {
    if Check(toks, pos, LEFT_PAREN) then
      StepValid(toks, pos);
      var c := FinishCallAt(toks, callee, pos + 1);
      if c.value.None? then c else CallLoop(toks, c.value.value, c.next)
    else Parsed(Some(callee), pos)
  }

  /** The most arguments a call may have. */
  const MaxArguments := 1024

  /** `finishCall`, from the token after '(': arguments unless ')' follows at once, then ')'. */
  function FinishCallAt(toks: seq<Tok>, callee: Expr, pos: nat): (r: Parsed<Expr>)
    requires Tokens(toks) && ValidPos(toks, pos)
    ensures ExprOutcome(toks, pos, r)
    ensures r.value.Some? ==> r.value.value.Call? && r.value.value.callee == callee && |r.value.value.arguments| <= MaxArguments
    decreases |toks| - pos, Rank(AssignmentRule) + 2, 0
  {
    if Check(toks, pos, RIGHT_PAREN) then CloseCall(toks, callee, [], pos)
    else ArgumentsLoop(toks, callee, [], pos)
  }

  /**
   * The `do ... while (match(COMMA))` loop of `finishCall`: with 1024
   * arguments already read it throws, else it reads one more.
   */
  function ArgumentsLoop(toks: seq<Tok>, callee: Expr, args: seq<Expr>, pos: nat): (r: Parsed<Expr>)
    requires Tokens(toks) && ValidPos(toks, pos) && |args| <= MaxArguments
    ensures ExprOutcome(toks, pos, r)
    ensures |args| >= MaxArguments ==> r == Parsed(None, pos)
    ensures r.value.Some? ==> r.value.value.Call? && r.value.value.callee == callee && |r.value.value.arguments| <= MaxArguments
    decreases |toks| - pos, Rank(AssignmentRule) + 1, 0
  {
    if |args| >= MaxArguments then Parsed(None, pos)
    else
      var a := AssignmentAt(toks, pos);
      if a.value.None? then a
      else if Check(toks, a.next, COMMA) then
        StepValid(toks, a.next);
        ArgumentsLoop(toks, callee, args + [a.value.value], a.next + 1)
      else CloseCall(toks, callee, args + [a.value.value], a.next)
  }

  /** The `consume(RIGHT_PAREN, ...)` that ends `finishCall`, and the `CallExpr`. */
  function CloseCall(toks: seq<Tok>, callee: Expr, args: seq<Expr>, pos: nat): (r: Parsed<Expr>)
    requires Tokens(toks) && ValidPos(toks, pos)
    ensures ExprOutcome(toks, pos, r)
    ensures r.value.Some? ==> r.value.value == Call(callee, toks[pos], args) && toks[pos].kind == RIGHT_PAREN
  {
    var paren := ConsumeAt(toks, pos, RIGHT_PAREN);
    if paren.value.None? then Rethrow(paren) else Parsed(Some(Call(callee, paren.value.value, args)), paren.next)
  }

  /**
   * The value a number or string token carries. The lexer always sets it;
   * an unset one would read as nil.
   */
  function LiteralValue(t: Tok): Value
  {
    if t.literal.Some? then t.literal.value else Nil
  }

  /** The literal `primary` makes of a `true`, `false`, `nil`, number or string token. */
  function LiteralOf(t: Tok): (r: Option<Expr>)
    ensures r.Some? <==> t.kind in {TRUE, FALSE, NIL, NUMBER, STRING}
    ensures r.Some? ==> r.value.Literal?
  {
    if t.kind == TRUE then Some(Literal(Bool(true)))
    else if t.kind == FALSE then Some(Literal(Bool(false)))
    else if t.kind == NIL then Some(Literal(Nil))
    else if t.kind == NUMBER || t.kind == STRING then Some(Literal(LiteralValue(t)))
    else None
  }

  /** `primary`: a literal, a parenthesized expression or a variable; anything else throws. */
  function PrimaryAt(toks: seq<Tok>, pos: nat): (r: Parsed<Expr>)
    requires Tokens(toks) && ValidPos(toks, pos)
    ensures ExprOutcome(toks, pos, r)
    decreases |toks| - pos, Rank(PrimaryRule), 0
  {
    var t := toks[pos];
    if t.kind == EOF_TOKEN then Parsed(None, pos)
    else
      StepValid(toks, pos);
      if LiteralOf(t).Some? then Parsed(LiteralOf(t), pos + 1)
      else if t.kind == LEFT_PAREN then GroupAt(toks, pos + 1)
      else if t.kind == IDENTIFIER then Parsed(Some(Variable(t)), pos + 1)
      else Parsed(None, pos)
  }

  /** The parenthesized case of `primary`, from the token after '(': an expression and a ')'. */
  function GroupAt(toks: seq<Tok>, pos: nat): (r: Parsed<Expr>)
    requires Tokens(toks) && ValidPos(toks, pos)
    ensures ExprOutcome(toks, pos, r)
    ensures r.value.Some? ==> r.value.value.Grouping? && toks[r.next - 1].kind == RIGHT_PAREN
    decreases |toks| - pos, Rank(AssignmentRule) + 1, 0
  {
    var e := AssignmentAt(toks, pos);
    if e.value.None? then e
    else
      var paren := ConsumeAt(toks, e.next, RIGHT_PAREN);
      if paren.value.None? then Rethrow(paren) else Parsed(Some(Grouping(e.value.value)), paren.next)
  }

  // ---------------------------------------------------------------------
  // Statements
  // ---------------------------------------------------------------------

  /** What every statement routine promises: the cursor never moves back, and a statement was read from at least one token. */
  predicate StmtOutcome<T>(toks: seq<Tok>, pos: nat, r: Parsed<T>)
  {
    pos <= r.next && ValidPos(toks, r.next) && (r.value.Some? ==> pos < r.next)
  }

  /** The `consume(SEMICOLON, ...)` that ends a statement; `s` is the statement it completes. */
  function EndAt(toks: seq<Tok>, pos: nat, s: Stmt): (r: Parsed<Stmt>)
    requires Tokens(toks) && ValidPos(toks, pos)
    ensures StmtOutcome(toks, pos, r)
    ensures r.value.Some? ==> r.value.value == s && r.next == pos + 1 && toks[pos].kind == SEMICOLON
  {
    var semi := ConsumeAt(toks, pos, SEMICOLON);
    Parsed(if semi.value.Some? then Some(s) else None, semi.next)
  }

  /** `expressionDeclaration`: an expression, then ';'. */
  function ExpressionDeclarationAt(toks: seq<Tok>, pos: nat): (r: Parsed<Stmt>)
    requires Tokens(toks) && ValidPos(toks, pos)
    ensures StmtOutcome(toks, pos, r)
    ensures r.value.Some? ==> r.value.value.ExpressionStmt? && toks[r.next - 1].kind == SEMICOLON
  {
    var e := AssignmentAt(toks, pos);
    if e.value.None? then Rethrow(e) else EndAt(toks, e.next, ExpressionStmt(e.value.value))
  }

  /** `printDeclaration`, from the token after `print`: an expression, then ';'. */
  function PrintDeclarationAt(toks: seq<Tok>, pos: nat): (r: Parsed<Stmt>)
    requires Tokens(toks) && ValidPos(toks, pos)
    ensures StmtOutcome(toks, pos, r)
    ensures r.value.Some? ==> r.value.value.Print? && toks[r.next - 1].kind == SEMICOLON
  {
    var e := AssignmentAt(toks, pos);
    if e.value.None? then Rethrow(e) else EndAt(toks, e.next, Print(e.value.value))
  }

  /** `varDeclaration`, from the token after `var`: a name, optionally '=' and an initializer, then ';'. */
  function VarDeclarationAt(toks: seq<Tok>, pos: nat): (r: Parsed<Stmt>)
    requires Tokens(toks) && ValidPos(toks, pos)
    ensures StmtOutcome(toks, pos, r)
    ensures r.value.Some? ==> r.value.value.VariableStmt? && r.value.value.token == toks[pos] && toks[pos].kind == IDENTIFIER
  {
    var name := ConsumeAt(toks, pos, IDENTIFIER);
    if name.value.None? then Rethrow(name) else VarInitializerAt(toks, name.value.value, name.next)
  }

  /** The rest of `varDeclaration` once the name is read: optionally '=' and an initializer, then ';'. */
  function VarInitializerAt(toks: seq<Tok>, name: Tok, pos: nat): (r: Parsed<Stmt>)
    requires Tokens(toks) && ValidPos(toks, pos)
    ensures StmtOutcome(toks, pos, r)
    ensures r.value.Some? ==> r.value.value.VariableStmt? && r.value.value.token == name
  {
    if Check(toks, pos, EQUALS) then
      StepValid(toks, pos);
      var init := AssignmentAt(toks, pos + 1);
      if init.value.None? then Rethrow(init) else EndAt(toks, init.next, VariableStmt(name, init.value))
    else EndAt(toks, pos, VariableStmt(name, None))
  }

  /** `whileDeclaration`, from the token after `while`: '(' condition ')' and a statement. */
  function WhileDeclarationAt(toks: seq<Tok>, pos: nat): (r: Parsed<Stmt>)
    requires Tokens(toks) && ValidPos(toks, pos)
    ensures StmtOutcome(toks, pos, r)
    ensures r.value.Some? ==> r.value.value.While?
    decreases |toks| - pos, 0
  {
    var open := ConsumeAt(toks, pos, LEFT_PAREN);
    if open.value.None? then Rethrow(open)
    else
      var c := AssignmentAt(toks, open.next);
      if c.value.None? then Rethrow(c)
      else
        var close := ConsumeAt(toks, c.next, RIGHT_PAREN);
        if close.value.None? then Rethrow(close)
        else
          var body := StatementAt(toks, close.next);
          if body.value.None? then body else Parsed(Some(While(c.value.value, body.value.value)), body.next)
  }

  /** `ifDeclaration`, from the token after `if`: '(' condition ')' and the branches. */
  function IfDeclarationAt(toks: seq<Tok>, pos: nat): (r: Parsed<Stmt>)
    requires Tokens(toks) && ValidPos(toks, pos)
    ensures StmtOutcome(toks, pos, r)
    ensures r.value.Some? ==> r.value.value.If?
    decreases |toks| - pos, 0
  {
    var open := ConsumeAt(toks, pos, LEFT_PAREN);
    if open.value.None? then Rethrow(open)
    else
      var c := AssignmentAt(toks, open.next);
      if c.value.None? then Rethrow(c)
      else
        var close := ConsumeAt(toks, c.next, RIGHT_PAREN);
        if close.value.None? then Rethrow(close)
        else BranchesAt(toks, c.value.value, close.next)
  }

  /**
   * The branches of `ifDeclaration`: a statement, then, if the very next
   * token is `else`, another statement. An `else` therefore belongs to the
   * innermost `if` whose branch has just ended.
   */
  function BranchesAt(toks: seq<Tok>, condition: Expr, pos: nat): (r: Parsed<Stmt>)
    requires Tokens(toks) && ValidPos(toks, pos)
    ensures StmtOutcome(toks, pos, r)
    ensures r.value.Some? ==> r.value.value.If? && (r.value.value.elseBranch.None? ==> !Check(toks, r.next, ELSE))
    decreases |toks| - pos, 15
  {
    var t := StatementAt(toks, pos);
    if t.value.None? then t
    else if Check(toks, t.next, ELSE) then
      StepValid(toks, t.next);
      var e := StatementAt(toks, t.next + 1);
      if e.value.None? then e else Parsed(Some(If(condition, t.value.value, Some(e.value.value))), e.next)
    else Parsed(Some(If(condition, t.value.value, None)), t.next)
  }

  /**
   * The statement `forDeclaration` builds from its clauses: the body, then
   * the increment, repeated while the condition (true when it is absent)
   * holds, after the initializer.
   */
  function Desugar(initializer: Option<Stmt>, condition: Option<Expr>, increment: Option<Expr>, body: Stmt): (r: Stmt)
    ensures r.While? || r.Block?
  {
    var inner := if increment.Some? then Block([Some(body), Some(ExpressionStmt(increment.value))]) else body;
    var loop := While(if condition.Some? then condition.value else Literal(Bool(true)), inner);
    if initializer.Some? then Block([initializer, Some(loop)]) else loop
  }

  /** `forDeclaration`, from the token after `for`: '(' and the initializer clause. */
  function ForDeclarationAt(toks: seq<Tok>, pos: nat): (r: Parsed<Stmt>)
    requires Tokens(toks) && ValidPos(toks, pos)
    ensures StmtOutcome(toks, pos, r)
    ensures r.value.Some? ==> r.value.value.While? || r.value.value.Block?
    decreases |toks| - pos, 0
  {
    var open := ConsumeAt(toks, pos, LEFT_PAREN);
    if open.value.None? then Rethrow(open)
    else
      var p := open.next;
      if Check(toks, p, SEMICOLON) then StepValid(toks, p); ForConditionAt(toks, None, p + 1)
      else
        var init := if Check(toks, p, VAR) then StepValid(toks, p); VarDeclarationAt(toks, p + 1)
                    else ExpressionDeclarationAt(toks, p);
        if init.value.None? then init else ForConditionAt(toks, init.value, init.next)
  }

  /** The condition clause of `forDeclaration`: an expression unless ';' follows at once, then ';'. */
  function ForConditionAt(toks: seq<Tok>, initializer: Option<Stmt>, pos: nat): (r: Parsed<Stmt>)
    requires Tokens(toks) && ValidPos(toks, pos)
    ensures StmtOutcome(toks, pos, r)
    ensures r.value.Some? ==> r.value.value.While? || r.value.value.Block?
    decreases |toks| - pos, 0
  {
    if Check(toks, pos, SEMICOLON) then StepValid(toks, pos); ForIncrementAt(toks, initializer, None, pos + 1)
    else
      var c := AssignmentAt(toks, pos);
      if c.value.None? then Rethrow(c)
      else
        var semi := ConsumeAt(toks, c.next, SEMICOLON);
        if semi.value.None? then Rethrow(semi) else ForIncrementAt(toks, initializer, c.value, semi.next)
  }

  /** The increment clause of `forDeclaration`: an expression unless ')' follows at once, then ')'. */
  function ForIncrementAt(toks: seq<Tok>, initializer: Option<Stmt>, condition: Option<Expr>, pos: nat): (r: Parsed<Stmt>)
    requires Tokens(toks) && ValidPos(toks, pos)
    ensures StmtOutcome(toks, pos, r)
    ensures r.value.Some? ==> r.value.value.While? || r.value.value.Block?
    decreases |toks| - pos, 0
  {
    if Check(toks, pos, RIGHT_PAREN) then StepValid(toks, pos); ForBodyAt(toks, initializer, condition, None, pos + 1)
    else
      var i := AssignmentAt(toks, pos);
      if i.value.None? then Rethrow(i)
      else
        var close := ConsumeAt(toks, i.next, RIGHT_PAREN);
        if close.value.None? then Rethrow(close) else ForBodyAt(toks, initializer, condition, i.value, close.next)
  }

  /** The body of `forDeclaration`, a statement, and the loop built around it. */
  function ForBodyAt(toks: seq<Tok>, initializer: Option<Stmt>, condition: Option<Expr>, increment: Option<Expr>, pos: nat): (r: Parsed<Stmt>)
    requires Tokens(toks) && ValidPos(toks, pos)
    ensures StmtOutcome(toks, pos, r)
    ensures r.value.Some? ==> r.value.value.While? || r.value.value.Block?
    decreases |toks| - pos, 15
  {
    var body := StatementAt(toks, pos);
    if body.value.None? then body else Parsed(Some(Desugar(initializer, condition, increment, body.value.value)), body.next)
  }

  /** The most parameters a function may have. */
  const MaxParameters := 256

  /** `function`, from the token after `fun`: a name, '(' and the parameters. */
  function FunctionAt(toks: seq<Tok>, pos: nat): (r: Parsed<Stmt>)
    requires Tokens(toks) && ValidPos(toks, pos)
    ensures StmtOutcome(toks, pos, r)
    ensures r.value.Some? ==> r.value.value.Function? && |r.value.value.params| <= MaxParameters
    decreases |toks| - pos, 0
  {
    var name := ConsumeAt(toks, pos, IDENTIFIER);
    if name.value.None? then Rethrow(name)
    else
      var open := ConsumeAt(toks, name.next, LEFT_PAREN);
      if open.value.None? then Rethrow(open)
      else if Check(toks, open.next, RIGHT_PAREN) then FunctionBodyAt(toks, name.value.value, [], open.next)
      else ParametersLoop(toks, name.value.value, [], open.next)
  }

  /**
   * The `do ... while (match(COMMA))` loop of `function`: with more than
   * 255 names already read it throws, else it reads one more.
   */
  function ParametersLoop(toks: seq<Tok>, name: Tok, params: seq<Tok>, pos: nat): (r: Parsed<Stmt>)
    requires Tokens(toks) && ValidPos(toks, pos) && |params| <= MaxParameters
    ensures StmtOutcome(toks, pos, r)
    ensures |params| >= MaxParameters ==> r.value.None? && r.next == pos
    ensures r.value.Some? ==> r.value.value.Function? && |r.value.value.params| <= MaxParameters
    decreases |toks| - pos, 0
  {
    if |params| >= MaxParameters then Parsed(None, pos)
    else
      var p := ConsumeAt(toks, pos, IDENTIFIER);
      if p.value.None? then Rethrow(p)
      else if Check(toks, p.next, COMMA) then
        StepValid(toks, p.next);
        ParametersLoop(toks, name, params + [p.value.value], p.next + 1)
      else FunctionBodyAt(toks, name, params + [p.value.value], p.next)
  }

  /** The rest of `function`: ')', '{' and the body block. */
  function FunctionBodyAt(toks: seq<Tok>, name: Tok, params: seq<Tok>, pos: nat): (r: Parsed<Stmt>)
    requires Tokens(toks) && ValidPos(toks, pos)
    ensures StmtOutcome(toks, pos, r)
    ensures r.value.Some? ==> r.value.value.Function? && r.value.value.name == name && r.value.value.params == params
    decreases |toks| - pos, 0
  {
    var close := ConsumeAt(toks, pos, RIGHT_PAREN);
    if close.value.None? then Rethrow(close)
    else
      var open := ConsumeAt(toks, close.next, LEFT_BRACE);
      if open.value.None? then Rethrow(open)
      else
        var body := BlockAt(toks, open.next);
        if body.value.None? then Rethrow(body) else Parsed(Some(Function(name, params, body.value.value)), body.next)
  }

  /** `blockDeclaration`, from the token after '{': declarations until '}' or the end, then '}'. */
  function BlockAt(toks: seq<Tok>, pos: nat): (r: Parsed<seq<Option<Stmt>>>)
    requires Tokens(toks) && ValidPos(toks, pos)
    ensures StmtOutcome(toks, pos, r)
    ensures r.value.Some? ==> toks[r.next - 1].kind == RIGHT_BRACE
    decreases |toks| - pos, 18
  {
    var l := BlockLoop(toks, pos);
    var close := ConsumeAt(toks, l.next, RIGHT_BRACE);
    if close.value.None? then Rethrow(close) else Parsed(l.value, close.next)
  }

  /** The loop of `blockDeclaration`: declarations while the cursor is on neither '}' nor EOF_TOKEN. */
  function BlockLoop(toks: seq<Tok>, pos: nat): (r: Parsed<seq<Option<Stmt>>>)
    requires Tokens(toks) && ValidPos(toks, pos)
    ensures pos <= r.next && ValidPos(toks, r.next) && r.value.Some?
    ensures toks[r.next].kind == EOF_TOKEN || toks[r.next].kind == RIGHT_BRACE
    decreases |toks| - pos, 17
  {
    if toks[pos].kind == EOF_TOKEN || Check(toks, pos, RIGHT_BRACE) then Parsed(Some([]), pos)
    else
      var d := DeclarationAt(toks, pos);
      var rest := BlockLoop(toks, d.next);
      Parsed(Some([d.value] + rest.value.value), rest.next)
  }

  /** `statement`: chosen by its first token, an expression statement when no keyword matches. */
  function StatementAt(toks: seq<Tok>, pos: nat): (r: Parsed<Stmt>)
    requires Tokens(toks) && ValidPos(toks, pos)
    ensures StmtOutcome(toks, pos, r)
    decreases |toks| - pos, 14
  {
    var t := toks[pos];
    if t.kind == EOF_TOKEN then ExpressionDeclarationAt(toks, pos)
    else
      StepValid(toks, pos);
      if t.kind == PRINT then PrintDeclarationAt(toks, pos + 1)
      else if t.kind == WHILE then WhileDeclarationAt(toks, pos + 1)
      else if t.kind == IF then IfDeclarationAt(toks, pos + 1)
      else if t.kind == FOR then ForDeclarationAt(toks, pos + 1)
      else if t.kind == LEFT_BRACE then
        var b := BlockAt(toks, pos + 1);
        if b.value.None? then Rethrow(b) else Parsed(Some(Block(b.value.value)), b.next)
      else ExpressionDeclarationAt(toks, pos)
  }

  /** The keywords `synchronize` stops in front of. */
  predicate StatementStart(kind: Kind)
  {
    kind == FUN || kind == VAR || kind == FOR || kind == WHILE || kind == IF || kind == RETURN || kind == PRINT
  }

  /** Where `synchronize` may stop: at the end, after ';', or before a statement keyword. */
  predicate Boundary(toks: seq<Tok>, p: nat)
    requires 0 < p < |toks|
  {
    toks[p].kind == EOF_TOKEN || toks[p - 1].kind == SEMICOLON || StatementStart(toks[p].kind)
  }

  /** The loop of `synchronize`: the first boundary at or after p. */
  function SyncFrom(toks: seq<Tok>, p: nat): (r: nat)
    requires Tokens(toks) && ValidPos(toks, p) && p > 0
    ensures p <= r && ValidPos(toks, r) && Boundary(toks, r)
    ensures forall q :: p <= q < r ==> !Boundary(toks, q)
    decreases |toks| - p
  {
    if Boundary(toks, p) then p else StepValid(toks, p); SyncFrom(toks, p + 1)
  }

  /**
   * `synchronize`: skip one token, then stop at the first boundary. It
   * reads the token before the cursor, so it needs the cursor off the
   * first token or not at the end.
   */
  function SynchronizeFrom(toks: seq<Tok>, pos: nat): (r: nat)
    requires Tokens(toks) && ValidPos(toks, pos) && (pos > 0 || toks[pos].kind != EOF_TOKEN)
    ensures ValidPos(toks, r) && pos <= r && 0 < r && Boundary(toks, r)
    ensures toks[pos].kind != EOF_TOKEN ==> pos < r
    ensures forall q :: AdvanceFrom(toks, pos) <= q < r ==> !Boundary(toks, q)
  {
    SyncFrom(toks, AdvanceFrom(toks, pos))
  }

  /**
   * `declaration`, on a token that is not EOF_TOKEN: a function after
   * `fun`, a variable after `var`, else a statement. A `ParseError` is
   * caught: `synchronize` runs from where it was thrown and the result is
   * a null statement (`None` here). It always moves the cursor.
   */
  function DeclarationAt(toks: seq<Tok>, pos: nat): (r: Parsed<Stmt>)
    requires Tokens(toks) && ValidPos(toks, pos) && toks[pos].kind != EOF_TOKEN
    ensures pos < r.next && ValidPos(toks, r.next)
    decreases |toks| - pos, 16
  {
    var s := AttemptAt(toks, pos);
    if s.value.Some? then s else Parsed(None, SynchronizeFrom(toks, s.next))
  }

  /** The `try` block of `declaration`: a function after `fun`, a variable after `var`, else a statement. */
  function AttemptAt(toks: seq<Tok>, pos: nat): (r: Parsed<Stmt>)
    requires Tokens(toks) && ValidPos(toks, pos) && toks[pos].kind != EOF_TOKEN
    ensures StmtOutcome(toks, pos, r)
    decreases |toks| - pos, 15
  {
    StepValid(toks, pos);
    if toks[pos].kind == FUN then FunctionAt(toks, pos + 1)
    else if toks[pos].kind == VAR then VarDeclarationAt(toks, pos + 1)
    else StatementAt(toks, pos)
  }

  /** The `parse` loop from cursor `pos`: a declaration's result (null after an error) for each, until EOF_TOKEN. */
  function ParseFrom(toks: seq<Tok>, pos: nat): (r: seq<Option<Stmt>>)
    requires Tokens(toks) && ValidPos(toks, pos)
    decreases |toks| - pos
  {
    if toks[pos].kind == EOF_TOKEN then []
    else
      var d := DeclarationAt(toks, pos);
      [d.value] + ParseFrom(toks, d.next)
  }

  // ---------------------------------------------------------------------
  // Properties of the grammar
  // ---------------------------------------------------------------------

  /** The binding strength of an operator token: 0 for a token that is none. */
  function Prec(kind: Kind): nat
  {
    match kind
    case OR => 1
    case AND => 2
    case NOT_EQUAL => 3
    case EQUAL_EQUAL => 3
    case GREATER_EQUALS => 4
    case GREATER => 4
    case LESSER => 4
    case LESSER_EQUALS => 4
    case ADD => 5
    case SUB => 5
    case DIV => 6
    case MUL => 6
    case _ => 0
  }

  /** The strength of the operators a rule's loop takes, or the least strength its results have. */
  function Floor(rule: Rule): nat
  {
    match rule
    case AssignmentRule => 0
    case OrRule => 1
    case AndRule => 2
    case EqualityRule => 3
    case ComparisonRule => 4
    case TermRule => 5
    case FactorRule => 6
    case _ => 7
  }

  /** How tightly the root of a tree binds: an assignment least, an operand-like node most. */
  function TopPrec(e: Expr): nat
  {
    match e
    case Binary(op, _, _) => Prec(op.kind)
    case Logical(_, _, op) => Prec(op.kind)
    case Assign(_, _) => 0
    case _ => 7
  }

  /**
   * Precedence and left-associativity: below a binary or logical node the
   * left operand binds at least as tightly and the right operand strictly
   * more tightly, so `a or b or c` is `(a or b) or c` and `a or b and c` is
   * `a or (b and c)`. The operand of a prefix operator and a callee are
   * never binary, logical or assignment nodes.
   */
  predicate Ordered(e: Expr)
  {
    match e
    case Binary(op, l, r) =>
      3 <= Prec(op.kind) <= 6 && TopPrec(l) >= Prec(op.kind) && TopPrec(r) > Prec(op.kind) && Ordered(l) && Ordered(r)
    case Logical(l, r, op) =>
      1 <= Prec(op.kind) <= 2 && TopPrec(l) >= Prec(op.kind) && TopPrec(r) > Prec(op.kind) && Ordered(l) && Ordered(r)
    case Unary(_, x) => TopPrec(x) == 7 && Ordered(x)
    case Grouping(x) => Ordered(x)
    case Assign(_, v) => Ordered(v)
    case Call(c, _, args) => TopPrec(c) == 7 && Ordered(c) && forall i :: 0 <= i < |args| ==> Ordered(args[i])
    case _ => true
  }

  /** The operators of a binary level are exactly the tokens of its strength. */
  lemma {:induction false} OperatorsByStrength(rule: Rule, kind: Kind)
    requires IsBinaryRule(rule)
    ensures kind in Operators(rule) <==> Prec(kind) == Floor(rule)
  {
  }

  /** A node a binary level builds from ordered operands is ordered, at the level's strength. */
  lemma {:induction false} NodeOrdered(rule: Rule, left: Expr, op: Tok, right: Expr)
    requires IsBinaryRule(rule) && op.kind in Operators(rule)
    requires Ordered(left) && Ordered(right) && TopPrec(left) >= Floor(rule) && TopPrec(right) >= Floor(Operand(rule))
    ensures Ordered(Node(rule, left, op, right)) && TopPrec(Node(rule, left, op, right)) == Floor(rule)
  {
    OperatorsByStrength(rule, op.kind);
  }

  /**
   * Precedence and left-associativity: whatever a rule returns is
   * `Ordered` and binds at least as tightly as the rule.
   */
  lemma {:induction false} ParsedOrdered(rule: Rule, toks: seq<Tok>, pos: nat)
    requires Tokens(toks) && ValidPos(toks, pos)
    ensures var r := RuleAt(rule, toks, pos);
      r.value.Some? ==> Ordered(r.value.value) && TopPrec(r.value.value) >= Floor(rule)
    decreases |toks| - pos, Rank(rule), 2
  {
    match rule
    case AssignmentRule => AssignmentOrdered(toks, pos);
    case UnaryRule => UnaryOrdered(toks, pos);
    case CallRule => CallOrdered(toks, pos);
    case PrimaryRule => PrimaryOrdered(toks, pos);
    case _ => LevelOrdered(rule, toks, pos);
  }

  lemma {:induction false} AssignmentOrdered(toks: seq<Tok>, pos: nat)
    requires Tokens(toks) && ValidPos(toks, pos)
    ensures var r := AssignmentAt(toks, pos);
      r.value.Some? ==> Ordered(r.value.value)
    decreases |toks| - pos, Rank(AssignmentRule), 1
  {
    var l := LevelAt(OrRule, toks, pos);
    ParsedOrdered(OrRule, toks, pos);
    if l.value.Some? && Check(toks, l.next, EQUALS) {
      StepValid(toks, l.next);
      ParsedOrdered(AssignmentRule, toks, l.next + 1);
    }
  }

  lemma {:induction false} LevelOrdered(rule: Rule, toks: seq<Tok>, pos: nat)
    requires IsBinaryRule(rule) && Tokens(toks) && ValidPos(toks, pos)
    ensures var r := LevelAt(rule, toks, pos);
      r.value.Some? ==> Ordered(r.value.value) && TopPrec(r.value.value) >= Floor(rule)
    decreases |toks| - pos, Rank(rule), 1
  {
    var l := RuleAt(Operand(rule), toks, pos);
    ParsedOrdered(Operand(rule), toks, pos);
    if l.value.Some? {
      LoopOrdered(rule, toks, l.value.value, l.next);
    }
  }

  /** The loop of a binary level keeps its tree `Ordered`: each new node has the old tree on its left. */
  lemma {:induction false} LoopOrdered(rule: Rule, toks: seq<Tok>, left: Expr, pos: nat)
    requires IsBinaryRule(rule) && Tokens(toks) && ValidPos(toks, pos)
    requires Ordered(left) && TopPrec(left) >= Floor(rule)
    ensures var r := LoopAt(rule, toks, left, pos);
      r.value.Some? ==> Ordered(r.value.value) && TopPrec(r.value.value) >= Floor(rule)
    decreases |toks| - pos, 0, 0
  {
    if MatchesAt(toks, pos, Operators(rule)) {
      StepValid(toks, pos);
      var right := RuleAt(Operand(rule), toks, pos + 1);
      ParsedOrdered(Operand(rule), toks, pos + 1);
      if right.value.Some? {
        NodeOrdered(rule, left, toks[pos], right.value.value);
        LoopOrdered(rule, toks, Node(rule, left, toks[pos], right.value.value), right.next);
      }
    }
  }

  lemma {:induction false} UnaryOrdered(toks: seq<Tok>, pos: nat)
    requires Tokens(toks) && ValidPos(toks, pos)
    ensures var r := UnaryAt(toks, pos);
      r.value.Some? ==> Ordered(r.value.value) && TopPrec(r.value.value) == 7
    decreases |toks| - pos, Rank(UnaryRule), 1
  {
    if MatchesAt(toks, pos, [SUB, NOT]) {
      StepValid(toks, pos);
      UnaryOrdered(toks, pos + 1);
    } else {
      CallOrdered(toks, pos);
    }
  }

  lemma {:induction false} CallOrdered(toks: seq<Tok>, pos: nat)
    requires Tokens(toks) && ValidPos(toks, pos)
    ensures var r := CallAt(toks, pos);
      r.value.Some? ==> Ordered(r.value.value) && TopPrec(r.value.value) == 7
    decreases |toks| - pos, Rank(CallRule), 1
  {
    var p := PrimaryAt(toks, pos);
    PrimaryOrdered(toks, pos);
    if p.value.Some? {
      CallLoopOrdered(toks, p.value.value, p.next);
    }
  }

  /** Each argument list of `call` wraps an ordered callee into an ordered call. */
  lemma {:induction false} CallLoopOrdered(toks: seq<Tok>, callee: Expr, pos: nat)
    requires Tokens(toks) && ValidPos(toks, pos)
    requires Ordered(callee) && TopPrec(callee) == 7
    ensures var r := CallLoop(toks, callee, pos);
      r.value.Some? ==> Ordered(r.value.value) && TopPrec(r.value.value) == 7
    decreases |toks| - pos, 0, 0
  {
    if Check(toks, pos, LEFT_PAREN) {
      StepValid(toks, pos);
      var c := FinishCallAt(toks, callee, pos + 1);
      FinishCallOrdered(toks, callee, pos + 1);
      if c.value.Some? {
        CallLoopOrdered(toks, c.value.value, c.next);
      }
    }
  }

  lemma {:induction false} FinishCallOrdered(toks: seq<Tok>, callee: Expr, pos: nat)
    requires Tokens(toks) && ValidPos(toks, pos)
    requires Ordered(callee) && TopPrec(callee) == 7
    ensures var r := FinishCallAt(toks, callee, pos);
      r.value.Some? ==> Ordered(r.value.value) && TopPrec(r.value.value) == 7
    decreases |toks| - pos, Rank(AssignmentRule) + 2, 0
  {
    var r := FinishCallAt(toks, callee, pos);
    if !Check(toks, pos, RIGHT_PAREN) {
      ArgumentsOrdered(toks, callee, [], pos);
    }
    if r.value.Some? {
      CallNodeOrdered(callee, r.value.value.paren, r.value.value.arguments);
    }
  }

  /** Every argument of a call is `Ordered`. */
  predicate AllOrdered(args: seq<Expr>)
  {
    forall i :: 0 <= i < |args| ==> Ordered(args[i])
  }

  lemma {:induction false} AppendOrdered(args: seq<Expr>, arg: Expr)
    requires AllOrdered(args) && Ordered(arg)
    ensures AllOrdered(args + [arg])
  {
  }

  /** A call of an ordered callee on ordered arguments is ordered. */
  lemma {:induction false} CallNodeOrdered(callee: Expr, paren: Tok, args: seq<Expr>)
    requires Ordered(callee) && TopPrec(callee) == 7 && AllOrdered(args)
    ensures Ordered(Call(callee, paren, args))
  {
  }

  /** The argument loop adds only ordered arguments. */
  lemma {:induction false} ArgumentsOrdered(toks: seq<Tok>, callee: Expr, args: seq<Expr>, pos: nat)
    requires Tokens(toks) && ValidPos(toks, pos) && |args| <= MaxArguments && AllOrdered(args)
    ensures var r := ArgumentsLoop(toks, callee, args, pos);
      r.value.Some? ==> AllOrdered(r.value.value.arguments)
    decreases |toks| - pos, Rank(AssignmentRule) + 1, 0
  {
    if |args| < MaxArguments {
      var a := AssignmentAt(toks, pos);
      AssignmentOrdered(toks, pos);
      if a.value.Some? {
        AppendOrdered(args, a.value.value);
        if Check(toks, a.next, COMMA) {
          StepValid(toks, a.next);
          ArgumentsOrdered(toks, callee, args + [a.value.value], a.next + 1);
        }
      }
    }
  }

  lemma {:induction false} PrimaryOrdered(toks: seq<Tok>, pos: nat)
    requires Tokens(toks) && ValidPos(toks, pos)
    ensures var r := PrimaryAt(toks, pos);
      r.value.Some? ==> Ordered(r.value.value) && TopPrec(r.value.value) == 7
    decreases |toks| - pos, Rank(PrimaryRule), 1
  {
    if toks[pos].kind == LEFT_PAREN {
      StepValid(toks, pos);
      AssignmentOrdered(toks, pos + 1);
    }
  }

  /**
   * Assignment is right-associative and only a variable is a target: the
   * right-hand side is a whole `assignment`; with any other left-hand side
   * the error is thrown once the right-hand side has been read.
   */
  lemma {:induction false} AssignmentShape(toks: seq<Tok>, pos: nat)
    requires Tokens(toks) && ValidPos(toks, pos)
    ensures var l := LevelAt(OrRule, toks, pos);
      l.value.Some? && Check(toks, l.next, EQUALS) ==>
        var v := AssignmentAt(toks, l.next + 1);
        var r := AssignmentAt(toks, pos);
        v.value.Some? ==>
          r.next == v.next &&
          (r.value.Some? <==> l.value.value.Variable?) &&
          (r.value.Some? ==> r.value.value == Assign(l.value.value.name, v.value.value))
  {
  }

  /** A statement that comes back as an `if` without `else` stopped in front of a token that is not `else`. */
  lemma {:induction false} IfWithoutElseEnds(toks: seq<Tok>, pos: nat)
    requires Tokens(toks) && ValidPos(toks, pos)
    ensures var r := StatementAt(toks, pos);
      r.value.Some? && r.value.value.If? && r.value.value.elseBranch.None? ==> !Check(toks, r.next, ELSE)
  {
  }

  /**
   * An `else` belongs to the nearest `if`: when the branch of an `if` is
   * itself an `if` without `else`, the outer one has no `else` either.
   */
  lemma {:induction false} ElseBindsNearest(toks: seq<Tok>, condition: Expr, pos: nat)
    requires Tokens(toks) && ValidPos(toks, pos)
    ensures var r := BranchesAt(toks, condition, pos);
      r.value.Some? && r.value.value.thenBranch.If? && r.value.value.thenBranch.elseBranch.None? ==>
        r.value.value.elseBranch.None?
  {
    IfWithoutElseEnds(toks, pos);
  }

  /** The `while` loop a desugared `for` statement runs: the second statement of its block when it has an initializer. */
  function LoopOf(s: Stmt): Stmt
  {
    if s.Block? && |s.statements| == 2 && s.statements[1].Some? then s.statements[1].value else s
  }

  /**
   * The desugaring of `for`: a `while` loop whose condition is the clause,
   * or `true` when it is absent; whose body is the `for` body followed by
   * the increment, when there is one; preceded, in a block of two, by the
   * initializer when there is one.
   */
  lemma {:induction false} ForDesugars(initializer: Option<Stmt>, condition: Option<Expr>, increment: Option<Expr>, body: Stmt)
    ensures var r := Desugar(initializer, condition, increment, body);
      var loop := LoopOf(r);
      loop.While? &&
      (condition.Some? ==> loop.condition == condition.value) &&
      (condition.None? ==> loop.condition == Literal(Bool(true))) &&
      (increment.None? ==> loop.body == body) &&
      (increment.Some? ==> loop.body == Block([Some(body), Some(ExpressionStmt(increment.value))])) &&
      (initializer.None? ==> r == loop) &&
      (initializer.Some? ==> r == Block([initializer, Some(loop)]))
  {
  }

  /**
   * After a `ParseError`, `declaration` leaves the cursor where
   * `synchronize` stopped: at the end, after a ';' or before a statement
   * keyword.
   */
  lemma {:induction false} DeclarationResynchronizes(toks: seq<Tok>, pos: nat)
    requires Tokens(toks) && ValidPos(toks, pos) && toks[pos].kind != EOF_TOKEN
    ensures var r := DeclarationAt(toks, pos);
      r.value.None? ==> 0 < r.next && Boundary(toks, r.next)
  {
  }

  /**
   * `parse` never fails and always reaches EOF_TOKEN: each declaration,
   * well formed or not, gives one entry and moves the cursor, so there is
   * at least one entry and at most one per token before the end.
   */
  lemma {:induction false} ParseCovers(toks: seq<Tok>, pos: nat)
    requires Tokens(toks) && ValidPos(toks, pos)
    ensures toks[pos].kind != EOF_TOKEN ==> 1 <= |ParseFrom(toks, pos)|
    ensures |ParseFrom(toks, pos)| <= |toks| - 1 - pos
    decreases |toks| - pos
  {
    if toks[pos].kind != EOF_TOKEN {
      var d := DeclarationAt(toks, pos);
      ParseCovers(toks, d.next);
    }
  }

  // ---------------------------------------------------------------------
  // The parser object
  // ---------------------------------------------------------------------

  /** `struct parser`: the token list and the cursor `current`. */
  class Parser {
    const tokens: seq<Tok>
    var current: nat

    ghost predicate Valid()
      reads this
    {
      Tokens(tokens) && ValidPos(tokens, current)
    }

    constructor (tokens: seq<Tok>)
      requires Tokens(tokens)
      ensures Valid() && this.tokens == tokens && current == 0
    {
      this.tokens := tokens;
      current := 0;
    }

    function Peek(): Tok
      reads this
      requires Valid()
    {
      tokens[current]
    }

    predicate IsAtEnd()
      reads this
      requires Valid()
    {
      Peek().kind == EOF_TOKEN
    }

    function Previous(): Tok
      reads this
      requires Valid() && current > 0
    {
      tokens[current - 1]
    }

    predicate CheckType(kind: Kind)
      reads this
      requires Valid()
    {
      Check(tokens, current, kind)
    }

    /** `advance`: step off the current token unless it is EOF_TOKEN, and return the one before the cursor. */
    method Advance() returns (t: Tok)
      requires Valid() && (current > 0 || !IsAtEnd())
      modifies this`current
      ensures Valid() && current == AdvanceFrom(tokens, old(current)) && current > 0 && t == tokens[current - 1]
    {
      if !IsAtEnd() {
        current := current + 1;
      }
      t := Previous();
    }

    /** `match` on one type. */
    method Match(kind: Kind) returns (matched: bool)
      requires Valid()
      modifies this`current
      ensures Valid() && matched == Check(tokens, old(current), kind)
      ensures current == if matched then old(current) + 1 else old(current)
    {
      if CheckType(kind) {
        var _ := Advance();
        return true;
      }
      return false;
    }

    /**
     * The variadic `match`: the types are tried in order and the first
     * that checks advances the cursor; so it advances at most once, and
     * exactly when one of them is the current token's type.
     */
    method MatchAny(kinds: seq<Kind>) returns (matched: bool)
      requires Valid()
      modifies this`current
      ensures Valid() && matched == MatchesAt(tokens, old(current), kinds)
      ensures current == if matched then old(current) + 1 else old(current)
    {
      for i := 0 to |kinds|
        invariant current == old(current)
        invariant forall j :: 0 <= j < i ==> !Check(tokens, current, kinds[j])
      {
        if CheckType(kinds[i]) {
          var _ := Advance();
          return true;
        }
      }
      return false;
    }

    /** `consume`: the expected token, or a thrown `ParseError` (`None`) with the cursor left in place. */
    method Consume(kind: Kind) returns (t: Option<Tok>)
      requires Valid()
      modifies this`current
      ensures Valid() && Yields(ConsumeAt(tokens, old(current), kind), t, current)
    {
      if CheckType(kind) {
        var a := Advance();
        return Some(a);
      }
      return None;
    }
  
    /** `expression`: an assignment. */
    method Expression() returns (e: Option<Expr>)
      requires Valid()
      modifies this`current
      ensures Valid() && Yields(AssignmentAt(tokens, old(current)), e, current)
      decreases |tokens| - current, Rank(AssignmentRule), 1
    {
      e := Assignment();
    }

    /** `assignment`: an `or` expression, then optionally '=' and a whole assignment to a variable. */
    method Assignment() returns (e: Option<Expr>)
      requires Valid()
      modifies this`current
      ensures Valid() && Yields(AssignmentAt(tokens, old(current)), e, current)
      decreases |tokens| - current, Rank(AssignmentRule), 0
    {
      e := OrExpr();
      if e.None? {
        return;
      }
      var m := Match(EQUALS);
      if !m {
        return;
      }
      var value := Assignment();
      if value.None? {
        return None;
      }
      if e.value.Variable? {
        return Some(Expr.Assign(e.value.name, value.value));
      }
      return None;
    }

    /** The routine of a rule, by name. */
    method ParseRule(rule: Rule) returns (e: Option<Expr>)
      requires Valid()
      modifies this`current
      ensures Valid() && Yields(RuleAt(rule, tokens, old(current)), e, current)
      decreases |tokens| - current, Rank(rule), 1
    {
      match rule
      case AssignmentRule => e := Assignment();
      case OrRule => e := OrExpr();
      case AndRule => e := AndExpr();
      case EqualityRule => e := Equality();
      case ComparisonRule => e := Comparison();
      case TermRule => e := Term();
      case FactorRule => e := Factor();
      case UnaryRule => e := Unary();
      case CallRule => e := Call();
      case PrimaryRule => e := Primary();
    }

    /**
     * The `while (match(...))` loop shared by the binary levels: each
     * operator and right operand make a node with the tree so far on its left.
     */
    method LevelTail(rule: Rule, first: Expr) returns (e: Option<Expr>)
      requires Valid() && IsBinaryRule(rule)
      modifies this`current
      ensures Valid() && Yields(LoopAt(rule, tokens, first, old(current)), e, current)
      decreases |tokens| - current, 0, 0
    {
      var left := first;
      while true
        invariant Valid() && old(current) <= current
        invariant var w, o := LoopAt(rule, tokens, first, old(current)), LoopAt(rule, tokens, left, current);
          Yields(w, o.value, o.next)
        decreases |tokens| - current
      {
        var more := MatchAny(Operators(rule));
        if !more {
          break;
        }
        var op := Previous();
        var right := ParseRule(Operand(rule));
        if right.None? {
          return None;
        }
        left := Node(rule, left, op, right.value);
      }
      e := Some(left);
    }

    /** `orExpr`: `and` expressions joined by `or`, grouped to the left. */
    method OrExpr() returns (e: Option<Expr>)
      requires Valid()
      modifies this`current
      ensures Valid() && Yields(LevelAt(OrRule, tokens, old(current)), e, current)
      decreases |tokens| - current, Rank(OrRule), 0
    {
      e := AndExpr();
      if e.Some? {
        e := LevelTail(OrRule, e.value);
      }
    }

    /** `andExpr`: equalities joined by `and`, grouped to the left. */
    method AndExpr() returns (e: Option<Expr>)
      requires Valid()
      modifies this`current
      ensures Valid() && Yields(LevelAt(AndRule, tokens, old(current)), e, current)
      decreases |tokens| - current, Rank(AndRule), 0
    {
      e := Equality();
      if e.Some? {
        e := LevelTail(AndRule, e.value);
      }
    }

    /** `equality`: comparisons joined by `!=` and `==`, grouped to the left. */
    method Equality() returns (e: Option<Expr>)
      requires Valid()
      modifies this`current
      ensures Valid() && Yields(LevelAt(EqualityRule, tokens, old(current)), e, current)
      decreases |tokens| - current, Rank(EqualityRule), 0
    {
      e := Comparison();
      if e.Some? {
        e := LevelTail(EqualityRule, e.value);
      }
    }

    /** `comparison`: terms joined by `>=`, `>`, `<` and `<=`, grouped to the left. */
    method Comparison() returns (e: Option<Expr>)
      requires Valid()
      modifies this`current
      ensures Valid() && Yields(LevelAt(ComparisonRule, tokens, old(current)), e, current)
      decreases |tokens| - current, Rank(ComparisonRule), 0
    {
      e := Term();
      if e.Some? {
        e := LevelTail(ComparisonRule, e.value);
      }
    }

    /** `term`: factors joined by `+` and `-`, grouped to the left. */
    method Term() returns (e: Option<Expr>)
      requires Valid()
      modifies this`current
      ensures Valid() && Yields(LevelAt(TermRule, tokens, old(current)), e, current)
      decreases |tokens| - current, Rank(TermRule), 0
    {
      e := Factor();
      if e.Some? {
        e := LevelTail(TermRule, e.value);
      }
    }

    /** `factor`: unaries joined by `/` and `*`, grouped to the left. */
    method Factor() returns (e: Option<Expr>)
      requires Valid()
      modifies this`current
      ensures Valid() && Yields(LevelAt(FactorRule, tokens, old(current)), e, current)
      decreases |tokens| - current, Rank(FactorRule), 0
    {
      e := Unary();
      if e.Some? {
        e := LevelTail(FactorRule, e.value);
      }
    }

    /** `unary`: '-' or '!' applied to a unary, or a call. */
    method Unary() returns (e: Option<Expr>)
      requires Valid()
      modifies this`current
      ensures Valid() && Yields(UnaryAt(tokens, old(current)), e, current)
      decreases |tokens| - current, Rank(UnaryRule), 0
    {
      var m := MatchAny([SUB, NOT]);
      if m {
        var op := Previous();
        var right := Unary();
        if right.None? {
          return None;
        }
        return Some(Expr.Unary(op, right.value));
      }
      e := Call();
    }

    /** `call`: a primary, then `finishCall` for each '('. */
    method Call() returns (e: Option<Expr>)
      requires Valid()
      modifies this`current
      ensures Valid() && Yields(CallAt(tokens, old(current)), e, current)
      decreases |tokens| - current, Rank(CallRule), 0
    {
      var p := Primary();
      if p.None? {
        return None;
      }
      var callee := p.value;
      ghost var start := current;
      while true
        invariant Valid() && start <= current
        invariant var w, o := CallLoop(tokens, p.value, start), CallLoop(tokens, callee, current);
          Yields(w, o.value, o.next)
        decreases |tokens| - current
      {
        var m := Match(LEFT_PAREN);
        if !m {
          break;
        }
        var c := FinishCall(callee);
        if c.None? {
          return None;
        }
        callee := c.value;
      }
      e := Some(callee);
    }

    /** `finishCall`, after '(': arguments unless ')' follows at once, then ')'. */
    method FinishCall(callee: Expr) returns (e: Option<Expr>)
      requires Valid()
      modifies this`current
      ensures Valid() && Yields(FinishCallAt(tokens, callee, old(current)), e, current)
      decreases |tokens| - current, Rank(AssignmentRule) + 2, 0
    {
      var args: seq<Expr> := [];
      if !CheckType(RIGHT_PAREN) {
        var read;
        read, args := Arguments(callee);
        if !read {
          return None;
        }
      }
      var paren := Consume(RIGHT_PAREN);
      if paren.None? {
        return None;
      }
      return Some(Expr.Call(callee, paren.value, args));
    }

    /**
     * The `do ... while (match(COMMA))` loop of `finishCall`: an
     * expression after each ',', throwing when 1024 arguments are already
     * read. `read` is false when it threw.
     */
    method Arguments(callee: Expr) returns (read: bool, args: seq<Expr>)
      requires Valid()
      modifies this`current
      ensures Valid() && |args| <= MaxArguments
      ensures read ==> var c := CloseCall(tokens, callee, args, current);
        Yields(ArgumentsLoop(tokens, callee, [], old(current)), c.value, c.next)
      ensures !read ==> Yields(ArgumentsLoop(tokens, callee, [], old(current)), None, current)
      decreases |tokens| - current, Rank(AssignmentRule) + 1, 0
    {
      args := [];
      while true
        invariant Valid() && old(current) <= current && |args| <= MaxArguments
        invariant var w, o := ArgumentsLoop(tokens, callee, [], old(current)), ArgumentsLoop(tokens, callee, args, current);
          Yields(w, o.value, o.next)
        decreases |tokens| - current
      {
        if |args| >= MaxArguments {
          return false, args;
        }
        var a := Expression();
        if a.None? {
          return false, args;
        }
        args := args + [a.value];
        var m := Match(COMMA);
        if !m {
          break;
        }
      }
      read := true;
    }

    /** The literal cases of `primary`: `true`, `false`, `nil`, then a number or a string. */
    method MatchLiteral() returns (e: Option<Expr>)
      requires Valid()
      modifies this`current
      ensures Valid() && e == LiteralOf(old(Peek()))
      ensures current == if e.Some? then old(current) + 1 else old(current)
    {
      e := MatchConstant();
      if e.Some? {
        return;
      }
      var m := MatchAny([NUMBER, STRING]);
      if m {
        return Some(Literal(LiteralValue(Previous())));
      }
    }

    /** The `true`, `false` and `nil` cases of `primary`. */
    method MatchConstant() returns (e: Option<Expr>)
      requires Valid()
      modifies this`current
      ensures Valid() && (e.Some? <==> old(Peek()).kind in {TRUE, FALSE, NIL})
      ensures e.Some? ==> e == LiteralOf(old(Peek()))
      ensures current == if e.Some? then old(current) + 1 else old(current)
    {
      var m := Match(TRUE);
      if m {
        return Some(Literal(Bool(true)));
      }
      m := Match(FALSE);
      if m {
        return Some(Literal(Bool(false)));
      }
      m := Match(NIL);
      if m {
        return Some(Literal(Nil));
      }
      return None;
    }

    /** `primary`: a literal, a parenthesized expression or a variable; anything else throws. */
    method Primary() returns (e: Option<Expr>)
      requires Valid()
      modifies this`current
      ensures Valid() && Yields(PrimaryAt(tokens, old(current)), e, current)
      decreases |tokens| - current, Rank(PrimaryRule), 0
    {
      e := MatchLiteral();
      if e.Some? {
        return;
      }
      var m := Match(LEFT_PAREN);
      if m {
        e := Group();
        return;
      }
      m := Match(IDENTIFIER);
      if m {
        return Some(Variable(Previous()));
      }
      return None;
    }

    /** The parenthesized case of `primary`, after '(': an expression and ')'. */
    method Group() returns (e: Option<Expr>)
      requires Valid()
      modifies this`current
      ensures Valid() && Yields(GroupAt(tokens, old(current)), e, current)
      decreases |tokens| - current, Rank(AssignmentRule) + 1, 0
    {
      var inner := Expression();
      if inner.None? {
        return None;
      }
      var paren := Consume(RIGHT_PAREN);
      if paren.None? {
        return None;
      }
      return Some(Grouping(inner.value));
    }
  
    /**
     * `parse`: one entry per declaration, a null one for each that threw,
     * until EOF_TOKEN; nothing escapes it.
     */
    method Parse() returns (statements: seq<Option<Stmt>>)
      requires Valid()
      modifies this`current
      ensures Valid() && IsAtEnd() && statements == ParseFrom(tokens, old(current))
    {
      statements := [];
      while !IsAtEnd()
        invariant Valid() && ParseFrom(tokens, old(current)) == statements + ParseFrom(tokens, current)
        decreases |tokens| - current
      {
        ghost var before := current;
        var d := Declaration();
        assert ParseFrom(tokens, before) == [d] + ParseFrom(tokens, current);
        statements := statements + [d];
      }
    }

    /**
     * `declaration`: a function after `fun`, a variable after `var`, else
     * a statement; a `ParseError` is caught, the parser synchronizes and
     * the result is null.
     */
    method Declaration() returns (s: Option<Stmt>)
      requires Valid() && !IsAtEnd()
      modifies this`current
      ensures Valid() && Yields(DeclarationAt(tokens, old(current)), s, current)
      decreases |tokens| - current, 16
    {
      s := Attempt();
      if s.None? {
        Synchronize();
      }
    }

    /** The `try` block of `declaration`. */
    method Attempt() returns (s: Option<Stmt>)
      requires Valid() && !IsAtEnd()
      modifies this`current
      ensures Valid() && Yields(AttemptAt(tokens, old(current)), s, current)
      decreases |tokens| - current, 15
    {
      var m := Match(FUN);
      if m {
        s := Function();
        return;
      }
      m := Match(VAR);
      if m {
        s := VarDeclaration();
        return;
      }
      s := Statement();
    }

    /**
     * `synchronize`: skip a token, then skip on until just after a ';',
     * in front of a statement keyword, or at EOF_TOKEN.
     */
    method Synchronize()
      requires Valid() && (current > 0 || !IsAtEnd())
      modifies this`current
      ensures Valid() && current == SynchronizeFrom(tokens, old(current))
    {
      var _ := Advance();
      while !IsAtEnd()
        invariant Valid() && current > 0
        invariant SynchronizeFrom(tokens, old(current)) == SyncFrom(tokens, current)
        decreases |tokens| - current
      {
        if Previous().kind == SEMICOLON {
          return;
        }
        if StatementStart(Peek().kind) {
          return;
        }
        var _ := Advance();
      }
    }

    /** `statement`: chosen by its first token, an expression statement when no keyword matches. */
    method Statement() returns (s: Option<Stmt>)
      requires Valid()
      modifies this`current
      ensures Valid() && Yields(StatementAt(tokens, old(current)), s, current)
      decreases |tokens| - current, 14
    {
      var m := Match(PRINT);
      if m {
        s := PrintDeclaration();
        return;
      }
      m := Match(WHILE);
      if m {
        s := WhileDeclaration();
        return;
      }
      m := Match(IF);
      if m {
        s := IfDeclaration();
        return;
      }
      m := Match(FOR);
      if m {
        s := ForDeclaration();
        return;
      }
      m := Match(LEFT_BRACE);
      if m {
        var b := BlockDeclaration();
        if b.None? {
          return None;
        }
        return Some(Block(b.value));
      }
      s := ExpressionDeclaration();
    }

    /** `blockDeclaration`, after '{': declarations until '}' or the end, then '}'. */
    method BlockDeclaration() returns (statements: Option<seq<Option<Stmt>>>)
      requires Valid()
      modifies this`current
      ensures Valid() && Yields(BlockAt(tokens, old(current)), statements, current)
      decreases |tokens| - current, 18
    {
      var block: seq<Option<Stmt>> := [];
      while !IsAtEnd() && !CheckType(RIGHT_BRACE)
        invariant Valid() && old(current) <= current
        invariant var w, o := BlockLoop(tokens, old(current)), BlockLoop(tokens, current);
          w.value.value == block + o.value.value && w.next == o.next
        decreases |tokens| - current
      {
        ghost var before := current;
        var d := Declaration();
        ghost var rest := BlockLoop(tokens, current).value.value;
        assert BlockLoop(tokens, before).value.value == [d] + rest;
        assert block + ([d] + rest) == (block + [d]) + rest;
        block := block + [d];
      }
      assert block + [] == block;
      var close := Consume(RIGHT_BRACE);
      if close.None? {
        return None;
      }
      return Some(block);
    }

    /** `expressionDeclaration`: an expression, then ';'. */
    method ExpressionDeclaration() returns (s: Option<Stmt>)
      requires Valid()
      modifies this`current
      ensures Valid() && Yields(ExpressionDeclarationAt(tokens, old(current)), s, current)
    {
      var e := Expression();
      if e.None? {
        return None;
      }
      var semi := Consume(SEMICOLON);
      if semi.None? {
        return None;
      }
      return Some(ExpressionStmt(e.value));
    }

    /** `printDeclaration`, after `print`: an expression, then ';'. */
    method PrintDeclaration() returns (s: Option<Stmt>)
      requires Valid()
      modifies this`current
      ensures Valid() && Yields(PrintDeclarationAt(tokens, old(current)), s, current)
    {
      var e := Expression();
      if e.None? {
        return None;
      }
      var semi := Consume(SEMICOLON);
      if semi.None? {
        return None;
      }
      return Some(Stmt.Print(e.value));
    }

    /** `varDeclaration`, after `var`: a name, optionally '=' and an initializer, then ';'. */
    method VarDeclaration() returns (s: Option<Stmt>)
      requires Valid()
      modifies this`current
      ensures Valid() && Yields(VarDeclarationAt(tokens, old(current)), s, current)
    {
      var name := Consume(IDENTIFIER);
      if name.None? {
        return None;
      }
      var initializer: Option<Expr> := None;
      var m := Match(EQUALS);
      if m {
        initializer := Expression();
        if initializer.None? {
          return None;
        }
      }
      var semi := Consume(SEMICOLON);
      if semi.None? {
        return None;
      }
      return Some(VariableStmt(name.value, initializer));
    }

    /** `ifDeclaration`, after `if`: '(' condition ')', a statement, and another after `else`. */
    method IfDeclaration() returns (s: Option<Stmt>)
      requires Valid()
      modifies this`current
      ensures Valid() && Yields(IfDeclarationAt(tokens, old(current)), s, current)
      decreases |tokens| - current, 0
    {
      var open := Consume(LEFT_PAREN);
      if open.None? {
        return None;
      }
      var condition := Expression();
      if condition.None? {
        return None;
      }
      var close := Consume(RIGHT_PAREN);
      if close.None? {
        return None;
      }
      var thenBranch := Statement();
      if thenBranch.None? {
        return None;
      }
      var elseBranch: Option<Stmt> := None;
      var m := Match(ELSE);
      if m {
        elseBranch := Statement();
        if elseBranch.None? {
          return None;
        }
      }
      return Some(If(condition.value, thenBranch.value, elseBranch));
    }

    /** `whileDeclaration`, after `while`: '(' condition ')' and a statement. */
    method WhileDeclaration() returns (s: Option<Stmt>)
      requires Valid()
      modifies this`current
      ensures Valid() && Yields(WhileDeclarationAt(tokens, old(current)), s, current)
      decreases |tokens| - current, 0
    {
      var open := Consume(LEFT_PAREN);
      if open.None? {
        return None;
      }
      var condition := Expression();
      if condition.None? {
        return None;
      }
      var close := Consume(RIGHT_PAREN);
      if close.None? {
        return None;
      }
      var body := Statement();
      if body.None? {
        return None;
      }
      return Some(While(condition.value, body.value));
    }

    /**
     * `forDeclaration`, after `for`: the three clauses and the body,
     * desugared into a `while` loop.
     */
    method ForDeclaration() returns (s: Option<Stmt>)
      requires Valid()
      modifies this`current
      ensures Valid() && Yields(ForDeclarationAt(tokens, old(current)), s, current)
      decreases |tokens| - current, 0
    {
      var open := Consume(LEFT_PAREN);
      if open.None? {
        return None;
      }
      var initializer: Option<Stmt>;
      var m := Match(SEMICOLON);
      if m {
        initializer := None;
      } else {
        m := Match(VAR);
        if m {
          initializer := VarDeclaration();
        } else {
          initializer := ExpressionDeclaration();
        }
        if initializer.None? {
          return None;
        }
      }
      s := ForCondition(initializer);
    }

    /** The condition clause of `forDeclaration`, then the rest. */
    method ForCondition(initializer: Option<Stmt>) returns (s: Option<Stmt>)
      requires Valid()
      modifies this`current
      ensures Valid() && Yields(ForConditionAt(tokens, initializer, old(current)), s, current)
      decreases |tokens| - current, 0
    {
      var condition: Option<Expr> := None;
      if !CheckType(SEMICOLON) {
        condition := Expression();
        if condition.None? {
          return None;
        }
      }
      var semi := Consume(SEMICOLON);
      if semi.None? {
        return None;
      }
      s := ForIncrement(initializer, condition);
    }

    /** The increment clause of `forDeclaration`, then the body and the loop built around it. */
    method ForIncrement(initializer: Option<Stmt>, condition: Option<Expr>) returns (s: Option<Stmt>)
      requires Valid()
      modifies this`current
      ensures Valid() && Yields(ForIncrementAt(tokens, initializer, condition, old(current)), s, current)
      decreases |tokens| - current, 0
    {
      var increment: Option<Expr> := None;
      if !CheckType(RIGHT_PAREN) {
        increment := Expression();
        if increment.None? {
          return None;
        }
      }
      var close := Consume(RIGHT_PAREN);
      if close.None? {
        return None;
      }
      var body := Statement();
      if body.None? {
        return None;
      }
      var loop := body.value;
      if increment.Some? {
        loop := Block([Some(loop), Some(ExpressionStmt(increment.value))]);
      }
      loop := While(if condition.Some? then condition.value else Literal(Bool(true)), loop);
      if initializer.Some? {
        loop := Block([initializer, Some(loop)]);
      }
      return Some(loop);
    }

    /** `function`, after `fun`: a name, '(' the parameters ')' and a block body. */
    method Function() returns (s: Option<Stmt>)
      requires Valid()
      modifies this`current
      ensures Valid() && Yields(FunctionAt(tokens, old(current)), s, current)
      decreases |tokens| - current, 0
    {
      var name := Consume(IDENTIFIER);
      if name.None? {
        return None;
      }
      var open := Consume(LEFT_PAREN);
      if open.None? {
        return None;
      }
      var params: seq<Tok> := [];
      if !CheckType(RIGHT_PAREN) {
        var read;
        read, params := Parameters(name.value);
        if !read {
          return None;
        }
      }
      s := FunctionBody(name.value, params);
    }

    /**
     * The `do ... while (match(COMMA))` loop of `function`: a name after
     * each ',', throwing when more than 255 are already read. `read` is
     * false when it threw.
     */
    method Parameters(name: Tok) returns (read: bool, params: seq<Tok>)
      requires Valid()
      modifies this`current
      ensures Valid() && old(current) <= current && |params| <= MaxParameters
      ensures read ==> var b := FunctionBodyAt(tokens, name, params, current);
        Yields(ParametersLoop(tokens, name, [], old(current)), b.value, b.next)
      ensures !read ==> Yields(ParametersLoop(tokens, name, [], old(current)), None, current)
    {
      params := [];
      while true
        invariant Valid() && old(current) <= current && |params| <= MaxParameters
        invariant var w, o := ParametersLoop(tokens, name, [], old(current)), ParametersLoop(tokens, name, params, current);
          Yields(w, o.value, o.next)
        decreases |tokens| - current
      {
        if |params| > 255 {
          return false, params;
        }
        var p := Consume(IDENTIFIER);
        if p.None? {
          return false, params;
        }
        params := params + [p.value];
        var m := Match(COMMA);
        if !m {
          break;
        }
      }
      read := true;
    }

    /** The rest of `function`: ')', '{' and the body block. */
    method FunctionBody(name: Tok, params: seq<Tok>) returns (s: Option<Stmt>)
      requires Valid()
      modifies this`current
      ensures Valid() && Yields(FunctionBodyAt(tokens, name, params, old(current)), s, current)
      decreases |tokens| - current, 0
    {
      var close := Consume(RIGHT_PAREN);
      if close.None? {
        return None;
      }
      var open := Consume(LEFT_BRACE);
      if open.None? {
        return None;
      }
      var body := BlockDeclaration();
      if body.None? {
        return None;
      }
      return Some(Stmt.Function(name, params, body.value));
    }
  }
}
