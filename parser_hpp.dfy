/**
 * The parser of parser.hpp (struct `parser`), its syntax tree and its flat
 * `Environment`.
 *
 * Every parsing routine is specified by a function from the token list and
 * the cursor to an `Outcome`: the node it returns, or `None` when it
 * throws `ParseError`; the cursor afterwards; and the messages `error`
 * passed to `metal_error` on the way. `ParseError` is never caught (the
 * only `catch` in `declaration` is for `RuntimeError`, which no parsing
 * routine throws), so a thrown error ends `parse`. The class `Parser`
 * keeps the source's `current` field and is proved to follow the
 * functions.
 */
module ParserHpp {
  import opened Wrappers
  import opened Values
  import opened Lexical
  import opened ScannerHpp

  type Tok = Token<Kind>

  // ---------------------------------------------------------------------
  // Syntax tree
  // ---------------------------------------------------------------------

  datatype Expr =
    | Binary(left: Expr, op: Tok, right: Expr)
    | Unary(op: Tok, right: Expr)
    | Grouping(expression: Expr)
    | Literal(value: Value)
    | Variable(name: Tok)
    | Assign(name: Tok, expression: Expr)

  /** Statements; a `Var` without an initializer has a null `expression`. */
  datatype Stmt =
    | Expression(expression: Expr)
    | Print(expression: Expr)
    | Var(name: Tok, initializer: Option<Expr>)

  /** A `metal_error(token, message)` call. */
  datatype Report = Report(token: Tok, message: string)

  /** What a parsing routine leaves: its node (`None` when it throws `ParseError`), the cursor, the reports it made. */
  datatype Outcome<T> = Outcome(value: Option<T>, next: nat, reports: seq<Report>)

  /** An outcome with earlier reports in front of its own. */
  function After<T>(earlier: seq<Report>, o: Outcome<T>): Outcome<T>
  {
    o.(reports := earlier + o.reports)
  }

  /** `o` is the outcome with that node, cursor and reports. */
  predicate Yields<T(==)>(o: Outcome<T>, value: Option<T>, next: nat, reports: seq<Report>)
  {
    o.value == value && o.next == next && o.reports == reports
  }

  // ---------------------------------------------------------------------
  // The token list and the cursor
  // ---------------------------------------------------------------------

  /** A list closed by EOF_TOKEN. */
  predicate Closed(toks: seq<Tok>)
  {
    |toks| > 0 && toks[|toks| - 1].kind == EOF_TOKEN
  }

  /** What `scan_tokens` hands the parser: a list closed by EOF_TOKEN. */
  predicate Tokens(toks: seq<Tok>)
  {
    Closed(toks)
  }

  /**
   * The cursor is on a token. Since `advance` only moves off a token that
   * is not EOF_TOKEN, and the last token is one, it never runs off the list.
   */
  predicate ValidPos(toks: seq<Tok>, pos: nat)
  {
    pos < |toks|
  }

  /** `check(type)`: false at the end, else whether the current token has that type. */
  predicate Check(toks: seq<Tok>, pos: nat, kind: Kind)
    requires pos < |toks|
  {
    toks[pos].kind != EOF_TOKEN && toks[pos].kind == kind
  }

  /** Moving the cursor past a token that is not EOF_TOKEN keeps it valid. */
  lemma {:induction false} StepValid(toks: seq<Tok>, pos: nat)
    requires Tokens(toks) && ValidPos(toks, pos) && toks[pos].kind != EOF_TOKEN
    ensures ValidPos(toks, pos + 1)
  {
  }

  /** The token `advance` leaves the cursor after: it never moves past EOF_TOKEN. */
  function AdvanceFrom(toks: seq<Tok>, pos: nat): (r: nat)
    requires Tokens(toks) && ValidPos(toks, pos)
    ensures ValidPos(toks, r)
  {
    if toks[pos].kind == EOF_TOKEN then pos else StepValid(toks, pos); pos + 1
  }

  /**
   * A thrown `ParseError` comes from `error(peek(), ...)`: the last report
   * names the token the cursor stopped on.
   */
  predicate Thrown<T>(toks: seq<Tok>, o: Outcome<T>)
  {
    o.next < |toks| && |o.reports| > 0 && o.reports[|o.reports| - 1].token == toks[o.next]
  }

  /** `consume(type, message)`: the expected token, or a thrown error at the current one. */
  function ConsumeAt(toks: seq<Tok>, pos: nat, kind: Kind, message: string): (r: Outcome<Tok>)
    requires Tokens(toks) && ValidPos(toks, pos)
    ensures ValidPos(toks, r.next)
    ensures r.value.Some? ==> r.next == pos + 1 && r.value.value == toks[pos] && r.value.value.kind == kind && r.reports == []
    ensures r.value.None? ==> r.next == pos && r.reports == [Report(toks[pos], message)] && (toks[pos].kind != kind || toks[pos].kind == EOF_TOKEN)
  {
    if Check(toks, pos, kind) then StepValid(toks, pos); Outcome(Some(toks[pos]), pos + 1, [])
    else Outcome(None, pos, [Report(toks[pos], message)])
  }

  // ---------------------------------------------------------------------
  // Expressions
  // ---------------------------------------------------------------------

  /** The expression rules, from the loosest to the tightest. */
  datatype Rule = AssignmentRule | EqualityRule | ComparisonRule | TermRule | FactorRule | UnaryRule | PrimaryRule

  /** Termination order: a rule calls tighter rules at the same cursor. */
  function Rank(rule: Rule): nat
  {
    match rule
    case AssignmentRule => 7
    case EqualityRule => 6
    case ComparisonRule => 5
    case TermRule => 4
    case FactorRule => 3
    case UnaryRule => 2
    case PrimaryRule => 1
  }

  predicate IsBinaryRule(rule: Rule)
  {
    rule == EqualityRule || rule == ComparisonRule || rule == TermRule || rule == FactorRule
  }

  /** The rule a binary level parses its operands with. */
  function Operand(rule: Rule): (r: Rule)
    requires IsBinaryRule(rule)
    ensures Rank(r) < Rank(rule)
  {
    match rule
    case EqualityRule => ComparisonRule
    case ComparisonRule => TermRule
    case TermRule => FactorRule
    case FactorRule => UnaryRule
  }

  /** The binding strength of a binary operator: 0 for a token that is none. */
  function Prec(kind: Kind): nat
  {
    match kind
    case NOT_EQUAL => 1
    case EQUAL_EQUAL => 1
    case GREATER_EQUAL => 2
    case GREATER => 2
    case LESS_EQUAL => 2
    case LESS => 2
    case ADD => 3
    case SUB => 3
    case MUL => 4
    case DIV => 4
    case _ => 0
  }

  /** The strength of the operators a rule's loop takes, or the least strength its results have. */
  function Floor(rule: Rule): nat
  {
    match rule
    case AssignmentRule => 0
    case EqualityRule => 1
    case ComparisonRule => 2
    case TermRule => 3
    case FactorRule => 4
    case UnaryRule => 5
    case PrimaryRule => 5
  }

  /** The token types a binary level's `match` calls accept. */
  predicate IsOperatorOf(rule: Rule, kind: Kind)
    requires IsBinaryRule(rule)
  {
    match rule
    case EqualityRule => kind == NOT_EQUAL || kind == EQUAL_EQUAL
    case ComparisonRule => kind == GREATER_EQUAL || kind == GREATER || kind == LESS_EQUAL || kind == LESS
    case TermRule => kind == ADD || kind == SUB
    case FactorRule => kind == MUL || kind == DIV
  }

  /** The operators of a binary level are exactly the tokens of its strength. */
  lemma {:induction false} OperatorsByStrength(rule: Rule, kind: Kind)
    requires IsBinaryRule(rule)
    ensures IsOperatorOf(rule, kind) <==> Prec(kind) == Floor(rule)
  {
  }

  /** How tightly the root of a tree binds: an assignment least, an operand-like node most. */
  function TopPrec(e: Expr): nat
  {
    match e
    case Binary(_, op, _) => Prec(op.kind)
    case Assign(_, _) => 0
    case _ => 5
  }

  /**
   * Precedence and left-associativity: below a binary node, the left
   * operand binds at least as tightly and the right operand strictly more
   * tightly, so `a - b - c` is `(a - b) - c` and `a + b * c` is `a + (b * c)`.
   * A unary operand is never a binary or assignment node.
   */
  predicate Ordered(e: Expr)
  {
    match e
    case Binary(l, op, r) =>
      1 <= Prec(op.kind) <= 4 && TopPrec(l) >= Prec(op.kind) && TopPrec(r) > Prec(op.kind) && Ordered(l) && Ordered(r)
    case Unary(_, r) => TopPrec(r) == 5 && Ordered(r)
    case Grouping(x) => Ordered(x)
    case Assign(_, v) => Ordered(v)
    case _ => true
  }

  /** What every expression routine promises about its outcome. */
  predicate ExprOutcome(toks: seq<Tok>, pos: nat, r: Outcome<Expr>)
  {
    pos <= r.next && ValidPos(toks, r.next) &&
    (r.value.Some? ==> pos < r.next) &&
    (r.value.None? ==> Thrown(toks, r))
  }

  /**
   * `assignment`: an equality, then optionally '=' and a whole assignment.
   * The cursor never moves back nor past the first EOF_TOKEN, a result was
   * read from at least one token, and a thrown error names the token the
   * cursor stopped on; every routine below promises the same.
   */
  function AssignmentAt(toks: seq<Tok>, pos: nat): (r: Outcome<Expr>)
    requires Tokens(toks) && ValidPos(toks, pos)
    ensures ExprOutcome(toks, pos, r)
    decreases |toks| - pos, 7
  {
    var e := EqualityAt(toks, pos);
    if e.value.None? || !Check(toks, e.next, EQUAL) then e
    else
      StepValid(toks, e.next);
      After(e.reports, AssignTo(toks, e.value.value, toks[e.next], e.next + 1))
  }

  /**
   * The rest of `assignment` once `target =` is read: a whole assignment on
   * the right, then an `Assign` for a variable target, or the target itself
   * and a reported (not thrown) error for any other.
   */
  function AssignTo(toks: seq<Tok>, target: Expr, equals: Tok, pos: nat): (r: Outcome<Expr>)
    requires Tokens(toks) && ValidPos(toks, pos)
    ensures ExprOutcome(toks, pos, r)
    decreases |toks| - pos, 8
  {
    var v := AssignmentAt(toks, pos);
    if v.value.None? then v
    else if target.Variable? then Outcome(Some(Assign(target.name, v.value.value)), v.next, v.reports)
    else Outcome(Some(target), v.next, v.reports + [Report(equals, "Invalid Assignment Target.")])
  }

  /** `equality`: comparisons joined by `!=` and `==`, grouped to the left. */
  function EqualityAt(toks: seq<Tok>, pos: nat): (r: Outcome<Expr>)
    requires Tokens(toks) && ValidPos(toks, pos)
    ensures ExprOutcome(toks, pos, r)
    decreases |toks| - pos, 6
  {
    var l := ComparisonAt(toks, pos);
    if l.value.None? then l
    else After(l.reports, EqualityLoop(toks, l.value.value, l.next))
  }

  /** The `while (match(...))` loop of `equality`: each operator makes a node with everything so far on its left. */
  function EqualityLoop(toks: seq<Tok>, left: Expr, pos: nat): (r: Outcome<Expr>)
    requires Tokens(toks) && ValidPos(toks, pos)
    ensures pos <= r.next && ValidPos(toks, r.next)
    ensures r.value.None? ==> Thrown(toks, r)
    decreases |toks| - pos, 0
  {
    if toks[pos].kind != EOF_TOKEN && IsOperatorOf(EqualityRule, toks[pos].kind) then
      StepValid(toks, pos);
      var right := ComparisonAt(toks, pos + 1);
      if right.value.None? then right
      else After(right.reports, EqualityLoop(toks, Binary(left, toks[pos], right.value.value), right.next))
    else Outcome(Some(left), pos, [])
  }

  /** `comparison`: terms joined by `>`, `>=`, `<` and `<=`, grouped to the left. */
  function ComparisonAt(toks: seq<Tok>, pos: nat): (r: Outcome<Expr>)
    requires Tokens(toks) && ValidPos(toks, pos)
    ensures ExprOutcome(toks, pos, r)
    decreases |toks| - pos, 5
  {
    var l := TermAt(toks, pos);
    if l.value.None? then l
    else After(l.reports, ComparisonLoop(toks, l.value.value, l.next))
  }

  /** The `while (match(...))` loop of `comparison`: each operator makes a node with everything so far on its left. */
  function ComparisonLoop(toks: seq<Tok>, left: Expr, pos: nat): (r: Outcome<Expr>)
    requires Tokens(toks) && ValidPos(toks, pos)
    ensures pos <= r.next && ValidPos(toks, r.next)
    ensures r.value.None? ==> Thrown(toks, r)
    decreases |toks| - pos, 0
  {
    if toks[pos].kind != EOF_TOKEN && IsOperatorOf(ComparisonRule, toks[pos].kind) then
      StepValid(toks, pos);
      var right := TermAt(toks, pos + 1);
      if right.value.None? then right
      else After(right.reports, ComparisonLoop(toks, Binary(left, toks[pos], right.value.value), right.next))
    else Outcome(Some(left), pos, [])
  }

  /** `term`: factors joined by `+` and `-`, grouped to the left. */
  function TermAt(toks: seq<Tok>, pos: nat): (r: Outcome<Expr>)
    requires Tokens(toks) && ValidPos(toks, pos)
    ensures ExprOutcome(toks, pos, r)
    decreases |toks| - pos, 4
  {
    var l := FactorAt(toks, pos);
    if l.value.None? then l
    else After(l.reports, TermLoop(toks, l.value.value, l.next))
  }

  /** The `while (match(...))` loop of `term`: each operator makes a node with everything so far on its left. */
  function TermLoop(toks: seq<Tok>, left: Expr, pos: nat): (r: Outcome<Expr>)
    requires Tokens(toks) && ValidPos(toks, pos)
    ensures pos <= r.next && ValidPos(toks, r.next)
    ensures r.value.None? ==> Thrown(toks, r)
    decreases |toks| - pos, 0
  {
    if toks[pos].kind != EOF_TOKEN && IsOperatorOf(TermRule, toks[pos].kind) then
      StepValid(toks, pos);
      var right := FactorAt(toks, pos + 1);
      if right.value.None? then right
      else After(right.reports, TermLoop(toks, Binary(left, toks[pos], right.value.value), right.next))
    else Outcome(Some(left), pos, [])
  }

  /** `factor`: unaries joined by `*` and `/`, grouped to the left. */
  function FactorAt(toks: seq<Tok>, pos: nat): (r: Outcome<Expr>)
    requires Tokens(toks) && ValidPos(toks, pos)
    ensures ExprOutcome(toks, pos, r)
    decreases |toks| - pos, 3
  {
    var l := UnaryAt(toks, pos);
    if l.value.None? then l
    else After(l.reports, FactorLoop(toks, l.value.value, l.next))
  }

  /** The `while (match(...))` loop of `factor`: each operator makes a node with everything so far on its left. */
  function FactorLoop(toks: seq<Tok>, left: Expr, pos: nat): (r: Outcome<Expr>)
    requires Tokens(toks) && ValidPos(toks, pos)
    ensures pos <= r.next && ValidPos(toks, r.next)
    ensures r.value.None? ==> Thrown(toks, r)
    decreases |toks| - pos, 0
  {
    if toks[pos].kind != EOF_TOKEN && IsOperatorOf(FactorRule, toks[pos].kind) then
      StepValid(toks, pos);
      var right := UnaryAt(toks, pos + 1);
      if right.value.None? then right
      else After(right.reports, FactorLoop(toks, Binary(left, toks[pos], right.value.value), right.next))
    else Outcome(Some(left), pos, [])
  }

  /** One turn of `equality`'s loop, read off its definition, with the reports so far in front. */
  lemma {:induction false} EqualityTurn(toks: seq<Tok>, left: Expr, pos: nat, rs: seq<Report>, right: Option<Expr>, more: seq<Report>, next: nat)
    requires Tokens(toks) && ValidPos(toks, pos) && toks[pos].kind != EOF_TOKEN && IsOperatorOf(EqualityRule, toks[pos].kind)
    requires ValidPos(toks, pos + 1) && Yields(ComparisonAt(toks, pos + 1), right, next, more)
    ensures ValidPos(toks, next)
    ensures right.None? ==> Yields(EqualityLoop(toks, left, pos), None, next, more)
    ensures right.Some? ==>
      var o, l := EqualityLoop(toks, left, pos), EqualityLoop(toks, Binary(left, toks[pos], right.value), next);
      o.value == l.value && o.next == l.next && rs + o.reports == (rs + more) + l.reports
  {
    if right.Some? {
      Regroup(rs, more, EqualityLoop(toks, Binary(left, toks[pos], right.value), next).reports);
    }
  }

  /** One turn of `comparison`'s loop, read off its definition, with the reports so far in front. */
  lemma {:induction false} ComparisonTurn(toks: seq<Tok>, left: Expr, pos: nat, rs: seq<Report>, right: Option<Expr>, more: seq<Report>, next: nat)
    requires Tokens(toks) && ValidPos(toks, pos) && toks[pos].kind != EOF_TOKEN && IsOperatorOf(ComparisonRule, toks[pos].kind)
    requires ValidPos(toks, pos + 1) && Yields(TermAt(toks, pos + 1), right, next, more)
    ensures ValidPos(toks, next)
    ensures right.None? ==> Yields(ComparisonLoop(toks, left, pos), None, next, more)
    ensures right.Some? ==>
      var o, l := ComparisonLoop(toks, left, pos), ComparisonLoop(toks, Binary(left, toks[pos], right.value), next);
      o.value == l.value && o.next == l.next && rs + o.reports == (rs + more) + l.reports
  {
    if right.Some? {
      Regroup(rs, more, ComparisonLoop(toks, Binary(left, toks[pos], right.value), next).reports);
    }
  }

  /** One turn of `term`'s loop, read off its definition, with the reports so far in front. */
  lemma {:induction false} TermTurn(toks: seq<Tok>, left: Expr, pos: nat, rs: seq<Report>, right: Option<Expr>, more: seq<Report>, next: nat)
    requires Tokens(toks) && ValidPos(toks, pos) && toks[pos].kind != EOF_TOKEN && IsOperatorOf(TermRule, toks[pos].kind)
    requires ValidPos(toks, pos + 1) && Yields(FactorAt(toks, pos + 1), right, next, more)
    ensures ValidPos(toks, next)
    ensures right.None? ==> Yields(TermLoop(toks, left, pos), None, next, more)
    ensures right.Some? ==>
      var o, l := TermLoop(toks, left, pos), TermLoop(toks, Binary(left, toks[pos], right.value), next);
      o.value == l.value && o.next == l.next && rs + o.reports == (rs + more) + l.reports
  {
    if right.Some? {
      Regroup(rs, more, TermLoop(toks, Binary(left, toks[pos], right.value), next).reports);
    }
  }

  /** One turn of `factor`'s loop, read off its definition, with the reports so far in front. */
  lemma {:induction false} FactorTurn(toks: seq<Tok>, left: Expr, pos: nat, rs: seq<Report>, right: Option<Expr>, more: seq<Report>, next: nat)
    requires Tokens(toks) && ValidPos(toks, pos) && toks[pos].kind != EOF_TOKEN && IsOperatorOf(FactorRule, toks[pos].kind)
    requires ValidPos(toks, pos + 1) && Yields(UnaryAt(toks, pos + 1), right, next, more)
    ensures ValidPos(toks, next)
    ensures right.None? ==> Yields(FactorLoop(toks, left, pos), None, next, more)
    ensures right.Some? ==>
      var o, l := FactorLoop(toks, left, pos), FactorLoop(toks, Binary(left, toks[pos], right.value), next);
      o.value == l.value && o.next == l.next && rs + o.reports == (rs + more) + l.reports
  {
    if right.Some? {
      Regroup(rs, more, FactorLoop(toks, Binary(left, toks[pos], right.value), next).reports);
    }
  }

  /** `unary`: '-' or '!' applied to a unary, or a primary. */
  function UnaryAt(toks: seq<Tok>, pos: nat): (r: Outcome<Expr>)
    requires Tokens(toks) && ValidPos(toks, pos)
    ensures ExprOutcome(toks, pos, r)
    decreases |toks| - pos, 2
  {
    if Check(toks, pos, SUB) || Check(toks, pos, NOT) then
      StepValid(toks, pos);
      NegationAt(toks, toks[pos], pos + 1)
    else PrimaryAt(toks, pos)
  }

  /** The operand of a prefix operator `op`, read from pos, under a `Unary` node. */
  function NegationAt(toks: seq<Tok>, op: Tok, pos: nat): (r: Outcome<Expr>)
    requires Tokens(toks) && ValidPos(toks, pos)
    ensures ExprOutcome(toks, pos, r)
    decreases |toks| - pos, 3
  {
    var r := UnaryAt(toks, pos);
    if r.value.None? then r else r.(value := Some(Unary(op, r.value.value)))
  }

  /**
   * The value a string or number token carries. `scan_tokens` always sets
   * it; an unset one would read as nil.
   */
  function LiteralValue(t: Tok): Value
  {
    if t.literal.Some? then t.literal.value else Nil
  }

  /** The literals `primary` matches first: `false`, `true`, `nil`, and a string or number with its value. */
  function LiteralOf(t: Tok): (r: Option<Expr>)
    ensures r.Some? <==> t.kind in {FALSE, TRUE, NIL, STRING, NUMBER}
    ensures r.Some? ==> r.value.Literal?
  {
    if t.kind == FALSE then Some(Literal(Bool(false)))
    else if t.kind == TRUE then Some(Literal(Bool(true)))
    else if t.kind == NIL then Some(Literal(Nil))
    else if t.kind == STRING || t.kind == NUMBER then Some(Literal(LiteralValue(t)))
    else None
  }

  /** `primary`: a literal, a parenthesized expression or a variable; anything else throws. */
  function PrimaryAt(toks: seq<Tok>, pos: nat): (r: Outcome<Expr>)
    requires Tokens(toks) && ValidPos(toks, pos)
    ensures ExprOutcome(toks, pos, r)
    decreases |toks| - pos, 1
  {
    var t := toks[pos];
    if t.kind == EOF_TOKEN then Outcome(None, pos, [Report(t, "Expected an Expression.")])
    else
      StepValid(toks, pos);
      if LiteralOf(t).Some? then Outcome(LiteralOf(t), pos + 1, [])
      else if t.kind == LEFT_PAREN then GroupAt(toks, pos + 1)
      else if t.kind == IDENTIFIER then Outcome(Some(Variable(t)), pos + 1, [])
      else Outcome(None, pos, [Report(t, "Expected an Expression.")])
  }

  /** The parenthesized case of `primary`, from the token after '(': an expression and a ')'. */
  function GroupAt(toks: seq<Tok>, pos: nat): (r: Outcome<Expr>)
    requires Tokens(toks) && ValidPos(toks, pos)
    ensures ExprOutcome(toks, pos, r)
    ensures r.value.Some? ==> r.value.value.Grouping? && toks[r.next - 1].kind == RIGHT_PAREN
    decreases |toks| - pos, 8
  {
    var e := AssignmentAt(toks, pos);
    if e.value.None? then e
    else if Check(toks, e.next, RIGHT_PAREN) then
      StepValid(toks, e.next);
      Outcome(Some(Grouping(e.value.value)), e.next + 1, e.reports)
    else Outcome(None, e.next, e.reports + [Report(toks[e.next], "Expect ')' after expression.")])
  }

  /** The routine of a rule, for statements about all of them. */
  function ParseRule(rule: Rule, toks: seq<Tok>, pos: nat): (r: Outcome<Expr>)
    requires Tokens(toks) && ValidPos(toks, pos)
    ensures ExprOutcome(toks, pos, r)
  {
    match rule
    case AssignmentRule => AssignmentAt(toks, pos)
    case EqualityRule => EqualityAt(toks, pos)
    case ComparisonRule => ComparisonAt(toks, pos)
    case TermRule => TermAt(toks, pos)
    case FactorRule => FactorAt(toks, pos)
    case UnaryRule => UnaryAt(toks, pos)
    case PrimaryRule => PrimaryAt(toks, pos)
  }

  /** The loop of a binary level, for statements about all four. */
  function LoopOf(rule: Rule, toks: seq<Tok>, left: Expr, pos: nat): (r: Outcome<Expr>)
    requires IsBinaryRule(rule) && Tokens(toks) && ValidPos(toks, pos)
    ensures pos <= r.next && ValidPos(toks, r.next)
  {
    match rule
    case EqualityRule => EqualityLoop(toks, left, pos)
    case ComparisonRule => ComparisonLoop(toks, left, pos)
    case TermRule => TermLoop(toks, left, pos)
    case FactorRule => FactorLoop(toks, left, pos)
  }

  /** A binary level is its operand, then its loop. */
  lemma {:induction false} LevelUnfolds(rule: Rule, toks: seq<Tok>, pos: nat)
    requires IsBinaryRule(rule) && Tokens(toks) && ValidPos(toks, pos)
    ensures var l := ParseRule(Operand(rule), toks, pos);
      ParseRule(rule, toks, pos) == if l.value.None? then l else After(l.reports, LoopOf(rule, toks, l.value.value, l.next))
  {
  }

  /** A binary level's loop: at one of its operators, the operand after it and the loop again. */
  lemma {:induction false} LoopUnfolds(rule: Rule, toks: seq<Tok>, left: Expr, pos: nat)
    requires IsBinaryRule(rule) && Tokens(toks) && ValidPos(toks, pos)
    ensures toks[pos].kind != EOF_TOKEN && IsOperatorOf(rule, toks[pos].kind) ==>
      ValidPos(toks, pos + 1) &&
      var right := ParseRule(Operand(rule), toks, pos + 1);
      LoopOf(rule, toks, left, pos) ==
        if right.value.None? then right
        else After(right.reports, LoopOf(rule, toks, Binary(left, toks[pos], right.value.value), right.next))
    ensures !(toks[pos].kind != EOF_TOKEN && IsOperatorOf(rule, toks[pos].kind)) ==>
      LoopOf(rule, toks, left, pos) == Outcome(Some(left), pos, [])
  {
    if toks[pos].kind != EOF_TOKEN {
      StepValid(toks, pos);
    }
  }

  /**
   * Precedence and left-associativity: whatever a rule returns is
   * `Ordered` and binds at least as tightly as the rule.
   */
  lemma {:induction false} ParsedOrdered(rule: Rule, toks: seq<Tok>, pos: nat)
    requires Tokens(toks) && ValidPos(toks, pos)
    ensures var r := ParseRule(rule, toks, pos);
      r.value.Some? ==> Ordered(r.value.value) && TopPrec(r.value.value) >= Floor(rule)
    decreases |toks| - pos, Rank(rule), 1
  {
    match rule
    case AssignmentRule => AssignmentOrdered(toks, pos);
    case UnaryRule => UnaryOrdered(toks, pos);
    case PrimaryRule => PrimaryOrdered(toks, pos);
    case _ => LevelOrdered(rule, toks, pos);
  }

  lemma {:induction false} AssignmentOrdered(toks: seq<Tok>, pos: nat)
    requires Tokens(toks) && ValidPos(toks, pos)
    ensures var r := AssignmentAt(toks, pos);
      r.value.Some? ==> Ordered(r.value.value)
    decreases |toks| - pos, Rank(AssignmentRule), 0
  {
    var e := EqualityAt(toks, pos);
    ParsedOrdered(EqualityRule, toks, pos);
    if e.value.Some? && Check(toks, e.next, EQUAL) {
      StepValid(toks, e.next);
      ParsedOrdered(AssignmentRule, toks, e.next + 1);
    }
  }

  lemma {:induction false} UnaryOrdered(toks: seq<Tok>, pos: nat)
    requires Tokens(toks) && ValidPos(toks, pos)
    ensures var r := UnaryAt(toks, pos);
      r.value.Some? ==> Ordered(r.value.value) && TopPrec(r.value.value) == 5
    decreases |toks| - pos, Rank(UnaryRule), 0
  {
    if Check(toks, pos, SUB) || Check(toks, pos, NOT) {
      StepValid(toks, pos);
      ParsedOrdered(UnaryRule, toks, pos + 1);
    } else {
      ParsedOrdered(PrimaryRule, toks, pos);
    }
  }

  lemma {:induction false} PrimaryOrdered(toks: seq<Tok>, pos: nat)
    requires Tokens(toks) && ValidPos(toks, pos)
    ensures var r := PrimaryAt(toks, pos);
      r.value.Some? ==> Ordered(r.value.value) && TopPrec(r.value.value) == 5
    decreases |toks| - pos, Rank(PrimaryRule), 0
  {
    if toks[pos].kind == LEFT_PAREN {
      StepValid(toks, pos);
      var g := GroupAt(toks, pos + 1);
      ParsedOrdered(AssignmentRule, toks, pos + 1);
    }
  }

  lemma {:induction false} LevelOrdered(rule: Rule, toks: seq<Tok>, pos: nat)
    requires IsBinaryRule(rule) && Tokens(toks) && ValidPos(toks, pos)
    ensures var r := ParseRule(rule, toks, pos);
      r.value.Some? ==> Ordered(r.value.value) && TopPrec(r.value.value) >= Floor(rule)
    decreases |toks| - pos, Rank(rule), 0
  {
    var l := ParseRule(Operand(rule), toks, pos);
    ParsedOrdered(Operand(rule), toks, pos);
    LevelUnfolds(rule, toks, pos);
    if l.value.Some? {
      LoopOrdered(rule, toks, l.value.value, l.next);
    }
  }

  /** The loop of a binary level keeps its tree `Ordered`: each new node has the old tree on its left. */
  lemma {:induction false} LoopOrdered(rule: Rule, toks: seq<Tok>, left: Expr, pos: nat)
    requires IsBinaryRule(rule) && Tokens(toks) && ValidPos(toks, pos)
    requires Ordered(left) && TopPrec(left) >= Floor(rule)
    ensures var r := LoopOf(rule, toks, left, pos);
      r.value.Some? ==> Ordered(r.value.value) && TopPrec(r.value.value) >= Floor(rule)
    decreases |toks| - pos, 0
  {
    LoopUnfolds(rule, toks, left, pos);
    if toks[pos].kind != EOF_TOKEN && IsOperatorOf(rule, toks[pos].kind) {
      var right := ParseRule(Operand(rule), toks, pos + 1);
      ParsedOrdered(Operand(rule), toks, pos + 1);
      if right.value.Some? {
        OperatorsByStrength(rule, toks[pos].kind);
        LoopOrdered(rule, toks, Binary(left, toks[pos], right.value.value), right.next);
      }
    }
  }

  lemma Regroup(a: seq<Report>, b: seq<Report>, c: seq<Report>)
    ensures a + (b + c) == (a + b) + c
  {
  }

  // ---------------------------------------------------------------------
  // Statements
  // ---------------------------------------------------------------------

  /** A thrown error passed on unchanged, as an outcome of another type. */
  function Rethrow<T, U>(o: Outcome<T>): (r: Outcome<U>)
    requires o.value.None?
    ensures r.value.None? && r.next == o.next && r.reports == o.reports
  {
    Outcome(None, o.next, o.reports)
  }

  /** The `consume(SEMICOLON, message)` that ends a statement; `s` is the statement it completes. */
  function EndAt(toks: seq<Tok>, pos: nat, s: Stmt, message: string): (r: Outcome<Stmt>)
    requires Tokens(toks) && ValidPos(toks, pos)
    ensures ValidPos(toks, r.next)
    ensures r.value.Some? ==> r.value == Some(s) && r.next == pos + 1 && toks[pos].kind == SEMICOLON && r.reports == []
    ensures r.value.None? ==> r.next == pos && r.reports == [Report(toks[pos], message)] && Thrown(toks, r)
  {
    var semi := ConsumeAt(toks, pos, SEMICOLON, message);
    Outcome(if semi.value.Some? then Some(s) else None, semi.next, semi.reports)
  }

  /** What every statement routine promises: a statement ends right after a ';'. */
  predicate StmtOutcome(toks: seq<Tok>, pos: nat, r: Outcome<Stmt>)
  {
    pos <= r.next && ValidPos(toks, r.next) &&
    (r.value.Some? ==> pos < r.next && toks[r.next - 1].kind == SEMICOLON) &&
    (r.value.None? ==> Thrown(toks, r))
  }

  /** `varDeclaration`, from the token after `var`: a name, optionally '=' and an initializer, then ';'. */
  function VarDeclarationAt(toks: seq<Tok>, pos: nat): (r: Outcome<Stmt>)
    requires Tokens(toks) && ValidPos(toks, pos)
    ensures StmtOutcome(toks, pos, r)
    ensures r.value.Some? ==> r.value.value.Var? && r.value.value.name == toks[pos] && toks[pos].kind == IDENTIFIER
  {
    var name := ConsumeAt(toks, pos, IDENTIFIER, "Expected variable name.");
    if name.value.None? then Rethrow(name)
    else VarInitializerAt(toks, name.value.value, name.next)
  }

  /** The rest of `varDeclaration` once the name is read: optionally '=' and an initializer, then ';'. */
  function VarInitializerAt(toks: seq<Tok>, name: Tok, pos: nat): (r: Outcome<Stmt>)
    requires Tokens(toks) && ValidPos(toks, pos)
    ensures StmtOutcome(toks, pos, r)
    ensures r.value.Some? ==> r.value.value.Var? && r.value.value.name == name
  {
    if Check(toks, pos, EQUAL) then
      StepValid(toks, pos);
      var init := AssignmentAt(toks, pos + 1);
      if init.value.None? then Rethrow(init)
      else
        var end := EndAt(toks, init.next, Var(name, init.value), "Expected a ';' after end of variable statement.");
        ThrownAfter(toks, init.reports, end);
        After(init.reports, end)
    else EndAt(toks, pos, Var(name, None), "Expected a ';' after end of variable statement.")
  }

  /** `printStatement`, from the token after `print`: an expression, then ';'. */
  function PrintStatementAt(toks: seq<Tok>, pos: nat): (r: Outcome<Stmt>)
    requires Tokens(toks) && ValidPos(toks, pos)
    ensures StmtOutcome(toks, pos, r)
    ensures r.value.Some? ==> r.value.value.Print?
  {
    var e := AssignmentAt(toks, pos);
    if e.value.None? then Rethrow(e)
    else
      var end := EndAt(toks, e.next, Print(e.value.value), "Expected a semicolon after print statement.");
      ThrownAfter(toks, e.reports, end);
      After(e.reports, end)
  }

  /** `expressionStatement`: an expression, then ';'. */
  function ExpressionStatementAt(toks: seq<Tok>, pos: nat): (r: Outcome<Stmt>)
    requires Tokens(toks) && ValidPos(toks, pos)
    ensures StmtOutcome(toks, pos, r)
    ensures r.value.Some? ==> r.value.value.Expression?
  {
    var e := AssignmentAt(toks, pos);
    if e.value.None? then Rethrow(e)
    else
      var end := EndAt(toks, e.next, Expression(e.value.value), "Expected a semicolon after expression statement.");
      ThrownAfter(toks, e.reports, end);
      After(e.reports, end)
  }

  /** `statement`: a `print` statement or an expression statement. */
  function StatementAt(toks: seq<Tok>, pos: nat): (r: Outcome<Stmt>)
    requires Tokens(toks) && ValidPos(toks, pos)
    ensures StmtOutcome(toks, pos, r)
    ensures r.value.Some? ==> !r.value.value.Var?
  {
    if Check(toks, pos, PRINT) then StepValid(toks, pos); PrintStatementAt(toks, pos + 1)
    else ExpressionStatementAt(toks, pos)
  }

  /**
   * `declaration`: a `var` declaration or a statement. Its handler catches
   * `RuntimeError`, which no parsing routine throws, so a `ParseError`
   * passes through it and `synchronize` is never reached from here.
   */
  function DeclarationAt(toks: seq<Tok>, pos: nat): (r: Outcome<Stmt>)
    requires Tokens(toks) && ValidPos(toks, pos)
    ensures StmtOutcome(toks, pos, r)
  {
    if Check(toks, pos, VAR) then StepValid(toks, pos); VarDeclarationAt(toks, pos + 1)
    else StatementAt(toks, pos)
  }

  /** Statements in front of a run's result; a thrown error stays one. */
  function Glue(stmts: seq<Stmt>, earlier: seq<Report>, o: Outcome<seq<Stmt>>): Outcome<seq<Stmt>>
  {
    Outcome(if o.value.Some? then Some(stmts + o.value.value) else None, o.next, earlier + o.reports)
  }

  /**
   * The `parse` loop from cursor `pos`: declarations until EOF_TOKEN. The
   * first `ParseError` ends it where it was thrown, unsynchronized.
   */
  function ParseFrom(toks: seq<Tok>, pos: nat): (r: Outcome<seq<Stmt>>)
    requires Tokens(toks) && ValidPos(toks, pos)
    ensures pos <= r.next && ValidPos(toks, r.next)
    decreases |toks| - pos
  {
    if toks[pos].kind == EOF_TOKEN then Outcome(Some([]), pos, [])
    else
      var d := DeclarationAt(toks, pos);
      if d.value.None? then Rethrow(d)
      else Glue([d.value.value], d.reports, ParseFrom(toks, d.next))
  }

  /**
   * A run ends at EOF_TOKEN with its statements, or where a `ParseError`
   * was thrown, with that error's report last.
   */
  lemma {:induction false} ParseEnds(toks: seq<Tok>, pos: nat)
    requires Tokens(toks) && ValidPos(toks, pos)
    ensures var r := ParseFrom(toks, pos);
      (r.value.Some? ==> toks[r.next].kind == EOF_TOKEN) && (r.value.None? ==> Thrown(toks, r))
    decreases |toks| - pos
  {
    if toks[pos].kind != EOF_TOKEN {
      var d := DeclarationAt(toks, pos);
      if d.value.Some? {
        ParseEnds(toks, d.next);
        var rest := ParseFrom(toks, d.next);
        if rest.value.None? {
          ThrownGlued(toks, [d.value.value], d.reports, rest);
        }
      }
    }
  }

  /** Earlier reports in front of a thrown error keep its report last. */
  lemma ThrownAfter<T>(toks: seq<Tok>, earlier: seq<Report>, o: Outcome<T>)
    ensures Thrown(toks, o) ==> Thrown(toks, After(earlier, o))
  {
    if Thrown(toks, o) {
      var all := earlier + o.reports;
      assert all[|all| - 1] == o.reports[|o.reports| - 1];
    }
  }

  /** The same for the statements of a run. */
  lemma ThrownGlued(toks: seq<Tok>, stmts: seq<Stmt>, earlier: seq<Report>, o: Outcome<seq<Stmt>>)
    requires Thrown(toks, o)
    ensures Thrown(toks, Glue(stmts, earlier, o))
  {
    var all := earlier + o.reports;
    assert all[|all| - 1] == o.reports[|o.reports| - 1];
  }

  /** Two runs glued in turn are one run glued once. */
  lemma GlueTwice(s1: seq<Stmt>, r1: seq<Report>, s2: seq<Stmt>, r2: seq<Report>, o: Outcome<seq<Stmt>>)
    ensures Glue(s1, r1, Glue(s2, r2, o)) == Glue(s1 + s2, r1 + r2, o)
  {
    assert r1 + (r2 + o.reports) == (r1 + r2) + o.reports;
    if o.value.Some? {
      assert s1 + (s2 + o.value.value) == (s1 + s2) + o.value.value;
    }
  }

  /** The keywords `synchronize` stops in front of. */
  predicate StatementStart(kind: Kind)
  {
    kind == FUN || kind == VAR || kind == FOR || kind == IF || kind == WHILE || kind == PRINT || kind == RETURN
  }

  /** Where `synchronize` may stop: at the end, after ';', or before a statement keyword. */
  predicate Boundary(toks: seq<Tok>, p: nat)
    requires 0 < p < |toks|
  {
    toks[p].kind == EOF_TOKEN || toks[p - 1].kind == SEMICOLON || StatementStart(toks[p].kind)
  }

  /** The loop of `synchronize`: the first boundary at or after p. */
  function SyncFrom(toks: seq<Tok>, p: nat): (r: nat)
    requires Tokens(toks) && ValidPos(toks, p) && p > 0
    ensures p <= r && ValidPos(toks, r) && Boundary(toks, r)
    ensures forall q :: p <= q < r ==> !Boundary(toks, q)
    decreases |toks| - p
  {
    if Boundary(toks, p) then p else StepValid(toks, p); SyncFrom(toks, p + 1)
  }

  /**
   * `synchronize`: skip one token, then stop at the first boundary. It reads
   * the token before the cursor, so it needs the cursor off the first
   * token or not at the end.
   */
  function SynchronizeFrom(toks: seq<Tok>, pos: nat): (r: nat)
    requires Tokens(toks) && ValidPos(toks, pos) && (pos > 0 || toks[pos].kind != EOF_TOKEN)
    ensures ValidPos(toks, r) && pos <= r && 0 < r && Boundary(toks, r)
    ensures toks[pos].kind != EOF_TOKEN ==> pos < r
    ensures forall q :: AdvanceFrom(toks, pos) <= q < r ==> !Boundary(toks, q)
  {
    SyncFrom(toks, AdvanceFrom(toks, pos))
  }

  // ---------------------------------------------------------------------
  // Properties of the grammar
  // ---------------------------------------------------------------------

  /**
   * Assignment is right-associative, and only a variable is a target: the
   * right-hand side is a whole `assignment`; with any other left-hand side
   * the error is reported, not thrown, and the left-hand side is returned
   * with the right-hand side dropped.
   */
  lemma {:induction false} AssignmentShape(toks: seq<Tok>, pos: nat)
    requires Tokens(toks) && ValidPos(toks, pos)
    ensures var e := EqualityAt(toks, pos);
      e.value.Some? && Check(toks, e.next, EQUAL) ==>
        var v := AssignmentAt(toks, e.next + 1);
        var r := AssignmentAt(toks, pos);
        v.value.Some? ==>
          r.next == v.next &&
          (e.value.value.Variable? ==> r.value == Some(Assign(e.value.value.name, v.value.value))) &&
          (!e.value.value.Variable? ==>
            r.value == e.value && r.reports == e.reports + v.reports + [Report(toks[e.next], "Invalid Assignment Target.")])
  {
  }

  /** Without '=' after it, an equality is the whole assignment. */
  lemma {:induction false} NoAssignment(toks: seq<Tok>, pos: nat)
    requires Tokens(toks) && ValidPos(toks, pos)
    ensures var e := EqualityAt(toks, pos);
      e.value.None? || !Check(toks, e.next, EQUAL) ==> AssignmentAt(toks, pos) == e
  {
  }

  /** A parse error escapes `parse`: the run fails as soon as one declaration fails, where it failed. */
  lemma {:induction false} ParseErrorEscapes(toks: seq<Tok>, pos: nat)
    requires Tokens(toks) && ValidPos(toks, pos) && toks[pos].kind != EOF_TOKEN
    ensures var d := DeclarationAt(toks, pos);
      d.value.None? ==> ParseFrom(toks, pos) == Outcome(None, d.next, d.reports)
  {
  }

  // ---------------------------------------------------------------------
  // The flat environment
  // ---------------------------------------------------------------------

  /** A `RuntimeError(token, message)`. */
  datatype RuntimeError = RuntimeError(token: Tok, message: string)

  /** `get`: the bound value, or an error naming the token. */
  function Lookup(values: map<string, Value>, token: Tok): (r: Result<Value, RuntimeError>)
    ensures r.Success? <==> token.lexeme in values
  {
    if token.lexeme in values then Success(values[token.lexeme])
    else Failure(RuntimeError(token, "Undefined Variable"))
  }

  /** `assign`: the map with an existing binding replaced, or an error; it never adds a name. */
  function Reassigned(values: map<string, Value>, token: Tok, value: Value): (r: Result<map<string, Value>, RuntimeError>)
    ensures r.Success? <==> token.lexeme in values
    ensures r.Success? ==> r.value.Keys == values.Keys
  {
    if token.lexeme in values then Success(values[token.lexeme := value])
    else Failure(RuntimeError(token, "Undefined variable '" + token.lexeme + "'."))
  }

  /** What is defined is what `get` returns, and other names keep their values. */
  lemma {:induction false} LookupAfterDefine(values: map<string, Value>, name: string, value: Value, token: Tok)
    ensures Lookup(values[name := value], token) ==
      if token.lexeme == name then Success(value) else Lookup(values, token)
  {
  }

  /** A successful `assign` is seen by `get`, and leaves other names alone. */
  lemma {:induction false} LookupAfterAssign(values: map<string, Value>, target: Tok, value: Value, token: Tok)
    requires Reassigned(values, target, value).Success?
    ensures Lookup(Reassigned(values, target, value).value, token) ==
      if token.lexeme == target.lexeme then Success(value) else Lookup(values, token)
  {
  }

  class Environment {
    var values: map<string, Value>

    constructor ()
      ensures values == map[]
    {
      values := map[];
    }

    /** `define`: insert or overwrite, unconditionally. */
    method Define(name: string, value: Value)
      modifies this
      ensures values == old(values)[name := value]
    {
      values := values[name := value];
    }

    /** `get`: it changes nothing. */
    method Get(token: Tok) returns (r: Result<Value, RuntimeError>)
      ensures r == Lookup(values, token)
    {
      if token.lexeme in values {
        return Success(values[token.lexeme]);
      }
      return Failure(RuntimeError(token, "Undefined Variable"));
    }

    /** `assign`: overwrite an existing binding, or throw and change nothing. */
    method Assign(token: Tok, value: Value) returns (r: Result<(), RuntimeError>)
      modifies this
      ensures var a := Reassigned(old(values), token, value);
        (a.Success? ==> r.Success? && values == a.value) &&
        (a.Failure? ==> r == Failure(a.error) && values == old(values))
    {
      if token.lexeme in values {
        values := values[token.lexeme := value];
        return Success(());
      }
      return Failure(RuntimeError(token, "Undefined variable '" + token.lexeme + "'."));
    }
  }

  // ---------------------------------------------------------------------
  // The parser object
  // ---------------------------------------------------------------------

  /**
   * The parser of parser.hpp over a token list. `metal_error` is a free
   * function outside the parser; what the routines pass to it (through
   * `error`) is returned next to their result, in the order it is printed.
   */
  class Parser {
    const tokens: seq<Tok>
    var current: nat

    ghost predicate Valid()
      reads this
    {
      Tokens(tokens) && ValidPos(tokens, current)
    }

    constructor (tokens: seq<Tok>)
      requires Tokens(tokens)
      ensures Valid() && this.tokens == tokens && current == 0
    {
      this.tokens := tokens;
      current := 0;
    }

    function Peek(): Tok
      reads this
      requires Valid()
    {
      tokens[current]
    }

    predicate IsAtEnd()
      reads this
      requires Valid()
    {
      Peek().kind == EOF_TOKEN
    }

    function Previous(): Tok
      reads this
      requires Valid() && current > 0
    {
      tokens[current - 1]
    }

    predicate CheckType(kind: Kind)
      reads this
      requires Valid()
    {
      Check(tokens, current, kind)
    }

    method Advance() returns (t: Tok)
      requires Valid() && (current > 0 || !IsAtEnd())
      modifies this`current
      ensures Valid() && current == AdvanceFrom(tokens, old(current)) && current > 0 && t == tokens[current - 1]
    {
      if !IsAtEnd() {
        current := current + 1;
      }
      t := Previous();
    }

    method Match(kind: Kind) returns (matched: bool)
      requires Valid()
      modifies this`current
      ensures Valid() && matched == Check(tokens, old(current), kind)
      ensures current == if matched then old(current) + 1 else old(current)
    {
      if CheckType(kind) {
        var _ := Advance();
        return true;
      }
      return false;
    }

    method Consume(kind: Kind, message: string) returns (t: Option<Tok>, rs: seq<Report>)
      requires Valid()
      modifies this`current
      ensures Valid() && Yields(ConsumeAt(tokens, old(current), kind, message), t, current, rs)
    {
      if CheckType(kind) {
        var a := Advance();
        return Some(a), [];
      }
      return None, [Report(Peek(), message)];
    }

    /** `match(A) || match(B) ...` over the operators of a binary level. */
    method MatchOperator(rule: Rule) returns (matched: bool)
      requires Valid() && IsBinaryRule(rule)
      modifies this`current
      ensures Valid() && matched == (!old(IsAtEnd()) && IsOperatorOf(rule, old(Peek()).kind))
      ensures current == if matched then old(current) + 1 else old(current)
    {
      match rule
      case EqualityRule =>
        matched := Match(NOT_EQUAL);
        if !matched { matched := Match(EQUAL_EQUAL); }
      case ComparisonRule =>
        matched := Match(GREATER_EQUAL);
        if !matched { matched := Match(GREATER); }
        if !matched { matched := Match(LESS_EQUAL); }
        if !matched { matched := Match(LESS); }
      case TermRule =>
        matched := Match(ADD);
        if !matched { matched := Match(SUB); }
      case FactorRule =>
        matched := Match(MUL);
        if !matched { matched := Match(DIV); }
    }

    /**
     * `parse`: declarations until EOF_TOKEN. Nothing catches a `ParseError`
     * on the way, so the first one ends the run without a result.
     */
    method Parse() returns (statements: Option<seq<Stmt>>, rs: seq<Report>)
      requires Valid()
      modifies this`current
      ensures Valid() && Yields(ParseFrom(tokens, old(current)), statements, current, rs)
    {
      var stmts: seq<Stmt> := [];
      rs := [];
      ghost var whole := ParseFrom(tokens, current);
      assert [] + whole.reports == whole.reports;
      if whole.value.Some? {
        assert [] + whole.value.value == whole.value.value;
      }
      while !IsAtEnd()
        invariant Valid()
        invariant var g := Glue(stmts, rs, ParseFrom(tokens, current));
          Yields(ParseFrom(tokens, old(current)), g.value, g.next, g.reports)
        decreases |tokens| - current
      {
        ghost var c0 := current;
        var d, more_rs := Declaration();
        if d.None? {
          return None, rs + more_rs;
        }
        GlueTwice(stmts, rs, [d.value], more_rs, ParseFrom(tokens, current));
        stmts, rs := stmts + [d.value], rs + more_rs;
      }
      assert stmts + [] == stmts && rs + [] == rs;
      return Some(stmts), rs;
    }

    /** `declaration`: `var` and a variable declaration, or a statement. */
    method Declaration() returns (s: Option<Stmt>, rs: seq<Report>)
      requires Valid()
      modifies this`current
      ensures Valid() && Yields(DeclarationAt(tokens, old(current)), s, current, rs)
    {
      var m := Match(VAR);
      if m {
        s, rs := VarDeclaration();
        return;
      }
      s, rs := Statement();
    }

    /** `varDeclaration`: a name, optionally '=' and an initializer, then ';'. */
    method VarDeclaration() returns (s: Option<Stmt>, rs: seq<Report>)
      requires Valid()
      modifies this`current
      ensures Valid() && Yields(VarDeclarationAt(tokens, old(current)), s, current, rs)
    {
      var name;
      name, rs := Consume(IDENTIFIER, "Expected variable name.");
      if name.None? {
        return None, rs;
      }
      s, rs := VarInitializer(name.value);
    }

    /** The rest of `varDeclaration`, after the name. */
    method VarInitializer(name: Tok) returns (s: Option<Stmt>, rs: seq<Report>)
      requires Valid()
      modifies this`current
      ensures Valid() && Yields(VarInitializerAt(tokens, name, old(current)), s, current, rs)
    {
      var initializer: Option<Expr> := None;
      rs := [];
      var m := Match(EQUAL);
      if m {
        initializer, rs := Expression();
        if initializer.None? {
          return None, rs;
        }
      }
      var semi, semi_rs := Consume(SEMICOLON, "Expected a ';' after end of variable statement.");
      rs := rs + semi_rs;
      if semi.None? {
        return None, rs;
      }
      return Some(Var(name, initializer)), rs;
    }

    /** `statement`: a `print` statement or an expression statement. */
    method Statement() returns (s: Option<Stmt>, rs: seq<Report>)
      requires Valid()
      modifies this`current
      ensures Valid() && Yields(StatementAt(tokens, old(current)), s, current, rs)
    {
      var m := Match(PRINT);
      if m {
        s, rs := PrintStatement();
        return;
      }
      s, rs := ExpressionStatement();
    }

    /** `printStatement`: an expression, then ';'. */
    method PrintStatement() returns (s: Option<Stmt>, rs: seq<Report>)
      requires Valid()
      modifies this`current
      ensures Valid() && Yields(PrintStatementAt(tokens, old(current)), s, current, rs)
    {
      var e;
      e, rs := Expression();
      if e.None? {
        return None, rs;
      }
      var semi, semi_rs := Consume(SEMICOLON, "Expected a semicolon after print statement.");
      rs := rs + semi_rs;
      if semi.None? {
        return None, rs;
      }
      return Some(Print(e.value)), rs;
    }

    /** `expressionStatement`: an expression, then ';'. */
    method ExpressionStatement() returns (s: Option<Stmt>, rs: seq<Report>)
      requires Valid()
      modifies this`current
      ensures Valid() && Yields(ExpressionStatementAt(tokens, old(current)), s, current, rs)
    {
      var e;
      e, rs := Expression();
      if e.None? {
        return None, rs;
      }
      var semi, semi_rs := Consume(SEMICOLON, "Expected a semicolon after expression statement.");
      rs := rs + semi_rs;
      if semi.None? {
        return None, rs;
      }
      return Some(Stmt.Expression(e.value)), rs;
    }

    /**
     * `synchronize`: skip a token, then skip on until just after a ';',
     * in front of a statement keyword, or at EOF_TOKEN.
     */
    method Synchronize()
      requires Valid() && (current > 0 || !IsAtEnd())
      modifies this`current
      ensures Valid() && current == SynchronizeFrom(tokens, old(current))
    {
      var _ := Advance();
      while !IsAtEnd()
        invariant Valid() && current > 0
        invariant SynchronizeFrom(tokens, old(current)) == SyncFrom(tokens, current)
        decreases |tokens| - current
      {
        if Previous().kind == SEMICOLON {
          return;
        }
        if StatementStart(Peek().kind) {
          return;
        }
        var _ := Advance();
      }
    }

    /** `expression`: an assignment. */
    method Expression() returns (e: Option<Expr>, rs: seq<Report>)
      requires Valid()
      modifies this`current
      ensures Valid() && Yields(AssignmentAt(tokens, old(current)), e, current, rs)
      decreases |tokens| - current, 8
    {
      e, rs := Assignment();
    }

    /** `assignment`: an equality, then optionally '=' and a whole assignment. */
    method Assignment() returns (e: Option<Expr>, rs: seq<Report>)
      requires Valid()
      modifies this`current
      ensures Valid() && Yields(AssignmentAt(tokens, old(current)), e, current, rs)
      decreases |tokens| - current, 7
    {
      e, rs := Equality();
      ghost var at := current;
      var m := e.Some?;
      if m {
        m := Match(EQUAL);
      }
      if !m {
        return;
      }
      var token := Previous();
      assert token == tokens[at];
      var value, more_rs := Assignment();
      if value.None? {
        return None, rs + more_rs;
      }
      if e.value.Variable? {
        return Some(Expr.Assign(e.value.name, value.value)), rs + more_rs;
      }
      rs := rs + (more_rs + [Report(token, "Invalid Assignment Target.")]);
    }

    /** `equality`: comparisons joined by `!=` and `==`, grouped to the left. */
    method Equality() returns (e: Option<Expr>, rs: seq<Report>)
      requires Valid()
      modifies this`current
      ensures Valid() && Yields(EqualityAt(tokens, old(current)), e, current, rs)
      decreases |tokens| - current, 6
    {
      e, rs := Comparison();
      if e.None? {
        return;
      }
      var more_rs;
      e, more_rs := EqualityTail(e.value);
      rs := rs + more_rs;
    }

    /** The `while` loop of `equality`, from its first operand. */
    method EqualityTail(first: Expr) returns (e: Option<Expr>, rs: seq<Report>)
      requires Valid()
      modifies this`current
      ensures Valid() && Yields(EqualityLoop(tokens, first, old(current)), e, current, rs)
      decreases |tokens| - current, 6
    {
      var left := first;
      rs := [];
      while true
        invariant Valid()
        invariant var w, o := EqualityLoop(tokens, first, old(current)), EqualityLoop(tokens, left, current);
          Yields(w, o.value, o.next, rs + o.reports)
        decreases |tokens| - current
      {
        ghost var c0 := current;
        var more := MatchOperator(EqualityRule);
        if !more {
          assert rs + [] == rs;
          break;
        }
        var op := Previous();
        assert op == tokens[c0];
        var right, more_rs := Comparison();
        EqualityTurn(tokens, left, c0, rs, right, more_rs, current);
        if right.None? {
          return None, rs + more_rs;
        }
        left := Binary(left, op, right.value);
        rs := rs + more_rs;
      }
      e := Some(left);
    }

    /** `comparison`: terms joined by `>`, `>=`, `<` and `<=`, grouped to the left. */
    method Comparison() returns (e: Option<Expr>, rs: seq<Report>)
      requires Valid()
      modifies this`current
      ensures Valid() && Yields(ComparisonAt(tokens, old(current)), e, current, rs)
      decreases |tokens| - current, 5
    {
      e, rs := Term();
      if e.None? {
        return;
      }
      var more_rs;
      e, more_rs := ComparisonTail(e.value);
      rs := rs + more_rs;
    }

    /** The `while` loop of `comparison`, from its first operand. */
    method ComparisonTail(first: Expr) returns (e: Option<Expr>, rs: seq<Report>)
      requires Valid()
      modifies this`current
      ensures Valid() && Yields(ComparisonLoop(tokens, first, old(current)), e, current, rs)
      decreases |tokens| - current, 5
    {
      var left := first;
      rs := [];
      while true
        invariant Valid()
        invariant var w, o := ComparisonLoop(tokens, first, old(current)), ComparisonLoop(tokens, left, current);
          Yields(w, o.value, o.next, rs + o.reports)
        decreases |tokens| - current
      {
        ghost var c0 := current;
        var more := MatchOperator(ComparisonRule);
        if !more {
          assert rs + [] == rs;
          break;
        }
        var op := Previous();
        assert op == tokens[c0];
        var right, more_rs := Term();
        ComparisonTurn(tokens, left, c0, rs, right, more_rs, current);
        if right.None? {
          return None, rs + more_rs;
        }
        left := Binary(left, op, right.value);
        rs := rs + more_rs;
      }
      e := Some(left);
    }

    /** `term`: factors joined by `+` and `-`, grouped to the left. */
    method Term() returns (e: Option<Expr>, rs: seq<Report>)
      requires Valid()
      modifies this`current
      ensures Valid() && Yields(TermAt(tokens, old(current)), e, current, rs)
      decreases |tokens| - current, 4
    {
      e, rs := Factor();
      if e.None? {
        return;
      }
      var more_rs;
      e, more_rs := TermTail(e.value);
      rs := rs + more_rs;
    }

    /** The `while` loop of `term`, from its first operand. */
    method TermTail(first: Expr) returns (e: Option<Expr>, rs: seq<Report>)
      requires Valid()
      modifies this`current
      ensures Valid() && Yields(TermLoop(tokens, first, old(current)), e, current, rs)
      decreases |tokens| - current, 4
    {
      var left := first;
      rs := [];
      while true
        invariant Valid()
        invariant var w, o := TermLoop(tokens, first, old(current)), TermLoop(tokens, left, current);
          Yields(w, o.value, o.next, rs + o.reports)
        decreases |tokens| - current
      {
        ghost var c0 := current;
        var more := MatchOperator(TermRule);
        if !more {
          assert rs + [] == rs;
          break;
        }
        var op := Previous();
        assert op == tokens[c0];
        var right, more_rs := Factor();
        TermTurn(tokens, left, c0, rs, right, more_rs, current);
        if right.None? {
          return None, rs + more_rs;
        }
        left := Binary(left, op, right.value);
        rs := rs + more_rs;
      }
      e := Some(left);
    }

    /** `factor`: unaries joined by `*` and `/`, grouped to the left. */
    method Factor() returns (e: Option<Expr>, rs: seq<Report>)
      requires Valid()
      modifies this`current
      ensures Valid() && Yields(FactorAt(tokens, old(current)), e, current, rs)
      decreases |tokens| - current, 3
    {
      e, rs := Unary();
      if e.None? {
        return;
      }
      var more_rs;
      e, more_rs := FactorTail(e.value);
      rs := rs + more_rs;
    }

    /** The `while` loop of `factor`, from its first operand. */
    method FactorTail(first: Expr) returns (e: Option<Expr>, rs: seq<Report>)
      requires Valid()
      modifies this`current
      ensures Valid() && Yields(FactorLoop(tokens, first, old(current)), e, current, rs)
      decreases |tokens| - current, 3
    {
      var left := first;
      rs := [];
      while true
        invariant Valid()
        invariant var w, o := FactorLoop(tokens, first, old(current)), FactorLoop(tokens, left, current);
          Yields(w, o.value, o.next, rs + o.reports)
        decreases |tokens| - current
      {
        ghost var c0 := current;
        var more := MatchOperator(FactorRule);
        if !more {
          assert rs + [] == rs;
          break;
        }
        var op := Previous();
        assert op == tokens[c0];
        var right, more_rs := Unary();
        FactorTurn(tokens, left, c0, rs, right, more_rs, current);
        if right.None? {
          return None, rs + more_rs;
        }
        left := Binary(left, op, right.value);
        rs := rs + more_rs;
      }
      e := Some(left);
    }

    /** `unary`: '-' or '!' applied to a unary, or a primary. */
    method Unary() returns (e: Option<Expr>, rs: seq<Report>)
      requires Valid()
      modifies this`current
      ensures Valid() && Yields(UnaryAt(tokens, old(current)), e, current, rs)
      decreases |tokens| - current, 2
    {
      var m := Match(SUB);
      if !m {
        m := Match(NOT);
      }
      if m {
        var op := Previous();
        var right;
        right, rs := Unary();
        if right.None? {
          return None, rs;
        }
        return Some(Expr.Unary(op, right.value)), rs;
      }
      e, rs := Primary();
    }

    /** `primary`: a literal, a parenthesized expression or a variable; anything else throws. */
    method Primary() returns (e: Option<Expr>, rs: seq<Report>)
      requires Valid()
      modifies this`current
      ensures Valid() && Yields(PrimaryAt(tokens, old(current)), e, current, rs)
      decreases |tokens| - current, 1
    {
      e := MatchLiteral();
      if e.Some? {
        return e, [];
      }
      var m := Match(LEFT_PAREN);
      if m {
        e, rs := Group();
        return;
      }
      m := Match(IDENTIFIER);
      if m {
        return Some(Variable(Previous())), [];
      }
      return None, [Report(Peek(), "Expected an Expression.")];
    }

    /** The first four `match` calls of `primary`: `false`, `true`, `nil`, then a string or number. */
    method MatchLiteral() returns (e: Option<Expr>)
      requires Valid()
      modifies this`current
      ensures Valid() && e == LiteralOf(old(Peek()))
      ensures current == if e.Some? then old(current) + 1 else old(current)
    {
      var m := Match(FALSE);
      if m {
        return Some(Literal(Bool(false)));
      }
      m := Match(TRUE);
      if m {
        return Some(Literal(Bool(true)));
      }
      m := Match(NIL);
      if m {
        return Some(Literal(Nil));
      }
      m := Match(STRING);
      if !m {
        m := Match(NUMBER);
      }
      if m {
        return Some(Literal(LiteralValue(Previous())));
      }
      return None;
    }

    /** The parenthesized case of `primary`, after the '(' is matched. */
    method Group() returns (e: Option<Expr>, rs: seq<Report>)
      requires Valid()
      modifies this`current
      ensures Valid() && Yields(GroupAt(tokens, old(current)), e, current, rs)
      decreases |tokens| - current, 9
    {
      var inner;
      inner, rs := Expression();
      if inner.None? {
        return None, rs;
      }
      var close, close_rs := Consume(RIGHT_PAREN, "Expect ')' after expression.");
      rs := rs + close_rs;
      if close.None? {
        return None, rs;
      }
      return Some(Grouping(inner.value)), rs;
    }
  }
}
