/**
 * The printer of the Java draft (PrettyPrinter.java): a tree is written
 * in prefix form by recursive `accept` calls, each operator or grouping
 * node through `parenthesize`. `Render` is what `print` returns; the
 * methods `Print` and `Parenthesize` keep the source's `StringBuilder`
 * loop and are proved to return it.
 *
 * As written, `parenthesize` ends its text with a space instead of ")",
 * so no parenthesis it opens is ever closed. `RenderClosed` is the
 * printer with the ")" and is proved balanced.
 */
module PrettyPrinterJava {
  import opened Values
  import opened ExprJava

  /** The text `toString` gives a literal's value; `format` is `Double.toString`. */
  function LiteralText(v: Value, format: real -> string): (r: string)
    ensures v.Nil? ==> r == "nil"
    ensures v.Num? ==> r == format(v.n)
    ensures v.Bool? ==> r == (if v.b then "true" else "false")
    ensures v.Str? ==> r == v.s
  {
    match v
    case Nil => "nil"
    case Num(n) => format(n)
    case Bool(b) => if b then "true" else "false"
    case Str(s) => s
  }

  /** The subexpressions' texts, each after one space, in argument order. */
  function Spaced(parts: seq<string>): string
  {
    if parts == [] then "" else Spaced(parts[..|parts| - 1]) + " " + parts[|parts| - 1]
  }

  /** `parenthesize` as written, over its subexpressions' texts: "(", the name, the spaced texts, and a final space. */
  function Parenthesized(name: string, parts: seq<string>): string
  {
    "(" + name + Spaced(parts) + " "
  }

  /** `print` and the four `visit*Expr` methods, as written. */
  function Render(e: Expr, format: real -> string): string
    decreases e
  {
    match e
    case Binary(l, op, r) => Parenthesized(op.lexeme, [Render(l, format), Render(r, format)])
    case Grouping(x) => Parenthesized("group", [Render(x, format)])
    case Literal(v) => LiteralText(v, format)
    case Unary(op, x) => Parenthesized(op.lexeme, [Render(x, format)])
  }

  /** The texts of a list of subexpressions. */
  function RenderAll(exprs: seq<Expr>, format: real -> string): (r: seq<string>)
    ensures |r| == |exprs|
    ensures forall i :: 0 <= i < |exprs| ==> r[i] == Render(exprs[i], format)
  {
    if exprs == [] then [] else RenderAll(exprs[..|exprs| - 1], format) + [Render(exprs[|exprs| - 1], format)]
  }

  /**
   * The text begins with "(" and the name, each subexpression follows one
   * space, in order, and the text ends with a space.
   */
  lemma ParenthesizedShape(name: string, a: string, b: string)
    ensures Parenthesized(name, [a]) == "(" + name + " " + a + " "
    ensures Parenthesized(name, [a, b]) == "(" + name + " " + a + " " + b + " "
  {
    assert [a, b][..1] == [a];
    assert [a][..0] == [];
    assert Spaced([a]) == " " + a;
    assert Spaced([a, b]) == " " + a + " " + b;
  }

  /** The number of times `c` occurs in `s`. */
  function Count(s: string, c: char): nat
  {
    if s == [] then 0 else Count(s[..|s| - 1], c) + (if s[|s| - 1] == c then 1 else 0)
  }

  lemma {:induction false} CountAppend(s: string, t: string, c: char)
    ensures Count(s + t, c) == Count(s, c) + Count(t, c)
    decreases |t|
  {
    if t == [] {
      assert s + t == s;
    } else {
      assert (s + t)[..|s + t| - 1] == s + t[..|t| - 1];
      CountAppend(s, t[..|t| - 1], c);
    }
  }

  /** Neither '(' nor ')' occurs in the text. */
  predicate Plain(s: string)
  {
    Count(s, '(') == 0 && Count(s, ')') == 0
  }

  /** The operator lexemes and literal texts of a tree are free of parentheses. */
  predicate PlainTree(e: Expr, format: real -> string)
  {
    match e
    case Binary(l, op, r) => Plain(op.lexeme) && PlainTree(l, format) && PlainTree(r, format)
    case Grouping(x) => PlainTree(x, format)
    case Literal(v) => Plain(LiteralText(v, format))
    case Unary(op, x) => Plain(op.lexeme) && PlainTree(x, format)
  }

  lemma PlainSpace()
    ensures Plain(" ") && Count("(", '(') == 1 && Count("(", ')') == 0 && Count(")", ')') == 1 && Count(")", '(') == 0
  {
    assert " "[..0] == [] && "("[..0] == [] && ")"[..0] == [];
  }

  lemma PlainGroup()
    ensures Plain("group")
  {
    assert "group"[..4] == "grou" && "grou"[..3] == "gro" && "gro"[..2] == "gr" && "gr"[..1] == "g" && "g"[..0] == [];
  }

  /** The counts of '(' and ')' in spaced texts are the sums of the texts' counts. */
  lemma {:induction false} CountSpaced(parts: seq<string>, c: char)
    requires c == '(' || c == ')'
    ensures Count(Spaced(parts), c) == SumCounts(parts, c)
    decreases |parts|
  {
    if parts != [] {
      var init := parts[..|parts| - 1];
      CountSpaced(init, c);
      PlainSpace();
      CountAppend(Spaced(init), " ", c);
      CountAppend(Spaced(init) + " ", parts[|parts| - 1], c);
    }
  }

  function SumCounts(parts: seq<string>, c: char): nat
  {
    if parts == [] then 0 else SumCounts(parts[..|parts| - 1], c) + Count(parts[|parts| - 1], c)
  }

  /** Each `parenthesize` adds one '(' and no ')' to its parts. */
  lemma ParenthesizedCounts(name: string, parts: seq<string>)
    requires Plain(name)
    ensures Count(Parenthesized(name, parts), '(') == 1 + SumCounts(parts, '(')
    ensures Count(Parenthesized(name, parts), ')') == SumCounts(parts, ')')
  {
    PlainSpace();
    CountSpaced(parts, '(');
    CountSpaced(parts, ')');
    CountAppend("(", name, '(');
    CountAppend("(" + name, Spaced(parts), '(');
    CountAppend("(" + name + Spaced(parts), " ", '(');
    CountAppend("(", name, ')');
    CountAppend("(" + name, Spaced(parts), ')');
    CountAppend("(" + name + Spaced(parts), " ", ')');
  }

  /** The counts of one and of two parts. */
  lemma SumCountsSmall(a: string, b: string, c: char)
    ensures SumCounts([a], c) == Count(a, c)
    ensures SumCounts([a, b], c) == Count(a, c) + Count(b, c)
  {
    assert [a][..0] == [];
    assert [a, b][..1] == [a];
  }

  /**
   * Nothing is ever closed: the printed text of a tree whose lexemes and
   * literals have no parentheses holds one '(' per operator or grouping
   * node and no ')' at all.
   */
  lemma {:induction false} UnclosedParentheses(e: Expr, format: real -> string)
    requires PlainTree(e, format)
    ensures Count(Render(e, format), '(') == Inner(e)
    ensures Count(Render(e, format), ')') == 0
    decreases e
  {
    match e
    case Literal(_) =>
    case Grouping(x) =>
      UnclosedParentheses(x, format);
      PlainGroup();
      UnclosedOne("group", Render(x, format));
    case Unary(op, x) =>
      UnclosedParentheses(x, format);
      UnclosedOne(op.lexeme, Render(x, format));
    case Binary(l, op, r) =>
      UnclosedParentheses(l, format);
      UnclosedParentheses(r, format);
      UnclosedTwo(op.lexeme, Render(l, format), Render(r, format));
  }

  lemma UnclosedOne(name: string, a: string)
    requires Plain(name)
    ensures Count(Parenthesized(name, [a]), '(') == 1 + Count(a, '(')
    ensures Count(Parenthesized(name, [a]), ')') == Count(a, ')')
  {
    ParenthesizedCounts(name, [a]);
    SumCountsSmall(a, a, '(');
    SumCountsSmall(a, a, ')');
  }

  lemma UnclosedTwo(name: string, a: string, b: string)
    requires Plain(name)
    ensures Count(Parenthesized(name, [a, b]), '(') == 1 + Count(a, '(') + Count(b, '(')
    ensures Count(Parenthesized(name, [a, b]), ')') == Count(a, ')') + Count(b, ')')
  {
    ParenthesizedCounts(name, [a, b]);
    SumCountsSmall(a, b, '(');
    SumCountsSmall(a, b, ')');
  }

  /**
   * A grouped 1.0 prints as "(group 1.0 " with `Double.toString`'s text
   * for 1.0: the group is never closed.
   */
  lemma GroupExample(format: real -> string)
    requires format(1.0) == "1.0"
    ensures Render(Grouping(Literal(Num(1.0))), format) == "(group 1.0 "
  {
    ParenthesizedShape("group", "1.0", "");
  }

  /** `parenthesize` with the evidently intended ")" in place of the final space. */
  function ParenthesizedClosed(name: string, parts: seq<string>): string
  {
    "(" + name + Spaced(parts) + ")"
  }

  /** The printer built on `ParenthesizedClosed`. */
  function RenderClosed(e: Expr, format: real -> string): string
    decreases e
  {
    match e
    case Binary(l, op, r) => ParenthesizedClosed(op.lexeme, [RenderClosed(l, format), RenderClosed(r, format)])
    case Grouping(x) => ParenthesizedClosed("group", [RenderClosed(x, format)])
    case Literal(v) => LiteralText(v, format)
    case Unary(op, x) => ParenthesizedClosed(op.lexeme, [RenderClosed(x, format)])
  }

  lemma ParenthesizedClosedCounts(name: string, parts: seq<string>)
    requires Plain(name)
    ensures Count(ParenthesizedClosed(name, parts), '(') == 1 + SumCounts(parts, '(')
    ensures Count(ParenthesizedClosed(name, parts), ')') == 1 + SumCounts(parts, ')')
  {
    PlainSpace();
    CountSpaced(parts, '(');
    CountSpaced(parts, ')');
    CountAppend("(", name, '(');
    CountAppend("(" + name, Spaced(parts), '(');
    CountAppend("(" + name + Spaced(parts), ")", '(');
    CountAppend("(", name, ')');
    CountAppend("(" + name, Spaced(parts), ')');
    CountAppend("(" + name + Spaced(parts), ")", ')');
  }

  /** The corrected printer closes every parenthesis it opens: one pair per operator or grouping node. */
  lemma {:induction false} ClosedBalanced(e: Expr, format: real -> string)
    requires PlainTree(e, format)
    ensures Count(RenderClosed(e, format), '(') == Inner(e)
    ensures Count(RenderClosed(e, format), ')') == Inner(e)
    decreases e
  {
    match e
    case Literal(_) =>
    case Grouping(x) =>
      ClosedBalanced(x, format);
      PlainGroup();
      ClosedOne("group", RenderClosed(x, format));
    case Unary(op, x) =>
      ClosedBalanced(x, format);
      ClosedOne(op.lexeme, RenderClosed(x, format));
    case Binary(l, op, r) =>
      ClosedBalanced(l, format);
      ClosedBalanced(r, format);
      ClosedTwo(op.lexeme, RenderClosed(l, format), RenderClosed(r, format));
  }

  lemma ClosedOne(name: string, a: string)
    requires Plain(name)
    ensures Count(ParenthesizedClosed(name, [a]), '(') == 1 + Count(a, '(')
    ensures Count(ParenthesizedClosed(name, [a]), ')') == 1 + Count(a, ')')
  {
    ParenthesizedClosedCounts(name, [a]);
    SumCountsSmall(a, a, '(');
    SumCountsSmall(a, a, ')');
  }

  lemma ClosedTwo(name: string, a: string, b: string)
    requires Plain(name)
    ensures Count(ParenthesizedClosed(name, [a, b]), '(') == 1 + Count(a, '(') + Count(b, '(')
    ensures Count(ParenthesizedClosed(name, [a, b]), ')') == 1 + Count(a, ')') + Count(b, ')')
  {
    ParenthesizedClosedCounts(name, [a, b]);
    SumCountsSmall(a, b, '(');
    SumCountsSmall(a, b, ')');
  }

  /** The two printers differ exactly in the last character of each parenthesized text. */
  lemma ClosedDiffersAtEnd(name: string, parts: seq<string>)
    ensures var a, b := Parenthesized(name, parts), ParenthesizedClosed(name, parts);
      |a| == |b| && a[..|a| - 1] == b[..|b| - 1] && a[|a| - 1] == ' ' && b[|b| - 1] == ')'
  {
    var prefix := "(" + name + Spaced(parts);
    assert Parenthesized(name, parts) == prefix + " ";
    assert ParenthesizedClosed(name, parts) == prefix + ")";
    assert (prefix + " ")[..|prefix|] == prefix == (prefix + ")")[..|prefix|];
  }

  // ---------------------------------------------------------------------
  // The printer's methods
  // ---------------------------------------------------------------------

  /** `print`: the text of the tree, as written. */
  method Print(e: Expr, format: real -> string) returns (s: string)
    ensures s == Render(e, format)
    decreases e, 1
  {
    match e
    case Binary(l, op, r) =>
      s := Parenthesize(op.lexeme, [l, r], format, e);
      assert RenderAll([l, r], format) == [Render(l, format), Render(r, format)];
    case Grouping(x) =>
      s := Parenthesize("group", [x], format, e);
      assert RenderAll([x], format) == [Render(x, format)];
    case Literal(v) =>
      s := LiteralText(v, format);
    case Unary(op, x) =>
      s := Parenthesize(op.lexeme, [x], format, e);
      assert RenderAll([x], format) == [Render(x, format)];
  }

  /** `parenthesize`: the `StringBuilder` loop over the subexpressions of `parent`. */
  method Parenthesize(name: string, exprs: seq<Expr>, format: real -> string, ghost parent: Expr) returns (s: string)
    requires forall i :: 0 <= i < |exprs| ==> exprs[i] < parent
    ensures s == Parenthesized(name, RenderAll(exprs, format))
    decreases parent, 0
  {
    var builder := "(" + name;
    for i := 0 to |exprs|
      invariant builder == "(" + name + Spaced(RenderAll(exprs[..i], format))
    {
      var text := Print(exprs[i], format);
      assert exprs[..i + 1][..i] == exprs[..i];
      builder := builder + " " + text;
    }
    assert exprs[..|exprs|] == exprs;
    s := builder + " ";
  }
}
