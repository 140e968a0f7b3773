/**
 * The Java scanner of src/Scanner.java (class `Scanner`).
 *
 * It has no string literals: '"' is an unexpected character like any other
 * character without a case, which is reported through `Lox.error` while
 * scanning goes on. Its token list is a static field, so every `Scanner`
 * appends to one list shared by all of them; `TokenList` is that list.
 * `ScanStep` and `ScanFrom` specify one `scanToken` call and the
 * `scanTokens` loop, and the class `Scanner` is proved to follow them.
 */
module ScannerJava {
  import opened Wrappers
  import opened Values
  import opened Lexical

  /** The token types src/Scanner.java names (the enum's own file is not part of this model). */
  datatype Kind =
    | LEFT_PAREN | RIGHT_PAREN | LEFT_BRACE | RIGHT_BRACE
    | COMMA | DOT | MINUS | PLUS | SEMICOLON | SLASH | STAR
    | BANG | BANG_EQUAL | EQUAL | EQUAL_EQUAL
    | GREATER | GREATER_EQUAL | LESS | LESS_EQUAL
    | IDENTIFIER | STRING | NUMBER
    | AND | CLASS | ELSE | FALSE | FUN | FOR | IF | NIL | OR
    | PRINT | RETURN | SUPER | THIS | TRUE | VAR | WHILE
    | EOF

  /** The 16-word keyword table. */
  const Keywords: map<string, Kind> := map[
    "and" := AND, "class" := CLASS, "else" := ELSE, "false" := FALSE,
    "for" := FOR, "fun" := FUN, "if" := IF, "nil" := NIL, "or" := OR,
    "print" := PRINT, "return" := RETURN, "super" := SUPER, "this" := THIS,
    "true" := TRUE, "var" := VAR, "while" := WHILE]

  /** The message `scanToken` passes to `Lox.error`. */
  const UnexpectedError := "Unexpected Error"

  /** `isDigit`: exactly '0'..'9'. */
  predicate JavaIsDigit(c: char) { '0' <= c <= '9' }

  /** `isAlpha`: exactly 'a'..'z', 'A'..'Z' and '_'. */
  predicate JavaIsAlpha(c: char) { 'a' <= c <= 'z' || 'A' <= c <= 'Z' || c == '_' }

  /** `isAlphaNumeric`: `isDigit || isAlpha`. */
  predicate JavaIsAlphaNumeric(c: char) { JavaIsDigit(c) || JavaIsAlpha(c) }

  /** The Java classifiers are the shared character classes. */
  lemma {:induction false} Classifiers(c: char)
    ensures JavaIsDigit(c) <==> InClass(c, Digits)
    ensures JavaIsAlpha(c) <==> IsAlpha(c) || c == '_'
    ensures JavaIsAlphaNumeric(c) <==> InClass(c, Word)
  {
  }

  function KeywordOr(text: string): (k: Kind)
    ensures text in Keywords ==> k == Keywords[text]
    ensures text !in Keywords ==> k == IDENTIFIER
    ensures k != EOF
  {
    if text in Keywords then Keywords[text] else IDENTIFIER
  }

  /** The one-character tokens of `scanToken`'s switch. */
  predicate IsSingle(c: char)
  {
    || c == '.' || c == '*' || c == '+' || c == ',' || c == '/' || c == '-'
    || c == ';' || c == '(' || c == '{' || c == ')' || c == '}'
  }

  function SingleKind(c: char): Kind
    requires IsSingle(c)
  {
    match c
    case '.' => DOT
    case '*' => STAR
    case '+' => PLUS
    case ',' => COMMA
    case '/' => SLASH
    case '-' => MINUS
    case ';' => SEMICOLON
    case '(' => LEFT_PAREN
    case '{' => LEFT_BRACE
    case ')' => RIGHT_PAREN
    case '}' => RIGHT_BRACE
  }

  /** '=', '!', '>' and '<' alone, or followed by '='. */
  function OperatorKind(c: char, withEqual: bool): Kind
    requires IsOperatorChar(c)
  {
    match c
    case '=' => if withEqual then EQUAL_EQUAL else EQUAL
    case '!' => if withEqual then BANG_EQUAL else BANG
    case '>' => if withEqual then GREATER_EQUAL else GREATER
    case '<' => if withEqual then LESS_EQUAL else LESS
  }

  /** The characters `scanToken` has a case for; '"' and '\r' are not among them. */
  predicate Handled(c: char)
  {
    IsSingle(c) || IsOperatorChar(c) || c == ' ' || c == '\t' || c == '\n' || JavaIsDigit(c) || JavaIsAlpha(c)
  }

  predicate Unhandled(c: char) { !Handled(c) }

  /** A token spanning src[start..end]. */
  function Emit(src: string, start: nat, end: nat, kind: Kind, literal: Option<Value>, line: nat): (r: Step<Kind>)
    requires start < end <= |src|
    requires forall k :: start <= k < end ==> src[k] != '\n'
    ensures r.next == end && r.line == line + Newlines(src, start, end)
    ensures r.error.None? && r.emitted == [Token(kind, src[start..end], literal, line)]
  {
    CountInNone(src, start, end, IsNewline);
    Step(end, line, [Token(kind, src[start..end], literal, line)], None)
  }

  /**
   * A one- or two-character operator: the second character is taken exactly
   * when it is '=', and the kind is the operator's with or without '='.
   */
  function Operator(src: string, start: nat, line: nat): (r: Step<Kind>)
    requires start < |src| && IsOperatorChar(src[start])
    ensures r.next == start + 1 || r.next == start + 2
    ensures r.next <= |src| && r.line == line + Newlines(src, start, r.next)
    ensures (r.next == start + 2) == (start + 1 < |src| && src[start + 1] == '=')
    ensures r.error.None? &&
      r.emitted == [Token(OperatorKind(src[start], r.next == start + 2), src[start..r.next], None, line)]
  {
    var two := PeekAt(src, start + 1) == '=';
    Emit(src, start, if two then start + 2 else start + 1, OperatorKind(src[start], two), None, line)
  }

  /** `number()`: the literal is the decoded numeral. */
  function NumberStep(src: string, start: nat, line: nat): (r: Step<Kind>)
    requires start < |src| && JavaIsDigit(src[start])
    ensures start < r.next <= |src| && r.line == line + Newlines(src, start, r.next)
    ensures forall k :: start <= k < r.next ==> IsDigit(src[k]) || src[k] == '.'
  {
    var j := NumberEnd(src, start + 1);
    var text := src[start..j];
    CountInNone(src, start, j, IsNewline);
    Step(j, line, [Token(NUMBER, text, Some(Num(DecodeNumber(text))), line)], None)
  }

  /** `identifier()`: a maximal alphanumeric run, then the table lookup. */
  function IdentifierStep(src: string, start: nat, line: nat): (r: Step<Kind>)
    requires start < |src| && JavaIsAlpha(src[start])
    ensures start < r.next <= |src| && r.line == line + Newlines(src, start, r.next)
    ensures forall k :: start <= k < r.next ==> InClass(src[k], Word)
  {
    var j := RunEnd(src, start + 1, Word);
    CountInNone(src, start, j, IsNewline);
    Step(j, line, [Token(KeywordOr(src[start..j]), src[start..j], None, line)], None)
  }

  /** One call of `scanToken` with the cursor at `start`. */
  function ScanStep(src: string, start: nat, line: nat): (r: Step<Kind>)
    requires start < |src|
    ensures start < r.next <= |src|
    ensures r.line == line + Newlines(src, start, r.next)
    ensures r.error.Some? ==> r.emitted == []
    ensures |r.emitted| <= 1
    ensures r.emitted != [] ==> r.emitted[0].kind != EOF && r.emitted[0].line == line
  {
    var c := src[start];
    CountInOne(src, start, IsNewline);
    if IsSingle(c) then Emit(src, start, start + 1, SingleKind(c), None, line)
    else if IsOperatorChar(c) then Operator(src, start, line)
    else if c == ' ' || c == '\t' then Step(start + 1, line, [], None)
    else if c == '\n' then Step(start + 1, line + 1, [], None)
    else if JavaIsDigit(c) then NumberStep(src, start, line)
    else if JavaIsAlpha(c) then IdentifierStep(src, start, line)
    else
      Step(start + 1, line, [], Some(Diagnostic(line, UnexpectedError)))
  }

  /** The tokens appended and the `Lox.error` calls made while scanning. */
  datatype Output = Output(tokens: seq<Token<Kind>>, reports: seq<Diagnostic>)

  function Reported(s: Step<Kind>): seq<Diagnostic>
  {
    if s.error.Some? then [s.error.value] else []
  }

  /**
   * What the `scanTokens` loop appends from cursor `current` on: every step
   * runs (a report does not stop the loop), and the EOF token closes it.
   */
  function ScanFrom(src: string, current: nat, line: nat): (r: Output)
    requires current <= |src|
    ensures |r.tokens| > 0
    ensures r.tokens[|r.tokens| - 1] == Token(EOF, "", None, line + Newlines(src, current, |src|))
    ensures forall k :: 0 <= k < |r.tokens| - 1 ==> r.tokens[k].kind != EOF
    decreases |src| - current
  {
    if current >= |src| then
      Output([Token(EOF, "", None, line)], [])
    else
      var s := ScanStep(src, current, line);
      StepLines(src, current, line);
      var rest := ScanFrom(src, s.next, s.line);
      Output(s.emitted + rest.tokens, Reported(s) + rest.reports)
  }

  /** One turn of the `scanTokens` loop: the step's output comes first. */
  lemma {:induction false} ScanFromStep(src: string, current: nat, line: nat)
    requires current < |src|
    ensures var s := ScanStep(src, current, line);
      var rest := ScanFrom(src, s.next, s.line);
      ScanFrom(src, current, line) == Output(s.emitted + rest.tokens, Reported(s) + rest.reports)
  {
  }

  lemma AppendShift<T>(a: seq<T>, b: seq<T>, c: seq<T>)
    ensures a + (b + c) == (a + b) + c
  {
  }

  /** The line count after a step plus the newlines still ahead is the final line count. */
  lemma {:induction false} StepLines(src: string, current: nat, line: nat)
    requires current < |src|
    ensures ScanStep(src, current, line).line + Newlines(src, ScanStep(src, current, line).next, |src|)
      == line + Newlines(src, current, |src|)
  {
    var s := ScanStep(src, current, line);
    CountInSplit(src, current, s.next, |src|, IsNewline);
  }

  /** What one fresh `Scanner(source).scanTokens()` appends to the shared list. */
  function Scan(src: string): Output
  {
    ScanFrom(src, 0, 1)
  }

  // ---------------------------------------------------------------------
  // Properties of the specification
  // ---------------------------------------------------------------------

  /** One scan appends exactly one EOF token, last, with an empty lexeme and the final line count. */
  lemma {:induction false} ScanEndsWithEof(src: string)
    ensures var toks := Scan(src).tokens;
      |toks| > 0 && toks[|toks| - 1] == Token(EOF, "", None, 1 + Newlines(src, 0, |src|)) &&
      forall k :: 0 <= k < |toks| - 1 ==> toks[k].kind != EOF
  {
  }

  /** '!=', '==', '>=' and '<=' scan as one token; '!', '=', '>' and '<' alone otherwise. */
  lemma {:induction false} TwoCharacterOperators(src: string, i: nat, line: nat)
    requires i < |src| && IsOperatorChar(src[i])
    ensures var r := ScanStep(src, i, line);
      var two := i + 1 < |src| && src[i + 1] == '=';
      r.error.None? && r.line == line && |r.emitted| == 1 &&
      r.next == (if two then i + 2 else i + 1) &&
      r.emitted[0].lexeme == src[i..r.next] &&
      r.emitted[0].kind ==
        match src[i]
        case '=' => if two then EQUAL_EQUAL else EQUAL
        case '!' => if two then BANG_EQUAL else BANG
        case '>' => if two then GREATER_EQUAL else GREATER
        case _ => if two then LESS_EQUAL else LESS
  {
  }

  /**
   * ' ' and '\t' are skipped and '\n' counts a line; any other character
   * without a case is reported with the current line, adds no token, and
   * the cursor moves past it.
   */
  lemma {:induction false} SkippedAndReported(src: string, i: nat, line: nat)
    requires i < |src|
    ensures var r := ScanStep(src, i, line);
      ((src[i] == ' ' || src[i] == '\t') ==> r == Step(i + 1, line, [], None)) &&
      (src[i] == '\n' ==> r == Step(i + 1, line + 1, [], None))
    ensures Unhandled(src[i]) ==>
      ScanStep(src, i, line) == Step(i + 1, line, [], Some(Diagnostic(line, UnexpectedError)))
  {
  }

  /** This draft has no string literals: '"' is reported, as is '\r'. */
  lemma {:induction false} ReportedCharacters()
    ensures Unhandled('"') && Unhandled('\r')
    ensures Handled('.') && Handled('_') && Handled('\t')
  {
  }

  /** A number token is a maximal numeral: a digit run, with a fraction only when a digit follows the '.'. */
  lemma {:induction false} NumberLiteral(src: string, i: nat, line: nat)
    requires i < |src| && JavaIsDigit(src[i])
    ensures var r := ScanStep(src, i, line);
      r.error.None? && |r.emitted| == 1 &&
      var t := r.emitted[0];
      t.kind == NUMBER && t.lexeme == src[i..r.next] && IsNumeral(t.lexeme) &&
      t.literal == Some(Num(DecodeNumber(t.lexeme))) &&
      (r.next == |src| || !IsDigit(src[r.next]))
  {
    NumberLexeme(src, i);
  }

  /**
   * An identifier starts with a letter or '_' and is the maximal run of
   * `isAlphaNumeric` characters; it is a keyword exactly when the 16-word
   * table holds it.
   */
  lemma {:induction false} IdentifierOrKeyword(src: string, i: nat, line: nat)
    requires i < |src| && JavaIsAlpha(src[i])
    ensures var r := ScanStep(src, i, line);
      r.error.None? && |r.emitted| == 1 &&
      var t := r.emitted[0];
      t.lexeme == src[i..r.next] &&
      (forall k :: i <= k < r.next ==> JavaIsAlphaNumeric(src[k])) &&
      (r.next == |src| || !JavaIsAlphaNumeric(src[r.next])) &&
      (t.lexeme in Keywords ==> t.kind == Keywords[t.lexeme]) &&
      (t.lexeme !in Keywords ==> t.kind == IDENTIFIER)
  {
  }

  /** A step without a report reads only handled characters; a report is made on one unhandled character. */
  lemma {:induction false} StepReadsHandled(src: string, i: nat, line: nat)
    requires i < |src|
    ensures ScanStep(src, i, line).error.None? ==>
      forall k :: i <= k < ScanStep(src, i, line).next ==> Handled(src[k])
    ensures ScanStep(src, i, line).error.Some? ==>
      ScanStep(src, i, line).next == i + 1 && Unhandled(src[i])
  {
    var c := src[i];
    if JavaIsDigit(c) {
      assert ScanStep(src, i, line) == NumberStep(src, i, line);
    } else if !IsSingle(c) && !IsOperatorChar(c) && JavaIsAlpha(c) {
      assert ScanStep(src, i, line) == IdentifierStep(src, i, line);
    }
  }

  /** Errors do not abort the scan: every unhandled character yields exactly one report. */
  lemma {:induction false} ReportsCountUnhandled(src: string, current: nat, line: nat)
    requires current <= |src|
    ensures |ScanFrom(src, current, line).reports| == CountIn(src, current, |src|, Unhandled)
    decreases |src| - current
  {
    if current < |src| {
      var s := ScanStep(src, current, line);
      StepReadsHandled(src, current, line);
      CountInSplit(src, current, s.next, |src|, Unhandled);
      if s.error.None? {
        CountInNone(src, current, s.next, Unhandled);
      }
      ReportsCountUnhandled(src, s.next, s.line);
    }
  }

  lemma {:induction false} ReportsOnePerUnhandled(src: string)
    ensures |Scan(src).reports| == CountIn(src, 0, |src|, Unhandled)
  {
    ReportsCountUnhandled(src, 0, 1);
  }

  /**
   * Two scans into the shared list leave two EOF tokens in it: the first
   * scan's EOF token is followed by the second scan's tokens.
   */
  lemma {:induction false} SharedListKeepsBothEofs(first: string, second: string)
    ensures var a := Scan(first).tokens;
      var both := a + Scan(second).tokens;
      both[|a| - 1].kind == EOF && both[|both| - 1].kind == EOF && |a| - 1 < |both| - 1
  {
  }

  // ---------------------------------------------------------------------
  // The scanner object and its shared token list
  // ---------------------------------------------------------------------

  /** The static `tokens` list: one for all scanners. */
  class TokenList {
    var items: seq<Token<Kind>>

    constructor ()
      ensures items == []
    {
      items := [];
    }
  }

  class Scanner {
    const source: string
    /** The static list this scanner appends to. */
    const tokens: TokenList
    var start: nat
    var line: nat
    var current: nat
    /** The `Lox.error` calls this scanner has made. */
    var reports: seq<Diagnostic>

    ghost predicate Valid()
      reads this
    {
      start <= current <= |source|
    }

    constructor (source: string, tokens: TokenList)
      ensures Valid() && this.source == source && this.tokens == tokens
      ensures start == 0 && line == 1 && current == 0 && reports == []
    {
      this.source := source;
      this.tokens := tokens;
      start, line, current, reports := 0, 1, 0, [];
    }

    predicate IsAtEnd()
      reads this
    {
      current >= |source|
    }

    function Peek(): char
      reads this
    {
      PeekAt(source, current)
    }

    function PeekNext(): char
      reads this
    {
      PeekAt(source, current + 1)
    }

    /** `advance` has no bounds check: every caller first tests `isAtEnd` or `peek`. */
    method Advance() returns (c: char)
      requires Valid() && current < |source|
      modifies this`current
      ensures Valid()
      ensures c == source[old(current)] && current == old(current) + 1
    {
      current := current + 1;
      c := source[current - 1];
    }

    method Match(next: char) returns (matched: bool)
      requires Valid()
      modifies this`current
      ensures Valid()
      ensures matched <==> old(current) < |source| && source[old(current)] == next
      ensures current == if matched then old(current) + 1 else old(current)
    {
      if IsAtEnd() {
        return false;
      }
      if source[current] != next {
        return false;
      }
      current := current + 1;
      matched := true;
    }

    method AddToken(kind: Kind, literal: Option<Value>)
      requires Valid()
      modifies tokens
      ensures tokens.items == old(tokens.items) + [Token(kind, source[start..current], literal, line)]
    {
      tokens.items := tokens.items + [Token(kind, source[start..current], literal, line)];
    }

    /** The `match('=')` cases of `scanToken`. */
    method AddOperator()
      requires Valid() && start < |source| && current == start + 1 && IsOperatorChar(source[start])
      modifies this`current, tokens
      ensures Valid()
      ensures var s := Operator(source, start, line);
        current == s.next && tokens.items == old(tokens.items) + s.emitted
    {
      var m := Match('=');
      AddToken(OperatorKind(source[start], m), None);
    }

    /** The `while (isDigit(peek())) advance();` loop of `number()`. */
    method SkipDigits()
      requires Valid()
      modifies this`current
      ensures Valid() && current == RunEnd(source, old(current), Digits)
    {
      while JavaIsDigit(Peek())
        invariant Valid() && old(current) <= current
        invariant RunEnd(source, current, Digits) == RunEnd(source, old(current), Digits)
        decreases |source| - current
      {
        var _ := Advance();
      }
    }

    /** The loops of `number()`: the digit run, then '.' and a second run only when a digit follows the '.'. */
    method SkipNumeral()
      requires Valid()
      modifies this`current
      ensures Valid() && current == NumberEnd(source, old(current))
    {
      SkipDigits();
      if Peek() == '.' && JavaIsDigit(PeekNext()) {
        var _ := Advance();
        SkipDigits();
      }
    }

    method Number()
      requires Valid() && start < |source| && current == start + 1 && JavaIsDigit(source[start])
      modifies this`current, tokens
      ensures Valid()
      ensures var s := NumberStep(source, start, line);
        current == s.next && tokens.items == old(tokens.items) + s.emitted
    {
      SkipNumeral();
      AddToken(NUMBER, Some(Num(DecodeNumber(source[start..current]))));
    }

    method Identifier()
      requires Valid() && start < |source| && current == start + 1 && JavaIsAlpha(source[start])
      modifies this`current, tokens
      ensures Valid()
      ensures var s := IdentifierStep(source, start, line);
        current == s.next && tokens.items == old(tokens.items) + s.emitted
    {
      ghost var k := RunEnd(source, start + 1, Word);
      while JavaIsAlphaNumeric(Peek())
        invariant Valid() && start < current <= k
        invariant RunEnd(source, current, Word) == k
        invariant tokens.items == old(tokens.items)
        decreases |source| - current
      {
        var _ := Advance();
      }
      var text := source[start..current];
      var kind := if text in Keywords then Keywords[text] else IDENTIFIER;
      AddToken(kind, None);
    }

    /**
     * `scanToken`: the `switch` on the character read, with its cases in
     * groups: the single-character tokens, the operators that may take a
     * '=', blanks, newline, and the default branch (digit, letter, error).
     */
    method ScanToken()
      requires Valid() && start == current < |source|
      modifies this`current, this`line, this`reports, tokens
      ensures Valid()
      ensures var s := ScanStep(source, old(current), old(line));
        current == s.next && line == s.line && tokens.items == old(tokens.items) + s.emitted &&
        reports == old(reports) + Reported(s)
    {
      var ch := Advance();
      if IsSingle(ch) {
        AddToken(SingleKind(ch), None);
      } else if IsOperatorChar(ch) {
        AddOperator();
      } else if ch == ' ' || ch == '\t' {
      } else if ch == '\n' {
        line := line + 1;
      } else if JavaIsDigit(ch) {
        Number();
      } else if JavaIsAlpha(ch) {
        Identifier();
      } else {
        reports := reports + [Diagnostic(line, UnexpectedError)];
      }
    }

    /** `scanTokens`: the loop of `ScanFrom`, appending to the shared list and returning it. */
    method ScanTokens() returns (r: seq<Token<Kind>>)
      requires Valid()
      modifies this`start, this`current, this`line, this`reports, tokens
      ensures Valid()
      ensures var out := ScanFrom(source, old(current), old(line));
        r == tokens.items == old(tokens.items) + out.tokens && reports == old(reports) + out.reports
    {
      while !IsAtEnd()
        invariant Valid()
        invariant tokens.items + ScanFrom(source, current, line).tokens
          == old(tokens.items) + ScanFrom(source, old(current), old(line)).tokens
        invariant reports + ScanFrom(source, current, line).reports
          == old(reports) + ScanFrom(source, old(current), old(line)).reports
        decreases |source| - current
      {
        start := current;
        ghost var t0, r0 := tokens.items, reports;
        ScanFromStep(source, current, line);
        ghost var s := ScanStep(source, current, line);
        ScanToken();
        AppendShift(t0, s.emitted, ScanFrom(source, current, line).tokens);
        AppendShift(r0, Reported(s), ScanFrom(source, current, line).reports);
      }
      assert reports + [] == reports;
      tokens.items := tokens.items + [Token(EOF, "", None, line)];
      r := tokens.items;
    }
  }

  /**
   * Two scanners in a row on a fresh shared list: the second call returns
   * the first scan's tokens, EOF included, followed by its own.
   */
  method ScanTwice(first: string, second: string) returns (a: seq<Token<Kind>>, b: seq<Token<Kind>>)
    ensures a == Scan(first).tokens
    ensures b == Scan(first).tokens + Scan(second).tokens
  {
    var list := new TokenList();
    var s1 := new Scanner(first, list);
    a := s1.ScanTokens();
    var s2 := new Scanner(second, list);
    b := s2.ScanTokens();
  }
}
