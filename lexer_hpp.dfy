/**
 * The report-and-continue lexer of lexer.hpp (class `lexer`).
 *
 * `LexStep` and `LexFrom` specify one call of `scan_token` and the whole
 * `scan_tokens` loop. A message the lexer writes to `std::cerr` is a
 * `Diagnostic` appended to a report stream; scanning goes on after it.
 * The class `Lexer` keeps the source's cursor fields and is proved to
 * follow the specification.
 */
module LexerHpp {
  import opened Wrappers
  import opened Values
  import opened Lexical

  /**
   * The token kinds of lexer.hpp. `PRINT`, `IF`, `ELSE` and `RETURN` are
   * named by parser.cpp but missing from lexer.hpp's enumeration; they are
   * added here so that the parser can be modelled, and the lexer never
   * produces them.
   */
  datatype Kind =
    | LEFT_PAREN | RIGHT_PAREN | LEFT_BRACE | RIGHT_BRACE
    | EQUAL_EQUAL | NOT_EQUAL | GREATER_EQUALS | LESSER_EQUALS | GREATER | LESSER
    | ADD | MUL | SUB | DIV
    | AND | OR | NOT
    | DOT | COMMA | SEMICOLON
    | FUN | VAR
    | EQUALS
    | NUMBER | IDENTIFIER | STRING
    | FOR | WHILE
    | TRUE | FALSE
    | NIL | EOF_TOKEN
    | PRINT | IF | ELSE | RETURN

  /** The 9-word keyword table. */
  const Keywords: map<string, Kind> := map[
    "while" := WHILE, "or" := OR, "and" := AND, "for" := FOR, "true" := TRUE,
    "false" := FALSE, "nil" := NIL, "var" := VAR, "fun" := FUN]

  const UnexpectedCharacter := "LEXER_ERROR : Unexpected character at "
  const UnterminatedString := "LEXER ERROR : Unterminated String at line = "

  /** The lexeme of the end-of-input token. */
  const EofLexeme := "FINISHED"

  function KeywordOr(text: string): (k: Kind)
    ensures text in Keywords ==> k == Keywords[text]
    ensures text !in Keywords ==> k == IDENTIFIER
    ensures k !in {EOF_TOKEN, PRINT, IF, ELSE, RETURN}
  {
    if text in Keywords then Keywords[text] else IDENTIFIER
  }

  /** The characters `scan_token` has a case for; '.', '\t', '\r' and '_' are not among them. */
  predicate Handled(c: char)
  {
    IsSingle(c) || IsOperatorChar(c) || c == '\n' || c == ' ' || c == '"' || IsDigit(c) || IsAlpha(c)
  }

  predicate Unhandled(c: char) { !Handled(c) }

  /** The one-character tokens of `scan_token`'s switch. */
  predicate IsSingle(c: char)
  {
    || c == '(' || c == ')' || c == '{' || c == '}' || c == ';' || c == ','
    || c == '+' || c == '-' || c == '*' || c == '/'
  }

  function SingleKind(c: char): Kind
    requires IsSingle(c)
  {
    match c
    case '(' => LEFT_PAREN
    case ')' => RIGHT_PAREN
    case '{' => LEFT_BRACE
    case '}' => RIGHT_BRACE
    case ';' => SEMICOLON
    case ',' => COMMA
    case '+' => ADD
    case '-' => SUB
    case '*' => MUL
    case '/' => DIV
  }

  /** '!', '=', '>' and '<' alone, or followed by '='. */
  function OperatorKind(c: char, withEqual: bool): Kind
    requires IsOperatorChar(c)
  {
    match c
    case '!' => if withEqual then NOT_EQUAL else NOT
    case '=' => if withEqual then EQUAL_EQUAL else EQUALS
    case '>' => if withEqual then GREATER_EQUALS else GREATER
    case '<' => if withEqual then LESSER_EQUALS else LESSER
  }

  /** `string()`: runs to the closing quote counting newlines; at end of input it reports and adds nothing. */
  function StringStep(src: string, start: nat, line: nat): (r: Step<Kind>)
    requires start < |src| && src[start] == '"'
    ensures start < r.next <= |src| && r.line == line + Newlines(src, start, r.next)
    ensures QuoteEnd(src, start + 1) == |src| ==>
      r.next == |src| && r.error == Some(Diagnostic(r.line, UnterminatedString)) && r.emitted == []
    ensures var j := QuoteEnd(src, start + 1);
      j < |src| ==>
        r.error.None? && r.next == j + 1 &&
        r.emitted == [Token(STRING, src[start..j + 1], Some(Str(src[start + 1..j])), r.line)]
  {
    var j := QuoteEnd(src, start + 1);
    var l := line + Newlines(src, start + 1, j);
    CountInSplit(src, start, start + 1, j, IsNewline);
    if j == |src| then
      Step(j, l, [], Some(Diagnostic(l, UnterminatedString)))
    else
      CountInSplit(src, start, j, j + 1, IsNewline);
      Step(j + 1, l, [Token(STRING, src[start..j + 1], Some(Str(src[start + 1..j])), l)], None)
  }

  /** `number()`: the literal is the decoded numeral. */
  function NumberStep(src: string, start: nat, line: nat): (r: Step<Kind>)
    requires start < |src| && IsDigit(src[start])
    ensures start < r.next <= |src| && r.line == line + Newlines(src, start, r.next)
    ensures forall k :: start <= k < r.next ==> IsDigit(src[k]) || src[k] == '.'
  {
    var j := NumberEnd(src, start + 1);
    var text := src[start..j];
    CountInNone(src, start, j, IsNewline);
    Step(j, line, [Token(NUMBER, text, Some(Num(DecodeNumber(text))), line)], None)
  }

  /** `identifier()`: a maximal run of letters and digits, then the table lookup. */
  function IdentifierStep(src: string, start: nat, line: nat): (r: Step<Kind>)
    requires start < |src| && IsAlpha(src[start])
    ensures start < r.next <= |src| && r.line == line + Newlines(src, start, r.next)
    ensures forall k :: start <= k < r.next ==> InClass(src[k], Alnum)
  {
    var j := RunEnd(src, start + 1, Alnum);
    CountInNone(src, start, j, IsNewline);
    Step(j, line, [Token(KeywordOr(src[start..j]), src[start..j], None, line)], None)
  }

  /** One call of `scan_token` with the cursor at `start`. */
  function LexStep(src: string, start: nat, line: nat): (r: Step<Kind>)
    requires start < |src|
    ensures start < r.next <= |src|
    ensures r.line == line + Newlines(src, start, r.next)
    ensures r.error.Some? ==> r.emitted == []
    ensures |r.emitted| <= 1
    ensures r.emitted != [] ==> r.emitted[0].kind != EOF_TOKEN && r.emitted[0].line == r.line
  {
    var c := src[start];
    CountInOne(src, start, IsNewline);
    if IsSingle(c) then EmitStep(src, start, start + 1, SingleKind(c), line)
    else if IsOperatorChar(c) then OperatorStep(src, start, line, OperatorKind(c, false), OperatorKind(c, true))
    else if c == '\n' then Step(start + 1, line + 1, [], None)
    else if c == ' ' then Step(start + 1, line, [], None)
    else if c == '"' then StringStep(src, start, line)
    else if IsDigit(c) then NumberStep(src, start, line)
    else if IsAlpha(c) then IdentifierStep(src, start, line)
    else
      Step(start + 1, line, [], Some(Diagnostic(line, UnexpectedCharacter)))
  }

  /** The token list and the error reports written while lexing. */
  datatype Output = Output(tokens: seq<Token<Kind>>, reports: seq<Diagnostic>)

  /** The report a step writes, if any. */
  function Reported(s: Step<Kind>): seq<Diagnostic>
  {
    if s.error.Some? then [s.error.value] else []
  }

  /**
   * What the `scan_tokens` loop adds from cursor `current` on: every step
   * runs (a report does not stop the loop), and the EOF token closes the list.
   */
  function LexFrom(src: string, current: nat, line: nat): (r: Output)
    requires current <= |src|
    ensures |r.tokens| > 0
    ensures r.tokens[|r.tokens| - 1] == Token(EOF_TOKEN, EofLexeme, None, line + Newlines(src, current, |src|))
    ensures forall k :: 0 <= k < |r.tokens| - 1 ==> r.tokens[k].kind != EOF_TOKEN
    decreases |src| - current
  {
    if current >= |src| then
      Output([Token(EOF_TOKEN, EofLexeme, None, line)], [])
    else
      var s := LexStep(src, current, line);
      StepLines(src, current, line);
      var rest := LexFrom(src, s.next, s.line);
      Output(s.emitted + rest.tokens, Reported(s) + rest.reports)
  }

  /** One turn of the `scan_tokens` loop: the step's output comes first. */
  lemma {:induction false} LexFromStep(src: string, current: nat, line: nat)
    requires current < |src|
    ensures var s := LexStep(src, current, line);
      var rest := LexFrom(src, s.next, s.line);
      LexFrom(src, current, line) == Output(s.emitted + rest.tokens, Reported(s) + rest.reports)
  {
  }

  lemma AppendShift<T>(a: seq<T>, b: seq<T>, c: seq<T>)
    ensures a + (b + c) == (a + b) + c
  {
  }

  /** The line count after a step plus the newlines still ahead is the final line count. */
  lemma {:induction false} StepLines(src: string, current: nat, line: nat)
    requires current < |src|
    ensures LexStep(src, current, line).line + Newlines(src, LexStep(src, current, line).next, |src|)
      == line + Newlines(src, current, |src|)
  {
    var s := LexStep(src, current, line);
    CountInSplit(src, current, s.next, |src|, IsNewline);
  }

  /** What `lexer(source).scan_tokens()` returns, with the reports it writes. */
  function Lex(src: string): Output
  {
    LexFrom(src, 0, 1)
  }

  // ---------------------------------------------------------------------
  // Properties of the specification
  // ---------------------------------------------------------------------

  /**
   * Lexing never fails: the token list always ends with exactly one EOF
   * token, lexeme "FINISHED", carrying one more than the number of newlines.
   */
  lemma {:induction false} LexEndsWithEof(src: string)
    ensures var toks := Lex(src).tokens;
      |toks| > 0 && toks[|toks| - 1] == Token(EOF_TOKEN, "FINISHED", None, 1 + Newlines(src, 0, |src|)) &&
      forall k :: 0 <= k < |toks| - 1 ==> toks[k].kind != EOF_TOKEN
  {
  }

  /** '!=', '==', '>=' and '<=' are single tokens; a lone '=' is EQUALS. */
  lemma {:induction false} TwoCharacterOperators(src: string, i: nat, line: nat)
    requires i < |src| && IsOperatorChar(src[i])
    ensures var r := LexStep(src, i, line);
      var two := i + 1 < |src| && src[i + 1] == '=';
      r.error.None? && r.line == line && |r.emitted| == 1 &&
      r.next == (if two then i + 2 else i + 1) &&
      r.emitted[0].lexeme == src[i..r.next] &&
      r.emitted[0].kind ==
        match src[i]
        case '!' => if two then NOT_EQUAL else NOT
        case '=' => if two then EQUAL_EQUAL else EQUALS
        case '<' => if two then LESSER_EQUALS else LESSER
        case _ => if two then GREATER_EQUALS else GREATER
  {
  }

  /**
   * Only ' ' and '\n' are skipped, '\n' counting a line; a character with no
   * case (such as '.', '\t' or '\r') is reported with the current line and
   * adds no token, and the cursor moves past it.
   */
  lemma {:induction false} SkippedAndReported(src: string, i: nat, line: nat)
    requires i < |src|
    ensures var r := LexStep(src, i, line);
      (src[i] == ' ' ==> r == Step(i + 1, line, [], None)) &&
      (src[i] == '\n' ==> r == Step(i + 1, line + 1, [], None))
    ensures Unhandled(src[i]) ==>
      LexStep(src, i, line) == Step(i + 1, line, [], Some(Diagnostic(line, UnexpectedCharacter)))
  {
  }

  /** The characters the C++ draft reports rather than skips or tokenizes. */
  lemma {:induction false} ReportedCharacters()
    ensures Unhandled('.') && Unhandled('\t') && Unhandled('\r') && Unhandled('_')
  {
  }

  /**
   * A closed string's token has the quotes in its lexeme and the text between
   * them as its literal; an unclosed one is reported, adds no token and ends
   * the input.
   */
  lemma {:induction false} StringLiteral(src: string, i: nat, line: nat)
    requires i < |src| && src[i] == '"'
    ensures var r := LexStep(src, i, line);
      QuoteEnd(src, i + 1) == |src| ==>
        r.next == |src| && r.error == Some(Diagnostic(r.line, UnterminatedString)) && r.emitted == []
    ensures var r := LexStep(src, i, line);
      var j := QuoteEnd(src, i + 1);
      j < |src| ==>
        r.error.None? && r.next == j + 1 &&
        r.emitted == [Token(STRING, src[i..j + 1], Some(Str(src[i + 1..j])), r.line)] &&
        '"' !in src[i + 1..j]
  {
    assert LexStep(src, i, line) == StringStep(src, i, line);
  }

  /** A number token is a maximal numeral: a digit run, with a fraction only when a digit follows the '.'. */
  lemma {:induction false} NumberLiteral(src: string, i: nat, line: nat)
    requires i < |src| && IsDigit(src[i])
    ensures var r := LexStep(src, i, line);
      r.error.None? && |r.emitted| == 1 &&
      var t := r.emitted[0];
      t.kind == NUMBER && t.lexeme == src[i..r.next] && IsNumeral(t.lexeme) &&
      t.literal == Some(Num(DecodeNumber(t.lexeme))) &&
      (r.next == |src| || !IsDigit(src[r.next]))
  {
    NumberLexeme(src, i);
  }

  /**
   * An identifier starts with a letter and is the maximal run of letters and
   * digits; it is a keyword exactly when the 9-word table holds it.
   */
  lemma {:induction false} IdentifierOrKeyword(src: string, i: nat, line: nat)
    requires i < |src| && IsAlpha(src[i])
    ensures var r := LexStep(src, i, line);
      r.error.None? && |r.emitted| == 1 &&
      var t := r.emitted[0];
      t.lexeme == src[i..r.next] &&
      (forall k :: i <= k < r.next ==> InClass(src[k], Alnum)) &&
      (r.next == |src| || !InClass(src[r.next], Alnum)) &&
      (t.lexeme in Keywords ==> t.kind == Keywords[t.lexeme]) &&
      (t.lexeme !in Keywords ==> t.kind == IDENTIFIER)
  {
  }

  /** `print`, `if` and `else` are not in the table, so they lex as identifiers. */
  lemma {:induction false} StatementWordsAreIdentifiers(src: string, i: nat, line: nat)
    requires i < |src| && IsAlpha(src[i])
    ensures var t := LexStep(src, i, line).emitted[0];
      t.lexeme in {"print", "if", "else"} ==> t.kind == IDENTIFIER
  {
    assert "print" !in Keywords && "if" !in Keywords && "else" !in Keywords;
  }

  /**
   * Outside strings a step without a report reads only handled characters
   * (and '.' only inside a numeral); a report is made on exactly one
   * unhandled character.
   */
  lemma {:induction false} StepReadsHandled(src: string, i: nat, line: nat)
    requires i < |src| && src[i] != '"'
    ensures LexStep(src, i, line).error.None? ==>
      forall k :: i <= k < LexStep(src, i, line).next ==> Handled(src[k]) || src[k] == '.'
    ensures LexStep(src, i, line).error.None? && !IsDigit(src[i]) ==>
      forall k :: i <= k < LexStep(src, i, line).next ==> Handled(src[k])
    ensures LexStep(src, i, line).error.Some? ==>
      LexStep(src, i, line).next == i + 1 && Unhandled(src[i])
  {
    var c := src[i];
    if IsDigit(c) {
      assert LexStep(src, i, line) == NumberStep(src, i, line);
    } else if IsAlpha(c) {
      assert LexStep(src, i, line) == IdentifierStep(src, i, line);
    }
  }

  /** A '.' read by a step without a report is a numeral's point: a digit follows it within the step. */
  lemma {:induction false} StepDotsArePoints(src: string, i: nat, line: nat)
    requires i < |src| && src[i] != '"'
    ensures var s := LexStep(src, i, line);
      s.error.None? ==> forall k :: i <= k < s.next && src[k] == '.' ==> k + 1 < s.next && IsDigit(src[k + 1])
  {
    if IsDigit(src[i]) {
      assert LexStep(src, i, line) == NumberStep(src, i, line);
    } else {
      StepReadsHandled(src, i, line);
    }
  }

  /** A character with no case that no token can absorb: anything unhandled but '.'. */
  predicate UnhandledNotDot(c: char) { Unhandled(c) && c != '.' }

  /** No '.' from i on is directly followed by a digit, so no numeral there has a fraction. */
  predicate NoFractions(src: string, i: nat)
  {
    forall k :: i <= k && k + 1 < |src| && src[k] == '.' ==> !IsDigit(src[k + 1])
  }

  /**
   * Errors do not abort the lexer. On a source without string literals,
   * every unhandled character other than '.' yields exactly one report, a
   * '.' yields one unless a numeral absorbs it as its point, and nothing
   * else is reported; so when no '.' is followed by a digit, the reports
   * number exactly the unhandled characters.
   */
  lemma {:induction false} ReportsCountUnhandled(src: string, current: nat, line: nat)
    requires current <= |src|
    requires forall k :: current <= k < |src| ==> src[k] != '"'
    ensures CountIn(src, current, |src|, UnhandledNotDot) <= |LexFrom(src, current, line).reports|
    ensures |LexFrom(src, current, line).reports| <= CountIn(src, current, |src|, Unhandled)
    ensures NoFractions(src, current) ==>
      |LexFrom(src, current, line).reports| == CountIn(src, current, |src|, Unhandled)
    decreases |src| - current
  {
    if current < |src| {
      var s := LexStep(src, current, line);
      StepReports(src, current, line);
      CountInSplit(src, current, s.next, |src|, Unhandled);
      CountInSplit(src, current, s.next, |src|, UnhandledNotDot);
      ReportsCountUnhandled(src, s.next, s.line);
    } else {
    }
  }

  /** The count of `ReportsCountUnhandled` for the characters one step reads. */
  lemma {:induction false} StepReports(src: string, i: nat, line: nat)
    requires i < |src| && src[i] != '"'
    ensures var s := LexStep(src, i, line);
      CountIn(src, i, s.next, UnhandledNotDot) <= |Reported(s)| <= CountIn(src, i, s.next, Unhandled) &&
      (NoFractions(src, i) ==> |Reported(s)| == CountIn(src, i, s.next, Unhandled))
  {
    var s := LexStep(src, i, line);
    StepReadsHandled(src, i, line);
    if s.error.Some? {
      CountInOne(src, i, Unhandled);
      CountInOne(src, i, UnhandledNotDot);
    } else {
      CountInNone(src, i, s.next, UnhandledNotDot);
      if NoFractions(src, i) {
        StepDotsArePoints(src, i, line);
        forall k | i <= k < s.next
          ensures Handled(src[k])
        {
          if src[k] == '.' {
            assert false;
          }
        }
        CountInNone(src, i, s.next, Unhandled);
      }
    }
  }

  lemma {:induction false} ReportsOnePerUnhandled(src: string)
    requires '"' !in src
    ensures CountIn(src, 0, |src|, UnhandledNotDot) <= |Lex(src).reports| <= CountIn(src, 0, |src|, Unhandled)
    ensures NoFractions(src, 0) ==> |Lex(src).reports| == CountIn(src, 0, |src|, Unhandled)
  {
    ReportsCountUnhandled(src, 0, 1);
  }

  // ---------------------------------------------------------------------
  // The lexer object
  // ---------------------------------------------------------------------

  class Lexer {
    const source: string
    var lines: nat
    var start: nat
    var current: nat
    var tokens: seq<Token<Kind>>
    /** What the lexer has written to `std::cerr`. */
    var reports: seq<Diagnostic>

    ghost predicate Valid()
      reads this
    {
      start <= current <= |source|
    }

    constructor (source: string)
      ensures Valid() && this.source == source
      ensures lines == 1 && start == 0 && current == 0 && tokens == [] && reports == []
    {
      this.source := source;
      lines, start, current, tokens, reports := 1, 0, 0, [], [];
    }

    predicate IsAtEnd()
      reads this
    {
      current >= |source|
    }

    function Peek(): char
      reads this
    {
      PeekAt(source, current)
    }

    function PeekNext(): char
      reads this
    {
      PeekAt(source, current + 1)
    }

    /** `advance` has no bounds check: every caller first tests `isAtEnd`. */
    method Advance() returns (c: char)
      requires Valid() && current < |source|
      modifies this`current
      ensures Valid()
      ensures c == source[old(current)] && current == old(current) + 1
    {
      current := current + 1;
      c := source[current - 1];
    }

    method Match(expected: char) returns (matched: bool)
      requires Valid()
      modifies this`current
      ensures Valid()
      ensures matched <==> old(current) < |source| && source[old(current)] == expected
      ensures current == if matched then old(current) + 1 else old(current)
    {
      if IsAtEnd() {
        return false;
      }
      if source[current] != expected {
        return false;
      }
      current := current + 1;
      matched := true;
    }

    method AddToken(kind: Kind, literal: Option<Value>)
      requires Valid()
      modifies this`tokens
      ensures tokens == old(tokens) + [Token(kind, source[start..current], literal, lines)]
    {
      tokens := tokens + [Token(kind, source[start..current], literal, lines)];
    }

    method AddOperator(one: Kind, two: Kind)
      requires Valid() && start < |source| && current == start + 1 && IsOperatorChar(source[start])
      modifies this`current, this`tokens
      ensures Valid()
      ensures var s := OperatorStep(source, start, lines, one, two);
        current == s.next && tokens == old(tokens) + s.emitted
    {
      var m := Match('=');
      AddToken(if m then two else one, None);
    }

    method String()
      requires Valid() && start < |source| && current == start + 1 && source[start] == '"'
      modifies this`current, this`lines, this`tokens, this`reports
      ensures Valid()
      ensures var s := StringStep(source, start, old(lines));
        current == s.next && lines == s.line && tokens == old(tokens) + s.emitted &&
        reports == old(reports) + Reported(s)
    {
      SkipToQuote();
      ghost var s := StringStep(source, start, old(lines));
      assert s.line == lines;
      if IsAtEnd() {
        reports := reports + [Diagnostic(lines, UnterminatedString)];
        return;
      }
      var _ := Advance();
      AddToken(STRING, Some(Str(source[start + 1..current - 1])));
    }

    /** The loop of `string()`: up to the closing quote or the end, counting newlines. */
    method SkipToQuote()
      requires Valid()
      modifies this`current, this`lines
      ensures Valid() && current == QuoteEnd(source, old(current))
      ensures lines == old(lines) + Newlines(source, old(current), current)
    {
      while !IsAtEnd() && Peek() != '"'
        invariant Valid() && old(current) <= current
        invariant QuoteEnd(source, current) == QuoteEnd(source, old(current))
        invariant lines == old(lines) + Newlines(source, old(current), current)
        decreases |source| - current
      {
        if Peek() == '\n' {
          lines := lines + 1;
        }
        var _ := Advance();
      }
    }

    /** The `while (isdigit(peek())) advance();` loop of `number()`. */
    method SkipDigits()
      requires Valid()
      modifies this`current
      ensures Valid() && current == RunEnd(source, old(current), Digits)
    {
      while IsDigit(Peek())
        invariant Valid() && old(current) <= current
        invariant RunEnd(source, current, Digits) == RunEnd(source, old(current), Digits)
        decreases |source| - current
      {
        var _ := Advance();
      }
    }

    method Number()
      requires Valid() && start < |source| && current == start + 1 && IsDigit(source[start])
      modifies this`current, this`tokens
      ensures Valid()
      ensures var s := NumberStep(source, start, lines);
        current == s.next && tokens == old(tokens) + s.emitted
    {
      SkipNumeral();
      AddToken(NUMBER, Some(Num(DecodeNumber(source[start..current]))));
    }

    /** The loops of `number()`: the digit run, then '.' and a second run only when a digit follows the '.'. */
    method SkipNumeral()
      requires Valid()
      modifies this`current
      ensures Valid() && current == NumberEnd(source, old(current))
    {
      SkipDigits();
      if Peek() == '.' && IsDigit(PeekNext()) {
        var _ := Advance();
        SkipDigits();
      }
    }

    method Identifier()
      requires Valid() && start < |source| && current == start + 1 && IsAlpha(source[start])
      modifies this`current, this`tokens
      ensures Valid()
      ensures var s := IdentifierStep(source, start, lines);
        current == s.next && tokens == old(tokens) + s.emitted
    {
      ghost var k := RunEnd(source, start + 1, Alnum);
      while IsAlpha(Peek()) || IsDigit(Peek())
        invariant Valid() && start < current <= k
        invariant RunEnd(source, current, Alnum) == k
        invariant tokens == old(tokens)
        decreases |source| - current
      {
        var _ := Advance();
      }
      assert current == k;
      var value := source[start..current];
      var kind := IDENTIFIER;
      if value in Keywords {
        kind := Keywords[value];
      }
      assert kind == KeywordOr(value);
      AddToken(kind, None);
    }

    /**
     * `scan_token`: the `switch` on the character read, with its cases in
     * groups: the single-character tokens, the operators that may take a
     * '=', newline, blank, string, and the default branch (digit, letter,
     * report).
     */
    method ScanToken()
      requires Valid() && start == current < |source|
      modifies this`current, this`lines, this`tokens, this`reports
      ensures Valid()
      ensures var s := LexStep(source, old(current), old(lines));
        current == s.next && lines == s.line && tokens == old(tokens) + s.emitted &&
        reports == old(reports) + Reported(s)
    {
      var ch := Advance();
      if IsSingle(ch) {
        AddToken(SingleKind(ch), None);
      } else if IsOperatorChar(ch) {
        AddOperator(OperatorKind(ch, false), OperatorKind(ch, true));
      } else if ch == '\n' {
        lines := lines + 1;
      } else if ch == ' ' {
      } else if ch == '"' {
        String();
      } else if IsDigit(ch) {
        Number();
      } else if IsAlpha(ch) {
        Identifier();
      } else {
        reports := reports + [Diagnostic(lines, UnexpectedCharacter)];
      }
    }

    /** `scan_tokens`: the loop of `LexFrom`; reports never stop it. */
    method ScanTokens() returns (r: seq<Token<Kind>>)
      requires Valid()
      modifies this`start, this`current, this`lines, this`tokens, this`reports
      ensures Valid()
      ensures var out := LexFrom(source, old(current), old(lines));
        r == tokens == old(tokens) + out.tokens && reports == old(reports) + out.reports
    {
      while !IsAtEnd()
        invariant Valid()
        invariant tokens + LexFrom(source, current, lines).tokens
          == old(tokens) + LexFrom(source, old(current), old(lines)).tokens
        invariant reports + LexFrom(source, current, lines).reports
          == old(reports) + LexFrom(source, old(current), old(lines)).reports
        decreases |source| - current
      {
        start := current;
        ghost var t0, r0 := tokens, reports;
        LexFromStep(source, current, lines);
        ghost var s := LexStep(source, current, lines);
        ScanToken();
        AppendShift(t0, s.emitted, LexFrom(source, current, lines).tokens);
        AppendShift(r0, Reported(s), LexFrom(source, current, lines).reports);
      }
      assert reports + [] == reports;
      tokens := tokens + [Token(EOF_TOKEN, EofLexeme, None, lines)];
      r := tokens;
    }
  }

  /** What a caller gets from `lexer(source).scan_tokens()`, with the reports written. */
  method Tokenize(source: string) returns (r: Output)
    ensures r == Lex(source)
  {
    var l := new Lexer(source);
    var toks := l.ScanTokens();
    r := Output(toks, l.reports);
  }
}
