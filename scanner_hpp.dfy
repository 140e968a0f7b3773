/**
 * The fail-fast character-cursor scanner of scanner.hpp (class `scanner`).
 *
 * `ScanStep` and `ScanFrom` specify one call of `scan_token` and the whole
 * `scan_tokens` loop; the class `Scanner` keeps the source's cursor fields
 * and is proved to follow them. A thrown `std::runtime_error` is an error
 * result that ends the scan.
 */
module ScannerHpp {
  import opened Wrappers
  import opened Values
  import opened Lexical

  datatype Kind =
    | LEFT_PAREN | RIGHT_PAREN | LEFT_BRACE | RIGHT_BRACE
    | COMMA | DOT | SUB | ADD | SEMICOLON | DIV | MUL
    | NOT | NOT_EQUAL | EQUAL | EQUAL_EQUAL
    | GREATER | GREATER_EQUAL | LESS | LESS_EQUAL
    | IDENTIFIER | STRING | NUMBER
    | AND | CLASS | ELSE | FALSE | FUN | FOR | IF | NIL | OR
    | PRINT | RETURN | SUPER | THIS | TRUE | VAR | WHILE
    | EOF_TOKEN

  /** The keyword table (14 words; `class` and `super` are not in it). */
  const Keywords: map<string, Kind> := map[
    "and" := AND, "else" := ELSE, "false" := FALSE, "for" := FOR,
    "fun" := FUN, "if" := IF, "nil" := NIL, "or" := OR,
    "print" := PRINT, "return" := RETURN, "this" := THIS, "true" := TRUE,
    "var" := VAR, "while" := WHILE]

  const UnexpectedCharacter := "SYNTAX ERROR : Unexpected character"
  const UnterminatedString := "SYNTAX ERROR : Unterminated string"

  /** The kind an identifier-shaped lexeme gets: its table entry, else IDENTIFIER. */
  function KeywordOr(text: string): (k: Kind)
    ensures text in Keywords ==> k == Keywords[text]
    ensures text !in Keywords ==> k == IDENTIFIER
    ensures k != EOF_TOKEN
  {
    if text in Keywords then Keywords[text] else IDENTIFIER
  }

  /** The characters `scan_token` has a case for (a string opens with '"'). */
  predicate Handled(c: char)
  {
    || c == '(' || c == ')' || c == '{' || c == '}' || c == ',' || c == '.'
    || c == '-' || c == '+' || c == '*' || c == '/' || c == ';'
    || c == '!' || c == '=' || c == '<' || c == '>'
    || c == ' ' || c == '\r' || c == '\t' || c == '\n' || c == '"'
    || IsDigit(c) || IsAlpha(c) || c == '_'
  }

  predicate Unhandled(c: char) { !Handled(c) }

  /** `string()`: runs to the closing quote, counting newlines; throws at end of input. */
  function StringStep(src: string, start: nat, line: nat): (r: Step<Kind>)
    requires start < |src| && src[start] == '"'
    ensures start < r.next <= |src| && r.line == line + Newlines(src, start, r.next)
    ensures QuoteEnd(src, start + 1) == |src| ==>
      r.error == Some(Diagnostic(r.line, UnterminatedString)) && r.emitted == []
    ensures var j := QuoteEnd(src, start + 1);
      j < |src| ==>
        r.error.None? && r.next == j + 1 &&
        r.emitted == [Token(STRING, src[start..j + 1], Some(Str(src[start + 1..j])), r.line)]
  {
    var j := QuoteEnd(src, start + 1);
    var l := line + Newlines(src, start + 1, j);
    CountInSplit(src, start, start + 1, j, IsNewline);
    if j == |src| then
      Step(j, l, [], Some(Diagnostic(l, UnterminatedString)))
    else
      CountInSplit(src, start, j, j + 1, IsNewline);
      Step(j + 1, l, [Token(STRING, src[start..j + 1], Some(Str(src[start + 1..j])), l)], None)
  }

  /** `number()`: the literal is the decoded numeral. */
  function NumberStep(src: string, start: nat, line: nat): (r: Step<Kind>)
    requires start < |src| && IsDigit(src[start])
    ensures start < r.next <= |src| && r.line == line + Newlines(src, start, r.next)
    ensures forall k :: start <= k < r.next ==> IsDigit(src[k]) || src[k] == '.'
  {
    var j := NumberEnd(src, start + 1);
    var text := src[start..j];
    CountInNone(src, start, j, IsNewline);
    Step(j, line, [Token(NUMBER, text, Some(Num(DecodeNumber(text))), line)], None)
  }

  /** `identifier()`: a maximal run of alphanumerics and '_', then the table lookup. */
  function IdentifierStep(src: string, start: nat, line: nat): (r: Step<Kind>)
    requires start < |src| && (IsAlpha(src[start]) || src[start] == '_')
    ensures start < r.next <= |src| && r.line == line + Newlines(src, start, r.next)
    ensures forall k :: start <= k < r.next ==> InClass(src[k], Word)
  {
    var j := RunEnd(src, start + 1, Word);
    CountInNone(src, start, j, IsNewline);
    Step(j, line, [Token(KeywordOr(src[start..j]), src[start..j], None, line)], None)
  }

  /** One call of `scan_token` with the cursor at `start`. */
  function ScanStep(src: string, start: nat, line: nat): (r: Step<Kind>)
    requires start < |src|
    ensures start < r.next <= |src|
    ensures r.line == line + Newlines(src, start, r.next)
    ensures r.error.Some? ==> r.emitted == []
    ensures |r.emitted| <= 1
    ensures r.emitted != [] ==> r.emitted[0].kind != EOF_TOKEN && r.emitted[0].line == r.line
  {
    var c := src[start];
    CountInOne(src, start, IsNewline);
    match c
    case '(' => EmitStep(src, start, start + 1, LEFT_PAREN, line)
    case '{' => EmitStep(src, start, start + 1, LEFT_BRACE, line)
    case ')' => EmitStep(src, start, start + 1, RIGHT_PAREN, line)
    case '}' => EmitStep(src, start, start + 1, RIGHT_BRACE, line)
    case ',' => EmitStep(src, start, start + 1, COMMA, line)
    case '.' => EmitStep(src, start, start + 1, DOT, line)
    case '-' => EmitStep(src, start, start + 1, SUB, line)
    case '+' => EmitStep(src, start, start + 1, ADD, line)
    case '*' => EmitStep(src, start, start + 1, MUL, line)
    case '/' => EmitStep(src, start, start + 1, DIV, line)
    case ';' => EmitStep(src, start, start + 1, SEMICOLON, line)
    case '!' => OperatorStep(src, start, line, NOT, NOT_EQUAL)
    case '=' => OperatorStep(src, start, line, EQUAL, EQUAL_EQUAL)
    case '<' => OperatorStep(src, start, line, LESS, LESS_EQUAL)
    case '>' => OperatorStep(src, start, line, GREATER, GREATER_EQUAL)
    case ' ' => Step(start + 1, line, [], None)
    case '\r' => Step(start + 1, line, [], None)
    case '\t' => Step(start + 1, line, [], None)
    case '\n' => Step(start + 1, line + 1, [], None)
    case '"' => StringStep(src, start, line)
    case _ =>
      if IsDigit(c) then NumberStep(src, start, line)
      else if IsAlpha(c) || c == '_' then IdentifierStep(src, start, line)
      else
        Step(start + 1, line, [], Some(Diagnostic(line, UnexpectedCharacter)))
  }

  /** A token list put in front of a scan's result; an error stays as it is. */
  function Prepend(acc: seq<Token<Kind>>, r: Result<seq<Token<Kind>>, Diagnostic>): Result<seq<Token<Kind>>, Diagnostic>
  {
    if r.Success? then Success(acc + r.value) else r
  }

  lemma PrependNothing(r: Result<seq<Token<Kind>>, Diagnostic>)
    ensures Prepend([], r) == r
  {
    if r.Success? {
      assert [] + r.value == r.value;
    }
  }

  /**
   * What the `scan_tokens` loop adds from cursor `current` on: it stops at
   * the first error, and the EOF token closes the list.
   */
  function ScanFrom(src: string, current: nat, line: nat): (r: Result<seq<Token<Kind>>, Diagnostic>)
    requires current <= |src|
    ensures r.Success? ==> |r.value| > 0
    ensures r.Success? ==> r.value[|r.value| - 1] == Token(EOF_TOKEN, "", None, line + Newlines(src, current, |src|))
    ensures r.Success? ==> forall k :: 0 <= k < |r.value| - 1 ==> r.value[k].kind != EOF_TOKEN
    decreases |src| - current
  {
    if current >= |src| then
      Success([Token(EOF_TOKEN, "", None, line)])
    else
      var s := ScanStep(src, current, line);
      if s.error.Some? then Failure(s.error.value)
      else
        StepLines(src, current, line);
        Prepend(s.emitted, ScanFrom(src, s.next, s.line))
  }

  /** One turn of the `scan_tokens` loop: an error ends the scan, otherwise the step's tokens come first. */
  lemma {:induction false} ScanFromStep(src: string, current: nat, line: nat)
    requires current < |src|
    ensures var s := ScanStep(src, current, line);
      ScanFrom(src, current, line) ==
        if s.error.Some? then Failure(s.error.value) else Prepend(s.emitted, ScanFrom(src, s.next, s.line))
  {
  }

  lemma AppendShift<T>(a: seq<T>, b: seq<T>, c: seq<T>)
    ensures a + (b + c) == (a + b) + c
  {
  }

  /** The line count after a step plus the newlines still ahead is the final line count. */
  lemma {:induction false} StepLines(src: string, current: nat, line: nat)
    requires current < |src|
    ensures ScanStep(src, current, line).line + Newlines(src, ScanStep(src, current, line).next, |src|)
      == line + Newlines(src, current, |src|)
  {
    var s := ScanStep(src, current, line);
    CountInSplit(src, current, s.next, |src|, IsNewline);
  }

  /** The whole scan of a fresh scanner. */
  function Scan(src: string): Result<seq<Token<Kind>>, Diagnostic>
  {
    ScanFrom(src, 0, 1)
  }

  // ---------------------------------------------------------------------
  // Properties of the specification
  // ---------------------------------------------------------------------

  /**
   * A successful scan ends with exactly one EOF token, with an empty lexeme,
   * no literal, and the final line count: one more than the number of
   * newlines read, those inside string literals included.
   */
  lemma {:induction false} ScanEndsWithEof(src: string)
    ensures var r := Scan(src);
      r.Success? ==>
        |r.value| > 0 &&
        r.value[|r.value| - 1] == Token(EOF_TOKEN, "", None, 1 + Newlines(src, 0, |src|)) &&
        forall k :: 0 <= k < |r.value| - 1 ==> r.value[k].kind != EOF_TOKEN
  {
  }

  /** '!=', '==', '<=' and '>=' scan as one token; '!', '=', '<', '>' alone otherwise. */
  lemma {:induction false} TwoCharacterOperators(src: string, i: nat, line: nat)
    requires i < |src| && IsOperatorChar(src[i])
    ensures var r := ScanStep(src, i, line);
      var two := i + 1 < |src| && src[i + 1] == '=';
      r.error.None? && r.line == line && |r.emitted| == 1 &&
      r.next == (if two then i + 2 else i + 1) &&
      r.emitted[0].lexeme == src[i..r.next] &&
      r.emitted[0].kind ==
        match src[i]
        case '!' => if two then NOT_EQUAL else NOT
        case '=' => if two then EQUAL_EQUAL else EQUAL
        case '<' => if two then LESS_EQUAL else LESS
        case _ => if two then GREATER_EQUAL else GREATER
  {
  }

  /**
   * A string literal's token has the quotes in its lexeme and the text
   * strictly between them as its literal; without a closing quote the scan
   * raises an error instead.
   */
  lemma {:induction false} StringLiteral(src: string, i: nat, line: nat)
    requires i < |src| && src[i] == '"'
    ensures var r := ScanStep(src, i, line);
      QuoteEnd(src, i + 1) == |src| ==>
        r.error == Some(Diagnostic(r.line, UnterminatedString)) && r.emitted == []
    ensures var r := ScanStep(src, i, line);
      var j := QuoteEnd(src, i + 1);
      j < |src| ==>
        r.error.None? && r.next == j + 1 &&
        r.emitted == [Token(STRING, src[i..j + 1], Some(Str(src[i + 1..j])), r.line)] &&
        '"' !in src[i + 1..j]
  {
    assert ScanStep(src, i, line) == StringStep(src, i, line);
  }

  /**
   * A number token is a maximal numeral: a digit run, with a fraction only
   * when a digit follows the '.'.
   */
  lemma {:induction false} NumberLiteral(src: string, i: nat, line: nat)
    requires i < |src| && IsDigit(src[i])
    ensures var r := ScanStep(src, i, line);
      r.error.None? && |r.emitted| == 1 &&
      var t := r.emitted[0];
      t.kind == NUMBER && t.lexeme == src[i..r.next] && IsNumeral(t.lexeme) &&
      t.literal == Some(Num(DecodeNumber(t.lexeme))) &&
      (r.next == |src| || !IsDigit(src[r.next]))
  {
    NumberLexeme(src, i);
  }

  /**
   * An identifier starts with a letter or '_' and is the maximal run of
   * letters, digits and '_'; it is a keyword exactly when the table holds it.
   */
  lemma {:induction false} IdentifierOrKeyword(src: string, i: nat, line: nat)
    requires i < |src| && (IsAlpha(src[i]) || src[i] == '_')
    ensures var r := ScanStep(src, i, line);
      r.error.None? && |r.emitted| == 1 &&
      var t := r.emitted[0];
      t.lexeme == src[i..r.next] &&
      (forall k :: i <= k < r.next ==> InClass(src[k], Word)) &&
      (r.next == |src| || !InClass(src[r.next], Word)) &&
      (t.lexeme in Keywords ==> t.kind == Keywords[t.lexeme]) &&
      (t.lexeme !in Keywords ==> t.kind == IDENTIFIER)
  {
  }

  /** Outside string literals a successful step reads only handled characters; a failing one stops on the first unhandled one. */
  lemma {:induction false} StepReadsHandled(src: string, i: nat, line: nat)
    requires i < |src| && src[i] != '"'
    ensures ScanStep(src, i, line).error.None? ==>
      forall k :: i <= k < ScanStep(src, i, line).next ==> Handled(src[k])
    ensures ScanStep(src, i, line).error.Some? ==>
      ScanStep(src, i, line).next == i + 1 && Unhandled(src[i])
  {
    var c := src[i];
    if IsDigit(c) {
      assert ScanStep(src, i, line) == NumberStep(src, i, line);
    } else if IsAlpha(c) || c == '_' {
      assert ScanStep(src, i, line) == IdentifierStep(src, i, line);
    }
  }

  /**
   * Fail-fast: for a source without string literals, the scan succeeds
   * exactly when every character has a case in `scan_token`; one unexpected
   * character anywhere makes the whole scan fail.
   */
  lemma {:induction false} ScanFromFailsIff(src: string, current: nat, line: nat)
    requires current <= |src|
    requires forall k :: current <= k < |src| ==> src[k] != '"'
    ensures ScanFrom(src, current, line).Success? <==> CountIn(src, current, |src|, Unhandled) == 0
    decreases |src| - current
  {
    if current < |src| {
      var s := ScanStep(src, current, line);
      StepReadsHandled(src, current, line);
      if s.error.Some? {
        CountInSplit(src, current, current + 1, |src|, Unhandled);
      } else {
        CountInSplit(src, current, s.next, |src|, Unhandled);
        CountInNone(src, current, s.next, Unhandled);
        ScanFromFailsIff(src, s.next, s.line);
      }
    } else {
    }
  }

  lemma {:induction false} ScanFailsFast(src: string)
    requires '"' !in src
    ensures Scan(src).Success? <==> CountIn(src, 0, |src|, Unhandled) == 0
  {
    ScanFromFailsIff(src, 0, 1);
  }

  // ---------------------------------------------------------------------
  // The scanner object
  // ---------------------------------------------------------------------

  class Scanner {
    const source: string
    var start: nat
    var current: nat
    var line: nat
    var tokens: seq<Token<Kind>>

    /** The cursor never passes the end: `advance`, `peek` and `peek_next` guard every read. */
    ghost predicate Valid()
      reads this
    {
      start <= current <= |source|
    }

    constructor (source: string)
      ensures Valid() && this.source == source
      ensures start == 0 && current == 0 && line == 1 && tokens == []
    {
      this.source := source;
      start, current, line, tokens := 0, 0, 1, [];
    }

    predicate IsAtEnd()
      reads this
    {
      current >= |source|
    }

    function Peek(): char
      reads this
    {
      PeekAt(source, current)
    }

    function PeekNext(): char
      reads this
    {
      PeekAt(source, current + 1)
    }

    /** Consumes one character; at the end it returns '\0' and does not move. */
    method Advance() returns (c: char)
      requires Valid()
      modifies this`current
      ensures Valid()
      ensures c == PeekAt(source, old(current))
      ensures current == if old(current) < |source| then old(current) + 1 else old(current)
    {
      if IsAtEnd() {
        return '\0';
      }
      c := source[current];
      current := current + 1;
    }

    /** Consumes the next character only when it is the expected one. */
    method Match(expected: char) returns (matched: bool)
      requires Valid()
      modifies this`current
      ensures Valid()
      ensures matched <==> old(current) < |source| && source[old(current)] == expected
      ensures current == if matched then old(current) + 1 else old(current)
    {
      if IsAtEnd() {
        return false;
      }
      if source[current] != expected {
        return false;
      }
      current := current + 1;
      matched := true;
    }

    method AddToken(kind: Kind, literal: Option<Value>)
      requires Valid()
      modifies this`tokens
      ensures tokens == old(tokens) + [Token(kind, source[start..current], literal, line)]
    {
      tokens := tokens + [Token(kind, source[start..current], literal, line)];
    }

    method String() returns (err: Option<Diagnostic>)
      requires Valid() && start < |source| && current == start + 1 && source[start] == '"'
      modifies this`current, this`line, this`tokens
      ensures Valid()
      ensures var s := StringStep(source, start, old(line));
        current == s.next && line == s.line && tokens == old(tokens) + s.emitted && err == s.error
    {
      SkipToQuote();
      ghost var s := StringStep(source, start, old(line));
      assert s.line == line;
      if IsAtEnd() {
        return Some(Diagnostic(line, UnterminatedString));
      }
      var _ := Advance();
      AddToken(STRING, Some(Str(source[start + 1..current - 1])));
      err := None;
    }

    /** The loop of `string()`: up to the closing quote or the end, counting newlines. */
    method SkipToQuote()
      requires Valid()
      modifies this`current, this`line
      ensures Valid() && current == QuoteEnd(source, old(current))
      ensures line == old(line) + Newlines(source, old(current), current)
    {
      while Peek() != '"' && !IsAtEnd()
        invariant Valid() && old(current) <= current
        invariant QuoteEnd(source, current) == QuoteEnd(source, old(current))
        invariant line == old(line) + Newlines(source, old(current), current)
        decreases |source| - current
      {
        if Peek() == '\n' {
          line := line + 1;
        }
        var _ := Advance();
      }
    }

    method Number()
      requires Valid() && start < |source| && current == start + 1 && IsDigit(source[start])
      modifies this`current, this`tokens
      ensures Valid()
      ensures var s := NumberStep(source, start, line);
        current == s.next && tokens == old(tokens) + s.emitted
    {
      SkipNumeral();
      AddToken(NUMBER, Some(Num(DecodeNumber(source[start..current]))));
    }

    /** The loops of `number()`: the digit run, then '.' and a second run only when a digit follows the '.'. */
    method SkipNumeral()
      requires Valid()
      modifies this`current
      ensures Valid() && current == NumberEnd(source, old(current))
    {
      SkipDigits();
      if Peek() == '.' && IsDigit(PeekNext()) {
        var _ := Advance();
        SkipDigits();
      }
    }

    /** The `while (is_digit(peek())) advance();` loop of `number()`. */
    method SkipDigits()
      requires Valid()
      modifies this`current
      ensures Valid() && current == RunEnd(source, old(current), Digits)
    {
      while IsDigit(Peek())
        invariant Valid() && old(current) <= current
        invariant RunEnd(source, current, Digits) == RunEnd(source, old(current), Digits)
        decreases |source| - current
      {
        var _ := Advance();
      }
    }

    method Identifier()
      requires Valid() && start < |source| && current == start + 1
      requires IsAlpha(source[start]) || source[start] == '_'
      modifies this`current, this`tokens
      ensures Valid()
      ensures var s := IdentifierStep(source, start, line);
        current == s.next && tokens == old(tokens) + s.emitted
    {
      ghost var k := RunEnd(source, start + 1, Word);
      while IsAlpha(Peek()) || IsDigit(Peek()) || Peek() == '_'
        invariant Valid() && start < current <= k
        invariant RunEnd(source, current, Word) == k
        invariant tokens == old(tokens)
        decreases |source| - current
      {
        var _ := Advance();
      }
      assert current == k;
      var text := source[start..current];
      var kind := IDENTIFIER;
      if text in Keywords {
        kind := Keywords[text];
      }
      assert kind == KeywordOr(text);
      AddToken(kind, None);
    }

    /** The `match('=') ? two : one` cases of `scan_token`. */
    method AddOperator(one: Kind, two: Kind)
      requires Valid() && start < |source| && current == start + 1 && IsOperatorChar(source[start])
      modifies this`current, this`tokens
      ensures Valid()
      ensures var s := OperatorStep(source, start, line, one, two);
        current == s.next && line == s.line && tokens == old(tokens) + s.emitted
    {
      var m := Match('=');
      AddToken(if m then two else one, None);
    }

    method ScanToken() returns (err: Option<Diagnostic>)
      requires Valid() && start == current < |source|
      modifies this`current, this`line, this`tokens
      ensures Valid()
      ensures var s := ScanStep(source, old(current), old(line));
        current == s.next && line == s.line && tokens == old(tokens) + s.emitted && err == s.error
    {
      err := None;
      var c := Advance();
      match c
      case '(' => AddToken(LEFT_PAREN, None);
      case '{' => AddToken(LEFT_BRACE, None);
      case ')' => AddToken(RIGHT_PAREN, None);
      case '}' => AddToken(RIGHT_BRACE, None);
      case ',' => AddToken(COMMA, None);
      case '.' => AddToken(DOT, None);
      case '-' => AddToken(SUB, None);
      case '+' => AddToken(ADD, None);
      case '*' => AddToken(MUL, None);
      case '/' => AddToken(DIV, None);
      case ';' => AddToken(SEMICOLON, None);
      case '!' => AddOperator(NOT, NOT_EQUAL);
      case '=' => AddOperator(EQUAL, EQUAL_EQUAL);
      case '<' => AddOperator(LESS, LESS_EQUAL);
      case '>' => AddOperator(GREATER, GREATER_EQUAL);
      case ' ' =>
      case '\r' =>
      case '\t' =>
      case '\n' => line := line + 1;
      case '"' => err := String();
      case _ =>
        if IsDigit(c) {
          Number();
        } else if IsAlpha(c) || c == '_' {
          Identifier();
        } else {
          err := Some(Diagnostic(line, UnexpectedCharacter));
        }
    }

    /** `scan_tokens`: the loop of `ScanFrom`, stopping at the first thrown error. */
    method ScanTokens() returns (r: Result<seq<Token<Kind>>, Diagnostic>)
      requires Valid()
      modifies this`start, this`current, this`line, this`tokens
      ensures Valid()
      ensures r == Prepend(old(tokens), ScanFrom(source, old(current), old(line)))
      ensures r.Success? ==> tokens == r.value
    {
      while !IsAtEnd()
        invariant Valid()
        invariant Prepend(tokens, ScanFrom(source, current, line))
          == Prepend(old(tokens), ScanFrom(source, old(current), old(line)))
        decreases |source| - current
      {
        start := current;
        ghost var t0 := tokens;
        ScanFromStep(source, current, line);
        ghost var s := ScanStep(source, current, line);
        var err := ScanToken();
        if err.Some? {
          return Failure(err.value);
        }
        if ScanFrom(source, current, line).Success? {
          AppendShift(t0, s.emitted, ScanFrom(source, current, line).value);
        }
      }
      tokens := tokens + [Token(EOF_TOKEN, "", None, line)];
      r := Success(tokens);
    }
  }

  /** What a caller gets from `scanner(source).scan_tokens()`. */
  method Tokenize(source: string) returns (r: Result<seq<Token<Kind>>, Diagnostic>)
    ensures r == Scan(source)
  {
    var s := new Scanner(source);
    r := s.ScanTokens();
    PrependNothing(Scan(source));
  }
}
