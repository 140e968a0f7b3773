/**
 * Vocabulary shared by the three scanners: tokens, diagnostics, character
 * classes as the C library (`<cctype>`, "C" locale) and the Java drafts
 * define them, maximal runs, and the decoding of numeric literals.
 */
module Lexical {
  import opened Wrappers
  import opened Values

  /** A token; `K` is the token-kind enumeration of the draft that produced it. */
  datatype Token<K> = Token(kind: K, lexeme: string, literal: Option<Value>, line: nat)

  /** A reported error: the line it is tagged with and its message. */
  datatype Diagnostic = Diagnostic(line: nat, message: string)

  /**
   * What one call of a scanner's `scan_token` does: where the cursor ends,
   * the line counter afterwards, the tokens it appends (none or one) and the
   * error it raises or reports, if any.
   */
  datatype Step<K> = Step(next: nat, line: nat, emitted: seq<Token<K>>, error: Option<Diagnostic>)

  predicate IsDigit(c: char) { '0' <= c <= '9' }

  predicate IsAlpha(c: char) { 'a' <= c <= 'z' || 'A' <= c <= 'Z' }

  predicate IsNewline(c: char) { c == '\n' }

  /** The characters that start a one- or two-character operator: `!`, `=`, `<`, `>`. */
  predicate IsOperatorChar(c: char) { c == '!' || c == '=' || c == '<' || c == '>' }

  /** The character classes the scanners' run loops test. */
  datatype CharClass =
    | Digits            // isdigit
    | Alnum             // isalpha || isdigit
    | Word              // isalnum || '_'

  predicate InClass(c: char, cls: CharClass)
  {
    match cls
    case Digits => IsDigit(c)
    case Alnum => IsAlpha(c) || IsDigit(c)
    case Word => IsAlpha(c) || IsDigit(c) || c == '_'
  }

  /** `peek` at index i: the character there, or '\0' past the end. */
  function PeekAt(s: string, i: nat): char
  {
    if i < |s| then s[i] else '\0'
  }

  /** End of the maximal run of `cls` characters that starts at i. */
  function RunEnd(s: string, i: nat, cls: CharClass): (j: nat)
    requires i <= |s|
    ensures i <= j <= |s|
    ensures forall k :: i <= k < j ==> InClass(s[k], cls)
    ensures j == |s| || !InClass(s[j], cls)
    decreases |s| - i
  {
    if i < |s| && InClass(s[i], cls) then RunEnd(s, i + 1, cls) else i
  }

  /** Index of the first '"' at or after i, or |s| when there is none. */
  function QuoteEnd(s: string, i: nat): (j: nat)
    requires i <= |s|
    ensures i <= j <= |s|
    ensures forall k :: i <= k < j ==> s[k] != '"'
    ensures j < |s| ==> s[j] == '"'
    decreases |s| - i
  {
    if i < |s| && s[i] != '"' then QuoteEnd(s, i + 1) else i
  }

  /**
   * Where a numeric literal whose first digit has just been consumed ends:
   * the rest of the digit run, then a '.' and a second digit run only when
   * a digit follows the '.'.
   */
  function NumberEnd(s: string, i: nat): (j: nat)
    requires i <= |s|
    ensures i <= j <= |s|
    ensures forall m :: i <= m < j ==> IsDigit(s[m]) || s[m] == '.'
    ensures j == |s| || !IsDigit(s[j])
    ensures forall m :: i <= m < j && s[m] == '.' ==> m + 1 < j && IsDigit(s[m + 1])
  {
    var k := RunEnd(s, i, Digits);
    if PeekAt(s, k) == '.' && IsDigit(PeekAt(s, k + 1)) then RunEnd(s, k + 1, Digits) else k
  }

  /** Number of positions m with i <= m < j whose character satisfies p. */
  function CountIn(s: string, i: nat, j: nat, p: char -> bool): nat
    requires i <= j <= |s|
    decreases j - i
  {
    if i == j then 0 else CountIn(s, i, j - 1, p) + (if p(s[j - 1]) then 1 else 0)
  }

  /** Number of newlines in s[i..j]. */
  function Newlines(s: string, i: nat, j: nat): nat
    requires i <= j <= |s|
  {
    CountIn(s, i, j, IsNewline)
  }

  /** Counting over adjacent ranges adds up. */
  lemma {:induction false} CountInSplit(s: string, i: nat, j: nat, k: nat, p: char -> bool)
    requires i <= j <= k <= |s|
    ensures CountIn(s, i, k, p) == CountIn(s, i, j, p) + CountIn(s, j, k, p)
    decreases k - j
  {
    if j < k {
      CountInSplit(s, i, j, k - 1, p);
    }
  }

  lemma {:induction false} CountInOne(s: string, i: nat, p: char -> bool)
    requires i < |s|
    ensures CountIn(s, i, i + 1, p) == if p(s[i]) then 1 else 0
  {
  }

  lemma {:induction false} CountInNone(s: string, i: nat, j: nat, p: char -> bool)
    requires i <= j <= |s|
    requires forall m :: i <= m < j ==> !p(s[m])
    ensures CountIn(s, i, j, p) == 0
    decreases j - i
  {
    if i < j {
      CountInNone(s, i, j - 1, p);
    }
  }

  // ---------------------------------------------------------------------
  // Token-producing steps shared by the two C++ scanners
  // ---------------------------------------------------------------------

  /** `add_token`: one token spanning src[start..end], with no literal, on the current line. */
  function EmitStep<K>(src: string, start: nat, end: nat, kind: K, line: nat): (r: Step<K>)
    requires start < end <= |src|
    requires forall k :: start <= k < end ==> src[k] != '\n'
    ensures r.next == end && r.line == line + Newlines(src, start, end)
    ensures r.error.None? && r.emitted == [Token(kind, src[start..end], None, line)]
  {
    CountInNone(src, start, end, IsNewline);
    Step(end, line, [Token(kind, src[start..end], None, line)], None)
  }

  /**
   * A one- or two-character operator: the second character is taken exactly
   * when it is '=', and the token is then of kind `two`, otherwise `one`.
   */
  function OperatorStep<K>(src: string, start: nat, line: nat, one: K, two: K): (r: Step<K>)
    requires start < |src| && IsOperatorChar(src[start])
    ensures r.next == start + 1 || r.next == start + 2
    ensures r.next <= |src| && r.line == line
    ensures (r.next == start + 2) == (start + 1 < |src| && src[start + 1] == '=')
    ensures r.error.None? &&
      r.emitted == [Token(if r.next == start + 2 then two else one, src[start..r.next], None, line)]
  {
    if PeekAt(src, start + 1) == '=' then EmitStep(src, start, start + 2, two, line)
    else EmitStep(src, start, start + 1, one, line)
  }

  // ---------------------------------------------------------------------
  // Numeric literals: `std::stod` / `Double.parseDouble` on a digit run
  // with an optional fraction, decoded exactly.
  // ---------------------------------------------------------------------

  predicate AllDigits(t: string)
  {
    forall k :: 0 <= k < |t| ==> IsDigit(t[k])
  }

  /** Index of the first '.' in t, or |t|. */
  function DotIndex(t: string): (r: nat)
    ensures r <= |t|
  {
    if t == [] then 0 else if t[0] == '.' then 0 else 1 + DotIndex(t[1..])
  }

  /** DotIndex finds the first '.'. */
  lemma {:induction false} DotIndexFirst(t: string)
    ensures forall m :: 0 <= m < DotIndex(t) ==> t[m] != '.'
    ensures DotIndex(t) < |t| ==> t[DotIndex(t)] == '.'
  {
    if t != [] && t[0] != '.' {
      DotIndexFirst(t[1..]);
    }
  }

  /** The numeral syntax the scanners produce: digits, optionally '.' and more digits. */
  predicate IsNumeral(t: string)
  {
    var k := DotIndex(t);
    0 < k && AllDigits(t[..k]) && (k == |t| || (k + 1 < |t| && AllDigits(t[k + 1..])))
  }

  function Pow10(n: nat): (r: nat)
    ensures r >= 1
  {
    if n == 0 then 1 else 10 * Pow10(n - 1)
  }

  /** Value of a run of decimal digits, most significant first. */
  function DigitsValue(t: string): int
  {
    if t == [] then 0 else DigitsValue(t[..|t| - 1]) * 10 + (t[|t| - 1] as int - '0' as int)
  }

  /** The exact value of a numeral; the source rounds this to the nearest double. */
  function DecodeNumber(t: string): real
  {
    var k := DotIndex(t);
    if k == |t| then DigitsValue(t) as real
    else DigitsValue(t[..k]) as real + DigitsValue(t[k + 1..]) as real / Pow10(|t| - k - 1) as real
  }

  /** Any position with no '.' before it and '.' (or the end) at it is DotIndex. */
  lemma {:induction false} DotIndexAt(t: string, d: nat)
    requires d <= |t|
    requires forall m :: 0 <= m < d ==> t[m] != '.'
    requires d < |t| ==> t[d] == '.'
    ensures DotIndex(t) == d
  {
    if d > 0 {
      assert t[0] != '.';
      assert forall m :: 0 <= m < d - 1 ==> t[1..][m] == t[m + 1];
      DotIndexAt(t[1..], d - 1);
    }
  }

  /** A numeral holds only digits and '.'. */
  lemma {:induction false} NumeralCharacters(t: string)
    requires IsNumeral(t)
    ensures forall k :: 0 <= k < |t| ==> IsDigit(t[k]) || t[k] == '.'
  {
    var d := DotIndex(t);
    DotIndexFirst(t);
    forall k | 0 <= k < |t|
      ensures IsDigit(t[k]) || t[k] == '.'
    {
      if k < d {
        assert t[..d][k] == t[k];
      } else if k > d {
        assert t[d + 1..][k - d - 1] == t[k];
      }
    }
  }

  /** A digit run followed by '.' and a second digit run is a numeral with its dot there. */
  lemma {:induction false} FractionNumeral(s: string, i: nat, k: nat, j: nat)
    requires i < k && k + 1 < j <= |s| && s[k] == '.'
    requires forall m :: i <= m < k ==> IsDigit(s[m])
    requires forall m :: k < m < j ==> IsDigit(s[m])
    ensures IsNumeral(s[i..j]) && DotIndex(s[i..j]) == k - i
  {
    var t := s[i..j];
    assert t[k - i] == '.';
    assert forall m :: 0 <= m < k - i ==> t[m] != '.' by {
      forall m | 0 <= m < k - i ensures t[m] != '.' { assert IsDigit(s[i + m]); }
    }
    DotIndexAt(t, k - i);
    assert t[..k - i] == s[i..k];
    assert t[k - i + 1..] == s[k + 1..j];
    assert AllDigits(s[i..k]);
    assert AllDigits(s[k + 1..j]);
  }

  /** A nonempty digit run is a numeral without a dot. */
  lemma {:induction false} WholeNumeral(s: string, i: nat, j: nat)
    requires i < j <= |s|
    requires forall m :: i <= m < j ==> IsDigit(s[m])
    ensures IsNumeral(s[i..j]) && DotIndex(s[i..j]) == j - i
  {
    var t := s[i..j];
    assert forall m :: 0 <= m < |t| ==> t[m] != '.' by {
      forall m | 0 <= m < |t| ensures t[m] != '.' { assert IsDigit(s[i + m]); }
    }
    DotIndexAt(t, |t|);
    assert t[..|t|] == t;
  }

  /**
   * The lexeme a number scan takes, starting at a digit, is a numeral, and it is
   * maximal: no digit follows it, and a '.' followed by a digit follows it only
   * when it already has a fraction.
   */
  lemma {:induction false} NumberLexeme(s: string, i: nat)
    requires i < |s| && IsDigit(s[i])
    ensures var j := NumberEnd(s, i + 1);
      i < j && IsNumeral(s[i..j]) && (j == |s| || !IsDigit(s[j])) &&
      (DotIndex(s[i..j]) == j - i ==> !(PeekAt(s, j) == '.' && IsDigit(PeekAt(s, j + 1))))
  {
    var k := RunEnd(s, i + 1, Digits);
    var j := NumberEnd(s, i + 1);
    if PeekAt(s, k) == '.' && IsDigit(PeekAt(s, k + 1)) {
      FractionNumeral(s, i, k, j);
    } else {
      WholeNumeral(s, i, j);
    }
  }

  /** Decoding agrees with the decimal reading of a literal: "3.14" is 3.14. */
  lemma {:induction false} DecodeExample()
    ensures IsNumeral("3.14") && DecodeNumber("3.14") == 3.14
    ensures IsNumeral("42") && DecodeNumber("42") == 42.0
  {
    assert DotIndex("3.14") == 1;
    assert "3.14"[..1] == "3";
    assert "3.14"[2..] == "14";
    assert DotIndex("42") == 2;
    assert "42"[..2] == "42";
  }
}
