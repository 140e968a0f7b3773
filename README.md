# Metal: a verified model of the Lox-style scanner, parser and evaluator drafts

Metal is a small, dynamically typed, Lox-style language. Its repository holds
several drafts of one pipeline: a scanner produces tokens, a recursive-descent
parser turns them into a syntax tree, and a tree-walking evaluator runs the
tree over variables kept in environments. The drafts fall into three sets,
and this project models the core of each:

- **C++ set A** (`scanner.hpp`, `parser.hpp`, `interpreter.hpp`):
  - a character-cursor scanner that throws on the first bad character;
  - a parser for `var`, `print` and expression statements;
  - a flat, single-map `Environment`;
  - an evaluator with typed operator dispatch, truthiness, equality and `stringify`.
- **C++ set B** (`lexer.hpp`, `ExpressionsStatementsEnvironments.hpp`, `parser.cpp`):
  - a lexer that reports bad characters and keeps going;
  - the syntax tree and a chained `Environment` whose frames point to their enclosing frame;
  - a parser for the full statement grammar: blocks, `if`/`else`, `while`, `for` (desugared into `while`), `and`/`or`, function declarations and calls.
- **Java drafts** (`src/Scanner.java`, `Interpreter.java`, `PrettyPrinter.java`):
  - a scanner whose token list is shared by every instance;
  - an expression evaluator;
  - a prefix-form printer.

## How the model is built

Shared pieces:

- `Values.Value` (`Nil | Bool | Num | Str`) replaces `std::any` and `Object`.
- `Lexical.Token` is a token: its kind, lexeme, optional literal and line.
- `Wrappers` gives `Option` and `Result`. A thrown exception is a `Failure`, or a `None` result.
- Numbers are exact reals.

The file modules:

| file | module | models |
|---|---|---|
| wrappers.dfy | Wrappers | `Option`, `Result` |
| values.dfy | Values | run-time values; division as `Quotient` |
| lexical.dfy | Lexical | tokens, character classes, runs, newline counting, numerals |
| scanner_hpp.dfy | ScannerHpp | scanner.hpp |
| lexer_hpp.dfy | LexerHpp | lexer.hpp |
| scanner_java.dfy | ScannerJava | src/Scanner.java |
| parser_hpp.dfy | ParserHpp | parser.hpp (parser, AST, flat environment) |
| interpreter_hpp.dfy | InterpreterHpp | interpreter.hpp |
| environments_hpp.dfy | EnvironmentsHpp | ExpressionsStatementsEnvironments.hpp |
| parser_cpp.dfy | ParserCpp | parser.cpp |
| expr_java.dfy | ExprJava | the Java expression tree (Expr.java) |
| interpreter_java.dfy | InterpreterJava | Interpreter.java |
| pretty_printer_java.dfy | PrettyPrinterJava | PrettyPrinter.java |

Each scanner and parser works the same way:

- It is first specified by pure functions. One step (`ScanStep`, `LexStep`, `AssignmentAt`, …) and the whole run (`ScanFrom`, `LexFrom`, `ParseFrom`) are functions of the input and the cursor.
- It is then modelled as a class with the source's mutable fields (`start`, `current`, `line`, `tokens`).
- Each method is proved to leave exactly the state and result that its function prescribes.
- The properties the drafts promise are proved as lemmas about the functions: EOF handling, operator tokens, literals, error behaviour, precedence, desugaring and resynchronisation.

The two environments are modelled as classes over maps. The chained one is
specified on the sequence of its frames' maps, innermost first.

The evaluators are functions:

- The C++ one threads the variable map through evaluation.
- A class `InterpreterHpp.Interpreter` holds the `Environment` object and the printed lines, and is proved to follow those functions.

## Model

| member | source | states |
|---|---|---|
| Lexical.RunEnd | scanner.hpp:174-175 | the end of the maximal run of a character class: every character before it is in the class, the one at it is not (or the input ends) |
| Lexical.QuoteEnd | scanner.hpp:141-145 | the index of the first '"' at or after i, or the end of the input; no '"' comes before it |
| Lexical.NumberEnd | scanner.hpp:154-161 | a numeral's end: only digits and '.' are read, and no digit follows it |
| Lexical.NumberLexeme | scanner.hpp:152-161 | the number lexeme is a numeral (digits, optionally '.' and digits); it is maximal, with a fraction whenever '.' and a digit follow the integer part |
| Lexical.DecodeExample | scanner.hpp:165 | decoding a numeral agrees with its decimal reading ("3.14" is 3.14, "42" is 42) |
| Lexical.EmitStep | scanner.hpp:64-68 | `add_token` in both C++ scanners: exactly one token, of the given kind, with lexeme source[start..end], no literal and the current line; the cursor ends at `end` and no error is raised |
| Lexical.OperatorStep | scanner.hpp:115-118 | a one- or two-character operator: two characters exactly when the next character is '=', giving the `two` kind, otherwise one character and the `one` kind; the lexeme is the characters taken |
| ScannerHpp.KeywordOr | scanner.hpp:176-198 | a lexeme's kind is its keyword-table entry when the table holds it, IDENTIFIER otherwise, and never EOF_TOKEN |
| ScannerHpp.StringStep | scanner.hpp:139-151 | `string()` counts the newlines inside the literal; without a closing quote it is an error that emits nothing; otherwise it emits a STRING whose literal lies between the quotes |
| ScannerHpp.NumberStep | scanner.hpp:152-171 | `number()` reads only digits and '.', counting no newline |
| ScannerHpp.IdentifierStep | scanner.hpp:172-180 | `identifier()` reads only letters, digits and '_' |
| ScannerHpp.ScanStep | scanner.hpp:99-138 | `scan_token` moves the cursor forward and keeps the line count equal to the newlines read; it emits at most one token, never EOF_TOKEN, and none on an error |
| ScannerHpp.ScanFrom | scanner.hpp:48-57 | a successful scan ends with one EOF_TOKEN (empty lexeme, no literal, final line) and has no other EOF_TOKEN |
| ScannerHpp.ScanFromStep | scanner.hpp:50-54 | one loop turn: an error ends the scan, otherwise the step's tokens come first |
| ScannerHpp.StepLines | scanner.hpp:123-125 | the line after a step, plus the newlines still ahead, is the final line |
| ScannerHpp.ScanEndsWithEof | scanner.hpp:48-57 | a successful scan ends with exactly one EOF_TOKEN, whose line is 1 plus the number of newlines, those inside strings included |
| ScannerHpp.TwoCharacterOperators | scanner.hpp:115-118 | '!=', '==', '<=', '>=' are one token each; '!', '=', '<', '>' alone are single tokens otherwise |
| ScannerHpp.StringLiteral | scanner.hpp:139-151 | a closed string's lexeme includes both quotes and its literal is the text between them; an unclosed string is an error |
| ScannerHpp.NumberLiteral | scanner.hpp:152-161 | a NUMBER token is a maximal numeral and its literal is the numeral's value |
| ScannerHpp.IdentifierOrKeyword | scanner.hpp:172-180 | an identifier is the maximal run of letters, digits and '_', and is a keyword exactly on a table hit |
| ScannerHpp.StepReadsHandled | scanner.hpp:127-134 | outside strings, a successful step reads only characters that have a case; a failing step stops on a character without one |
| ScannerHpp.ScanFromFailsIff | scanner.hpp:129-134 | fail-fast: without string literals, the scan succeeds exactly when no character lacks a case |
| ScannerHpp.ScanFailsFast | scanner.hpp:48-57 | the same for a whole scan from a fresh scanner |
| ScannerHpp.Scanner.constructor | scanner.hpp:40-46 | start 0, current 0, line 1, no tokens |
| ScannerHpp.Scanner.Advance | scanner.hpp:91-98 | returns the current character, or '\0' at the end without moving |
| ScannerHpp.Scanner.Match | scanner.hpp:69-77 | consumes the next character exactly when it is the expected one |
| ScannerHpp.Scanner.AddToken | scanner.hpp:64-68 | appends one token with lexeme source[start..current] and the current line |
| ScannerHpp.Scanner.String | scanner.hpp:139-151 | cursor, line, token list and error are those of `StringStep` |
| ScannerHpp.Scanner.SkipToQuote | scanner.hpp:141-145 | stops at `QuoteEnd`, counting the newlines it passes |
| ScannerHpp.Scanner.Number | scanner.hpp:152-171 | cursor and token list are those of `NumberStep` |
| ScannerHpp.Scanner.SkipNumeral | scanner.hpp:154-161 | stops at `NumberEnd` |
| ScannerHpp.Scanner.SkipDigits | scanner.hpp:154-155 | stops at the end of the digit run |
| ScannerHpp.Scanner.Identifier | scanner.hpp:172-180 | cursor and token list are those of `IdentifierStep` |
| ScannerHpp.Scanner.AddOperator | scanner.hpp:115-118 | cursor and token list are those of `OperatorStep` |
| ScannerHpp.Scanner.ScanToken | scanner.hpp:99-138 | cursor, line, tokens and error are those of `ScanStep` |
| ScannerHpp.Scanner.ScanTokens | scanner.hpp:48-57 | returns the earlier tokens followed by `ScanFrom`, or its error; on success it holds them |
| ScannerHpp.Tokenize | scanner.hpp:40-57 | a fresh scanner's `scan_tokens` gives `Scan(source)` |
| LexerHpp.KeywordOr | lexer.hpp:211-235 | the 9-word table entry, else IDENTIFIER; never EOF_TOKEN, PRINT, IF, ELSE or RETURN |
| LexerHpp.StringStep | lexer.hpp:177-193 | counts the literal's newlines; an unclosed string is reported, adds nothing and reaches the end; a closed one emits a STRING whose literal lies between the quotes |
| LexerHpp.NumberStep | lexer.hpp:194-208 | reads only digits and '.' |
| LexerHpp.IdentifierStep | lexer.hpp:209-217 | reads only letters and digits |
| LexerHpp.LexStep | lexer.hpp:57-144 | `scan_token` moves forward and keeps the line count; it emits at most one token, never EOF_TOKEN, and none when it reports |
| LexerHpp.LexFrom | lexer.hpp:47-56 | the token list always ends with one EOF_TOKEN (lexeme "FINISHED", final line) and has no other |
| LexerHpp.LexFromStep | lexer.hpp:49-53 | one loop turn: the step's tokens and reports come first, and the loop goes on |
| LexerHpp.StepLines | lexer.hpp:124-128 | the line after a step, plus the newlines still ahead, is the final line |
| LexerHpp.LexEndsWithEof | lexer.hpp:47-56 | lexing never fails: exactly one EOF_TOKEN, last, with lexeme "FINISHED" and 1 plus the number of newlines |
| LexerHpp.TwoCharacterOperators | lexer.hpp:72-123 | '!=', '==', '>=', '<=' are single tokens; a lone '=' is EQUALS |
| LexerHpp.SkippedAndReported | lexer.hpp:124-142 | only ' ' and '\n' are skipped ('\n' counts a line); a character without a case is reported with the line, adds no token, and is passed |
| LexerHpp.ReportedCharacters | lexer.hpp:124-142 | '.', '\t', '\r' and '_' have no case |
| LexerHpp.StringLiteral | lexer.hpp:177-193 | a closed string's lexeme has the quotes and its literal is the text between; an unclosed one is reported, adds no token and ends the input |
| LexerHpp.NumberLiteral | lexer.hpp:194-207 | a NUMBER token is a maximal numeral and its literal is the numeral's value |
| LexerHpp.IdentifierOrKeyword | lexer.hpp:209-217 | an identifier starts with a letter and is the maximal alphanumeric run; it is a keyword exactly on a table hit |
| LexerHpp.StatementWordsAreIdentifiers | lexer.hpp:224-235 | `print`, `if` and `else` lex as IDENTIFIER |
| LexerHpp.StepReadsHandled | lexer.hpp:134-142 | outside strings, a step without a report reads only handled characters and '.' (and only handled ones unless it starts a number); a report is made on exactly one character without a case |
| LexerHpp.StepDotsArePoints | lexer.hpp:196-205 | a '.' that a step reads without a report is a numeral's point: a digit follows it within the same token |
| LexerHpp.ReportsCountUnhandled | lexer.hpp:49-53 | errors do not abort the loop: without string literals, every character without a case other than '.' is reported once, a '.' at most once (a numeral absorbs it as its point), and nothing else is reported; when no '.' is followed by a digit the reports number exactly the characters without a case |
| LexerHpp.ReportsOnePerUnhandled | lexer.hpp:47-56 | the same bounds and exact count for a whole lexing run |
| LexerHpp.Lexer.constructor | lexer.hpp:37-46 | lines 1, start 0, current 0, no tokens, no reports |
| LexerHpp.Lexer.Advance | lexer.hpp:145-149 | returns the current character and moves one on |
| LexerHpp.Lexer.Match | lexer.hpp:150-158 | consumes the next character exactly when it is the expected one |
| LexerHpp.Lexer.AddToken | lexer.hpp:218-222 | appends one token with lexeme source[start..current] and the current line |
| LexerHpp.Lexer.AddOperator | lexer.hpp:72-123 | cursor and token list are those of `OperatorStep` |
| LexerHpp.Lexer.String | lexer.hpp:177-193 | cursor, line, tokens and reports are those of `StringStep` |
| LexerHpp.Lexer.SkipToQuote | lexer.hpp:179-184 | stops at `QuoteEnd`, counting the newlines it passes |
| LexerHpp.Lexer.SkipDigits | lexer.hpp:196-199 | stops at the end of the digit run |
| LexerHpp.Lexer.Number | lexer.hpp:194-208 | cursor and token list are those of `NumberStep` |
| LexerHpp.Lexer.SkipNumeral | lexer.hpp:196-205 | stops at `NumberEnd` |
| LexerHpp.Lexer.Identifier | lexer.hpp:209-217 | cursor and token list are those of `IdentifierStep` |
| LexerHpp.Lexer.ScanToken | lexer.hpp:57-144 | cursor, line, tokens and reports are those of `LexStep` |
| LexerHpp.Lexer.ScanTokens | lexer.hpp:47-56 | returns and holds the earlier tokens followed by `LexFrom`'s, and its reports follow the earlier ones |
| LexerHpp.Tokenize | lexer.hpp:45-56 | a fresh lexer gives `Lex(source)` |
| ScannerJava.Classifiers | src/Scanner.java:167-184 | `isDigit` is exactly '0'..'9'; `isAlpha` is exactly a-z, A-Z and '_'; `isAlphaNumeric` is their union |
| ScannerJava.KeywordOr | src/Scanner.java:12-28 | the 16-word table entry, else IDENTIFIER; never EOF |
| ScannerJava.Emit | src/Scanner.java:138-146 | `addToken`: exactly one token, of the given kind and literal, with lexeme source[start..end] and the current line; the cursor ends at `end` and nothing is reported |
| ScannerJava.Operator | src/Scanner.java:66-113 | one or two characters, two exactly when the second is '='; one token whose kind is the operator's with '=' exactly when two were taken, and whose lexeme is the characters taken |
| ScannerJava.NumberStep | src/Scanner.java:185-196 | reads only digits and '.' |
| ScannerJava.IdentifierStep | src/Scanner.java:197-204 | reads only letters, digits and '_' |
| ScannerJava.ScanStep | src/Scanner.java:50-132 | `scanToken` moves forward and keeps the line count; at most one token, never EOF, none when it reports |
| ScannerJava.ScanFrom | src/Scanner.java:34-43 | the appended tokens end with one EOF (empty lexeme, no literal, final line) and have no other |
| ScannerJava.ScanFromStep | src/Scanner.java:36-40 | one loop turn: the step's tokens and reports come first |
| ScannerJava.StepLines | src/Scanner.java:116 | the line after a step, plus the newlines still ahead, is the final line |
| ScannerJava.ScanEndsWithEof | src/Scanner.java:34-43 | one scan appends exactly one EOF token, last, with an empty lexeme and 1 plus the number of newlines |
| ScannerJava.TwoCharacterOperators | src/Scanner.java:66-113 | '!=', '==', '>=', '<=' are single tokens; '!', '=', '>', '<' alone otherwise |
| ScannerJava.SkippedAndReported | src/Scanner.java:114-131 | ' ' and '\t' are skipped and '\n' counts a line; any other character without a case is reported, adds no token, and is passed |
| ScannerJava.ReportedCharacters | src/Scanner.java:114-131 | '"' and '\r' are reported; '.', '_' and '\t' are handled |
| ScannerJava.NumberLiteral | src/Scanner.java:185-196 | a NUMBER token is a maximal numeral, with a fraction only when a digit follows '.', and its literal is the numeral's value |
| ScannerJava.IdentifierOrKeyword | src/Scanner.java:197-204 | an identifier is the maximal `isAlphaNumeric` run and is a keyword exactly on a table hit |
| ScannerJava.StepReadsHandled | src/Scanner.java:117-131 | a step without a report reads only handled characters; a report is made on one character without a case |
| ScannerJava.ReportsCountUnhandled | src/Scanner.java:34-43 | errors do not abort the scan: the reports number exactly the characters without a case |
| ScannerJava.ReportsOnePerUnhandled | src/Scanner.java:34-43 | the same for a whole scan |
| ScannerJava.SharedListKeepsBothEofs | src/Scanner.java:8 | after two scans into the shared list, the first scan's EOF token is followed by the second scan's tokens |
| ScannerJava.TokenList.constructor | src/Scanner.java:8 | the shared list starts empty |
| ScannerJava.Scanner.constructor | src/Scanner.java:30-33 | start 0, line 1, current 0, appending to the given shared list |
| ScannerJava.Scanner.Advance | src/Scanner.java:133-137 | returns the current character and moves one on |
| ScannerJava.Scanner.Match | src/Scanner.java:147-153 | consumes the next character exactly when it is the expected one |
| ScannerJava.Scanner.AddToken | src/Scanner.java:142-146 | appends one token with lexeme source[start..current] to the shared list |
| ScannerJava.Scanner.AddOperator | src/Scanner.java:66-113 | cursor and shared list are those of `Operator` |
| ScannerJava.Scanner.SkipDigits | src/Scanner.java:187-188 | stops at the end of the digit run |
| ScannerJava.Scanner.SkipNumeral | src/Scanner.java:187-194 | stops at `NumberEnd` |
| ScannerJava.Scanner.Number | src/Scanner.java:185-196 | cursor and shared list are those of `NumberStep` |
| ScannerJava.Scanner.Identifier | src/Scanner.java:197-204 | cursor and shared list are those of `IdentifierStep` |
| ScannerJava.Scanner.ScanToken | src/Scanner.java:50-132 | cursor, line, shared list and reports are those of `ScanStep` |
| ScannerJava.Scanner.ScanTokens | src/Scanner.java:34-43 | appends `ScanFrom`'s tokens to the shared list and returns the whole list |
| ScannerJava.ScanTwice | src/Scanner.java:34-43 | the second scan on a fresh shared list returns the first scan's tokens, EOF included, followed by its own |
| ParserHpp.AdvanceFrom | parser.hpp:368-373 | `advance` never moves the cursor past EOF_TOKEN |
| ParserHpp.ConsumeAt | parser.hpp:343-347 | the expected token is consumed, or the error is reported at the current token and thrown with the cursor left in place |
| ParserHpp.OperatorsByStrength | parser.hpp:267-310 | the operators a binary level matches are exactly those of its strength |
| ParserHpp.AssignmentAt | parser.hpp:248-266 | the cursor only moves forward and stays on the list; a result was read from at least one token; a thrown error's report names the token where it stopped |
| ParserHpp.AssignTo | parser.hpp:252-263 | the same for the part after `target =` |
| ParserHpp.EqualityAt | parser.hpp:267-277 | the same for `equality` |
| ParserHpp.EqualityLoop | parser.hpp:270-276 | the loop moves forward only, and a thrown error is reported at its token |
| ParserHpp.ComparisonAt | parser.hpp:278-288 | as for `AssignmentAt`, for `comparison` |
| ParserHpp.ComparisonLoop | parser.hpp:281-287 | the loop moves forward only, and a thrown error is reported at its token |
| ParserHpp.TermAt | parser.hpp:289-299 | as for `AssignmentAt`, for `term` |
| ParserHpp.TermLoop | parser.hpp:292-298 | the loop moves forward only, and a thrown error is reported at its token |
| ParserHpp.FactorAt | parser.hpp:300-310 | as for `AssignmentAt`, for `factor` |
| ParserHpp.FactorLoop | parser.hpp:303-309 | the loop moves forward only, and a thrown error is reported at its token |
| ParserHpp.UnaryAt | parser.hpp:311-320 | as for `AssignmentAt`, for `unary` |
| ParserHpp.NegationAt | parser.hpp:313-318 | as for `AssignmentAt`, for a prefix operator's operand |
| ParserHpp.LiteralOf | parser.hpp:323-326 | a literal exactly for FALSE, TRUE, NIL, STRING and NUMBER tokens |
| ParserHpp.PrimaryAt | parser.hpp:321-335 | as for `AssignmentAt`, for `primary` |
| ParserHpp.GroupAt | parser.hpp:327-332 | a parenthesized expression gives a Grouping and ends right after ')' |
| ParserHpp.ParsedOrdered | parser.hpp:248-320 | precedence and left-associativity: every rule's result is `Ordered` and binds at least as tightly as the rule |
| ParserHpp.AssignmentOrdered | parser.hpp:248-266 | the same for `assignment` |
| ParserHpp.UnaryOrdered | parser.hpp:311-320 | the same for `unary` |
| ParserHpp.PrimaryOrdered | parser.hpp:321-335 | the same for `primary` |
| ParserHpp.LevelOrdered | parser.hpp:267-310 | the same for the four binary levels |
| ParserHpp.LoopOrdered | parser.hpp:267-310 | each loop turn puts the tree so far on the left of the new node, keeping it `Ordered` |
| ParserHpp.VarDeclarationAt | parser.hpp:215-225 | a declaration ends right after ';' and binds the IDENTIFIER it read |
| ParserHpp.VarInitializerAt | parser.hpp:218-224 | the same after the name, with the given name |
| ParserHpp.PrintStatementAt | parser.hpp:232-237 | a Print statement, ending right after ';' |
| ParserHpp.ExpressionStatementAt | parser.hpp:238-243 | an Expression statement, ending right after ';' |
| ParserHpp.StatementAt | parser.hpp:226-231 | a statement that ends right after ';' and is never a Var |
| ParserHpp.DeclarationAt | parser.hpp:199-214 | a statement that ends right after ';', or a thrown error reported at its token |
| ParserHpp.ParseFrom | parser.hpp:190-198 | the cursor only moves forward and stays on the list |
| ParserHpp.ParseEnds | parser.hpp:190-198 | a run ends at EOF_TOKEN with its statements, or where a ParseError was thrown, with that report last |
| ParserHpp.SyncFrom | parser.hpp:396-412 | the first boundary (end, after ';', before a statement keyword) at or after p |
| ParserHpp.SynchronizeFrom | parser.hpp:393-413 | skips at least one token unless at EOF, then stops at the first boundary |
| ParserHpp.AssignmentShape | parser.hpp:252-265 | assignment is right-associative; only a Variable target gives Assign; any other target is reported, not thrown, and returned with the right-hand side dropped |
| ParserHpp.NoAssignment | parser.hpp:248-266 | without '=', the equality is the whole assignment |
| ParserHpp.ParseErrorEscapes | parser.hpp:199-214 | the catch is for RuntimeError only, so a failing declaration ends `parse` where it failed, unsynchronized |
| ParserHpp.Lookup | parser.hpp:41-48 | `get` succeeds exactly when the name is bound, with its value; otherwise the error names the token |
| ParserHpp.Reassigned | parser.hpp:49-58 | `assign` succeeds exactly when the name is bound, and never adds a name |
| ParserHpp.LookupAfterDefine | parser.hpp:37-48 | after `define`, `get` returns the defined value, and other names keep theirs |
| ParserHpp.LookupAfterAssign | parser.hpp:41-58 | after a successful `assign`, `get` sees the new value, and other names keep theirs |
| ParserHpp.Environment.constructor | parser.hpp:34-36 | an empty map |
| ParserHpp.Environment.Define | parser.hpp:37-40 | inserts or overwrites the binding, unconditionally |
| ParserHpp.Environment.Get | parser.hpp:41-48 | returns `Lookup` and changes nothing |
| ParserHpp.Environment.Assign | parser.hpp:49-58 | overwrites an existing binding, or throws and changes nothing |
| ParserHpp.Parser.constructor | parser.hpp:186-189 | cursor at 0 over the given tokens |
| ParserHpp.Parser.Advance | parser.hpp:368-373 | moves off a token that is not EOF_TOKEN and returns the token before the cursor |
| ParserHpp.Parser.Match | parser.hpp:349-357 | advances exactly when `check` holds: never at EOF_TOKEN |
| ParserHpp.Parser.Consume | parser.hpp:343-347 | result, cursor and reports are those of `ConsumeAt` |
| ParserHpp.Parser.MatchOperator | parser.hpp:281 | a chain of `match` calls advances exactly when the current token is one of the level's operators |
| ParserHpp.Parser.Parse | parser.hpp:190-198 | result, cursor and reports are those of `ParseFrom` |
| ParserHpp.Parser.Declaration | parser.hpp:199-214 | result, cursor and reports are those of `DeclarationAt` |
| ParserHpp.Parser.VarDeclaration | parser.hpp:215-225 | the same for `VarDeclarationAt` |
| ParserHpp.Parser.VarInitializer | parser.hpp:218-224 | the same for `VarInitializerAt` |
| ParserHpp.Parser.Statement | parser.hpp:226-231 | the same for `StatementAt` |
| ParserHpp.Parser.PrintStatement | parser.hpp:232-237 | the same for `PrintStatementAt` |
| ParserHpp.Parser.ExpressionStatement | parser.hpp:238-243 | the same for `ExpressionStatementAt` |
| ParserHpp.Parser.Synchronize | parser.hpp:393-413 | the cursor ends at `SynchronizeFrom` |
| ParserHpp.Parser.Expression | parser.hpp:244-247 | result, cursor and reports are those of `AssignmentAt` |
| ParserHpp.Parser.Assignment | parser.hpp:248-266 | the same |
| ParserHpp.Parser.Equality | parser.hpp:267-277 | the same for `EqualityAt` |
| ParserHpp.Parser.EqualityTail | parser.hpp:270-276 | the same for `EqualityLoop` |
| ParserHpp.Parser.Comparison | parser.hpp:278-288 | the same for `ComparisonAt` |
| ParserHpp.Parser.ComparisonTail | parser.hpp:281-287 | the same for `ComparisonLoop` |
| ParserHpp.Parser.Term | parser.hpp:289-299 | the same for `TermAt` |
| ParserHpp.Parser.TermTail | parser.hpp:292-298 | the same for `TermLoop` |
| ParserHpp.Parser.Factor | parser.hpp:300-310 | the same for `FactorAt` |
| ParserHpp.Parser.FactorTail | parser.hpp:303-309 | the same for `FactorLoop` |
| ParserHpp.Parser.Unary | parser.hpp:311-320 | the same for `UnaryAt` |
| ParserHpp.Parser.Primary | parser.hpp:321-335 | the same for `PrimaryAt` |
| ParserHpp.Parser.MatchLiteral | parser.hpp:323-326 | the literal of the current token when it has one, advancing exactly then |
| ParserHpp.Parser.Group | parser.hpp:327-332 | result, cursor and reports are those of `GroupAt` |
| InterpreterHpp.FalseValues | interpreter.hpp:154-161 | exactly nil and false are falsy |
| InterpreterHpp.IsEqualIsEquality | interpreter.hpp:162-179 | `isEqual` is equality of values: nil equals only nil, different types are unequal, equal types compare by content |
| InterpreterHpp.CheckNumberOperand | interpreter.hpp:180-185 | no error exactly for a number; otherwise "Operand must be a number." at the operator |
| InterpreterHpp.CheckNumberOperands | interpreter.hpp:186-191 | no error exactly for two numbers; otherwise "Operands must be numbers." at the operator |
| InterpreterHpp.Arithmetic | interpreter.hpp:65-85 | '-', '*', '/' give numbers; the comparisons give booleans |
| InterpreterHpp.Add | interpreter.hpp:57-64 | '+' succeeds exactly on two numbers or two strings, concatenating strings; otherwise it throws its message |
| InterpreterHpp.BinaryOp | interpreter.hpp:51-93 | the operator dispatch: numeric operators check both operands; '==' and '!=' compare; any other operator throws "Unexpected binary operator." |
| InterpreterHpp.NotEqualNegatesEqual | interpreter.hpp:86-89 | '==' and '!=' never throw, and '!=' is the negation of '==' |
| InterpreterHpp.ComparisonsAgree | interpreter.hpp:74-85 | on numbers the comparisons never throw, '<=' is '<' or '==', '>=' is '>' or '==', and exactly one of '<', '==', '>' holds |
| InterpreterHpp.UnaryOp | interpreter.hpp:94-110 | '-' negates a number and otherwise throws; '!' negates truthiness; any other operator throws |
| InterpreterHpp.UnaryTwice | interpreter.hpp:99-107 | negating twice gives the number back; '!!v' is v's truthiness |
| InterpreterHpp.TrimPointZeroMeans | interpreter.hpp:34-35 | the cut removes a final ".0" appended to a non-empty text and leaves other texts alone |
| InterpreterHpp.SixDecimalsKept | interpreter.hpp:33-35 | a six-decimal `std::to_string` text is never cut |
| InterpreterHpp.Stringify | interpreter.hpp:27-50 | "nil", "true"/"false", the string itself, or the number's text less a final ".0" |
| InterpreterHpp.Eval | interpreter.hpp:51-128 | evaluation never adds or removes a variable |
| InterpreterHpp.AssignmentFreeKeepsVariables | interpreter.hpp:111-128 | an expression without an assignment leaves the variables unchanged |
| InterpreterHpp.AssignmentReturnsValue | interpreter.hpp:123-128 | an assignment returns the assigned value and the variable then holds it; an undefined variable throws after the right-hand side is evaluated |
| InterpreterHpp.ExecEffects | interpreter.hpp:129-149 | a statement keeps every variable, prints at most one line, and only `print` prints |
| InterpreterHpp.VarDefines | interpreter.hpp:134-143 | `var` without an initializer defines nil; with one, it defines the initializer's value whenever that evaluates |
| InterpreterHpp.Run | interpreter.hpp:9-22 | running never loses a variable or a printed line |
| InterpreterHpp.RunAppend | interpreter.hpp:9-22 | statements run in order, and nothing after the first RuntimeError runs |
| InterpreterHpp.Interpreter.constructor | interpreter.hpp:6-8 | a fresh empty environment and no output |
| InterpreterHpp.Interpreter.Evaluate | interpreter.hpp:150-153 | result and variables are those of `Eval` |
| InterpreterHpp.Interpreter.Execute | interpreter.hpp:23-26 | variables, output and error are those of `Exec` |
| InterpreterHpp.Interpreter.Interpret | interpreter.hpp:9-22 | variables, output and error are those of `Run` |
| EnvironmentsHpp.Nearest | ExpressionsStatementsEnvironments.hpp:218-222 | the innermost frame that binds the name; no frame before it does |
| EnvironmentsHpp.Resolve | ExpressionsStatementsEnvironments.hpp:218-224 | `get` succeeds exactly when some frame binds the name; otherwise it fails with the get error |
| EnvironmentsHpp.Rebound | ExpressionsStatementsEnvironments.hpp:207-210 | a frame's names are unchanged by rebinding |
| EnvironmentsHpp.ReboundEverywhere | ExpressionsStatementsEnvironments.hpp:205-217 | the chain keeps its length |
| EnvironmentsHpp.ReboundNearest | ExpressionsStatementsEnvironments.hpp:205-217 | the chain keeps its length |
| EnvironmentsHpp.ResolveAfterDefine | ExpressionsStatementsEnvironments.hpp:201-204 | a definition in the innermost frame is what `get` then finds; other names resolve as before |
| EnvironmentsHpp.ResolveAfterNearest | ExpressionsStatementsEnvironments.hpp:205-217 | after the closest-wins assignment, `get` sees the new value and other names are unchanged |
| EnvironmentsHpp.ResolveAfterEverywhere | ExpressionsStatementsEnvironments.hpp:205-217 | after `assign` as written, `get` sees the new value and other names are unchanged |
| EnvironmentsHpp.ReboundNearestOnlyOne | ExpressionsStatementsEnvironments.hpp:205-217 | the closest-wins assignment changes only the innermost binder, so outer shadowed bindings keep their values |
| EnvironmentsHpp.ShadowedBindingOverwritten | ExpressionsStatementsEnvironments.hpp:207-214 | `assign` as written overwrites a shadowed outer binding too |
| EnvironmentsHpp.Environment.Frames | ExpressionsStatementsEnvironments.hpp:192-199 | the chain's maps, this frame's first |
| EnvironmentsHpp.Environment.constructor | ExpressionsStatementsEnvironments.hpp:196-197 | a global frame with no enclosing frame and no bindings |
| EnvironmentsHpp.Environment.Enclosed | ExpressionsStatementsEnvironments.hpp:198-199 | an empty frame that keeps its parent; its chain is the parent's with one empty map in front |
| EnvironmentsHpp.Environment.Define | ExpressionsStatementsEnvironments.hpp:201-204 | writes this frame only, overwriting a binding it has |
| EnvironmentsHpp.Environment.Get | ExpressionsStatementsEnvironments.hpp:218-224 | innermost-first lookup: `Resolve` over the chain |
| EnvironmentsHpp.Environment.Assign | ExpressionsStatementsEnvironments.hpp:205-217 | rewrites every frame that binds the name, and always ends in RuntimeError |
| EnvironmentsHpp.Environment.AssignNearest | ExpressionsStatementsEnvironments.hpp:205-217 | corrected: rewrites only the innermost binder; fails exactly when no frame binds the name |
| ParserCpp.AdvanceFrom | parser.cpp:337-341 | `advance` never moves the cursor past EOF_TOKEN |
| ParserCpp.ConsumeAt | parser.cpp:332-336 | the expected token is consumed, or a ParseError is thrown with the cursor in place |
| ParserCpp.AssignmentAt | parser.cpp:161-173 | the cursor only moves forward and stays on the list, and a result was read from at least one token |
| ParserCpp.AssignTo | parser.cpp:164-171 | the same for the part after `target =` |
| ParserCpp.LevelAt | parser.cpp:175-245 | the same for the six binary levels |
| ParserCpp.LoopAt | parser.cpp:175-245 | a binary level's loop only moves forward |
| ParserCpp.UnaryAt | parser.cpp:247-256 | as for `AssignmentAt`, for `unary` |
| ParserCpp.CallAt | parser.cpp:258-271 | as for `AssignmentAt`, for `call` |
| ParserCpp.CallLoop | parser.cpp:261-269 | the loop of `call` only moves forward |
| ParserCpp.FinishCallAt | parser.cpp:273-287 | a Call of the given callee with at most 1024 arguments |
| ParserCpp.ArgumentsLoop | parser.cpp:276-284 | with 1024 arguments read it throws in place; a result is a Call of the callee with at most 1024 arguments |
| ParserCpp.CloseCall | parser.cpp:285-286 | the Call is built with the ')' token that closes it |
| ParserCpp.LiteralOf | parser.cpp:291-294 | a literal exactly for TRUE, FALSE, NIL, NUMBER and STRING tokens |
| ParserCpp.PrimaryAt | parser.cpp:289-303 | as for `AssignmentAt`, for `primary` |
| ParserCpp.GroupAt | parser.cpp:295-300 | a parenthesized expression gives a Grouping and ends right after ')' |
| ParserCpp.ExpressionDeclarationAt | parser.cpp:64-69 | an ExpressionStmt, ending right after ';' |
| ParserCpp.PrintDeclarationAt | parser.cpp:82-87 | a Print statement, ending right after ';' |
| ParserCpp.VarDeclarationAt | parser.cpp:89-96 | a VariableStmt binding the IDENTIFIER it read |
| ParserCpp.VarInitializerAt | parser.cpp:92-95 | the same after the name, with the given name |
| ParserCpp.WhileDeclarationAt | parser.cpp:127-134 | a While statement |
| ParserCpp.IfDeclarationAt | parser.cpp:71-80 | an If statement |
| ParserCpp.BranchesAt | parser.cpp:76-79 | an If with no else branch stops before a token that is not `else` |
| ParserCpp.Desugar | parser.cpp:112-124 | a desugared `for` is a While, or a Block around one |
| ParserCpp.ForDeclarationAt | parser.cpp:98-125 | a `for` gives a While, or a Block around one |
| ParserCpp.ForConditionAt | parser.cpp:105-107 | the same from the condition clause on |
| ParserCpp.ForIncrementAt | parser.cpp:108-110 | the same from the increment clause on |
| ParserCpp.ForBodyAt | parser.cpp:111-124 | the same from the body on |
| ParserCpp.FunctionAt | parser.cpp:136-154 | a Function with at most 256 parameters |
| ParserCpp.ParametersLoop | parser.cpp:141-149 | once more than 255 names are read it throws in place; a result has at most 256 parameters |
| ParserCpp.FunctionBodyAt | parser.cpp:150-153 | a Function with the name and parameters read |
| ParserCpp.BlockAt | parser.cpp:53-62 | a block ends right after '}' |
| ParserCpp.BlockLoop | parser.cpp:56-59 | declarations are collected until '}' or EOF_TOKEN and never throw |
| ParserCpp.StatementAt | parser.cpp:43-51 | the cursor only moves forward and a statement was read from at least one token |
| ParserCpp.SyncFrom | parser.cpp:361-378 | the first boundary (end, after ';', before a statement keyword) at or after p |
| ParserCpp.SynchronizeFrom | parser.cpp:358-379 | skips at least one token unless at EOF, then stops at the first boundary |
| ParserCpp.DeclarationAt | parser.cpp:28-41 | a declaration always moves the cursor, and never past EOF_TOKEN |
| ParserCpp.AttemptAt | parser.cpp:30-35 | the cursor only moves forward and a statement was read from at least one token |
| ParserCpp.OperatorsByStrength | parser.cpp:175-245 | the operators a binary level matches are exactly those of its strength |
| ParserCpp.ParsedOrdered | parser.cpp:161-303 | precedence (assignment < or < and < equality < comparison < term < factor < unary < call < primary) and left-associativity: each rule's result is `Ordered` and binds at least as tightly as the rule |
| ParserCpp.AssignmentOrdered | parser.cpp:161-173 | the same for `assignment` |
| ParserCpp.LevelOrdered | parser.cpp:175-245 | the same for the six binary levels, `or`/`and` building left-deep Logical nodes |
| ParserCpp.LoopOrdered | parser.cpp:175-245 | each loop turn puts the tree so far on the left of the new node, keeping it `Ordered` |
| ParserCpp.UnaryOrdered | parser.cpp:247-256 | the same for `unary` |
| ParserCpp.CallOrdered | parser.cpp:258-271 | the same for `call` |
| ParserCpp.CallLoopOrdered | parser.cpp:261-269 | each argument list wraps an ordered callee into an ordered call |
| ParserCpp.FinishCallOrdered | parser.cpp:273-287 | `finishCall` on an ordered callee gives an ordered call |
| ParserCpp.ArgumentsOrdered | parser.cpp:276-284 | every argument the loop adds is `Ordered` |
| ParserCpp.PrimaryOrdered | parser.cpp:289-303 | the same for `primary` |
| ParserCpp.AssignmentShape | parser.cpp:161-173 | assignment is right-associative; a Variable target gives Assign; any other target throws, after the right-hand side was read |
| ParserCpp.IfWithoutElseEnds | parser.cpp:71-80 | an `if` returned without `else` stopped before a token that is not `else` |
| ParserCpp.ElseBindsNearest | parser.cpp:71-80 | an `else` belongs to the nearest `if`: an outer `if` whose branch is an `if` without `else` has no `else` |
| ParserCpp.ForDesugars | parser.cpp:112-124 | the loop is While(condition or true, body or Block[body, increment]), in Block[initializer, loop] when there is an initializer |
| ParserCpp.DeclarationResynchronizes | parser.cpp:28-41 | after a ParseError, the cursor stops where `synchronize` did: at the end, after ';' or before a statement keyword |
| ParserCpp.ParseCovers | parser.cpp:18-26 | `parse` never fails: at least one entry when there is input, and at most one per token before EOF |
| ParserCpp.Parser.constructor | parser.cpp:13-16 | cursor at 0 over the given tokens |
| ParserCpp.Parser.Advance | parser.cpp:337-341 | moves off a token that is not EOF_TOKEN and returns the token before the cursor |
| ParserCpp.Parser.Match | parser.cpp:305-313 | advances exactly when `check` holds |
| ParserCpp.Parser.MatchAny | parser.cpp:314-326 | the variadic `match` advances at most once, exactly when one of the types is the current token's |
| ParserCpp.Parser.Consume | parser.cpp:332-336 | result and cursor are those of `ConsumeAt` |
| ParserCpp.Parser.Expression | parser.cpp:156-159 | result and cursor are those of `AssignmentAt` |
| ParserCpp.Parser.Assignment | parser.cpp:161-173 | the same |
| ParserCpp.Parser.LevelTail | parser.cpp:175-245 | the loop of a binary level: result and cursor are those of `LoopAt` |
| ParserCpp.Parser.OrExpr | parser.cpp:175-185 | the same for `LevelAt(OrRule)` |
| ParserCpp.Parser.AndExpr | parser.cpp:187-197 | the same for `LevelAt(AndRule)` |
| ParserCpp.Parser.Equality | parser.cpp:199-209 | the same for `LevelAt(EqualityRule)` |
| ParserCpp.Parser.Comparison | parser.cpp:211-221 | the same for `LevelAt(ComparisonRule)` |
| ParserCpp.Parser.Term | parser.cpp:223-233 | the same for `LevelAt(TermRule)` |
| ParserCpp.Parser.Factor | parser.cpp:235-245 | the same for `LevelAt(FactorRule)` |
| ParserCpp.Parser.Unary | parser.cpp:247-256 | the same for `UnaryAt` |
| ParserCpp.Parser.Call | parser.cpp:258-271 | the same for `CallAt` |
| ParserCpp.Parser.FinishCall | parser.cpp:273-287 | the same for `FinishCallAt` |
| ParserCpp.Parser.Arguments | parser.cpp:276-284 | the argument loop's arguments and cursor agree with `ArgumentsLoop`, at most 1024 of them |
| ParserCpp.Parser.MatchLiteral | parser.cpp:291-294 | the literal of the current token when it has one, advancing exactly then |
| ParserCpp.Parser.MatchConstant | parser.cpp:291-293 | the `true`, `false` and `nil` cases |
| ParserCpp.Parser.Primary | parser.cpp:289-303 | result and cursor are those of `PrimaryAt` |
| ParserCpp.Parser.Group | parser.cpp:295-300 | the same for `GroupAt` |
| ParserCpp.Parser.Parse | parser.cpp:18-26 | stops at EOF_TOKEN with the entries of `ParseFrom` |
| ParserCpp.Parser.Declaration | parser.cpp:28-41 | result and cursor are those of `DeclarationAt` |
| ParserCpp.Parser.Attempt | parser.cpp:30-35 | the same for `AttemptAt` |
| ParserCpp.Parser.Synchronize | parser.cpp:358-379 | the cursor ends at `SynchronizeFrom` |
| ParserCpp.Parser.Statement | parser.cpp:43-51 | result and cursor are those of `StatementAt` |
| ParserCpp.Parser.BlockDeclaration | parser.cpp:53-62 | the same for `BlockAt` |
| ParserCpp.Parser.ExpressionDeclaration | parser.cpp:64-69 | the same for `ExpressionDeclarationAt` |
| ParserCpp.Parser.PrintDeclaration | parser.cpp:82-87 | the same for `PrintDeclarationAt` |
| ParserCpp.Parser.VarDeclaration | parser.cpp:89-96 | the same for `VarDeclarationAt` |
| ParserCpp.Parser.IfDeclaration | parser.cpp:71-80 | the same for `IfDeclarationAt` |
| ParserCpp.Parser.WhileDeclaration | parser.cpp:127-134 | the same for `WhileDeclarationAt` |
| ParserCpp.Parser.ForDeclaration | parser.cpp:98-125 | the same for `ForDeclarationAt` |
| ParserCpp.Parser.ForCondition | parser.cpp:105-107 | the same for `ForConditionAt` |
| ParserCpp.Parser.ForIncrement | parser.cpp:108-124 | the same for `ForIncrementAt` |
| ParserCpp.Parser.Function | parser.cpp:136-154 | the same for `FunctionAt` |
| ParserCpp.Parser.Parameters | parser.cpp:141-149 | the parameter loop's names and cursor agree with `ParametersLoop` |
| ParserCpp.Parser.FunctionBody | parser.cpp:150-153 | the same for `FunctionBodyAt` |
| InterpreterJava.FalseValues | Interpreter.java:101-106 | exactly null and false are falsy |
| InterpreterJava.IsEqualMeans | Interpreter.java:108-113 | as written, null equals everything; other values equal only themselves |
| InterpreterJava.NilEqualsAnything | Interpreter.java:110-111 | null "equals" 1, "" and false, while 1 does not equal null |
| InterpreterJava.IsEqualCorrectedIsEquality | Interpreter.java:108-113 | corrected: equality of values, hence symmetric |
| InterpreterJava.CheckNumberOperand | Interpreter.java:115-120 | no error exactly for a Double; otherwise "Operand must be a number" at the operator |
| InterpreterJava.CheckNumberOperands | Interpreter.java:122-127 | no error exactly for two Doubles; otherwise "Operands must be numbers" at the operator |
| InterpreterJava.Arithmetic | Interpreter.java:57-91 | MINUS, SLASH and STAR give numbers; the comparisons give booleans |
| InterpreterJava.Plus | Interpreter.java:49-56 | PLUS succeeds exactly on two Doubles (their sum) or two Strings (their concatenation); otherwise it throws its message |
| InterpreterJava.BinaryOp | Interpreter.java:42-94 | the numeric operators check both operands; an operator with no case gives null |
| InterpreterJava.EqualityGivesNil | Interpreter.java:47-93 | '==' and '!=' have no case: they never throw and always give null |
| InterpreterJava.ComparisonsAgree | Interpreter.java:72-91 | on numbers the comparisons never throw, '<=' is '<' or not '>', '>=' is '>' or not '<', and '<' and '>' never both hold |
| InterpreterJava.UnaryOp | Interpreter.java:26-40 | BANG negates truthiness; MINUS negates a Double and throws otherwise; any other operator gives null |
| InterpreterJava.UnaryTwice | Interpreter.java:31-37 | negating twice gives the number back; '!!v' is v's truthiness |
| InterpreterJava.ErrorsAtOperators | Interpreter.java:26-94 | every error evaluation throws names an operator of the tree |
| InterpreterJava.LeftErrorWins | Interpreter.java:44-45 | the left operand is evaluated first: its error is the result |
| InterpreterJava.ArithmeticEvaluates | Interpreter.java:42-94 | arithmetic on number literals never throws and gives a number |
| InterpreterJava.StripPointZeroMeans | Interpreter.java:134-136 | the cut removes a final ".0" and leaves any other text alone |
| InterpreterJava.Stringify | Interpreter.java:129-140 | "nil" for null, the number's text less a final ".0", "true"/"false", the string itself |
| InterpreterJava.WholeNumberShown | Interpreter.java:132-137 | a whole number, written with ".0", is shown without it |
| InterpreterJava.Interpret | Interpreter.java:3-14 | the printed line is `stringify` of the value when evaluation succeeds; otherwise it is evaluation's error |
| PrettyPrinterJava.LiteralText | PrettyPrinter.java:18-22 | nil prints as "nil"; other values print their text |
| PrettyPrinterJava.RenderAll | PrettyPrinter.java:33-37 | one text per subexpression, in order |
| PrettyPrinterJava.ParenthesizedShape | PrettyPrinter.java:29-40 | "(" and the name, each subexpression after one space in order, then a final space |
| PrettyPrinterJava.ParenthesizedCounts | PrettyPrinter.java:29-40 | each `parenthesize` adds one '(' and no ')' |
| PrettyPrinterJava.UnclosedParentheses | PrettyPrinter.java:29-40 | as written, a printed tree has one '(' per operator or grouping node and no ')' at all |
| PrettyPrinterJava.GroupExample | PrettyPrinter.java:13-16 | with `Double.toString`'s "1.0", a grouped 1.0 prints as "(group 1.0 " |
| PrettyPrinterJava.ParenthesizedClosedCounts | PrettyPrinter.java:29-40 | corrected: each `parenthesize` adds one '(' and one ')' |
| PrettyPrinterJava.ClosedBalanced | PrettyPrinter.java:29-40 | corrected: one '(' and one ')' per operator or grouping node |
| PrettyPrinterJava.ClosedDiffersAtEnd | PrettyPrinter.java:38 | the two printers differ only in the last character: ' ' versus ')' |
| PrettyPrinterJava.Print | PrettyPrinter.java:3-27 | `print` returns `Render`: binary as (op left right, unary as (op operand, grouping as (group expr |
| PrettyPrinterJava.Parenthesize | PrettyPrinter.java:29-40 | the `StringBuilder` loop returns `Parenthesized` of the subexpressions' texts |

## Left out

- I/O:
  - console output, `metal_error`, `metal_runtime_error`, `Lox.error` and `Metal.runtimeError` are left out;
  - messages the scanners report are `Diagnostic` values;
  - parse reports in parser.hpp are `Report` values;
  - printed lines in interpreter.hpp are a sequence of strings;
  - driver.cpp, METAL.java and src/lox.java are not part of this model.
- Floating point:
  - numbers are exact reals;
  - `std::stod` and `Double.parseDouble` decode a numeral exactly;
  - a division by zero gives 0 (`Values.Quotient`) instead of an infinity or NaN;
  - every numeral decodes, so the failure of `std::stod` on a numeral out of `double` range is not modelled: scanner.hpp:163-170 turns it into a `runtime_error` ("Unexpected number"), and in lexer.hpp:206 the exception escapes `scan_tokens`;
  - `std::to_string` and `Double.toString` are a `format` parameter.
- Character encoding: source text is a sequence of Unicode characters. scanner.hpp and lexer.hpp read `std::string` bytes, and src/Scanner.java reads UTF-16 code units. The two agree on ASCII input. On other input, lexer.hpp and src/Scanner.java report once per byte or code unit: "é" gives two reports in lexer.hpp where the model gives one, and a character outside the Basic Multilingual Plane gives two in Java. Lexeme offsets and lengths differ in the same way. The count lemmas state the count per character.
- LexerHpp.ReportsCountUnhandled: stated for sources without '"'. Characters inside a string literal are skipped without a report, and an unclosed string reports once for the whole rest of the input, so a count per character does not apply there.
- LexerHpp.ReportsOnePerUnhandled: stated for sources without '"', for the same reason.
- ScannerJava.ScanTwice: the model returns each call's list as a value. In Java, `scanTokens` returns the static list itself, so the first call's result is the same object and grows with the second scan.
- Character classification: `isdigit`/`isalpha` are ASCII predicates. lexer.hpp writes `isdigit(ch) == true` and `isalpha(ch) == true`, which holds only when the C library returns exactly 1; the model takes it as true for every digit or letter.
- Ownership: `shared_ptr`, `Token*` and `std::any` are plain datatypes. Visitor dispatch (`accept`/`visit*`) is a `match`; the node variants are the datatypes' constructors.
- parser.cpp does not compile as written:
  - it passes `BinaryExpr` and `LogicalExpr` their operands before the operator;
  - it mixes `shared_ptr<Token>` with `Token*`;
  - `FunctionStmt` and `CallExpr` are declared nowhere;
  - the struct is never closed.
- So parser.cpp is modelled by its evident intent. `EnvironmentsHpp.Expr` gains `Call` and `EnvironmentsHpp.Stmt` gains `Function`. Function calls and function declarations are parsed only, never evaluated.
- parser.cpp's error messages cannot be observed, because its `error` only builds the exception. `ParserCpp` records a thrown `ParseError` as `None`, without a message. The `kind` argument of `function` is used only in a message, so it is dropped.
- ParserCpp.DeclarationAt and ParserCpp.Parser.Declaration require the cursor off EOF_TOKEN. At position 0 on an empty program, `synchronize` would read `tokens[-1]`, and `parse` never calls `declaration` there.
- ParserHpp.Parser.Synchronize and ParserCpp.Parser.Synchronize require the cursor off the first token or off EOF_TOKEN, for the same out-of-range `previous()` read.
- LexerHpp.Lexer.Advance and ScannerJava.Scanner.Advance require the cursor before the end. The source has no bounds check there, and every caller tests `isAtEnd` or `peek` first.
- ParserHpp.LiteralValue and ParserCpp.LiteralValue read a STRING or NUMBER token without a literal as nil. The scanners always set one.
- Java's `ScannerJava.Kind` lists only the token types src/Scanner.java names; the enum's own file is not part of this model.
- The stale Scanner.java, pretty_printer.cpp, expr.cpp, stmt.cpp and src/Token.java are not part of this model.
- InterpreterHpp.Stringify does not model the source's "????" case, because no value of the model has another type.
- InterpreterHpp.Eval is stated through its partner lemmas. Its own contract says only that no variable is added or removed.

## Findings

| source | as written | input that shows it | evidently intended | confidence | as-written member | corrected member |
|---|---|---|---|---|---|---|
| ExpressionsStatementsEnvironments.hpp:205-217 | `assign` writes the current frame when it binds the name, then always recurses into `enclosing`; the root frame always throws | frames `[{a: 1}, {a: 2}]`, assign `a := 3`: both frames become 3, and the call throws although `a` is defined | rebind only the innermost frame that binds the name, and throw only when no frame does | high (not executed) | EnvironmentsHpp.ShadowedBindingOverwritten | EnvironmentsHpp.ResolveAfterNearest |
| Interpreter.java:108-113 | the second test returns true whenever `a` is null | `isEqual(null, 1.0)` is true while `isEqual(1.0, null)` is false | null equals only null, so equality is symmetric | high (not executed) | InterpreterJava.NilEqualsAnything | InterpreterJava.IsEqualCorrectedIsEquality |
| PrettyPrinter.java:29-40 | `parenthesize` appends " " where the closing ")" belongs | `Grouping(Literal(1.0))` prints "(group 1.0 " | every "(" closed by ")", e.g. "(group 1.0)" | high (not executed) | PrettyPrinterJava.UnclosedParentheses | PrettyPrinterJava.ClosedBalanced |
