# NASL tokenizer, modelled in Dafny

This project models the tokenizer of a NASL transpiler: the `Lexer`
struct of `src/lexer.rs` and the token vocabulary and the tables `from_ident`
and `from_str` of `src/token.rs`. The lexer walks over the source text with a
two-character window, `cur_char` at `cur_pos` and `peek_char` after it. Each
call of `next_token` does two things:

- it skips blanks and `#` comments;
- it dispatches on the character under the cursor and returns one token or an
  error string.

The tokens it can return are punctuation, the 36 operators, identifiers and
keywords, decimal numbers, pure (`'…'`) and impure (`"…"`) strings, and `Eof`.

The project has these modules:

- **`Wrappers`** holds `Option` and `Result`.
- **`Tokens`** (`token.dfy`) is the `Token` enum. It has:
  - the operator table and the keyword table, written out as sequences;
  - `FromIdent`, which is `from_ident`;
  - `FromStr`, which is `from_str`, together with its inverse `Lexeme`. `Lexeme` is the text written in the comment beside each operator variant;
  - lemmas that the tables are bijections and that their ranges are disjoint.
- **`ScanSpec`** (`scan_spec.dfy`) is a functional reference for one
  `next_token` call. `Scan(data, pos)` gives the result and the value of
  `cur_pos` afterwards. The ghost `Tokenize` is the driver loop that calls
  `next_token` until it gets `Eof` or an error.
- **`Lexing`** (`lexer.dfy`) is the imperative lexer itself: class `Lexer`,
  with the fields of the Rust struct and one method per Rust method. Each
  method is proved to leave the window consistent (`Valid`) and to agree with
  the reference functions. `ReadGreater` and `ReadLess` are the `>` and `<`
  arms of `next_token`, moved into methods of their own.
- **`ScanProperties`, `OperatorProperties` and `OperatorMunch`** hold what is
  proved about each token class:
  - comment skipping is characterized exactly;
  - `Eof` is sticky;
  - identifiers, numbers and both kinds of string scan back from their text (round trips);
  - every error case is characterized;
  - operators follow maximal munch;
  - the lexer's own operator test holds.
- **`LexerExamples` and `LexerTests`** state the lexer's escape test and a few
  boundary cases as lemmas about `Tokenize`.

Behaviour kept exactly as the code has it:

- **Extra character consumed by `<<`, `<<=` and `>!<`.** After these three
  operators `next_token` calls `read_char` one time more than the length of
  the lexeme. So the character that follows is swallowed: `Tokenize("<<b")`
  is `[Shl, Eof]`. `Overrun` records this per variant, and the operator
  test still passes because the swallowed character is the separating space.
- **`>!` not followed by `<`.** This gives the error `ExpectedLt` with the
  cursor on the `!`.
- **Error positions.**
  - An unexpected character is reported with the cursor left on it.
  - An unterminated string leaves the cursor at the end of the text.
  - An illegal escape leaves the cursor on the illegal character.
- **Numbers are decimal only.** `read_number` (`src/lexer.rs:308-324`) has
  no octal or hexadecimal branch, so `016` is `Num(16)`. A run of digits
  beyond `i32::MAX` is an `InvalidNumber` error, and its digits are consumed.
- **Pure-string escapes are checked but not decoded.** The token carries the
  raw body.

## Model

| member | source | states |
|---|---|---|
| Tokens.Token | src/token.rs:1-78 | definition: one variant per token of the enum, with `IsOperator` and `IsKeyword` picking out the operator and keyword variants; properties in the `Tokens` lemmas below |
| Tokens.Lexeme | src/token.rs:4-39 | definition: the lexeme in the comment beside each operator variant; properties in `Tokens.LexemeRoundTrip` and `Tokens.FromStrLexeme` |
| Tokens.FromStr | src/token.rs:105-145 | definition: the operator table of `from_str`, defined on the table's lexemes; properties in `Tokens.FromStrAt`, `Tokens.FromStrLexeme` and `Tokens.FromStrInjective` |
| Tokens.FromIdent | src/token.rs:81-102 | definition: the keyword table of `from_ident`, with `Ident` for any other text; properties in `Tokens.FromIdentAt`, `Tokens.FromIdentClassifies` and `Tokens.FromIdentRange` |
| Tokens.FromStrAt | src/token.rs:105-145 | row i of the operator table: `from_str` maps the i-th lexeme to the i-th variant, and that variant is an operator whose comment lexeme is the i-th lexeme |
| Tokens.FromStrLexeme | src/token.rs:105-145 | `from_str` on any table lexeme yields an operator variant whose lexeme is the text given |
| Tokens.LexemeRoundTrip | src/token.rs:3-39 | every operator variant's lexeme is in the table and `from_str` maps it back to the variant |
| Tokens.OperatorRow | src/token.rs:3-39 | every operator variant stands at some row of the variant table |
| Tokens.FromStrInjective | src/token.rs:106-142 | distinct operator lexemes give distinct variants |
| Tokens.FromIdentAt | src/token.rs:81-102 | row i of the keyword table: the i-th reserved word maps to the i-th keyword variant, whose word it is |
| Tokens.FromIdentClassifies | src/token.rs:81-102 | `from_ident` yields a keyword exactly for the reserved words, that keyword's word is the input, and any other text becomes `Ident` of the same text |
| Tokens.KeywordRoundTrip | src/token.rs:82-99 | every keyword variant's word is reserved and `from_ident` maps it back |
| Tokens.FromIdentRange | src/token.rs:81-102 | `from_ident` never yields an operator, number, string, `Eof` or `Comment` |
| Tokens.TablesDisjoint | src/token.rs:105-145 | no operator lexeme and no word map to the same variant |
| ScanSpec.SpanEnd | src/lexer.rs:299-304 | the end of a maximal run: every character before it satisfies the predicate and the one at it does not |
| ScanSpec.SkipEnd | src/lexer.rs:269-288 | skipping stops at the end of the text or on a character that is neither blank nor `#` |
| ScanSpec.PureEnd | src/lexer.rs:249-265 | the pure-string loop stops within the text, or at its end |
| ScanSpec.ParseI32 | src/lexer.rs:316-323 | definition: `parse::<i32>` on a digit run, `Ok` of its value up to `i32::MAX` and `InvalidNumber` otherwise; properties in `ScanProperties.ParseDecimalString` and `ScanProperties.ParseOverflow` |
| ScanSpec.ImpureStrAt | src/lexer.rs:51-52 | definition: the `"` arm together with `read_impure_str` (src/lexer.rs:233-243); properties in `ScanProperties.ImpureStringScan` and `ScanProperties.ImpureStringRoundTrip` |
| ScanSpec.PureStrAt | src/lexer.rs:245-267 | definition: the `'` arm together with `read_pure_str`; properties in `ScanProperties.PureStrAtCases`, `ScanProperties.PureStringScan` and `ScanProperties.PureStringRoundTrip` |
| ScanSpec.IdentAt | src/lexer.rs:297-306 | definition: the letter arm together with `read_identifier` (src/lexer.rs:211-213); properties in `ScanProperties.IdentifierScan` and `ScanProperties.IdentifierRoundTrip` |
| ScanSpec.NumberAt | src/lexer.rs:308-324 | definition: the digit arm together with `read_number` (src/lexer.rs:214-216); properties in `ScanProperties.NumberScan` and `ScanProperties.NumberRoundTrip` |
| ScanSpec.GreaterAt | src/lexer.rs:153-189 | definition: the `>` arm; properties in `OperatorMunch.MunchesGt`, `OperatorMunch.MissingLtError` and `Lexing.Lexer.ReadGreater` |
| ScanSpec.LessAt | src/lexer.rs:190-209 | definition: the `<` arm; properties in `OperatorMunch.MunchesLt` and `Lexing.Lexer.ReadLess` |
| ScanSpec.TokenizeFrom | src/main.rs:10-23 | definition: the driver loop of `main` and of the operator test, calling `next_token` until an error or `Eof`; properties in `ScanProperties.TokenizeEndsAtEof` and `ScanProperties.TokenizeFromAfterGap` |
| ScanSpec.Tokenize | src/lexer.rs:341-347 | definition: that loop started on a fresh lexer; properties in `OperatorProperties.OperatorsTestPasses` and the `LexerTests` lemmas |
| ScanSpec.ScanAt | src/lexer.rs:42-223 | a token always moves the cursor forward; `Eof` comes exactly at the end of the text; any other token starts inside the text and ends at most one past it |
| ScanSpec.Scan | src/lexer.rs:40-41 | a token moves the cursor forward; `Eof` exactly when only blanks and comments remain |
| Lexing.Lexer.constructor | src/lexer.rs:27-38 | the cursor is at 0 with the window on the first two characters |
| Lexing.Lexer.ReadChar | src/lexer.rs:290-295 | the window shifts by one, `cur_pos` grows by one (also past the end), and the new current character is returned |
| Lexing.Lexer.EatWhitespaceOrComment | src/lexer.rs:269-288 | the cursor moves to `SkipEnd`, past blanks and `#` comments, and rests on the end or on a character that is neither |
| Lexing.Lexer.ReadIdentifier | src/lexer.rs:297-306 | the cursor moves to the end of the identifier-character run and the run's text is returned |
| Lexing.Lexer.ReadNumber | src/lexer.rs:308-324 | the cursor moves past the run of digits and the result is that run parsed as an `i32`, or an error |
| Lexing.Lexer.ReadImpureStr | src/lexer.rs:233-243 | the cursor stops at the next `"` and the text before it is returned verbatim; with no `"` left, the cursor is at the end and the result is an error |
| Lexing.Lexer.ReadPureStr | src/lexer.rs:245-267 | the cursor stops where `PureEnd` does; the result is the raw body at a closing quote, an illegal-escape error naming the character, or an unterminated-string error |
| Lexing.Lexer.ReadGreater | src/lexer.rs:153-189 | result and cursor agree with `GreaterAt`: `>`, `><`, `>=`, `>>`, `>>=`, `>>>`, `>!<`, or the error for `>!` without `<` |
| Lexing.Lexer.ReadLess | src/lexer.rs:190-209 | result and cursor agree with `LessAt`: `<`, `<=`, `<<`, `<<=` |
| Lexing.Lexer.NextToken | src/lexer.rs:40-224 | one call returns exactly `Scan(data, old cur_pos)` and leaves the cursor where `Scan` says, keeping the window consistent |
| ScanProperties.SkipEndSkipsGap | src/lexer.rs:269-288 | what skipping passes over is blanks and comments |
| ScanProperties.GapSkipped | src/lexer.rs:269-288 | skipping from anywhere inside a stretch of blanks and comments lands at the same place |
| ScanProperties.SkipEndCharacterized | src/lexer.rs:269-288 | skipping from p stops at e if and only if data[p..e] is blanks and comments and nothing more can be skipped at e |
| ScanProperties.EofSticky | src/lexer.rs:220-223 | after `Eof` the cursor is past the end and every later call returns `Eof` again |
| ScanProperties.TokenizeEndsAtEof | src/lexer.rs:40-224 | a run of calls without error ends with exactly one `Eof`, as its last token |
| ScanProperties.TokenizeFromAfterGap | src/lexer.rs:41 | tokenizing from any point inside blanks and comments gives the same tokens |
| ScanProperties.ScanAtDispatch | src/lexer.rs:51-216 | `"`, `'`, a letter or `_`, and a digit hand over to the impure-string, pure-string, identifier and number scanners |
| ScanProperties.UnexpectedCharacter | src/lexer.rs:210-219 | the unexpected-character error comes exactly for characters that start no token class, with the cursor left on the character |
| ScanProperties.SpanEndOfRun | src/lexer.rs:299-304 | a run of characters satisfying P from p that ends at q is exactly what the loop finds |
| ScanProperties.IdentifierScan | src/lexer.rs:211-213 | an identifier is the whole run of identifier characters: a reserved word becomes its keyword and any other word an `Ident`, with the cursor after the run |
| ScanProperties.IdentifierRoundTrip | src/lexer.rs:297-306 | a word followed by a character that cannot continue it scans back to its `Ident` (or keyword) and consumes exactly the word |
| ScanProperties.DecimalStringValue | src/lexer.rs:316-317 | the decimal text of n reads back to n and has no leading zero |
| ScanProperties.LeadingZero | src/lexer.rs:316-317 | a leading zero does not change a digit string's value |
| ScanProperties.ParseDecimalString | src/lexer.rs:316-323 | the decimal text of any `i32` from 0 up parses back to it |
| ScanProperties.ParseOverflow | src/lexer.rs:316-323 | the text of `i32::MAX + 1` fails to parse |
| ScanProperties.NumberScan | src/lexer.rs:214-216 | a number is the whole run of digits: `Num` of its value if it fits an `i32`, an `InvalidNumber` error otherwise, and the cursor after the run in both cases |
| ScanProperties.NumberRoundTrip | src/lexer.rs:308-324 | the decimal text of an `i32` value followed by a non-digit scans back to `Num` of that value |
| ScanProperties.ImpureStringScan | src/lexer.rs:233-243 | a `"` string succeeds if and only if another `"` follows; its body is the text up to the first one, which is quote-free, and the cursor goes past it; otherwise the error is unterminated at the end |
| ScanProperties.ImpureStringRoundTrip | src/lexer.rs:233-243 | any quote-free text between double quotes scans back to itself |
| ScanProperties.PureEndStops | src/lexer.rs:249-265 | the pure-string loop stops at a quote after a well-escaped text, or at an illegal character after a backslash that ends a well-escaped text |
| ScanProperties.PureEndOfWellEscaped | src/lexer.rs:249-265 | the loop runs over any well-escaped text up to the quote after it |
| ScanProperties.PureEndAcross | src/lexer.rs:249-265 | the pure-string loop passes over any well-escaped stretch and reaches the same end as from the stretch's end |
| ScanProperties.PureStringScan | src/lexer.rs:245-267 | a `'` string succeeds with a well-escaped raw body closed by `'`; an `InvalidEscape(c)` error names an illegal c after a backslash; an unterminated error ends at the end of the text |
| ScanProperties.PureStringIllegalEscape | src/lexer.rs:250-258 | conversely, a `'` string whose body is well-escaped up to a backslash followed by an illegal character fails with `InvalidEscape` of that character, with the cursor on it |
| ScanProperties.PureStrAtCases | src/lexer.rs:245-267 | the same three cases, stated on the pure-string scanner itself |
| ScanProperties.PureStringCloses | src/lexer.rs:260-261 | a well-escaped run followed by `'` closes the string, with the raw body as its text |
| ScanProperties.PureStringRoundTrip | src/lexer.rs:245-267 | any well-escaped text between single quotes scans back to itself, escapes kept raw |
| OperatorProperties.OperatorScanAt | src/lexer.rs:54-209 | row i's lexeme, followed by a blank or the end, scans to row i's variant and consumes the lexeme plus its overrun |
| OperatorProperties.OperatorScan | src/lexer.rs:54-209 | any table lexeme, followed by a blank or the end, scans to `from_str` of it |
| OperatorProperties.JoinedOperatorsFrom | src/lexer.rs:338-347 | any sequence of operators, written as their lexemes and joined by single spaces, tokenizes back to the same sequence followed by `Eof`, with no error |
| OperatorProperties.OperatorsTestPasses | src/lexer.rs:331-348 | the operator test: the table's lexemes joined by spaces tokenize to the table's variants in order, then `Eof` |
| OperatorMunch.MunchesGt | src/lexer.rs:153-189 | where `>` is written, the result is an operator at least as long, or the `>!` error |
| OperatorMunch.MunchesLt | src/lexer.rs:190-209 | where `<` is written, the result is an operator at least as long |
| OperatorMunch.OperatorMaximalMunch | src/lexer.rs:54-209 | wherever an operator lexeme is written, the result is the `>!` error or an operator whose lexeme is written there, maps back through `from_str`, and is at least as long as every table lexeme written there |
| OperatorMunch.MissingLtError | src/lexer.rs:175-182 | after `>!` the scan fails exactly when no `<` follows, with `ExpectedLt` naming the next character, and otherwise yields `>!<` |
| OperatorMunch.OperatorOnlyFromLead | src/lexer.rs:42-219 | an operator result only arises on one of the 12 operator lead characters |
| OperatorMunch.OperatorAdvance | src/lexer.rs:54-209 | any operator result has its lexeme written at the cursor and moves the cursor past the lexeme plus its overrun |
| LexerExamples.IllegalEscape | src/lexer.rs:250-258 | a pure string whose body is well-escaped up to a backslash followed by an illegal character stops tokenizing with no token and `InvalidEscape` of that character |
| LexerExamples.BlanksSkipped | src/lexer.rs:283-286 | a run of blanks is skipped to the first character that is neither blank nor `#` |
| LexerExamples.CommentLine | src/lexer.rs:269-288 | two words with a `#` comment and its newline between them tokenize to the two `Ident`s and `Eof`: the comment vanishes |
| LexerExamples.QuotedLineScan | src/lexer.rs:245-267 | a line of well-escaped pure strings, each followed by a space, gives one `PureStr` per string and then whatever the rest of the text gives |
| LexerExamples.IndentedLineScan | src/lexer.rs:350-365 | an indented line of such strings that ends in an illegal escape gives those strings and then the escape error |
| LexerTests.EscapeCharsPass | src/lexer.rs:350-365 | the escape test: the eight legal escapes each scan to their raw `PureStr`, and `'\F'` then fails with `InvalidEscape('F')` |
| LexerTests.KeywordPrefixExample | src/lexer.rs:211-213 | `iffy` is one identifier, not the keyword `if` followed by more |
| LexerTests.LeadingZeroExample | src/lexer.rs:214-216 | `016` is the decimal number 16 |
| LexerTests.EscapeAfterTextExample | src/lexer.rs:252-258 | `'ab\F'` fails with `InvalidEscape('F')`: an illegal escape after ordinary text is caught |
| LexerTests.CommentExample | src/lexer.rs:269-288 | `a # c` newline `b` tokenizes to `Ident("a")`, `Ident("b")`, `Eof` |
| LexerTests.ShiftOverrunExample | src/lexer.rs:190-209 | `<<b` gives `Shl` and then `Eof`: the `b` is consumed by the shift |

## Left out

- `src/parser.rs` and `src/ast.rs` are not part of this model: they consume the token stream.
- `src/main.rs` is modelled only for its driver loop (`src/main.rs:10-23`), which calls `next_token` until an error or `Eof`. Its reading of the input file, its printing of each token or error, and its pauses to read a line from stdin are left out, because they are I/O.
- Error values: the source returns formatted `String` messages. The model returns a `LexError` variant carrying the same data: the character, the string, or the peeked option.
- Positions count characters. The source slices `data` by `cur_pos`, which counts characters, while Rust slices by bytes. The mismatch on non-ASCII text, where a slice can be wrong or panic, is not modelled.
- `is_numeric` is Unicode-aware in the source. The model treats only ASCII digits as numeric. A non-ASCII numeric character, which the source would send to `parse::<i32>` and fail, is an `UnexpectedChar` error here.
- Unicode `char` iteration (`Chars`) is modelled as indexing into a `seq<char>`. `peek_cursor` is the implicit index `cur_pos + 2`.
- Octal and hexadecimal literals are not modelled, because the code has none.
- Escape decoding in pure strings is not modelled, because the source does not decode either.
- The `Comment` token is never produced by the lexer. It exists only as a variant.
- ScanSpec.Tokenize: the driver loop of `src/main.rs:10-23` and the loop of the operator test (`src/lexer.rs:341-347`) are modelled by the ghost functions `TokenizeFrom` and `Tokenize`, not by an imperative method, because each loop's body differs only in the I/O or assertion it does around `next_token`.
- Tokens.FromStr: the panic on text outside the operator table is a precondition, `s in Operators`.
- OperatorMunch.OperatorMaximalMunch: maximal munch is stated against the lexemes of the operator table only. Identifiers and other token classes are characterized by their own lemmas.
