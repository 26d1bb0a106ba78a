/** The unit tests of src/lexer.rs and a few inputs that show the tokenizer's edge cases. */
module LexerTests {
  import opened Wrappers
  import opened Tokens
  import opened ScanSpec
  import opened ScanProperties
  import opened OperatorProperties
  import opened LexerExamples

  /** The eight legal escapes of the `escape_chars` test, raw. */
  const LegalEscapes: seq<string> := ["\\n", "\\r", "\\t", "\\b", "\\\\", "\\'", "\\\"", "\\v"]

  /** The end of the `escape_chars` text: a pure string with the illegal escape `\F`. */
  const BadTail: string := "'\\F'\n        "

  /** The text of the `escape_chars` test: an indented line of nine pure strings. */
  const EscapeText: string := "\n            " + QuotedLine(LegalEscapes, BadTail)

  /** The `escape_chars` test: the eight legal escapes come back raw, then `\F` is rejected on the `F`. */
  lemma EscapeCharsPass()
    ensures Tokenize(EscapeText) == Outcome(PureStrs(LegalEscapes), Some(InvalidEscape('F')))
  {
    var indent := "\n            ";
    assert forall i :: 0 <= i < |indent| ==> IsBlank(indent[i]);
    assert AllWellEscaped(LegalEscapes);
    assert BadTail[0] == '\'' && BadTail[1] == '\\' && BadTail[2] == 'F';
    IndentedLineScan(indent, LegalEscapes, BadTail);
  }

  /** A keyword prefix does not split a word: `iffy` is one identifier. */
  lemma KeywordPrefixExample()
    ensures Tokenize("iffy") == Outcome([Ident("iffy"), Eof], None)
  {
    var d := "iffy";
    assert d[0..4] == d;
    assert d !in Keywords;
    IdentifierScan(d, 0, 4);
    TokenThenEnd(d, 0, Ident("iffy"), 4);
  }

  /** Numbers are decimal: a leading zero is dropped, not read as octal. */
  lemma LeadingZeroExample()
    ensures Tokenize("016") == Outcome([Num(16), Eof], None)
  {
    var d := "016";
    assert d[0..3] == d;
    LeadingZero("16");
    assert DecimalValue(d) == 16;
    NumberScan(d, 0, 3);
    TokenThenEnd(d, 0, Num(16), 3);
  }

  /** `<<` consumes the character after it: in `<<b` the `b` is lost. */
  lemma ShiftOverrunExample()
    ensures Tokenize("<<b") == Outcome([Shl, Eof], None)
  {
    var d := "<<b";
    assert ScanAt(d, 0) == Step(Ok(Shl), 3);
    TokenThenEnd(d, 0, Shl, 3);
  }

  /** An illegal escape after legal text: `'ab\F'` fails on the `F`, with no token. */
  lemma EscapeAfterTextExample()
    ensures Tokenize("'ab\\F'") == Outcome([], Some(InvalidEscape('F')))
  {
    var d := "'ab\\F'";
    assert d[1..3] == "ab" && WellEscaped("ab");
    assert d[3] == '\\' && d[4] == 'F';
    assert SkipEnd(d, 0, false) == 0;
    IllegalEscape(d, 0, 0, 3);
  }

  /** A `#` comment runs to the end of its line and vanishes: `a # c` newline `b` is two identifiers. */
  lemma CommentExample()
    ensures Tokenize("a # c\nb") == Outcome([Ident("a"), Ident("b"), Eof], None)
  {
    var d := "a # c\nb";
    assert d == "a" + " #" + " c" + "\n" + "b";
    assert IsWord("a") && IsWord("b") && "a" !in Keywords && "b" !in Keywords;
    assert forall i :: 0 <= i < |" c"| ==> " c"[i] != '\n';
    CommentLine(d, "a", " c", "b", 1, 6);
  }
}
