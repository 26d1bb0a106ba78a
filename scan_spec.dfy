/**
 * The reference semantics of the NASL tokenizer (src/lexer.rs) as pure
 * functions over the source text and a position in it. The imperative
 * `Lexing.Lexer` class is proved to follow these functions step by step;
 * `ScanProperties` proves what they promise.
 *
 * Positions count characters, like the source's `cur_pos`. A position may
 * run past the end of the text: the source's `read_char` advances `cur_pos`
 * even when there is no character left.
 */
module ScanSpec {
  import opened Wrappers
  import opened Tokens

  /** The failures the source reports; its messages are formatted strings naming these payloads. */
  datatype LexError =
    | UnterminatedString            // "Unexpected eof while reading a string"
    | InvalidEscape(ch: char)       // the character after a backslash in a pure string
    | InvalidNumber(text: string)   // "<text> is not a valid number."
    | UnexpectedChar(ch: char)      // "Unexpected character <ch>"
    | ExpectedLt(got: Option<char>) // "Expected '<', got <peek>" after ">!"

  /** The character at index i, or None past the end: `cur_char`/`peek_char` of a cursor at i. */
  function CharAt(data: string, i: nat): (c: Option<char>)
  {
    if i < |data| then Some(data[i]) else None
  }

  /** The characters the tokenizer skips between tokens: tab, CR, form feed, space, newline. */
  predicate IsBlank(c: char)
  {
    c == '\t' || c == '\r' || c == '\U{000C}' || c == ' ' || c == '\n'
  }

  predicate IsAsciiAlpha(c: char)
  {
    'a' <= c <= 'z' || 'A' <= c <= 'Z'
  }

  predicate IsAsciiDigit(c: char)
  {
    '0' <= c <= '9'
  }

  /** A character an identifier may continue with. */
  predicate IsIdentChar(c: char)
  {
    IsAsciiAlpha(c) || IsAsciiDigit(c) || c == '_'
  }

  /** A character an impure string's body may contain. */
  predicate NotDoubleQuote(c: char)
  {
    c != '"'
  }

  /** The characters that may follow a backslash in a pure string. */
  predicate IsEscapeChar(c: char)
  {
    c == 'n' || c == 't' || c == 'v' || c == 'r' || c == '\'' || c == '"' || c == 'b' || c == '\\'
  }

  /**
   * The end of the maximal run of characters satisfying P that starts at p:
   * where a `while let Some(ch) = self.cur_char { if !P(ch) { break } ... }`
   * loop leaves the cursor.
   */
  function SpanEnd(data: string, p: nat, P: char -> bool): (e: nat)
    decreases |data| - p
    ensures p <= e
    ensures p <= |data| ==> e <= |data|
    ensures p >= |data| ==> e == p
    ensures forall i :: p <= i < e ==> i < |data| && P(data[i])
    ensures e < |data| ==> !P(data[e])
  {
    if p < |data| && P(data[p]) then SpanEnd(data, p + 1, P) else p
  }

  /**
   * Where `eat_whitespace_or_comment` leaves the cursor when it starts at p
   * with its `in_comment` flag set to inComment. A `#` opens a comment that
   * runs up to and including the next newline.
   */
  function SkipEnd(data: string, p: nat, inComment: bool): (e: nat)
    decreases |data| - p
    ensures p <= e
    ensures p <= |data| ==> e <= |data|
    ensures p >= |data| ==> e == p
    ensures e < |data| ==> !IsBlank(data[e]) && data[e] != '#'
  {
    if p >= |data| then p
    else if inComment then SkipEnd(data, p + 1, data[p] != '\n')
    else if data[p] == '#' then SkipEnd(data, p + 1, true)
    else if IsBlank(data[p]) then SkipEnd(data, p + 1, false)
    else p
  }

  /**
   * Where `read_pure_str`'s loop stops when it starts at p with its
   * `on_escape` flag set to onEscape: at the closing quote, at an illegal
   * escaped character, or at the end of the text.
   */
  function PureEnd(data: string, p: nat, onEscape: bool): (e: nat)
    decreases |data| - p
    ensures p <= e
    ensures p <= |data| ==> e <= |data|
    ensures p >= |data| ==> e == p
  {
    if p >= |data| then p
    else if data[p] == '\\' && !onEscape then PureEnd(data, p + 1, true)
    else if onEscape then (if IsEscapeChar(data[p]) then PureEnd(data, p + 1, false) else p)
    else if data[p] == '\'' then p
    else PureEnd(data, p + 1, false)
  }

  /**
   * A well-formed pure-string body: no unescaped single quote, and every
   * backslash followed by one of the legal escape characters.
   */
  predicate WellEscaped(s: string)
    decreases |s|
  {
    if s == [] then true
    else if s[0] == '\\' then |s| >= 2 && IsEscapeChar(s[1]) && WellEscaped(s[2..])
    else s[0] != '\'' && WellEscaped(s[1..])
  }

  predicate AllDigits(s: string)
  {
    forall i :: 0 <= i < |s| ==> IsAsciiDigit(s[i])
  }

  function DigitValue(c: char): (d: nat)
    requires IsAsciiDigit(c)
  {
    (c as int) - ('0' as int)
  }

  /** The value of a string of decimal digits (0 for the empty string). */
  function DecimalValue(s: string): (v: nat)
    requires AllDigits(s)
    decreases |s|
  {
    if s == [] then 0 else 10 * DecimalValue(s[..|s| - 1]) + DigitValue(s[|s| - 1])
  }

  /**
   * `str::parse::<i32>` on a run of ASCII digits: the decimal value if it is
   * at most `i32::MAX`; an error for an empty run or an overflow.
   */
  function ParseI32(s: string): (r: Result<i32, LexError>)
    requires AllDigits(s)
  {
    if s != [] && DecimalValue(s) <= I32Max then Ok(DecimalValue(s)) else Err(InvalidNumber(s))
  }

  /** One call of `next_token`: its result and where it leaves `cur_pos`. */
  datatype Step = Step(result: Result<Token, LexError>, next: nat)

  /**
   * An impure string whose opening quote is at p: the body up to the next
   * `"` taken verbatim; the closing quote is consumed too.
   */
  function ImpureStrAt(data: string, p: nat): (st: Step)
    requires p < |data|
  {
    var e := SpanEnd(data, p + 1, NotDoubleQuote);
    if e < |data| then Step(Ok(ImpureStr(data[p + 1..e])), e + 1)
    else Step(Err(UnterminatedString), e)
  }

  /**
   * A pure string whose opening quote is at p: the raw body up to the first
   * unescaped `'`, escapes checked but not decoded.
   */
  function PureStrAt(data: string, p: nat): (st: Step)
    requires p < |data|
  {
    var e := PureEnd(data, p + 1, false);
    if e >= |data| then Step(Err(UnterminatedString), e)
    else if data[e] == '\'' then Step(Ok(PureStr(data[p + 1..e])), e + 1)
    else Step(Err(InvalidEscape(data[e])), e)
  }

  /** An identifier or keyword starting at p. */
  function IdentAt(data: string, p: nat): (st: Step)
    requires p < |data|
  {
    var e := SpanEnd(data, p, IsIdentChar);
    Step(Ok(FromIdent(data[p..e])), e)
  }

  /** A decimal number starting at p. */
  function NumberAt(data: string, p: nat): (st: Step)
    requires p < |data|
  {
    var e := SpanEnd(data, p, IsAsciiDigit);
    assert AllDigits(data[p..e]);
    match ParseI32(data[p..e])
    case Ok(v) => Step(Ok(Num(v)), e)
    case Err(err) => Step(Err(err), e)
  }

  /** The `>` family, with the character after `>` at p + 1 and the one after that at p + 2. */
  function GreaterAt(data: string, p: nat): (st: Step)
  {
    var c1 := CharAt(data, p + 1);
    var c2 := CharAt(data, p + 2);
    if c1 == Some('<') then Step(Ok(Substr), p + 2)
    else if c1 == Some('=') then Step(Ok(Gte), p + 2)
    else if c1 == Some('>') then
      (if c2 == Some('=') then Step(Ok(ShrEq), p + 3)
       else if c2 == Some('>') then Step(Ok(Ushr), p + 3)
       else Step(Ok(Shr), p + 2))
    else if c1 == Some('!') then
      (if c2 == Some('<') then Step(Ok(NSubstr), p + 4)
       else Step(Err(ExpectedLt(c2)), p + 1))
    else Step(Ok(Gt), p + 1)
  }

  /** The `<` family. */
  function LessAt(data: string, p: nat): (st: Step)
  {
    var c1 := CharAt(data, p + 1);
    var c2 := CharAt(data, p + 2);
    if c1 == Some('=') then Step(Ok(Lte), p + 2)
    else if c1 == Some('<') then
      (if c2 == Some('=') then Step(Ok(ShlEq), p + 4) else Step(Ok(Shl), p + 3))
    else Step(Ok(Lt), p + 1)
  }

  /**
   * The token at p, once blanks and comments are skipped: the dispatch of
   * `next_token` on `cur_char`, with `peek_char` at p + 1 and the character
   * after it at p + 2. `next` counts every `read_char` the source performs,
   * so `<<`, `<<=` and `>!<` consume one character beyond their lexeme.
   */
  function ScanAt(data: string, p: nat): (st: Step)
    ensures st.result.Ok? ==> p < st.next
    ensures st.result == Ok(Eof) <==> p >= |data|
    ensures st.result.Ok? && st.result.value != Eof ==> p < |data| && st.next <= |data| + 1
  {
    if p >= |data| then Step(Ok(Eof), p + 1)
    else
      var c1 := CharAt(data, p + 1);
      var c2 := CharAt(data, p + 2);
      match data[p]
      case '(' => Step(Ok(Lparan), p + 1)
      case ')' => Step(Ok(Rparan), p + 1)
      case '{' => Step(Ok(Lbrace), p + 1)
      case '}' => Step(Ok(Rbrace), p + 1)
      case '[' => Step(Ok(Lbracket), p + 1)
      case ']' => Step(Ok(Rbracket), p + 1)
      case ';' => Step(Ok(SemiColon), p + 1)
      case ':' => Step(Ok(Colon), p + 1)
      case '"' => ImpureStrAt(data, p)
      case '\'' => PureStrAt(data, p)
      case ',' => Step(Ok(Comma), p + 1)
      case '+' =>
        if c1 == Some('+') then Step(Ok(Incr), p + 2)
        else if c1 == Some('=') then Step(Ok(PlusEq), p + 2)
        else Step(Ok(Plus), p + 1)
      case '-' =>
        if c1 == Some('-') then Step(Ok(Decr), p + 2)
        else if c1 == Some('=') then Step(Ok(MinusEq), p + 2)
        else Step(Ok(Minus), p + 1)
      case '*' =>
        if c1 == Some('*') then Step(Ok(Pow), p + 2)
        else if c1 == Some('=') then Step(Ok(MulEq), p + 2)
        else Step(Ok(Mul), p + 1)
      case '/' =>
        if c1 == Some('=') then Step(Ok(DivEq), p + 2) else Step(Ok(Div), p + 1)
      case '%' =>
        if c1 == Some('=') then Step(Ok(ModEq), p + 2) else Step(Ok(Mod), p + 1)
      case '=' =>
        if c1 == Some('=') then Step(Ok(Equ), p + 2)
        else if c1 == Some('~') then Step(Ok(ReMatch), p + 2)
        else Step(Ok(Assign), p + 1)
      case '!' =>
        if c1 == Some('=') then Step(Ok(Nequ), p + 2)
        else if c1 == Some('~') then Step(Ok(NreMatch), p + 2)
        else Step(Ok(Not), p + 1)
      case '&' =>
        if c1 == Some('&') then Step(Ok(And), p + 2) else Step(Ok(BwAnd), p + 1)
      case '|' =>
        if c1 == Some('|') then Step(Ok(Or), p + 2) else Step(Ok(BwOr), p + 1)
      case '^' =>
        if c1 == Some('=') then Step(Ok(XorEq), p + 2) else Step(Ok(BwXor), p + 1)
      case '>' => GreaterAt(data, p)
      case '<' => LessAt(data, p)
      case c =>
        if IsAsciiAlpha(c) || c == '_' then IdentAt(data, p)
        else if IsAsciiDigit(c) then NumberAt(data, p)
        else Step(Err(UnexpectedChar(c)), p)
  }

  /** One call of `next_token` with the cursor at pos. */
  function Scan(data: string, pos: nat): (st: Step)
    ensures st.result.Ok? ==> pos < st.next
    ensures st.result == Ok(Eof) <==> SkipEnd(data, pos, false) >= |data|
  {
    ScanAt(data, SkipEnd(data, pos, false))
  }

  /** The tokens a driver loop collects from repeated `next_token` calls, and the error if one stops it. */
  datatype Outcome = Outcome(tokens: seq<Token>, failure: Option<LexError>)

  /**
   * Calls `next_token` from pos until it returns `Eof` (kept as the last
   * token) or an error (kept as `failure`).
   */
  ghost function TokenizeFrom(data: string, pos: nat): (o: Outcome)
    decreases |data| + 2 - pos
  {
    var st := Scan(data, pos);
    match st.result
    case Err(e) => Outcome([], Some(e))
    case Ok(t) =>
      if t == Eof then Outcome([Eof], None)
      else
        var rest := TokenizeFrom(data, st.next);
        Outcome([t] + rest.tokens, rest.failure)
  }

  /** A fresh lexer over data, pulled to the end. */
  ghost function Tokenize(data: string): (o: Outcome)
  {
    TokenizeFrom(data, 0)
  }
}
