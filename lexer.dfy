/**
 * The NASL tokenizer itself (src/lexer.rs): a cursor over the source text
 * that `next_token` advances one token at a time.
 *
 * The fields are those of the Rust struct. `peek_cursor`, the `Chars`
 * iterator that lags two characters behind, is the implicit index
 * `curPos + 2`: `ReadChar` reads the character there.
 */
module Lexing {
  import opened Wrappers
  import opened Tokens
  import opened ScanSpec

  class Lexer {
    const data: string
    var curPos: nat
    var curChar: Option<char>
    var peekChar: Option<char>

    /** The cursor invariant: `cur_char` is the character at `cur_pos`, `peek_char` the next one. */
    ghost predicate Valid()
      reads this
    {
      curChar == CharAt(data, curPos) && peekChar == CharAt(data, curPos + 1)
    }

    /** `Lexer::new`. */
    constructor (data: string)
      ensures this.data == data && curPos == 0 && Valid()
      ensures curChar == CharAt(data, 0) && peekChar == CharAt(data, 1)
    {
      this.data := data;
      curPos := 0;
      curChar := CharAt(data, 0);
      peekChar := CharAt(data, 1);
    }

    /** `read_char`: shift the window by one; `cur_pos` grows by one even past the end. */
    method ReadChar() returns (c: Option<char>)
      requires Valid()
      modifies this
      ensures Valid() && curPos == old(curPos) + 1
      ensures c == curChar && curChar == old(peekChar)
    {
      curChar := peekChar;
      peekChar := CharAt(data, curPos + 2);
      curPos := curPos + 1;
      c := curChar;
    }

    /** `eat_whitespace_or_comment`. */
    method EatWhitespaceOrComment()
      requires Valid()
      modifies this
      ensures Valid() && curPos == SkipEnd(data, old(curPos), false)
      ensures curChar.None? || (!IsBlank(curChar.value) && curChar.value != '#')
    {
      var inComment := false;
      while curChar.Some?
        invariant Valid() && old(curPos) <= curPos
        invariant SkipEnd(data, curPos, inComment) == SkipEnd(data, old(curPos), false)
        decreases |data| - curPos, if inComment then 0 else 1
      {
        var ch := curChar.value;
        if inComment {
          if ch == '\n' {
            inComment := false;
          }
          var _ := ReadChar();
          continue;
        }
        if ch == '#' {
          inComment := true;
          continue;
        }
        if !IsBlank(ch) {
          break;
        }
        var _ := ReadChar();
      }
    }

    /** `read_identifier`: the maximal run of identifier characters from the cursor. */
    method ReadIdentifier() returns (key: string)
      requires Valid() && curPos <= |data|
      modifies this
      ensures Valid() && curPos == SpanEnd(data, old(curPos), IsIdentChar)
      ensures key == data[old(curPos)..curPos]
    {
      var start := curPos;
      while curChar.Some?
        invariant Valid() && start <= curPos <= |data|
        invariant SpanEnd(data, curPos, IsIdentChar) == SpanEnd(data, start, IsIdentChar)
        decreases |data| - curPos
      {
        var ch := curChar.value;
        if !IsIdentChar(ch) {
          break;
        }
        var _ := ReadChar();
      }
      key := data[start..curPos];
    }

    /** `read_number`: the maximal run of digits from the cursor, parsed as an `i32`. */
    method ReadNumber() returns (r: Result<i32, LexError>)
      requires Valid() && curPos <= |data|
      modifies this
      ensures Valid() && curPos == SpanEnd(data, old(curPos), IsAsciiDigit)
      ensures AllDigits(data[old(curPos)..curPos]) && r == ParseI32(data[old(curPos)..curPos])
    {
      var start := curPos;
      while curChar.Some?
        invariant Valid() && start <= curPos <= |data|
        invariant SpanEnd(data, curPos, IsAsciiDigit) == SpanEnd(data, start, IsAsciiDigit)
        decreases |data| - curPos
      {
        var ch := curChar.value;
        if !IsAsciiDigit(ch) {
          break;
        }
        var _ := ReadChar();
      }
      assert AllDigits(data[start..curPos]);
      r := ParseI32(data[start..curPos]);
    }

    /**
     * `read_impure_str`, called on the opening `"`: the body up to the next
     * `"`, where the cursor is left; at the end of the text, an error.
     */
    method ReadImpureStr() returns (r: Result<string, LexError>)
      requires Valid()
      modifies this
      ensures Valid()
      ensures var e := SpanEnd(data, old(curPos) + 1, NotDoubleQuote);
        && curPos == e
        && r == if e < |data| then Ok(data[old(curPos) + 1..e]) else Err(UnterminatedString)
    {
      var _ := ReadChar();
      var start := curPos;
      while curChar.Some?
        invariant Valid() && start <= curPos
        invariant start <= |data| ==> curPos <= |data|
        invariant SpanEnd(data, curPos, NotDoubleQuote) == SpanEnd(data, start, NotDoubleQuote)
        decreases |data| - curPos
      {
        var ch := curChar.value;
        if ch == '"' {
          return Ok(data[start..curPos]);
        }
        var _ := ReadChar();
      }
      r := Err(UnterminatedString);
    }

    /**
     * `read_pure_str`, called on the opening `'`: the raw body up to the
     * first unescaped `'`, where the cursor is left; an illegal escape or
     * the end of the text is an error.
     */
    method ReadPureStr() returns (r: Result<string, LexError>)
      requires Valid()
      modifies this
      ensures Valid()
      ensures var e := PureEnd(data, old(curPos) + 1, false);
        && curPos == e
        && r == if e >= |data| then Err(UnterminatedString)
                else if data[e] == '\'' then Ok(data[old(curPos) + 1..e])
                else Err(InvalidEscape(data[e]))
    {
      var _ := ReadChar();
      var start := curPos;
      var onEscape := false;
      while curChar.Some?
        invariant Valid() && start <= curPos
        invariant start <= |data| ==> curPos <= |data|
        invariant PureEnd(data, curPos, onEscape) == PureEnd(data, start, false)
        decreases |data| - curPos
      {
        var ch := curChar.value;
        if ch == '\\' && !onEscape {
          onEscape := true;
        } else if onEscape {
          if !IsEscapeChar(ch) {
            return Err(InvalidEscape(ch));
          }
          onEscape := false;
        } else if ch == '\'' {
          return Ok(data[start..curPos]);
        }
        var _ := ReadChar();
      }
      r := Err(UnterminatedString);
    }

    /**
     * The `>` arm of `next_token`, called on the `>`: `>`, `><`, `>=`, `>>`,
     * `>>=`, `>>>` and `>!<`, and the error for a `>!` without its `<`.
     */
    method ReadGreater() returns (r: Result<Token, LexError>)
      requires Valid() && curChar == Some('>')
      modifies this
      ensures Valid()
      ensures Step(r, curPos) == GreaterAt(data, old(curPos))
    {
      var token: Token;
      match peekChar {
        case Some('<') =>
          var _ := ReadChar();
          token := Substr;
        case Some('=') =>
          var _ := ReadChar();
          token := Gte;
        case Some('>') =>
          var _ := ReadChar();
          var tok := match peekChar { case Some('=') => ShrEq case Some('>') => Ushr case _ => Shr };
          if tok != Shr {
            var _ := ReadChar();
          }
          token := tok;
        case Some('!') =>
          var _ := ReadChar();
          if peekChar == Some('<') {
            var _ := ReadChar();
            token := NSubstr;
          } else {
            return Err(ExpectedLt(peekChar));
          }
          var _ := ReadChar();
        case _ => token := Gt;
      }
      var _ := ReadChar();
      r := Ok(token);
    }

    /** The `<` arm of `next_token`, called on the `<`: `<`, `<=`, `<<` and `<<=`. */
    method ReadLess() returns (r: Result<Token, LexError>)
      requires Valid() && curChar == Some('<')
      modifies this
      ensures Valid()
      ensures Step(r, curPos) == LessAt(data, old(curPos))
    {
      var token: Token;
      match peekChar {
        case Some('=') => token := Lte;
        case Some('<') =>
          var _ := ReadChar();
          match peekChar {
            case Some('=') =>
              var _ := ReadChar();
              token := ShlEq;
            case _ => token := Shl;
          }
        case _ => token := Lt;
      }
      if token != Lt {
        var _ := ReadChar();
      }
      var _ := ReadChar();
      r := Ok(token);
    }

    /** `next_token`: skip blanks and comments, then scan one token. */
    method NextToken() returns (r: Result<Token, LexError>)
      requires Valid()
      modifies this
      ensures Valid()
      ensures Step(r, curPos) == Scan(data, old(curPos))
    {
      EatWhitespaceOrComment();
      ghost var p := curPos;
      assert Scan(data, old(curPos)) == ScanAt(data, p);
      var token: Token;
      match curChar {
        case Some('(') => token := Lparan;
        case Some(')') => token := Rparan;
        case Some('{') => token := Lbrace;
        case Some('}') => token := Rbrace;
        case Some('[') => token := Lbracket;
        case Some(']') => token := Rbracket;
        case Some(';') => token := SemiColon;
        case Some(':') => token := Colon;
        case Some('"') =>
          var body :- ReadImpureStr();
          token := ImpureStr(body);
        case Some('\'') =>
          var body :- ReadPureStr();
          token := PureStr(body);
        case Some(',') => token := Comma;
        case Some('+') =>
          token := match peekChar { case Some('+') => Incr case Some('=') => PlusEq case _ => Plus };
          if token != Plus {
            var _ := ReadChar();
          }
        case Some('-') =>
          token := match peekChar { case Some('-') => Decr case Some('=') => MinusEq case _ => Minus };
          if token != Minus {
            var _ := ReadChar();
          }
        case Some('*') =>
          token := match peekChar { case Some('*') => Pow case Some('=') => MulEq case _ => Mul };
          if token != Mul {
            var _ := ReadChar();
          }
        case Some('/') =>
          token := match peekChar { case Some('=') => DivEq case _ => Div };
          if token != Div {
            var _ := ReadChar();
          }
        case Some('%') =>
          token := match peekChar { case Some('=') => ModEq case _ => Mod };
          if token != Mod {
            var _ := ReadChar();
          }
        case Some('=') =>
          token := match peekChar { case Some('=') => Equ case Some('~') => ReMatch case _ => Assign };
          if token != Assign {
            var _ := ReadChar();
          }
        case Some('!') =>
          token := match peekChar { case Some('=') => Nequ case Some('~') => NreMatch case _ => Not };
          if token != Not {
            var _ := ReadChar();
          }
        case Some('&') =>
          if peekChar == Some('&') {
            var _ := ReadChar();
            token := And;
          } else {
            token := BwAnd;
          }
        case Some('|') =>
          if peekChar == Some('|') {
            var _ := ReadChar();
            token := Or;
          } else {
            token := BwOr;
          }
        case Some('^') =>
          if peekChar == Some('=') {
            var _ := ReadChar();
            token := XorEq;
          } else {
            token := BwXor;
          }
        case Some('>') =>
          r := ReadGreater();
          return;
        case Some('<') =>
          r := ReadLess();
          return;
        case Some(ch) =>
          if IsAsciiAlpha(ch) || ch == '_' {
            var key := ReadIdentifier();
            return Ok(FromIdent(key));
          } else if IsAsciiDigit(ch) {
            var value :- ReadNumber();
            return Ok(Num(value));
          }
          return Err(UnexpectedChar(ch));
        case None => token := Eof;
      }
      var _ := ReadChar();
      r := Ok(token);
    }
  }
}
