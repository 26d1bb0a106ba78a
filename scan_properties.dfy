/**
 * What the reference scanner of `ScanSpec` promises: blanks and comments
 * are skipped exactly, `Eof` is sticky, identifiers and numbers are
 * maximal runs, and string literals are recognised as their grammar says.
 * Each lemma relates a scanning function to an independent description
 * (a grammar, a run of characters, a decimal representation).
 */
module ScanProperties {
  import opened Wrappers
  import opened Tokens
  import opened ScanSpec

  // ---------------------------------------------------------------------
  // Blanks and comments
  // ---------------------------------------------------------------------

  /**
   * data[p..q] is a sequence of blanks and comments. A comment starts at a
   * `#` and runs up to and including the next newline, or to the end of
   * the whole text.
   */
  predicate GapIn(data: string, p: nat, q: nat)
    decreases q - p
  {
    && p <= q <= |data|
    && (|| p == q
        || (p < q && IsBlank(data[p]) && GapIn(data, p + 1, q))
        || (p < q && data[p] == '#' && CommentIn(data, p + 1, q)))
  }

  /** data[p..q] is the rest of a comment, then blanks and comments. */
  predicate CommentIn(data: string, p: nat, q: nat)
    decreases q - p
  {
    && p <= q <= |data|
    && (|| (p == q && q == |data|)
        || (p < q && (if data[p] == '\n' then GapIn(data, p + 1, q) else CommentIn(data, p + 1, q))))
  }

  /** A position where skipping must stop: the end of the text, or a character that is neither blank nor `#`. */
  predicate StopsAt(data: string, e: nat)
  {
    e >= |data| || (!IsBlank(data[e]) && data[e] != '#')
  }

  /** What `eat_whitespace_or_comment` skips is blanks and comments. */
  lemma {:induction false} SkipEndSkipsGap(data: string, p: nat, inComment: bool)
    requires p <= |data|
    ensures inComment ==> CommentIn(data, p, SkipEnd(data, p, inComment))
    ensures !inComment ==> GapIn(data, p, SkipEnd(data, p, inComment))
    decreases |data| - p
  {
    if p < |data| {
      if inComment {
        SkipEndSkipsGap(data, p + 1, data[p] != '\n');
      } else if data[p] == '#' {
        SkipEndSkipsGap(data, p + 1, true);
      } else if IsBlank(data[p]) {
        SkipEndSkipsGap(data, p + 1, false);
      }
    }
  }

  /** Skipping over a run of blanks and comments lands where skipping from its end lands. */
  lemma {:induction false} GapSkipped(data: string, p: nat, q: nat)
    requires GapIn(data, p, q)
    ensures SkipEnd(data, p, false) == SkipEnd(data, q, false)
    decreases q - p, 1
  {
    if p < q {
      if IsBlank(data[p]) && GapIn(data, p + 1, q) {
        GapSkipped(data, p + 1, q);
      } else {
        CommentSkipped(data, p + 1, q);
      }
    }
  }

  /** Inside a comment, skipping lands where skipping from the end of the comment's run lands. */
  lemma {:induction false} CommentSkipped(data: string, p: nat, q: nat)
    requires CommentIn(data, p, q)
    ensures SkipEnd(data, p, true) == SkipEnd(data, q, false)
    decreases q - p, 0
  {
    if p < q {
      if data[p] == '\n' {
        GapSkipped(data, p + 1, q);
      } else {
        CommentSkipped(data, p + 1, q);
      }
    }
  }

  /**
   * `eat_whitespace_or_comment` from p stops at e exactly when data[p..e]
   * is blanks and comments and nothing more can be skipped at e.
   */
  lemma SkipEndCharacterized(data: string, p: nat, e: nat)
    requires p <= e <= |data|
    ensures SkipEnd(data, p, false) == e <==> GapIn(data, p, e) && StopsAt(data, e)
  {
    if SkipEnd(data, p, false) == e {
      SkipEndSkipsGap(data, p, false);
    }
    if GapIn(data, p, e) && StopsAt(data, e) {
      GapSkipped(data, p, e);
    }
  }

  // ---------------------------------------------------------------------
  // End of input
  // ---------------------------------------------------------------------

  /**
   * Once `next_token` has returned `Eof`, the cursor is past the end of the
   * text and every later call returns `Eof` again.
   */
  lemma EofSticky(data: string, pos: nat)
    requires Scan(data, pos).result == Ok(Eof)
    ensures var n := Scan(data, pos).next;
      && n > |data| && CharAt(data, n) == None
      && Scan(data, n) == Step(Ok(Eof), n + 1)
  {
  }

  /** Tokenizing collects exactly one `Eof`, as its last token, when it succeeds. */
  lemma {:induction false} TokenizeEndsAtEof(data: string, pos: nat)
    ensures var o := TokenizeFrom(data, pos);
      && (o.failure == None ==> o.tokens != [] && o.tokens[|o.tokens| - 1] == Eof)
      && (forall i :: 0 <= i < |o.tokens| - 1 ==> o.tokens[i] != Eof)
    decreases |data| + 2 - pos
  {
    var st := Scan(data, pos);
    if st.result.Ok? && st.result.value != Eof {
      TokenizeEndsAtEof(data, st.next);
    }
  }

  /** Where the cursor starts inside blanks and comments does not matter. */
  lemma TokenizeFromAfterGap(data: string, p: nat, q: nat)
    requires GapIn(data, p, q)
    ensures TokenizeFrom(data, p) == TokenizeFrom(data, q)
  {
    GapSkipped(data, p, q);
  }

  // ---------------------------------------------------------------------
  // Maximal runs
  // ---------------------------------------------------------------------

  /** The arms of `next_token` that hand over to a sub-scanner. */
  lemma ScanAtDispatch(data: string, p: nat)
    requires p < |data|
    ensures data[p] == '"' ==> ScanAt(data, p) == ImpureStrAt(data, p)
    ensures data[p] == '\'' ==> ScanAt(data, p) == PureStrAt(data, p)
    ensures IsAsciiAlpha(data[p]) || data[p] == '_' ==> ScanAt(data, p) == IdentAt(data, p)
    ensures IsAsciiDigit(data[p]) ==> ScanAt(data, p) == NumberAt(data, p)
  {
  }

  /** The characters some token class starts with. */
  predicate StartsToken(c: char)
  {
    || c == '(' || c == ')' || c == '{' || c == '}' || c == '[' || c == ']' || c == ';' || c == ':'
    || c == '"' || c == '\'' || c == ','
    || c == '+' || c == '-' || c == '*' || c == '/' || c == '%' || c == '='
    || c == '!' || c == '&' || c == '|' || c == '^' || c == '>' || c == '<'
    || IsAsciiAlpha(c) || c == '_' || IsAsciiDigit(c)
  }

  /**
   * `next_token` reports an unexpected character exactly when the
   * character under the cursor starts no token class, and then leaves the
   * cursor on it.
   */
  lemma UnexpectedCharacter(data: string, p: nat)
    requires p < |data|
    ensures ScanAt(data, p).result.Err? && ScanAt(data, p).result.error.UnexpectedChar? <==> !StartsToken(data[p])
    ensures !StartsToken(data[p]) ==> ScanAt(data, p) == Step(Err(UnexpectedChar(data[p])), p)
  {
    ScanAtDispatch(data, p);
  }

  /** A run of P-characters from p that ends at q is exactly what `SpanEnd` finds. */
  lemma {:induction false} SpanEndOfRun(data: string, p: nat, q: nat, P: char -> bool)
    requires p <= q <= |data|
    requires forall i :: p <= i < q ==> P(data[i])
    requires q == |data| || !P(data[q])
    ensures SpanEnd(data, p, P) == q
    decreases q - p
  {
    if p < q {
      SpanEndOfRun(data, p + 1, q, P);
    }
  }

  /** A NASL identifier: a letter or `_`, then letters, digits and `_`. */
  predicate IsWord(w: string)
  {
    && w != []
    && (IsAsciiAlpha(w[0]) || w[0] == '_')
    && forall i :: 0 <= i < |w| ==> IsIdentChar(w[i])
  }

  /**
   * An identifier is the whole run of identifier characters: a reserved
   * word becomes its keyword, any other word an `Ident` carrying it, and
   * the cursor is left just after the run.
   */
  lemma IdentifierScan(data: string, p: nat, q: nat)
    requires p < q <= |data| && IsWord(data[p..q])
    requires q == |data| || !IsIdentChar(data[q])
    ensures ScanAt(data, p).next == q && ScanAt(data, p).result.Ok?
    ensures var t := ScanAt(data, p).result.value;
      && (data[p..q] in Keywords ==> t.IsKeyword() && KeywordText(t) == data[p..q])
      && (data[p..q] !in Keywords ==> t == Ident(data[p..q]))
  {
    var w := data[p..q];
    assert forall i :: p <= i < q ==> IsIdentChar(data[i]) by {
      forall i | p <= i < q ensures IsIdentChar(data[i]) {
        assert data[i] == w[i - p];
      }
    }
    SpanEndOfRun(data, p, q, IsIdentChar);
    assert data[p] == w[0];
    ScanAtDispatch(data, p);
    FromIdentClassifies(w);
  }

  /** An identifier followed by text that cannot continue it scans back to its word. */
  lemma IdentifierRoundTrip(w: string, rest: string)
    requires IsWord(w) && (rest == [] || !IsIdentChar(rest[0]))
    ensures ScanAt(w + rest, 0).next == |w|
    ensures w !in Keywords ==> ScanAt(w + rest, 0).result == Ok(Ident(w))
    ensures w in Keywords ==> ScanAt(w + rest, 0).result == Ok(FromIdent(w)) && FromIdent(w).IsKeyword()
  {
    var data := w + rest;
    assert data[0..|w|] == w;
    if |w| < |data| {
      assert data[|w|] == rest[0];
    }
    IdentifierScan(data, 0, |w|);
    FromIdentClassifies(w);
  }

  // ---------------------------------------------------------------------
  // Numbers
  // ---------------------------------------------------------------------

  /** The digit character for 0 <= d < 10. */
  function DigitChar(d: nat): (c: char)
    requires d < 10
    ensures IsAsciiDigit(c) && DigitValue(c) == d
  {
    (('0' as int) + d) as char
  }

  /** The shortest decimal representation of n, an independent description of a number's text. */
  function DecimalString(n: nat): (s: string)
    decreases n
  {
    if n < 10 then [DigitChar(n)] else DecimalString(n / 10) + [DigitChar(n % 10)]
  }

  /** Reading a decimal representation gives the number back; it has no leading zero. */
  lemma {:induction false} DecimalStringValue(n: nat)
    ensures AllDigits(DecimalString(n)) && DecimalValue(DecimalString(n)) == n
    ensures DecimalString(n) != [] && (n > 0 ==> DecimalString(n)[0] != '0')
    decreases n
  {
    if n >= 10 {
      DecimalStringValue(n / 10);
      var s := DecimalString(n);
      assert s[..|s| - 1] == DecimalString(n / 10);
      assert s[0] == DecimalString(n / 10)[0];
    }
  }

  /** Leading zeros do not change a number's value: `016` is sixteen. */
  lemma {:induction false} LeadingZero(s: string)
    requires AllDigits(s)
    ensures AllDigits("0" + s) && DecimalValue("0" + s) == DecimalValue(s)
    decreases |s|
  {
    var t := "0" + s;
    assert AllDigits(t) by {
      forall i | 0 <= i < |t| ensures IsAsciiDigit(t[i]) {
        if i > 0 { assert t[i] == s[i - 1]; }
      }
    }
    if s != [] {
      assert t[..|t| - 1] == "0" + s[..|s| - 1];
      LeadingZero(s[..|s| - 1]);
    }
  }

  /** The decimal representation of every `i32` value from 0 up parses back to it. */
  lemma ParseDecimalString(n: nat)
    requires n <= I32Max
    ensures AllDigits(DecimalString(n)) && ParseI32(DecimalString(n)) == Ok(n)
  {
    DecimalStringValue(n);
  }

  /** One past `i32::MAX` does not parse. */
  lemma ParseOverflow()
    ensures AllDigits(DecimalString(I32Max + 1))
    ensures ParseI32(DecimalString(I32Max + 1)) == Err(InvalidNumber(DecimalString(I32Max + 1)))
  {
    DecimalStringValue(I32Max + 1);
  }

  /**
   * A number is the whole run of digits, left in the cursor's wake; its
   * value becomes a `Num` if it fits an `i32`, and an error otherwise.
   */
  lemma NumberScan(data: string, p: nat, q: nat)
    requires p < q <= |data| && AllDigits(data[p..q])
    requires q == |data| || !IsAsciiDigit(data[q])
    ensures ScanAt(data, p).next == q
    ensures DecimalValue(data[p..q]) <= I32Max ==> ScanAt(data, p).result == Ok(Num(DecimalValue(data[p..q])))
    ensures DecimalValue(data[p..q]) > I32Max ==> ScanAt(data, p).result == Err(InvalidNumber(data[p..q]))
  {
    var w := data[p..q];
    assert forall i :: p <= i < q ==> IsAsciiDigit(data[i]) by {
      forall i | p <= i < q ensures IsAsciiDigit(data[i]) {
        assert data[i] == w[i - p];
      }
    }
    SpanEndOfRun(data, p, q, IsAsciiDigit);
    assert data[p] == w[0];
    ScanAtDispatch(data, p);
  }

  /** A number written in decimal, followed by a non-digit, scans back to itself. */
  lemma NumberRoundTrip(n: nat, rest: string)
    requires n <= I32Max && (rest == [] || !IsAsciiDigit(rest[0]))
    ensures ScanAt(DecimalString(n) + rest, 0) == Step(Ok(Num(n)), |DecimalString(n)|)
  {
    DecimalStringValue(n);
    var s := DecimalString(n);
    var data := s + rest;
    assert data[0..|s|] == s;
    if |s| < |data| {
      assert data[|s|] == rest[0];
    }
    NumberScan(data, 0, |s|);
  }

  // ---------------------------------------------------------------------
  // Impure strings
  // ---------------------------------------------------------------------

  /**
   * A `"` opens an impure string: it succeeds exactly when another `"`
   * follows, its text is everything up to the first one, verbatim, and the
   * cursor is left after that quote; otherwise the string is unterminated.
   */
  lemma ImpureStringScan(data: string, p: nat)
    requires p < |data| && data[p] == '"'
    ensures ScanAt(data, p).result.Ok? <==> '"' in data[p + 1..]
    ensures var st := ScanAt(data, p);
      st.result.Ok? ==>
        && st.result.value.ImpureStr?
        && var body := st.result.value.text;
        && st.next == p + |body| + 2
        && data[p + 1..p + 1 + |body|] == body && data[p + 1 + |body|] == '"'
        && '"' !in body
    ensures var st := ScanAt(data, p);
      st.result.Err? ==> st.result == Err(UnterminatedString) && st.next == |data|
  {
    ScanAtDispatch(data, p);
    var e := SpanEnd(data, p + 1, NotDoubleQuote);
    if '"' in data[p + 1..] {
      var k :| 0 <= k < |data[p + 1..]| && data[p + 1..][k] == '"';
      assert data[p + 1 + k] == '"';
      assert e < |data|;
    }
    if e < |data| {
      assert data[p + 1..][e - p - 1] == '"';
    }
    if e < |data| {
      var body := data[p + 1..e];
      assert '"' !in body by {
        forall k | 0 <= k < |body| ensures body[k] != '"' {
          assert body[k] == data[p + 1 + k];
        }
      }
    }
  }

  /** A quote-free text between double quotes scans back to itself, verbatim. */
  lemma ImpureStringRoundTrip(body: string, rest: string)
    requires '"' !in body
    ensures ScanAt("\"" + body + "\"" + rest, 0) == Step(Ok(ImpureStr(body)), |body| + 2)
  {
    var data := "\"" + body + "\"" + rest;
    assert forall i :: 1 <= i < |body| + 1 ==> NotDoubleQuote(data[i]) by {
      forall i | 1 <= i < |body| + 1 ensures NotDoubleQuote(data[i]) {
        assert data[i] == body[i - 1];
      }
    }
    assert data[|body| + 1] == '"';
    SpanEndOfRun(data, 1, |body| + 1, NotDoubleQuote);
    assert data[1..|body| + 1] == body;
  }

  // ---------------------------------------------------------------------
  // Pure strings
  // ---------------------------------------------------------------------

  /** A text that is well-escaped up to a final backslash, which awaits its escape character. */
  predicate OpenEscape(s: string)
  {
    s != [] && s[|s| - 1] == '\\' && WellEscaped(s[..|s| - 1])
  }

  /** A plain character in front of a text changes neither property. */
  lemma PlainCons(c: char, s: string)
    requires c != '\\' && c != '\''
    ensures WellEscaped([c] + s) == WellEscaped(s)
    ensures OpenEscape([c] + s) == OpenEscape(s)
  {
    var t := [c] + s;
    assert t[1..] == s;
    if s != [] {
      assert t[..|t| - 1] == [c] + s[..|s| - 1];
      assert t[..|t| - 1][1..] == s[..|s| - 1];
    }
  }

  /** A legal escape in front of a text changes neither property. */
  lemma EscapeCons(c: char, s: string)
    requires IsEscapeChar(c)
    ensures WellEscaped(['\\', c] + s) == WellEscaped(s)
    ensures OpenEscape(['\\', c] + s) == OpenEscape(s)
  {
    var t := ['\\', c] + s;
    assert t[2..] == s;
    if s != [] {
      assert t[..|t| - 1] == ['\\', c] + s[..|s| - 1];
      assert t[..|t| - 1][2..] == s[..|s| - 1];
    } else {
      assert t[..|t| - 1] == ['\\'];
    }
  }

  /**
   * Where the pure-string loop stops, with the text it has passed (an
   * escape already open counts as a leading backslash): at a closing quote
   * after a well-escaped text, or at an illegal character right after a
   * backslash that ends a well-escaped text.
   */
  lemma {:induction false} PureEndStops(data: string, p: nat, onEscape: bool, e: nat, passed: string)
    requires p <= |data| && e == PureEnd(data, p, onEscape)
    requires passed == if onEscape then "\\" + data[p..e] else data[p..e]
    ensures StopsWell(data, e, passed)
    decreases |data| - p
  {
    if p < |data| {
      if data[p] == '\\' && !onEscape {
        assert e == PureEnd(data, p + 1, true);
        SliceCons(data, p, e);
        PureEndStops(data, p + 1, true, e, passed);
      } else if onEscape {
        if IsEscapeChar(data[p]) {
          assert e == PureEnd(data, p + 1, false);
          SliceCons(data, p, e);
          var inner := data[p + 1..e];
          PureEndStops(data, p + 1, false, e, inner);
          assert passed == ['\\', data[p]] + inner;
          EscapeCons(data[p], inner);
        } else {
          assert passed == "\\";
          assert passed[..|passed| - 1] == [];
        }
      } else if data[p] != '\'' {
        assert e == PureEnd(data, p + 1, false);
        SliceCons(data, p, e);
        var inner := data[p + 1..e];
        PureEndStops(data, p + 1, false, e, inner);
        PlainCons(data[p], inner);
      } else {
        assert passed == [];
      }
    }
  }

  /** Where a pure-string scan stops, and the text passed so far. */
  predicate StopsWell(data: string, e: nat, passed: string)
  {
    e < |data| ==>
      || (data[e] == '\'' && WellEscaped(passed))
      || (!IsEscapeChar(data[e]) && OpenEscape(passed))
  }

  /** A non-empty slice is its first character and the rest. */
  lemma SliceCons(data: string, p: nat, e: nat)
    requires p < e <= |data|
    ensures data[p..e] == [data[p]] + data[p + 1..e]
  {
  }

  /** The pure-string loop runs over a well-escaped text to the quote after it. */
  lemma {:induction false} PureEndOfWellEscaped(data: string, p: nat, body: string)
    requires p + |body| < |data| && data[p..p + |body|] == body
    requires WellEscaped(body) && data[p + |body|] == '\''
    ensures PureEnd(data, p, false) == p + |body|
    decreases |body|
  {
    if body != [] {
      assert data[p] == body[0];
      if body[0] == '\\' {
        assert data[p + 1] == body[1];
        assert data[p + 2..p + |body|] == body[2..];
        PureEndOfWellEscaped(data, p + 2, body[2..]);
      } else {
        assert data[p + 1..p + |body|] == body[1..];
        PureEndOfWellEscaped(data, p + 1, body[1..]);
      }
    }
  }

  /** The pure-string loop crosses any well-escaped stretch data[p..q] and goes on from q. */
  lemma {:induction false} PureEndAcross(data: string, p: nat, q: nat)
    requires p <= q <= |data| && WellEscaped(data[p..q])
    ensures PureEnd(data, p, false) == PureEnd(data, q, false)
    decreases q - p
  {
    if p < q {
      var s := data[p..q];
      assert s[0] == data[p];
      if data[p] == '\\' {
        assert s[1] == data[p + 1];
        assert s[2..] == data[p + 2..q];
        PureEndAcross(data, p + 2, q);
      } else {
        assert s[1..] == data[p + 1..q];
        PureEndAcross(data, p + 1, q);
      }
    }
  }

  /**
   * The converse of the illegal-escape case: a pure string whose body is
   * well-escaped up to a backslash followed by an illegal character fails
   * on that character, with the cursor left on it.
   */
  lemma PureStringIllegalEscape(data: string, p: nat, k: nat)
    requires p < k && k + 1 < |data| && data[p] == '\'' && WellEscaped(data[p + 1..k])
    requires data[k] == '\\' && !IsEscapeChar(data[k + 1])
    ensures ScanAt(data, p) == Step(Err(InvalidEscape(data[k + 1])), k + 1)
  {
    ScanAtDispatch(data, p);
    PureEndAcross(data, p + 1, k);
    assert PureEnd(data, k, false) == k + 1;
  }

  /**
   * A `'` opens a pure string. It succeeds with the raw text of the first
   * run that is well-escaped and followed by `'`, and leaves the cursor
   * after that quote. It fails with `InvalidEscape(c)` when a backslash
   * ending a well-escaped text is followed by an illegal c, and with
   * `UnterminatedString` at the end of the text.
   */
  lemma PureStringScan(data: string, p: nat)
    requires p < |data| && data[p] == '\''
    ensures var st := ScanAt(data, p);
      st.result.Ok? ==>
        && st.result.value.PureStr?
        && var body := st.result.value.text;
        && st.next == p + |body| + 2
        && data[p + 1..p + 1 + |body|] == body && data[p + 1 + |body|] == '\''
        && WellEscaped(body)
    ensures var st := ScanAt(data, p);
      st.result.Err? && st.result.error.InvalidEscape? ==>
        && p + 1 < st.next < |data| && data[st.next] == st.result.error.ch
        && !IsEscapeChar(st.result.error.ch)
        && OpenEscape(data[p + 1..st.next])
    ensures var st := ScanAt(data, p);
      st.result.Err? ==> st.result.error.InvalidEscape? || (st.result == Err(UnterminatedString) && st.next == |data|)
  {
    ScanAtDispatch(data, p);
    PureStrAtCases(data, p);
  }

  /** The cases of a pure string, on the sub-scanner itself. */
  lemma PureStrAtCases(data: string, p: nat)
    requires p < |data|
    ensures var st := PureStrAt(data, p);
      && (st.result.Ok? ==>
            && st.result == Ok(PureStr(data[p + 1..st.next - 1]))
            && p + 2 <= st.next <= |data| && data[st.next - 1] == '\''
            && WellEscaped(data[p + 1..st.next - 1]))
      && (st.result.Err? && st.result.error.InvalidEscape? ==>
            && p + 1 < st.next < |data| && data[st.next] == st.result.error.ch
            && !IsEscapeChar(st.result.error.ch)
            && OpenEscape(data[p + 1..st.next]))
      && (st.result.Err? ==> st.result.error.InvalidEscape? || (st.result == Err(UnterminatedString) && st.next == |data|))
  {
    var e := PureEnd(data, p + 1, false);
    PureEndStops(data, p + 1, false, e, data[p + 1..e]);
  }

  /** The first well-escaped run followed by `'` closes a pure string. */
  lemma PureStringCloses(data: string, p: nat, q: nat)
    requires p < q < |data| && data[p] == '\'' && data[q] == '\'' && WellEscaped(data[p + 1..q])
    ensures ScanAt(data, p) == Step(Ok(PureStr(data[p + 1..q])), q + 1)
  {
    ScanAtDispatch(data, p);
    PureEndOfWellEscaped(data, p + 1, data[p + 1..q]);
  }

  /** A well-escaped text between single quotes scans back to itself, escapes kept raw. */
  lemma PureStringRoundTrip(body: string, rest: string)
    requires WellEscaped(body)
    ensures ScanAt("'" + body + "'" + rest, 0) == Step(Ok(PureStr(body)), |body| + 2)
  {
    var data := "'" + body + "'" + rest;
    assert data[0] == '\'';
    assert data[1..1 + |body|] == body;
    var q := 1 + |body|;
    assert data[q] == '\'';
    PureStringCloses(data, 0, q);
    assert PureStr(data[1..q]) == PureStr(body);
  }
}
