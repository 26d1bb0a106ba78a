/**
 * Concrete runs of the tokenizer: the unit tests of src/lexer.rs and a few
 * inputs that show its edge cases.
 */
module LexerExamples {
  import opened Wrappers
  import opened Tokens
  import opened ScanSpec
  import opened ScanProperties
  import opened OperatorProperties

  /**
   * A call from pos that skips to a pure string whose body is well-escaped
   * up to a backslash at k, followed by an illegal character, stops with
   * no token and that character's error.
   */
  lemma IllegalEscape(data: string, pos: nat, p: nat, k: nat)
    requires SkipEnd(data, pos, false) == p && p < k && k + 1 < |data|
    requires data[p] == '\'' && WellEscaped(data[p + 1..k])
    requires data[k] == '\\' && !IsEscapeChar(data[k + 1])
    ensures TokenizeFrom(data, pos) == Outcome([], Some(InvalidEscape(data[k + 1])))
  {
    PureStringIllegalEscape(data, p, k);
  }

  /** Leading blanks are skipped up to the first character that is neither blank nor `#`. */
  lemma {:induction false} BlanksSkipped(data: string, p: nat, q: nat)
    requires p <= q < |data| && !IsBlank(data[q]) && data[q] != '#'
    requires forall i :: p <= i < q ==> IsBlank(data[i])
    ensures SkipEnd(data, p, false) == q
    decreases q - p
  {
    if p < q {
      BlanksSkipped(data, p + 1, q);
    }
  }

  /** Pure strings with the given raw bodies, each closed and followed by a space, then tail. */
  function QuotedLine(bodies: seq<string>, tail: string): (s: string)
    ensures |s| >= 3 * |bodies| + |tail|
  {
    if bodies == [] then tail else "'" + bodies[0] + "' " + QuotedLine(bodies[1..], tail)
  }

  /** The tokens for the same bodies. */
  function PureStrs(bodies: seq<string>): (ts: seq<Token>)
    ensures |ts| == |bodies|
  {
    if bodies == [] then [] else [PureStr(bodies[0])] + PureStrs(bodies[1..])
  }

  /** Every body is well-escaped. */
  predicate AllWellEscaped(bodies: seq<string>)
  {
    bodies != [] ==> WellEscaped(bodies[0]) && AllWellEscaped(bodies[1..])
  }

  /** The first string of a quoted line, and the line that follows it. */
  lemma QuotedLineHead(data: string, pos: nat, bodies: seq<string>, tail: string)
    requires bodies != [] && pos <= |data| && data[pos..] == QuotedLine(bodies, tail)
    ensures var b := bodies[0];
      && pos + |b| + 3 <= |data|
      && data[pos] == '\'' && data[pos + 1..pos + 1 + |b|] == b
      && data[pos + 1 + |b|] == '\'' && data[pos + 2 + |b|] == ' '
      && data[pos + |b| + 3..] == QuotedLine(bodies[1..], tail)
  {
    var b := bodies[0];
    var r := QuotedLine(bodies[1..], tail);
    var x := "'" + b + "' " + r;
    assert data[pos..] == x;
    assert x[0] == '\'';
    assert x[1..1 + |b|] == b;
    assert x[1 + |b|] == '\'';
    assert x[2 + |b|] == ' ';
    assert x[|b| + 3..] == r;
    assert data[pos + 1..pos + 1 + |b|] == x[1..1 + |b|];
    assert data[pos + |b| + 3..] == x[|b| + 3..];
  }

  /** A quoted line ends with its tail. */
  lemma {:induction false} QuotedLineEnds(bodies: seq<string>, tail: string)
    ensures var s := QuotedLine(bodies, tail); s[|s| - |tail|..] == tail
    decreases |bodies|
  {
    if bodies != [] {
      var r := QuotedLine(bodies[1..], tail);
      QuotedLineEnds(bodies[1..], tail);
      var h := "'" + bodies[0] + "' ";
      assert QuotedLine(bodies, tail) == h + r;
      assert (h + r)[|h + r| - |tail|..] == r[|r| - |tail|..];
    }
  }

  /**
   * A line of well-escaped pure strings, each followed by a space, comes
   * back as those strings in order, raw; tokenizing then goes on with the tail.
   */
  lemma {:induction false} QuotedLineScan(data: string, pos: nat, bodies: seq<string>, tail: string, end: nat)
    requires pos <= |data| && data[pos..] == QuotedLine(bodies, tail)
    requires AllWellEscaped(bodies) && end + |tail| == |data|
    ensures TokenizeFrom(data, pos) == Outcome(PureStrs(bodies) + TokenizeFrom(data, end).tokens, TokenizeFrom(data, end).failure)
    decreases |bodies|
  {
    if bodies != [] {
      var b := bodies[0];
      var q := pos + |b| + 3;
      QuotedLineHead(data, pos, bodies, tail);
      QuotedStringStep(data, pos, b, q);
      QuotedLineScan(data, q, bodies[1..], tail, end);
      ghost var mid := PureStrs(bodies[1..]);
      assert PureStrs(bodies) == [PureStr(b)] + mid;
      ChainOutcomes(TokenizeFrom(data, pos), PureStr(b), TokenizeFrom(data, q), mid, TokenizeFrom(data, end));
    } else {
      assert |data[pos..]| == |tail|;
      assert pos == end;
      assert PureStrs(bodies) + TokenizeFrom(data, end).tokens == TokenizeFrom(data, pos).tokens;
    }
  }

  /** A token, then the tokens of a later outcome: the two prefixes join. */
  lemma ChainOutcomes(o: Outcome, t: Token, o2: Outcome, mid: seq<Token>, o3: Outcome)
    requires o == Outcome([t] + o2.tokens, o2.failure) && o2 == Outcome(mid + o3.tokens, o3.failure)
    ensures o == Outcome(([t] + mid) + o3.tokens, o3.failure)
  {
    assert [t] + (mid + o3.tokens) == ([t] + mid) + o3.tokens;
  }

  /** One call of `next_token` on a well-escaped pure string. */
  lemma PureStringStep(data: string, pos: nat, b: string, next: nat)
    requires next == pos + |b| + 2 && next <= |data| && WellEscaped(b)
    requires data[pos] == '\'' && data[pos + 1..pos + 1 + |b|] == b && data[pos + 1 + |b|] == '\''
    ensures Scan(data, pos) == Step(Ok(PureStr(b)), next)
  {
    PureStringCloses(data, pos, pos + 1 + |b|);
  }

  /** One well-escaped pure string followed by a space. */
  lemma QuotedStringStep(data: string, pos: nat, b: string, q: nat)
    requires q == pos + |b| + 3 && q <= |data| && WellEscaped(b)
    requires data[pos] == '\'' && data[pos + 1..pos + 1 + |b|] == b
    requires data[pos + 1 + |b|] == '\'' && data[pos + 2 + |b|] == ' '
    ensures TokenizeFrom(data, pos) == Outcome([PureStr(b)] + TokenizeFrom(data, q).tokens, TokenizeFrom(data, q).failure)
  {
    var next := q - 1;
    PureStringStep(data, pos, b, next);
    TokenThenBlank(data, pos, PureStr(b), next, next);
  }

  /**
   * An indented line of well-escaped pure strings, each followed by a
   * space, then a pure string that opens with an illegal escape: the
   * strings come back raw, then the error names the illegal character.
   */
  lemma IndentedLineScan(indent: string, bodies: seq<string>, tail: string)
    requires forall i :: 0 <= i < |indent| ==> IsBlank(indent[i])
    requires AllWellEscaped(bodies)
    requires |tail| >= 3 && tail[0] == '\'' && tail[1] == '\\' && !IsEscapeChar(tail[2])
    ensures Tokenize(indent + QuotedLine(bodies, tail)) == Outcome(PureStrs(bodies), Some(InvalidEscape(tail[2])))
  {
    var d := indent + QuotedLine(bodies, tail);
    var p := |d| - |tail|;
    LineStart(d, indent, bodies, tail, p);
    QuotedLineScan(d, |indent|, bodies, tail, p);
    assert WellEscaped(d[p + 1..p + 1]);
    IllegalEscape(d, p, p, p + 1);
    assert PureStrs(bodies) + [] == PureStrs(bodies);
  }

  /** Where the line starts and ends; the indent is skipped. */
  lemma LineStart(d: string, indent: string, bodies: seq<string>, tail: string, p: nat)
    requires forall i :: 0 <= i < |indent| ==> IsBlank(indent[i])
    requires |tail| >= 3 && tail[0] == '\'' && tail[1] == '\\'
    requires d == indent + QuotedLine(bodies, tail) && p + |tail| == |d|
    ensures d[|indent|..] == QuotedLine(bodies, tail)
    ensures d[p] == '\'' && d[p + 1] == '\\' && d[p + 2] == tail[2] && SkipEnd(d, p, false) == p
    ensures TokenizeFrom(d, 0) == TokenizeFrom(d, |indent|)
  {
    var line := QuotedLine(bodies, tail);
    var start := |indent|;
    assert d[start..] == line;
    QuotedLineEnds(bodies, tail);
    assert d[p..] == line[|line| - |tail|..] == tail;
    assert d[p] == '\'' && d[p + 1] == '\\' && d[p + 2] == tail[2];
    if bodies == [] {
      assert d[start] == tail[0];
    } else {
      assert d[start] == '\'';
    }
    forall i | 0 <= i < start ensures IsBlank(d[i]) {
      assert d[i] == indent[i];
    }
    BlanksSkipped(d, 0, start);
    assert Scan(d, 0) == Scan(d, start);
  }

  /** The rest of a comment, up to and including the newline at q - 1. */
  lemma {:induction false} CommentRun(data: string, p: nat, q: nat)
    requires p < q <= |data| && data[q - 1] == '\n'
    requires forall i :: p <= i < q - 1 ==> data[i] != '\n'
    ensures CommentIn(data, p, q)
    decreases q - p
  {
    if p < q - 1 {
      CommentRun(data, p + 1, q);
    } else {
      assert GapIn(data, q, q);
    }
  }

  /** A word that ends where a blank follows, or at the end of the text, scans to its `Ident`. */
  lemma WordAt(data: string, p: nat, w: string, q: nat)
    requires q == p + |w| && q <= |data| && data[p..q] == w && IsWord(w) && w !in Keywords
    requires q == |data| || IsBlank(data[q])
    ensures Scan(data, p) == Step(Ok(Ident(w)), q)
  {
    assert data[p] == w[0];
    assert SkipEnd(data, p, false) == p;
    IdentifierScan(data, p, q);
  }

  /** Where the words, the blank and the comment of such a line stand. */
  lemma CommentLayout(d: string, a: string, c: string, b: string, p: nat, q: nat)
    requires d == a + " #" + c + "\n" + b && p == |a| && q == |a| + 2 + |c| + 1
    requires forall i :: 0 <= i < |c| ==> c[i] != '\n'
    ensures p < q && |d| == q + |b| && d[0..p] == a && d[p] == ' ' && d[q..|d|] == b
    ensures GapIn(d, p, q)
  {
    assert d[0..p] == a && d[p] == ' ' && d[p + 1] == '#';
    assert d[q - 1] == '\n';
    forall i | p + 2 <= i < q - 1 ensures d[i] != '\n' {
      assert d[i] == c[i - p - 2];
    }
    CommentRun(d, p + 2, q);
    assert GapIn(d, p + 1, q);
    assert d[q..|d|] == b;
  }

  /** A word followed by a blank is the first token of what follows it. */
  lemma WordThenRest(d: string, p: nat, w: string, q: nat)
    requires q == p + |w| && q < |d| && d[p..q] == w && IsWord(w) && w !in Keywords && IsBlank(d[q])
    ensures TokenizeFrom(d, p) == Outcome([Ident(w)] + TokenizeFrom(d, q).tokens, TokenizeFrom(d, q).failure)
  {
    WordAt(d, p, w, q);
    TokenizeFromToken(d, p, Ident(w), q);
  }

  /** A word that runs to the end of the text is its last token before `Eof`. */
  lemma LastWord(d: string, p: nat, w: string)
    requires |d| == p + |w| && d[p..|d|] == w && IsWord(w) && w !in Keywords
    ensures TokenizeFrom(d, p) == Outcome([Ident(w), Eof], None)
  {
    WordAt(d, p, w, |d|);
    TokenThenEnd(d, p, Ident(w), |d|);
  }

  /** A word, a gap, and a last word: the gap vanishes and the words come back as `Ident`s. */
  lemma WordsAroundGap(d: string, a: string, b: string, p: nat, q: nat)
    requires p < q && |d| == q + |b| && d[0..p] == a && d[p] == ' ' && d[q..|d|] == b
    requires GapIn(d, p, q)
    requires IsWord(a) && IsWord(b) && a !in Keywords && b !in Keywords
    ensures TokenizeFrom(d, 0) == Outcome([Ident(a), Ident(b), Eof], None)
  {
    WordThenRest(d, 0, a, p);
    TokenizeFromAfterGap(d, p, q);
    LastWord(d, q, b);
    assert [Ident(a)] + [Ident(b), Eof] == [Ident(a), Ident(b), Eof];
  }

  /**
   * Two words with a `#` comment between them, as in `a # c` newline `b`:
   * the comment and its newline vanish, and the words come back as `Ident`s.
   */
  lemma CommentLine(d: string, a: string, c: string, b: string, p: nat, q: nat)
    requires d == a + " #" + c + "\n" + b && p == |a| && q == |a| + 2 + |c| + 1
    requires IsWord(a) && IsWord(b) && a !in Keywords && b !in Keywords
    requires forall i :: 0 <= i < |c| ==> c[i] != '\n'
    ensures TokenizeFrom(d, 0) == Outcome([Ident(a), Ident(b), Eof], None)
  {
    CommentLayout(d, a, c, b, p, q);
    WordsAroundGap(d, a, b, p, q);
  }
}
