/**
 * Maximal munch for the operator arms of `next_token`: wherever an
 * operator lexeme is written, the scanner takes an operator at least as
 * long, whose own lexeme is written there, and consumes it plus its
 * overrun; the one exception is `>!` without its `<`, an error.
 */
module OperatorMunch {
  import opened Wrappers
  import opened Tokens
  import opened ScanSpec
  import opened ScanProperties
  import opened OperatorProperties

  /**
   * st is an operator token whose lexeme is written at p, and the cursor
   * moves past the lexeme and its overrun.
   */
  predicate OperatorStep(data: string, p: nat, st: Step)
  {
    && st.result.Ok? && st.result.value.IsOperator()
    && LexemeAt(data, p, Lexeme(st.result.value))
    && st.next == p + |Lexeme(st.result.value)| + Overrun(st.result.value)
  }

  /** st is the error for `>!` not followed by `<`, reported with the cursor on the `!`. */
  predicate MissingLt(data: string, p: nat, st: Step)
  {
    && p + 1 < |data| && data[p] == '>' && data[p + 1] == '!' && CharAt(data, p + 2) != Some('<')
    && st == Step(Err(ExpectedLt(CharAt(data, p + 2))), p + 1)
  }

  /** Where lexeme op is written, the scanner takes an operator at least as long, or stops at a `>!`. */
  predicate MunchesOver(data: string, p: nat, op: string)
  {
    var st := ScanAt(data, p);
    (OperatorStep(data, p, st) && |op| <= |Lexeme(st.result.value)|) || MissingLt(data, p, st)
  }

  // One lemma per operator lexeme.

  lemma MunchesPlus(data: string, p: nat)
    requires LexemeAt(data, p, "+")
    ensures MunchesOver(data, p, "+")
  {
    assert data[p] == '+';
    if p + 1 < |data| && data[p + 1] == '=' {
      MunchesPlusEq(data, p);
    } else if p + 1 < |data| && data[p + 1] == '+' {
      MunchesIncr(data, p);
    } else {
      assert ScanAt(data, p) == Step(Ok(Plus), p + 1);
    }
  }

  lemma MunchesMinus(data: string, p: nat)
    requires LexemeAt(data, p, "-")
    ensures MunchesOver(data, p, "-")
  {
    assert data[p] == '-';
    if p + 1 < |data| && data[p + 1] == '=' {
      MunchesMinusEq(data, p);
    } else if p + 1 < |data| && data[p + 1] == '-' {
      MunchesDecr(data, p);
    } else {
      assert ScanAt(data, p) == Step(Ok(Minus), p + 1);
    }
  }

  lemma MunchesMul(data: string, p: nat)
    requires LexemeAt(data, p, "*")
    ensures MunchesOver(data, p, "*")
  {
    assert data[p] == '*';
    if p + 1 < |data| && data[p + 1] == '=' {
      MunchesMulEq(data, p);
    } else if p + 1 < |data| && data[p + 1] == '*' {
      MunchesPow(data, p);
    } else {
      assert ScanAt(data, p) == Step(Ok(Mul), p + 1);
    }
  }

  lemma MunchesDiv(data: string, p: nat)
    requires LexemeAt(data, p, "/")
    ensures MunchesOver(data, p, "/")
  {
    assert data[p] == '/';
    if p + 1 < |data| && data[p + 1] == '=' {
      MunchesDivEq(data, p);
    } else {
      assert ScanAt(data, p) == Step(Ok(Div), p + 1);
    }
  }

  lemma MunchesMod(data: string, p: nat)
    requires LexemeAt(data, p, "%")
    ensures MunchesOver(data, p, "%")
  {
    assert data[p] == '%';
    if p + 1 < |data| && data[p + 1] == '=' {
      MunchesModEq(data, p);
    } else {
      assert ScanAt(data, p) == Step(Ok(Mod), p + 1);
    }
  }

  lemma MunchesAssign(data: string, p: nat)
    requires LexemeAt(data, p, "=")
    ensures MunchesOver(data, p, "=")
  {
    assert data[p] == '=';
    if p + 1 < |data| && data[p + 1] == '=' {
      MunchesEqu(data, p);
    } else if p + 1 < |data| && data[p + 1] == '~' {
      MunchesReMatch(data, p);
    } else {
      assert ScanAt(data, p) == Step(Ok(Assign), p + 1);
    }
  }

  lemma MunchesEqu(data: string, p: nat)
    requires LexemeAt(data, p, "==")
    ensures MunchesOver(data, p, "==")
  {
    assert data[p] == '=' && data[p + 1] == '=';
  }

  lemma MunchesNequ(data: string, p: nat)
    requires LexemeAt(data, p, "!=")
    ensures MunchesOver(data, p, "!=")
  {
    assert data[p] == '!' && data[p + 1] == '=';
  }

  lemma MunchesAnd(data: string, p: nat)
    requires LexemeAt(data, p, "&&")
    ensures MunchesOver(data, p, "&&")
  {
    assert data[p] == '&' && data[p + 1] == '&';
  }

  lemma MunchesOr(data: string, p: nat)
    requires LexemeAt(data, p, "||")
    ensures MunchesOver(data, p, "||")
  {
    assert data[p] == '|' && data[p + 1] == '|';
  }

  lemma MunchesGt(data: string, p: nat)
    requires LexemeAt(data, p, ">")
    ensures MunchesOver(data, p, ">")
  {
    assert data[p] == '>';
    if p + 1 < |data| && data[p + 1] == '<' {
      MunchesSubstr(data, p);
    } else if p + 1 < |data| && data[p + 1] == '=' {
      MunchesGte(data, p);
    } else if p + 1 < |data| && data[p + 1] == '>' {
      MunchesShr(data, p);
    } else if p + 2 < |data| && data[p + 1] == '!' && data[p + 2] == '<' {
      MunchesNSubstr(data, p);
    } else if p + 1 < |data| && data[p + 1] == '!' {
      assert MissingLt(data, p, ScanAt(data, p));
    } else {
      assert ScanAt(data, p) == Step(Ok(Gt), p + 1);
    }
  }

  lemma MunchesLt(data: string, p: nat)
    requires LexemeAt(data, p, "<")
    ensures MunchesOver(data, p, "<")
  {
    assert data[p] == '<';
    if p + 1 < |data| && data[p + 1] == '=' {
      MunchesLte(data, p);
    } else if p + 1 < |data| && data[p + 1] == '<' {
      MunchesShl(data, p);
    } else {
      assert ScanAt(data, p) == Step(Ok(Lt), p + 1);
    }
  }

  lemma MunchesGte(data: string, p: nat)
    requires LexemeAt(data, p, ">=")
    ensures MunchesOver(data, p, ">=")
  {
    assert data[p] == '>' && data[p + 1] == '=';
  }

  lemma MunchesLte(data: string, p: nat)
    requires LexemeAt(data, p, "<=")
    ensures MunchesOver(data, p, "<=")
  {
    assert data[p] == '<' && data[p + 1] == '=';
  }

  lemma MunchesNot(data: string, p: nat)
    requires LexemeAt(data, p, "!")
    ensures MunchesOver(data, p, "!")
  {
    assert data[p] == '!';
    if p + 1 < |data| && data[p + 1] == '=' {
      MunchesNequ(data, p);
    } else if p + 1 < |data| && data[p + 1] == '~' {
      MunchesNreMatch(data, p);
    } else {
      assert ScanAt(data, p) == Step(Ok(Not), p + 1);
    }
  }

  lemma MunchesBwAnd(data: string, p: nat)
    requires LexemeAt(data, p, "&")
    ensures MunchesOver(data, p, "&")
  {
    assert data[p] == '&';
    if p + 1 < |data| && data[p + 1] == '&' {
      MunchesAnd(data, p);
    } else {
      assert ScanAt(data, p) == Step(Ok(BwAnd), p + 1);
    }
  }

  lemma MunchesBwOr(data: string, p: nat)
    requires LexemeAt(data, p, "|")
    ensures MunchesOver(data, p, "|")
  {
    assert data[p] == '|';
    if p + 1 < |data| && data[p + 1] == '|' {
      MunchesOr(data, p);
    } else {
      assert ScanAt(data, p) == Step(Ok(BwOr), p + 1);
    }
  }

  lemma MunchesBwXor(data: string, p: nat)
    requires LexemeAt(data, p, "^")
    ensures MunchesOver(data, p, "^")
  {
    assert data[p] == '^';
    if p + 1 < |data| && data[p + 1] == '=' {
      MunchesXorEq(data, p);
    } else {
      assert ScanAt(data, p) == Step(Ok(BwXor), p + 1);
    }
  }

  lemma MunchesPlusEq(data: string, p: nat)
    requires LexemeAt(data, p, "+=")
    ensures MunchesOver(data, p, "+=")
  {
    assert data[p] == '+' && data[p + 1] == '=';
  }

  lemma MunchesMinusEq(data: string, p: nat)
    requires LexemeAt(data, p, "-=")
    ensures MunchesOver(data, p, "-=")
  {
    assert data[p] == '-' && data[p + 1] == '=';
  }

  lemma MunchesDivEq(data: string, p: nat)
    requires LexemeAt(data, p, "/=")
    ensures MunchesOver(data, p, "/=")
  {
    assert data[p] == '/' && data[p + 1] == '=';
  }

  lemma MunchesModEq(data: string, p: nat)
    requires LexemeAt(data, p, "%=")
    ensures MunchesOver(data, p, "%=")
  {
    assert data[p] == '%' && data[p + 1] == '=';
  }

  lemma MunchesMulEq(data: string, p: nat)
    requires LexemeAt(data, p, "*=")
    ensures MunchesOver(data, p, "*=")
  {
    assert data[p] == '*' && data[p + 1] == '=';
  }

  lemma MunchesXorEq(data: string, p: nat)
    requires LexemeAt(data, p, "^=")
    ensures MunchesOver(data, p, "^=")
  {
    assert data[p] == '^' && data[p + 1] == '=';
  }

  lemma MunchesShr(data: string, p: nat)
    requires LexemeAt(data, p, ">>")
    ensures MunchesOver(data, p, ">>")
  {
    assert data[p] == '>' && data[p + 1] == '>';
    if p + 2 < |data| && data[p + 2] == '=' {
      MunchesShrEq(data, p);
    } else if p + 2 < |data| && data[p + 2] == '>' {
      MunchesUshr(data, p);
    } else {
      assert ScanAt(data, p) == Step(Ok(Shr), p + 2);
    }
  }

  lemma MunchesShl(data: string, p: nat)
    requires LexemeAt(data, p, "<<")
    ensures MunchesOver(data, p, "<<")
  {
    assert data[p] == '<' && data[p + 1] == '<';
    if p + 2 < |data| && data[p + 2] == '=' {
      MunchesShlEq(data, p);
    } else {
      assert ScanAt(data, p) == Step(Ok(Shl), p + 3);
    }
  }

  lemma MunchesShrEq(data: string, p: nat)
    requires LexemeAt(data, p, ">>=")
    ensures MunchesOver(data, p, ">>=")
  {
    assert data[p] == '>' && data[p + 1] == '>' && data[p + 2] == '=';
  }

  lemma MunchesShlEq(data: string, p: nat)
    requires LexemeAt(data, p, "<<=")
    ensures MunchesOver(data, p, "<<=")
  {
    assert data[p] == '<' && data[p + 1] == '<' && data[p + 2] == '=';
  }

  lemma MunchesUshr(data: string, p: nat)
    requires LexemeAt(data, p, ">>>")
    ensures MunchesOver(data, p, ">>>")
  {
    assert data[p] == '>' && data[p + 1] == '>' && data[p + 2] == '>';
  }

  lemma MunchesIncr(data: string, p: nat)
    requires LexemeAt(data, p, "++")
    ensures MunchesOver(data, p, "++")
  {
    assert data[p] == '+' && data[p + 1] == '+';
  }

  lemma MunchesDecr(data: string, p: nat)
    requires LexemeAt(data, p, "--")
    ensures MunchesOver(data, p, "--")
  {
    assert data[p] == '-' && data[p + 1] == '-';
  }

  lemma MunchesPow(data: string, p: nat)
    requires LexemeAt(data, p, "**")
    ensures MunchesOver(data, p, "**")
  {
    assert data[p] == '*' && data[p + 1] == '*';
  }

  lemma MunchesSubstr(data: string, p: nat)
    requires LexemeAt(data, p, "><")
    ensures MunchesOver(data, p, "><")
  {
    assert data[p] == '>' && data[p + 1] == '<';
  }

  lemma MunchesNSubstr(data: string, p: nat)
    requires LexemeAt(data, p, ">!<")
    ensures MunchesOver(data, p, ">!<")
  {
    assert data[p] == '>' && data[p + 1] == '!' && data[p + 2] == '<';
  }

  lemma MunchesReMatch(data: string, p: nat)
    requires LexemeAt(data, p, "=~")
    ensures MunchesOver(data, p, "=~")
  {
    assert data[p] == '=' && data[p + 1] == '~';
  }

  lemma MunchesNreMatch(data: string, p: nat)
    requires LexemeAt(data, p, "!~")
    ensures MunchesOver(data, p, "!~")
  {
    assert data[p] == '!' && data[p + 1] == '~';
  }

  /** Rows 0 to 2 of `MunchAt`. */
  lemma MunchRows0(data: string, p: nat, i: nat)
    requires 0 <= i < 3 && LexemeAt(data, p, Operators[i])
    ensures MunchesOver(data, p, Operators[i])
  {
    if i == 0 {
      assert Operators[i] == "+";
      MunchesPlus(data, p);
    } else if i == 1 {
      assert Operators[i] == "-";
      MunchesMinus(data, p);
    } else if i == 2 {
      assert Operators[i] == "*";
      MunchesMul(data, p);
    }
  }

  /** Rows 3 to 5 of `MunchAt`. */
  lemma MunchRows1(data: string, p: nat, i: nat)
    requires 3 <= i < 6 && LexemeAt(data, p, Operators[i])
    ensures MunchesOver(data, p, Operators[i])
  {
    if i == 3 {
      assert Operators[i] == "/";
      MunchesDiv(data, p);
    } else if i == 4 {
      assert Operators[i] == "%";
      MunchesMod(data, p);
    } else if i == 5 {
      assert Operators[i] == "=";
      MunchesAssign(data, p);
    }
  }

  /** Rows 6 to 8 of `MunchAt`. */
  lemma MunchRows2(data: string, p: nat, i: nat)
    requires 6 <= i < 9 && LexemeAt(data, p, Operators[i])
    ensures MunchesOver(data, p, Operators[i])
  {
    if i == 6 {
      assert Operators[i] == "==";
      MunchesEqu(data, p);
    } else if i == 7 {
      assert Operators[i] == "!=";
      MunchesNequ(data, p);
    } else if i == 8 {
      assert Operators[i] == "&&";
      MunchesAnd(data, p);
    }
  }

  /** Rows 9 to 11 of `MunchAt`. */
  lemma MunchRows3(data: string, p: nat, i: nat)
    requires 9 <= i < 12 && LexemeAt(data, p, Operators[i])
    ensures MunchesOver(data, p, Operators[i])
  {
    if i == 9 {
      assert Operators[i] == "||";
      MunchesOr(data, p);
    } else if i == 10 {
      assert Operators[i] == ">";
      MunchesGt(data, p);
    } else if i == 11 {
      assert Operators[i] == "<";
      MunchesLt(data, p);
    }
  }

  /** Rows 12 to 14 of `MunchAt`. */
  lemma MunchRows4(data: string, p: nat, i: nat)
    requires 12 <= i < 15 && LexemeAt(data, p, Operators[i])
    ensures MunchesOver(data, p, Operators[i])
  {
    if i == 12 {
      assert Operators[i] == ">=";
      MunchesGte(data, p);
    } else if i == 13 {
      assert Operators[i] == "<=";
      MunchesLte(data, p);
    } else if i == 14 {
      assert Operators[i] == "!";
      MunchesNot(data, p);
    }
  }

  /** Rows 15 to 17 of `MunchAt`. */
  lemma MunchRows5(data: string, p: nat, i: nat)
    requires 15 <= i < 18 && LexemeAt(data, p, Operators[i])
    ensures MunchesOver(data, p, Operators[i])
  {
    if i == 15 {
      assert Operators[i] == "&";
      MunchesBwAnd(data, p);
    } else if i == 16 {
      assert Operators[i] == "|";
      MunchesBwOr(data, p);
    } else if i == 17 {
      assert Operators[i] == "^";
      MunchesBwXor(data, p);
    }
  }

  /** Rows 18 to 20 of `MunchAt`. */
  lemma MunchRows6(data: string, p: nat, i: nat)
    requires 18 <= i < 21 && LexemeAt(data, p, Operators[i])
    ensures MunchesOver(data, p, Operators[i])
  {
    if i == 18 {
      assert Operators[i] == "+=";
      MunchesPlusEq(data, p);
    } else if i == 19 {
      assert Operators[i] == "-=";
      MunchesMinusEq(data, p);
    } else if i == 20 {
      assert Operators[i] == "/=";
      MunchesDivEq(data, p);
    }
  }

  /** Rows 21 to 23 of `MunchAt`. */
  lemma MunchRows7(data: string, p: nat, i: nat)
    requires 21 <= i < 24 && LexemeAt(data, p, Operators[i])
    ensures MunchesOver(data, p, Operators[i])
  {
    if i == 21 {
      assert Operators[i] == "%=";
      MunchesModEq(data, p);
    } else if i == 22 {
      assert Operators[i] == "*=";
      MunchesMulEq(data, p);
    } else if i == 23 {
      assert Operators[i] == "^=";
      MunchesXorEq(data, p);
    }
  }

  /** Rows 24 to 26 of `MunchAt`. */
  lemma MunchRows8(data: string, p: nat, i: nat)
    requires 24 <= i < 27 && LexemeAt(data, p, Operators[i])
    ensures MunchesOver(data, p, Operators[i])
  {
    if i == 24 {
      assert Operators[i] == ">>";
      MunchesShr(data, p);
    } else if i == 25 {
      assert Operators[i] == "<<";
      MunchesShl(data, p);
    } else if i == 26 {
      assert Operators[i] == ">>=";
      MunchesShrEq(data, p);
    }
  }

  /** Rows 27 to 29 of `MunchAt`. */
  lemma MunchRows9(data: string, p: nat, i: nat)
    requires 27 <= i < 30 && LexemeAt(data, p, Operators[i])
    ensures MunchesOver(data, p, Operators[i])
  {
    if i == 27 {
      assert Operators[i] == "<<=";
      MunchesShlEq(data, p);
    } else if i == 28 {
      assert Operators[i] == ">>>";
      MunchesUshr(data, p);
    } else if i == 29 {
      assert Operators[i] == "++";
      MunchesIncr(data, p);
    }
  }

  /** Rows 30 to 32 of `MunchAt`. */
  lemma MunchRows10(data: string, p: nat, i: nat)
    requires 30 <= i < 33 && LexemeAt(data, p, Operators[i])
    ensures MunchesOver(data, p, Operators[i])
  {
    if i == 30 {
      assert Operators[i] == "--";
      MunchesDecr(data, p);
    } else if i == 31 {
      assert Operators[i] == "**";
      MunchesPow(data, p);
    } else if i == 32 {
      assert Operators[i] == "><";
      MunchesSubstr(data, p);
    }
  }

  /** Rows 33 to 35 of `MunchAt`. */
  lemma MunchRows11(data: string, p: nat, i: nat)
    requires 33 <= i < 36 && LexemeAt(data, p, Operators[i])
    ensures MunchesOver(data, p, Operators[i])
  {
    if i == 33 {
      assert Operators[i] == ">!<";
      MunchesNSubstr(data, p);
    } else if i == 34 {
      assert Operators[i] == "=~";
      MunchesReMatch(data, p);
    } else if i == 35 {
      assert Operators[i] == "!~";
      MunchesNreMatch(data, p);
    }
  }

  /** Row i of the operator table, munched. */
  lemma MunchAt(data: string, p: nat, i: nat)
    requires i < |Operators| && LexemeAt(data, p, Operators[i])
    ensures MunchesOver(data, p, Operators[i])
  {
    if i < 3 { MunchRows0(data, p, i); }
    else if i < 6 { MunchRows1(data, p, i); }
    else if i < 9 { MunchRows2(data, p, i); }
    else if i < 12 { MunchRows3(data, p, i); }
    else if i < 15 { MunchRows4(data, p, i); }
    else if i < 18 { MunchRows5(data, p, i); }
    else if i < 21 { MunchRows6(data, p, i); }
    else if i < 24 { MunchRows7(data, p, i); }
    else if i < 27 { MunchRows8(data, p, i); }
    else if i < 30 { MunchRows9(data, p, i); }
    else if i < 33 { MunchRows10(data, p, i); }
    else { MunchRows11(data, p, i); }
  }

  /**
   * Maximal munch: where any operator lexeme is written, `next_token`
   * either takes an operator whose lexeme is written there, no shorter
   * than any operator lexeme written there, and which `from_str` maps its
   * lexeme back to, consuming the lexeme plus its overrun; or it reports
   * `>!` without `<`.
   */
  lemma OperatorMaximalMunch(data: string, p: nat, i: nat)
    requires i < |Operators| && LexemeAt(data, p, Operators[i])
    ensures MissingLt(data, p, ScanAt(data, p)) || OperatorStep(data, p, ScanAt(data, p))
    ensures var st := ScanAt(data, p);
      OperatorStep(data, p, st) ==>
        && FromStr(Lexeme(st.result.value)) == st.result.value
        && forall j :: 0 <= j < |Operators| && LexemeAt(data, p, Operators[j]) ==> |Operators[j]| <= |Lexeme(st.result.value)|
  {
    MunchAt(data, p, i);
    var st := ScanAt(data, p);
    if OperatorStep(data, p, st) {
      LexemeRoundTrip(st.result.value);
      forall j | 0 <= j < |Operators| && LexemeAt(data, p, Operators[j])
        ensures |Operators[j]| <= |Lexeme(st.result.value)|
      {
        MunchAt(data, p, j);
      }
    }
  }

  /** `>!` without its `<` is the only error an operator lead can give. */
  lemma MissingLtError(data: string, p: nat)
    requires p + 1 < |data| && data[p] == '>' && data[p + 1] == '!'
    ensures ScanAt(data, p).result.Err? <==> CharAt(data, p + 2) != Some('<')
    ensures CharAt(data, p + 2) != Some('<') ==> MissingLt(data, p, ScanAt(data, p))
    ensures CharAt(data, p + 2) == Some('<') ==>
      OperatorStep(data, p, ScanAt(data, p)) && ScanAt(data, p).result.value == NSubstr
  {
    if CharAt(data, p + 2) == Some('<') {
      MunchesNSubstr(data, p);
    }
  }

  /** The characters an operator lexeme starts with. */
  predicate IsOperatorLead(c: char)
  {
    || c == '+' || c == '-' || c == '*' || c == '/' || c == '%' || c == '='
    || c == '!' || c == '&' || c == '|' || c == '^' || c == '>' || c == '<'
  }

  /** The one-character operator lexeme of a lead character, by its row in the table. */
  lemma LeadRow(c: char) returns (i: nat)
    requires IsOperatorLead(c)
    ensures i < |Operators| && Operators[i] == [c]
  {
    match c
    case '+' => i := 0;
    case '-' => i := 1;
    case '*' => i := 2;
    case '/' => i := 3;
    case '%' => i := 4;
    case '=' => i := 5;
    case '>' => i := 10;
    case '<' => i := 11;
    case '!' => i := 14;
    case '&' => i := 15;
    case '|' => i := 16;
    case '^' => i := 17;
  }

  /** The scans that do not start on an operator lead give no operator. */
  lemma OperatorOnlyFromLead(data: string, p: nat)
    requires p < |data|
    ensures ScanAt(data, p).result.Ok? && ScanAt(data, p).result.value.IsOperator() ==> IsOperatorLead(data[p])
  {
    ScanAtDispatch(data, p);
    if IsAsciiAlpha(data[p]) || data[p] == '_' {
      FromIdentRange(data[p..SpanEnd(data, p, IsIdentChar)]);
    }
  }

  /**
   * Every operator `next_token` returns is written where the scan starts,
   * and the cursor moves past its lexeme, plus one character for `<<`,
   * `<<=` and `>!<`.
   */
  lemma OperatorAdvance(data: string, p: nat)
    requires ScanAt(data, p).result.Ok? && ScanAt(data, p).result.value.IsOperator()
    ensures OperatorStep(data, p, ScanAt(data, p))
  {
    assert p < |data|;
    OperatorOnlyFromLead(data, p);
    var i := LeadRow(data[p]);
    assert data[p..p + 1] == [data[p]];
    MunchAt(data, p, i);
  }
}
