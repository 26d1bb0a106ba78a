/**
 * The operator arms of `next_token` against the operator table of
 * `Tokens`: maximal munch, the characters each operator consumes, and the
 * lexer's own test that the table's lexemes, joined by spaces, scan back
 * to the table's variants.
 */
module OperatorProperties {
  import opened Wrappers
  import opened Tokens
  import opened ScanSpec
  import opened ScanProperties

  /**
   * How many characters beyond its lexeme `next_token` consumes for an
   * operator: one for `<<`, `<<=` and `>!<`, none for the others.
   */
  function Overrun(t: Token): (n: nat)
  {
    if t == Shl || t == ShlEq || t == NSubstr then 1 else 0
  }

  /** The lexeme op is written in data at p. */
  predicate LexemeAt(data: string, p: nat, op: string)
  {
    p + |op| <= |data| && data[p..p + |op|] == op
  }

  /** Position q is a blank or the end of the text. */
  predicate BlankOrEnd(data: string, q: nat)
  {
    q >= |data| || IsBlank(data[q])
  }

  // One lemma per operator: its lexeme followed by a blank or the end of
  // the text scans to its variant.

  lemma ScansPlus(data: string, p: nat)
    requires LexemeAt(data, p, "+") && BlankOrEnd(data, p + 1)
    ensures ScanAt(data, p) == Step(Ok(Plus), p + 1)
    ensures p < |data| && StopsAt(data, p)
  {
    assert data[p] == '+';
  }

  lemma ScansMinus(data: string, p: nat)
    requires LexemeAt(data, p, "-") && BlankOrEnd(data, p + 1)
    ensures ScanAt(data, p) == Step(Ok(Minus), p + 1)
    ensures p < |data| && StopsAt(data, p)
  {
    assert data[p] == '-';
  }

  lemma ScansMul(data: string, p: nat)
    requires LexemeAt(data, p, "*") && BlankOrEnd(data, p + 1)
    ensures ScanAt(data, p) == Step(Ok(Mul), p + 1)
    ensures p < |data| && StopsAt(data, p)
  {
    assert data[p] == '*';
  }

  lemma ScansDiv(data: string, p: nat)
    requires LexemeAt(data, p, "/") && BlankOrEnd(data, p + 1)
    ensures ScanAt(data, p) == Step(Ok(Div), p + 1)
    ensures p < |data| && StopsAt(data, p)
  {
    assert data[p] == '/';
  }

  lemma ScansMod(data: string, p: nat)
    requires LexemeAt(data, p, "%") && BlankOrEnd(data, p + 1)
    ensures ScanAt(data, p) == Step(Ok(Mod), p + 1)
    ensures p < |data| && StopsAt(data, p)
  {
    assert data[p] == '%';
  }

  lemma ScansAssign(data: string, p: nat)
    requires LexemeAt(data, p, "=") && BlankOrEnd(data, p + 1)
    ensures ScanAt(data, p) == Step(Ok(Assign), p + 1)
    ensures p < |data| && StopsAt(data, p)
  {
    assert data[p] == '=';
  }

  lemma ScansEqu(data: string, p: nat)
    requires LexemeAt(data, p, "==") && BlankOrEnd(data, p + 2)
    ensures ScanAt(data, p) == Step(Ok(Equ), p + 2)
    ensures p < |data| && StopsAt(data, p)
  {
    assert data[p] == '=' && data[p + 1] == '=';
  }

  lemma ScansNequ(data: string, p: nat)
    requires LexemeAt(data, p, "!=") && BlankOrEnd(data, p + 2)
    ensures ScanAt(data, p) == Step(Ok(Nequ), p + 2)
    ensures p < |data| && StopsAt(data, p)
  {
    assert data[p] == '!' && data[p + 1] == '=';
  }

  lemma ScansAnd(data: string, p: nat)
    requires LexemeAt(data, p, "&&") && BlankOrEnd(data, p + 2)
    ensures ScanAt(data, p) == Step(Ok(And), p + 2)
    ensures p < |data| && StopsAt(data, p)
  {
    assert data[p] == '&' && data[p + 1] == '&';
  }

  lemma ScansOr(data: string, p: nat)
    requires LexemeAt(data, p, "||") && BlankOrEnd(data, p + 2)
    ensures ScanAt(data, p) == Step(Ok(Or), p + 2)
    ensures p < |data| && StopsAt(data, p)
  {
    assert data[p] == '|' && data[p + 1] == '|';
  }

  lemma ScansGt(data: string, p: nat)
    requires LexemeAt(data, p, ">") && BlankOrEnd(data, p + 1)
    ensures ScanAt(data, p) == Step(Ok(Gt), p + 1)
    ensures p < |data| && StopsAt(data, p)
  {
    assert data[p] == '>';
  }

  lemma ScansLt(data: string, p: nat)
    requires LexemeAt(data, p, "<") && BlankOrEnd(data, p + 1)
    ensures ScanAt(data, p) == Step(Ok(Lt), p + 1)
    ensures p < |data| && StopsAt(data, p)
  {
    assert data[p] == '<';
  }

  lemma ScansGte(data: string, p: nat)
    requires LexemeAt(data, p, ">=") && BlankOrEnd(data, p + 2)
    ensures ScanAt(data, p) == Step(Ok(Gte), p + 2)
    ensures p < |data| && StopsAt(data, p)
  {
    assert data[p] == '>' && data[p + 1] == '=';
  }

  lemma ScansLte(data: string, p: nat)
    requires LexemeAt(data, p, "<=") && BlankOrEnd(data, p + 2)
    ensures ScanAt(data, p) == Step(Ok(Lte), p + 2)
    ensures p < |data| && StopsAt(data, p)
  {
    assert data[p] == '<' && data[p + 1] == '=';
  }

  lemma ScansNot(data: string, p: nat)
    requires LexemeAt(data, p, "!") && BlankOrEnd(data, p + 1)
    ensures ScanAt(data, p) == Step(Ok(Not), p + 1)
    ensures p < |data| && StopsAt(data, p)
  {
    assert data[p] == '!';
  }

  lemma ScansBwAnd(data: string, p: nat)
    requires LexemeAt(data, p, "&") && BlankOrEnd(data, p + 1)
    ensures ScanAt(data, p) == Step(Ok(BwAnd), p + 1)
    ensures p < |data| && StopsAt(data, p)
  {
    assert data[p] == '&';
  }

  lemma ScansBwOr(data: string, p: nat)
    requires LexemeAt(data, p, "|") && BlankOrEnd(data, p + 1)
    ensures ScanAt(data, p) == Step(Ok(BwOr), p + 1)
    ensures p < |data| && StopsAt(data, p)
  {
    assert data[p] == '|';
  }

  lemma ScansBwXor(data: string, p: nat)
    requires LexemeAt(data, p, "^") && BlankOrEnd(data, p + 1)
    ensures ScanAt(data, p) == Step(Ok(BwXor), p + 1)
    ensures p < |data| && StopsAt(data, p)
  {
    assert data[p] == '^';
  }

  lemma ScansPlusEq(data: string, p: nat)
    requires LexemeAt(data, p, "+=") && BlankOrEnd(data, p + 2)
    ensures ScanAt(data, p) == Step(Ok(PlusEq), p + 2)
    ensures p < |data| && StopsAt(data, p)
  {
    assert data[p] == '+' && data[p + 1] == '=';
  }

  lemma ScansMinusEq(data: string, p: nat)
    requires LexemeAt(data, p, "-=") && BlankOrEnd(data, p + 2)
    ensures ScanAt(data, p) == Step(Ok(MinusEq), p + 2)
    ensures p < |data| && StopsAt(data, p)
  {
    assert data[p] == '-' && data[p + 1] == '=';
  }

  lemma ScansDivEq(data: string, p: nat)
    requires LexemeAt(data, p, "/=") && BlankOrEnd(data, p + 2)
    ensures ScanAt(data, p) == Step(Ok(DivEq), p + 2)
    ensures p < |data| && StopsAt(data, p)
  {
    assert data[p] == '/' && data[p + 1] == '=';
  }

  lemma ScansModEq(data: string, p: nat)
    requires LexemeAt(data, p, "%=") && BlankOrEnd(data, p + 2)
    ensures ScanAt(data, p) == Step(Ok(ModEq), p + 2)
    ensures p < |data| && StopsAt(data, p)
  {
    assert data[p] == '%' && data[p + 1] == '=';
  }

  lemma ScansMulEq(data: string, p: nat)
    requires LexemeAt(data, p, "*=") && BlankOrEnd(data, p + 2)
    ensures ScanAt(data, p) == Step(Ok(MulEq), p + 2)
    ensures p < |data| && StopsAt(data, p)
  {
    assert data[p] == '*' && data[p + 1] == '=';
  }

  lemma ScansXorEq(data: string, p: nat)
    requires LexemeAt(data, p, "^=") && BlankOrEnd(data, p + 2)
    ensures ScanAt(data, p) == Step(Ok(XorEq), p + 2)
    ensures p < |data| && StopsAt(data, p)
  {
    assert data[p] == '^' && data[p + 1] == '=';
  }

  lemma ScansShr(data: string, p: nat)
    requires LexemeAt(data, p, ">>") && BlankOrEnd(data, p + 2)
    ensures ScanAt(data, p) == Step(Ok(Shr), p + 2)
    ensures p < |data| && StopsAt(data, p)
  {
    assert data[p] == '>' && data[p + 1] == '>';
  }

  lemma ScansShl(data: string, p: nat)
    requires LexemeAt(data, p, "<<") && BlankOrEnd(data, p + 2)
    ensures ScanAt(data, p) == Step(Ok(Shl), p + 3)
    ensures p < |data| && StopsAt(data, p)
  {
    assert data[p] == '<' && data[p + 1] == '<';
  }

  lemma ScansShrEq(data: string, p: nat)
    requires LexemeAt(data, p, ">>=") && BlankOrEnd(data, p + 3)
    ensures ScanAt(data, p) == Step(Ok(ShrEq), p + 3)
    ensures p < |data| && StopsAt(data, p)
  {
    assert data[p] == '>' && data[p + 1] == '>' && data[p + 2] == '=';
  }

  lemma ScansShlEq(data: string, p: nat)
    requires LexemeAt(data, p, "<<=") && BlankOrEnd(data, p + 3)
    ensures ScanAt(data, p) == Step(Ok(ShlEq), p + 4)
    ensures p < |data| && StopsAt(data, p)
  {
    assert data[p] == '<' && data[p + 1] == '<' && data[p + 2] == '=';
  }

  lemma ScansUshr(data: string, p: nat)
    requires LexemeAt(data, p, ">>>") && BlankOrEnd(data, p + 3)
    ensures ScanAt(data, p) == Step(Ok(Ushr), p + 3)
    ensures p < |data| && StopsAt(data, p)
  {
    assert data[p] == '>' && data[p + 1] == '>' && data[p + 2] == '>';
  }

  lemma ScansIncr(data: string, p: nat)
    requires LexemeAt(data, p, "++") && BlankOrEnd(data, p + 2)
    ensures ScanAt(data, p) == Step(Ok(Incr), p + 2)
    ensures p < |data| && StopsAt(data, p)
  {
    assert data[p] == '+' && data[p + 1] == '+';
  }

  lemma ScansDecr(data: string, p: nat)
    requires LexemeAt(data, p, "--") && BlankOrEnd(data, p + 2)
    ensures ScanAt(data, p) == Step(Ok(Decr), p + 2)
    ensures p < |data| && StopsAt(data, p)
  {
    assert data[p] == '-' && data[p + 1] == '-';
  }

  lemma ScansPow(data: string, p: nat)
    requires LexemeAt(data, p, "**") && BlankOrEnd(data, p + 2)
    ensures ScanAt(data, p) == Step(Ok(Pow), p + 2)
    ensures p < |data| && StopsAt(data, p)
  {
    assert data[p] == '*' && data[p + 1] == '*';
  }

  lemma ScansSubstr(data: string, p: nat)
    requires LexemeAt(data, p, "><") && BlankOrEnd(data, p + 2)
    ensures ScanAt(data, p) == Step(Ok(Substr), p + 2)
    ensures p < |data| && StopsAt(data, p)
  {
    assert data[p] == '>' && data[p + 1] == '<';
  }

  lemma ScansNSubstr(data: string, p: nat)
    requires LexemeAt(data, p, ">!<") && BlankOrEnd(data, p + 3)
    ensures ScanAt(data, p) == Step(Ok(NSubstr), p + 4)
    ensures p < |data| && StopsAt(data, p)
  {
    assert data[p] == '>' && data[p + 1] == '!' && data[p + 2] == '<';
  }

  lemma ScansReMatch(data: string, p: nat)
    requires LexemeAt(data, p, "=~") && BlankOrEnd(data, p + 2)
    ensures ScanAt(data, p) == Step(Ok(ReMatch), p + 2)
    ensures p < |data| && StopsAt(data, p)
  {
    assert data[p] == '=' && data[p + 1] == '~';
  }

  lemma ScansNreMatch(data: string, p: nat)
    requires LexemeAt(data, p, "!~") && BlankOrEnd(data, p + 2)
    ensures ScanAt(data, p) == Step(Ok(NreMatch), p + 2)
    ensures p < |data| && StopsAt(data, p)
  {
    assert data[p] == '!' && data[p + 1] == '~';
  }

  /** Rows 0 to 2 of `OperatorScanAt`. */
  lemma OperatorScanRows0(data: string, p: nat, i: nat)
    requires 0 <= i < 3 && LexemeAt(data, p, Operators[i]) && BlankOrEnd(data, p + |Operators[i]|)
    ensures ScanAt(data, p) == Step(Ok(OperatorTokens[i]), p + |Operators[i]| + Overrun(OperatorTokens[i]))
    ensures p < |data| && StopsAt(data, p)
  {
    if i == 0 {
      assert Operators[i] == "+" && OperatorTokens[i] == Plus;
      ScansPlus(data, p);
    } else if i == 1 {
      assert Operators[i] == "-" && OperatorTokens[i] == Minus;
      ScansMinus(data, p);
    } else if i == 2 {
      assert Operators[i] == "*" && OperatorTokens[i] == Mul;
      ScansMul(data, p);
    }
  }

  /** Rows 3 to 5 of `OperatorScanAt`. */
  lemma OperatorScanRows1(data: string, p: nat, i: nat)
    requires 3 <= i < 6 && LexemeAt(data, p, Operators[i]) && BlankOrEnd(data, p + |Operators[i]|)
    ensures ScanAt(data, p) == Step(Ok(OperatorTokens[i]), p + |Operators[i]| + Overrun(OperatorTokens[i]))
    ensures p < |data| && StopsAt(data, p)
  {
    if i == 3 {
      assert Operators[i] == "/" && OperatorTokens[i] == Div;
      ScansDiv(data, p);
    } else if i == 4 {
      assert Operators[i] == "%" && OperatorTokens[i] == Mod;
      ScansMod(data, p);
    } else if i == 5 {
      assert Operators[i] == "=" && OperatorTokens[i] == Assign;
      ScansAssign(data, p);
    }
  }

  /** Rows 6 to 8 of `OperatorScanAt`. */
  lemma OperatorScanRows2(data: string, p: nat, i: nat)
    requires 6 <= i < 9 && LexemeAt(data, p, Operators[i]) && BlankOrEnd(data, p + |Operators[i]|)
    ensures ScanAt(data, p) == Step(Ok(OperatorTokens[i]), p + |Operators[i]| + Overrun(OperatorTokens[i]))
    ensures p < |data| && StopsAt(data, p)
  {
    if i == 6 {
      assert Operators[i] == "==" && OperatorTokens[i] == Equ;
      ScansEqu(data, p);
    } else if i == 7 {
      assert Operators[i] == "!=" && OperatorTokens[i] == Nequ;
      ScansNequ(data, p);
    } else if i == 8 {
      assert Operators[i] == "&&" && OperatorTokens[i] == And;
      ScansAnd(data, p);
    }
  }

  /** Rows 9 to 11 of `OperatorScanAt`. */
  lemma OperatorScanRows3(data: string, p: nat, i: nat)
    requires 9 <= i < 12 && LexemeAt(data, p, Operators[i]) && BlankOrEnd(data, p + |Operators[i]|)
    ensures ScanAt(data, p) == Step(Ok(OperatorTokens[i]), p + |Operators[i]| + Overrun(OperatorTokens[i]))
    ensures p < |data| && StopsAt(data, p)
  {
    if i == 9 {
      assert Operators[i] == "||" && OperatorTokens[i] == Or;
      ScansOr(data, p);
    } else if i == 10 {
      assert Operators[i] == ">" && OperatorTokens[i] == Gt;
      ScansGt(data, p);
    } else if i == 11 {
      assert Operators[i] == "<" && OperatorTokens[i] == Lt;
      ScansLt(data, p);
    }
  }

  /** Rows 12 to 14 of `OperatorScanAt`. */
  lemma OperatorScanRows4(data: string, p: nat, i: nat)
    requires 12 <= i < 15 && LexemeAt(data, p, Operators[i]) && BlankOrEnd(data, p + |Operators[i]|)
    ensures ScanAt(data, p) == Step(Ok(OperatorTokens[i]), p + |Operators[i]| + Overrun(OperatorTokens[i]))
    ensures p < |data| && StopsAt(data, p)
  {
    if i == 12 {
      assert Operators[i] == ">=" && OperatorTokens[i] == Gte;
      ScansGte(data, p);
    } else if i == 13 {
      assert Operators[i] == "<=" && OperatorTokens[i] == Lte;
      ScansLte(data, p);
    } else if i == 14 {
      assert Operators[i] == "!" && OperatorTokens[i] == Not;
      ScansNot(data, p);
    }
  }

  /** Rows 15 to 17 of `OperatorScanAt`. */
  lemma OperatorScanRows5(data: string, p: nat, i: nat)
    requires 15 <= i < 18 && LexemeAt(data, p, Operators[i]) && BlankOrEnd(data, p + |Operators[i]|)
    ensures ScanAt(data, p) == Step(Ok(OperatorTokens[i]), p + |Operators[i]| + Overrun(OperatorTokens[i]))
    ensures p < |data| && StopsAt(data, p)
  {
    if i == 15 {
      assert Operators[i] == "&" && OperatorTokens[i] == BwAnd;
      ScansBwAnd(data, p);
    } else if i == 16 {
      assert Operators[i] == "|" && OperatorTokens[i] == BwOr;
      ScansBwOr(data, p);
    } else if i == 17 {
      assert Operators[i] == "^" && OperatorTokens[i] == BwXor;
      ScansBwXor(data, p);
    }
  }

  /** Rows 18 to 20 of `OperatorScanAt`. */
  lemma OperatorScanRows6(data: string, p: nat, i: nat)
    requires 18 <= i < 21 && LexemeAt(data, p, Operators[i]) && BlankOrEnd(data, p + |Operators[i]|)
    ensures ScanAt(data, p) == Step(Ok(OperatorTokens[i]), p + |Operators[i]| + Overrun(OperatorTokens[i]))
    ensures p < |data| && StopsAt(data, p)
  {
    if i == 18 {
      assert Operators[i] == "+=" && OperatorTokens[i] == PlusEq;
      ScansPlusEq(data, p);
    } else if i == 19 {
      assert Operators[i] == "-=" && OperatorTokens[i] == MinusEq;
      ScansMinusEq(data, p);
    } else if i == 20 {
      assert Operators[i] == "/=" && OperatorTokens[i] == DivEq;
      ScansDivEq(data, p);
    }
  }

  /** Rows 21 to 23 of `OperatorScanAt`. */
  lemma OperatorScanRows7(data: string, p: nat, i: nat)
    requires 21 <= i < 24 && LexemeAt(data, p, Operators[i]) && BlankOrEnd(data, p + |Operators[i]|)
    ensures ScanAt(data, p) == Step(Ok(OperatorTokens[i]), p + |Operators[i]| + Overrun(OperatorTokens[i]))
    ensures p < |data| && StopsAt(data, p)
  {
    if i == 21 {
      assert Operators[i] == "%=" && OperatorTokens[i] == ModEq;
      ScansModEq(data, p);
    } else if i == 22 {
      assert Operators[i] == "*=" && OperatorTokens[i] == MulEq;
      ScansMulEq(data, p);
    } else if i == 23 {
      assert Operators[i] == "^=" && OperatorTokens[i] == XorEq;
      ScansXorEq(data, p);
    }
  }

  /** Rows 24 to 26 of `OperatorScanAt`. */
  lemma OperatorScanRows8(data: string, p: nat, i: nat)
    requires 24 <= i < 27 && LexemeAt(data, p, Operators[i]) && BlankOrEnd(data, p + |Operators[i]|)
    ensures ScanAt(data, p) == Step(Ok(OperatorTokens[i]), p + |Operators[i]| + Overrun(OperatorTokens[i]))
    ensures p < |data| && StopsAt(data, p)
  {
    if i == 24 {
      assert Operators[i] == ">>" && OperatorTokens[i] == Shr;
      ScansShr(data, p);
    } else if i == 25 {
      assert Operators[i] == "<<" && OperatorTokens[i] == Shl;
      ScansShl(data, p);
    } else if i == 26 {
      assert Operators[i] == ">>=" && OperatorTokens[i] == ShrEq;
      ScansShrEq(data, p);
    }
  }

  /** Rows 27 to 29 of `OperatorScanAt`. */
  lemma OperatorScanRows9(data: string, p: nat, i: nat)
    requires 27 <= i < 30 && LexemeAt(data, p, Operators[i]) && BlankOrEnd(data, p + |Operators[i]|)
    ensures ScanAt(data, p) == Step(Ok(OperatorTokens[i]), p + |Operators[i]| + Overrun(OperatorTokens[i]))
    ensures p < |data| && StopsAt(data, p)
  {
    if i == 27 {
      assert Operators[i] == "<<=" && OperatorTokens[i] == ShlEq;
      ScansShlEq(data, p);
    } else if i == 28 {
      assert Operators[i] == ">>>" && OperatorTokens[i] == Ushr;
      ScansUshr(data, p);
    } else if i == 29 {
      assert Operators[i] == "++" && OperatorTokens[i] == Incr;
      ScansIncr(data, p);
    }
  }

  /** Rows 30 to 32 of `OperatorScanAt`. */
  lemma OperatorScanRows10(data: string, p: nat, i: nat)
    requires 30 <= i < 33 && LexemeAt(data, p, Operators[i]) && BlankOrEnd(data, p + |Operators[i]|)
    ensures ScanAt(data, p) == Step(Ok(OperatorTokens[i]), p + |Operators[i]| + Overrun(OperatorTokens[i]))
    ensures p < |data| && StopsAt(data, p)
  {
    if i == 30 {
      assert Operators[i] == "--" && OperatorTokens[i] == Decr;
      ScansDecr(data, p);
    } else if i == 31 {
      assert Operators[i] == "**" && OperatorTokens[i] == Pow;
      ScansPow(data, p);
    } else if i == 32 {
      assert Operators[i] == "><" && OperatorTokens[i] == Substr;
      ScansSubstr(data, p);
    }
  }

  /** Rows 33 to 35 of `OperatorScanAt`. */
  lemma OperatorScanRows11(data: string, p: nat, i: nat)
    requires 33 <= i < 36 && LexemeAt(data, p, Operators[i]) && BlankOrEnd(data, p + |Operators[i]|)
    ensures ScanAt(data, p) == Step(Ok(OperatorTokens[i]), p + |Operators[i]| + Overrun(OperatorTokens[i]))
    ensures p < |data| && StopsAt(data, p)
  {
    if i == 33 {
      assert Operators[i] == ">!<" && OperatorTokens[i] == NSubstr;
      ScansNSubstr(data, p);
    } else if i == 34 {
      assert Operators[i] == "=~" && OperatorTokens[i] == ReMatch;
      ScansReMatch(data, p);
    } else if i == 35 {
      assert Operators[i] == "!~" && OperatorTokens[i] == NreMatch;
      ScansNreMatch(data, p);
    }
  }

  /** Row i of the operator table, scanned: the dispatch over `OperatorScanRows0` to `OperatorScanRows11`. */
  lemma OperatorScanAt(data: string, p: nat, i: nat)
    requires i < |Operators| && LexemeAt(data, p, Operators[i]) && BlankOrEnd(data, p + |Operators[i]|)
    ensures ScanAt(data, p) == Step(Ok(OperatorTokens[i]), p + |Operators[i]| + Overrun(OperatorTokens[i]))
    ensures p < |data| && StopsAt(data, p)
  {
    if i < 3 { OperatorScanRows0(data, p, i); }
    else if i < 6 { OperatorScanRows1(data, p, i); }
    else if i < 9 { OperatorScanRows2(data, p, i); }
    else if i < 12 { OperatorScanRows3(data, p, i); }
    else if i < 15 { OperatorScanRows4(data, p, i); }
    else if i < 18 { OperatorScanRows5(data, p, i); }
    else if i < 21 { OperatorScanRows6(data, p, i); }
    else if i < 24 { OperatorScanRows7(data, p, i); }
    else if i < 27 { OperatorScanRows8(data, p, i); }
    else if i < 30 { OperatorScanRows9(data, p, i); }
    else if i < 33 { OperatorScanRows10(data, p, i); }
    else { OperatorScanRows11(data, p, i); }
  }

  /**
   * An operator lexeme followed by a blank or the end of the text scans to
   * the variant `from_str` gives it, and consumes the lexeme plus its
   * overrun.
   */
  lemma OperatorScan(data: string, p: nat, op: string)
    requires op in Operators && LexemeAt(data, p, op) && BlankOrEnd(data, p + |op|)
    ensures ScanAt(data, p) == Step(Ok(FromStr(op)), p + |op| + Overrun(FromStr(op)))
    ensures p < |data| && StopsAt(data, p)
  {
    var i :| 0 <= i < |Operators| && Operators[i] == op;
    FromStrAt(i);
    OperatorScanAt(data, p, i);
  }

  // ---------------------------------------------------------------------
  // The operator table, written out and scanned back
  // ---------------------------------------------------------------------

  /** The texts separated by single spaces, as Rust's `join(" ")` writes them. */
  function JoinSpaced(ops: seq<string>): (s: string)
    decreases |ops|
  {
    if ops == [] then "" else if |ops| == 1 then ops[0] else ops[0] + " " + JoinSpaced(ops[1..])
  }

  /** The lexemes of the operator variants ts, in order. */
  function LexemesOf(ts: seq<Token>): (ops: seq<string>)
    requires forall k :: 0 <= k < |ts| ==> ts[k].IsOperator()
    ensures |ops| == |ts| && forall k :: 0 <= k < |ts| ==> ops[k] == Lexeme(ts[k])
    decreases |ts|
  {
    if ts == [] then [] else [Lexeme(ts[0])] + LexemesOf(ts[1..])
  }

  /** The first lexeme of a joined text stands at its start. */
  lemma JoinedLexeme(data: string, pos: nat, ops: seq<string>)
    requires ops != [] && pos <= |data| && data[pos..] == JoinSpaced(ops)
    ensures LexemeAt(data, pos, ops[0])
    ensures BlankOrEnd(data, pos + |ops[0]|)
  {
    JoinedRest(data, pos, ops);
    var op := ops[0];
    if |ops| == 1 {
      assert data[pos..pos + |op|] == op;
    } else {
      var tail := JoinSpaced(ops[1..]);
      assert data[pos..] == op + " " + tail;
      assert data[pos..pos + |op|] == (op + " " + tail)[..|op|] == op;
    }
  }

  /** After the first lexeme of a joined text: the end, or a space and the rest joined. */
  lemma JoinedRest(data: string, pos: nat, ops: seq<string>)
    requires ops != [] && pos <= |data| && data[pos..] == JoinSpaced(ops)
    ensures var q := pos + |ops[0]|;
      && (|ops| == 1 ==> q == |data|)
      && (|ops| > 1 ==> q < |data| && data[q] == ' ' && data[q + 1..] == JoinSpaced(ops[1..]))
  {
    var op := ops[0];
    var q := pos + |op|;
    if |ops| > 1 {
      var tail := JoinSpaced(ops[1..]);
      assert data[pos..] == op + " " + tail;
      assert data[q] == (op + " " + tail)[|op|] == ' ';
      assert data[q + 1..] == (op + " " + tail)[|op| + 1..] == tail;
    }
  }

  /** `TokenizeFrom` after one call that returned a token other than `Eof`. */
  lemma TokenizeFromToken(data: string, pos: nat, t: Token, n: nat)
    requires Scan(data, pos) == Step(Ok(t), n) && t != Eof
    ensures TokenizeFrom(data, pos) == Outcome([t] + TokenizeFrom(data, n).tokens, TokenizeFrom(data, n).failure)
  {
  }

  /** At the end of the text, tokenizing gives `Eof` alone. */
  lemma TokenizeAtEnd(data: string, pos: nat)
    requires pos >= |data|
    ensures TokenizeFrom(data, pos) == Outcome([Eof], None)
  {
  }

  /** A token that ends the text is followed by `Eof` alone. */
  lemma TokenThenEnd(data: string, pos: nat, t: Token, next: nat)
    requires Scan(data, pos) == Step(Ok(t), next) && t != Eof && next >= |data|
    ensures TokenizeFrom(data, pos) == Outcome([t, Eof], None)
  {
    TokenizeFromToken(data, pos, t, next);
  }

  /**
   * A token followed by a single blank, which the call may or may not have
   * consumed: tokenizing goes on after the blank.
   */
  lemma TokenThenBlank(data: string, pos: nat, t: Token, next: nat, q: nat)
    requires Scan(data, pos) == Step(Ok(t), next) && t != Eof
    requires q < |data| && IsBlank(data[q]) && (next == q || next == q + 1)
    ensures TokenizeFrom(data, pos) == Outcome([t] + TokenizeFrom(data, q + 1).tokens, TokenizeFrom(data, q + 1).failure)
  {
    TokenizeFromToken(data, pos, t, next);
    assert GapIn(data, q + 1, q + 1);
    assert GapIn(data, next, q + 1);
    TokenizeFromAfterGap(data, next, q + 1);
  }

  /** One call of `next_token` on a joined text whose first lexeme is that of the operator ts[0]. */
  lemma JoinedScan(data: string, pos: nat, ts: seq<Token>) returns (next: nat)
    requires ts != [] && forall k :: 0 <= k < |ts| ==> ts[k].IsOperator()
    requires pos <= |data| && data[pos..] == JoinSpaced(LexemesOf(ts))
    ensures ts[0] != Eof
    ensures Scan(data, pos) == Step(Ok(ts[0]), next)
    ensures next == pos + |Lexeme(ts[0])| || next == pos + |Lexeme(ts[0])| + 1
  {
    JoinedLexeme(data, pos, LexemesOf(ts));
    var i := OperatorRow(ts[0]);
    FromStrAt(i);
    next := pos + |Lexeme(ts[0])| + Overrun(ts[0]);
    OperatorScanAt(data, pos, i);
  }

  /**
   * The first `next_token` call on a joined text of operators: the last
   * lexeme is followed by `Eof`; any other by the tokens after its space.
   */
  lemma JoinedHead(data: string, pos: nat, ts: seq<Token>, q: nat)
    requires ts != [] && forall k :: 0 <= k < |ts| ==> ts[k].IsOperator()
    requires pos <= |data| && data[pos..] == JoinSpaced(LexemesOf(ts)) && q == pos + |Lexeme(ts[0])|
    ensures |ts| == 1 ==> TokenizeFrom(data, pos) == Outcome(ts + [Eof], None)
    ensures |ts| > 1 ==>
      && q < |data| && data[q + 1..] == JoinSpaced(LexemesOf(ts[1..]))
      && TokenizeFrom(data, pos) == Outcome([ts[0]] + TokenizeFrom(data, q + 1).tokens, TokenizeFrom(data, q + 1).failure)
  {
    var ops := LexemesOf(ts);
    var t := ts[0];
    var next := JoinedScan(data, pos, ts);
    JoinedRest(data, pos, ops);
    if |ts| == 1 {
      TokenThenEnd(data, pos, t, next);
      assert ts == [t];
    } else {
      TokenThenBlank(data, pos, t, next, q);
      assert LexemesOf(ts[1..]) == ops[1..];
    }
  }

  /**
   * Operator variants written as their lexemes and joined by spaces scan,
   * one `next_token` call each, back to the same variants, followed by
   * `Eof`, with no error.
   */
  lemma {:induction false} JoinedOperatorsFrom(data: string, pos: nat, ts: seq<Token>)
    requires forall k :: 0 <= k < |ts| ==> ts[k].IsOperator()
    requires pos <= |data| && data[pos..] == JoinSpaced(LexemesOf(ts))
    ensures TokenizeFrom(data, pos) == Outcome(ts + [Eof], None)
    decreases |ts|
  {
    if ts == [] {
      assert pos == |data|;
      TokenizeAtEnd(data, pos);
      assert ts + [Eof] == [Eof];
    } else {
      var q := pos + |Lexeme(ts[0])|;
      JoinedHead(data, pos, ts, q);
      if |ts| > 1 {
        JoinedOperatorsFrom(data, q + 1, ts[1..]);
        ChainToEnd(TokenizeFrom(data, pos), ts[0], TokenizeFrom(data, q + 1), ts[1..], ts);
      }
    }
  }

  /** A token in front of an outcome that ends in `Eof`. */
  lemma ChainToEnd(o: Outcome, t: Token, o2: Outcome, rest: seq<Token>, all: seq<Token>)
    requires o == Outcome([t] + o2.tokens, o2.failure) && o2 == Outcome(rest + [Eof], None)
    requires all == [t] + rest
    ensures o == Outcome(all + [Eof], None)
  {
    assert [t] + (rest + [Eof]) == ([t] + rest) + [Eof];
  }

  /**
   * The lexer's operator test: the operator table's lexemes, joined by
   * spaces, scan back to the table's variants in order, then `Eof`.
   */
  lemma OperatorsTestPasses()
    ensures Tokenize(JoinSpaced(Operators)) == Outcome(OperatorTokens + [Eof], None)
  {
    forall k | 0 <= k < |OperatorTokens|
      ensures OperatorTokens[k].IsOperator() && LexemesOf(OperatorTokens)[k] == Operators[k]
    {
      FromStrAt(k);
    }
    assert LexemesOf(OperatorTokens) == Operators;
    JoinedOperatorsFrom(JoinSpaced(Operators), 0, OperatorTokens);
  }
}
