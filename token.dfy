/**
 * The token vocabulary of the NASL tokenizer (src/token.rs): the `Token`
 * enum, the keyword table `from_ident` and the operator table `from_str`.
 *
 * Rust's `&'a str` payloads, which borrow the source text, are modelled as
 * `string` values; the scanner proves that every payload it produces is a
 * slice `data[start..end]` of its input.
 */
module Tokens {

  /** Rust's `i32`. */
  const I32Max: int := 0x7FFF_FFFF
  type i32 = x: int | -0x8000_0000 <= x <= I32Max

  datatype Token =
    // Operators
    | Plus | Minus | Mul | Div | Mod | Assign | Equ | Nequ | And | Or
    | Gt | Lt | Gte | Lte | Not | BwAnd | BwOr | BwXor
    | PlusEq | MinusEq | DivEq | ModEq | MulEq | XorEq
    | Shr | Shl | ShrEq | ShlEq | Ushr | Incr | Decr | Pow
    | Substr | NSubstr | ReMatch | NreMatch
    // Punctuation and the first two keywords, in the order of the enum
    | If | Else | Lparan | Rparan | Lbrace | Rbrace | Lbracket | Rbracket
    | SemiColon | Comma
    // Payload-bearing tokens
    | Ident(text: string) | PureStr(text: string) | ImpureStr(text: string)
    | Colon
    | Num(value: i32)
    // Sentinels
    | Eof | Comment
    // The remaining keywords
    | Function | Null | True | False | Return | For | While | Break | Continue
    | Foreach | Include | LocalVar | GlobalVar | Repeat | Until
  {
    /** The 36 operator variants, those that `from_str` can produce. */
    predicate IsOperator() {
      || Plus? || Minus? || Mul? || Div? || Mod? || Assign? || Equ? || Nequ?
      || And? || Or? || Gt? || Lt? || Gte? || Lte? || Not? || BwAnd? || BwOr?
      || BwXor? || PlusEq? || MinusEq? || DivEq? || ModEq? || MulEq? || XorEq?
      || Shr? || Shl? || ShrEq? || ShlEq? || Ushr? || Incr? || Decr? || Pow?
      || Substr? || NSubstr? || ReMatch? || NreMatch?
    }

    /** The 17 keyword variants, those that `from_ident` maps a reserved word to. */
    predicate IsKeyword() {
      || If? || Else? || Function? || Null? || True? || False? || Return?
      || For? || While? || Break? || Continue? || Foreach? || Include?
      || LocalVar? || GlobalVar? || Repeat? || Until?
    }
  }

  /** The operator lexemes, in the order of the operator table and of the lexer's own test. */
  const Operators: seq<string> :=
    ["+", "-", "*", "/", "%", "="] + ["==", "!=", "&&", "||", ">", "<"]
    + [">=", "<=", "!", "&", "|", "^"] + ["+=", "-=", "/=", "%=", "*=", "^="]
    + [">>", "<<", ">>=", "<<=", ">>>", "++"] + ["--", "**", "><", ">!<", "=~", "!~"]

  /** The reserved words recognised by the keyword table. */
  const Keywords: seq<string> := [
    "if", "else", "function", "NULL", "TRUE", "FALSE", "return", "for", "while",
    "break", "continue", "foreach", "include", "local_var", "global_var", "repeat", "until"
  ]

  /** The operator variants, position by position beside `Operators`. */
  const OperatorTokens: seq<Token> :=
    [Plus, Minus, Mul, Div, Mod, Assign] + [Equ, Nequ, And, Or, Gt, Lt]
    + [Gte, Lte, Not, BwAnd, BwOr, BwXor] + [PlusEq, MinusEq, DivEq, ModEq, MulEq, XorEq]
    + [Shr, Shl, ShrEq, ShlEq, Ushr, Incr] + [Decr, Pow, Substr, NSubstr, ReMatch, NreMatch]

  /** The keyword variants, position by position beside `Keywords`. */
  const KeywordTokens: seq<Token> := [
    If, Else, Function, Null, True, False, Return, For, While, Break, Continue, Foreach,
    Include, LocalVar, GlobalVar, Repeat, Until
  ]

  /** The lexeme of an operator variant, as the comment beside each variant gives it. */
  function Lexeme(t: Token): (s: string)
    requires t.IsOperator()
  {
    match t
    case Plus => "+"
    case Minus => "-"
    case Mul => "*"
    case Div => "/"
    case Mod => "%"
    case Assign => "="
    case Equ => "=="
    case Nequ => "!="
    case And => "&&"
    case Or => "||"
    case Gt => ">"
    case Lt => "<"
    case Gte => ">="
    case Lte => "<="
    case Not => "!"
    case BwAnd => "&"
    case BwOr => "|"
    case BwXor => "^"
    case PlusEq => "+="
    case MinusEq => "-="
    case DivEq => "/="
    case ModEq => "%="
    case MulEq => "*="
    case XorEq => "^="
    case Shr => ">>"
    case Shl => "<<"
    case ShrEq => ">>="
    case ShlEq => "<<="
    case Ushr => ">>>"
    case Incr => "++"
    case Decr => "--"
    case Pow => "**"
    case Substr => "><"
    case NSubstr => ">!<"
    case ReMatch => "=~"
    case NreMatch => "!~"
  }

  /** The reserved word of a keyword variant. */
  function KeywordText(t: Token): (s: string)
    requires t.IsKeyword()
  {
    match t
    case If => "if"
    case Else => "else"
    case Function => "function"
    case Null => "NULL"
    case True => "TRUE"
    case False => "FALSE"
    case Return => "return"
    case For => "for"
    case While => "while"
    case Break => "break"
    case Continue => "continue"
    case Foreach => "foreach"
    case Include => "include"
    case LocalVar => "local_var"
    case GlobalVar => "global_var"
    case Repeat => "repeat"
    case Until => "until"
  }

  /**
   * `Token::from_ident`: a reserved word becomes its keyword variant, any
   * other text an `Ident` carrying that text unchanged.
   */
  function FromIdent(s: string): (t: Token)
  {
    match s
    case "if" => If
    case "else" => Else
    case "function" => Function
    case "NULL" => Null
    case "TRUE" => True
    case "FALSE" => False
    case "return" => Return
    case "for" => For
    case "while" => While
    case "break" => Break
    case "continue" => Continue
    case "foreach" => Foreach
    case "include" => Include
    case "local_var" => LocalVar
    case "global_var" => GlobalVar
    case "repeat" => Repeat
    case "until" => Until
    case _ => Ident(s)
  }

  /**
   * `Token::from_str`: the variant of an operator lexeme. The source panics
   * on any other text; here that is the precondition.
   */
  function FromStr(s: string): (t: Token)
    requires s in Operators
  {
    match s
    case "+" => Plus
    case "-" => Minus
    case "*" => Mul
    case "/" => Div
    case "%" => Mod
    case "=" => Assign
    case "==" => Equ
    case "!=" => Nequ
    case "&&" => And
    case "||" => Or
    case ">" => Gt
    case "<" => Lt
    case ">=" => Gte
    case "<=" => Lte
    case "!" => Not
    case "&" => BwAnd
    case "|" => BwOr
    case "^" => BwXor
    case "+=" => PlusEq
    case "-=" => MinusEq
    case "/=" => DivEq
    case "%=" => ModEq
    case "*=" => MulEq
    case "^=" => XorEq
    case ">>" => Shr
    case "<<" => Shl
    case ">>=" => ShrEq
    case "<<=" => ShlEq
    case ">>>" => Ushr
    case "++" => Incr
    case "--" => Decr
    case "**" => Pow
    case "><" => Substr
    case ">!<" => NSubstr
    case "=~" => ReMatch
    case "!~" => NreMatch
  }

  /** Rows 0 to 5 of the operator table (one lemma per six rows keeps each proof small). */
  lemma FromStrRows0(i: nat)
    requires 0 <= i < 6
    ensures OperatorTokens[i].IsOperator() && Lexeme(OperatorTokens[i]) == Operators[i]
    ensures FromStr(Operators[i]) == OperatorTokens[i]
  {
    if i == 0 {
    } else if i == 1 {
    } else if i == 2 {
    } else if i == 3 {
    } else if i == 4 {
    }
  }

  /** Rows 6 to 11 of the operator table (one lemma per six rows keeps each proof small). */
  lemma FromStrRows1(i: nat)
    requires 6 <= i < 12
    ensures OperatorTokens[i].IsOperator() && Lexeme(OperatorTokens[i]) == Operators[i]
    ensures FromStr(Operators[i]) == OperatorTokens[i]
  {
    if i == 6 {
    } else if i == 7 {
    } else if i == 8 {
    } else if i == 9 {
    } else if i == 10 {
    }
  }

  /** Rows 12 to 17 of the operator table (one lemma per six rows keeps each proof small). */
  lemma FromStrRows2(i: nat)
    requires 12 <= i < 18
    ensures OperatorTokens[i].IsOperator() && Lexeme(OperatorTokens[i]) == Operators[i]
    ensures FromStr(Operators[i]) == OperatorTokens[i]
  {
    if i == 12 {
    } else if i == 13 {
    } else if i == 14 {
    } else if i == 15 {
    } else if i == 16 {
    }
  }

  /** Rows 18 to 23 of the operator table (one lemma per six rows keeps each proof small). */
  lemma FromStrRows3(i: nat)
    requires 18 <= i < 24
    ensures OperatorTokens[i].IsOperator() && Lexeme(OperatorTokens[i]) == Operators[i]
    ensures FromStr(Operators[i]) == OperatorTokens[i]
  {
    if i == 18 {
    } else if i == 19 {
    } else if i == 20 {
    } else if i == 21 {
    } else if i == 22 {
    }
  }

  /** Rows 24 to 29 of the operator table (one lemma per six rows keeps each proof small). */
  lemma FromStrRows4(i: nat)
    requires 24 <= i < 30
    ensures OperatorTokens[i].IsOperator() && Lexeme(OperatorTokens[i]) == Operators[i]
    ensures FromStr(Operators[i]) == OperatorTokens[i]
  {
    if i == 24 {
    } else if i == 25 {
    } else if i == 26 {
    } else if i == 27 {
    } else if i == 28 {
    }
  }

  /** Rows 30 to 35 of the operator table (one lemma per six rows keeps each proof small). */
  lemma FromStrRows5(i: nat)
    requires 30 <= i < 36
    ensures OperatorTokens[i].IsOperator() && Lexeme(OperatorTokens[i]) == Operators[i]
    ensures FromStr(Operators[i]) == OperatorTokens[i]
  {
    if i == 30 {
    } else if i == 31 {
    } else if i == 32 {
    } else if i == 33 {
    } else if i == 34 {
    }
  }

  /** Rows 0 to 5 of the keyword table. */
  lemma FromIdentRows0(i: nat)
    requires 0 <= i < 6
    ensures KeywordTokens[i].IsKeyword() && KeywordText(KeywordTokens[i]) == Keywords[i]
    ensures FromIdent(Keywords[i]) == KeywordTokens[i]
  {
    if i == 0 {
    } else if i == 1 {
    } else if i == 2 {
    } else if i == 3 {
    } else if i == 4 {
    }
  }

  /** Rows 6 to 11 of the keyword table. */
  lemma FromIdentRows1(i: nat)
    requires 6 <= i < 12
    ensures KeywordTokens[i].IsKeyword() && KeywordText(KeywordTokens[i]) == Keywords[i]
    ensures FromIdent(Keywords[i]) == KeywordTokens[i]
  {
    if i == 6 {
    } else if i == 7 {
    } else if i == 8 {
    } else if i == 9 {
    } else if i == 10 {
    }
  }

  /** Rows 12 to 16 of the keyword table. */
  lemma FromIdentRows2(i: nat)
    requires 12 <= i < 17
    ensures KeywordTokens[i].IsKeyword() && KeywordText(KeywordTokens[i]) == Keywords[i]
    ensures FromIdent(Keywords[i]) == KeywordTokens[i]
  {
    if i == 12 {
    } else if i == 13 {
    } else if i == 14 {
    } else if i == 15 {
    }
  }

  /**
   * Row i of the operator table: `from_str` maps the i-th lexeme to the i-th
   * variant, whose comment gives that lexeme.
   */
  lemma FromStrAt(i: nat)
    requires i < |Operators|
    ensures OperatorTokens[i].IsOperator() && Lexeme(OperatorTokens[i]) == Operators[i]
    ensures FromStr(Operators[i]) == OperatorTokens[i]
  {
    if i < 6 { FromStrRows0(i); }
    else if i < 12 { FromStrRows1(i); }
    else if i < 18 { FromStrRows2(i); }
    else if i < 24 { FromStrRows3(i); }
    else if i < 30 { FromStrRows4(i); }
    else { FromStrRows5(i); }
  }

  /**
   * Row i of the keyword table: `from_ident` maps the i-th reserved word to
   * the i-th keyword variant, and back.
   */
  lemma FromIdentAt(i: nat)
    requires i < |Keywords|
    ensures KeywordTokens[i].IsKeyword() && KeywordText(KeywordTokens[i]) == Keywords[i]
    ensures FromIdent(Keywords[i]) == KeywordTokens[i]
  {
    if i < 6 { FromIdentRows0(i); }
    else if i < 12 { FromIdentRows1(i); }
    else { FromIdentRows2(i); }
  }

  /** `from_str` yields an operator variant whose own lexeme is the text it was given. */
  lemma FromStrLexeme(s: string)
    requires s in Operators
    ensures FromStr(s).IsOperator() && Lexeme(FromStr(s)) == s
  {
    var i :| 0 <= i < |Operators| && Operators[i] == s;
    FromStrAt(i);
  }

  /** Every operator variant's lexeme is in the table, and the table maps it back. */
  lemma LexemeRoundTrip(t: Token)
    requires t.IsOperator()
    ensures Lexeme(t) in Operators && FromStr(Lexeme(t)) == t
  {
    var i := OperatorRow(t);
    FromStrAt(i);
  }

  /** The row of the operator table that holds an operator variant. */
  lemma OperatorRow(t: Token) returns (i: nat)
    requires t.IsOperator()
    ensures i < |OperatorTokens| && OperatorTokens[i] == t
  {
    match t
    case Plus => i := 0;
    case Minus => i := 1;
    case Mul => i := 2;
    case Div => i := 3;
    case Mod => i := 4;
    case Assign => i := 5;
    case Equ => i := 6;
    case Nequ => i := 7;
    case And => i := 8;
    case Or => i := 9;
    case Gt => i := 10;
    case Lt => i := 11;
    case Gte => i := 12;
    case Lte => i := 13;
    case Not => i := 14;
    case BwAnd => i := 15;
    case BwOr => i := 16;
    case BwXor => i := 17;
    case PlusEq => i := 18;
    case MinusEq => i := 19;
    case DivEq => i := 20;
    case ModEq => i := 21;
    case MulEq => i := 22;
    case XorEq => i := 23;
    case Shr => i := 24;
    case Shl => i := 25;
    case ShrEq => i := 26;
    case ShlEq => i := 27;
    case Ushr => i := 28;
    case Incr => i := 29;
    case Decr => i := 30;
    case Pow => i := 31;
    case Substr => i := 32;
    case NSubstr => i := 33;
    case ReMatch => i := 34;
    case NreMatch => i := 35;
    case _ => assert false;
  }

  /** Distinct operator lexemes map to distinct variants. */
  lemma FromStrInjective(a: string, b: string)
    requires a in Operators && b in Operators
    ensures FromStr(a) == FromStr(b) ==> a == b
  {
    FromStrLexeme(a);
    FromStrLexeme(b);
  }

  /**
   * `from_ident` classifies: a reserved word becomes the keyword variant
   * whose word it is, any other text an `Ident` carrying the text unchanged.
   */
  lemma FromIdentClassifies(s: string)
    ensures FromIdent(s).IsKeyword() <==> s in Keywords
    ensures FromIdent(s).IsKeyword() ==> KeywordText(FromIdent(s)) == s
    ensures !FromIdent(s).IsKeyword() ==> FromIdent(s) == Ident(s)
  {
    if s in Keywords {
      var i :| 0 <= i < |Keywords| && Keywords[i] == s;
      FromIdentAt(i);
    }
  }

  /** Every keyword variant's reserved word is in the table, and the table maps it back. */
  lemma KeywordRoundTrip(t: Token)
    requires t.IsKeyword()
    ensures KeywordText(t) in Keywords && FromIdent(KeywordText(t)) == t
  {
    assert t in KeywordTokens;
    var i :| 0 <= i < |KeywordTokens| && KeywordTokens[i] == t;
    FromIdentAt(i);
  }

  /** `from_ident` never yields an operator, punctuation, a literal or a sentinel. */
  lemma FromIdentRange(s: string)
    ensures FromIdent(s).Ident? || FromIdent(s).IsKeyword()
    ensures !FromIdent(s).IsOperator() && !FromIdent(s).Num? && !FromIdent(s).PureStr?
    ensures !FromIdent(s).ImpureStr? && !FromIdent(s).Eof? && !FromIdent(s).Comment?
  {
    FromIdentClassifies(s);
  }

  /** The ranges of the operator table and of the keyword table are disjoint. */
  lemma TablesDisjoint(op: string, word: string)
    requires op in Operators
    ensures FromStr(op) != FromIdent(word)
  {
    FromStrLexeme(op);
    FromIdentRange(word);
  }

}
