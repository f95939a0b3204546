/**
 * Lexer tokens as the stack parser sees them, and the translation of a token
 * to the grammar terminal it is looked up under in the parsing table.
 */
module Tokens {
  import opened Wrappers

  /** The token kinds the lexer produces. */
  datatype TokenType =
      AndAnd
    | Bang
    | BangEqual
    | Bool
    | Break
    | Case
    | Char
    | CharKw
    | Colon
    | Comma
    | Continue
    | Default
    | Do
    | Dot
    | Double
    | DoubleKw
    | Else
    | Eof
    | Equal
    | EqualEqual
    | False
    | Float
    | FloatKw
    | For
    | Greater
    | GreaterEqual
    | Identifier
    | If
    | Input
    | Int
    | InterpolatedString
    | LeftBrace
    | LeftBracket
    | LeftParen
    | Less
    | LessEqual
    | Main
    | Minus
    | MinusEqual
    | Number
    | OrOr
    | Percent
    | PercentEqual
    | Plus
    | PlusEqual
    | Print
    | Question
    | Return
    | RightBrace
    | RightBracket
    | RightParen
    | Semicolon
    | Slash
    | SlashEqual
    | Star
    | StarEqual
    | String
    | StringKw
    | Switch
    | True
    | Var
    | While
  {
    /** The enum constant's name, which is what the source's `toString()` yields. */
    function Name(): string {
      match this
      case AndAnd => "AND_AND"
      case Bang => "BANG"
      case BangEqual => "BANG_EQUAL"
      case Bool => "BOOL"
      case Break => "BREAK"
      case Case => "CASE"
      case Char => "CHAR"
      case CharKw => "CHAR_KW"
      case Colon => "COLON"
      case Comma => "COMMA"
      case Continue => "CONTINUE"
      case Default => "DEFAULT"
      case Do => "DO"
      case Dot => "DOT"
      case Double => "DOUBLE"
      case DoubleKw => "DOUBLE_KW"
      case Else => "ELSE"
      case Eof => "EOF"
      case Equal => "EQUAL"
      case EqualEqual => "EQUAL_EQUAL"
      case False => "FALSE"
      case Float => "FLOAT"
      case FloatKw => "FLOAT_KW"
      case For => "FOR"
      case Greater => "GREATER"
      case GreaterEqual => "GREATER_EQUAL"
      case Identifier => "IDENTIFIER"
      case If => "IF"
      case Input => "INPUT"
      case Int => "INT"
      case InterpolatedString => "INTERPOLATED_STRING"
      case LeftBrace => "LEFT_BRACE"
      case LeftBracket => "LEFT_BRACKET"
      case LeftParen => "LEFT_PAREN"
      case Less => "LESS"
      case LessEqual => "LESS_EQUAL"
      case Main => "MAIN"
      case Minus => "MINUS"
      case MinusEqual => "MINUS_EQUAL"
      case Number => "NUMBER"
      case OrOr => "OR_OR"
      case Percent => "PERCENT"
      case PercentEqual => "PERCENT_EQUAL"
      case Plus => "PLUS"
      case PlusEqual => "PLUS_EQUAL"
      case Print => "PRINT"
      case Question => "QUESTION"
      case Return => "RETURN"
      case RightBrace => "RIGHT_BRACE"
      case RightBracket => "RIGHT_BRACKET"
      case RightParen => "RIGHT_PAREN"
      case Semicolon => "SEMICOLON"
      case Slash => "SLASH"
      case SlashEqual => "SLASH_EQUAL"
      case Star => "STAR"
      case StarEqual => "STAR_EQUAL"
      case String => "STRING"
      case StringKw => "STRING_KW"
      case Switch => "SWITCH"
      case True => "TRUE"
      case Var => "VAR"
      case While => "WHILE"
    }
  }

  /** A token: its kind, its text and its source line (the literal value and column are not used here). */
  datatype Token = Token(tokenType: TokenType, lexeme: string, line: int)

  /**
   * The terminal label of a token kind exactly as the source computes it:
   * EOF is tested first, every other kind goes through the switch.
   */
  function TerminalAsWritten(k: TokenType): string {
    if k.Eof? then "EOF" else SwitchLabel(k)
  }

  /**
   * The switch over the token kind: one case per kind; kinds without a case
   * (`Do` and `InterpolatedString`, and `Eof`, which never reaches it) fall
   * to the default and yield their enum name.
   */
  function SwitchLabel(k: TokenType): string {
    match k
      case AndAnd => "&&"
      case Bang => "!"
      case BangEqual => "!="
      case Bool => "bool"
      case Break => "break"
      case Case => "case"
      case Char => k.Name()
      case CharKw => "char"
      case Colon => ":"
      case Comma => ","
      case Continue => "continue"
      case Default => "default"
      case Dot => "."
      case Double => k.Name()
      case DoubleKw => "double"
      case Else => "else"
      case Equal => "="
      case EqualEqual => "=="
      case False => "false"
      case Float => k.Name()
      case FloatKw => "float"
      case For => "for"
      case Greater => ">"
      case GreaterEqual => ">="
      case Identifier => "IDENTIFIER"
      case If => "if"
      case Input => "input"
      case Int => "int"
      case LeftBrace => "{"
      case LeftBracket => "["
      case LeftParen => "("
      case Less => "<"
      case LessEqual => "<="
      case Main => "main"
      case Minus => "-"
      case MinusEqual => "-="
      case Number => k.Name()
      case OrOr => "||"
      case Percent => "%"
      case PercentEqual => "%="
      case Plus => "+"
      case PlusEqual => "+="
      case Print => "print"
      case Question => "?"
      case Return => "return"
      case RightBrace => "}"
      case RightBracket => "]"
      case RightParen => ")"
      case Semicolon => ";"
      case Slash => "/"
      case SlashEqual => "/="
      case Star => "*"
      case StarEqual => "*="
      case String => "STRING"
      case StringKw => "string"
      case Switch => "switch"
      case True => "true"
      case Var => "var"
      case While => "while"
      case _ => k.Name()
  }

  /**
   * The terminal label of a token kind with the missing case supplied: the
   * `do` keyword is looked up under "do", the terminal the grammar declares.
   */
  function Terminal(k: TokenType): string {
    if k.Do? then "do" else TerminalAsWritten(k)
  }

  /** The terminal a token is looked up under, as the source computes it. */
  function TokenToTerminal(t: Token): string {
    TerminalAsWritten(t.tokenType)
  }

  /** The lexer's keyword table: the token kind a reserved word is scanned as. */
  function KeywordType(word: string): Option<TokenType> {
    match word
    case "var" => Some(Var)
    case "int" => Some(Int)
    case "float" => Some(FloatKw)
    case "double" => Some(DoubleKw)
    case "char" => Some(CharKw)
    case "bool" => Some(Bool)
    case "string" => Some(StringKw)
    case "true" => Some(True)
    case "false" => Some(False)
    case "if" => Some(If)
    case "else" => Some(Else)
    case "while" => Some(While)
    case "do" => Some(Do)
    case "for" => Some(For)
    case "switch" => Some(Switch)
    case "case" => Some(Case)
    case "default" => Some(Default)
    case "break" => Some(Break)
    case "continue" => Some(Continue)
    case "print" => Some(Print)
    case "input" => Some(Input)
    case "return" => Some(Return)
    case "main" => Some(Main)
    case _ => None
  }

  /**
   * The lexer's operator and delimiter scan: the token kind a lexeme of one
   * or two symbol characters is scanned as. A lone `&` or `|` is a lexical
   * error, and a slash followed by a slash or a star opens a comment, so none
   * of them yields a token.
   */
  function OperatorType(lexeme: string): Option<TokenType> {
    match lexeme
    case "(" => Some(LeftParen)
    case ")" => Some(RightParen)
    case "{" => Some(LeftBrace)
    case "}" => Some(RightBrace)
    case "[" => Some(LeftBracket)
    case "]" => Some(RightBracket)
    case "," => Some(Comma)
    case "." => Some(Dot)
    case ";" => Some(Semicolon)
    case ":" => Some(Colon)
    case "?" => Some(Question)
    case "+" => Some(Plus)
    case "+=" => Some(PlusEqual)
    case "-" => Some(Minus)
    case "-=" => Some(MinusEqual)
    case "*" => Some(Star)
    case "*=" => Some(StarEqual)
    case "/" => Some(Slash)
    case "/=" => Some(SlashEqual)
    case "%" => Some(Percent)
    case "%=" => Some(PercentEqual)
    case "!" => Some(Bang)
    case "!=" => Some(BangEqual)
    case "=" => Some(Equal)
    case "==" => Some(EqualEqual)
    case "<" => Some(Less)
    case "<=" => Some(LessEqual)
    case ">" => Some(Greater)
    case ">=" => Some(GreaterEqual)
    case "&&" => Some(AndAnd)
    case "||" => Some(OrOr)
    case _ => None
  }

  /** The kinds the lexer's keyword table produces. */
  predicate IsKeyword(k: TokenType) {
    k in {Var, Int, FloatKw, DoubleKw, CharKw, Bool, StringKw, True, False, If, Else,
          While, Do, For, Switch, Case, Default, Break, Continue, Print, Input, Return, Main}
  }

  /** The kinds the lexer's operator and delimiter scan produces. */
  predicate IsOperator(k: TokenType) {
    k in {LeftParen, RightParen, LeftBrace, RightBrace, LeftBracket, RightBracket, Comma, Dot, Semicolon, Colon, Question,
          Plus, PlusEqual, Minus, MinusEqual, Star, StarEqual, Slash, SlashEqual, Percent, PercentEqual,
          Bang, BangEqual, Equal, EqualEqual, Less, LessEqual, Greater, GreaterEqual, AndAnd, OrOr}
  }

  /**
   * As written, the label of every keyword kind but `Do` is the reserved word
   * the lexer scans as that kind; the label of `Do` is no reserved word at all.
   */
  lemma KeywordLabelAsWritten(k: TokenType)
    requires IsKeyword(k)
    ensures KeywordType(TerminalAsWritten(k)) == Some(k) <==> !k.Do?
  {
    if k in {Var, Int, FloatKw, DoubleKw, CharKw, Bool, StringKw, True, False, If, Else} {
      DeclarationKeywordsSpelled(k);
    } else if k.Do? {
      DoKeywordAsWritten();
    } else {
      StatementKeywordsSpelled(k);
    }
  }

  /** With the missing case supplied, the label of every keyword kind is the reserved word scanned as it. */
  lemma KeywordLabelIsSpelling(k: TokenType)
    requires IsKeyword(k)
    ensures KeywordType(Terminal(k)) == Some(k)
  {
    if k.Do? {
      DoKeywordAsWritten();
    } else {
      KeywordLabelAsWritten(k);
    }
  }

  /** The type, declaration, literal and branching keywords are labelled by their spelling. */
  lemma DeclarationKeywordsSpelled(k: TokenType)
    requires k in {Var, Int, FloatKw, DoubleKw, CharKw, Bool, StringKw, True, False, If, Else}
    ensures KeywordType(TerminalAsWritten(k)) == Some(k)
  {
  }

  /** The loop and statement keywords other than `do` are labelled by their spelling. */
  lemma StatementKeywordsSpelled(k: TokenType)
    requires k in {While, For, Switch, Case, Default, Break, Continue, Print, Input, Return, Main}
    ensures KeywordType(TerminalAsWritten(k)) == Some(k)
  {
  }

  /**
   * As written, the reserved word `do` is scanned as `Do`, which has no case
   * and is looked up under "DO", which is not its spelling.
   */
  lemma DoKeywordAsWritten()
    ensures KeywordType("do") == Some(Do)
    ensures TerminalAsWritten(Do) == "DO" && KeywordType(TerminalAsWritten(Do)).None?
  {
  }

  /** The label of every operator and delimiter kind is the lexeme the lexer scans as it. */
  lemma OperatorLabelIsSpelling(k: TokenType)
    requires IsOperator(k)
    ensures OperatorType(TerminalAsWritten(k)) == Some(k)
  {
    if k in {LeftParen, RightParen, LeftBrace, RightBrace, LeftBracket, RightBracket, Comma, Dot, Semicolon, Colon, Question} {
      DelimitersSpelled(k);
    } else if k in {Plus, PlusEqual, Minus, MinusEqual, Star, StarEqual, Slash, SlashEqual, Percent, PercentEqual} {
      ArithmeticOperatorsSpelled(k);
    } else {
      LogicOperatorsSpelled(k);
    }
  }

  /** The delimiters are labelled by their spelling. */
  lemma DelimitersSpelled(k: TokenType)
    requires k in {LeftParen, RightParen, LeftBrace, RightBrace, LeftBracket, RightBracket, Comma, Dot, Semicolon, Colon, Question}
    ensures OperatorType(TerminalAsWritten(k)) == Some(k)
  {
  }

  /** The arithmetic and compound-assignment operators are labelled by their spelling. */
  lemma ArithmeticOperatorsSpelled(k: TokenType)
    requires k in {Plus, PlusEqual, Minus, MinusEqual, Star, StarEqual, Slash, SlashEqual, Percent, PercentEqual}
    ensures OperatorType(TerminalAsWritten(k)) == Some(k)
  {
  }

  /** The comparison, assignment and logical operators are labelled by their spelling. */
  lemma LogicOperatorsSpelled(k: TokenType)
    requires k in {Bang, BangEqual, Equal, EqualEqual, Less, LessEqual, Greater, GreaterEqual, AndAnd, OrOr}
    ensures OperatorType(TerminalAsWritten(k)) == Some(k)
  {
  }

  /**
   * Tokens whose text varies (identifiers, number, string and character
   * literals) and the end of input are looked up under their kind's name, so
   * the grammar names them by it.
   */
  lemma ValueKindsNamed(k: TokenType)
    requires k in {Identifier, String, Number, Float, Double, Char, InterpolatedString, Eof}
    ensures TerminalAsWritten(k) == k.Name()
  {
  }
}
