/** Token kinds, the Token record and its text form (bin/token.js), together with the
    JavaScript values a token or a literal node may carry. */
module Tokens {
  import opened Wrappers

  /** The keys of the `TokenType` table, in the table's order. */
  datatype TokenType =
    | LeftParen | RightParen | LeftBrace | RightBrace | Comma | Dot | Minus | Plus
    | Semicolon | Slash | Star
    | Bang | BangEqual | Equal | EqualEqual | Greater | GreaterEqual | Less | LessEqual
    | Identifier | String | Number
    | And | Class | Else | False | Fun | For | If | Nil | Or
    | Print | Return | Super | This | True | Var | While | Break
    | Eof

  /** The tag string that the `TokenType` table gives each kind. */
  function Tag(t: TokenType): string
  {
    match t
    case LeftParen => "("
    case RightParen => ")"
    case LeftBrace => "{"
    case RightBrace => "}"
    case Comma => ","
    case Dot => "."
    case Minus => "-"
    case Plus => "+"
    case Semicolon => ";"
    case Slash => "/"
    case Star => "*"
    case Bang => "!"
    case BangEqual => "!="
    case Equal => "="
    case EqualEqual => "=="
    case Greater => ">"
    case GreaterEqual => ">="
    case Less => "<"
    case LessEqual => "<="
    case Identifier => "id"
    case String => "str"
    case Number => "num"
    case And => "and"
    case Class => "class"
    case Else => "else"
    case False => "false"
    case Fun => "fun"
    case For => "for"
    case If => "if"
    case Nil => "nil"
    case Or => "ol"
    case Print => "print"
    case Return => "return"
    case Super => "super"
    case This => "this"
    case True => "true"
    case Var => "var"
    case While => "while"
    case Break => "break"
    case Eof => "eof"
  }

  /** The kind whose tag is `s`, if there is one: the inverse of Tag, looked up by the
      tag's length first. */
  function FromTag(s: string): Option<TokenType>
  {
    if |s| == 1 then FromCharTag(s[0])
    else if |s| == 2 then
      if s == "!=" then Some(BangEqual)
      else if s == "==" then Some(EqualEqual)
      else if s == ">=" then Some(GreaterEqual)
      else if s == "<=" then Some(LessEqual)
      else if s == "id" then Some(Identifier)
      else if s == "if" then Some(If)
      else if s == "ol" then Some(Or)
      else None
    else if |s| == 3 then
      if s == "str" then Some(String)
      else if s == "num" then Some(Number)
      else if s == "and" then Some(And)
      else if s == "fun" then Some(Fun)
      else if s == "for" then Some(For)
      else if s == "nil" then Some(Nil)
      else if s == "var" then Some(Var)
      else if s == "eof" then Some(Eof)
      else None
    else if |s| == 4 then
      if s == "else" then Some(Else)
      else if s == "this" then Some(This)
      else if s == "true" then Some(True)
      else None
    else if |s| == 5 then
      if s == "class" then Some(Class)
      else if s == "false" then Some(False)
      else if s == "print" then Some(Print)
      else if s == "super" then Some(Super)
      else if s == "while" then Some(While)
      else if s == "break" then Some(Break)
      else None
    else if s == "return" then Some(Return)
    else None
  }

  /** The kind whose one-character tag is `c`. */
  function FromCharTag(c: char): Option<TokenType>
  {
    match c
    case '(' => Some(LeftParen)
    case ')' => Some(RightParen)
    case '{' => Some(LeftBrace)
    case '}' => Some(RightBrace)
    case ',' => Some(Comma)
    case '.' => Some(Dot)
    case '-' => Some(Minus)
    case '+' => Some(Plus)
    case ';' => Some(Semicolon)
    case '/' => Some(Slash)
    case '*' => Some(Star)
    case '!' => Some(Bang)
    case '=' => Some(Equal)
    case '>' => Some(Greater)
    case '<' => Some(Less)
    case _ => None
  }

  /** Every tag leads back to its kind. */
  lemma FromTagOfTag(t: TokenType)
    ensures FromTag(Tag(t)) == Some(t)
  {
    match t
    case LeftParen =>
    case RightParen =>
    case LeftBrace =>
    case RightBrace =>
    case Comma =>
    case Dot =>
    case Minus =>
    case Plus =>
    case Semicolon =>
    case Slash =>
    case Star =>
    case Bang =>
    case BangEqual =>
    case Equal =>
    case EqualEqual =>
    case Greater =>
    case GreaterEqual =>
    case Less =>
    case LessEqual =>
    case Identifier =>
    case String =>
    case Number =>
    case And =>
    case Class =>
    case Else =>
    case False =>
    case Fun =>
    case For =>
    case If =>
    case Nil =>
    case Or =>
    case Print =>
    case Return =>
    case Super =>
    case This =>
    case True =>
    case Var =>
    case While =>
    case Break =>
    case Eof =>
  }

  /** The tag strings of the table are pairwise distinct. */
  lemma TagsDistinct(t: TokenType, u: TokenType)
    ensures Tag(t) == Tag(u) ==> t == u
  {
    FromTagOfTag(t);
    FromTagOfTag(u);
  }

  /** A JavaScript value as held by a token's `literal` field or a Literal node:
      `undefined`, `null`, a boolean, a number (only the naturals the integer
      lexing path produces) or a string. */
  datatype Value = Undefined | Null | Bool(b: bool) | Num(n: nat) | Str(s: string)

  /** The character for a decimal digit. */
  function DigitChar(d: nat): (c: char)
    requires d < 10
    ensures '0' <= c <= '9' && c as int - '0' as int == d
  {
    ('0' as int + d) as char
  }

  /** The JavaScript decimal text of a natural number (no sign, no leading zero). */
  function NatText(n: nat): (s: string)
    ensures |s| > 0
    ensures forall k :: 0 <= k < |s| ==> '0' <= s[k] <= '9'
    ensures s[0] == '0' ==> n == 0
    decreases n
  {
    if n < 10 then [DigitChar(n)] else NatText(n / 10) + [DigitChar(n % 10)]
  }

  /** The text a JavaScript template literal gives a value. */
  function Text(v: Value): string
  {
    match v
    case Undefined => "undefined"
    case Null => "null"
    case Bool(b) => if b then "true" else "false"
    case Num(n) => NatText(n)
    case Str(s) => s
  }

  /** JavaScript truthiness: undefined, null, false, 0 and "" are falsy. */
  predicate Truthy(v: Value)
  {
    match v
    case Undefined => false
    case Null => false
    case Bool(b) => b
    case Num(n) => n != 0
    case Str(s) => s != ""
  }

  /** `new Token(type, lexeme, literal, line)`; the source's field `type` is `kind` here
      because `type` is a Dafny keyword. */
  datatype Token = Token(kind: TokenType, lexeme: string, literal: Value, line: nat)

  /** `Token.prototype.toString`: the tag, the lexeme and the literal's text, separated
      by single spaces. */
  function ToString(t: Token): string
  {
    Tag(t.kind) + " " + t.lexeme + " " + Text(t.literal)
  }

  /** The text before the first space (all of `s` when it has none). */
  function FirstWord(s: string): (w: string)
    ensures |w| <= |s| && w == s[..|w|]
    ensures forall k :: 0 <= k < |w| ==> w[k] != ' '
    ensures |w| < |s| ==> s[|w|] == ' '
  {
    if s == [] || s[0] == ' ' then [] else [s[0]] + FirstWord(s[1..])
  }

  /** No tag contains a space. */
  lemma TagHasNoSpace(t: TokenType)
    ensures forall k :: 0 <= k < |Tag(t)| ==> Tag(t)[k] != ' '
  {
    match t
    case LeftParen =>
    case RightParen =>
    case LeftBrace =>
    case RightBrace =>
    case Comma =>
    case Dot =>
    case Minus =>
    case Plus =>
    case Semicolon =>
    case Slash =>
    case Star =>
    case Bang =>
    case BangEqual =>
    case Equal =>
    case EqualEqual =>
    case Greater =>
    case GreaterEqual =>
    case Less =>
    case LessEqual =>
    case Identifier =>
    case String =>
    case Number =>
    case And =>
    case Class =>
    case Else =>
    case False =>
    case Fun =>
    case For =>
    case If =>
    case Nil =>
    case Or =>
    case Print =>
    case Return =>
    case Super =>
    case This =>
    case True =>
    case Var =>
    case While =>
    case Break =>
    case Eof =>
  }

  /** The first word of a token's text is its kind's tag, so the kind can be read back
      from `toString`, whatever the lexeme and the literal. */
  lemma {:induction false} ToStringNamesKind(t: Token)
    ensures FirstWord(ToString(t)) == Tag(t.kind)
    ensures FromTag(FirstWord(ToString(t))) == Some(t.kind)
  {
    TagHasNoSpace(t.kind);
    FirstWordOfSpaced(Tag(t.kind), t.lexeme + " " + Text(t.literal));
    assert ToString(t) == Tag(t.kind) + " " + (t.lexeme + " " + Text(t.literal));
    FromTagOfTag(t.kind);
  }

  lemma {:induction false} FirstWordOfSpaced(w: string, rest: string)
    requires forall k :: 0 <= k < |w| ==> w[k] != ' '
    ensures FirstWord(w + " " + rest) == w
  {
    if w != [] {
      assert (w + " " + rest)[1..] == w[1..] + " " + rest;
      FirstWordOfSpaced(w[1..], rest);
    }
  }
}
