/** The recursive-descent parser of bin/parser.js for the grammar

      program        -> statement* EOF
      statement      -> "print" expression ";" | expression ";"
      expression     -> equality
      equality       -> comparison ( ( "!=" | "==" ) comparison )*
      comparison     -> addition ( ( ">" | ">=" | "<" | "<=" ) addition )*
      addition       -> multiplication ( ( "-" | "+" ) multiplication )*
      multiplication -> unary ( ( "/" | "*" ) unary )*
      unary          -> ( "!" | "-" ) unary | primary
      primary        -> NUMBER | STRING | "false" | "true" | "nil" | "(" expression ")"

    The functions below parse from a position of a token sequence and say where the
    parse stops, or which error is thrown; the class `Parser` does the same by moving
    its `current` cursor, and each of its methods is proved to agree with them. */
module Parsing {
  import opened Wrappers
  import opened Tokens
  import opened Ast

  /** What `error` returns and the parse methods throw: the offending token and the
      message. */
  datatype ParseError = ParseError(token: Token, message: string)

  /** A parse from a position: the value and the position after it, or the error
      thrown. */
  datatype Parse<+T> = Ok(value: T, pos: nat) | Err(error: ParseError)

  /** The token sequences the parser works on: they end with an end-of-file token, which
      `advance` never moves past (the scanner always produces one). */
  predicate EofTerminated(ts: seq<Token>)
  {
    |ts| > 0 && ts[|ts| - 1].kind == Eof
  }

  /** `check`: the token at `pos` has kind `kind`, and is not the end of the input. */
  predicate CheckAt(ts: seq<Token>, pos: nat, kind: TokenType)
    requires pos < |ts|
  {
    ts[pos].kind != Eof && ts[pos].kind == kind
  }

  /** `match` succeeds: `check` holds for one of `kinds`. */
  predicate CheckAnyAt(ts: seq<Token>, pos: nat, kinds: seq<TokenType>)
    requires pos < |ts|
  {
    ts[pos].kind != Eof && ts[pos].kind in kinds
  }

  /** The operators of the binary levels: 4 equality, 3 comparison, 2 addition,
      1 multiplication. */
  function Ops(level: nat): seq<TokenType>
  {
    if level == 4 then [BangEqual, EqualEqual]
    else if level == 3 then [Greater, GreaterEqual, Less, LessEqual]
    else if level == 2 then [Minus, Plus]
    else [Slash, Star]
  }

  const UnaryOps: seq<TokenType> := [Bang, Minus]

  /** A position that is not the end-of-file token has a successor position. */
  lemma NotLast(ts: seq<Token>, pos: nat)
    requires EofTerminated(ts) && pos < |ts| && ts[pos].kind != Eof
    ensures pos + 1 < |ts|
  {
  }

  // ---------------------------------------------------------------------------
  // The grammar as functions of the position

  /** `expression`. */
  function ExprAt(ts: seq<Token>, pos: nat): (r: Parse<Expr>)
    requires EofTerminated(ts) && pos < |ts|
    ensures r.Ok? ==> pos < r.pos < |ts|
    decreases |ts| - pos, 7
  {
    LevelAt(ts, pos, 4)
  }

  /** A binary level: an operand of the next tighter level, then any number of
      operators of this level, each with a further operand, grouped to the left.
      Level 0 is `unary`. */
  function LevelAt(ts: seq<Token>, pos: nat, level: nat): (r: Parse<Expr>)
    requires EofTerminated(ts) && pos < |ts| && level <= 4
    ensures r.Ok? ==> pos < r.pos < |ts|
    decreases |ts| - pos, level + 2
  {
    if level == 0 then UnaryAt(ts, pos)
    else match LevelAt(ts, pos, level - 1)
      case Err(e) => Err(e)
      case Ok(left, p) => BinaryRestAt(ts, p, level, left)
  }

  /** The `while (this.match(...))` loop of a binary level, with `left` parsed so far. */
  function BinaryRestAt(ts: seq<Token>, pos: nat, level: nat, left: Expr): (r: Parse<Expr>)
    requires EofTerminated(ts) && pos < |ts| && 1 <= level <= 4
    ensures r.Ok? ==> pos <= r.pos < |ts|
    decreases |ts| - pos, 0
  {
    if CheckAnyAt(ts, pos, Ops(level)) then
      match LevelAt(ts, pos + 1, level - 1)
      case Err(e) => Err(e)
      case Ok(right, p) => BinaryRestAt(ts, p, level, Binary(left, ts[pos], right))
    else Ok(left, pos)
  }

  /** `unary`. */
  function UnaryAt(ts: seq<Token>, pos: nat): (r: Parse<Expr>)
    requires EofTerminated(ts) && pos < |ts|
    ensures r.Ok? ==> pos < r.pos < |ts|
    decreases |ts| - pos, 1
  {
    if CheckAnyAt(ts, pos, UnaryOps) then
      match UnaryAt(ts, pos + 1)
      case Err(e) => Err(e)
      case Ok(operand, p) => Ok(Unary(ts[pos], operand), p)
    else PrimaryAt(ts, pos)
  }

  /** `primary`. */
  function PrimaryAt(ts: seq<Token>, pos: nat): (r: Parse<Expr>)
    requires EofTerminated(ts) && pos < |ts|
    ensures r.Ok? ==> pos < r.pos < |ts|
    decreases |ts| - pos, 0
  {
    if CheckAt(ts, pos, False) then Ok(Literal(Bool(false)), pos + 1)
    else if CheckAt(ts, pos, True) then Ok(Literal(Bool(true)), pos + 1)
    else if CheckAt(ts, pos, Nil) then Ok(Literal(Null), pos + 1)
    else if CheckAnyAt(ts, pos, [Number, String]) then Ok(Literal(ts[pos].literal), pos + 1)
    else if CheckAt(ts, pos, LeftParen) then
      match ExprAt(ts, pos + 1)
      case Err(e) => Err(e)
      case Ok(inner, p) =>
        if CheckAt(ts, p, RightParen) then Ok(Grouping(inner), p + 1)
        else Err(ParseError(ts[p], "Expect ')' after expression."))
    else Err(ParseError(ts[pos], "Expect expression."))
  }

  /** `consume(SEMICOLON, message)` after a statement's expression. */
  function Terminated(ts: seq<Token>, pos: nat, s: Stmt, message: string): (r: Parse<Stmt>)
    requires EofTerminated(ts) && pos < |ts|
    ensures r.Ok? ==> r.pos == pos + 1 < |ts|
  {
    if CheckAt(ts, pos, Semicolon) then Ok(s, pos + 1) else Err(ParseError(ts[pos], message))
  }

  /** `statement`: a print statement or an expression statement. */
  function StatementAt(ts: seq<Token>, pos: nat): (r: Parse<Stmt>)
    requires EofTerminated(ts) && pos < |ts|
    ensures r.Ok? ==> pos < r.pos < |ts|
  {
    if CheckAt(ts, pos, Print) then
      match ExprAt(ts, pos + 1)
      case Err(e) => Err(e)
      case Ok(x, p) => Terminated(ts, p, PrintStatement(x), "Expect ';' after print statement")
    else
      match ExprAt(ts, pos)
      case Err(e) => Err(e)
      case Ok(x, p) => Terminated(ts, p, ExpressionStatement(x), "Expect ';' after expression")
  }

  /** The loop of `program`: statements up to the end-of-file token. */
  function StatementsAt(ts: seq<Token>, pos: nat): (r: Parse<seq<Stmt>>)
    requires EofTerminated(ts) && pos < |ts|
    ensures r.Ok? ==> pos <= r.pos < |ts| && ts[r.pos].kind == Eof
    decreases |ts| - pos
  {
    if ts[pos].kind == Eof then Ok([], pos)
    else match StatementAt(ts, pos)
      case Err(e) => Err(e)
      case Ok(s, p) =>
        match StatementsAt(ts, p)
        case Err(e) => Err(e)
        case Ok(rest, q) => Ok([s] + rest, q)
  }

  /** `program` from the first token: the program, or the error that escapes. */
  function ParseTokens(ts: seq<Token>): Result<Program, ParseError>
    requires EofTerminated(ts)
  {
    match StatementsAt(ts, 0)
    case Ok(ss, _) => Success(Program(ss))
    case Err(e) => Failure(e)
  }

  /** The outcome of a parse method: its result and the cursor after it agree with the
      parse `p` of the grammar functions. */
  predicate Agrees<T(==)>(r: Result<T, ParseError>, current: nat, p: Parse<T>)
  {
    match p
    case Ok(v, q) => r == Success(v) && current == q
    case Err(e) => r == Failure(e)
  }

  /** Statements already collected, followed by the parse of the rest. */
  function Prepend(ss: seq<Stmt>, rest: Parse<seq<Stmt>>): Parse<seq<Stmt>>
  {
    match rest
    case Err(e) => Err(e)
    case Ok(more, q) => Ok(ss + more, q)
  }

  // ---------------------------------------------------------------------------
  // The parser object

  /** `Parser`: the tokens and the cursor `current`. */
  class Parser {
    const tokens: seq<Token>
    var current: nat

    ghost predicate Valid()
      reads this
    {
      EofTerminated(tokens) && current < |tokens|
    }

    constructor(tokens: seq<Token>)
      requires EofTerminated(tokens)
      ensures Valid() && this.tokens == tokens && current == 0
    {
      this.tokens := tokens;
      current := 0;
    }

    function Previous(): Token
      reads this
      requires Valid() && 0 < current
    {
      tokens[current - 1]
    }

    function Peek(): Token
      reads this
      requires Valid()
    {
      tokens[current]
    }

    function AtEnd(): bool
      reads this
      requires Valid()
    {
      Peek().kind == Eof
    }

    function Check(kind: TokenType): (r: bool)
      reads this
      requires Valid()
      ensures r == CheckAt(tokens, current, kind)
    {
      if AtEnd() then false else Peek().kind == kind
    }

    /** `advance`: move past the current token unless it is the end-of-file token. */
    method Advance()
      requires Valid()
      modifies this`current
      ensures Valid()
      ensures current == if tokens[old(current)].kind == Eof then old(current) else old(current) + 1
    {
      if !AtEnd() {
        current := current + 1;
      }
    }

    /** `match`: advance past the current token when its kind is one of `kinds`. */
    method Match(kinds: seq<TokenType>) returns (matched: bool)
      requires Valid()
      modifies this`current
      ensures Valid()
      ensures matched == CheckAnyAt(tokens, old(current), kinds)
      ensures current == if matched then old(current) + 1 else old(current)
    {
      for i := 0 to |kinds|
        invariant current == old(current)
        invariant !CheckAnyAt(tokens, current, kinds[..i])
      {
        if Check(kinds[i]) {
          Advance();
          return true;
        }
        assert kinds[..i + 1] == kinds[..i] + [kinds[i]];
      }
      assert kinds[..|kinds|] == kinds;
      return false;
    }

    /** `consume`: advance past a token of kind `kind`, or throw `message` at the current
        token. */
    method Consume(kind: TokenType, message: string) returns (r: Result<(), ParseError>)
      requires Valid()
      modifies this`current
      ensures Valid()
      ensures r == if CheckAt(tokens, old(current), kind) then Success(())
                   else Failure(ParseError(tokens[old(current)], message))
      ensures current == if r.Success? then old(current) + 1 else old(current)
    {
      if Check(kind) {
        Advance();
        return Success(());
      }
      return Failure(ParseError(Peek(), message));
    }

    method Expression() returns (r: Result<Expr, ParseError>)
      requires Valid()
      modifies this`current
      ensures Valid() && Agrees(r, current, ExprAt(tokens, old(current)))
      decreases |tokens| - current, 7
    {
      r := Equality();
    }

    method Equality() returns (r: Result<Expr, ParseError>)
      requires Valid()
      modifies this`current
      ensures Valid() && Agrees(r, current, LevelAt(tokens, old(current), 4))
      decreases |tokens| - current, 6
    {
      var first := Comparison();
      if first.Failure? {
        return first;
      }
      var expr := first.value;
      var more := Match([BangEqual, EqualEqual]);
      while more
        invariant Valid() && old(current) < current
        invariant more ==> 0 < current && CheckAnyAt(tokens, current - 1, Ops(4))
        invariant !more ==> !CheckAnyAt(tokens, current, Ops(4))
        invariant LevelAt(tokens, old(current), 4)
               == BinaryRestAt(tokens, if more then current - 1 else current, 4, expr)
        decreases |tokens| - current
      {
        var operator := Previous();
        var right := Comparison();
        if right.Failure? {
          return Failure(right.error);
        }
        expr := Binary(expr, operator, right.value);
        more := Match([BangEqual, EqualEqual]);
      }
      return Success(expr);
    }

    method Comparison() returns (r: Result<Expr, ParseError>)
      requires Valid()
      modifies this`current
      ensures Valid() && Agrees(r, current, LevelAt(tokens, old(current), 3))
      decreases |tokens| - current, 5
    {
      var first := Addition();
      if first.Failure? {
        return first;
      }
      var expr := first.value;
      var more := Match([Greater, GreaterEqual, Less, LessEqual]);
      while more
        invariant Valid() && old(current) < current
        invariant more ==> 0 < current && CheckAnyAt(tokens, current - 1, Ops(3))
        invariant !more ==> !CheckAnyAt(tokens, current, Ops(3))
        invariant LevelAt(tokens, old(current), 3)
               == BinaryRestAt(tokens, if more then current - 1 else current, 3, expr)
        decreases |tokens| - current
      {
        var operator := Previous();
        var right := Addition();
        if right.Failure? {
          return Failure(right.error);
        }
        expr := Binary(expr, operator, right.value);
        more := Match([Greater, GreaterEqual, Less, LessEqual]);
      }
      return Success(expr);
    }

    method Addition() returns (r: Result<Expr, ParseError>)
      requires Valid()
      modifies this`current
      ensures Valid() && Agrees(r, current, LevelAt(tokens, old(current), 2))
      decreases |tokens| - current, 4
    {
      var first := Multiplication();
      if first.Failure? {
        return first;
      }
      var expr := first.value;
      var more := Match([Minus, Plus]);
      while more
        invariant Valid() && old(current) < current
        invariant more ==> 0 < current && CheckAnyAt(tokens, current - 1, Ops(2))
        invariant !more ==> !CheckAnyAt(tokens, current, Ops(2))
        invariant LevelAt(tokens, old(current), 2)
               == BinaryRestAt(tokens, if more then current - 1 else current, 2, expr)
        decreases |tokens| - current
      {
        var operator := Previous();
        var right := Multiplication();
        if right.Failure? {
          return Failure(right.error);
        }
        expr := Binary(expr, operator, right.value);
        more := Match([Minus, Plus]);
      }
      return Success(expr);
    }

    method Multiplication() returns (r: Result<Expr, ParseError>)
      requires Valid()
      modifies this`current
      ensures Valid() && Agrees(r, current, LevelAt(tokens, old(current), 1))
      decreases |tokens| - current, 3
    {
      var first := Unary();
      if first.Failure? {
        return first;
      }
      var expr := first.value;
      var more := Match([Slash, Star]);
      while more
        invariant Valid() && old(current) < current
        invariant more ==> 0 < current && CheckAnyAt(tokens, current - 1, Ops(1))
        invariant !more ==> !CheckAnyAt(tokens, current, Ops(1))
        invariant LevelAt(tokens, old(current), 1)
               == BinaryRestAt(tokens, if more then current - 1 else current, 1, expr)
        decreases |tokens| - current
      {
        var operator := Previous();
        var right := Unary();
        if right.Failure? {
          return Failure(right.error);
        }
        expr := Binary(expr, operator, right.value);
        more := Match([Slash, Star]);
      }
      return Success(expr);
    }

    method Unary() returns (r: Result<Expr, ParseError>)
      requires Valid()
      modifies this`current
      ensures Valid() && Agrees(r, current, UnaryAt(tokens, old(current)))
      decreases |tokens| - current, 1
    {
      var isUnary := Match([Bang, Minus]);
      if isUnary {
        var operator := Previous();
        var right := Unary();
        if right.Failure? {
          return Failure(right.error);
        }
        return Success(Ast.Unary(operator, right.value));
      }
      r := Primary();
    }

    method Primary() returns (r: Result<Expr, ParseError>)
      requires Valid()
      modifies this`current
      ensures Valid() && Agrees(r, current, PrimaryAt(tokens, old(current)))
      decreases |tokens| - current, 0
    {
      var found := Match([False]);
      if found {
        return Success(Literal(Bool(false)));
      }
      found := Match([True]);
      if found {
        return Success(Literal(Bool(true)));
      }
      found := Match([Nil]);
      if found {
        return Success(Literal(Null));
      }
      found := Match([Number, String]);
      if found {
        return Success(Literal(Previous().literal));
      }
      found := Match([LeftParen]);
      if found {
        var inner := Expression();
        if inner.Failure? {
          return inner;
        }
        var closed := Consume(RightParen, "Expect ')' after expression.");
        if closed.Failure? {
          return Failure(closed.error);
        }
        return Success(Grouping(inner.value));
      }
      return Failure(ParseError(Peek(), "Expect expression."));
    }

    method PrintStatement() returns (r: Result<Stmt, ParseError>)
      requires Valid()
      modifies this`current
      ensures Valid()
      ensures match ExprAt(tokens, old(current))
        case Err(e) => r == Failure(e)
        case Ok(x, p) => Agrees(r, current, Terminated(tokens, p, Ast.PrintStatement(x), "Expect ';' after print statement"))
    {
      var expr := Expression();
      if expr.Failure? {
        return Failure(expr.error);
      }
      var semicolon := Consume(Semicolon, "Expect ';' after print statement");
      if semicolon.Failure? {
        return Failure(semicolon.error);
      }
      return Success(Ast.PrintStatement(expr.value));
    }

    method ExpressionStatement() returns (r: Result<Stmt, ParseError>)
      requires Valid()
      modifies this`current
      ensures Valid()
      ensures match ExprAt(tokens, old(current))
        case Err(e) => r == Failure(e)
        case Ok(x, p) => Agrees(r, current, Terminated(tokens, p, Ast.ExpressionStatement(x), "Expect ';' after expression"))
    {
      var expr := Expression();
      if expr.Failure? {
        return Failure(expr.error);
      }
      var semicolon := Consume(Semicolon, "Expect ';' after expression");
      if semicolon.Failure? {
        return Failure(semicolon.error);
      }
      return Success(Ast.ExpressionStatement(expr.value));
    }

    method Statement() returns (r: Result<Stmt, ParseError>)
      requires Valid()
      modifies this`current
      ensures Valid() && Agrees(r, current, StatementAt(tokens, old(current)))
    {
      var isPrint := Match([Print]);
      if isPrint {
        r := PrintStatement();
      } else {
        r := ExpressionStatement();
      }
    }

    /** `program`: statements until the end-of-file token. */
    method Program() returns (r: Result<Ast.Program, ParseError>)
      requires Valid()
      modifies this`current
      ensures Valid()
      ensures r == match StatementsAt(tokens, old(current))
                   case Ok(ss, _) => Success(Ast.Program(ss))
                   case Err(e) => Failure(e)
    {
      var program: seq<Stmt> := [];
      ghost var all := StatementsAt(tokens, current);
      if all.Ok? {
        assert [] + all.value == all.value;
      }
      while !AtEnd()
        invariant Valid() && old(current) <= current
        invariant StatementsAt(tokens, old(current)) == Prepend(program, StatementsAt(tokens, current))
        decreases |tokens| - current
      {
        ghost var before := current;
        var s := Statement();
        if s.Failure? {
          return Failure(s.error);
        }
        ghost var rest := StatementsAt(tokens, current);
        assert StatementsAt(tokens, before) == Prepend([s.value], rest);
        if rest.Ok? {
          assert program + ([s.value] + rest.value) == (program + [s.value]) + rest.value;
        }
        program := program + [s.value];
      }
      assert program + [] == program;
      return Success(Ast.Program(program));
    }
  }
}
