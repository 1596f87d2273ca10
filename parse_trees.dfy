/** The trees bin/parser.js builds and the token sequences that spell them: operator
    levels, well-formed trees, the token count of a tree, the relation between a tree
    and the tokens at a position, and a binary level as its leftmost operand followed
    by a spine of operators with their right operands. */
module ParseTrees {
  import opened Tokens
  import opened Ast

  // ---------------------------------------------------------------------------
  // Precedence and well-formed trees

  /** The binary level of an operator kind, 0 for a kind that is no binary operator. */
  function LevelOf(kind: TokenType): (k: nat)
    ensures k <= 4
  {
    match kind
    case BangEqual | EqualEqual => 4
    case Greater | GreaterEqual | Less | LessEqual => 3
    case Minus | Plus => 2
    case Slash | Star => 1
    case _ => 0
  }

  /** The level an expression's top node binds at: that of a binary operator, 0 for
      every other node. */
  function Prec(e: Expr): nat
  {
    if e.Binary? then LevelOf(e.operator.kind) else 0
  }

  /** The trees the parser builds: literals of the values its tokens carry, unary nodes
      over unary-level operands, and binary nodes of a level whose left operand binds
      at most as loosely and whose right operand binds strictly tighter. */
  predicate WellFormed(e: Expr)
  {
    match e
    case Literal(v) => !v.Undefined?
    case Grouping(x) => WellFormed(x)
    case Unary(op, x) => (op.kind == Bang || op.kind == Minus) && WellFormed(x) && Prec(x) == 0
    case Binary(l, op, r) =>
      1 <= LevelOf(op.kind) && WellFormed(l) && WellFormed(r)
      && Prec(l) <= LevelOf(op.kind) && Prec(r) < LevelOf(op.kind)
  }

  function Size(e: Expr): nat
  {
    match e
    case Literal(_) => 1
    case Grouping(x) => 1 + Size(x)
    case Unary(_, x) => 1 + Size(x)
    case Binary(l, _, r) => 1 + Size(l) + Size(r)
  }

  // ---------------------------------------------------------------------------
  // Tokens that spell a tree

  /** The kind of token `primary` reads as the literal `v`. */
  function LiteralKind(v: Value): TokenType
  {
    match v
    case Bool(b) => if b then True else False
    case Null => Nil
    case Num(_) => Number
    case Str(_) => String
    case Undefined => Eof
  }

  /** The number of tokens that spell a tree. */
  function Span(e: Expr): (n: nat)
    ensures n >= 1
  {
    match e
    case Literal(_) => 1
    case Grouping(x) => Span(x) + 2
    case Unary(_, x) => 1 + Span(x)
    case Binary(l, _, r) => Span(l) + 1 + Span(r)
  }

  /** The tokens from `pos` on spell `e`, and at least one token follows them: a literal
      token of the right kind (carrying the value, for numbers and strings), `(` and `)`
      around a group, and the operator tokens of the tree as they are. Lexemes and line
      numbers are free. */
  predicate Spells(ts: seq<Token>, pos: nat, e: Expr)
    decreases e
  {
    pos + Span(e) < |ts| &&
    match e
    case Literal(v) => ts[pos].kind == LiteralKind(v) && ((v.Num? || v.Str?) ==> ts[pos].literal == v)
    case Grouping(x) =>
      ts[pos].kind == LeftParen && Spells(ts, pos + 1, x) && ts[pos + 1 + Span(x)].kind == RightParen
    case Unary(op, x) => ts[pos] == op && Spells(ts, pos + 1, x)
    case Binary(l, op, r) =>
      Spells(ts, pos, l) && ts[pos + Span(l)] == op && Spells(ts, pos + Span(l) + 1, r)
  }

  /** The kinds `unary` and `primary` accept as the first token of an expression. */
  predicate StartsExpression(kind: TokenType)
  {
    match kind
    case False | True | Nil | Number | String | LeftParen | Bang | Minus => true
    case _ => false
  }

  /** A token after which a level `k` parse stops: no binary operator of level `k` or
      tighter. */
  predicate StopsLevel(t: Token, k: nat)
  {
    LevelOf(t.kind) == 0 || LevelOf(t.kind) > k
  }

  // ---------------------------------------------------------------------------
  // A binary level as a base and a spine of operators with their right operands

  /** The leftmost operand of a level-`k` chain. */
  function Base(e: Expr, k: nat): Expr
  {
    if e.Binary? && LevelOf(e.operator.kind) == k then Base(e.left, k) else e
  }

  /** The operators of a level-`k` chain with their right operands, left to right. */
  function Spine(e: Expr, k: nat): seq<(Token, Expr)>
  {
    if e.Binary? && LevelOf(e.operator.kind) == k then Spine(e.left, k) + [(e.operator, e.right)] else []
  }

  /** Grouping `acc` and the spine to the left, as the `while (match ...)` loop does. */
  function FoldLeft(acc: Expr, spine: seq<(Token, Expr)>): Expr
    decreases |spine|
  {
    if spine == [] then acc else FoldLeft(Binary(acc, spine[0].0, spine[0].1), spine[1..])
  }

  function SpineSpan(spine: seq<(Token, Expr)>): nat
    decreases |spine|
  {
    if spine == [] then 0 else 1 + Span(spine[0].1) + SpineSpan(spine[1..])
  }

  /** The tokens from `pos` on spell the operators and operands of a spine. */
  predicate SpellsSpine(ts: seq<Token>, pos: nat, spine: seq<(Token, Expr)>)
    decreases |spine|
  {
    pos + SpineSpan(spine) < |ts| &&
    (spine != [] ==>
      ts[pos] == spine[0].0 && Spells(ts, pos + 1, spine[0].1)
      && SpellsSpine(ts, pos + 1 + Span(spine[0].1), spine[1..]))
  }

  /** Every element of the spine is an operator of level `k` with a well-formed right
      operand of a tighter level, smaller than `bound`. */
  predicate SpineOk(spine: seq<(Token, Expr)>, k: nat, bound: nat)
    decreases |spine|
  {
    spine != [] ==>
      LevelOf(spine[0].0.kind) == k && WellFormed(spine[0].1) && Prec(spine[0].1) < k
      && Size(spine[0].1) < bound && SpineOk(spine[1..], k, bound)
  }

  // ---------------------------------------------------------------------------
  // Statements and programs

  /** The statements the parser builds: print and expression statements of well-formed
      trees (it never builds a declaration). */
  predicate WellFormedStmt(s: Stmt)
  {
    !s.Declaration? && WellFormed(s.Child())
  }

  function StmtSpan(s: Stmt): nat
  {
    if s.PrintStatement? then Span(s.Child()) + 2 else Span(s.Child()) + 1
  }

  /** The tokens from `pos` on spell a statement: `print`, the expression and `;`, or
      the expression and `;`. */
  predicate SpellsStmt(ts: seq<Token>, pos: nat, s: Stmt)
  {
    match s
    case PrintStatement(x) =>
      pos < |ts| && ts[pos].kind == Print && Spells(ts, pos + 1, x)
      && ts[pos + 1 + Span(x)].kind == Semicolon
    case ExpressionStatement(x) => Spells(ts, pos, x) && ts[pos + Span(x)].kind == Semicolon
    case Declaration(_, _) => false
  }

  function StmtsSpan(ss: seq<Stmt>): nat
    decreases |ss|
  {
    if ss == [] then 0 else StmtSpan(ss[0]) + StmtsSpan(ss[1..])
  }

  /** The tokens from `pos` on spell the statements one after the other, followed by the
      end-of-file token. */
  predicate SpellsStmts(ts: seq<Token>, pos: nat, ss: seq<Stmt>)
    decreases |ss|
  {
    if ss == [] then pos < |ts| && ts[pos].kind == Eof
    else SpellsStmt(ts, pos, ss[0]) && SpellsStmts(ts, pos + StmtSpan(ss[0]), ss[1..])
  }

  predicate AllWellFormed(ss: seq<Stmt>)
    decreases |ss|
  {
    ss == [] || (WellFormedStmt(ss[0]) && AllWellFormed(ss[1..]))
  }
}
