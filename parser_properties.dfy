/** What the grammar functions of bin/parser.js promise: tokens that spell a
    well-formed expression tree, with only the parentheses its `Grouping` nodes stand
    for, parse back to that tree (precedence and left grouping included), tokens that
    spell a program of such statements parse back to that program, and the error
    cases report the token where the parse stopped, with the source's messages. */
module ParserProperties {
  import opened Wrappers
  import opened Tokens
  import opened Ast
  import opened Parsing
  import opened ParseTrees

  // ---------------------------------------------------------------------------
  // Precedence and well-formed trees

  /** `match` on the operators of a level succeeds exactly on the tokens of that level. */
  lemma CheckOpsIsLevel(ts: seq<Token>, pos: nat, k: nat)
    requires pos < |ts| && 1 <= k <= 4
    ensures CheckAnyAt(ts, pos, Ops(k)) <==> LevelOf(ts[pos].kind) == k
  {
  }

  // ---------------------------------------------------------------------------
  // Tokens that spell a tree

  /** A well-formed tree starts with a token that can start an expression. */
  lemma {:induction false} FirstToken(ts: seq<Token>, pos: nat, e: Expr)
    requires WellFormed(e) && Spells(ts, pos, e)
    ensures StartsExpression(ts[pos].kind)
  {
    match e
    case Literal(_) =>
    case Grouping(_) =>
    case Unary(_, _) =>
    case Binary(l, _, _) => FirstToken(ts, pos, l);
  }

  // ---------------------------------------------------------------------------
  // A binary level as a base and a spine of operators with their right operands

  lemma {:induction false} FoldLeftSnoc(acc: Expr, spine: seq<(Token, Expr)>, op: Token, r: Expr)
    ensures FoldLeft(acc, spine + [(op, r)]) == Binary(FoldLeft(acc, spine), op, r)
    decreases |spine|
  {
    if spine != [] {
      assert (spine + [(op, r)])[1..] == spine[1..] + [(op, r)];
      FoldLeftSnoc(Binary(acc, spine[0].0, spine[0].1), spine[1..], op, r);
    }
  }

  lemma {:induction false} SpineSpanSnoc(spine: seq<(Token, Expr)>, op: Token, r: Expr)
    ensures SpineSpan(spine + [(op, r)]) == SpineSpan(spine) + 1 + Span(r)
    decreases |spine|
  {
    var sp := spine + [(op, r)];
    if spine == [] {
      assert sp[1..] == [];
    } else {
      assert sp[0] == spine[0] && sp[1..] == spine[1..] + [(op, r)];
      SpineSpanSnoc(spine[1..], op, r);
    }
  }

  lemma {:induction false} SpineOkSnoc(spine: seq<(Token, Expr)>, op: Token, r: Expr, k: nat, bound: nat)
    requires SpineOk(spine, k, bound) && LevelOf(op.kind) == k && WellFormed(r)
    requires Prec(r) < k && Size(r) < bound
    ensures SpineOk(spine + [(op, r)], k, bound)
    decreases |spine|
  {
    var sp := spine + [(op, r)];
    if spine == [] {
      assert sp[1..] == [];
    } else {
      assert sp[0] == spine[0] && sp[1..] == spine[1..] + [(op, r)];
      SpineOkSnoc(spine[1..], op, r, k, bound);
    }
  }

  /** Appending an operator and its operand to a spelled spine. */
  lemma SpellsSpineSnoc(ts: seq<Token>, pos: nat, spine: seq<(Token, Expr)>, op: Token, r: Expr)
    requires SpellsSpine(ts, pos, spine) && ts[pos + SpineSpan(spine)] == op
    requires Spells(ts, pos + SpineSpan(spine) + 1, r)
    ensures SpellsSpine(ts, pos, spine + [(op, r)])
    decreases |spine|
  {
    var sp := spine + [(op, r)];
    SpineSpanSnoc(spine, op, r);
    if spine == [] {
      assert sp[1..] == [];
      assert SpellsSpine(ts, pos + 1 + Span(r), []);
    } else {
      assert sp[0] == spine[0] && sp[1..] == spine[1..] + [(op, r)];
      SpellsSpineSnoc(ts, pos + 1 + Span(spine[0].1), spine[1..], op, r);
    }
  }

  lemma SpineOkWeaken(spine: seq<(Token, Expr)>, k: nat, bound: nat, bound': nat)
    requires SpineOk(spine, k, bound) && bound <= bound'
    ensures SpineOk(spine, k, bound')
    decreases |spine|
  {
    if spine != [] {
      SpineOkWeaken(spine[1..], k, bound, bound');
    }
  }

  /** An expression is its base and spine at any level, token for token. */
  lemma {:induction false} BaseSpine(e: Expr, k: nat)
    ensures FoldLeft(Base(e, k), Spine(e, k)) == e
    ensures Span(e) == Span(Base(e, k)) + SpineSpan(Spine(e, k))
  {
    if e.Binary? && LevelOf(e.operator.kind) == k {
      BaseSpine(e.left, k);
      FoldLeftSnoc(Base(e.left, k), Spine(e.left, k), e.operator, e.right);
      SpineSpanSnoc(Spine(e.left, k), e.operator, e.right);
    }
  }

  /** The base of a well-formed expression of level at most `k` is of a tighter level,
      and its spine holds operators of level `k` with operands of a tighter level. */
  lemma {:induction false} DecomposeOk(e: Expr, k: nat)
    requires 1 <= k <= 4 && WellFormed(e) && Prec(e) <= k
    ensures WellFormed(Base(e, k)) && Prec(Base(e, k)) < k
    ensures Size(Base(e, k)) <= Size(e) && (Prec(e) == k ==> Size(Base(e, k)) < Size(e))
    ensures SpineOk(Spine(e, k), k, Size(e))
    ensures Prec(e) == k ==> Spine(e, k) != []
  {
    if e.Binary? && LevelOf(e.operator.kind) == k {
      var l := e.left;
      DecomposeOk(l, k);
      SpineOkWeaken(Spine(l, k), k, Size(l), Size(e));
      SpineOkSnoc(Spine(l, k), e.operator, e.right, k, Size(e));
    }
  }

  /** Tokens that spell an expression spell its base, then its spine. */
  lemma DecomposeSpells(ts: seq<Token>, pos: nat, e: Expr, k: nat)
    requires Spells(ts, pos, e)
    ensures Spells(ts, pos, Base(e, k)) && SpellsSpine(ts, pos + Span(Base(e, k)), Spine(e, k))
    decreases e, 1
  {
    if e.Binary? && LevelOf(e.operator.kind) == k {
      DecomposeChain(ts, pos, e, k);
    } else {
      SpellsSpineEmpty(ts, pos + Span(e));
    }
  }

  /** The step of `DecomposeSpells` for an operator of level `k` at the top. */
  lemma DecomposeChain(ts: seq<Token>, pos: nat, e: Expr, k: nat)
    requires e.Binary? && LevelOf(e.operator.kind) == k && Spells(ts, pos, e)
    ensures Spells(ts, pos, Base(e, k)) && SpellsSpine(ts, pos + Span(Base(e, k)), Spine(e, k))
    decreases e, 0
  {
    var l, op, r := e.left, e.operator, e.right;
    var b, sp := Base(l, k), Spine(l, k);
    assert Base(e, k) == b && Spine(e, k) == sp + [(op, r)];
    DecomposeSpells(ts, pos, l, k);
    BaseSpine(l, k);
    var q := pos + Span(b);
    var m := q + SpineSpan(sp);
    assert m == pos + Span(l);
    assert ts[m] == op && Spells(ts, m + 1, r);
    SpellsSpineSnoc(ts, q, sp, op, r);
  }

  lemma SpellsSpineEmpty(ts: seq<Token>, p: nat)
    requires p < |ts|
    ensures SpellsSpine(ts, p, [])
  {
  }

  // ---------------------------------------------------------------------------
  // Round trips

  /** Tokens that spell a well-formed tree of level at most `k`, followed by a token
      that stops level `k`, parse at level `k` to that tree. */
  lemma {:induction false} LevelRoundTrip(ts: seq<Token>, pos: nat, e: Expr, k: nat)
    requires EofTerminated(ts) && k <= 4
    requires WellFormed(e) && Prec(e) <= k
    requires Spells(ts, pos, e) && StopsLevel(ts[pos + Span(e)], k)
    ensures LevelAt(ts, pos, k) == Ok(e, pos + Span(e))
    decreases Size(e), k, 2
  {
    if k == 0 {
      UnaryRoundTrip(ts, pos, e);
    } else if Prec(e) < k {
      LooserRoundTrip(ts, pos, e, k);
    } else {
      ChainRoundTrip(ts, pos, e, k);
    }
  }

  /** A tree of a tighter level than `k` parses at the next tighter level, and the loop
      of level `k` stops right after it. */
  lemma {:induction false} LooserRoundTrip(ts: seq<Token>, pos: nat, e: Expr, k: nat)
    requires EofTerminated(ts) && 1 <= k <= 4
    requires WellFormed(e) && Prec(e) < k
    requires Spells(ts, pos, e) && StopsLevel(ts[pos + Span(e)], k)
    ensures LevelAt(ts, pos, k) == Ok(e, pos + Span(e))
    decreases Size(e), k, 1
  {
    var p := pos + Span(e);
    LevelRoundTrip(ts, pos, e, k - 1);
    LevelStep(ts, pos, k, e, p);
    RestStop(ts, p, k, e);
  }

  /** A level-`k` chain is its base followed by its spine. */
  lemma {:induction false} ChainRoundTrip(ts: seq<Token>, pos: nat, e: Expr, k: nat)
    requires EofTerminated(ts) && 1 <= k <= 4
    requires WellFormed(e) && Prec(e) == k
    requires Spells(ts, pos, e) && StopsLevel(ts[pos + Span(e)], k)
    ensures LevelAt(ts, pos, k) == Ok(e, pos + Span(e))
    decreases Size(e), k, 1
  {
    BaseSpine(e, k);
    DecomposeOk(e, k);
    DecomposeSpells(ts, pos, e, k);
    PartsRoundTrip(ts, pos, k, Base(e, k), Spine(e, k), Size(e), pos + Span(e));
  }

  /** A base of a tighter level and a non-empty spine at level `k`: the base parses at
      the next tighter level, and the loop reads the spine. */
  lemma {:induction false} PartsRoundTrip(ts: seq<Token>, pos: nat, k: nat, base: Expr,
                       spine: seq<(Token, Expr)>, bound: nat, end: nat)
    requires EofTerminated(ts) && 1 <= k <= 4
    requires WellFormed(base) && Prec(base) < k && Size(base) <= bound
    requires Spells(ts, pos, base) && SpellsSpine(ts, pos + Span(base), spine)
    requires SpineOk(spine, k, bound) && spine != []
    requires end == pos + Span(base) + SpineSpan(spine) && StopsLevel(ts[end], k)
    ensures LevelAt(ts, pos, k) == Ok(FoldLeft(base, spine), end)
    decreases bound, k, 0
  {
    var p := pos + Span(base);
    SpineFirst(ts, p, spine, k, bound);
    LevelRoundTrip(ts, pos, base, k - 1);
    LevelStep(ts, pos, k, base, p);
    RestRoundTrip(ts, p, k, base, spine, bound, end);
  }

  /** A non-empty spine at level `k` starts with an operator of level `k`. */
  lemma SpineFirst(ts: seq<Token>, p: nat, spine: seq<(Token, Expr)>, k: nat, bound: nat)
    requires SpellsSpine(ts, p, spine) && SpineOk(spine, k, bound) && spine != []
    ensures p < |ts| && LevelOf(ts[p].kind) == k
  {
  }

  /** A level after its first operand is the loop from there. */
  lemma LevelStep(ts: seq<Token>, pos: nat, k: nat, left: Expr, p: nat)
    requires EofTerminated(ts) && pos < p < |ts| && 1 <= k <= 4
    requires LevelAt(ts, pos, k - 1) == Ok(left, p)
    ensures LevelAt(ts, pos, k) == BinaryRestAt(ts, p, k, left)
  {
  }

  /** The loop ends at a token that is no operator of its level. */
  lemma RestStop(ts: seq<Token>, pos: nat, k: nat, acc: Expr)
    requires EofTerminated(ts) && pos < |ts| && 1 <= k <= 4 && StopsLevel(ts[pos], k)
    ensures BinaryRestAt(ts, pos, k, acc) == Ok(acc, pos)
  {
    CheckOpsIsLevel(ts, pos, k);
  }

  /** One turn of the loop: an operator of its level and the operand after it. */
  lemma RestStep(ts: seq<Token>, pos: nat, k: nat, acc: Expr, right: Expr, q: nat)
    requires EofTerminated(ts) && pos < q < |ts| && 1 <= k <= 4 && LevelOf(ts[pos].kind) == k
    requires LevelAt(ts, pos + 1, k - 1) == Ok(right, q)
    ensures BinaryRestAt(ts, pos, k, acc) == BinaryRestAt(ts, q, k, Binary(acc, ts[pos], right))
  {
    CheckOpsIsLevel(ts, pos, k);
  }

  /** The `while (match ...)` loop of level `k` reads a spine back, grouped to the
      left onto `acc`, and stops at `end`, after the spine. */
  lemma {:induction false} RestRoundTrip(ts: seq<Token>, pos: nat, k: nat, acc: Expr,
                         spine: seq<(Token, Expr)>, bound: nat, end: nat)
    requires EofTerminated(ts) && 1 <= k <= 4 && SpineOk(spine, k, bound)
    requires SpellsSpine(ts, pos, spine) && end == pos + SpineSpan(spine) && StopsLevel(ts[end], k)
    ensures BinaryRestAt(ts, pos, k, acc) == Ok(FoldLeft(acc, spine), end)
    decreases bound, k, 0, |spine|
  {
    if spine == [] {
      RestStop(ts, pos, k, acc);
    } else {
      var op, r := spine[0].0, spine[0].1;
      var q := pos + 1 + Span(r);
      assert StopsLevel(ts[q], k - 1);
      LevelRoundTrip(ts, pos + 1, r, k - 1);
      RestStep(ts, pos, k, acc, r, q);
      RestRoundTrip(ts, q, k, Binary(acc, op, r), spine[1..], bound, end);
    }
  }

  /** Tokens that spell a well-formed unary-level tree parse at `unary` to that tree,
      whatever follows. */
  lemma {:induction false} UnaryRoundTrip(ts: seq<Token>, pos: nat, e: Expr)
    requires EofTerminated(ts) && WellFormed(e) && Prec(e) == 0 && Spells(ts, pos, e)
    ensures UnaryAt(ts, pos) == Ok(e, pos + Span(e))
    decreases Size(e), 0, 1
  {
    if e.Literal? {
      PrimaryLiteral(ts, pos, e.val);
    } else if e.Unary? {
      NegationRoundTrip(ts, pos, e);
    } else {
      GroupRoundTrip(ts, pos, e);
    }
  }

  /** Tokens that spell `!` or `-` and a unary-level operand parse at `unary` to that
      negation. */
  lemma NegationRoundTrip(ts: seq<Token>, pos: nat, e: Expr)
    requires EofTerminated(ts) && e.Unary? && WellFormed(e) && Spells(ts, pos, e)
    ensures UnaryAt(ts, pos) == Ok(e, pos + Span(e))
    decreases Size(e), 0, 0
  {
    var x := e.expr;
    UnaryRoundTrip(ts, pos + 1, x);
    UnaryStep(ts, pos, x, pos + 1 + Span(x));
  }

  /** Tokens that spell a group parse at `unary` to that group. */
  lemma GroupRoundTrip(ts: seq<Token>, pos: nat, e: Expr)
    requires EofTerminated(ts) && e.Grouping? && WellFormed(e) && Spells(ts, pos, e)
    ensures UnaryAt(ts, pos) == Ok(e, pos + Span(e))
    decreases Size(e), 0, 0
  {
    var x := e.expr;
    var p := pos + 1 + Span(x);
    assert Spells(ts, pos + 1, x) && ts[p].kind == RightParen;
    LevelRoundTrip(ts, pos + 1, x, 4);
    PrimaryGroup(ts, pos, x, Span(x));
  }

  /** `unary` on a literal token. */
  lemma PrimaryLiteral(ts: seq<Token>, pos: nat, v: Value)
    requires |ts| > 0 && ts[|ts| - 1].kind == Eof && pos < |ts|
    requires !v.Undefined? && ts[pos].kind == LiteralKind(v)
    requires (v.Num? || v.Str?) ==> ts[pos].literal == v
    ensures UnaryAt(ts, pos) == Ok(Literal(v), pos + 1)
  {
  }

  /** `unary` on `!` or `-` and a unary operand. */
  lemma UnaryStep(ts: seq<Token>, pos: nat, x: Expr, p: nat)
    requires EofTerminated(ts) && pos < |ts| && (ts[pos].kind == Bang || ts[pos].kind == Minus)
    requires pos + 1 < |ts| && UnaryAt(ts, pos + 1) == Ok(x, p)
    ensures UnaryAt(ts, pos) == Ok(Unary(ts[pos], x), p)
  {
  }

  /** `primary` on `(`, an expression that ends at `)`: the group. */
  lemma PrimaryGroup(ts: seq<Token>, pos: nat, x: Expr, n: nat)
    requires EofTerminated(ts) && pos + n + 1 < |ts|
    requires ts[pos].kind == LeftParen && ts[pos + 1 + n].kind == RightParen
    requires ExprAt(ts, pos + 1) == Ok(x, pos + 1 + n)
    ensures UnaryAt(ts, pos) == Ok(Grouping(x), pos + n + 2)
  {
  }

  /** Tokens that spell a well-formed tree, followed by a token that is no binary
      operator, parse to that tree as an `expression`. */
  lemma ExpressionRoundTrip(ts: seq<Token>, pos: nat, e: Expr)
    requires EofTerminated(ts) && WellFormed(e) && Spells(ts, pos, e)
    requires LevelOf(ts[pos + Span(e)].kind) == 0
    ensures ExprAt(ts, pos) == Ok(e, pos + Span(e))
  {
    LevelRoundTrip(ts, pos, e, 4);
  }

  // ---------------------------------------------------------------------------
  // Statements and programs

  /** `statement` on `print`, an expression, `;`. */
  lemma PrintStep(ts: seq<Token>, pos: nat, x: Expr, p: nat)
    requires EofTerminated(ts) && pos < p < |ts| && ts[pos].kind == Print
    requires ExprAt(ts, pos + 1) == Ok(x, p) && ts[p].kind == Semicolon
    ensures StatementAt(ts, pos) == Ok(PrintStatement(x), p + 1)
  {
  }

  /** `statement` on an expression that is not a print statement, then `;`. */
  lemma ExpressionStep(ts: seq<Token>, pos: nat, x: Expr, p: nat)
    requires EofTerminated(ts) && pos < p < |ts| && ts[pos].kind != Print
    requires ExprAt(ts, pos) == Ok(x, p) && ts[p].kind == Semicolon
    ensures StatementAt(ts, pos) == Ok(ExpressionStatement(x), p + 1)
  {
  }

  /** Tokens that spell a well-formed statement parse to it. */
  lemma StatementRoundTrip(ts: seq<Token>, pos: nat, s: Stmt)
    requires EofTerminated(ts) && WellFormedStmt(s) && SpellsStmt(ts, pos, s)
    ensures StatementAt(ts, pos) == Ok(s, pos + StmtSpan(s))
  {
    if s.PrintStatement? {
      PrintRoundTrip(ts, pos, s.expr);
    } else {
      ExpressionStatementRoundTrip(ts, pos, s.expr);
    }
  }

  /** `print`, a spelled tree and `;` parse to that print statement. */
  lemma PrintRoundTrip(ts: seq<Token>, pos: nat, x: Expr)
    requires EofTerminated(ts) && WellFormed(x) && pos < |ts| && ts[pos].kind == Print
    requires Spells(ts, pos + 1, x) && ts[pos + 1 + Span(x)].kind == Semicolon
    ensures StatementAt(ts, pos) == Ok(PrintStatement(x), pos + 2 + Span(x))
  {
    var p := pos + 1 + Span(x);
    ExpressionRoundTrip(ts, pos + 1, x);
    PrintStep(ts, pos, x, p);
  }

  /** A spelled tree and `;` parse to that expression statement. */
  lemma ExpressionStatementRoundTrip(ts: seq<Token>, pos: nat, x: Expr)
    requires EofTerminated(ts) && WellFormed(x)
    requires Spells(ts, pos, x) && ts[pos + Span(x)].kind == Semicolon
    ensures StatementAt(ts, pos) == Ok(ExpressionStatement(x), pos + 1 + Span(x))
  {
    var p := pos + Span(x);
    FirstToken(ts, pos, x);
    ExpressionRoundTrip(ts, pos, x);
    ExpressionStep(ts, pos, x, p);
  }

  /** The loop of `program` after one statement. */
  lemma StatementsStep(ts: seq<Token>, pos: nat, ss: seq<Stmt>, p: nat, q: nat)
    requires EofTerminated(ts) && pos < p < |ts| && ts[pos].kind != Eof && ss != []
    requires StatementAt(ts, pos) == Ok(ss[0], p) && StatementsAt(ts, p) == Ok(ss[1..], q)
    ensures StatementsAt(ts, pos) == Ok(ss, q)
  {
    assert [ss[0]] + ss[1..] == ss;
  }

  /** A spelled statement does not start with the end-of-file token. */
  lemma StmtFirst(ts: seq<Token>, pos: nat, s: Stmt)
    requires WellFormedStmt(s) && SpellsStmt(ts, pos, s)
    ensures pos < |ts| && ts[pos].kind != Eof
  {
    if s.ExpressionStatement? {
      FirstToken(ts, pos, s.Child());
    }
  }

  /** The loop of `program` reads spelled statements back up to the end-of-file token
      at `end`. */
  lemma StatementsRoundTrip(ts: seq<Token>, pos: nat, ss: seq<Stmt>, end: nat)
    requires EofTerminated(ts) && AllWellFormed(ss) && SpellsStmts(ts, pos, ss)
    requires end == pos + StmtsSpan(ss)
    ensures StatementsAt(ts, pos) == Ok(ss, end)
    decreases |ss|, 1
  {
    if ss != [] {
      StatementsCons(ts, pos, ss, end);
    } else {
      StatementsEnd(ts, pos);
    }
  }

  /** The step of `StatementsRoundTrip` for a first statement and the rest. */
  lemma StatementsCons(ts: seq<Token>, pos: nat, ss: seq<Stmt>, end: nat)
    requires EofTerminated(ts) && ss != [] && AllWellFormed(ss) && SpellsStmts(ts, pos, ss)
    requires end == pos + StmtsSpan(ss)
    ensures StatementsAt(ts, pos) == Ok(ss, end)
    decreases |ss|, 0
  {
    var p := pos + StmtSpan(ss[0]);
    StmtsHead(ts, pos, ss);
    StatementsRoundTrip(ts, p, ss[1..], end);
    HeadRoundTrip(ts, pos, ss);
    StatementsStep(ts, pos, ss, p, end);
  }

  /** The first of spelled statements parses to itself, and it does not start with the
      end-of-file token. */
  lemma HeadRoundTrip(ts: seq<Token>, pos: nat, ss: seq<Stmt>)
    requires EofTerminated(ts) && ss != [] && AllWellFormed(ss) && SpellsStmts(ts, pos, ss)
    ensures pos < |ts| && ts[pos].kind != Eof
    ensures StatementAt(ts, pos) == Ok(ss[0], pos + StmtSpan(ss[0]))
  {
    StmtsHead(ts, pos, ss);
    StmtFirst(ts, pos, ss[0]);
    StatementRoundTrip(ts, pos, ss[0]);
  }

  /** The loop of `program` stops at the end-of-file token. */
  lemma StatementsEnd(ts: seq<Token>, pos: nat)
    requires EofTerminated(ts) && SpellsStmts(ts, pos, [])
    ensures StatementsAt(ts, pos) == Ok([], pos)
  {
  }

  /** The first statement of spelled statements, and the rest after it. */
  lemma StmtsHead(ts: seq<Token>, pos: nat, ss: seq<Stmt>)
    requires ss != [] && AllWellFormed(ss) && SpellsStmts(ts, pos, ss)
    ensures WellFormedStmt(ss[0]) && SpellsStmt(ts, pos, ss[0])
    ensures AllWellFormed(ss[1..]) && SpellsStmts(ts, pos + StmtSpan(ss[0]), ss[1..])
    ensures StmtsSpan(ss) == StmtSpan(ss[0]) + StmtsSpan(ss[1..])
  {
  }

  /** Tokens that spell a program of well-formed statements, then the end-of-file token,
      parse to that program. */
  lemma ProgramRoundTrip(ts: seq<Token>, p: Program)
    requires EofTerminated(ts) && AllWellFormed(p.declarations) && SpellsStmts(ts, 0, p.declarations)
    ensures ParseTokens(ts) == Success(p)
  {
    StatementsRoundTrip(ts, 0, p.declarations, StmtsSpan(p.declarations));
  }

  // ---------------------------------------------------------------------------
  // Errors

  /** An error in the unary operand at the start of a level escapes through every level. */
  lemma {:induction false} ErrorEscapes(ts: seq<Token>, pos: nat, k: nat)
    requires EofTerminated(ts) && pos < |ts| && k <= 4 && UnaryAt(ts, pos).Err?
    ensures LevelAt(ts, pos, k) == UnaryAt(ts, pos)
  {
    if k > 0 {
      ErrorEscapes(ts, pos, k - 1);
    }
  }

  /** A token that cannot start an expression (the end of the input among them) is
      reported as `Expect expression.`. */
  lemma ExpectExpression(ts: seq<Token>, pos: nat)
    requires |ts| > 0 && ts[|ts| - 1].kind == Eof && pos < |ts| && !StartsExpression(ts[pos].kind)
    ensures ExprAt(ts, pos) == Err(ParseError(ts[pos], "Expect expression."))
  {
    ErrorEscapes(ts, pos, 4);
  }

  /** `primary` on `(` and an expression not followed by `)`. */
  lemma UnclosedGroup(ts: seq<Token>, pos: nat, x: Expr, p: nat)
    requires EofTerminated(ts) && pos < p < |ts| && ts[pos].kind == LeftParen
    requires ExprAt(ts, pos + 1) == Ok(x, p) && ts[p].kind != RightParen
    ensures UnaryAt(ts, pos) == Err(ParseError(ts[p], "Expect ')' after expression."))
  {
  }

  /** A `(` and a well-formed tree not followed by `)` is reported at the token found
      instead. */
  lemma MissingRightParen(ts: seq<Token>, pos: nat, x: Expr)
    requires EofTerminated(ts) && WellFormed(x) && pos < |ts| && ts[pos].kind == LeftParen
    requires Spells(ts, pos + 1, x)
    requires LevelOf(ts[pos + 1 + Span(x)].kind) == 0 && ts[pos + 1 + Span(x)].kind != RightParen
    ensures ExprAt(ts, pos) == Err(ParseError(ts[pos + 1 + Span(x)], "Expect ')' after expression."))
  {
    var p := pos + 1 + Span(x);
    ExpressionRoundTrip(ts, pos + 1, x);
    UnclosedGroup(ts, pos, x, p);
    ErrorEscapes(ts, pos, 4);
  }

  /** An expression statement not closed by `;` is reported at the token found
      instead. */
  lemma MissingSemicolon(ts: seq<Token>, pos: nat, x: Expr)
    requires EofTerminated(ts) && WellFormed(x) && Spells(ts, pos, x)
    requires LevelOf(ts[pos + Span(x)].kind) == 0 && ts[pos + Span(x)].kind != Semicolon
    ensures StatementAt(ts, pos) == Err(ParseError(ts[pos + Span(x)], "Expect ';' after expression"))
  {
    var p := pos + Span(x);
    FirstToken(ts, pos, x);
    ExpressionRoundTrip(ts, pos, x);
    ExpressionUnterminated(ts, pos, x, p);
  }

  /** `statement` on an expression that is not a print statement, not followed by `;`. */
  lemma ExpressionUnterminated(ts: seq<Token>, pos: nat, x: Expr, p: nat)
    requires EofTerminated(ts) && pos < p < |ts| && ts[pos].kind != Print
    requires ExprAt(ts, pos) == Ok(x, p) && ts[p].kind != Semicolon
    ensures StatementAt(ts, pos) == Err(ParseError(ts[p], "Expect ';' after expression"))
  {
  }

  /** A print statement not closed by `;` is reported at the token found instead. */
  lemma MissingPrintSemicolon(ts: seq<Token>, pos: nat, x: Expr)
    requires EofTerminated(ts) && WellFormed(x) && pos < |ts| && ts[pos].kind == Print
    requires Spells(ts, pos + 1, x)
    requires LevelOf(ts[pos + 1 + Span(x)].kind) == 0 && ts[pos + 1 + Span(x)].kind != Semicolon
    ensures StatementAt(ts, pos)
         == Err(ParseError(ts[pos + 1 + Span(x)], "Expect ';' after print statement"))
  {
    var p := pos + 1 + Span(x);
    ExpressionRoundTrip(ts, pos + 1, x);
    PrintUnterminated(ts, pos, x, p);
  }

  /** `statement` on `print` and an expression not followed by `;`. */
  lemma PrintUnterminated(ts: seq<Token>, pos: nat, x: Expr, p: nat)
    requires EofTerminated(ts) && pos < p < |ts| && ts[pos].kind == Print
    requires ExprAt(ts, pos + 1) == Ok(x, p) && ts[p].kind != Semicolon
    ensures StatementAt(ts, pos) == Err(ParseError(ts[p], "Expect ';' after print statement"))
  {
  }
}
