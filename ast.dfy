/** The node constructors of bin/ast.js and the `pprint` serializer
    (`PPrintVisitor`). */
module Ast {
  import opened Wrappers
  import opened Tokens

  /** Expression nodes: each constructor keeps its arguments in the fields named
      as in the source. */
  datatype Expr =
    | Literal(val: Value)
    | Grouping(expr: Expr)
    | Unary(operator: Token, expr: Expr)
    | Binary(left: Expr, operator: Token, right: Expr)

  /** Statement nodes. */
  datatype Stmt =
    | Declaration(name: Token, val: Expr)
    | PrintStatement(expr: Expr)
    | ExpressionStatement(expr: Expr)
  {
    /** The expression a statement holds. */
    function Child(): Expr
    {
      match this
      case Declaration(_, v) => v
      case PrintStatement(x) => x
      case ExpressionStatement(x) => x
    }
  }

  datatype Program = Program(declarations: seq<Stmt>)

  /** `${l.val ? l.val : 'nil'}`: a falsy value prints as nil. */
  function LiteralText(v: Value): string
  {
    if Truthy(v) then Text(v) else "nil"
  }

  /** `pprint` of an expression. */
  function PPrint(e: Expr): (s: string)
    ensures !e.Literal? ==> |s| >= 2 && s[0] == '(' && s[|s| - 1] == ')'
    ensures e.Literal? ==> s == LiteralText(e.val)
  {
    match e
    case Literal(v) => LiteralText(v)
    case Grouping(x) => "(group " + PPrint(x) + ")"
    case Unary(op, x) => "(" + op.lexeme + " " + PPrint(x) + ")"
    case Binary(l, op, r) => "(" + op.lexeme + " " + PPrint(l) + " " + PPrint(r) + ")"
  }

  /** `pprint` of a statement. A declaration's name is a Token, which a template
      literal renders through `Token.prototype.toString`. */
  function PPrintStmt(s: Stmt): (r: string)
    ensures |r| >= 2 && r[0] == '(' && r[|r| - 1] == ')'
  {
    match s
    case Declaration(name, v) => "(decl " + ToString(name) + " " + PPrint(v) + ")"
    case PrintStatement(x) => "(print " + PPrint(x) + ")"
    case ExpressionStatement(x) => "(statement " + PPrint(x) + ")"
  }

  /** `parts.join(' ')`. */
  function Join(parts: seq<string>): string
  {
    if |parts| == 0 then ""
    else if |parts| == 1 then parts[0]
    else parts[0] + " " + Join(parts[1..])
  }

  /** The `pprint` of each statement's `.expr`. */
  function ExprTexts(ss: seq<Stmt>): (r: seq<string>)
    requires forall i :: 0 <= i < |ss| ==> !ss[i].Declaration?
    ensures |r| == |ss|
    ensures forall i :: 0 <= i < |ss| ==> r[i] == PPrint(ss[i].expr)
  {
    if ss == [] then [] else [PPrint(ss[0].expr)] + ExprTexts(ss[1..])
  }

  /** `pprint` of a program: the program visitor reads `d.expr` of every statement,
      and a Declaration has no `expr` field, so printing a program that holds one
      throws (None here). */
  function PPrintProgram(p: Program): (r: Option<string>)
    ensures r.Some? <==> forall i :: 0 <= i < |p.declarations| ==> !p.declarations[i].Declaration?
    ensures r.Some? ==> |r.value| >= 2 && r.value[0] == '(' && r.value[|r.value| - 1] == ')'
  {
    if exists i :: 0 <= i < |p.declarations| && p.declarations[i].Declaration? then None
    else Some("(program " + Join(ExprTexts(p.declarations)) + ")")
  }

  // ---------------------------------------------------------------------------
  // The printed form is well bracketed.

  /** The nesting depth reached after reading `s` from depth `d`, or None if some
      ')' takes it below `low`. */
  function Reach(s: string, d: int, low: int): Option<int>
  {
    if s == [] then Some(d)
    else
      var d' := if s[0] == '(' then d + 1 else if s[0] == ')' then d - 1 else d;
      if d' < low then None else Reach(s[1..], d', low)
  }

  predicate ParenFree(s: string)
  {
    forall k :: 0 <= k < |s| ==> s[k] != '(' && s[k] != ')'
  }

  /** No prefix closes more parentheses than it opened, and the whole closes all. */
  predicate Balanced(s: string)
  {
    Reach(s, 0, 0) == Some(0)
  }

  /** A single parenthesised group: the opening '(' is closed only by the final ')'. */
  predicate OneGroup(s: string)
  {
    |s| >= 2 && s[0] == '(' && s[|s| - 1] == ')' && Reach(s[1..|s| - 1], 1, 1) == Some(1)
  }

  /** All texts that the printer copies from the tree (operator lexemes and the
      texts of literals) are free of parentheses. */
  predicate CopiedTextsParenFree(e: Expr)
  {
    match e
    case Literal(v) => ParenFree(LiteralText(v))
    case Grouping(x) => CopiedTextsParenFree(x)
    case Unary(op, x) => ParenFree(op.lexeme) && CopiedTextsParenFree(x)
    case Binary(l, op, r) => ParenFree(op.lexeme) && CopiedTextsParenFree(l) && CopiedTextsParenFree(r)
  }

  lemma {:induction false} ReachConcat(a: string, b: string, d: int, low: int)
    ensures Reach(a + b, d, low) == (match Reach(a, d, low) case None => None case Some(d') => Reach(b, d', low))
  {
    if a == [] {
      assert a + b == b;
    } else {
      assert (a + b)[0] == a[0];
      assert (a + b)[1..] == a[1..] + b;
      var d' := if a[0] == '(' then d + 1 else if a[0] == ')' then d - 1 else d;
      if d' >= low {
        ReachConcat(a[1..], b, d', low);
      }
    }
  }

  lemma {:induction false} ReachParenFree(s: string, d: int, low: int)
    requires ParenFree(s) && low <= d
    ensures Reach(s, d, low) == Some(d)
  {
    if s != [] {
      ReachParenFree(s[1..], d, low);
    }
  }

  lemma {:induction false} ReachShift(s: string, d: int, low: int, k: int)
    ensures Reach(s, d + k, low + k) == (match Reach(s, d, low) case None => None case Some(e) => Some(e + k))
  {
    if s != [] {
      var d' := if s[0] == '(' then d + 1 else if s[0] == ')' then d - 1 else d;
      ReachShift(s[1..], d', low, k);
    }
  }

  lemma {:induction false} ReachLowerBound(s: string, d: int, low: int, low': int)
    requires low' <= low && Reach(s, d, low).Some?
    ensures Reach(s, d, low') == Reach(s, d, low)
  {
    if s != [] {
      var d' := if s[0] == '(' then d + 1 else if s[0] == ')' then d - 1 else d;
      ReachLowerBound(s[1..], d', low, low');
    }
  }

  lemma ParenFreeBalanced(s: string)
    requires ParenFree(s)
    ensures Balanced(s)
  {
    ReachParenFree(s, 0, 0);
  }

  lemma BalancedConcat(a: string, b: string)
    requires Balanced(a) && Balanced(b)
    ensures Balanced(a + b)
  {
    ReachConcat(a, b, 0, 0);
  }

  lemma Wrap(m: string)
    requires Balanced(m)
    ensures OneGroup("(" + m + ")")
  {
    var s := "(" + m + ")";
    assert s[1..|s| - 1] == m;
    ReachShift(m, 0, 0, 1);
  }

  lemma OneGroupBalanced(s: string)
    requires OneGroup(s)
    ensures Balanced(s)
  {
    var m := s[1..|s| - 1];
    assert s == [s[0]] + (m + [s[|s| - 1]]);
    ReachConcat([s[0]], m + [s[|s| - 1]], 0, 0);
    ReachLowerBound(m, 1, 1, 0);
    ReachConcat(m, [s[|s| - 1]], 1, 0);
  }

  /** A parenthesis-free text followed by a balanced one is balanced. */
  lemma Prefixed(w: string, b: string)
    requires ParenFree(w) && Balanced(b)
    ensures Balanced(w + b)
  {
    ParenFreeBalanced(w);
    BalancedConcat(w, b);
  }

  /** Balanced pieces separated by single spaces give a balanced string. */
  lemma Spaced(a: string, b: string)
    requires Balanced(a) && Balanced(b)
    ensures Balanced(a + " " + b)
  {
    ParenFreeBalanced(" ");
    BalancedConcat(a, " ");
    BalancedConcat(a + " ", b);
  }

  /** What `pprint` makes of an expression is well bracketed: a literal's text, or one
      group whose opening parenthesis is closed by the final character, provided the
      texts copied from the tree contain no parentheses themselves. */
  lemma {:induction false} PPrintWellBracketed(e: Expr)
    requires CopiedTextsParenFree(e)
    ensures Balanced(PPrint(e))
    ensures !e.Literal? ==> OneGroup(PPrint(e))
  {
    match e
    case Literal(v) =>
      ParenFreeBalanced(LiteralText(v));
    case Grouping(x) =>
      PPrintWellBracketed(x);
      GroupingCase(x);
    case Unary(op, x) =>
      PPrintWellBracketed(x);
      UnaryCase(op, x);
    case Binary(l, op, r) =>
      PPrintWellBracketed(l);
      PPrintWellBracketed(r);
      BinaryCase(l, op, r);
  }

  lemma GroupingCase(x: Expr)
    requires Balanced(PPrint(x))
    ensures OneGroup(PPrint(Grouping(x))) && Balanced(PPrint(Grouping(x)))
  {
    ParenFreeGroup();
    Labeled("group ", PPrint(x));
    assert "(group " == "(" + "group ";
  }

  lemma UnaryCase(op: Token, x: Expr)
    requires ParenFree(op.lexeme) && Balanced(PPrint(x))
    ensures OneGroup(PPrint(Unary(op, x))) && Balanced(PPrint(Unary(op, x)))
  {
    Spaced2(op.lexeme, PPrint(x));
  }

  lemma BinaryCase(l: Expr, op: Token, r: Expr)
    requires ParenFree(op.lexeme) && Balanced(PPrint(l)) && Balanced(PPrint(r))
    ensures OneGroup(PPrint(Binary(l, op, r))) && Balanced(PPrint(Binary(l, op, r)))
  {
    Spaced3(op.lexeme, PPrint(l), PPrint(r));
  }

  /** A statement prints as one group under the same proviso (for a declaration, its
      name's token text must be free of parentheses too). */
  lemma PPrintStmtWellBracketed(s: Stmt)
    requires CopiedTextsParenFree(s.Child())
    requires s.Declaration? ==> ParenFree(ToString(s.name))
    ensures OneGroup(PPrintStmt(s))
  {
    PPrintWellBracketed(s.Child());
    match s
    case Declaration(name, v) => DeclarationCase(name, v);
    case PrintStatement(x) => PrintCase(x);
    case ExpressionStatement(x) => StatementCase(x);
  }

  lemma PrintCase(x: Expr)
    requires Balanced(PPrint(x))
    ensures OneGroup(PPrintStmt(PrintStatement(x)))
  {
    ParenFreePrint();
    Labeled("print ", PPrint(x));
    assert "(print " == "(" + "print ";
  }

  lemma StatementCase(x: Expr)
    requires Balanced(PPrint(x))
    ensures OneGroup(PPrintStmt(ExpressionStatement(x)))
  {
    ParenFreeStatement();
    Labeled("statement ", PPrint(x));
    assert "(statement " == "(" + "statement ";
  }

  lemma DeclarationCase(name: Token, v: Expr)
    requires ParenFree(ToString(name)) && Balanced(PPrint(v))
    ensures OneGroup(PPrintStmt(Declaration(name, v)))
  {
    ParenFreeDecl();
    LabeledSpaced("decl ", ToString(name), PPrint(v));
    assert "(decl " == "(" + "decl ";
  }

  lemma ParenFreeGroup() ensures ParenFree("group ") {}
  lemma ParenFreePrint() ensures ParenFree("print ") {}
  lemma ParenFreeStatement() ensures ParenFree("statement ") {}
  lemma ParenFreeDecl() ensures ParenFree("decl ") {}
  lemma ParenFreeProgram() ensures ParenFree("program ") {}

  /** `(` and a parenthesis-free label before a balanced text, then `)`. */
  lemma Labeled(w: string, m: string)
    requires ParenFree(w) && Balanced(m)
    ensures OneGroup("(" + w + m + ")") && Balanced("(" + w + m + ")")
  {
    Prefixed(w, m);
    Wrap(w + m);
    assert "(" + w + m + ")" == "(" + (w + m) + ")";
    OneGroupBalanced("(" + w + m + ")");
  }

  /** The shape of a unary node's text. */
  lemma Spaced2(a: string, b: string)
    requires ParenFree(a) && Balanced(b)
    ensures OneGroup("(" + a + " " + b + ")") && Balanced("(" + a + " " + b + ")")
  {
    ParenFreeBalanced(a);
    Spaced(a, b);
    Wrap(a + " " + b);
    assert "(" + a + " " + b + ")" == "(" + (a + " " + b) + ")";
    OneGroupBalanced("(" + a + " " + b + ")");
  }

  /** The shape of a binary node's text. */
  lemma Spaced3(a: string, b: string, c: string)
    requires ParenFree(a) && Balanced(b) && Balanced(c)
    ensures OneGroup("(" + a + " " + b + " " + c + ")") && Balanced("(" + a + " " + b + " " + c + ")")
  {
    ParenFreeBalanced(a);
    Spaced(a, b);
    Spaced(a + " " + b, c);
    Wrap(a + " " + b + " " + c);
    assert "(" + a + " " + b + " " + c + ")" == "(" + (a + " " + b + " " + c) + ")";
    OneGroupBalanced("(" + a + " " + b + " " + c + ")");
  }

  /** The shape of a declaration's text. */
  lemma LabeledSpaced(w: string, a: string, b: string)
    requires ParenFree(w) && ParenFree(a) && Balanced(b)
    ensures OneGroup("(" + w + a + " " + b + ")")
  {
    ParenFreeBalanced(a);
    Spaced(a, b);
    Prefixed(w, a + " " + b);
    Wrap(w + (a + " " + b));
    assert "(" + w + a + " " + b + ")" == "(" + (w + (a + " " + b)) + ")";
  }

  /** Under the same proviso a printable program is one group as well. */
  lemma PPrintProgramWellBracketed(p: Program)
    requires forall i :: 0 <= i < |p.declarations| ==> !p.declarations[i].Declaration?
    requires forall i :: 0 <= i < |p.declarations| ==> CopiedTextsParenFree(p.declarations[i].expr)
    ensures PPrintProgram(p).Some? && OneGroup(PPrintProgram(p).value)
  {
    var texts := ExprTexts(p.declarations);
    forall i | 0 <= i < |texts| ensures Balanced(texts[i]) {
      PPrintWellBracketed(p.declarations[i].expr);
    }
    JoinBalanced(texts);
    ParenFreeProgram();
    Labeled("program ", Join(texts));
    assert "(program " == "(" + "program ";
  }

  lemma {:induction false} JoinBalanced(parts: seq<string>)
    requires forall i :: 0 <= i < |parts| ==> Balanced(parts[i])
    ensures Balanced(Join(parts))
  {
    if |parts| == 0 {
      ParenFreeBalanced("");
    } else if |parts| > 1 {
      JoinBalanced(parts[1..]);
      Spaced(parts[0], Join(parts[1..]));
    }
  }
}
