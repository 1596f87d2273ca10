/** What the resolver of bin/resolver.js promises, proved about the functions of
    module ResolverSemantics: which misuse it reports and when, where the scopes it
    pushes for a class and its methods put `this` and `super`, and that a variable read
    in its own initializer is reported in a local scope but not at the global level. */
module ResolverProperties {
  import opened Wrappers
  import opened Tokens
  import opened ResolverSyntax
  import opened ResolverSemantics

  /** The errors `r` has beyond those of the earlier state `st`. */
  function NewErrors(st: State, r: State): seq<ResolveError>
  {
    if |st.errors| <= |r.errors| then r.errors[|st.errors|..] else []
  }

  /** Between `st` and `r`, some error with this message was reported. */
  predicate Reported(st: State, r: State, message: string)
  {
    exists e :: e in NewErrors(st, r) && e.message == message
  }

  /** The messages that resolving an expression can report. */
  predicate ExprMessage(message: string)
  {
    message == OwnInitializer || message == ThisOutsideClass
    || message == SuperOutsideClass || message == SuperWithoutSuperclass
  }

  predicate OnlyExprErrors(st: State, r: State)
  {
    forall e :: e in NewErrors(st, r) ==> ExprMessage(e.message)
  }

  /** The errors of two steps in a row are those of the first, then those of the second. */
  lemma NewErrorsChain(a: State, b: State, c: State)
    requires a.errors <= b.errors <= c.errors
    ensures NewErrors(a, c) == NewErrors(a, b) + NewErrors(b, c)
  {
    assert c.errors[|a.errors|..] == b.errors[|a.errors|..] + c.errors[|b.errors|..];
  }

  // ---------------------------------------------------------------------------
  // Expressions report only expression errors

  /** Resolving an expression reports only a read in its own initializer or a misused
      `this` or `super`: never a statement's error. */
  lemma {:induction false} ExprReportsOnlyExprErrors(st: State, e: Expr)
    ensures OnlyExprErrors(st, ResolveExpr(st, e))
    decreases e, 1
  {
    match e
    case Literal(_) =>
    case Grouping(x) => ExprReportsOnlyExprErrors(st, x);
    case Unary(_, x) => ExprReportsOnlyExprErrors(st, x);
    case Binary(_, _, _) => OperandsReportOnlyExprErrors(st, e);
    case Logical(_, _, _) => OperandsReportOnlyExprErrors(st, e);
    case Variable(id, name) =>
    case Assignment(id, name, value) => ExprReportsOnlyExprErrors(st, value);
    case Call(callee, args) =>
      var called := ResolveExpr(st, callee);
      ExprReportsOnlyExprErrors(st, callee);
      ExprsReportOnlyExprErrors(called, args);
      NewErrorsChain(st, called, ResolveExprs(called, args));
    case Getter(obj, _) => ExprReportsOnlyExprErrors(st, obj);
    case Setter(obj, _, value) =>
      var mid := ResolveExpr(st, obj);
      ExprReportsOnlyExprErrors(st, obj);
      ExprReportsOnlyExprErrors(mid, value);
      NewErrorsChain(st, mid, ResolveExpr(mid, value));
    case This(_, _) =>
    case Super(_, _, _) =>
  }

  lemma {:induction false} OperandsReportOnlyExprErrors(st: State, e: Expr)
    requires e.Binary? || e.Logical?
    ensures OnlyExprErrors(st, ResolveExpr(st, e))
    decreases e, 0
  {
    var mid := ResolveExpr(st, e.left);
    ExprReportsOnlyExprErrors(st, e.left);
    ExprReportsOnlyExprErrors(mid, e.right);
    NewErrorsChain(st, mid, ResolveExpr(mid, e.right));
  }

  lemma {:induction false} ExprsReportOnlyExprErrors(st: State, es: seq<Expr>)
    ensures OnlyExprErrors(st, ResolveExprs(st, es))
    decreases es, 2
  {
    if es != [] {
      var init := ResolveExprs(st, es[..|es| - 1]);
      ExprsReportOnlyExprErrors(st, es[..|es| - 1]);
      ExprReportsOnlyExprErrors(init, es[|es| - 1]);
      NewErrorsChain(st, init, ResolveExprs(st, es));
    }
  }

  // ---------------------------------------------------------------------------
  // return, break, this and super

  /** `return` is reported outside a function, and only there. */
  lemma ReturnAtTopLevelReported(st: State, keyword: Token, value: Option<Expr>)
    ensures Reported(st, VisitReturn(st, keyword, value), ReturnAtTopLevel) <==> !st.ctx.inFunction
  {
    var checked := if !st.ctx.inFunction then Report(st, keyword, ReturnAtTopLevel) else st;
    var r := VisitReturn(st, keyword, value);
    if value.Some? {
      var inInit := if checked.ctx.inInitializer then Report(checked, keyword, ReturnFromInitializer) else checked;
      ExprReportsOnlyExprErrors(inInit, value.value);
      NewErrorsChain(st, checked, inInit);
      NewErrorsChain(st, inInit, r);
    }
    if !st.ctx.inFunction {
      assert NewErrors(st, r)[0] == ResolveError(Some(keyword), ReturnAtTopLevel);
    }
  }

  /** A `return` with a value is reported in an initializer, and only there. */
  lemma ReturnFromInitializerReported(st: State, keyword: Token, value: Option<Expr>)
    ensures Reported(st, VisitReturn(st, keyword, value), ReturnFromInitializer)
            <==> value.Some? && st.ctx.inInitializer
  {
    var checked := if !st.ctx.inFunction then Report(st, keyword, ReturnAtTopLevel) else st;
    var r := VisitReturn(st, keyword, value);
    if value.Some? {
      var inInit := if checked.ctx.inInitializer then Report(checked, keyword, ReturnFromInitializer) else checked;
      ExprReportsOnlyExprErrors(inInit, value.value);
      NewErrorsChain(st, checked, inInit);
      NewErrorsChain(st, inInit, r);
      if st.ctx.inInitializer {
        assert NewErrors(checked, inInit)[0] == ResolveError(Some(keyword), ReturnFromInitializer);
      }
    }
  }

  /** `break` is reported outside a loop, and only there. */
  lemma BreakReported(st: State, keyword: Token)
    ensures Reported(st, ResolveStmt(st, Stmt.Break(keyword)), BreakOutsideLoop) <==> st.ctx.loopLevel == 0
  {
    if st.ctx.loopLevel == 0 {
      assert NewErrors(st, ResolveStmt(st, Stmt.Break(keyword)))[0] == ResolveError(Some(keyword), BreakOutsideLoop);
    }
  }

  /** A `break` that is the body of a `while` is not reported, at any loop level, and
      the loop level is as it was afterwards. */
  lemma BreakInWhileNotReported(st: State, condition: Expr, keyword: Token)
    ensures var r := ResolveStmt(st, Stmt.While(condition, Stmt.Break(keyword)));
      !Reported(st, r, BreakOutsideLoop) && r.ctx.loopLevel == st.ctx.loopLevel
  {
    var deeper := st.(ctx := st.ctx.(loopLevel := st.ctx.loopLevel + 1));
    var afterCondition := ResolveExpr(deeper, condition);
    ExprReportsOnlyExprErrors(deeper, condition);
    assert ResolveStmt(afterCondition, Stmt.Break(keyword)) == afterCondition;
  }

  /** `this` is reported outside a class, and only there. */
  lemma ThisReported(st: State, id: nat, keyword: Token)
    ensures Reported(st, ResolveExpr(st, Expr.This(id, keyword)), ThisOutsideClass) <==> !st.ctx.inClass
  {
    if !st.ctx.inClass {
      assert NewErrors(st, ResolveExpr(st, Expr.This(id, keyword)))[0] == ResolveError(Some(keyword), ThisOutsideClass);
    }
  }

  /** `super` is reported outside a class, and in a class without a superclass;
      nowhere else. */
  lemma SuperReported(st: State, id: nat, keyword: Token, methodName: Token)
    ensures var r := ResolveExpr(st, Expr.Super(id, keyword, methodName));
      (Reported(st, r, SuperOutsideClass) <==> !st.ctx.inClass)
      && (Reported(st, r, SuperWithoutSuperclass) <==> st.ctx.inClass && !st.ctx.hasSuperClass)
  {
    var r := ResolveExpr(st, Expr.Super(id, keyword, methodName));
    if !st.ctx.inClass {
      assert NewErrors(st, r)[0] == ResolveError(Some(keyword), SuperOutsideClass);
    } else if !st.ctx.hasSuperClass {
      assert NewErrors(st, r)[0] == ResolveError(Some(keyword), SuperWithoutSuperclass);
    }
  }

  // ---------------------------------------------------------------------------
  // Classes

  /** A class that names itself as its superclass is reported when its name is
      declared, and no other class is. */
  lemma SelfInheritanceReported(st: State, s: Stmt)
    requires s.ClassDeclaration?
    ensures Reported(st, DeclareClass(st, s), SelfInheritance)
            <==> s.superclass.Some? && s.superclass.value.name.lexeme == s.name.lexeme
  {
    var name := s.name.lexeme;
    var declared := Define(Declare(st, name), name);
    NewErrorsChain(st, Declare(st, name), declared);
    if s.superclass.Some? && name == s.superclass.value.name.lexeme {
      NewErrorsChain(st, declared, DeclareClass(st, s));
      assert NewErrors(declared, DeclareClass(st, s))[0] == ResolveError(Some(s.superclass.value.name), SelfInheritance);
    }
  }

  /** `class C < C` is reported by resolving the whole declaration. */
  lemma SelfInheritanceInClass(st: State, s: Stmt)
    requires s.ClassDeclaration? && s.superclass.Some?
    requires s.superclass.value.name.lexeme == s.name.lexeme
    ensures Reported(st, ResolveStmt(st, s), SelfInheritance)
  {
    var flagged := st.(ctx := st.ctx.(inClass := true, hasSuperClass := false));
    var declared := DeclareClass(flagged, s);
    var body := ClassBody(declared, s);
    SelfInheritanceReported(flagged, s);
    NewErrorsChain(flagged, declared, body);
    assert NewErrors(st, ResolveStmt(st, s)) == NewErrors(flagged, body);
  }

  /** The names the parameters bind. */
  function ParamNames(params: seq<Token>): set<string>
  {
    set i | 0 <= i < |params| :: params[i].lexeme
  }

  /** The parameters bind their names in the innermost scope, and nothing else. */
  lemma {:induction false} DeclareParamsBinds(st: State, params: seq<Token>, x: string)
    requires |st.scopes| > 0
    ensures x in DeclareParams(st, params).scopes[|st.scopes| - 1]
            <==> x in st.scopes[|st.scopes| - 1] || x in ParamNames(params)
    decreases |params|
  {
    if params != [] {
      var init := params[..|params| - 1];
      DeclareParamsBinds(st, init, x);
      assert ParamNames(params) == ParamNames(init) + {params[|params| - 1].lexeme} by {
        forall y | y in ParamNames(params) ensures y in ParamNames(init) + {params[|params| - 1].lexeme} {
          var i :| 0 <= i < |params| && params[i].lexeme == y;
          if i < |params| - 1 {
            assert init[i] == params[i];
          }
        }
        forall y | y in ParamNames(init) ensures y in ParamNames(params) {
          var i :| 0 <= i < |init| && init[i].lexeme == y;
          assert params[i] == init[i];
        }
      }
    }
  }

  /** The state a class's methods are resolved in: the class name declared, then with
      a superclass the scope binding `super`, then the scope binding `this`. */
  function ThisScope(st: State, s: Stmt): State
    requires s.ClassDeclaration?
  {
    var flagged := st.(ctx := st.ctx.(inClass := true, hasSuperClass := false));
    var declared := DeclareClass(flagged, s);
    var withSuper :=
      if s.superclass.Some? then SuperScope(declared.(ctx := declared.ctx.(hasSuperClass := true)), s.superclass.value)
      else declared;
    Define(BeginScope(withSuper), "this")
  }

  /** The state a method's body is resolved in: inside a function, one scope for the
      parameters beyond the scope `t` that binds `this`. */
  function MethodScope(t: State, m: Function): State
  {
    var marked := if m.name.lexeme == "init" then t.(ctx := t.ctx.(inInitializer := true)) else t;
    DeclareParams(BeginScope(marked.(ctx := marked.ctx.(inFunction := true))), m.params)
  }

  /** A class declaration ends with the distances and errors its methods end with. */
  lemma ClassOutcome(st: State, s: Stmt)
    requires s.ClassDeclaration?
    ensures var r := ResolveStmt(st, s);
      var methods := ResolveMethods(ThisScope(st, s), s.methods);
      r.locals == methods.locals && r.errors == methods.errors
  {
    var flagged := st.(ctx := st.ctx.(inClass := true, hasSuperClass := false));
    var body := ClassBody(DeclareClass(flagged, s), s);
    assert ResolveStmt(st, s).locals == body.locals && ResolveStmt(st, s).errors == body.errors;
  }

  /** A method ends with the distances and errors its body ends with. */
  lemma MethodOutcome(t: State, m: Function)
    ensures var r := VisitMethod(t, m);
      var body := ResolveStmts(MethodScope(t, m), m.body);
      r.locals == body.locals && r.errors == body.errors
  {
  }

  /** A class of one method ends with the distances and errors that the method's body
      ends with, resolved in the method's scope. */
  lemma ClassOfOneMethod(st: State, s: Stmt, m: Function)
    requires s.ClassDeclaration? && s.methods == [m]
    ensures var r := ResolveStmt(st, s);
      var body := ResolveStmts(MethodScope(ThisScope(st, s), m), m.body);
      r.locals == body.locals && r.errors == body.errors
  {
    ClassOutcome(st, s);
    assert ResolveMethods(ThisScope(st, s), [m]) == VisitMethod(ThisScope(st, s), m);
    MethodOutcome(ThisScope(st, s), m);
  }

  /** The scopes a class pushes around its methods: one binding `this`, and outside it,
      when there is a superclass, one binding `super`. */
  lemma ThisScopeShape(st: State, s: Stmt)
    requires s.ClassDeclaration?
    ensures var t := ThisScope(st, s);
      |t.scopes| == |st.scopes| + (if s.superclass.Some? then 2 else 1)
      && t.scopes[|t.scopes| - 1] == map["this" := true]
      && (s.superclass.Some? ==> t.scopes[|t.scopes| - 2] == map["super" := true])
      && t.ctx.inClass && t.ctx.hasSuperClass == s.superclass.Some?
  {
  }

  /** The scope a method's body is resolved in holds the parameters, and only them,
      just inside the scopes of `t`. */
  lemma MethodScopeShape(t: State, m: Function, x: string)
    ensures var p := MethodScope(t, m);
      |p.scopes| == |t.scopes| + 1 && p.scopes[..|t.scopes|] == t.scopes
      && (x in p.scopes[|t.scopes|] <==> x in ParamNames(m.params))
      && p.ctx.inClass == t.ctx.inClass && p.ctx.hasSuperClass == t.ctx.hasSuperClass
  {
    var marked := if m.name.lexeme == "init" then t.(ctx := t.ctx.(inInitializer := true)) else t;
    var entered := BeginScope(marked.(ctx := marked.ctx.(inFunction := true)));
    DeclareParamsBinds(entered, m.params, x);
    var p := MethodScope(t, m);
    assert p.scopes[..|t.scopes|] == t.scopes by {
      forall i | 0 <= i < |t.scopes| ensures p.scopes[i] == t.scopes[i] {
        assert p.scopes[i] == entered.scopes[i];
      }
    }
  }

  /** Where a method's body is resolved, the innermost scope is the method's own, which
      binds `this` only if a parameter is named so; the next one binds `this`; with a
      superclass the one after binds `super`. */
  lemma MethodScopeOfClass(st: State, s: Stmt, m: Function, x: string)
    requires s.ClassDeclaration?
    ensures var p := MethodScope(ThisScope(st, s), m);
      var n := |p.scopes|;
      n >= 2 && (x in p.scopes[n - 1] <==> x in ParamNames(m.params))
      && p.scopes[n - 2] == map["this" := true]
      && (s.superclass.Some? ==> n >= 3 && p.scopes[n - 3] == map["super" := true])
      && p.ctx.inClass && p.ctx.hasSuperClass == s.superclass.Some?
  {
    var t := ThisScope(st, s);
    ThisScopeShape(st, s);
    MethodScopeShape(t, m, x);
    var p := MethodScope(t, m);
    assert p.scopes[|p.scopes| - 2] == t.scopes[|t.scopes| - 1];
    if s.superclass.Some? {
      assert p.scopes[|p.scopes| - 3] == t.scopes[|t.scopes| - 2];
    }
  }

  /** A statement list of one expression statement resolves as that expression. */
  lemma ExpressionStatementResolves(p: State, e: Expr)
    ensures ResolveStmts(p, [ExpressionStatement(e)]) == ResolveExpr(p, e)
  {
    assert [ExpressionStatement(e)][..0] == [];
  }

  /** Inside a class, `this` is resolved at the distance of its innermost binder. */
  lemma ThisResolvesAt(p: State, id: nat, keyword: Token, d: nat)
    requires p.ctx.inClass && Distance(p.scopes, keyword.lexeme) == Some(d)
    ensures ResolveExpr(p, Expr.This(id, keyword)) == p.(locals := p.locals[id := d])
  {
  }

  /** Inside a class with a superclass, so is `super`. */
  lemma SuperResolvesAt(p: State, id: nat, keyword: Token, methodName: Token, d: nat)
    requires p.ctx.inClass && p.ctx.hasSuperClass && Distance(p.scopes, keyword.lexeme) == Some(d)
    ensures ResolveExpr(p, Expr.Super(id, keyword, methodName)) == p.(locals := p.locals[id := d])
  {
  }

  /** `this` read where the innermost scope does not bind it and the next one does. */
  lemma ThisOneScopeOut(p: State, id: nat, keyword: Token)
    requires |p.scopes| >= 2 && keyword.lexeme !in p.scopes[|p.scopes| - 1]
    requires keyword.lexeme in p.scopes[|p.scopes| - 2] && p.ctx.inClass
    ensures ResolveStmts(p, [ExpressionStatement(Expr.This(id, keyword))]) == p.(locals := p.locals[id := 1])
  {
    DistanceOne(p.scopes, keyword.lexeme);
    ThisResolvesAt(p, id, keyword, 1);
    ExpressionStatementResolves(p, Expr.This(id, keyword));
  }

  /** `super` read where neither of the two innermost scopes binds it and the third
      does. */
  lemma SuperTwoScopesOut(p: State, id: nat, keyword: Token, methodName: Token)
    requires |p.scopes| >= 3 && keyword.lexeme !in p.scopes[|p.scopes| - 1]
    requires keyword.lexeme !in p.scopes[|p.scopes| - 2]
    requires keyword.lexeme in p.scopes[|p.scopes| - 3] && p.ctx.inClass && p.ctx.hasSuperClass
    ensures ResolveStmts(p, [ExpressionStatement(Expr.Super(id, keyword, methodName))])
            == p.(locals := p.locals[id := 2])
  {
    DistanceTwo(p.scopes, keyword.lexeme);
    SuperResolvesAt(p, id, keyword, methodName, 2);
    ExpressionStatementResolves(p, Expr.Super(id, keyword, methodName));
  }

  /** A name bound one scope out and not in the innermost scope is at distance 1. */
  lemma DistanceOne(scopes: seq<map<string, bool>>, name: string)
    requires |scopes| >= 2 && name !in scopes[|scopes| - 1] && name in scopes[|scopes| - 2]
    ensures Distance(scopes, name) == Some(1)
  {
    assert scopes[..|scopes| - 1][|scopes| - 2] == scopes[|scopes| - 2];
  }

  /** A name bound two scopes out and in neither inner scope is at distance 2. */
  lemma DistanceTwo(scopes: seq<map<string, bool>>, name: string)
    requires |scopes| >= 3 && name !in scopes[|scopes| - 1] && name !in scopes[|scopes| - 2]
    requires name in scopes[|scopes| - 3]
    ensures Distance(scopes, name) == Some(2)
  {
    var n := |scopes|;
    var outer := scopes[..n - 1];
    assert outer[n - 2] == scopes[n - 2] && outer[..n - 2][n - 3] == scopes[n - 3];
    assert Distance(outer[..n - 2], name) == Some(0);
  }

  /** When `this;` is the whole body of a class's only method, `this` is one scope
      out: the method's own scope holds the parameters, the next one binds `this`. */
  lemma ThisInMethodBody(st: State, name: Token, superclass: Option<Superclass>, m: Function,
                         id: nat, keyword: Token)
    requires keyword.lexeme == "this" && "this" !in ParamNames(m.params)
    requires m.body == [ExpressionStatement(Expr.This(id, keyword))]
    ensures var r := ResolveStmt(st, ClassDeclaration(name, superclass, [m]));
      id in r.locals && r.locals[id] == 1
  {
    var s := ClassDeclaration(name, superclass, [m]);
    MethodScopeOfClass(st, s, m, "this");
    ThisOneScopeOut(MethodScope(ThisScope(st, s), m), id, keyword);
    ClassOfOneMethod(st, s, m);
  }

  /** When `super.m;` is the whole body of the only method of a class with a
      superclass, `super` is two scopes out: past the method's own scope and the one
      binding `this`. */
  lemma SuperInMethodBody(st: State, name: Token, superclass: Superclass, m: Function,
                          id: nat, keyword: Token, methodName: Token)
    requires keyword.lexeme == "super" && "super" !in ParamNames(m.params)
    requires m.body == [ExpressionStatement(Expr.Super(id, keyword, methodName))]
    ensures var r := ResolveStmt(st, ClassDeclaration(name, Some(superclass), [m]));
      id in r.locals && r.locals[id] == 2
  {
    var s := ClassDeclaration(name, Some(superclass), [m]);
    MethodScopeOfClass(st, s, m, "super");
    SuperTwoScopesOut(MethodScope(ThisScope(st, s), m), id, keyword, methodName);
    ClassOfOneMethod(st, s, m);
  }

  /** When `super.m;` is the whole body of the only method of a class without a
      superclass, `super` is reported. */
  lemma SuperWithoutSuperclassInMethod(st: State, name: Token, m: Function,
                                       id: nat, keyword: Token, methodName: Token)
    requires m.body == [ExpressionStatement(Expr.Super(id, keyword, methodName))]
    ensures var r := ResolveStmt(st, ClassDeclaration(name, None, [m]));
      ResolveError(Some(keyword), SuperWithoutSuperclass) in r.errors
  {
    var s := ClassDeclaration(name, None, [m]);
    var p := MethodScope(ThisScope(st, s), m);
    MethodScopeOfClass(st, s, m, keyword.lexeme);
    SuperWithoutSuperclassStatement(p, id, keyword, methodName);
    ClassOfOneMethod(st, s, m);
  }

  /** Inside a class without a superclass, `super` adds the one error. */
  lemma SuperWithoutSuperclassStatement(p: State, id: nat, keyword: Token, methodName: Token)
    requires p.ctx.inClass && !p.ctx.hasSuperClass
    ensures ResolveStmts(p, [ExpressionStatement(Expr.Super(id, keyword, methodName))])
            == Report(p, keyword, SuperWithoutSuperclass)
  {
    SuperWithoutSuperclassExpr(p, id, keyword, methodName);
    ExpressionStatementResolves(p, Expr.Super(id, keyword, methodName));
  }

  lemma SuperWithoutSuperclassExpr(p: State, id: nat, keyword: Token, methodName: Token)
    requires p.ctx.inClass && !p.ctx.hasSuperClass
    ensures ResolveExpr(p, Expr.Super(id, keyword, methodName)) == Report(p, keyword, SuperWithoutSuperclass)
  {
  }

  // ---------------------------------------------------------------------------
  // Declarations

  /** Every name of the innermost scope is defined, as it is between statements. */
  predicate Settled(st: State)
  {
    st.scopes != [] && AllDefined(st.scopes[|st.scopes| - 1])
  }

  predicate AllDefined(scope: map<string, bool>)
  {
    forall k :: k in scope ==> scope[k]
  }

  /** In a scope, `var name = ref;` reads its own variable in its initializer exactly
      when `ref` names the variable being declared. */
  lemma OwnInitializerReported(st: State, name: Token, id: nat, ref: Token)
    requires Settled(st)
    ensures var r := ResolveStmt(st, VarDeclaration(name, Some(Variable(id, ref))));
      Reported(st, r, OwnInitializer) <==> ref.lexeme == name.lexeme
  {
    ReadAfterDeclare(st, name.lexeme, id, ref);
    VarDeclarationErrors(st, name, id, ref);
    OwnInitializerIn(st, ResolveStmt(st, VarDeclaration(name, Some(Variable(id, ref)))),
                     DeclaredErrors(st, name.lexeme), ref.lexeme == name.lexeme, ref);
  }

  /** Errors that add at most a duplicate declaration and, when `own`, an own
      initializer report the latter exactly when `own`. */
  lemma OwnInitializerIn(st: State, r: State, dup: seq<ResolveError>, own: bool, ref: Token)
    requires dup == [] || dup == [ResolveError(None, DuplicateDeclaration)]
    requires r.errors == st.errors + dup + (if own then [ResolveError(Some(ref), OwnInitializer)] else [])
    ensures Reported(st, r, OwnInitializer) <==> own
  {
    assert NewErrors(st, r) == dup + (if own then [ResolveError(Some(ref), OwnInitializer)] else []);
  }

  /** `var name = ref;` ends with the errors of reading `ref` after declaring `name`. */
  lemma VarDeclarationErrors(st: State, name: Token, id: nat, ref: Token)
    ensures ResolveStmt(st, VarDeclaration(name, Some(Variable(id, ref)))).errors
            == VisitVariable(Declare(st, name.lexeme), id, ref).errors
  {
  }

  /** What `declare` reports. */
  function DeclaredErrors(st: State, x: string): seq<ResolveError>
    requires st.scopes != []
  {
    if x in st.scopes[|st.scopes| - 1] then [ResolveError(None, DuplicateDeclaration)] else []
  }

  /** Reading `ref` right after declaring `x` in a settled scope reports an own
      initializer exactly when `ref` is `x`. */
  lemma ReadAfterDeclare(st: State, x: string, id: nat, ref: Token)
    requires Settled(st)
    ensures var read := VisitVariable(Declare(st, x), id, ref);
      read.errors == st.errors + DeclaredErrors(st, x)
                     + (if ref.lexeme == x then [ResolveError(Some(ref), OwnInitializer)] else [])
  {
    var declared := Declare(st, x);
    var top := declared.scopes[|declared.scopes| - 1];
    assert top == st.scopes[|st.scopes| - 1][x := false];
    assert declared.errors == st.errors + DeclaredErrors(st, x);
    assert (ref.lexeme in top && top[ref.lexeme] == false) <==> ref.lexeme == x;
  }

  /** At the global level nothing is checked or recorded: `var name = name;` leaves
      the state as it was. */
  lemma OwnInitializerAtGlobalLevel(st: State, name: Token, id: nat, ref: Token)
    requires st.scopes == []
    ensures ResolveStmt(st, VarDeclaration(name, Some(Variable(id, ref)))) == st
  {
    assert Distance(st.scopes, ref.lexeme) == None;
  }

  /** In a scope, a declaration is reported as a duplicate exactly when that scope
      already has the name. */
  lemma RedeclarationReported(st: State, name: Token)
    requires st.scopes != []
    ensures var r := ResolveStmt(st, VarDeclaration(name, None));
      Reported(st, r, DuplicateDeclaration) <==> name.lexeme in st.scopes[|st.scopes| - 1]
  {
    var r := ResolveStmt(st, VarDeclaration(name, None));
    if name.lexeme in st.scopes[|st.scopes| - 1] {
      assert NewErrors(st, r) == [ResolveError(None, DuplicateDeclaration)];
    } else {
      assert NewErrors(st, r) == [];
    }
  }

  /** The block `{ var a; var a; }` reports the second declaration. */
  lemma RedeclarationInBlock(st: State, name: Token)
    ensures var r := ResolveStmt(st, Block([VarDeclaration(name, None), VarDeclaration(name, None)]));
      ResolveError(None, DuplicateDeclaration) in r.errors
  {
    var v := VarDeclaration(name, None);
    var ss := [v, v];
    var inner := BeginScope(st);
    var first := ResolveStmt(inner, v);
    assert first == Define(Declare(inner, name.lexeme), name.lexeme);
    assert name.lexeme in first.scopes[|first.scopes| - 1];
    var second := ResolveStmt(first, v);
    assert second.errors[|second.errors| - 1] == ResolveError(None, DuplicateDeclaration);
    assert ss[..1] == [v] && ss[..1][..0] == [];
    assert ResolveStmts(inner, ss[..1]) == first by {
      assert ResolveStmts(inner, ss[..1]) == ResolveStmt(ResolveStmts(inner, []), v);
    }
    assert ResolveStmts(inner, ss) == second;
    assert ResolveStmt(st, Block(ss)).errors == second.errors;
  }

  /** At the global level the same name may be declared again. */
  lemma RedeclarationAtGlobalLevel(st: State, name: Token)
    requires st.scopes == []
    ensures ResolveProgram(st, Program([VarDeclaration(name, None), VarDeclaration(name, None)])) == st
  {
    var v := VarDeclaration(name, None);
    var ss := [v, v];
    assert ResolveStmt(st, v) == st;
    assert ss[..1] == [v] && ss[..1][..0] == [];
    assert ResolveStmts(st, ss[..1]) == st by {
      assert ResolveStmts(st, ss[..1]) == ResolveStmt(ResolveStmts(st, []), v);
    }
  }
}
