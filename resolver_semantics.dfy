/** The resolver of bin/resolver.js as functions on its state. Each `visit*` method of
    the source is a function from the state before the visit to the state after it;
    the `Resolver` class of module Resolving is proved to follow these functions step
    for step, and module ResolverProperties proves what they promise. */
module ResolverSemantics {
  import opened Wrappers
  import opened Tokens
  import opened ResolverSyntax

  /** A reported error: the token the report names, and the message. The duplicate
      declaration report passes a bare name string instead of a token, so its line and
      lexeme are undefined: `at` is None there. The source reports and carries on; it
      never throws these. */
  datatype ResolveError = ResolveError(at: Option<Token>, message: string)

  const DuplicateDeclaration := "Variable with this name already declared in this scope."
  const OwnInitializer := "Cannot read local variable in its own initializer."
  const SelfInheritance := "A class cannot inherit from itself."
  const ReturnAtTopLevel := "Cannot return from top-level code."
  const ReturnFromInitializer := "Cannot return a value from an initializer."
  const BreakOutsideLoop := "Break must be inside a loop"
  const ThisOutsideClass := "Cannot use 'this' outside of a class."
  const SuperOutsideClass := "Cannot use 'super' outside of a class."
  const SuperWithoutSuperclass := "Cannot use 'super' in a class with no superclass."

  /** The flags and the loop counter that the visitors save, change and restore. */
  datatype Context = Context(inFunction: bool, inClass: bool, hasSuperClass: bool,
                             inInitializer: bool, loopLevel: nat)

  /** The resolver's state: the scope stack, outermost first as in the stack's array,
      each scope mapping a name to whether its definition is complete; the context; the
      distances handed to `interpreter.resolve`, by node; and the errors reported. */
  datatype State = State(scopes: seq<map<string, bool>>, ctx: Context,
                         locals: map<nat, nat>, errors: seq<ResolveError>)

  /** A new resolver: no scope, every flag off, the interpreter's distances so far. */
  function Initial(locals: map<nat, nat>): State
  {
    State([], Context(false, false, false, false, 0), locals, [])
  }

  /** What resolving an expression, a function or a block may change: distances and
      errors may only be added; the scopes and the context are as they were. */
  predicate Grows(st: State, r: State)
  {
    r.scopes == st.scopes && r.ctx == st.ctx
    && st.errors <= r.errors && st.locals.Keys <= r.locals.Keys
  }

  /** What resolving a statement or a declaration may change: as `Grows`, except that
      the innermost scope may bind new names. The height of the stack and every outer
      scope are as they were. */
  predicate GrowsInnermost(st: State, r: State)
  {
    |r.scopes| == |st.scopes| && r.ctx == st.ctx
    && st.errors <= r.errors && st.locals.Keys <= r.locals.Keys
    && (forall i :: 0 <= i < |st.scopes| - 1 ==> r.scopes[i] == st.scopes[i])
    && (|st.scopes| > 0 ==> st.scopes[|st.scopes| - 1].Keys <= r.scopes[|st.scopes| - 1].Keys)
  }

  function Report(st: State, at: Token, message: string): State
  {
    st.(errors := st.errors + [ResolveError(Some(at), message)])
  }

  // ---------------------------------------------------------------------------
  // Scopes

  /** `beginScope`: push an empty scope. */
  function BeginScope(st: State): State
  {
    st.(scopes := st.scopes + [map[]])
  }

  /** `endScope`: pop the innermost scope. Every call follows a `beginScope`, so the
      stack's throw on an empty stack cannot happen here. */
  function EndScope(st: State): State
    requires |st.scopes| > 0
  {
    st.(scopes := st.scopes[..|st.scopes| - 1])
  }

  /** `declare`: mark the name not ready in the innermost scope, reporting a name that
      scope already has; nothing at the global level. */
  function Declare(st: State, name: string): State
  {
    if st.scopes == [] then st
    else
      var top := st.scopes[|st.scopes| - 1];
      var reported := if name in top then st.errors + [ResolveError(None, DuplicateDeclaration)] else st.errors;
      st.(scopes := st.scopes[|st.scopes| - 1 := top[name := false]], errors := reported)
  }

  /** `define`: mark the name ready in the innermost scope; nothing at the global level. */
  function Define(st: State, name: string): State
  {
    if st.scopes == [] then st
    else st.(scopes := st.scopes[|st.scopes| - 1 := st.scopes[|st.scopes| - 1][name := true]])
  }

  /** The number of scopes between the innermost one and the innermost one that binds
      `name`, or None when none binds it. */
  function Distance(scopes: seq<map<string, bool>>, name: string): (d: Option<nat>)
    ensures d.Some? ==> d.value < |scopes| && name in scopes[|scopes| - 1 - d.value]
    ensures d.Some? ==> forall j :: |scopes| - 1 - d.value < j < |scopes| ==> name !in scopes[j]
    ensures d.None? ==> forall j :: 0 <= j < |scopes| ==> name !in scopes[j]
    decreases |scopes|
  {
    if scopes == [] then None
    else if name in scopes[|scopes| - 1] then Some(0)
    else match Distance(scopes[..|scopes| - 1], name)
      case None => None
      case Some(d) => Some(d + 1)
  }

  /** Conversely, the scope found by searching from the innermost out gives the distance. */
  lemma DistanceIsInnermost(scopes: seq<map<string, bool>>, name: string, d: nat)
    requires d < |scopes| && name in scopes[|scopes| - 1 - d]
    requires forall j :: |scopes| - 1 - d < j < |scopes| ==> name !in scopes[j]
    ensures Distance(scopes, name) == Some(d)
  {
  }

  /** A name no scope binds is a global. */
  lemma DistanceIsNone(scopes: seq<map<string, bool>>, name: string)
    requires forall j :: 0 <= j < |scopes| ==> name !in scopes[j]
    ensures Distance(scopes, name) == None
  {
  }

  /** `resolveLocal`: hand the node's distance to the interpreter; nothing for a global. */
  function ResolveLocal(st: State, id: nat, name: Token): State
  {
    match Distance(st.scopes, name.lexeme)
    case None => st
    case Some(d) => st.(locals := st.locals[id := d])
  }

  // ---------------------------------------------------------------------------
  // Expressions

  /** `visitVariable`: a name whose innermost entry is not ready is read in its own
      initializer; the reference is resolved either way. */
  function VisitVariable(st: State, id: nat, name: Token): State
  {
    var checked :=
      if st.scopes != [] && name.lexeme in st.scopes[|st.scopes| - 1]
         && st.scopes[|st.scopes| - 1][name.lexeme] == false
      then Report(st, name, OwnInitializer) else st;
    ResolveLocal(checked, id, name)
  }

  /** `visitThisExpression`. */
  function VisitThis(st: State, id: nat, keyword: Token): State
  {
    if !st.ctx.inClass then Report(st, keyword, ThisOutsideClass)
    else ResolveLocal(st, id, keyword)
  }

  /** `visitSuperExpression`. */
  function VisitSuper(st: State, id: nat, keyword: Token): State
  {
    if !st.ctx.inClass then Report(st, keyword, SuperOutsideClass)
    else if !st.ctx.hasSuperClass then Report(st, keyword, SuperWithoutSuperclass)
    else ResolveLocal(st, id, keyword)
  }

  /** `e.accept(resolver)` for an expression: operands left to right. */
  function ResolveExpr(st: State, e: Expr): (r: State)
    ensures Grows(st, r)
    decreases e
  {
    match e
    case Literal(_) => st
    case Grouping(x) => ResolveExpr(st, x)
    case Unary(_, x) => ResolveExpr(st, x)
    case Binary(left, _, right) => ResolveExpr(ResolveExpr(st, left), right)
    case Logical(left, _, right) => ResolveExpr(ResolveExpr(st, left), right)
    case Variable(id, name) => VisitVariable(st, id, name)
    case Assignment(id, name, value) => ResolveLocal(ResolveExpr(st, value), id, name)
    case Call(callee, args) => ResolveExprs(ResolveExpr(st, callee), args)
    case Getter(obj, _) => ResolveExpr(st, obj)
    case Setter(obj, _, value) => ResolveExpr(ResolveExpr(st, obj), value)
    case This(id, keyword) => VisitThis(st, id, keyword)
    case Super(id, keyword, _) => VisitSuper(st, id, keyword)
  }

  /** `args.forEach(a => a.accept(resolver))`. */
  function ResolveExprs(st: State, es: seq<Expr>): (r: State)
    ensures Grows(st, r)
    decreases es
  {
    if es == [] then st else ResolveExpr(ResolveExprs(st, es[..|es| - 1]), es[|es| - 1])
  }

  // ---------------------------------------------------------------------------
  // Statements

  /** `visitVarDeclaration`: declared before the initializer is resolved, defined after. */
  function VisitVarDeclaration(st: State, name: Token, val: Option<Expr>): (r: State)
    ensures GrowsInnermost(st, r)
  {
    var declared := Declare(st, name.lexeme);
    var initialized := if val.Some? then ResolveExpr(declared, val.value) else declared;
    Define(initialized, name.lexeme)
  }

  /** `visitReturnStatement`. */
  function VisitReturn(st: State, keyword: Token, value: Option<Expr>): (r: State)
    ensures Grows(st, r)
  {
    var checked := if !st.ctx.inFunction then Report(st, keyword, ReturnAtTopLevel) else st;
    if value.None? then checked
    else
      var inInit := if checked.ctx.inInitializer then Report(checked, keyword, ReturnFromInitializer) else checked;
      ResolveExpr(inInit, value.value)
  }

  /** `visitBreakStatement`. */
  function VisitBreak(st: State, keyword: Token): State
  {
    if st.ctx.loopLevel == 0 then Report(st, keyword, BreakOutsideLoop) else st
  }

  /** The parameters of `resolveFunction`, each declared and defined. */
  function DeclareParams(st: State, params: seq<Token>): (r: State)
    ensures GrowsInnermost(st, r)
    decreases |params|
  {
    if params == [] then st
    else
      var before := DeclareParams(st, params[..|params| - 1]);
      var name := params[|params| - 1].lexeme;
      Define(Declare(before, name), name)
  }

  /** `s.accept(resolver)` for a statement. */
  function ResolveStmt(st: State, s: Stmt): (r: State)
    ensures GrowsInnermost(st, r)
    decreases s, 2
  {
    match s
    case Block(_) => VisitBlock(st, s)
    case VarDeclaration(name, val) => VisitVarDeclaration(st, name, val)
    case FunDeclaration(f) => ResolveFunction(Define(Declare(st, f.name.lexeme), f.name.lexeme), f)
    case ClassDeclaration(_, _, _) => VisitClass(st, s)
    case ExpressionStatement(e) => ResolveExpr(st, e)
    case If(_, _, _) => VisitIf(st, s)
    case PrintStatement(e) => ResolveExpr(st, e)
    case Return(keyword, value) => VisitReturn(st, keyword, value)
    case While(_, _) => VisitWhile(st, s)
    case Break(keyword) => VisitBreak(st, keyword)
  }

  /** Statements in order: `forEach(d => d.accept(resolver))`. */
  function ResolveStmts(st: State, ss: seq<Stmt>): (r: State)
    ensures GrowsInnermost(st, r)
    decreases ss
  {
    if ss == [] then st else ResolveStmt(ResolveStmts(st, ss[..|ss| - 1]), ss[|ss| - 1])
  }

  /** `visitBlockStatement`: its declarations in a scope of their own. */
  function VisitBlock(st: State, s: Stmt): (r: State)
    requires s.Block?
    ensures Grows(st, r)
    decreases s, 0
  {
    EndScope(ResolveStmts(BeginScope(st), s.declarations))
  }

  /** `visitIfStatement`. */
  function VisitIf(st: State, s: Stmt): (r: State)
    requires s.If?
    ensures GrowsInnermost(st, r)
    decreases s, 0
  {
    var afterThen := ResolveStmt(ResolveExpr(st, s.condition), s.thenBranch);
    if s.elseBranch.Some? then ResolveStmt(afterThen, s.elseBranch.value) else afterThen
  }

  /** `visitWhileStatement`: condition and body one loop level deeper. */
  function VisitWhile(st: State, s: Stmt): (r: State)
    requires s.While?
    ensures GrowsInnermost(st, r)
    decreases s, 0
  {
    var deeper := st.(ctx := st.ctx.(loopLevel := st.ctx.loopLevel + 1));
    var after := ResolveStmt(ResolveExpr(deeper, s.condition), s.body);
    after.(ctx := after.ctx.(loopLevel := st.ctx.loopLevel))
  }

  /** `resolveFunction`: inside a function, one scope for the parameters and the body. */
  function ResolveFunction(st: State, f: Function): (r: State)
    ensures Grows(st, r)
    decreases f, 0
  {
    var entered := BeginScope(st.(ctx := st.ctx.(inFunction := true)));
    var body := ResolveStmts(DeclareParams(entered, f.params), f.body);
    var left := EndScope(body);
    left.(ctx := left.ctx.(inFunction := st.ctx.inFunction))
  }

  /** One method of `visitClassDeclaration`: an initializer when it is named `init`. */
  function VisitMethod(st: State, m: Function): (r: State)
    ensures Grows(st, r)
    decreases m, 1
  {
    var marked := if m.name.lexeme == "init" then st.(ctx := st.ctx.(inInitializer := true)) else st;
    var after := ResolveFunction(marked, m);
    after.(ctx := after.ctx.(inInitializer := st.ctx.inInitializer))
  }

  function ResolveMethods(st: State, ms: seq<Function>): (r: State)
    ensures Grows(st, r)
    decreases ms
  {
    if ms == [] then st else VisitMethod(ResolveMethods(st, ms[..|ms| - 1]), ms[|ms| - 1])
  }

  /** `visitClassDeclaration`: inside a class and, until a superclass is seen, without
      one; the name declared, the methods in their scopes; both flags restored. */
  function VisitClass(st: State, s: Stmt): (r: State)
    requires s.ClassDeclaration?
    ensures GrowsInnermost(st, r)
    decreases s, 1
  {
    var flagged := st.(ctx := st.ctx.(inClass := true, hasSuperClass := false));
    var body := ClassBody(DeclareClass(flagged, s), s);
    body.(ctx := body.ctx.(inClass := st.ctx.inClass, hasSuperClass := st.ctx.hasSuperClass))
  }

  /** The class name declared and defined, then the self-inheritance check. */
  function DeclareClass(st: State, s: Stmt): (r: State)
    requires s.ClassDeclaration?
    ensures GrowsInnermost(st, r)
  {
    var name := s.name.lexeme;
    var declared := Define(Declare(st, name), name);
    if s.superclass.Some? && name == s.superclass.value.name.lexeme
    then Report(declared, s.superclass.value.name, SelfInheritance) else declared
  }

  /** The superclass reference resolved, then a scope that binds `super`. */
  function SuperScope(st: State, sc: Superclass): (r: State)
    ensures |r.scopes| == |st.scopes| + 1 && r.scopes[..|st.scopes|] == st.scopes
    ensures r.ctx == st.ctx && st.errors <= r.errors && st.locals.Keys <= r.locals.Keys
  {
    Define(BeginScope(ResolveExpr(st, SuperclassVariable(sc))), "super")
  }

  /** With a superclass, the `super` scope; then the scope that binds `this` around the
      methods; both popped again. */
  function ClassBody(st: State, s: Stmt): (r: State)
    requires s.ClassDeclaration?
    ensures r.scopes == st.scopes && st.errors <= r.errors && st.locals.Keys <= r.locals.Keys
    ensures r.ctx == if s.superclass.Some? then st.ctx.(hasSuperClass := true) else st.ctx
    decreases s, 0
  {
    var withSuper :=
      if s.superclass.Some? then SuperScope(st.(ctx := st.ctx.(hasSuperClass := true)), s.superclass.value)
      else st;
    var methods := ResolveMethods(Define(BeginScope(withSuper), "this"), s.methods);
    var left := EndScope(methods);
    if s.superclass.Some? then EndScope(left) else left
  }

  /** `visitProgram`: the declarations in order, with no scope of their own. */
  function ResolveProgram(st: State, p: Program): (r: State)
    ensures GrowsInnermost(st, r)
  {
    ResolveStmts(st, p.declarations)
  }
}
