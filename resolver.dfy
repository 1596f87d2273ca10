/** The resolver of bin/resolver.js as the source writes it: a `Stack` of scopes whose
    innermost one `declare` and `define` update in place, flag fields and a loop
    counter that the visitors save, change and restore, and a descending search in
    `resolveLocal`. Every method is proved to take the resolver's state exactly as the
    function of module ResolverSemantics with the same name does. */
module Resolving {
  import opened Wrappers
  import opened Tokens
  import opened ResolverSyntax
  import Spec = ResolverSemantics

  /** `Stack` (bin/resolver.js:15-37): an array pushed and popped at its end. */
  class Stack<T> {
    var stack: seq<T>

    constructor()
      ensures stack == []
    {
      stack := [];
    }

    method Push(s: T)
      modifies this
      ensures stack == old(stack) + [s]
    {
      stack := stack + [s];
    }

    /** `pop`: the last element pushed, or the throw on an empty stack. */
    method Pop() returns (r: Result<T, string>)
      modifies this
      ensures old(stack) == [] ==> r == Failure("Pop of empty scope stack") && stack == old(stack)
      ensures old(stack) != [] ==>
        r == Success(old(stack)[|old(stack)| - 1]) && stack == old(stack)[..|old(stack)| - 1]
    {
      if Empty() {
        return Failure("Pop of empty scope stack");
      }
      r := Success(stack[|stack| - 1]);
      stack := stack[..|stack| - 1];
    }

    /** `peek`: the last element pushed, or the throw on an empty stack. */
    function Peek(): (r: Result<T, string>)
      reads this
      ensures r.Failure? <==> stack == []
      ensures r.Failure? ==> r.error == "Peek of empty scope stack"
      ensures r.Success? ==> r.value == stack[|stack| - 1]
    {
      if Empty() then Failure("Peek of empty scope stack") else Success(stack[|stack| - 1])
    }

    predicate Empty()
      reads this
    {
      |stack| == 0
    }
  }

  /** `Resolver(interpreter)` (bin/resolver.js:39-273). The interpreter's `resolve`
      callback is the `locals` map the resolver writes; `error`'s reports are the
      `errors` list. */
  class Resolver {
    /** Each scope is a dictionary `{}` from a name to whether its definition is
        complete; only the stack refers to it, so it is held here as a map value. */
    const scopes: Stack<map<string, bool>>
    var inFunction: bool
    var inClass: bool
    var hasSuperClass: bool
    var inInitializer: bool
    var loopLevel: nat
    var locals: map<nat, nat>
    var errors: seq<Spec.ResolveError>

    /** The resolver's state as module ResolverSemantics describes it. */
    ghost function State(): Spec.State
      reads this, scopes
    {
      Spec.State(scopes.stack, Spec.Context(inFunction, inClass, hasSuperClass, inInitializer, loopLevel),
                 locals, errors)
    }

    constructor(locals: map<nat, nat>)
      ensures State() == Spec.Initial(locals)
    {
      scopes := new Stack();
      inFunction := false;
      inClass := false;
      hasSuperClass := false;
      inInitializer := false;
      loopLevel := 0;
      this.locals := locals;
      errors := [];
    }

    /** `error`: report and carry on. */
    method Error(at: Token, message: string)
      modifies this
      ensures State() == Spec.Report(old(State()), at, message)
    {
      errors := errors + [Spec.ResolveError(Some(at), message)];
    }

    // -------------------------------------------------------------------------
    // Scopes

    method BeginScope()
      modifies scopes
      ensures State() == Spec.BeginScope(old(State()))
    {
      scopes.Push(map[]);
    }

    /** `endScope`; every call follows a `beginScope`. */
    method EndScope()
      requires |scopes.stack| > 0
      modifies scopes
      ensures State() == Spec.EndScope(old(State()))
    {
      var _ := scopes.Pop();
    }

    /** `declare`: the innermost scope, as `peek` returns it, is updated in place. */
    method Declare(name: string)
      modifies this, scopes
      ensures State() == Spec.Declare(old(State()), name)
    {
      if scopes.Empty() {
        return;
      }
      var scope := scopes.Peek().value;
      if name in scope {
        errors := errors + [Spec.ResolveError(None, Spec.DuplicateDeclaration)];
      }
      scopes.stack := scopes.stack[|scopes.stack| - 1 := scope[name := false]];
    }

    method Define(name: string)
      modifies scopes
      ensures State() == Spec.Define(old(State()), name)
    {
      if scopes.Empty() {
        return;
      }
      var scope := scopes.Peek().value;
      scopes.stack := scopes.stack[|scopes.stack| - 1 := scope[name := true]];
    }

    /** `resolveLocal`: search the scopes from the innermost out. */
    method ResolveLocal(id: nat, name: Token)
      modifies this
      ensures State() == Spec.ResolveLocal(old(State()), id, name)
    {
      ghost var st := State();
      var i := |scopes.stack|;
      while i > 0
        invariant 0 <= i <= |scopes.stack|
        invariant forall j :: i <= j < |scopes.stack| ==> name.lexeme !in scopes.stack[j]
        invariant unchanged(this)
      {
        i := i - 1;
        if name.lexeme in scopes.stack[i] {
          Spec.DistanceIsInnermost(scopes.stack, name.lexeme, |scopes.stack| - 1 - i);
          locals := locals[id := |scopes.stack| - 1 - i];
          return;
        }
      }
      Spec.DistanceIsNone(scopes.stack, name.lexeme);
    }

    // -------------------------------------------------------------------------
    // Expressions

    /** `resolve(e)`, that is `e.accept(this)`: the visitors that only visit their
        operands are written out here. */
    method Resolve(e: Expr)
      modifies this
      ensures State() == Spec.ResolveExpr(old(State()), e)
      decreases e, 1
    {
      match e
      case Literal(_) =>
      case Grouping(x) => Resolve(x);
      case Unary(_, x) => Resolve(x);
      case Binary(left, _, right) => Resolve(left); Resolve(right);
      case Logical(left, _, right) => Resolve(left); Resolve(right);
      case Variable(_, _) => VisitVariable(e);
      case Assignment(_, _, _) => VisitAssignment(e);
      case Call(_, _) => VisitCall(e);
      case Getter(obj, _) => Resolve(obj);
      case Setter(obj, _, value) => Resolve(obj); Resolve(value);
      case This(_, _) => VisitThisExpression(e);
      case Super(_, _, _) => VisitSuperExpression(e);
    }

    method VisitVariable(e: Expr)
      requires e.Variable?
      modifies this
      ensures State() == Spec.ResolveExpr(old(State()), e)
    {
      if !scopes.Empty() {
        var top := scopes.Peek().value;
        if e.name.lexeme in top && top[e.name.lexeme] == false {
          Error(e.name, Spec.OwnInitializer);
        }
      }
      ResolveLocal(e.id, e.name);
    }

    method VisitAssignment(e: Expr)
      requires e.Assignment?
      modifies this
      ensures State() == Spec.ResolveExpr(old(State()), e)
      decreases e, 0
    {
      Resolve(e.value);
      ResolveLocal(e.id, e.name);
    }

    method VisitCall(e: Expr)
      requires e.Call?
      modifies this
      ensures State() == Spec.ResolveExpr(old(State()), e)
      decreases e, 0
    {
      Resolve(e.callee);
      ghost var called := State();
      for i := 0 to |e.args|
        invariant State() == Spec.ResolveExprs(called, e.args[..i])
      {
        assert e.args[..i + 1][..i] == e.args[..i];
        Resolve(e.args[i]);
      }
      assert e.args[..|e.args|] == e.args;
    }

    method VisitThisExpression(e: Expr)
      requires e.This?
      modifies this
      ensures State() == Spec.ResolveExpr(old(State()), e)
    {
      if inClass == false {
        Error(e.keyword, Spec.ThisOutsideClass);
      } else {
        ResolveLocal(e.id, e.keyword);
      }
    }

    method VisitSuperExpression(e: Expr)
      requires e.Super?
      modifies this
      ensures State() == Spec.ResolveExpr(old(State()), e)
    {
      if inClass == false {
        Error(e.keyword, Spec.SuperOutsideClass);
      } else if hasSuperClass == false {
        Error(e.keyword, Spec.SuperWithoutSuperclass);
      } else {
        ResolveLocal(e.id, e.keyword);
      }
    }

    // -------------------------------------------------------------------------
    // Statements

    /** `s.accept(this)` for a statement. */
    method ResolveStatement(s: Stmt)
      modifies this, scopes
      ensures State() == Spec.ResolveStmt(old(State()), s)
      decreases s, 2
    {
      match s
      case Block(_) => VisitBlockStatement(s);
      case VarDeclaration(_, _) => VisitVarDeclaration(s);
      case FunDeclaration(_) => VisitFunDeclaration(s);
      case ClassDeclaration(_, _, _) => VisitClassDeclaration(s);
      case ExpressionStatement(e) => Resolve(e);
      case If(_, _, _) => VisitIfStatement(s);
      case PrintStatement(e) => Resolve(e);
      case Return(_, _) => VisitReturnStatement(s);
      case While(_, _) => VisitWhileStatement(s);
      case Break(_) => VisitBreakStatement(s);
    }

    /** `forEach(d => d.accept(this))` over a list of statements. */
    method ResolveStatements(ss: seq<Stmt>)
      modifies this, scopes
      ensures State() == Spec.ResolveStmts(old(State()), ss)
      decreases ss
    {
      for i := 0 to |ss|
        invariant State() == Spec.ResolveStmts(old(State()), ss[..i])
      {
        assert ss[..i + 1][..i] == ss[..i];
        ResolveStatement(ss[i]);
      }
      assert ss[..|ss|] == ss;
    }

    /** `resolveFunction`: inside a function, the parameters and the body in a scope
        of their own. */
    method ResolveFunction(f: Function)
      modifies this, scopes
      ensures State() == Spec.ResolveFunction(old(State()), f)
      decreases f, 0
    {
      ghost var st := State();
      var prevInFunction := inFunction;
      inFunction := true;
      BeginScope();
      DeclareParams(f.params);
      ResolveStatements(f.body);
      EndScope();
      ghost var left := State();
      assert Spec.ResolveFunction(st, f) == left.(ctx := left.ctx.(inFunction := st.ctx.inFunction));
      inFunction := prevInFunction;
    }

    /** `f.params.forEach(...)`: each parameter declared and defined. */
    method DeclareParams(params: seq<Token>)
      modifies this, scopes
      ensures State() == Spec.DeclareParams(old(State()), params)
    {
      for i := 0 to |params|
        invariant State() == Spec.DeclareParams(old(State()), params[..i])
      {
        assert params[..i + 1][..i] == params[..i];
        var name := params[i].lexeme;
        Declare(name);
        Define(name);
      }
      assert params[..|params|] == params;
    }

    method VisitBlockStatement(s: Stmt)
      requires s.Block?
      modifies this, scopes
      ensures State() == Spec.ResolveStmt(old(State()), s)
      decreases s, 1
    {
      BeginScope();
      ResolveStatements(s.declarations);
      EndScope();
    }

    method VisitVarDeclaration(s: Stmt)
      requires s.VarDeclaration?
      modifies this, scopes
      ensures State() == Spec.ResolveStmt(old(State()), s)
    {
      var name := s.name.lexeme;
      Declare(name);
      if s.val.Some? {
        Resolve(s.val.value);
      }
      Define(name);
    }

    method VisitFunDeclaration(s: Stmt)
      requires s.FunDeclaration?
      modifies this, scopes
      ensures State() == Spec.ResolveStmt(old(State()), s)
      decreases s, 1
    {
      var name := s.decl.name.lexeme;
      Declare(name);
      Define(name);
      ResolveFunction(s.decl);
    }

    /** `visitClassDeclaration`: the flags saved and set, the name declared, the
        scopes of the class body, the flags restored. */
    method VisitClassDeclaration(s: Stmt)
      requires s.ClassDeclaration?
      modifies this, scopes
      ensures State() == Spec.VisitClass(old(State()), s)
      decreases s, 1
    {
      ghost var st := State();
      var prevInClass, prevHasSuperClass := inClass, hasSuperClass;
      inClass, hasSuperClass := true, false;
      assert State() == st.(ctx := st.ctx.(inClass := true, hasSuperClass := false));
      DeclareClass(s);
      ClassScopes(s);
      ghost var body := State();
      ghost var restored := body.(ctx := body.ctx.(inClass := st.ctx.inClass, hasSuperClass := st.ctx.hasSuperClass));
      assert Spec.VisitClass(st, s) == restored;
      hasSuperClass, inClass := prevHasSuperClass, prevInClass;
    }

    /** The class name declared and defined, then the report of a class that
        names itself as its superclass. */
    method DeclareClass(s: Stmt)
      requires s.ClassDeclaration?
      modifies this, scopes
      ensures State() == Spec.DeclareClass(old(State()), s)
    {
      var name := s.name.lexeme;
      Declare(name);
      Define(name);
      if s.superclass.Some? && name == s.superclass.value.name.lexeme {
        Error(s.superclass.value.name, Spec.SelfInheritance);
      }
    }

    /** The part of `visitClassDeclaration` from the superclass on: with a superclass,
        the reference resolved and a scope binding `super`; then a scope binding `this`
        around the methods; both scopes popped again. */
    method ClassScopes(s: Stmt)
      requires s.ClassDeclaration?
      modifies this, scopes
      ensures State() == Spec.ClassBody(old(State()), s)
      decreases s, 0
    {
      if s.superclass.Some? {
        hasSuperClass := true;
        Resolve(SuperclassVariable(s.superclass.value));
        BeginScope();
        Define("super");
      }
      BeginScope();
      Define("this");
      ResolveMethods(s.methods);
      EndScope();
      if s.superclass.Some? {
        EndScope();
      }
    }

    /** `c.methods.forEach(...)`: each method resolved as a function, as an initializer
        when it is named `init`. */
    method ResolveMethods(ms: seq<Function>)
      modifies this, scopes
      ensures State() == Spec.ResolveMethods(old(State()), ms)
      decreases ms
    {
      for i := 0 to |ms|
        invariant State() == Spec.ResolveMethods(old(State()), ms[..i])
      {
        assert ms[..i + 1][..i] == ms[..i];
        var m := ms[i];
        var prevInInitializer := inInitializer;
        if m.name.lexeme == "init" {
          inInitializer := true;
        }
        ResolveFunction(m);
        inInitializer := prevInInitializer;
      }
      assert ms[..|ms|] == ms;
    }

    method VisitIfStatement(s: Stmt)
      requires s.If?
      modifies this, scopes
      ensures State() == Spec.ResolveStmt(old(State()), s)
      decreases s, 1
    {
      Resolve(s.condition);
      ResolveStatement(s.thenBranch);
      if s.elseBranch.Some? {
        ResolveStatement(s.elseBranch.value);
      }
    }

    method VisitReturnStatement(s: Stmt)
      requires s.Return?
      modifies this
      ensures State() == Spec.ResolveStmt(old(State()), s)
    {
      if inFunction == false {
        Error(s.keyword, Spec.ReturnAtTopLevel);
      }
      if s.value.Some? {
        if inInitializer == true {
          Error(s.keyword, Spec.ReturnFromInitializer);
        }
        Resolve(s.value.value);
      }
    }

    method VisitWhileStatement(s: Stmt)
      requires s.While?
      modifies this, scopes
      ensures State() == Spec.ResolveStmt(old(State()), s)
      decreases s, 1
    {
      var prevLoopLevel := loopLevel;
      loopLevel := loopLevel + 1;
      Resolve(s.condition);
      ResolveStatement(s.body);
      loopLevel := prevLoopLevel;
    }

    method VisitBreakStatement(s: Stmt)
      requires s.Break?
      modifies this
      ensures State() == Spec.ResolveStmt(old(State()), s)
    {
      if loopLevel == 0 {
        Error(s.keyword, Spec.BreakOutsideLoop);
      }
    }

    /** `visitProgram`: the declarations at the global level. */
    method VisitProgram(p: Program)
      modifies this, scopes
      ensures State() == Spec.ResolveProgram(old(State()), p)
    {
      ResolveStatements(p.declarations);
    }
  }
}
