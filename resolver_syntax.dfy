/** The node kinds the resolver of bin/resolver.js visits. The repository's ast.js
    defines only the expression subset the parser builds; the resolver is written
    against the fuller tree below, with the fields its visitors read. Three keep other
    names than the source's because those are Dafny keywords: an `If`'s `then` and
    `else` are `thenBranch` and `elseBranch`, and a getter's or setter's `object` is
    `obj`. */
module ResolverSyntax {
  import opened Wrappers
  import opened Tokens

  /** Expression nodes. `id` stands for the identity of a node object: the key under
      which the interpreter records the distance the resolver computes for it. */
  datatype Expr =
    | Literal(val: Value)
    | Grouping(expr: Expr)
    | Unary(operator: Token, expr: Expr)
    | Binary(left: Expr, operator: Token, right: Expr)
    | Logical(left: Expr, operator: Token, right: Expr)
    | Variable(id: nat, name: Token)
    | Assignment(id: nat, name: Token, value: Expr)
    | Call(callee: Expr, args: seq<Expr>)
    | Getter(obj: Expr, name: Token)
    | Setter(obj: Expr, name: Token, value: Expr)
    | This(id: nat, keyword: Token)
    | Super(id: nat, keyword: Token, methodName: Token)

  /** The `< Name` clause of a class: a variable node. */
  datatype Superclass = Superclass(id: nat, name: Token)

  /** A function or method declaration: its name, parameter tokens and body. */
  datatype Function = Function(name: Token, params: seq<Token>, body: seq<Stmt>)

  /** Statement nodes. */
  datatype Stmt =
    | Block(declarations: seq<Stmt>)
    | VarDeclaration(name: Token, val: Option<Expr>)
    | FunDeclaration(decl: Function)
    | ClassDeclaration(name: Token, superclass: Option<Superclass>, methods: seq<Function>)
    | ExpressionStatement(expr: Expr)
    | If(condition: Expr, thenBranch: Stmt, elseBranch: Option<Stmt>)
    | PrintStatement(expr: Expr)
    | Return(keyword: Token, value: Option<Expr>)
    | While(condition: Expr, body: Stmt)
    | Break(keyword: Token)

  datatype Program = Program(declarations: seq<Stmt>)

  /** What `resolve(c.superclass)` visits. */
  function SuperclassVariable(sc: Superclass): Expr
  {
    Variable(sc.id, sc.name)
  }
}
