/**
 * The syntax trees the parser builds and the later passes walk.
 *
 * Kotlin compares tree nodes by object identity; a Dafny datatype is a value,
 * so the nodes the resolver records a binding distance for (variable reads,
 * assignments, `this` and `super`) carry an explicit `id`. The parser uses the
 * index of the node's name token in the token list, which is unique per node.
 */
module Syntax {
  import opened Lexicon

  datatype Expr =
    | Assign(id: nat, name: Token, value: Expr)
    | Binary(left: Expr, operator: Token, right: Expr)
    | Call(callee: Expr, paren: Token, arguments: seq<Expr>)
    | GetExpr(loxObject: Expr, name: Token)
    | Logical(left: Expr, operator: Token, right: Expr)
    | SetExpr(loxObject: Expr, name: Token, value: Expr)
    | ThisExpr(id: nat, keyword: Token)
    | SuperExpr(id: nat, keyword: Token)
    | Grouping(expression: Expr)
    | Literal(literal: Value)
    | Unary(operator: Token, right: Expr)
    | Variable(id: nat, name: Token)

  /** A class's superclass clause: always a variable read, whose name the resolver compares with the class's. */
  type SuperclassRef = e: Expr | e.Variable? witness Variable(0, Token(Identifier, "", Value.Nil, 0))

  /** A function declaration: also the element type of a class's method list. */
  datatype FunctionDecl = FunctionDecl(name: Token, params: seq<Token>, body: seq<Stmt>)

  datatype Stmt =
    | BlockStmt(statements: seq<Stmt>)
    | ClassStmt(name: Token, superclass: Option<SuperclassRef>, methods: seq<FunctionDecl>)
    | ExpressionStmt(expression: Expr)
    | FunctionStmt(decl: FunctionDecl)
    | VarStmt(name: Token, initializer: Option<Expr>)
    | IfStmt(condition: Expr, thenBranch: Stmt, elseBranch: Option<Stmt>)
    | PrintStmt(expression: Expr)
    | ReturnStmt(keyword: Token, value: Option<Expr>)
    | WhileStmt(condition: Expr, body: Stmt)
}
