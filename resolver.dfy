/**
 * The resolver: a static pass over the syntax tree with a stack of scopes,
 * the enclosing function and class kinds, and the distance table the
 * interpreter reads. Each method is proved to perform the state transition of
 * the `Resolution` function it is named after.
 */
module Resolving {
  import opened Lexicon
  import opened Syntax
  import opened Resolution

  class Resolver {
    var scopes: seq<Scope>
    var currentFunction: FunctionType
    var currentClass: ClassType
    /** The diagnostics reported so far (`KLox.error`). */
    var errors: seq<Diagnostic>
    /** The distances handed to `interpreter.resolve`, by node id. */
    var locals: map<nat, nat>

    /** The fields as one `Resolution.State`. */
    function Snapshot(): State
      reads this
    {
      State(scopes, currentFunction, currentClass, errors, locals)
    }

    constructor ()
      ensures Snapshot() == Initial
    {
      scopes := [];
      currentFunction := NoFunction;
      currentClass := NoClass;
      errors := [];
      locals := map[];
    }

    method Error(token: Token, message: string)
      modifies this
      ensures Snapshot() == Report(old(Snapshot()), token, message)
    {
      errors := errors + [ErrorAt(token, message)];
    }

    // -------------------------------------------------------------------------
    // Scopes.

    method Declare(name: Token)
      modifies this
      ensures Snapshot() == Resolution.Declare(old(Snapshot()), name)
    {
      if |scopes| == 0 {
        return;
      }
      var scope := scopes[|scopes| - 1];
      if name.lexeme in scope {
        Error(name, AlreadyDeclared);
      }
      scopes := scopes[..|scopes| - 1] + [scope[name.lexeme := false]];
    }

    method Define(name: Token)
      modifies this
      ensures Snapshot() == Resolution.Define(old(Snapshot()), name)
    {
      if |scopes| == 0 {
        return;
      }
      scopes := scopes[..|scopes| - 1] + [scopes[|scopes| - 1][name.lexeme := true]];
    }

    /** The downward search for the innermost scope declaring the name. */
    method ResolveLocal(id: nat, name: Token)
      modifies this
      ensures Snapshot() == Resolution.ResolveLocal(old(Snapshot()), id, name.lexeme)
    {
      var i := |scopes| - 1;
      while i >= 0
        invariant -1 <= i < |scopes|
        invariant Snapshot() == old(Snapshot())
        invariant forall j | i < j < |scopes| :: name.lexeme !in scopes[j]
        decreases i
      {
        if name.lexeme in scopes[i] {
          assert InnermostAt(scopes, name.lexeme, i);
          locals := locals[id := |scopes| - 1 - i];
          return;
        }
        i := i - 1;
      }
    }

    method BeginScope()
      modifies this
      ensures Snapshot() == Resolution.BeginScope(old(Snapshot()))
    {
      scopes := scopes + [map[]];
    }

    method EndScope()
      requires |scopes| > 0
      modifies this
      ensures Snapshot() == Resolution.EndScope(old(Snapshot()))
    {
      scopes := scopes[..|scopes| - 1];
    }

    /** `scopes.peek()[key] = true`, for the implicit `this` and `super` bindings. */
    method Bind(key: string)
      requires |scopes| > 0
      modifies this
      ensures Snapshot() == Put(old(Snapshot()), key, true)
    {
      scopes := scopes[..|scopes| - 1] + [scopes[|scopes| - 1][key := true]];
    }

    // -------------------------------------------------------------------------
    // Expressions.

    method ResolveExpr(expr: Expr)
      modifies this
      ensures Snapshot() == Resolution.ResolveExpr(old(Snapshot()), expr)
      decreases expr, 2
    {
      match expr
      case Assign(_, _, _) => VisitAssign(expr);
      case Binary(_, _, _) => VisitBinary(expr);
      case Call(_, _, _) => VisitCall(expr);
      case GetExpr(_, _) => VisitGet(expr);
      case Logical(_, _, _) => VisitLogical(expr);
      case SetExpr(_, _, _) => VisitSet(expr);
      case ThisExpr(_, _) => VisitThis(expr);
      case SuperExpr(_, _) => VisitSuper(expr);
      case Grouping(expression) => ResolveExpr(expression);
      case Literal(_) =>
      case Unary(_, right) => ResolveExpr(right);
      case Variable(_, _) => VisitVariable(expr);
    }

    method VisitAssign(expr: Expr)
      requires expr.Assign?
      modifies this
      ensures Snapshot() == Resolution.ResolveExpr(old(Snapshot()), expr)
      decreases expr, 1
    {
      ResolveExpr(expr.value);
      ResolveLocal(expr.id, expr.name);
    }

    method VisitBinary(expr: Expr)
      requires expr.Binary?
      modifies this
      ensures Snapshot() == Resolution.ResolveExpr(old(Snapshot()), expr)
      decreases expr, 1
    {
      ResolveExpr(expr.left);
      ResolveExpr(expr.right);
    }

    /** The callee, then each argument in order. */
    method VisitCall(expr: Expr)
      requires expr.Call?
      modifies this
      ensures Snapshot() == Resolution.ResolveExpr(old(Snapshot()), expr)
      decreases expr, 1
    {
      ResolveExpr(expr.callee);
      ghost var goal := ResolveExprs(Snapshot(), expr.arguments);
      for i := 0 to |expr.arguments|
        invariant ResolveExprs(Snapshot(), expr.arguments[i..]) == goal
      {
        assert expr.arguments[i..][1..] == expr.arguments[i + 1..];
        ResolveExpr(expr.arguments[i]);
      }
    }

    method VisitGet(expr: Expr)
      requires expr.GetExpr?
      modifies this
      ensures Snapshot() == Resolution.ResolveExpr(old(Snapshot()), expr)
      decreases expr, 1
    {
      ResolveExpr(expr.loxObject);
    }

    method VisitLogical(expr: Expr)
      requires expr.Logical?
      modifies this
      ensures Snapshot() == Resolution.ResolveExpr(old(Snapshot()), expr)
      decreases expr, 1
    {
      ResolveExpr(expr.left);
      ResolveExpr(expr.right);
    }

    /** The assigned value first, then the object. */
    method VisitSet(expr: Expr)
      requires expr.SetExpr?
      modifies this
      ensures Snapshot() == Resolution.ResolveExpr(old(Snapshot()), expr)
      decreases expr, 1
    {
      ResolveExpr(expr.value);
      ResolveExpr(expr.loxObject);
    }

    method VisitSuper(expr: Expr)
      requires expr.SuperExpr?
      modifies this
      ensures Snapshot() == Resolution.ResolveExpr(old(Snapshot()), expr)
    {
      if currentClass == NoClass {
        Error(expr.keyword, SuperOutsideClass);
      } else if currentClass != Subclass {
        Error(expr.keyword, SuperWithoutSuperclass);
      }
      ResolveLocal(expr.id, expr.keyword);
    }

    method VisitThis(expr: Expr)
      requires expr.ThisExpr?
      modifies this
      ensures Snapshot() == Resolution.ResolveExpr(old(Snapshot()), expr)
    {
      if currentClass == NoClass {
        Error(expr.keyword, ThisOutsideClass);
        return;
      }
      ResolveLocal(expr.id, expr.keyword);
    }

    method VisitVariable(expr: Expr)
      requires expr.Variable?
      modifies this
      ensures Snapshot() == Resolution.ResolveExpr(old(Snapshot()), expr)
    {
      if |scopes| > 0 && expr.name.lexeme in scopes[|scopes| - 1] && !scopes[|scopes| - 1][expr.name.lexeme] {
        Error(expr.name, ReadInOwnInitializer);
      }
      assert Snapshot() == Resolution.ResolveVariable(old(Snapshot()), expr.id, expr.name).(locals := locals);
      ResolveLocal(expr.id, expr.name);
    }

    // -------------------------------------------------------------------------
    // Statements.

    /** `resolve(statements)`: each statement in order. */
    method Resolve(statements: seq<Stmt>)
      modifies this
      ensures Snapshot() == ResolveStmts(old(Snapshot()), statements)
      decreases statements, 0
    {
      ghost var goal := ResolveStmts(Snapshot(), statements);
      for i := 0 to |statements|
        invariant ResolveStmts(Snapshot(), statements[i..]) == goal
      {
        assert statements[i..][1..] == statements[i + 1..];
        ResolveStmt(statements[i]);
      }
    }

    method ResolveStmt(stmt: Stmt)
      modifies this
      ensures Snapshot() == Resolution.ResolveStmt(old(Snapshot()), stmt)
      decreases stmt, 2
    {
      match stmt
      case BlockStmt(_) => VisitBlock(stmt);
      case ClassStmt(_, _, _) => VisitClass(stmt);
      case ExpressionStmt(expression) => ResolveExpr(expression);
      case FunctionStmt(_) => VisitFunction(stmt);
      case VarStmt(_, _) => VisitVar(stmt);
      case IfStmt(_, _, _) => VisitIf(stmt);
      case PrintStmt(expression) => ResolveExpr(expression);
      case ReturnStmt(_, _) => VisitReturn(stmt);
      case WhileStmt(_, _) => VisitWhile(stmt);
    }

    method VisitBlock(stmt: Stmt)
      requires stmt.BlockStmt?
      modifies this
      ensures Snapshot() == ResolveBlock(old(Snapshot()), stmt.statements)
      decreases stmt, 1
    {
      BeginScope();
      Resolve(stmt.statements);
      EndScope();
    }

    method VisitClass(stmt: Stmt)
      requires stmt.ClassStmt?
      modifies this
      ensures Snapshot() == ResolveClass(old(Snapshot()), stmt)
      decreases stmt, 1
    {
      var enclosingClass := currentClass;
      currentClass := PlainClass;
      Declare(stmt.name);
      Define(stmt.name);
      if stmt.superclass.Some? {
        var superclass := stmt.superclass.value;
        if superclass.name.lexeme == stmt.name.lexeme {
          Error(superclass.name, InheritsFromItself);
        }
        currentClass := Subclass;
        ResolveExpr(superclass);
        BeginScope();
        Bind("super");
      }
      BeginScope();
      Bind("this");
      ghost var goal := ResolveMethods(Snapshot(), stmt.methods);
      for i := 0 to |stmt.methods|
        invariant ResolveMethods(Snapshot(), stmt.methods[i..]) == goal
      {
        assert stmt.methods[i..][1..] == stmt.methods[i + 1..];
        var declaration := if stmt.methods[i].name.lexeme == "init" then Initializer else Method;
        ResolveFunction(stmt.methods[i], declaration);
      }
      EndScope();
      if stmt.superclass.Some? {
        EndScope();
      }
      currentClass := enclosingClass;
    }

    method VisitFunction(stmt: Stmt)
      requires stmt.FunctionStmt?
      modifies this
      ensures Snapshot() == Resolution.ResolveStmt(old(Snapshot()), stmt)
      decreases stmt, 1
    {
      Declare(stmt.decl.name);
      Define(stmt.decl.name);
      ResolveFunction(stmt.decl, PlainFunction);
    }

    method ResolveFunction(f: FunctionDecl, funcType: FunctionType)
      modifies this
      ensures Snapshot() == Resolution.ResolveFunction(old(Snapshot()), f, funcType)
      decreases f, 1
    {
      var enclosingFunction := currentFunction;
      currentFunction := funcType;
      BeginScope();
      ghost var goal := DeclareParams(Snapshot(), f.params);
      for i := 0 to |f.params|
        invariant |scopes| > 0 && DeclareParams(Snapshot(), f.params[i..]) == goal
      {
        assert f.params[i..][1..] == f.params[i + 1..];
        Declare(f.params[i]);
        Define(f.params[i]);
      }
      Resolve(f.body);
      EndScope();
      currentFunction := enclosingFunction;
    }

    method VisitVar(stmt: Stmt)
      requires stmt.VarStmt?
      modifies this
      ensures Snapshot() == ResolveVar(old(Snapshot()), stmt.name, stmt.initializer)
    {
      Declare(stmt.name);
      if stmt.initializer.Some? {
        ResolveExpr(stmt.initializer.value);
      }
      Define(stmt.name);
    }

    method VisitIf(stmt: Stmt)
      requires stmt.IfStmt?
      modifies this
      ensures Snapshot() == ResolveIf(old(Snapshot()), stmt)
      decreases stmt, 1
    {
      ResolveExpr(stmt.condition);
      ResolveStmt(stmt.thenBranch);
      if stmt.elseBranch.Some? {
        ResolveStmt(stmt.elseBranch.value);
      }
    }

    method VisitReturn(stmt: Stmt)
      requires stmt.ReturnStmt?
      modifies this
      ensures Snapshot() == ResolveReturn(old(Snapshot()), stmt.keyword, stmt.value)
    {
      if currentFunction == NoFunction {
        Error(stmt.keyword, TopLevelReturn);
      }
      if stmt.value.Some? {
        if currentFunction == Initializer {
          Error(stmt.keyword, ValueFromInitializer);
        }
        ResolveExpr(stmt.value.value);
      }
    }

    method VisitWhile(stmt: Stmt)
      requires stmt.WhileStmt?
      modifies this
      ensures Snapshot() == Resolution.ResolveStmt(old(Snapshot()), stmt)
      decreases stmt, 1
    {
      ResolveExpr(stmt.condition);
      ResolveStmt(stmt.body);
    }
  }
}
