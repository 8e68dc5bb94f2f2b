/**
 * What the resolution pass reports and records for small programs: the
 * static errors, and the binding distances of local reads.
 */
module ResolutionLaws {
  import opened Lexicon
  import opened Syntax
  import opened Resolution

  // ---------------------------------------------------------------------------
  // Recorded distances.

  /** Recording for the nodes in `first`, then for those in `second`, records for both. */
  lemma RecordsTwice(a: map<nat, nat>, b: map<nat, nat>, c: map<nat, nat>, first: set<nat>, second: set<nat>)
    requires Records(a, b, first) && Records(b, c, second)
    ensures Records(a, c, first + second)
  {
  }

  /** `resolveLocal` records at most the node it is given. */
  lemma LocalRecords(st: State, id: nat, key: string)
    ensures Records(st.locals, ResolveLocal(st, id, key).locals, {id})
  {
  }

  /**
   * Resolving an expression never drops or changes a distance recorded for a
   * node outside it: new or changed entries are exactly for its own
   * assignments, variable reads, `this` and `super` nodes.
   */
  lemma {:induction false} ExprRecords(st: State, e: Expr)
    ensures Records(st.locals, ResolveExpr(st, e).locals, Ids(e))
    decreases e, 1
  {
    match e
    case Assign(id, name, value) =>
      var mid := ResolveExpr(st, value);
      ExprRecords(st, value);
      LocalRecords(mid, id, name.lexeme);
      RecordsTwice(st.locals, mid.locals, ResolveExpr(st, e).locals, Ids(value), {id});
    case Binary(left, _, right) =>
      var mid := ResolveExpr(st, left);
      ExprRecords(st, left);
      ExprRecords(mid, right);
      RecordsTwice(st.locals, mid.locals, ResolveExpr(st, e).locals, Ids(left), Ids(right));
    case Call(callee, _, arguments) =>
      var mid := ResolveExpr(st, callee);
      ExprRecords(st, callee);
      ExprsRecords(mid, arguments);
      RecordsTwice(st.locals, mid.locals, ResolveExpr(st, e).locals, Ids(callee), AllIds(arguments));
    case GetExpr(loxObject, _) =>
      ExprRecords(st, loxObject);
    case Logical(left, _, right) =>
      var mid := ResolveExpr(st, left);
      ExprRecords(st, left);
      ExprRecords(mid, right);
      RecordsTwice(st.locals, mid.locals, ResolveExpr(st, e).locals, Ids(left), Ids(right));
    case SetExpr(loxObject, _, value) =>
      var mid := ResolveExpr(st, value);
      ExprRecords(st, value);
      ExprRecords(mid, loxObject);
      RecordsTwice(st.locals, mid.locals, ResolveExpr(st, e).locals, Ids(value), Ids(loxObject));
    case ThisExpr(id, keyword) =>
      LocalRecords(st, id, keyword.lexeme);
    case SuperExpr(id, keyword) =>
      LocalRecords(st, id, keyword.lexeme);
    case Grouping(expression) =>
      ExprRecords(st, expression);
    case Literal(_) =>
    case Unary(_, right) =>
      ExprRecords(st, right);
    case Variable(id, name) =>
      LocalRecords(st, id, name.lexeme);
  }

  /** The same for a list of call arguments. */
  lemma {:induction false} ExprsRecords(st: State, es: seq<Expr>)
    ensures Records(st.locals, ResolveExprs(st, es).locals, AllIds(es))
    decreases es, 0
  {
    if |es| > 0 {
      var mid := ResolveExpr(st, es[0]);
      ExprRecords(st, es[0]);
      ExprsRecords(mid, es[1..]);
      RecordsTwice(st.locals, mid.locals, ResolveExprs(st, es).locals, Ids(es[0]), AllIds(es[1..]));
    }
  }

  /** Inside a block, a variable's initializer that reads the variable itself is reported; at global scope it is not. */
  lemma {:induction false} SelfInitializer(st: State, name: Token, id: nat, reference: Token)
    requires reference.lexeme == name.lexeme
    requires |st.scopes| > 0 ==> name.lexeme !in Top(st)
    ensures |st.scopes| > 0 ==>
      ResolveStmt(st, VarStmt(name, Some(Variable(id, reference)))).errors == st.errors + [ErrorAt(reference, ReadInOwnInitializer)]
    ensures |st.scopes| == 0 ==>
      ResolveStmt(st, VarStmt(name, Some(Variable(id, reference)))).errors == st.errors
  {
    var declared := Declare(st, name);
    var read := ResolveExpr(declared, Variable(id, reference));
    assert read == ResolveVariable(declared, id, reference);
    assert ResolveStmt(st, VarStmt(name, Some(Variable(id, reference)))) == Define(read, name);
  }

  /** A read of an already defined variable reports nothing. */
  lemma ReadAfterDefine(st: State, name: Token, id: nat, reference: Token)
    requires reference.lexeme == name.lexeme
    ensures ResolveExpr(Define(st, name), Variable(id, reference)).errors == st.errors
  {
  }

  /** `var a;` inside a block declares and defines `a` in the innermost scope. */
  lemma {:induction false} LocalDeclaration(st: State, name: Token)
    requires |st.scopes| > 0 && name.lexeme !in Top(st)
    ensures ResolveStmt(st, VarStmt(name, None)).errors == st.errors
    ensures ResolveStmt(st, VarStmt(name, None)).locals == st.locals
    ensures ResolveStmt(st, VarStmt(name, None)).scopes == Put(st, name.lexeme, true).scopes
  {
    var declared := Declare(st, name);
    assert ResolveStmt(st, VarStmt(name, None)) == Define(declared, name);
    assert Top(declared)[name.lexeme := true] == Top(st)[name.lexeme := true];
  }

  /** `{ var a; a; }`: the read is bound at distance 0, the block's own scope. */
  lemma {:induction false} BlockLocalDistance(st: State, name: Token, id: nat, reference: Token)
    requires reference.lexeme == name.lexeme
    ensures var r := ResolveStmt(st, BlockStmt([VarStmt(name, None), ExpressionStmt(Variable(id, reference))]));
      r.locals == st.locals[id := 0] && r.errors == st.errors && r.scopes == st.scopes
  {
    var ss := [VarStmt(name, None), ExpressionStmt(Variable(id, reference))];
    var inner := BeginScope(st);
    LocalDeclaration(inner, name);
    var declared := ResolveStmt(inner, ss[0]);
    assert InnermostAt(declared.scopes, name.lexeme, |declared.scopes| - 1);
    var read := ResolveStmt(declared, ss[1]);
    assert read == ResolveVariable(declared, id, reference);
    assert ResolveStmts(inner, ss) == ResolveStmts(read, []) by {
      assert ss[1..][1..] == [];
    }
    assert ResolveStmt(st, BlockStmt(ss)) == EndScope(read);
  }

  /** `{ var a; { a; } }`: the read is bound at distance 1, one scope out. */
  lemma {:induction false} NestedBlockDistance(st: State, name: Token, id: nat, reference: Token)
    requires reference.lexeme == name.lexeme
    ensures var r := ResolveStmt(st, BlockStmt([VarStmt(name, None), BlockStmt([ExpressionStmt(Variable(id, reference))])]));
      r.locals == st.locals[id := 1] && r.errors == st.errors && r.scopes == st.scopes
  {
    var inner := [ExpressionStmt(Variable(id, reference))];
    var ss := [VarStmt(name, None), BlockStmt(inner)];
    var outer := BeginScope(st);
    LocalDeclaration(outer, name);
    var declared := ResolveStmt(outer, ss[0]);
    var nested := BeginScope(declared);
    assert InnermostAt(nested.scopes, name.lexeme, |nested.scopes| - 2);
    var read := ResolveStmt(nested, inner[0]);
    assert read == ResolveVariable(nested, id, reference);
    assert ResolveStmts(nested, inner) == ResolveStmts(read, []) by {
      assert inner[1..] == [];
    }
    var closed := ResolveStmt(declared, ss[1]);
    assert closed == ResolveBlock(declared, inner);
    assert ResolveStmts(outer, ss) == ResolveStmts(closed, []) by {
      assert ss[1..][1..] == [];
    }
    assert ResolveStmt(st, BlockStmt(ss)) == EndScope(closed);
  }

  /** `{ var a; var a; }` reports the second declaration; two global `var a;` report nothing. */
  lemma {:induction false} DuplicateDeclaration(st: State, first: Token, second: Token)
    requires first.lexeme == second.lexeme
    ensures ResolveStmt(st, BlockStmt([VarStmt(first, None), VarStmt(second, None)])).errors ==
      st.errors + [ErrorAt(second, AlreadyDeclared)]
    ensures |st.scopes| == 0 ==> ResolveStmts(st, [VarStmt(first, None), VarStmt(second, None)]) == st
  {
    var ss := [VarStmt(first, None), VarStmt(second, None)];
    var inner := BeginScope(st);
    LocalDeclaration(inner, first);
    var declared := ResolveStmt(inner, ss[0]);
    var again := ResolveStmt(declared, ss[1]);
    assert again == Define(Declare(declared, second), second);
    assert ResolveStmts(inner, ss) == ResolveStmts(again, []) by {
      assert ss[1..][1..] == [];
    }
    assert ResolveStmt(st, BlockStmt(ss)) == EndScope(again);
    if |st.scopes| == 0 {
      assert ResolveStmt(st, ss[0]) == st;
      assert ResolveStmts(st, ss) == ResolveStmts(st, ss[1..]);
      assert ResolveStmt(st, ss[1]) == st;
      assert ResolveStmts(st, ss[1..]) == ResolveStmts(st, []);
    }
  }

  /** A function with no parameters and a one-statement body: the statement runs in a new scope as a function of kind `kind`. */
  lemma {:induction false} OneStatementFunction(st: State, f: FunctionDecl, kind: FunctionType)
    requires f.params == [] && |f.body| == 1
    ensures ResolveFunction(st, f, kind) ==
      EndScope(ResolveStmt(BeginScope(st.(currentFunction := kind)), f.body[0])).(currentFunction := st.currentFunction)
  {
    var entered := BeginScope(st.(currentFunction := kind));
    assert DeclareParams(entered, f.params) == entered;
    assert ResolveStmts(entered, f.body) == ResolveStmts(ResolveStmt(entered, f.body[0]), []) by {
      assert f.body[1..] == [];
    }
  }

  /** A class body with one method resolves that method with the kind its name selects. */
  lemma {:induction false} OneMethod(st: State, m: FunctionDecl)
    ensures ResolveMethods(st, [m]) == ResolveFunction(st, m, MethodKind(m))
  {
    assert [m][1..] == [];
    assert ResolveMethods(st, [m]) == ResolveMethods(ResolveFunction(st, m, MethodKind(m)), []);
  }

  /** `return;` is an error at top level and not inside a global function. */
  lemma {:induction false} ReturnPlacement(st: State, keyword: Token, name: Token)
    requires st.currentFunction == NoFunction && |st.scopes| == 0
    ensures ResolveStmt(st, ReturnStmt(keyword, None)).errors == st.errors + [ErrorAt(keyword, TopLevelReturn)]
    ensures ResolveStmt(st, FunctionStmt(FunctionDecl(name, [], [ReturnStmt(keyword, None)]))).errors == st.errors
  {
    var f := FunctionDecl(name, [], [ReturnStmt(keyword, None)]);
    assert ResolveStmt(st, FunctionStmt(f)) == ResolveFunction(st, f, PlainFunction);
    OneStatementFunction(st, f, PlainFunction);
    var entered := BeginScope(st.(currentFunction := PlainFunction));
    assert ResolveStmt(entered, f.body[0]) == entered;
  }

  /**
   * `class C { m() { return v; } }`: returning a value is reported exactly
   * when the method is named `init`.
   */
  lemma {:induction false} InitializerReturn(name: Token, m: FunctionDecl, keyword: Token, v: Value)
    requires m.params == [] && m.body == [ReturnStmt(keyword, Some(Literal(v)))]
    ensures ResolveStmt(Initial, ClassStmt(name, None, [m])).errors ==
      if m.name.lexeme == "init" then [ErrorAt(keyword, ValueFromInitializer)] else []
  {
    var s := ClassStmt(name, None, [m]);
    var declared := Initial.(currentClass := PlainClass);
    assert Define(Declare(declared, name), name) == declared;
    var outer := Put(BeginScope(declared), "this", true);
    OneMethod(outer, m);
    OneStatementFunction(outer, m, MethodKind(m));
    var body := BeginScope(outer.(currentFunction := MethodKind(m)));
    var returned := ResolveStmt(body, m.body[0]);
    assert returned == ResolveReturn(body, keyword, Some(Literal(v)));
    assert returned.errors == if m.name.lexeme == "init" then [ErrorAt(keyword, ValueFromInitializer)] else [];
    assert ResolveStmt(Initial, s) == ResolveClass(Initial, s);
  }

  /** `class C { m() { this; } }`: `this` is bound one scope out from the method body, with no error. */
  lemma {:induction false} ThisInMethod(name: Token, m: FunctionDecl, id: nat, keyword: Token)
    requires keyword.lexeme == "this"
    requires m.params == [] && m.body == [ExpressionStmt(ThisExpr(id, keyword))]
    ensures var r := ResolveStmt(Initial, ClassStmt(name, None, [m]));
      r.errors == [] && r.locals == map[id := 1]
  {
    var s := ClassStmt(name, None, [m]);
    var declared := Initial.(currentClass := PlainClass);
    assert Define(Declare(declared, name), name) == declared;
    var outer := Put(BeginScope(declared), "this", true);
    OneMethod(outer, m);
    OneStatementFunction(outer, m, MethodKind(m));
    var body := BeginScope(outer.(currentFunction := MethodKind(m)));
    assert InnermostAt(body.scopes, "this", 0);
    assert ResolveStmt(body, m.body[0]) == ResolveThis(body, id, keyword);
    assert ResolveStmt(Initial, s) == ResolveClass(Initial, s);
  }

  /** At top level, `class C < B` (B not C) opens one scope binding `super`, in a subclass context, with no error. */
  lemma {:induction false} SubclassPrologue(name: Token, base: Token, baseId: nat)
    requires base.lexeme != name.lexeme
    ensures EnterSuperclass(Define(Declare(Initial.(currentClass := PlainClass), name), name), name, Variable(baseId, base)) ==
      State([map["super" := true]], NoFunction, Subclass, [], map[])
  {
    var declared := Initial.(currentClass := PlainClass);
    assert Define(Declare(declared, name), name) == declared;
    var sub := declared.(currentClass := Subclass);
    assert ResolveExpr(sub, Variable(baseId, base)) == sub;
  }

  /** A method body `super;`, resolved inside the `super` and `this` scopes of a subclass, binds `super` two scopes out. */
  lemma {:induction false} SuperFromMethod(m: FunctionDecl, id: nat, keyword: Token)
    requires keyword.lexeme == "super"
    requires m.params == [] && m.body == [ExpressionStmt(SuperExpr(id, keyword))]
    ensures var outer := State([map["super" := true], map["this" := true]], NoFunction, Subclass, [], map[]);
      ResolveMethods(outer, [m]) == outer.(locals := map[id := 2])
  {
    var outer := State([map["super" := true], map["this" := true]], NoFunction, Subclass, [], map[]);
    OneMethod(outer, m);
    OneStatementFunction(outer, m, MethodKind(m));
    var body := BeginScope(outer.(currentFunction := MethodKind(m)));
    assert InnermostAt(body.scopes, "super", 0);
    assert ResolveStmt(body, m.body[0]) == ResolveSuper(body, id, keyword);
  }

  /** `class C < B { m() { super; } }`: `super` is bound two scopes out from the method body, with no error. */
  lemma {:induction false} SuperInSubclass(name: Token, base: Token, baseId: nat, m: FunctionDecl, id: nat, keyword: Token)
    requires keyword.lexeme == "super" && base.lexeme != name.lexeme
    requires m.params == [] && m.body == [ExpressionStmt(SuperExpr(id, keyword))]
    ensures var r := ResolveStmt(Initial, ClassStmt(name, Some(Variable(baseId, base)), [m]));
      r.errors == [] && r.locals == map[id := 2]
  {
    var s := ClassStmt(name, Some(Variable(baseId, base)), [m]);
    SubclassPrologue(name, base, baseId);
    var withSuper := State([map["super" := true]], NoFunction, Subclass, [], map[]);
    var outer := Put(BeginScope(withSuper), "this", true);
    assert outer == State([map["super" := true], map["this" := true]], NoFunction, Subclass, [], map[]);
    SuperFromMethod(m, id, keyword);
    assert ResolveStmt(Initial, s) == ResolveClass(Initial, s);
  }

  /** `class C { m() { super; } }`: a class without a superclass cannot use `super`, and nothing is bound. */
  lemma {:induction false} SuperWithoutSuperclassReported(name: Token, m: FunctionDecl, id: nat, keyword: Token)
    requires keyword.lexeme == "super"
    requires m.params == [] && m.body == [ExpressionStmt(SuperExpr(id, keyword))]
    ensures var r := ResolveStmt(Initial, ClassStmt(name, None, [m]));
      r.errors == [ErrorAt(keyword, SuperWithoutSuperclass)] && r.locals == map[]
  {
    var s := ClassStmt(name, None, [m]);
    var declared := Initial.(currentClass := PlainClass);
    assert Define(Declare(declared, name), name) == declared;
    var outer := Put(BeginScope(declared), "this", true);
    OneMethod(outer, m);
    OneStatementFunction(outer, m, MethodKind(m));
    var body := BeginScope(outer.(currentFunction := MethodKind(m)));
    assert forall j | 0 <= j < |body.scopes| :: "super" !in body.scopes[j];
    assert ResolveStmt(body, m.body[0]) == ResolveSuper(body, id, keyword);
    assert ResolveStmt(Initial, s) == ResolveClass(Initial, s);
  }

  /** `class A < A {}` is reported against the superclass name; `class A < B {}` is not. */
  lemma {:induction false} SelfInheritance(name: Token, superId: nat, superName: Token)
    ensures ResolveStmt(Initial, ClassStmt(name, Some(Variable(superId, superName)), [])).errors ==
      if superName.lexeme == name.lexeme then [ErrorAt(superName, InheritsFromItself)] else []
  {
    var s := ClassStmt(name, Some(Variable(superId, superName)), []);
    var declared := Initial.(currentClass := PlainClass);
    assert Define(Declare(declared, name), name) == declared;
    var checked := if superName.lexeme == name.lexeme then Report(declared, superName, InheritsFromItself) else declared;
    assert ResolveExpr(checked.(currentClass := Subclass), Variable(superId, superName)) == checked.(currentClass := Subclass);
    assert ResolveStmt(Initial, s) == ResolveClass(Initial, s);
  }
}
