/**
 * The static resolution pass as a state transformer.
 *
 * The resolver keeps a stack of scopes (innermost last), each mapping a name
 * to whether its initializer has finished (`false` while declared only), the
 * kind of function and class it is inside, the diagnostics it has reported,
 * and the binding distance it has recorded for each resolved node. Every
 * visit is a function from the state before to the state after; the
 * imperative `Resolving.Resolver` is proved to perform exactly these steps.
 */
module Resolution {
  import opened Lexicon
  import opened Syntax

  datatype FunctionType = NoFunction | PlainFunction | Method | Initializer

  datatype ClassType = NoClass | PlainClass | Subclass

  /** One block scope: each name declared in it, and whether it is defined yet. */
  type Scope = map<string, bool>

  /**
   * The resolver's whole state. `locals` maps the id of a variable, assignment,
   * `this` or `super` node to the number of scopes between the use and the
   * scope that declares the name; a node resolved globally has no entry.
   */
  datatype State = State(
    scopes: seq<Scope>,
    currentFunction: FunctionType,
    currentClass: ClassType,
    errors: seq<Diagnostic>,
    locals: map<nat, nat>)

  const AlreadyDeclared := "Already a variable with this name in this scope."
  const SuperOutsideClass := "Can't use 'super' outside of a class."
  const SuperWithoutSuperclass := "Can't use 'super' in a class with no superclass."
  const ThisOutsideClass := "Can't use 'this' outside of a class."
  const ReadInOwnInitializer := "Can't read local variable in its own initializer."
  const InheritsFromItself := "A class can not inherit from itself."
  const TopLevelReturn := "Can't return from top-level code."
  const ValueFromInitializer := "Can't return a value from an initializer"

  /** A fresh resolver: global scope only, outside every function and class. */
  const Initial := State([], NoFunction, NoClass, [], map[])

  function Top(st: State): Scope
    requires |st.scopes| > 0
  {
    st.scopes[|st.scopes| - 1]
  }

  /** The resolver reports `message` against `token`. */
  function Report(st: State, token: Token, message: string): (r: State)
    ensures r.errors == st.errors + [ErrorAt(token, message)]
    ensures r == st.(errors := r.errors)
  {
    st.(errors := st.errors + [ErrorAt(token, message)])
  }

  /** The innermost scope's entry for `key` becomes `flag`; nothing else changes. */
  function Put(st: State, key: string, flag: bool): (r: State)
    requires |st.scopes| > 0
    ensures |r.scopes| == |st.scopes| && r.scopes[..|st.scopes| - 1] == st.scopes[..|st.scopes| - 1]
    ensures key in Top(r) && Top(r)[key] == flag
    ensures forall k | k != key :: (k in Top(r) <==> k in Top(st)) && (k in Top(st) ==> Top(r)[k] == Top(st)[k])
    ensures r == st.(scopes := r.scopes)
  {
    st.(scopes := st.scopes[..|st.scopes| - 1] + [Top(st)[key := flag]])
  }

  /** `declare`: outside every block nothing happens; otherwise the name is marked not yet defined, and a name already in the innermost scope is reported. */
  function Declare(st: State, name: Token): (r: State)
    ensures |st.scopes| == 0 ==> r == st
    ensures |st.scopes| > 0 ==> r.scopes == Put(st, name.lexeme, false).scopes
    ensures |st.scopes| > 0 && name.lexeme in Top(st) ==> r.errors == st.errors + [ErrorAt(name, AlreadyDeclared)]
    ensures |st.scopes| > 0 && name.lexeme !in Top(st) ==> r.errors == st.errors
    ensures r == st.(scopes := r.scopes, errors := r.errors)
  {
    if |st.scopes| == 0 then st
    else
      var checked := if name.lexeme in Top(st) then Report(st, name, AlreadyDeclared) else st;
      Put(checked, name.lexeme, false)
  }

  /** `define`: outside every block nothing happens; otherwise the name is marked defined in the innermost scope. */
  function Define(st: State, name: Token): (r: State)
    ensures |st.scopes| == 0 ==> r == st
    ensures |st.scopes| > 0 ==> r == Put(st, name.lexeme, true)
  {
    if |st.scopes| == 0 then st else Put(st, name.lexeme, true)
  }

  /** `beginScope`: a new, empty innermost scope. */
  function BeginScope(st: State): (r: State)
    ensures |r.scopes| == |st.scopes| + 1 && r.scopes[..|st.scopes|] == st.scopes && Top(r) == map[]
    ensures r == st.(scopes := r.scopes)
  {
    st.(scopes := st.scopes + [map[]])
  }

  /** `endScope`: the innermost scope is discarded. */
  function EndScope(st: State): (r: State)
    requires |st.scopes| > 0
    ensures |r.scopes| == |st.scopes| - 1 && st.scopes == r.scopes + [Top(st)]
    ensures r == st.(scopes := r.scopes)
  {
    st.(scopes := st.scopes[..|st.scopes| - 1])
  }

  /** Scope `i` declares `key` and no scope inside it does. */
  predicate InnermostAt(scopes: seq<Scope>, key: string, i: nat) {
    i < |scopes| && key in scopes[i] && forall j | i < j < |scopes| :: key !in scopes[j]
  }

  /** The innermost scope declaring `key`, if any. */
  function Innermost(scopes: seq<Scope>, key: string): (r: Option<nat>)
    ensures r.Some? ==> InnermostAt(scopes, key, r.value)
    ensures r.None? ==> forall j | 0 <= j < |scopes| :: key !in scopes[j]
    decreases |scopes|
  {
    if |scopes| == 0 then None
    else if key in scopes[|scopes| - 1] then Some(|scopes| - 1)
    else Innermost(scopes[..|scopes| - 1], key)
  }

  /**
   * `resolveLocal`: the node `id` is bound at the distance from the innermost
   * scope to the innermost scope declaring `key`; a name that no scope
   * declares is global and records nothing.
   */
  function ResolveLocal(st: State, id: nat, key: string): (r: State)
    ensures forall i: nat | InnermostAt(st.scopes, key, i) :: r.locals == st.locals[id := |st.scopes| - 1 - i]
    ensures (forall j | 0 <= j < |st.scopes| :: key !in st.scopes[j]) ==> r.locals == st.locals
    ensures r == st.(locals := r.locals)
  {
    match Innermost(st.scopes, key)
    case None => st
    case Some(i) => st.(locals := st.locals[id := |st.scopes| - 1 - i])
  }

  /** The ids of the nodes of `e` the resolver binds: assignments, variable reads, `this` and `super`. */
  function Ids(e: Expr): set<nat>
    decreases e, 1
  {
    match e
    case Assign(id, _, value) => {id} + Ids(value)
    case Binary(left, _, right) => Ids(left) + Ids(right)
    case Call(callee, _, arguments) => Ids(callee) + AllIds(arguments)
    case GetExpr(loxObject, _) => Ids(loxObject)
    case Logical(left, _, right) => Ids(left) + Ids(right)
    case SetExpr(loxObject, _, value) => Ids(value) + Ids(loxObject)
    case ThisExpr(id, _) => {id}
    case SuperExpr(id, _) => {id}
    case Grouping(expression) => Ids(expression)
    case Literal(_) => {}
    case Unary(_, right) => Ids(right)
    case Variable(id, _) => {id}
  }

  function AllIds(es: seq<Expr>): set<nat>
    decreases es, 0
  {
    if |es| == 0 then {} else Ids(es[0]) + AllIds(es[1..])
  }

  /**
   * Expression resolution leaves the scopes and both context kinds as they
   * were and only adds diagnostics; which distances it records is stated by
   * `Records` (see `ResolutionLaws.ExprRecords`).
   */
  predicate Annotates(st: State, r: State) {
    r.scopes == st.scopes && r.currentFunction == st.currentFunction && r.currentClass == st.currentClass &&
    st.errors <= r.errors
  }

  /**
   * Going from `before` to `after`, every recorded distance stays recorded,
   * and only the nodes in `ids` get a new or changed entry.
   */
  predicate Records(before: map<nat, nat>, after: map<nat, nat>, ids: set<nat>) {
    before.Keys <= after.Keys && after.Keys <= before.Keys + ids &&
    forall id | id in before && id !in ids :: after[id] == before[id]
  }

  /**
   * Statement resolution may declare names in the innermost scope but leaves
   * the depth of the stack, every outer scope and both context kinds as they
   * were, and only adds diagnostics.
   */
  predicate Keeps(st: State, r: State) {
    |r.scopes| == |st.scopes| &&
    (|st.scopes| > 0 ==> r.scopes[..|st.scopes| - 1] == st.scopes[..|st.scopes| - 1]) &&
    r.currentFunction == st.currentFunction && r.currentClass == st.currentClass &&
    st.errors <= r.errors
  }

  /** A variable read: reading a name whose innermost-scope entry is still `false` is an error; then it is bound. */
  function ResolveVariable(st: State, id: nat, name: Token): (r: State)
    ensures |st.scopes| > 0 && name.lexeme in Top(st) && !Top(st)[name.lexeme] ==>
      r.errors == st.errors + [ErrorAt(name, ReadInOwnInitializer)]
    ensures !(|st.scopes| > 0 && name.lexeme in Top(st) && !Top(st)[name.lexeme]) ==> r.errors == st.errors
    ensures r.locals == ResolveLocal(st, id, name.lexeme).locals
    ensures Annotates(st, r)
  {
    var checked := if |st.scopes| > 0 && name.lexeme in Top(st) && !Top(st)[name.lexeme]
      then Report(st, name, ReadInOwnInitializer) else st;
    ResolveLocal(checked, id, name.lexeme)
  }

  /** `this`: outside a class it is an error and nothing is bound; inside one it is bound like a variable named `this`. */
  function ResolveThis(st: State, id: nat, keyword: Token): (r: State)
    ensures st.currentClass == NoClass ==> r == Report(st, keyword, ThisOutsideClass)
    ensures st.currentClass != NoClass ==> r == ResolveLocal(st, id, keyword.lexeme)
  {
    if st.currentClass == NoClass then Report(st, keyword, ThisOutsideClass)
    else ResolveLocal(st, id, keyword.lexeme)
  }

  /** `super`: an error outside a class or in a class without a superclass; it is bound in every case. */
  function ResolveSuper(st: State, id: nat, keyword: Token): (r: State)
    ensures st.currentClass == NoClass ==> r.errors == st.errors + [ErrorAt(keyword, SuperOutsideClass)]
    ensures st.currentClass == PlainClass ==> r.errors == st.errors + [ErrorAt(keyword, SuperWithoutSuperclass)]
    ensures st.currentClass == Subclass ==> r.errors == st.errors
    ensures r.locals == ResolveLocal(st, id, keyword.lexeme).locals
    ensures Annotates(st, r)
  {
    var checked :=
      if st.currentClass == NoClass then Report(st, keyword, SuperOutsideClass)
      else if st.currentClass != Subclass then Report(st, keyword, SuperWithoutSuperclass)
      else st;
    ResolveLocal(checked, id, keyword.lexeme)
  }

  /** One expression, visited as the resolver's expression visitor does. */
  function ResolveExpr(st: State, e: Expr): (r: State)
    ensures Annotates(st, r)
    decreases e, 1
  {
    match e
    case Assign(id, name, value) => ResolveLocal(ResolveExpr(st, value), id, name.lexeme)
    case Binary(left, _, right) => ResolveExpr(ResolveExpr(st, left), right)
    case Call(callee, _, arguments) => ResolveExprs(ResolveExpr(st, callee), arguments)
    case GetExpr(loxObject, _) => ResolveExpr(st, loxObject)
    case Logical(left, _, right) => ResolveExpr(ResolveExpr(st, left), right)
    case SetExpr(loxObject, _, value) => ResolveExpr(ResolveExpr(st, value), loxObject)
    case ThisExpr(id, keyword) => ResolveThis(st, id, keyword)
    case SuperExpr(id, keyword) => ResolveSuper(st, id, keyword)
    case Grouping(expression) => ResolveExpr(st, expression)
    case Literal(_) => st
    case Unary(_, right) => ResolveExpr(st, right)
    case Variable(id, name) => ResolveVariable(st, id, name)
  }

  /** A list of expressions (call arguments), left to right. */
  function ResolveExprs(st: State, es: seq<Expr>): (r: State)
    ensures Annotates(st, r)
    decreases es, 0
  {
    if |es| == 0 then st else ResolveExprs(ResolveExpr(st, es[0]), es[1..])
  }

  /** Each parameter is declared and defined in the innermost scope, in order. */
  function DeclareParams(st: State, params: seq<Token>): (r: State)
    requires |st.scopes| > 0
    ensures Keeps(st, r)
    ensures forall k | k in Top(st) && Top(st)[k] :: k in Top(r) && Top(r)[k]
    ensures forall p | p in params :: p.lexeme in Top(r) && Top(r)[p.lexeme]
    decreases |params|
  {
    if |params| == 0 then st
    else
      var next := Define(Declare(st, params[0]), params[0]);
      var r := DeclareParams(next, params[1..]);
      assert forall p | p in params :: p == params[0] || p in params[1..];
      r
  }

  /** `return`: an error at top level, and a value is an error inside an initializer. */
  function ResolveReturn(st: State, keyword: Token, value: Option<Expr>): (r: State)
    ensures Annotates(st, r)
    ensures st.currentFunction == NoFunction ==> st.errors + [ErrorAt(keyword, TopLevelReturn)] <= r.errors
    ensures value.Some? && st.currentFunction == Initializer ==> st.errors + [ErrorAt(keyword, ValueFromInitializer)] <= r.errors
    ensures value.None? && st.currentFunction != NoFunction ==> r == st
  {
    var checked := if st.currentFunction == NoFunction then Report(st, keyword, TopLevelReturn) else st;
    if value.None? then checked
    else
      var flagged := if st.currentFunction == Initializer then Report(checked, keyword, ValueFromInitializer) else checked;
      ResolveExpr(flagged, value.value)
  }

  /** One statement, visited as the resolver's statement visitor does. */
  function ResolveStmt(st: State, s: Stmt): (r: State)
    ensures Keeps(st, r)
    decreases s, 1
  {
    match s
    case BlockStmt(statements) => ResolveBlock(st, statements)
    case ClassStmt(_, _, _) => ResolveClass(st, s)
    case ExpressionStmt(expression) => ResolveExpr(st, expression)
    case FunctionStmt(decl) => ResolveFunction(Define(Declare(st, decl.name), decl.name), decl, PlainFunction)
    case VarStmt(name, initializer) => ResolveVar(st, name, initializer)
    case IfStmt(_, _, _) => ResolveIf(st, s)
    case PrintStmt(expression) => ResolveExpr(st, expression)
    case ReturnStmt(keyword, value) => ResolveReturn(st, keyword, value)
    case WhileStmt(condition, body) => ResolveStmt(ResolveExpr(st, condition), body)
  }

  /** A block: its statements in a new scope, which is discarded afterwards. */
  function ResolveBlock(st: State, statements: seq<Stmt>): (r: State)
    ensures Keeps(st, r) && r.scopes == st.scopes
    decreases statements, 1
  {
    EndScope(ResolveStmts(BeginScope(st), statements))
  }

  /** `var`: the name is declared, the initializer resolved while it is declared only, then the name is defined. */
  function ResolveVar(st: State, name: Token, initializer: Option<Expr>): (r: State)
    ensures Keeps(st, r)
    ensures |st.scopes| > 0 ==> name.lexeme in Top(r) && Top(r)[name.lexeme]
  {
    var declared := Declare(st, name);
    var initialized := if initializer.Some? then ResolveExpr(declared, initializer.value) else declared;
    Define(initialized, name)
  }

  /** `if`: the condition, the then-branch and, when present, the else-branch. */
  function ResolveIf(st: State, s: Stmt): (r: State)
    requires s.IfStmt?
    ensures Keeps(st, r)
    decreases s, 0
  {
    var taken := ResolveStmt(ResolveExpr(st, s.condition), s.thenBranch);
    if s.elseBranch.Some? then ResolveStmt(taken, s.elseBranch.value) else taken
  }

  /** A statement list, in order. */
  function ResolveStmts(st: State, ss: seq<Stmt>): (r: State)
    ensures Keeps(st, r)
    decreases ss, 0
  {
    if |ss| == 0 then st else ResolveStmts(ResolveStmt(st, ss[0]), ss[1..])
  }

  /**
   * `resolveFunction`: the body is resolved as a function of kind `kind`, in
   * a new scope holding the parameters; the scopes and the enclosing function
   * kind are restored afterwards.
   */
  function ResolveFunction(st: State, f: FunctionDecl, kind: FunctionType): (r: State)
    ensures Keeps(st, r) && r.scopes == st.scopes
    decreases f, 0
  {
    var entered := DeclareParams(BeginScope(st.(currentFunction := kind)), f.params);
    EndScope(ResolveStmts(entered, f.body)).(currentFunction := st.currentFunction)
  }

  /** The kind a method is resolved as: `init` is the initializer. */
  function MethodKind(m: FunctionDecl): (kind: FunctionType)
    ensures kind == Initializer <==> m.name.lexeme == "init"
    ensures kind == Initializer || kind == Method
  {
    if m.name.lexeme == "init" then Initializer else Method
  }

  /** A class's methods, in order. */
  function ResolveMethods(st: State, methods: seq<FunctionDecl>): (r: State)
    ensures Keeps(st, r) && r.scopes == st.scopes
    decreases methods, 0
  {
    if |methods| == 0 then st
    else ResolveMethods(ResolveFunction(st, methods[0], MethodKind(methods[0])), methods[1..])
  }

  /**
   * With a superclass: the self-inheritance check, the superclass read inside
   * a subclass context, and a new scope binding `super`.
   */
  function EnterSuperclass(st: State, name: Token, superclass: SuperclassRef): (r: State)
    ensures |r.scopes| == |st.scopes| + 1 && r.scopes[..|st.scopes|] == st.scopes
    ensures Top(r) == map["super" := true]
    ensures r.currentFunction == st.currentFunction && r.currentClass == Subclass
    ensures superclass.name.lexeme == name.lexeme ==> st.errors + [ErrorAt(superclass.name, InheritsFromItself)] <= r.errors
    ensures st.errors <= r.errors
  {
    var checked := if superclass.name.lexeme == name.lexeme
      then Report(st, superclass.name, InheritsFromItself) else st;
    Put(BeginScope(ResolveExpr(checked.(currentClass := Subclass), superclass)), "super", true)
  }

  /**
   * A class declaration: its name is declared and defined, its methods are
   * resolved inside a scope binding `this` (and, with a superclass, one
   * binding `super` around it), and the enclosing class kind is restored.
   */
  function ResolveClass(st: State, s: Stmt): (r: State)
    requires s.ClassStmt?
    ensures Keeps(st, r)
    decreases s, 0
  {
    var declared := Define(Declare(st.(currentClass := PlainClass), s.name), s.name);
    var outer := if s.superclass.Some? then EnterSuperclass(declared, s.name, s.superclass.value) else declared;
    var inner := ResolveMethods(Put(BeginScope(outer), "this", true), s.methods);
    var closed := EndScope(inner);
    assert closed.scopes == outer.scopes;
    var r := (if s.superclass.Some? then EndScope(closed) else closed).(currentClass := st.currentClass);
    assert r.scopes == declared.scopes && declared.errors <= outer.errors <= r.errors;
    r
  }
}
