/**
 * What each recursive-descent function of the parser computes from a cursor
 * position: its result, where it leaves the cursor and the diagnostics it
 * reports, in order. The `Parser` class is proved to compute exactly this.
 *
 * Kotlin's `ParseError` and the `NullPointerException` raised by `!!` are the
 * two ways a parsing function can fail; neither is a crash of the model.
 */
module Grammar {
  import opened Lexicon
  import opened Syntax

  datatype Fault = ParseError | NullDereference

  datatype Result<T> = Ok(value: T) | Fail(fault: Fault)

  /** Where a parsing function stops, what it returns, and every diagnostic reported up to then. */
  datatype Outcome<T> = Outcome(result: Result<T>, pos: nat, errors: seq<Diagnostic>)

  // The parser's messages.
  const ExpectExpression := "Expect expression."
  const ExpectPropertyName := "Expect property name after '.'."
  const TooManyArguments := "Can't have more than 255 arguments."
  const ExpectParenAfterArguments := "Expect ')' after arguments."
  const ExpectParenAfterExpression := "Expect ')' after expression"
  const InvalidAssignmentTarget := "Invalid assignment target."
  const ExpectClassName := "Expect class name"
  const ExpectBraceBeforeClassBody := "Expect '{' before class body."
  const ExpectBraceAfterClassBody := "Expect '}' after class body."
  const ExpectParenAfterFor := "Expect '(' after 'for'."
  const ExpectSemicolonAfterLoopCondition := "Expect ';' after for-loop condition."
  const ExpectParenAfterLoopClauses := "Expect ')' after loop condition."
  const ExpectParenAfterIf := "Expect '(' after 'if'."
  const ExpectParenAfterIfCondition := "Expect ')' after if condition."
  const ExpectParenAfterWhile := "Expect '(' after 'while'."
  const ExpectParenAfterCondition := "Expect ')' after condition."
  const ExpectBraceAfterBlock := "Expect '}' after block."
  const ExpectSemicolonAfterExpression := "Expect ';' after expression."
  const ExpectSemicolonAfterValue := "Expect ';' after value."
  const ExpectSemicolonAfterReturnValue := "Expect ';' after return value."
  const ExpectVariableName := "Expect variable name."
  const ExpectSemicolonAfterVariable := "Expect ';' after variable declaration."
  const TooManyParameters := "Can't have more than 255 parameters"
  const ExpectParameterName := "Expect parameter name."
  const ExpectParenAfterParameters := "Expect ')' after parameters."

  /** A token list as the scanner produces it: non-empty and ending with EOF. */
  predicate ValidTokens(ts: seq<Token>) { |ts| > 0 && ts[|ts| - 1].kind == Eof }

  predicate AtEnd(ts: seq<Token>, pos: nat)
    requires pos < |ts|
  {
    ts[pos].kind == Eof
  }

  /** `check`: the current token has this kind, and it is not the EOF token. */
  predicate Check(ts: seq<Token>, pos: nat, kind: TokenType)
    requires pos < |ts|
  {
    !AtEnd(ts, pos) && ts[pos].kind == kind
  }

  /** `match` succeeds: the current token is not EOF and its kind is one of `kinds`. */
  predicate Matches(ts: seq<Token>, pos: nat, kinds: seq<TokenType>)
    requires pos < |ts|
  {
    !AtEnd(ts, pos) && ts[pos].kind in kinds
  }

  /** The cursor after `advance`: one token further, except at EOF. */
  function Next(ts: seq<Token>, pos: nat): (p: nat)
    requires ValidTokens(ts) && pos < |ts|
    ensures p < |ts|
    ensures p == if AtEnd(ts, pos) then pos else pos + 1
  {
    if AtEnd(ts, pos) then pos else pos + 1
  }

  /**
   * The cursor stays on the token list, diagnostics are only ever appended, and
   * a successful parse consumes at least one token.
   */
  predicate Progress<T>(ts: seq<Token>, pos: nat, errs: seq<Diagnostic>, o: Outcome<T>)
  {
    pos <= o.pos < |ts| && errs <= o.errors && (o.result.Ok? ==> pos < o.pos)
  }

  /** A failure propagated to a caller of another result type. */
  function Abort<T, U>(o: Outcome<U>): (r: Outcome<T>)
    requires o.result.Fail?
    ensures r.result.Fail? && r.result.fault == o.result.fault
    ensures r.pos == o.pos && r.errors == o.errors
  {
    Outcome(Fail(o.result.fault), o.pos, o.errors)
  }

  /** `throw error(peek(), message)`: report against the current token and fail without moving. */
  function Throw<T>(ts: seq<Token>, pos: nat, errs: seq<Diagnostic>, message: string): (o: Outcome<T>)
    requires pos < |ts|
    ensures o.result == Fail(ParseError) && o.pos == pos
    ensures o.errors == errs + [ErrorAt(ts[pos], message)]
  {
    Outcome(Fail(ParseError), pos, errs + [ErrorAt(ts[pos], message)])
  }

  /** `consume`: the expected token, one step further; otherwise a parse error where the cursor is. */
  function Consume(ts: seq<Token>, pos: nat, errs: seq<Diagnostic>, kind: TokenType, message: string): (o: Outcome<Token>)
    requires ValidTokens(ts) && pos < |ts|
    ensures Progress(ts, pos, errs, o)
    ensures o.result.Ok? <==> Check(ts, pos, kind)
    ensures o.result.Ok? ==> o.result.value == ts[pos] && o.pos == pos + 1 && o.errors == errs
    ensures o.result.Fail? ==> o.result.fault == ParseError && o.pos == pos && o.errors == errs + [ErrorAt(ts[pos], message)]
  {
    if Check(ts, pos, kind) then Outcome(Ok(ts[pos]), pos + 1, errs) else Throw(ts, pos, errs, message)
  }

  /** The outcome `o`, then `consume(kind, message)` where it stopped; the value is `o`'s. */
  function ThenConsume<T>(ts: seq<Token>, o: Outcome<T>, kind: TokenType, message: string): (r: Outcome<T>)
    requires ValidTokens(ts) && o.pos < |ts|
    ensures o.pos <= r.pos < |ts| && o.errors <= r.errors
    ensures r.result.Ok? <==> o.result.Ok? && Check(ts, o.pos, kind)
    ensures r.result.Ok? ==> r.result == o.result && r.pos == o.pos + 1 && r.errors == o.errors
    ensures o.result.Fail? ==> r == o
  {
    if o.result.Fail? then o
    else if Check(ts, o.pos, kind) then Outcome(o.result, o.pos + 1, o.errors)
    else Outcome(Fail(ParseError), o.pos, o.errors + [ErrorAt(ts[o.pos], message)])
  }

  /** An optional part that was parsed. */
  function Present<T>(o: Outcome<T>): (r: Outcome<Option<T>>)
    ensures r.pos == o.pos && r.errors == o.errors
    ensures r.result.Ok? <==> o.result.Ok?
    ensures r.result.Ok? ==> r.result.value == Some(o.result.value)
    ensures r.result.Fail? ==> r.result.fault == o.result.fault
  {
    if o.result.Fail? then Abort(o) else Outcome(Ok(Some(o.result.value)), o.pos, o.errors)
  }

  // ---------------------------------------------------------------------------
  // Precedence. Each node kind belongs to a tier: 0 assignment, 1 `or`, 2 `and`,
  // 3 equality, 4 comparison, 5 term, 6 factor, 7 unary, 8 call and primary.

  function OperatorTier(kind: TokenType): nat
  {
    match kind
    case Or => 1
    case And => 2
    case BangEqual | EqualEqual => 3
    case Greater | GreaterEqual | Less | LessEqual => 4
    case Minus | Plus => 5
    case Slash | Star => 6
    case _ => 8
  }

  function Tier(e: Expr): nat
  {
    match e
    case Assign(_, _, _) => 0
    case SetExpr(_, _, _) => 0
    case Binary(_, op, _) => OperatorTier(op.kind)
    case Logical(_, op, _) => OperatorTier(op.kind)
    case Unary(_, _) => 7
    case _ => 8
  }

  /**
   * Precedence and associativity hold throughout the tree: a binary node's left
   * operand binds at least as tightly as the node and its right operand strictly
   * more tightly (so operators of one tier associate to the left), a unary
   * operand is unary or tighter, and calls and property accesses apply to
   * primaries. Parentheses start afresh.
   */
  predicate Nested(e: Expr)
  {
    match e
    case Binary(l, _, r) => Tier(l) >= Tier(e) && Tier(r) > Tier(e) && Nested(l) && Nested(r)
    case Logical(l, _, r) => Tier(l) >= Tier(e) && Tier(r) > Tier(e) && Nested(l) && Nested(r)
    case Unary(_, r) => Tier(r) >= 7 && Nested(r)
    case Assign(_, _, v) => Nested(v)
    case SetExpr(obj, _, v) => Tier(obj) == 8 && Nested(obj) && Nested(v)
    case GetExpr(obj, _) => Tier(obj) == 8 && Nested(obj)
    case Call(callee, _, args) => Tier(callee) == 8 && Nested(callee) && forall a | a in args :: Nested(a)
    case Grouping(inner) => Nested(inner)
    case _ => true
  }

  /** A parsed expression that binds at least as tightly as `tier`. */
  predicate ParsedAt(o: Outcome<Expr>, tier: nat)
  {
    o.result.Ok? ==> Tier(o.result.value) >= tier && Nested(o.result.value)
  }

  // ---------------------------------------------------------------------------
  // Expressions.

  /** The six left-associative binary levels, loosest first. */
  datatype Level = OrLevel | AndLevel | EqualityLevel | ComparisonLevel | TermLevel | FactorLevel

  function Operators(lv: Level): (kinds: seq<TokenType>)
    ensures forall k | k in kinds :: OperatorTier(k) == LevelTier(lv)
  {
    match lv
    case OrLevel => [Or]
    case AndLevel => [And]
    case EqualityLevel => [BangEqual, EqualEqual]
    case ComparisonLevel => [Greater, GreaterEqual, Less, LessEqual]
    case TermLevel => [Minus, Plus]
    case FactorLevel => [Slash, Star]
  }

  function LevelTier(lv: Level): nat
  {
    match lv
    case OrLevel => 1
    case AndLevel => 2
    case EqualityLevel => 3
    case ComparisonLevel => 4
    case TermLevel => 5
    case FactorLevel => 6
  }

  /** The next tighter level. */
  function Tighter(lv: Level): Level
    requires !lv.FactorLevel?
  {
    match lv
    case OrLevel => AndLevel
    case AndLevel => EqualityLevel
    case EqualityLevel => ComparisonLevel
    case ComparisonLevel => TermLevel
    case TermLevel => FactorLevel
  }

  /** The second component of the termination measure of a level's functions. */
  function Rank(lv: Level): nat
  {
    2 * (8 - LevelTier(lv)) + 4
  }

  /** The node one operator of the level builds: `Logical` for `or`/`and`, `Binary` otherwise. */
  function Node(lv: Level, left: Expr, op: Token, right: Expr): (e: Expr)
    requires op.kind in Operators(lv)
    ensures Tier(e) == LevelTier(lv)
    ensures (e.Logical? || e.Binary?) && e.left == left && e.operator == op && e.right == right
    ensures e.Logical? <==> lv.OrLevel? || lv.AndLevel?
  {
    if lv.OrLevel? || lv.AndLevel? then Logical(left, op, right) else Binary(left, op, right)
  }

  function ParsePrimary(ts: seq<Token>, pos: nat, errs: seq<Diagnostic>): (o: Outcome<Expr>)
    requires ValidTokens(ts) && pos < |ts|
    ensures Progress(ts, pos, errs, o) && ParsedAt(o, 8)
    decreases |ts| - pos, 1
  {
    if Check(ts, pos, True) then Outcome(Ok(Literal(Bool(true))), pos + 1, errs)
    else if Check(ts, pos, False) then Outcome(Ok(Literal(Bool(false))), pos + 1, errs)
    else if Check(ts, pos, TokenType.Nil) then Outcome(Ok(Literal(Value.Nil)), pos + 1, errs)
    else if Matches(ts, pos, [Number, String]) then Outcome(Ok(Literal(ts[pos].literal)), pos + 1, errs)
    else if Check(ts, pos, Identifier) then Outcome(Ok(Variable(pos, ts[pos])), pos + 1, errs)
    else if Check(ts, pos, LeftParen) then ParseGroup(ts, pos + 1, errs)
    else Throw(ts, pos, errs, ExpectExpression)
  }

  /** The rest of a parenthesized expression, after its '('. */
  function ParseGroup(ts: seq<Token>, pos: nat, errs: seq<Diagnostic>): (o: Outcome<Expr>)
    requires ValidTokens(ts) && pos < |ts|
    ensures Progress(ts, pos, errs, o) && ParsedAt(o, 8)
    ensures o.result.Ok? ==> o.result.value.Grouping?
    decreases |ts| - pos, 21
  {
    var e := ThenConsume(ts, ParseExpression(ts, pos, errs), RightParen, ExpectParenAfterExpression);
    if e.result.Fail? then e else Outcome(Ok(Grouping(e.result.value)), e.pos, e.errors)
  }

  /** `call`: a primary, then any number of argument lists and property accesses. */
  function ParseCall(ts: seq<Token>, pos: nat, errs: seq<Diagnostic>): (o: Outcome<Expr>)
    requires ValidTokens(ts) && pos < |ts|
    ensures Progress(ts, pos, errs, o) && ParsedAt(o, 8)
    decreases |ts| - pos, 3
  {
    var p := ParsePrimary(ts, pos, errs);
    if p.result.Fail? then p else CallTail(ts, p.result.value, p.pos, p.errors)
  }

  /** The loop of `call`, with `callee` the expression built so far. */
  function CallTail(ts: seq<Token>, callee: Expr, pos: nat, errs: seq<Diagnostic>): (o: Outcome<Expr>)
    requires ValidTokens(ts) && pos < |ts|
    requires Tier(callee) == 8 && Nested(callee)
    ensures pos <= o.pos < |ts| && errs <= o.errors && ParsedAt(o, 8)
    decreases |ts| - pos, 2
  {
    if Check(ts, pos, LeftParen) then
      var c := FinishCall(ts, callee, pos + 1, errs);
      if c.result.Fail? then c else CallTail(ts, c.result.value, c.pos, c.errors)
    else if Check(ts, pos, Dot) then
      var name := Consume(ts, pos + 1, errs, Identifier, ExpectPropertyName);
      if name.result.Fail? then Abort(name) else CallTail(ts, GetExpr(callee, name.result.value), name.pos, name.errors)
    else Outcome(Ok(callee), pos, errs)
  }

  /** The arguments and closing parenthesis of a call, after its '('. */
  function FinishCall(ts: seq<Token>, callee: Expr, pos: nat, errs: seq<Diagnostic>): (o: Outcome<Expr>)
    requires ValidTokens(ts) && pos < |ts|
    requires Tier(callee) == 8 && Nested(callee)
    ensures Progress(ts, pos, errs, o) && ParsedAt(o, 8)
    ensures o.result.Ok? ==> o.result.value.Call? && o.result.value.callee == callee
    decreases |ts| - pos, 23
  {
    var args := if Check(ts, pos, RightParen) then Outcome(Ok([]), pos, errs) else Arguments(ts, pos, errs, []);
    if args.result.Fail? then Abort(args)
    else
      var paren := Consume(ts, args.pos, args.errors, RightParen, ExpectParenAfterArguments);
      if paren.result.Fail? then Abort(paren)
      else Outcome(Ok(Call(callee, paren.result.value, args.result.value)), paren.pos, paren.errors)
  }

  /**
   * The argument loop, with `args` the arguments parsed so far. Reaching 255
   * arguments is reported against the current token, and parsing goes on.
   */
  function Arguments(ts: seq<Token>, pos: nat, errs: seq<Diagnostic>, args: seq<Expr>): (o: Outcome<seq<Expr>>)
    requires ValidTokens(ts) && pos < |ts|
    requires forall a | a in args :: Nested(a)
    ensures Progress(ts, pos, errs, o)
    ensures o.result.Ok? ==> |o.result.value| > |args| && o.result.value[..|args|] == args
    ensures o.result.Ok? ==> forall a | a in o.result.value :: Nested(a)
    ensures |args| >= 255 ==> |o.errors| > |errs| && o.errors[|errs|] == ErrorAt(ts[pos], TooManyArguments)
    decreases |ts| - pos, 22
  {
    var errs' := if |args| >= 255 then errs + [ErrorAt(ts[pos], TooManyArguments)] else errs;
    var e := ParseExpression(ts, pos, errs');
    if e.result.Fail? then Abort(e)
    else if Check(ts, e.pos, Comma) then
      var rest := Arguments(ts, e.pos + 1, e.errors, args + [e.result.value]);
      assert rest.result.Ok? ==> rest.result.value[..|args|] == (args + [e.result.value])[..|args|];
      rest
    else Outcome(Ok(args + [e.result.value]), e.pos, e.errors)
  }

  function ParseUnary(ts: seq<Token>, pos: nat, errs: seq<Diagnostic>): (o: Outcome<Expr>)
    requires ValidTokens(ts) && pos < |ts|
    ensures Progress(ts, pos, errs, o) && ParsedAt(o, 7)
    decreases |ts| - pos, 4
  {
    if Matches(ts, pos, [Bang, Minus]) then
      var r := ParseUnary(ts, pos + 1, errs);
      if r.result.Fail? then r else Outcome(Ok(Unary(ts[pos], r.result.value)), r.pos, r.errors)
    else ParseCall(ts, pos, errs)
  }

  /** The operands of a level: the next tighter level, or unary below the factor level. */
  function ParseOperand(lv: Level, ts: seq<Token>, pos: nat, errs: seq<Diagnostic>): (o: Outcome<Expr>)
    requires ValidTokens(ts) && pos < |ts|
    ensures Progress(ts, pos, errs, o) && ParsedAt(o, LevelTier(lv) + 1)
    decreases |ts| - pos, Rank(lv) - 1
  {
    if lv.FactorLevel? then ParseUnary(ts, pos, errs) else ParseLevel(Tighter(lv), ts, pos, errs)
  }

  /** `equality`, `comparison`, `term`, `factor`, `or` and `and`: an operand, then the loop. */
  function ParseLevel(lv: Level, ts: seq<Token>, pos: nat, errs: seq<Diagnostic>): (o: Outcome<Expr>)
    requires ValidTokens(ts) && pos < |ts|
    ensures Progress(ts, pos, errs, o) && ParsedAt(o, LevelTier(lv))
    decreases |ts| - pos, Rank(lv)
  {
    var first := ParseOperand(lv, ts, pos, errs);
    if first.result.Fail? then first else LevelTail(lv, ts, first.result.value, first.pos, first.errors)
  }

  /** The loop of a level: while an operator of the level follows, combine `left` with the next operand. */
  function LevelTail(lv: Level, ts: seq<Token>, left: Expr, pos: nat, errs: seq<Diagnostic>): (o: Outcome<Expr>)
    requires ValidTokens(ts) && pos < |ts|
    requires Tier(left) >= LevelTier(lv) && Nested(left)
    ensures pos <= o.pos < |ts| && errs <= o.errors && ParsedAt(o, LevelTier(lv))
    decreases |ts| - pos, Rank(lv)
  {
    if Matches(ts, pos, Operators(lv)) then
      var right := ParseOperand(lv, ts, pos + 1, errs);
      if right.result.Fail? then right
      else LevelTail(lv, ts, Node(lv, left, ts[pos], right.result.value), right.pos, right.errors)
    else Outcome(Ok(left), pos, errs)
  }

  /** Whether an expression can stand left of '='. */
  predicate IsAssignable(e: Expr) { e.Variable? || e.GetExpr? }

  /** The node an assignment to `target` builds; a target that is not assignable is returned as it is. */
  function AssignTo(target: Expr, value: Expr): (e: Expr)
    ensures target.Variable? ==> e == Assign(target.id, target.name, value)
    ensures target.GetExpr? ==> e == SetExpr(target.loxObject, target.name, value)
    ensures !IsAssignable(target) ==> e == target
  {
    if target.Variable? then Assign(target.id, target.name, value)
    else if target.GetExpr? then SetExpr(target.loxObject, target.name, value)
    else target
  }

  function ParseAssignment(ts: seq<Token>, pos: nat, errs: seq<Diagnostic>): (o: Outcome<Expr>)
    requires ValidTokens(ts) && pos < |ts|
    ensures Progress(ts, pos, errs, o) && ParsedAt(o, 0)
    decreases |ts| - pos, 19
  {
    var target := ParseLevel(OrLevel, ts, pos, errs);
    if target.result.Fail? || !Check(ts, target.pos, Equal) then target
    else
      var value := ParseAssignment(ts, target.pos + 1, target.errors);
      if value.result.Fail? then value
      else
        var invalid := if IsAssignable(target.result.value) then [] else [ErrorAt(ts[target.pos], InvalidAssignmentTarget)];
        Outcome(Ok(AssignTo(target.result.value, value.result.value)), value.pos, value.errors + invalid)
  }

  function ParseExpression(ts: seq<Token>, pos: nat, errs: seq<Diagnostic>): (o: Outcome<Expr>)
    requires ValidTokens(ts) && pos < |ts|
    ensures Progress(ts, pos, errs, o) && ParsedAt(o, 0)
    decreases |ts| - pos, 20
  {
    ParseAssignment(ts, pos, errs)
  }

  // ---------------------------------------------------------------------------
  // Statements and declarations.

  /** The token kinds `synchronize` stops before: those that start a statement. */
  const StatementStarts: seq<TokenType> := [Class, For, Fun, If, Print, Return, Var, While]

  /** Where `synchronize`'s loop stops: at EOF, just after a ';', or before a statement keyword. */
  predicate Boundary(ts: seq<Token>, pos: nat)
    requires 0 < pos < |ts|
  {
    AtEnd(ts, pos) || ts[pos - 1].kind == Semicolon || ts[pos].kind in StatementStarts
  }

  /** `synchronize`'s loop, from `pos` (at EOF, or after at least one token). */
  function SyncLoop(ts: seq<Token>, pos: nat): (p: nat)
    requires ValidTokens(ts) && pos < |ts| && (0 < pos || AtEnd(ts, pos))
    ensures pos <= p < |ts|
    decreases |ts| - pos
  {
    if AtEnd(ts, pos) then pos
    else if ts[pos - 1].kind == Semicolon || ts[pos].kind in StatementStarts then pos
    else SyncLoop(ts, pos + 1)
  }

  /** `synchronize`: discard tokens up to the next statement boundary. */
  function Synchronize(ts: seq<Token>, pos: nat): (p: nat)
    requires ValidTokens(ts) && pos < |ts|
    ensures pos <= p < |ts|
    ensures !AtEnd(ts, pos) ==> pos < p
  {
    SyncLoop(ts, Next(ts, pos))
  }

  /** An expression that may be absent: none when the current token is `stop`. */
  function OptionalExpression(ts: seq<Token>, pos: nat, errs: seq<Diagnostic>, stop: TokenType): (o: Outcome<Option<Expr>>)
    requires ValidTokens(ts) && pos < |ts|
    ensures pos <= o.pos < |ts| && errs <= o.errors
    ensures o.result.Ok? && o.result.value.None? <==> Check(ts, pos, stop)
  {
    if Check(ts, pos, stop) then Outcome(Ok(None), pos, errs) else Present(ParseExpression(ts, pos, errs))
  }

  /** `declaration`: a parse error is reported, recovered from by `synchronize`, and yields no statement. */
  function ParseDeclaration(ts: seq<Token>, pos: nat, errs: seq<Diagnostic>): (o: Outcome<Option<Stmt>>)
    requires ValidTokens(ts) && pos < |ts|
    ensures pos <= o.pos < |ts| && errs <= o.errors
    ensures o.result.Ok? && o.result.value.Some? ==> pos < o.pos
    ensures o.result.Fail? ==> o.result.fault == NullDereference
    decreases |ts| - pos, 4
  {
    var attempt := DeclarationAttempt(ts, pos, errs);
    if attempt.result.Ok? then Present(attempt)
    else if attempt.result.fault == ParseError then Outcome(Ok(None), Synchronize(ts, attempt.pos), attempt.errors)
    else Abort(attempt)
  }

  /** The `try` block of `declaration`: a class, a function, a variable or a statement. */
  function DeclarationAttempt(ts: seq<Token>, pos: nat, errs: seq<Diagnostic>): (o: Outcome<Stmt>)
    requires ValidTokens(ts) && pos < |ts|
    ensures Progress(ts, pos, errs, o)
    decreases |ts| - pos, 3
  {
    if Check(ts, pos, Class) then ParseClass(ts, pos + 1, errs)
    else if Check(ts, pos, Fun) then FunctionStatement(ParseFunction(ts, pos + 1, errs, "function"))
    else if Check(ts, pos, Var) then ParseVarDeclaration(ts, pos + 1, errs)
    else ParseStatement(ts, pos, errs)
  }

  function FunctionStatement(o: Outcome<FunctionDecl>): (r: Outcome<Stmt>)
    ensures r.pos == o.pos && r.errors == o.errors
    ensures r.result.Ok? <==> o.result.Ok?
    ensures r.result.Ok? ==> r.result.value == FunctionStmt(o.result.value)
    ensures r.result.Fail? ==> r.result.fault == o.result.fault
  {
    if o.result.Fail? then Abort(o) else Outcome(Ok(FunctionStmt(o.result.value)), o.pos, o.errors)
  }

  /** `classDeclaration`, after `class`: a name and methods; no superclass clause is parsed. */
  function ParseClass(ts: seq<Token>, pos: nat, errs: seq<Diagnostic>): (o: Outcome<Stmt>)
    requires ValidTokens(ts) && pos < |ts|
    ensures Progress(ts, pos, errs, o)
    ensures o.result.Ok? ==> o.result.value.ClassStmt? && o.result.value.superclass.None?
    decreases |ts| - pos, 0
  {
    var name := Consume(ts, pos, errs, Identifier, ExpectClassName);
    if name.result.Fail? then Abort(name) else
    var open := Consume(ts, name.pos, name.errors, LeftBrace, ExpectBraceBeforeClassBody);
    if open.result.Fail? then Abort(open) else
    var methods := ThenConsume(ts, Methods(ts, open.pos, open.errors, []), RightBrace, ExpectBraceAfterClassBody);
    if methods.result.Fail? then Abort(methods)
    else Outcome(Ok(ClassStmt(name.result.value, None, methods.result.value)), methods.pos, methods.errors)
  }

  /** The method loop of a class body, with `methods` those parsed so far. */
  function Methods(ts: seq<Token>, pos: nat, errs: seq<Diagnostic>, methods: seq<FunctionDecl>): (o: Outcome<seq<FunctionDecl>>)
    requires ValidTokens(ts) && pos < |ts|
    ensures pos <= o.pos < |ts| && errs <= o.errors
    decreases |ts| - pos, 2
  {
    if Check(ts, pos, RightBrace) || AtEnd(ts, pos) then Outcome(Ok(methods), pos, errs)
    else
      var m := ParseFunction(ts, pos, errs, "method");
      if m.result.Fail? then Abort(m) else Methods(ts, m.pos, m.errors, methods + [m.result.value])
  }

  /** `function(kind)`, after `fun` (or at a method's name). */
  function ParseFunction(ts: seq<Token>, pos: nat, errs: seq<Diagnostic>, kind: string): (o: Outcome<FunctionDecl>)
    requires ValidTokens(ts) && pos < |ts|
    ensures Progress(ts, pos, errs, o)
    decreases |ts| - pos, 1
  {
    var signature := ParseSignature(ts, pos, errs, kind);
    if signature.result.Fail? then Abort(signature) else
    var body := ParseBlock(ts, signature.pos, signature.errors);
    if body.result.Fail? then Abort(body)
    else Outcome(Ok(FunctionDecl(signature.result.value.name, signature.result.value.params, body.result.value)), body.pos, body.errors)
  }

  /** A function's name and parameters. */
  datatype Signature = Signature(name: Token, params: seq<Token>)

  /**
   * The head of `function(kind)`: the name, the parenthesized parameters and
   * the '{' that opens the body. The function is named by the token it starts
   * at, and its parameters are identifiers.
   */
  function ParseSignature(ts: seq<Token>, pos: nat, errs: seq<Diagnostic>, kind: string): (o: Outcome<Signature>)
    requires ValidTokens(ts) && pos < |ts|
    ensures Progress(ts, pos, errs, o)
    ensures o.result.Ok? ==> o.result.value.name == ts[pos] && forall p | p in o.result.value.params :: p.kind == Identifier
  {
    var name := Consume(ts, pos, errs, Identifier, "Expect " + kind + " name.");
    if name.result.Fail? then Abort(name) else
    var open := Consume(ts, name.pos, name.errors, LeftParen, "Expect '(' after " + kind + " name.");
    if open.result.Fail? then Abort(open) else
    var params :=
      if Check(ts, open.pos, RightParen) then Outcome(Ok([]), open.pos, open.errors)
      else Parameters(ts, open.pos, open.errors, []);
    if params.result.Fail? then Abort(params) else
    var close := Consume(ts, params.pos, params.errors, RightParen, ExpectParenAfterParameters);
    if close.result.Fail? then Abort(close) else
    var brace := Consume(ts, close.pos, close.errors, LeftBrace, "Expect '{' before " + kind + " body.");
    if brace.result.Fail? then Abort(brace)
    else Outcome(Ok(Signature(name.result.value, params.result.value)), brace.pos, brace.errors)
  }

  /**
   * The parameter loop, with `params` the names parsed so far. Reaching 255
   * parameters is reported against the current token, and parsing goes on.
   */
  function Parameters(ts: seq<Token>, pos: nat, errs: seq<Diagnostic>, params: seq<Token>): (o: Outcome<seq<Token>>)
    requires ValidTokens(ts) && pos < |ts|
    ensures Progress(ts, pos, errs, o)
    ensures o.result.Ok? ==> |o.result.value| > |params| && o.result.value[..|params|] == params
    ensures o.result.Ok? ==> forall k | |params| <= k < |o.result.value| :: o.result.value[k].kind == Identifier
    ensures |params| >= 255 ==> |o.errors| > |errs| && o.errors[|errs|] == ErrorAt(ts[pos], TooManyParameters)
    decreases |ts| - pos
  {
    var errs' := if |params| >= 255 then errs + [ErrorAt(ts[pos], TooManyParameters)] else errs;
    var p := Consume(ts, pos, errs', Identifier, ExpectParameterName);
    if p.result.Fail? then Abort(p)
    else if Check(ts, p.pos, Comma) then
      var rest := Parameters(ts, p.pos + 1, p.errors, params + [p.result.value]);
      assert rest.result.Ok? ==> rest.result.value[..|params|] == (params + [p.result.value])[..|params|];
      rest
    else Outcome(Ok(params + [p.result.value]), p.pos, p.errors)
  }

  /** `varDeclaration`, after `var`. */
  function ParseVarDeclaration(ts: seq<Token>, pos: nat, errs: seq<Diagnostic>): (o: Outcome<Stmt>)
    requires ValidTokens(ts) && pos < |ts|
    ensures Progress(ts, pos, errs, o)
    ensures o.result.Ok? ==> o.result.value.VarStmt? && o.result.value.name == ts[pos]
  {
    var name := Consume(ts, pos, errs, Identifier, ExpectVariableName);
    if name.result.Fail? then Abort(name) else
    var init :=
      if Check(ts, name.pos, Equal) then Present(ParseExpression(ts, name.pos + 1, name.errors))
      else Outcome(Ok(None), name.pos, name.errors);
    var rest := ThenConsume(ts, init, Semicolon, ExpectSemicolonAfterVariable);
    if rest.result.Fail? then Abort(rest)
    else Outcome(Ok(VarStmt(name.result.value, rest.result.value)), rest.pos, rest.errors)
  }

  /** `statement`: dispatch on the leading keyword; anything else is an expression statement. */
  function ParseStatement(ts: seq<Token>, pos: nat, errs: seq<Diagnostic>): (o: Outcome<Stmt>)
    requires ValidTokens(ts) && pos < |ts|
    ensures Progress(ts, pos, errs, o)
    decreases |ts| - pos, 2
  {
    if Check(ts, pos, For) then ParseFor(ts, pos + 1, errs)
    else if Check(ts, pos, If) then ParseIf(ts, pos + 1, errs)
    else if Check(ts, pos, Print) then ParsePrint(ts, pos + 1, errs)
    else ParseOtherStatement(ts, pos, errs)
  }

  /** The remaining alternatives of a statement: `return`, `while`, a block, or an expression statement. */
  function ParseOtherStatement(ts: seq<Token>, pos: nat, errs: seq<Diagnostic>): (o: Outcome<Stmt>)
    requires ValidTokens(ts) && pos < |ts|
    ensures Progress(ts, pos, errs, o)
    decreases |ts| - pos, 1
  {
    if Check(ts, pos, Return) then ParseReturn(ts, ts[pos], pos + 1, errs)
    else if Check(ts, pos, While) then ParseWhile(ts, pos + 1, errs)
    else if Check(ts, pos, LeftBrace) then
      var b := ParseBlock(ts, pos + 1, errs);
      if b.result.Fail? then Abort(b) else Outcome(Ok(BlockStmt(b.result.value)), b.pos, b.errors)
    else ParseExpressionStatement(ts, pos, errs)
  }

  /** An expression followed by ';'. */
  function ParseExpressionStatement(ts: seq<Token>, pos: nat, errs: seq<Diagnostic>): (o: Outcome<Stmt>)
    requires ValidTokens(ts) && pos < |ts|
    ensures Progress(ts, pos, errs, o)
    ensures o.result.Ok? ==> o.result.value.ExpressionStmt?
  {
    var e := ThenConsume(ts, ParseExpression(ts, pos, errs), Semicolon, ExpectSemicolonAfterExpression);
    if e.result.Fail? then Abort(e) else Outcome(Ok(ExpressionStmt(e.result.value)), e.pos, e.errors)
  }

  /** `printStatement`, after `print`. */
  function ParsePrint(ts: seq<Token>, pos: nat, errs: seq<Diagnostic>): (o: Outcome<Stmt>)
    requires ValidTokens(ts) && pos < |ts|
    ensures Progress(ts, pos, errs, o)
  {
    var e := ThenConsume(ts, ParseExpression(ts, pos, errs), Semicolon, ExpectSemicolonAfterValue);
    if e.result.Fail? then Abort(e) else Outcome(Ok(PrintStmt(e.result.value)), e.pos, e.errors)
  }

  /** `returnStatement`, after the `return` keyword. */
  function ParseReturn(ts: seq<Token>, keyword: Token, pos: nat, errs: seq<Diagnostic>): (o: Outcome<Stmt>)
    requires ValidTokens(ts) && pos < |ts|
    ensures Progress(ts, pos, errs, o)
  {
    var value := ThenConsume(ts, OptionalExpression(ts, pos, errs, Semicolon), Semicolon, ExpectSemicolonAfterReturnValue);
    if value.result.Fail? then Abort(value) else Outcome(Ok(ReturnStmt(keyword, value.result.value)), value.pos, value.errors)
  }

  /** The parenthesized condition of `if` and `while`: '(', an expression, ')'. */
  function ParseCondition(ts: seq<Token>, pos: nat, errs: seq<Diagnostic>, openMessage: string, closeMessage: string): (o: Outcome<Expr>)
    requires ValidTokens(ts) && pos < |ts|
    ensures Progress(ts, pos, errs, o)
    ensures o.result.Ok? ==> Check(ts, pos, LeftParen) && ts[o.pos - 1].kind == RightParen
  {
    var open := Consume(ts, pos, errs, LeftParen, openMessage);
    if open.result.Fail? then Abort(open)
    else ThenConsume(ts, ParseExpression(ts, open.pos, open.errors), RightParen, closeMessage)
  }

  /** `ifStatement`, after `if`. */
  function ParseIf(ts: seq<Token>, pos: nat, errs: seq<Diagnostic>): (o: Outcome<Stmt>)
    requires ValidTokens(ts) && pos < |ts|
    ensures Progress(ts, pos, errs, o)
    decreases |ts| - pos, 0
  {
    var cond := ParseCondition(ts, pos, errs, ExpectParenAfterIf, ExpectParenAfterIfCondition);
    if cond.result.Fail? then Abort(cond) else
    var thenBranch := ParseStatement(ts, cond.pos, cond.errors);
    if thenBranch.result.Fail? then thenBranch else
    var elseBranch :=
      if Check(ts, thenBranch.pos, Else) then Present(ParseStatement(ts, thenBranch.pos + 1, thenBranch.errors))
      else Outcome(Ok(None), thenBranch.pos, thenBranch.errors);
    if elseBranch.result.Fail? then Abort(elseBranch)
    else Outcome(Ok(IfStmt(cond.result.value, thenBranch.result.value, elseBranch.result.value)), elseBranch.pos, elseBranch.errors)
  }

  /** `whileStatement`, after `while`. */
  function ParseWhile(ts: seq<Token>, pos: nat, errs: seq<Diagnostic>): (o: Outcome<Stmt>)
    requires ValidTokens(ts) && pos < |ts|
    ensures Progress(ts, pos, errs, o)
    decreases |ts| - pos, 0
  {
    var cond := ParseCondition(ts, pos, errs, ExpectParenAfterWhile, ExpectParenAfterCondition);
    if cond.result.Fail? then Abort(cond) else
    var body := ParseStatement(ts, cond.pos, cond.errors);
    if body.result.Fail? then body
    else Outcome(Ok(WhileStmt(cond.result.value, body.result.value)), body.pos, body.errors)
  }

  /**
   * The statement a `for` loop stands for: the body, then the increment, repeated
   * while the condition (true when absent) holds, after the initializer.
   */
  function Desugar(init: Option<Stmt>, cond: Option<Expr>, inc: Option<Expr>, body: Stmt): (s: Stmt)
    ensures init.Some? ==> s.BlockStmt? && |s.statements| == 2 && s.statements[0] == init.value
    ensures var loop := if init.Some? then s.statements[1] else s;
      loop.WhileStmt? &&
      loop.condition == (if cond.Some? then cond.value else Literal(Bool(true))) &&
      loop.body == (if inc.Some? then BlockStmt([body, ExpressionStmt(inc.value)]) else body)
  {
    var inner := if inc.Some? then BlockStmt([body, ExpressionStmt(inc.value)]) else body;
    var loop := WhileStmt(if cond.Some? then cond.value else Literal(Bool(true)), inner);
    if init.Some? then BlockStmt([init.value, loop]) else loop
  }

  /** The initializer clause of a `for`: empty, a variable declaration or an expression statement. */
  function ForInitializer(ts: seq<Token>, pos: nat, errs: seq<Diagnostic>): (o: Outcome<Option<Stmt>>)
    requires ValidTokens(ts) && pos < |ts|
    ensures Progress(ts, pos, errs, o)
  {
    if Check(ts, pos, Semicolon) then Outcome(Ok(None), pos + 1, errs)
    else if Check(ts, pos, Var) then Present(ParseVarDeclaration(ts, pos + 1, errs))
    else Present(ParseExpressionStatement(ts, pos, errs))
  }

  /** The three clauses of a `for` loop, each of which may be absent. */
  datatype LoopClauses = LoopClauses(init: Option<Stmt>, cond: Option<Expr>, inc: Option<Expr>)

  /** The head of `forStatement`: '(', then the clauses. */
  function ParseLoopClauses(ts: seq<Token>, pos: nat, errs: seq<Diagnostic>): (o: Outcome<LoopClauses>)
    requires ValidTokens(ts) && pos < |ts|
    ensures Progress(ts, pos, errs, o)
  {
    var open := Consume(ts, pos, errs, LeftParen, ExpectParenAfterFor);
    if open.result.Fail? then Abort(open) else LoopClausesAfterParen(ts, open.pos, open.errors)
  }

  /** The clauses of `forStatement`: the initializer, the condition and ';', the increment and ')'. */
  function LoopClausesAfterParen(ts: seq<Token>, pos: nat, errs: seq<Diagnostic>): (o: Outcome<LoopClauses>)
    requires ValidTokens(ts) && pos < |ts|
    ensures Progress(ts, pos, errs, o)
  {
    var init := ForInitializer(ts, pos, errs);
    if init.result.Fail? then Abort(init) else
    var cond := ThenConsume(ts, OptionalExpression(ts, init.pos, init.errors, Semicolon), Semicolon, ExpectSemicolonAfterLoopCondition);
    if cond.result.Fail? then Abort(cond) else
    var inc := ThenConsume(ts, OptionalExpression(ts, cond.pos, cond.errors, RightParen), RightParen, ExpectParenAfterLoopClauses);
    if inc.result.Fail? then Abort(inc)
    else Outcome(Ok(LoopClauses(init.result.value, cond.result.value, inc.result.value)), inc.pos, inc.errors)
  }

  /** `forStatement`, after `for`. */
  function ParseFor(ts: seq<Token>, pos: nat, errs: seq<Diagnostic>): (o: Outcome<Stmt>)
    requires ValidTokens(ts) && pos < |ts|
    ensures Progress(ts, pos, errs, o)
    decreases |ts| - pos, 0
  {
    var clauses := ParseLoopClauses(ts, pos, errs);
    if clauses.result.Fail? then Abort(clauses) else
    var c := clauses.result.value;
    var body := ParseStatement(ts, clauses.pos, clauses.errors);
    if body.result.Fail? then body
    else Outcome(Ok(Desugar(c.init, c.cond, c.inc, body.result.value)), body.pos, body.errors)
  }

  /** `block`, after '{': declarations up to '}', then the '}'. */
  function ParseBlock(ts: seq<Token>, pos: nat, errs: seq<Diagnostic>): (o: Outcome<seq<Stmt>>)
    requires ValidTokens(ts) && pos < |ts|
    ensures Progress(ts, pos, errs, o)
    decreases |ts| - pos, 6
  {
    ThenConsume(ts, Declarations(ts, pos, errs, [], true), RightBrace, ExpectBraceAfterBlock)
  }

  /**
   * The declaration loop of `parse` (up to EOF) and of `block` (up to '}' or EOF),
   * with `stmts` the statements parsed so far. A declaration that recovered from
   * a parse error yields null, and `!!` turns it into a NullPointerException.
   */
  function Declarations(ts: seq<Token>, pos: nat, errs: seq<Diagnostic>, stmts: seq<Stmt>, inBlock: bool): (o: Outcome<seq<Stmt>>)
    requires ValidTokens(ts) && pos < |ts|
    ensures pos <= o.pos < |ts| && errs <= o.errors
    ensures o.result.Ok? ==> AtEnd(ts, o.pos) || (inBlock && Check(ts, o.pos, RightBrace))
    ensures o.result.Ok? ==> |o.result.value| >= |stmts| && o.result.value[..|stmts|] == stmts
    decreases |ts| - pos, 5
  {
    if AtEnd(ts, pos) || (inBlock && Check(ts, pos, RightBrace)) then Outcome(Ok(stmts), pos, errs)
    else
      var d := ParseDeclaration(ts, pos, errs);
      if d.result.Fail? then Abort(d)
      else if d.result.value.None? then Outcome(Fail(NullDereference), d.pos, d.errors)
      else
        var rest := Declarations(ts, d.pos, d.errors, stmts + [d.result.value.value], inBlock);
        assert rest.result.Ok? ==> rest.result.value[..|stmts|] == (stmts + [d.result.value.value])[..|stmts|];
        rest
  }

  /** `parse`: every declaration up to EOF. */
  function Parse(ts: seq<Token>): (o: Outcome<seq<Stmt>>)
    requires ValidTokens(ts)
    ensures o.pos < |ts|
    ensures o.result.Ok? ==> AtEnd(ts, o.pos)
  {
    Declarations(ts, 0, [], [], false)
  }
}
