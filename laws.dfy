/**
 * Properties of the parser's grammar functions that relate several calls:
 * where error recovery stops, how chains of binary operators and assignments
 * nest, how assignment targets are rewritten, and what happens to a program
 * after a parse error.
 */
module GrammarLaws {
  import opened Lexicon
  import opened Syntax
  import opened Grammar

  // ---------------------------------------------------------------------------
  // Error recovery.

  lemma {:induction false} SyncLoopStops(ts: seq<Token>, pos: nat)
    requires ValidTokens(ts) && 0 < pos < |ts|
    ensures var p := SyncLoop(ts, pos);
      Boundary(ts, p) && forall q | pos <= q < p :: !Boundary(ts, q)
    decreases |ts| - pos
  {
    if !AtEnd(ts, pos) && ts[pos - 1].kind != Semicolon && ts[pos].kind !in StatementStarts {
      SyncLoopStops(ts, pos + 1);
    }
  }

  /**
   * `synchronize` stays put at EOF. Elsewhere it discards at least one token
   * and stops at the first boundary after that: at EOF, just after a ';', or
   * before a token that starts a statement.
   */
  /**
   * The token tests: a valid list is at its end on its last token; `check`
   * never holds at the end, so `check(EOF)` is always false; `match` holds
   * exactly when `check` holds for one of its kinds.
   */
  lemma TokenTests(ts: seq<Token>, pos: nat, kind: TokenType, kinds: seq<TokenType>)
    requires pos < |ts|
    ensures ValidTokens(ts) && pos == |ts| - 1 ==> AtEnd(ts, pos)
    ensures Check(ts, pos, kind) ==> ts[pos].kind == kind && !AtEnd(ts, pos)
    ensures kind == Eof ==> !Check(ts, pos, kind)
    ensures Matches(ts, pos, kinds) <==> exists k | k in kinds :: Check(ts, pos, k)
  {
  }

  lemma SynchronizeStops(ts: seq<Token>, pos: nat)
    requires ValidTokens(ts) && pos < |ts|
    ensures AtEnd(ts, pos) ==> Synchronize(ts, pos) == pos
    ensures !AtEnd(ts, pos) ==> var p := Synchronize(ts, pos);
      pos < p && Boundary(ts, p) && forall q | pos < q < p :: !Boundary(ts, q)
  {
    if !AtEnd(ts, pos) {
      SyncLoopStops(ts, pos + 1);
    }
  }

  // ---------------------------------------------------------------------------
  // Operands: a call-level expression followed by a token that no level at or
  // below the given tier takes as its operator is the whole operand.

  /** `kind` is not an operator of tier `tier` or tighter. */
  predicate Stops(kind: TokenType, tier: nat)
  {
    OperatorTier(kind) < tier || OperatorTier(kind) == 8
  }

  /** The next looser level. */
  function Looser(lv: Level): (up: Level)
    requires !lv.OrLevel?
    ensures !up.FactorLevel? && Tighter(up) == lv
  {
    match lv
    case AndLevel => OrLevel
    case EqualityLevel => AndLevel
    case ComparisonLevel => EqualityLevel
    case TermLevel => ComparisonLevel
    case FactorLevel => TermLevel
  }

  /** An identifier not followed by '(' or '.' is a variable read. */
  lemma IdentifierCall(ts: seq<Token>, pos: nat, errs: seq<Diagnostic>)
    requires ValidTokens(ts) && pos + 1 < |ts| && ts[pos].kind == Identifier
    requires ts[pos + 1].kind != LeftParen && ts[pos + 1].kind != Dot
    ensures ParseCall(ts, pos, errs) == Outcome(Ok(Variable(pos, ts[pos])), pos + 1, errs)
  {
    var v := Variable(pos, ts[pos]);
    assert ParsePrimary(ts, pos, errs) == Outcome(Ok(v), pos + 1, errs);
    assert CallTail(ts, v, pos + 1, errs) == Outcome(Ok(v), pos + 1, errs);
  }

  lemma {:induction false} CallAsOperand(lv: Level, ts: seq<Token>, pos: nat, errs: seq<Diagnostic>, e: Expr, next: nat)
    requires ValidTokens(ts) && pos < |ts| && next < |ts| && !Matches(ts, pos, [Bang, Minus])
    requires ParseCall(ts, pos, errs) == Outcome(Ok(e), next, errs)
    requires Stops(ts[next].kind, LevelTier(lv) + 1)
    ensures ParseOperand(lv, ts, pos, errs) == Outcome(Ok(e), next, errs)
    decreases 8 - LevelTier(lv), 0
  {
    if lv.FactorLevel? {
      assert ParseUnary(ts, pos, errs) == ParseCall(ts, pos, errs);
    } else {
      CallAtLevel(Tighter(lv), ts, pos, errs, e, next);
    }
  }

  lemma {:induction false} CallAtLevel(lv: Level, ts: seq<Token>, pos: nat, errs: seq<Diagnostic>, e: Expr, next: nat)
    requires ValidTokens(ts) && pos < |ts| && next < |ts| && !Matches(ts, pos, [Bang, Minus])
    requires ParseCall(ts, pos, errs) == Outcome(Ok(e), next, errs)
    requires Stops(ts[next].kind, LevelTier(lv))
    ensures ParseLevel(lv, ts, pos, errs) == Outcome(Ok(e), next, errs)
    decreases 8 - LevelTier(lv), 1
  {
    CallAsOperand(lv, ts, pos, errs, e, next);
    TailStop(lv, ts, e, next, errs);
  }

  /** An identifier followed by a token that ends the operand is a variable read. */
  lemma IdentifierOperand(lv: Level, ts: seq<Token>, pos: nat, errs: seq<Diagnostic>)
    requires ValidTokens(ts) && pos + 1 < |ts| && ts[pos].kind == Identifier
    requires ts[pos + 1].kind != LeftParen && ts[pos + 1].kind != Dot && Stops(ts[pos + 1].kind, LevelTier(lv) + 1)
    ensures ParseOperand(lv, ts, pos, errs) == Outcome(Ok(Variable(pos, ts[pos])), pos + 1, errs)
  {
    IdentifierCall(ts, pos, errs);
    CallAsOperand(lv, ts, pos, errs, Variable(pos, ts[pos]), pos + 1);
  }

  /** One round of a level's loop: an operator of the level, then an operand. */
  lemma TailStep(lv: Level, ts: seq<Token>, left: Expr, pos: nat, errs: seq<Diagnostic>, right: Expr, next: nat)
    requires ValidTokens(ts) && pos + 1 < |ts| && next < |ts| && ts[pos].kind in Operators(lv)
    requires Tier(left) >= LevelTier(lv) && Nested(left)
    requires ParseOperand(lv, ts, pos + 1, errs) == Outcome(Ok(right), next, errs)
    ensures LevelTail(lv, ts, left, pos, errs) == LevelTail(lv, ts, Node(lv, left, ts[pos], right), next, errs)
  {
  }

  /** A level's loop ends at a token that is not one of its operators. */
  lemma TailStop(lv: Level, ts: seq<Token>, left: Expr, pos: nat, errs: seq<Diagnostic>)
    requires ValidTokens(ts) && pos < |ts| && Stops(ts[pos].kind, LevelTier(lv))
    requires Tier(left) >= LevelTier(lv) && Nested(left)
    ensures LevelTail(lv, ts, left, pos, errs) == Outcome(Ok(left), pos, errs)
  {
  }

  /**
   * A level's result followed by a token that is no binary operator is also
   * the result of every looser level, up to `or`.
   */
  lemma {:induction false} Widened(lv: Level, ts: seq<Token>, pos: nat, errs: seq<Diagnostic>, o: Outcome<Expr>)
    requires ValidTokens(ts) && pos < |ts| && o.pos < |ts|
    requires ParseLevel(lv, ts, pos, errs) == o && o.result.Ok? && OperatorTier(ts[o.pos].kind) == 8
    ensures ParseLevel(OrLevel, ts, pos, errs) == o
    decreases LevelTier(lv)
  {
    if !lv.OrLevel? {
      var up := Looser(lv);
      assert ParseOperand(up, ts, pos, errs) == o;
      TailStop(up, ts, o.result.value, o.pos, o.errors);
      Widened(up, ts, pos, errs, o);
    }
  }

  // ---------------------------------------------------------------------------
  // Associativity and assignment targets.

  /** One round of a level's loop whose operand is a variable. */
  lemma TailVariable(lv: Level, ts: seq<Token>, left: Expr, pos: nat, errs: seq<Diagnostic>)
    requires ValidTokens(ts) && pos + 2 < |ts| && ts[pos].kind in Operators(lv) && ts[pos + 1].kind == Identifier
    requires ts[pos + 2].kind != LeftParen && ts[pos + 2].kind != Dot && Stops(ts[pos + 2].kind, LevelTier(lv) + 1)
    requires Tier(left) >= LevelTier(lv) && Nested(left)
    ensures LevelTail(lv, ts, left, pos, errs) ==
      LevelTail(lv, ts, Node(lv, left, ts[pos], Variable(pos + 1, ts[pos + 1])), pos + 2, errs)
  {
    IdentifierOperand(lv, ts, pos + 1, errs);
    TailStep(lv, ts, left, pos, errs, Variable(pos + 1, ts[pos + 1]), pos + 2);
  }

  /** The loop of a level over `op b op' c`, with `a` parsed. */
  lemma LeftTail(lv: Level, ts: seq<Token>, errs: seq<Diagnostic>)
    requires ValidTokens(ts) && |ts| == 6
    requires ts[0].kind == Identifier && ts[2].kind == Identifier && ts[4].kind == Identifier
    requires ts[1].kind in Operators(lv) && ts[3].kind in Operators(lv)
    ensures LevelTail(lv, ts, Variable(0, ts[0]), 1, errs) ==
      Outcome(Ok(Node(lv, Node(lv, Variable(0, ts[0]), ts[1], Variable(2, ts[2])), ts[3], Variable(4, ts[4]))), 5, errs)
  {
    var ab := Node(lv, Variable(0, ts[0]), ts[1], Variable(2, ts[2]));
    TailVariable(lv, ts, Variable(0, ts[0]), 1, errs);
    TailVariable(lv, ts, ab, 3, errs);
    TailStop(lv, ts, Node(lv, ab, ts[3], Variable(4, ts[4])), 5, errs);
  }

  /** The chain `a op b op' c` at its own level. */
  lemma LeftChain(lv: Level, ts: seq<Token>, errs: seq<Diagnostic>)
    requires ValidTokens(ts) && |ts| == 6
    requires ts[0].kind == Identifier && ts[2].kind == Identifier && ts[4].kind == Identifier
    requires ts[1].kind in Operators(lv) && ts[3].kind in Operators(lv)
    ensures ParseLevel(lv, ts, 0, errs) ==
      Outcome(Ok(Node(lv, Node(lv, Variable(0, ts[0]), ts[1], Variable(2, ts[2])), ts[3], Variable(4, ts[4]))), 5, errs)
  {
    IdentifierOperand(lv, ts, 0, errs);
    LeftTail(lv, ts, errs);
  }

  /**
   * The six binary levels associate to the left: `a op b op' c`, with both
   * operators of one level, parses as `(a op b) op' c`.
   */
  lemma LeftAssociative(lv: Level, ts: seq<Token>, errs: seq<Diagnostic>)
    requires ValidTokens(ts) && |ts| == 6
    requires ts[0].kind == Identifier && ts[2].kind == Identifier && ts[4].kind == Identifier
    requires ts[1].kind in Operators(lv) && ts[3].kind in Operators(lv)
    ensures ParseExpression(ts, 0, errs) ==
      Outcome(Ok(Node(lv, Node(lv, Variable(0, ts[0]), ts[1], Variable(2, ts[2])), ts[3], Variable(4, ts[4]))), 5, errs)
  {
    LeftChain(lv, ts, errs);
    Widened(lv, ts, 0, errs, ParseLevel(lv, ts, 0, errs));
  }

  /** An identifier followed by a token that is no binary operator, '(' or '.' is a variable at the `or` level. */
  lemma IdentifierTarget(ts: seq<Token>, pos: nat, errs: seq<Diagnostic>)
    requires ValidTokens(ts) && pos + 1 < |ts| && ts[pos].kind == Identifier
    requires OperatorTier(ts[pos + 1].kind) == 8 && ts[pos + 1].kind != LeftParen && ts[pos + 1].kind != Dot
    ensures ParseLevel(OrLevel, ts, pos, errs) == Outcome(Ok(Variable(pos, ts[pos])), pos + 1, errs)
  {
    IdentifierCall(ts, pos, errs);
    CallAtLevel(OrLevel, ts, pos, errs, Variable(pos, ts[pos]), pos + 1);
  }

  /** An identifier followed by a token that is no operator and no '=' is a whole expression. */
  lemma IdentifierAlone(ts: seq<Token>, pos: nat, errs: seq<Diagnostic>)
    requires ValidTokens(ts) && pos + 1 < |ts| && ts[pos].kind == Identifier
    requires OperatorTier(ts[pos + 1].kind) == 8 && ts[pos + 1].kind !in [LeftParen, Dot, Equal]
    ensures ParseAssignment(ts, pos, errs) == Outcome(Ok(Variable(pos, ts[pos])), pos + 1, errs)
  {
    IdentifierTarget(ts, pos, errs);
  }

  /** A variable, '=' and an assignment make an assignment to the variable. */
  lemma AssignmentStep(ts: seq<Token>, pos: nat, errs: seq<Diagnostic>, value: Expr, next: nat)
    requires ValidTokens(ts) && pos + 2 < |ts| && next < |ts|
    requires ts[pos].kind == Identifier && ts[pos + 1].kind == Equal
    requires ParseAssignment(ts, pos + 2, errs) == Outcome(Ok(value), next, errs)
    ensures ParseAssignment(ts, pos, errs) == Outcome(Ok(Assign(pos, ts[pos], value)), next, errs)
  {
    IdentifierTarget(ts, pos, errs);
    assert errs + [] == errs;
  }

  /** Assignment associates to the right: `a = b = c` parses as `a = (b = c)`. */
  lemma RightAssociative(ts: seq<Token>, errs: seq<Diagnostic>)
    requires ValidTokens(ts) && |ts| == 6
    requires ts[0].kind == Identifier && ts[2].kind == Identifier && ts[4].kind == Identifier
    requires ts[1].kind == Equal && ts[3].kind == Equal
    ensures ParseExpression(ts, 0, errs) ==
      Outcome(Ok(Assign(0, ts[0], Assign(2, ts[2], Variable(4, ts[4])))), 5, errs)
  {
    IdentifierAlone(ts, 4, errs);
    AssignmentStep(ts, 2, errs, Variable(4, ts[4]), 5);
    AssignmentStep(ts, 0, errs, Assign(2, ts[2], Variable(4, ts[4])), 5);
  }

  /** `a.f` followed by '=' is a property access. */
  lemma PropertyAccess(ts: seq<Token>, errs: seq<Diagnostic>)
    requires ValidTokens(ts) && |ts| == 6
    requires ts[0].kind == Identifier && ts[1].kind == Dot && ts[2].kind == Identifier && ts[3].kind == Equal
    ensures ParseLevel(OrLevel, ts, 0, errs) == Outcome(Ok(GetExpr(Variable(0, ts[0]), ts[2])), 3, errs)
  {
    var a := Variable(0, ts[0]);
    var get := GetExpr(a, ts[2]);
    assert ParsePrimary(ts, 0, errs) == Outcome(Ok(a), 1, errs);
    assert CallTail(ts, get, 3, errs) == Outcome(Ok(get), 3, errs);
    assert CallTail(ts, a, 1, errs) == Outcome(Ok(get), 3, errs);
    CallAtLevel(OrLevel, ts, 0, errs, get, 3);
  }

  /** A property access as target: `a.f = c` parses as a set expression on `a`. */
  lemma PropertyTarget(ts: seq<Token>, errs: seq<Diagnostic>)
    requires ValidTokens(ts) && |ts| == 6
    requires ts[0].kind == Identifier && ts[2].kind == Identifier && ts[4].kind == Identifier
    requires ts[1].kind == Dot && ts[3].kind == Equal
    ensures ParseExpression(ts, 0, errs) ==
      Outcome(Ok(SetExpr(Variable(0, ts[0]), ts[2], Variable(4, ts[4]))), 5, errs)
  {
    PropertyAccess(ts, errs);
    IdentifierAlone(ts, 4, errs);
  }

  /** The left-hand side `a op b` of an invalid assignment, up to the `or` level. */
  lemma InvalidChain(lv: Level, ts: seq<Token>, errs: seq<Diagnostic>)
    requires ValidTokens(ts) && |ts| == 6
    requires ts[0].kind == Identifier && ts[2].kind == Identifier
    requires ts[1].kind in Operators(lv) && ts[3].kind == Equal
    ensures ParseLevel(OrLevel, ts, 0, errs) == Outcome(Ok(Node(lv, Variable(0, ts[0]), ts[1], Variable(2, ts[2]))), 3, errs)
  {
    var a, b := Variable(0, ts[0]), Variable(2, ts[2]);
    IdentifierOperand(lv, ts, 0, errs);
    IdentifierOperand(lv, ts, 2, errs);
    var ab := Node(lv, a, ts[1], b);
    TailStop(lv, ts, ab, 3, errs);
    TailStep(lv, ts, a, 1, errs, b, 3);
    Widened(lv, ts, 0, errs, Outcome(Ok(ab), 3, errs));
  }

  /**
   * An assignment to something that is not a variable or a property, such as
   * `a + b = c`, reports "Invalid assignment target." at the '=' and yields the
   * left-hand expression; parsing goes on without a parse error.
   */
  lemma InvalidTarget(lv: Level, ts: seq<Token>, errs: seq<Diagnostic>)
    requires ValidTokens(ts) && |ts| == 6
    requires ts[0].kind == Identifier && ts[2].kind == Identifier && ts[4].kind == Identifier
    requires ts[1].kind in Operators(lv) && ts[3].kind == Equal
    ensures ParseExpression(ts, 0, errs) ==
      Outcome(Ok(Node(lv, Variable(0, ts[0]), ts[1], Variable(2, ts[2]))), 5,
              errs + [ErrorAt(ts[3], InvalidAssignmentTarget)])
  {
    InvalidChain(lv, ts, errs);
    IdentifierAlone(ts, 4, errs);
  }

  /**
   * `assignment` for any input, when '=' follows the `or`-level expression
   * `target` and the value parses: a variable becomes an assignment to it, a
   * property access a set expression on the same object and name, and any
   * other target stays as it is, with "Invalid assignment target." reported at
   * the '=' after the value's own diagnostics. No parse error is raised.
   */
  lemma AssignmentRewrite(ts: seq<Token>, pos: nat, errs: seq<Diagnostic>,
                          target: Expr, q: nat, e1: seq<Diagnostic>, value: Expr, n: nat, e2: seq<Diagnostic>)
    requires ValidTokens(ts) && pos < |ts|
    requires ParseLevel(OrLevel, ts, pos, errs) == Outcome(Ok(target), q, e1) && Check(ts, q, Equal)
    requires ParseAssignment(ts, q + 1, e1) == Outcome(Ok(value), n, e2)
    ensures ParseAssignment(ts, pos, errs) ==
      Outcome(Ok(AssignTo(target, value)), n,
              e2 + if IsAssignable(target) then [] else [ErrorAt(ts[q], InvalidAssignmentTarget)])
    ensures target.Variable? ==> ParseAssignment(ts, pos, errs).result == Ok(Assign(target.id, target.name, value))
    ensures target.GetExpr? ==> ParseAssignment(ts, pos, errs).result == Ok(SetExpr(target.loxObject, target.name, value))
  {
  }

  /** Without a '=' after it, or when it fails, the `or`-level outcome is the assignment's. */
  lemma NoAssignment(ts: seq<Token>, pos: nat, errs: seq<Diagnostic>)
    requires ValidTokens(ts) && pos < |ts|
    ensures var t := ParseLevel(OrLevel, ts, pos, errs);
      t.result.Fail? || !Check(ts, t.pos, Equal) ==> ParseAssignment(ts, pos, errs) == t
  {
  }

  // ---------------------------------------------------------------------------
  // Statements, for any input: each statement parser, given what its parts
  // parse to, yields the statement those parts make.

  /** `printStatement`: the expression and a ';' make a print statement; without the ';' it is a parse error there. */
  lemma PrintStatement(ts: seq<Token>, pos: nat, errs: seq<Diagnostic>, value: Expr, q: nat, e1: seq<Diagnostic>)
    requires ValidTokens(ts) && pos < |ts|
    requires ParseExpression(ts, pos, errs) == Outcome(Ok(value), q, e1)
    ensures Check(ts, q, Semicolon) ==> ParsePrint(ts, pos, errs) == Outcome(Ok(PrintStmt(value)), q + 1, e1)
    ensures !Check(ts, q, Semicolon) ==>
      ParsePrint(ts, pos, errs) == Outcome(Fail(ParseError), q, e1 + [ErrorAt(ts[q], ExpectSemicolonAfterValue)])
  {
  }

  /** `return;` is a return statement without a value, just after the ';'. */
  lemma ReturnWithoutValue(ts: seq<Token>, keyword: Token, pos: nat, errs: seq<Diagnostic>)
    requires ValidTokens(ts) && pos < |ts| && Check(ts, pos, Semicolon)
    ensures ParseReturn(ts, keyword, pos, errs) == Outcome(Ok(ReturnStmt(keyword, None)), pos + 1, errs)
  {
  }

  /** `return value;` is a return statement carrying the value, keyed by the `return` token. */
  lemma ReturnWithValue(ts: seq<Token>, keyword: Token, pos: nat, errs: seq<Diagnostic>, value: Expr, q: nat, e1: seq<Diagnostic>)
    requires ValidTokens(ts) && pos < |ts| && !Check(ts, pos, Semicolon)
    requires ParseExpression(ts, pos, errs) == Outcome(Ok(value), q, e1)
    ensures Check(ts, q, Semicolon) ==>
      ParseReturn(ts, keyword, pos, errs) == Outcome(Ok(ReturnStmt(keyword, Some(value))), q + 1, e1)
    ensures !Check(ts, q, Semicolon) ==>
      ParseReturn(ts, keyword, pos, errs) == Outcome(Fail(ParseError), q, e1 + [ErrorAt(ts[q], ExpectSemicolonAfterReturnValue)])
  {
  }

  /** The condition of `if` and `while`: '(', the expression, ')'; a missing ')' is a parse error there. */
  lemma ConditionParts(ts: seq<Token>, pos: nat, errs: seq<Diagnostic>, openMessage: string, closeMessage: string,
                       cond: Expr, p1: nat, e1: seq<Diagnostic>)
    requires ValidTokens(ts) && pos < |ts| && Check(ts, pos, LeftParen)
    requires ParseExpression(ts, pos + 1, errs) == Outcome(Ok(cond), p1, e1)
    ensures Check(ts, p1, RightParen) ==>
      ParseCondition(ts, pos, errs, openMessage, closeMessage) == Outcome(Ok(cond), p1 + 1, e1)
    ensures !Check(ts, p1, RightParen) ==>
      ParseCondition(ts, pos, errs, openMessage, closeMessage) == Outcome(Fail(ParseError), p1, e1 + [ErrorAt(ts[p1], closeMessage)])
  {
  }

  /**
   * `ifStatement`: the condition and a then-branch, then an else-branch
   * exactly when `else` follows the then-branch.
   */
  lemma IfStatement(ts: seq<Token>, pos: nat, errs: seq<Diagnostic>,
                    cond: Expr, p1: nat, e1: seq<Diagnostic>, thenBranch: Stmt, p2: nat, e2: seq<Diagnostic>)
    requires ValidTokens(ts) && pos < |ts|
    requires ParseCondition(ts, pos, errs, ExpectParenAfterIf, ExpectParenAfterIfCondition) == Outcome(Ok(cond), p1, e1)
    requires ParseStatement(ts, p1, e1) == Outcome(Ok(thenBranch), p2, e2)
    ensures !Check(ts, p2, Else) ==> ParseIf(ts, pos, errs) == Outcome(Ok(IfStmt(cond, thenBranch, None)), p2, e2)
    ensures Check(ts, p2, Else) ==> var otherwise := ParseStatement(ts, p2 + 1, e2);
      otherwise.result.Ok? ==>
      ParseIf(ts, pos, errs) == Outcome(Ok(IfStmt(cond, thenBranch, Some(otherwise.result.value))), otherwise.pos, otherwise.errors)
  {
  }

  /** `whileStatement`: the condition and a body make a while statement. */
  lemma WhileStatement(ts: seq<Token>, pos: nat, errs: seq<Diagnostic>,
                       cond: Expr, p1: nat, e1: seq<Diagnostic>, body: Stmt, p2: nat, e2: seq<Diagnostic>)
    requires ValidTokens(ts) && pos < |ts|
    requires ParseCondition(ts, pos, errs, ExpectParenAfterWhile, ExpectParenAfterCondition) == Outcome(Ok(cond), p1, e1)
    requires ParseStatement(ts, p1, e1) == Outcome(Ok(body), p2, e2)
    ensures ParseWhile(ts, pos, errs) == Outcome(Ok(WhileStmt(cond, body)), p2, e2)
  {
  }

  /** A `for` initializer is absent exactly at ';', a variable declaration after `var`, and an expression statement otherwise. */
  lemma ForInitializerClause(ts: seq<Token>, pos: nat, errs: seq<Diagnostic>)
    requires ValidTokens(ts) && pos < |ts|
    ensures Check(ts, pos, Semicolon) ==> ForInitializer(ts, pos, errs) == Outcome(Ok(None), pos + 1, errs)
    ensures var o := ForInitializer(ts, pos, errs);
      o.result.Ok? ==>
      (o.result.value.None? <==> Check(ts, pos, Semicolon)) &&
      (o.result.value.Some? ==>
        (o.result.value.value.VarStmt? <==> Check(ts, pos, Var)) &&
        (o.result.value.value.ExpressionStmt? <==> !Check(ts, pos, Var)))
  {
  }

  /**
   * The head of `forStatement`: '(' and the three clauses as they parse, each
   * closed by its ';' or ')'.
   */
  lemma LoopClausesParts(ts: seq<Token>, pos: nat, errs: seq<Diagnostic>,
                         init: Option<Stmt>, p1: nat, e1: seq<Diagnostic>,
                         cond: Option<Expr>, p2: nat, e2: seq<Diagnostic>,
                         inc: Option<Expr>, p3: nat, e3: seq<Diagnostic>)
    requires ValidTokens(ts) && pos < |ts| && Check(ts, pos, LeftParen)
    requires ForInitializer(ts, pos + 1, errs) == Outcome(Ok(init), p1, e1)
    requires OptionalExpression(ts, p1, e1, Semicolon) == Outcome(Ok(cond), p2, e2) && Check(ts, p2, Semicolon)
    requires OptionalExpression(ts, p2 + 1, e2, RightParen) == Outcome(Ok(inc), p3, e3) && Check(ts, p3, RightParen)
    ensures ParseLoopClauses(ts, pos, errs) == Outcome(Ok(LoopClauses(init, cond, inc)), p3 + 1, e3)
  {
    var open := Consume(ts, pos, errs, LeftParen, ExpectParenAfterFor);
    assert open == Outcome(Ok(ts[pos]), pos + 1, errs);
    var c := ThenConsume(ts, OptionalExpression(ts, p1, e1, Semicolon), Semicolon, ExpectSemicolonAfterLoopCondition);
    assert c == Outcome(Ok(cond), p2 + 1, e2);
    var i := ThenConsume(ts, OptionalExpression(ts, c.pos, c.errors, RightParen), RightParen, ExpectParenAfterLoopClauses);
    assert i == Outcome(Ok(inc), p3 + 1, e3);
  }

  /** `forStatement`: the clauses and the body make the loop `Desugar` builds from them, ending where the body ends. */
  lemma ForStatement(ts: seq<Token>, pos: nat, errs: seq<Diagnostic>,
                     clauses: LoopClauses, p1: nat, e1: seq<Diagnostic>, body: Stmt, p2: nat, e2: seq<Diagnostic>)
    requires ValidTokens(ts) && pos < |ts|
    requires ParseLoopClauses(ts, pos, errs) == Outcome(Ok(clauses), p1, e1)
    requires ParseStatement(ts, p1, e1) == Outcome(Ok(body), p2, e2)
    ensures ParseFor(ts, pos, errs) == Outcome(Ok(Desugar(clauses.init, clauses.cond, clauses.inc, body)), p2, e2)
  {
  }

  /**
   * `block`: the declarations up to '}' and the '}' itself; a block that
   * reaches EOF first is a parse error "Expect '}' after block." there.
   */
  lemma BlockStatements(ts: seq<Token>, pos: nat, errs: seq<Diagnostic>)
    requires ValidTokens(ts) && pos < |ts|
    ensures var d := Declarations(ts, pos, errs, [], true); var o := ParseBlock(ts, pos, errs);
      (o.result.Ok? <==> d.result.Ok? && Check(ts, d.pos, RightBrace)) &&
      (o.result.Ok? ==> o.result.value == d.result.value && o.pos == d.pos + 1 && o.errors == d.errors) &&
      (d.result.Ok? && AtEnd(ts, d.pos) ==>
        o == Outcome(Fail(ParseError), d.pos, d.errors + [ErrorAt(ts[d.pos], ExpectBraceAfterBlock)]))
  {
  }

  /**
   * The head of `function(kind)`: the name token and the parameters as they
   * parse, between '(' and ')', followed by '{'.
   */
  lemma SignatureParts(ts: seq<Token>, pos: nat, errs: seq<Diagnostic>, kind: string,
                       params: seq<Token>, p1: nat, e1: seq<Diagnostic>)
    requires ValidTokens(ts) && pos < |ts| && Check(ts, pos, Identifier) && Check(ts, pos + 1, LeftParen)
    requires (if Check(ts, pos + 2, RightParen) then Outcome(Ok([]), pos + 2, errs) else Parameters(ts, pos + 2, errs, [])) ==
      Outcome(Ok(params), p1, e1)
    requires Check(ts, p1, RightParen) && Check(ts, p1 + 1, LeftBrace)
    ensures ParseSignature(ts, pos, errs, kind) == Outcome(Ok(Signature(ts[pos], params)), p1 + 2, e1)
  {
  }

  /** `function(kind)`: the signature and the block that follows make the declaration. */
  lemma FunctionDeclaration(ts: seq<Token>, pos: nat, errs: seq<Diagnostic>, kind: string,
                            signature: Signature, p1: nat, e1: seq<Diagnostic>, body: seq<Stmt>, p2: nat, e2: seq<Diagnostic>)
    requires ValidTokens(ts) && pos < |ts|
    requires ParseSignature(ts, pos, errs, kind) == Outcome(Ok(signature), p1, e1)
    requires ParseBlock(ts, p1, e1) == Outcome(Ok(body), p2, e2)
    ensures ParseFunction(ts, pos, errs, kind) == Outcome(Ok(FunctionDecl(signature.name, signature.params, body)), p2, e2)
  {
  }

  /** A function without a name is reported at once, against the token where the name should be. */
  lemma FunctionWithoutName(ts: seq<Token>, pos: nat, errs: seq<Diagnostic>, kind: string)
    requires ValidTokens(ts) && pos < |ts| && !Check(ts, pos, Identifier)
    ensures ParseFunction(ts, pos, errs, kind) == Outcome(Fail(ParseError), pos, errs + [ErrorAt(ts[pos], "Expect " + kind + " name.")])
  {
  }

  /** Every parsed function is named by the token it starts at, and its parameters are identifiers. */
  lemma FunctionName(ts: seq<Token>, pos: nat, errs: seq<Diagnostic>, kind: string)
    requires ValidTokens(ts) && pos < |ts|
    ensures var o := ParseFunction(ts, pos, errs, kind);
      o.result.Ok? ==> o.result.value.name == ts[pos] && forall p | p in o.result.value.params :: p.kind == Identifier
  {
    var signature := ParseSignature(ts, pos, errs, kind);
    assert signature.result.Fail? ==> ParseFunction(ts, pos, errs, kind).result.Fail?;
  }

  /**
   * The statement `statement` builds agrees with the token it starts at: `if`,
   * `print` and `return` each give their own kind of statement and nothing else
   * does; `for` gives a loop, bare or in a block; `while` a loop; '{' a block;
   * any other token an expression statement. A statement is never a declaration.
   */
  predicate StatementLed(ts: seq<Token>, pos: nat, s: Stmt)
    requires pos < |ts|
  {
    var keyword := Check(ts, pos, For) || Check(ts, pos, If) || Check(ts, pos, Print) ||
                   Check(ts, pos, Return) || Check(ts, pos, While) || Check(ts, pos, LeftBrace);
    (s.IfStmt? <==> Check(ts, pos, If)) &&
    (s.PrintStmt? <==> Check(ts, pos, Print)) &&
    (s.ReturnStmt? <==> Check(ts, pos, Return)) &&
    (s.ExpressionStmt? <==> !keyword) &&
    (Check(ts, pos, For) ==> s.BlockStmt? || s.WhileStmt?) &&
    (Check(ts, pos, While) ==> s.WhileStmt?) &&
    (Check(ts, pos, LeftBrace) ==> s.BlockStmt?) &&
    !s.ClassStmt? && !s.FunctionStmt? && !s.VarStmt?
  }

  /** `forStatement` builds a loop, bare or inside a block. */
  lemma ForShape(ts: seq<Token>, pos: nat, errs: seq<Diagnostic>)
    requires ValidTokens(ts) && pos < |ts|
    ensures var o := ParseFor(ts, pos, errs); o.result.Ok? ==> o.result.value.BlockStmt? || o.result.value.WhileStmt?
  {
  }

  /** `ifStatement` builds an if statement. */
  lemma IfShape(ts: seq<Token>, pos: nat, errs: seq<Diagnostic>)
    requires ValidTokens(ts) && pos < |ts|
    ensures var o := ParseIf(ts, pos, errs); o.result.Ok? ==> o.result.value.IfStmt?
  {
  }

  /** `printStatement` builds a print statement. */
  lemma PrintShape(ts: seq<Token>, pos: nat, errs: seq<Diagnostic>)
    requires ValidTokens(ts) && pos < |ts|
    ensures var o := ParsePrint(ts, pos, errs); o.result.Ok? ==> o.result.value.PrintStmt?
  {
  }

  /** `whileStatement` builds a while loop. */
  lemma WhileShape(ts: seq<Token>, pos: nat, errs: seq<Diagnostic>)
    requires ValidTokens(ts) && pos < |ts|
    ensures var o := ParseWhile(ts, pos, errs); o.result.Ok? ==> o.result.value.WhileStmt?
  {
  }

  /** `returnStatement` builds a return statement. */
  lemma ReturnShape(ts: seq<Token>, keyword: Token, pos: nat, errs: seq<Diagnostic>)
    requires ValidTokens(ts) && pos < |ts|
    ensures var o := ParseReturn(ts, keyword, pos, errs); o.result.Ok? ==> o.result.value.ReturnStmt?
  {
  }

  /** The alternatives after `print`: `return`, `while`, '{', or an expression statement. */
  lemma OtherStatementDispatch(ts: seq<Token>, pos: nat, errs: seq<Diagnostic>)
    requires ValidTokens(ts) && pos < |ts|
    requires !Check(ts, pos, For) && !Check(ts, pos, If) && !Check(ts, pos, Print)
    ensures var o := ParseOtherStatement(ts, pos, errs);
      o.result.Ok? ==> StatementLed(ts, pos, o.result.value)
  {
    if Check(ts, pos, Return) {
      ReturnShape(ts, ts[pos], pos + 1, errs);
    } else if Check(ts, pos, While) {
      WhileShape(ts, pos + 1, errs);
    }
  }

  /** `statement` dispatches on its leading token. */
  lemma StatementDispatch(ts: seq<Token>, pos: nat, errs: seq<Diagnostic>)
    requires ValidTokens(ts) && pos < |ts|
    ensures var o := ParseStatement(ts, pos, errs);
      o.result.Ok? ==> StatementLed(ts, pos, o.result.value)
  {
    if Check(ts, pos, For) {
      ForShape(ts, pos + 1, errs);
    } else if Check(ts, pos, If) {
      IfShape(ts, pos + 1, errs);
    } else if Check(ts, pos, Print) {
      PrintShape(ts, pos + 1, errs);
    } else {
      OtherStatementDispatch(ts, pos, errs);
    }
  }

  /**
   * `declaration`'s `try` block: `class`, `fun` and `var` give exactly the
   * class, function and variable declarations; any other token a statement
   * led by it.
   */
  lemma DeclarationDispatch(ts: seq<Token>, pos: nat, errs: seq<Diagnostic>)
    requires ValidTokens(ts) && pos < |ts|
    ensures var o := DeclarationAttempt(ts, pos, errs);
      o.result.Ok? ==>
      (o.result.value.ClassStmt? <==> Check(ts, pos, Class)) &&
      (o.result.value.FunctionStmt? <==> Check(ts, pos, Fun)) &&
      (o.result.value.VarStmt? <==> Check(ts, pos, Var)) &&
      (!Check(ts, pos, Class) && !Check(ts, pos, Fun) && !Check(ts, pos, Var) ==> StatementLed(ts, pos, o.result.value))
  {
    StatementDispatch(ts, pos, errs);
  }

  // ---------------------------------------------------------------------------
  // Parse errors at the top level.

  /** A failing call-level expression makes every binary level fail the same way. */
  lemma {:induction false} FailureAtLevel(lv: Level, ts: seq<Token>, pos: nat, errs: seq<Diagnostic>)
    requires ValidTokens(ts) && pos < |ts| && !Matches(ts, pos, [Bang, Minus])
    requires ParseCall(ts, pos, errs).result.Fail?
    ensures ParseLevel(lv, ts, pos, errs) == ParseCall(ts, pos, errs)
    decreases 8 - LevelTier(lv)
  {
    if lv.FactorLevel? {
      assert ParseOperand(lv, ts, pos, errs) == ParseUnary(ts, pos, errs);
    } else {
      FailureAtLevel(Tighter(lv), ts, pos, errs);
    }
  }

  /**
   * In `parse`, a declaration that fails with a parse error is reported, the
   * tokens up to the next boundary are discarded, and then the `!!` on the
   * null declaration ends parsing with a null dereference.
   */
  lemma ParseErrorCrashes(ts: seq<Token>, pos: nat, errs: seq<Diagnostic>, stmts: seq<Stmt>, inBlock: bool)
    requires ValidTokens(ts) && pos < |ts| && !AtEnd(ts, pos) && !(inBlock && Check(ts, pos, RightBrace))
    requires DeclarationAttempt(ts, pos, errs).result == Fail(ParseError)
    ensures var attempt := DeclarationAttempt(ts, pos, errs);
      Declarations(ts, pos, errs, stmts, inBlock) ==
      Outcome(Fail(NullDereference), Synchronize(ts, attempt.pos), attempt.errors)
  {
  }

  /**
   * A program consisting of a stray ')' reports "Expect expression." at it and
   * then crashes.
   */
  lemma StrayParenCrashes(ts: seq<Token>)
    requires ValidTokens(ts) && |ts| == 2 && ts[0].kind == RightParen
    ensures Parse(ts) == Outcome(Fail(NullDereference), 1, [ErrorAt(ts[0], ExpectExpression)])
  {
    var errors := [ErrorAt(ts[0], ExpectExpression)];
    var thrown: Outcome<Expr> := Outcome(Fail(ParseError), 0, errors);
    var failed: Outcome<Stmt> := Outcome(Fail(ParseError), 0, errors);
    assert ParsePrimary(ts, 0, []) == thrown;
    assert ParseCall(ts, 0, []) == thrown;
    FailureAtLevel(OrLevel, ts, 0, []);
    assert ParseExpression(ts, 0, []) == thrown;
    assert ParseExpressionStatement(ts, 0, []) == failed;
    assert ParseOtherStatement(ts, 0, []) == failed;
    assert ParseStatement(ts, 0, []) == failed;
    assert DeclarationAttempt(ts, 0, []) == failed;
    ParseErrorCrashes(ts, 0, [], [], false);
    SynchronizeStops(ts, 0);
  }
}
