/**
 * The parser: a recursive-descent parser over the scanner's token list with a
 * single cursor field. Each method is proved to do what the grammar function
 * of the same name computes from the cursor it starts at.
 */
module Parsing {
  import opened Lexicon
  import opened Syntax
  import opened Grammar

  class Parser {
    const tokens: seq<Token>
    var current: nat
    /** The diagnostics reported so far (`KLox.error`). */
    var errors: seq<Diagnostic>

    /** The token list ends with EOF and the cursor is on it. */
    ghost predicate Valid()
      reads this
    {
      ValidTokens(tokens) && current < |tokens|
    }

    /** The state a grammar outcome describes: the cursor where it stops, its diagnostics, its result returned. */
    ghost predicate Reached<T>(o: Outcome<T>, r: Result<T>)
      reads this
    {
      current == o.pos && errors == o.errors && r == o.result
    }

    constructor (tokens: seq<Token>)
      requires ValidTokens(tokens)
      ensures Valid() && this.tokens == tokens && current == 0 && errors == []
    {
      this.tokens := tokens;
      current := 0;
      errors := [];
    }

    // -------------------------------------------------------------------------
    // The cursor.

    /** The token under the cursor: EOF exactly where the grammar is at its end. */
    function Peek(): (t: Token)
      requires Valid()
      reads this
      ensures t == tokens[current]
      ensures t.kind == Eof <==> AtEnd(tokens, current)
    {
      tokens[current]
    }

    /** The token the cursor last moved over, one before the current one. */
    function Previous(): (t: Token)
      requires Valid() && current > 0
      reads this
      ensures t == tokens[current - 1] && t in tokens[..current]
    {
      tokens[current - 1]
    }

    /** `isAtEnd` agrees with the grammar's `AtEnd`, and holds on the last token. */
    predicate IsAtEnd()
      requires Valid()
      reads this
      ensures IsAtEnd() <==> AtEnd(tokens, current)
      ensures current == |tokens| - 1 ==> IsAtEnd()
    {
      Peek().kind == Eof
    }

    /** `check` is false at EOF, whatever kind is asked for. */
    predicate Check(kind: TokenType)
      requires Valid()
      reads this
      ensures Check(kind) <==> Grammar.Check(tokens, current, kind)
      ensures IsAtEnd() ==> !Check(kind)
    {
      if IsAtEnd() then false else Peek().kind == kind
    }

    /** `advance` never moves past the EOF token, and returns the token it moved over. */
    method Advance() returns (t: Token)
      requires Valid() && (current > 0 || !IsAtEnd())
      modifies this`current
      ensures Valid()
      ensures current == Next(tokens, old(current))
      ensures old(IsAtEnd()) ==> current == old(current)
      ensures t == tokens[current - 1]
    {
      if !IsAtEnd() {
        current := current + 1;
      }
      t := Previous();
    }

    /** `match`: advances by exactly one token iff the current token's kind is one of `kinds`. */
    method Match(kinds: seq<TokenType>) returns (matched: bool)
      requires Valid()
      modifies this`current
      ensures Valid()
      ensures matched == Matches(tokens, old(current), kinds)
      ensures |kinds| == 1 ==> matched == Grammar.Check(tokens, old(current), kinds[0])
      ensures current == if matched then old(current) + 1 else old(current)
    {
      for i := 0 to |kinds|
        invariant current == old(current)
        invariant forall j | 0 <= j < i :: !Check(kinds[j])
      {
        if Check(kinds[i]) {
          var _ := Advance();
          return true;
        }
      }
      return false;
    }

    /** `error`: reports `message` against `token`. */
    method Error(token: Token, message: string)
      modifies this`errors
      ensures errors == old(errors) + [ErrorAt(token, message)]
    {
      errors := errors + [ErrorAt(token, message)];
    }

    /** `consume`: returns the expected token and advances, or reports a parse error without advancing. */
    method Consume(kind: TokenType, message: string) returns (r: Result<Token>)
      requires Valid()
      modifies this
      ensures Reached(Grammar.Consume(tokens, old(current), old(errors), kind, message), r)
    {
      if Check(kind) {
        var t := Advance();
        return Ok(t);
      }
      Error(Peek(), message);
      return Fail(ParseError);
    }

    // -------------------------------------------------------------------------
    // Expressions.

    method Expression() returns (r: Result<Expr>)
      requires Valid()
      modifies this
      ensures Reached(ParseExpression(tokens, old(current), old(errors)), r)
      decreases |tokens| - current, 20
    {
      r := Assignment();
    }

    /** `assignment`: right-associative; a Variable or GetExpr target is rewritten, any other is reported. */
    method Assignment() returns (r: Result<Expr>)
      requires Valid()
      modifies this
      ensures Reached(ParseAssignment(tokens, old(current), old(errors)), r)
      decreases |tokens| - current, 19
    {
      var expr := BinaryLevel(OrLevel);
      if expr.Fail? {
        return expr;
      }
      var m := Match([Equal]);
      if m {
        var equals := Previous();
        var value := Assignment();
        if value.Fail? {
          return value;
        }
        if expr.value.Variable? {
          return Ok(Assign(expr.value.id, expr.value.name, value.value));
        } else if expr.value.GetExpr? {
          return Ok(SetExpr(expr.value.loxObject, expr.value.name, value.value));
        }
        Error(equals, InvalidAssignmentTarget);
      }
      return expr;
    }

    /** `or`, `and`, `equality`, `comparison`, `term` and `factor`: an operand, then a left-associative loop. */
    method BinaryLevel(lv: Level) returns (r: Result<Expr>)
      requires Valid()
      modifies this
      ensures Reached(ParseLevel(lv, tokens, old(current), old(errors)), r)
      decreases |tokens| - current, Rank(lv)
    {
      var first := Operand(lv);
      if first.Fail? {
        return first;
      }
      var expr := first.value;
      while true
        invariant Valid() && old(current) <= current
        invariant Tier(expr) >= LevelTier(lv) && Nested(expr)
        invariant ParseLevel(lv, tokens, old(current), old(errors)) == LevelTail(lv, tokens, expr, current, errors)
        decreases |tokens| - current
      {
        var m := Match(Operators(lv));
        if !m {
          break;
        }
        var operator := Previous();
        var right := Operand(lv);
        if right.Fail? {
          return right;
        }
        expr := Node(lv, expr, operator, right.value);
      }
      return Ok(expr);
    }

    /** The operand parser a level calls: the next tighter level, or `unary` below `factor`. */
    method Operand(lv: Level) returns (r: Result<Expr>)
      requires Valid()
      modifies this
      ensures Reached(ParseOperand(lv, tokens, old(current), old(errors)), r)
      decreases |tokens| - current, Rank(lv) - 1
    {
      if lv.FactorLevel? {
        r := Unary();
      } else {
        r := BinaryLevel(Tighter(lv));
      }
    }

    method Unary() returns (r: Result<Expr>)
      requires Valid()
      modifies this
      ensures Reached(ParseUnary(tokens, old(current), old(errors)), r)
      decreases |tokens| - current, 4
    {
      var m := Match([Bang, Minus]);
      if m {
        var operator := Previous();
        var right := Unary();
        if right.Fail? {
          return right;
        }
        return Ok(Expr.Unary(operator, right.value));
      }
      r := Call();
    }

    /** `call`: a primary, then argument lists and property accesses, left to right. */
    method Call() returns (r: Result<Expr>)
      requires Valid()
      modifies this
      ensures Reached(ParseCall(tokens, old(current), old(errors)), r)
      decreases |tokens| - current, 3
    {
      var first := Primary();
      if first.Fail? {
        return first;
      }
      var expr := first.value;
      while true
        invariant Valid() && old(current) <= current
        invariant Tier(expr) == 8 && Nested(expr)
        invariant ParseCall(tokens, old(current), old(errors)) == CallTail(tokens, expr, current, errors)
        decreases |tokens| - current
      {
        var m := Match([LeftParen]);
        if m {
          var call := FinishCall(expr);
          if call.Fail? {
            return call;
          }
          expr := call.value;
        } else {
          m := Match([Dot]);
          if !m {
            break;
          }
          var name := Consume(Identifier, ExpectPropertyName);
          if name.Fail? {
            return Fail(name.fault);
          }
          expr := GetExpr(expr, name.value);
        }
      }
      return Ok(expr);
    }

    /** `finishCall`, after '(': the arguments, then ')'. */
    method FinishCall(callee: Expr) returns (r: Result<Expr>)
      requires Valid() && Tier(callee) == 8 && Nested(callee)
      modifies this
      ensures Reached(Grammar.FinishCall(tokens, callee, old(current), old(errors)), r)
      decreases |tokens| - current, 23
    {
      var arguments: seq<Expr> := [];
      if !Check(RightParen) {
        var args := ArgumentList();
        if args.Fail? {
          return Fail(args.fault);
        }
        arguments := args.value;
      }
      var paren := Consume(RightParen, ExpectParenAfterArguments);
      if paren.Fail? {
        return Fail(paren.fault);
      }
      return Ok(Expr.Call(callee, paren.value, arguments));
    }

    /** The do-while argument loop of `finishCall`. */
    method ArgumentList() returns (r: Result<seq<Expr>>)
      requires Valid()
      modifies this
      ensures Reached(Arguments(tokens, old(current), old(errors), []), r)
      decreases |tokens| - current, 22
    {
      var arguments: seq<Expr> := [];
      while true
        invariant Valid() && old(current) <= current
        invariant forall a | a in arguments :: Nested(a)
        invariant Arguments(tokens, old(current), old(errors), []) == Arguments(tokens, current, errors, arguments)
        decreases |tokens| - current
      {
        if |arguments| >= 255 {
          Error(Peek(), TooManyArguments);
        }
        var e := Expression();
        if e.Fail? {
          return Fail(e.fault);
        }
        arguments := arguments + [e.value];
        var m := Match([Comma]);
        if !m {
          break;
        }
      }
      return Ok(arguments);
    }

    method Primary() returns (r: Result<Expr>)
      requires Valid()
      modifies this
      ensures Reached(ParsePrimary(tokens, old(current), old(errors)), r)
      decreases |tokens| - current, 1
    {
      var m := Match([True]);
      if m { return Ok(Literal(Bool(true))); }
      m := Match([False]);
      if m { return Ok(Literal(Bool(false))); }
      m := Match([TokenType.Nil]);
      if m { return Ok(Literal(Value.Nil)); }
      m := Match([Number, String]);
      if m { return Ok(Literal(Previous().literal)); }
      m := Match([Identifier]);
      if m { return Ok(Variable(current - 1, Previous())); }
      m := Match([LeftParen]);
      if m {
        r := Group();
        return;
      }
      Error(Peek(), ExpectExpression);
      return Fail(ParseError);
    }

    /** The parenthesized branch of `primary`, after its '('. */
    method Group() returns (r: Result<Expr>)
      requires Valid()
      modifies this
      ensures Reached(ParseGroup(tokens, old(current), old(errors)), r)
      decreases |tokens| - current, 21
    {
      var e := Expression();
      if e.Fail? {
        return e;
      }
      var paren := Consume(RightParen, ExpectParenAfterExpression);
      if paren.Fail? {
        return Fail(paren.fault);
      }
      return Ok(Grouping(e.value));
    }
  
    // -------------------------------------------------------------------------
    // Statements and declarations.

    /** `synchronize`: skip tokens until just after a ';', or until a statement keyword or EOF is next. */
    method Synchronize()
      requires Valid() && (current > 0 || !IsAtEnd())
      modifies this`current
      ensures Valid() && current == Grammar.Synchronize(tokens, old(current))
    {
      var _ := Advance();
      while !IsAtEnd()
        invariant Valid() && current > 0
        invariant Grammar.Synchronize(tokens, old(current)) == SyncLoop(tokens, current)
        decreases |tokens| - current
      {
        if Previous().kind == Semicolon {
          return;
        }
        for i := 0 to |StatementStarts|
          invariant forall j | 0 <= j < i :: Peek().kind != StatementStarts[j]
        {
          if Peek().kind == StatementStarts[i] {
            return;
          }
        }
        var _ := Advance();
      }
    }

    /** `declaration`: a parse error is recovered from by `synchronize` and yields no statement. */
    method Declaration() returns (r: Result<Option<Stmt>>)
      requires Valid() && !IsAtEnd()
      modifies this
      ensures Reached(ParseDeclaration(tokens, old(current), old(errors)), r)
      decreases |tokens| - current, 4
    {
      var attempt := Attempt();
      if attempt.Ok? {
        return Ok(Some(attempt.value));
      }
      if attempt.fault == ParseError {
        Synchronize();
        return Ok(None);
      }
      return Fail(attempt.fault);
    }

    /** The `try` block of `declaration`: a class, a function, a variable or a statement. */
    method Attempt() returns (r: Result<Stmt>)
      requires Valid() && !IsAtEnd()
      modifies this
      ensures Reached(DeclarationAttempt(tokens, old(current), old(errors)), r)
      decreases |tokens| - current, 3
    {
      var m := Match([Class]);
      if m {
        r := ClassDeclaration();
        return;
      }
      m := Match([Fun]);
      if m {
        var f := Function("function");
        if f.Fail? {
          return Fail(f.fault);
        }
        return Ok(FunctionStmt(f.value));
      }
      m := Match([Var]);
      if m {
        r := VarDeclaration();
        return;
      }
      r := Statement();
    }
  
    /** `classDeclaration`, after `class`: the name, then methods up to '}'. */
    method ClassDeclaration() returns (r: Result<Stmt>)
      requires Valid()
      modifies this
      ensures Reached(ParseClass(tokens, old(current), old(errors)), r)
      decreases |tokens| - current, 0
    {
      var name := Consume(Identifier, ExpectClassName);
      if name.Fail? {
        return Fail(name.fault);
      }
      var open := Consume(LeftBrace, ExpectBraceBeforeClassBody);
      if open.Fail? {
        return Fail(open.fault);
      }
      var methods := MethodList();
      if methods.Fail? {
        return Fail(methods.fault);
      }
      var close := Consume(RightBrace, ExpectBraceAfterClassBody);
      if close.Fail? {
        return Fail(close.fault);
      }
      return Ok(ClassStmt(name.value, None, methods.value));
    }

    /** The method loop of `classDeclaration`. */
    method MethodList() returns (r: Result<seq<FunctionDecl>>)
      requires Valid()
      modifies this
      ensures Reached(Methods(tokens, old(current), old(errors), []), r)
      decreases |tokens| - current, 2
    {
      var methods: seq<FunctionDecl> := [];
      while !Check(RightBrace) && !IsAtEnd()
        invariant Valid() && old(current) <= current
        invariant Methods(tokens, old(current), old(errors), []) == Methods(tokens, current, errors, methods)
        decreases |tokens| - current
      {
        var m := Function("method");
        if m.Fail? {
          return Fail(m.fault);
        }
        methods := methods + [m.value];
      }
      return Ok(methods);
    }

    /** `function(kind)`, at the name of a function or method. */
    method Function(kind: string) returns (r: Result<FunctionDecl>)
      requires Valid()
      modifies this
      ensures Reached(ParseFunction(tokens, old(current), old(errors), kind), r)
      decreases |tokens| - current, 1
    {
      var signature := Signature(kind);
      if signature.Fail? {
        return Fail(signature.fault);
      }
      var body := Block();
      if body.Fail? {
        return Fail(body.fault);
      }
      return Ok(FunctionDecl(signature.value.name, signature.value.params, body.value));
    }

    /** The head of `function(kind)`, up to and including the '{' of the body. */
    method Signature(kind: string) returns (r: Result<Grammar.Signature>)
      requires Valid()
      modifies this
      ensures Reached(ParseSignature(tokens, old(current), old(errors), kind), r)
    {
      var name := Consume(Identifier, "Expect " + kind + " name.");
      if name.Fail? {
        return Fail(name.fault);
      }
      var open := Consume(LeftParen, "Expect '(' after " + kind + " name.");
      if open.Fail? {
        return Fail(open.fault);
      }
      var parameters: seq<Token> := [];
      if !Check(RightParen) {
        var list := ParameterList();
        if list.Fail? {
          return Fail(list.fault);
        }
        parameters := list.value;
      }
      var close := Consume(RightParen, ExpectParenAfterParameters);
      if close.Fail? {
        return Fail(close.fault);
      }
      var brace := Consume(LeftBrace, "Expect '{' before " + kind + " body.");
      if brace.Fail? {
        return Fail(brace.fault);
      }
      return Ok(Grammar.Signature(name.value, parameters));
    }

    /** The do-while parameter loop of `function`. */
    method ParameterList() returns (r: Result<seq<Token>>)
      requires Valid()
      modifies this
      ensures Reached(Parameters(tokens, old(current), old(errors), []), r)
    {
      var parameters: seq<Token> := [];
      while true
        invariant Valid() && old(current) <= current
        invariant Parameters(tokens, old(current), old(errors), []) == Parameters(tokens, current, errors, parameters)
        decreases |tokens| - current
      {
        if |parameters| >= 255 {
          Error(Peek(), TooManyParameters);
        }
        var p := Consume(Identifier, ExpectParameterName);
        if p.Fail? {
          return Fail(p.fault);
        }
        parameters := parameters + [p.value];
        var m := Match([Comma]);
        if !m {
          break;
        }
      }
      return Ok(parameters);
    }

    /** `varDeclaration`, after `var`. */
    method VarDeclaration() returns (r: Result<Stmt>)
      requires Valid()
      modifies this
      ensures Reached(ParseVarDeclaration(tokens, old(current), old(errors)), r)
    {
      var name := Consume(Identifier, ExpectVariableName);
      if name.Fail? {
        return Fail(name.fault);
      }
      var initializer: Option<Expr> := None;
      var m := Match([Equal]);
      if m {
        var e := Expression();
        if e.Fail? {
          return Fail(e.fault);
        }
        initializer := Some(e.value);
      }
      var semicolon := Consume(Semicolon, ExpectSemicolonAfterVariable);
      if semicolon.Fail? {
        return Fail(semicolon.fault);
      }
      return Ok(VarStmt(name.value, initializer));
    }

    /** `statement`: dispatch on the leading keyword; anything else is an expression statement. */
    method Statement() returns (r: Result<Stmt>)
      requires Valid()
      modifies this
      ensures Reached(ParseStatement(tokens, old(current), old(errors)), r)
      decreases |tokens| - current, 2
    {
      var m := Match([For]);
      if m {
        r := ForStatement();
        return;
      }
      m := Match([If]);
      if m {
        r := IfStatement();
        return;
      }
      m := Match([Print]);
      if m {
        r := PrintStatement();
        return;
      }
      r := OtherStatement();
    }

    /** The alternatives of `statement` after `print`. */
    method OtherStatement() returns (r: Result<Stmt>)
      requires Valid()
      modifies this
      ensures Reached(ParseOtherStatement(tokens, old(current), old(errors)), r)
      decreases |tokens| - current, 1
    {
      var m := Match([Return]);
      if m {
        r := ReturnStatement();
        return;
      }
      m := Match([While]);
      if m {
        r := WhileStatement();
        return;
      }
      m := Match([LeftBrace]);
      if m {
        var statements := Block();
        if statements.Fail? {
          return Fail(statements.fault);
        }
        return Ok(BlockStmt(statements.value));
      }
      r := ExpressionStatement();
    }

    /** An expression that may be absent: none when the next token is `stop`. */
    method OptionalExpression(stop: TokenType) returns (r: Result<Option<Expr>>)
      requires Valid()
      modifies this
      ensures Reached(Grammar.OptionalExpression(tokens, old(current), old(errors), stop), r)
    {
      if Check(stop) {
        return Ok(None);
      }
      var e := Expression();
      if e.Fail? {
        return Fail(e.fault);
      }
      return Ok(Some(e.value));
    }

    /** The initializer clause of `forStatement`. */
    method ForInitializer() returns (r: Result<Option<Stmt>>)
      requires Valid()
      modifies this
      ensures Reached(Grammar.ForInitializer(tokens, old(current), old(errors)), r)
    {
      var m := Match([Semicolon]);
      if m {
        return Ok(None);
      }
      var initializer;
      m := Match([Var]);
      if m {
        initializer := VarDeclaration();
      } else {
        initializer := ExpressionStatement();
      }
      if initializer.Fail? {
        return Fail(initializer.fault);
      }
      return Ok(Some(initializer.value));
    }

    /** `forStatement`, after `for`: the clauses, the body, then the loop they stand for. */
    method ForStatement() returns (r: Result<Stmt>)
      requires Valid()
      modifies this
      ensures Reached(ParseFor(tokens, old(current), old(errors)), r)
      decreases |tokens| - current, 0
    {
      var clauses := LoopClauses();
      if clauses.Fail? {
        return Fail(clauses.fault);
      }
      var body := Statement();
      if body.Fail? {
        return body;
      }
      var loop := body.value;
      if clauses.value.inc.Some? {
        loop := BlockStmt([loop, ExpressionStmt(clauses.value.inc.value)]);
      }
      loop := WhileStmt(if clauses.value.cond.Some? then clauses.value.cond.value else Literal(Bool(true)), loop);
      if clauses.value.init.Some? {
        loop := BlockStmt([clauses.value.init.value, loop]);
      }
      return Ok(loop);
    }

    /** The head of `forStatement`, up to and including its ')'. */
    method LoopClauses() returns (r: Result<Grammar.LoopClauses>)
      requires Valid()
      modifies this
      ensures Reached(ParseLoopClauses(tokens, old(current), old(errors)), r)
    {
      var open := Consume(LeftParen, ExpectParenAfterFor);
      if open.Fail? {
        return Fail(open.fault);
      }
      var initializer := ForInitializer();
      if initializer.Fail? {
        return Fail(initializer.fault);
      }
      var condition := OptionalExpression(Semicolon);
      if condition.Fail? {
        return Fail(condition.fault);
      }
      var semicolon := Consume(Semicolon, ExpectSemicolonAfterLoopCondition);
      if semicolon.Fail? {
        return Fail(semicolon.fault);
      }
      var increment := OptionalExpression(RightParen);
      if increment.Fail? {
        return Fail(increment.fault);
      }
      var paren := Consume(RightParen, ExpectParenAfterLoopClauses);
      if paren.Fail? {
        return Fail(paren.fault);
      }
      return Ok(Grammar.LoopClauses(initializer.value, condition.value, increment.value));
    }

    /** `ifStatement`, after `if`. */
    method IfStatement() returns (r: Result<Stmt>)
      requires Valid()
      modifies this
      ensures Reached(ParseIf(tokens, old(current), old(errors)), r)
      decreases |tokens| - current, 0
    {
      var condition := Condition(ExpectParenAfterIf, ExpectParenAfterIfCondition);
      if condition.Fail? {
        return Fail(condition.fault);
      }
      var thenBranch := Statement();
      if thenBranch.Fail? {
        return thenBranch;
      }
      var elseBranch: Option<Stmt> := None;
      var m := Match([Else]);
      if m {
        var e := Statement();
        if e.Fail? {
          return Fail(e.fault);
        }
        elseBranch := Some(e.value);
      }
      return Ok(IfStmt(condition.value, thenBranch.value, elseBranch));
    }

    /** `whileStatement`, after `while`. */
    method WhileStatement() returns (r: Result<Stmt>)
      requires Valid()
      modifies this
      ensures Reached(ParseWhile(tokens, old(current), old(errors)), r)
      decreases |tokens| - current, 0
    {
      var condition := Condition(ExpectParenAfterWhile, ExpectParenAfterCondition);
      if condition.Fail? {
        return Fail(condition.fault);
      }
      var body := Statement();
      if body.Fail? {
        return body;
      }
      return Ok(WhileStmt(condition.value, body.value));
    }

    /** The parenthesized condition of `if` and `while`. */
    method Condition(openMessage: string, closeMessage: string) returns (r: Result<Expr>)
      requires Valid()
      modifies this
      ensures Reached(ParseCondition(tokens, old(current), old(errors), openMessage, closeMessage), r)
    {
      var open := Consume(LeftParen, openMessage);
      if open.Fail? {
        return Fail(open.fault);
      }
      var condition := Expression();
      if condition.Fail? {
        return Fail(condition.fault);
      }
      var close := Consume(RightParen, closeMessage);
      if close.Fail? {
        return Fail(close.fault);
      }
      return condition;
    }

    /** `printStatement`, after `print`. */
    method PrintStatement() returns (r: Result<Stmt>)
      requires Valid()
      modifies this
      ensures Reached(ParsePrint(tokens, old(current), old(errors)), r)
    {
      var value := Expression();
      if value.Fail? {
        return Fail(value.fault);
      }
      var semicolon := Consume(Semicolon, ExpectSemicolonAfterValue);
      if semicolon.Fail? {
        return Fail(semicolon.fault);
      }
      return Ok(PrintStmt(value.value));
    }

    /** `returnStatement`, after the `return` keyword. */
    method ReturnStatement() returns (r: Result<Stmt>)
      requires Valid() && current > 0
      modifies this
      ensures Reached(ParseReturn(tokens, tokens[old(current) - 1], old(current), old(errors)), r)
    {
      var keyword := Previous();
      var value := OptionalExpression(Semicolon);
      if value.Fail? {
        return Fail(value.fault);
      }
      var semicolon := Consume(Semicolon, ExpectSemicolonAfterReturnValue);
      if semicolon.Fail? {
        return Fail(semicolon.fault);
      }
      return Ok(ReturnStmt(keyword, value.value));
    }

    /** `expressionStatement`. */
    method ExpressionStatement() returns (r: Result<Stmt>)
      requires Valid()
      modifies this
      ensures Reached(ParseExpressionStatement(tokens, old(current), old(errors)), r)
    {
      var e := Expression();
      if e.Fail? {
        return Fail(e.fault);
      }
      var semicolon := Consume(Semicolon, ExpectSemicolonAfterExpression);
      if semicolon.Fail? {
        return Fail(semicolon.fault);
      }
      return Ok(ExpressionStmt(e.value));
    }

    /** `block`, after '{': declarations up to '}' or EOF, then the '}'. */
    method Block() returns (r: Result<seq<Stmt>>)
      requires Valid()
      modifies this
      ensures Reached(ParseBlock(tokens, old(current), old(errors)), r)
      decreases |tokens| - current, 6
    {
      var statements: seq<Stmt> := [];
      while !Check(RightBrace) && !IsAtEnd()
        invariant Valid() && old(current) <= current
        invariant Declarations(tokens, old(current), old(errors), [], true) == Declarations(tokens, current, errors, statements, true)
        decreases |tokens| - current
      {
        var d := Declaration();
        if d.Fail? {
          return Fail(d.fault);
        }
        if d.value.None? {
          return Fail(NullDereference);
        }
        statements := statements + [d.value.value];
      }
      var brace := Consume(RightBrace, ExpectBraceAfterBlock);
      if brace.Fail? {
        return Fail(brace.fault);
      }
      return Ok(statements);
    }

    /** `parse`: declarations up to EOF. A declaration that recovered from an error aborts the parse. */
    method Parse() returns (r: Result<seq<Stmt>>)
      requires Valid()
      modifies this
      ensures Reached(Declarations(tokens, old(current), old(errors), [], false), r)
    {
      var statements: seq<Stmt> := [];
      while !IsAtEnd()
        invariant Valid() && old(current) <= current
        invariant Declarations(tokens, old(current), old(errors), [], false) == Declarations(tokens, current, errors, statements, false)
        decreases |tokens| - current
      {
        var d := Declaration();
        if d.Fail? {
          return Fail(d.fault);
        }
        if d.value.None? {
          return Fail(NullDereference);
        }
        statements := statements + [d.value.value];
      }
      return Ok(statements);
    }
  }

  /** Parses a whole token list from its start: the statements (or the failure) and the diagnostics reported. */
  method ParseTokens(tokens: seq<Token>) returns (r: Result<seq<Stmt>>, errors: seq<Diagnostic>)
    requires ValidTokens(tokens)
    ensures r == Grammar.Parse(tokens).result && errors == Grammar.Parse(tokens).errors
  {
    var parser := new Parser(tokens);
    r := parser.Parse();
    errors := parser.errors;
  }
}
