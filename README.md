# A verified model of the Kotlin Lox front end

This project models, in Dafny, the front half of a tree-walking interpreter
for the Lox language written in Kotlin, together with its small runtime
object layer:

- the **scanner**, which turns source text into tokens in one pass with three
  cursor fields;
- the **recursive-descent parser**, which turns tokens into syntax trees with
  one cursor field, six left-associative binary levels, right-associative
  assignment, `for` desugaring and error recovery;
- the **resolver**, which walks the trees with a stack of scopes, computes the
  binding distance of every local variable reference and reports the static
  errors;
- the **operator semantics** of the interpreter: truthiness, equality, the
  operand checks of the unary and binary operators and `stringify`;
- the **runtime objects**: environments, functions, classes and instances;
- the **syntax-tree printer**, which renders an expression as parenthesized
  prefix text.

Each imperative component is a Dafny `class` with the Kotlin class's fields.
Each of its methods is proved to perform exactly the transition described by
a specification function:

- `Scanning.LexOne` and `Scanning.ScanFrom` for the scanner;
- the `Grammar` functions for the parser;
- the `Resolution` functions for the resolver.

The properties the Kotlin code promises are then proved about those
functions, as lemmas in `Scanning`, `GrammarLaws`, `ResolutionLaws`,
`OperatorLaws` and `RuntimeLaws`. Every module is listed below with its
Kotlin source file:

| module | file | models |
|---|---|---|
| `Lexicon` | lexicon.dfy | `Token`, the token kinds, `KLox.error`'s diagnostic format |
| `Syntax` | syntax.dfy | `Expr.kt`, `Stmt.kt` |
| `Scanning` | scanner.dfy | `Scanner.kt` |
| `Grammar` | grammar.dfy | `Parser.kt` as functions over a token list and a cursor |
| `Parsing` | parser.dfy | `Parser.kt` as a class with the `current` field |
| `GrammarLaws` | laws.dfy | associativity, assignment targets, error recovery |
| `Resolution` | resolution.dfy | `Resolver.kt` as functions over the resolver's state |
| `Resolving` | resolver.dfy | `Resolver.kt` as a class with its fields |
| `ResolutionLaws` | resolution_laws.dfy | binding distances and static errors of small programs |
| `Interpreting` | interpreter.dfy | `Interpreter.kt` |
| `OperatorLaws` | operator_laws.dfy | the operator rules over whole expressions |
| `Runtime` | runtime.dfy | `Environment.kt`, `LoxFunction.kt`, `LoxClass.kt`, `LoxInstance.kt` |
| `RuntimeLaws` | runtime_laws.dfy | lookup after define and set, shadowing, parameter binding |
| `Printing` | printer.dfy | `ASTPrinter.kt` |

Errors reported through `KLox.error` become a list of `Diagnostic`s that each
stage keeps. Kotlin exceptions become result datatypes. The crash paths of
the code are explicit outcomes:

- `Aborted` in the scanner;
- `Fail(NullDereference)` in the parser;
- `CastFailure` in the interpreter;
- `MissingArgument` in `LoxFunction.Call`.

`Expr` nodes that the resolver binds carry an explicit `id`, because Kotlin
identifies nodes by object identity. The parser uses the index of the node's
name token as the id.

## Model

| member | source | states |
|---|---|---|
| Lexicon.Spelling | src/main/kotlin/Scanner.kt:45-59 | punctuation and operator kinds, and only they, have a fixed non-empty spelling |
| Lexicon.ErrorAtLine | src/main/kotlin/KLox.kt:67-69 | a line-only error has an empty location and keeps line and message |
| Lexicon.ErrorAt | src/main/kotlin/KLox.kt:71-77 | an error at a token is located " at end" for EOF and " at '<lexeme>'" otherwise, on the token's line |
| Scanning.KeywordTableSound | src/main/kotlin/Scanner.kt:12-29 | every entry of the keyword table maps to a keyword kind |
| Scanning.IsAlpha | src/main/kotlin/Scanner.kt:171-175 | a character that starts an identifier is ASCII and is not a digit: letters beyond ASCII are not identifier characters |
| Scanning.IsAlphaNumeric | src/main/kotlin/Scanner.kt:181-183 | a character that continues an identifier is ASCII and is never the NUL that `peek` gives at the end of the source |
| Scanning.CharacterClasses | src/main/kotlin/Scanner.kt:171-183 | `isDigit` holds exactly for the ten digits, `isAlpha` exactly for the 52 ASCII letters and '_', `isAlphaNumeric` exactly for their union |
| Scanning.IdentifierKind | src/main/kotlin/Scanner.kt:100-103 | an identifier-shaped lexeme gets its keyword kind if it has one, else Identifier |
| Scanning.RunEnd | src/main/kotlin/Scanner.kt:96-98 | the skip loops stop at the end of the longest run: every character before continues it, the one at the end does not |
| Scanning.NumberEnd | src/main/kotlin/Scanner.kt:106-116 | a number lexeme ends within the source, after its first digit |
| Scanning.LexOne | src/main/kotlin/Scanner.kt:41-93 | one `scanToken` always moves the cursor forward within the source, unless it meets an unterminated string, which it reports as "Unterminated String." |
| Scanning.LexSymbol | src/main/kotlin/Scanner.kt:44-89 | the punctuation, operator, blank, comment and unknown-character branches always move forward and never crash |
| Scanning.LexString | src/main/kotlin/Scanner.kt:120-134 | the string branch either emits a token or crashes with "Unterminated String." |
| Scanning.LexNumber | src/main/kotlin/Scanner.kt:106-119 | the number branch emits a Number token on the current line |
| Scanning.LexIdentifier | src/main/kotlin/Scanner.kt:95-104 | the identifier branch emits a token without a literal on the current line |
| Scanning.StringTokensShaped | src/main/kotlin/Scanner.kt:120-134 | a string token's lexeme is quoted, its literal is the text between the quotes, and the line moves by the line breaks inside |
| Scanning.NumberTokensShaped | src/main/kotlin/Scanner.kt:106-119 | a number token's lexeme is number text and its literal is the lexeme's decimal value |
| Scanning.NumberTextShape | src/main/kotlin/Scanner.kt:106-116 | a number lexeme is digits with at most one inner '.', and holds no line break |
| Scanning.IdentifierTokensShaped | src/main/kotlin/Scanner.kt:95-104 | an identifier token's lexeme is an alphanumeric run starting with a letter or '_', and its kind agrees with the keyword table |
| Scanning.PunctuationSpelling | src/main/kotlin/Scanner.kt:45-54 | a one-character token's lexeme is its fixed spelling |
| Scanning.OperatorSpelling | src/main/kotlin/Scanner.kt:56-59 | `!`, `=`, `<`, `>` spell their one- or two-character operator |
| Scanning.FixedTokensShaped | src/main/kotlin/Scanner.kt:44-89 | a punctuation or operator token's lexeme is its spelling, with no literal |
| Scanning.FixedTokensWellFormed | src/main/kotlin/Scanner.kt:44-89 | the branches that are not strings, numbers or identifiers emit only well-formed tokens |
| Scanning.LexOneEmitsWellFormed | src/main/kotlin/Scanner.kt:166-169 | every token a step adds has the lexeme `source[start..current)`, agrees with its literal and is not EOF |
| Scanning.LexOneCountsLines | src/main/kotlin/Scanner.kt:62-66 | a step that skips or reports moves the line counter by exactly the line breaks it passes |
| Scanning.ScanFromShape | src/main/kotlin/Scanner.kt:31-39 | a completed pass from any cursor ends with one EOF token carrying the final line count, and only well-formed tokens before it |
| Scanning.ScanEndsWithEof | src/main/kotlin/Scanner.kt:31-39 | a completed scan ends with exactly one EOF token, with an empty lexeme, on line 1 + the number of line breaks |
| Scanning.ScanFromAborts | src/main/kotlin/Scanner.kt:126-130 | a pass that crashes has reported "Unterminated String." as its last error |
| Scanning.OperatorsLongestMatch | src/main/kotlin/Scanner.kt:56-59 | `!`, `=`, `<`, `>` followed by `=` give the two-character token, otherwise the one-character one |
| Scanning.CommentsAreSkipped | src/main/kotlin/Scanner.kt:68-76 | `//` skips up to, not including, the next line break and emits nothing; a lone `/` emits Slash |
| Scanning.WhitespaceIsSkipped | src/main/kotlin/Scanner.kt:62-66 | space, `\r` and `\t` emit nothing; `\n` emits nothing and adds one line |
| Scanning.NumbersAreMaximal | src/main/kotlin/Scanner.kt:106-118 | a number is a maximal digit run, with a fraction only when '.' is followed by a digit |
| Scanning.TrailingDotIsSeparate | src/main/kotlin/Scanner.kt:110-116 | "1." scans as Number 1, Dot, EOF, with no error |
| Scanning.IdentifiersAreMaximal | src/main/kotlin/Scanner.kt:95-104 | an identifier is a maximal alphanumeric run; its kind is its keyword-table entry if present, else Identifier |
| Scanning.StringsAreQuoted | src/main/kotlin/Scanner.kt:120-134 | a string literal is the text strictly between the quotes; the step crashes exactly when no closing quote follows |
| Scanning.UnknownCharactersAreReported | src/main/kotlin/Scanner.kt:82-89 | an unknown character is reported as "Unexpected Character: c" on its line and skipped |
| Scanning.Scanner.constructor | src/main/kotlin/Scanner.kt:2-6 | a new scanner starts at cursor 0 on line 1 with no errors |
| Scanning.Scanner.IsAtEnd | src/main/kotlin/Scanner.kt:154-156 | with the cursor inside the source, `isAtEnd` holds exactly when the cursor is past the last character |
| Scanning.Scanner.Peek | src/main/kotlin/Scanner.kt:144-147 | `peek` is the character under the cursor, and at the end a NUL, which neither continues an identifier nor is a digit |
| Scanning.Scanner.PeekNext | src/main/kotlin/Scanner.kt:149-152 | `peekNext` is the character after the cursor, and past the end a NUL, so a '.' that ends the source never starts a fraction |
| Scanning.Scanner.Advance | src/main/kotlin/Scanner.kt:158-160 | `advance` returns the current character and moves one step |
| Scanning.Scanner.Match | src/main/kotlin/Scanner.kt:136-142 | `match` consumes the expected character iff it is next, and moves by one or zero |
| Scanning.Scanner.AddToken | src/main/kotlin/Scanner.kt:166-169 | the token appended has the lexeme `source[start..current)` and the current line |
| Scanning.Scanner.Identifier | src/main/kotlin/Scanner.kt:95-104 | `identifier` performs the step `LexIdentifier` describes |
| Scanning.Scanner.Number | src/main/kotlin/Scanner.kt:106-119 | `number` performs the step `LexNumber` describes |
| Scanning.Scanner.AdvanceNumber | src/main/kotlin/Scanner.kt:107-116 | the loops of `number` stop at `NumberEnd` |
| Scanning.Scanner.StringLiteral | src/main/kotlin/Scanner.kt:120-134 | `string` performs the step `LexString` describes, crash included |
| Scanning.Scanner.SkipStringBody | src/main/kotlin/Scanner.kt:121-124 | the string loop stops at the closing quote or the end, adding one line per line break |
| Scanning.Scanner.Symbol | src/main/kotlin/Scanner.kt:44-89 | the other branches of `scanToken` perform the step `LexSymbol` describes |
| Scanning.Scanner.ScanToken | src/main/kotlin/Scanner.kt:41-93 | `scanToken` performs exactly the step `LexOne` describes |
| Scanning.Scanner.AdvanceWhile | src/main/kotlin/Scanner.kt:96-98 | the identifier and comment loops stop at `RunEnd` |
| Scanning.Scanner.ScanTokens | src/main/kotlin/Scanner.kt:31-39 | `scanTokens` returns the tokens and reports the errors `ScanFrom` describes, or crashes where it does |
| Scanning.ScanSource | src/main/kotlin/Scanner.kt:31-39 | scanning a fresh scanner's source yields exactly `Scan` of it |
| Grammar.Next | src/main/kotlin/Parser.kt:357-360 | `advance` moves one token further, except at EOF where it stays |
| GrammarLaws.TokenTests | src/main/kotlin/Parser.kt:343-346 | a valid token list is at its end on its last token; `check` holds only on a token of that kind that is not EOF, so `check(EOF)` never holds; `match` holds exactly when `check` holds for one of its kinds |
| Grammar.Throw | src/main/kotlin/Parser.kt:367-370 | `throw error(...)` reports against the token and fails without moving |
| Grammar.Consume | src/main/kotlin/Parser.kt:352-355 | `consume` returns the expected token and advances by one, or reports a parse error without advancing |
| Grammar.ThenConsume | src/main/kotlin/Parser.kt:122-123 | a part followed by a required token succeeds iff both do, and keeps the part's value |
| Grammar.Node | src/main/kotlin/Parser.kt:26-64 | a binary level builds `Logical` for `or`/`and` and `Binary` otherwise, with operands in order |
| Grammar.ParseOperand | src/main/kotlin/Parser.kt:26-73 | the operand of a binary level is the next tighter level, and `unary` below `factor`; it consumes input on success and binds more tightly than the level |
| Grammar.ParsePrimary | src/main/kotlin/Parser.kt:108-128 | `primary` consumes at least one token on success and yields a primary-tier tree |
| Grammar.ParseGroup | src/main/kotlin/Parser.kt:121-125 | a parenthesized expression yields a Grouping |
| Grammar.ParseCall | src/main/kotlin/Parser.kt:75-90 | `call` keeps the cursor on the tokens, only appends errors and yields a call-tier tree |
| Grammar.CallTail | src/main/kotlin/Parser.kt:78-87 | the loop of `call` never moves back and keeps the call tier |
| Grammar.FinishCall | src/main/kotlin/Parser.kt:92-106 | `finishCall` yields a Call of the given callee |
| Grammar.Arguments | src/main/kotlin/Parser.kt:94-101 | the argument loop extends the list; at 255 arguments it reports "Can't have more than 255 arguments." and goes on |
| Grammar.ParseUnary | src/main/kotlin/Parser.kt:66-73 | `unary` yields a unary-tier tree |
| Grammar.ParseLevel | src/main/kotlin/Parser.kt:26-64 | each binary level yields a tree that binds at least as tightly as the level, operators of one level nested to the left |
| Grammar.LevelTail | src/main/kotlin/Parser.kt:28-32 | the while loop of a level keeps the level's precedence |
| Grammar.ParseAssignment | src/main/kotlin/Parser.kt:272-290 | `assignment` consumes input on success and yields a well-nested tree; `GrammarLaws.AssignmentRewrite` and `GrammarLaws.NoAssignment` state the tree it builds |
| Grammar.AssignTo | src/main/kotlin/Parser.kt:279-289 | a variable target becomes an Assign to its name, a property target a SetExpr on its object with the same name, and any other target is returned unchanged |
| Grammar.ParseExpression | src/main/kotlin/Parser.kt:130-132 | `expression` consumes input on success and yields a well-nested tree |
| Grammar.SyncLoop | src/main/kotlin/Parser.kt:374-382 | the recovery loop never moves back and stays on the tokens |
| Grammar.Synchronize | src/main/kotlin/Parser.kt:372-383 | `synchronize` stays on the tokens and, unless already at EOF, discards at least one token; `GrammarLaws.SynchronizeStops` states where it stops |
| Grammar.OptionalExpression | src/main/kotlin/Parser.kt:322-325 | an optional expression is absent exactly when the stop token is next |
| Grammar.ParseDeclaration | src/main/kotlin/Parser.kt:134-144 | `declaration` yields a statement that consumed input, or null after recovery; it never fails with a parse error |
| Grammar.DeclarationAttempt | src/main/kotlin/Parser.kt:135-139 | the try block consumes at least one token on success |
| Grammar.FunctionStatement | src/main/kotlin/Parser.kt:137 | a function declaration becomes a function statement with the same cursor and errors |
| Grammar.ParseClass | src/main/kotlin/Parser.kt:146-157 | `classDeclaration` yields a class statement without a superclass |
| Grammar.Methods | src/main/kotlin/Parser.kt:151-153 | the method loop never moves back and only appends errors |
| Grammar.ParseFunction | src/main/kotlin/Parser.kt:252-270 | `function` consumes at least one token on success; `GrammarLaws.FunctionDeclaration` states the declaration it builds |
| Grammar.ParseSignature | src/main/kotlin/Parser.kt:252-267 | the head of `function` names the function by the token it starts at and gives it identifier parameters |
| Grammar.Parameters | src/main/kotlin/Parser.kt:257-264 | the parameter loop extends the list with identifiers; at 255 parameters it reports "Can't have more than 255 parameters" and goes on |
| Grammar.ParseVarDeclaration | src/main/kotlin/Parser.kt:331-341 | `varDeclaration` yields a variable statement named by the token after `var` |
| Grammar.ParseStatement | src/main/kotlin/Parser.kt:159-168 | `statement` consumes at least one token on success; `GrammarLaws.StatementDispatch` states which statement each leading token gives |
| Grammar.ParseOtherStatement | src/main/kotlin/Parser.kt:163-167 | the `return`, `while`, block and expression alternatives consume at least one token on success; `GrammarLaws.OtherStatementDispatch` states which statement each gives |
| Grammar.ParseExpressionStatement | src/main/kotlin/Parser.kt:246-250 | `expressionStatement` yields an expression statement |
| Grammar.ParsePrint | src/main/kotlin/Parser.kt:314-318 | `printStatement` consumes at least one token on success; `GrammarLaws.PrintStatement` states the statement it builds |
| Grammar.ParseReturn | src/main/kotlin/Parser.kt:320-329 | `returnStatement` consumes at least one token on success; `GrammarLaws.ReturnWithoutValue` and `GrammarLaws.ReturnWithValue` state the statement it builds |
| Grammar.ParseIf | src/main/kotlin/Parser.kt:213-225 | `ifStatement` consumes at least one token on success; `GrammarLaws.IfStatement` states the statement it builds |
| Grammar.ParseCondition | src/main/kotlin/Parser.kt:214-216 | the parenthesized condition of `if` and `while` consumes at least the '(' and ends just after a ')' |
| Grammar.ParseWhile | src/main/kotlin/Parser.kt:227-233 | `whileStatement` consumes at least one token on success; `GrammarLaws.WhileStatement` states the statement it builds |
| Grammar.Desugar | src/main/kotlin/Parser.kt:196-210 | `for` becomes `Block[init, While(cond or true, Block[body, inc])]`, the outer block only with an initializer, the inner only with an increment |
| Grammar.ForInitializer | src/main/kotlin/Parser.kt:173-180 | the initializer clause consumes at least one token on success; `GrammarLaws.ForInitializerClause` states which clause it yields |
| Grammar.ParseFor | src/main/kotlin/Parser.kt:170-211 | `forStatement` consumes at least one token on success; `GrammarLaws.ForStatement` states the loop it builds |
| Grammar.ParseLoopClauses | src/main/kotlin/Parser.kt:171-194 | the head of `forStatement` consumes at least one token on success |
| Grammar.LoopClausesAfterParen | src/main/kotlin/Parser.kt:173-194 | the three clauses of `forStatement` consume at least one token on success |
| Grammar.ParseBlock | src/main/kotlin/Parser.kt:235-244 | `block` consumes at least one token on success; `GrammarLaws.BlockStatements` states the statements it yields |
| Grammar.Declarations | src/main/kotlin/Parser.kt:235-243 | the declaration loop stops only at EOF, or at '}' inside a block, and keeps the statements parsed before |
| Grammar.Parse | src/main/kotlin/Parser.kt:8-14 | a successful `parse` stops at EOF |
| Parsing.Parser.constructor | src/main/kotlin/Parser.kt:3-6 | a new parser starts at the first token with no errors |
| Parsing.Parser.Peek | src/main/kotlin/Parser.kt:348-350 | `peek` is the current token, and it is EOF exactly where the grammar is at its end |
| Parsing.Parser.Previous | src/main/kotlin/Parser.kt:362-364 | `previous` is the token just before the cursor, one already moved over |
| Parsing.Parser.IsAtEnd | src/main/kotlin/Parser.kt:385-387 | `isAtEnd` agrees with the grammar's `AtEnd` and holds on the last token |
| Parsing.Parser.Check | src/main/kotlin/Parser.kt:343-346 | `check` is false at EOF, whatever kind is asked for |
| Parsing.Parser.Advance | src/main/kotlin/Parser.kt:357-360 | `advance` never moves past EOF and returns the token it moved over |
| Parsing.Parser.Match | src/main/kotlin/Parser.kt:16-24 | `match` advances by exactly one token iff the current kind is one of the given kinds, otherwise not at all |
| Parsing.Parser.Error | src/main/kotlin/Parser.kt:367-370 | `error` appends one diagnostic against the token |
| Parsing.Parser.Consume | src/main/kotlin/Parser.kt:352-355 | `consume` does what `Grammar.Consume` describes |
| Parsing.Parser.Expression | src/main/kotlin/Parser.kt:130-132 | `expression` does what `Grammar.ParseExpression` describes |
| Parsing.Parser.Assignment | src/main/kotlin/Parser.kt:272-290 | `assignment` does what `Grammar.ParseAssignment` describes |
| Parsing.Parser.BinaryLevel | src/main/kotlin/Parser.kt:26-64 | each binary level's loop does what `Grammar.ParseLevel` describes |
| Parsing.Parser.Operand | src/main/kotlin/Parser.kt:57 | a level's operand parser does what `Grammar.ParseOperand` describes |
| Parsing.Parser.Unary | src/main/kotlin/Parser.kt:66-73 | `unary` does what `Grammar.ParseUnary` describes |
| Parsing.Parser.Call | src/main/kotlin/Parser.kt:75-90 | `call` and its loop do what `Grammar.ParseCall` describes |
| Parsing.Parser.FinishCall | src/main/kotlin/Parser.kt:92-106 | `finishCall` does what `Grammar.FinishCall` describes |
| Parsing.Parser.ArgumentList | src/main/kotlin/Parser.kt:94-101 | the do-while argument loop does what `Grammar.Arguments` describes |
| Parsing.Parser.Primary | src/main/kotlin/Parser.kt:108-128 | `primary` does what `Grammar.ParsePrimary` describes |
| Parsing.Parser.Group | src/main/kotlin/Parser.kt:121-125 | the parenthesized branch does what `Grammar.ParseGroup` describes |
| Parsing.Parser.Synchronize | src/main/kotlin/Parser.kt:372-383 | `synchronize` stops where `Grammar.Synchronize` does |
| Parsing.Parser.Declaration | src/main/kotlin/Parser.kt:134-144 | `declaration` does what `Grammar.ParseDeclaration` describes |
| Parsing.Parser.Attempt | src/main/kotlin/Parser.kt:135-139 | the try block does what `Grammar.DeclarationAttempt` describes |
| Parsing.Parser.ClassDeclaration | src/main/kotlin/Parser.kt:146-157 | `classDeclaration` does what `Grammar.ParseClass` describes |
| Parsing.Parser.MethodList | src/main/kotlin/Parser.kt:150-153 | the method loop does what `Grammar.Methods` describes |
| Parsing.Parser.Function | src/main/kotlin/Parser.kt:252-270 | `function` does what `Grammar.ParseFunction` describes |
| Parsing.Parser.Signature | src/main/kotlin/Parser.kt:252-267 | the head of `function` does what `Grammar.ParseSignature` describes |
| Parsing.Parser.ParameterList | src/main/kotlin/Parser.kt:256-264 | the do-while parameter loop does what `Grammar.Parameters` describes |
| Parsing.Parser.VarDeclaration | src/main/kotlin/Parser.kt:331-341 | `varDeclaration` does what `Grammar.ParseVarDeclaration` describes |
| Parsing.Parser.Statement | src/main/kotlin/Parser.kt:159-168 | `statement` does what `Grammar.ParseStatement` describes |
| Parsing.Parser.OtherStatement | src/main/kotlin/Parser.kt:163-167 | the later alternatives of `statement` do what `Grammar.ParseOtherStatement` describes |
| Parsing.Parser.OptionalExpression | src/main/kotlin/Parser.kt:322-325 | an optional expression does what `Grammar.OptionalExpression` describes |
| Parsing.Parser.ForInitializer | src/main/kotlin/Parser.kt:173-180 | the initializer clause does what `Grammar.ForInitializer` describes |
| Parsing.Parser.ForStatement | src/main/kotlin/Parser.kt:170-211 | `forStatement` does what `Grammar.ParseFor` describes, desugaring included |
| Parsing.Parser.LoopClauses | src/main/kotlin/Parser.kt:171-194 | the head of `forStatement` does what `Grammar.ParseLoopClauses` describes |
| Parsing.Parser.IfStatement | src/main/kotlin/Parser.kt:213-225 | `ifStatement` does what `Grammar.ParseIf` describes |
| Parsing.Parser.WhileStatement | src/main/kotlin/Parser.kt:227-233 | `whileStatement` does what `Grammar.ParseWhile` describes |
| Parsing.Parser.Condition | src/main/kotlin/Parser.kt:214-216 | the parenthesized condition of `if` and `while` does what `Grammar.ParseCondition` describes |
| Parsing.Parser.PrintStatement | src/main/kotlin/Parser.kt:314-318 | `printStatement` does what `Grammar.ParsePrint` describes |
| Parsing.Parser.ReturnStatement | src/main/kotlin/Parser.kt:320-329 | `returnStatement` does what `Grammar.ParseReturn` describes |
| Parsing.Parser.ExpressionStatement | src/main/kotlin/Parser.kt:246-250 | `expressionStatement` does what `Grammar.ParseExpressionStatement` describes |
| Parsing.Parser.Block | src/main/kotlin/Parser.kt:235-244 | `block` does what `Grammar.ParseBlock` describes |
| Parsing.Parser.Parse | src/main/kotlin/Parser.kt:8-14 | `parse` does what `Grammar.Declarations` describes from the cursor, up to EOF |
| Parsing.ParseTokens | src/main/kotlin/Parser.kt:8-14 | parsing a token list from its start yields `Grammar.Parse`'s result and diagnostics |
| GrammarLaws.SyncLoopStops | src/main/kotlin/Parser.kt:374-382 | the recovery loop stops at the first boundary at or after where it starts |
| GrammarLaws.SynchronizeStops | src/main/kotlin/Parser.kt:372-383 | `synchronize` stays put at EOF; elsewhere it advances at least once and stops at the first point just after ';', before a statement keyword, or at EOF |
| GrammarLaws.IdentifierCall | src/main/kotlin/Parser.kt:75-90 | an identifier not followed by '(' or '.' parses as a variable read |
| GrammarLaws.TailStep | src/main/kotlin/Parser.kt:28-32 | one round of a level's loop folds the operator and the next operand into the left operand |
| GrammarLaws.TailStop | src/main/kotlin/Parser.kt:28-32 | a level's loop ends at a token that is not one of its operators |
| GrammarLaws.Widened | src/main/kotlin/Parser.kt:26-64 | a level's result followed by a non-operator is the result of every looser level up to `or` |
| GrammarLaws.LeftAssociative | src/main/kotlin/Parser.kt:26-64 | `a op b op' c` with both operators of one level parses as `(a op b) op' c`, for all six levels |
| GrammarLaws.AssignmentStep | src/main/kotlin/Parser.kt:272-290 | a variable, '=' and an assignment make an Assign to that variable |
| GrammarLaws.RightAssociative | src/main/kotlin/Parser.kt:272-290 | `a = b = c` parses as `a = (b = c)` |
| GrammarLaws.PropertyTarget | src/main/kotlin/Parser.kt:282-283 | `a.f = c` parses as a SetExpr on `a` with the same name |
| GrammarLaws.AssignmentRewrite | src/main/kotlin/Parser.kt:272-290 | for any input, an `or`-level target followed by '=' and an assignment value gives `AssignTo(target, value)` ending where the value ends, with "Invalid assignment target." reported at '=' exactly when the target is neither a variable nor a property |
| GrammarLaws.NoAssignment | src/main/kotlin/Parser.kt:272-290 | without a following '=', or when it fails, the `or`-level outcome is the assignment's outcome unchanged |
| GrammarLaws.InvalidTarget | src/main/kotlin/Parser.kt:286-289 | `a op b = c` reports "Invalid assignment target." at '=' without a parse error and yields the left expression |
| GrammarLaws.PrintStatement | src/main/kotlin/Parser.kt:314-318 | an expression and ';' make a PrintStmt of that expression just after the ';'; without the ';' it is a parse error there |
| GrammarLaws.ReturnWithoutValue | src/main/kotlin/Parser.kt:320-329 | `return;` makes a ReturnStmt with the `return` token and no value |
| GrammarLaws.ReturnWithValue | src/main/kotlin/Parser.kt:320-329 | `return value;` makes a ReturnStmt carrying the value; without the ';' it is a parse error there |
| GrammarLaws.ConditionParts | src/main/kotlin/Parser.kt:214-216 | '(' and an expression make the condition just after the ')'; without the ')' it is a parse error there with the caller's message |
| GrammarLaws.IfStatement | src/main/kotlin/Parser.kt:213-225 | the condition and the then-branch make an IfStmt, with an else-branch exactly when `else` follows the then-branch |
| GrammarLaws.WhileStatement | src/main/kotlin/Parser.kt:227-233 | the condition and the body make a WhileStmt of them, ending where the body ends |
| GrammarLaws.ForInitializerClause | src/main/kotlin/Parser.kt:173-180 | the initializer is absent exactly at ';', a variable declaration exactly after `var`, and an expression statement otherwise |
| GrammarLaws.LoopClausesParts | src/main/kotlin/Parser.kt:171-194 | '(' and the three clauses as they parse, each followed by its ';' or ')', make the loop's clauses |
| GrammarLaws.ForStatement | src/main/kotlin/Parser.kt:170-211 | the clauses and the body make the loop `Desugar` builds from them, ending where the body ends |
| GrammarLaws.BlockStatements | src/main/kotlin/Parser.kt:235-244 | a block succeeds exactly when its declarations do and '}' follows them; it yields those statements just after the '}'; a block that reaches EOF reports "Expect '}' after block." |
| GrammarLaws.SignatureParts | src/main/kotlin/Parser.kt:252-267 | the name token and the parameters as they parse, between '(' and ')' and before '{', make the function's signature |
| GrammarLaws.FunctionDeclaration | src/main/kotlin/Parser.kt:252-270 | the signature and the block after it make the FunctionDecl of the name, the parameters and the block's statements |
| GrammarLaws.FunctionWithoutName | src/main/kotlin/Parser.kt:253 | a function without a name fails at once with "Expect <kind> name." at the token where the name should be |
| GrammarLaws.FunctionName | src/main/kotlin/Parser.kt:252-270 | a parsed function is named by the token it starts at, and all its parameters are identifiers |
| GrammarLaws.ForShape | src/main/kotlin/Parser.kt:196-210 | `forStatement` yields a while loop, bare or inside a block |
| GrammarLaws.IfShape | src/main/kotlin/Parser.kt:213-225 | `ifStatement` yields an IfStmt |
| GrammarLaws.PrintShape | src/main/kotlin/Parser.kt:314-318 | `printStatement` yields a PrintStmt |
| GrammarLaws.WhileShape | src/main/kotlin/Parser.kt:227-233 | `whileStatement` yields a WhileStmt |
| GrammarLaws.ReturnShape | src/main/kotlin/Parser.kt:320-329 | `returnStatement` yields a ReturnStmt |
| GrammarLaws.OtherStatementDispatch | src/main/kotlin/Parser.kt:163-167 | after the `for`, `if` and `print` tests, `return` gives exactly the return statements, `while` a loop, '{' a block and any other token an expression statement |
| GrammarLaws.StatementDispatch | src/main/kotlin/Parser.kt:159-168 | `if`, `print` and `return` give exactly their own statements; `for` a loop, bare or in a block; `while` a loop; '{' a block; any other token an expression statement; never a declaration |
| GrammarLaws.DeclarationDispatch | src/main/kotlin/Parser.kt:134-139 | `class`, `fun` and `var` give exactly class, function and variable declarations; any other token gives the statement `statement` gives |
| GrammarLaws.FailureAtLevel | src/main/kotlin/Parser.kt:26-64 | a failing call-level expression fails every binary level in the same way |
| GrammarLaws.ParseErrorCrashes | src/main/kotlin/Parser.kt:8-14 | after a parse error, `parse` recovers with `synchronize` and then crashes on the null declaration |
| GrammarLaws.StrayParenCrashes | src/main/kotlin/Parser.kt:127 | a program of one ')' reports "Expect expression." at it and then crashes |
| Resolution.Report | src/main/kotlin/Resolver.kt:36 | a report appends one diagnostic against the token and changes nothing else |
| Resolution.Declare | src/main/kotlin/Resolver.kt:31-39 | `declare` does nothing at global scope; otherwise it maps the name to false in the innermost scope and reports a name already there |
| Resolution.Define | src/main/kotlin/Resolver.kt:41-45 | `define` does nothing at global scope; otherwise it maps the name to true in the innermost scope |
| Resolution.BeginScope | src/main/kotlin/Resolver.kt:56-58 | `beginScope` pushes an empty scope |
| Resolution.EndScope | src/main/kotlin/Resolver.kt:60-62 | `endScope` pops the innermost scope |
| Resolution.Innermost | src/main/kotlin/Resolver.kt:48-53 | the downward search finds the innermost scope declaring the name, or none |
| Resolution.ResolveLocal | src/main/kotlin/Resolver.kt:47-54 | `resolveLocal` records distance `scopes.size-1-i` for the innermost scope `i` holding the name, and nothing when no scope holds it |
| Resolution.ResolveVariable | src/main/kotlin/Resolver.kt:136-143 | reading a name whose innermost entry is false reports "Can't read local variable in its own initializer."; the read is bound |
| Resolution.ResolveThis | src/main/kotlin/Resolver.kt:113-120 | `this` outside a class is reported and not bound; inside a class it is bound |
| Resolution.ResolveSuper | src/main/kotlin/Resolver.kt:102-111 | `super` is reported outside a class and in a class without a superclass; it is bound in every case |
| Resolution.ResolveExpr | src/main/kotlin/Resolver.kt:64-143 | resolving an expression keeps the scopes and both context kinds and only extends the diagnostics; `ResolutionLaws.ExprRecords` states which distances it records |
| Resolution.ResolveExprs | src/main/kotlin/Resolver.kt:79-81 | resolving the arguments keeps the scopes and both context kinds and only extends the diagnostics; `ResolutionLaws.ExprsRecords` states which distances they record |
| ResolutionLaws.RecordsTwice | src/main/kotlin/Resolver.kt:47-54 | recording distances for two sets of nodes in turn records for their union: earlier distances stay, and only those nodes gain or change one |
| ResolutionLaws.LocalRecords | src/main/kotlin/Resolver.kt:47-54 | `resolveLocal` keeps every recorded distance and records or changes at most the one for its node |
| ResolutionLaws.ExprRecords | src/main/kotlin/Resolver.kt:64-143 | resolving an expression keeps every recorded distance and records or changes distances only for the variable, assignment, `this` and `super` nodes inside it |
| ResolutionLaws.ExprsRecords | src/main/kotlin/Resolver.kt:79-81 | resolving a list of arguments records or changes distances only for the nodes inside them |
| Resolution.DeclareParams | src/main/kotlin/Resolver.kt:205-208 | after the parameter loop every parameter is defined in the innermost scope, and no defined name is undefined |
| Resolution.ResolveReturn | src/main/kotlin/Resolver.kt:237-248 | `return` at top level is reported, and a value in an initializer is reported |
| Resolution.ResolveStmt | src/main/kotlin/Resolver.kt:145-254 | a statement keeps the stack depth, the outer scopes, both context kinds and the earlier diagnostics |
| Resolution.ResolveBlock | src/main/kotlin/Resolver.kt:145-150 | a block leaves the whole scope stack as it was |
| Resolution.ResolveVar | src/main/kotlin/Resolver.kt:214-221 | a local `var` ends with its name defined in the innermost scope |
| Resolution.ResolveIf | src/main/kotlin/Resolver.kt:223-230 | `if` keeps the stack depth, outer scopes and context kinds |
| Resolution.ResolveStmts | src/main/kotlin/Resolver.kt:17-21 | a statement list keeps the stack depth, outer scopes and context kinds |
| Resolution.ResolveFunction | src/main/kotlin/Resolver.kt:201-212 | `resolveFunction` restores the scope stack and the enclosing function kind |
| Resolution.MethodKind | src/main/kotlin/Resolver.kt:173-177 | a method is resolved as an initializer iff it is named `init`, otherwise as a method |
| Resolution.ResolveMethods | src/main/kotlin/Resolver.kt:172-179 | the method loop restores the scope stack |
| Resolution.EnterSuperclass | src/main/kotlin/Resolver.kt:158-167 | a superclass named like the class is reported; a scope binding `super` is pushed in a subclass context |
| Resolution.ResolveClass | src/main/kotlin/Resolver.kt:152-185 | a class keeps the stack depth, outer scopes and the enclosing class kind |
| Resolving.Resolver.constructor | src/main/kotlin/Resolver.kt:5-15 | a new resolver is at global scope, outside every function and class |
| Resolving.Resolver.Error | src/main/kotlin/Resolver.kt:36 | the method performs `Resolution.Report` |
| Resolving.Resolver.Declare | src/main/kotlin/Resolver.kt:31-39 | the method performs `Resolution.Declare` |
| Resolving.Resolver.Define | src/main/kotlin/Resolver.kt:41-45 | the method performs `Resolution.Define` |
| Resolving.Resolver.ResolveLocal | src/main/kotlin/Resolver.kt:47-54 | the downward loop performs `Resolution.ResolveLocal` |
| Resolving.Resolver.BeginScope | src/main/kotlin/Resolver.kt:56-58 | the method performs `Resolution.BeginScope` |
| Resolving.Resolver.EndScope | src/main/kotlin/Resolver.kt:60-62 | the method performs `Resolution.EndScope` |
| Resolving.Resolver.Bind | src/main/kotlin/Resolver.kt:166 | `scopes.peek()[key] = true` sets one entry of the innermost scope |
| Resolving.Resolver.ResolveExpr | src/main/kotlin/Resolver.kt:27-29 | the expression visitor performs `Resolution.ResolveExpr` |
| Resolving.Resolver.VisitAssign | src/main/kotlin/Resolver.kt:64-68 | the method performs `Resolution.ResolveExpr` on an assignment |
| Resolving.Resolver.VisitBinary | src/main/kotlin/Resolver.kt:70-74 | the method performs `Resolution.ResolveExpr` on a binary node |
| Resolving.Resolver.VisitCall | src/main/kotlin/Resolver.kt:76-83 | the argument loop performs `Resolution.ResolveExpr` on a call |
| Resolving.Resolver.VisitGet | src/main/kotlin/Resolver.kt:85-88 | the method performs `Resolution.ResolveExpr` on a property read |
| Resolving.Resolver.VisitLogical | src/main/kotlin/Resolver.kt:90-94 | the method performs `Resolution.ResolveExpr` on a logical node |
| Resolving.Resolver.VisitSet | src/main/kotlin/Resolver.kt:96-100 | the method performs `Resolution.ResolveExpr` on a property write |
| Resolving.Resolver.VisitSuper | src/main/kotlin/Resolver.kt:102-111 | the method performs `Resolution.ResolveExpr` on `super` |
| Resolving.Resolver.VisitThis | src/main/kotlin/Resolver.kt:113-120 | the method performs `Resolution.ResolveExpr` on `this` |
| Resolving.Resolver.VisitVariable | src/main/kotlin/Resolver.kt:136-143 | the method performs `Resolution.ResolveExpr` on a variable read |
| Resolving.Resolver.Resolve | src/main/kotlin/Resolver.kt:17-21 | the statement loop performs `Resolution.ResolveStmts` |
| Resolving.Resolver.ResolveStmt | src/main/kotlin/Resolver.kt:23-25 | the statement visitor performs `Resolution.ResolveStmt` |
| Resolving.Resolver.VisitBlock | src/main/kotlin/Resolver.kt:145-150 | the method performs `Resolution.ResolveBlock` |
| Resolving.Resolver.VisitClass | src/main/kotlin/Resolver.kt:152-185 | the method performs `Resolution.ResolveClass` |
| Resolving.Resolver.VisitFunction | src/main/kotlin/Resolver.kt:193-199 | the method performs `Resolution.ResolveStmt` on a function declaration |
| Resolving.Resolver.ResolveFunction | src/main/kotlin/Resolver.kt:201-212 | the parameter loop and body perform `Resolution.ResolveFunction` |
| Resolving.Resolver.VisitVar | src/main/kotlin/Resolver.kt:214-221 | the method performs `Resolution.ResolveVar` |
| Resolving.Resolver.VisitIf | src/main/kotlin/Resolver.kt:223-230 | the method performs `Resolution.ResolveIf` |
| Resolving.Resolver.VisitReturn | src/main/kotlin/Resolver.kt:237-248 | the method performs `Resolution.ResolveReturn` |
| Resolving.Resolver.VisitWhile | src/main/kotlin/Resolver.kt:250-254 | the method performs `Resolution.ResolveStmt` on a loop |
| ResolutionLaws.SelfInitializer | src/main/kotlin/Resolver.kt:136-143 | in a scope, `var a = a;` reports "Can't read local variable in its own initializer."; at global scope it reports nothing |
| ResolutionLaws.ReadAfterDefine | src/main/kotlin/Resolver.kt:136-143 | reading a defined name reports nothing |
| ResolutionLaws.LocalDeclaration | src/main/kotlin/Resolver.kt:214-221 | `var a;` in a scope defines `a` in the innermost scope, reports nothing and binds nothing |
| ResolutionLaws.BlockLocalDistance | src/main/kotlin/Resolver.kt:47-54 | in `{ var a; a; }` the read is bound at distance 0 |
| ResolutionLaws.NestedBlockDistance | src/main/kotlin/Resolver.kt:47-54 | in `{ var a; { a; } }` the read is bound at distance 1 |
| ResolutionLaws.DuplicateDeclaration | src/main/kotlin/Resolver.kt:35-37 | `{ var a; var a; }` reports "Already a variable with this name in this scope." at the second; at global scope two declarations change nothing |
| ResolutionLaws.OneStatementFunction | src/main/kotlin/Resolver.kt:201-212 | a function body runs in a new scope as the given function kind, and both are restored |
| ResolutionLaws.OneMethod | src/main/kotlin/Resolver.kt:172-179 | a class's method is resolved with the kind its name selects |
| ResolutionLaws.ReturnPlacement | src/main/kotlin/Resolver.kt:238-240 | `return;` at top level reports "Can't return from top-level code."; inside a function it reports nothing |
| ResolutionLaws.InitializerReturn | src/main/kotlin/Resolver.kt:241-244 | returning a value from a method reports "Can't return a value from an initializer" iff the method is `init` |
| ResolutionLaws.ThisInMethod | src/main/kotlin/Resolver.kt:169-170 | `this` in a method is bound one scope out from the method body, with no error |
| ResolutionLaws.SubclassPrologue | src/main/kotlin/Resolver.kt:158-167 | a subclass opens one scope binding `super`, in a subclass context, with no error |
| ResolutionLaws.SuperFromMethod | src/main/kotlin/Resolver.kt:102-111 | `super` in a method of a subclass is bound two scopes out, with no error |
| ResolutionLaws.SuperInSubclass | src/main/kotlin/Resolver.kt:152-185 | `class C < B { m() { super; } }` binds `super` at distance 2 and reports nothing |
| ResolutionLaws.SuperWithoutSuperclassReported | src/main/kotlin/Resolver.kt:106-107 | `super` in a class without a superclass is reported, and bound at no distance |
| ResolutionLaws.SelfInheritance | src/main/kotlin/Resolver.kt:159-161 | `class A < A {}` reports "A class can not inherit from itself." against the superclass name; `class A < B {}` reports nothing |
| Interpreting.IsTruthy | src/main/kotlin/Interpreter.kt:127-131 | nil is false, a boolean is itself, every other value is true |
| Interpreting.IsEqual | src/main/kotlin/Interpreter.kt:121-125 | nil equals only nil; otherwise equality is value equality |
| Interpreting.CheckNumberOperands | src/main/kotlin/Interpreter.kt:102-105 | the check passes iff both operands are numbers, else raises "Operands must be numbers" at the operator |
| Interpreting.ApplyUnary | src/main/kotlin/Interpreter.kt:18-28 | `-` negates a number and fails its cast otherwise; `!` negates truthiness; other operators give nil |
| Interpreting.Arithmetic | src/main/kotlin/Interpreter.kt:35-72 | `-`, `*`, `>`, `>=`, `<`, `<=` succeed iff both operands are numbers, else raise "Operands must be numbers" |
| Interpreting.Divide | src/main/kotlin/Interpreter.kt:39-42 | `/` raises unless both operands are numbers, divides by a non-zero divisor, and has no exact result for a zero one |
| Interpreting.Add | src/main/kotlin/Interpreter.kt:47-55 | `+` succeeds iff both operands are numbers or both strings, else raises "Both operands must be numbers or strings" |
| Interpreting.ApplyBinary | src/main/kotlin/Interpreter.kt:34-84 | `==` and `!=` always give a boolean; every error is raised at the operator; unknown operators give nil |
| Interpreting.Evaluate | src/main/kotlin/Interpreter.kt:14-95 | a tree of literals, groupings and unary and binary operators always evaluates, to a value or an error; a tree holding any other kind never yields a value |
| Interpreting.Stringify | src/main/kotlin/Interpreter.kt:107-119 | nil prints "nil", a number drops a trailing ".0", booleans and strings print as themselves |
| OperatorLaws.ZeroAndEmptyAreTruthy | src/main/kotlin/Interpreter.kt:127-131 | 0 and "" are true; nil and false are false |
| OperatorLaws.NotEqualNegatesEqual | src/main/kotlin/Interpreter.kt:74-79 | `a != b` is exactly the negation of `a == b`, and neither raises |
| OperatorLaws.BangNegatesTruthiness | src/main/kotlin/Interpreter.kt:23-24 | `!x` is exactly the negation of `isTruthy(x)` |
| OperatorLaws.OperandsFirst | src/main/kotlin/Interpreter.kt:31-32 | both operands are evaluated, left then right, before the operator checks them |
| OperatorLaws.LeftFailureWins | src/main/kotlin/Interpreter.kt:21-22 | in `-"a" + -true` the left cast failure ends evaluation before `+` |
| OperatorLaws.PlusDispatch | src/main/kotlin/Interpreter.kt:47-55 | `+` adds numbers, concatenates strings and raises on any other pair |
| OperatorLaws.NumericOperands | src/main/kotlin/Interpreter.kt:35-72 | `-`, `*` and the comparisons raise "Operands must be numbers" exactly when an operand is not a number |
| OperatorLaws.DivisionOperands | src/main/kotlin/Interpreter.kt:39-42 | `/` raises "Operands must be numbers" exactly when an operand is not a number |
| OperatorLaws.IntegralNumberText | src/main/kotlin/Interpreter.kt:110-115 | a number whose text ends in ".0" prints without it |
| Runtime.LookupIn | src/main/kotlin/Environment.kt:8-12 | `get` finds the bound value iff the name is bound, else raises "Undefined variable '<name>'." |
| Runtime.Environment.constructor | src/main/kotlin/Environment.kt:2 | a new environment binds nothing |
| Runtime.Environment.Define | src/main/kotlin/Environment.kt:4-6 | `define` binds or rebinds the name and leaves every other binding as it was |
| Runtime.Bindings | src/main/kotlin/LoxFunction.kt:4-6 | the call environment binds exactly the parameter names |
| Runtime.LoxFunction.Arity | src/main/kotlin/LoxFunction.kt:12-14 | the arity is the number of declared parameters |
| Runtime.LoxFunction.ToString | src/main/kotlin/LoxFunction.kt:16-18 | the text is `<fn name>` |
| Runtime.LoxFunction.Call | src/main/kotlin/LoxFunction.kt:2-10 | with enough arguments a fresh environment binds each parameter to its argument and the result is nil; with too few the loop indexes past the arguments |
| Runtime.LoxClass.FindMethod | src/main/kotlin/LoxClass.kt:3-8 | `findMethod` returns the method iff the class's own table holds it |
| Runtime.LoxClass.Arity | src/main/kotlin/LoxClass.kt:15-17 | a class's arity is 0 |
| Runtime.LoxClass.ToString | src/main/kotlin/LoxClass.kt:19-21 | a class prints as its name |
| Runtime.LoxClass.Call | src/main/kotlin/LoxClass.kt:10-13 | `call` ignores its arguments and returns a fresh instance of this class with no fields |
| Runtime.PropertyOf | src/main/kotlin/LoxInstance.kt:5-16 | `get` returns a field, else a class method bound to the instance, else raises "Undefined property '<name>'." |
| Runtime.LoxInstance.constructor | src/main/kotlin/LoxInstance.kt:1-3 | a new instance has its class and no fields |
| Runtime.LoxInstance.Set | src/main/kotlin/LoxInstance.kt:18-20 | `set` stores a non-nil value under the name and changes nothing else; a nil value fails and stores nothing |
| Runtime.LoxInstance.ToString | src/main/kotlin/LoxInstance.kt:22-24 | an instance prints as its class name followed by " instance" |
| RuntimeLaws.DefineThenGet | src/main/kotlin/Environment.kt:4-9 | after `define(n, v)`, `get(n)` finds `v`, whether or not `n` was bound before |
| RuntimeLaws.DefineKeepsOthers | src/main/kotlin/Environment.kt:4-6 | `define(n, v)` leaves the lookup of every other name as it was |
| RuntimeLaws.LastBindingWins | src/main/kotlin/LoxFunction.kt:4-6 | a repeated parameter name is bound to the argument of its last occurrence |
| RuntimeLaws.BindingsByIndex | src/main/kotlin/LoxFunction.kt:4-6 | with distinct parameter names, each parameter is bound to the argument at its index |
| RuntimeLaws.FieldsShadowMethods | src/main/kotlin/LoxInstance.kt:5-8 | a field hides a method of the same name |
| RuntimeLaws.SetThenGet | src/main/kotlin/LoxInstance.kt:18-20 | after `set(n, v)`, `get(n)` finds `v` and every other property reads as before |
| Printing.Parens | src/main/kotlin/ASTPrinter.kt:17-27 | the text starts with "(" and ends with ")" |
| Printing.LiteralText | src/main/kotlin/ASTPrinter.kt:62-67 | a null literal prints "nil"; booleans print "true" or "false"; a string prints as itself; a number prints its `toString` text |
| Printing.Parenthesized | src/main/kotlin/ASTPrinter.kt:17-80 | every node except a literal and an assignment prints inside one pair of parentheses |
| Printing.RenderAll | src/main/kotlin/ASTPrinter.kt:20-23 | the operands' texts are each operand printed, in order |
| Printing.Print | src/main/kotlin/ASTPrinter.kt:13-15 | `print` with the visitors yields `Render` of the expression |
| Printing.Parenthesize | src/main/kotlin/ASTPrinter.kt:17-27 | the builder loop yields "(" + name + " " + each operand's text + ")" |
| Printing.BinaryText | src/main/kotlin/ASTPrinter.kt:30-32 | a binary node prints as `(op left right)` |
| Printing.UnaryText | src/main/kotlin/ASTPrinter.kt:77-79 | a unary node prints as `(op right)` and a grouping as `(group inner)` |
| Printing.HeadOnlyText | src/main/kotlin/ASTPrinter.kt:34-56 | call, get, set, logical, this and super nodes print only a parenthesized head |
| Printing.LeafText | src/main/kotlin/ASTPrinter.kt:62-75 | a nil literal prints "nil"; an assignment prints its name token's text without parentheses |
| Printing.SampleTree | src/main/kotlin/ASTPrinter.kt:1-10 | the printer's sample tree `-123 * (45.67)` prints as `(* (- 123) (group 45.67))` |

## Left out

- Input and output: reading files, the REPL, `println` and the global `hadError` flag of `KLox.kt`. Diagnostics are returned as lists; `Interpreter.interpret`'s printing is not modelled.
- Floating point:
  - numbers are exact reals;
  - `toDouble` is the exact decimal value of the lexeme;
  - arithmetic is exact;
  - a division by zero, whose double result is infinite or NaN, is the outcome `NotFinite`;
  - Kotlin's boxed `Double` equality (`-0.0` versus `0.0`, `NaN`) is not modelled.
- Interpreting.Stringify and Printing.LiteralText: the text Kotlin's `Double.toString` gives a number is a parameter, because Kotlin's number formatting is not part of this model.
- Printing.SampleTree: the sample's `123` is a Kotlin `Int`; the model has only one number type, so it is the number 123 printed as "123".
- Scanning.LexSymbol: the source is a sequence of Unicode characters, while Kotlin's `String` indexes UTF-16 code units. A character outside the Basic Multilingual Plane, such as an emoji, is one character here but a surrogate pair in Kotlin, so Kotlin reports "Unexpected Character" twice for it, once per unit, where the model reports it once.
- Scanning.Scanner.Symbol: the same UTF-16 difference: a character outside the Basic Multilingual Plane is reported once, not once per surrogate unit.
- Printing.Render: the text of a token (`Token.toString`) is a parameter, because `Token.kt` is not part of this model.
- Runtime.LoxFunction.Call:
  - the body is not executed;
  - `interpreter.executeBlock` and `interpreter.globals` are not defined in the Kotlin files;
  - the environment has no enclosing environment, as in `Environment.kt`;
  - the result is nil, as `call` returns.
- `LoxFunction.bind` is not defined in the Kotlin files. A bound method is the pair `Bound(method, instance)`.
- Runtime.Environment.Get and Runtime.LoxInstance.Get have no contract of their own: each is the lookup function `LookupIn` or `PropertyOf`, whose contract states it.
- `Interpreter.checkNumberOperand` is never called in the Kotlin code and is not modelled.
- The interpreter has no visitors for variables, assignments, logical operators, calls, property access, `this` or `super`. `Evaluate` gives `NotEvaluated` for them.
- Identity and aliasing are not modelled:
  - the resolver's scopes are a sequence of immutable maps;
  - a Kotlin `HashMap` shared by reference is a value here;
  - the parser and resolver identify nodes by an explicit id.
- `Resolver.kt` calls `interpreter.resolve(expr, depth)`, which `Interpreter.kt` does not define. The distances are the resolver's own `locals` field.
- `ruby/AST/AST.rb`, the generator of the syntax classes, is not part of this model.

Where the code and its design disagree, the model follows the code:

- **Unterminated string.** After reporting "Unterminated String.", the scanner calls `advance()` past the end of the source, which throws. The model's pass ends with `Aborted`.
- **Parse errors.** After any parse error, `declaration` returns null and the `!!` in `parse` and `block` throws. The model's parse ends with `Fail(NullDereference)`, so error recovery never yields a program with the later statements.
- **Missing grammar.** The parser never parses a superclass clause, `this` or `super`. The resolver still handles all three, and the model resolves them from trees built directly.
- **Incomplete syntax classes.** `Expr.kt` and `Stmt.kt` lack `Super`, the class's superclass, the return statement and the function's parameter list. The `Syntax` datatypes include them as the parser and resolver use them.
- **Class calls.** `LoxClass.arity` is always 0 and `call` ignores its arguments. `findMethod` looks only at the class's own table.
- **Unary minus.** It casts its operand without a check, so a non-number operand fails with a cast error (`CastFailure`), not a runtime error.
