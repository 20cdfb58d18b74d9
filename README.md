# rlox in Dafny

A Dafny model of the core of rlox, a tree-walking interpreter for the Lox
language written in Ruby. rlox follows the first half of *Crafting
Interpreters*. A source text goes through four stages:

- the scanner turns it into tokens;
- the recursive-descent parser turns the tokens into statements, reporting
  and skipping past syntax errors;
- the resolver computes, for each local variable reference, how many scopes
  out its binding lives;
- the interpreter executes the statements against a chain of environments.

The driver (`RLox.run`) runs the stages in that order, stops after a stage
that reported a static error, and turns the error flags into an exit status.

## Modules

There is one module per source file or group of files:

| module | file | models |
|---|---|---|
| `Wrappers` | wrappers.dfy | `Option` and `Result` |
| `Tokens` | tokens.dfy | token kinds and tokens |
| `Errors` | errors.dfy | `RLox::RuntimeError`, the report texts, and the `Reporter` class holding `had_error`, `had_runtime_error` and the standard-error lines |
| `Scanner` | scanner.dfy | the `Scanner` class, proved against the functions `Step` and `ScanFrom` |
| `Ast` | ast.dfy | the `Expr` and `Stmt` records |
| `Parser` | parser.dfy | the `Parser` class, proved against parsing functions of the tokens and a `Cursor`; the functions promise the shape of each grammar level (`Shaped`) |
| `Values` | values.dfy | functions, classes, instances, `Return` and the clock native |
| `Environments` | environment.dfy | the environment class, and the frame functions it is proved against |
| `Interpreter` | interpreter.dfy | an evaluator over a store of environment frames and an instance heap, with the `Interpreter` class around it |
| `Resolver` | resolver.dfy | the `Resolver` class and its scope stack, proved against functions of a `Resolution` state |
| `AstPrinter` | ast_printer.dfy | the prefix printer |
| `Lox` | lox.dfy | `run`, `run_file`, `run_prompt` and `main`, proved against functions of a `Session` state |

### How each part is modelled

The scanner, parser, resolver and environment are classes whose methods
update fields, as the Ruby objects do.

- Each class is proved against pure functions of its state taken as a
  value. Every method's contract says that the new state (and the result)
  is what the function of the same name computes from the old state. What
  the Ruby promises is then proved about those functions.
- The scanner's functions say, token by token, what a scan produces.
- The parser's functions (`ParseProgram`, `ParseDeclaration`, ...) take
  the tokens and a `Cursor`. A cursor holds the current position, the next
  node id, and the reporter's `had_error` and lines.
- The resolver's functions (`StmtsResolved`, `ExprResolved`, ...) take a
  `Resolution`. It holds the scope stack, the interpreter's side table,
  and the reporter's flag and lines.
- The driver's functions `RunOf` and `PromptOf` take a `Session`. It holds
  the next node id, both flags, the lines, the side table and the
  interpreter state.
- A `ParseError`, which the Ruby raises and rescues, is an `Err` result that
  is passed up with `:-`.

The interpreter evaluates pure functions over a `State`. The state holds:

- every environment frame with the index of its enclosing frame, so frames
  are shared as the Ruby objects are;
- the instance heap;
- the next object id;
- the printed lines.

The `Environment` class in environment.dfy is a stand-alone model of
lib/rlox/environment.rb, proved against the frame functions beside it. The
functional interpreter does not use it: its frames are entries of the
store, so that closures and blocks can share them.

The current environment is a parameter, so `execute_block` restoring the
previous environment holds by construction. The class `Interpreter` holds
that state, the resolver's `locals` table and the environment cursor. Its
`Interpret` and `ExecuteBlock` loops are proved equal to the functions.

Nodes that the source compares by identity carry a node id. `Variable`,
`Assign`, `This` and `Super` are keyed in `locals` by it. Functions,
classes and instances carry an object id.

### Where the code has no working behaviour

In a few places the code as written cannot run. In each of them the model
follows the evident intent, and a comment at that place in the model says so:

- The interpreter calls `Environment.new(enclosing)`, `get_at` and
  `assign_at`, which this `Environment` does not define. The model gives
  environments an enclosing frame, and walks exactly `distance` links.
- `Function.new` and `Class.new` are called with two arguments, but their
  constructors take one. No closure and no method table is kept, since
  nothing reads them.
- The interpreter calls `get` and `set` on instances, which `Instance` does
  not define. The model gives instances a field table.
- In the resolver, `resolve` on one node uses undefined `stmt`/`expr`, and
  `declare` uses an undefined `scope`. The model dispatches on the node
  given, and checks and then sets the innermost scope.
- `callable?` exists only on functions, classes and the clock. For any other
  callee the model raises "Can only call functions and classes."

### Where rlox departs from *Crafting Interpreters*' jlox

rlox differs from the book's Java interpreter in a few details, and the
model follows rlox:

- `Environment#get` looks only at its own frame.
- The resolver keeps the message "Can't read local vafiable in its own
  initializer." exactly as spelled in the code.
- The redeclaration message keeps its missing full stop.
- `error` in the parser raises, so an invalid assignment target abandons the
  whole declaration.

## Model

| member | source | states |
|---|---|---|
| Errors.NatTextRoundTrip | lib/rlox.rb:93-97 | the line number printed in a report is all digits and reads back as that number |
| Errors.NatTextInjective | lib/rlox.rb:93-97 | different line numbers print differently |
| Errors.ReportTextShape | lib/rlox.rb:93-97 | a report starts with `[line N` and ends with its message |
| Errors.Reporter.Error | lib/rlox.rb:34-44 | appends one report at the token's line: " at end" for the EOF token, " at 'lexeme'" for any other token, nothing for a bare line; raises `had_error` and leaves `had_runtime_error` alone |
| Errors.Reporter.Report | lib/rlox.rb:93-97 | appends exactly `[line N] Error<where>: <message>` and raises `had_error` |
| Errors.Reporter.Warn | lib/rlox.rb:29 | appends the message and leaves both flags alone |
| Errors.Reporter.RuntimeError | lib/rlox.rb:46-49 | appends the message, a newline and `[line N]`; raises `had_runtime_error` and leaves `had_error` alone |
| Errors.Reporter.ClearError | lib/rlox.rb:72 | lowers `had_error` only; `had_runtime_error` and the output are unchanged |
| Scanner.SkipWhile | lib/rlox/scanner.rb:109-159 | the `advance while` loops stop at the first character that fails the test, or at the end, and every character skipped passes it |
| Scanner.Step | lib/rlox/scanner.rb:52-82 | each `scan_token` consumes at least one character and stays inside the source |
| Scanner.OperatorStep | lib/rlox/scanner.rb:55-74 | a punctuation or operator character reports nothing and keeps the line; anything but `/` gives a token of one or two characters |
| Scanner.ScanEndsWithEof | lib/rlox/scanner.rb:32-41 | the token list ends with exactly one EOF token, with an empty lexeme, on the starting line plus the number of newlines scanned |
| Scanner.ScanOfSourceEndsWithEof | lib/rlox/scanner.rb:32-41 | scanning a whole source gives one final EOF token, on line 1 plus its newline count, and no EOF before it |
| Scanner.StepNeverEof | lib/rlox/scanner.rb:52-82 | `scan_token` never adds an EOF token |
| Scanner.StepLines | lib/rlox/scanner.rb:52-82 | the line counter rises by exactly the number of newlines consumed |
| Scanner.StringStepLines | lib/rlox/scanner.rb:109-126 | a string literal counts the newlines inside it |
| Scanner.StepNoNewline | lib/rlox/scanner.rb:52-82 | a token that is neither a string nor a newline consumes no newline and leaves the line unchanged |
| Scanner.StepLexeme | lib/rlox/scanner.rb:90-93 | every token's lexeme is exactly the text consumed for it |
| Scanner.TwoCharOperators | lib/rlox/scanner.rb:65-68 | `!`, `=`, `<`, `>` form the two-character operator exactly when followed by `=`, and consume one or two characters accordingly |
| Scanner.Comments | lib/rlox/scanner.rb:69-74 | `//` skips to the next newline or the end without a token; a lone `/` is SLASH |
| Scanner.Strings | lib/rlox/scanner.rb:109-126 | a terminated string is a STRING token whose literal is the text between the quotes, with no quote inside; an unterminated one reports "Unterminated string." and adds nothing |
| Scanner.Numbers | lib/rlox/scanner.rb:132-144 | a number is a maximal run of digits with at most one '.', which is followed by a digit; it starts and ends with a digit, and a trailing '.' is left for the next token |
| Scanner.Identifiers | lib/rlox/scanner.rb:152-159 | an identifier is the maximal run of letters, digits and `_`; it has a keyword kind exactly when it is a reserved word |
| Scanner.Scanner.ScanTokens | lib/rlox/scanner.rb:32-41 | the tokens pushed, and the error lines reported, are exactly those of `ScanFrom` from the current position, and `had_error` is raised exactly when a scan error occurred |
| Scanner.Scanner.ScanToken | lib/rlox/scanner.rb:52-82 | one `scan_token` does exactly what `Step` says: cursor, line, the token pushed (if any) and the error reported (if any) |
| Scanner.Scanner.ScanOperator | lib/rlox/scanner.rb:55-74 | on a punctuation or operator character, does exactly what `OperatorStep` says |
| Scanner.Scanner.ScanEqualSuffixed | lib/rlox/scanner.rb:65-68 | `!`, `=`, `<`, `>` consume a following `=` and push the matching one- or two-character token |
| Scanner.Scanner.ScanSlash | lib/rlox/scanner.rb:69-74 | `//` skips the comment without a token; a lone `/` pushes SLASH |
| Scanner.Scanner.Advance | lib/rlox/scanner.rb:84-88 | returns the current character and moves past it |
| Scanner.Scanner.AddToken | lib/rlox/scanner.rb:90-93 | pushes one token whose lexeme is the text from `start` to `current`, on the current line |
| Scanner.Scanner.Match | lib/rlox/scanner.rb:95-101 | consumes the next character exactly when it is the expected one |
| Scanner.Scanner.Peek | lib/rlox/scanner.rb:103-107 | the current character, or NUL at the end |
| Scanner.Scanner.PeekNext | lib/rlox/scanner.rb:146-150 | the character after the current one, or NUL past the end |
| Scanner.Scanner.SkipComment | lib/rlox/scanner.rb:71 | stops at the next newline or the end |
| Scanner.Scanner.ScanString | lib/rlox/scanner.rb:109-126 | does exactly what `StringStep` says |
| Scanner.Scanner.SkipStringBody | lib/rlox/scanner.rb:110-113 | stops at the closing quote or the end, and counts the newlines passed |
| Scanner.Scanner.ScanDigits | lib/rlox/scanner.rb:133 | stops after the last digit of the run |
| Scanner.Scanner.ScanNumber | lib/rlox/scanner.rb:132-144 | does exactly what `NumberStep` says |
| Scanner.Scanner.ScanIdentifier | lib/rlox/scanner.rb:152-159 | does exactly what `IdentifierStep` says |
| Parser.ShapedPower | lib/rlox/parser.rb:122-309 | every expression a level builds binds at least as tightly as that level |
| Parser.ShapedIsWellNested | lib/rlox/parser.rb:174-266 | an operand never has a looser operator than its parent, and a right operand is strictly tighter at the left-associative levels: precedence is respected |
| Parser.ShapedAtom | lib/rlox/parser.rb:294-309 | a tree with no operator at its root is a primary expression |
| Parser.ShapedWidens | lib/rlox/parser.rb:122-309 | what a tighter level builds is acceptable at every looser level |
| Parser.TermIsLeftAssociative | lib/rlox/parser.rb:234-244 | in `a - b + c` the left operand holds the earlier operators and the right operand holds no `+` or `-` at its root |
| Parser.AssignmentIsRightAssociative | lib/rlox/parser.rb:122-138 | an assignment's target is an identifier, and its value is itself a full assignment-level expression |
| Parser.VariableTargetIsIdentifier | lib/rlox/parser.rb:129-131 | a variable that the `or` level built is named by an identifier token |
| Parser.DesugarFor | lib/rlox/parser.rb:68-77 | a `for` is a block exactly when it has an initializer, which comes first. The loop is a `while` whose condition defaults to `true`, and whose body runs the increment after the original body |
| Parser.DesugarForDangling | lib/rlox/parser.rb:68-75 | a desugared `for` ends in an unmatched `if` only when it has no initializer and no increment and its body does |
| Parser.Completed | lib/rlox/parser.rb:113-120 | the declarations of a block that parsed, in order, never more than were tried |
| Parser.CompletedKeepsParsed | lib/rlox/parser.rb:113-120 | a statement is in a block exactly when its declaration parsed |
| Parser.CompletedAppend | lib/rlox/parser.rb:116 | one more declaration adds its statement at the end when it parsed, and nothing when it failed |
| Parser.Advanced | lib/rlox/parser.rb:203-206 | one token on, never past the EOF token |
| Parser.ConsumeAt | lib/rlox/parser.rb:311-315 | succeeds exactly when the next token has the expected kind, giving that token and moving past it; otherwise reports the message at the next token and fails without moving |
| Parser.Synchronized | lib/rlox/parser.rb:322-343 | moves one token on, then to the first statement boundary (just after a `;`, before a statement keyword, or at EOF), passing no boundary on the way; only the cursor changes |
| Parser.SkipToBoundary | lib/rlox/parser.rb:325-342 | the loop of `synchronize` stops at the first boundary at or after the cursor |
| Parser.ParseProgram | lib/rlox/parser.rb:12-17 | parses declarations until EOF, which it stops at; a failed declaration is a nil entry, which only a reported error leaves; `had_error` is never lowered; the list is empty exactly when the tokens start at EOF |
| Parser.ProgramStep | lib/rlox/parser.rb:14 | a program is its first declaration and then the program after it |
| Parser.ParseDeclaration | lib/rlox/parser.rb:27-34 | always consumes a token; a failed declaration reported an error and leaves the cursor at a statement boundary; a `var` statement comes only from a `var` keyword |
| Parser.ParseStatement | lib/rlox/parser.rb:36-44 | a statement consumes a token and is never a `var`; a statement ending in an unmatched `if` is never followed by `else` |
| Parser.ParseOtherStatement | lib/rlox/parser.rb:39-43 | a `print` statement comes exactly from the `print` keyword; no `else` is left after an unmatched `if` |
| Parser.ParseBlockOrExpressionStatement | lib/rlox/parser.rb:41-43 | a block exactly after `{`, otherwise an expression statement; neither ends in an unmatched `if` |
| Parser.ParseBlockStatement | lib/rlox/parser.rb:41 | a block statement of the block's declarations |
| Parser.ParseFor | lib/rlox/parser.rb:46-78 | succeeds only after `(`, and without it reports "Expect '(' after 'for'." at the next token; the result is a block exactly when the first clause is not empty, and is otherwise the `while` itself |
| Parser.ParseForClauses | lib/rlox/parser.rb:49-78 | a block around the loop exactly when the first token is not `;` |
| Parser.ParseForLoop | lib/rlox/parser.rb:58-77 | the given initializer comes first in a block of two, when present; an empty condition clause makes the condition `true`; no `else` is left after an unmatched `if` |
| Parser.ParseForInitializer | lib/rlox/parser.rb:49-56 | absent exactly when `;` comes first; otherwise a `var` declaration exactly after `var`, else an expression statement; it ends just after a `;` |
| Parser.ParseForClause | lib/rlox/parser.rb:58-66 | absent exactly when the terminator comes first, then only the terminator is consumed; otherwise a full expression; the terminator is consumed |
| Parser.ParseClauseExpression | lib/rlox/parser.rb:58-64 | no expression and no movement exactly when the terminator comes first |
| Parser.ParseIf | lib/rlox/parser.rb:80-90 | an `if` whose condition is a full expression; an `else` binds to the nearest `if`: a then-branch followed by `else` never ends in an unmatched `if` |
| Parser.ParseIfBranches | lib/rlox/parser.rb:85-89 | the `if` keeps the condition already parsed and the then-branch parsed next, and has an else-branch exactly when `else` follows that then-branch |
| Parser.ParsePrint | lib/rlox/parser.rb:92-96 | a print of one full expression, ending just after `;` |
| Parser.ParseWhile | lib/rlox/parser.rb:98-105 | a `while` whose condition is a full expression; no `else` is left after an unmatched `if` |
| Parser.ParseExpressionStatement | lib/rlox/parser.rb:107-111 | one full expression, ending just after `;` |
| Parser.ParseBlock | lib/rlox/parser.rb:113-120 | the declarations up to the `}`, which is consumed, less the failed ones; it fails only at EOF, with "Expect '}' after block." reported at the EOF token |
| Parser.ParseBlockItems | lib/rlox/parser.rb:116 | stops at the first `}` or EOF, and takes nothing exactly when the block starts at one; a failed declaration is a nil entry, which only a reported error leaves |
| Parser.BlockItemsStep | lib/rlox/parser.rb:116 | a block's declarations are its first one and then the ones after it |
| Parser.ParseVarDeclaration | lib/rlox/parser.rb:164-172 | a `var` named by the identifier that comes first, with an initializer exactly when `=` follows the name, ending just after `;` |
| Parser.ParseVarRest | lib/rlox/parser.rb:167-171 | keeps the name already consumed; an initializer exactly when `=` comes next; ends just after `;` |
| Parser.ParseVarInitializer | lib/rlox/parser.rb:167-168 | present exactly when `=` comes next, and then a full expression; absent without moving |
| Parser.Operators | lib/rlox/parser.rb:143-249 | each binary or logical level's operator tokens all have that level |
| Parser.ParseExpression | lib/rlox/parser.rb:23-25 | an assignment-level expression that consumed at least one token |
| Parser.ParseAssignment | lib/rlox/parser.rb:122-138 | an assignment-level expression |
| Parser.ParseAssignmentRest | lib/rlox/parser.rb:125-137 | without `=` the left side is the result and nothing moves; with `=`, it succeeds exactly when the value parsed and the target is a variable, giving an Assign of that name with a fresh id; another target reports "Invalid assignment target." at the `=` after the value parsed, and fails |
| Parser.ParseBinary | lib/rlox/parser.rb:140-256 | each binary or logical level builds an expression of that level's shape |
| Parser.ParseBinaryRest | lib/rlox/parser.rb:143-147 | the operator loop keeps the level's shape, and stops at once, leaving the left operand, when no operator of the level comes next |
| Parser.ParseUnary | lib/rlox/parser.rb:258-266 | a unary-level expression; after `!` or `-` it is a unary node of that operator |
| Parser.ParseCall | lib/rlox/parser.rb:268-278 | a call-level expression |
| Parser.ParseCallRest | lib/rlox/parser.rb:271-275 | keeps the callee unchanged when no `(` comes next; each argument list keeps the call-level shape |
| Parser.ParseFinishCall | lib/rlox/parser.rb:280-292 | a call of the given callee whose paren is the `)` just consumed, with no arguments exactly when `)` comes first |
| Parser.ParseArgumentList | lib/rlox/parser.rb:283-287 | no arguments exactly when `)` comes first; each argument is a full expression |
| Parser.ParseArguments | lib/rlox/parser.rb:284-286 | adds at least one argument, and another after each comma, each a full expression |
| Parser.ParsePrimary | lib/rlox/parser.rb:294-309 | a primary expression; an identifier gives a variable with the next fresh id; any token that starts no primary is reported as "Expect expression." without being consumed |
| Parser.ParseNameOrGroup | lib/rlox/parser.rb:300-308 | a variable with the next fresh id for an identifier, a group after `(`, and otherwise "Expect expression." |
| Parser.Parser.constructor | lib/rlox/parser.rb:7-10 | starts at the first token, with the given reporter and first node id |
| Parser.Parser.Advance | lib/rlox/parser.rb:203-206 | the cursor moves as `Advanced` says, and the previous token is returned |
| Parser.Parser.Match | lib/rlox/parser.rb:186-195 | consumes the next token exactly when it is not EOF and its kind is one of those given |
| Parser.Parser.Consume | lib/rlox/parser.rb:311-315 | result and new state are those of `ConsumeAt` |
| Parser.Parser.Error | lib/rlox/parser.rb:317-320 | reports the message at the token and fails |
| Parser.Parser.FreshId | lib/rlox/expr/variable.rb:8-10 | hands out the current id counter and raises it by one |
| Parser.Parser.Synchronize | lib/rlox/parser.rb:322-343 | the cursor moves as `Synchronized` says |
| Parser.Parser.Parse | lib/rlox/parser.rb:12-17 | the loop gives the statements and state of `ParseProgram` |
| Parser.Parser.Declaration | lib/rlox/parser.rb:27-34 | result and new state are those of `ParseDeclaration` |
| Parser.Parser.Statement | lib/rlox/parser.rb:36-44 | result and new state are those of `ParseStatement` |
| Parser.Parser.OtherStatement | lib/rlox/parser.rb:39-43 | result and new state are those of `ParseOtherStatement` |
| Parser.Parser.BlockOrExpressionStatement | lib/rlox/parser.rb:41-43 | result and new state are those of `ParseBlockOrExpressionStatement` |
| Parser.Parser.ForStatement | lib/rlox/parser.rb:46-78 | result and new state are those of `ParseFor` |
| Parser.Parser.ForClauses | lib/rlox/parser.rb:49-78 | result and new state are those of `ParseForClauses` |
| Parser.Parser.ForLoop | lib/rlox/parser.rb:58-77 | result and new state are those of `ParseForLoop` |
| Parser.Parser.ForInitializer | lib/rlox/parser.rb:49-56 | result and new state are those of `ParseForInitializer` |
| Parser.Parser.ForClause | lib/rlox/parser.rb:58-66 | result and new state are those of `ParseForClause` |
| Parser.Parser.ClauseExpression | lib/rlox/parser.rb:58-64 | result and new state are those of `ParseClauseExpression` |
| Parser.Parser.IfStatement | lib/rlox/parser.rb:80-90 | result and new state are those of `ParseIf` |
| Parser.Parser.IfBranches | lib/rlox/parser.rb:85-89 | result and new state are those of `ParseIfBranches` |
| Parser.Parser.PrintStatement | lib/rlox/parser.rb:92-96 | result and new state are those of `ParsePrint` |
| Parser.Parser.WhileStatement | lib/rlox/parser.rb:98-105 | result and new state are those of `ParseWhile` |
| Parser.Parser.ExpressionStatement | lib/rlox/parser.rb:107-111 | result and new state are those of `ParseExpressionStatement` |
| Parser.Parser.Block | lib/rlox/parser.rb:113-120 | result and new state are those of `ParseBlock` |
| Parser.Parser.BlockItems | lib/rlox/parser.rb:116 | the loop keeps the parsed declarations of `ParseBlockItems`, and leaves its state |
| Parser.Parser.VarDeclaration | lib/rlox/parser.rb:164-172 | result and new state are those of `ParseVarDeclaration` |
| Parser.Parser.VarRest | lib/rlox/parser.rb:167-171 | result and new state are those of `ParseVarRest` |
| Parser.Parser.VarInitializer | lib/rlox/parser.rb:167-168 | result and new state are those of `ParseVarInitializer` |
| Parser.Parser.Expression | lib/rlox/parser.rb:23-25 | result and new state are those of `ParseExpression` |
| Parser.Parser.Assignment | lib/rlox/parser.rb:122-138 | result and new state are those of `ParseAssignment` |
| Parser.Parser.AssignmentRest | lib/rlox/parser.rb:125-137 | result and new state are those of `ParseAssignmentRest` |
| Parser.Parser.LogicalOr | lib/rlox/parser.rb:140-150 | result and new state are those of `ParseBinary` at the `or` level |
| Parser.Parser.LogicalAnd | lib/rlox/parser.rb:152-162 | result and new state are those of `ParseBinary` at the `and` level |
| Parser.Parser.Equality | lib/rlox/parser.rb:174-184 | result and new state are those of `ParseBinary` at the equality level |
| Parser.Parser.Comparison | lib/rlox/parser.rb:222-232 | result and new state are those of `ParseBinary` at the comparison level |
| Parser.Parser.Term | lib/rlox/parser.rb:234-244 | result and new state are those of `ParseBinary` at the term level |
| Parser.Parser.Factor | lib/rlox/parser.rb:246-256 | result and new state are those of `ParseBinary` at the factor level |
| Parser.Parser.Unary | lib/rlox/parser.rb:258-266 | result and new state are those of `ParseUnary` |
| Parser.Parser.Call | lib/rlox/parser.rb:268-278 | result and new state are those of `ParseCall` |
| Parser.Parser.FinishCall | lib/rlox/parser.rb:280-292 | result and new state are those of `ParseFinishCall` |
| Parser.Parser.ArgumentList | lib/rlox/parser.rb:281-287 | result and new state are those of `ParseArgumentList` |
| Parser.Parser.Primary | lib/rlox/parser.rb:294-309 | result and new state are those of `ParsePrimary` |
| Parser.Parser.NameOrGroup | lib/rlox/parser.rb:300-308 | result and new state are those of `ParseNameOrGroup` |
| Values.InstanceTextNamesClass | lib/rlox/instance.rb:11-13 | an instance prints as its class's name followed by " instance", never as the class itself |
| Values.GetField | lib/rlox/interpreter.rb:208-213 | a field read succeeds exactly when the field exists, and otherwise fails with "Undefined property" |
| Values.SetField | lib/rlox/interpreter.rb:215-223 | a field write adds exactly that field name |
| Values.SetThenGet | lib/rlox/interpreter.rb:208-223 | a field reads back as the value last written to it, and other fields are unaffected |
| Environments.Defined | lib/rlox/environment.rb:9-11 | `define` adds exactly that name |
| Environments.Lookup | lib/rlox/environment.rb:13-17 | `get` succeeds exactly when the name is bound, with its value, and otherwise fails with "Undefined variable 'x'." at the token |
| Environments.Assigned | lib/rlox/environment.rb:19-26 | `assign` succeeds exactly when the name is already bound, rebinding it and nothing else, and otherwise fails with "Undefined variable 'x'." |
| Environments.DefineThenGet | lib/rlox/environment.rb:9-17 | a defined name reads back as its value |
| Environments.OthersUnchanged | lib/rlox/environment.rb:9-26 | defining or assigning one name leaves every other name as it was |
| Environments.RedefineReplaces | lib/rlox/environment.rb:9-11 | redefining a name replaces its value |
| Environments.AssignIsDefineOfKnownName | lib/rlox/environment.rb:19-26 | assigning a bound name is defining it again; assigning an unbound one always fails |
| Environments.Environment.AncestorStep | lib/rlox/interpreter.rb:268-276 | one more step out along the chain is the enclosing frame of the previous one |
| Environments.Environment.Define | lib/rlox/environment.rb:9-11 | the frame becomes `Defined` of the old frame |
| Environments.Environment.Get | lib/rlox/environment.rb:13-17 | the result is `Lookup` on this frame alone |
| Environments.Environment.Assign | lib/rlox/environment.rb:19-26 | succeeds and updates the frame exactly when the name is bound, and otherwise fails and changes nothing |
| Environments.Environment.AncestorAt | lib/rlox/interpreter.rb:268-276 | walks exactly `distance` enclosing links |
| Environments.Environment.GetAt | lib/rlox/interpreter.rb:268-276 | the value bound in the frame exactly `distance` links out, nil if it is missing there |
| Environments.Environment.AssignAt | lib/rlox/interpreter.rb:131-142 | rebinds the name in the frame exactly `distance` links out, and in no other frame |
| Interpreter.DotIndex | lib/rlox/scanner.rb:132-144 | the position of the first '.' in a number's text, or its length |
| Interpreter.StripTrailingZeros | lib/rlox/interpreter.rb:290-300 | removes trailing zeros only |
| Interpreter.AncestorIndex | lib/rlox/interpreter.rb:268-276 | the frame `distance` links out, when the chain is that long, is a frame of the store |
| Interpreter.DefineIn | lib/rlox/interpreter.rb:119-125 | defining changes only the named binding of the current frame |
| Interpreter.AssignVariable | lib/rlox/interpreter.rb:131-142 | an assignment yields the value assigned and allocates nothing |
| Interpreter.Eval | lib/rlox/interpreter.rb:41-227 | evaluation never removes frames, never lowers the object-id counter, and only appends printed lines |
| Interpreter.EvalArgs | lib/rlox/interpreter.rb:191-197 | the arguments are evaluated left to right, one value each |
| Interpreter.CallValue | lib/rlox/function.rb:13-26 | a call never removes frames, never lowers the object-id counter, only appends printed lines, and never lets a `return` signal escape: the function returns its value |
| Interpreter.Exec | lib/rlox/interpreter.rb:95-189 | a statement completes with nil, and only adds frames and printed lines and raises the object-id counter |
| Interpreter.ExecSeq | lib/rlox/interpreter.rb:33-39 | a statement list completes with nil |
| Interpreter.BinaryRaises | lib/rlox/interpreter.rb:60-93 | a binary operator fails exactly when `+` gets neither two numbers nor two strings, or an arithmetic or comparison operator gets a non-number, with the source's messages |
| Interpreter.UnaryRules | lib/rlox/interpreter.rb:45-54 | `!!e` is the truthiness of `e`; `- -e` is `e` when it is a number, and otherwise raises "Operand must be a number." at the inner `-`; neither changes the state beyond evaluating `e` |
| Interpreter.UnaryOperators | lib/rlox/interpreter.rb:45-54 | `!e` is the negated truthiness of `e`'s value; `-e` is the negated number, or raises "Operand must be a number." at the operator when the value is not a number; the state is the one the operand left, and an operand that fails ends the expression with its own outcome |
| Interpreter.BinaryEvaluatesLeftThenRight | lib/rlox/interpreter.rb:60-93 | the left operand is evaluated first and the right one from the state it left, only if it completed; the result is the operator applied to both values |
| Interpreter.LogicalIgnoresRight | lib/rlox/interpreter.rb:173-183 | when the left operand decides `or` (truthy) or `and` (falsey), or fails, the right operand is never evaluated: any right operand gives the same result |
| Interpreter.LogicalTruthiness | lib/rlox/interpreter.rb:173-183 | an `or` is truthy exactly when either operand is, an `and` exactly when both are, and the result is one of the operands' values |
| Interpreter.AssignYieldsValue | lib/rlox/interpreter.rb:131-142 | an assignment expression's value is the value assigned |
| Interpreter.AssignThenRead | lib/rlox/interpreter.rb:127-142 | after an assignment, a read of the same name resolved at the same distance gives the value assigned |
| Interpreter.AssignedReadsBack | lib/rlox/interpreter.rb:127-142 | the frame an assignment writes is the frame a read of the same name at the same distance looks in, so the read gives the value assigned |
| Interpreter.DeclareThenRead | lib/rlox/interpreter.rb:119-129 | after `var x = e;` a read of `x` in that frame gives the value of `e`, and after `var x;` it gives nil |
| Interpreter.ThisIsVariableLookup | lib/rlox/interpreter.rb:225-227 | `this` is looked up exactly as a variable named by the keyword at the same node, and changes nothing |
| Interpreter.SameLinksSameAncestors | lib/rlox/interpreter.rb:268-276 | walking `distance` links depends only on the enclosing links, not on the bindings in the frames |
| Interpreter.AncestorIndexAdds | lib/rlox/interpreter.rb:268-276 | walking `a` links and then `b` more is walking `a + b` links |
| Interpreter.DeclarationsStayInTheirFrame | lib/rlox/interpreter.rb:119-125 | a run of plain declarations completes normally, adds exactly the declared names to its own frame and changes no other frame |
| Interpreter.BlockDeclarationsAreLocal | lib/rlox/interpreter.rb:144-147 | declarations inside a block live in the block's new frame: every frame that existed before is unchanged afterwards |
| Interpreter.BlockRunsInNewFrame | lib/rlox/interpreter.rb:144-147 | a block runs its statements in order in a new empty frame, added to the store, whose parent is the current frame |
| Interpreter.EvalArgsAppend | lib/rlox/interpreter.rb:191-197 | evaluating two argument lists in a row is evaluating the first and, only when it completed, the second from the state it left |
| Interpreter.EvalArgsInOrder | lib/rlox/interpreter.rb:191-197 | argument `i` is evaluated in the state the first `i` arguments left, after them and only if they all completed |
| Interpreter.CallEvaluatesCalleeThenArguments | lib/rlox/interpreter.rb:191-206 | a call evaluates the callee, then the arguments left to right; then a non-callable raises "Can only call functions and classes.", a wrong count raises "Expected N arguments but got M.", and otherwise the callee is called |
| Interpreter.SetKeepsOtherFields | lib/rlox/interpreter.rb:215-223 | a property write leaves every other field of the instance as it was |
| Interpreter.SetThenGetField | lib/rlox/interpreter.rb:215-223 | after a successful property write, the instance's field holds the value the write returned |
| Interpreter.NonInstanceGetRaises | lib/rlox/interpreter.rb:208-213 | a property read on a value that is not an instance raises "Only instances have properties." at the property name |
| Interpreter.GetReadsField | lib/rlox/interpreter.rb:208-213 | a property read on an instance yields that field, or raises the field lookup's error, and changes nothing beyond evaluating the object |
| Interpreter.NonInstanceSetIgnoresValue | lib/rlox/interpreter.rb:215-223 | a property write on a value that is not an instance raises "Only instances have fields." at the field name before the value is evaluated: any value expression gives the same run |
| Interpreter.ClassCallMakesFreshInstance | lib/rlox/class.rb:15-17 | calling a class makes an instance of it, numbered by the object counter which moves past it, with no fields; every other object is left as it was |
| Interpreter.LaterInstancesDiffer | lib/rlox/class.rb:15-17 | whatever runs between two class calls, the later instance's id differs from the earlier one's |
| Interpreter.EvalNeverThrows | lib/rlox/interpreter.rb:41-227 | a `return` signal never escapes an expression |
| Interpreter.BinaryNeverThrows | lib/rlox/interpreter.rb:60-93 | a binary expression never ends with a `return` signal |
| Interpreter.OperatorsNeverThrow | lib/rlox/interpreter.rb:45-93 | operators yield a value or an error, never a `return` signal |
| Interpreter.LogicalNeverThrows | lib/rlox/interpreter.rb:173-183 | a logical expression never ends with a `return` signal |
| Interpreter.SetNeverThrows | lib/rlox/interpreter.rb:215-223 | a property write never ends with a `return` signal |
| Interpreter.CallNeverThrows | lib/rlox/interpreter.rb:191-206 | a call expression never ends with a `return` signal |
| Interpreter.EvalArgsNeverThrow | lib/rlox/interpreter.rb:191-197 | evaluating arguments never ends with a `return` signal |
| Interpreter.NoReturnNeverThrows | lib/rlox/interpreter.rb:95-189 | a statement with no `return` in it, outside the functions it declares, never ends with a `return` signal |
| Interpreter.NoReturnSeqNeverThrows | lib/rlox/interpreter.rb:33-39 | a list of such statements never ends with a `return` signal |
| Interpreter.ReturnEndsCall | lib/rlox/function.rb:19-23 | a function whose body starts with `return` hands back the value of the returned expression, evaluated in the call's new frame (nil for a bare `return`, the literal's value for a literal), runs nothing after it, and otherwise passes on the expression's error |
| Interpreter.CallYieldsReturnedValue | lib/rlox/function.rb:19-25 | for any body: a body that ends with a Return signal gives the value it carries, a body that completes gives nil, each in the state the body left, and any other outcome of the body is the call's |
| Interpreter.CallWithoutReturnYieldsNil | lib/rlox/function.rb:19-25 | a function whose body has no `return` gives nil once the body completes, from the state the body leaves, and otherwise passes on the body's error |
| Interpreter.CallBindsParameter | lib/rlox/function.rb:13-23 | one example of parameter binding: a function whose body is `return p` for its parameter p at position i, read at distance 0, returns argument i, unless a later parameter has the same name; the general fact is BindBindsParameters |
| Interpreter.BindBindsParameters | lib/rlox/function.rb:14-17 | each parameter (the last one of a repeated name) is bound to its argument, and every other name is unchanged |
| Interpreter.BindKeeps | lib/rlox/function.rb:14-17 | names that are not parameters keep their bindings |
| Interpreter.ExecSeqAppend | lib/rlox/interpreter.rb:229-241 | running two lists in a row is running the first, then the second only if the first completed |
| Interpreter.ExecSeqStopsAtFirstFailure | lib/rlox/interpreter.rb:33-39 | a list stops at the first statement that returns or fails, with that outcome |
| Interpreter.ReturnStatementThrowsValue | lib/rlox/interpreter.rb:112-117 | `return` ends the statement with a Return signal carrying nil, or the value of its expression in the state the expression left; a failing expression ends it with the failure |
| Interpreter.ExpressionDiscardsValue | lib/rlox/interpreter.rb:95-98 | an expression statement completes with nil in the state its expression left, or ends with the expression's failure |
| Interpreter.PrintAppendsOneLine | lib/rlox/interpreter.rb:106-110 | `print` appends exactly one line, the stringified value, and otherwise leaves the state as the expression left it; a failing expression prints nothing |
| Interpreter.FunctionDeclarationBindsName | lib/rlox/interpreter.rb:100-104 | a function declaration binds its name in the current frame to a new function object, moves the object counter past it, and changes no other frame, no instance and no output |
| Interpreter.ClassDeclarationBindsName | lib/rlox/interpreter.rb:149-161 | a class declaration defines its name, then assigns it a new class of that name, which cannot fail; no other frame, instance or output changes |
| Interpreter.IfRunsChosenBranch | lib/rlox/interpreter.rb:163-171 | `if` runs the then-branch on a truthy condition, else the else-branch when there is one, else nothing, each from the state the condition left |
| Interpreter.WhileUnrolls | lib/rlox/interpreter.rb:185-189 | `while` stops with nil on a falsy condition, in the state the condition left; on a truthy one it runs the body, then the whole loop again from the state the body left, unless the body fails or returns |
| Interpreter.WholeValueOfDecimal | lib/rlox/scanner.rb:143 | the value of a run of digits is its decimal value |
| Interpreter.StripZeroPadding | lib/rlox/interpreter.rb:290-300 | an all-zero fraction prints nothing |
| Interpreter.NoFractionText | lib/rlox/interpreter.rb:290-300 | a zero fraction prints nothing |
| Interpreter.MagnitudeOfWholeNumber | lib/rlox/interpreter.rb:290-300 | a whole number prints as its digits (as Ruby does below 10^16) |
| Interpreter.WholeNumberText | lib/rlox/interpreter.rb:290-300 | a whole number prints as its decimal digits, with a minus sign when negative; Ruby agrees below 10^16 in magnitude, where `Float#to_s` has not yet switched to exponent form |
| Interpreter.NumberValueOfDigits | lib/rlox/scanner.rb:143 | a literal made of digits only has the decimal value of those digits |
| Interpreter.IntegerLiteralPrintsAsWritten | lib/rlox/interpreter.rb:290-300 | printing a whole-number literal below 10^16 gives back its text; above that Ruby prints exponent form, which the model does not |
| Interpreter.Interpreter.constructor | lib/rlox/interpreter.rb:25-31 | globals holds `clock`, is the current environment, and nothing is resolved |
| Interpreter.Interpreter.Resolve | lib/rlox/interpreter.rb:243-245 | records the distance for that node only |
| Interpreter.Interpreter.ExecuteBlock | lib/rlox/interpreter.rb:229-241 | the loop runs exactly what `ExecSeq` says, and the previous environment is back on every exit |
| Interpreter.Interpreter.Interpret | lib/rlox/interpreter.rb:33-39 | runs exactly what `ExecSeq` says. A runtime error is reported once, raises `had_runtime_error` and ends the run; nothing is reported otherwise, and `had_error` is unchanged |
| Resolver.Mark | lib/rlox/resolver.rb:143-155 | marking touches the innermost scope only, and nothing at global scope |
| Resolver.MarkOverrides | lib/rlox/resolver.rb:143-155 | declaring and then defining a name leaves it defined |
| Resolver.Distance | lib/rlox/resolver.rb:157-164 | the distance names the innermost scope that has the name, and no nearer scope has it; none means no scope has it |
| Resolver.DeclaredNameIsInnermost | lib/rlox/resolver.rb:143-164 | a name just declared in a local scope resolves at distance 0 |
| Resolver.BeginScopeShiftsDistance | lib/rlox/resolver.rb:135-137 | entering a scope moves every local binding one scope further out and leaves global names global |
| Resolver.Recorded | lib/rlox/resolver.rb:157-164 | the node gets an entry exactly when it had one or some scope has the name; no entry is lost |
| Resolver.ExprLocals | lib/rlox/resolver.rb:36-49 | the side table after resolving an expression, in the order the visitors walk the tree; no entry is lost |
| Resolver.ArgsLocals | lib/rlox/resolver.rb:93-101 | the side table after resolving a list of expressions, first to last; no entry is lost |
| Resolver.ExprLocalsKeepsOthers | lib/rlox/resolver.rb:157-164 | resolving an expression changes the table only at the expression's own nodes |
| Resolver.ArgsLocalsKeepsOthers | lib/rlox/resolver.rb:93-101 | resolving a list changes the table only at the list's nodes |
| Resolver.GlobalScopeRecordsNothing | lib/rlox/resolver.rb:157-164 | at global scope an expression records nothing: its names are left to globals |
| Resolver.ArgsAtGlobalScopeRecordNothing | lib/rlox/resolver.rb:93-101 | at global scope a list of expressions records nothing |
| Resolver.ParameterScope | lib/rlox/resolver.rb:166-171 | the scope of a function body: exactly the parameter names, each defined |
| Resolver.ParameterScopeGrows | lib/rlox/resolver.rb:168-171 | declaring and defining one more parameter adds exactly that name to the scope |
| Resolver.ExtendsTransitive | lib/rlox/resolver.rb:10-19 | steps of the pass compose: only the innermost scope changes, table entries and report lines are only added, and `had_error` is up exactly when it was or a line was reported |
| Resolver.ExprResolved | lib/rlox/resolver.rb:36-121 | resolving an expression never changes the scopes |
| Resolver.ArgsResolved | lib/rlox/resolver.rb:93-101 | resolving arguments never changes the scopes |
| Resolver.ResolvedInTurn | lib/rlox/resolver.rb:87-116 | resolving two operands in turn resolves both against the same scopes, the second's entries and reports after the first's |
| Resolver.CalleeThenArguments | lib/rlox/resolver.rb:93-101 | a call resolves its callee and then its arguments against the same scopes, in that order |
| Resolver.StmtResolved | lib/rlox/resolver.rb:21-85 | every statement changes at most the innermost scope, loses no table entry, only appends reports, and raises `had_error` exactly when it reports |
| Resolver.BlockResolved | lib/rlox/resolver.rb:21-27 | a block's statements are resolved in a scope of their own, with the same guarantees |
| Resolver.VarResolved | lib/rlox/resolver.rb:29-34 | declare, the initializer if any, then define, with the same guarantees |
| Resolver.FunctionStmtResolved | lib/rlox/resolver.rb:51-57 | the name is declared and defined, and then the function resolved, with the same guarantees |
| Resolver.IfResolved | lib/rlox/resolver.rb:64-69 | the condition, the then-branch and the else-branch if any, in turn, with the same guarantees |
| Resolver.WhileResolved | lib/rlox/resolver.rb:81-85 | the condition and then the body, with the same guarantees |
| Resolver.StmtsResolved | lib/rlox/resolver.rb:10-19 | a statement list in order, with the same guarantees |
| Resolver.FunctionResolved | lib/rlox/resolver.rb:166-174 | a new scope, the parameters declared and defined, the body resolved and the scope dropped, with the same guarantees |
| Resolver.ParamsDeclared | lib/rlox/resolver.rb:168-171 | the parameter loop, with the same guarantees |
| Resolver.ClosedExtends | lib/rlox/resolver.rb:135-141 | popping the scope a step pushed gets back to the scopes before it, keeping what the step added |
| Resolver.BlockRestoresScopes | lib/rlox/resolver.rb:21-27 | a block and a function leave the scope stack exactly as they found it |
| Resolver.ParamsScope | lib/rlox/resolver.rb:166-171 | the body of a function sees the enclosing scopes plus one scope of exactly the parameters, all defined; the parameters record nothing |
| Resolver.VarResolvesInitializerWhileNotReady | lib/rlox/resolver.rb:29-34 | `var x = e;` resolves `e` while `x` is declared but not ready in the innermost scope, reports a redeclaration first and then `e`'s self-reads, and leaves `x` defined |
| Resolver.SelfInitializerReported | lib/rlox/resolver.rb:42-45 | a local `var a = a;` reports "Can't read local vafiable in its own initializer." at the read; at global scope it changes nothing |
| Resolver.RedeclarationReported | lib/rlox/resolver.rb:143-149 | declaring a name the innermost local scope already has reports "Already a variable with this name in this scope" once, at that name; at global scope it changes nothing |
| Resolver.FunctionNameVisibleInBody | lib/rlox/resolver.rb:51-57 | inside a local function its own name resolves one scope out, or at distance 0 when a parameter shadows it, because the name is bound before the body is resolved |
| Resolver.BlockLocalReadRecorded | lib/rlox/resolver.rb:21-49 | in `{ var a = ...; print a; }` the read of `a` is recorded at distance 0, whatever scopes enclose the block |
| Resolver.TwoStatements | lib/rlox/resolver.rb:15-17 | two statements are resolved one after the other |
| Resolver.FunctionBodyResolvedInParameterScope | lib/rlox/resolver.rb:166-174 | a one-expression body is resolved against the enclosing scopes plus the parameter scope |
| Resolver.GlobalExpressionStatementsRecordNothing | lib/rlox/resolver.rb:59-74 | an expression or print statement at global scope records nothing |
| Resolver.Resolver.constructor | lib/rlox/resolver.rb:5-8 | no scopes, and the given interpreter |
| Resolver.Resolver.BeginScope | lib/rlox/resolver.rb:135-137 | the state becomes `Opened`: one empty scope pushed |
| Resolver.Resolver.EndScope | lib/rlox/resolver.rb:139-141 | the state becomes `Closed`: the innermost scope popped |
| Resolver.Resolver.Declare | lib/rlox/resolver.rb:143-149 | the state becomes `Declared` |
| Resolver.Resolver.Define | lib/rlox/resolver.rb:151-155 | the state becomes `Defined` |
| Resolver.Resolver.ResolveLocal | lib/rlox/resolver.rb:157-164 | the side table becomes `Recorded`: the node's distance is recorded exactly when some scope has the name |
| Resolver.Resolver.Resolve | lib/rlox/resolver.rb:10-19 | the loop leaves the state `StmtsResolved` computes, and leaves `had_runtime_error` alone |
| Resolver.Resolver.ResolveFunction | lib/rlox/resolver.rb:166-174 | the state becomes `FunctionResolved` |
| Resolver.Resolver.DeclareParameters | lib/rlox/resolver.rb:168-171 | the loop leaves the state `ParamsDeclared` computes |
| Resolver.Resolver.DeclareParameter | lib/rlox/resolver.rb:169-170 | one parameter declared and defined |
| Resolver.Resolver.ResolveStmt | lib/rlox/resolver.rb:127-129 | the state becomes `StmtResolved` |
| Resolver.Resolver.VisitBlockStmt | lib/rlox/resolver.rb:21-27 | the state becomes `StmtResolved` of the block |
| Resolver.Resolver.VisitVarStmt | lib/rlox/resolver.rb:29-34 | the state becomes `StmtResolved` of the declaration |
| Resolver.Resolver.VisitFunctionStmt | lib/rlox/resolver.rb:51-57 | the state becomes `StmtResolved` of the function |
| Resolver.Resolver.VisitIfStmt | lib/rlox/resolver.rb:64-69 | the state becomes `StmtResolved` of the `if` |
| Resolver.Resolver.VisitWhileStmt | lib/rlox/resolver.rb:81-85 | the state becomes `StmtResolved` of the `while` |
| Resolver.Resolver.ResolveExpr | lib/rlox/resolver.rb:131-133 | the state becomes `ExprResolved` |
| Resolver.Resolver.VisitVariableExpr | lib/rlox/resolver.rb:42-49 | the state becomes `ExprResolved` of the read: its self-read report, if any, and its distance |
| Resolver.Resolver.ResolveOperands | lib/rlox/resolver.rb:87-121 | binary, call, grouping, logical and unary nodes: the state becomes `ExprResolved` of the node |
| Resolver.Resolver.ResolveExprs | lib/rlox/resolver.rb:96-98 | the state becomes `ArgsResolved` |
| AstPrinter.Print | lib/rlox/ast_printer.rb:5-25 | an operator node prints inside one pair of parentheses; a literal prints as its text |
| AstPrinter.Parenthesize | lib/rlox/ast_printer.rb:29-31 | the text opens with `(` and closes with `)` |
| AstPrinter.OccurrencesAppend | lib/rlox/ast_printer.rb:29-31 | counting characters is additive over concatenation |
| AstPrinter.PrintBalances | lib/rlox/ast_printer.rb:5-31 | when no lexeme or literal holds a parenthesis, the output has exactly one `(` and one `)` per operator node |
| AstPrinter.PrintsNegation | lib/rlox/ast_printer.rb:23-25 | `-123` prints as `(- 123)` |
| AstPrinter.PrintsGroup | lib/rlox/ast_printer.rb:13-15 | a grouped `45.67` prints as `(group 45.67)` |
| AstPrinter.PrintsTestExpression | test/test_rlox_ast_printer.rb:7-18 | the test's tree prints as `(* (- 123) (group 45.67))` |
| Lox.ExitStatus | lib/rlox.rb:56-62 | 65 exactly after a static error, 70 exactly after a runtime error without a static one, 0 otherwise |
| Lox.Present | lib/rlox.rb:80-83 | after an error-free parse, the statements are the parsed ones, one for one and in order |
| Lox.FrontEndOf | lib/rlox.rb:77-83 | scanning and parsing with the shared flags: when no static error is up afterwards, every declaration parsed and none was up before; node ids are only handed out |
| Lox.BackEndOf | lib/rlox.rb:85-90 | the run stops before interpreting exactly when a static error is up after resolving, and then the interpreter state is unchanged; an earlier static error always stops it; frames, objects and output only grow; `had_runtime_error` is never lowered |
| Lox.RunOf | lib/rlox.rb:76-91 | `run`: no outcome exactly when a static error is up at the end, and then the interpreter state is as it was; any static error from before stops it; state only grows; `had_runtime_error` is never lowered |
| Lox.PromptOf | lib/rlox.rb:64-74 | `run_prompt`: after at least one line `had_error` is down; no lines change nothing; the interpreter state only grows; `had_runtime_error` is never lowered |
| Lox.StaticErrorStopsRun | lib/rlox.rb:83 | with `had_error` already up, a run resolves and interprets nothing: state and side table are untouched |
| Lox.TopLevelExpressionRecordsNothing | lib/rlox.rb:85-86 | a source that parses to one top-level expression statement is resolved from global scope and adds nothing to the side table |
| Lox.PromptForgetsStaticError | lib/rlox.rb:70-72 | in the prompt a line runs exactly as it would with `had_error` down, and the prompt after it is that run with `had_error` lowered |
| Lox.Lox.constructor | lib/rlox.rb:22-23 | a fresh interpreter with the initial state and an empty side table; no flag up and nothing reported |
| Lox.Lox.Run | lib/rlox.rb:76-91 | the outcome and new session are those of `RunOf` |
| Lox.Lox.FrontEnd | lib/rlox.rb:77-83 | the session becomes that after `FrontEndOf`; the statements come back exactly when no static error is up, as `Present` of the parsed list |
| Lox.Lox.ScanSource | lib/rlox.rb:77-78 | the tokens of `Scan`, with its error lines reported and `had_error` raised exactly when there were any |
| Lox.Lox.ParseTokens | lib/rlox.rb:80-81 | the declarations and state of `ParseProgram`, numbering nodes from the session's next id |
| Lox.Lox.ResolveAndInterpret | lib/rlox.rb:85-90 | the outcome and new session are those of `BackEndOf` |
| Lox.Lox.RunFile | lib/rlox.rb:56-62 | the session becomes that after `RunOf`, and the status follows its flags: 65 exactly when the run stopped on a static error |
| Lox.Lox.RunPrompt | lib/rlox.rb:64-74 | the loop leaves the session `PromptOf` computes |
| Lox.Lox.RunCommandLine | lib/rlox.rb:22-32 | one argument runs the file with its exit status, none runs the prompt with status 0, and more print the usage line and give 64, changing nothing else |

## Left out

- Reading files and standard input, writing the `> ` prompt and `exit` are
  I/O. The script's text, the prompt's lines and the argument count are
  parameters. The standard-error lines are `Reporter.log`, and printed
  values are `State.output`.
- `Process.clock_gettime` is a parameter (`Context.clock`). The clock's
  unit and source are not modelled. The clock is read once for each
  `Interpret` (each `run`), so every `clock()` call within one run gives the
  same value.
- Numbers are exact rationals (`real`), not IEEE doubles.
  - Rounding, infinities and NaN are not modelled.
  - `-0.0` is not modelled.
  - Division by zero, where Ruby gives an infinity or NaN, is a `Fault`
    outcome.
- Interpreter.NumberText: `Float#to_s` is approximated. It prints the whole
  part, then up to 16 fraction digits with trailing zeros removed. Exponent
  notation and the shortest round-trip digits are not modelled. A whole
  number prints without `.0`, since `stringify` strips it.
- AstPrinter.Print: number literals print as their lexeme. The Ruby literal
  holds a `Float` after scanning, so a scanned `123` would print `123.0`.
  The repository's test builds the literal from the integer `123`, and
  prints `123`.
- Interpreter.Eval: it runs on a `fuel` bound, and running out of fuel is an
  `OutOfFuel` outcome. The model does not capture non-termination itself.
- Interpreter.Eval: its own contract states only that state grows: frames
  are kept, the object-id counter never goes down, and output is only
  appended. Lemmas state what the Unary, Binary, Logical, Variable, This,
  Assign, Call, Get and Set nodes compute. Literal and Grouping nodes are
  defined only by the body of `Eval`.
- Interpreter.Exec: its own contract states growth and that a statement
  that completes gives nil. Lemmas state what the Expression, Print, Var,
  Function, Class, If, While and Return statements do. For a block, the
  lemmas state that it runs its statements in a new frame whose parent is
  the current one, and that a block of declarations alone leaves every
  earlier frame as it was; what a block with other statements does to
  outer frames rests on the lemmas for those statements. `while` is
  stated one unrolling at a time, not as a whole loop.
- Interpreter.EvalArgs: its own contract states growth and one value per
  argument. The left-to-right order is stated by `EvalArgsAppend` and
  `EvalArgsInOrder`.
- Interpreter.CallValue: its own contract states growth and that no
  `return` signal escapes. Lemmas state what a class call gives, and what
  a function call gives for any body: the value a Return signal carries,
  or nil when the body completes. They also state parameter binding.
- Host exceptions that the Ruby does not rescue are `Fault` outcomes.
  - The missing visitor for `Super` nodes.
  - `Return` escaping `interpret` is the `Thrown` outcome that `Interpret`
    hands back.
- `Stmt::Super` (lib/rlox/stmt/super.rb) has no visitor and no parser rule,
  and is not part of the Stmt datatype.
- The parser has no rules for `fun`, `class`, `return`, `.` or `this` in
  this version of the code, so it never builds those nodes. The evaluator
  and the resolver still handle them.
- The resolver has no visitors for Class, Get, Set, This and Super nodes.
  The model resolves them the way the interpreter uses them (declare and
  define a class name; resolve the parts of Get and Set; resolve the keyword
  of This and Super) rather than failing with NoMethodError.
- Parser.ParseBlock: a failed inner declaration returns nil, which the
  Ruby keeps in the block's statement list. The model drops it, because it
  can never be executed: `run` stops on the error reported with it. The
  top-level list (`ParseProgram`) keeps its nil entries.
- AstPrinter.Print: it requires every node to be one of the four kinds the
  Ruby printer has a visitor for (binary, grouping, literal, unary); on any
  other node the Ruby fails with NoMethodError.
- Function closures and class method tables are not kept, because the
  constructors that would receive them take one argument and nothing reads
  them.
- lib/rlox/main.rb (the executable), the Zeitwerk loader setup in
  lib/rlox.rb and test/test_rlox.rb are not part of this model.
