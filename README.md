# jslox front end and resolver, modelled in Dafny

jslox is a JavaScript implementation of Lox, a small dynamically typed, block-scoped,
class-based scripting language. This project models the parts of it that work without
evaluating anything:

- the token kinds and the `Token` record (`bin/token.js`, module `Tokens`);
- the scanner that turns source text into tokens (`bin/scanner.js`, module
  `Scanning`). Pure functions say what one `scanToken` step and a whole scan produce.
  The class `Scanning.Scanner` updates `start`, `current`, `line`, `tokens` and
  `errors` as the source does, and each of its methods is proved to follow those
  functions;
- the recursive-descent parser and its grammar (`bin/parser.js`, module `Parsing`).
  The class `Parsing.Parser` moves a `current` cursor over an EOF-terminated token
  sequence. Each grammar method is proved to agree with a function that parses from a
  position. Module `ParseTrees` says when a tree spells a stretch of tokens, and module
  `ParserProperties` proves that parsing such a stretch gives the tree back. This
  settles left associativity, precedence and the right-recursive unary rule;
- the syntax tree and its printer `pprint` (`bin/ast.js`, module `Ast`);
- the lexical environment (`bin/environment.js`, module `Environments`): a class
  `Environment` with a `values` map and an `enclosing` link, proved against a chain of
  maps, innermost first;
- the static resolver (`bin/resolver.js`):
  - module `ResolverSyntax` holds the node kinds it visits;
  - module `ResolverSemantics` describes every visitor as a function on the
    resolver's state;
  - module `Resolving` holds the `Stack` class and the `Resolver` class, whose methods
    are proved to follow those functions;
  - module `ResolverProperties` proves the resolver's rules: distances, scopes, the
    context flags, and each static error.

The resolver's `interpreter.resolve(node, depth)` callback becomes a `locals` map from
node ids to distances. Its calls to `error` do not throw and only report, so they
become a list of errors added to the state.

## Model

| member | source | states |
|---|---|---|
| Tokens.FromTagOfTag | bin/token.js:1-47 | every token kind is recovered from its tag string, so the table is invertible |
| Tokens.TagsDistinct | bin/token.js:1-47 | two kinds with the same tag string are the same kind: the tags are pairwise distinct |
| Tokens.TagHasNoSpace | bin/token.js:1-47 | no tag string contains a space |
| Tokens.ToStringNamesKind | bin/token.js:57-59 | the first space-separated word of `toString` is the kind's tag, from which the kind is recovered |
| Tokens.FirstWordOfSpaced | bin/token.js:57-59 | a space-free word followed by a space and anything is read back as that word |
| Tokens.NatText | bin/scanner.js:101 | the decimal text of a natural is non-empty, all digits, and has no leading zero unless it is `0` |
| Ast.PPrint | bin/ast.js:60-63 | a literal prints as its text, in which a falsy value prints as `nil`; every other node prints as a string that opens with `(` and closes with `)` |
| Ast.PPrintStmt | bin/ast.js:57-59 | print, expression and declaration statements print as one parenthesised string |
| Ast.PPrintProgram | bin/ast.js:56 | a program prints exactly when none of its statements is a declaration, since a declaration has no `expr`; the text is parenthesised |
| Ast.PPrintWellBracketed | bin/ast.js:60-63 | when no literal's text and no operator lexeme in the tree contains a parenthesis, the expression's text has balanced parentheses, and a non-literal one is a single parenthesised group; a string literal such as `"("` is copied as it is, which is why the condition is needed |
| Ast.PPrintStmtWellBracketed | bin/ast.js:57-59 | when no literal's text and no operator lexeme in the statement's expression contains a parenthesis (and, for a declaration, neither does the name token's text), the statement's text is a single parenthesised group |
| Ast.PPrintProgramWellBracketed | bin/ast.js:56-68 | a program of expression and print statements, in which no literal's text and no operator lexeme contains a parenthesis, prints as a single parenthesised group |
| Ast.JoinBalanced | bin/ast.js:56 | joining balanced texts with spaces gives a balanced text |
| Scanning.RunEnd | bin/scanner.js:66-110 | a scanning loop stops at the first character outside the run, or at the end of the source |
| Scanning.RunEndExact | bin/scanner.js:66-110 | any position that ends the run is the one `RunEnd` finds |
| Scanning.DigitsValueOfNatText | bin/scanner.js:101 | reading back the decimal text of a natural gives that natural |
| Scanning.NatTextOfDigitsValue | bin/scanner.js:101 | a digit string without a leading zero is the decimal text of the value it denotes |
| Scanning.ScanStep | bin/scanner.js:113-157 | one `scanToken` step consumes at least one character and stays within the source |
| Scanning.ScanStepConsumes | bin/scanner.js:113-157 | after every step, the line has advanced by the line breaks consumed; a token's lexeme is exactly the consumed text; the token is on the line reached and is never EOF |
| Scanning.ScanFromEndsWithEof | bin/scanner.js:159-166 | a completed scan ends with exactly one EOF token, with an empty lexeme and on the final line |
| Scanning.EofLine | bin/scanner.js:159-166 | from `new Scanner(src)`, the EOF token's line is one plus the number of line breaks in the source |
| Scanning.ScanFromLinesOrdered | bin/scanner.js:113-166 | token lines never decrease and never fall below the starting line |
| Scanning.StepThrowsOnlyAtFraction | bin/scanner.js:95-102 | under the corrected step, a step throws only on a digit run followed by `.`, where the source calls `peekNext` |
| Scanning.ScanWithoutDotCompletes | bin/scanner.js:159-166 | under the corrected step, a source without `.` scans to completion |
| Scanning.OperatorTokens | bin/scanner.js:126-129 | `!`, `=`, `<` and `>` become their two-character kinds exactly when followed by `=` |
| Scanning.CommentSkipped | bin/scanner.js:130-137 | `//` consumes up to the next line break or the end, emits nothing, and does not consume the line break |
| Scanning.BlanksSkipped | bin/scanner.js:138-145 | a space, carriage return or tab emits nothing; a line break emits nothing and advances the line by one |
| Scanning.WordToken | bin/scanner.js:104-110 | an identifier is the maximal run of letters, digits and `_`; it gets its keyword's kind if the keyword table lists it, and IDENTIFIER otherwise |
| Scanning.BreakIsIdentifier | bin/scanner.js:12-29 | `break` is missing from the keyword table, so it scans as an IDENTIFIER |
| Scanning.NumberToken | bin/scanner.js:95-102 | any run of digits, leading zeros included, that is followed by the end or by a character that is neither a digit nor `.` scans as one NUMBER token: the lexeme is the run and the value is the number the digits denote |
| Scanning.NumberTextToken | bin/scanner.js:95-102 | the decimal text of a natural, followed as above, scans as a NUMBER token whose value is that natural |
| Scanning.FractionThrows | bin/scanner.js:97 | digits followed by `.` throw, because `peekNext` is called without `this` |
| Scanning.StringToken | bin/scanner.js:66-78 | a terminated string yields one STRING token; the lexeme includes the quotes, the literal is the text between them, and line breaks inside it advance the line |
| Scanning.UnterminatedString | bin/scanner.js:66-74 | an unterminated string reports "Unterminated string.", consumes the rest of the input and emits no token |
| Scanning.UnexpectedCharacter | bin/scanner.js:148-155 | an unexpected character is reported on the current line and skipped; the step as written throws |
| Scanning.AtSignThrowsAsWritten | bin/scanner.js:153 | `@` makes the step as written throw |
| Scanning.OperatorStep | bin/scanner.js:126-129 | the `!`, `=`, `<` and `>` branch always completes, consuming one or two characters within the source; `Scanning.OperatorTokens` gives its kinds |
| Scanning.SlashStep | bin/scanner.js:130-137 | the `/` branch always completes, consuming at least the `/` and staying within the source; `Scanning.CommentSkipped` gives the comment case |
| Scanning.NumberStep | bin/scanner.js:95-102 | when `number` does not throw, it consumes at least the first digit and stays within the source; `Scanning.NumberToken` and `Scanning.FractionThrows` give its two outcomes |
| Scanning.WordStep | bin/scanner.js:104-110 | `identifier` always completes, consuming at least the first character and staying within the source; `Scanning.WordToken` gives its token |
| Scanning.PrependTwice | bin/scanner.js:159-166 | gathering two runs of tokens in turn is gathering their concatenation |
| Scanning.Scanner.Advance | bin/scanner.js:35-38 | moves `current` forward by one and returns the character it passed |
| Scanning.Scanner.AddToken | bin/scanner.js:40-43 | appends a token whose lexeme is `source[start..current]`, on the current line |
| Scanning.Scanner.Report | bin/scanner.js:72 | `report(this.line, message)`, recorded: exactly one error on the current line is appended, and nothing else changes |
| Scanning.Scanner.Match | bin/scanner.js:45-50 | advances by one exactly when the next character is the expected one |
| Scanning.Scanner.SkipStringBody | bin/scanner.js:67-70 | stops at the closing quote or the end, counting the line breaks passed |
| Scanning.Scanner.ScanString | bin/scanner.js:66-78 | performs the string step: token, error, line and position as `StringStep` says |
| Scanning.Scanner.ScanNumber | bin/scanner.js:95-102 | succeeds exactly when the number step does, and then performs it |
| Scanning.Scanner.ScanIdentifier | bin/scanner.js:104-110 | performs the word step |
| Scanning.Scanner.ScanOperator | bin/scanner.js:126-129 | performs the one-or-two-character operator step |
| Scanning.Scanner.ScanSlash | bin/scanner.js:130-137 | performs the slash-or-comment step |
| Scanning.Scanner.SkipComment | bin/scanner.js:133 | stops at the next line break or the end |
| Scanning.Scanner.ScanToken | bin/scanner.js:113-157 | succeeds exactly when `ScanStep` does, and then leaves the state that step describes |
| Scanning.Scanner.ScanTokens | bin/scanner.js:159-166 | returns, and leaves in `tokens`, the scan `ScanFrom` describes, EOF token included |
| Environments.Nearest | bin/environment.js:41-54 | the index of the first frame in the chain that binds the name, or none when no frame does |
| Environments.NearestIsFirstBinder | bin/environment.js:41-54 | conversely, the first frame that binds the name is the one `Nearest` finds |
| Environments.AssignKeepsShape | bin/environment.js:18-27 | `assign` never creates a binding, and it leaves every frame but the nearest binder as it was |
| Environments.LookupAfterAssign | bin/environment.js:18-54 | after an assignment to a bound name, `lookup` returns the assigned value |
| Environments.LookupAfterDefine | bin/environment.js:13-54 | after `define`, `lookup` finds the name in this frame with the value given |
| Environments.AtNearestAgreesWithSearch | bin/environment.js:29-66 | at the distance of the nearest binder, `lookupAt` equals `lookup` and `assignAt` equals `assign` |
| Environments.AssignAtWritesUnconditionally | bin/environment.js:29-39 | `assignAt` writes the frame at that distance whether or not it had the name; `lookupAt` there reads the value back |
| Environments.NearestBelow | bin/environment.js:47-52 | a frame without the name passes the search on to its enclosing frame |
| Environments.Environment.Frames | bin/environment.js:8-11 | the frames reached through `enclosing` links, this one first, ending at the frame without one |
| Environments.Environment.constructor | bin/environment.js:8-11 | a new frame has no bindings and the given enclosing frame, or none |
| Environments.Environment.Define | bin/environment.js:13-16 | binds or overwrites in this frame only; the enclosing frames are unchanged |
| Environments.Environment.Lookup | bin/environment.js:41-54 | the value from the nearest binder, or the Undefined-variable error when no frame binds the name |
| Environments.Environment.Assign | bin/environment.js:18-27 | updates the nearest binder only; fails with the Undefined-variable error exactly when no frame binds the name |
| Environments.Environment.LookupAt | bin/environment.js:56-66 | follows exactly `distance` links and reads that frame's binding of the name, `None` when the frame has none |
| Environments.Environment.AssignAt | bin/environment.js:29-39 | follows exactly `distance` links and writes there; fails exactly when the chain is shorter than the distance |
| Parsing.Parser.constructor | bin/parser.js:25-28 | the cursor starts at the first token |
| Parsing.Parser.Check | bin/parser.js:89-92 | true exactly when the current token has the kind and is not EOF |
| Parsing.Parser.Advance | bin/parser.js:30-45 | moves the cursor by one unless it is at EOF, so it never passes the EOF token |
| Parsing.Parser.Match | bin/parser.js:94-102 | advances exactly once when the current token's kind is among those given, and otherwise leaves the cursor |
| Parsing.Parser.Consume | bin/parser.js:47-59 | advances past a token of the expected kind, or fails with that token and the message |
| Parsing.Parser.Expression | bin/parser.js:132-134 | agrees with `ExprAt`: same tree or error, and the cursor ends where the parse stops |
| Parsing.Parser.Equality | bin/parser.js:136-145 | agrees with the level-4 parse |
| Parsing.Parser.Comparison | bin/parser.js:147-156 | agrees with the level-3 parse |
| Parsing.Parser.Addition | bin/parser.js:158-167 | agrees with the level-2 parse |
| Parsing.Parser.Multiplication | bin/parser.js:169-178 | agrees with the level-1 parse |
| Parsing.Parser.Unary | bin/parser.js:182-190 | agrees with `UnaryAt` |
| Parsing.Parser.Primary | bin/parser.js:192-203 | agrees with `PrimaryAt` |
| Parsing.Parser.PrintStatement | bin/parser.js:120-124 | an expression and then `;`, or the error "Expect ';' after print statement" |
| Parsing.Parser.ExpressionStatement | bin/parser.js:126-130 | an expression and then `;`, or the error "Expect ';' after expression" |
| Parsing.Parser.Statement | bin/parser.js:112-118 | agrees with `StatementAt` |
| Parsing.Parser.Program | bin/parser.js:104-110 | the statements up to EOF, or the first error thrown |
| Parsing.ExprAt | bin/parser.js:132-134 | a successful parse consumes at least one token and stops before the end |
| Parsing.LevelAt | bin/parser.js:136-178 | a successful parse at any of the four binary levels, or at the unary level beneath them, consumes at least one token and stops before the EOF token; `ParserProperties.LevelRoundTrip` gives its tree |
| Parsing.BinaryRestAt | bin/parser.js:139-143 | the `while (match(...))` loop of a binary level never moves the cursor back and stops before the EOF token; `ParserProperties.RestRoundTrip` gives its fold |
| Parsing.StatementsAt | bin/parser.js:104-110 | a successful parse stops at the EOF token |
| Parsing.Terminated | bin/parser.js:120-130 | a terminated statement consumes exactly its `;` |
| ParserProperties.CheckOpsIsLevel | bin/parser.js:136-178 | the operators each binary level matches are exactly the kinds of that precedence level |
| ParserProperties.FirstToken | bin/parser.js:182-203 | every expression begins with a token that can start one |
| ParserProperties.LevelRoundTrip | bin/parser.js:136-178 | parsing the tokens of a tree at a level at least as loose as its own gives the tree back |
| ParserProperties.ChainRoundTrip | bin/parser.js:136-178 | a chain of one level's operators is rebuilt left-associatively: `a - b - c` is `(a - b) - c` |
| ParserProperties.RestRoundTrip | bin/parser.js:139-144 | the `while` loop of a level folds the operands to the left |
| ParserProperties.UnaryRoundTrip | bin/parser.js:182-203 | a unary-level tree is parsed back |
| ParserProperties.NegationRoundTrip | bin/parser.js:182-190 | unary is right-recursive: `!!x` is `!(!x)` |
| ParserProperties.GroupRoundTrip | bin/parser.js:197-201 | a parenthesised expression becomes a `Grouping` of it |
| ParserProperties.PrimaryLiteral | bin/parser.js:193-196 | `false`, `true` and `nil` become those literals; NUMBER and STRING become their token's literal |
| ParserProperties.ExpressionRoundTrip | bin/parser.js:132-203 | any well-formed tree is parsed back from its own tokens |
| ParserProperties.StatementRoundTrip | bin/parser.js:112-130 | a print or expression statement is parsed back from its tokens |
| ParserProperties.StatementsRoundTrip | bin/parser.js:104-110 | a sequence of statements is parsed back, ending at EOF |
| ParserProperties.ProgramRoundTrip | bin/parser.js:104-110 | parsing the tokens of a program gives the program |
| ParserProperties.ErrorEscapes | bin/parser.js:136-190 | an error in an operand is the error of the whole level |
| ParserProperties.ExpectExpression | bin/parser.js:202 | a token that cannot start an expression raises "Expect expression." at that token |
| ParserProperties.MissingRightParen | bin/parser.js:197-200 | `(` without its `)` raises "Expect ')' after expression." at the token found instead |
| ParserProperties.MissingSemicolon | bin/parser.js:126-130 | an expression statement without `;` raises its error at the token found instead |
| ParserProperties.MissingPrintSemicolon | bin/parser.js:120-124 | a print statement without `;` raises its error at the token found instead |
| ResolverSemantics.Distance | bin/resolver.js:75-83 | the distance is below the stack height; the scope it names binds the name and no inner scope does; with no distance, no scope binds the name |
| ResolverSemantics.DistanceIsInnermost | bin/resolver.js:75-83 | the innermost binding scope gives the distance |
| ResolverSemantics.ResolveExpr | bin/resolver.js:211-262 | resolving an expression adds distances and errors only, and leaves the scopes and the context as they were |
| ResolverSemantics.ResolveStmt | bin/resolver.js:100-209 | a statement leaves the stack height, every outer scope and the context as they were; the innermost scope only gains names |
| ResolverSemantics.VisitBlock | bin/resolver.js:100-104 | a block leaves the scope stack exactly as it was |
| ResolverSemantics.ResolveFunction | bin/resolver.js:85-98 | a function leaves the scope stack and `inFunction` as they were |
| ResolverSemantics.VisitWhile | bin/resolver.js:197-203 | a loop restores `loopLevel` |
| ResolverSemantics.VisitMethod | bin/resolver.js:156-162 | a method restores `inInitializer` and leaves the scope stack as it was |
| ResolverSemantics.VisitClass | bin/resolver.js:134-169 | a class restores `inClass` and `hasSuperClass`; its scopes are popped again |
| ResolverSemantics.ClassBody | bin/resolver.js:144-166 | the `super` and `this` scopes are popped again; `hasSuperClass` is set exactly when there is a superclass |
| ResolverSemantics.SuperScope | bin/resolver.js:148-153 | resolving the superclass and opening the `super` scope adds exactly one scope on top of the others, keeps the context, and only adds errors and distances |
| ResolverSemantics.ResolveProgram | bin/resolver.js:264-268 | a program resolved with no scope of its own leaves the stack height, the outer scopes and the context as they were, and only adds errors, distances and innermost names |
| ResolverSemantics.DeclareParams | bin/resolver.js:89-92 | the parameters only add names to the innermost scope |
| Resolving.Stack.constructor | bin/resolver.js:15-16 | a new stack is empty |
| Resolving.Stack.Push | bin/resolver.js:17-19 | pushes onto the top |
| Resolving.Stack.Pop | bin/resolver.js:20-26 | returns the last element pushed and removes it; fails on an empty stack |
| Resolving.Stack.Peek | bin/resolver.js:27-33 | the last element pushed; fails exactly when the stack is empty |
| Resolving.Resolver.constructor | bin/resolver.js:39-46 | no scope, every flag off, loop level 0 |
| Resolving.Resolver.Error | bin/resolver.js:3-6 | `error(token, message)`, recorded: the state is the old one with exactly one error at that token appended |
| Resolving.Resolver.BeginScope | bin/resolver.js:48-50 | pushes an empty scope |
| Resolving.Resolver.EndScope | bin/resolver.js:52-54 | pops the innermost scope |
| Resolving.Resolver.Declare | bin/resolver.js:56-65 | marks the name not ready in the innermost scope and reports one already there; nothing at the global level |
| Resolving.Resolver.Define | bin/resolver.js:67-73 | marks the name ready in the innermost scope; nothing at the global level |
| Resolving.Resolver.ResolveLocal | bin/resolver.js:75-83 | searching from the innermost scope outwards, records the distance of the first scope that binds the name; records nothing for a global |
| Resolving.Resolver.Resolve | bin/resolver.js:270-272 | every expression visitor follows `ResolveExpr` |
| Resolving.Resolver.VisitVariable | bin/resolver.js:115-120 | follows `ResolveExpr` for a variable, including the own-initializer report |
| Resolving.Resolver.VisitAssignment | bin/resolver.js:122-125 | resolves the value, then the target |
| Resolving.Resolver.VisitCall | bin/resolver.js:216-219 | resolves the callee, then the arguments in order |
| Resolving.Resolver.VisitThisExpression | bin/resolver.js:230-236 | follows `ResolveExpr` for `this` |
| Resolving.Resolver.VisitSuperExpression | bin/resolver.js:238-246 | follows `ResolveExpr` for `super` |
| Resolving.Resolver.ResolveStatement | bin/resolver.js:270-272 | every statement visitor follows `ResolveStmt` |
| Resolving.Resolver.ResolveStatements | bin/resolver.js:100-104 | statements are resolved in order |
| Resolving.Resolver.ResolveFunction | bin/resolver.js:85-98 | follows `ResolveFunction`: parameters and body in a scope of their own, `inFunction` restored |
| Resolving.Resolver.DeclareParams | bin/resolver.js:89-92 | each parameter declared and defined in turn |
| Resolving.Resolver.VisitBlockStatement | bin/resolver.js:100-104 | follows `VisitBlock` |
| Resolving.Resolver.VisitVarDeclaration | bin/resolver.js:106-113 | declared, then the initializer resolved, then defined |
| Resolving.Resolver.VisitFunDeclaration | bin/resolver.js:127-132 | the name declared and defined before the body is resolved |
| Resolving.Resolver.VisitClassDeclaration | bin/resolver.js:134-169 | follows `VisitClass`, both flags restored |
| Resolving.Resolver.DeclareClass | bin/resolver.js:137-146 | the class name declared and defined, then the self-inheritance report |
| Resolving.Resolver.ClassScopes | bin/resolver.js:147-166 | the `super` scope when there is a superclass, the `this` scope, the methods, both popped |
| Resolving.Resolver.ResolveMethods | bin/resolver.js:156-162 | each method resolved as a function, an initializer when named `init` |
| Resolving.Resolver.VisitIfStatement | bin/resolver.js:175-179 | condition, then branch, then the else branch if there is one |
| Resolving.Resolver.VisitReturnStatement | bin/resolver.js:185-195 | follows `VisitReturn` |
| Resolving.Resolver.VisitWhileStatement | bin/resolver.js:197-203 | follows `VisitWhile` |
| Resolving.Resolver.VisitBreakStatement | bin/resolver.js:205-209 | follows `VisitBreak` |
| Resolving.Resolver.VisitProgram | bin/resolver.js:264-268 | the declarations in order, with no scope of their own |
| ResolverProperties.ExprReportsOnlyExprErrors | bin/resolver.js:211-262 | an expression reports only the own-initializer, `this` and `super` errors |
| ResolverProperties.ReturnAtTopLevelReported | bin/resolver.js:185-188 | `return` reports "Cannot return from top-level code." exactly when outside a function |
| ResolverProperties.ReturnFromInitializerReported | bin/resolver.js:189-193 | `return` reports the initializer error exactly when it has a value and is inside an initializer |
| ResolverProperties.BreakReported | bin/resolver.js:205-209 | `break` is reported exactly at loop level 0 |
| ResolverProperties.BreakInWhileNotReported | bin/resolver.js:197-209 | a `break` directly in a loop body is not reported, and the loop level is restored |
| ResolverProperties.ThisReported | bin/resolver.js:230-236 | `this` is reported exactly outside a class |
| ResolverProperties.SuperReported | bin/resolver.js:238-246 | `super` is reported outside a class, and with no superclass; otherwise it is not |
| ResolverProperties.SelfInheritanceReported | bin/resolver.js:144-146 | "A class cannot inherit from itself." exactly when the superclass has the class's name |
| ResolverProperties.SelfInheritanceInClass | bin/resolver.js:134-169 | `class C < C` reports that error |
| ResolverProperties.DeclareParamsBinds | bin/resolver.js:89-92 | after the parameters, a name is in the innermost scope exactly when it was there or is a parameter |
| ResolverProperties.ClassOfOneMethod | bin/resolver.js:134-169 | a class of one method ends with that method body's distances and errors |
| ResolverProperties.MethodScopeOfClass | bin/resolver.js:147-166 | a method body is resolved with its parameters innermost, then the `this` scope, then the `super` scope when there is a superclass |
| ResolverProperties.ThisInMethodBody | bin/resolver.js:230-236 | when `this;` is the whole body of a class's only method, and no parameter is named `this`, that `this` is resolved at distance 1: past the parameter scope to the scope binding `this` (a `this` inside a nested block is one scope further out) |
| ResolverProperties.SuperInMethodBody | bin/resolver.js:238-246 | when `super.m;` is the whole body of the only method of a class with a superclass, and no parameter is named `super`, that `super` is resolved at distance 2: past the parameter scope and the `this` scope |
| ResolverProperties.SuperWithoutSuperclassInMethod | bin/resolver.js:238-246 | when `super.m;` is the whole body of the only method of a class without a superclass, "Cannot use 'super' in a class with no superclass." is reported; any such `super` is covered by `ResolverProperties.SuperReported` |
| ResolverProperties.OwnInitializerReported | bin/resolver.js:106-120 | in a scope, `var a = b;` reports "Cannot read local variable in its own initializer." exactly when `b` is `a` |
| ResolverProperties.OwnInitializerAtGlobalLevel | bin/resolver.js:106-120 | at the global level `var a = a;` changes nothing and reports nothing |
| ResolverProperties.RedeclarationReported | bin/resolver.js:56-65 | in a scope, a declaration is reported as a duplicate exactly when the scope already has the name |
| ResolverProperties.RedeclarationInBlock | bin/resolver.js:56-65 | the block `{ var a; var a; }`, two declarations of one name without initializers, reports the duplicate; the general condition is `ResolverProperties.RedeclarationReported` |
| ResolverProperties.RedeclarationAtGlobalLevel | bin/resolver.js:56-73 | at the global level the same name may be declared twice, and nothing changes |

`Parser.previous`, `peek` and `atEnd` (bin/parser.js:30-40) are the functions
`Parsing.Parser.Previous`, `Peek` and `AtEnd`. `Scanner.atEnd`, `peek` and the
character classes (bin/scanner.js:31-33, 53-56, 82-93) are `Scanning.Scanner.AtEnd`,
`Scanning.Scanner.Peek`, `Scanning.IsDigit`, `Scanning.IsAlpha` and
`Scanning.IsAlphaNumeric`. The rows above use them.

Several definitions state no property of their own; the rows above and the lemmas
about them use them:

- `Scanning.ScanStepAsWritten` is `scanToken` of bin/scanner.js:113-157 exactly as
  written, throwing on an unexpected character. It is the as-written half of the
  finding below.
- `Scanning.Classify` is the `switch` of bin/scanner.js:115-156, including the
  `isDigit`/`isAlpha` tests of its default case.
- `Parsing.CheckAt` is `check` (bin/parser.js:89-92) at a position.
- `ResolverSemantics.Initial` is the state `new Resolver` sets up (bin/resolver.js:39-46).
- `ResolverSemantics.Report` is one call of `error` (bin/resolver.js:3-6).
- `Tokens.Tag` and `Tokens.FromTag` are the `TokenType` table of bin/token.js:1-47 and
  its inverse.
- `Tokens.Text` is JavaScript's string conversion of a literal value, as the template
  strings at bin/token.js:58 and bin/ast.js:60 use it.
- `Tokens.Truthy` is the `l.val ? l.val : 'nil'` test of bin/ast.js:60.

## Where the model follows the code rather than the language design

- Duplicate declarations and self-referential initializers are rejected only inside
  a block, function or class. At the global level the scope stack is empty, so
  `declare`, `define` and the own-initializer check do nothing. `var a = a;` and a
  second `var a;` are accepted there (`ResolverProperties.OwnInitializerAtGlobalLevel`,
  `ResolverProperties.RedeclarationAtGlobalLevel`).
- `break` is a token kind, but the keyword table has no entry for it. It scans as an
  identifier (`Scanning.BreakIsIdentifier`).
- A program containing a variable declaration cannot be printed, because
  `visitProgram` reads `.expr`, which a declaration does not have. `Ast.PPrintProgram`
  is `None` there.

## Left out

- Scanning.ScanStep: an unexpected character is reported and skipped, as the
  language design says. As written, the source throws there (see Findings).
- The decimal-fraction path of `number` is modelled as a thrown error (`Threw`).
  `peekNext` is called without `this` and calls `length()` on a string. Number values
  are naturals; floating point is not modelled.
- Scanning.NumberToken: the value is the exact number the digits denote. `parseFloat`
  agrees with it only up to 2^53; above that it rounds to the nearest double.
- Tokens.NatText: the text of a number is its full decimal expansion. JavaScript's
  string conversion agrees with it only below 10^21 (and for exactly representable
  values); from 10^21 on it prints exponent notation, such as `1e+21`. `Tokens.ToString`,
  `Ast.LiteralText` and `Ast.PPrint` inherit this difference.
- The keyword table is the finite map of its listed entries. Lookups through the
  JavaScript object prototype, such as `toString`, are not modelled.
- Scopes and environment frames are Dafny maps, while the source uses plain JavaScript
  objects. Names that are properties of `Object.prototype` (`__proto__`,
  `hasOwnProperty`, `toString`, `constructor`, …) behave differently in the source and
  are not modelled. The following lines each name a member affected by this.
- Environments.Environment.Lookup: the search is over the frames' own bindings. Once a
  frame binds `hasOwnProperty`, the source's `hasOwnProperty` call there fails with a
  TypeError; a frame binding `__proto__` changes that frame's prototype instead.
- Environments.Environment.LookupAt: a frame without the name yields `None`. The
  source's `values[name]` returns an inherited property there, such as
  `Object.prototype.toString` for `toString`.
- Environments.Environment.Define: binding `__proto__` stores the value; in the source
  the assignment changes or ignores the frame's prototype instead.
- Environments.Environment.Assign: the nearest binder is found by the frames' own
  bindings, with the same `hasOwnProperty` and `__proto__` difference as `Lookup`.
- Resolving.Resolver.Declare: declaring `__proto__` records it in the scope, where the
  source's assignment is ignored. After `hasOwnProperty` is declared in a scope, the
  source's next declaration there throws a TypeError; the model goes on.
- Resolving.Resolver.ResolveLocal: a scope that declared `__proto__` binds it, so the
  read is local, where the source finds no binding and leaves it global. A scope that
  declared `hasOwnProperty` makes the source's search throw; the model goes on.
- ResolverSemantics.Declare, ResolverSemantics.Define and ResolverSemantics.Distance:
  the functions the resolver's methods follow, with the same map semantics as those
  methods.
- Environments.Nearest, Environments.LookupIn, Environments.AssignIn and
  Environments.LookupAtIn: the functions the environment's methods follow, with the
  same map semantics as those methods.
- Strings are sequences of characters. UTF-16 code units are not distinguished.
- `report` in bin/errors.js, which writes to the console and sets a global flag, is not
  modelled. Scanner and resolver errors become lists in the state instead.
- `Parser.error` logs and then returns the error. The logging is left out, and the
  error is modelled as a failure result.
- `synchronize` (bin/parser.js:70-87) is left out. It refers to undefined identifiers
  and is never called.
- The try/catch and console output of `parse` (bin/parser.js:205-212) are left out.
  `Parsing.ParseTokens` returns the error instead.
- `advance` returns nothing useful when it moves (bin/parser.js:42-45).
  `Parsing.Parser.Advance` returns nothing, and callers read `Previous`.
- `Environment.show` and `show1` (bin/environment.js:68-88) are console debugging
  output and are left out.
- `lookup` takes the name as a string, which covers its `typeof token === 'string'`
  case. Environment errors carry only their message; the token's line, which `error`
  passes to `report`, is left out.
- `lookupAt` on a frame that has neither an own nor an inherited property of that name
  returns JavaScript `undefined`, modelled as `None`. A distance beyond the chain makes
  JavaScript throw a TypeError, modelled as a failure.
- Resolving.Resolver.EndScope requires a non-empty scope stack. Every call follows its
  `beginScope`, so the stack's throw on an empty pop cannot happen from the resolver.
- Each scope dictionary is held as a map value on the stack, not as a separate object.
  The model therefore does not capture aliasing of scope objects. Nothing else refers
  to them, so this changes nothing the resolver can observe.
- Node identity, which the interpreter uses as the key of `resolve(node, depth)`, is
  an `id` field on variable, assignment, `this` and `super` nodes. The interpreter is
  a `locals` map from ids to distances.
- bin/interpreter.js, bin/main.js, bin/poop.js and bin/errors.js are not part of this
  model. They cover evaluation under JavaScript's coercions and floating point, I/O,
  and console reporting.
- The tree the parser builds (module `Ast`) covers only the nodes the parser makes.
  The resolver's fuller node set is module `ResolverSyntax`. The repository has no
  parser for it, so the two are not connected.

## Findings

| source | as written | input that shows it | evidently intended | confidence | as-written member | corrected member |
|---|---|---|---|---|---|---|
| bin/scanner.js:153 | the unexpected-character branch passes `line`, an undefined variable, to `report`, so it throws a ReferenceError | the source text `@` | report the character on `this.line`, skip it and continue scanning | high; not executed | Scanning.ScanStepAsWritten, Scanning.AtSignThrowsAsWritten | Scanning.UnexpectedCharacter |
