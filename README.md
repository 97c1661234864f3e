# Compilador-survivor in Dafny

A model of the four stages of Compilador-survivor, an interpreter for a small
scripting language with Spanish keywords:

- `caramelo` declares a variable.
- `alfajor` / `chocolate` is if / else.
- `gomita` is while and `batido` is for.
- `torta` declares a function.
- `mostrame` prints and `devolveme` returns.

The stages are:

- **Lexer** (module `Lexing`, lexer.dfy). The function `Scan` specifies the
  scanning loop on the text not yet scanned. The class `Lexer` keeps the
  source's fields `input`, `tokens` and `current`. Its `Tokenize` loop is
  proved to compute what `Scan` says. Lemmas cover:
  - the shape of every token;
  - whitespace;
  - scanning at a token boundary;
  - a render/scan round trip.
- **Parser** (parser.dfy, parserfacts.dfy, unparse.dfy, roundtrip.dfy,
  stmtroundtrip.dfy). The
  recursive-descent productions are mutually recursive functions over the
  token list and the index of the next token. The class `Parser` keeps
  `tokens` and `current`, and its `Parse` loop is proved to compute
  `ParseProgram`. Lemmas cover:
  - which statement the first tokens select;
  - what a primary is;
  - the shapes of `caramelo`, `alfajor` and `batido`;
  - left associativity;
  - a round trip for every tree laid out as tokens: expressions, parameter
    and argument lists, every kind of statement, blocks and whole programs.
    `Unparsing` says where the tokens of a tree lie (`StmtAt`, with one
    predicate per compound statement: `FunctionDeclAt`, `IfAt`, `WhileAt`,
    `ForAt`; `BlockAt`; `BracedAt`). The round-trip lemmas show that the
    productions build exactly that tree from them and stop right after its
    last token. `StmtTokens` and `BlockTokens` write a tree out as tokens;
    `StmtTokensAt` and `BlockTokensAt` show that what they write has that
    layout, so `ProgramTokensRoundTrip` reads every written program back.
- **Semantic analyzer** (analyzer.dfy). `CheckStmt` and `CheckBlock` specify
  one walk over the statements with one shared symbol table. The class
  `SemanticAnalyzer` and its visitors are proved against them. Lemmas cover:
  - the table only grows;
  - the exact declaration and use rules;
  - the parts the walk never looks at;
  - redeclaration and use before declaration.
- **Interpreter** (semantics.dfy, interpreter.dfy, behaviour.dfy,
  programs.dfy).
  - `Semantics` gives the execution rules as functions over a state of four
    parts: scope, output, return value and return flag.
  - The class `Interpreter` has the source's four fields, and each visitor is
    proved to compute what `Semantics` says.
  - `Behaviour` proves what the rules imply for every program. Putting the
    scope back after a block is part of the definition of `ExecBlock`
    (interpreter.js:156-166); `BlockRestoresScope` states it for every block.
    The rest follows from the rules:
    - output only grows;
    - the return flag is sticky;
    - a `gomita` runs zero times or forever;
    - a `batido` keeps its variable.
  - `Programs` works through concrete programs. The counting `gomita` loop
    never ends. The counting `batido` loop prints 0, 1, 2.
- **Pipeline** (pipeline.dfy): lex, parse, analyze, interpret, stopping at the
  first stage that fails.

Loops and calls take a `fuel` parameter: every loop pass and every call
spends one unit, and running out is the error `OutOfFuel`.

Declarations made inside a block do not outlive it: interpreter.js:156-166
puts the previous scope back when the block ends, and assignments made
inside the block to names of the enclosing scope are lost with it.
`Programs.CounterDiverges` and `Pipeline.AnalyzerIgnoresBlocks` show the
consequences.

## Model

| member | source | states |
|---|---|---|
| Lexing.Lexer.constructor | lexer.js:2-7 | the lexer starts on its input with no tokens at index 0 |
| Lexing.Lexer.Tokenize | lexer.js:11-118 | succeeds exactly when `Scan` of the unscanned text succeeds; on success the tokens are the old ones followed by the scanned ones, in input order, and the index reaches the end; on failure the error is the scan's error |
| Lexing.ScanAt | lexer.js:12-116 | the pass taken at an index is exactly the one `NextStep` prescribes for the text from there (whitespace skips one character, otherwise the token or error of the first rule that applies, with its exact length); `Scan` proceeds by it, and the index advances by at least one |
| Lexing.ReadWord | lexer.js:22-34 | the step is exactly `NextStep`'s: the maximal letter/digit/underscore run becomes a KEYWORD when it is listed and an IDENTIFIER otherwise, consuming the whole run; a run that reaches the end of input is `WordAtEndOfInput`; `Scan` proceeds by it |
| Lexing.ReadNumber | lexer.js:37-45 | the step is exactly `NextStep`'s: the maximal digit run becomes one NUMBER token holding the raw digits and consumes the whole run; `Scan` proceeds by it |
| Lexing.ReadString | lexer.js:48-58 | the step is exactly `NextStep`'s: the STRING value is the text between the quote and the next quote, and both quotes are consumed; no closing quote is `UnterminatedString`; `Scan` proceeds by it |
| Lexing.ReadSymbol | lexer.js:61-116 | the step is exactly `NextStep`'s: `==` is checked first and gives one OPERATOR of two characters; a lone `=` gives EQUALS; `; ( ) { } ,` give their own kinds; `+ - * / < >` give OPERATOR; anything else is `UnknownCharacter`; `Scan` proceeds by it |
| Lexing.ReadWhile | lexer.js:24-27 | the inner loops collect exactly the longest prefix from `from` whose characters pass the test |
| Lexing.Lex | lexer.js:1-118 | constructing a lexer and tokenizing yields exactly `Scan` of the text |
| Lexing.Scan | lexer.js:11-118 | the tokens of the whole text: the loop run to the end of the input, stopping at the first error; a successful scan has no more tokens than the text has characters, since every token consumes at least one |
| Lexing.NextStep | lexer.js:12-116 | one pass of the loop at the first character, the rules tried in the source's order; whitespace skips exactly one character, and a token consumes at least one character and no more than remain |
| Lexing.ScanWellFormed | lexer.js:6 | every token of a successful scan is well formed: KEYWORD iff a listed word, IDENTIFIER otherwise, NUMBER digits only, STRING without quotes, one of the seven operators, punctuation carrying its own character |
| Lexing.LeadingWhitespaceIgnored | lexer.js:16-19 | whitespace produces no token: a run of it before the text does not change the scan |
| Lexing.ScanConcat | lexer.js:12-117 | at a whitespace boundary the tokens of `u + v` are those of `u` followed by those of `v` |
| Lexing.ScanOneToken | lexer.js:22-113 | a well-formed token followed by a space scans to exactly that token |
| Lexing.ScanRender | lexer.js:12-117 | rendering well-formed tokens separated by spaces and scanning the text gives the same tokens back |
| Lexing.WordStep | lexer.js:22-34 | a word run followed by more input is emitted whole, and the scan continues after it |
| Lexing.WordAtEnd | lexer.js:24-27 | a word run that reaches the end of input is an error |
| Lexing.DigitStep | lexer.js:37-45 | a digit run is emitted as NUMBER and the scan continues after it |
| Lexing.StringStep | lexer.js:48-58 | a closed string is emitted without its quotes and the scan continues after the closing quote |
| Lexing.StringAtEnd | lexer.js:51-54 | a string without a closing quote is an error |
| Lexing.WhitespaceStep | lexer.js:16-19 | a whitespace character is skipped and emits nothing |
| Lexing.EqualsEqualsStep | lexer.js:61-65 | `==` is one OPERATOR token consuming two characters |
| Lexing.SingleCharStep | lexer.js:67-113 | `=`, punctuation and one-character operators each give one token of one character |
| Lexing.UnknownStep | lexer.js:116 | any other character fails the whole scan with that character |
| Parsing.PeekKind | parser.js:244-246 | the kind of the current token, and an error exactly when the tokens are exhausted |
| Parsing.Consume | parser.js:231-241 | succeeds exactly when the current token has the kind and, if a value is given, that value; it then returns that token and advances by one |
| Parsing.ParseStatement | parser.js:17-46 | a successful statement consumes at least one token |
| Parsing.ParseStatements | parser.js:81-83 | a block's statements stop at a `}` that is left in place; what they build is stated by `StatementRoundTrip.StatementsRoundTrip` |
| Parsing.ParseBlock | parser.js:79-84 | a block consumes its braces; what it builds is stated by `StatementRoundTrip.BlockRoundTrip` |
| Parsing.ParseMostrame | parser.js:49-56 | `mostrame ( e ) ;` consumes at least one token |
| Parsing.ParseVarDecl | parser.js:59-71 | a declaration consumes at least one token and builds a VarDecl |
| Parsing.ParseIfStatement | parser.js:74-95 | an `alfajor` consumes at least one token; what it builds is stated by `StatementRoundTrip.IfRoundTrip` and `ParserFacts.ElseBranch` |
| Parsing.ParseElse | parser.js:86-93 | the `else` part never moves backwards |
| Parsing.ParseWhileStatement | parser.js:98-110 | a `gomita` consumes at least one token; what it builds is stated by `StatementRoundTrip.WhileRoundTrip` |
| Parsing.ParseForStatement | parser.js:113-128 | a `batido` consumes at least one token; what it builds is stated by `StatementRoundTrip.ForRoundTrip` and `ParserFacts.ForShape` |
| Parsing.ParseForRest | parser.js:117-127 | the header builds a ForStatement with the given initializer and an Assignment as the increment; the rest of what it builds is stated by `StatementRoundTrip.ForRestRoundTrip` |
| Parsing.ParseFunctionDecl | parser.js:131-151 | a `torta` consumes at least one token; what it builds is stated by `StatementRoundTrip.FunctionDeclRoundTrip` |
| Parsing.ParseAssignmentOrFunctionCall | parser.js:154-177 | an identifier statement consumes at least one token |
| Parsing.ParseAssignment | parser.js:180-186 | builds an Assignment whose last consumed token is its `;` |
| Parsing.ParseReturn | parser.js:189-194 | a `devolveme` consumes at least one token |
| Parsing.ParseParams | parser.js:137-141 | a parameter list consumes at least one token |
| Parsing.ParseMoreParams | parser.js:138-141 | the `, name` repetitions of a parameter list never move backwards and stay within the tokens |
| Parsing.ParseArgs | parser.js:165-169 | an argument list consumes at least one token |
| Parsing.ParseMoreArgs | parser.js:166-169 | the `, expression` repetitions of an argument list never move backwards and stay within the tokens |
| Parsing.ParseExpression | parser.js:197-199 | an expression consumes at least one token |
| Parsing.ParseBinaryExpression | parser.js:202-210 | a chain consumes at least one token |
| Parsing.ParseOperators | parser.js:204-208 | the operator loop never moves backwards |
| Parsing.ParsePrimaryExpression | parser.js:213-228 | a primary consumes at least one token |
| Parsing.ParseProgram | parser.js:8-14 | statements read one after another until the tokens run out; the program is empty exactly when no tokens remain |
| Parsing.DigitsToNat | parser.js:216 | the definition of `Number` on a digit run, most significant digit first; `Unparsing.DigitsRoundTrip` proves it reads back the digits written from any `n` |
| Parsing.ProgramStep | parser.js:8-14 | the `parse` loop's accumulated statements plus the rest of the program stay equal to the whole program |
| Parsing.Parser.constructor | parser.js:1-5 | the parser starts on its tokens at index 0 |
| Parsing.Parser.Parse | parser.js:8-14 | the loop yields exactly `ParseProgram`, and on success has read every token |
| ParserFacts.StatementStart | parser.js:17-46 | a statement starts with a keyword or identifier; any other token, and `chocolate` on its own, is an unknown statement |
| ParserFacts.IdentifierStatement | parser.js:154-177 | after an identifier, `=` gives an Assignment to it, `(` a FunctionCall of it, anything else an error |
| ParserFacts.PrimaryShapes | parser.js:213-228 | NUMBER gives a numeric literal, STRING a string literal, IDENTIFIER an identifier, `( e )` the inner node with no wrapper, anything else an error; so no call appears inside an expression |
| ParserFacts.DeclarationWithoutValue | parser.js:62-70 | `caramelo x ;` declares `x` with the literal null |
| ParserFacts.ElseBranch | parser.js:86-93 | `chocolate` introduces the else block, any other token leaves it empty, the end of input is an error |
| ParserFacts.ForShape | parser.js:113-127 | a `batido` holds a whole declaration as initializer and an assignment as increment |
| ParserFacts.ForHeaderEnd | parser.js:117-127 | the increment consumes its own `;`, so the header ends with `; )` |
| ParserFacts.ProgramLength | parser.js:8-14 | a program of `n` statements spans at least `n` tokens |
| Unparsing.DigitsRoundTrip | parser.js:216 | the value read from a NUMBER token written from `n` is `n` |
| Unparsing.ListTokensAt | parser.js:137-141 | a written parameter list lies where `NamesAt` says and has `NamesLen` tokens |
| Unparsing.ArgTokensAt | parser.js:165-169 | a written argument list lies where `ArgsAt` says and has `ArgsLen` tokens |
| Unparsing.StmtTokensAt | parser.js:17-46 | the written form of any statement lies where `StmtAt` says and has `StmtLen` tokens |
| Unparsing.BlockTokensAt | parser.js:81-83 | written statements one after another lie where `BlockAt` says |
| Unparsing.BracedTokensAt | parser.js:79-84 | a written braced block lies where `BracedAt` says and has two tokens more than its statements |
| RoundTrip.OperatorStep | parser.js:204-208 | one pass of the operator loop folds the next primary into the left operand |
| RoundTrip.AtomRoundTrip | parser.js:213-220 | a number, string or identifier token reads back as its primary |
| RoundTrip.ParenStep | parser.js:221-225 | a parenthesized chain reads as the chain itself |
| RoundTrip.ChainRoundTrip | parser.js:202-210 | the tokens of a left-nested expression are read back by the operator loop as that expression |
| RoundTrip.OperandRoundTrip | parser.js:213-228 | an operand, bracketed when it is itself binary, reads back as itself |
| RoundTrip.ExprRoundTrip | parser.js:197-210 | the tokens of an expression followed by a non-operator read back as exactly that expression |
| RoundTrip.LeftAssociative | parser.js:202-210 | `a op1 b op2 c` is `(a op1 b) op2 c` |
| RoundTrip.ParamsRoundTrip | parser.js:137-141 | a written parameter list reads back as itself |
| RoundTrip.ArgsRoundTrip | parser.js:165-169 | a written argument list reads back as itself |
| RoundTrip.MostrameRoundTrip | parser.js:49-56 | a written `mostrame` reads back as itself |
| RoundTrip.ReturnRoundTrip | parser.js:189-194 | a written `devolveme` reads back as itself |
| RoundTrip.VarDeclRoundTrip | parser.js:59-71 | a written declaration reads back as itself |
| RoundTrip.AssignmentRoundTrip | parser.js:154-186 | a written assignment reads back as itself |
| RoundTrip.CallRoundTrip | parser.js:154-177 | a written call statement reads back as itself |
| RoundTrip.StmtFirst | parser.js:17-46 | every written statement starts with a keyword or identifier |
| StatementRoundTrip.Dispatch | parser.js:17-46 | the token in front selects the production: `caramelo`, `alfajor`, `gomita`, `batido`, `torta`, `mostrame` and `devolveme` their own, an identifier the assignment-or-call production |
| StatementRoundTrip.StmtRoundTrip | parser.js:17-46 | wherever the tokens of any statement lie, `ParseStatement` builds exactly that statement and stops right after its last token |
| StatementRoundTrip.StatementsRoundTrip | parser.js:81-83 | statements laid out one after another and followed by `}` are read back in order, and the `}` is left in place |
| StatementRoundTrip.BlockRoundTrip | parser.js:79-84 | `{`, laid-out statements, `}` read back as those statements, both braces consumed |
| StatementRoundTrip.ProgramRoundTrip | parser.js:8-14 | a token list that is exactly a run of laid-out statements parses to those statements |
| StatementRoundTrip.ProgramTokensRoundTrip | parser.js:8-14 | the token form `BlockTokens` of any program of the shapes the productions build (no null literal outside `caramelo x;`, a declaration and an assignment in every `batido` header) parses back to exactly that program |
| StatementRoundTrip.WhileRoundTrip | parser.js:98-110 | `gomita ( c ) { body }` reads back with its condition and its body |
| StatementRoundTrip.IfRoundTrip | parser.js:74-95 | `alfajor ( c ) { then } chocolate { else }` reads back with its condition and both branches |
| StatementRoundTrip.ElseStep | parser.js:86-93 | after `chocolate` the else part is read as a block |
| StatementRoundTrip.FunctionDeclRoundTrip | parser.js:131-151 | `torta f ( params ) { body }` reads back with its name, parameters and body, including an empty parameter list |
| StatementRoundTrip.ForRoundTrip | parser.js:113-128 | `batido ( declaration condition ; assignment ) { body }` reads back with all four parts |
| StatementRoundTrip.ForRestRoundTrip | parser.js:117-127 | after the initializer, the condition, the increment with its own `;`, the `)` and the body are read back |
| Semantic.SemanticAnalyzer.constructor | semanticAnalyzer.js:1-5 | the table starts empty |
| Semantic.SemanticAnalyzer.Analyze | semanticAnalyzer.js:8-10 | the walk yields the table and error that `CheckBlock` specifies |
| Semantic.SemanticAnalyzer.VisitAll | semanticAnalyzer.js:9 | the `forEach` walks in order on one table and stops at the first error |
| Semantic.SemanticAnalyzer.Visit | semanticAnalyzer.js:13-51 | each statement does to the table what `CheckStmt` specifies |
| Semantic.SemanticAnalyzer.VisitExpr | semanticAnalyzer.js:42-47 | expressions never fail the analysis |
| Semantic.SemanticAnalyzer.VisitVarDecl | semanticAnalyzer.js:54-59 | a name already in the table fails and changes nothing; otherwise the name is added as a variable |
| Semantic.SemanticAnalyzer.VisitAssignment | semanticAnalyzer.js:62-66 | fails exactly when the name is not in the table |
| Semantic.SemanticAnalyzer.VisitFunctionDecl | semanticAnalyzer.js:69-77 | a name already in the table fails; otherwise it is recorded as a function with its parameters |
| Semantic.SemanticAnalyzer.VisitFunctionCall | semanticAnalyzer.js:80-84 | succeeds exactly when the name is recorded as a function |
| Semantic.CheckStmt | semanticAnalyzer.js:13-115 | the definition of visiting one statement: the four table rules, branches and loop bodies walked on the same table, conditions and printed or returned expressions not looked at; its properties are the lemmas below |
| Semantic.CheckBlock | semanticAnalyzer.js:8-10 | the definition of the `forEach` walk: in order, on one table, stopping at the first error |
| Semantic.StmtExtends | semanticAnalyzer.js:58 | a statement never removes or replaces an entry of the table |
| Semantic.BlockExtends | semanticAnalyzer.js:73-76 | the table only grows over a whole walk |
| Semantic.DeclarationRules | semanticAnalyzer.js:54-77 | a declaration fails iff the name is present and otherwise adds exactly that name; the initializer and the body are not looked at; parameters do not enter the table |
| Semantic.UseRules | semanticAnalyzer.js:62-84 | an assignment fails iff the name is absent; a call passes iff the name is a function, so a variable's name fails; neither looks at its expressions or changes the table |
| Semantic.ExpressionsUnchecked | semanticAnalyzer.js:86-115 | `mostrame` and `devolveme` always pass, and conditions never change the outcome, so undeclared reads pass |
| Semantic.BlockAppend | semanticAnalyzer.js:9 | checking `a + b` is checking `a`, then `b` on the table `a` left |
| Semantic.OnlyDeclaredNamesEnter | semanticAnalyzer.js:13-51 | a name enters the table only through a declaration of it |
| Semantic.BlockOnlyDeclaredNamesEnter | semanticAnalyzer.js:9 | the same over a sequence of statements |
| Semantic.DeclaredNamesStay | semanticAnalyzer.js:86-105 | a statement that passes leaves every name it declares in the table, including declarations inside branches and `batido` initializers |
| Semantic.BlockDeclaredNamesStay | semanticAnalyzer.js:9 | the same over a sequence of statements |
| Semantic.RedeclarationFails | semanticAnalyzer.js:54-105 | once a name is in the table, any declaration of it the walk reaches fails |
| Semantic.BlockRedeclarationFails | semanticAnalyzer.js:9 | the same over a sequence of statements |
| Semantic.LaterRedeclarationFails | semanticAnalyzer.js:86-105 | two declarations of one name in a program fail the analysis, even when the first is inside a branch |
| Semantic.UseBeforeDeclarationFails | semanticAnalyzer.js:62-84 | assigning or calling a name before any declaration of it fails the analysis |
| Semantics.GetVariable | interpreter.js:169-174 | a read succeeds exactly when the name is bound, with its value, and otherwise fails with that name |
| Semantics.Truthy | interpreter.js:88-104 | the definition of JavaScript truthiness on the values of the model, used by `alfajor`, `gomita` and `batido` |
| Semantics.Eval | interpreter.js:122-153 | the definition of evaluation: literals, name lookup, and a binary expression left operand first, then right, then the operator; `Behaviour.BinaryOrder` states the order |
| Semantics.Apply | interpreter.js:125-142 | an operator outside `+ - * / < > ==` fails |
| Semantics.EvalArgs | interpreter.js:77 | the arguments evaluate exactly when each of them does, and then value `i` is the value of argument `i`; otherwise the error is that of the first argument that fails |
| Semantics.SetVariable | interpreter.js:177-183 | an assignment succeeds exactly when the name is bound, and then changes only that binding |
| Semantics.Bind | interpreter.js:78-81 | the definition of the call's local scope; `Behaviour.BindKeys` and `Behaviour.BindPositional` state what it binds |
| Semantics.ExecStmt | interpreter.js:15-119 | the definition of running one statement; `Behaviour.StmtLater`, `Behaviour.VarDeclBinds`, `Behaviour.AssignmentUpdates`, `Behaviour.MostrameAppends` and `Behaviour.ReturnRecords` state its properties |
| Semantics.Call | interpreter.js:72-84 | the definition of a call: unbound name, arguments in the caller's scope, non-function, body as a block over the parameters; `Behaviour.CallUnbound`, `Behaviour.CallNotAFunction` and `Behaviour.CallResult` state its properties |
| Semantics.ExecBlock | interpreter.js:156-166 | the definition of `executeBlock`: the statements run on the merged scope and the scope from before is put back; `Behaviour.BlockRestoresScope` states the latter |
| Semantics.RunBlock | interpreter.js:158-163 | the definition of the block loop that breaks once the flag is set; `Behaviour.ReturnStopsBlock` states the break |
| Semantics.WhileLoop | interpreter.js:96-100 | the definition of the `gomita` loop, one unit of fuel per pass; `Behaviour.WhileZeroOrForever` states when it ends |
| Semantics.ForLoop | interpreter.js:103-107 | the definition of the `batido` loop after its initializer; `Behaviour.ForKeepsNames` and `Behaviour.ForDeclares` state what it keeps |
| Semantics.RunProgram | interpreter.js:10-12 | the definition of `interpret`: every top-level statement in order; `Behaviour.ProgramLater` states that it only appends to the output |
| Interpreting.Interpreter.constructor | interpreter.js:2-7 | empty scope, empty output, return value null, flag cleared |
| Interpreting.Interpreter.Interpret | interpreter.js:10-12 | the loop over the top-level statements computes `RunProgram` |
| Interpreting.Interpreter.Visit | interpreter.js:15-52 | each statement computes `ExecStmt` |
| Interpreting.Interpreter.VisitVarDecl | interpreter.js:55-58 | the name is bound to the value whether or not it was bound before; nothing else changes |
| Interpreting.Interpreter.VisitAssignment | interpreter.js:61-64 | the value is stored only into a bound name |
| Interpreting.Interpreter.VisitFunctionDecl | interpreter.js:67-69 | the declaration itself becomes the name's value |
| Interpreting.Interpreter.VisitFunctionCall | interpreter.js:72-84 | the call computes `Call`: unbound name, failing argument, non-function and the positional binding loop included |
| Interpreting.Interpreter.VisitIfStatement | interpreter.js:87-93 | the chosen branch runs as a block |
| Interpreting.Interpreter.VisitWhileStatement | interpreter.js:96-100 | the loop computes `WhileLoop` |
| Interpreting.Interpreter.VisitForStatement | interpreter.js:103-107 | the initializer, then the loop computes `ForLoop` |
| Interpreting.Interpreter.VisitMostrame | interpreter.js:110-113 | the value is appended to the output and nothing else changes |
| Interpreting.Interpreter.VisitReturnStatement | interpreter.js:116-119 | the value is recorded and the flag set; nothing else changes |
| Interpreting.Interpreter.ExecuteBlock | interpreter.js:156-166 | the block runs on the merged scope, breaks once the flag is set, and puts the previous scope back, as `ExecBlock` says |
| Interpreting.Interpreter.SetVariable | interpreter.js:177-183 | computes `Semantics.SetVariable` on the fields |
| Behaviour.BlockRestoresScope | interpreter.js:156-166 | after any block the scope is exactly the one from before it |
| Behaviour.ReturnStopsBlock | interpreter.js:159-164 | once the flag is set, a block runs at most its first statement |
| Behaviour.StmtLater | interpreter.js:110-119 | no statement shortens or changes the output already produced, or clears the flag |
| Behaviour.CallLater | interpreter.js:72-84 | the same for a call |
| Behaviour.BlockLater | interpreter.js:156-166 | the same for a block |
| Behaviour.RunLater | interpreter.js:159-164 | the same for a block's statements |
| Behaviour.WhileLater | interpreter.js:96-100 | the same for a `gomita` loop |
| Behaviour.ForLater | interpreter.js:103-107 | the same for a `batido` loop |
| Behaviour.ProgramLater | interpreter.js:10-12 | a whole program only appends to the output |
| Behaviour.VarDeclBinds | interpreter.js:55-58 | a declaration overwrites any binding and changes nothing else; a failing initializer is the statement's error |
| Behaviour.AssignmentUpdates | interpreter.js:61-64 | an assignment fails iff the name is unbound, and otherwise changes that binding only |
| Behaviour.MostrameAppends | interpreter.js:110-113 | `mostrame` appends exactly one value |
| Behaviour.ReturnRecords | interpreter.js:116-119 | `devolveme` records the value, sets the flag and changes nothing else |
| Behaviour.BinaryOrder | interpreter.js:122-143 | the left operand is evaluated first, then the right, and only then an unknown operator fails |
| Behaviour.BindKeys | interpreter.js:78-81 | a call binds exactly its parameter names |
| Behaviour.BindPositional | interpreter.js:78-81 | parameter `i` holds argument `i`, or undefined when there are fewer arguments |
| Behaviour.CallUnbound | interpreter.js:73-77 | a call of an unbound name fails before its arguments are evaluated |
| Behaviour.CallNotAFunction | interpreter.js:76-79 | a call of a bound non-function fails |
| Behaviour.CallResult | interpreter.js:82-83 | a call leaves the caller's scope unchanged and yields the current return value, which may come from an earlier `devolveme` |
| Behaviour.WhileZeroOrForever | interpreter.js:96-100 | a `gomita` finishes iff its condition is false on entry, and then changes nothing |
| Behaviour.ForKeepsNames | interpreter.js:103-107 | with an assignment as increment, the loop binds and drops no name |
| Behaviour.ForDeclares | interpreter.js:103-107 | the variable declared in a `batido` header is still bound after the loop |
| Programs.CounterSpins | interpreter.js:96-100 | the body's increment is lost with the block's scope, so the counting `gomita` never stops |
| Programs.CounterDiverges | interpreter.js:156-166 | `caramelo i = 0; gomita (i < 3) { mostrame(i); i = i + 1; }` runs out of any fuel |
| Programs.ForPass | interpreter.js:103-107 | one pass of the counting `batido` prints `i` and increments it in the enclosing scope |
| Programs.ForStops | interpreter.js:103-107 | with `i == 3` the loop stops at once |
| Programs.ForFinishes | interpreter.js:103-107 | from `i == k` the loop prints `k` up to 2 and leaves `i` bound to 3 |
| Programs.CountTo3Prints | interpreter.js:103-107 | the counting `batido` prints 0, 1, 2 and leaves `i` bound to 3 |
| Programs.ReturnFlagPersists | interpreter.js:159-164 | after a function has returned, a later block with two prints runs only the first |
| Programs.TopLevelIgnoresReturn | interpreter.js:10-12 | at the top level the flag is not consulted |
| Programs.CalleeSeesCaller | interpreter.js:82 | a function body sees the caller's bindings |
| Pipeline.Run | compiler.js:8-30 | a run succeeds only when every stage succeeds; a lexing error stops the run with that error |
| Pipeline.AnalyzerIgnoresBlocks | compiler.js:19-23 | a program the analyzer accepts can fail at run time on a name declared in a finished block |

## Left out

- JavaScript numbers and coercions. Values are integers, strings, booleans,
  null, undefined and functions. `Semantics.Apply` computes `+ - *` on
  integers, `/` only when it divides exactly, `<` and `>` on integers, `+` on
  two strings, and `==` on two integers, two strings, two booleans, or any
  two of null and undefined (always true). Every other combination is the
  error `OutsideModel`: fractional division, division by zero, mixed-type
  `+`, `==` between values of different kinds (other than null and
  undefined), and `==` between two functions, which JavaScript decides by
  object identity.
- Semantics.Apply: the contract states only the unknown-operator error; the
  operator table is its definition.
- `Number(token.value)` on digit strings too long for a double is read as an
  exact integer.
- The text of the output. `mostrame` appends the value itself to a sequence,
  not `value + '\n'` to a string, so JavaScript's rendering of numbers,
  booleans, null and undefined is not modelled.
- The two inputs on which the lexer loop never ends (an unterminated string,
  and a word that reaches the end of the input) are the errors
  `UnterminatedString` and `WordAtEndOfInput`.
- Error messages, and the difference between `TypeError` and `Error`. Every
  failure is an error value that names its cause.
- Host crashes are ordinary errors:
  - reading past the last token (`UnexpectedEnd`);
  - calling a bound name that is not a function (`NotAFunction`);
  - calling a variable in the analyzer (`UndeclaredFunction`).
- Unknown node kinds cannot occur, because the AST is a closed datatype. So
  the `default` branches of both `visit` dispatches are not modelled.
- `checkSemicolon` is never called and reads fields the class does not have.
- compiler.js beyond the order of its stages: the DOM, `JSON.stringify` of
  the AST, and the `try`/`catch` that displays the message.
- The state after a runtime error. The semantics returns only the error.
  The source shows only the message, and it does not restore the scope when
  an exception leaves a block.
- Fuel. Loops and calls are bounded by a fuel parameter, so a program that
  never ends in the source runs out of fuel here. Every loop pass and every
  call spends one unit.
- The value of a call is never observable, because expressions cannot contain
  calls. `Interpreting.Interpreter.VisitFunctionCall` and `Semantics.Call`
  still compute it.
- The round trip goes one way: a tree laid out as tokens parses back to
  that tree. It is proved for every kind of statement, for blocks and for
  whole programs. That every tree the parser builds has the shapes
  `Unparsable` describes is not proved. An `alfajor` is laid out with its `chocolate` block, even
  an empty one; `ParserFacts.ElseBranch` covers the form without it. Which
  token lists the parser rejects, and with which error, is stated only by
  `ParserFacts` and the `Consume`/`PeekKind` contracts.
- Parsing.ParseStatement: its own contract states only progress. What it
  builds from laid-out tokens is stated by `StatementRoundTrip.StmtRoundTrip`,
  what it selects by `StatementRoundTrip.Dispatch` and `ParserFacts.StatementStart`.
- Parsing.ParseStatements: its own contract states only that it stops at a
  `}`. What it builds is stated by `StatementRoundTrip.StatementsRoundTrip`,
  on laid-out statements only.
- Parsing.ParseBlock: its own contract states only progress. What it builds
  is stated by `StatementRoundTrip.BlockRoundTrip`, on laid-out blocks only.
- Parsing.ParseIfStatement: its own contract states only progress. What it
  builds is stated by `StatementRoundTrip.IfRoundTrip` on laid-out tokens and
  by `ParserFacts.ElseBranch` for the else part.
- Parsing.ParseWhileStatement: its own contract states only progress. What
  it builds is stated by `StatementRoundTrip.WhileRoundTrip`, on laid-out
  tokens only.
- Parsing.ParseForStatement: its own contract states only progress. What it
  builds is stated by `StatementRoundTrip.ForRoundTrip` on laid-out tokens and
  by `ParserFacts.ForShape` for every successful parse.
- Parsing.ParseForRest: its own contract states the node kind, the
  initializer and that the increment is an assignment. The rest is stated by `StatementRoundTrip.ForRestRoundTrip`,
  on laid-out tokens only.
- Parsing.ParseFunctionDecl: its own contract states only progress. What it
  builds is stated by `StatementRoundTrip.FunctionDeclRoundTrip`, on laid-out
  tokens only.
- The parser keeps `current` as a field of `Parser` only in `Parse`. The
  productions thread the index through functions instead of advancing a
  field.
- The lexer constructor does not call `tokenize` itself; `Lexing.Lex` does
  both.
