# A toy language pipeline, modelled in Dafny

The repository implements a small scripting language in JavaScript. It has three stages:

- **Lexer** (`src/lexer.js`): walks an input string with a cursor and hands out one token per call of `getNextToken`.
- **Parser** (`src/parser.js`): an LL(1) recursive-descent parser over those tokens. It builds an AST of `Program`, `Block`, `VarDecl`, `Assign`, `Var`, `BinOp`, `UnaryOp`, `Num`, `Str`, `If`, `While` and `Print` nodes.
- **Interpreter** (`src/interpreter.js`): a tree-walking interpreter over that AST. It has one flat `globalScope` and writes output through `console.log`.

This project models all three stages and proves what each of them promises.

Layout:

| file | module | what it holds |
|---|---|---|
| `wrappers.dfy` | `Wrappers` | `Option`, `Result` and `Outcome`, with early return by `:-` |
| `errors.dfy` | `Errors` | the errors a run can end with |
| `tokens.dfy` | `Tokens` | token kinds and the `Token` record |
| `lexer.dfy` | `Lexing` | `Scan`: one `getNextToken` call as a function of the input and the cursor. `Pulls`: the sequence of calls the parser makes. The class `Lexer`: the source's cursor object, whose methods are proved to follow `Scan` |
| `lexer_facts.dfy` | `LexingFacts` | what a `getNextToken` call promises, stated on `Scan` |
| `ast.dfy` | `Ast` | the AST classes as one datatype, and the shapes the parser builds |
| `parser.dfy` | `Parsing` | every grammar rule as a function of the pull sequence and the lookahead index. The class `Parser`: the source's object, whose methods are proved to follow those functions |
| `parser_facts.dfy` | `ParsingFacts` | the parts of each statement rule; the statements of a block and of a program, in order (`Statements`: what successive `statement()` calls parse); precedence, associativity, dangling `else`, the unaccepted `;` |
| `values.dfy` | `Values` | run-time values and what the operators do to them |
| `interpreter.dfy` | `Interpreting` | `Eval` for expressions, `Exec` for statements. The class `Interpreter`: its `visit_*` methods are proved to follow `Exec` |
| `interpreter_facts.dfy` | `InterpretingFacts` | scope, equality, ordering and loop facts |
| `pipeline.dfy` | `Pipeline` | lexer, parser and interpreter wired together, as the drivers do |
| `test_expressions.dfy` | `TestExpressions` | the seven assertions of `src/test.js`, on the token streams the lexer hands the parser |
| `test_inputs.dfy` | `TestInputs` | the same seven assertions on the input strings: each string lexes to its token stream, and the whole run yields the expected value |

Design choices:

- **Lazy lexing.** The parser pulls tokens from the lexer one at a time: once in its constructor and once per `eat`. Those calls are fixed by the input.
  - `Lexing.Pulls` lists them up to the first EOF or lexical error.
  - Each `Parse*` function takes that list and the index of the lookahead token.
  - A lexical error therefore surfaces exactly when the source would raise it: when the token before it is eaten.
- **Errors are values.** A thrown `Error` becomes a `Failure` of a `Result`. `Exec` returns a `Completion`, which holds the result together with the state reached. That state is what the source's objects hold after an exception: assignments and output made before the error stay.
- **Values.**
  - Numbers are exact `real`s.
  - Strings are `seq<char>`: sequences of Unicode scalar values. JavaScript strings are sequences of UTF-16 code units; the two agree on text inside the Basic Multilingual Plane.
  - Output is the sequence of values handed to `console.log`.
- **Loops and fuel.** A `while` loop need not end, so each iteration of a loop costs one unit of `fuel`. Running out of fuel is the model's own `OutOfFuel` error. `InterpretingFacts.ExecFuel` proves that a run which does not run out gives the same completion with any larger budget.

## Model

| member | source | states |
|---|---|---|
| `Lexing.Lexer.constructor` | src/lexer.js:9-22 | the cursor starts at position 0, with `currentChar` the first character or none |
| `Lexing.Lexer.Advance` | src/lexer.js:24-27 | the position moves by exactly one, and `currentChar` is the character there, or none past the end |
| `Lexing.Lexer.SkipWhitespace` | src/lexer.js:29-33 | the cursor ends at the end of the whitespace run it started on |
| `Lexing.Lexer.Peek` | src/lexer.js:35-38 | returns the character after the cursor, or none past the end, without moving |
| `Lexing.Lexer.Identifier` | src/lexer.js:40-47 | consumes the maximal `[A-Za-z0-9_]` run, and returns that text with its keyword kind or IDENTIFIER |
| `Lexing.Lexer.ReadDigits` | src/lexer.js:51-61 | consumes the maximal digit run, appending exactly those characters to the text read so far |
| `Lexing.Lexer.Number` | src/lexer.js:49-65 | returns the token and end position `NumberAt` gives: digits, then an optional `.` and digits, with the `parseInt` or `parseFloat` value of that text |
| `Lexing.Lexer.String` | src/lexer.js:67-76 | returns the token and end position `StringAt` gives: the text strictly between the quotes, ending one past the closing quote or past the end of the input |
| `Lexing.Lexer.GetNextToken` | src/lexer.js:78-151 | returns exactly the token `Scan` gives and moves the cursor where `Scan` says; on an invalid character it fails with `Scan`'s error, and the cursor stops on that character |
| `Lexing.Scan` | src/lexer.js:78-150 | the position never moves back; every token other than EOF consumes at least one character; every token carries the value its kind calls for |
| `Lexing.FracValue` | src/lexer.js:55-62 | the digits after a decimal point add a value in [0, 1) |
| `Lexing.Pulls` | src/lexer.js:78-151 | the calls a client makes until EOF or an error: the first pull is one `Scan` from the start; every pull but the last is a token other than EOF; the last is EOF or an error |
| `LexingFacts.PullsStep` | src/lexer.js:78-151 | each pull after a token is a `Scan` from where that token left the cursor; a further call after EOF gives the same EOF without moving |
| `LexingFacts.PullsHanded` | src/lexer.js:78-151 | the pull sequence satisfies `Handed`, the per-pull form of `PullsStep` that the parser object keeps as its invariant |
| `LexingFacts.IdentifierIsMaximalRun` | src/lexer.js:40-47 | a token starting at `[A-Za-z_]` spans the maximal `[A-Za-z0-9_]` run; its value is exactly that text; its kind is a keyword kind or IDENTIFIER |
| `LexingFacts.WordsAreClassified` | src/lexer.js:13-46 | each of the seven keywords gets its own kind; a word is an IDENTIFIER exactly when it is not one of them; the value is always the word |
| `LexingFacts.OperatorsLongestFirst` | src/lexer.js:97-124 | `==`, `!=`, `<=` and `>=` are single tokens that consume two characters; `=` alone is ASSIGN; `<` and `>` alone are LESS and GREATER; `!` alone is an invalid character |
| `LexingFacts.InvalidCharacter` | src/lexer.js:126-147 | a call fails if and only if the first non-space character cannot start a token; the error names that character |
| `LexingFacts.EofIsSticky` | src/lexer.js:78-150 | a call returns EOF if and only if only whitespace is left; a call from the cursor an EOF left returns EOF again |
| `LexingFacts.StringLiteral` | src/lexer.js:67-76 | a string token's value is the text strictly between the quotes, with no escape handling, and holds no quote |
| `LexingFacts.UnterminatedString` | src/lexer.js:67-76 | a string with no closing quote takes the rest of the input without an error |
| `LexingFacts.ScanDispatch` | src/lexer.js:85-95 | a letter or `_` starts a word, a digit a number, and `"` a string, each scanned from that character |
| `LexingFacts.NumberLiteral` | src/lexer.js:49-65 | a number token spans a digit run, optionally followed by `.` and a second digit run; its value is the decimal value of that text; its integer part is the value of the first run |
| `LexingFacts.NumberWithPoint` | src/lexer.js:55-62 | with a decimal point, the value is the whole part plus the fraction after the point |
| `LexingFacts.NumberWithoutPoint` | src/lexer.js:64 | without a decimal point, the value is that of the digit run and the token ends after it |
| `LexingFacts.ParseFloatOfLiteral` | src/lexer.js:62 | `parseFloat` of the scanned text reads the two digit runs around the point |
| `LexingFacts.IntegerValues` | src/lexer.js:64 | `parseInt` reads "42" as 42 and "007" as 7 |
| `LexingFacts.FloatValues` | src/lexer.js:62 | `parseFloat` reads "1." as 1, "2.5" as 2.5 and "10.25" as 10.25 |
| `Parsing.EatToken` | src/parser.js:108-114 | succeeds only on the expected kind; on another kind it is a syntax error; eating EOF stays put; eating any token other than EOF or `;` moves forward by at least one |
| `Parsing.ParseFactor` | src/parser.js:243-272 | a parsed factor is an expression node and consumed at least one token, none of them EOF or `;`; the node each kind of first token builds is stated in `ParsingFacts.FactorParts` and `ParsingFacts.FactorRejects` |
| `Parsing.ParseFactorOperand` | src/parser.js:231-237 | one round of the `term` loop: consumes the operator and a factor |
| `Parsing.ParseTermRest` | src/parser.js:230-238 | the `term` loop stops only at a token that is not `*` or `/` |
| `Parsing.ParseTerm` | src/parser.js:227-241 | a parsed term consumed tokens and stops before any `*` or `/` |
| `Parsing.ParseOperand` | src/parser.js:203-221 | one round of the `expr` loop: consumes the operator and a term |
| `Parsing.ParseExprRest` | src/parser.js:202-222 | the `expr` loop stops only at a token that is no operator of either tier |
| `Parsing.ParseExpr` | src/parser.js:199-225 | a parsed expression consumed tokens and stops before any operator of either tier |
| `Parsing.ParseBlock` | src/parser.js:143-151 | a parsed block is a Block statement and consumed tokens; which statements it holds, in order, and the `}` it ends on are stated in `ParsingFacts.BlockParts` |
| `Parsing.ParseBlockRest` | src/parser.js:146-149 | the statement loop of `block` consumed tokens and yields a Block; that it adds the statements in order and ends by eating `}` is stated in `ParsingFacts.BlockRestParts` and `ParsingFacts.BlockRestCollects` |
| `Parsing.ParseCondition` | src/parser.js:155-157 | the parenthesised condition of `if` and `while` is an expression, and tokens were consumed |
| `Parsing.ParseIf` | src/parser.js:153-165 | an `if` yields an If statement; if it has no `else`, the next token is not ELSE; its condition, then-branch and else-branch are stated in `ParsingFacts.IfParts` |
| `Parsing.ParseElse` | src/parser.js:159-164 | the tail of `if` keeps the condition and then-branch; it takes an `else` whenever one follows, and `ParsingFacts.ElseParts` states that the else-branch is the statement after `else` |
| `Parsing.ParseWhile` | src/parser.js:167-174 | a `while` yields a While statement and consumed tokens |
| `Parsing.ParseVarDecl` | src/parser.js:176-183 | a `let` yields a VarDecl statement and consumed tokens |
| `Parsing.ParsePrint` | src/parser.js:185-189 | a `print` yields a Print statement and consumed tokens |
| `Parsing.ParseAssignment` | src/parser.js:191-197 | an assignment yields an Assign statement to the name of its first token |
| `Parsing.ParseStatement` | src/parser.js:124-141 | every statement consumes at least one token or fails; the result is a statement |
| `Parsing.ParseProgram` | src/parser.js:116-122 | the loop ends only at EOF; every token before it is neither EOF nor `;`; the result is a Program, whose statements in source order are stated in `ParsingFacts.ProgramParts` |
| `Parsing.ParseFrom` | src/parser.js:274-280 | a successful parse is a Program of statements |
| `Parsing.ParseInput` | src/parser.js:99-102 | whatever a whole input parses to is a Program of statements |
| `Parsing.Parser.Init` | src/parser.js:99-102 | the parser holds the lexer, and its lookahead is the first pull |
| `Parsing.Parser.Create` | src/parser.js:99-102 | a lexical error in the first token fails construction; otherwise the parser starts at the first pull of the input |
| `Parsing.Parser.Eat` | src/parser.js:108-114 | follows `EatToken`: on a match the lookahead is the next pull; on a mismatch it fails and changes nothing |
| `Parsing.Parser.Program` | src/parser.js:116-122 | returns what `ParseProgram` gives, leaving the lookahead at the index it names, so its statements are those `ParsingFacts.ProgramParts` states |
| `Parsing.Parser.Statement` | src/parser.js:124-141 | follows `ParseStatement` |
| `Parsing.Parser.Block` | src/parser.js:143-151 | follows `ParseBlock`, so its statements and closing `}` are those `ParsingFacts.BlockParts` states |
| `Parsing.Parser.IfStatement` | src/parser.js:153-165 | follows `ParseIf`, so its condition and both branches are those `ParsingFacts.IfParts` states |
| `Parsing.Parser.ElseClause` | src/parser.js:159-164 | follows `ParseElse`, so its else-branch is the statement after `else` (`ParsingFacts.ElseParts`) |
| `Parsing.Parser.Condition` | src/parser.js:155-157 | follows `ParseCondition` |
| `Parsing.Parser.WhileStatement` | src/parser.js:167-174 | follows `ParseWhile` |
| `Parsing.Parser.VarDeclaration` | src/parser.js:176-183 | follows `ParseVarDecl` |
| `Parsing.Parser.PrintStatement` | src/parser.js:185-189 | follows `ParsePrint` |
| `Parsing.Parser.AssignmentStatement` | src/parser.js:191-197 | follows `ParseAssignment` |
| `Parsing.Parser.Expr` | src/parser.js:199-225 | follows `ParseExpr` |
| `Parsing.Parser.Term` | src/parser.js:227-241 | follows `ParseTerm` |
| `Parsing.Parser.Factor` | src/parser.js:243-272 | follows `ParseFactor`, so its node is the one `ParsingFacts.FactorParts` states |
| `Parsing.Parser.Parse` | src/parser.js:274-280 | returns exactly `ParseFrom` from the current lookahead |
| `ParsingFacts.EatStepsOnce` | src/parser.js:108-114 | eating a matching token moves to the next pull, or fails with the lexical error found there |
| `ParsingFacts.FactorParts` | src/parser.js:243-272 | a parsed factor led by `+` or `-` is that sign applied to the factor after it; a number, string or identifier token becomes a Num of its value, a Str of its text or a Var of its name and is the whole factor; `(` gives the node of the expression after it, closed by `)` |
| `ParsingFacts.FactorRejects` | src/parser.js:243-272 | any other first token makes `factor` fail with a syntax error |
| `ParsingFacts.StatementDispatch` | src/parser.js:124-141 | the first token's kind alone decides the rule, and the node's shape shows which rule it was |
| `ParsingFacts.ElseParts` | src/parser.js:159-164 | when `else` follows the then-branch, the else-branch is the statement after `else` and the `if` ends where it ends; otherwise there is no else-branch and nothing more is eaten |
| `ParsingFacts.IfThenElse` | src/parser.js:153-165 | a parsed `if` is `if`, its condition and its then-branch, followed by the else tail parsed where the then-branch ends |
| `ParsingFacts.IfParts` | src/parser.js:153-165 | a parsed `if` starts with IF; its condition is the parenthesised expression after `if`, its then-branch the statement after that, and its else-branch, when `else` follows the then-branch, the statement after `else`; without `else` the `if` ends with its then-branch |
| `ParsingFacts.WhileParts` | src/parser.js:167-174 | a parsed `while` starts with WHILE; its condition is the parenthesised expression after `while`, and its body is the statement after that, ending where the `while` ends |
| `ParsingFacts.VarDeclParts` | src/parser.js:176-183 | a parsed declaration is `let`, an identifier and `=`; its name is that identifier's text, and its initialiser is the expression after `=`, ending where the declaration ends |
| `ParsingFacts.PrintParts` | src/parser.js:185-189 | a parsed `print` prints the expression after `print`, ending where that expression ends |
| `ParsingFacts.AssignmentParts` | src/parser.js:191-197 | a parsed assignment is an identifier and `=`; it binds that identifier's text to the expression after `=`, ending where that expression ends |
| `ParsingFacts.IdentifierCommitsToAssignment` | src/parser.js:191-197 | a statement starting with an identifier fails unless `=` follows the identifier |
| `ParsingFacts.ExprLeftAssociative` | src/parser.js:199-225 | `a o1 b o2 c` with operators of the `expr` tier parses as `(a o1 b) o2 c` |
| `ParsingFacts.TermLeftAssociative` | src/parser.js:227-241 | `a o1 b o2 c` with `*` or `/` parses as `(a o1 b) o2 c` |
| `ParsingFacts.TermOfOne` | src/parser.js:227-241 | a factor not followed by `*` or `/` is the whole term |
| `ParsingFacts.TermOfTwo` | src/parser.js:227-241 | `a * b` or `a / b` followed by no further `*` or `/` is one BinOp |
| `ParsingFacts.ExprOfOne` | src/parser.js:199-225 | a term not followed by an `expr` operator is the whole expression |
| `ParsingFacts.ExprOfTwo` | src/parser.js:199-225 | two terms joined by one `expr` operator are one BinOp |
| `ParsingFacts.TermBindsTighterOnTheRight` | src/parser.js:199-241 | `a + b * c` parses as `a + (b * c)` |
| `ParsingFacts.TermBindsTighterOnTheLeft` | src/parser.js:199-241 | `a * b + c` parses as `(a * b) + c` |
| `ParsingFacts.ParenthesesLeaveNoNode` | src/parser.js:265-270 | `( e )` parses to the node of `e` itself, with no wrapper |
| `ParsingFacts.ElseGoesToNearestIf` | src/parser.js:153-165 | when the then-branch is an `if` left without an `else`, the outer `if` has none either: an `else` goes to the nearest `if` |
| `ParsingFacts.BlockNeedsClosingBrace` | src/parser.js:143-151 | reaching EOF inside a block is a syntax error, not a loop |
| `ParsingFacts.BlockRestParts` | src/parser.js:146-150 | the `block` loop adds, after those it had, the statements parsed one after another up to a `}`, in order, and ends where eating that `}` leaves the lookahead |
| `ParsingFacts.BlockRestCollects` | src/parser.js:146-150 | conversely, statements parsed one after another up to a `}` that can be eaten are exactly what the loop adds |
| `ParsingFacts.BlockParts` | src/parser.js:143-151 | a parsed block starts with `{` and holds exactly the statements parsed one after another from the token after it up to a `}`, in order; it ends where eating that `}` leaves the lookahead |
| `ParsingFacts.ProgramParts` | src/parser.js:116-122 | the `program` loop adds, after those it had, the statements parsed one after another up to EOF, in source order |
| `ParsingFacts.ProgramCollects` | src/parser.js:116-122 | conversely, statements parsed one after another up to EOF are exactly what the loop adds |
| `ParsingFacts.ProgramInOrder` | src/parser.js:274-280 | an accepted program holds, in source order, exactly the statements parsed one after another up to EOF |
| `ParsingFacts.AcceptedPullsHaveNoSemicolon` | src/parser.js:199-272 | a pull sequence that parses holds no lexical error and no `;` token |
| `ParsingFacts.AcceptedInputHasNoSemicolon` | src/parser.js:274-280 | an input that parses lexes without error and without a `;` token |
| `ParsingFacts.SemicolonRejected` | src/parser.js:138-139 | a `;` anywhere in the token stream makes `parse` fail |
| `Values.ApplyBinary` | src/interpreter.js:58-79 | the operator switch; any failure names the operator |
| `Values.ApplyUnary` | src/interpreter.js:82-90 | unary `+` and `-` succeed exactly on numbers, giving the number or its negation |
| `Interpreting.Eval` | src/interpreter.js:46-98 | an expression fails only by an unbound name it reads or by a bad operand; with all its names bound, only by a bad operand; the value of each node kind is stated in `InterpretingFacts.VarLookup`, `LiteralValues`, `UnaryOperandFirst` and `BinOpLeftFirst` |
| `Interpreting.ExprCompletion` | src/interpreter.js:46-98 | an expression statement changes neither the scope nor the output |
| `Interpreting.Exec` | src/interpreter.js:19-120 | a statement only adds bindings, never removes one, and only appends output |
| `Interpreting.ExecSeq` | src/interpreter.js:19-33 | a statement sequence only adds bindings and only appends output |
| `Interpreting.ExecWhile` | src/interpreter.js:108-114 | a loop only adds bindings and only appends output |
| `Interpreting.Interpret` | src/interpreter.js:122-124 | a run only adds bindings and only appends output |
| `Interpreting.Interpreter.constructor` | src/interpreter.js:14-17 | a fresh interpreter has an empty scope and no output |
| `Interpreting.Interpreter.Visit` | src/interpreter.js:1-6 | the dispatch on the node's kind ends in the completion `Exec` gives |
| `Interpreting.Interpreter.VisitExpr` | src/interpreter.js:46-98 | an expression node yields `Eval`'s value and changes nothing |
| `Interpreting.Interpreter.VisitProgram` | src/interpreter.js:19-25 | the `for` loop over the statements ends in the completion `Interpret` gives |
| `Interpreting.Interpreter.VisitBlock` | src/interpreter.js:27-33 | the `for` loop over the statements ends in the completion `Exec` gives |
| `Interpreting.Interpreter.VisitVarDecl` | src/interpreter.js:35-37 | ends in the completion `Exec` gives for the declaration |
| `Interpreting.Interpreter.VisitAssign` | src/interpreter.js:39-44 | ends in the completion `Exec` gives for the assignment |
| `Interpreting.Interpreter.VisitIf` | src/interpreter.js:100-106 | ends in the completion `Exec` gives for the `if` |
| `Interpreting.Interpreter.VisitWhile` | src/interpreter.js:108-114 | the `while` loop ends in the completion `Exec` gives for the loop |
| `Interpreting.Interpreter.VisitPrint` | src/interpreter.js:116-120 | ends in the completion `Exec` gives for the `print` |
| `Interpreting.Interpreter.Run` | src/interpreter.js:122-124 | `interpret` ends in the completion `Interpret` gives |
| `InterpretingFacts.StrictEquality` | src/interpreter.js:67-70 | `==` is true exactly on equal values; `!=` is its negation; values of different kinds are never equal |
| `InterpretingFacts.PlusOperands` | src/interpreter.js:59-60 | `+` succeeds exactly on two numbers (their sum) or two strings (their concatenation) |
| `InterpretingFacts.TextLessIrreflexive` | src/interpreter.js:71-72 | no string is less than itself |
| `InterpretingFacts.TextLessTotal` | src/interpreter.js:71-78 | of two different strings, exactly one is less than the other |
| `InterpretingFacts.OrderingsAgree` | src/interpreter.js:71-78 | on comparable operands, `<=` is `<` or equal, `>` is `<` reversed, and `>=` is `<=` reversed |
| `InterpretingFacts.EvalReadsNames` | src/interpreter.js:46-52 | an expression's value depends only on the bindings of the names it reads |
| `InterpretingFacts.VarLookup` | src/interpreter.js:46-52 | a bound name yields its value; an unbound one gives the not-defined error naming it |
| `InterpretingFacts.LiteralValues` | src/interpreter.js:92-98 | a number literal evaluates to that number and a string literal to that text, in any scope |
| `InterpretingFacts.UnaryOperandFirst` | src/interpreter.js:82-90 | a sign evaluates its operand first, whose error is the error of the whole; otherwise the sign is applied to the operand's value |
| `InterpretingFacts.BinOpLeftFirst` | src/interpreter.js:54-57 | the left operand is evaluated first, then the right; either error is the error of the whole; with no error the operator is applied |
| `InterpretingFacts.SeqThenOne` | src/interpreter.js:19-25 | statements run in order: one more statement runs in the state the others left, and its result is the result of the whole |
| `InterpretingFacts.EmptySeq` | src/interpreter.js:19-25 | an empty statement list yields no value and changes nothing |
| `InterpretingFacts.VarDeclBinds` | src/interpreter.js:35-37 | a declaration binds the name to the initialiser's value, whether it was bound before or not; nothing else changes |
| `InterpretingFacts.AssignRebinds` | src/interpreter.js:39-44 | assigning to an unbound name fails before the right-hand side is evaluated and changes nothing; otherwise only that name's binding changes |
| `InterpretingFacts.BlockOpensNoScope` | src/interpreter.js:27-37 | a name declared inside a block stays bound after the block |
| `InterpretingFacts.IfBranches` | src/interpreter.js:100-106 | a truthy condition runs the then-branch; a falsy one runs the else-branch if there is one, and otherwise does nothing |
| `InterpretingFacts.PrintAppendsOne` | src/interpreter.js:116-120 | `print` appends exactly one value to the output and returns that value |
| `InterpretingFacts.WhileEndsFalsy` | src/interpreter.js:108-114 | a loop that ends normally ends because its condition, evaluated in the final state, is falsy |
| `InterpretingFacts.WhileFalsyAtOnce` | src/interpreter.js:108-114 | a loop whose condition is falsy at once runs nothing and yields no value |
| `InterpretingFacts.ExecFuel` | src/interpreter.js:108-114 | a statement that did not run out of fuel gives the same completion with more fuel |
| `InterpretingFacts.ExecSeqFuel` | src/interpreter.js:19-33 | the same for a statement sequence |
| `InterpretingFacts.ExecWhileFuel` | src/interpreter.js:108-114 | the same for a loop |
| `InterpretingFacts.WhileStepFuel` | src/interpreter.js:110-111 | the same for one iteration of a loop |
| `Pipeline.Evaluate` | src/test.js:11-16 | a lexical or syntax error ends the run before anything runs; otherwise the tree runs from a fresh interpreter |
| `Pipeline.Run` | src/test.js:11-16 | lexer, parser and interpreter objects wired together return `Evaluate`'s result and output |
| `TestExpressions.NumberFactor` | src/parser.js:253-256 | a number token is a Num factor that consumes that one token |
| `TestExpressions.ParseNumberPair` | src/parser.js:199-241 | two numbers joined by one operator of either tier parse to one BinOp |
| `TestExpressions.ParseSumOfProduct` | src/parser.js:199-241 | `a + b * c` on number tokens parses with the product inside |
| `TestExpressions.ParseProductOfGroup` | src/parser.js:243-272 | `(a + b) * c` on number tokens parses with the sum inside |
| `TestExpressions.ParseExpressionProgram` | src/parser.js:116-141 | an expression that starts with a number or `(` and runs to EOF is a program of one statement |
| `TestExpressions.RunExpressionProgram` | src/interpreter.js:19-25 | a program of one expression yields that expression's value |
| `TestExpressions.ExpressionYields` | src/test.js:11-17 | such a stream parses, and its run yields the expression's value |
| `TestExpressions.NumberPairYields` | src/test.js:24-27 | `a o b` as the whole input yields what the operator makes of the two numbers |
| `TestExpressions.SumOfProductYields` | src/test.js:28 | `a o1 b o2 c`, with `o2` of the tighter tier, yields `a o1 (b o2 c)` |
| `TestExpressions.ProductOfGroupYields` | src/test.js:29 | `(a o1 b) o2 c` yields `(a o1 b) o2 c` |
| `TestExpressions.TwoPlusThree` | src/test.js:24 | `2 + 3` yields 5 |
| `TestExpressions.FiveMinusTwo` | src/test.js:25 | `5 - 2` yields 3 |
| `TestExpressions.ThreeTimesFour` | src/test.js:26 | `3 * 4` yields 12 |
| `TestExpressions.TenOverTwo` | src/test.js:27 | `10 / 2` yields 5 |
| `TestExpressions.TwoPlusThreeTimesFour` | src/test.js:28 | `2 + 3 * 4` yields 14 |
| `TestExpressions.GroupTimesFour` | src/test.js:29 | `(2 + 3) * 4` yields 20 |
| `TestExpressions.TenMinusTwoTimesThree` | src/test.js:30 | `10 - 2 * 3` yields 4 |
| `TestInputs.TextYields` | src/test.js:11-17 | a token stream the lexer builds from the text that yields a value makes the whole run of that text yield it |
| `TestInputs.OneDigitStep` | src/lexer.js:49-91 | after at most one blank, a digit not followed by a digit or `.` is one number token of that digit's value, and the stream goes on from after it |
| `TestInputs.TwoDigitStep` | src/lexer.js:49-91 | the same for two digits, with the two-digit value |
| `TestInputs.SymbolStep` | src/lexer.js:78-144 | after at most one blank, an operator or bracket is one token of its kind and text, and the stream goes on from after it |
| `TestInputs.EndStep` | src/lexer.js:78-150 | at the end of the input the stream is a single EOF |
| `TestInputs.TwoPlusThreeLexes` | src/lexer.js:78-150 | `2 + 3` lexes to 2, `+`, 3 and EOF, with the end of each token |
| `TestInputs.FiveMinusTwoLexes` | src/lexer.js:78-150 | `5 - 2` lexes to 5, `-`, 2 and EOF |
| `TestInputs.ThreeTimesFourLexes` | src/lexer.js:78-150 | `3 * 4` lexes to 3, `*`, 4 and EOF |
| `TestInputs.TenOverTwoLexes` | src/lexer.js:78-150 | `10 / 2` lexes to 10, `/`, 2 and EOF |
| `TestInputs.TwoPlusThreeTimesFourLexes` | src/lexer.js:78-150 | `2 + 3 * 4` lexes to 2, `+`, 3, `*`, 4 and EOF |
| `TestInputs.TenMinusTwoTimesThreeLexes` | src/lexer.js:78-150 | `10 - 2 * 3` lexes to 10, `-`, 2, `*`, 3 and EOF |
| `TestInputs.GroupTimesFourLexes` | src/lexer.js:78-150 | `(2 + 3) * 4` lexes to `(`, 2, `+`, 3, `)`, `*`, 4 and EOF |
| `TestInputs.TwoPlusThreeText` | src/test.js:24 | the whole run of the text `2 + 3` yields 5 |
| `TestInputs.FiveMinusTwoText` | src/test.js:25 | the whole run of `5 - 2` yields 3 |
| `TestInputs.ThreeTimesFourText` | src/test.js:26 | the whole run of `3 * 4` yields 12 |
| `TestInputs.TenOverTwoText` | src/test.js:27 | the whole run of `10 / 2` yields 5 |
| `TestInputs.TwoPlusThreeTimesFourText` | src/test.js:28 | the whole run of `2 + 3 * 4` yields 14 |
| `TestInputs.GroupTimesFourText` | src/test.js:29 | the whole run of `(2 + 3) * 4` yields 20 |
| `TestInputs.TenMinusTwoTimesThreeText` | src/test.js:30 | the whole run of `10 - 2 * 3` yields 4 |

## Left out

- `Values.ApplyBinary`: does not model JavaScript coercions. The following fail with `OperandError` instead of producing JavaScript's result:
  - any arithmetic operand that is not a number. JavaScript converts booleans and numeric strings with ToNumber (`"6" / "2"` is 3, `true * 3` is 3, `"4" - 1` is 3, `true + 1` is 2) and gives NaN only when that conversion fails;
  - `+` when either side is a string and the other is not: JavaScript concatenates (`"a" + true` is `"atrue"`, `"a" + 1` is `"a1"`);
  - division by zero (Infinity);
  - ordered comparison of values of different kinds.

  Numbers are exact reals, so IEEE rounding, NaN, Infinity and `-0` are not modelled.
- `Values.ApplyUnary`: `+` and `-` on a string or boolean fail. JavaScript converts the operand with ToNumber (`-true` is -1, `+"2"` is 2) and gives NaN only when that fails.
- `Interpreting.Exec`: a `while` loop spends one unit of fuel per iteration. A loop that would run forever, or longer than the budget, ends in `OutOfFuel`, which the source has no counterpart for. `InterpretingFacts.ExecFuel` shows that the budget changes nothing else.
- `Interpreting.Eval`: requires a tree of the shape the parser builds (`IsExpr`). The dispatch error of `genericVisit` (src/interpreter.js:8-10) cannot happen on such trees, so it is not modelled.
- `Interpreting.Exec` requires `IsStmt` for the same reason.
- Text formatting by `console.log` is not modelled. Output is the sequence of printed values.
- `Values.TextLess` and `Lexing.IsSpace`: a Dafny `char` is a Unicode scalar value, and JavaScript works on UTF-16 code units, so input with characters outside the Basic Multilingual Plane lexes and compares differently from JavaScript. JavaScript orders strings by code unit, so `"\u{1F600}" < "\u{FF01}"` holds there, while `TextLess` orders by scalar value and says the opposite. An invalid character outside the plane is named whole in the lexer's error, where src/lexer.js:147 names only its high surrogate. String lengths and string literals count such a character once, not twice. Whitespace is the fixed set of characters JavaScript's `\s` matches, all of them inside the plane.
- JavaScript prototype lookups are not modelled. `this.keywords[result]` (src/lexer.js:46) and `name in this.globalScope` (src/interpreter.js:40,48) also match inherited names such as `toString`. Here the keyword table and the scope are plain finite maps.
- `Tokens.TextOf` and `Tokens.NumberOf` have fallbacks for tokens that carry no text or number. The lexer never builds such tokens (`Lexing.Scan` ensures `WellShaped`), so the fallbacks are never reached.
- The parser's state after a syntax error is not specified beyond "nothing changed" for a mismatched `eat`. The source abandons the parser object after the exception.
- Some grammar rules are split into several functions and methods the source does not have. They are pieces of one source function and are cited with that function's lines:
  - `ParseOperand` and `ParseFactorOperand`: one round of the `expr` and `term` loops;
  - `ParseCondition` and `Parser.Condition`: the `( expr )` that `ifStatement` and `whileStatement` both write out;
  - `ParseElse` and `Parser.ElseClause`: the tail of `ifStatement`;
  - `Lexer.ReadDigits`: the digit loop that `number` writes out twice;
  - `ExprCompletion` and `Interpreter.VisitExpr`: `visit` on an expression node.
- The programs of `src/client/App.jsx` end their statements with `;`. The lexer produces a SEMICOLON token, and no grammar rule accepts it, so `parse` rejects those programs (`ParsingFacts.SemicolonRejected`). The model follows the code, not the examples.
- `TestExpressions`: the assertions of `src/test.js` are stated for every token stream that carries each input's tokens. `TestInputs` ties each of them to its input string.
- `src/main.js`, `src/test.js`, `src/client/App.jsx` and `src/server/index.js` are drivers, UI and HTTP plumbing, and are not part of this model. `Pipeline` wires the three stages together the way the drivers do.
