# A Dafny model of the Kato toolchain

Kato is a small imperative language. Its repository holds two
text-to-text translators, and this project models the core of both.

**Kato to C.**
- A lexer turns Kato text into tokens with 1-based lines and columns (`kato/lexer/lexer.py`).
- A recursive-descent parser checks scope as it parses (`kato/parser/*.py`). It knows the defined functions and builtins of the whole program, and the flat set of each function's variables.
- An import preprocessor splices in the functions that `.kh` manifests export (`kato/compiler/preprocessor.py`).
- An optimizer cuts `main` after its first top-level `return` (`kato/compiler/optimizer.py`).
- A code generator writes C text (`kato/compiler/codegen/*.py`, `kato/compiler/compiler.py`). It keeps an indentation level and a table from variable names to types. In `print`, it turns `*name*` placeholders into `printf` specifiers.

**C to Kato.**
- A permissive C lexer (`kato/c2kato/lexer/c_lexer.py`).
- A C parser that keeps a table of declared functions and suggests keywords by edit distance (`kato/c2kato/parser/*.py`).
- Converters from C nodes to Kato nodes, including the rewriting of a `printf` format into placeholders (`kato/c2kato/converter/*.py`).
- A Kato text generator and a line formatter (`kato/c2kato/generator/*.py`).

There is one Dafny module per source file. The code of each file keeps its own shape.
- Where the Python updates objects in place, the model does too:
  - the lexers, parsers, preprocessor, optimizer, code generators and the Kato generator are classes;
  - their fields are the source's cursors, sets, tables and indentation levels;
  - their methods carry loop invariants.
- Each such method is proved to compute a specification function of its inputs and its starting state, and to leave the state that function describes.
- The properties the code promises are lemmas about those functions.
- Pure code (the converters, the type mapper, the formatter and `compile_expr`) is written as functions with lemmas.

Conventions:
- Errors are `Result` values that carry a message, a line and a column. The message is a datatype, and `Messages.Text` renders its wording.
- A Python runtime error (`TypeError`, `IndexError`) is the error `Crash`.
- `None` in a statement list is an explicit `NoStatement` / `CNoStatement` variant.
- The keyword tables `lexer/tokens` and `c2kato/lexer/c_tokens` are not part of this model. They appear as parameters: a map from word to token kind, with a `WellFormed` precondition where a property depends on it.
- The C nodes' `str` is not part of this model either. It appears as a parameter `show` wherever the converters print a node.

Two behaviours of the code worth knowing:
- Imports are not resolved transitively. An exported function's file is lexed and parsed, but its own imports are not processed.
- A C declaration does not add its name to `declared_variables`. An expression in a C function body may use only the parameters and the declared functions.

## Model

| member | source | states |
|---|---|---|
| TextScan.LineAt | kato/lexer/lexer.py:35-42 | the line `advance` has reached after a prefix is at least 1 |
| TextScan.ColumnAt | kato/lexer/lexer.py:35-42 | the column `advance` has reached after `p` characters lies between 1 and `p + 1` |
| TextScan.LineCountsNewlines | kato/lexer/lexer.py:35-42 | the line number is one more than the number of newlines consumed |
| TextScan.SkipBlanks | kato/lexer/lexer.py:44-46 | `skip_whitespace` stops at the first character that is not a space, tab, carriage return or newline, or at the end, having passed only such characters |
| TextScan.CommentEnd | kato/lexer/lexer.py:48-53 | a `//` comment runs to just past the next newline (or to the end), containing no earlier newline |
| TextScan.NumberEnd | kato/lexer/lexer.py:103-110 | `read_number` consumes digits and dots with at most one dot, and stops at the first other character or at a second dot |
| TextScan.IdentEnd | kato/lexer/lexer.py:121-123 | `read_identifier` consumes the longest run of letters, digits and underscores |
| KatoLexer.Unescape | kato/lexer/lexer.py:66-80 | `\n`, `\t`, `\r` stand for control characters; every other escaped character, the backslash and the quote included, stands for itself |
| KatoLexer.StringFrom | kato/lexer/lexer.py:61-90 | a literal body read to its end finishes just after the closing quote and extends what was already read; it fails only with the unclosed-literal error naming the opening position, or a crash on a trailing backslash |
| KatoLexer.ScanString | kato/lexer/lexer.py:55-95 | a `'` literal is a CHAR token and a `"` literal a STRING token carrying the text, at the opening quote's line and column, ending after the matching quote |
| KatoLexer.StringFromPlain | kato/lexer/lexer.py:62-87 | a run free of the quote, backslashes and newlines is copied verbatim and the literal ends just after the quote |
| KatoLexer.StringFromNewline | kato/lexer/lexer.py:62-65 | a raw newline before the closing quote is the unclosed-literal error at the literal's start |
| KatoLexer.ScanNumber | kato/lexer/lexer.py:97-114 | a FLOAT_NUMBER exactly when a dot was consumed (keeping the lexeme); otherwise a NUMBER whose value is the decimal value of the digits; at the start position |
| KatoLexer.ScanIdentifier | kato/lexer/lexer.py:116-129 | the word's kind from the keyword table when it is a keyword, IDENTIFIER otherwise; the value is the word itself |
| KatoLexer.PairKind | kato/lexer/lexer.py:174-250 | each two-character operator (`==`, `++`, `--`, `//`, `<=`, `>=`, `!=`, `&&`, `\|\|`) has a kind whose symbol is exactly those two characters |
| KatoLexer.SingleKind | kato/lexer/lexer.py:153-230 | each one-character punctuation token has a kind whose symbol is that character; `!`, `&`, `\|` have none |
| KatoLexer.Operator | kato/lexer/lexer.py:153-255 | the punctuation branch yields one or two characters starting with the current one, the second being the lookahead, spelling the kind's symbol |
| KatoLexer.ScanOperator | kato/lexer/lexer.py:153-255 | an operator token is well formed and placed at its start; the unknown-character error happens exactly when no operator matches |
| KatoLexer.NextToken | kato/lexer/lexer.py:145-255 | a token read at a non-blank character advances the position and is placed at that character's line and column |
| KatoLexer.NextTokenShape | kato/lexer/lexer.py:145-255 | no token read from the text is EOF, and each carries a value of its kind's shape |
| KatoLexer.LexFromShape | kato/lexer/lexer.py:131-257 | from any point, a successful run ends with exactly one EOF token, at the final line and column, after well-formed tokens |
| KatoLexer.LexShape | kato/lexer/lexer.py:131-257 | every token list ends with exactly one EOF token at the end position and holds no other EOF |
| KatoLexer.SlashSlashRule | kato/lexer/lexer.py:138-141 | `//` is a comment before the first token or after `;`, `{` or `}`; anywhere else it is the DOUBLE_SLASH token |
| KatoLexer.TwoCharOperators | kato/lexer/lexer.py:174-250 | the two-character operators are read as single tokens |
| KatoLexer.LoneOperatorRejected | kato/lexer/lexer.py:231-255 | a `!`, `&` or `\|` not followed by its partner is the unknown-character error at its position |
| KatoLexer.Lexer.constructor | kato/lexer/lexer.py:16-22 | a new lexer is at position 0 with no tokens |
| KatoLexer.Lexer.Advance | kato/lexer/lexer.py:35-42 | moves one character on; a newline starts the next line at column 1, any other character moves one column; nothing moves at the end |
| KatoLexer.Lexer.SkipWhitespace | kato/lexer/lexer.py:44-46 | stops where `SkipBlanks` says |
| KatoLexer.Lexer.SkipComment | kato/lexer/lexer.py:48-53 | at `//` skips to `CommentEnd`; elsewhere does nothing |
| KatoLexer.Lexer.ReadString | kato/lexer/lexer.py:55-95 | returns the token or error of `ScanString` and stops where it does |
| KatoLexer.Lexer.ReadNumber | kato/lexer/lexer.py:97-114 | returns the token of `ScanNumber` and stops where it does |
| KatoLexer.Lexer.ReadIdentifier | kato/lexer/lexer.py:116-129 | returns the token of `ScanIdentifier` and stops where it does |
| KatoLexer.Lexer.ReadOperator | kato/lexer/lexer.py:147-255 | returns the token or error of `ScanOperator` |
| KatoLexer.Lexer.Tokenize | kato/lexer/lexer.py:131-257 | the loop produces exactly `LexFrom` of its starting state; on success `tokens` holds the returned list, EOF included |
| KatoLexer.Tokenize | kato/lexer/lexer.py:131-257 | lexing a whole text with a fresh lexer gives `Lex` of the text |
| KatoCursor.TokenAt | kato/parser/parser.py:19-28 | `current_token` / `peek_token`: the token at the position, or none exactly past the end |
| KatoCursor.ExpectAt | kato/parser/parser.py:33-48 | `expect` succeeds exactly when the current token has the expected kind, returning it and moving one on; otherwise the expected-kind error |
| KatoCursor.ExpectAtEnd | kato/parser/parser.py:35-40 | past the end, `expect` reports "reached end of file" at line 1, column 1 |
| KatoCursor.Parser.constructor | kato/parser/parser.py:8-17 | a new parser is at position 0 with no defined functions or variables |
| KatoCursor.Parser.Advance | kato/parser/parser.py:30-31 | moves one token on |
| KatoCursor.Parser.Expect | kato/parser/parser.py:33-48 | agrees with `ExpectAt`; on success returns the current token and moves one on |
| KatoExprParser.Additive | kato/parser/expression_parser.py:15-25 | a parsed sum consumes at least one token and stays within the tokens |
| KatoExprParser.AdditiveRest | kato/parser/expression_parser.py:18-25 | the `+`/`-` loop never moves backwards |
| KatoExprParser.Multiplicative | kato/parser/expression_parser.py:27-47 | a parsed term consumes at least one token |
| KatoExprParser.MultiplicativeRest | kato/parser/expression_parser.py:30-47 | the `*`, `/`, `//`, `%` loop never moves backwards |
| KatoExprParser.MultiplicativeOperand | kato/parser/expression_parser.py:38-45 | one turn of the loop: `//` for DOUBLE_SLASH, the token's text otherwise, and the primary after it; it consumes the operator and at least one more token |
| KatoExprParser.MultiplicativeStep | kato/parser/expression_parser.py:30-47 | the loop is one turn followed by the rest of the loop, and fails with the turn's error |
| KatoExprParser.Primary | kato/parser/expression_parser.py:49-105 | a parsed operand consumes at least one token |
| KatoExprParser.NamePrimary | kato/parser/expression_parser.py:64-74 | a name, indexed when `[` follows it, consumes at least one token |
| KatoExprParser.StarredPrimary | kato/parser/expression_parser.py:75-88 | a starred name `*x*` or `*x[i]*` consumes at least one token |
| KatoExprParser.Comparison | kato/parser/expression_parser.py:107-131 | a parsed condition consumes at least one token |
| KatoExprParser.ArithmeticSpelling | kato/parser/expression_parser.py:18-45 | the operator text taken from a `+ - * / // %` token is an arithmetic operator |
| KatoExprParser.ComparisonSpelling | kato/parser/expression_parser.py:111-112 | the operator text taken from a comparison token is a comparison operator |
| KatoExprParser.AdditiveIsArithmetic | kato/parser/expression_parser.py:12-25 | `parse_expression` never yields a comparison anywhere in the tree |
| KatoExprParser.AdditiveRestIsArithmetic | kato/parser/expression_parser.py:18-25 | the additive loop keeps an arithmetic tree arithmetic |
| KatoExprParser.MultiplicativeIsArithmetic | kato/parser/expression_parser.py:27-47 | a term holds no comparison |
| KatoExprParser.MultiplicativeRestIsArithmetic | kato/parser/expression_parser.py:30-47 | the multiplicative loop keeps an arithmetic tree arithmetic |
| KatoExprParser.PrimaryIsArithmetic | kato/parser/expression_parser.py:49-105 | an operand holds no comparison |
| KatoExprParser.ComparisonShape | kato/parser/expression_parser.py:107-131 | a condition holds at most one comparison, at its top, between arithmetic operands, never a name against a string literal either way round |
| KatoExprParser.NameTerm | kato/parser/expression_parser.py:27-74 | a plain name followed by no multiplicative operator is a whole term |
| KatoExprParser.LeftAssociative | kato/parser/expression_parser.py:15-25 | `a - b - c` groups as `(a - b) - c` |
| KatoExprParser.MultiplicationBindsTighter | kato/parser/expression_parser.py:15-47 | `a + b * c` groups as `a + (b * c)` |
| KatoExprParser.PrimaryNotBinary | kato/parser/expression_parser.py:49-105 | an operand that does not start with `(` is never an operator node |
| KatoExprParser.MultiplicativeRestShape | kato/parser/expression_parser.py:30-47 | the `*`, `/`, `//`, `%` loop extends a product to the left with one operand on the right |
| KatoExprParser.MultiplicativeShape | kato/parser/expression_parser.py:27-47 | every term is a left-grouped chain of `*`, `/`, `//`, `%` over single operands, when no operand is parenthesised |
| KatoExprParser.AdditiveRestShape | kato/parser/expression_parser.py:18-25 | the `+`/`-` loop extends a sum to the left with a product on the right |
| KatoExprParser.AdditiveShape | kato/parser/expression_parser.py:15-47 | for every token list whose operands are not parenthesised: `+` and `-` never sit under a multiplicative operator, and both levels group to the left |
| KatoExprParser.StarredNameIsName | kato/parser/expression_parser.py:75-88 | `*x*` reads the plain name `x` |
| KatoExprParser.StarredNameEndsChain | kato/parser/expression_parser.py:31-36 | a multiplicative chain stops in front of `* IDENT *` and leaves it to the caller |
| KatoExprParser.ExpectedExpressionError | kato/parser/expression_parser.py:49-105 | past the end the parser fails reading `.type` of `None`; a token that cannot start an operand is reported at its own line and column |
| KatoExprParser.ExpressionParser.constructor | kato/parser/expression_parser.py:9-10 | the expression parser shares the parser's cursor |
| KatoExprParser.ExpressionParser.ParseExpression | kato/parser/expression_parser.py:12-13 | agrees with `Additive` |
| KatoExprParser.ExpressionParser.ParseAdditive | kato/parser/expression_parser.py:15-25 | agrees with `Additive`: same tree or error, same final position |
| KatoExprParser.ExpressionParser.ParseMultiplicative | kato/parser/expression_parser.py:27-47 | agrees with `Multiplicative` |
| KatoExprParser.ExpressionParser.ParsePrimary | kato/parser/expression_parser.py:49-105 | agrees with `Primary` |
| KatoExprParser.ExpressionParser.ParseMultiplicativeOperand | kato/parser/expression_parser.py:38-45 | agrees with `MultiplicativeOperand` |
| KatoExprParser.ExpressionParser.ParseName | kato/parser/expression_parser.py:64-74 | agrees with `NamePrimary` |
| KatoExprParser.ExpressionParser.ParseGroup | kato/parser/expression_parser.py:89-93 | agrees with `GroupPrimary`: the inner expression, with the closing `)` required |
| KatoExprParser.ExpressionParser.ParseInpt | kato/parser/expression_parser.py:94-99 | agrees with `InptPrimary`: `inpt`, `(`, the prompt expression, `)` |
| KatoExprParser.ExpressionParser.ParseStarred | kato/parser/expression_parser.py:75-88 | agrees with `StarredPrimary` |
| KatoExprParser.ExpressionParser.ParseStarredIndex | kato/parser/expression_parser.py:82-85 | agrees with `StarredIndex`: the index expression, `]`, `*`, giving the element access |
| KatoExprParser.ExpressionParser.ParseComparison | kato/parser/expression_parser.py:107-131 | agrees with `Comparison` |
| KatoStmtParser.Statement | kato/parser/statement_parser.py:14-42 | a parsed statement consumes at least one token |
| KatoStmtParser.PrintStmt | kato/parser/statement_parser.py:44-70 | `print ( args ) ;` gives a print statement and consumes at least one token |
| KatoStmtParser.Terminator | kato/parser/statement_parser.py:61-68 | the closing `;` is accepted exactly when it is there, and then only it is consumed |
| KatoStmtParser.ValueEnd | kato/parser/statement_parser.py:76-85 | an expression and its `;` consume at least one token |
| KatoStmtParser.PrintRest | kato/parser/statement_parser.py:49-70 | the arguments, `)` and `;` of `print` give a print statement and consume at least one token |
| KatoStmtParser.PrintArgs | kato/parser/statement_parser.py:50-57 | the argument loop of `print` never moves backwards |
| KatoStmtParser.ReturnStmt | kato/parser/statement_parser.py:72-87 | `return expr ;` gives a return statement carrying a value |
| KatoStmtParser.VarDecl | kato/parser/statement_parser.py:89-128 | a declaration names a variable not yet defined and adds exactly that name to the defined variables |
| KatoStmtParser.CallStmt | kato/parser/statement_parser.py:130-171 | a call statement names a defined function or the builtin `print` |
| KatoStmtParser.CallRest | kato/parser/statement_parser.py:153-171 | the arguments, `)` and `;` of a call give a call of the named function and consume at least one token |
| KatoStmtParser.CallArgs | kato/parser/statement_parser.py:154-158 | the argument loop of `call` never moves backwards |
| KatoStmtParser.IfStmt | kato/parser/statement_parser.py:173-204 | an `if` statement consumes at least one token |
| KatoStmtParser.GuardedBody | kato/parser/statement_parser.py:176-182 | the condition and braced body after `if` or `elif` consume at least one token |
| KatoStmtParser.Elifs | kato/parser/statement_parser.py:184-193 | the `elif` loop never moves backwards |
| KatoStmtParser.ElsePart | kato/parser/statement_parser.py:195-202 | without `else` nothing is consumed and no variable is defined |
| KatoStmtParser.Body | kato/parser/statement_parser.py:178-182 | a block consumes at least its closing `}` |
| KatoStmtParser.Block | kato/parser/statement_parser.py:180-181 | the statement loop of a block never moves backwards |
| KatoStmtParser.AssignStmt | kato/parser/statement_parser.py:206-232 | an assignment is to a defined variable |
| KatoStmtParser.StepStmt | kato/parser/statement_parser.py:251-299 | `name++ ;` is an increment and `name-- ;` a decrement, of a defined variable |
| KatoStmtParser.WhileStmt | kato/parser/statement_parser.py:234-249 | a `while` statement consumes at least one token |
| KatoStmtParser.WhileHead | kato/parser/statement_parser.py:235-241 | `while ( condition ) {` consumes at least one token |
| KatoStmtParser.StatementParser.constructor | kato/parser/statement_parser.py:10-12 | the statement parser shares the parser's cursor and expression parser |
| KatoStmtParser.StatementParser.ParseStatement | kato/parser/statement_parser.py:14-42 | agrees with `Statement`: same statement or error, same position and defined variables |
| KatoStmtParser.StatementParser.ParsePrintStatement | kato/parser/statement_parser.py:44-70 | agrees with `PrintStmt` |
| KatoStmtParser.StatementParser.ParsePrintRest | kato/parser/statement_parser.py:49-70 | agrees with `PrintRest` |
| KatoStmtParser.StatementParser.ParseValueEnd | kato/parser/statement_parser.py:76-85 | agrees with `ValueEnd` |
| KatoStmtParser.StatementParser.ParseCallRest | kato/parser/statement_parser.py:153-171 | agrees with `CallRest` |
| KatoStmtParser.StatementParser.ParseReturnStatement | kato/parser/statement_parser.py:72-87 | agrees with `ReturnStmt` |
| KatoStmtParser.StatementParser.ParseVarDeclaration | kato/parser/statement_parser.py:89-128 | agrees with `VarDecl`, including the variable it defines |
| KatoStmtParser.StatementParser.ParseVarHead | kato/parser/statement_parser.py:90-111 | agrees with `VarHead`: a variable type, then a name not yet defined, three tokens on; the whole declaration then fails with its error, or is `VarRest` from there |
| KatoStmtParser.StatementParser.ParseVarRest | kato/parser/statement_parser.py:113-128 | agrees with `VarRest`: the name is defined, then `=`, the value and `;` follow |
| KatoStmtParser.StatementParser.ParseCallStatement | kato/parser/statement_parser.py:130-171 | agrees with `CallStmt` |
| KatoStmtParser.StatementParser.ParseBody | kato/parser/statement_parser.py:178-182 | agrees with `Body` |
| KatoStmtParser.StatementParser.ParseIfStatement | kato/parser/statement_parser.py:173-204 | agrees with `IfStmt` |
| KatoStmtParser.StatementParser.ParseIfRest | kato/parser/statement_parser.py:184-204 | agrees with `IfRest`: the `elif` loop, then the optional `else` part, around the condition and body already read |
| KatoStmtParser.StatementParser.ParseGuardedBody | kato/parser/statement_parser.py:176-182 | agrees with `GuardedBody`, including the variables defined after it |
| KatoStmtParser.StatementParser.ParsePrintArguments | kato/parser/statement_parser.py:49-57 | agrees with `PrintArgs` |
| KatoStmtParser.StatementParser.ParseCallArguments | kato/parser/statement_parser.py:153-158 | agrees with `CallArgs` |
| KatoStmtParser.StatementParser.ParseElifParts | kato/parser/statement_parser.py:184-193 | agrees with `Elifs` |
| KatoStmtParser.StatementParser.ParseElsePart | kato/parser/statement_parser.py:195-202 | agrees with `ElsePart` |
| KatoStmtParser.StatementParser.ParseAssignment | kato/parser/statement_parser.py:206-232 | agrees with `AssignStmt` |
| KatoStmtParser.StatementParser.ParseWhileStatement | kato/parser/statement_parser.py:234-249 | agrees with `WhileStmt` |
| KatoStmtParser.StatementParser.ParseWhileHead | kato/parser/statement_parser.py:235-241 | agrees with `WhileHead` |
| KatoStmtParser.StatementParser.ParseIncrement | kato/parser/statement_parser.py:251-274 | agrees with `StepStmt` for `++` |
| KatoStmtParser.StatementParser.ParseDecrement | kato/parser/statement_parser.py:276-299 | agrees with `StepStmt` for `--` |
| KatoScope.ObeysThen | kato/parser/statement_parser.py:106-113 | two pieces of code that each keep the scope rules keep them in sequence |
| KatoScope.StatementObeys | kato/parser/statement_parser.py:14-42 | every statement the parser accepts declares only fresh names (each once), writes only defined variables and calls only defined functions or builtins, and leaves exactly the old variables plus its declarations defined |
| KatoScope.FlatStatementObeys | kato/parser/statement_parser.py:14-42 | an accepted statement without a body keeps the scope rules: a declaration defines exactly its new name, any other statement defines nothing |
| KatoScope.SimpleObeys | kato/parser/statement_parser.py:130-299 | a print, return, call, assignment, increment or decrement whose names the parser checked declares nothing and keeps the rules |
| KatoScope.IfObeys | kato/parser/statement_parser.py:173-204 | an accepted `if` statement keeps the scope rules across its if, elif and else bodies |
| KatoScope.IfRestObeys | kato/parser/statement_parser.py:184-204 | after a body that keeps the scope rules, the accepted `elif` and `else` parts complete an `if` statement that keeps them |
| KatoScope.IfPartsObey | kato/parser/statement_parser.py:173-204 | an `if` statement whose body, `elif` parts and `else` part keep the scope rules one after another keeps them |
| KatoScope.GuardedObeys | kato/parser/statement_parser.py:176-182 | the body after an `if` or `elif` condition keeps the scope rules |
| KatoScope.ElifsObeys | kato/parser/statement_parser.py:184-193 | the `elif` loop keeps the scope rules |
| KatoScope.ElseObeys | kato/parser/statement_parser.py:195-202 | the `else` part keeps the scope rules |
| KatoScope.WhileObeys | kato/parser/statement_parser.py:234-249 | an accepted `while` statement keeps the scope rules |
| KatoScope.BodyObeys | kato/parser/statement_parser.py:178-182 | an accepted block keeps the scope rules |
| KatoScope.BlockObeys | kato/parser/statement_parser.py:180-181 | the statement loop of a block keeps the scope rules |
| KatoParser.Params | kato/parser/parser.py:89-97 | the parameter loop never moves backwards |
| KatoParser.FunctionHead | kato/parser/parser.py:75-104 | the function header consumes at least one token |
| KatoParser.FunctionName | kato/parser/parser.py:75-85 | on success the name is the identifier after `function`, two tokens on, and is neither defined nor a builtin |
| KatoParser.FunctionParams | kato/parser/parser.py:87-104 | on success the header keeps the given name, consumes at least the `(`, and `main` has no parameters |
| KatoParser.FunctionBody | kato/parser/parser.py:112-133 | a function body consumes at least its closing `}` |
| KatoParser.FunctionDef | kato/parser/parser.py:74-135 | a parsed function consumes at least one token |
| KatoParser.SoundAppend | kato/parser/parser.py:53-55 | appending a function with a new name, a parameterless `main` and a scoped body to sound functions keeps them sound |
| KatoParser.FunctionBodyObeys | kato/parser/parser.py:108-133 | the statements of a function body declare fresh names only, write defined variables only and call known functions only; the variables defined at the `}` are those before the body plus its declarations |
| KatoParser.FunctionDefSound | kato/parser/parser.py:74-135 | a parsed function has a name neither defined before nor a builtin, `main` has no parameters, its body is scoped by its parameters and the functions defined up to and including itself, and the variables defined at its end are exactly its parameters and its body's declarations |
| KatoParser.FunctionsSound | kato/parser/parser.py:53-62 | the function loop keeps the parsed functions sound |
| KatoParser.ParseSound | kato/parser/parser.py:50-72 | every accepted program has a `main`, distinct function names, none a builtin, a parameterless `main`, and each body keeps the scope rules |
| KatoParser.ParseRejects | kato/parser/parser.py:53-70 | code before the first `function` is rejected at its position; a program with no function lacks `main` (error at line 1, column 1) |
| KatoParser.ProgramParser.constructor | kato/parser/parser.py:8-17 | a new parser starts at token 0 with no functions or variables defined |
| KatoParser.ProgramParser.Parse | kato/parser/parser.py:50-72 | the loop produces exactly `ProgramFrom` of its starting state; on success the defined functions grow by exactly the parsed functions' names and the cursor stands at EOF or the end |
| KatoParser.ProgramParser.ParseFunction | kato/parser/parser.py:74-135 | agrees with `FunctionDef` in result, cursor and defined variables, and adds exactly the new function's name to the defined functions |
| KatoParser.ProgramParser.ParseFunctionHead | kato/parser/parser.py:75-104 | agrees with `FunctionHead` |
| KatoParser.ProgramParser.ParseFunctionRest | kato/parser/parser.py:106-135 | agrees with `FunctionRest` in result, cursor and defined variables; the defined functions gain exactly the function's name, and the parsed function carries that name |
| KatoParser.ProgramParser.ParseFunctionName | kato/parser/parser.py:75-85 | agrees with `FunctionName` |
| KatoParser.ProgramParser.ParseFunctionParams | kato/parser/parser.py:87-104 | agrees with `FunctionParams` |
| KatoParser.ProgramParser.ParseParamList | kato/parser/parser.py:89-104 | agrees with `ParamList`: the parameters, the `)`, and the error when `main` has parameters |
| KatoParser.ProgramParser.ParseParameters | kato/parser/parser.py:89-97 | agrees with `Params` |
| KatoParser.ProgramParser.DefineParameters | kato/parser/parser.py:108-110 | the defined variables become exactly the parameters |
| KatoParser.ProgramParser.ParseFunctionBody | kato/parser/parser.py:112-133 | agrees with `FunctionBody` in result, cursor and the defined variables the body's declarations leave |
| Preprocessor.KeptLines | kato/compiler/preprocessor.py:43-52 | the lines kept by `remove_imports` hold no import line and are no more than the input |
| Preprocessor.ImportsPartition | kato/compiler/preprocessor.py:28-52 | every line is either extracted as an import or kept, never both |
| Preprocessor.NoImportLines | kato/compiler/preprocessor.py:28-52 | a source without import lines is kept whole and yields no imports |
| Preprocessor.KeptSingleLines | kato/compiler/preprocessor.py:43-52 | keeping lines keeps them free of line breaks |
| Preprocessor.LinesOfRemoved | kato/compiler/preprocessor.py:43-52 | the lines of the text `remove_imports` returns are exactly the kept lines |
| Preprocessor.RemoveImportsIdempotent | kato/compiler/preprocessor.py:43-52 | removing imports twice changes nothing more |
| Preprocessor.ExtractAfterRemove | kato/compiler/preprocessor.py:28-52 | nothing is left to extract once the imports are removed |
| Preprocessor.ExportOfLineSpec | kato/compiler/preprocessor.py:81-94 | a manifest line is rejected exactly when it is an export line without ` from `, with the invalid-export error; a line that is not an export line yields nothing |
| Preprocessor.ExportsOfSpec | kato/compiler/preprocessor.py:76-96 | a manifest is accepted exactly when every export line has ` from `, and then yields one entry per export line; otherwise the error names the manifest at line 1, column 1 |
| Preprocessor.FirstNamed | kato/compiler/preprocessor.py:126-145 | the first function with the exported name, or none when no function has it |
| Preprocessor.ConsistentAdd | kato/compiler/preprocessor.py:137-144 | recording a function under a new name other than `main` keeps the imported map and the function list in step |
| Preprocessor.ExportStepKeeps | kato/compiler/preprocessor.py:98-151 | a successful export either was already processed and changes nothing, or records exactly the exported function; the state stays consistent and only grows |
| Preprocessor.ExportAllKeeps | kato/compiler/preprocessor.py:73-74 | the export loop keeps the state consistent and only growing, and leaves the standard-library set alone |
| Preprocessor.ImportAllKeeps | kato/compiler/preprocessor.py:15-26 | preprocessing keeps the state consistent and only growing; only `filesystem` joins the standard-library set, and it does when imported |
| Preprocessor.Memoised | kato/compiler/preprocessor.py:63-64 | a manifest already processed, or a function already exported from a file, is skipped without any change |
| Preprocessor.Preprocessor.constructor | kato/compiler/preprocessor.py:7-13 | the base directory is the main file's parent and every record starts empty |
| Preprocessor.Preprocessor.ExtractImports | kato/compiler/preprocessor.py:28-41 | the loop returns the import path of every import line, in order |
| Preprocessor.Preprocessor.RemoveImports | kato/compiler/preprocessor.py:43-52 | the loop returns the non-import lines joined by newlines |
| Preprocessor.Preprocessor.ParseKhFile | kato/compiler/preprocessor.py:76-96 | the loop returns the manifest's export entries, or the error for the first export line without ` from ` |
| Preprocessor.Preprocessor.Process | kato/compiler/preprocessor.py:15-26 | returns the source without imports and the imported functions, and reaches the state `Preprocess` describes; any error of an import is returned |
| Preprocessor.Preprocessor.ProcessImport | kato/compiler/preprocessor.py:54-74 | reaches the state and result of `ImportStep`: missing file error, skip when processed, else every export of the manifest |
| Preprocessor.Preprocessor.ProcessExport | kato/compiler/preprocessor.py:98-151 | reaches the state and result of `ExportStep`: missing file, skip when processed, the first function of that name recorded, `main`, a duplicate or a missing function rejected |
| Optimizer.UpToReturnSpec | kato/compiler/optimizer.py:27-40 | the cut body is a prefix of the body in which only the last statement may be a `return`, and a cut body shorter than the body ends with a `return` |
| Optimizer.NoReturnUnchanged | kato/compiler/optimizer.py:31-38 | a body without a top-level `return` is kept whole |
| Optimizer.UpToReturnAt | kato/compiler/optimizer.py:31-38 | one step of the cut: a `return` ends the body, any other statement is kept and the cut goes on |
| Optimizer.CutAtFirstReturn | kato/compiler/optimizer.py:31-38 | a body is kept up to and including its first top-level `return` |
| Optimizer.UpToReturnIdempotent | kato/compiler/optimizer.py:27-40 | cutting twice cuts nothing more |
| Optimizer.OptimizeProgramSpec | kato/compiler/optimizer.py:11-25 | optimizing keeps the number, order, names and parameters of the functions; only `main` changes, cut after its first `return` |
| Optimizer.OptimizeIdempotent | kato/compiler/optimizer.py:11-40 | optimizing an optimized program changes nothing |
| Optimizer.Optimizer.constructor | kato/compiler/optimizer.py:8-9 | the optimizer holds the program |
| Optimizer.Optimizer.Optimize | kato/compiler/optimizer.py:11-25 | the loop returns `OptimizeProgram` of the program |
| Optimizer.Optimizer.OptimizeMain | kato/compiler/optimizer.py:27-40 | keeps the name and parameters and cuts the body after its first `return` |
| ExpressionCodegen.ReplaceAllOneChar | kato/compiler/codegen/expressions.py:13 | a `replace` of a one-character pattern rewrites every character independently |
| ExpressionCodegen.EscapeIsReplaceChain | kato/compiler/codegen/expressions.py:13 | the chain of five `replace` calls, in source order, escapes each character on its own: no replacement rewrites the output of an earlier one |
| ExpressionCodegen.EscapeSafe | kato/compiler/codegen/expressions.py:13-14 | an escaped string literal holds no raw newline, and every double quote in it is preceded by a backslash, so the emitted C literal is not cut short |
| ExpressionCodegen.StringFromEscape | kato/compiler/codegen/expressions.py:13-14 | the lexer's string reader reads the escaped text and its closing quote back as the original value |
| ExpressionCodegen.LexStringLiteral | kato/compiler/codegen/expressions.py:13-14 | round trip: lexing the literal emitted for any string gives one STRING token holding that string, then EOF |
| ExpressionCodegen.CompileExprFails | kato/compiler/codegen/expressions.py:11-50 | `compile_expr` fails exactly when the expression holds an empty character literal, and then with the `IndexError` of `expr.value[0]` |
| ExpressionCodegen.CompileEachFails | kato/compiler/codegen/expressions.py:46-48 | compiling a list of arguments fails exactly when one holds an empty character literal; otherwise it gives one text per argument |
| ExpressionCodegen.TypeOnlyForInput | kato/compiler/codegen/expressions.py:33-45 | the declared type changes the output only for an expression that holds an `inpt` call reached with that type |
| ExpressionCodegen.CharLiteralFirst | kato/compiler/codegen/expressions.py:15-19 | a non-empty character literal is emitted as its first character in single quotes |
| StatementText.CType | kato/compiler/codegen/statements.py:144-150 | the C type is one of `int`, `float`, `char`, `char*`: `string` becomes `char*`, the three scalar types stay, anything else is `int` |
| StatementText.Specifier | kato/compiler/codegen/statements.py:59-67 | a printf conversion exists exactly for the four Kato types |
| StatementText.WordEnd | kato/compiler/codegen/statements.py:50-51 | the end of a run of word characters: every character before it is a word character and the one at it is not |
| StatementText.MarkersSound | kato/compiler/codegen/statements.py:50-51 | every marker `findall` returns is a non-empty run of word characters that stands between two stars in the text |
| StatementText.NoStarNoMarkers | kato/compiler/codegen/statements.py:50-51 | a text without stars holds no marker |
| StatementText.SingleMarker | kato/compiler/codegen/statements.py:50-51 | a text that is one marker yields exactly its name |
| StatementText.FillArgs | kato/compiler/codegen/statements.py:56-69 | the arguments a print string adds are its marker names that have a recorded type, in order |
| StatementText.FillShift | kato/compiler/codegen/statements.py:56-69 | filling the markers appends to the arguments gathered so far and does not depend on them |
| StatementText.FillUnknown | kato/compiler/codegen/statements.py:56-69 | a print string whose markers all lack a recorded type is printed as written, with no argument |
| StatementText.PrintPartsAppend | kato/compiler/codegen/statements.py:46-114 | printing operands one after the other: the later operands' format pieces and arguments follow the earlier ones', and the first failure wins |
| StatementText.CombineAssociative | kato/compiler/codegen/statements.py:46-116 | gathering the format pieces and arguments is associative, so the order in which runs of operands are grouped does not matter |
| StatementText.PrintArgumentCount | kato/compiler/codegen/statements.py:46-123 | the printf call has one argument per number, float, identifier, array element and arithmetic operand, plus one per marker with a recorded type |
| StatementText.EmptyElseOmitted | kato/compiler/codegen/statements.py:205-211 | an empty else body emits nothing, just like a missing one |
| StatementText.StmtRecords | kato/compiler/codegen/statements.py:16-38 | after a statement the variable table holds exactly the names it held and the names the statement declares, each declared name with its declared type, every other name unchanged |
| StatementText.BlockRecords | kato/compiler/codegen/functions.py:25-26 | the same holds for a whole body: the table after it records exactly the declarations of its statements, the later ones winning |
| StatementText.IfRecords | kato/compiler/codegen/statements.py:186-214 | the bodies of an `if`, its elif parts and its else body declare into the same table, which records all their declarations |
| StatementText.ElifsRecords | kato/compiler/codegen/statements.py:196-203 | the elif parts' bodies record their declarations in order |
| StatementText.ElseRecords | kato/compiler/codegen/statements.py:205-211 | the else body records its declarations |
| FunctionText.ParamDecls | kato/compiler/codegen/functions.py:8 | one `char* p` per parameter, in order |
| FunctionText.SignatureShape | kato/compiler/codegen/functions.py:6-10 | every function returns `int` and takes its parameters as `char*`, comma-separated, in order; none gives `()` |
| FunctionText.ParamTypesSpec | kato/compiler/codegen/functions.py:13-17 | the table a function body starts from holds exactly its parameters, each typed `string` |
| FunctionText.FunctionFraming | kato/compiler/codegen/functions.py:12-31 | a compiled function starts with its signature and ` {` on a line and ends with `}` |
| FunctionText.DeclarationsAppend | kato/compiler/compiler.py:22-24 | forward declarations follow program order |
| FunctionText.OnlyMainNoDeclarations | kato/compiler/compiler.py:22-24 | `main` is never declared ahead |
| FunctionText.DeclarationsFromIs | kato/compiler/compiler.py:22-24 | the declaration loop appends the declarations of the remaining functions to what it has |
| FunctionText.DefinitionsAppend | kato/compiler/compiler.py:28-30 | definitions follow program order, each followed by a blank line, and the first failure wins |
| FunctionText.DefinitionsFromIs | kato/compiler/compiler.py:28-30 | the definition loop appends the definitions of the remaining functions to what it has |
| FunctionText.ProgramLayout | kato/compiler/compiler.py:17-32 | a program is the three `#include` lines, the forward declarations, a blank line, then every definition |
| Compiler.CCompiler.constructor | kato/compiler/compiler.py:4-12 | a compiler starts at level 0 with an empty variable table |
| Compiler.CCompiler.Compile | kato/compiler/compiler.py:17-32 | `compile` emits exactly the program layout above and returns to its starting level |
| Compiler.FunctionCodegen.constructor | kato/compiler/codegen/functions.py:2-4 | the function code generator shares the compiler of its statement code generator |
| Compiler.FunctionCodegen.CompileFunction | kato/compiler/codegen/functions.py:12-31 | the text of the function at the current level; the table is reset to the parameters and is left as the body's declarations made it; the level is restored |
| Compiler.StatementCodegen.constructor | kato/compiler/codegen/statements.py:12-14 | the statement code generator works on the given compiler |
| Compiler.StatementCodegen.CompileStatement | kato/compiler/codegen/statements.py:16-38 | the text of any statement, `None` for one it does not handle; the level is restored and the table records the statement's declarations |
| Compiler.StatementCodegen.CompileBody | kato/compiler/codegen/statements.py:191-192 | the loop over a body gives the body's text, fails on a statement without text, and leaves the table as the body's declarations made it |
| Compiler.StatementCodegen.CompilePrint | kato/compiler/codegen/statements.py:40-123 | one `printf` with the escaped, joined format pieces and the gathered arguments, which are omitted when there are none |
| Compiler.StatementCodegen.CompileOperand | kato/compiler/codegen/statements.py:46-114 | one loop iteration: the operand's format piece, its arguments appended to those gathered |
| Compiler.StatementCodegen.CompileReturn | kato/compiler/codegen/statements.py:125-135 | `return` of a number, a float cast to `int`, `0` for a string, a name; `None` for anything else |
| Compiler.StatementCodegen.ReadStatements | kato/compiler/codegen/statements.py:153-166 | the `scanf` or `fgets` statements that read a value of the declared type, with a 4096-byte buffer for a new string |
| Compiler.StatementCodegen.CompileVarDeclaration | kato/compiler/codegen/statements.py:137-171 | a declaration with its C type, read from input or initialised by the compiled value; the table records the declared type |
| Compiler.StatementCodegen.CompileCall | kato/compiler/codegen/statements.py:173-184 | the call with its compiled arguments, comma-separated |
| Compiler.StatementCodegen.CompileArguments | kato/compiler/codegen/statements.py:178-180 | the loop compiles every argument, in order, and fails exactly when `compile_expr` fails on one |
| Compiler.StatementCodegen.CompileIf | kato/compiler/codegen/statements.py:186-214 | the `if`, ` else if` and `else` blocks, each body one level deeper, the level restored after each; the table records the declarations of every body |
| Compiler.StatementCodegen.CompileElifs | kato/compiler/codegen/statements.py:196-203 | the loop appends exactly the ` else if` blocks `ElifsFrom` gives, in order; on success the level is restored and the table holds every branch's declarations |
| Compiler.StatementCodegen.CompileElse | kato/compiler/codegen/statements.py:205-211 | appends exactly the ` else` block `ElseCode` gives, nothing for an absent or empty `else`; on success the level is restored and the table holds the body's declarations |
| Compiler.StatementCodegen.CompileAssignment | kato/compiler/codegen/statements.py:216-239 | the assignment, with the recorded type of the name (`int` when there is none) choosing how input is read |
| Compiler.StatementCodegen.CompileWhile | kato/compiler/codegen/statements.py:241-251 | the `while` block with its body one level deeper, the level restored |
| Compiler.StatementCodegen.CompileArrayDeclaration | kato/compiler/codegen/statements.py:259-281 | a C array whose size is the number of elements, each compiled with the element type; the table records the element type |
| Compiler.StatementCodegen.CompileArrayAssignment | kato/compiler/codegen/statements.py:283-288 | the element assignment with compiled index and value |
| CTokens.Symbol | kato/c2kato/lexer/c_lexer.py:134-231 | a punctuation or operator kind is spelled with one or two fixed characters |
| CTokens.KeywordsAreWords | kato/c2kato/lexer/c_lexer.py:107-111 | keywords and identifiers carry their text and have no fixed spelling |
| CLexer.BlockEnd | kato/c2kato/lexer/c_lexer.py:46-51 | a block comment ends just after the first `*/` after its opening, or at the end of the source when there is none |
| CLexer.SkipCommentEnd | kato/c2kato/lexer/c_lexer.py:37-51 | skipping a comment always consumes at least its two opening characters |
| CLexer.UnclosedBlockComment | kato/c2kato/lexer/c_lexer.py:43-51 | a block comment that is never closed runs to the end of the source, without error |
| CLexer.BodyEnd | kato/c2kato/lexer/c_lexer.py:60-69 | the body of a literal ends at its closing quote or at the end of the source |
| CLexer.UnclosedLiteral | kato/c2kato/lexer/c_lexer.py:60-72 | a literal whose quote never comes again runs to the end of the source, without error |
| CLexer.EscapedQuoteKept | kato/c2kato/lexer/c_lexer.py:61-66 | a backslash and the quote after it stay in the body and do not close the literal |
| CLexer.ScanString | kato/c2kato/lexer/c_lexer.py:53-77 | `'` gives CHAR and `"` gives STRING, the value is the raw body with escapes kept, the closing quote is consumed when present, and the token is placed at the opening quote |
| CLexer.ScanNumber | kato/c2kato/lexer/c_lexer.py:79-96 | the lexeme is FLOAT_NUMBER exactly when it holds a dot; otherwise NUMBER, all digits, with their value |
| CLexer.ScanIdentifier | kato/c2kato/lexer/c_lexer.py:98-111 | the word is the keyword's kind when the keyword table has it and IDENTIFIER otherwise, with its text as value |
| CLexer.PairKind | kato/c2kato/lexer/c_lexer.py:161-231 | the two-character operators are `==`, `++`, `--`, `<=`, `>=`, `!=`, `&&`, `\|\|`, each spelled by its two characters |
| CLexer.SingleKind | kato/c2kato/lexer/c_lexer.py:134-224 | exactly the characters `#{}()[];,=+-*/%<>&` have a one-character token |
| CLexer.Operator | kato/c2kato/lexer/c_lexer.py:134-233 | an operator token is spelled by the current character, followed by the next one when it makes a pair |
| CLexer.ScanOperator | kato/c2kato/lexer/c_lexer.py:134-233 | the punctuation branch always moves on and places its token at the current character |
| CLexer.NextToken | kato/c2kato/lexer/c_lexer.py:124-233 | each step of `tokenize` moves on and places its token at its first character |
| CLexer.NextTokenShape | kato/c2kato/lexer/c_lexer.py:124-233 | no token read from the text is EOF, and each carries a value of its kind's shape |
| CLexer.LexStep | kato/c2kato/lexer/c_lexer.py:114-133 | after the blanks, a token read is appended or a dropped character is passed over, and lexing goes on |
| CLexer.LexComment | kato/c2kato/lexer/c_lexer.py:120-122 | a comment after the blanks is skipped and produces no token |
| CLexer.LexEnd | kato/c2kato/lexer/c_lexer.py:114-118 | when only blanks are left, EOF is appended at the line and column reached |
| CLexer.AppendShape | kato/c2kato/lexer/c_lexer.py:129-224 | appending a token read from the text keeps the list well formed and free of EOF |
| CLexer.AppendEnd | kato/c2kato/lexer/c_lexer.py:235 | appending EOF finishes the list |
| CLexer.LexFromShape | kato/c2kato/lexer/c_lexer.py:113-236 | `tokenize` keeps the tokens it had and ends with exactly one EOF token, placed at the end of the source |
| CLexer.LexShape | kato/c2kato/lexer/c_lexer.py:113-236 | a token list always ends with exactly one EOF token at the end of the source, and no other token is EOF |
| CLexer.CommentsAlwaysSkipped | kato/c2kato/lexer/c_lexer.py:120-122 | comments are skipped whatever precedes them |
| CLexer.SlashIsDivision | kato/c2kato/lexer/c_lexer.py:188-190 | a `/` that starts no comment is always SLASH |
| CLexer.SingleOperator | kato/c2kato/lexer/c_lexer.py:134-224 | a character with a one-character token and no partner after it gives that token and moves one on |
| CLexer.UnknownDropped | kato/c2kato/lexer/c_lexer.py:232-233 | a character that starts no token is dropped without error |
| CLexer.LoneOperators | kato/c2kato/lexer/c_lexer.py:210-231 | a lone `!` or `\|` is dropped, and a lone `&` is AMPERSAND |
| CLexer.CLexer.constructor | kato/c2kato/lexer/c_lexer.py:6-11 | a lexer starts at the beginning of its source, at line 1, column 1, with no tokens |
| CLexer.CLexer.Advance | kato/c2kato/lexer/c_lexer.py:24-31 | one character on, a newline moving to column 1 of the next line; nothing at the end of the source |
| CLexer.CLexer.SkipWhitespace | kato/c2kato/lexer/c_lexer.py:33-35 | the position moves past every blank |
| CLexer.CLexer.SkipComment | kato/c2kato/lexer/c_lexer.py:37-51 | at a comment the position moves to its end; elsewhere nothing moves |
| CLexer.CLexer.ReadString | kato/c2kato/lexer/c_lexer.py:53-77 | the loop reads the literal `ScanString` describes and ends where it says |
| CLexer.CLexer.ReadNumber | kato/c2kato/lexer/c_lexer.py:79-96 | the loop reads the number `ScanNumber` describes and ends where it says |
| CLexer.CLexer.ReadIdentifier | kato/c2kato/lexer/c_lexer.py:98-111 | the loop reads the word `ScanIdentifier` describes and ends where it says |
| CLexer.CLexer.ReadOperator | kato/c2kato/lexer/c_lexer.py:134-233 | the punctuation branch produces what `ScanOperator` describes |
| CLexer.CLexer.ReadToken | kato/c2kato/lexer/c_lexer.py:124-233 | one step of the loop produces what `NextToken` describes |
| CLexer.CLexer.Tokenize | kato/c2kato/lexer/c_lexer.py:113-236 | `tokenize` returns, and keeps in `tokens`, the token list of the source from where it stands |
| CLexer.Tokenize | kato/c2kato/lexer/c_lexer.py:113-236 | a fresh lexer produces the token list of the whole source |
| CAst.WithoutSkipped | kato/c2kato/converter/statement_converter.py:50 | removing the skipped-token placeholders leaves no placeholder and never lengthens a body |
| CAst.WithoutSkippedKeeps | kato/c2kato/converter/statement_converter.py:50 | removing the placeholders keeps exactly the other statements |
| CCursor.TokenAt | kato/c2kato/parser/c_parser.py:20-29 | the token at a position, `None` exactly past the end |
| CCursor.ExpectAt | kato/c2kato/parser/c_parser.py:34-41 | `expect` succeeds exactly on a token of the expected kind, giving it and the next position; otherwise its error |
| CCursor.ExpectAtEnd | kato/c2kato/parser/c_parser.py:36-37 | running out of tokens where one is expected is reported without a position |
| CCursor.CParser.constructor | kato/c2kato/parser/c_parser.py:10-18 | a parser starts at the first token with no declared functions, no current function and no declared variables |
| CCursor.CParser.Advance | kato/c2kato/parser/c_parser.py:31-32 | one token on |
| CCursor.CParser.Expect | kato/c2kato/parser/c_parser.py:34-41 | consumes a token of the expected kind and returns it, or fails as `ExpectAt` says without moving |
| CExprParser.LogicalOr | kato/c2kato/parser/expression_parser.py:15-24 | a parsed expression consumes at least one token and stays within the tokens |
| CExprParser.LogicalOrRest | kato/c2kato/parser/expression_parser.py:17-24 | the `\|\|` loop never moves backwards |
| CExprParser.LogicalAnd | kato/c2kato/parser/expression_parser.py:26-35 | a conjunction consumes at least one token |
| CExprParser.LogicalAndRest | kato/c2kato/parser/expression_parser.py:28-35 | the `&&` loop never moves backwards |
| CExprParser.Comparison | kato/c2kato/parser/expression_parser.py:37-46 | a comparison consumes at least one token |
| CExprParser.ComparisonRest | kato/c2kato/parser/expression_parser.py:39-46 | the comparison loop never moves backwards |
| CExprParser.Additive | kato/c2kato/parser/expression_parser.py:48-57 | a sum consumes at least one token |
| CExprParser.AdditiveRest | kato/c2kato/parser/expression_parser.py:50-57 | the `+`/`-` loop never moves backwards |
| CExprParser.Multiplicative | kato/c2kato/parser/expression_parser.py:59-68 | a product consumes at least one token |
| CExprParser.MultiplicativeRest | kato/c2kato/parser/expression_parser.py:61-68 | the `*`, `/`, `%` loop never moves backwards |
| CExprParser.MultiplicativeOperand | kato/c2kato/parser/expression_parser.py:63-66 | one turn of the loop: the operator's text and the primary after it; it consumes the operator and at least one more token |
| CExprParser.MultiplicativeStep | kato/c2kato/parser/expression_parser.py:62-66 | the loop is one turn followed by the rest of the loop, and fails with the turn's error |
| CExprParser.Primary | kato/c2kato/parser/expression_parser.py:70-118 | an operand consumes at least one token |
| CExprParser.NamePrimary | kato/c2kato/parser/expression_parser.py:95-111 | an operand that starts with a name consumes at least the name |
| CExprParser.ElementAt | kato/c2kato/parser/expression_parser.py:105-109 | an element consumes at least its `[` and is an array access of the given name |
| CExprParser.Call | kato/c2kato/parser/expression_parser.py:120-138 | a call consumes at least its parenthesis |
| CExprParser.CallArguments | kato/c2kato/parser/expression_parser.py:124-136 | the argument loop consumes at least the closing parenthesis |
| CExprParser.OperatorSpelling | kato/c2kato/parser/expression_parser.py:15-68 | the operator of every binary node is the text of an operator token |
| CExprParser.LogicalOrWellFormed | kato/c2kato/parser/expression_parser.py:15-24 | every name in a parsed expression is a declared variable or function, and every operator a binary operator |
| CExprParser.LogicalOrRestWellFormed | kato/c2kato/parser/expression_parser.py:17-24 | the `\|\|` loop keeps expressions well formed |
| CExprParser.LogicalAndWellFormed | kato/c2kato/parser/expression_parser.py:26-35 | conjunctions are well formed |
| CExprParser.LogicalAndRestWellFormed | kato/c2kato/parser/expression_parser.py:28-35 | the `&&` loop keeps expressions well formed |
| CExprParser.ComparisonWellFormed | kato/c2kato/parser/expression_parser.py:37-46 | comparisons are well formed |
| CExprParser.ComparisonRestWellFormed | kato/c2kato/parser/expression_parser.py:39-46 | the comparison loop keeps expressions well formed |
| CExprParser.AdditiveWellFormed | kato/c2kato/parser/expression_parser.py:48-57 | sums are well formed |
| CExprParser.AdditiveRestWellFormed | kato/c2kato/parser/expression_parser.py:50-57 | the `+`/`-` loop keeps expressions well formed |
| CExprParser.MultiplicativeWellFormed | kato/c2kato/parser/expression_parser.py:59-68 | products are well formed |
| CExprParser.MultiplicativeRestWellFormed | kato/c2kato/parser/expression_parser.py:61-68 | the `*`, `/`, `%` loop keeps expressions well formed |
| CExprParser.PrimaryWellFormed | kato/c2kato/parser/expression_parser.py:70-118 | operands are well formed: a name is used only once declared |
| CExprParser.CallWellFormed | kato/c2kato/parser/expression_parser.py:120-138 | a call of a declared name with well-formed arguments is well formed |
| CExprParser.CallArgumentsWellFormed | kato/c2kato/parser/expression_parser.py:124-136 | the argument loop keeps every argument well formed |
| CExprParser.UndeclaredName | kato/c2kato/parser/expression_parser.py:95-99 | a name that is neither a declared variable nor a declared function is rejected at its position, whatever follows |
| CExprParser.OperandErrors | kato/c2kato/parser/expression_parser.py:73-74 | running out of tokens in an expression is reported without a position, and a token that starts no operand at its own position |
| CExprParser.AddressOf | kato/c2kato/parser/expression_parser.py:76-82 | `&` before a declared name stays in the identifier (`&name`), while `&` before a number gives the number unchanged |
| CExprParser.NameSum | kato/c2kato/parser/expression_parser.py:48-57 | a declared name not followed by an arithmetic operator is a sum of one term |
| CExprParser.ComparisonsChainLeft | kato/c2kato/parser/expression_parser.py:37-46 | comparisons chain to the left: `a < b < c` is `(a < b) < c` |
| CExprParser.NameConjunct | kato/c2kato/parser/expression_parser.py:37-46 | a declared name not followed by a comparison is a comparison of one term |
| CExprParser.AndBindsTighterThanOr | kato/c2kato/parser/expression_parser.py:15-35 | `a \|\| b && c` is `a \|\| (b && c)` |
| CExprParser.EmptyCall | kato/c2kato/parser/expression_parser.py:103-104 | `f()` of a declared name is a call without arguments |
| CExprParser.CallArgumentsIsCall | kato/c2kato/parser/expression_parser.py:120-138 | a successful argument loop gives a call of the name it was given |
| CExprParser.PrimaryNotBinary | kato/c2kato/parser/expression_parser.py:70-118 | an operand that is not a parenthesised group, behind any number of `&`, is never an operator node |
| CExprParser.ProductRestShape | kato/c2kato/parser/expression_parser.py:61-68 | the `*`, `/`, `%` loop extends a product to the left with one operand on the right |
| CExprParser.ProductShapeHolds | kato/c2kato/parser/expression_parser.py:59-68 | every product is a left-grouped chain over single operands, when no operand is parenthesised |
| CExprParser.SumRestShape | kato/c2kato/parser/expression_parser.py:50-57 | the `+`/`-` loop extends a sum with a product on the right |
| CExprParser.SumShapeHolds | kato/c2kato/parser/expression_parser.py:48-68 | every sum is a left-grouped chain of products |
| CExprParser.RelationRestShape | kato/c2kato/parser/expression_parser.py:39-46 | the comparison loop extends a chain with a sum on the right |
| CExprParser.RelationShapeHolds | kato/c2kato/parser/expression_parser.py:37-68 | every comparison is a left-grouped chain of sums |
| CExprParser.ConjunctionRestShape | kato/c2kato/parser/expression_parser.py:28-35 | the `&&` loop extends a conjunction with a comparison on the right |
| CExprParser.ConjunctionShapeHolds | kato/c2kato/parser/expression_parser.py:26-68 | every conjunction is a left-grouped chain of comparisons |
| CExprParser.DisjunctionRestShape | kato/c2kato/parser/expression_parser.py:17-24 | the `\|\|` loop extends a disjunction with a conjunction on the right |
| CExprParser.DisjunctionShapeHolds | kato/c2kato/parser/expression_parser.py:15-68 | for every token list whose operands are not parenthesised: `\|\|` binds loosest, then `&&`, the comparisons, `+ -` and `* / %`, and every level groups to the left |
| CExprParser.CExpressionParser.constructor | kato/c2kato/parser/expression_parser.py:9-10 | the expression parser works on the given parser |
| CExprParser.CExpressionParser.ParseExpression | kato/c2kato/parser/expression_parser.py:12-13 | agrees with `LogicalOr`: same expression or error, same position |
| CExprParser.CExpressionParser.ParseLogicalOr | kato/c2kato/parser/expression_parser.py:15-24 | agrees with `LogicalOr` |
| CExprParser.CExpressionParser.ParseLogicalAnd | kato/c2kato/parser/expression_parser.py:26-35 | agrees with `LogicalAnd` |
| CExprParser.CExpressionParser.ParseComparison | kato/c2kato/parser/expression_parser.py:37-46 | agrees with `Comparison` |
| CExprParser.CExpressionParser.ParseAdditive | kato/c2kato/parser/expression_parser.py:48-57 | agrees with `Additive` |
| CExprParser.CExpressionParser.ParseMultiplicative | kato/c2kato/parser/expression_parser.py:59-68 | agrees with `Multiplicative` |
| CExprParser.CExpressionParser.ParseMultiplicativeOperand | kato/c2kato/parser/expression_parser.py:63-66 | agrees with `MultiplicativeOperand` |
| CExprParser.CExpressionParser.ParsePrimary | kato/c2kato/parser/expression_parser.py:70-118 | agrees with `Primary` |
| CExprParser.CExpressionParser.ParseName | kato/c2kato/parser/expression_parser.py:95-111 | agrees with `NamePrimary` |
| CExprParser.CExpressionParser.ParseElement | kato/c2kato/parser/expression_parser.py:105-109 | agrees with `ElementAt` |
| CExprParser.CExpressionParser.ParseFunctionCall | kato/c2kato/parser/expression_parser.py:120-138 | agrees with `Call` |
| CStmtParser.Statement | kato/c2kato/parser/statement_parser.py:14-33 | a parsed statement consumes at least one token |
| CStmtParser.Block | kato/c2kato/parser/statement_parser.py:140-141 | the statement loop of a body never moves backwards |
| CStmtParser.Braced | kato/c2kato/parser/statement_parser.py:137-143 | a braced body consumes at least its braces |
| CStmtParser.Branch | kato/c2kato/parser/statement_parser.py:106-113 | a branch, braced or a single statement, consumes at least one token |
| CStmtParser.IfStmt | kato/c2kato/parser/statement_parser.py:98-128 | an `if` statement consumes at least one token |
| CStmtParser.IfBranches | kato/c2kato/parser/statement_parser.py:106-128 | the branches of an `if` never move backwards |
| CStmtParser.WhileStmt | kato/c2kato/parser/statement_parser.py:130-145 | a `while` statement consumes at least one token |
| CStmtParser.ForStmt | kato/c2kato/parser/statement_parser.py:147-166 | a `for` statement consumes at least one token |
| CStmtParser.ForHeader | kato/c2kato/parser/statement_parser.py:152-157 | the condition, `;` and increment of a `for` consume at least one token |
| CStmtParser.ReturnStmt | kato/c2kato/parser/statement_parser.py:168-177 | a `return` statement consumes at least one token |
| CStmtParser.Expressions | kato/c2kato/parser/statement_parser.py:40-44 | the argument and initialiser loops never move backwards |
| CStmtParser.PrintfStmt | kato/c2kato/parser/statement_parser.py:35-50 | a `printf` statement consumes at least one token |
| CStmtParser.ValueSemicolon | kato/c2kato/parser/statement_parser.py:196-197 | a value and its `;` consume at least one token |
| CStmtParser.Declaration | kato/c2kato/parser/statement_parser.py:52-96 | a declaration consumes at least one token |
| CStmtParser.DeclarationHead | kato/c2kato/parser/statement_parser.py:53-61 | the type keyword, an optional `*` and the name consume at least one token |
| CStmtParser.DeclarationAfterHead | kato/c2kato/parser/statement_parser.py:63-96 | once its head is read, a declaration is an array declaration when `[` follows and a variable declaration otherwise |
| CStmtParser.ArrayRest | kato/c2kato/parser/statement_parser.py:63-88 | the rest of an array declaration consumes at least one token |
| CStmtParser.Initialiser | kato/c2kato/parser/statement_parser.py:73-85 | without `=` an array has no initialiser and nothing is consumed |
| CStmtParser.VariableRest | kato/c2kato/parser/statement_parser.py:89-96 | the rest of a scalar declaration consumes at least one token |
| CStmtParser.NameStmt | kato/c2kato/parser/statement_parser.py:179-226 | a statement starting with a name consumes at least one token |
| CStmtParser.ElementStmt | kato/c2kato/parser/statement_parser.py:183-192 | an element statement consumes at least one token |
| CStmtParser.ElementTail | kato/c2kato/parser/statement_parser.py:188-194 | what follows `name[index]` never moves backwards |
| CStmtParser.NameTail | kato/c2kato/parser/statement_parser.py:194-226 | the statement after the name never moves backwards |
| CStmtParser.CallStmt | kato/c2kato/parser/statement_parser.py:208-222 | a call statement consumes at least one token |
| CStmtParser.SkippedToken | kato/c2kato/parser/statement_parser.py:14-33 | a token that starts no statement is skipped as the `None` placeholder; past the end the `None` token itself fails |
| CStmtParser.DeclarationDoesNotDeclare | kato/c2kato/parser/statement_parser.py:52-96 | a declaration does not add its name to the declared variables, so a later use of it in the same body is rejected as undeclared |
| CStmtParser.ReturnWithoutValue | kato/c2kato/parser/statement_parser.py:168-177 | `return;` has no value, and `return` at the end of the tokens reports the missing `;` without a position |
| CStmtParser.IncrementStatement | kato/c2kato/parser/statement_parser.py:199-207 | `name++` and `name--` become the text `name++` or `name--`, the `;` being optional |
| CStmtParser.AssignmentTargetUnchecked | kato/c2kato/parser/statement_parser.py:194-198 | the target of an assignment is not checked against the declared variables |
| CStmtParser.ArrayInitialiser | kato/c2kato/parser/statement_parser.py:63-88 | `name[];` has no values, and `name[] = {};` an empty list of values |
| CStmtParser.ElsePresence | kato/c2kato/parser/statement_parser.py:115-128 | an `if` has an else body exactly when `else` follows its first branch |
| CStmtParser.CStatementParser.constructor | kato/c2kato/parser/statement_parser.py:10-12 | the statement parser shares the parser of its expression parser |
| CStmtParser.CStatementParser.ParseStatement | kato/c2kato/parser/statement_parser.py:14-33 | agrees with `Statement`: same statement or error, same position |
| CStmtParser.CStatementParser.ParseBlock | kato/c2kato/parser/statement_parser.py:140-141 | agrees with `Block` |
| CStmtParser.CStatementParser.ParseBraced | kato/c2kato/parser/statement_parser.py:137-143 | agrees with `Braced` |
| CStmtParser.CStatementParser.ParseBranch | kato/c2kato/parser/statement_parser.py:106-113 | agrees with `Branch` |
| CStmtParser.CStatementParser.ParseIfStatement | kato/c2kato/parser/statement_parser.py:98-128 | agrees with `IfStmt` |
| CStmtParser.CStatementParser.ParseIfBranches | kato/c2kato/parser/statement_parser.py:106-128 | agrees with `IfBranches` |
| CStmtParser.CStatementParser.ParseElsePart | kato/c2kato/parser/statement_parser.py:115-128 | agrees with `ElsePart`: an `else` branch when `else` follows the `if` branch, and no `else` otherwise |
| CStmtParser.CStatementParser.ParseWhileStatement | kato/c2kato/parser/statement_parser.py:130-145 | agrees with `WhileStmt` |
| CStmtParser.CStatementParser.ParseForStatement | kato/c2kato/parser/statement_parser.py:147-166 | agrees with `ForStmt` |
| CStmtParser.CStatementParser.ParseForHeader | kato/c2kato/parser/statement_parser.py:152-158 | agrees with `ForHeader`: condition, `;`, increment, `)`, `{`, or the first error among them |
| CStmtParser.CStatementParser.ParseReturnStatement | kato/c2kato/parser/statement_parser.py:168-177 | agrees with `ReturnStmt` |
| CStmtParser.CStatementParser.ParseExpressions | kato/c2kato/parser/statement_parser.py:40-44 | agrees with `Expressions` |
| CStmtParser.CStatementParser.ParseValueSemicolon | kato/c2kato/parser/statement_parser.py:196-197 | agrees with `ValueSemicolon` |
| CStmtParser.CStatementParser.SkipSemicolon | kato/c2kato/parser/statement_parser.py:219-220 | consumes a `;` when one is there and nothing else |
| CStmtParser.CStatementParser.ParsePrintfStatement | kato/c2kato/parser/statement_parser.py:35-50 | agrees with `PrintfStmt` |
| CStmtParser.CStatementParser.ParseDeclaration | kato/c2kato/parser/statement_parser.py:52-96 | agrees with `Declaration` |
| CStmtParser.CStatementParser.ParseDeclarationHead | kato/c2kato/parser/statement_parser.py:53-61 | agrees with `DeclarationHead` |
| CStmtParser.CStatementParser.ParseArrayRest | kato/c2kato/parser/statement_parser.py:63-88 | agrees with `ArrayRest` |
| CStmtParser.CStatementParser.ParseInitialiser | kato/c2kato/parser/statement_parser.py:73-85 | agrees with `Initialiser` |
| CStmtParser.CStatementParser.ParseVariableRest | kato/c2kato/parser/statement_parser.py:89-96 | agrees with `VariableRest` |
| CStmtParser.CStatementParser.ParseAssignmentOrExpression | kato/c2kato/parser/statement_parser.py:179-226 | agrees with `NameStmt` |
| CStmtParser.CStatementParser.ParseElement | kato/c2kato/parser/statement_parser.py:183-192 | agrees with `ElementStmt` |
| CStmtParser.CStatementParser.ParseElementTail | kato/c2kato/parser/statement_parser.py:188-194 | agrees with `ElementTail` |
| CStmtParser.CStatementParser.ParseNameTail | kato/c2kato/parser/statement_parser.py:194-226 | agrees with `NameTail` |
| CStmtParser.CStatementParser.ParseCallStatement | kato/c2kato/parser/statement_parser.py:208-222 | agrees with `CallStmt` |
| CSuggest.Min3 | kato/c2kato/parser/c_parser.py:85 | `min` of three values is one of them and no larger than any |
| CSuggest.EditDistanceSymmetric | kato/c2kato/parser/c_parser.py:73-75 | the edit distance does not depend on the order of its arguments, which is why `_levenshtein_distance` may swap them |
| CSuggest.EditDistanceZero | kato/c2kato/parser/c_parser.py:73-87 | the distance is zero exactly for equal words |
| CSuggest.EditDistanceBounds | kato/c2kato/parser/c_parser.py:73-87 | the distance is at least the difference of the lengths and at most the longer length |
| CSuggest.EditDistanceCell | kato/c2kato/parser/c_parser.py:81-85 | each cell of the table is the minimum of an insertion, a deletion and a substitution of the cells before it |
| CSuggest.LevenshteinDistance | kato/c2kato/parser/c_parser.py:73-87 | the row-by-row computation returns the edit distance of the two words |
| CSuggest.NextRow | kato/c2kato/parser/c_parser.py:79-86 | from the row of a prefix, one iteration computes the row of the prefix extended by one character |
| CSuggest.FirstSimilar | kato/c2kato/parser/c_parser.py:66-71 | the suggestion is a keyword within distance two of the word, and there is none exactly when every keyword is further away |
| CSuggest.FindSimilarKeyword | kato/c2kato/parser/c_parser.py:66-71 | the loop returns the first keyword, in the fixed order, within distance two of the lower-cased word |
| CSuggest.CapitalisedKeyword | kato/c2kato/parser/c_parser.py:66-71 | a keyword written in another case always gets a suggestion |
| CTopParser.SkipDirectives | kato/c2kato/parser/c_parser.py:89-94 | skipping a directive stops at the first type keyword or EOF, passing over no such token |
| CTopParser.NamesAppend | kato/c2kato/parser/c_parser.py:167-169 | `param_names` is the set of the names in `params` |
| CTopParser.TypeName | kato/c2kato/parser/c_parser.py:101-107 | a type name with its optional `*` consumes at least one token |
| CTopParser.Param | kato/c2kato/parser/c_parser.py:139-169 | a parameter has a valid type and a name not yet used by the parameters before it |
| CTopParser.Params | kato/c2kato/parser/c_parser.py:138-181 | the parameter loop keeps the parameters it had and adds at least one, each of a valid type |
| CTopParser.ParamsAfter | kato/c2kato/parser/c_parser.py:171-181 | after a parameter, a `,` must introduce another and `)` ends the list |
| CTopParser.ParamsDistinct | kato/c2kato/parser/c_parser.py:164-165 | the parameters of a parsed list have distinct names |
| CTopParser.ParamsAfterDistinct | kato/c2kato/parser/c_parser.py:164-165 | the rest of a parameter list keeps the names distinct |
| CTopParser.ParamList | kato/c2kato/parser/c_parser.py:130-181 | a parameter list consumes at least its parentheses |
| CTopParser.FunctionRest | kato/c2kato/parser/c_parser.py:183-215 | after the signature, a prototype or a definition records the function with its signature and, for a definition, yields it |
| CTopParser.Definition | kato/c2kato/parser/c_parser.py:194-215 | a definition records the function, leaves no current function and leaves exactly its parameters as declared variables |
| CTopParser.Function | kato/c2kato/parser/c_parser.py:125-215 | a function name not yet recorded is added to the declared functions, and a definition carries its name and return type |
| CTopParser.FunctionOrDeclaration | kato/c2kato/parser/c_parser.py:96-123 | a function or prototype with a valid return type, never recorded before, is added to the declared functions |
| CTopParser.Program | kato/c2kato/parser/c_parser.py:43-64 | `parse` stops only at the end of the tokens or at EOF |
| CTopParser.TopLevelItem | kato/c2kato/parser/c_parser.py:47-62 | one turn of `parse` consumes at least one token, never forgets a recorded function, and a definition it yields was not recorded before |
| CTopParser.ProgramDistinct | kato/c2kato/parser/c_parser.py:126-128 | no two definitions of a parsed program share a name |
| CTopParser.PrototypeThenDefinition | kato/c2kato/parser/c_parser.py:126-128 | a prototype records the function, so a later definition of the same name is rejected as a redefinition at the prototype's position |
| CTopParser.CProgramParser.constructor | kato/c2kato/parser/c_parser.py:10-18 | a parser starts at the first token with empty parse state |
| CTopParser.CProgramParser.Parse | kato/c2kato/parser/c_parser.py:43-64 | agrees with `ParseProgram`, result and final state |
| CTopParser.CProgramParser.ParseTopLevelItem | kato/c2kato/parser/c_parser.py:47-62 | agrees with `TopLevelItem`, result and state |
| CTopParser.CProgramParser.TopLevelError | kato/c2kato/parser/c_parser.py:55-62 | an identifier at top level is reported with a keyword suggestion when one is near, anything else as an unexpected token |
| CTopParser.CProgramParser.SkipPreprocessor | kato/c2kato/parser/c_parser.py:89-94 | moves past the `#` to where `SkipDirectives` stops |
| CTopParser.CProgramParser.ParseTypeName | kato/c2kato/parser/c_parser.py:101-107 | agrees with `TypeName` |
| CTopParser.CProgramParser.ParseFunctionOrDeclaration | kato/c2kato/parser/c_parser.py:96-123 | agrees with `FunctionOrDeclaration`, result and state |
| CTopParser.CProgramParser.ParseFunction | kato/c2kato/parser/c_parser.py:125-215 | agrees with `Function` |
| CTopParser.CProgramParser.ParseParameterList | kato/c2kato/parser/c_parser.py:130-181 | agrees with `ParamList` |
| CTopParser.CProgramParser.ParseParameters | kato/c2kato/parser/c_parser.py:138-181 | agrees with `Params` |
| CTopParser.CProgramParser.ParseParameter | kato/c2kato/parser/c_parser.py:139-169 | agrees with `Param` given the names so far |
| CTopParser.CProgramParser.ParseFunctionRest | kato/c2kato/parser/c_parser.py:183-215 | agrees with `FunctionRest` |
| CTopParser.CProgramParser.ParseDefinition | kato/c2kato/parser/c_parser.py:194-215 | agrees with `Definition` |
| CTopParser.CProgramParser.ParseFunctionBody | kato/c2kato/parser/c_parser.py:200-206 | the body loop gives the parsed statements without the `None` placeholders |
| TypeMapper.MapCTypeToKato | kato/c2kato/converter/type_mapper.py:1-10 | the result is always `int`, `float` or `char`; those three map to themselves and every other type, `void` and pointer types included, to `int` |
| TypeMapper.MapIdempotent | kato/c2kato/converter/type_mapper.py:1-10 | mapping a mapped type again changes nothing |
| ExpressionConverter.ConvertExpression | kato/c2kato/converter/expression_converter.py:12-34 | binary operations and array accesses, and only they, give binary operations and array accesses, keeping the operator; no `inpt` call or function call is ever produced |
| ExpressionConverter.ConvertRoundTrip | kato/c2kato/converter/expression_converter.py:13-28 | without calls nothing is lost: the C expression is read back from its conversion, so literals, names and tree shape are kept |
| ExpressionConverter.ConvertInjective | kato/c2kato/converter/expression_converter.py:13-28 | distinct call-free expressions convert to distinct expressions |
| ExpressionConverter.CallArgumentsDropped | kato/c2kato/converter/expression_converter.py:29-32 | a call converts to one leaf whatever its arguments, a string literal exactly for `printf` |
| PrintfConverter.DigitsEnd | kato/c2kato/converter/printf_converter.py:18 | the `\d*` of the pattern: the longest run of digits |
| PrintfConverter.SpecifierEnd | kato/c2kato/converter/printf_converter.py:18 | a match of the pattern is never empty |
| PrintfConverter.TailMatches | kato/c2kato/converter/printf_converter.py:18 | a conversion tail ends after the digits with one of `dfsci`, or with `lf` |
| PrintfConverter.ScannedTail | kato/c2kato/converter/printf_converter.py:18 | what the digit scan and the letters find is a conversion tail |
| PrintfConverter.TailScanned | kato/c2kato/converter/printf_converter.py:18 | every conversion tail is found by the scan |
| PrintfConverter.DigitsStop | kato/c2kato/converter/printf_converter.py:18 | the digit scan stops at the first non-digit |
| PrintfConverter.DotIsNoTail | kato/c2kato/converter/printf_converter.py:18 | the optional `.` is not part of the tail |
| PrintfConverter.SpecifierEndMatches | kato/c2kato/converter/printf_converter.py:18 | the scanner matches a text exactly when it is `%`, an optional `.`, digits and one of `d f s c i`, or `lf` |
| PrintfConverter.SplitFrom | kato/c2kato/converter/printf_converter.py:19-20 | the pieces and specifiers found from a position rebuild the rest of the text, and every specifier matches the pattern |
| PrintfConverter.SplitFormat | kato/c2kato/converter/printf_converter.py:19-20 | `re.split` and `re.findall`: one more piece than specifiers, pieces and specifiers interleaved give the format back, and each specifier matches the pattern |
| PrintfConverter.NoSpecifierFrom | kato/c2kato/converter/printf_converter.py:20-23 | no specifier is found exactly when the pattern matches nowhere |
| PrintfConverter.ConvertPrintfToPrint | kato/c2kato/converter/printf_converter.py:6-53 | the method returns the print values `PrintValues` defines |
| PrintfConverter.AppendPieces | kato/c2kato/converter/printf_converter.py:25-51 | the loop, with its separate argument counter, appends the pieces and placeholders of every step |
| PrintfConverter.TextsAppend | kato/c2kato/converter/printf_converter.py:28-51 | the text of values appended one after the other is the texts in order |
| PrintfConverter.PlaceholderTexts | kato/c2kato/converter/printf_converter.py:36-49 | one placeholder text per argument used |
| PrintfConverter.PiecesAreStrings | kato/c2kato/converter/printf_converter.py:28-51 | with only named arguments, every value produced is a string |
| PrintfConverter.PiecesSpell | kato/c2kato/converter/printf_converter.py:28-51 | with a named argument for every specifier, the values produced spell the rest of the format with each specifier replaced by `*name*` or `*name[index]*` |
| PrintfConverter.PlaceholderTextAt | kato/c2kato/converter/printf_converter.py:32-51 | the `i`-th specifier gets the `i`-th argument's placeholder |
| PrintfConverter.PrintSpellsFormat | kato/c2kato/converter/printf_converter.py:6-53 | a `printf` with a named argument for every specifier becomes a print of strings that spell the format with each specifier replaced by its variable's placeholder |
| PrintfConverter.PiecesCount | kato/c2kato/converter/printf_converter.py:28-51 | one value per non-empty piece and one per specifier that has an argument: surplus arguments are dropped, and so are specifiers without one |
| PrintfConverter.PrintEdgeCases | kato/c2kato/converter/printf_converter.py:7-23 | no arguments give none, a format that is not a string gives the arguments back, and a format without specifier gives only the format, the other arguments dropped |
| StatementConverter.ConvertAll | kato/c2kato/converter/statement_converter.py:26 | every argument converted, in order |
| StatementConverter.ConvertOption | kato/c2kato/converter/statement_converter.py:36 | a value is converted when present and stays absent otherwise |
| StatementConverter.ConvertStatement | kato/c2kato/converter/statement_converter.py:20-88 | which Kato statement each C statement becomes: `printf` calls become prints and other calls calls, `for` and `while` become `while`, an expression statement with `++` or `--` an increment or decrement and any other `None`; no `if` gets elif parts and declared types are Kato types |
| StatementConverter.ConvertBody | kato/c2kato/converter/statement_converter.py:50 | a converted body has one statement per statement that is not a placeholder |
| StatementConverter.ConvertBodyKeeps | kato/c2kato/converter/statement_converter.py:50 | a converted body is the kept statements, each converted, in order |
| StatementConverter.ConvertElse | kato/c2kato/converter/statement_converter.py:51 | there is an else block exactly when the C else body is present and not empty |
| StatementConverter.ForIncrementIgnored | kato/c2kato/converter/statement_converter.py:59-71 | the increment of a `for` loop never reaches the body: two loops differing only in it convert alike |
| StatementConverter.RemoveSuffix | kato/c2kato/converter/statement_converter.py:80 | removing every `++` from `name++` gives `name` back when the name holds no `+` |
| StatementConverter.NoDoubled | kato/c2kato/converter/statement_converter.py:79 | a text without `+` holds no `++` |
| StatementConverter.StepStatements | kato/c2kato/converter/statement_converter.py:77-84 | the `name++` and `name--` statements the C parser builds become an increment or a decrement of that name |
| StatementConverter.ConvertBodyAppend | kato/c2kato/converter/statement_converter.py:50 | the statements of a body are converted in order |
| Converter.ParamNames | kato/c2kato/converter/converter.py:28 | the parameter names, in order |
| Converter.FunctionBody | kato/c2kato/converter/converter.py:31-34 | the converted body never holds `None` and is no longer than the C body |
| Converter.ConvertFunction | kato/c2kato/converter/converter.py:26-36 | a function keeps its name, its parameters become their names and its body the converted statements |
| Converter.Convert | kato/c2kato/converter/converter.py:13-24 | every definition is converted, in order: it keeps its name, takes its parameters' names, and its body is the converted C body without None statements |
| Converter.FunctionBodyAppend | kato/c2kato/converter/converter.py:31-34 | body statements are converted in order |
| Converter.FunctionBodyMembers | kato/c2kato/converter/converter.py:31-34 | a statement is in the converted body exactly when some C statement converts to it and it is not `None` |
| Converter.ConvertDistinct | kato/c2kato/converter/converter.py:13-24 | distinct C definitions give Kato functions with distinct names |
| Converter.ParsedProgramDistinct | kato/c2kato/converter/converter.py:13-24 | a program the C parser accepts converts to functions with distinct names |
| KatoGenerator.ExprTexts | kato/c2kato/generator/kato_generator.py:54 | one text per expression, in order |
| KatoGenerator.ProgramLines | kato/c2kato/generator/kato_generator.py:24-28 | the `code` list holds two entries per function: its text and an empty entry |
| KatoGenerator.FunctionTexts | kato/c2kato/generator/kato_generator.py:26-27 | one text per function, in order |
| KatoGenerator.KatoGenerator.constructor | kato/c2kato/generator/kato_generator.py:13-15 | a generator starts at level 0 |
| KatoGenerator.KatoGenerator.Generate | kato/c2kato/generator/kato_generator.py:20-30 | `generate` joins with newlines each function's text followed by an empty entry, and leaves the level as it found it |
| KatoGenerator.KatoGenerator.GenerateFunction | kato/c2kato/generator/kato_generator.py:32-46 | a `func name(p1, p2) {` header, the body one level deeper and `}`, the level restored |
| KatoGenerator.KatoGenerator.GenerateBlock | kato/c2kato/generator/kato_generator.py:38-41 | the loop over a body writes the statements one after the other, the level unchanged |
| KatoGenerator.KatoGenerator.GenerateStatement | kato/c2kato/generator/kato_generator.py:48-118 | each statement kind's text, with `= 0` for a declaration and `return 0` for a return without value, `print` of space-separated values, and nothing for a kind it does not handle; the level restored |
| KatoGenerator.KatoGenerator.GenerateIf | kato/c2kato/generator/kato_generator.py:61-85 | the condition without one outer pair of parentheses, the body one level deeper, and an else block only for a non-empty else body |
| KatoGenerator.KatoGenerator.GenerateWhile | kato/c2kato/generator/kato_generator.py:87-101 | the condition without one outer pair of parentheses and the body one level deeper |
| KatoGenerator.JoinSnoc | kato/c2kato/generator/kato_generator.py:30 | joining a list with one more entry adds the separator and that entry |
| KatoGenerator.ProgramTextShape | kato/c2kato/generator/kato_generator.py:20-30 | a program's text is its functions' texts separated by blank lines, followed by a newline; no function gives the empty text |
| KatoGenerator.StatementLines | kato/c2kato/generator/kato_generator.py:48-118 | a statement gives text exactly when `generate_statement` handles its kind, and that text starts with the indentation and ends with a newline |
| KatoGenerator.ElifPartsIgnored | kato/c2kato/generator/kato_generator.py:61-85 | the elif parts of an `if` are never written |
| KatoGenerator.EmptyElseOmitted | kato/c2kato/generator/kato_generator.py:76-82 | an empty else body is written like a missing one |
| KatoGenerator.GroupingLost | kato/c2kato/generator/kato_generator.py:131-140 | no parentheses are added around operands: `(a - b) - c` and `a - (b - c)` give the same text |
| KatoGenerator.PlainTextUnstripped | kato/c2kato/generator/kato_generator.py:64-65 | an expression without parenthesised leaves never starts with `(`, so stripping leaves its text as it is |
| KatoGenerator.Head | kato/c2kato/generator/kato_generator.py:135-138 | the first character of a concatenation |
| KatoGenerator.StripOuter | kato/c2kato/generator/kato_generator.py:64-65 | exactly one outer pair of parentheses is removed |
| Formatter.KeptLines | kato/c2kato/generator/formatter.py:11-13 | the kept lines are no more than the input and none of them is blank |
| Formatter.KeptLinesMembers | kato/c2kato/generator/formatter.py:11-13 | a line is kept exactly when it is in the input and its `strip()` is not empty |
| Formatter.KeptLinesIdempotent | kato/c2kato/generator/formatter.py:11-15 | keeping the kept lines again changes nothing |
| Formatter.AllKept | kato/c2kato/generator/formatter.py:11-13 | a list without blank lines is kept whole, unmodified and in order |
| Formatter.KeptLinesAppend | kato/c2kato/generator/formatter.py:11-13 | the kept lines keep their original order |
| Formatter.FormatIdempotent | kato/c2kato/generator/formatter.py:8-15 | formatting the kept lines gives the same text as formatting the lines |
| Formatter.KatoFormatter.constructor | kato/c2kato/generator/formatter.py:2-3 | a formatter starts at level 0 |
| Formatter.KatoFormatter.FormatCode | kato/c2kato/generator/formatter.py:8-15 | the loop keeps the non-blank lines, in order, and joins them with newlines |
| Strings.IndentationSpaces | kato/c2kato/generator/formatter.py:5-6 | `indent()` is four spaces per level, here and in the compiler and the generator |
| KatoTokens.Symbol | kato/lexer/lexer.py:153-255 | a punctuation or operator kind has a fixed, non-empty spelling and carries it as its text |
| KatoTokens.KeywordsAreWords | kato/lexer/lexer.py:116-129 | keywords and identifiers carry their text and have no fixed spelling |
| ExpressionCodegen.EscapeIsEachChain | kato/compiler/codegen/expressions.py:13 | the five replacements, done on the whole text one after the other, equal escaping each character on its own |
| ExpressionCodegen.UnescapeEscapeChar | kato/compiler/codegen/expressions.py:13 | every character is written as itself or as a backslash pair that the lexer reads back as that character |

## Left out

- `kato/main.py`: command-line handling, file reading and writing, AST debug printing and the calls to gcc, clang and cl are I/O. So is its use of `CCompiler(..., stdlib_imports=...)` at `kato/main.py:197`, which the one-argument constructor of `kato/compiler/compiler.py:5` does not accept.
- `kato/c2kato/c2kato.py`: the glue that chains the stages, its debug prints and its exception re-wrapping. The stages are modelled one by one.
- `format_error` in both `errors.py` files: colours and source frames are presentation. Only the message, line and column are kept.
- `kato/compiler/std/os.py` and `kato/compiler/std/filesystem.py` are fixed C source strings and are not part of this model. The preprocessor records only the name `filesystem`.
- Preprocessor file access:
  - The file system is a map from path to content.
  - The Lexer and Parser run on each exported file are a parameter `parse`, which `FileParser` instantiates with the modelled lexer and parser.
  - Paths are joined with `/` and are not normalised or made absolute.
- Optimizer: the `c_imports` attribute that `optimize` copies when present is never set by the code in this model, so it is not modelled.
- Floating point: a float literal is kept as its lexeme, and the model writes that lexeme wherever the program writes the literal. Both lexers store `float(lexeme)` (`kato/lexer/lexer.py:112`, `kato/c2kato/lexer/c_lexer.py:94`), so the program writes `repr(float(lexeme))` instead: `1.50` becomes `1.5`, `3.` becomes `3.0` and `0.000001` becomes `1e-06`. Python's shortest float repr is not part of this model, and its exponent notation is text the Kato lexer cannot read back. The members below therefore write the lexeme where the program writes that repr:
- KatoGenerator.ExprText: a float literal is written as its lexeme, not as `repr(float(lexeme))`.
- PrintfConverter.ExprToStr: a float argument's placeholder text is its lexeme, not `repr(float(lexeme))`.
- ExpressionCodegen.CompileExpr: a float literal is emitted as its lexeme, not as `repr(float(lexeme))`.
- StatementText.OperandParts: a float printf argument is its lexeme, not `repr(float(lexeme))`.
- Compiler.StatementCodegen.CompileOperand: a float printf argument is its lexeme, as in `StatementText.OperandParts`.
- StatementText.ReturnCode: `return (int)` is followed by the lexeme, not by `repr(float(lexeme))`.
- Compiler.StatementCodegen.CompileReturn: `return (int)` is followed by the lexeme, as in `StatementText.ReturnCode`.
- Character classes: `isdigit`, `isalpha`, `isalnum`, `strip`, `lower` and the regular expressions' `\d` and `\w` are restricted to ASCII.
- Regular expressions: the placeholder pattern of `compile_print` and the specifier pattern of `convert_printf_to_print` are written as scanners. Python's `re` engine is not part of this model.
- Codegen objects: the `CCompiler` constructor creates the expression, statement and function code generators. In the model they are created when `Compile` runs, and the constructor sets only the AST, the indentation level and the table.
- `compile_print`'s `format_parts` is built as one string rather than a list joined at the end.
- Return with an expression: `compile_return` returns `None` for a return of an expression, and its caller adds that to a string. The model gives `Crash` (`NoneConcatenation`), as Python would raise `TypeError`. The same applies to every statement kind `compile_statement` does not handle.
- Type checks: the `isinstance` checks of `Converter.convert` and `KatoGenerator.generate` (input not a program) and of `convert_function` are carried by the types.
- Truthiness: a node's Python truthiness is its not being `None`.
- Unreachable messages: three checks of the C parser can never fire, because of the control flow around them, so no modelled path produces them:
  - `Unexpected end of file while parsing declaration` (`kato/c2kato/parser/c_parser.py:98-99`): `parse_function_or_declaration` is entered only from `parse`, on a type-keyword token (`c_parser.py:50-51`), so the current token is never missing there.
  - `Unexpected end of file in function call` (`kato/c2kato/parser/expression_parser.py:125-126`): the test sits inside `while self.parser.current_token() and ...` (`expression_parser.py:124`), so the current token is always present when it runs.
  - The `;` check at `kato/c2kato/parser/c_parser.py:190`: a `;` at that point was already consumed at `c_parser.py:183-186`, which returns, so the token there is never a `;`.
- AST exports: the node set is the one the constructors use. The repository's `ast/__init__.py` does not export all the node names the statement parser imports.
- `KatoGenerator.GenerateStatement`: a `CallStatement`, an `ArrayAssignment` and `None` give no text, as in the source. The generator's `formatter` field is never used and is not modelled.
- `StatementConverter.ForIncrementIgnored`: the converter appends an increment or decrement only when a `for` loop's increment is a string. The C parser always stores an expression there, so the increment is never used.
- `PrintfConverter.ExprToStr`: `expr_to_str` is modelled as a plain function without a contract of its own. Its use inside placeholders is covered by `PrintfConverter.PlaceholderText` and the lemmas that mention it.
- Parse specification functions of both parsers (`KatoExprParser`, `KatoStmtParser`, `KatoParser`, `CExprParser`, `CStmtParser`, `CTopParser`): their own `ensures` state only that the position advances. What they mean is stated by the lemmas about them and by the parser methods proved to agree with them.
