# SL toolchain core in Dafny

This project models the core of Simple-Language (SL), a small interpreted language written in Rust. The core has six stages:

- **The source lexer** (`src/lexer.rs`) is a per-character state machine that turns program text into tokens and always ends the list with `EndOfFile`.
- **The parser** (`src/parser.rs`) reads the tokens one statement at a time into a `Program`. It keeps a stack of open `if` chains, each a list of branches.
- **The static checker** (`src/check.rs`) keeps a table of declared variables and their types. It types every expression with a small slot evaluator and rejects redeclarations, mismatched types, bad calls and non-boolean conditions. It also drops the names a branch declared when the branch ends.
- **The interpreter** (`src/interpreter.rs`) runs the program over a variable table. `if` chains run their first true branch, and a branch's own declarations are removed when it ends. `out` prints.
- **The expression lexer** (`src/util/eval_lexer.rs`) is the same state machine for expressions. It has no comments, allows only `true` and `false` as words and does not append `EndOfFile`.
- **The expression evaluator** (`src/util/eval.rs`) evaluates parenthesised groups first. Then three passes fold `* / %`, then `+ -`, then the comparisons, each pass folding `a op b` into one token in the list.

Each stage is a module:

| Module | File | Contents |
|---|---|---|
| `Common` | `common.dfy` | Outcomes, positions, and integer text in both directions |
| `Lexer` | `lexer.dfy` | The source lexer |
| `EvalLexer` | `eval_lexer.dfy` | The expression lexer |
| `Eval` | `eval.dfy` | The evaluator |
| `Parser` | `parser.dfy` | The parser |
| `Check` | `check.dfy` | The checker |
| `Interpreter` | `interpreter.dfy` | The interpreter |

The stages that work by updating fields are classes whose methods mirror the source's methods: `Lexer`, `MathLexer`, `Parser`, `Checker` and `Interpreter`. Each method is proved to return what a function of the old state gives, and the properties are proved about those functions. A `panic!` or `unimplemented!` in the source is an `Err` value of the stage's error type.

## Model

| member | source | states |
|---|---|---|
| `Common.Advance` | src/lexer.rs:126-141 | Reading a newline moves to column 0 of the next line; any other character moves one column right on the same line |
| `Common.NextNonSpace` | src/lexer.rs:142-151 | The result is a non-space character of the text at or after the position; `None` exactly when only spaces remain |
| `Common.ParseInt` | src/util/eval.rs:178-180 | The empty text never parses; a run of decimal digits parses to its decimal value |
| `Common.IntToString` | src/util/eval.rs:178-180 | The printed form of an integer is non-empty and starts with `-` exactly when the integer is negative |
| `Common.ParseIntToString` | src/util/eval.rs:178-180 | Parsing the text an integer prints as gives the integer back, so integer results can be stored as token text without loss |
| `Lexer.Lexer.constructor` | src/lexer.rs:107-121 | A new lexer is running, has no text, and its snapshot is the start state of the lexing functions |
| `Lexer.NewToken` | src/lexer.rs:56-63 | `Token::new`: a token of the given kind and text, not yet placed (column 0 of line 0) |
| `Lexer.Token.IsString` | src/lexer.rs:68-70 | Holds exactly for a `String` token |
| `Lexer.Token.IsInteger` | src/lexer.rs:71-73 | Holds exactly for an `Integer` token |
| `Lexer.Token.IsFloat` | src/lexer.rs:74-76 | Holds exactly for a `FloatingPoint` token |
| `Lexer.Token.IsBool` | src/lexer.rs:77-79 | Holds exactly for a `Boolean` token |
| `Lexer.Token.IsDataType` | src/lexer.rs:80-82 | A token is a literal value exactly when it is a float, boolean, string or integer; `Interpreter.BuiltIn` prints a literal argument by this test |
| `Lexer.Token.TrueValue` | src/lexer.rs:83-89 | A string token is written back with a double quote on each side; every other token is its text unchanged |
| `Lexer.TrueValueRestoresLiteral` | src/lexer.rs:83-89 | For a quoted text without quotes or newlines, the first token `lex_text` gives is a string whose `true_value` is that quoted text again |
| `Lexer.WordToken` | src/lexer.rs:309-320 | The in-text keyword table: `and`, `or`, `import`, `return`, `if`, `else` and `fun` are keywords, `true` and `false` are booleans carrying their text, and any other word is an identifier carrying itself; `Lexer.WordBeforeSemicolon` proves a word before `;` is classified by it |
| `Lexer.FinalWordToken` | src/lexer.rs:436-446 | The end-of-input table: the in-text table except that `else` is an identifier, as `Lexer.ElseOnlyInsideText` shows |
| `Lexer.SymbolFor` | src/lexer.rs:327-424 | The operator table for a character and the one after it; no entry emits `EndOfFile`. A lone `=` asks for the arrow, `=` or `!` at the end of the text fails, and a character outside the table is rejected (`Lexer.OperatorTokens`, `Lexer.OperatorErrors`) |
| `Lexer.Step` | src/lexer.rs:213-425 | One loop pass on the character at the index; the index never moves back or past the last character. `Lexer.StepAppends` proves that a pass only appends tokens, and never `EndOfFile` |
| `Lexer.Finish` | src/lexer.rs:427-451 | After the last character: the pending number or word is emitted, an open string fails, then `EndOfFile` is appended (`Lexer.FinishEndsWithEof`, `Lexer.FinishShape`) |
| `Lexer.Scanning` | src/lexer.rs:207-451 | The `while self.run` loop: it steps through the text from a snapshot and then finishes; `Lexer.ScanningEndsWithEof` proves a success keeps the earlier tokens in front and ends with its only `EndOfFile` |
| `Lexer.Lexing` | src/lexer.rs:181-452 | `lex`: the loop runs only while `run` is on, otherwise the lexer only finishes; `Lexer.Lexer.Lex` is proved to return it |
| `Lexer.LexString` | src/lexer.rs:454-457 | `lex_text` on a fresh lexer; `Lexer.LexEndsWithEof` proves every success ends with exactly one `EndOfFile` |
| `Lexer.Lexer.PosStarter` | src/lexer.rs:122-125 | The token start becomes the current column and line |
| `Lexer.Lexer.NextChar` | src/lexer.rs:126-141 | It moves one character on and reports whether one was left; the new character and position follow `Advance`; at the end the position stays |
| `Lexer.Lexer.GetNextCharIgnoreSpace` | src/lexer.rs:142-151 | It returns the first non-space character after the current one, as `NextNonSpace` defines it |
| `Lexer.Lexer.AddBase` | src/lexer.rs:158-162 | It appends exactly one token, placed at the token start |
| `Lexer.Lexer.EmitNumber` | src/lexer.rs:295-307 | It emits the pending integer or float and clears the buffer, as `FlushNumber` gives |
| `Lexer.Lexer.OnQuote` | src/lexer.rs:213-228 | A quote closes the open string into a `String` token, or opens a string when no other token is pending; otherwise it fails |
| `Lexer.Lexer.OnDigit` | src/lexer.rs:243-257 | A digit extends the pending number or starts an integer |
| `Lexer.Lexer.OnWordChar` | src/lexer.rs:263-293 | A word character first emits a pending number, then extends the pending word or starts one |
| `Lexer.Lexer.OnSymbol` | src/lexer.rs:294-424 | Any other character emits the pending number or keyword, then follows the operator table; a two-character operator also consumes the next character |
| `Lexer.Lexer.OnChar` | src/lexer.rs:213-425 | One pass of the loop body dispatches exactly as `Step`, including the `.` of a decimal number |
| `Lexer.Lexer.Lex` | src/lexer.rs:181-452 | The loop's result is `Lexing` of the text from the lexer's snapshot |
| `Lexer.Lexer.LexText` | src/lexer.rs:454-457 | Loading a text and lexing it gives `Lexing` of that text |
| `Lexer.LexFresh` | src/lexer.rs:454-457 | A freshly made lexer lexes any text to `LexString` of it |
| `Lexer.StepAppends` | src/lexer.rs:213-425 | A loop pass only appends tokens, and never an `EndOfFile` |
| `Lexer.FinishEndsWithEof` | src/lexer.rs:427-451 | A successful finish appends the pending token, if any, and then the only `EndOfFile` |
| `Lexer.ScanningEndsWithEof` | src/lexer.rs:207-451 | A successful run keeps the tokens emitted so far at the front and ends with its only `EndOfFile` |
| `Lexer.LexEndsWithEof` | src/lexer.rs:450 | Every successful lexing ends with exactly one `EndOfFile`, at the end |
| `Lexer.AbsorbRun` | src/lexer.rs:230-293 | Characters that a pending string, comment, number or word absorbs only extend its buffer and the column |
| `Lexer.AbsorbToEnd` | src/lexer.rs:427-451 | Absorbing the rest of the text and then finishing is the same as finishing with the whole run in the buffer |
| `Lexer.FinishShape` | src/lexer.rs:427-451 | At the end, a pending number, word or open string becomes an `Integer`, `Float` or keyword/identifier token, or an unclosed-string error; then comes `EndOfFile` |
| `Lexer.FirstStep` | src/lexer.rs:207-212 | Lexing a non-empty text begins by reading its first character from the start state |
| `Lexer.OpenQuote` | src/lexer.rs:213-228 | A leading quote opens a string at column 1 |
| `Lexer.CloseQuote` | src/lexer.rs:213-228 | The closing quote of a string emits a `String` token with the body read so far |
| `Lexer.StringLiteral` | src/lexer.rs:213-242 | A quoted text without quotes or newlines lexes to one `String` token holding the text between the quotes |
| `Lexer.UnclosedStringFails` | src/lexer.rs:447-449 | Input that ends inside a string fails |
| `Lexer.NewlineInStringFails` | src/lexer.rs:230-233 | A newline inside a string fails |
| `Lexer.CommentLexesToNothing` | src/lexer.rs:359-372 | A line comment produces no token, only `EndOfFile` |
| `Lexer.FirstDigit` | src/lexer.rs:243-257 | A leading digit starts an integer at column 1 |
| `Lexer.DigitsLexToInteger` | src/lexer.rs:243-257 | A run of digits lexes to one `Integer` token with that text |
| `Lexer.DecimalPoint` | src/lexer.rs:258-262 | A `.` after digits and before a digit turns the pending integer into a float |
| `Lexer.Fraction` | src/lexer.rs:243-262 | The digits after the point extend the float up to the end of the text |
| `Lexer.DecimalLexesToFloat` | src/lexer.rs:258-262 | Digits, `.`, digits lex to one `FloatingPoint` token holding the whole text |
| `Lexer.FirstLetter` | src/lexer.rs:263-293 | A leading letter starts a word at column 1 |
| `Lexer.WordAtEnd` | src/lexer.rs:435-446 | A word that ends the input is classified by the end-of-input table |
| `Lexer.WordBeforeSemicolon` | src/lexer.rs:308-324 | A word followed by `;` is classified by the in-text keyword table, and the `;` follows it |
| `Lexer.ElseOnlyInsideText` | src/lexer.rs:309-320 | `else` is a keyword inside the text but an identifier at its end, because the end-of-input table lacks it |
| `Lexer.PairOperator` | src/lexer.rs:327-424 | An operator of two characters lexes to one token placed at its first character |
| `Lexer.OperatorTokens` | src/lexer.rs:327-355 | `<-` is the assignment arrow; `<=`, `>=`, `==` and `!=` are comparison tokens with their own text |
| `Lexer.OperatorErrors` | src/lexer.rs:327-424 | A lone `=` asks for the arrow, and a character outside the table is rejected |
| `EvalLexer.MathWord` | src/util/eval_lexer.rs:285-294 | A finished word is accepted exactly when it is `true` or `false`, and then it is a boolean with that text |
| `EvalLexer.MathLexer.constructor` | src/util/eval_lexer.rs:93-107 | A new expression lexer is running, has no text, and its snapshot is the start state |
| `EvalLexer.MathToken.IsString` | src/util/eval_lexer.rs:54-56 | Holds exactly for a `String` token |
| `EvalLexer.MathToken.IsInteger` | src/util/eval_lexer.rs:57-59 | Holds exactly for an `Integer` token |
| `EvalLexer.MathToken.IsFloat` | src/util/eval_lexer.rs:60-62 | Holds exactly for a `FloatingPoint` token |
| `EvalLexer.MathToken.IsBool` | src/util/eval_lexer.rs:63-65 | Holds exactly for a `Boolean` token |
| `EvalLexer.MathToken.IsDataType` | src/util/eval_lexer.rs:66-68 | A token is a value exactly when it is a float, boolean, string or integer; `Eval.Combine` gives only such tokens |
| `EvalLexer.MathToken.TrueValue` | src/util/eval_lexer.rs:69-75 | A string token is written back with a double quote on each side; every other token is its text unchanged |
| `EvalLexer.TrueValueRestoresLiteral` | src/util/eval_lexer.rs:69-75 | For a quoted text without quotes or newlines, the first token the expression lexer gives is a string whose `true_value` is that quoted text again |
| `EvalLexer.SymbolFor` | src/util/eval_lexer.rs:297-365 | The operator table for a character and the one after it; every token it emits is of a kind the table can emit (`EvalLexer.OperatorTokens`, `EvalLexer.ComparisonTokens`, `EvalLexer.LoneEqualsOrBangFails`) |
| `EvalLexer.Step` | src/util/eval_lexer.rs:196-366 | One loop pass on the character at the index; the index never moves back or past the last character. `EvalLexer.StepEmittable` proves that a pass only appends emittable tokens |
| `EvalLexer.Finish` | src/util/eval_lexer.rs:368-388 | After the last character: the pending number or boolean word is emitted, another word or an open string fails, and no `EndOfFile` is added (`EvalLexer.FinishShape`) |
| `EvalLexer.Scanning` | src/util/eval_lexer.rs:190-388 | The lexing loop from a snapshot to the end of the text, then the finish; `EvalLexer.ScanningEmittable` proves a success holds only emittable kinds |
| `EvalLexer.Lexing` | src/util/eval_lexer.rs:164-389 | `lex`: the loop runs only while `run` is on, otherwise the lexer only finishes; `EvalLexer.MathLexer.Lex` is proved to return it |
| `EvalLexer.LexMath` | src/util/eval_lexer.rs:391-394 | `lex_text` on a fresh expression lexer; `EvalLexer.NeverGreaterThanOrEqualTo` proves no success holds `GreaterThanOrEqualTo` or `Power` |
| `EvalLexer.MathLexer.PosStarter` | src/util/eval_lexer.rs:108-111 | The token start becomes the current column and line |
| `EvalLexer.MathLexer.NextChar` | src/util/eval_lexer.rs:112-127 | It moves one character on and reports whether one was left; the new character and position follow `Advance` |
| `EvalLexer.MathLexer.GetNextCharIgnoreSpace` | src/util/eval_lexer.rs:128-137 | It returns the first non-space character after the current one |
| `EvalLexer.MathLexer.AddBase` | src/util/eval_lexer.rs:144-148 | It appends exactly one token, placed at the token start |
| `EvalLexer.MathLexer.EmitNumber` | src/util/eval_lexer.rs:272-284 | It emits the pending integer or float, as `FlushNumber` gives |
| `EvalLexer.MathLexer.EmitWord` | src/util/eval_lexer.rs:285-294 | It emits the pending word when it is a boolean and fails otherwise, as `FlushWord` gives |
| `EvalLexer.MathLexer.OnQuote` | src/util/eval_lexer.rs:196-211 | A quote closes the open string or opens one, as `QuoteStep` gives |
| `EvalLexer.MathLexer.OnDigit` | src/util/eval_lexer.rs:220-234 | A digit extends the pending number or starts an integer |
| `EvalLexer.MathLexer.OnWordChar` | src/util/eval_lexer.rs:240-270 | A word character emits a pending number, then extends or starts a word |
| `EvalLexer.MathLexer.OnSymbol` | src/util/eval_lexer.rs:271-366 | Any other character emits what is pending, then follows the operator table |
| `EvalLexer.MathLexer.OnChar` | src/util/eval_lexer.rs:196-366 | One pass of the loop body dispatches exactly as `Step` |
| `EvalLexer.MathLexer.Lex` | src/util/eval_lexer.rs:164-389 | The loop's result is `Lexing` of the text from the lexer's snapshot |
| `EvalLexer.MathLexer.LexText` | src/util/eval_lexer.rs:391-394 | Loading a text and lexing it gives `Lexing` of that text |
| `EvalLexer.LexFresh` | src/util/eval_lexer.rs:391-394 | A freshly made expression lexer lexes any text to `LexMath` of it |
| `EvalLexer.StepEmittable` | src/util/eval_lexer.rs:196-366 | A successful loop pass keeps the tokens so far in front and appends only tokens of kinds the table can emit |
| `EvalLexer.ScanningEmittable` | src/util/eval_lexer.rs:164-389 | A successful run keeps the tokens so far in front, and every token it returns is of a kind the table can emit |
| `EvalLexer.NeverGreaterThanOrEqualTo` | src/util/eval_lexer.rs:340-341 | No input ever lexes to a `GreaterThanOrEqualTo` or `Power` token |
| `EvalLexer.AbsorbRun` | src/util/eval_lexer.rs:213-270 | Characters that a pending string, number or word absorbs only extend its buffer and the column |
| `EvalLexer.AbsorbToEnd` | src/util/eval_lexer.rs:368-388 | Absorbing the rest of the text and then finishing is finishing with the whole run in the buffer |
| `EvalLexer.FinishShape` | src/util/eval_lexer.rs:368-388 | At the end, a pending number, boolean word or open string becomes a token or an error, and no `EndOfFile` is added |
| `EvalLexer.FirstStep` | src/util/eval_lexer.rs:190-196 | Lexing a non-empty text begins by reading its first character from the start state |
| `EvalLexer.CloseQuote` | src/util/eval_lexer.rs:196-211 | The closing quote emits a `String` token with the body read so far |
| `EvalLexer.StringLiteral` | src/util/eval_lexer.rs:196-219 | A quoted text without quotes or newlines lexes to one `String` token without its quotes |
| `EvalLexer.UnclosedStringFails` | src/util/eval_lexer.rs:385-387 | Input that ends inside a string fails |
| `EvalLexer.NewlineInStringFails` | src/util/eval_lexer.rs:213-218 | A newline inside a string fails |
| `EvalLexer.FirstDigit` | src/util/eval_lexer.rs:220-234 | A leading digit starts an integer at column 1 |
| `EvalLexer.DigitsLexToInteger` | src/util/eval_lexer.rs:220-234 | A run of digits lexes to one `Integer` token with that text, and nothing else |
| `EvalLexer.DecimalPoint` | src/util/eval_lexer.rs:235-239 | A `.` after digits and before a digit turns the pending integer into a float |
| `EvalLexer.Fraction` | src/util/eval_lexer.rs:220-239 | The digits after the point extend the float up to the end of the text |
| `EvalLexer.DecimalLexesToFloat` | src/util/eval_lexer.rs:235-239 | Digits, `.`, digits lex to one `FloatingPoint` token holding the whole text |
| `EvalLexer.WordAtEnd` | src/util/eval_lexer.rs:376-381 | A word that ends the input is a boolean token when it is `true` or `false`, and an error otherwise |
| `EvalLexer.SingleOperator` | src/util/eval_lexer.rs:326-332 | An arithmetic operator or parenthesis lexes to one token of its own kind |
| `EvalLexer.PairOperator` | src/util/eval_lexer.rs:297-365 | An operator of two characters lexes to one token |
| `EvalLexer.OperatorTokens` | src/util/eval_lexer.rs:326-332 | Each of `+ - * / % ( )` has its own token kind |
| `EvalLexer.OperatorBeforeDigit` | src/util/eval_lexer.rs:220-360 | An operator of one character followed by a digit lexes to that operator's token at column 1 and an `Integer` token holding the digit at column 2 |
| `EvalLexer.ComparisonTokens` | src/util/eval_lexer.rs:298-360 | `==`, `!=` and `<=` lex to their own kinds, `>=` lexes to `GreaterThan` like `>`, and `<1` and `>1` lex to `LessThan` and `GreaterThan` followed by the integer `1` at column 2 |
| `EvalLexer.LoneEqualsOrBangFails` | src/util/eval_lexer.rs:298-325 | `=` or `!` not followed by `=` fails |
| `Eval.BoolText` | src/util/eval.rs:409 | A boolean prints as `true` exactly when it holds and as `false` otherwise |
| `Eval.Combine` | src/util/eval.rs:62-84 | Operands of different types fail; a fold that succeeds gives a data token at the right operand's position |
| `Eval.IntResult` | src/util/eval.rs:62-450 | The integer branch of every operator: the kind and text of the result, or the error; `Eval.IntResultOutcomes`, `Eval.IntegerArithmetic` and `Eval.IntegerComparison` state its outcomes and values |
| `Eval.IntResultOutcomes` | src/util/eval.rs:62-450 | An integer operation fails with division by zero exactly for `/` or `%` by 0, and as no operator exactly for a kind outside the three passes, with no other error; a success is a boolean exactly for a comparison and an integer otherwise |
| `Eval.Slot` | src/util/eval.rs:418-427 | Where a fold is inserted: just before the operator, except for `==`/`!=` on strings and booleans, which use the `+ -` pass's index; `Eval.MisplacedSecond` shows the consequence |
| `Eval.Reduce` | src/util/eval.rs:58-68 | A fold removes the operator and its two operands and inserts one token: the list shrinks by two |
| `Eval.TierLoop` | src/util/eval.rs:155-232 | One pass from the top of its `while` loop: it stops when one token is left or after two wrap-arounds without a fold. `Eval.PassLeaves` proves a success leaves one token or none of the pass's operators |
| `Eval.Tiers` | src/util/eval.rs:41-478 | The `* / %`, `+ -` and comparison passes in that order, then exactly one token must be left; `Eval.PassesGive` and `Eval.PassOverOne` state its result |
| `Eval.PartitionFrom` | src/util/eval.rs:18-40 | The grouping loop: a group at depth zero is replaced by its value and other tokens pass on in order; a `)` outside every group fails (`Eval.PartitionPlain`, `Eval.GroupReplaced`, `Eval.OverClosingFails`) |
| `Eval.EvalTokens` | src/util/eval.rs:11-478 | `eval`: the empty list fails, otherwise grouping and then the passes; `Eval.SingleOperation` proves `a o b` evaluates to the fold of `a` and `b` |
| `Eval.EvalText` | src/util/eval.rs:3-9 | `eval_string`: the empty text fails, a lexing error is passed on, otherwise the tokens are evaluated (`Eval.EmptyTextFails`) |
| `Eval.RunTier` | src/util/eval.rs:153-232 | One pass of the `while` loop returns what `TierLoop` gives for the list and the stored index |
| `Eval.Evaluate` | src/util/eval.rs:11-478 | Grouping, then the three passes, give exactly `EvalTokens` |
| `Eval.EvaluateText` | src/util/eval.rs:3-9 | The empty text fails; otherwise the result is `EvalText`: lex, then evaluate |
| `Eval.PartitionPlain` | src/util/eval.rs:18-39 | Tokens outside any parenthesis are passed on unchanged and in order |
| `Eval.PassSkip` | src/util/eval.rs:164-165 | A token that is not one of the pass's operators is stepped over |
| `Eval.PassWrap` | src/util/eval.rs:160-163 | Running off the end starts again at index 0 and counts one round |
| `Eval.PassFold` | src/util/eval.rs:165-180 | An operator of the pass is folded, the round count restarts, and the scan goes on at the next index |
| `Eval.LeavesShorter` | src/util/eval.rs:155-232 | A pass's guarantee for the list after a fold carries over to the list before it |
| `Eval.PassLeavesFrom` | src/util/eval.rs:155-232 | From any point of the loop, a successful pass leaves one token or none of its operators, and removes tokens two at a time |
| `Eval.PassLeaves` | src/util/eval.rs:155-232 | A successful pass leaves one token or none of its operators, removes tokens two at a time, and stops at index 1 unless one token is left |
| `Eval.PassWithoutOperators` | src/util/eval.rs:43-51 | A pass over a list holding none of its operators changes nothing |
| `Eval.TruncDivRem` | src/util/eval.rs:99-133 | Integer `/` and `%` round toward zero: quotient times divisor plus remainder is the dividend, and the remainder is smaller than the divisor and has the dividend's sign |
| `Eval.IntegerArithmetic` | src/util/eval.rs:66-132 | Integer `* / % + -` gives an integer token at the right operand that reads back as the exact result; `/` and `%` by zero are exactly the failing cases |
| `Eval.IntegerComparison` | src/util/eval.rs:255-450 | An integer comparison gives the boolean `true` exactly when it holds and `false` exactly when it does not |
| `Eval.ComparisonGivesBoolean` | src/util/eval.rs:255-466 | Every comparison that succeeds gives a `Boolean` token with the text `true` or `false` |
| `Eval.StringOperators` | src/util/eval.rs:186-189 | Strings allow exactly `+` (concatenation), `==` and `!=` (on the text); every other operator fails |
| `Eval.BooleanOperators` | src/util/eval.rs:423-427 | Booleans allow exactly `==` and `!=`, which compare the text |
| `Eval.NonDataOperands` | src/util/eval.rs:74-81 | Two operands of the same non-data kind never fold |
| `Eval.PlainExpression` | src/util/eval.rs:18-39 | An expression without parentheses reaches the passes unchanged |
| `Eval.GatherGroup` | src/util/eval.rs:29-35 | Tokens inside an open group are gathered unchanged |
| `Eval.OverClosingFails` | src/util/eval.rs:26-27 | A `)` outside every group aborts the evaluation |
| `Eval.PartitionSkip` | src/util/eval.rs:36-37 | Tokens outside any group, over a whole range, are passed on in order |
| `Eval.GroupReplaced` | src/util/eval.rs:19-25 | A parenthesised group is replaced in place by the value of its contents, and a failure inside it is the evaluation's failure |
| `Eval.PassesGive` | src/util/eval.rs:474-477 | When the three passes succeed and the last leaves one token, that token is the result |
| `Eval.PassOverOne` | src/util/eval.rs:41-232 | On `a o b`, the pass that owns `o` folds it, and the other passes leave the list alone |
| `Eval.SingleOperation` | src/util/eval.rs:11-478 | One operator between two values evaluates to the two folded together, or fails as that fold fails |
| `Eval.NumberEvaluatesToItself` | src/util/eval.rs:492 | A number alone evaluates to itself |
| `Eval.EmptyTextFails` | src/util/eval.rs:4-6 | The empty text aborts |
| `Eval.AddAndDivide` | src/util/eval.rs:493-495 | `1 + 1` evaluates to 2 and `1/1` evaluates to 1 |
| `Eval.PlainEval` | src/util/eval.rs:15-39 | An expression without parentheses goes straight to the passes |
| `Eval.AfterSecondPass` | src/util/eval.rs:234-240 | When the `+ -` pass fails or leaves one token, the comparison pass adds nothing |
| `Eval.ReduceFront` | src/util/eval.rs:58-60 | Folding the operator at index 1 puts the result first |
| `Eval.ProductPass` | src/util/eval.rs:41-151 | In `a * b + c`, the first pass folds the product and stops at index 1 |
| `Eval.ProductPassRight` | src/util/eval.rs:41-151 | In `a + b * c`, the first pass folds the product on the right |
| `Eval.ProductThenSum` | src/util/eval.rs:41-232 | `a * b + c` folds the product first, then the sum |
| `Eval.SumThenProduct` | src/util/eval.rs:41-232 | `a + b * c` folds the product first, then the sum |
| `Eval.ProductBeforeSum` | src/util/eval.rs:494 | `43 * 0 + 43` evaluates to 43 |
| `Eval.IntegerComparisonExample` | src/util/eval.rs:255-450 | An integer comparison between two values evaluates to the boolean telling whether it holds, at the right operand's position |
| `Eval.ComparisonsThatHold` | src/util/eval.rs:497-500 | `123 == 123`, `123 > 120` and `123 != 120` evaluate to `true` |
| `Eval.ComparisonsThatFail` | src/util/eval.rs:499-502 | `123 < 120` and `123 <= 120` evaluate to `false` |
| `Eval.GreaterOrEqualIsStrict` | src/util/eval.rs:501 | `>=` behaves as `>`: `123 >= 120` is `true` but `120 >= 120` is `false` |
| `Eval.ReduceAt` | src/util/eval.rs:170-180 | A fold at any index removes the three tokens and inserts the result just before the operator's old place |
| `Eval.RegroupFirst` | src/util/eval.rs:43-198 | In `a o1 b o2 c o3 d`, the `* / %` or the `+ -` pass folds `a o1 b` and moves on past `o2` |
| `Eval.RegroupSecond` | src/util/eval.rs:43-198 | It then folds `c o3 d` and wraps around |
| `Eval.RegroupLast` | src/util/eval.rs:43-232 | It folds `o2` last |
| `Eval.PassRegroups` | src/util/eval.rs:43-232 | As written, the `* / %` or the `+ -` pass over three of its operators gives `(a o1 b) o2 (c o3 d)` |
| `Eval.SumsRegroup` | src/util/eval.rs:155-232 | As written, a chain of three `+`/`-` operators evaluates to `(a o1 b) o2 (c o3 d)` |
| `Eval.SubtractionRegroups` | src/util/eval.rs:199-214 | As written, `10 - 1 - 1 - 1` evaluates to 9 |
| `Eval.ProductsRegroup` | src/util/eval.rs:41-151 | As written, a chain of three `* / %` operators evaluates to `(a o1 b) o2 (c o3 d)` |
| `Eval.DivisionSteps` | src/util/eval.rs:86-117 | The integer divisions `8 / 2`, `2 / 2`, `4 / 1` and `4 / 2` give 4, 1, 4 and 2, each at the right operand's position |
| `Eval.DivisionRegroups` | src/util/eval.rs:41-151 | As written, `8 / 2 / 2 / 2` evaluates to 4 |
| `Eval.ReduceInPlace` | src/util/eval.rs:170-180 | Corrected fold: it succeeds exactly when both operands exist and fold, and the result takes the operands' place |
| `Eval.TierLoopFixed` | src/util/eval.rs:155-232 | The pass as evidently intended, resuming at the folded token; `Eval.FixedPassFoldsLeft` proves it folds a `+ -` chain to its left-to-right value |
| `Eval.Apply` | src/util/eval.rs:199-214 | The reference value of one `+` or `-` step, used by `Eval.LeftFold` to state the left-to-right value of a chain |
| `Eval.FoldFirst` | src/util/eval.rs:165-214 | Replacing the first operation of a `+ -` chain by its value keeps a chain with the same left-to-right value |
| `Eval.FixedFoldsFrom` | src/util/eval.rs:155-232 | With the corrected pass, a `+ -` chain folds from the front to one integer whose value is the left-to-right value |
| `Eval.FixedPassFoldsLeft` | src/util/eval.rs:155-232 | With the corrected pass, a whole `+ -` chain evaluates to its left-to-right value |
| `Eval.LeftFoldOfThree` | src/util/eval.rs:155-232 | The left-to-right value of a chain of three operators is `((a o1 b) o2 c) o3 d` |
| `Eval.ChainOfThree` | src/util/eval.rs:165-214 | Four integers joined by three `+`/`-` operators form a chain |
| `Eval.FixedChainOfThree` | src/util/eval.rs:155-232 | With the correction, `a o1 b o2 c o3 d` is `((a o1 b) o2 c) o3 d` |
| `Eval.SubtractionFixed` | src/util/eval.rs:199-214 | With the correction, `10 - 1 - 1 - 1` evaluates to 7 |
| `Eval.DivisionFixed` | src/util/eval.rs:41-151 | With the correction, the `* / %` pass gives 1 for `8 / 2 / 2 / 2` |
| `Eval.MisplacedFirst` | src/util/eval.rs:395-411 | In a comparison pass over `a o1 b o2 c o3 d`, the first fold lands in place |
| `Eval.MisplacedSecond` | src/util/eval.rs:418-427 | An `==` or `!=` fold of strings or booleans lands at the front of the list, not in place |
| `Eval.MisplacedLast` | src/util/eval.rs:395-438 | After that, the list has an operator at its end and the pass aborts |
| `Eval.MisplacedEqualityPass` | src/util/eval.rs:395-466 | As written, that comparison pass aborts for a third operator `==`/`!=` on strings or booleans |
| `Eval.ComparisonsOnly` | src/util/eval.rs:41-232 | An expression of comparisons only reaches the comparison pass unchanged, and its failure is the result |
| `Eval.MisplacedEqualityFails` | src/util/eval.rs:395-466 | As written, `a == b == c == d`, with `c` and `d` strings or booleans, aborts |
| `Eval.MisplacedEquality` | src/util/eval.rs:418-427 | As written, `1 == 1 == true == true` aborts with a missing operand |
| `Eval.FixedEquality` | src/util/eval.rs:395-427 | With each fold kept in place, the comparison pass reads `1 == 1 == true == true` left to right and gives `true` |
| `Eval.TierLoopSlotFixed` | src/util/eval.rs:395-466 | The source's pass with only the slot of `==`/`!=` on strings and booleans corrected: it resumes where the source does and keeps every fold in place; `Eval.SlotFixedAgrees` and `Eval.SlotFixedEquality` prove its properties |
| `Eval.ReduceAgrees` | src/util/eval.rs:58-450 | For any operator other than `==` and `!=`, the source's fold and the in-place fold give the same outcome |
| `Eval.SlotFixedAgrees` | src/util/eval.rs:395-466 | On a list without `==` or `!=`, the slot-corrected pass gives exactly the source's pass, whatever the pass, index and `+ -` index: the slot is the only change |
| `Eval.SlotFixedEquality` | src/util/eval.rs:418-427 | Correcting the slot alone, with the source's resume step kept, `1 == 1 == true == true` gives `true`: the slot is the whole cause of the abort |
| `Parser.TypeKeyword` | src/parser.rs:14-22 | Every declarable type has a keyword that `str_to_types` maps back to it |
| `Parser.StrToTypes` | src/parser.rs:14-22 | Exactly the four type keywords name a type, and never `Struct` |
| `Parser.DataTokenTypeToTypes` | src/parser.rs:24-32 | Exactly the literal token kinds have a type, and it is never `Struct` |
| `Parser.ScopeValid` | src/parser.rs:101-141 | The block stack holds the program at the bottom and open `if` chains with at least one branch above it; `Parser.PushTop`, `Parser.AddElseTo`, `Parser.UnScope` and `Parser.Statement` keep it |
| `Parser.PushInto` | src/parser.rs:101-113 | A program gets the statement at the end of its list; an `if` chain gets it at the end of its last branch |
| `Parser.PushTop` | src/parser.rs:101-113 | Only the top of the stack changes, by `PushInto`, and the stack stays well formed |
| `Parser.AddElseTo` | src/parser.rs:126-137 | Adding an `else` fails exactly when only the program is open; otherwise the top chain gains a branch and the stack stays well formed |
| `Parser.UnScope` | src/parser.rs:138-141 | The top block becomes the last statement of the entry below it |
| `Parser.Finish` | src/parser.rs:294-308 | The result is the program exactly when no block is open; otherwise an error at the last branch of the top block |
| `Parser.Declaration` | src/parser.rs:153-187 | `int x <- ...;`: a name and `<-` must follow the type keyword; the declaration joins the innermost block (`Parser.DeclarationAppends`) |
| `Parser.IfAt` | src/parser.rs:188-203 | `if cond {` opens a new chain with one branch on the stack (`Parser.IfOpensBlock`) |
| `Parser.ElseAt` | src/parser.rs:204-229 | `else if` adds a branch with its condition, a bare `else` one whose condition is `true`; either needs an open chain (`Parser.ElseNeedsIf`, `Parser.ElseIsAlwaysTrue`) |
| `Parser.IdentifierAt` | src/parser.rs:231-278 | A name followed by `(` is a call that needs `;`, one followed by `<-` a reassignment that needs a value, and any other token after it is swallowed (`Parser.CallAppends`, `Parser.EmptyReassignment`, `Parser.BareNameSwallowsNext`) |
| `Parser.CloseAt` | src/parser.rs:280-287 | `}` before `else` keeps the chain open; otherwise the top block closes, and closing the program fails (`Parser.CloseBrace`) |
| `Parser.Statement` | src/parser.rs:148-292 | One pass of the main loop: a success moves the index forward within the list and keeps the stack valid; `Parser.StatementKeepsProgram` proves the program's statements so far stay in front |
| `Parser.ParseLoop` | src/parser.rs:148-292 | The main loop to the end of the tokens; a success is a `Program`, and `Parser.ProgramGrows` proves the statements parsed before stay in front |
| `Parser.ParseFrom` | src/parser.rs:142-309 | `parse`: a parser whose loop already ended only finishes again; a success is a `Program` |
| `Parser.ValuesFrom` | src/parser.rs:170-182 | A successful expression read ends at a `;` after the start |
| `Parser.AllowedInExpression` | src/parser.rs:144-147 | The tokens an expression may hold: literals, identifiers, math and comparison operators and `)`, but not `(`; `Parser.ValuesUpTo` shows an expression of such tokens is read up to its `;` |
| `Parser.CondFrom` | src/parser.rs:188-203 | A successful condition read ends at a `{` after the start; running out of input fails |
| `Parser.ArgsFrom` | src/parser.rs:231-258 | A successful argument read ends at a `)` before the last token |
| `Parser.Parser.constructor` | src/parser.rs:59-69 | A new parser is running, has no tokens, and its stack holds only an empty program |
| `Parser.Parser.NextToken` | src/parser.rs:70-78 | It moves the index on and reports whether a token was there; past the end the current token stays |
| `Parser.Parser.GetNextToken` | src/parser.rs:79-86 | It returns the token after the current one, exactly when there is one |
| `Parser.Parser.AddToTopOfStack` | src/parser.rs:101-113 | The stack becomes `PushTop` of the old stack |
| `Parser.Parser.AddIf` | src/parser.rs:123-125 | A new chain with one empty branch holding the condition is pushed |
| `Parser.Parser.AddElse` | src/parser.rs:126-137 | The stack and result follow `AddElseTo` |
| `Parser.Parser.UnScopeTop` | src/parser.rs:138-141 | The stack becomes `UnScope` of the old stack |
| `Parser.Parser.ReadValues` | src/parser.rs:170-182 | The expression loop returns what `ValuesFrom` gives and stops on the `;` |
| `Parser.Parser.ReadCondition` | src/parser.rs:188-203 | The condition loop returns what `CondFrom` gives |
| `Parser.Parser.ReadArguments` | src/parser.rs:231-258 | The argument loop returns what `ArgsFrom` gives |
| `Parser.Parser.ParseDeclaration` | src/parser.rs:153-187 | A declaration updates the index and stack as `Declaration` gives |
| `Parser.Parser.ParseIf` | src/parser.rs:188-203 | An `if` updates the index and stack as `IfAt` gives |
| `Parser.Parser.ParseElse` | src/parser.rs:204-229 | An `else` updates the index and stack as `ElseAt` gives |
| `Parser.Parser.ParseIdentifier` | src/parser.rs:231-278 | A call or reassignment updates the index and stack as `IdentifierAt` gives |
| `Parser.Parser.CloseBlock` | src/parser.rs:280-287 | A `}` updates the stack as `CloseAt` gives |
| `Parser.Parser.Step` | src/parser.rs:148-292 | One pass of the main loop follows `Statement` |
| `Parser.Parser.Parse` | src/parser.rs:142-309 | `parse` returns exactly `ParseFrom` of the old state |
| `Parser.Parser.ParseText` | src/parser.rs:87-97 | Parsing a text lexes it, fails as lexing fails, and otherwise parses the lexer's tokens |
| `Parser.ValuesUpTo` | src/parser.rs:170-182 | An expression whose tokens before the first `;` are all allowed is exactly those tokens |
| `Parser.ValuesStopAt` | src/parser.rs:170-182 | The first token that is neither allowed nor `;` stops the expression with an error naming its kind |
| `Parser.CondUpTo` | src/parser.rs:188-203 | A condition is every token up to the first `{` |
| `Parser.CondNeverOpens` | src/parser.rs:188-203 | An `if` whose `{` never comes fails at the end of input |
| `Parser.IfOpensBlock` | src/parser.rs:188-203 | `if c {` pushes a chain with one empty branch holding `c` and the `if`'s position |
| `Parser.ElseNeedsIf` | src/parser.rs:126-137 | A well-formed `else` with only the program open fails |
| `Parser.ElseIsAlwaysTrue` | src/parser.rs:204-229 | A bare `else {` adds a branch whose condition is the literal `true` |
| `Parser.CloseBrace` | src/parser.rs:280-287 | `}` before `else` leaves the stack alone; any other `}` closes the top block, and fails with only the program open |
| `Parser.DeclarationAppends` | src/parser.rs:153-187 | A declaration with an allowed expression appends one `VariableAssignment` to the innermost open block |
| `Parser.EmptyReassignment` | src/parser.rs:274-276 | A reassignment with no value fails |
| `Parser.CallNeedsEndLine` | src/parser.rs:231-258 | A call's `)` must be followed by `;`; then the call is appended to the innermost open block |
| `Parser.ArgsUpTo` | src/parser.rs:231-258 | A call's arguments are every token up to the first `)`, when all of them may stand in an argument list |
| `Parser.CallAppends` | src/parser.rs:231-258 | `f(args);` appends one `FuncCall` holding the tokens between the parentheses |
| `Parser.BareNameSwallowsNext` | src/parser.rs:231-278 | A name followed by anything but `(` or `<-` does nothing, and the next token is used up with it |
| `Parser.PushKeepsProgram` | src/parser.rs:101-113 | Pushing a statement keeps the program's statements at its front |
| `Parser.StatementKeepsProgram` | src/parser.rs:148-292 | A statement only appends to the program: what it held stays at its front |
| `Parser.ProgramGrows` | src/parser.rs:142-309 | Statements once in the program are in the parse result, in order and at its front |
| `Parser.EndInsideBlock` | src/parser.rs:294-307 | Input that ends inside a block fails at the position of the block's last branch |
| `Parser.IfElseOpens` | src/parser.rs:188-203 | On `if true { out(1); } else { int y <- 2; }`, the `if` opens a chain |
| `Parser.IfElseCalls` | src/parser.rs:231-258 | The call `out(1);` goes into the open branch |
| `Parser.IfElseAddsBranch` | src/parser.rs:280-287 | The `}` before `else` keeps the chain open, and the `else {` adds a branch |
| `Parser.IfElseDeclares` | src/parser.rs:153-187 | The declaration goes into the second branch |
| `Parser.IfElseCloses` | src/parser.rs:280-287 | The last `}` closes the chain into the program |
| `Parser.IfElseProgram` | src/parser.rs:142-309 | The whole text parses to one chain of two branches, the second with the condition `true` |
| `Parser.UnclosedIf` | src/parser.rs:294-307 | Input that ends inside an `if` fails at the `if`'s position |
| `Parser.ParenthesisRejected` | src/parser.rs:144-147 | As written, a declaration whose expression holds a `(` fails there |
| `Parser.GroupedDeclarationFails` | src/parser.rs:144-182 | As written, `int x <- (1);` does not parse |
| `Parser.ValuesFromFixed` | src/parser.rs:170-182 | With `(` allowed, a successful expression read still ends at a `;` |
| `Parser.FixedValuesExtend` | src/parser.rs:170-182 | Every expression the source accepts is read the same way by the corrected loop |
| `Parser.FixedValuesUpTo` | src/parser.rs:170-182 | The corrected loop accepts any run of allowed tokens or `(` up to the `;` |
| `Parser.DeclarationFixed` | src/parser.rs:153-187 | A corrected declaration ends on its `;` and keeps the stack well formed |
| `Parser.FixedDeclarationExtends` | src/parser.rs:153-187 | Every declaration the source accepts reads the same with the correction |
| `Parser.FixedDeclarationAppends` | src/parser.rs:153-187 | With the correction, a declaration whose expression holds `(` appends its `VariableAssignment` |
| `Parser.GroupedDeclares` | src/parser.rs:153-187 | With the correction, the declaration of `int x <- (1);` appends its assignment |
| `Parser.GroupedDeclarationFixed` | src/parser.rs:153-187 | With the correction, `int x <- (1);` declares `x` with the tokens `( 1 )` |
| `Check.ParseTypeToVarTypes` | src/check.rs:45-56 | Exactly the value slot types name a variable type, and never `Struct` |
| `Check.VarTypesToParseType` | src/check.rs:34-44 | Every type but `Struct` has a slot type, and converting it back gives the type again |
| `Check.ValueTypeRoundTrip` | src/check.rs:34-56 | Converting a value slot type to a variable type and back gives it again |
| `Check.TokenTypeToParseType` | src/check.rs:19-33 | Exactly literals, operators and parentheses have a slot type, and a literal's agrees with the parser's type for it |
| `Check.Fold` | src/check.rs:124-162 | A fold fails exactly when an operand is missing or the two operands differ in type; a success removes two slots |
| `Check.TierLoop` | src/check.rs:111-164 | A successful pass leaves at least one slot and removes slots two at a time; its errors are the evaluator's |
| `Check.Group` | src/check.rs:84-110 | Grouping never leaves a parenthesis behind when none was outside the groups; its errors are the evaluator's |
| `Check.TypeOf` | src/check.rs:83-170 | The type of a slot list is never a parenthesis; its errors are the evaluator's |
| `Check.Passes` | src/check.rs:111-169 | After both passes and the one-slot check, the result is never a parenthesis |
| `Check.SlotFor` | src/check.rs:174-193 | A literal, operator or parenthesis gives its own slot type; a declared variable its declared type; an unknown name fails |
| `Check.SlotsFrom` | src/check.rs:172-194 | The slots keep those read so far at the front, at most one per token |
| `Check.TypeOfTokens` | src/check.rs:172-196 | `TypeEvaluator::parse`: the type of an expression is never a parenthesis, and a failure is never a missing removed name |
| `Check.ExprType` | src/check.rs:172-196 | An expression's variable type is never `Struct` |
| `Check.TypeEvaluator.Eval` | src/check.rs:83-170 | The evaluator's loops return exactly `TypeOf` of the slots |
| `Check.TypeEvaluator.Parse` | src/check.rs:172-196 | `parse` returns exactly the type of the tokens under the tables |
| `Check.RunTier` | src/check.rs:111-136 | One pass's loop returns exactly `TierLoop` |
| `Check.CheckDeclaration` | src/check.rs:242-274 | A declaration passes exactly when its name is new, its expression has an odd number of tokens and has the declared type |
| `Check.CheckReassignment` | src/check.rs:276-309 | A reassignment passes exactly when the name is declared, the expression has an odd number of tokens and has the stored type; an unknown name is `Undefined` |
| `Check.MatchArg` | src/check.rs:352-415 | A parameter of kind `Any` accepts every type; `Struct` and variadic parameters are unsupported; any other failure is a mismatch naming both types (`Check.VarTypesToArgType` shows each named kind accepts exactly its own type) |
| `Check.VarTypesToArgType` | src/check.rs:220-229 | Every type but `Struct` has a parameter kind, and that kind accepts exactly that type |
| `Check.CheckArgsFrom` | src/check.rs:348-424 | The argument loop passes exactly when every argument fits its parameter |
| `Check.CheckCall` | src/check.rs:339-425 | A call passes exactly when the function is known, the argument count matches, and every argument fits |
| `Check.CheckArg` | src/check.rs:348-424 | One argument: a literal is matched by its own type, a declared variable by its stored type, anything else fails; `Check.CheckArgsFrom` and `Check.CheckCall` state the loop over it |
| `Check.CheckStatement` | src/check.rs:432-453 | `individual_check`: a declaration adds its name and reports it, the other statements report nothing; `Check.StatementScope` proves a declaration extends the table by exactly its name and any other statement leaves the table as it was |
| `Check.CheckBranchesFrom` | src/check.rs:426-430 | `condition_check`: every branch is checked, each against the table the one before left; `Check.BranchesScope` and `Check.ConditionsRestoreTable` prove the names come back as they were |
| `Check.CheckBranch` | src/check.rs:311-337 | `individual_conditional_check`: the condition must be `bool`, then the body is checked and its own names dropped (`Check.BranchScope`, `Check.EveryConditionIsBool`) |
| `Check.CheckBodyFrom` | src/check.rs:323-329 | The statement loop of a branch body, collecting the names declared directly in it (`Check.BodyScope`) |
| `Check.DropFrom` | src/check.rs:330-335 | The removal loop: every collected name is removed and recorded in order, and a missing one fails (`Check.DropAll`, `Check.NeverMissingAtBranchEnd`) |
| `Check.CheckProgramOf` | src/check.rs:455-466 | `check_program`: anything but a `Program` fails, otherwise its statements are checked in order |
| `Check.Checker.constructor` | src/check.rs:232-241 | A new checker has no variables, knows only `out`, and has removed nothing |
| `Check.Checker.TypeOfExpression` | src/check.rs:258-267 | The evaluator over copies of the tables gives `ExprType` |
| `Check.Checker.VariableCheck` | src/check.rs:242-274 | The result is `CheckDeclaration` under the current tables |
| `Check.Checker.VarReassignCheck` | src/check.rs:276-309 | The result is `CheckReassignment` under the current tables |
| `Check.Checker.FuncCallCheck` | src/check.rs:339-425 | The result is `CheckCall` under the current tables |
| `Check.Checker.IndividualCheck` | src/check.rs:432-453 | The new tables and result are those `CheckStatement` gives |
| `Check.Checker.ConditionCheck` | src/check.rs:426-430 | The new tables and result are those the branch loop gives |
| `Check.Checker.IndividualConditionalCheck` | src/check.rs:311-337 | The new tables and result are those `CheckBranch` gives |
| `Check.Checker.CheckProgram` | src/check.rs:455-466 | The new tables and result are those the statement loop over the program gives |
| `Check.GroupPlain` | src/check.rs:103-109 | Slots outside any parenthesis are passed on unchanged and in order |
| `Check.PlainTypeOf` | src/check.rs:84-110 | Without parentheses, typing is just the two passes |
| `Check.ClosingFirstDrops` | src/check.rs:88-96 | A `)` before any `(`, with no parenthesis of either kind after it, sends every later slot to a group that is never typed, so nothing is left to type |
| `Check.OverClosingLosesRest` | src/check.rs:88-96 | So an expression that starts with `)` has nothing left to type |
| `Check.GroupReplaced` | src/check.rs:84-110 | A group in parentheses is replaced by its type, in place |
| `Check.GroupAround` | src/check.rs:84-110 | One group between two parenthesis positions is replaced by its type, or its error is the result |
| `Check.GroupPrefix` | src/check.rs:106-108 | Slots before the first parenthesis go to the list unchanged |
| `Check.GroupGather` | src/check.rs:88-105 | The slots inside an open group are gathered and typed at its `)` |
| `Check.MathStep` | src/check.rs:124-134 | `a + b` folds to `b` when both have the same type and fails on a mismatch |
| `Check.MathBetween` | src/check.rs:124-134 | A math operator between two operands of the same type has that type; between different types it fails |
| `Check.ComparisonSkipsMath` | src/check.rs:111-136 | The math pass leaves a single comparison alone |
| `Check.ComparisonBetween` | src/check.rs:151-162 | A comparison between two operands of the same type is a `bool` at the right operand's position; between different types it fails |
| `Check.ChainOfTwoRejected` | src/check.rs:111-169 | As written, a chain of two math operators is left with three slots and fails with "Eval error" |
| `Check.SumOfThreeSlots` | src/check.rs:172-194 | The tokens of `1 + 2 + 3` become a chain of five integer slots |
| `Check.LiteralStep` | src/check.rs:176-177 | A non-identifier token adds its own slot |
| `Check.SumOfThreeRejected` | src/check.rs:242-274 | As written, `int x <- 1 + 2 + 3;` is rejected for any table |
| `Check.FoldChain` | src/check.rs:124-128 | Folding any operator of a math chain leaves a chain two slots shorter with the same last slot |
| `Check.FixedChainFrom` | src/check.rs:111-136 | The corrected math pass folds a whole chain down to its last operand |
| `Check.TierLoopFixed` | src/check.rs:111-136 | The pass as evidently intended: it stops only after a whole round without a fold; `Check.FixedChainFrom` proves it folds a chain of slots of one type down to one slot of that type |
| `Check.PassesFixed` | src/check.rs:111-169 | The two corrected passes and the one-slot check; `Check.FixedChainTypes` proves a chain of any length has its operands' type |
| `Check.FixedChainTypes` | src/check.rs:111-169 | With the corrected loops, a chain of any length has the type of its operands |
| `Check.FixedSumOfThree` | src/check.rs:172-196 | With the corrected loops, `1 + 2 + 3` is an integer |
| `Check.RedeclarationFails` | src/check.rs:243-246 | A name already in the table cannot be declared again |
| `Check.DeclarationAddsName` | src/check.rs:242-274 | A declaration passes exactly when its name is new, its value list has odd length, and its expression has the declared type; it then adds the name with that type |
| `Check.StructNeverDeclared` | src/check.rs:242-274 | `Struct` can never be declared |
| `Check.ReassignmentKeepsTable` | src/check.rs:276-309 | A reassignment passes exactly when the name is declared, its value list has odd length, and the expression has the name's type; it leaves the table as it was |
| `Check.OutTakesOneArgument` | src/check.rs:339-425 | `out` takes exactly one argument: a literal, or a declared variable of any type |
| `Check.UnknownCallFails` | src/check.rs:340-342 | A call to a function the checker does not know fails |
| `Check.ExtendsNothing` | src/check.rs:323-335 | A table that extends another by no names is that table |
| `Check.ExtendsMore` | src/check.rs:323-335 | Declaring a new name extends the table by that name |
| `Check.DropAll` | src/check.rs:330-335 | Removing the names a branch declared gives back the table it started from, and never finds one missing |
| `Check.StatementScope` | src/check.rs:432-453 | A declaration adds one new name; any other statement leaves the table as it was; no statement fails on a missing name |
| `Check.BranchesScope` | src/check.rs:426-430 | An `if` chain that passes leaves the table as it was |
| `Check.BranchScope` | src/check.rs:311-337 | A branch that passes leaves the table exactly as it found it |
| `Check.BodyScope` | src/check.rs:323-329 | A branch body adds exactly the distinct names it declared |
| `Check.ConditionsRestoreTable` | src/check.rs:426-430 | Every name declared in a branch is gone after the chain |
| `Check.NeverMissingAtBranchEnd` | src/check.rs:330-335 | The end-of-branch removal never finds a name missing |
| `Check.ConditionsFrom` | src/check.rs:311-321 | Every branch's condition is checked against the chain's starting table and must be `bool` |
| `Check.EveryConditionIsBool` | src/check.rs:311-321 | In a chain that passes, every condition has type `bool` |
| `Check.OutOfScopeIsUndeclared` | src/check.rs:276-309 | After a chain, a name declared only inside it cannot be reassigned, exactly as if it was never declared |
| `Interpreter.Substring` | src/interpreter.rs:8-17 | An empty or reversed range gives nothing; otherwise the piece has exactly the range's length and its `k`-th character is the text's character at `start + k` |
| `Interpreter.SubstringJoins` | src/interpreter.rs:8-17 | Two adjacent pieces put together are the piece spanning both |
| `Interpreter.Render` | src/interpreter.rs:100-104 | An integer prints as text that reads back as it; a boolean as `true` or `false` by its value; a string as itself |
| `Interpreter.AssignTemplate` | src/interpreter.rs:55-81 | Declaring fails exactly for `struct`; otherwise the name maps to the type and the evaluated value, every other entry and the output stay, and the name is reported |
| `Interpreter.Reassign` | src/interpreter.rs:82-86 | A missing name is `Undefined`; otherwise the name keeps its type and takes the new value, every other name keeps its value, and no name is added or removed |
| `Interpreter.BuiltIn` | src/interpreter.rs:90-117 | `out` with at least one printable argument prints exactly one line and changes no variable: a literal's text, or the rendering of the variable's stored value; any other name fails |
| `Interpreter.Call` | src/interpreter.rs:118-124 | A function that is not built in is not implemented; a call that succeeds changes no variable |
| `Interpreter.Execute` | src/interpreter.rs:153-173 | `individuals`: a declaration reports its name, the other statements report nothing; `Interpreter.ExecuteKeys` proves a statement only appends to the output and adds no name except the one a declaration reports |
| `Interpreter.BranchesFrom` | src/interpreter.rs:125-152 | `conditions`: the first true branch runs and ends the chain, a false one passes on, a non-boolean condition fails (`Interpreter.FirstTrueBranchRuns`, `Interpreter.NoBranchTaken`, `Interpreter.ConditionMustBeBoolean`) |
| `Interpreter.Enter` | src/interpreter.rs:134-147 | A taken branch: its statements, then its own declarations removed; `Interpreter.EnterKeys` proves it only appends to the output and leaves no name that was not there before |
| `Interpreter.BodyFrom` | src/interpreter.rs:135-141 | The statement loop of a branch, collecting the names declared directly in it (`Interpreter.BodyKeys`) |
| `Interpreter.RemoveFrom` | src/interpreter.rs:142-147 | The removal loop: each collected name is removed, and a missing one fails (`Interpreter.RemoveAll`) |
| `Interpreter.RunProgram` | src/interpreter.rs:174-179 | `run`: the statements in order; `Interpreter.RunJoined` proves running two lists is running their concatenation |
| `Interpreter.Interpreter.constructor` | src/interpreter.rs:36-48 | A new interpreter holds the program's statements, knows only `out`, and has no variables and no output |
| `Interpreter.Interpreter.New` | src/interpreter.rs:36-48 | Only a parsed `Program` can be run; anything else fails |
| `Interpreter.Interpreter.VarAssignTemplate` | src/interpreter.rs:55-81 | The new table and the result are those `AssignTemplate` gives |
| `Interpreter.Interpreter.VarReassignment` | src/interpreter.rs:82-86 | The new table and the result are those `Reassign` gives |
| `Interpreter.Interpreter.VarAssignment` | src/interpreter.rs:87-89 | A declaration is `AssignTemplate` |
| `Interpreter.Interpreter.BuiltInFuncs` | src/interpreter.rs:90-117 | The new output and the result are those `BuiltIn` gives |
| `Interpreter.Interpreter.CallFunction` | src/interpreter.rs:118-124 | The new state and the result are those `Call` gives |
| `Interpreter.Interpreter.RunConditions` | src/interpreter.rs:125-152 | The chain's loops leave the state that the branch functions give |
| `Interpreter.Interpreter.Individuals` | src/interpreter.rs:153-173 | One statement leaves the state and reports the name that `Execute` gives |
| `Interpreter.Interpreter.Run` | src/interpreter.rs:174-179 | Running leaves the state that the program's statements in order give |
| `Interpreter.FalseBranchesPass` | src/interpreter.rs:126-150 | Branches whose conditions are false are passed over without any change |
| `Interpreter.FirstTrueBranchRuns` | src/interpreter.rs:126-150 | The first branch whose condition is true runs, on the table as it was before the chain |
| `Interpreter.LaterBranchesIgnored` | src/interpreter.rs:126-150 | The branches after the one that runs are never looked at, not even their conditions |
| `Interpreter.NoBranchTaken` | src/interpreter.rs:126-150 | When every condition is false the chain changes nothing |
| `Interpreter.ConditionMustBeBoolean` | src/interpreter.rs:127-133 | A condition that is not a boolean stops the chain, unless an earlier branch was taken |
| `Interpreter.RemoveAll` | src/interpreter.rs:142-147 | The removal loop takes exactly the listed names out and leaves every other entry and the output alone |
| `Interpreter.ExecuteKeys` | src/interpreter.rs:153-173 | A statement adds at most the name it reports, and only appends to the output |
| `Interpreter.BranchesKeys` | src/interpreter.rs:125-152 | An `if` chain adds no name and only appends to the output |
| `Interpreter.EnterKeys` | src/interpreter.rs:134-147 | A taken branch never leaves a new name behind |
| `Interpreter.BodyKeys` | src/interpreter.rs:135-141 | A branch body adds only the names it reports, and only appends to the output |
| `Interpreter.ConditionsAddNoName` | src/interpreter.rs:125-152 | An `if` chain adds no name to the table and only appends to the output |
| `Interpreter.ReassignmentPersists` | src/interpreter.rs:82-86 | An outer variable reassigned inside a branch keeps its new value after the branch |
| `Interpreter.ShadowingRemovesOuter` | src/interpreter.rs:134-147 | Declaring inside a branch a name that exists outside overwrites the outer variable, and after the branch the name is gone |
| `Interpreter.DoubleDeclarationFails` | src/interpreter.rs:142-147 | A branch that declares the same name twice fails when it removes it the second time |
| `Interpreter.OutPrintsLiteral` | src/interpreter.rs:93-95 | `out` of a literal prints the literal's text |
| `Interpreter.DeclareThenPrint` | src/interpreter.rs:96-106 | `out` of a declared variable prints the value the declaration stored |
| `Interpreter.OutPrintsVariable` | src/interpreter.rs:96-104 | `out` of a defined variable, whatever the table, prints exactly one line, the rendering of its stored value: an integer as text that reads back to it, a string as itself; no variable changes |
| `Interpreter.OutNeedsArgument` | src/interpreter.rs:93 | `out` without an argument stops the program |
| `Interpreter.ScopeShift` | src/interpreter.rs:135-141 | The names collected so far only sit in front of those collected later |
| `Interpreter.TailRuns` | src/interpreter.rs:174-179 | Statements past the end of the first part are the statements of the second part |
| `Interpreter.HeadRuns` | src/interpreter.rs:174-179 | Statements of the first part run as they would alone |
| `Interpreter.RunJoined` | src/interpreter.rs:174-179 | Running two programs one after the other is running them joined |

## Left out

- Floating point: the evaluator's `f64` arithmetic and comparisons are an abstract parameter (`Floats`) that gives the printed result; the model proves nothing about float values.
- Integer width: `i128` parsing and arithmetic are unbounded here, so overflow panics are not modelled.
- Panic messages and positions: every `panic!`, `unimplemented!` and `expect` is an error value of the stage; the text of the message is not kept.
- `Interpreter.Interpreter.New`: the source's `evaluate` (src/interpreter.rs:49-54) prints one blank line per expression token and then stops with `unimplemented!()`, so the model takes the expression evaluator as a parameter (`Evaluator`) of the interpreter; those blank lines are not part of `output`.
- Printing: `println!` in the interpreter appends to an `output` list; console I/O is not modelled.
- `Parser.Parser.ParseText`: the debug printing of the lexed tokens (src/parser.rs:89-95, between two rule lines and before parsing starts) is left out.
- `Parser.Parser.ParseText`: the source keeps one `Lexer` in the parser's `lexer` field and reuses it on every call, so a second `parse_text` on the same parser lexes with that lexer's `run` already off; the model lexes each text with a fresh lexer, so it covers the first call on a parser only.
- `defined_function` and `defined_struct` of the interpreter are never read there and are not modelled; the checker's `defined_struct` (src/check.rs:60, 214, 235) is never read and is not modelled; its `removed` is carried but never consulted, as in the source.
- `fun` declarations, functions with return values, structs and other paths the source marks `unimplemented!()` are error values.
- `Interpreter.Substring`: the source slices bytes without a bounds check; the model slices characters and requires a non-empty range to lie inside the text.
- `Interpreter.Interpreter.BuiltInFuncs`: the source's `Option<Value>` result is always `None` and is not modelled.
- The lexers' `get_char` and `get_next_char` helpers appear only through the lookahead they give to the operator tables.
- `main.rs`, `sl.rs` and `ast.rs` are not part of this model.
- The step functions of both lexers (`Lexer.Step` and the character handlers it dispatches to) carry only contracts about the read position; their behaviour is stated by the lexing lemmas and by the methods proved equal to them.

## Findings

| source | as written | input that shows it | evidently intended | confidence | as-written member | corrected member |
|---|---|---|---|---|---|---|
| src/util/eval.rs:155-232 | After a fold the pass steps past the folded token's right neighbour, so chains of `+`/`-` regroup as `(a o1 b) o2 (c o3 d)` | `10 - 1 - 1 - 1` gives 9 | Left-to-right evaluation, giving 7 | not executed | `Eval.SubtractionRegroups` | `Eval.SubtractionFixed` |
| src/util/eval.rs:41-151 | The `* / %` pass steps the same way after a fold, so chains of `*`, `/` and `%` regroup as `(a o1 b) o2 (c o3 d)` | `8 / 2 / 2 / 2` gives 4 | Left-to-right evaluation, giving 1 | not executed | `Eval.DivisionRegroups` | `Eval.DivisionFixed` |
| src/util/eval.rs:418-427 | `==`/`!=` on strings or booleans insert their result at `index_for_add_sub - 1` (the front of the list) instead of `index_for_comp - 1` | `1 == 1 == true == true` aborts with a missing operand | The fold stays in place, and the chain gives `true` | not executed | `Eval.MisplacedEquality` | `Eval.FixedEquality` |
| src/parser.rs:144-147 | `(` is not among the tokens allowed in an expression, though the evaluator handles groups; declarations (parser.rs:170-182) and reassignments (parser.rs:263-270) read their values with the same check | `int x <- (1);` fails with an unexpected `(` | Parenthesised expressions parse; the corrected definition covers declarations only | not executed | `Parser.GroupedDeclarationFails` | `Parser.GroupedDeclarationFixed` |
| src/check.rs:111-164 | Each pass stops after one wrap-around, looking only at slot 0, so only every other math operator is folded | `int x <- 1 + 2 + 3;` is rejected with "Eval error" | A chain of any length has its operands' type | not executed | `Check.SumOfThreeRejected` | `Check.FixedSumOfThree` |
