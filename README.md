# MyTools expression evaluator and icon writer, modelled in Dafny

This project models two parts of the MyTools repository.

**The calculator's expression evaluator** (`ExpressionEvaluator` in
`src/MyTools.Core/ExpressionEvaluator.cs`) runs in three stages:

- `Tokenize` normalises the × and ÷ glyphs, then cuts the text into numbers,
  function names, parentheses, commas and operators. It resolves `+`/`-` to
  unary or binary from the token before it, and substitutes the constants
  `pi` and `e`.
- `ToRpn` is a shunting-yard converter. It keeps an operator stack and a
  parallel stack of argument counts, and emits `FN:name:argc` markers for
  function calls.
- `EvalRpn` is a stack machine. It applies the four arithmetic operators
  through an `ICalculator`, `^` through `Math.Pow`, and functions through a
  case-insensitive registry: sin … log, pow, min, max, pct, and the financial
  functions pmt, fv, pv and nper, each with its zero-rate branch.

`Evaluate` composes the three stages. Every `FormatException` the source
throws is a constructor of `Syntax.Error`. Each stage is a method that
mirrors the source's loop, proved equal to a specification function. The
properties are lemmas about those functions:

- unary/binary sign resolution, and where function markers may appear
- which errors each stage reports, and in which order
- operator precedence and associativity in the output order
- the evaluation order of operands and call arguments
- the exactly-one-value rule at the end of evaluation
- that the financial functions solve their cash-flow equations

The stages compose into whole-expression results for the repository's unit
test inputs.

**The icon generator's `BuildIcon`** (`tools/IconGen/Program.cs`) writes an
ICO file into a `MemoryStream` through a `BinaryWriter`. It writes a header
and placeholder directory entries, then appends one PNG per size, then seeks
back and patches the directory with each image's length and offset.

- `MemoryStream` and `BinaryWriter` are classes. Their methods update the
  buffer and position in place.
- `BuildIcon` is proved to produce exactly the byte sequence `Icon(sizes,
  images)`.
- Lemmas decode that sequence: the header fields; each 16-byte directory
  entry, read back little-endian; and each image found again at the offset
  its entry records.

Numbers are Dafny `real`s.

- The trigonometric, logarithmic and power functions of `System.Math` are
  the function-valued fields of `Registry.MathLib`, which the model does not
  interpret.
- The `ICalculator` is the function-valued `Rpn.Calculator`. `Rpn.Exact` is
  the calculator the examples use: exact arithmetic, and division by zero
  fails.
- The source's `Calculator` class is not part of this model.

## Model

| member | source | states |
|---|---|---|
| Syntax.Precedence | src/MyTools.Core/ExpressionEvaluator.cs:153-160 | every operator has precedence 1..4; exactly the unary operators have 4 and exactly `^` has 3 |
| Numbers.ParseLiteral | src/MyTools.Core/ExpressionEvaluator.cs:171-174 | a number lexeme parses iff it is digits and dots with at least one digit and at most one dot; the value is non-negative |
| Numbers.DigitsLiteral | src/MyTools.Core/ExpressionEvaluator.cs:93-100 | a lexeme of digits reads as the natural number its digits denote |
| Numbers.DecimalRoundTrip | src/MyTools.Core/ExpressionEvaluator.cs:171-174 | a property of the literal reader: for every natural number, its decimal digits are accepted and read back as that number |
| Lexer.Normalize | src/MyTools.Core/ExpressionEvaluator.cs:85 | pointwise: × becomes `*`, ÷ becomes `/`, every other character is kept, and the length is unchanged |
| Lexer.Lower | src/MyTools.Core/ExpressionEvaluator.cs:13-14 | pointwise ASCII lower-casing, used for the case-insensitive lookup in the function table |
| Lexer.RunEnd | src/MyTools.Core/ExpressionEvaluator.cs:93-105 | returns the end of the maximal run of characters from `i` on that satisfy the class |
| Lexer.SkipRun | src/MyTools.Core/ExpressionEvaluator.cs:94-95 | the scanning loop stops exactly at `RunEnd` |
| Lexer.NextToken | src/MyTools.Core/ExpressionEvaluator.cs:89-146 | a successful step consumes at least one character and stays within the text |
| Lexer.LexAt | src/MyTools.Core/ExpressionEvaluator.cs:89-146 | one iteration of the tokenizer loop equals `NextToken` |
| Lexer.Tokenize | src/MyTools.Core/ExpressionEvaluator.cs:83-148 | the method's token list (or error) equals `Tokens(expr)` |
| Lexer.TokensSignsResolved | src/MyTools.Core/ExpressionEvaluator.cs:129-143 | in every token list, a sign operator is unary iff it is first or follows `(` or another operator |
| Lexer.TokensMarkersWellPlaced | src/MyTools.Core/ExpressionEvaluator.cs:112-116 | in every token list, a function-name token is immediately followed by `(` |
| Lexer.TokensErrors | src/MyTools.Core/ExpressionEvaluator.cs:117-145 | a tokenizer error is an unknown identifier that really is one, or an unexpected character, reported at its position |
| Lexer.LexDigits | src/MyTools.Core/ExpressionEvaluator.cs:93-100 | a maximal run of digits becomes one Number token |
| Lexer.LexOperator | src/MyTools.Core/ExpressionEvaluator.cs:129-143 | an operator character becomes the operator its context selects, unary or binary |
| Lexer.LexIdentifier | src/MyTools.Core/ExpressionEvaluator.cs:102-118 | an identifier becomes `pi` or `e` as a number, a function name when `(` follows, and otherwise an unknown-identifier error |
| Lexer.LexUnexpected | src/MyTools.Core/ExpressionEvaluator.cs:145 | any other character stops the scan with an error that names it and its index |
| Lexer.LexSymbol | src/MyTools.Core/ExpressionEvaluator.cs:120-127 | `,`, `(` and `)` each become one token |
| Lexer.ChainTokens | src/MyTools.Core/ExpressionEvaluator.cs:83-148 | digits, operator, digits, operator, digits gives exactly five tokens with binary operators |
| Lexer.SignedTokens | src/MyTools.Core/ExpressionEvaluator.cs:129-143 | a leading sign becomes unary, and the later operator stays binary |
| Lexer.GroupedTokens | src/MyTools.Core/ExpressionEvaluator.cs:83-148 | `(d o d) o d` gives the seven expected tokens |
| Registry.LowerCaseKnown | src/MyTools.Core/ExpressionEvaluator.cs:13-14 | a lower-case name is in the table iff it is one of the eighteen keys |
| Registry.Arg | src/MyTools.Core/ExpressionEvaluator.cs:15-28 | reading argument k succeeds iff it exists, and otherwise fails with an index error |
| Registry.Quotient | src/MyTools.Core/ExpressionEvaluator.cs:36 | a quotient is defined iff the divisor is non-zero, and then multiplies back to the dividend |
| Registry.Extreme | src/MyTools.Core/ExpressionEvaluator.cs:26-27 | min and max succeed iff given at least one argument, and otherwise fail with the empty-sequence error |
| Registry.Minimum | src/MyTools.Core/ExpressionEvaluator.cs:26 | the result is one of the arguments and no argument is smaller |
| Registry.Maximum | src/MyTools.Core/ExpressionEvaluator.cs:27 | the result is one of the arguments and no argument is larger |
| Registry.CashArgs | src/MyTools.Core/ExpressionEvaluator.cs:30-64 | a financial function's arguments are defined iff there are at least three, and otherwise fail with an index error; they are a[0], a[1], a[2], then a[3] and a[4] where given and 0 otherwise |
| Registry.Call | src/MyTools.Core/ExpressionEvaluator.cs:13-69 | a call fails with an unknown-function error iff the name is not in the table under any casing |
| Registry.ArityErrors | src/MyTools.Core/ExpressionEvaluator.cs:15-64 | a known function fails with an index error iff it is given fewer arguments than it reads; min and max fail iff given none |
| Registry.DefaultArguments | src/MyTools.Core/ExpressionEvaluator.cs:34-64 | omitting fv/pv and type is the same as passing 0 for them |
| Registry.PaymentBalances | src/MyTools.Core/ExpressionEvaluator.cs:37-38 | the non-zero-rate payment formula satisfies the annuity equation |
| Registry.PaymentSolves | src/MyTools.Core/ExpressionEvaluator.cs:30-39 | pmt is defined iff its divisor is non-zero, and its result balances the linear equation (zero rate) or the annuity equation |
| Registry.FutureValueSolves | src/MyTools.Core/ExpressionEvaluator.cs:40-49 | fv's result balances the linear or the annuity equation |
| Registry.PresentValueSolves | src/MyTools.Core/ExpressionEvaluator.cs:50-59 | pv is defined at zero rate, and otherwise iff the growth factor is non-zero; its result balances the equation |
| Registry.PeriodsSolveAtZeroRate | src/MyTools.Core/ExpressionEvaluator.cs:60-66 | at zero rate, nper is defined iff pmt ≠ 0, and its result balances the linear equation |
| Registry.ZeroRateInverses | src/MyTools.Core/ExpressionEvaluator.cs:35-66 | at zero rate, fv, pv and nper invert pmt |
| Registry.PmtZeroRateExample | src/MyTools.Core/ExpressionEvaluator.cs:30-39 | pmt(0, 12, -1200) is 100 |
| Converter.PopOperators | src/MyTools.Core/ExpressionEvaluator.cs:181-194 | pops a suffix of operator entries, each of which the incoming operator pops, onto the output in stack order |
| Converter.PopOperatorsRule | src/MyTools.Core/ExpressionEvaluator.cs:184-192 | every popped entry satisfies the precedence/associativity rule, and the new top does not |
| Converter.ToOpen | src/MyTools.Core/ExpressionEvaluator.cs:212-214 | removes exactly the non-`(` entries above the nearest `(` |
| Converter.PopToOpen | src/MyTools.Core/ExpressionEvaluator.cs:212-214 | the popped entries go to the output in stack order |
| Converter.PushOp | src/MyTools.Core/ExpressionEvaluator.cs:181-194 | pushing an operator keeps the operator stack and the count stack aligned |
| Converter.Open | src/MyTools.Core/ExpressionEvaluator.cs:195-208 | an opening parenthesis keeps the stacks aligned |
| Converter.Close | src/MyTools.Core/ExpressionEvaluator.cs:209-231 | a closing parenthesis keeps the stacks aligned |
| Converter.Separate | src/MyTools.Core/ExpressionEvaluator.cs:232-242 | a comma keeps the stacks aligned |
| Converter.Step | src/MyTools.Core/ExpressionEvaluator.cs:169-247 | every token keeps the stacks aligned: a count per `(`, present iff that `(` opens a call |
| Converter.PushOperator | src/MyTools.Core/ExpressionEvaluator.cs:181-194 | the method's pop loop equals `PopOperators`, and the operator ends on top |
| Converter.PopUntilOpen | src/MyTools.Core/ExpressionEvaluator.cs:212-214 | the method's pop loop equals `PopToOpen` |
| Converter.CloseParen | src/MyTools.Core/ExpressionEvaluator.cs:209-231 | the method equals `Close` |
| Converter.CommaSeparator | src/MyTools.Core/ExpressionEvaluator.cs:232-242 | the method equals `Separate` |
| Converter.ConvertToken | src/MyTools.Core/ExpressionEvaluator.cs:169-247 | the method equals `Step` |
| Converter.ToRpn | src/MyTools.Core/ExpressionEvaluator.cs:164-257 | the method's output queue (or error) equals `Postfix(tokens)` |
| Converter.CommaRule | src/MyTools.Core/ExpressionEvaluator.cs:232-242 | a comma fails with the misplaced-comma error iff the innermost `(` does not open a call; otherwise that call's count goes up by one |
| Converter.CloseRule | src/MyTools.Core/ExpressionEvaluator.cs:209-231 | `)` fails with mismatched parentheses iff no `(` is open; otherwise one `(` fewer is open |
| Converter.DrainRule | src/MyTools.Core/ExpressionEvaluator.cs:248-255 | at the end, a left-over `(` is mismatched parentheses, a left-over function marker is a missing-call-parentheses error, and otherwise the operators are emitted in stack order |
| Converter.PostfixCallsWellFormed | src/MyTools.Core/ExpressionEvaluator.cs:175-231 | every call marker in a converted expression names a known function and has a count of at least 1 |
| Converter.StepPush | src/MyTools.Core/ExpressionEvaluator.cs:184-193 | an operator that pops nothing is pushed |
| Converter.StepPopOne | src/MyTools.Core/ExpressionEvaluator.cs:184-193 | an operator pops a top operator of higher (or, left-associative, equal) precedence to the output |
| Converter.StepFunc | src/MyTools.Core/ExpressionEvaluator.cs:175-180 | a known function name goes on the stack |
| Converter.StepOpenCall | src/MyTools.Core/ExpressionEvaluator.cs:195-208 | `(` after a function name starts an argument count of 1 |
| Converter.StepOpenGroup | src/MyTools.Core/ExpressionEvaluator.cs:195-208 | any other `(` records no count |
| Converter.StepSeparate | src/MyTools.Core/ExpressionEvaluator.cs:232-242 | a comma directly inside a call increments its count |
| Converter.StepCloseCall | src/MyTools.Core/ExpressionEvaluator.cs:216-229 | `)` closing a call emits the call marker with its count |
| Converter.StepCloseGroup | src/MyTools.Core/ExpressionEvaluator.cs:209-231 | `)` closing a plain group emits nothing |
| Converter.BinaryChain | src/MyTools.Core/ExpressionEvaluator.cs:181-255 | in `a o1 b o2 c`, o1 is emitted before c iff o2 pops o1; otherwise o2 is emitted before o1 |
| Converter.SignBindsTighter | src/MyTools.Core/ExpressionEvaluator.cs:153-194 | a unary sign applies to its operand before any following binary operator |
| Converter.ThreeArgumentCall | src/MyTools.Core/ExpressionEvaluator.cs:175-242 | `f(x, y, z)` converts to x y z followed by a call marker with count 3 |
| Converter.EmptyCall | src/MyTools.Core/ExpressionEvaluator.cs:222 | `f()` converts to a call marker with count 1 |
| Converter.BinaryPair | src/MyTools.Core/ExpressionEvaluator.cs:171-255 | `a o b` converts to a b o |
| Converter.DigitsChain | src/MyTools.Core/ExpressionEvaluator.cs:164-257 | the five-token chain over digit literals converts by the precedence rule |
| Converter.GroupedChain | src/MyTools.Core/ExpressionEvaluator.cs:195-231 | `(a o1 b) o2 c` converts to a b o1 c o2, whatever the precedences |
| Rpn.PopArguments | src/MyTools.Core/ExpressionEvaluator.cs:302-303 | the reverse pop loop leaves the arguments in their original left-to-right order |
| Rpn.EvalToken | src/MyTools.Core/ExpressionEvaluator.cs:264-310 | one iteration of the evaluation loop equals `EvalStep` |
| Rpn.EvalRpn | src/MyTools.Core/ExpressionEvaluator.cs:259-314 | the method's result (or error) equals `RpnValue(rpn)` |
| Rpn.BinaryOperandOrder | src/MyTools.Core/ExpressionEvaluator.cs:279-291 | a binary operator applies to (second-from-top, top) in that order |
| Rpn.UnaryRule | src/MyTools.Core/ExpressionEvaluator.cs:271-276 | unary minus negates the top, and unary plus keeps it |
| Rpn.CallArgumentOrder | src/MyTools.Core/ExpressionEvaluator.cs:294-306 | a call marker replaces its argc topmost values with the function's result on them, in pushed order |
| Rpn.Underflow | src/MyTools.Core/ExpressionEvaluator.cs:273-310 | the stack-underflow, unknown-function and unexpected-token errors, each in its case |
| Rpn.StackEffect | src/MyTools.Core/ExpressionEvaluator.cs:262-311 | a run in which every token succeeds changes the stack height by the queue's net effect: +1 per number, 0 per sign, -1 per binary operator, 1-argc per call |
| Rpn.OneValueLeft | src/MyTools.Core/ExpressionEvaluator.cs:312-313 | when every token succeeds, the result is defined iff the queue's net effect is exactly one value, and is an invalid expression otherwise; a failing token's error is the result |
| Rpn.TwoValuesFail | src/MyTools.Core/ExpressionEvaluator.cs:312 | two values left over is an invalid expression |
| Rpn.DivideByZeroFails | src/MyTools.Core/ExpressionEvaluator.cs:287 | with the exact calculator, dividing by zero fails with the divide-by-zero error |
| Rpn.ExecAppend | src/MyTools.Core/ExpressionEvaluator.cs:262-311 | running two token lists in sequence is running their concatenation |
| Rpn.LeftGroupedValue | src/MyTools.Core/ExpressionEvaluator.cs:277-292 | `a b o1 c o2` evaluates to (a o1 b) o2 c |
| Rpn.RightGroupedValue | src/MyTools.Core/ExpressionEvaluator.cs:277-292 | `a b c o2 o1` evaluates to a o1 (b o2 c) |
| Rpn.SignedValue | src/MyTools.Core/ExpressionEvaluator.cs:271-292 | `a u b o` evaluates to (u a) o b |
| Evaluator.Evaluate | src/MyTools.Core/ExpressionEvaluator.cs:72-78 | the result (or error) equals `ValueOf`, the composition of the three stages |
| Evaluator.StagesCompose | src/MyTools.Core/ExpressionEvaluator.cs:72-78 | when tokenizing and converting succeed, the value is the value of the postfix list |
| Evaluator.TokenizerErrorsFirst | src/MyTools.Core/ExpressionEvaluator.cs:75 | a tokenizer error is the evaluator's error, and is one the tokenizer can report |
| Evaluator.UnknownFunctionRejectedEarly | src/MyTools.Core/ExpressionEvaluator.cs:175-180 | an unknown function name in the tokens makes conversion fail, before any evaluation |
| Evaluator.BlankInputInvalid | src/MyTools.Core/ExpressionEvaluator.cs:72-78 | blank input is an invalid expression |
| Evaluator.EmptyArgumentList | src/MyTools.Core/ExpressionEvaluator.cs:222-301 | `f()` fails with the invalid-function-arguments error |
| Evaluator.ChainValue | src/MyTools.Core/ExpressionEvaluator.cs:72-78 | a digits-operator chain of three operands evaluates in the precedence order |
| Evaluator.DigitChainValue | src/MyTools.Core/ExpressionEvaluator.cs:72-78 | the same for single-digit operands, with the operands' values written out |
| Evaluator.DigitSignedValue | src/MyTools.Core/ExpressionEvaluator.cs:72-78 | `±d o d` evaluates with the sign applied first |
| Evaluator.DigitPairValue | src/MyTools.Core/ExpressionEvaluator.cs:72-78 | `d o d` evaluates to the operator applied to the two digits |
| Evaluator.GroupedValue | src/MyTools.Core/ExpressionEvaluator.cs:72-78 | `(d o1 d) o2 d` evaluates the group first |
| Evaluator.ProductFirst | tests/MyTools.Tests/UnitTest1.cs:45 | "1+2*3" evaluates to 7 |
| Evaluator.GroupFirst | tests/MyTools.Tests/UnitTest1.cs:46 | "(1+2)*3" evaluates to 9 |
| Evaluator.LeadingSign | tests/MyTools.Tests/UnitTest1.cs:47 | "-5+2" evaluates to -3 |
| Evaluator.PowerOperator | tests/MyTools.Tests/UnitTest1.cs:48 | "2^3" evaluates to Math.Pow(2, 3) |
| Evaluator.QuotientFirst | tests/MyTools.Tests/UnitTest1.cs:49 | "4/2+6" evaluates to 8 |
| Evaluator.DifferenceOfProduct | tests/MyTools.Tests/UnitTest1.cs:50 | "10-2*3" evaluates to 4 |
| Evaluator.PowerGroupsRight | src/MyTools.Core/ExpressionEvaluator.cs:162 | "2^3^2" evaluates to Math.Pow(2, Math.Pow(3, 2)) |
| Evaluator.SignBeforePower | src/MyTools.Core/ExpressionEvaluator.cs:156-158 | "-2^2" evaluates to Math.Pow(-2, 2), because the unary sign binds tighter |
| IconFile.LE16RoundTrip | tools/IconGen/Program.cs:67-69 | a 16-bit little-endian field reads back as the value mod 2^16 |
| IconFile.LE32RoundTrip | tools/IconGen/Program.cs:80-81 | a 32-bit little-endian field reads back as the value mod 2^32 |
| IconFile.Overwrite | tools/IconGen/Program.cs:99-113 | writing at a position extends the buffer only when the write runs past its end |
| IconFile.OverwriteTwice | tools/IconGen/Program.cs:72-113 | two adjacent writes are one write of the concatenation |
| IconFile.HeaderFields | tools/IconGen/Program.cs:67-69 | the file starts with reserved 0, type 1 and the image count mod 2^16 |
| IconFile.TotalLength | tools/IconGen/Program.cs:91-98 | the file ends right after the last image |
| IconFile.EntryFields | tools/IconGen/Program.cs:103-110 | entry i holds the width and height byte (0 for 256), 0, 0, 1 plane, 32 bpp, the image length and its offset |
| IconFile.PayloadPlacement | tools/IconGen/Program.cs:92-97 | image i is stored at `Offset(images, i)` |
| IconFile.ReadBack | tools/IconGen/Program.cs:63-116 | for files under 4 GiB, the offset and length in entry i locate exactly image i |
| IconFile.PatchOnlyDirectory | tools/IconGen/Program.cs:99-113 | patching changes only the directory bytes, and turns the unpatched file into the icon |
| IconFile.MemoryStream.constructor | tools/IconGen/Program.cs:65 | a new stream is empty at position 0 |
| IconFile.MemoryStream.Write | tools/IconGen/Program.cs:67-110 | a write overwrites at the position (extending if needed) and advances it |
| IconFile.MemoryStream.Seek | tools/IconGen/Program.cs:99-114 | setting the position leaves the buffer unchanged |
| IconFile.BinaryWriter.WriteByte | tools/IconGen/Program.cs:74-77 | writes one byte, the value truncated to 8 bits |
| IconFile.BinaryWriter.WriteInt16 | tools/IconGen/Program.cs:67-79 | writes the value's two low bytes, little-endian |
| IconFile.BinaryWriter.WriteInt32 | tools/IconGen/Program.cs:80-110 | writes the value's four low bytes, little-endian |
| IconFile.BinaryWriter.WriteBytes | tools/IconGen/Program.cs:96 | writes the array at the position |
| IconFile.WriteEntry | tools/IconGen/Program.cs:74-81 | the eight writes of one directory entry put exactly `Entry(size, length, offset)` at the position |
| IconFile.WritePlaceholders | tools/IconGen/Program.cs:71-82 | after the loop, the buffer is the header plus one all-zero-size entry per image |
| IconFile.RenderImages | tools/IconGen/Program.cs:83-90 | the array pairs each size with the image rendered for it |
| IconFile.WritePayloads | tools/IconGen/Program.cs:91-97 | appends every image in order and records each image's start offset |
| IconFile.PatchDirectory | tools/IconGen/Program.cs:99-113 | rewriting the directory in place yields exactly the finished icon |
| IconFile.BuildIcon | tools/IconGen/Program.cs:63-116 | the returned fresh stream holds `Icon(sizes, images)` and is positioned at 0 |

## Left out

- Null input (ExpressionEvaluator.cs:74): a Dafny string cannot be null. The null-argument exception is not modelled.
- Exception messages: each `FormatException` is an `Error` constructor carrying the same data (character and index, name), not the message text.
- Letters and digits: `char.IsLetter`, `char.IsLetterOrDigit` and `char.IsDigit` are modelled on ASCII only. The white-space class is the .NET list.
- Floating point: numbers are exact reals.
  - `double.TryParse` rounding and the text of `Math.PI`/`Math.E` are not modelled; `pi` and `e` become the lexemes `PiText`/`EText`.
  - A zero divisor inside a registry formula (through `Registry.Quotient`) is reported as the `NonFinite` error, where .NET would produce an infinity or NaN.
  - Other non-finite results are not detected: `ln(0)`, `sqrt(-1)`, `asin(2)`, the logarithm of a negative ratio in nper (ExpressionEvaluator.cs:67) and overflow are ordinary `Ok` values of the uninterpreted `MathLib` functions or of exact arithmetic, where .NET would produce an infinity or NaN.
- `System.Math` functions (sin … log10, Pow, Log) are uninterpreted. Results that need their values are stated in terms of `MathLib`, e.g. "2^3" is `Math.Pow(2, 3)` and not 8.
- Registry.PeriodsSolveAtZeroRate: nper is characterised only at zero rate. The non-zero-rate logarithm formula is modelled but no equation is proved about it, because `ln` is uninterpreted.
- `ICalculator` and the `Calculator` class are not part of this model. The calculator is a parameter; the concrete `Exact` one is assumed to fail on division by zero.
- `MainWindow.TryEvalSimpleBinary` is never called, so it is not modelled. The calculator UI, settings, history and SQLite services are outside the modelled core.
- The unit-test examples are stated for a string pinned character by character, not for a string literal.
- The generic lemmas cover chains of three operands, parenthesised groups, signs and calls with up to three arguments. Expressions of arbitrary shape are characterised only by the per-token rules and invariants.
- BuildIcon: the PNG drawing and encoding (`make`, `Bitmap.Save`) is a function from a size to bytes.
- BuildIcon: the `long`/`int` width of positions and offsets, the stream's capacity and the writers' disposal and text encoding are not modelled.
- IconFile.ReadBack: stated only for files under 4 GiB, because the offset and length fields are 32 bits and the source truncates them.
