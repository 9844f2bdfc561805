# Token model of the expression evaluator

This project models the token layer of an arithmetic-expression evaluator (`a09.evaluator/Token.cs`, namespace `Eval`) and proves properties of it.
That layer is a closed family of token kinds:

- literal and variable, the numbers;
- binary arithmetic operator, unary operator and function, the operators;
- punctuation, end and error.

It also holds the integer priorities that drive the evaluator's precedence climbing.
A binary operator's priority is its table value plus the evaluator's current `BasePriority`, the nesting offset that parentheses raise.
A function's priority is `4 + BasePriority`.
The unary operator's priority is a fixed 1.

Modules:

- `Tokens` (`tokens.dfy`): the `Token` datatype and the members of the C# classes. These are `Value`, the `Priority` overrides, `TOpArithmetic.Evaluate` (`EvaluateBinary`), `TOpUnary.Apply` (`ApplyUnary`), `TOpFunction.Evaluate` (`EvaluateFunction`) and `ToString`. The exceptions they throw are the `Failure` side of a `Result`.
- `Int32Arith` (`int32_arith.dfy`): C# `int` addition, which is unchecked and wraps around at 32 bits.
- `Decimal` (`decimal.dfy`): how string interpolation formats an `int`, and a parser that reads it back.
- `Priorities` (`priorities.dfy`): how priorities are ordered and how they move with the nesting offset.
- `Dispatch` (`dispatch.dfy`): which symbols and names the operators accept, what they do with their operands, and what a number's value is.
- `Diagnostics` (`diagnostics.dfy`): a decoder for the `ToString` texts. The round-trip lemma shows that every text except the literal's and the unary operator's identifies its token and the priority it was shown with. A literal's text is not modelled.

The evaluator that owns the tokens is not part of this model.
Its `BasePriority` is an `int32` parameter, and its `GetVariable` is a function parameter `string -> Double`.
The variable is looked up when `Value` is read, not when the token is built.

Behaviour of the code worth noting:

- Error messages start with a capital letter: `Unknown operator: c` and `Unknown function: name`.
- `TOpUnary.Apply` accepts any symbol and leaves the operand unchanged for everything but `-`.
- A function's priority ties with `=` at the same nesting level. It is not above every binary operator.
- `=` has a priority entry, but binary `Evaluate` rejects it.

## Model

| member | source | states |
|---|---|---|
| Tokens.Value | a09.evaluator/Token.cs:8-23 | A literal's value is the number it was built with. A variable's value is the lookup of its name, made when the value is read. |
| Tokens.ArithmeticPriority | a09.evaluator/Token.cs:43-46 | A priority exists exactly for `+ - * / ^ =`. Any other symbol throws `KeyNotFoundException` for that symbol. Without overflow, the priority lies between base+1 and base+4. |
| Tokens.FunctionPriority | a09.evaluator/Token.cs:79 | A function's priority is base+4 when the addition does not overflow. |
| Tokens.Priority | a09.evaluator/Token.cs:31-79 | The virtual priority over the three operator kinds. It fails only for an arithmetic symbol outside the table. The unary priority is always 1. Without overflow, other operators lie in [base+1, base+4]. |
| Tokens.EvaluateBinary | a09.evaluator/Token.cs:48-57 | Succeeds exactly for `+ - * / ^`. On success it performs the operation selected by that symbol on `a` and `b`, in that order. Any other symbol throws `EvalException("Unknown operator: " + op)`. |
| Tokens.ApplyUnary | a09.evaluator/Token.cs:65-70 | `-` negates the operand. Every other symbol returns the operand unchanged. |
| Tokens.EvaluateFunction | a09.evaluator/Token.cs:81-96 | Succeeds exactly for the nine names. On success it calls the function of that name on the argument. Only sin/cos/tan convert their input from degrees. Only asin/acos/atan convert their output to degrees. Any other name throws `EvalException("Unknown function: " + name)`. |
| Tokens.ToString | a09.evaluator/Token.cs:24-115 | Fails exactly when an arithmetic symbol has no priority. It then throws the dictionary's exception for that symbol. |
| Tokens.SymbolOf | a09.evaluator/Token.cs:49-54 | Every binary operation has an accepted symbol. |
| Tokens.NameOf | a09.evaluator/Token.cs:82-91 | Every library function has an accepted name. |
| Int32Arith.Add | a09.evaluator/Token.cs:43 | The sum of two C# `int` values. It is exact in range and is off by 2^32 when it overflows. |
| Decimal.IntToString | a09.evaluator/Token.cs:42 | The text of an interpolated priority is an optional `-` followed by digits, in canonical form: the `-` is present iff the value is negative, and the digits have no leading zero unless the value is 0. It contains no `:`. |
| Decimal.NatRoundTrip | a09.evaluator/Token.cs:42 | Parsing the digits of a natural number gives the number back. |
| Decimal.IntRoundTrip | a09.evaluator/Token.cs:42 | Parsing the rendering of any integer gives the integer back. |
| Priorities.TableValues | a09.evaluator/Token.cs:43-46 | While base ≤ MAX−4 (no wrap-around): `+ -` give base+1, `* /` give base+2, `^` gives base+3 and `=` gives base+4. |
| Priorities.StrictOrder | a09.evaluator/Token.cs:43-46 | While base ≤ MAX−4 (no wrap-around), at one level `+` = `-` < `*` = `/` < `^` < `=` = a function. |
| Priorities.FunctionOutranksBinary | a09.evaluator/Token.cs:79 | While base ≤ MAX−4 (no wrap-around), a function is strictly above `+ - * / ^` at the same level. It ties with `=`, even when the addition wraps. |
| Priorities.ShiftByOffset | a09.evaluator/Token.cs:43-79 | While both bases stay ≤ MAX−4 (no wrap-around), raising the base by k raises every arithmetic and function priority by exactly k. Success is kept. The unary priority is unchanged. |
| Priorities.UnaryNeverAbove | a09.evaluator/Token.cs:64 | With 0 ≤ base ≤ MAX−4 (no wrap-around), the unary priority is never above another operator's priority. |
| Priorities.NestingDominates | a09.evaluator/Token.cs:43-79 | While both bases are ≤ MAX−4 (no wrap-around), take a non-unary operator at a base at least 4 higher than another's. Its priority is strictly greater. |
| Priorities.NestingStepTooSmall | a09.evaluator/Token.cs:43-46 | While outerBase + step ≤ MAX−4 (no wrap-around), with a step below 4, `+` inside does not outrank `=` outside. So 4 is the least step that separates levels. |
| Priorities.OrderBreaksOnOverflow | a09.evaluator/Token.cs:43 | At base MAX-3, `=` and functions wrap to MIN, below `+`. |
| Dispatch.BinarySymbolsSelectOperations | a09.evaluator/Token.cs:48-56 | Each operation's symbol evaluates to exactly that operation on (a, b). |
| Dispatch.SymbolOfInjective | a09.evaluator/Token.cs:49-54 | Distinct operations have distinct symbols. |
| Dispatch.AssignmentNotEvaluable | a09.evaluator/Token.cs:45-55 | `=` has a priority, yet binary evaluation of `=` throws `Unknown operator: =`. |
| Dispatch.EvaluableHasPriority | a09.evaluator/Token.cs:44-56 | Every symbol that evaluates also has a priority. |
| Dispatch.FunctionNamesSelectFunctions | a09.evaluator/Token.cs:82-92 | Each function's name evaluates to a call of exactly that function. |
| Dispatch.NameOfInjective | a09.evaluator/Token.cs:82-91 | Distinct functions have distinct names. |
| Dispatch.UnarySign | a09.evaluator/Token.cs:65-70 | The result equals the operand iff the symbol is not `-` or the operand is 0. With `-`, the result and the operand sum to 0. |
| Dispatch.UnaryInvolution | a09.evaluator/Token.cs:65-70 | Applying the same unary operator twice gives back the operand. |
| Dispatch.ValueOfNumbers | a09.evaluator/Token.cs:13-23 | A literal's value does not depend on the variables. A variable's value depends on nothing but the lookup of its own name. |
| Diagnostics.ParseDiagnostic | a09.evaluator/Token.cs:24-115 | Decodes a diagnostic text. It never yields a literal or unary token. It yields a priority exactly for operators. |
| Diagnostics.VariableRoundTrip | a09.evaluator/Token.cs:24 | `var:` + name decodes to that variable. |
| Diagnostics.OperatorRoundTrip | a09.evaluator/Token.cs:42 | `op:c:p` decodes to operator c with priority p. |
| Diagnostics.FunctionRoundTrip | a09.evaluator/Token.cs:78 | `func:name:p` decodes to that function with priority p, even when the name contains `:`. |
| Diagnostics.PunctuationRoundTrip | a09.evaluator/Token.cs:103 | `punct:c` decodes to that punctuation. |
| Diagnostics.ErrorRoundTrip | a09.evaluator/Token.cs:115 | `error:` + message decodes to that error. |
| Diagnostics.DiagnosticRoundTrip | a09.evaluator/Token.cs:24-115 | Consider every token except literals and unary operators. Its `ToString` text decodes to the token and the priority it had at that base. |
| Diagnostics.DiagnosticInjective | a09.evaluator/Token.cs:24-115 | Two such tokens with the same text are equal, even at different bases. |
| Diagnostics.UnaryDiagnosticIgnoresSymbol | a09.evaluator/Token.cs:61-72 | `TOpUnary` does not override `ToString`. Every unary token renders as `Eval.TOpUnary`, whatever its symbol and base, and the text does not decode. |

## Left out

- Tokens.ToString: the literal case is excluded by its precondition, because `literal:{Value}` formats a double.
- Numeric results: binary `Evaluate` and function `Evaluate` return the IEEE-754 operation they perform, unevaluated. This covers `+ - * /`, `Math.Pow`, the nine `Math` functions and the `PI`-based degree/radian conversions. Doubles are modelled as `real`, and only negation (exact in IEEE-754) and literal values are interpreted. A `real` has no NaN, ±∞ or −0.0, so `Dispatch.UnarySign` and `Dispatch.UnaryInvolution` hold only for finite doubles under IEEE `==`: NaN is unequal to itself, and ∞ + (−∞) is NaN, not 0.
- `FinalPriority`: a plain settable property with no logic in this file.
- The `Evaluator` class is not part of this model. This covers the tokenizer, the two-stack evaluation, assignment handling, the size of the nesting step, and whether `GetVariable` fails for an unknown name. `BasePriority` and `GetVariable` are parameters.
- The text of the dictionary's `KeyNotFoundException`: it depends on the .NET runtime, so only the missing key is modelled.
- Integer formatting assumes the invariant culture's negative sign `-`.
- Characters are Dafny `char`s, which are Unicode scalar values. C#'s `char` is a UTF-16 code unit, so a lone surrogate in a symbol, name or message is not modelled.
- The `Op`/`Operator`, `Unary`, `Name`, `Func`, `Punct` and `Message` accessors are the datatype's fields.
