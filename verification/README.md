# Imperilator calculator core, in Dafny

Imperilator is a feet/inches/scalar calculator. Every key press is an input
token `{pad, key}` from one of five pads: Feet, Inches, Scalar, Operator and
Control. This project models the pipeline that turns those tokens into
results, and proves properties of it:

- **Input state machine** (`TokenProcessor`, module in `token_processor.dfy`).
  - It folds key tokens into an entry mode (Input, Imperial, Scalar, Error), the
    feet and inches pad values `{whole, numerator, denominator}` and the scalar
    text. Clear and Backspace are handled here.
  - A state is a record built by spreading, so it is a datatype. Its
    `measurements` object is shared by every state spread from it and is
    written in place, so it is the class `Measurements`.
  - The transitions are methods that modify that object. Each is proved against
    a pure specification (`Step`, `Run`) on a value view of the state.
- **Validator** (`ValidationEngine`, `ValidationErrors`). It accepts or rejects
  a token for the current mode, and rejects a log with two adjacent operators.
  A check that throws is `Fail(error)`.
- **Token accumulator and display** (`MathTokenProcessor`).
  - A loop with two draft objects updated in place merges runs of keys into
    Imperial and Scalar operands separated by Operator tokens. It is proved
    equal to a pure fold (`MathTokensOf`).
  - Math tokens are rendered as text, with gcd fraction reduction and the
    bracketed totals on results.
- **Evaluator** (`MathEngine`).
  - It finds the last `=` and evaluates the one operand or `left op right`
    triple before it. On any error it returns the input list unchanged.
  - Inch totals are turned into feet, inches and the nearest binary fraction.
- **Shared types** (`Types`), key and number text helpers (`Text`), and
  `Option`/`Outcome`/`Result` (`Wrappers`).

Numbers are exact `real` and `int`. How the program turns a number into text
(`toString`, `toFixed(2)`) is kept abstract: every member that renders a number
takes a `TextFormat` parameter holding the two conversions.

## Model

| member | source | states |
|---|---|---|
| `Types.OperatorOfKey` | src/utils/mathTokenProcessor.ts:28-31 | The operator copied from an Operator key spells that key exactly. It is one of the five declared operators iff the key is `=`, `+`, `-`, `x` or `/`. |
| `Types.DeclaredOperatorRoundTrip` | src/types/index.ts:21 | Reading back the text of a declared operator gives the same operator. |
| `Types.TypeNameIdentifiesVariant` | src/types/index.ts:50-94 | The `type` tag names the variant: equal tags mean the same one of the seven kinds of math token. |
| `ValidationErrors.Message` | src/utils/ValidationError.ts:37-49 | InvalidExpression's message is "Invalid expression: " + reason, and UnsupportedOperation's is "Unsupported operation: " + operation. |
| `ValidationErrors.Name` | src/utils/ValidationError.ts:2-49 | Every error's name ends in "Error". |
| `ValidationErrors.NameIdentifiesKind` | src/utils/ValidationError.ts:2-49 | Errors with equal names are of the same kind. |
| `ValidationErrors.MessageIdentifiesError` | src/utils/ValidationError.ts:9-49 | Apart from the base class, equal messages mean equal errors, payload included. |
| `Text.NatToString` | src/utils/mathTokenProcessor.ts:148-162 | The text of a whole number is non-empty, all digits, without leading zeros, and reads back as that number. |
| `Text.NumberOfText` | src/utils/tokenProcessor.ts:128 | A fraction part reads as a whole number exactly when it is a string of digits. |
| `Text.FractionKeyRoundTrip` | src/utils/tokenProcessor.ts:126-133 | A key written "n/d" splits back into numerator n and denominator d. |
| `Text.ShiftAdd` | src/utils/tokenProcessor.ts:134-141 | Shifting a digit in: the result divided by 10 is the old whole part, and its last decimal digit is the key's digit. |
| `Text.AppendScalarKey` | src/utils/tokenProcessor.ts:97-107 | "." is appended only if the text has none, a digit is always appended, any other key changes nothing, and at most one "." is kept. |
| `TokenProcessor.Measurements.constructor` | src/utils/tokenProcessor.ts:5-9 | A fresh measurements object holds scalar "" and feet and inches {0, 0, 16}. |
| `TokenProcessor.CreateInitialState` | src/utils/tokenProcessor.ts:3-13 | The initial state is in mode Input, has no active pad, fraction denominator 16, scalar "" and feet and inches {0, 0, 16}, in a fresh object. |
| `TokenProcessor.CreateToken` | src/utils/tokenProcessor.ts:171-174 | The token carries the given pad and key. |
| `TokenProcessor.ProcessToken` | src/utils/tokenProcessor.ts:15-30 | The new view is `Step` of the old one. Clear makes a fresh measurements object and leaves the caller's object untouched; every other key writes the shared one. |
| `TokenProcessor.ProcessControlToken` | src/utils/tokenProcessor.ts:32-45 | The new view is the control transition of the old one. Clear yields a fresh measurements object and leaves the caller's object untouched; Backspace and the other control keys keep the shared one. |
| `TokenProcessor.ProcessOperatorToken` | src/utils/tokenProcessor.ts:47-63 | Only the mode changes (Input to Error, Imperial or Scalar to Input, Error stays), and the measurements object is shared. |
| `TokenProcessor.ProcessInputToken` | src/utils/tokenProcessor.ts:65-77 | The new view is the input transition of the old one (scalar keys take the scalar transition, feet/inches keys the imperial one), on the same measurements object. |
| `TokenProcessor.ProcessScalarToken` | src/utils/tokenProcessor.ts:79-110 | The new view is the scalar transition of the old one, written into the shared object. |
| `TokenProcessor.ProcessImperialToken` | src/utils/tokenProcessor.ts:112-145 | The new view is the feet/inches transition of the old one, written into the shared object. |
| `TokenProcessor.ProcessBackspace` | src/utils/tokenProcessor.ts:147-165 | The new view is the backspace transition of the old one, written into the shared object. |
| `TokenProcessor.ProcessTokens` | src/utils/tokenProcessor.ts:167-169 | The result's view is `Run`, the left fold of `Step`. Without a Clear the caller's measurements object is the one updated; after one the object is fresh. Either way the caller's object ends up holding the values `Run` reaches on the tokens before the first Clear. |
| `TokenProcessor.DropLast` | src/utils/tokenProcessor.ts:154 | `slice(0, -1)` removes exactly the last character and leaves "" as "". |
| `TokenProcessor.ControlTokens` | src/utils/tokenProcessor.ts:32-45 | Clear gives the initial state but keeps the fraction denominator. A control key other than Clear or Backspace changes nothing. |
| `TokenProcessor.OperatorTokens` | src/utils/tokenProcessor.ts:47-63 | An operator takes Input to Error and Imperial or Scalar to Input, and leaves Error alone. Nothing else in the state changes. |
| `TokenProcessor.ScalarTokenInImperialMode` | src/utils/tokenProcessor.ts:79-89 | A scalar key in Imperial mode sets mode Error and active pad scalar, and leaves the scalar text as it was. |
| `TokenProcessor.ScalarTokenAppends` | src/utils/tokenProcessor.ts:91-107 | Otherwise the scalar pad becomes active and Input becomes Scalar. A digit is appended, "." only when there is none, other keys are ignored, and feet and inches stay. |
| `TokenProcessor.ImperialTokens` | src/utils/tokenProcessor.ts:112-145 | A feet or inches key makes that pad active and Input becomes Imperial. A digit sets whole := whole*10 + d, an "n/d" key sets the fraction and keeps whole, and the other pad and the scalar text are untouched. |
| `TokenProcessor.BackspaceTokens` | src/utils/tokenProcessor.ts:147-165 | With no active pad nothing changes. On scalar the last character goes; on feet or inches whole becomes whole div 10 and the fraction is kept. |
| `TokenProcessor.RunAppend` | src/utils/tokenProcessor.ts:167-169 | Processing a ++ b is processing b from the state a leaves. |
| `TokenProcessor.RunKeepsFractionDenominator` | src/utils/tokenProcessor.ts:32-38 | No token sequence changes the chosen fraction denominator. |
| `TokenProcessor.ClearForgetsHistory` | src/utils/tokenProcessor.ts:33-38 | After a Clear, the result depends only on the keys after it and the fraction denominator. |
| `TokenProcessor.StepKeepsAtMostOneDot` | src/utils/tokenProcessor.ts:99-103 | No transition puts a second "." into the scalar text. |
| `TokenProcessor.RunKeepsAtMostOneDot` | src/utils/tokenProcessor.ts:99-103 | From the initial state, the scalar text never holds two "." characters. |
| `ValidationEngine.ValidateToken` | src/utils/validationEngine.ts:9-23 | Control keys always pass; Operator keys get the operator check and the other pads the input check. |
| `ValidationEngine.ValidateOperatorToken` | src/utils/validationEngine.ts:25-38 | Passes iff the mode is Imperial or Scalar. Fails with EmptyExpression in Input and with InvalidExpression("Invalid state for operator") in Error. |
| `ValidationEngine.ValidateInputToken` | src/utils/validationEngine.ts:40-50 | Scalar keys get the scalar check, feet/inches keys the imperial check, anything else passes. |
| `ValidationEngine.ValidateScalarToken` | src/utils/validationEngine.ts:52-64 | Passes iff the mode is Input or Scalar. Fails with MixedType in Imperial and with InvalidExpression("Invalid state for scalar input") in Error. |
| `ValidationEngine.ValidateImperialToken` | src/utils/validationEngine.ts:66-73 | Passes iff the mode is Input or Imperial. Otherwise it fails with InvalidExpression("Invalid state for Imperial input"), also in Scalar mode. |
| `ValidationEngine.ValidateTokenSequence` | src/utils/validationEngine.ts:75-91 | Passes iff no two adjacent tokens are both operators, and fails with ConsecutiveOperator otherwise. |
| `ValidationEngine.VerdictDependsOnModeAndPad` | src/utils/validationEngine.ts:9-73 | Two checks with the same mode and pad give the same verdict, whatever the keys and the rest of the state. |
| `ValidationEngine.AcceptedTokensAvoidError` | src/utils/validationEngine.ts:25-64 | An accepted token never moves the state machine into Error. A rejection with EmptyExpression or MixedType happens exactly when the token would. |
| `ValidationEngine.AcceptedRunAvoidsError` | src/utils/validationEngine.ts:9-73 | A log whose every token was accepted in the state reached so far never takes the state machine from Input into Error. |
| `MathTokenProcessor.ImperialDraft.constructor` | src/utils/mathTokenProcessor.ts:43-49 | A new Imperial draft is 0ft 0in 0/16. |
| `MathTokenProcessor.ImperialDraft.Update` | src/utils/mathTokenProcessor.ts:89-105 | The draft becomes `UpdateImperial` of what it was: a fraction key sets the fraction, a digit shifts into the feet or inches of its pad. |
| `MathTokenProcessor.ScalarDraft.constructor` | src/utils/mathTokenProcessor.ts:64-67 | A new Scalar draft has the text "". |
| `MathTokenProcessor.ScalarDraft.Update` | src/utils/mathTokenProcessor.ts:107-117 | The text follows the scalar key rule. |
| `MathTokenProcessor.ProcessInputTokensToMathTokens` | src/utils/mathTokenProcessor.ts:4-86 | The loop's output is `MathTokensOf`: the fold of the per-key step, then the drafts still open. |
| `MathTokenProcessor.PushDrafts` | src/utils/mathTokenProcessor.ts:18-25 | The open Imperial draft is pushed, then the open Scalar draft, whichever exist. |
| `MathTokenProcessor.StartImperial` | src/utils/mathTokenProcessor.ts:39-51 | A new Imperial operand pushes the old draft, if any, and starts a fresh 0ft 0in 0/16 one. |
| `MathTokenProcessor.StartScalar` | src/utils/mathTokenProcessor.ts:60-69 | A new Scalar operand pushes the old draft, if any, and starts a fresh "" one. |
| `MathTokenProcessor.ControlTokensIgnored` | src/utils/mathTokenProcessor.ts:12-14 | The output for a log equals the output for the same log with its control keys removed. |
| `MathTokenProcessor.OperatorsKeptInOrder` | src/utils/mathTokenProcessor.ts:16-34 | The operator tokens of the output carry exactly the keys of the Operator inputs, in order, `=` included. |
| `MathTokenProcessor.ImperialOperand` | src/utils/mathTokenProcessor.ts:37-56 | A non-empty run of feet/inches keys makes exactly one Imperial token: the fold of the keys over 0ft 0in 0/16. |
| `MathTokenProcessor.ScalarOperand` | src/utils/mathTokenProcessor.ts:58-74 | A non-empty run of scalar keys makes exactly one Scalar token, whose text has at most one ".". Without a "." key the text is the digit keys in order; with the first "." key at k it is the digits before k, one ".", then the digits after k (later "." keys are dropped). |
| `MathTokenProcessor.FoldScalarDigits` | src/utils/mathTokenProcessor.ts:107-117 | Without a "." key, the scalar operand is its digit keys in order. |
| `MathTokenProcessor.FoldScalarFirstDot` | src/utils/mathTokenProcessor.ts:107-117 | With the first "." key at k, the scalar operand is the digits before k, one ".", and the digits after k. |
| `MathTokenProcessor.ScalarDecimalExample` | src/utils/mathTokenProcessor.test.ts:44-59 | 3 . 1 4 on the scalar pad give the single Scalar token "3.14". |
| `MathTokenProcessor.UpdateImperialWhole` | src/utils/mathTokenProcessor.ts:95-103 | A digit key shifts into the whole part of its own pad only. |
| `MathTokenProcessor.FoldImperialFeet` | src/utils/mathTokenProcessor.ts:98-99 | The feet of an operand are the number spelled by the digits typed on the feet pad. |
| `MathTokenProcessor.FoldImperialInches` | src/utils/mathTokenProcessor.ts:100-103 | The inches of an operand are the number spelled by the digits typed on the inches pad. |
| `MathTokenProcessor.FoldImperialFraction` | src/utils/mathTokenProcessor.ts:90-94 | The fraction of an operand is the last readable fraction key, 0/16 if there is none. |
| `MathTokenProcessor.MixedOperandOrder` | src/utils/mathTokenProcessor.ts:37-83 | With no operator in between, feet 5, scalar 3, feet 2 gives [5ft, 2ft, "3"]: the open Scalar draft is pushed last. |
| `MathTokenProcessor.TwoOperandsExample` | src/utils/mathTokenProcessor.test.ts:61-90 | 5 on feet, "+", 3 and 1/4 on inches give [5ft 0in 0/16, +, 0ft 3in 1/4]. |
| `MathTokenProcessor.BuildDisplay` | src/utils/mathTokenProcessor.ts:119-142 | No tokens give ""; otherwise the display is the display of all but the last token followed by the last token's text (`map` then `join('')`, no separator). |
| `MathTokenProcessor.RenderToken` | src/utils/mathTokenProcessor.ts:122-140 | Imperial and Length go through the feet/inches formatter, an empty Scalar shows "0", an operator shows " op ", and a ScalarSolution shows its value. An Area is its display text, " (", the `toString` text of its total, and " sq.in)"; a Volume is the same with " cu.in)". |
| `MathTokenProcessor.Bracketed` | src/utils/mathTokenProcessor.ts:132-135 | The bracketed result text starts with the display text and " (", ends with the unit, and holds exactly the total's text in between. |
| `MathTokenProcessor.BuildDisplayAppend` | src/utils/mathTokenProcessor.ts:119-142 | The display of a ++ b is the display of a followed by the display of b. |
| `MathTokenProcessor.ShortDisplays` | src/utils/mathTokenProcessor.ts:119-142 | No tokens show as "", and one token shows as its own rendering. |
| `MathTokenProcessor.AreaDisplayExample` | src/utils/mathTokenProcessor.ts:132-133 | Example: the Area with total 50 and display text "50.00 sq.in" shows "50.00 sq.in (50 sq.in)", with 50 written by `toString`. |
| `MathTokenProcessor.LengthDisplayExample` | src/utils/mathTokenProcessor.test.ts:210-223 | A Length of 2ft 6in with total 30 shows "2ft 6in (30in)", with the total written by `toString`. |
| `MathTokenProcessor.JoinedParts` | src/utils/mathTokenProcessor.ts:145-174 | The joined text is empty iff neither feet > 0 nor inches or numerator > 0; when a part is shown it holds at least a digit and a unit. |
| `MathTokenProcessor.JoinedPartsLetters` | src/utils/mathTokenProcessor.ts:147-167 | Both directions: an "f" appears iff feet > 0, and an "i" iff inches or numerator > 0 (the numbers and the fraction are digits, spaces and "/"). |
| `MathTokenProcessor.InchesTextIsNumeral` | src/utils/mathTokenProcessor.ts:151-163 | The inches part is made of digits, spaces and "/" only. |
| `MathTokenProcessor.ImperialTextLetters` | src/utils/mathTokenProcessor.ts:144-182 | On an Imperial operand the text contains "ft" iff feet > 0 and "in" iff inches or numerator > 0. |
| `MathTokenProcessor.FeetOnlyText` | src/utils/mathTokenProcessor.ts:147-149 | With feet > 0 and no inches part the text is exactly "Nft", plus the bracketed total on a Length. |
| `MathTokenProcessor.FeetAndInchesText` | src/utils/mathTokenProcessor.ts:147-181 | With both parts the text is exactly "Nft", one space and the inches part, plus the bracketed total on a Length. |
| `MathTokenProcessor.InchesOnlyText` | src/utils/mathTokenProcessor.ts:151-181 | Without feet the text is exactly the inches part, plus the bracketed total on a Length. |
| `MathTokenProcessor.FormatImperialToken` | src/utils/mathTokenProcessor.ts:144-182 | The text is "0" iff neither feet > 0 nor inches or numerator > 0. Otherwise it begins with the joined parts. |
| `MathTokenProcessor.FeetShownFirst` | src/utils/mathTokenProcessor.ts:147-166 | With feet > 0 the text begins with "Nft", followed by one space and the inches part when there is one. |
| `MathTokenProcessor.InchesShownFirst` | src/utils/mathTokenProcessor.ts:151-166 | Without feet, the text begins with the inches part. |
| `MathTokenProcessor.LengthShowsTotal` | src/utils/mathTokenProcessor.ts:176-179 | A Length that shows something ends with " (Tin)". |
| `MathTokenProcessor.MinusOneFootShowsZero` | src/utils/mathTokenProcessor.ts:169-172 | A Length of -1ft shows "0" with no total, because of the early return. |
| `MathTokenProcessor.GcdDividesBoth` | src/utils/mathTokenProcessor.ts:191-193 | The gcd divides both numbers. |
| `MathTokenProcessor.CommonDivisorDividesGcd` | src/utils/mathTokenProcessor.ts:191-193 | Every common divisor divides the gcd. |
| `MathTokenProcessor.SimplifyFraction` | src/utils/mathTokenProcessor.ts:185-201 | 0/d becomes 0/1. Otherwise the result has the same ratio, no larger parts, and no common factor above 1. |
| `MathTokenProcessor.SimplifyExamples` | src/utils/mathTokenProcessor.test.ts:225-237 | 4/16 is 1/4, 2/16 is 1/8, and 3/8 stays 3/8. |
| `MathTokenProcessor.DisplayExample` | src/utils/mathTokenProcessor.test.ts:92-113 | 5ft 3 1/4in, +, "3.14" shows "5ft 3 1/4in + 3.14". |
| `MathTokenProcessor.FeetInchesExample` | src/utils/mathTokenProcessor.ts:144-182 | 5ft 3in 1/4 shows "5ft 3 1/4in". |
| `MathTokenProcessor.InchesExample` | src/utils/mathTokenProcessor.ts:152-163 | 3 inches and 1/4 show "3 1/4". |
| `MathTokenProcessor.ReducedFractionExample` | src/utils/mathTokenProcessor.ts:160-162 | 4in 2/16 shows "4 1/8in". |
| `MathEngine.PerformCalculation` | src/utils/mathEngine.ts:17-36 | On an error the list comes back unchanged; on success it becomes one solution token. The error is "No equals operator found" iff the list has no `=`. |
| `MathEngine.ErrorIsNotNoEquals` | src/utils/mathEngine.ts:21-34 | No evaluation error has the no-equals message. |
| `MathEngine.FindLastEqualsOperator` | src/utils/mathEngine.ts:38-45 | The index found holds `=` and no later token does. It is -1 iff there is no `=`. |
| `MathEngine.LastEqualsDecides` | src/utils/mathEngine.ts:17-36 | With `=` last at index i, the result is decided by evaluating the tokens before i alone. |
| `MathEngine.TrailingTokensIgnored` | src/utils/mathEngine.ts:19-29 | Tokens after the last `=` do not change the outcome. |
| `MathEngine.EvaluateExpression` | src/utils/mathEngine.ts:47-78 | The length decides the path: 0 is "Empty expression", 1 non-operand is "Invalid single token", 3 with no middle operator is "Expected operator", any other length is "Complex expressions". A success is a solution token. |
| `MathEngine.EvaluateBinaryOperation` | src/utils/mathEngine.ts:80-115 | Imperial ± Imperial gives a Length, Imperial x Imperial an Area, Scalar x Imperial either way round a Length, and Scalar with Scalar a ScalarSolution. |
| `MathEngine.UnsupportedExactlyWithoutRule` | src/utils/mathEngine.ts:80-115 | "Unsupported operation: L op R" comes exactly for the combinations without a rule, Imperial / Imperial included, naming both types. |
| `MathEngine.AddLengths` | src/utils/mathEngine.ts:118-124 | Defined iff both denominators are non-zero. The result is the Length of the sum of the inch totals. |
| `MathEngine.SubtractLengths` | src/utils/mathEngine.ts:126-132 | Defined iff both denominators are non-zero. The result is the Length of the difference of the inch totals. |
| `MathEngine.MultiplyScalarByLength` | src/utils/mathEngine.ts:134-140 | Defined iff the scalar parses and the denominator is non-zero. The result is the Length of the product. |
| `MathEngine.ScaledLength` | src/utils/mathEngine.ts:137-139 | A Length whose total is factor x inches, with inches below 12 and a proper fraction (carried split, see Left out). |
| `MathEngine.MultiplyLengths` | src/utils/mathEngine.ts:142-152 | Defined iff both denominators are non-zero. The result is the Area of the two inch totals. |
| `MathEngine.Area` | src/utils/mathEngine.ts:145-151 | The Area's total is the product, and its display is the square-feet/square-inches text of that total. |
| `MathEngine.EvaluateScalarOperation` | src/utils/mathEngine.ts:155-184 | "Division by zero" iff the operator is `/` and the right operand is 0. "Unsupported scalar operation" iff the operator is not + - x /. A NaN operand gives "NaN". |
| `MathEngine.ScalarArithmetic` | src/utils/mathEngine.ts:155-184 | On two numbers the result is the text of their exact sum, difference, product or quotient. |
| `MathEngine.ParseFloat` | src/utils/mathEngine.ts:135 | A number is read iff the text starts with a digit, or with "." and a digit; it is never negative. |
| `MathEngine.ParseWholeNumber` | src/utils/mathEngine.ts:156-157 | The text of a whole number parses back to it. |
| `MathEngine.ParseDecimalText` | src/utils/mathEngine.ts:156-157 | "w.f" parses to the decimal value of its digits. |
| `MathEngine.ImperialToInches` | src/utils/mathEngine.ts:187-193 | Defined iff the denominator is non-zero, and then equal to feet*12 + inches + numerator/denominator. |
| `MathEngine.Round` | src/utils/mathEngine.ts:223 | `Math.round`: the nearest integer, halves rounded up. |
| `MathEngine.FirstClose` | src/utils/mathEngine.ts:220-230 | The denominator found is one of the list and not above the maximum. |
| `MathEngine.FirstCloseIsFirst` | src/utils/mathEngine.ts:220-230 | The denominator found is within 1/64 and no earlier one is. None is found only if no allowed denominator is close enough. |
| `MathEngine.SearchFraction` | src/utils/mathEngine.ts:217-234 | The denominator is one of 2, 4, 8, 16, 32 and the numerator is the rounded product. For a decimal in [0, 1), 0 <= numerator <= denominator. |
| `MathEngine.SearchFractionIsFirstClose` | src/utils/mathEngine.ts:220-230 | No smaller allowed common denominator was close enough. |
| `MathEngine.SearchFractionChoice` | src/utils/mathEngine.ts:220-234 | The chosen denominator is within 1/64, or it is the 32nds fallback. |
| `MathEngine.ChosenFractionWithin` | src/utils/mathEngine.ts:223-234 | Such a choice puts the fraction within 1/64 of the decimal. |
| `MathEngine.SearchFractionWithin` | src/utils/mathEngine.ts:220-234 | The fraction found is within 1/64 of the decimal. |
| `MathEngine.DecimalToFraction` | src/utils/mathEngine.ts:214-235 | 0 maps to 0/1, anything else to the search result. The denominator is in {1, 2, 4, 8, 16, 32}, and on [0, 1) 0 <= numerator <= denominator. |
| `MathEngine.DecimalToFractionError` | src/utils/mathEngine.ts:214-235 | The fraction is always within 1/64 of the decimal. |
| `MathEngine.RoundingError32` | src/utils/mathEngine.ts:233-234 | Rounding to 32nds is off by at most 1/64. |
| `MathEngine.RoundingInRange` | src/utils/mathEngine.ts:223 | Rounding x*d for x in [0, 1) lands in 0..d. |
| `MathEngine.InchesToLengthSolution` | src/utils/mathEngine.ts:195-212 | As written: the total is kept, feet = floor(total/12), 0 <= inches <= 11, the denominator is a power of two up to 32, and numerator <= denominator. |
| `MathEngine.LengthSolutionWithin` | src/utils/mathEngine.ts:195-212 | feet*12 + inches + numerator/denominator is within 1/64 of the total. |
| `MathEngine.CarriedLengthSolution` | src/utils/mathEngine.ts:195-212 | As intended: the same split, except that a fraction rounded up to n/n is carried into the inches (and 12 inches into the feet). The fraction is always proper, and whenever the as-written fraction is proper the result is the as-written one. |
| `MathEngine.CarryKeepsLength` | src/utils/mathEngine.ts:195-212 | Carrying keeps the length the split stands for. |
| `MathEngine.CarriedLengthWithin` | src/utils/mathEngine.ts:195-212 | The carried split is within 1/64 of the total. |
| `MathEngine.ConvertImperialToLengthSolution` | src/utils/mathEngine.ts:253-256 | Defined iff the denominator is non-zero. The Length's total is the operand's inch total. |
| `MathEngine.ConvertScalarToScalarSolution` | src/utils/mathEngine.ts:258-263 | A ScalarSolution with the same text. |
| `MathEngine.FormatSquareInches` | src/utils/mathEngine.ts:237-250 | The text ends in " sq.ft" iff the area is a positive whole number of square feet, and in " sq.in" otherwise ("0 sq.in" included); with square feet it starts with "N sq.ft". |
| `MathEngine.SquareFeetSplit` | src/utils/mathEngine.ts:238-239 | Square feet x 144 plus the remainder is the total, and the remainder is in [0, 144). |
| `MathEngine.SplitOfSquareFeet` | src/utils/mathEngine.ts:238-239 | That split is the only one with the remainder in [0, 144). |
| `MathEngine.SquareInchesOnly` | src/utils/mathEngine.ts:237-250 | 0 shows "0 sq.in", and under a square foot only square inches are shown. |
| `MathEngine.WholeSquareFeet` | src/utils/mathEngine.ts:237-250 | A whole number of square feet shows "N sq.ft" only. |
| `MathEngine.SquareFeetAndInches` | src/utils/mathEngine.ts:237-250 | Square feet and a square-inch remainder show "N sq.ft I sq.in". |
| `MathEngine.AddLengthsCommute` | src/utils/mathEngine.ts:118-124 | Adding lengths does not depend on their order. |
| `MathEngine.SubtractLengthsAntisymmetric` | src/utils/mathEngine.ts:126-132 | Swapping the operands negates the total of a difference. |
| `MathEngine.SubtractSelfIsZero` | src/utils/mathEngine.ts:126-132 | A length minus itself is the Length 0ft 0in 0/1. |
| `MathEngine.MultiplyLengthsCommute` | src/utils/mathEngine.ts:142-152 | Multiplying lengths does not depend on their order. |
| `MathEngine.ScalarTimesLengthEitherOrder` | src/utils/mathEngine.ts:94-102 | Scalar x Imperial and Imperial x Scalar give the same result. |
| `MathEngine.AddExample` | src/utils/mathEngine.test.ts:24-44 | 1ft 6in + 8 1/4in = gives the Length 26.25 = 2ft 2in 1/4. |
| `MathEngine.SubtractExample` | src/utils/mathEngine.test.ts:46-66 | 2ft - 6in = gives the Length 18 = 1ft 6in 0/1. |
| `MathEngine.ScalarTimesLengthExample` | src/utils/mathEngine.test.ts:68-88 | 3 x 4in = gives the Length 12 = 1ft 0in 0/1. |
| `MathEngine.AreaExample` | src/utils/mathEngine.test.ts:90-107 | 5in x 10in = gives the Area 50 shown in square inches only. |
| `MathEngine.DivisionByZeroExample` | src/utils/mathEngine.test.ts:127-139 | 5 / 0 = returns the list unchanged with "Division by zero". |
| `MathEngine.SingleTokenExample` | src/utils/mathEngine.test.ts:194-212 | 1ft 6 1/4in = gives the Length 18.25 = 1ft 6in 1/4. |
| `MathEngine.NegativeLengthExample` | src/utils/mathEngine.test.ts:477-497 | 1ft - 2ft = gives the Length -12 = -1ft 0in 0/1. |
| `MathEngine.LoneEqualsExample` | src/utils/mathEngine.ts:48-50 | A lone `=` gives "Empty expression". |
| `MathEngine.DivideLengthsExample` | src/utils/mathEngine.ts:80-115 | 1ft / 2ft = gives "Unsupported operation: Imperial / Imperial". |
| `MathEngine.SecondEqualsExample` | src/utils/mathEngine.test.ts:446-461 | 5 + 3 = 2 = evaluates the five tokens before the last `=` and fails with "Complex expressions not yet supported", returning the list. |
| `MathEngine.WholeInchAsFraction` | src/utils/mathEngine.ts:223-229 | As written, 3.99 inches split into 0ft 3in 2/2. |
| `MathEngine.ParseExample` | src/utils/mathEngine.ts:135 | "0.57" parses to 0.57. |
| `MathEngine.DecimalExample` | src/utils/mathEngine.ts:135 | The digits "0" and "57" stand for 0.57. |
| `MathEngine.CarriedInchExample` | src/utils/mathEngine.ts:134-140 | 0.57 x 7in = gives the Length 3.99 = 0ft 4in 0/1 once the inch is carried. |

## Left out

- The React components, CSS and DOM wiring, the pads' own fallback arithmetic, the Error-to-Input timer, the error banner timer and vibration, `window` debug hooks and `console.log`. These are UI and ambient I/O, outside the core.
- `errorTimeout` in the state, and the ignored `_currentState` parameter of `processInputTokensToMathTokens`: nothing in the core reads them.
- `removeLastUsefulToken` and `createInitialMathTokenSystem` are imported by the app but are not part of this model: their source is not among the core files.
- Floating point. Numbers are exact reals, so rounding errors of IEEE doubles (0.57 x 7 is not exactly 3.99 in a double) are not modelled.
- `Number.prototype.toString` and `toFixed(2)` are the two abstract functions of `TextFormat`. Only whole-number rendering (`NatToString`) is spelled out.
- `parseFloat` is modelled for text made of digits and at most one "." (all the scalar pad can produce): no sign, exponent, whitespace or "Infinity". Text that does not start with a number is NaN, as in the source.
- A fraction key whose parts are not plain digits (where `Number` gives NaN or a non-whole number) leaves the fraction unchanged in the model.
- A NaN or infinite total inside a Length or an Area is reported as the error `NonFiniteNumber`. The source would build a token holding NaN instead. This arises from a zero denominator typed on a fraction key, or from a Scalar operand that `parseFloat` reads as NaN ("" or ".") multiplied by a length.
- `VolumeSolution` is a variant of the datatype and is rendered, but nothing in the core produces one.
- Where the code and the design description or its tests disagree, the model follows the code. The code has no operator precedence and no expressions longer than three tokens. It has no rule for Imperial / Imperial or Imperial / Scalar. A lone `=` is "Empty expression".
- MathEngine.CarriedLengthSolution is used where the source calls `inchesToLengthSolution`. It differs from the source exactly when the fraction rounds to n/n (see Findings). `MathEngine.InchesToLengthSolution` models the code as written.
- MathEngine.FirstClose: its own contract only places the result in the list. First-ness and closeness are in the lemma `MathEngine.FirstCloseIsFirst`.
- MathEngine.SearchFraction: its own contract does not state first-ness or the 1/64 bound. Those are the lemmas `MathEngine.SearchFractionIsFirstClose` and `MathEngine.SearchFractionWithin`.
- MathEngine.InchesToLengthSolution: the 1/64 bound is stated in the lemma `MathEngine.LengthSolutionWithin`, not in its own contract.
- MathEngine.EvaluateBinaryOperation: the exact totals of each rule are stated by the members it calls (`AddLengths`, `SubtractLengths`, `MultiplyScalarByLength`, `MultiplyLengths`, `ScalarArithmetic`), not repeated here.

## Findings

| source | as written | input that shows it | evidently intended | confidence | as-written member | corrected member |
|---|---|---|---|---|---|---|
| src/utils/mathEngine.ts:195-235 | `decimalToFraction` accepts 2/2 for a fraction within 1/64 below 1, and `inchesToLengthSolution` keeps the whole inches one short. | 0.57 x 7in = gives 3.99 in, split 0ft 3in 2/2, shown "3 1/1in (3.99in)". | The rounded-up inch is carried: 0ft 4in 0/1, and 12 inches become one more foot. | medium, not executed | `MathEngine.WholeInchAsFraction` | `MathEngine.CarriedLengthSolution` |
