/**
 * The evaluator: finds the last "=", evaluates the tokens before it (one
 * token, or one binary operation) and replaces the whole list by the result,
 * or leaves the list as it is and reports an error.
 *
 * Numbers are exact reals. A computation that would produce NaN or Infinity
 * inside a Length or an Area is reported as `NonFiniteNumber`; a scalar
 * result that is NaN is rendered "NaN", as the source renders it.
 */
module MathEngine {
  import opened Wrappers
  import opened Types
  import opened Text

  datatype EvalError =
    | EmptyExpression
    | InvalidSingleToken
    | ExpectedOperator
    | ComplexExpression
    | UnsupportedOperation(leftType: string, operator: Operator, rightType: string)
    | DivisionByZero
    | UnsupportedScalarOperation(scalarOperator: Operator)
    | NonFiniteNumber

  function ErrorMessage(e: EvalError): string
  {
    match e
    case EmptyExpression => "Empty expression"
    case InvalidSingleToken => "Invalid single token"
    case ExpectedOperator => "Expected operator in middle position"
    case ComplexExpression => "Complex expressions not yet supported"
    case UnsupportedOperation(l, op, r) => "Unsupported operation: " + l + " " + Symbol(op) + " " + r
    case DivisionByZero => "Division by zero"
    case UnsupportedScalarOperation(op) => "Unsupported scalar operation: " + Symbol(op)
    case NonFiniteNumber => "Result is not a finite number"
  }

  const NoEqualsMessage := "No equals operator found"

  datatype CalculationResult = CalculationResult(newTokens: seq<MathToken>, error: Option<string>)

  predicate IsEquals(t: MathToken)
  {
    t.OperatorToken? && t.operator == Equals
  }

  predicate IsSolution(t: MathToken)
  {
    t.LengthSolution? || t.AreaSolution? || t.ScalarSolution?
  }

  // ---------------------------------------------------------------------
  // performCalculation
  // ---------------------------------------------------------------------

  /**
   * On success the list becomes the one result token; on any error the list
   * is returned unchanged together with the error text.
   */
  function PerformCalculation(mathTokens: seq<MathToken>, fmt: TextFormat): (r: CalculationResult)
    ensures r.error.Some? ==> r.newTokens == mathTokens
    ensures r.error.None? ==> |r.newTokens| == 1 && IsSolution(r.newTokens[0])
    ensures r.error == Some(NoEqualsMessage) <==> forall j :: 0 <= j < |mathTokens| ==> !IsEquals(mathTokens[j])
  {
    var equalsIndex := FindLastEqualsOperator(mathTokens);
    if equalsIndex == -1 then CalculationResult(mathTokens, Some(NoEqualsMessage))
    else
      var expression := mathTokens[..equalsIndex];
      match EvaluateExpression(expression, fmt)
      case Ok(result) => CalculationResult([result], None)
      case Err(e) =>
        ErrorIsNotNoEquals(e);
        CalculationResult(mathTokens, Some(ErrorMessage(e)))
  }

  lemma ErrorIsNotNoEquals(e: EvalError)
    ensures ErrorMessage(e) != NoEqualsMessage
  {
    assert ErrorMessage(e)[0] != NoEqualsMessage[0];
  }

  /** The index of the last "=" token, or -1 when there is none. */
  function FindLastEqualsOperator(tokens: seq<MathToken>): (i: int)
    ensures -1 <= i < |tokens|
    ensures i >= 0 ==> IsEquals(tokens[i]) && forall j :: i < j < |tokens| ==> !IsEquals(tokens[j])
    ensures i == -1 <==> forall j :: 0 <= j < |tokens| ==> !IsEquals(tokens[j])
    decreases |tokens|
  {
    if tokens == [] then -1
    else if IsEquals(tokens[|tokens| - 1]) then |tokens| - 1
    else FindLastEqualsOperator(tokens[..|tokens| - 1])
  }

  /**
   * Only the tokens before the last "=" are evaluated: whatever comes after it
   * (containing no further "=") plays no part, and on success they are dropped.
   */
  lemma {:induction false} LastEqualsDecides(mathTokens: seq<MathToken>, i: nat, fmt: TextFormat)
    requires i < |mathTokens| && IsEquals(mathTokens[i])
    requires forall j :: i < j < |mathTokens| ==> !IsEquals(mathTokens[j])
    ensures var r := PerformCalculation(mathTokens, fmt);
      match EvaluateExpression(mathTokens[..i], fmt)
      case Ok(v) => r == CalculationResult([v], None)
      case Err(e) => r == CalculationResult(mathTokens, Some(ErrorMessage(e)))
  {
    var k := FindLastEqualsOperator(mathTokens);
    assert k == i;
  }

  /** Tokens after the last "=" do not change the outcome of the calculation. */
  lemma TrailingTokensIgnored(expression: seq<MathToken>, trailing: seq<MathToken>, fmt: TextFormat)
    requires forall j :: 0 <= j < |trailing| ==> !IsEquals(trailing[j])
    ensures var r := PerformCalculation(expression + [OperatorToken(Equals)] + trailing, fmt);
      var s := PerformCalculation(expression + [OperatorToken(Equals)], fmt);
      r.error == s.error && (r.error.None? ==> r.newTokens == s.newTokens)
  {
    var ts := expression + [OperatorToken(Equals)] + trailing;
    var us := expression + [OperatorToken(Equals)];
    var i := |expression|;
    assert ts[..i] == expression && us[..i] == expression;
    assert forall j :: i < j < |ts| ==> ts[j] == trailing[j - i - 1];
    LastEqualsDecides(ts, i, fmt);
    LastEqualsDecides(us, i, fmt);
  }

  // ---------------------------------------------------------------------
  // evaluateExpression and evaluateBinaryOperation
  // ---------------------------------------------------------------------

  /** Only a single operand or one `left operator right` triple is evaluated. */
  function EvaluateExpression(tokens: seq<MathToken>, fmt: TextFormat): (r: Result<MathToken, EvalError>)
    ensures |tokens| == 0 ==> r == Err(EmptyExpression)
    ensures |tokens| == 1 && !tokens[0].ImperialToken? && !tokens[0].ScalarToken? ==> r == Err(InvalidSingleToken)
    ensures |tokens| == 3 && !tokens[1].OperatorToken? ==> r == Err(ExpectedOperator)
    ensures |tokens| != 0 && |tokens| != 1 && |tokens| != 3 ==> r == Err(ComplexExpression)
    ensures r.Ok? ==> IsSolution(r.value)
  {
    if |tokens| == 0 then Err(EmptyExpression)
    else if |tokens| == 1 then
      var token := tokens[0];
      if token.ImperialToken? then ConvertImperialToLengthSolution(token)
      else if token.ScalarToken? then Ok(ConvertScalarToScalarSolution(token))
      else Err(InvalidSingleToken)
    else if |tokens| == 3 then
      if !tokens[1].OperatorToken? then Err(ExpectedOperator)
      else EvaluateBinaryOperation(tokens[0], tokens[1].operator, tokens[2], fmt)
    else Err(ComplexExpression)
  }

  /** The operand kinds and operator that have a rule; everything else is unsupported. */
  predicate HasRule(left: MathToken, op: Operator, right: MathToken)
  {
    || (left.ImperialToken? && right.ImperialToken? && op in {Plus, Minus, Times})
    || (left.ScalarToken? && right.ImperialToken? && op == Times)
    || (left.ImperialToken? && right.ScalarToken? && op == Times)
    || (left.ScalarToken? && right.ScalarToken?)
  }

  function EvaluateBinaryOperation(left: MathToken, op: Operator, right: MathToken, fmt: TextFormat): (r: Result<MathToken, EvalError>)
    ensures r.Ok? ==> IsSolution(r.value)
    ensures r.Ok? && left.ImperialToken? && right.ImperialToken? && op in {Plus, Minus} ==> r.value.LengthSolution?
    ensures r.Ok? && left.ImperialToken? && right.ImperialToken? && op == Times ==> r.value.AreaSolution?
    ensures r.Ok? && (left.ScalarToken? || right.ScalarToken?) && op == Times && !(left.ScalarToken? && right.ScalarToken?) ==>
      r.value.LengthSolution?
    ensures r.Ok? && left.ScalarToken? && right.ScalarToken? ==> r.value.ScalarSolution?
  {
    var leftType := TypeName(left);
    var rightType := TypeName(right);
    if left.ImperialToken? && right.ImperialToken? && op == Plus then AddLengths(left, right)
    else if left.ImperialToken? && right.ImperialToken? && op == Minus then SubtractLengths(left, right)
    else if left.ScalarToken? && right.ImperialToken? && op == Times then MultiplyScalarByLength(left, right)
    else if left.ImperialToken? && right.ScalarToken? && op == Times then MultiplyScalarByLength(right, left)
    else if left.ImperialToken? && right.ImperialToken? && op == Times then MultiplyLengths(left, right, fmt)
    else if left.ScalarToken? && right.ScalarToken? then EvaluateScalarOperation(left, op, right, fmt)
    else Err(UnsupportedOperation(leftType, op, rightType))
  }

  /** "Unsupported operation" is reported exactly for the combinations without a rule, naming both operand types. */
  lemma UnsupportedExactlyWithoutRule(left: MathToken, op: Operator, right: MathToken, fmt: TextFormat)
    ensures (EvaluateBinaryOperation(left, op, right, fmt).Err? &&
             EvaluateBinaryOperation(left, op, right, fmt).error.UnsupportedOperation?) <==> !HasRule(left, op, right)
    ensures !HasRule(left, op, right) ==>
      EvaluateBinaryOperation(left, op, right, fmt) == Err(UnsupportedOperation(TypeName(left), op, TypeName(right)))
  {
  }

  // ---------------------------------------------------------------------
  // Length operations
  // ---------------------------------------------------------------------

  function AddLengths(left: MathToken, right: MathToken): (r: Result<MathToken, EvalError>)
    requires left.ImperialToken? && right.ImperialToken?
    ensures r.Ok? <==> ImperialToInches(left).Some? && ImperialToInches(right).Some?
    ensures r.Ok? ==> (r.value.LengthSolution? &&
                       r.value.totalInches == ImperialToInches(left).value + ImperialToInches(right).value)
  {
    var a := ImperialToInches(left);
    var b := ImperialToInches(right);
    if a.Some? && b.Some? then Ok(CarriedLengthSolution(a.value + b.value)) else Err(NonFiniteNumber)
  }

  function SubtractLengths(left: MathToken, right: MathToken): (r: Result<MathToken, EvalError>)
    requires left.ImperialToken? && right.ImperialToken?
    ensures r.Ok? <==> ImperialToInches(left).Some? && ImperialToInches(right).Some?
    ensures r.Ok? ==> (r.value.LengthSolution? &&
                       r.value.totalInches == ImperialToInches(left).value - ImperialToInches(right).value)
  {
    var a := ImperialToInches(left);
    var b := ImperialToInches(right);
    if a.Some? && b.Some? then Ok(CarriedLengthSolution(a.value - b.value)) else Err(NonFiniteNumber)
  }

  function MultiplyScalarByLength(scalar: MathToken, length: MathToken): (r: Result<MathToken, EvalError>)
    requires scalar.ScalarToken? && length.ImperialToken?
    ensures r.Ok? <==> ParseFloat(scalar.value).Some? && ImperialToInches(length).Some?
    ensures r.Ok? ==> r.value == ScaledLength(ParseFloat(scalar.value).value, ImperialToInches(length).value)
  {
    var s := ParseFloat(scalar.value);
    var l := ImperialToInches(length);
    if s.Some? && l.Some? then Ok(ScaledLength(s.value, l.value)) else Err(NonFiniteNumber)
  }

  /** The product of a factor and a length in inches, as a length solution. */
  function ScaledLength(factor: real, inches: real): (t: MathToken)
    ensures t.LengthSolution? && t.totalInches == factor * inches
    ensures t.inches < 12 && t.numerator < t.denominator
  {
    CarriedLengthSolution(factor * inches)
  }

  function MultiplyLengths(left: MathToken, right: MathToken, fmt: TextFormat): (r: Result<MathToken, EvalError>)
    requires left.ImperialToken? && right.ImperialToken?
    ensures r.Ok? <==> ImperialToInches(left).Some? && ImperialToInches(right).Some?
    ensures r.Ok? ==> r.value == Area(ImperialToInches(left).value, ImperialToInches(right).value, fmt)
  {
    var a := ImperialToInches(left);
    var b := ImperialToInches(right);
    if a.Some? && b.Some? then Ok(Area(a.value, b.value, fmt)) else Err(NonFiniteNumber)
  }

  /** The area of a rectangle with the given sides in inches, with its square-feet text. */
  function Area(width: real, height: real, fmt: TextFormat): (t: MathToken)
    ensures t.AreaSolution? && t.totalSquareInches == width * height
    ensures t.displayValue == FormatSquareInches(t.totalSquareInches, fmt)
  {
    var squareInches := width * height;
    AreaSolution(squareInches, FormatSquareInches(squareInches, fmt))
  }

  // ---------------------------------------------------------------------
  // Scalar operations
  // ---------------------------------------------------------------------

  /** `String(x)` for a number that may be NaN (`None`). */
  function NumberText(x: Option<real>, fmt: TextFormat): string
  {
    match x
    case Some(v) => fmt.numberText(v)
    case None => "NaN"
  }

  /** Arithmetic on numbers that may be NaN: NaN in, NaN out. */
  function Lift(a: Option<real>, b: Option<real>, op: Operator): Option<real>
    requires op in {Plus, Minus, Times, Divide}
    requires op == Divide && b.Some? ==> b.value != 0.0
  {
    if a.Some? && b.Some? then Some(Arithmetic(op, a.value, b.value)) else None
  }

  /** The exact result of a scalar operation on two numbers. */
  function Arithmetic(op: Operator, x: real, y: real): real
    requires op in {Plus, Minus, Times} || (op == Divide && y != 0.0)
  {
    match op
    case Plus => x + y
    case Minus => x - y
    case Times => x * y
    case _ => x / y
  }

  function EvaluateScalarOperation(left: MathToken, op: Operator, right: MathToken, fmt: TextFormat): (r: Result<MathToken, EvalError>)
    requires left.ScalarToken? && right.ScalarToken?
    ensures r == Err(DivisionByZero) <==> op == Divide && ParseFloat(right.value) == Some(0.0)
    ensures r.Err? && r.error.UnsupportedScalarOperation? <==> !(op in {Plus, Minus, Times, Divide})
    ensures r.Ok? ==> r.value.ScalarSolution?
    ensures r.Ok? && (ParseFloat(left.value).None? || ParseFloat(right.value).None?) ==> r.value.value == "NaN"
  {
    var leftValue := ParseFloat(left.value);
    var rightValue := ParseFloat(right.value);
    match op
    case Plus => Ok(ScalarSolution(NumberText(Lift(leftValue, rightValue, op), fmt)))
    case Minus => Ok(ScalarSolution(NumberText(Lift(leftValue, rightValue, op), fmt)))
    case Times => Ok(ScalarSolution(NumberText(Lift(leftValue, rightValue, op), fmt)))
    case Divide =>
      if rightValue == Some(0.0) then Err(DivisionByZero)
      else Ok(ScalarSolution(NumberText(Lift(leftValue, rightValue, op), fmt)))
    case _ => Err(UnsupportedScalarOperation(op))
  }

  // ---------------------------------------------------------------------
  // parseFloat
  // ---------------------------------------------------------------------

  /** The longest prefix made of digits. */
  function LeadingDigits(s: string): (r: string)
    ensures r <= s && AllDigits(r)
    ensures |r| < |s| ==> !IsDigitChar(s[|r|])
    decreases |s|
  {
    if s == [] || !IsDigitChar(s[0]) then "" else [s[0]] + LeadingDigits(s[1..])
  }

  function Pow10(k: nat): (r: nat)
    ensures r > 0
  {
    if k == 0 then 1 else 10 * Pow10(k - 1)
  }

  /**
   * `parseFloat` on text without sign, exponent or leading blanks: the
   * longest prefix of the form digits, optionally "." and digits, with at
   * least one digit; NaN (`None`) when there is none.
   */
  function ParseFloat(s: string): (r: Option<real>)
    ensures r.Some? <==> (|s| > 0 && IsDigitChar(s[0])) || (|s| > 1 && s[0] == '.' && IsDigitChar(s[1]))
    ensures r.Some? ==> r.value >= 0.0
  {
    var intPart := LeadingDigits(s);
    var rest := s[|intPart|..];
    var fracPart := if |rest| > 0 && rest[0] == '.' then LeadingDigits(rest[1..]) else "";
    if |intPart| == 0 && |fracPart| == 0 then None
    else Some(DecimalValue(intPart, fracPart))
  }

  /** The number spelled by whole-part digits and fraction-part digits. */
  function DecimalValue(whole: string, fraction: string): real
    requires AllDigits(whole) && AllDigits(fraction)
  {
    DigitsValue(whole) as real + DigitsValue(fraction) as real / Pow10(|fraction|) as real
  }

  /** The text of a whole number reads back as that number. */
  lemma ParseWholeNumber(n: nat)
    ensures ParseFloat(NatToString(n)) == Some(n as real)
  {
    var s := NatToString(n);
    AllDigitsLeading(s);
  }

  /** Digits, a point and digits read back as the whole part plus the fraction they spell. */
  lemma ParseDecimalText(whole: string, fraction: string)
    requires AllDigits(whole) && AllDigits(fraction) && |whole| + |fraction| > 0
    ensures ParseFloat(whole + "." + fraction) == Some(DecimalValue(whole, fraction))
  {
    var s := whole + "." + fraction;
    assert s == whole + ("." + fraction);
    LeadingDigitsStops(whole, "." + fraction);
    assert LeadingDigits(s) == whole;
    assert s[|whole|..] == "." + fraction;
    assert ("." + fraction)[1..] == fraction;
    AllDigitsLeading(fraction);
  }

  lemma {:induction false} LeadingDigitsStops(digits: string, rest: string)
    requires AllDigits(digits) && (rest == [] || !IsDigitChar(rest[0]))
    ensures LeadingDigits(digits + rest) == digits
    decreases |digits|
  {
    if digits != [] {
      assert (digits + rest)[1..] == digits[1..] + rest;
      LeadingDigitsStops(digits[1..], rest);
    }
  }

  lemma {:induction false} AllDigitsLeading(s: string)
    requires AllDigits(s)
    ensures LeadingDigits(s) == s
    decreases |s|
  {
    if s != [] {
      AllDigitsLeading(s[1..]);
    }
  }

  // ---------------------------------------------------------------------
  // Inches and lengths
  // ---------------------------------------------------------------------

  /** feet * 12 + inches + numerator / denominator; not finite (`None`) when the denominator is 0. */
  function ImperialToInches(imperial: MathToken): (r: Option<real>)
    requires imperial.ImperialToken?
    ensures r.Some? <==> imperial.denominator != 0
    ensures r.Some? ==> r.value == LengthValue(imperial.feet, imperial.inches, imperial.numerator, imperial.denominator)
  {
    if imperial.denominator == 0 then None
    else Some(imperial.feet as real * 12.0 + imperial.inches as real + imperial.numerator as real / imperial.denominator as real)
  }

  /** The length in inches that feet, inches and a fraction stand for. */
  function LengthValue(feet: int, inches: nat, numerator: int, denominator: nat): real
    requires denominator > 0
  {
    feet as real * 12.0 + inches as real + numerator as real / denominator as real
  }

  function Abs(x: real): real
  {
    if x < 0.0 then -x else x
  }

  /** `Math.round`: the nearest whole number, halves rounded up. */
  function Round(y: real): (n: int)
    ensures n as real - 0.5 <= y < n as real + 0.5
  {
    (y + 0.5).Floor
  }

  const CommonDenominators: seq<nat> := [2, 4, 8, 16, 32]
  const MaxDenominator: nat := 32

  /** `numerator / denom` is within (strictly) 1/64 of `decimal`. */
  predicate CloseEnough(decimal: real, denom: nat)
    requires denom > 0
  {
    Abs(Round(decimal * denom as real) as real / denom as real - decimal) < 1.0 / 64.0
  }

  predicate Ascending(dens: seq<nat>)
  {
    (forall k :: 0 <= k < |dens| ==> dens[k] > 0) &&
    (forall i, j :: 0 <= i < j < |dens| ==> dens[i] < dens[j])
  }

  /** The loop over the common denominators: the first one close enough, stopping at the first above the maximum. */
  function FirstClose(decimal: real, dens: seq<nat>, maxDenominator: nat): (r: Option<nat>)
    requires Ascending(dens)
    ensures r.Some? ==> r.value in dens && r.value <= maxDenominator
  {
    if dens == [] then None
    else if dens[0] > maxDenominator then None
    else if CloseEnough(decimal, dens[0]) then Some(dens[0])
    else
      assert Ascending(dens[1..]);
      FirstClose(decimal, dens[1..], maxDenominator)
  }

  /** The search returns a close-enough denominator, none smaller is close enough, and it fails only if none is. */
  lemma {:induction false} FirstCloseIsFirst(decimal: real, dens: seq<nat>, maxDenominator: nat)
    requires Ascending(dens)
    ensures var r := FirstClose(decimal, dens, maxDenominator);
      && (r.Some? ==> CloseEnough(decimal, r.value))
      && (r.Some? ==> forall d :: d in dens && d < r.value ==> !CloseEnough(decimal, d))
      && (r.None? ==> forall d :: d in dens && d <= maxDenominator ==> !CloseEnough(decimal, d))
  {
    if dens != [] && dens[0] <= maxDenominator && !CloseEnough(decimal, dens[0]) {
      assert Ascending(dens[1..]);
      FirstCloseIsFirst(decimal, dens[1..], maxDenominator);
      forall d | d in dens && d != dens[0]
        ensures d in dens[1..]
      {
      }
    }
  }

  /** The fraction the search settles on: the first denominator close enough, or 32nds. */
  function SearchFraction(decimal: real, maxDenominator: nat): (r: (int, nat))
    ensures r.1 in CommonDenominators && r.0 == Round(decimal * r.1 as real)
    ensures 0.0 <= decimal < 1.0 ==> 0 <= r.0 <= r.1
  {
    var found := FirstClose(decimal, CommonDenominators, maxDenominator);
    var d: nat := if found.Some? then found.value else 32;
    RoundingInRange(decimal, d);
    (Round(decimal * d as real), d)
  }

  /** No smaller common denominator allowed was close enough. */
  lemma SearchFractionIsFirstClose(decimal: real, maxDenominator: nat)
    ensures var r := SearchFraction(decimal, maxDenominator);
      forall e :: e in CommonDenominators && e < r.1 && e <= maxDenominator ==> !CloseEnough(decimal, e)
  {
    FirstCloseIsFirst(decimal, CommonDenominators, maxDenominator);
  }

  /** The fraction found is within 1/64 of the decimal. */
  lemma SearchFractionWithin(decimal: real, maxDenominator: nat)
    ensures var r := SearchFraction(decimal, maxDenominator);
      Abs(r.0 as real / r.1 as real - decimal) <= 1.0 / 64.0
  {
    var r := SearchFraction(decimal, maxDenominator);
    SearchFractionChoice(decimal, maxDenominator);
    ChosenFractionWithin(decimal, r.0, r.1);
  }

  /** The denominator chosen is close enough, or it is the 32nds fallback. */
  lemma SearchFractionChoice(decimal: real, maxDenominator: nat)
    ensures var r := SearchFraction(decimal, maxDenominator);
      r.1 > 0 && r.0 == Round(decimal * r.1 as real) && (CloseEnough(decimal, r.1) || r.1 == 32)
  {
    FirstCloseIsFirst(decimal, CommonDenominators, maxDenominator);
  }

  /** A close-enough denominator, or 32nds, puts the rounded fraction within 1/64. */
  lemma ChosenFractionWithin(decimal: real, n: int, d: nat)
    requires d > 0 && n == Round(decimal * d as real) && (CloseEnough(decimal, d) || d == 32)
    ensures Abs(n as real / d as real - decimal) <= 1.0 / 64.0
  {
    if !CloseEnough(decimal, d) {
      RoundingError32(decimal);
    }
  }

  /**
   * `decimalToFraction`: 0 is 0/1; otherwise the first of 1/2 ... 1/32 steps
   * whose rounding is within 1/64, and 32nds when none is.
   */
  function DecimalToFraction(decimal: real, maxDenominator: nat): (r: (int, nat))
    ensures decimal == 0.0 ==> r == (0, 1)
    ensures decimal != 0.0 ==> r == SearchFraction(decimal, maxDenominator)
    ensures r.1 in {1, 2, 4, 8, 16, 32}
    ensures 0.0 <= decimal < 1.0 ==> 0 <= r.0 <= r.1
  {
    if decimal == 0.0 then (0, 1) else SearchFraction(decimal, maxDenominator)
  }

  /** The fraction is always within 1/64 of the decimal. */
  lemma DecimalToFractionError(decimal: real, maxDenominator: nat)
    ensures var r := DecimalToFraction(decimal, maxDenominator);
      Abs(r.0 as real / r.1 as real - decimal) <= 1.0 / 64.0
  {
    if decimal != 0.0 {
      SearchFractionWithin(decimal, maxDenominator);
    }
  }

  /** Rounding to 32nds is off by at most half a 32nd. */
  lemma RoundingError32(x: real)
    ensures Abs(Round(x * 32.0) as real / 32.0 - x) <= 1.0 / 64.0
  {
    var n := Round(x * 32.0) as real;
    assert n - 0.5 <= x * 32.0 < n + 0.5;
  }

  lemma RoundingInRange(x: real, d: nat)
    requires d > 0
    ensures 0.0 <= x < 1.0 ==> 0 <= Round(x * d as real) <= d
  {
    if 0.0 <= x < 1.0 {
      var dr := d as real;
      assert 0.0 <= x * dr < dr;
    }
  }

  /**
   * `inchesToLengthSolution`: whole feet rounded down, whole inches in 0..11,
   * and the rest as a fraction with denominator 1, 2, 4, 8, 16 or 32. Negative
   * totals have negative feet and non-negative inches.
   */
  function InchesToLengthSolution(totalInches: real): (t: MathToken)
    ensures t.LengthSolution? && t.totalInches == totalInches
    ensures t.feet == (totalInches / 12.0).Floor
    ensures t.inches < 12 && t.denominator in {1, 2, 4, 8, 16, 32} && t.numerator <= t.denominator
  {
    var feet := (totalInches / 12.0).Floor;
    var remainingInches := totalInches - feet as real * 12.0;
    assert 0.0 <= remainingInches < 12.0;
    var wholeInches := remainingInches.Floor;
    var fractionInches := remainingInches - wholeInches as real;
    var (numerator, denominator) := DecimalToFraction(fractionInches, MaxDenominator);
    LengthSolution(totalInches, feet, wholeInches, numerator, denominator)
  }

  /** The feet, inches and fraction shown stand for the total to within 1/64 inch. */
  lemma LengthSolutionWithin(totalInches: real)
    ensures var t := InchesToLengthSolution(totalInches);
      Abs(LengthValue(t.feet, t.inches, t.numerator, t.denominator) - totalInches) <= 1.0 / 64.0
  {
    var feet := (totalInches / 12.0).Floor;
    var remainingInches := totalInches - feet as real * 12.0;
    var wholeInches := remainingInches.Floor;
    var fractionInches := remainingInches - wholeInches as real;
    DecimalToFractionError(fractionInches, MaxDenominator);
  }

  /**
   * `inchesToLengthSolution` with the whole inch carried: a fraction that
   * rounds up to n/n becomes one more inch, and a 12th inch one more foot.
   */
  function CarriedLengthSolution(totalInches: real): (t: MathToken)
    ensures t.LengthSolution? && t.totalInches == totalInches
    ensures t.inches < 12 && t.denominator in {1, 2, 4, 8, 16, 32} && t.numerator < t.denominator
    ensures var written := InchesToLengthSolution(totalInches);
      written.numerator < written.denominator ==> t == written
  {
    var t := InchesToLengthSolution(totalInches);
    if t.numerator < t.denominator then t
    else if t.inches < 11 then LengthSolution(totalInches, t.feet, t.inches + 1, 0, 1)
    else LengthSolution(totalInches, t.feet + 1, 0, 0, 1)
  }

  /** Carrying changes how the length is split, not the length it stands for. */
  lemma CarryKeepsLength(totalInches: real)
    ensures var t := CarriedLengthSolution(totalInches);
      var written := InchesToLengthSolution(totalInches);
      LengthValue(t.feet, t.inches, t.numerator, t.denominator) ==
      LengthValue(written.feet, written.inches, written.numerator, written.denominator)
  {
    var w := InchesToLengthSolution(totalInches);
    if w.numerator >= w.denominator {
      assert w.numerator as real / w.denominator as real == 1.0;
    }
  }

  /** The carried split still stands for the total to within 1/64 inch. */
  lemma CarriedLengthWithin(totalInches: real)
    ensures var t := CarriedLengthSolution(totalInches);
      Abs(LengthValue(t.feet, t.inches, t.numerator, t.denominator) - totalInches) <= 1.0 / 64.0
  {
    CarryKeepsLength(totalInches);
    LengthSolutionWithin(totalInches);
  }

  function ConvertImperialToLengthSolution(imperial: MathToken): (r: Result<MathToken, EvalError>)
    requires imperial.ImperialToken?
    ensures r.Ok? <==> imperial.denominator != 0
    ensures r.Ok? ==> r.value.LengthSolution? && r.value.totalInches == ImperialToInches(imperial).value
  {
    match ImperialToInches(imperial)
    case Some(total) => Ok(CarriedLengthSolution(total))
    case None => Err(NonFiniteNumber)
  }

  function ConvertScalarToScalarSolution(scalar: MathToken): (r: MathToken)
    requires scalar.ScalarToken?
    ensures r.ScalarSolution? && r.value == scalar.value
  {
    ScalarSolution(scalar.value)
  }

  // ---------------------------------------------------------------------
  // Square inches
  // ---------------------------------------------------------------------

  /** Whole square feet (rounded down) and the square inches left, in [0, 144). */
  function SquareFeetSplit(squareInches: real): (r: (int, real))
    ensures r.0 as real * 144.0 + r.1 == squareInches
    ensures 0.0 <= r.1 < 144.0
  {
    var sqFeet := (squareInches / 144.0).Floor;
    (sqFeet, squareInches - sqFeet as real * 144.0)
  }

  /** "<f> sq.ft <i> sq.in", leaving out zero parts (and negative feet), "0 sq.in" when nothing is left. */
  function FormatSquareInches(squareInches: real, fmt: TextFormat): (r: string)
    ensures var (sqFeet, remainingSqInches) := SquareFeetSplit(squareInches);
      EndsWith(r, if sqFeet > 0 && remainingSqInches == 0.0 then " sq.ft" else " sq.in")
    ensures SquareFeetSplit(squareInches).0 > 0 ==> NatToString(SquareFeetSplit(squareInches).0) + " sq.ft" <= r
  {
    var (sqFeet, remainingSqInches) := SquareFeetSplit(squareInches);
    var feetPart := if sqFeet > 0 then [NatToString(sqFeet) + " sq.ft"] else [];
    var inchesPart := if remainingSqInches > 0.0 then [fmt.squareInchesText(remainingSqInches) + " sq.in"] else [];
    var parts := feetPart + inchesPart;
    if |parts| == 0 then EndsWithConcat("0", " sq.in"); "0 sq.in"
    else if |parts| == 1 then
      EndsWithConcat(if sqFeet > 0 then NatToString(sqFeet) else fmt.squareInchesText(remainingSqInches),
                     if sqFeet > 0 then " sq.ft" else " sq.in");
      PrefixOfConcat(NatToString(if sqFeet > 0 then sqFeet else 0) + " sq.ft", "");
      parts[0]
    else
      EndsWithConcat(parts[0] + " " + fmt.squareInchesText(remainingSqInches), " sq.in");
      PrefixOfConcat(parts[0], " " + parts[1]);
      assert parts[0] + " " + parts[1] == parts[0] + (" " + parts[1]);
      parts[0] + " " + parts[1]
  }

  /** No area is "0 sq.in"; less than a square foot is shown in square inches only. */
  lemma SquareInchesOnly(squareInches: real, fmt: TextFormat)
    requires 0.0 <= squareInches < 144.0
    ensures squareInches == 0.0 ==> FormatSquareInches(squareInches, fmt) == "0 sq.in"
    ensures squareInches > 0.0 ==> FormatSquareInches(squareInches, fmt) == fmt.squareInchesText(squareInches) + " sq.in"
  {
    assert SquareFeetSplit(squareInches).0 == 0;
  }

  /** A whole number of square feet is shown in square feet only. */
  lemma WholeSquareFeet(sqFeet: nat, fmt: TextFormat)
    requires sqFeet > 0
    ensures FormatSquareInches(sqFeet as real * 144.0, fmt) == NatToString(sqFeet) + " sq.ft"
  {
    assert SquareFeetSplit(sqFeet as real * 144.0).0 == sqFeet;
  }

  /** Square feet and a remainder of square inches are both shown, feet first. */
  lemma SquareFeetAndInches(sqFeet: nat, sqInches: real, fmt: TextFormat)
    requires sqFeet > 0 && 0.0 < sqInches < 144.0
    ensures FormatSquareInches(sqFeet as real * 144.0 + sqInches, fmt) ==
      (NatToString(sqFeet) + " sq.ft") + " " + (fmt.squareInchesText(sqInches) + " sq.in")
  {
    SplitOfSquareFeet(sqFeet, sqInches);
  }

  /** The split into square feet and square inches is the unique one with the remainder below 144. */
  lemma SplitOfSquareFeet(sqFeet: int, sqInches: real)
    requires 0.0 <= sqInches < 144.0
    ensures SquareFeetSplit(sqFeet as real * 144.0 + sqInches) == (sqFeet, sqInches)
  {
    var r := SquareFeetSplit(sqFeet as real * 144.0 + sqInches);
    var m := r.0 - sqFeet;
    assert m as real * 144.0 == sqInches - r.1;
  }

  // ---------------------------------------------------------------------
  // Algebra of the operations
  // ---------------------------------------------------------------------

  /** Length + Length does not depend on the order of the operands. */
  lemma AddLengthsCommute(left: MathToken, right: MathToken)
    requires left.ImperialToken? && right.ImperialToken?
    ensures AddLengths(left, right) == AddLengths(right, left)
  {
    var a := ImperialToInches(left);
    var b := ImperialToInches(right);
    if a.Some? && b.Some? {
      assert a.value + b.value == b.value + a.value;
    }
  }

  /** Swapping the operands of Length - Length negates the total. */
  lemma SubtractLengthsAntisymmetric(left: MathToken, right: MathToken)
    requires left.ImperialToken? && right.ImperialToken?
    ensures SubtractLengths(left, right).Ok? == SubtractLengths(right, left).Ok?
    ensures SubtractLengths(left, right).Ok? ==>
      SubtractLengths(left, right).value.totalInches == -SubtractLengths(right, left).value.totalInches
  {
  }

  /** A length minus itself is zero, shown as a zero length. */
  lemma SubtractSelfIsZero(length: MathToken)
    requires length.ImperialToken? && length.denominator != 0
    ensures SubtractLengths(length, length) == Ok(LengthSolution(0.0, 0, 0, 0, 1))
  {
    var a := ImperialToInches(length).value;
    assert a - a == 0.0;
  }

  /** Length x Length does not depend on the order of the operands. */
  lemma MultiplyLengthsCommute(left: MathToken, right: MathToken, fmt: TextFormat)
    requires left.ImperialToken? && right.ImperialToken?
    ensures MultiplyLengths(left, right, fmt) == MultiplyLengths(right, left, fmt)
  {
    var a := ImperialToInches(left);
    var b := ImperialToInches(right);
    if a.Some? && b.Some? {
      assert a.value * b.value == b.value * a.value;
    }
  }

  /** Scalar x Length and Length x Scalar give the same result. */
  lemma ScalarTimesLengthEitherOrder(scalar: MathToken, length: MathToken, fmt: TextFormat)
    requires scalar.ScalarToken? && length.ImperialToken?
    ensures EvaluateBinaryOperation(scalar, Times, length, fmt) == EvaluateBinaryOperation(length, Times, scalar, fmt)
    ensures EvaluateBinaryOperation(scalar, Times, length, fmt) == MultiplyScalarByLength(scalar, length)
  {
  }

  /** Scalar arithmetic on two numbers renders the exact result of the operation. */
  lemma ScalarArithmetic(left: MathToken, op: Operator, right: MathToken, fmt: TextFormat, x: real, y: real)
    requires left.ScalarToken? && right.ScalarToken?
    requires ParseFloat(left.value) == Some(x) && ParseFloat(right.value) == Some(y)
    requires op in {Plus, Minus, Times} || (op == Divide && y != 0.0)
    ensures EvaluateScalarOperation(left, op, right, fmt) == Ok(ScalarSolution(fmt.numberText(Arithmetic(op, x, y))))
  {
  }

  // ---------------------------------------------------------------------
  // Worked examples
  // ---------------------------------------------------------------------

  /** 1ft 6in + 8 1/4in = 26.25in, shown as 2ft 2 1/4in. */
  lemma AddExample(fmt: TextFormat)
    ensures PerformCalculation([ImperialToken(1, 6, 0, 16), OperatorToken(Plus), ImperialToken(0, 8, 1, 4), OperatorToken(Equals)], fmt)
      == CalculationResult([LengthSolution(26.25, 2, 2, 1, 4)], None)
  {
    assert ImperialToInches(ImperialToken(1, 6, 0, 16)) == Some(18.0);
    assert ImperialToInches(ImperialToken(0, 8, 1, 4)) == Some(8.25);
    assert (26.25 / 12.0).Floor == 2;
    assert (2.25).Floor == 2;
    assert !CloseEnough(0.25, 2);
    assert CloseEnough(0.25, 4);
    assert DecimalToFraction(0.25, MaxDenominator) == (1, 4);
  }

  /** 2ft - 6in = 18in, shown as 1ft 6in. */
  lemma SubtractExample(fmt: TextFormat)
    ensures PerformCalculation([ImperialToken(2, 0, 0, 16), OperatorToken(Minus), ImperialToken(0, 6, 0, 16), OperatorToken(Equals)], fmt)
      == CalculationResult([LengthSolution(18.0, 1, 6, 0, 1)], None)
  {
    assert ImperialToInches(ImperialToken(2, 0, 0, 16)) == Some(24.0);
    assert ImperialToInches(ImperialToken(0, 6, 0, 16)) == Some(6.0);
    assert (18.0 / 12.0).Floor == 1;
  }

  /** 3 x 4in = 12in, shown as 1ft. */
  lemma ScalarTimesLengthExample(fmt: TextFormat)
    ensures PerformCalculation([ScalarToken("3"), OperatorToken(Times), ImperialToken(0, 4, 0, 16), OperatorToken(Equals)], fmt)
      == CalculationResult([LengthSolution(12.0, 1, 0, 0, 1)], None)
  {
    assert NatToString(3) == "3";
    ParseWholeNumber(3);
    assert ImperialToInches(ImperialToken(0, 4, 0, 16)) == Some(4.0);
    assert ScaledLength(3.0, 4.0) == CarriedLengthSolution(12.0);
    assert (12.0 / 12.0).Floor == 1;
  }

  /** 5in x 10in = 50 square inches. */
  lemma AreaExample(fmt: TextFormat)
    ensures PerformCalculation([ImperialToken(0, 5, 0, 16), OperatorToken(Times), ImperialToken(0, 10, 0, 16), OperatorToken(Equals)], fmt)
      == CalculationResult([AreaSolution(50.0, fmt.squareInchesText(50.0) + " sq.in")], None)
  {
    assert ImperialToInches(ImperialToken(0, 5, 0, 16)) == Some(5.0);
    assert ImperialToInches(ImperialToken(0, 10, 0, 16)) == Some(10.0);
    SquareInchesOnly(50.0, fmt);
    assert Area(5.0, 10.0, fmt) == AreaSolution(50.0, fmt.squareInchesText(50.0) + " sq.in");
  }

  /** 1ft 6 1/4 on its own = 18.25in, shown as 1ft 6 1/4in. */
  lemma SingleTokenExample(fmt: TextFormat)
    ensures PerformCalculation([ImperialToken(1, 6, 1, 4), OperatorToken(Equals)], fmt)
      == CalculationResult([LengthSolution(18.25, 1, 6, 1, 4)], None)
  {
    assert ImperialToInches(ImperialToken(1, 6, 1, 4)) == Some(18.25);
    assert (18.25 / 12.0).Floor == 1;
    assert (6.25).Floor == 6;
    assert !CloseEnough(0.25, 2);
    assert CloseEnough(0.25, 4);
  }

  /** 1ft - 2ft = -12in: feet -1 and no inches. */
  lemma NegativeLengthExample(fmt: TextFormat)
    ensures PerformCalculation([ImperialToken(1, 0, 0, 16), OperatorToken(Minus), ImperialToken(2, 0, 0, 16), OperatorToken(Equals)], fmt)
      == CalculationResult([LengthSolution(-12.0, -1, 0, 0, 1)], None)
  {
    assert ImperialToInches(ImperialToken(1, 0, 0, 16)) == Some(12.0);
    assert ImperialToInches(ImperialToken(2, 0, 0, 16)) == Some(24.0);
    assert (-12.0 / 12.0).Floor == -1;
  }

  /** 5 / 0 reports division by zero and leaves the tokens as they were. */
  lemma DivisionByZeroExample(fmt: TextFormat)
    ensures var ts := [ScalarToken("5"), OperatorToken(Divide), ScalarToken("0"), OperatorToken(Equals)];
      PerformCalculation(ts, fmt) == CalculationResult(ts, Some("Division by zero"))
  {
    assert NatToString(0) == "0";
    ParseWholeNumber(0);
  }

  /** A lone "=" is an empty expression. */
  lemma LoneEqualsExample(fmt: TextFormat)
    ensures PerformCalculation([OperatorToken(Equals)], fmt) == CalculationResult([OperatorToken(Equals)], Some("Empty expression"))
  {
  }

  /** Length / Length has no rule. */
  lemma DivideLengthsExample(fmt: TextFormat)
    ensures var ts := [ImperialToken(1, 0, 0, 16), OperatorToken(Divide), ImperialToken(2, 0, 0, 16), OperatorToken(Equals)];
      PerformCalculation(ts, fmt) == CalculationResult(ts, Some("Unsupported operation: Imperial / Imperial"))
  {
    var ts := [ImperialToken(1, 0, 0, 16), OperatorToken(Divide), ImperialToken(2, 0, 0, 16), OperatorToken(Equals)];
    assert ts[..3] == [ts[0], ts[1], ts[2]];
    assert Symbol(Divide) == "/";
    assert ErrorMessage(UnsupportedOperation("Imperial", Divide, "Imperial")) == "Unsupported operation: Imperial / Imperial";
  }

  /** 5 + 3 = 2 = evaluates the five tokens before the last "=", which is too long. */
  lemma SecondEqualsExample(fmt: TextFormat)
    ensures var ts := [ScalarToken("5"), OperatorToken(Plus), ScalarToken("3"), OperatorToken(Equals), ScalarToken("2"), OperatorToken(Equals)];
      PerformCalculation(ts, fmt) == CalculationResult(ts, Some("Complex expressions not yet supported"))
  {
  }

  /** As written, 3.99in splits into 3 inches and 2/2: a whole inch shown as a fraction. */
  lemma WholeInchAsFraction()
    ensures InchesToLengthSolution(3.99) == LengthSolution(3.99, 0, 3, 2, 2)
  {
    assert (3.99 / 12.0).Floor == 0;
    assert (3.99).Floor == 3;
    assert Round(0.99 * 2.0) == 2;
    assert CloseEnough(0.99, 2);
  }

  /** "0.57" reads as 0.57. */
  lemma ParseExample()
    ensures ParseFloat("0.57") == Some(0.57)
  {
    assert "0.57" == "0" + "." + "57";
    ParseDecimalText("0", "57");
    DecimalExample();
  }

  lemma DecimalExample()
    ensures DecimalValue("0", "57") == 0.57
  {
    assert "0"[..0] == [] && DigitsValue("0") == 0;
    assert "57"[..1] == "5" && "5"[..0] == [];
    assert DigitsValue("5") == 5;
    assert Pow10(2) == 100;
  }

  /** 0.57 x 7in = 3.99in; with the carry it is shown as 4in. */
  lemma CarriedInchExample(fmt: TextFormat)
    ensures PerformCalculation([ScalarToken("0.57"), OperatorToken(Times), ImperialToken(0, 7, 0, 16), OperatorToken(Equals)], fmt)
      == CalculationResult([LengthSolution(3.99, 0, 4, 0, 1)], None)
  {
    ParseExample();
    assert ImperialToInches(ImperialToken(0, 7, 0, 16)) == Some(7.0);
    WholeInchAsFraction();
    assert ScaledLength(0.57, 7.0) == CarriedLengthSolution(3.99);
  }
}
