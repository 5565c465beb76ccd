/**
 * The shared vocabulary of the calculator: input tokens, entry modes, operators
 * and the seven kinds of math token.
 */
module Types {

  /** The fraction denominators the user can select. */
  type FractionDenominator = d: nat | d == 8 || d == 16 || d == 32 witness 16

  /** The pads an input token can come from. */
  datatype Pad = Feet | Inches | Scalar | Operator | Control

  /** One key press: the pad it came from and its key text ("7", "3/16", ".", "+", "Clear", ...). */
  datatype InputToken = InputToken(pad: Pad, key: string)

  /**
   * The entry mode. The declared type lists only the first three, but the state
   * machine also assigns `Error`, so the model has all four.
   */
  datatype Mode = Input | Imperial | Scalar | Error

  /**
   * An operator. The five declared symbols, plus `OtherKey`: the token
   * accumulator copies an Operator key into a math token with an unchecked
   * cast, so any other key text reaches the evaluator as it was typed.
   */
  datatype Operator = Equals | Plus | Minus | Times | Divide | OtherKey(key: string)

  /** One of the five operators the type declares. */
  predicate IsDeclaredOperator(op: Operator)
  {
    !op.OtherKey?
  }

  /** The text of an operator. */
  function Symbol(op: Operator): string
  {
    match op
    case Equals => "="
    case Plus => "+"
    case Minus => "-"
    case Times => "x"
    case Divide => "/"
    case OtherKey(k) => k
  }

  /** The operator an Operator key stands for (the cast `token.key as any`). */
  function OperatorOfKey(key: string): (op: Operator)
    ensures Symbol(op) == key
    ensures IsDeclaredOperator(op) <==> key in {"=", "+", "-", "x", "/"}
  {
    if key == "=" then Equals
    else if key == "+" then Plus
    else if key == "-" then Minus
    else if key == "x" then Times
    else if key == "/" then Divide
    else OtherKey(key)
  }

  /** Reading the text of a declared operator back gives the same operator. */
  lemma DeclaredOperatorRoundTrip(op: Operator)
    requires IsDeclaredOperator(op)
    ensures OperatorOfKey(Symbol(op)) == op
  {
  }

  /** The three measurement slots `activePad` can name. */
  datatype MeasurementKey = ScalarField | FeetField | InchesField

  /** The live state of the feet or the inches pad. */
  datatype InputValue = InputValue(whole: nat, numerator: nat, denominator: nat)

  /**
   * The accumulated expression. Imperial and Length denominators are plain
   * numbers: a fraction key may carry any denominator. Feet is an integer
   * because a Length may be negative.
   */
  datatype MathToken =
    | ImperialToken(feet: int, inches: nat, numerator: nat, denominator: nat)
    | ScalarToken(value: string)
    | OperatorToken(operator: Operator)
    | LengthSolution(totalInches: real, feet: int, inches: nat, numerator: nat, denominator: nat)
    | AreaSolution(totalSquareInches: real, displayValue: string)
    | VolumeSolution(totalCubicInches: real, displayValue: string)
    | ScalarSolution(value: string)

  /** The `type` tag of a math token. */
  function TypeName(t: MathToken): string
  {
    match t
    case ImperialToken(_, _, _, _) => "Imperial"
    case ScalarToken(_) => "Scalar"
    case OperatorToken(_) => "Operator"
    case LengthSolution(_, _, _, _, _) => "Length"
    case AreaSolution(_, _) => "Area"
    case VolumeSolution(_, _) => "Volume"
    case ScalarSolution(_) => "ScalarSolution"
  }

  /** The tag names the variant: two tokens with the same tag are the same kind of token. */
  lemma TypeNameIdentifiesVariant(a: MathToken, b: MathToken)
    requires TypeName(a) == TypeName(b)
    ensures a.ImperialToken? == b.ImperialToken? && a.ScalarToken? == b.ScalarToken?
    ensures a.OperatorToken? == b.OperatorToken? && a.LengthSolution? == b.LengthSolution?
    ensures a.AreaSolution? == b.AreaSolution? && a.VolumeSolution? == b.VolumeSolution?
    ensures a.ScalarSolution? == b.ScalarSolution?
  {
  }
}
