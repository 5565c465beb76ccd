/**
 * The validation error taxonomy. Each class of the source only fixes its
 * `message` and its `name`, so the model is one datatype with a message and a
 * name function.
 */
module ValidationErrors {

  datatype ValidationError =
    | Generic(message: string)            // the base class ValidationError itself
    | ConsecutiveOperatorError
    | MixedTypeError
    | EmptyExpressionError
    | DivisionByZeroError
    | UnsupportedOperationError(operation: string)
    | InvalidExpressionError(reason: string)

  /** The `message` the constructor passes to Error. */
  function Message(e: ValidationError): (m: string)
    ensures e.InvalidExpressionError? ==> m == "Invalid expression: " + e.reason
    ensures e.UnsupportedOperationError? ==> m == "Unsupported operation: " + e.operation
  {
    match e
    case Generic(msg) => msg
    case ConsecutiveOperatorError => "Cannot enter consecutive operators"
    case MixedTypeError => "Cannot mix scalar and Imperial measurements"
    case EmptyExpressionError => "That doesn't make any sense"
    case DivisionByZeroError => "Division by zero"
    case UnsupportedOperationError(op) => "Unsupported operation: " + op
    case InvalidExpressionError(reason) => "Invalid expression: " + reason
  }

  /** The `name` each constructor assigns: its own class name, which always ends in "Error". */
  function Name(e: ValidationError): (n: string)
    ensures |n| >= 5 && n[|n| - 5..] == "Error"
  {
    match e
    case Generic(_) => "ValidationError"
    case ConsecutiveOperatorError => "ConsecutiveOperatorError"
    case MixedTypeError => "MixedTypeError"
    case EmptyExpressionError => "EmptyExpressionError"
    case DivisionByZeroError => "DivisionByZeroError"
    case UnsupportedOperationError(_) => "UnsupportedOperationError"
    case InvalidExpressionError(_) => "InvalidExpressionError"
  }

  /** The name tells the kinds apart: errors with equal names are of the same kind. */
  lemma {:induction false} NameIdentifiesKind(a: ValidationError, b: ValidationError)
    requires Name(a) == Name(b)
    ensures a.Generic? == b.Generic? && a.ConsecutiveOperatorError? == b.ConsecutiveOperatorError?
    ensures a.MixedTypeError? == b.MixedTypeError? && a.EmptyExpressionError? == b.EmptyExpressionError?
    ensures a.DivisionByZeroError? == b.DivisionByZeroError?
    ensures a.UnsupportedOperationError? == b.UnsupportedOperationError?
    ensures a.InvalidExpressionError? == b.InvalidExpressionError?
  {
  }

  /**
   * Apart from the base class, whose message is arbitrary, the message tells
   * the error apart completely: its kind and its payload.
   */
  lemma MessageIdentifiesError(a: ValidationError, b: ValidationError)
    requires !a.Generic? && !b.Generic?
    requires Message(a) == Message(b)
    ensures a == b
  {
    var pu, pi := "Unsupported operation: ", "Invalid expression: ";
    if a.UnsupportedOperationError? && b.UnsupportedOperationError? {
      assert a.operation == Message(a)[|pu|..];
    } else if a.InvalidExpressionError? && b.InvalidExpressionError? {
      assert a.reason == Message(a)[|pi|..];
    } else {
      // every other message differs from the rest at its first or eighth character
      assert Message(a)[0] == Message(b)[0] && Message(a)[7] == Message(b)[7];
    }
  }
}
