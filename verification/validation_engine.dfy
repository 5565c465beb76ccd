/**
 * Validation of one key token against the current entry mode, and of a token
 * list for back-to-back operators. A check that returns is `Pass`; one that
 * throws is `Fail` with the error it throws.
 */
module ValidationEngine {
  import opened Wrappers
  import opened Types
  import opened ValidationErrors
  import opened TokenProcessor

  function ValidateToken(appState: AppStateComplete, token: InputToken): (r: Outcome<ValidationError>)
    ensures token.pad == Control ==> r == Pass
    ensures token.pad == Pad.Operator ==> r == ValidateOperatorToken(appState, token)
    ensures token.pad != Control && token.pad != Pad.Operator ==> r == ValidateInputToken(appState, token)
  {
    if token.pad == Control then Pass
    else if token.pad == Pad.Operator then ValidateOperatorToken(appState, token)
    else ValidateInputToken(appState, token)
  }

  /** An operator needs an operand: refused in Input mode (nothing entered) and in Error mode. */
  function ValidateOperatorToken(appState: AppStateComplete, token: InputToken): (r: Outcome<ValidationError>)
    ensures r == Pass <==> appState.currentState in {Mode.Imperial, Mode.Scalar}
    ensures appState.currentState == Input ==> r == Fail(EmptyExpressionError)
    ensures appState.currentState == Error ==> r == Fail(InvalidExpressionError("Invalid state for operator"))
  {
    if appState.currentState == Input then Fail(EmptyExpressionError)
    else if appState.currentState == Mode.Imperial || appState.currentState == Mode.Scalar then Pass
    else Fail(InvalidExpressionError("Invalid state for operator"))
  }

  function ValidateInputToken(appState: AppStateComplete, token: InputToken): (r: Outcome<ValidationError>)
    ensures token.pad == Pad.Scalar ==> r == ValidateScalarToken(appState, token)
    ensures token.pad == Feet || token.pad == Inches ==> r == ValidateImperialToken(appState, token)
    ensures token.pad == Control || token.pad == Pad.Operator ==> r == Pass
  {
    if token.pad == Pad.Scalar then ValidateScalarToken(appState, token)
    else if token.pad == Feet || token.pad == Inches then ValidateImperialToken(appState, token)
    else Pass
  }

  /** A scalar key may not follow feet or inches keys of the same operand. */
  function ValidateScalarToken(appState: AppStateComplete, token: InputToken): (r: Outcome<ValidationError>)
    ensures r == Pass <==> appState.currentState in {Input, Mode.Scalar}
    ensures appState.currentState == Mode.Imperial ==> r == Fail(MixedTypeError)
    ensures appState.currentState == Error ==> r == Fail(InvalidExpressionError("Invalid state for scalar input"))
  {
    if appState.currentState == Mode.Imperial then Fail(MixedTypeError)
    else if appState.currentState == Input || appState.currentState == Mode.Scalar then Pass
    else Fail(InvalidExpressionError("Invalid state for scalar input"))
  }

  /**
   * Feet and inches keys are accepted in Input and Imperial modes. In Scalar
   * mode they are refused with a generic invalid-expression error, not with
   * the mixed-type error the scalar check uses.
   */
  function ValidateImperialToken(appState: AppStateComplete, token: InputToken): (r: Outcome<ValidationError>)
    ensures r == Pass <==> appState.currentState in {Input, Mode.Imperial}
    ensures r != Pass ==> r == Fail(InvalidExpressionError("Invalid state for Imperial input"))
  {
    if appState.currentState == Input || appState.currentState == Mode.Imperial then Pass
    else Fail(InvalidExpressionError("Invalid state for Imperial input"))
  }

  /** Two operator keys at positions i - 1 and i. */
  predicate HasConsecutiveOperators(tokens: seq<InputToken>)
  {
    exists i :: 1 <= i < |tokens| && tokens[i - 1].pad == Pad.Operator && tokens[i].pad == Pad.Operator
  }

  /** Scans the list once and fails at the first pair of adjacent operators. */
  method ValidateTokenSequence(tokens: seq<InputToken>) returns (r: Outcome<ValidationError>)
    ensures r == Pass <==> !HasConsecutiveOperators(tokens)
    ensures r != Pass ==> r == Fail(ConsecutiveOperatorError)
  {
    if |tokens| == 0 {
      return Pass;
    }
    for i := 1 to |tokens|
      invariant forall j :: 1 <= j < i ==> !(tokens[j - 1].pad == Pad.Operator && tokens[j].pad == Pad.Operator)
    {
      var prevToken := tokens[i - 1];
      var currentToken := tokens[i];
      if prevToken.pad == Pad.Operator && currentToken.pad == Pad.Operator {
        return Fail(ConsecutiveOperatorError);
      }
    }
    return Pass;
  }

  // ---------------------------------------------------------------------
  // Validation against the state machine
  // ---------------------------------------------------------------------

  /** The verdict depends on nothing but the mode and the pad. */
  lemma VerdictDependsOnModeAndPad(a: AppStateComplete, b: AppStateComplete, s: InputToken, t: InputToken)
    requires a.currentState == b.currentState && s.pad == t.pad
    ensures ValidateToken(a, s) == ValidateToken(b, t)
  {
  }

  /**
   * A token the validator accepts never drives the state machine into Error,
   * and the rejections with EmptyExpressionError or MixedTypeError are exactly
   * the tokens that would.
   */
  lemma AcceptedTokensAvoidError(s: AppStateComplete, v: StateView, t: InputToken)
    requires v.currentState == s.currentState && v.currentState != Error
    ensures ValidateToken(s, t) == Pass ==> Step(v, t).currentState != Error
    ensures ValidateToken(s, t) in {Fail(EmptyExpressionError), Fail(MixedTypeError)} <==>
      Step(v, t).currentState == Error
  {
    if t.pad == Control && t.key == "Clear" {
      assert Step(v, t).currentState == Input;
    } else if t.pad == Control && t.key == "Backspace" {
      assert Step(v, t).currentState == BackspaceStep(v).currentState;
    }
  }

  /**
   * Accepted tokens, applied one after the other from the initial state, never
   * reach Error: `states[k]` is the state the k-th token is checked against.
   */
  lemma {:induction false} AcceptedRunAvoidsError(states: seq<AppStateComplete>, ts: seq<InputToken>)
    requires |states| == |ts|
    requires forall k :: 0 <= k < |ts| ==> states[k].currentState == Run(Initial, ts[..k]).currentState
    requires forall k :: 0 <= k < |ts| ==> ValidateToken(states[k], ts[k]) == Pass
    ensures Run(Initial, ts).currentState != Error
    decreases |ts|
  {
    if ts != [] {
      var n := |ts| - 1;
      var front := ts[..n];
      forall k | 0 <= k < n
        ensures states[..n][k].currentState == Run(Initial, front[..k]).currentState
      {
        assert front[..k] == ts[..k];
      }
      AcceptedRunAvoidsError(states[..n], front);
      AcceptedTokensAvoidError(states[n], Run(Initial, front), ts[n]);
    }
  }
}
