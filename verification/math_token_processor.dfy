/**
 * Turns the key-token log into math tokens (one Imperial or Scalar token per
 * operand, one Operator token per operator key) and renders math tokens as
 * display text.
 */
module MathTokenProcessor {
  import opened Wrappers
  import opened Types
  import opened Text

  // ---------------------------------------------------------------------
  // Specification of the accumulator
  // ---------------------------------------------------------------------

  datatype LastTokenType = LastInput | LastImperial | LastScalar

  type Imperial = t: MathToken | t.ImperialToken? witness ImperialToken(0, 0, 0, 16)

  /** The draft every new Imperial operand starts from: 0ft 0in 0/16. */
  const NewImperial: Imperial := ImperialToken(0, 0, 0, 16)

  /** `updateImperialToken`: a fraction key sets the fraction, a digit key shifts into the pad's whole part. */
  function UpdateImperial(t: Imperial, token: InputToken): Imperial
  {
    if '/' in token.key then
      match FractionParts(token.key)
      case Some((n, d)) => ImperialToken(t.feet, t.inches, n, d)
      case None => t
    else if IsDigitKey(token.key) then
      if token.pad == Feet then ImperialToken(t.feet * 10 + DigitValue(token.key[0]), t.inches, t.numerator, t.denominator)
      else if token.pad == Inches then ImperialToken(t.feet, ShiftAdd(t.inches, token.key), t.numerator, t.denominator)
      else t
    else t
  }

  /** The loop's variables between two iterations. */
  datatype Accumulator = Accumulator(
    mathTokens: seq<MathToken>,
    currentImperial: Option<Imperial>,
    currentScalar: Option<string>,
    lastTokenType: LastTokenType)

  const Start := Accumulator([], None, None, LastInput)

  function ImperialList(d: Option<Imperial>): seq<MathToken>
  {
    match d
    case Some(t) => [t]
    case None => []
  }

  function ScalarList(d: Option<string>): seq<MathToken>
  {
    match d
    case Some(v) => [ScalarToken(v)]
    case None => []
  }

  /** What is still open: the Imperial draft, then the Scalar draft. */
  function Pending(a: Accumulator): seq<MathToken>
  {
    ImperialList(a.currentImperial) + ScalarList(a.currentScalar)
  }

  /** One iteration of the loop. */
  function AccStep(a: Accumulator, token: InputToken): Accumulator
  {
    if token.pad == Control then a
    else if token.pad == Pad.Operator then
      Accumulator(a.mathTokens + Pending(a) + [OperatorToken(OperatorOfKey(token.key))], None, None, LastInput)
    else if token.pad == Feet || token.pad == Inches then
      var a1 := if a.lastTokenType != LastImperial then
          Accumulator(a.mathTokens + ImperialList(a.currentImperial), Some(NewImperial), a.currentScalar, LastImperial)
        else a;
      match a1.currentImperial
      case Some(t) => a1.(currentImperial := Some(UpdateImperial(t, token)))
      case None => a1
    else
      var a1 := if a.lastTokenType != LastScalar then
          Accumulator(a.mathTokens + ScalarList(a.currentScalar), a.currentImperial, Some(""), LastScalar)
        else a;
      match a1.currentScalar
      case Some(v) => a1.(currentScalar := Some(AppendScalarKey(v, token.key)))
      case None => a1
  }

  function AccRun(ts: seq<InputToken>): Accumulator
    decreases |ts|
  {
    if ts == [] then Start else AccStep(AccRun(ts[..|ts| - 1]), ts[|ts| - 1])
  }

  /** The math tokens of a key-token log: the loop, then the drafts still open. */
  function MathTokensOf(ts: seq<InputToken>): seq<MathToken>
  {
    AccRun(ts).mathTokens + Pending(AccRun(ts))
  }

  // ---------------------------------------------------------------------
  // The loop, with its drafts as objects updated in place
  // ---------------------------------------------------------------------

  class ImperialDraft {
    var feet: int
    var inches: nat
    var numerator: nat
    var denominator: nat

    constructor ()
      ensures Snapshot() == NewImperial
    {
      feet, inches, numerator, denominator := 0, 0, 0, 16;
    }

    function Snapshot(): Imperial
      reads this
    {
      ImperialToken(feet, inches, numerator, denominator)
    }

    method Update(token: InputToken)
      modifies this
      ensures Snapshot() == UpdateImperial(old(Snapshot()), token)
    {
      if '/' in token.key {
        var parts := FractionParts(token.key);
        if parts.Some? {
          numerator := parts.value.0;
          denominator := parts.value.1;
        }
      } else if IsDigitKey(token.key) {
        var num := DigitValue(token.key[0]);
        if token.pad == Feet {
          feet := feet * 10 + num;
        } else if token.pad == Inches {
          inches := inches * 10 + num;
        }
      }
    }
  }

  class ScalarDraft {
    var value: string

    constructor ()
      ensures value == ""
    {
      value := "";
    }

    method Update(token: InputToken)
      modifies this
      ensures value == AppendScalarKey(old(value), token.key)
    {
      if token.key == "." {
        if '.' !in value {
          value := value + ".";
        }
      } else if IsDigitKey(token.key) {
        value := value + token.key;
      }
    }
  }

  function ImperialSnapshot(d: ImperialDraft?): Option<Imperial>
    reads d
  {
    if d == null then None else Some(d.Snapshot())
  }

  function ScalarSnapshot(d: ScalarDraft?): Option<string>
    reads d
  {
    if d == null then None else Some(d.value)
  }

  /**
   * `processInputTokensToMathTokens`. A draft is pushed when its operand ends
   * and is never written again afterwards, so pushing its value is exact.
   */
  method ProcessInputTokensToMathTokens(inputTokens: seq<InputToken>) returns (mathTokens: seq<MathToken>)
    ensures mathTokens == MathTokensOf(inputTokens)
  {
    mathTokens := [];
    var currentImperialToken: ImperialDraft? := null;
    var currentScalarToken: ScalarDraft? := null;
    var lastTokenType := LastInput;
    for i := 0 to |inputTokens|
      invariant currentImperialToken != null ==> fresh(currentImperialToken)
      invariant currentScalarToken != null ==> fresh(currentScalarToken)
      invariant lastTokenType == LastImperial ==> currentImperialToken != null
      invariant lastTokenType == LastScalar ==> currentScalarToken != null
      invariant AccRun(inputTokens[..i]) ==
        Accumulator(mathTokens, ImperialSnapshot(currentImperialToken), ScalarSnapshot(currentScalarToken), lastTokenType)
    {
      assert inputTokens[..i + 1][..i] == inputTokens[..i];
      var token := inputTokens[i];
      ghost var before := AccRun(inputTokens[..i]);
      assert AccRun(inputTokens[..i + 1]) == AccStep(before, token);
      if token.pad == Control {
        continue;
      }
      if token.pad == Pad.Operator {
        mathTokens := PushDrafts(mathTokens, currentImperialToken, currentScalarToken);
        currentImperialToken, currentScalarToken := null, null;
        mathTokens := mathTokens + [OperatorToken(OperatorOfKey(token.key))];
        lastTokenType := LastInput;
        continue;
      }
      if token.pad == Feet || token.pad == Inches {
        ImperialKeyStep(before, token);
        if lastTokenType != LastImperial {
          mathTokens, currentImperialToken := StartImperial(mathTokens, currentImperialToken);
          lastTokenType := LastImperial;
        }
        currentImperialToken.Update(token);
      } else {
        ScalarKeyStep(before, token);
        if lastTokenType != LastScalar {
          mathTokens, currentScalarToken := StartScalar(mathTokens, currentScalarToken);
          lastTokenType := LastScalar;
        }
        currentScalarToken.Update(token);
      }
    }
    assert inputTokens[..|inputTokens|] == inputTokens;
    mathTokens := PushDrafts(mathTokens, currentImperialToken, currentScalarToken);
  }

  /** Ends both operands: the Imperial draft, then the Scalar draft, whichever exist. */
  method PushDrafts(mathTokens: seq<MathToken>, imperial: ImperialDraft?, scalar: ScalarDraft?) returns (pushed: seq<MathToken>)
    ensures pushed == mathTokens + (ImperialList(ImperialSnapshot(imperial)) + ScalarList(ScalarSnapshot(scalar)))
  {
    pushed := mathTokens;
    if imperial != null {
      pushed := pushed + [imperial.Snapshot()];
    }
    if scalar != null {
      pushed := pushed + [ScalarToken(scalar.value)];
    }
  }

  /** A new Imperial operand: the draft being keyed, if any, is pushed and a fresh one starts. */
  method StartImperial(mathTokens: seq<MathToken>, draft: ImperialDraft?) returns (pushed: seq<MathToken>, current: ImperialDraft)
    ensures fresh(current) && current.Snapshot() == NewImperial
    ensures pushed == mathTokens + ImperialList(ImperialSnapshot(draft))
  {
    pushed := mathTokens;
    if draft != null {
      pushed := mathTokens + [draft.Snapshot()];
    } else {
      assert pushed == mathTokens + [];
    }
    current := new ImperialDraft();
  }

  /** A new Scalar operand: the draft being keyed, if any, is pushed and a fresh one starts. */
  method StartScalar(mathTokens: seq<MathToken>, draft: ScalarDraft?) returns (pushed: seq<MathToken>, current: ScalarDraft)
    ensures fresh(current) && current.value == ""
    ensures pushed == mathTokens + ScalarList(ScalarSnapshot(draft))
  {
    pushed := mathTokens;
    if draft != null {
      pushed := mathTokens + [ScalarToken(draft.value)];
    } else {
      assert pushed == mathTokens + [];
    }
    current := new ScalarDraft();
  }

  /** A Feet or Inches key opens a new Imperial draft unless one is being keyed, then updates it. */
  lemma ImperialKeyStep(a: Accumulator, token: InputToken)
    requires token.pad == Feet || token.pad == Inches
    requires a.lastTokenType == LastImperial ==> a.currentImperial.Some?
    ensures var opening := a.lastTokenType != LastImperial;
      AccStep(a, token) == Accumulator(
        a.mathTokens + (if opening then ImperialList(a.currentImperial) else []),
        Some(UpdateImperial(if opening then NewImperial else a.currentImperial.value, token)),
        a.currentScalar, LastImperial)
  {
    if a.lastTokenType == LastImperial {
      assert a.mathTokens + [] == a.mathTokens;
    }
  }

  /** A Scalar key opens a new Scalar draft unless one is being keyed, then updates it. */
  lemma ScalarKeyStep(a: Accumulator, token: InputToken)
    requires token.pad == Pad.Scalar
    requires a.lastTokenType == LastScalar ==> a.currentScalar.Some?
    ensures var opening := a.lastTokenType != LastScalar;
      AccStep(a, token) == Accumulator(
        a.mathTokens + (if opening then ScalarList(a.currentScalar) else []),
        a.currentImperial,
        Some(AppendScalarKey(if opening then "" else a.currentScalar.value, token.key)),
        LastScalar)
  {
    if a.lastTokenType == LastScalar {
      assert a.mathTokens + [] == a.mathTokens;
    }
  }

  // ---------------------------------------------------------------------
  // Properties of the accumulator
  // ---------------------------------------------------------------------

  function WithoutControl(ts: seq<InputToken>): seq<InputToken>
    decreases |ts|
  {
    if ts == [] then []
    else if ts[|ts| - 1].pad == Control then WithoutControl(ts[..|ts| - 1])
    else WithoutControl(ts[..|ts| - 1]) + [ts[|ts| - 1]]
  }

  /** Control keys (Clear, Backspace, ...) leave no trace in the math tokens. */
  lemma {:induction false} ControlTokensIgnored(ts: seq<InputToken>)
    ensures AccRun(ts) == AccRun(WithoutControl(ts))
    ensures MathTokensOf(ts) == MathTokensOf(WithoutControl(ts))
    decreases |ts|
  {
    if ts != [] {
      var front, t := ts[..|ts| - 1], ts[|ts| - 1];
      ControlTokensIgnored(front);
      if t.pad != Control {
        var w := WithoutControl(front) + [t];
        assert w[..|w| - 1] == WithoutControl(front);
      }
    }
  }

  /** The keys of the operator tokens of a log, in order. */
  function OperatorKeys(ts: seq<InputToken>): seq<string>
    decreases |ts|
  {
    if ts == [] then []
    else if ts[|ts| - 1].pad == Pad.Operator then OperatorKeys(ts[..|ts| - 1]) + [ts[|ts| - 1].key]
    else OperatorKeys(ts[..|ts| - 1])
  }

  /** The symbols of the Operator math tokens, in order. */
  function OperatorSymbols(ms: seq<MathToken>): seq<string>
    decreases |ms|
  {
    if ms == [] then []
    else if ms[|ms| - 1].OperatorToken? then OperatorSymbols(ms[..|ms| - 1]) + [Symbol(ms[|ms| - 1].operator)]
    else OperatorSymbols(ms[..|ms| - 1])
  }

  lemma {:induction false} OperatorSymbolsAppend(a: seq<MathToken>, b: seq<MathToken>)
    ensures OperatorSymbols(a + b) == OperatorSymbols(a) + OperatorSymbols(b)
    decreases |b|
  {
    if b == [] {
      assert a + b == a;
    } else {
      assert (a + b)[..|a + b| - 1] == a + b[..|b| - 1];
      OperatorSymbolsAppend(a, b[..|b| - 1]);
    }
  }

  lemma {:induction false} NoOperatorTokens(ms: seq<MathToken>)
    requires forall k :: 0 <= k < |ms| ==> !ms[k].OperatorToken?
    ensures OperatorSymbols(ms) == []
    decreases |ms|
  {
    if ms != [] {
      NoOperatorTokens(ms[..|ms| - 1]);
    }
  }

  lemma PendingHasNoOperator(a: Accumulator)
    ensures OperatorSymbols(Pending(a)) == []
  {
    NoOperatorTokens(Pending(a));
  }

  /** One step adds the key of an operator token and no other operator. */
  lemma StepOperators(a: Accumulator, t: InputToken)
    ensures OperatorSymbols(AccStep(a, t).mathTokens) ==
      OperatorSymbols(a.mathTokens) + (if t.pad == Pad.Operator then [t.key] else [])
  {
    if t.pad == Pad.Operator {
      OperatorStepSymbols(a, t);
    } else if t.pad == Feet || t.pad == Inches {
      ImperialStepSymbols(a, t);
    } else if t.pad == Pad.Scalar {
      ScalarStepSymbols(a, t);
    }
  }

  lemma ImperialStepSymbols(a: Accumulator, t: InputToken)
    requires t.pad == Feet || t.pad == Inches
    ensures OperatorSymbols(AccStep(a, t).mathTokens) == OperatorSymbols(a.mathTokens)
  {
    if a.lastTokenType != LastImperial {
      assert AccStep(a, t).mathTokens == a.mathTokens + ImperialList(a.currentImperial);
      NoOperatorTokens(ImperialList(a.currentImperial));
      OperatorSymbolsAppend(a.mathTokens, ImperialList(a.currentImperial));
    } else {
      assert AccStep(a, t).mathTokens == a.mathTokens;
    }
  }

  lemma ScalarStepSymbols(a: Accumulator, t: InputToken)
    requires t.pad == Pad.Scalar
    ensures OperatorSymbols(AccStep(a, t).mathTokens) == OperatorSymbols(a.mathTokens)
  {
    if a.lastTokenType != LastScalar {
      assert AccStep(a, t).mathTokens == a.mathTokens + ScalarList(a.currentScalar);
      NoOperatorTokens(ScalarList(a.currentScalar));
      OperatorSymbolsAppend(a.mathTokens, ScalarList(a.currentScalar));
    } else {
      assert AccStep(a, t).mathTokens == a.mathTokens;
    }
  }

  lemma OperatorStepSymbols(a: Accumulator, t: InputToken)
    requires t.pad == Pad.Operator
    ensures OperatorSymbols(AccStep(a, t).mathTokens) == OperatorSymbols(a.mathTokens) + [t.key]
  {
    var op := [OperatorToken(OperatorOfKey(t.key))];
    PendingHasNoOperator(a);
    OperatorSymbolsAppend(a.mathTokens, Pending(a));
    OperatorSymbolsAppend(a.mathTokens + Pending(a), op);
    assert op[..0] == [];
    assert OperatorSymbols(op) == [t.key];
  }

  lemma {:induction false} AccRunOperators(ts: seq<InputToken>)
    ensures OperatorSymbols(AccRun(ts).mathTokens) == OperatorKeys(ts)
    decreases |ts|
  {
    if ts != [] {
      AccRunOperators(ts[..|ts| - 1]);
      StepOperators(AccRun(ts[..|ts| - 1]), ts[|ts| - 1]);
    }
  }

  /** Every operator key becomes one Operator token carrying that key, in the order typed. */
  lemma OperatorsKeptInOrder(ts: seq<InputToken>)
    ensures OperatorSymbols(MathTokensOf(ts)) == OperatorKeys(ts)
  {
    AccRunOperators(ts);
    PendingHasNoOperator(AccRun(ts));
    OperatorSymbolsAppend(AccRun(ts).mathTokens, Pending(AccRun(ts)));
  }

  predicate AllImperialPads(ts: seq<InputToken>)
  {
    forall k :: 0 <= k < |ts| ==> ts[k].pad == Feet || ts[k].pad == Inches
  }

  predicate AllScalarPads(ts: seq<InputToken>)
  {
    forall k :: 0 <= k < |ts| ==> ts[k].pad == Pad.Scalar
  }

  /** The Imperial draft after applying every key of `ts` to a fresh one. */
  function FoldImperial(ts: seq<InputToken>): Imperial
    decreases |ts|
  {
    if ts == [] then NewImperial else UpdateImperial(FoldImperial(ts[..|ts| - 1]), ts[|ts| - 1])
  }

  /** The scalar text after applying every key of `ts` to "". */
  function FoldScalar(ts: seq<InputToken>): string
    decreases |ts|
  {
    if ts == [] then "" else AppendScalarKey(FoldScalar(ts[..|ts| - 1]), ts[|ts| - 1].key)
  }

  lemma {:induction false} ImperialOperandRun(ts: seq<InputToken>)
    requires |ts| > 0 && AllImperialPads(ts)
    ensures AccRun(ts) == Accumulator([], Some(FoldImperial(ts)), None, LastImperial)
    decreases |ts|
  {
    if |ts| > 1 {
      ImperialOperandRun(ts[..|ts| - 1]);
    }
  }

  lemma {:induction false} ScalarOperandRun(ts: seq<InputToken>)
    requires |ts| > 0 && AllScalarPads(ts)
    ensures AccRun(ts) == Accumulator([], None, Some(FoldScalar(ts)), LastScalar)
    decreases |ts|
  {
    if |ts| > 1 {
      ScalarOperandRun(ts[..|ts| - 1]);
    }
  }

  /** Feet and inches keys with nothing between them make one Imperial token. */
  lemma ImperialOperand(ts: seq<InputToken>)
    requires |ts| > 0 && AllImperialPads(ts)
    ensures MathTokensOf(ts) == [FoldImperial(ts)]
  {
    ImperialOperandRun(ts);
  }

  /** Scalar keys with nothing between them make one Scalar token, whose text has at most one '.'. */
  lemma ScalarOperand(ts: seq<InputToken>)
    requires |ts| > 0 && AllScalarPads(ts)
    ensures MathTokensOf(ts) == [ScalarToken(FoldScalar(ts))]
    ensures AtMostOneDot(FoldScalar(ts))
    ensures NoDotKey(ts) ==> FoldScalar(ts) == PadDigits(ts, Pad.Scalar)
    ensures forall k :: 0 <= k < |ts| && ts[k].key == "." && NoDotKey(ts[..k]) ==>
      FoldScalar(ts) == PadDigits(ts[..k], Pad.Scalar) + "." + PadDigits(ts[k + 1..], Pad.Scalar)
  {
    ScalarOperandRun(ts);
    FoldScalarOneDot(ts);
    if NoDotKey(ts) {
      FoldScalarDigits(ts);
    }
    forall k | 0 <= k < |ts| && ts[k].key == "." && NoDotKey(ts[..k])
      ensures FoldScalar(ts) == PadDigits(ts[..k], Pad.Scalar) + "." + PadDigits(ts[k + 1..], Pad.Scalar)
    {
      FoldScalarFirstDot(ts, k);
    }
  }

  predicate NoDotKey(ts: seq<InputToken>)
  {
    forall k :: 0 <= k < |ts| ==> ts[k].key != "."
  }

  /** Without a "." key, a scalar operand is its digit keys, in order. */
  lemma {:induction false} FoldScalarDigits(ts: seq<InputToken>)
    requires AllScalarPads(ts) && NoDotKey(ts)
    ensures FoldScalar(ts) == PadDigits(ts, Pad.Scalar)
    decreases |ts|
  {
    if ts != [] {
      var front := ts[..|ts| - 1];
      assert AllScalarPads(front) && NoDotKey(front);
      FoldScalarDigits(front);
    }
  }

  /**
   * With the first "." key at `k`, a scalar operand is the digits typed before
   * it, one ".", and the digits typed after it: later "." keys are dropped.
   */
  lemma {:induction false} FoldScalarFirstDot(ts: seq<InputToken>, k: nat)
    requires AllScalarPads(ts) && k < |ts| && ts[k].key == "." && NoDotKey(ts[..k])
    ensures FoldScalar(ts) == PadDigits(ts[..k], Pad.Scalar) + "." + PadDigits(ts[k + 1..], Pad.Scalar)
    decreases |ts|
  {
    var front, t := ts[..|ts| - 1], ts[|ts| - 1];
    assert AllScalarPads(front);
    if |ts| == k + 1 {
      assert front == ts[..k];
      FoldScalarDigits(front);
      assert '.' !in PadDigits(front, Pad.Scalar);
      assert ts[k + 1..] == [];
    } else {
      assert front[..k] == ts[..k] && front[k] == ts[k];
      FoldScalarFirstDot(front, k);
      var before, after := PadDigits(ts[..k], Pad.Scalar), PadDigits(front[k + 1..], Pad.Scalar);
      assert '.' in before + "." + after by {
        assert (before + "." + after)[|before|] == '.';
      }
      assert ts[k + 1..][..|ts[k + 1..]| - 1] == front[k + 1..];
      assert ts[k + 1..][|ts[k + 1..]| - 1] == t;
    }
  }

  lemma {:induction false} FoldScalarOneDot(ts: seq<InputToken>)
    ensures AtMostOneDot(FoldScalar(ts))
    decreases |ts|
  {
    if ts != [] {
      FoldScalarOneDot(ts[..|ts| - 1]);
    }
  }

  /** The digit keys typed on one pad, in order. */
  function PadDigits(ts: seq<InputToken>, pad: Pad): (r: string)
    ensures AllDigits(r)
    decreases |ts|
  {
    if ts == [] then ""
    else
      var t := ts[|ts| - 1];
      if t.pad == pad && IsDigitKey(t.key) then PadDigits(ts[..|ts| - 1], pad) + t.key
      else PadDigits(ts[..|ts| - 1], pad)
  }

  /** The last fraction key that reads as two whole numbers; 0/16 when there is none. */
  function LastFraction(ts: seq<InputToken>): (nat, nat)
    decreases |ts|
  {
    if ts == [] then (0, 16)
    else
      var k := ts[|ts| - 1].key;
      if '/' in k && FractionParts(k).Some? then FractionParts(k).value
      else LastFraction(ts[..|ts| - 1])
  }

  lemma DigitsAppend(s: string, key: string)
    requires AllDigits(s) && IsDigitKey(key)
    ensures AllDigits(s + key)
    ensures DigitsValue(s + key) == DigitsValue(s) * 10 + DigitValue(key[0])
  {
    var r := s + key;
    assert r[..|r| - 1] == s;
  }

  /** A digit key shifts into the whole part of its own pad only; other keys leave both whole parts alone. */
  lemma UpdateImperialWhole(d: Imperial, token: InputToken)
    ensures UpdateImperial(d, token).feet ==
      if token.pad == Feet && IsDigitKey(token.key) then d.feet * 10 + DigitValue(token.key[0]) else d.feet
    ensures UpdateImperial(d, token).inches ==
      if token.pad == Inches && IsDigitKey(token.key) then d.inches * 10 + DigitValue(token.key[0]) else d.inches
  {
    if IsDigitKey(token.key) {
      assert token.key == [token.key[0]];
      assert '/' !in token.key;
    }
  }

  /** The feet of a draft are the number spelled by the digits typed on the feet pad. */
  lemma {:induction false} FoldImperialFeet(ts: seq<InputToken>)
    ensures FoldImperial(ts).feet == DigitsValue(PadDigits(ts, Feet))
    decreases |ts|
  {
    if ts != [] {
      var front, t := ts[..|ts| - 1], ts[|ts| - 1];
      FoldImperialFeet(front);
      UpdateImperialWhole(FoldImperial(front), t);
      if t.pad == Feet && IsDigitKey(t.key) {
        DigitsAppend(PadDigits(front, Feet), t.key);
      }
    }
  }

  /** The inches of a draft are the number spelled by the digits typed on the inches pad. */
  lemma {:induction false} FoldImperialInches(ts: seq<InputToken>)
    ensures FoldImperial(ts).inches == DigitsValue(PadDigits(ts, Inches))
    decreases |ts|
  {
    if ts != [] {
      var front, t := ts[..|ts| - 1], ts[|ts| - 1];
      FoldImperialInches(front);
      UpdateImperialWhole(FoldImperial(front), t);
      if t.pad == Inches && IsDigitKey(t.key) {
        DigitsAppend(PadDigits(front, Inches), t.key);
      }
    }
  }

  /** The fraction of a draft is the last fraction key typed on either pad. */
  lemma {:induction false} FoldImperialFraction(ts: seq<InputToken>)
    ensures (FoldImperial(ts).numerator, FoldImperial(ts).denominator) == LastFraction(ts)
    decreases |ts|
  {
    if ts != [] {
      FoldImperialFraction(ts[..|ts| - 1]);
    }
  }

  /** Without an operator, an Imperial key after a Scalar key starts a second Imperial token, and the Scalar token comes last. */
  lemma MixedOperandOrder()
    ensures MathTokensOf([InputToken(Feet, "5"), InputToken(Pad.Scalar, "3"), InputToken(Feet, "2")]) ==
      [ImperialToken(5, 0, 0, 16), ImperialToken(2, 0, 0, 16), ScalarToken("3")]
  {
    var ts := [InputToken(Feet, "5"), InputToken(Pad.Scalar, "3"), InputToken(Feet, "2")];
    assert ts[..1][..0] == [];
    assert AccRun(ts[..1]) == Accumulator([], Some(ImperialToken(5, 0, 0, 16)), None, LastImperial);
    assert ts[..2][..1] == ts[..1];
    assert IsDigitKey("3") && AppendScalarKey("", "3") == "3";
    assert AccRun(ts[..2]) == Accumulator([], Some(ImperialToken(5, 0, 0, 16)), Some("3"), LastScalar);
    assert ts[..3] == ts;
    assert AccRun(ts) == Accumulator([ImperialToken(5, 0, 0, 16)], Some(ImperialToken(2, 0, 0, 16)), Some("3"), LastImperial);
  }

  /** 5', +, 3", 1/4" makes 5ft, +, 3 1/4in. */
  /** 3 . 1 4 on the scalar pad give the one Scalar operand "3.14". */
  lemma ScalarDecimalExample()
    ensures MathTokensOf([InputToken(Pad.Scalar, "3"), InputToken(Pad.Scalar, "."),
                          InputToken(Pad.Scalar, "1"), InputToken(Pad.Scalar, "4")]) == [ScalarToken("3.14")]
  {
    var ts := [InputToken(Pad.Scalar, "3"), InputToken(Pad.Scalar, "."),
               InputToken(Pad.Scalar, "1"), InputToken(Pad.Scalar, "4")];
    ScalarOperand(ts);
    assert ts[..3][..2] == ts[..2] && ts[..2][..1] == ts[..1] && ts[..1][..0] == [];
    assert FoldScalar(ts[..1]) == "3";
    assert FoldScalar(ts[..2]) == "3.";
    assert FoldScalar(ts[..3]) == "3.1";
    assert FoldScalar(ts) == "3.14";
  }

  lemma TwoOperandsExample()
    ensures MathTokensOf([InputToken(Feet, "5"), InputToken(Pad.Operator, "+"), InputToken(Inches, "3"), InputToken(Inches, "1/4")]) ==
      [ImperialToken(5, 0, 0, 16), OperatorToken(Plus), ImperialToken(0, 3, 1, 4)]
  {
    var ts := [InputToken(Feet, "5"), InputToken(Pad.Operator, "+"), InputToken(Inches, "3"), InputToken(Inches, "1/4")];
    var five := ImperialToken(5, 0, 0, 16);
    assert ts[..1][..0] == [];
    assert AccRun(ts[..1]) == Accumulator([], Some(five), None, LastImperial);
    assert ts[..2][..1] == ts[..1];
    assert AccRun(ts[..2]) == Accumulator([five, OperatorToken(Plus)], None, None, LastInput);
    assert ts[..3][..2] == ts[..2];
    assert AccRun(ts[..3]) == Accumulator([five, OperatorToken(Plus)], Some(ImperialToken(0, 3, 0, 16)), None, LastImperial);
    FractionKeyRoundTrip(1, 4);
    assert NatToString(1) + "/" + NatToString(4) == "1/4";
    assert ts[..4] == ts;
    assert AccRun(ts) == Accumulator([five, OperatorToken(Plus)], Some(ImperialToken(0, 3, 1, 4)), None, LastImperial);
  }

  // ---------------------------------------------------------------------
  // Display
  // ---------------------------------------------------------------------

  /** `map(f).join('')`: the texts of the tokens, concatenated. */
  function ConcatMap(ms: seq<MathToken>, f: MathToken -> string): string
    decreases |ms|
  {
    if ms == [] then "" else ConcatMap(ms[..|ms| - 1], f) + f(ms[|ms| - 1])
  }

  function Renderer(fmt: TextFormat): MathToken -> string
  {
    t => RenderToken(t, fmt)
  }

  /** The display text of a math token list ("" for no tokens). */
  function BuildDisplay(ms: seq<MathToken>, fmt: TextFormat): (r: string)
    ensures |ms| == 0 ==> r == ""
    ensures |ms| > 0 ==> r == BuildDisplay(ms[..|ms| - 1], fmt) + RenderToken(ms[|ms| - 1], fmt)
  {
    if |ms| == 0 then "" else ConcatMap(ms, Renderer(fmt))
  }

  /**
   * The text of one token: lengths through the feet/inches formatter, an empty
   * scalar as "0", an operator with one space on each side, and an area or a
   * volume as its display text followed by its total in brackets.
   */
  function RenderToken(t: MathToken, fmt: TextFormat): (r: string)
    ensures t.ImperialToken? || t.LengthSolution? ==> r == FormatImperialToken(t, fmt)
    ensures t.ScalarToken? ==> r == (if t.value == "" then "0" else t.value)
    ensures t.OperatorToken? ==> r == " " + Symbol(t.operator) + " "
    ensures t.AreaSolution? ==>
      && t.displayValue + " (" <= r && EndsWith(r, " sq.in)")
      && |r| == |t.displayValue| + 2 + |fmt.numberText(t.totalSquareInches)| + 7
      && r[|t.displayValue| + 2..|r| - 7] == fmt.numberText(t.totalSquareInches)
    ensures t.VolumeSolution? ==>
      && t.displayValue + " (" <= r && EndsWith(r, " cu.in)")
      && |r| == |t.displayValue| + 2 + |fmt.numberText(t.totalCubicInches)| + 7
      && r[|t.displayValue| + 2..|r| - 7] == fmt.numberText(t.totalCubicInches)
    ensures t.ScalarSolution? ==> r == t.value
  {
    match t
    case ImperialToken(_, _, _, _) => FormatImperialToken(t, fmt)
    case ScalarToken(value) => if value == "" then "0" else value
    case OperatorToken(op) => " " + Symbol(op) + " "
    case LengthSolution(_, _, _, _, _) => FormatImperialToken(t, fmt)
    case AreaSolution(total, displayValue) => Bracketed(displayValue, fmt.numberText(total), " sq.in)")
    case VolumeSolution(total, displayValue) => Bracketed(displayValue, fmt.numberText(total), " cu.in)")
    case ScalarSolution(value) => value
  }

  /** "<display> (<total><unit>": a result's own text, then its total in brackets. */
  function Bracketed(displayValue: string, total: string, unit: string): (r: string)
    ensures displayValue + " (" <= r && EndsWith(r, unit)
    ensures |r| == |displayValue| + 2 + |total| + |unit| && r[|displayValue| + 2..|r| - |unit|] == total
  {
    PrefixOfConcat(displayValue + " (", total + unit);
    EndsWithConcat(displayValue + " (" + total, unit);
    assert displayValue + " (" + total + unit == (displayValue + " (") + (total + unit);
    displayValue + " (" + total + unit
  }

  lemma {:induction false} ConcatMapAppend(a: seq<MathToken>, b: seq<MathToken>, f: MathToken -> string)
    ensures ConcatMap(a + b, f) == ConcatMap(a, f) + ConcatMap(b, f)
    decreases |b|
  {
    if b == [] {
      assert a + b == a;
    } else {
      assert (a + b)[..|a + b| - 1] == a + b[..|b| - 1];
      assert (a + b)[|a + b| - 1] == b[|b| - 1];
      ConcatMapAppend(a, b[..|b| - 1], f);
    }
  }

  /** The display of a list is the display of its parts, one after the other. */
  lemma BuildDisplayAppend(a: seq<MathToken>, b: seq<MathToken>, fmt: TextFormat)
    ensures BuildDisplay(a + b, fmt) == BuildDisplay(a, fmt) + BuildDisplay(b, fmt)
  {
    ConcatMapAppend(a, b, Renderer(fmt));
    if a == [] {
      assert a + b == b;
    }
    if b == [] {
      assert a + b == a;
    }
  }

  /** Text made of digits, spaces and '/' only: no letter of a unit can occur in it. */
  predicate NumeralText(s: string)
  {
    forall i :: 0 <= i < |s| ==> IsDigitChar(s[i]) || s[i] == ' ' || s[i] == '/'
  }

  lemma NumeralTextHasNoLetter(s: string)
    requires NumeralText(s)
    ensures 'f' !in s && 'i' !in s
  {
  }

  /** The inches part: whole inches, then the reduced fraction, with one space between them. */
  function InchesText(inches: nat, numerator: nat, denominator: nat): (r: string)
    ensures r == "" <==> inches == 0 && numerator == 0
  {
    var (p, q) := SimplifyFraction(numerator, denominator);
    (if inches > 0 then NatToString(inches) else "")
    + (if numerator > 0 then (if inches > 0 then " " else "") + NatToString(p) + "/" + NatToString(q) else "")
  }

  predicate HasFeetPart(t: MathToken)
    requires t.ImperialToken? || t.LengthSolution?
  {
    t.feet > 0
  }

  predicate HasInchesPart(t: MathToken)
    requires t.ImperialToken? || t.LengthSolution?
  {
    t.inches > 0 || t.numerator > 0
  }

  function FeetText(t: MathToken): string
    requires t.ImperialToken? || t.LengthSolution?
  {
    if HasFeetPart(t) then NatToString(t.feet) + "ft" else ""
  }

  function InchesPartText(t: MathToken): string
    requires t.ImperialToken? || t.LengthSolution?
  {
    if HasInchesPart(t) then InchesText(t.inches, t.numerator, t.denominator) + "in" else ""
  }

  /** The parts that are shown, joined by one space. */
  function JoinedParts(t: MathToken): (r: string)
    requires t.ImperialToken? || t.LengthSolution?
    ensures HasFeetPart(t) || HasInchesPart(t) ==> |r| >= 3
    ensures r == "" <==> !HasFeetPart(t) && !HasInchesPart(t)
  {
    if HasFeetPart(t) && HasInchesPart(t) then FeetText(t) + " " + InchesPartText(t)
    else FeetText(t) + InchesPartText(t)
  }

  lemma InchesTextIsNumeral(inches: nat, numerator: nat, denominator: nat)
    ensures NumeralText(InchesText(inches, numerator, denominator))
  {
  }

  /**
   * The unit letters show exactly which parts are there: an "f" iff feet are
   * positive, an "i" iff there are inches or a fraction.
   */
  lemma JoinedPartsLetters(t: MathToken)
    requires t.ImperialToken? || t.LengthSolution?
    ensures 'f' in JoinedParts(t) <==> HasFeetPart(t)
    ensures 'i' in JoinedParts(t) <==> HasInchesPart(t)
  {
    InchesTextIsNumeral(t.inches, t.numerator, t.denominator);
    NumeralTextHasNoLetter(InchesText(t.inches, t.numerator, t.denominator));
    NumeralTextHasNoLetter(if HasFeetPart(t) then NatToString(t.feet) else "");
  }

  /**
   * On an operand the whole text says which parts are there: "ft" appears iff
   * feet are positive, "in" iff there are inches or a fraction ("0" has neither).
   */
  lemma ImperialTextLetters(t: MathToken, fmt: TextFormat)
    requires t.ImperialToken?
    ensures 'f' in FormatImperialToken(t, fmt) <==> HasFeetPart(t)
    ensures 'i' in FormatImperialToken(t, fmt) <==> HasInchesPart(t)
  {
    JoinedPartsLetters(t);
  }

  /** The total inches in brackets that follow a Length. */
  function TotalText(t: MathToken, fmt: TextFormat): string
    requires t.LengthSolution?
  {
    " (" + fmt.numberText(t.totalInches) + "in)"
  }

  /**
   * "<feet>ft <inches> <n>/<d>in", leaving out the parts that are zero (and
   * feet that are not positive), "0" when nothing is left; a Length with
   * something shown also gets its total inches in brackets.
   */
  function FormatImperialToken(t: MathToken, fmt: TextFormat): (r: string)
    requires t.ImperialToken? || t.LengthSolution?
    ensures r == "0" <==> !HasFeetPart(t) && !HasInchesPart(t)
    ensures HasFeetPart(t) || HasInchesPart(t) ==> JoinedParts(t) <= r
  {
    if !HasFeetPart(t) && !HasInchesPart(t) then "0"
    else if t.LengthSolution? then JoinedParts(t) + TotalText(t, fmt)
    else JoinedParts(t)
  }

  /** The bracketed total that follows a Length, and nothing after an Imperial operand. */
  function Tail(t: MathToken, fmt: TextFormat): string
    requires t.ImperialToken? || t.LengthSolution?
  {
    if t.LengthSolution? then TotalText(t, fmt) else ""
  }

  /** With feet and no inches part, the text is the feet part alone. */
  lemma FeetOnlyText(t: MathToken, fmt: TextFormat)
    requires (t.ImperialToken? || t.LengthSolution?) && HasFeetPart(t) && !HasInchesPart(t)
    ensures FormatImperialToken(t, fmt) == NatToString(t.feet) + "ft" + Tail(t, fmt)
  {
    assert JoinedParts(t) == FeetText(t) + "";
  }

  /** With both parts, the text is the feet part, one space, then the inches part. */
  lemma FeetAndInchesText(t: MathToken, fmt: TextFormat)
    requires (t.ImperialToken? || t.LengthSolution?) && HasFeetPart(t) && HasInchesPart(t)
    ensures FormatImperialToken(t, fmt) ==
      NatToString(t.feet) + "ft" + " " + (InchesText(t.inches, t.numerator, t.denominator) + "in") + Tail(t, fmt)
  {
  }

  /** Without feet, the text is the inches part alone. */
  lemma InchesOnlyText(t: MathToken, fmt: TextFormat)
    requires (t.ImperialToken? || t.LengthSolution?) && !HasFeetPart(t) && HasInchesPart(t)
    ensures FormatImperialToken(t, fmt) == InchesText(t.inches, t.numerator, t.denominator) + "in" + Tail(t, fmt)
  {
    assert JoinedParts(t) == "" + InchesPartText(t);
  }

  lemma PrefixChain(a: string, b: string, c: string, d: string)
    ensures a <= a + b + c + d && a + b + c <= a + b + c + d
  {
    assert (a + b + c + d)[..|a|] == a;
    assert (a + b + c + d)[..|a + b + c|] == a + b + c;
  }

  /** The feet part comes first, followed by one space and the inches part when there is one. */
  lemma FeetShownFirst(t: MathToken, fmt: TextFormat)
    requires (t.ImperialToken? || t.LengthSolution?) && HasFeetPart(t)
    ensures NatToString(t.feet) + "ft" <= FormatImperialToken(t, fmt)
    ensures HasInchesPart(t) ==>
      (NatToString(t.feet) + "ft") + " " + (InchesText(t.inches, t.numerator, t.denominator) + "in") <= FormatImperialToken(t, fmt)
  {
    if HasInchesPart(t) {
      FeetAndInchesText(t, fmt);
      PrefixChain(NatToString(t.feet) + "ft", " ", InchesText(t.inches, t.numerator, t.denominator) + "in", Tail(t, fmt));
    } else {
      FeetOnlyText(t, fmt);
      PrefixOfConcat(NatToString(t.feet) + "ft", Tail(t, fmt));
    }
  }

  /** Without feet, the inches part comes first. */
  lemma InchesShownFirst(t: MathToken, fmt: TextFormat)
    requires (t.ImperialToken? || t.LengthSolution?) && !HasFeetPart(t) && HasInchesPart(t)
    ensures InchesText(t.inches, t.numerator, t.denominator) + "in" <= FormatImperialToken(t, fmt)
  {
    InchesOnlyText(t, fmt);
    PrefixOfConcat(InchesText(t.inches, t.numerator, t.denominator) + "in", Tail(t, fmt));
  }

  /** A Length that shows something ends with its total inches in brackets. */
  lemma LengthShowsTotal(t: MathToken, fmt: TextFormat)
    requires t.LengthSolution? && (HasFeetPart(t) || HasInchesPart(t))
    ensures EndsWith(FormatImperialToken(t, fmt), TotalText(t, fmt))
  {
    EndsWithConcat(JoinedParts(t), TotalText(t, fmt));
  }

  // ---------------------------------------------------------------------
  // Fractions in lowest terms
  // ---------------------------------------------------------------------

  function Gcd(a: nat, b: nat): nat
    decreases b
  {
    if b == 0 then a else Gcd(b, a % b)
  }

  /** `c` is a positive divisor of `n`. */
  predicate Divides(c: nat, n: nat)
  {
    c > 0 && n % c == 0
  }

  lemma {:induction false} MulAtLeast(c: nat, m: int)
    requires c > 0 && m >= 1
    ensures c * m >= c
    decreases m
  {
    if m > 1 {
      MulAtLeast(c, m - 1);
      assert c * m == c * (m - 1) + c;
    }
  }

  lemma DividesMultiple(c: nat, k: int)
    requires c > 0 && c * k >= 0
    ensures Divides(c, c * k)
  {
    var n := c * k;
    var q, r := n / c, n % c;
    assert n == c * q + r && 0 <= r < c;
    assert c * (k - q) == r;
    if k - q >= 1 {
      MulAtLeast(c, k - q);
    } else if k - q <= -1 {
      MulAtLeast(c, q - k);
    }
  }

  lemma ExactQuotient(c: nat, n: nat)
    requires Divides(c, n)
    ensures n == c * (n / c)
  {
  }

  lemma DivisorBound(c: nat, n: nat)
    requires Divides(c, n) && n > 0
    ensures c <= n
  {
    var q := n / c;
    ExactQuotient(c, n);
    MulAtLeast(c, q);
  }

  lemma {:induction false} GcdDividesBoth(a: nat, b: nat)
    requires a > 0 || b > 0
    ensures Divides(Gcd(a, b), a) && Divides(Gcd(a, b), b)
    decreases b
  {
    if b == 0 {
      DividesMultiple(a, 1);
      DividesMultiple(a, 0);
    } else {
      var g := Gcd(b, a % b);
      GcdDividesBoth(b, a % b);
      var x, y := b / g, (a % b) / g;
      assert b == g * x && a % b == g * y;
      assert a == (a / b) * b + a % b;
      assert a == g * (x * (a / b) + y);
      DividesMultiple(g, x * (a / b) + y);
    }
  }

  lemma {:induction false} CommonDivisorDividesGcd(a: nat, b: nat, c: nat)
    requires Divides(c, a) && Divides(c, b)
    ensures Divides(c, Gcd(a, b))
    decreases b
  {
    if b != 0 {
      var x, y := a / c, b / c;
      assert a == c * x && b == c * y;
      assert a % b == a - (a / b) * b;
      assert a % b == c * (x - (a / b) * y);
      DividesMultiple(c, x - (a / b) * y);
      CommonDivisorDividesGcd(b, a % b, c);
    }
  }

  /**
   * `simplifyFraction`: 0 becomes 0/1; otherwise both parts are divided by
   * their greatest common divisor, which keeps the ratio and leaves no common
   * factor.
   */
  function SimplifyFraction(numerator: nat, denominator: nat): (r: (nat, nat))
    ensures numerator == 0 ==> r == (0, 1)
    ensures numerator > 0 ==> 0 < r.0 <= numerator && r.1 <= denominator
    ensures numerator > 0 ==> r.0 * denominator == r.1 * numerator
    ensures numerator > 0 ==> forall c :: Divides(c, r.0) && Divides(c, r.1) ==> c == 1
  {
    if numerator == 0 then (0, 1)
    else
      var divisor := Gcd(numerator, denominator);
      GcdDividesBoth(numerator, denominator);
      var p, q := numerator / divisor, denominator / divisor;
      LowestTerms(numerator, denominator, divisor, p, q);
      (p, q)
  }

  lemma LowestTerms(n: nat, d: nat, g: nat, p: nat, q: nat)
    requires n > 0 && g == Gcd(n, d) && Divides(g, n) && Divides(g, d)
    requires p == n / g && q == d / g
    ensures 0 < p <= n && q <= d
    ensures p * d == q * n
    ensures forall c :: Divides(c, p) && Divides(c, q) ==> c == 1
  {
    ExactQuotient(g, n);
    ExactQuotient(g, d);
    QuotientBounds(n, d, g, p, q);
    CrossProducts(n, d, g, p, q);
    forall c | Divides(c, p) && Divides(c, q)
      ensures c == 1
    {
      NoCommonFactor(n, d, g, p, q, c);
    }
  }

  lemma QuotientBounds(n: nat, d: nat, g: nat, p: nat, q: nat)
    requires n > 0 && g > 0 && n == g * p && d == g * q
    ensures 0 < p <= n && q <= d
  {
    MulAtLeast(p, g);
    if q > 0 {
      MulAtLeast(q, g);
    }
  }

  lemma CrossProducts(n: nat, d: nat, g: nat, p: nat, q: nat)
    requires n == g * p && d == g * q
    ensures p * d == q * n
  {
    calc {
      p * d;
      p * (g * q);
      q * (g * p);
      q * n;
    }
  }

  lemma NoCommonFactor(n: nat, d: nat, g: nat, p: nat, q: nat, c: nat)
    requires n > 0 && g == Gcd(n, d) && g > 0 && n == g * p && d == g * q
    requires Divides(c, p) && Divides(c, q)
    ensures c == 1
  {
    DividesScaled(g, c, p);
    DividesScaled(g, c, q);
    CommonDivisorDividesGcd(n, d, g * c);
    DivisorBound(g * c, g);
    if c > 1 {
      ScaleAboveOne(g, c);
    }
  }

  lemma DividesScaled(g: nat, c: nat, p: nat)
    requires g > 0 && Divides(c, p)
    ensures Divides(g * c, g * p)
  {
    ExactQuotient(c, p);
    var x := p / c;
    assert g * p == (g * c) * x by {
      assert g * (c * x) == (g * c) * x;
    }
    DividesMultiple(g * c, x);
  }

  lemma ScaleAboveOne(g: nat, c: nat)
    requires g > 0 && c > 1
    ensures g * c > g
  {
    MulAtLeast(g, c - 1);
    assert g * c == g * (c - 1) + g;
  }

  // ---------------------------------------------------------------------
  // Display examples
  // ---------------------------------------------------------------------

  /** No tokens show as "", one token as its own rendering. */
  lemma ShortDisplays(t: MathToken, fmt: TextFormat)
    ensures BuildDisplay([], fmt) == ""
    ensures BuildDisplay([t], fmt) == RenderToken(t, fmt)
  {
    ConcatMapSingle(t, Renderer(fmt));
  }

  /** An Area shows its display text, then its total in square inches in brackets. */
  lemma AreaDisplayExample(fmt: TextFormat)
    ensures BuildDisplay([AreaSolution(50.0, "50.00 sq.in")], fmt) == "50.00 sq.in (" + fmt.numberText(50.0) + " sq.in)"
  {
    ShortDisplays(AreaSolution(50.0, "50.00 sq.in"), fmt);
  }

  /** 2ft 6in as a Length of 30 inches shows as "2ft 6in (30in)". */
  lemma LengthDisplayExample(fmt: TextFormat)
    ensures BuildDisplay([LengthSolution(30.0, 2, 6, 0, 1)], fmt) == "2ft 6in" + " (" + fmt.numberText(30.0) + "in)"
  {
    var t := LengthSolution(30.0, 2, 6, 0, 1);
    ShortDisplays(t, fmt);
    assert NatToString(2) == "2" && NatToString(6) == "6";
    assert InchesText(6, 0, 1) == "6";
    assert JoinedParts(t) == "2ft 6in";
  }

  lemma SimplifyExamples()
    ensures SimplifyFraction(4, 16) == (1, 4)
    ensures SimplifyFraction(2, 16) == (1, 8)
    ensures SimplifyFraction(3, 8) == (3, 8)
  {
    assert Gcd(4, 16) == 4;
    assert Gcd(2, 16) == 2;
    assert Gcd(3, 8) == 1;
  }

  /** 5ft 3 1/4in, +, 3.14 is shown as "5ft 3 1/4in + 3.14". */
  lemma DisplayExample(fmt: TextFormat)
    ensures BuildDisplay([ImperialToken(5, 3, 1, 4), OperatorToken(Plus), ScalarToken("3.14")], fmt) == "5ft 3 1/4in + 3.14"
  {
    var a, b, c := ImperialToken(5, 3, 1, 4), OperatorToken(Plus), ScalarToken("3.14");
    ConcatMapThree(a, b, c, Renderer(fmt));
    RenderedExample(fmt);
  }

  lemma RenderedExample(fmt: TextFormat)
    ensures Renderer(fmt)(ImperialToken(5, 3, 1, 4)) == "5ft 3 1/4in"
    ensures Renderer(fmt)(OperatorToken(Plus)) == " + "
    ensures Renderer(fmt)(ScalarToken("3.14")) == "3.14"
  {
    FeetInchesExample(fmt);
  }

  lemma ConcatMapThree(a: MathToken, b: MathToken, c: MathToken, f: MathToken -> string)
    ensures ConcatMap([a, b, c], f) == f(a) + f(b) + f(c)
  {
    ConcatMapSingle(a, f);
    ConcatMapSingle(b, f);
    ConcatMapSingle(c, f);
    ConcatMapAppend([a], [b], f);
    ConcatMapAppend([a, b], [c], f);
    assert [a] + [b] == [a, b] && [a, b] + [c] == [a, b, c];
  }

  lemma ConcatMapSingle(t: MathToken, f: MathToken -> string)
    ensures ConcatMap([t], f) == f(t)
  {
    assert [t][..0] == [];
  }

  /** 5ft 3 1/4in is shown as it was keyed. */
  lemma FeetInchesExample(fmt: TextFormat)
    ensures FormatImperialToken(ImperialToken(5, 3, 1, 4), fmt) == "5ft 3 1/4in"
  {
    InchesExample();
    assert NatToString(5) == "5";
  }

  lemma InchesExample()
    ensures InchesText(3, 1, 4) == "3 1/4"
  {
    assert Gcd(1, 4) == 1;
    assert NatToString(3) == "3" && NatToString(1) == "1" && NatToString(4) == "4";
  }

  /** 4in 2/16 is shown with its fraction reduced: "4 1/8in". */
  lemma ReducedFractionExample(fmt: TextFormat)
    ensures FormatImperialToken(ImperialToken(0, 4, 2, 16), fmt) == "4 1/8in"
  {
    SimplifyExamples();
    assert NatToString(4) == "4" && NatToString(1) == "1" && NatToString(8) == "8";
  }

  /** A Length of exactly minus one foot shows as "0", with no total: the feet part is shown only when positive. */
  lemma MinusOneFootShowsZero(fmt: TextFormat)
    ensures FormatImperialToken(LengthSolution(-12.0, -1, 0, 0, 1), fmt) == "0"
  {
  }
}
