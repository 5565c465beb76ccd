/**
 * The input state machine: folds key tokens into an entry mode and the live
 * per-pad values.
 *
 * A state is a record built by spreading another one, so it is a value here;
 * its `measurements` object, though, is shared by every state spread from it,
 * and the scalar, feet and inches transitions write into that object in place.
 * The model keeps that object as a class, the transitions as methods that
 * modify it, and states what they compute through `View`, a plain value, and
 * the specification function `Step`.
 */
module TokenProcessor {
  import opened Wrappers
  import opened Types
  import opened Text

  /** The value of a fresh feet or inches pad: {whole: 0, numerator: 0, denominator: 16}. */
  const ZeroInput := InputValue(0, 0, 16)

  /**
   * The `measurements` object. The `{value}` object of the scalar slot is
   * folded into the `scalar` field: nothing in the core refers to it apart
   * from its owner.
   */
  class Measurements {
    var scalar: string
    var feet: InputValue
    var inches: InputValue

    constructor ()
      ensures scalar == "" && feet == ZeroInput && inches == ZeroInput
    {
      scalar := "";
      feet := ZeroInput;
      inches := ZeroInput;
    }
  }

  datatype AppStateComplete = AppStateComplete(
    currentState: Mode,
    measurements: Measurements,
    activePad: Option<MeasurementKey>,
    fractionDenominator: FractionDenominator,
    displayValue: string)

  /** Everything a state holds, read out of the shared object into one value. */
  datatype StateView = StateView(
    currentState: Mode,
    scalar: string,
    feet: InputValue,
    inches: InputValue,
    activePad: Option<MeasurementKey>,
    fractionDenominator: FractionDenominator,
    displayValue: string)

  function View(s: AppStateComplete): StateView
    reads s.measurements
  {
    StateView(s.currentState, s.measurements.scalar, s.measurements.feet, s.measurements.inches,
              s.activePad, s.fractionDenominator, s.displayValue)
  }

  /** The view of a freshly created state. */
  const Initial := StateView(Input, "", ZeroInput, ZeroInput, None, 16, "")

  predicate IsClear(t: InputToken)
  {
    t.pad == Control && t.key == "Clear"
  }

  predicate NoClear(ts: seq<InputToken>)
  {
    forall k :: 0 <= k < |ts| ==> !IsClear(ts[k])
  }

  /** The index of the first Clear in `ts`, or `|ts|` when there is none. */
  function FirstClear(ts: seq<InputToken>): (k: nat)
    ensures k <= |ts| && NoClear(ts[..k])
    ensures k < |ts| ==> IsClear(ts[k])
    ensures k == |ts| <==> NoClear(ts)
    decreases |ts|
  {
    if ts == [] then 0
    else if IsClear(ts[0]) then 0
    else
      var k := 1 + FirstClear(ts[1..]);
      assert forall j :: 1 <= j < k ==> ts[..k][j] == ts[1..][..k - 1][j - 1];
      k
  }

  /** A Clear at `i` with none before it is the first Clear. */
  lemma FirstClearAt(ts: seq<InputToken>, i: nat)
    requires i < |ts| && NoClear(ts[..i]) && IsClear(ts[i])
    ensures FirstClear(ts) == i
  {
    var k := FirstClear(ts);
    assert forall j :: 0 <= j < i ==> ts[..i][j] == ts[j];
    assert forall j :: 0 <= j < k ==> ts[..k][j] == ts[j];
  }

  /** The measurements object `m` holds the per-pad values of `v`. */
  predicate Holds(m: Measurements, v: StateView)
    reads m
  {
    m.scalar == v.scalar && m.feet == v.feet && m.inches == v.inches
  }

  // ---------------------------------------------------------------------
  // Specification: the transitions on views
  // ---------------------------------------------------------------------

  /** How an operator moves the mode. */
  function OperatorMode(m: Mode): Mode
  {
    match m
    case Input => Error
    case Imperial => Input
    case Scalar => Input
    case Error => Error
  }

  /** `slice(0, -1)`: the text without its last character ("" stays ""). */
  function DropLast(s: string): (r: string)
    ensures |s| > 0 ==> s == r + [s[|s| - 1]]
    ensures |s| == 0 ==> r == ""
  {
    if |s| == 0 then s else s[..|s| - 1]
  }

  function BackspaceStep(v: StateView): StateView
  {
    match v.activePad
    case None => v
    case Some(ScalarField) => v.(scalar := DropLast(v.scalar))
    case Some(FeetField) => v.(feet := v.feet.(whole := v.feet.whole / 10))
    case Some(InchesField) => v.(inches := v.inches.(whole := v.inches.whole / 10))
  }

  function ControlStep(v: StateView, key: string): StateView
  {
    if key == "Clear" then Initial.(fractionDenominator := v.fractionDenominator)
    else if key == "Backspace" then BackspaceStep(v)
    else v
  }

  function ScalarStep(v: StateView, key: string): StateView
  {
    var v1 := v.(activePad := Some(ScalarField));
    if v1.currentState == Mode.Imperial then v1.(currentState := Error)
    else
      var v2 := if v1.currentState == Input then v1.(currentState := Mode.Scalar) else v1;
      v2.(scalar := AppendScalarKey(v2.scalar, key))
  }

  /** A feet or inches key applied to that pad's value. */
  function ApplyImperialKey(cur: InputValue, key: string): InputValue
  {
    if '/' in key then
      match FractionParts(key)
      case Some((n, d)) => cur.(numerator := n, denominator := d)
      case None => cur
    else if IsDigitKey(key) then cur.(whole := ShiftAdd(cur.whole, key))
    else cur
  }

  function ImperialStep(v: StateView, t: InputToken): StateView
    requires t.pad == Feet || t.pad == Inches
  {
    var field := if t.pad == Feet then FeetField else InchesField;
    var v1 := v.(activePad := Some(field));
    var v2 := if v1.currentState == Input then v1.(currentState := Mode.Imperial) else v1;
    if t.pad == Feet then v2.(feet := ApplyImperialKey(v2.feet, t.key))
    else v2.(inches := ApplyImperialKey(v2.inches, t.key))
  }

  function InputStep(v: StateView, t: InputToken): StateView
  {
    if t.pad == Pad.Scalar then ScalarStep(v, t.key)
    else if t.pad == Feet || t.pad == Inches then ImperialStep(v, t)
    else v
  }

  /** What `processToken` does to the view of a state. */
  function Step(v: StateView, t: InputToken): StateView
  {
    if t.pad == Control then ControlStep(v, t.key)
    else if t.pad == Pad.Operator then v.(currentState := OperatorMode(v.currentState))
    else InputStep(v, t)
  }

  /** The left fold of `Step` over a token list, as `reduce` computes it. */
  function Run(v: StateView, ts: seq<InputToken>): StateView
    decreases |ts|
  {
    if ts == [] then v else Step(Run(v, ts[..|ts| - 1]), ts[|ts| - 1])
  }

  // ---------------------------------------------------------------------
  // The operations
  // ---------------------------------------------------------------------

  method CreateInitialState() returns (s: AppStateComplete)
    ensures fresh(s.measurements)
    ensures View(s) == Initial
    ensures s.currentState == Input && s.activePad == None && s.fractionDenominator == 16
    ensures s.measurements.scalar == "" && s.measurements.feet == InputValue(0, 0, 16)
    ensures s.measurements.inches == InputValue(0, 0, 16)
  {
    var m := new Measurements();
    s := AppStateComplete(Input, m, None, 16, "");
  }

  function CreateToken(pad: Pad, key: string): (t: InputToken)
    ensures t.pad == pad && t.key == key
  {
    InputToken(pad, key)
  }

  method ProcessToken(state: AppStateComplete, token: InputToken) returns (r: AppStateComplete)
    modifies state.measurements
    ensures View(r) == Step(old(View(state)), token)
    ensures IsClear(token) ==> fresh(r.measurements) && unchanged(state.measurements)
    ensures !IsClear(token) ==> r.measurements == state.measurements
  {
    if token.pad == Control {
      r := ProcessControlToken(state, token);
      return;
    }
    if token.pad == Pad.Operator {
      r := ProcessOperatorToken(state, token);
      return;
    }
    r := ProcessInputToken(state, token);
  }

  method ProcessControlToken(state: AppStateComplete, token: InputToken) returns (r: AppStateComplete)
    modifies state.measurements
    ensures View(r) == ControlStep(old(View(state)), token.key)
    ensures token.key == "Clear" ==> fresh(r.measurements) && unchanged(state.measurements)
    ensures token.key != "Clear" ==> r.measurements == state.measurements
  {
    if token.key == "Clear" {
      var init := CreateInitialState();
      r := init.(fractionDenominator := state.fractionDenominator);
      return;
    }
    if token.key == "Backspace" {
      r := ProcessBackspace(state);
      return;
    }
    r := state;
  }

  /** Built by spreading: only the mode changes, and the measurements object is shared. */
  function ProcessOperatorToken(state: AppStateComplete, token: InputToken): (r: AppStateComplete)
    ensures r == state.(currentState := OperatorMode(state.currentState))
  {
    if state.currentState == Input then state.(currentState := Error)
    else if state.currentState == Mode.Imperial || state.currentState == Mode.Scalar then
      state.(currentState := Input)
    else state
  }

  method ProcessInputToken(state: AppStateComplete, token: InputToken) returns (r: AppStateComplete)
    modifies state.measurements
    ensures View(r) == InputStep(old(View(state)), token)
    ensures r.measurements == state.measurements
  {
    var newState := state;
    if token.pad == Pad.Scalar {
      r := ProcessScalarToken(newState, token);
      return;
    }
    if token.pad == Feet || token.pad == Inches {
      r := ProcessImperialToken(newState, token);
      return;
    }
    r := newState;
  }

  method ProcessScalarToken(state: AppStateComplete, token: InputToken) returns (r: AppStateComplete)
    modifies state.measurements
    ensures View(r) == ScalarStep(old(View(state)), token.key)
    ensures r.measurements == state.measurements
  {
    var s := state.(activePad := Some(ScalarField));
    if s.currentState == Mode.Imperial {
      r := s.(currentState := Error);
      return;
    }
    if s.currentState == Input {
      s := s.(currentState := Mode.Scalar);
    }
    var currentValue := s.measurements.scalar;
    if token.key == "." {
      if '.' !in currentValue {
        s.measurements.scalar := currentValue + ".";
      }
    } else if IsDigitKey(token.key) {
      s.measurements.scalar := currentValue + token.key;
    }
    r := s;
  }

  method ProcessImperialToken(state: AppStateComplete, token: InputToken) returns (r: AppStateComplete)
    requires token.pad == Feet || token.pad == Inches
    modifies state.measurements
    ensures View(r) == ImperialStep(old(View(state)), token)
    ensures r.measurements == state.measurements
  {
    var padType := if token.pad == Feet then FeetField else InchesField;
    var s := state.(activePad := Some(padType));
    if s.currentState == Input {
      s := s.(currentState := Mode.Imperial);
    }
    var currentValue := if padType == FeetField then s.measurements.feet else s.measurements.inches;
    if '/' in token.key {
      var parts := FractionParts(token.key);
      if parts.Some? {
        var next := currentValue.(numerator := parts.value.0, denominator := parts.value.1);
        if padType == FeetField { s.measurements.feet := next; } else { s.measurements.inches := next; }
      }
    } else if IsDigitKey(token.key) {
      var next := currentValue.(whole := ShiftAdd(currentValue.whole, token.key));
      if padType == FeetField { s.measurements.feet := next; } else { s.measurements.inches := next; }
    }
    r := s;
  }

  method ProcessBackspace(state: AppStateComplete) returns (r: AppStateComplete)
    modifies state.measurements
    ensures View(r) == BackspaceStep(old(View(state)))
    ensures r.measurements == state.measurements
  {
    if state.activePad.None? {
      r := state;
      return;
    }
    var newState := state;
    var pad := state.activePad.value;
    if pad == ScalarField {
      var currentValue := newState.measurements.scalar;
      newState.measurements.scalar := DropLast(currentValue);
    } else {
      var currentValue := if pad == FeetField then newState.measurements.feet else newState.measurements.inches;
      var next := currentValue.(whole := currentValue.whole / 10);
      if pad == FeetField { newState.measurements.feet := next; } else { newState.measurements.inches := next; }
    }
    r := newState;
  }

  /**
   * `tokens.reduce(processToken, initialState)`. Until a Clear comes along,
   * every intermediate state shares the measurements object of `initialState`,
   * so the caller's object ends up holding the values reached just before the
   * first Clear (all of `tokens` when there is none).
   */
  method ProcessTokens(initialState: AppStateComplete, tokens: seq<InputToken>) returns (r: AppStateComplete)
    modifies initialState.measurements
    ensures View(r) == Run(old(View(initialState)), tokens)
    ensures NoClear(tokens) ==> r.measurements == initialState.measurements
    ensures !NoClear(tokens) ==> fresh(r.measurements)
    ensures Holds(initialState.measurements, Run(old(View(initialState)), tokens[..FirstClear(tokens)]))
  {
    r := initialState;
    var i := 0;
    while i < |tokens|
      invariant 0 <= i <= |tokens|
      invariant View(r) == Run(old(View(initialState)), tokens[..i])
      invariant NoClear(tokens[..i]) ==> r.measurements == initialState.measurements
      invariant !NoClear(tokens[..i]) ==> fresh(r.measurements)
      invariant !NoClear(tokens[..i]) ==>
        Holds(initialState.measurements, Run(old(View(initialState)), tokens[..FirstClear(tokens)]))
    {
      PrefixStep(old(View(initialState)), tokens, i);
      if NoClear(tokens[..i]) && IsClear(tokens[i]) {
        FirstClearAt(tokens, i);
      }
      r := ProcessToken(r, tokens[i]);
      i := i + 1;
    }
    assert tokens[..i] == tokens;
  }

  /** One more token: one more step, and one more token that may be a Clear. */
  lemma PrefixStep(v: StateView, ts: seq<InputToken>, i: nat)
    requires i < |ts|
    ensures Run(v, ts[..i + 1]) == Step(Run(v, ts[..i]), ts[i])
    ensures NoClear(ts[..i + 1]) <==> NoClear(ts[..i]) && !IsClear(ts[i])
  {
    assert ts[..i + 1][..i] == ts[..i];
    assert ts[..i + 1][i] == ts[i];
  }

  // ---------------------------------------------------------------------
  // Properties of the transitions
  // ---------------------------------------------------------------------

  /** Clear starts over but keeps the chosen fraction denominator; other control keys change nothing. */
  lemma ControlTokens(v: StateView, t: InputToken)
    requires t.pad == Control
    ensures t.key == "Clear" ==> Step(v, t) == Initial.(fractionDenominator := v.fractionDenominator)
    ensures t.key != "Clear" && t.key != "Backspace" ==> Step(v, t) == v
  {
  }

  /** An operator ends the operand: Imperial or Scalar go to Input, Input goes to Error, Error stays; values are kept. */
  lemma OperatorTokens(v: StateView, t: InputToken)
    requires t.pad == Pad.Operator
    ensures Step(v, t).currentState == (match v.currentState
                                          case Input => Error
                                          case Imperial => Input
                                          case Scalar => Input
                                          case Error => Error)
    ensures Step(v, t) == v.(currentState := Step(v, t).currentState)
  {
  }

  /** A scalar key in Imperial mode is an error: the pad becomes scalar but its text is not touched. */
  lemma ScalarTokenInImperialMode(v: StateView, t: InputToken)
    requires t.pad == Pad.Scalar && v.currentState == Mode.Imperial
    ensures Step(v, t) == v.(currentState := Error, activePad := Some(ScalarField))
  {
  }

  /** Otherwise a digit is appended, '.' only when there is none yet, and other keys are ignored. */
  lemma ScalarTokenAppends(v: StateView, t: InputToken)
    requires t.pad == Pad.Scalar && v.currentState != Mode.Imperial
    ensures Step(v, t).activePad == Some(ScalarField)
    ensures Step(v, t).currentState == if v.currentState == Input then Mode.Scalar else v.currentState
    ensures IsDigitKey(t.key) ==> Step(v, t).scalar == v.scalar + t.key
    ensures t.key == "." ==> Step(v, t).scalar == if '.' in v.scalar then v.scalar else v.scalar + "."
    ensures !IsDigitKey(t.key) && t.key != "." ==> Step(v, t).scalar == v.scalar
    ensures Step(v, t).feet == v.feet && Step(v, t).inches == v.inches
  {
  }

  /**
   * A feet or inches key makes that pad active and Input becomes Imperial; a
   * digit shifts into `whole`, an "n/d" key replaces the fraction and keeps
   * `whole`, and the other pad and the scalar text are not touched.
   */
  lemma ImperialTokens(v: StateView, t: InputToken)
    requires t.pad == Feet || t.pad == Inches
    ensures var r := Step(v, t);
      && r.activePad == Some(if t.pad == Feet then FeetField else InchesField)
      && r.currentState == (if v.currentState == Input then Mode.Imperial else v.currentState)
      && r.scalar == v.scalar
      && (t.pad == Feet ==> r.inches == v.inches)
      && (t.pad == Inches ==> r.feet == v.feet)
    ensures var before := if t.pad == Feet then v.feet else v.inches;
      var after := if t.pad == Feet then Step(v, t).feet else Step(v, t).inches;
      && ('/' !in t.key && IsDigitKey(t.key) ==>
            after == before.(whole := before.whole * 10 + DigitValue(t.key[0])))
      && (forall n: nat, d: nat :: t.key == NatToString(n) + "/" + NatToString(d) ==>
            after == InputValue(before.whole, n, d))
  {
    forall n: nat, d: nat | t.key == NatToString(n) + "/" + NatToString(d) {
      FractionKeyRoundTrip(n, d);
    }
  }

  /** Backspace: nothing without an active pad, drops the last scalar character, or drops the last digit of `whole`. */
  lemma BackspaceTokens(v: StateView, t: InputToken)
    requires t.pad == Control && t.key == "Backspace"
    ensures v.activePad == None ==> Step(v, t) == v
    ensures v.activePad == Some(ScalarField) ==>
      Step(v, t) == v.(scalar := if v.scalar == "" then "" else v.scalar[..|v.scalar| - 1])
    ensures v.activePad == Some(FeetField) ==>
      Step(v, t) == v.(feet := InputValue(v.feet.whole / 10, v.feet.numerator, v.feet.denominator))
    ensures v.activePad == Some(InchesField) ==>
      Step(v, t) == v.(inches := InputValue(v.inches.whole / 10, v.inches.numerator, v.inches.denominator))
  {
  }

  /** Processing `a + b` is processing `b` from where `a` left off. */
  lemma {:induction false} RunAppend(v: StateView, a: seq<InputToken>, b: seq<InputToken>)
    ensures Run(v, a + b) == Run(Run(v, a), b)
    decreases |b|
  {
    if b == [] {
      assert a + b == a;
    } else {
      var b' := b[..|b| - 1];
      assert (a + b)[..|a + b| - 1] == a + b';
      assert (a + b)[|a + b| - 1] == b[|b| - 1];
      RunAppend(v, a, b');
    }
  }

  /** No token changes the chosen fraction denominator. */
  lemma {:induction false} RunKeepsFractionDenominator(v: StateView, ts: seq<InputToken>)
    ensures Run(v, ts).fractionDenominator == v.fractionDenominator
    decreases |ts|
  {
    if ts != [] {
      RunKeepsFractionDenominator(v, ts[..|ts| - 1]);
    }
  }

  /** After a Clear, nothing typed before it matters except the chosen fraction denominator. */
  lemma ClearForgetsHistory(v: StateView, a: seq<InputToken>, c: InputToken, b: seq<InputToken>)
    requires IsClear(c)
    ensures Run(v, a + [c] + b) == Run(Initial.(fractionDenominator := v.fractionDenominator), b)
  {
    RunAppend(v, a + [c], b);
    RunAppend(v, a, [c]);
    assert Run(Run(v, a), [c]) == Step(Run(Run(v, a), []), c);
    RunKeepsFractionDenominator(v, a);
  }

  lemma StepKeepsAtMostOneDot(v: StateView, t: InputToken)
    requires AtMostOneDot(v.scalar)
    ensures AtMostOneDot(Step(v, t).scalar)
  {
  }

  /** The scalar text never holds two '.' characters. */
  lemma {:induction false} RunKeepsAtMostOneDot(ts: seq<InputToken>)
    ensures AtMostOneDot(Run(Initial, ts).scalar)
    decreases |ts|
  {
    if ts != [] {
      RunKeepsAtMostOneDot(ts[..|ts| - 1]);
      StepKeepsAtMostOneDot(Run(Initial, ts[..|ts| - 1]), ts[|ts| - 1]);
    }
  }
}
