/**
 * Key texts and number texts: what the source does with `/^\d$/`, `parseInt`,
 * `split('/').map(Number)`, `includes('.')` and the rendering of whole numbers.
 */
module Text {
  import opened Wrappers

  predicate IsDigitChar(c: char)
  {
    '0' <= c <= '9'
  }

  predicate AllDigits(s: string)
  {
    forall i :: 0 <= i < |s| ==> IsDigitChar(s[i])
  }

  function DigitValue(c: char): nat
    requires IsDigitChar(c)
  {
    c as int - '0' as int
  }

  function DigitChar(d: nat): (c: char)
    requires d < 10
    ensures IsDigitChar(c) && DigitValue(c) == d
  {
    ('0' as int + d) as char
  }

  /** The test `/^\d$/.test(key)`: exactly one ASCII digit. */
  predicate IsDigitKey(key: string)
  {
    |key| == 1 && IsDigitChar(key[0])
  }

  /** The decimal value of a string of digits; the empty string is 0, as `Number("")` is. */
  function DigitsValue(s: string): nat
    requires AllDigits(s)
    decreases |s|
  {
    if s == [] then 0 else DigitsValue(s[..|s| - 1]) * 10 + DigitValue(s[|s| - 1])
  }

  /** The decimal text of a whole number, as template strings render it: no leading zeros. */
  function NatToString(n: nat): (r: string)
    ensures |r| > 0 && AllDigits(r)
    ensures DigitsValue(r) == n
    ensures |r| > 1 ==> r[0] != '0'
    decreases n
  {
    if n < 10 then [DigitChar(n)]
    else
      var p := NatToString(n / 10);
      var r := p + [DigitChar(n % 10)];
      assert r[..|r| - 1] == p;
      r
  }

  /** `Number(s)` where it gives a whole number: on a string of digits. */
  function NumberOfText(s: string): (r: Option<nat>)
    ensures r.Some? <==> AllDigits(s)
  {
    if AllDigits(s) then Some(DigitsValue(s)) else None
  }

  /** The index of the first `c` in `s`, or `|s|` when there is none. */
  function IndexOf(s: string, c: char): (i: nat)
    ensures i <= |s|
    ensures i < |s| ==> s[i] == c
    ensures forall j :: 0 <= j < i ==> s[j] != c
    ensures i == |s| <==> c !in s
  {
    if s == [] then 0
    else if s[0] == c then 0
    else 1 + IndexOf(s[1..], c)
  }

  /**
   * `const [n, d] = key.split('/').map(Number)` for a key that holds a '/':
   * the text before the first '/' and the text between it and the next '/'.
   * None when either part is not a string of digits (where `Number` gives NaN
   * or a non-whole number).
   */
  function FractionParts(key: string): Option<(nat, nat)>
    requires '/' in key
  {
    var slash := IndexOf(key, '/');
    var rest := key[slash + 1..];
    var denominatorText := rest[..IndexOf(rest, '/')];
    match (NumberOfText(key[..slash]), NumberOfText(denominatorText))
    case (Some(n), Some(d)) => Some((n, d))
    case _ => None
  }

  /** A fraction key written as "n/d" reads back as (n, d). */
  lemma FractionKeyRoundTrip(n: nat, d: nat)
    ensures '/' in NatToString(n) + "/" + NatToString(d)
    ensures FractionParts(NatToString(n) + "/" + NatToString(d)) == Some((n, d))
  {
    var sn, sd := NatToString(n), NatToString(d);
    var key := sn + "/" + sd;
    assert key[|sn|] == '/';
    assert '/' !in sn by {
      forall j | 0 <= j < |sn| ensures sn[j] != '/' {
        assert IsDigitChar(sn[j]);
      }
    }
    assert '/' !in sd by {
      forall j | 0 <= j < |sd| ensures sd[j] != '/' {
        assert IsDigitChar(sd[j]);
      }
    }
    assert IndexOf(key, '/') == |sn|;
    assert key[..|sn|] == sn;
    assert key[|sn| + 1..] == sd;
    assert sd[..IndexOf(sd, '/')] == sd;
  }

  /** `whole * 10 + parseInt(key)` for a digit key. */
  function ShiftAdd(whole: nat, key: string): (r: nat)
    requires IsDigitKey(key)
    ensures r / 10 == whole && r % 10 == DigitValue(key[0])
  {
    whole * 10 + DigitValue(key[0])
  }

  /** No two '.' characters. */
  predicate AtMostOneDot(s: string)
  {
    forall i, j :: 0 <= i < j < |s| ==> !(s[i] == '.' && s[j] == '.')
  }

  /**
   * The scalar key rule shared by the state machine and the token accumulator:
   * "." is appended only when the text has no '.', a digit is appended, any
   * other key is ignored.
   */
  function AppendScalarKey(value: string, key: string): (r: string)
    ensures key == "." ==> r == (if '.' in value then value else value + ".")
    ensures IsDigitKey(key) ==> r == value + key
    ensures key != "." && !IsDigitKey(key) ==> r == value
    ensures AtMostOneDot(value) ==> AtMostOneDot(r)
  {
    if key == "." then
      if '.' !in value then value + "." else value
    else if IsDigitKey(key) then value + key
    else value
  }

  /**
   * How the source turns numbers into text (`Number.prototype.toString`, and the
   * `toFixed(2)` square-inch text of the evaluator). Both are kept abstract:
   * every member that renders a number takes them as a parameter.
   */
  datatype TextFormat = TextFormat(numberText: real -> string, squareInchesText: real -> string)

  /** `s` ends with `suffix`. */
  predicate EndsWith(s: string, suffix: string)
  {
    |suffix| <= |s| && s[|s| - |suffix|..] == suffix
  }

  lemma PrefixOfConcat(a: string, b: string)
    ensures a <= a + b
  {
    assert (a + b)[..|a|] == a;
  }

  lemma EndsWithConcat(a: string, b: string)
    ensures EndsWith(a + b, b)
  {
    assert (a + b)[|a + b| - |b|..] == b;
  }
}
