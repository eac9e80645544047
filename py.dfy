/**
  The slice of Python the bot relies on: values decoded from the service's
  JSON replies, the built-in exceptions the bot does not catch, and how
  `str()` (and so an f-string) renders a value.
 */
module Py {

  datatype Option<T> = None | Some(value: T)

  /** A decoded JSON value (floats are not modelled). */
  datatype Json =
    | JNull
    | JBool(b: bool)
    | JInt(i: int)
    | JStr(s: string)
    | JList(items: seq<Json>)
    | JObject(fields: map<string, Json>)

  /** Built-in exceptions that the code can raise but never handles. */
  datatype PyError = KeyError | IndexError | TypeError | AttributeError

  /** `d.get(key)`: the value under `key`, or None when it is missing. */
  function Get(fields: map<string, Json>, key: string): Json
  {
    if key in fields then fields[key] else JNull
  }

  /** Python's `sub in s` on two strings. */
  predicate IsSubstring(sub: string, s: string)
    decreases |s|
  {
    |sub| <= |s| && (s[..|sub|] == sub || IsSubstring(sub, s[1..]))
  }

  predicate IsDigit(c: char)
  {
    '0' <= c <= '9'
  }

  predicate AllDigits(s: string)
  {
    forall i :: 0 <= i < |s| ==> IsDigit(s[i])
  }

  function Digit(d: nat): (c: char)
    requires d < 10
    ensures IsDigit(c) && c as int - '0' as int == d
  {
    (48 + d) as char
  }

  /** The decimal digits of `n`, most significant first, without leading zeros. */
  function NatToDecimal(n: nat): (s: string)
    ensures 1 <= |s| && AllDigits(s)
    ensures |s| > 1 ==> s[0] != '0'
    decreases n
  {
    if n < 10 then [Digit(n)] else NatToDecimal(n / 10) + [Digit(n % 10)]
  }

  /** The number a string of decimal digits stands for. */
  function DecimalValue(s: string): nat
    requires AllDigits(s)
    decreases |s|
  {
    if s == [] then 0
    else DecimalValue(s[..|s| - 1]) * 10 + (s[|s| - 1] as int - '0' as int)
  }

  lemma {:induction false} DecimalRoundTrip(n: nat)
    ensures DecimalValue(NatToDecimal(n)) == n
    decreases n
  {
    if n >= 10 {
      DecimalRoundTrip(n / 10);
      var s := NatToDecimal(n);
      assert s[..|s| - 1] == NatToDecimal(n / 10);
    }
  }

  /** `str(i)` for an integer. */
  function IntToDecimal(i: int): string
  {
    if i < 0 then "-" + NatToDecimal(-i) else NatToDecimal(i)
  }

  /** `int(s)` for the strings `str` produces; None for anything else. */
  function DecimalToInt(s: string): Option<int>
  {
    if |s| >= 2 && s[0] == '-' && AllDigits(s[1..]) then
      var magnitude: int := DecimalValue(s[1..]);
      Some(-magnitude)
    else if |s| >= 1 && AllDigits(s) then Some(DecimalValue(s))
    else None
  }

  /** Reading back what `str` wrote gives the integer again. */
  lemma IntRoundTrip(i: int)
    ensures DecimalToInt(IntToDecimal(i)) == Some(i)
  {
    if i < 0 {
      var t := NatToDecimal(-i);
      var s := "-" + t;
      assert s == IntToDecimal(i);
      assert s[1..] == t;
      DecimalRoundTrip(-i);
      assert DecimalToInt(s) == Some(i);
    } else {
      var s := NatToDecimal(i);
      assert s == IntToDecimal(i);
      assert IsDigit(s[0]);
      DecimalRoundTrip(i);
      assert DecimalToInt(s) == Some(DecimalValue(s));
    }
  }

  /** `str(v)`, as used by an f-string placeholder. */
  function Display(v: Json): (s: string)
    ensures v.JStr? ==> s == v.s
    ensures v.JInt? ==> DecimalToInt(s) == Some(v.i)
    ensures v.JNull? ==> s == "None"
    ensures v.JBool? ==> s == if v.b then "True" else "False"
  {
    match v
    case JNull => "None"
    case JBool(b) => if b then "True" else "False"
    case JInt(i) => IntRoundTrip(i); IntToDecimal(i)
    case JStr(s) => s
    case JList(_) => "[...]"
    case JObject(_) => "{...}"
  }
}
