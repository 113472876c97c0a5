/**
 * The slice of JavaScript value semantics the bridge relies on: dynamically
 * typed values as they arrive from JSON bodies, query strings and Homey
 * capability storage; truthiness; `String(v)`; `parseInt` and `parseFloat`
 * (decimal notation); `Math.round`; `Math.max(0, Math.min(1, x))`;
 * `toLowerCase` and `includes` on strings.
 */
module Js {
  import opened Wrappers

  /** A JavaScript value. Numbers are exact reals; NaN is its own case. */
  datatype JsValue =
    | Undefined
    | Null
    | Bool(b: bool)
    | Num(x: real)
    | NaN
    | Str(s: string)
    | Obj(fields: map<string, JsValue>)

  /** JavaScript truthiness: `if (v)` and `v || w`. */
  predicate Truthy(v: JsValue) {
    match v
    case Undefined => false
    case Null => false
    case Bool(b) => b
    case Num(x) => x != 0.0
    case NaN => false
    case Str(s) => s != ""
    case Obj(_) => true
  }

  /** Property read `v.key`; a primitive has none of the properties read here. */
  function Get(v: JsValue, key: string): (r: JsValue)
    ensures v.Obj? && key in v.fields ==> r == v.fields[key]
    ensures !(v.Obj? && key in v.fields) ==> r == Undefined
  {
    match v
    case Obj(m) => if key in m then m[key] else Undefined
    case _ => Undefined
  }

  // ---------------------------------------------------------------------
  // Decimal digits

  predicate IsDigit(c: char) { '0' <= c <= '9' }

  predicate AllDigits(s: string) { forall i :: 0 <= i < |s| ==> IsDigit(s[i]) }

  function DigitValue(c: char): nat
    requires IsDigit(c)
  {
    c as int - '0' as int
  }

  function DigitChar(d: nat): (c: char)
    requires d < 10
    ensures IsDigit(c) && DigitValue(c) == d
  {
    ('0' as int + d) as char
  }

  /** Decimal text of a natural number, without leading zeros. */
  function NatText(n: nat): (r: string)
    ensures |r| >= 1 && AllDigits(r)
  {
    if n < 10 then [DigitChar(n)] else NatText(n / 10) + [DigitChar(n % 10)]
  }

  /** Decimal text of an integer, as `String(n)` renders it. */
  function IntText(n: int): string {
    if n < 0 then "-" + NatText(-n) else NatText(n)
  }

  /** The value of a run of decimal digits, most significant first. */
  function DigitsValue(ds: string): nat
    requires AllDigits(ds)
  {
    if |ds| == 0 then 0 else DigitsValue(ds[..|ds| - 1]) * 10 + DigitValue(ds[|ds| - 1])
  }

  /** The value of the digits after a decimal point. */
  function FractionValue(ds: string): real
    requires AllDigits(ds)
  {
    if |ds| == 0 then 0.0 else (DigitValue(ds[0]) as real + FractionValue(ds[1..])) / 10.0
  }

  /** The longest prefix of `s` made of decimal digits. */
  function DigitRun(s: string): (r: string)
    ensures r <= s && AllDigits(r)
    ensures |r| < |s| ==> !IsDigit(s[|r|])
  {
    if |s| > 0 && IsDigit(s[0]) then [s[0]] + DigitRun(s[1..]) else ""
  }

  /** `count` digits of the fraction `f`, most significant first. */
  function FractionDigits(f: real, count: nat): (r: string)
    requires 0.0 <= f < 1.0
    ensures |r| == count && AllDigits(r)
    decreases count
  {
    if count == 0 then ""
    else
      var d := (f * 10.0).Floor;
      [DigitChar(d)] + FractionDigits(f * 10.0 - d as real, count - 1)
  }

  function TrimTrailingZeros(s: string): string {
    if |s| > 0 && s[|s| - 1] == '0' then TrimTrailingZeros(s[..|s| - 1]) else s
  }

  /**
   * `String(x)` for a finite number, in positional notation. Integral values
   * are exact; other values carry at most twenty fraction digits.
   */
  function NumberText(x: real): string {
    if x == x.Floor as real then IntText(x.Floor)
    else
      var magnitude := if x < 0.0 then -x else x;
      var whole := magnitude.Floor;
      var fraction := TrimTrailingZeros(FractionDigits(magnitude - whole as real, 20));
      var sign := if x < 0.0 then "-" else "";
      if fraction == "" then sign + NatText(whole) else sign + NatText(whole) + "." + fraction
  }

  /** `String(v)`. */
  function ToString(v: JsValue): string {
    match v
    case Undefined => "undefined"
    case Null => "null"
    case Bool(b) => if b then "true" else "false"
    case Num(x) => NumberText(x)
    case NaN => "NaN"
    case Str(s) => s
    case Obj(_) => "[object Object]"
  }

  // ---------------------------------------------------------------------
  // parseInt / parseFloat

  predicate IsSpace(c: char) {
    c == ' ' || c == '\t' || c == '\n' || c == '\r' || c == '\U{000B}' || c == '\U{000C}'
  }

  function TrimStart(s: string): (r: string)
    ensures |r| <= |s|
    ensures |r| > 0 ==> !IsSpace(r[0])
  {
    if |s| > 0 && IsSpace(s[0]) then TrimStart(s[1..]) else s
  }

  /** The text after an optional leading sign. */
  function Unsigned(t: string): string {
    if |t| > 0 && (t[0] == '-' || t[0] == '+') then t[1..] else t
  }

  predicate Negative(t: string) { |t| > 0 && t[0] == '-' }

  /** `parseInt(s)` on text, decimal digits only; None stands for NaN. */
  function ParseIntText(s: string): Option<int> {
    var t := TrimStart(s);
    var ds := DigitRun(Unsigned(t));
    if ds == "" then None
    else if Negative(t) then Some(-(DigitsValue(ds) as int))
    else Some(DigitsValue(ds))
  }

  /** `parseInt(v)`: the argument is first converted with `String(v)`. */
  function ParseInt(v: JsValue): Option<int> {
    ParseIntText(ToString(v))
  }

  /** `parseFloat(s)` on text without exponent; None stands for NaN. */
  function ParseFloatText(s: string): Option<real> {
    var t := TrimStart(s);
    var body := Unsigned(t);
    var whole := DigitRun(body);
    var rest := body[|whole|..];
    var fraction := if |rest| > 0 && rest[0] == '.' then DigitRun(rest[1..]) else "";
    if whole == "" && fraction == "" then None
    else
      var magnitude := DigitsValue(whole) as real + FractionValue(fraction);
      Some(if Negative(t) then -magnitude else magnitude)
  }

  function ParseFloat(v: JsValue): Option<real> {
    ParseFloatText(ToString(v))
  }

  /** A parse result as a JavaScript number. */
  function NumberOrNaN(r: Option<real>): JsValue {
    match r
    case Some(x) => Num(x)
    case None => NaN
  }

  /** `parseFloat(v)` as a JavaScript value. */
  function FloatValue(v: JsValue): (r: JsValue)
    ensures r.Num? || r.NaN?
  {
    NumberOrNaN(ParseFloat(v))
  }

  /** `parseInt(v) / 100` as a JavaScript value. */
  function HundredthsValue(v: JsValue): (r: JsValue)
    ensures r.Num? || r.NaN?
  {
    match ParseInt(v)
    case Some(n) => Num(n as real / 100.0)
    case None => NaN
  }

  // ---------------------------------------------------------------------
  // Number helpers

  /** `Math.round(x)`: the nearest integer, halves rounded up. */
  function Round(x: real): int {
    (x + 0.5).Floor
  }

  /** `Math.max(0, Math.min(1, x))` for a number. */
  function Clamp01(x: real): (r: real)
    ensures 0.0 <= r <= 1.0
    ensures 0.0 <= x <= 1.0 ==> r == x
    ensures x < 0.0 ==> r == 0.0
    ensures x > 1.0 ==> r == 1.0
  {
    if x < 0.0 then 0.0 else if x > 1.0 then 1.0 else x
  }

  /** `Math.max(0, Math.min(1, v))` where `v` may be NaN. */
  function ClampValue(v: JsValue): (r: JsValue)
    requires v.Num? || v.NaN?
    ensures v.NaN? ==> r.NaN?
    ensures v.Num? ==> r == Num(Clamp01(v.x))
  {
    if v.Num? then Num(Clamp01(v.x)) else NaN
  }

  function Abs(x: real): real { if x < 0.0 then -x else x }

  /**
   * Numeric coercion of a stored capability value (`v * 100`, `v || 0` on
   * number-valued capabilities): an unset capability reads as null, which
   * coerces to 0.
   */
  function NumericValue(v: Option<JsValue>): (r: JsValue)
    ensures r.Num? || r.NaN?
  {
    match v
    case None => Num(0.0)
    case Some(Null) => Num(0.0)
    case Some(Num(x)) => Num(x)
    case Some(Bool(b)) => Num(if b then 1.0 else 0.0)
    case Some(_) => NaN
  }

  /** `Math.round(v * 100)` on a number that may be NaN. */
  function PercentOf(v: JsValue): (r: JsValue)
    requires v.Num? || v.NaN?
    ensures r.Num? || r.NaN?
  {
    if v.Num? then Num(Round(v.x * 100.0) as real) else NaN
  }

  // ---------------------------------------------------------------------
  // Strings

  function LowerChar(c: char): char {
    if 'A' <= c <= 'Z' then (c as int + 32) as char else c
  }

  /** `s.toLowerCase()` on ASCII letters. */
  function ToLower(s: string): (r: string)
    ensures |r| == |s|
    ensures forall i :: 0 <= i < |s| ==> r[i] == LowerChar(s[i])
  {
    seq(|s|, i requires 0 <= i < |s| => LowerChar(s[i]))
  }

  /** `haystack.includes(needle)`. */
  predicate Contains(haystack: string, needle: string) {
    needle <= haystack || (|haystack| > 0 && Contains(haystack[1..], needle))
  }

  // ---------------------------------------------------------------------
  // Lemmas

  /** A needle found in a suffix is found in the whole string. */
  lemma {:induction false} ContainsInSuffix(haystack: string, needle: string, k: nat)
    requires k <= |haystack| && Contains(haystack[k..], needle)
    ensures Contains(haystack, needle)
    decreases k
  {
    if k > 0 {
      assert haystack[1..][k - 1..] == haystack[k..];
      ContainsInSuffix(haystack[1..], needle, k - 1);
    }
  }

  lemma RoundBounds(x: real)
    ensures x - 0.5 < Round(x) as real <= x + 0.5
  {
  }

  lemma RoundOfInteger(n: int)
    ensures Round(n as real) == n
  {
  }

  lemma {:induction false} NatTextValue(n: nat)
    ensures DigitsValue(NatText(n)) == n
  {
    if n >= 10 {
      var prefix := NatText(n / 10);
      var text := prefix + [DigitChar(n % 10)];
      assert text[..|text| - 1] == prefix;
      NatTextValue(n / 10);
    }
  }

  lemma {:induction false} DigitRunOfDigits(s: string)
    requires AllDigits(s)
    ensures DigitRun(s) == s
  {
    if |s| > 0 {
      DigitRunOfDigits(s[1..]);
      assert [s[0]] + s[1..] == s;
    }
  }

  lemma TrimStartOfNonSpace(s: string)
    requires |s| > 0 && !IsSpace(s[0])
    ensures TrimStart(s) == s
  {
  }

  /** `parseInt(String(n)) == n` for every integer. */
  lemma IntTextRoundTrip(n: int)
    ensures ParseIntText(IntText(n)) == Some(n)
  {
    var magnitude: nat := if n < 0 then -n else n;
    var digits := NatText(magnitude);
    DigitRunOfDigits(digits);
    NatTextValue(magnitude);
    TrimStartOfNonSpace(IntText(n));
    if n < 0 {
      assert ("-" + digits)[1..] == digits;
    } else {
      assert IsDigit(digits[0]);
    }
  }

  /** `parseInt` of an integer-valued number gives the integer back. */
  lemma ParseIntOfInteger(n: int)
    ensures ParseInt(Num(n as real)) == Some(n)
  {
    assert (n as real).Floor == n;
    IntTextRoundTrip(n);
  }

  /** `parseFloat(String(n)) == n` for every integer. */
  lemma IntTextFloatRoundTrip(n: int)
    ensures ParseFloatText(IntText(n)) == Some(n as real)
  {
    var magnitude: nat := if n < 0 then -n else n;
    var digits := NatText(magnitude);
    DigitRunOfDigits(digits);
    NatTextValue(magnitude);
    TrimStartOfNonSpace(IntText(n));
    if n < 0 {
      assert ("-" + digits)[1..] == digits;
    } else {
      assert IsDigit(digits[0]);
    }
    assert digits[|digits|..] == "";
  }

  /** `parseFloat` of an integer-valued number gives the number back. */
  lemma ParseFloatOfInteger(n: int)
    ensures ParseFloat(Num(n as real)) == Some(n as real)
  {
    assert (n as real).Floor == n;
    IntTextFloatRoundTrip(n);
  }

  /** Text with no digit at all parses to NaN. */
  lemma ParseIntWithoutDigits(s: string)
    requires forall i :: 0 <= i < |s| ==> !IsDigit(s[i])
    ensures ParseIntText(s) == None
  {
    var t := TrimStart(s);
    TrimStartIsSuffix(s);
    var u := Unsigned(t);
    assert |u| > 0 ==> !IsDigit(u[0]) by {
      if |u| > 0 {
        assert u[0] == t[|t| - |u|];
        assert t[|t| - |u|] == s[|s| - |t| + |t| - |u|];
      }
    }
  }

  lemma {:induction false} TrimStartIsSuffix(s: string)
    ensures TrimStart(s) == s[|s| - |TrimStart(s)|..]
  {
    if |s| > 0 && IsSpace(s[0]) {
      TrimStartIsSuffix(s[1..]);
    }
  }
}
