/**
 * The fragment of JavaScript value semantics that the hooks, handlers and
 * components rely on: values as they appear in documents and JSON bodies,
 * truthiness (`if (x)`, `x || y`), property reads, `String(x)`, the Fetch
 * API's `response.ok`, and `parseInt(s, 10)`.
 * Numbers are restricted to integers.
 */
module Js {
  import opened Wrappers

  datatype Value =
    | Undefined
    | Null
    | Bool(b: bool)
    | Num(n: int)
    | Str(s: string)
    | Arr(elems: seq<Value>)
    | Obj(fields: map<string, Value>)

  /** What a `throw` or a rejected promise carries: an `Error` instance or any other value. */
  datatype Thrown = ErrorObject(message: string) | NonError(value: Value)

  /** The outcome of `await response.json()`: it rejects, or yields a value. */
  datatype JsonBody = NotJson(error: Thrown) | Json(value: Value)

  /** JavaScript truthiness. */
  predicate Truthy(v: Value) {
    match v
    case Undefined => false
    case Null => false
    case Bool(b) => b
    case Num(n) => n != 0
    case Str(s) => s != ""
    case Arr(_) => true
    case Obj(_) => true
  }

  /** `a || b`. */
  function Or(a: Value, b: Value): Value {
    if Truthy(a) then a else b
  }

  /** `v?.key`: a missing key, or a value that is not an object, reads as `undefined`. */
  function Get(v: Value, key: string): Value {
    if v.Obj? && key in v.fields then v.fields[key] else Undefined
  }

  /** An optional environment variable as an `Undefined`-or-string value. */
  function EnvValue(e: Option<string>): Value {
    match e
    case None => Undefined
    case Some(s) => Str(s)
  }

  /** `response.ok` of the Fetch API: the status is in the range 200-299. */
  predicate OkStatus(status: nat) {
    200 <= status <= 299
  }

  predicate IsDigit(c: char) {
    '0' <= c <= '9'
  }

  predicate AllDigits(s: string) {
    forall i :: 0 <= i < |s| ==> IsDigit(s[i])
  }

  function DigitChar(d: nat): (c: char)
    requires d < 10
    ensures IsDigit(c) && DigitOf(c) == d
  {
    (('0' as int) + d) as char
  }

  function DigitOf(c: char): nat
    requires IsDigit(c)
  {
    (c as int) - ('0' as int)
  }

  /** The decimal numeral of `n`, as `String(n)` writes it: digits only, no leading zero. */
  function DecimalString(n: nat): (s: string)
    ensures |s| >= 1 && AllDigits(s)
    ensures s[0] == '0' ==> n == 0
    decreases n
  {
    if n < 10 then [DigitChar(n)] else DecimalString(n / 10) + [DigitChar(n % 10)]
  }

  /** `String(n)` for an integer. */
  function IntString(n: int): string {
    if n < 0 then "-" + DecimalString(-n) else DecimalString(n)
  }

  /** `String(v)`, as used by template literals and by `new Error(v)`. */
  function ToJsString(v: Value): string {
    match v
    case Undefined => "undefined"
    case Null => "null"
    case Bool(b) => if b then "true" else "false"
    case Num(n) => IntString(n)
    case Str(s) => s
    case Arr(elems) => JoinElements(elems)
    case Obj(_) => "[object Object]"
  }

  /** `Array.prototype.join(",")`: `null` and `undefined` elements contribute the empty string. */
  function JoinElements(elems: seq<Value>): string {
    if elems == [] then ""
    else
      (if elems[0].Undefined? || elems[0].Null? then "" else ToJsString(elems[0]))
      + (if |elems| > 1 then "," else "")
      + JoinElements(elems[1..])
  }

  // ---- parseInt(s, 10) ----

  /** The white-space characters `parseInt` skips (the ASCII ones). */
  predicate IsSpace(c: char) {
    c == ' ' || c == '\t' || c == '\n' || c == '\r' || c == '\U{B}' || c == '\U{C}'
  }

  function SkipSpace(s: string): (r: string)
    ensures |r| <= |s| && (r == [] || !IsSpace(r[0]))
  {
    if s != [] && IsSpace(s[0]) then SkipSpace(s[1..]) else s
  }

  /** The longest prefix of `s` made of decimal digits. */
  function LeadingDigits(s: string): (r: string)
    ensures AllDigits(r) && |r| <= |s| && r == s[..|r|]
  {
    if s == [] || !IsDigit(s[0]) then [] else [s[0]] + LeadingDigits(s[1..])
  }

  /** The number a string of decimal digits denotes. */
  function DigitsValue(s: string): nat
    requires AllDigits(s)
  {
    if s == [] then 0 else DigitsValue(s[..|s| - 1]) * 10 + DigitOf(s[|s| - 1])
  }

  /** `parseInt(s, 10)`: `None` stands for `NaN` (no digit after the optional sign). */
  function ParseInt(s: string): (r: Option<int>)
    ensures s == [] ==> r.None?
    ensures r.Some? && r.value < 0 ==> SkipSpace(s) != [] && SkipSpace(s)[0] == '-'
    ensures r.Some? && SkipSpace(s) != [] && SkipSpace(s)[0] == '-' ==> r.value <= 0
  {
    var t := SkipSpace(s);
    var negative := t != [] && t[0] == '-';
    var body := if t != [] && (t[0] == '-' || t[0] == '+') then t[1..] else t;
    var digits := LeadingDigits(body);
    var magnitude: int := if digits == [] then 0 else DigitsValue(digits);
    if digits == [] then None
    else if negative then Some(-magnitude)
    else Some(magnitude)
  }

  lemma {:induction false} LeadingDigitsOfDigits(s: string)
    requires AllDigits(s)
    ensures LeadingDigits(s) == s
  {
    if s != [] {
      LeadingDigitsOfDigits(s[1..]);
    }
  }

  lemma {:induction false} DigitsValueOfDecimal(n: nat)
    ensures DigitsValue(DecimalString(n)) == n
    decreases n
  {
    var s := DecimalString(n);
    if n >= 10 {
      DigitsValueOfDecimal(n / 10);
      assert s[..|s| - 1] == DecimalString(n / 10);
    }
  }

  /** A plain string of decimal digits parses to the number it denotes. */
  lemma ParseIntOfDigits(s: string)
    requires s != [] && AllDigits(s)
    ensures ParseInt(s) == Some(DigitsValue(s))
  {
    assert !IsSpace(s[0]) && s[0] != '-' && s[0] != '+';
    assert SkipSpace(s) == s;
    LeadingDigitsOfDigits(s);
  }

  /** `parseInt` reads back every numeral that `String` writes. */
  lemma ParseIntReadsDecimal(n: int)
    ensures ParseInt(IntString(n)) == Some(n)
  {
    var s := IntString(n);
    var d := DecimalString(if n < 0 then -n else n);
    assert !IsSpace(s[0]);
    assert SkipSpace(s) == s;
    if n < 0 {
      assert s[1..] == d;
    } else {
      assert s == d && s[0] != '-' && s[0] != '+';
    }
    LeadingDigitsOfDigits(d);
    DigitsValueOfDecimal(if n < 0 then -n else n);
  }
}
