/** JavaScript values as the module sees them once a JSON reply has been parsed,
    and the few JavaScript operators the module applies to them. */
module Js {

  datatype Option<+T> = None | Some(value: T)

  datatype Result<+T, +E> = Ok(value: T) | Err(error: E)

  /** A parsed JSON value, plus `undefined` for a field that is missing.
      Numbers are integers. Arrays and objects are opaque: `Composite` keeps only
      their string conversion (what a template literal would print). */
  datatype Json =
    | Undefined
    | Null
    | Bool(b: bool)
    | Num(n: int)
    | Str(s: string)
    | Composite(text: string)

  /** A flat JSON object: field name to value. */
  type JsObject = map<string, Json>

  /** `o.key`: a missing field reads as `undefined`. */
  function Field(o: JsObject, key: string): (v: Json)
    ensures key !in o ==> v == Undefined
  {
    if key in o then o[key] else Undefined
  }

  /** `a === b`. Every `Composite` value is a distinct parsed object, so it is
      never strictly equal to anything. */
  predicate StrictEquals(a: Json, b: Json) {
    !a.Composite? && a == b
  }

  /** JavaScript truthiness: `undefined`, `null`, `false`, `0` and `""` are falsy. */
  predicate Truthy(v: Json) {
    match v
    case Undefined => false
    case Null => false
    case Bool(b) => b
    case Num(n) => n != 0
    case Str(s) => s != ""
    case Composite(_) => true
  }

  function Digit(d: nat): (c: char)
    requires d < 10
    ensures '0' <= c <= '9'
  {
    (d + 48) as char
  }

  /** Decimal rendering of a natural number, without leading zeros. */
  function NatToDecimal(n: nat): (s: string)
    ensures |s| >= 1 && '0' <= s[0] <= '9'
    ensures n < 10 <==> |s| == 1
    decreases n
  {
    if n < 10 then [Digit(n)] else NatToDecimal(n / 10) + [Digit(n % 10)]
  }

  /** How JavaScript prints an integer (plain decimal, leading `-` when negative). */
  function IntToDecimal(i: int): string {
    if i < 0 then "-" + NatToDecimal(-i) else NatToDecimal(i)
  }

  /** String conversion of a value inside a template literal (`${v}`). */
  function ToStr(v: Json): string {
    match v
    case Undefined => "undefined"
    case Null => "null"
    case Bool(b) => if b then "true" else "false"
    case Num(n) => IntToDecimal(n)
    case Str(s) => s
    case Composite(text) => text
  }

  /** A one-character decimal rendering belongs to exactly one digit. */
  lemma SingleDigit(n: nat, d: nat)
    requires d < 10
    ensures NatToDecimal(n) == [Digit(d)] <==> n == d
  {
    if n < 10 {
      assert NatToDecimal(n)[0] == Digit(n);
    }
  }

  /** The rendering of `n` is the one-character string of digit `d` exactly when
      `n` is that digit, and `-d` renders as `"-"` followed by it exactly when `n == -d`. */
  lemma {:induction false} IntToDecimalDigit(n: int, d: nat)
    requires d < 10
    ensures IntToDecimal(n) == [Digit(d)] <==> n == d
    ensures IntToDecimal(n) == ['-', Digit(d)] <==> (n + d == 0 && d != 0)
  {
    if n < 0 {
      var t := NatToDecimal(-n);
      assert IntToDecimal(n) == "-" + t;
      assert IntToDecimal(n)[0] == '-';
      assert ['-', Digit(d)] == "-" + [Digit(d)];
      SingleDigit(-n, d);
      if IntToDecimal(n) == ['-', Digit(d)] {
        assert t == IntToDecimal(n)[1..];
      }
    } else {
      SingleDigit(n, d);
      assert IntToDecimal(n)[0] != '-';
      assert NatToDecimal(0) == [Digit(0)];
    }
  }
}
