/**
 * The few JavaScript runtime notions the lessons rely on: optional values
 * (`T | undefined`), completions (a call either returns or throws an Error),
 * primitive values, and the host's conversion of a primitive to a string.
 */
module Js {

  /** `T | undefined`: None is `undefined`. */
  datatype Option<+T> = None | Some(value: T)

  /** How a call ends: it returns a value or it throws an Error with a message. */
  datatype Completion<+T> = Normal(value: T) | Throw(message: string)

  /** The primitive values the lessons use. Numbers are integral here. */
  datatype JsValue =
    | Undefined
    | Null
    | Boolean(b: bool)
    | Number(n: int)
    | Text(s: string)

  /** The result of the `typeof` operator on a primitive. */
  function TypeOf(v: JsValue): (t: string)
    ensures t in {"undefined", "object", "boolean", "number", "string"}
    ensures t == "number" <==> v.Number?
    ensures t == "boolean" <==> v.Boolean?
  {
    match v
    case Undefined => "undefined"
    case Null => "object"
    case Boolean(_) => "boolean"
    case Number(_) => "number"
    case Text(_) => "string"
  }

  /** The character of a decimal digit. */
  function DigitChar(d: nat): (c: char)
    requires d < 10
    ensures '0' <= c <= '9'
    ensures c as int - '0' as int == d
  {
    ('0' as int + d) as char
  }

  /** Decimal digits of a natural number, most significant first, no leading zero. */
  function Digits(n: nat): (s: string)
    ensures |s| > 0
    ensures forall i :: 0 <= i < |s| ==> '0' <= s[i] <= '9'
    ensures n > 0 ==> s[0] != '0'
  {
    if n < 10 then [DigitChar(n)] else Digits(n / 10) + [DigitChar(n % 10)]
  }

  /** The number a string of decimal digits denotes, read most significant first. */
  function DecimalValue(s: string): (n: int)
    decreases |s|
  {
    if s == [] then 0
    else 10 * DecimalValue(s[..|s| - 1]) + (s[|s| - 1] as int - '0' as int)
  }

  /** The digits denote the number they were produced from. */
  lemma {:induction false} DigitsDenote(n: nat)
    ensures DecimalValue(Digits(n)) == n
  {
    var s := Digits(n);
    if n < 10 {
      assert s[..|s| - 1] == [];
    } else {
      assert s[..|s| - 1] == Digits(n / 10);
      DigitsDenote(n / 10);
    }
  }

  /** Decimal rendering of an integral number, with a leading '-' when negative. */
  function NumberToString(n: int): (s: string)
    ensures |s| > 0
    ensures s[0] == '-' <==> n < 0
  {
    if n < 0 then "-" + Digits(-n) else Digits(n)
  }

  /** Reading back a rendered number: an optional '-' followed by decimal digits. */
  function ParseNumber(s: string): (n: int)
  {
    if s != [] && s[0] == '-' then -DecimalValue(s[1..]) else DecimalValue(s)
  }

  /** Rendering a number and reading it back gives the number. */
  lemma NumberToStringRoundTrip(n: int)
    ensures ParseNumber(NumberToString(n)) == n
  {
    if n < 0 {
      assert NumberToString(n)[1..] == Digits(-n);
      DigitsDenote(-n);
    } else {
      DigitsDenote(n);
    }
  }

  /** What the `+` operator and template literals append for a primitive value. */
  function ToString(v: JsValue): (s: string)
  {
    match v
    case Undefined => "undefined"
    case Null => "null"
    case Boolean(b) => if b then "true" else "false"
    case Number(n) => NumberToString(n)
    case Text(s) => s
  }
}
