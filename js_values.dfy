/**
 * The JavaScript values a parsed manifest can hold, and the few language
 * operations the generator applies to them: truthiness, property reads with
 * destructuring defaults, `length`, and the text `Array.prototype.join`
 * gives each element. Numbers are restricted to integers whose magnitude is
 * below 2^53, whose JavaScript text is their exact decimal digits.
 */
module JsValues {
  import Text

  datatype JsValue =
    | Undefined
    | Null
    | Bool(b: bool)
    | Num(n: int)
    | Str(s: string)
    | Arr(items: seq<JsValue>)
    | Obj(fields: map<string, JsValue>)

  /** JavaScript truthiness: `!v` is false exactly when this holds. */
  predicate Truthy(v: JsValue)
  {
    match v
    case Undefined => false
    case Null => false
    case Bool(b) => b
    case Num(n) => n != 0
    case Str(s) => s != ""
    case Arr(_) => true
    case Obj(_) => true
  }

  /**
   * The read `v.name` for a value that is neither null nor undefined. Only
   * own fields of an object are found: none of the names the generator reads
   * (`version`, `origin`, `origins`, `plugins`, `cache`, `static`) is a
   * property of a string, a number, a boolean or an array.
   */
  function Field(v: JsValue, name: string): (r: JsValue)
    requires !v.Undefined? && !v.Null?
    ensures !v.Obj? ==> r == Undefined
    ensures v.Obj? && name in v.fields ==> r == v.fields[name]
    ensures v.Obj? ==> (r.Undefined? <==> name !in v.fields || v.fields[name].Undefined?)
  {
    if v.Obj? && name in v.fields then v.fields[name] else Undefined
  }

  /** A destructuring default `{ name = d }`: it replaces `undefined` only, never `null`. */
  function Default(v: JsValue, d: JsValue): (r: JsValue)
    ensures v.Undefined? ==> r == d
    ensures !v.Undefined? ==> r == v
  {
    if v.Undefined? then d else v
  }

  /** The read `v.length` for a value that is neither null nor undefined. */
  function LengthOf(v: JsValue): (r: JsValue)
    requires !v.Undefined? && !v.Null?
    ensures v.Arr? ==> r == Num(|v.items|)
    ensures v.Str? ==> r == Num(|v.s|)
    ensures v.Bool? || v.Num? ==> r == Undefined
  {
    match v
    case Arr(items) => Num(|items|)
    case Str(s) => Num(|s|)
    case Obj(fields) => if "length" in fields then fields["length"] else Undefined
    case _ => Undefined
  }

  function DigitChar(d: nat): (c: char)
    requires d < 10
    ensures '0' <= c <= '9'
    ensures c as int - '0' as int == d
  {
    "0123456789"[d]
  }

  /** Every character of `s` is a decimal digit. */
  predicate AllDigits(s: string)
  {
    forall i :: 0 <= i < |s| ==> '0' <= s[i] <= '9'
  }

  /** The natural number a run of decimal digits denotes, most significant first. */
  function DigitsValue(s: string): (v: nat)
    requires AllDigits(s)
  {
    if s == [] then 0
    else 10 * DigitsValue(s[..|s| - 1]) + (s[|s| - 1] as int - '0' as int)
  }

  /**
   * Decimal digits of a natural number, most significant first, with no
   * exponent form: the digits denote `n`, with no leading zero.
   */
  function Digits(n: nat): (r: string)
    ensures 1 <= |r| && AllDigits(r)
    ensures DigitsValue(r) == n
    ensures n < 10 <==> |r| == 1
    ensures |r| > 1 ==> r[0] != '0'
  {
    if n < 10 then
      var r := [DigitChar(n)];
      assert r[..0] == [];
      r
    else
      var r := Digits(n / 10) + [DigitChar(n % 10)];
      assert r[..|r| - 1] == Digits(n / 10);
      r
  }

  /**
   * `String(n)` for an integer below 2^53 in magnitude: a minus sign
   * exactly when `n` is negative, followed by the digits of its magnitude.
   */
  function Decimal(n: int): (r: string)
    ensures 1 <= |r| && (n < 0 <==> r[0] == '-')
    ensures n < 0 ==> r[1..] == Digits(-n) && DigitsValue(r[1..]) == -n
    ensures n >= 0 ==> r == Digits(n) && DigitsValue(r) == n
  {
    if n < 0 then "-" + Digits(-n) else Digits(n)
  }

  /**
   * The text `join` gives an element: null and undefined become the empty
   * string, an array its own comma join, an object `[object Object]`.
   */
  function JoinText(v: JsValue): (r: string)
  {
    match v
    case Undefined => ""
    case Null => ""
    case Bool(b) => if b then "true" else "false"
    case Num(n) => Decimal(n)
    case Str(s) => s
    case Arr(items) => Text.Join(seq(|items|, i requires 0 <= i < |items| => JoinText(items[i])), ",")
    case Obj(_) => "[object Object]"
  }

  /** The element texts of a list, in order. */
  function JoinTexts(items: seq<JsValue>): (r: seq<string>)
    ensures |r| == |items|
    ensures forall i :: 0 <= i < |items| ==> r[i] == JoinText(items[i])
  {
    seq(|items|, i requires 0 <= i < |items| => JoinText(items[i]))
  }
}
