/**
 * The two array formatters of the generator: plain double-quoting of each
 * element, and JSON encoding of each element; both separate the elements
 * with a comma, a newline and a tab.
 */
module Format {
  import opened Text
  import opened JsValues

  /** What separates two elements in either formatter's output. */
  const Separator := ",\n\t"

  /** The separator the string formatter joins with: it closes one quoted element and opens the next. */
  const QuotedSeparator := "\"" + Separator + "\""

  /** `"${array.join('",\n\t"')}"`. */
  function FormatJSStringArray(xs: seq<string>): (r: string)
  {
    "\"" + Join(xs, QuotedSeparator) + "\""
  }

  /** A string between double quotes, with no escaping of what it contains. */
  function Quote(s: string): (r: string)
  {
    "\"" + s + "\""
  }

  function QuoteAll(xs: seq<string>): (r: seq<string>)
    ensures |r| == |xs|
    ensures forall i :: 0 <= i < |xs| ==> r[i] == Quote(xs[i])
  {
    seq(|xs|, i requires 0 <= i < |xs| => Quote(xs[i]))
  }

  /**
   * On a non-empty list the string formatter quotes every element on its
   * own and joins the quoted elements with the plain separator.
   */
  lemma {:induction false} FormatJSStringArrayQuotesEach(xs: seq<string>)
    requires xs != []
    ensures FormatJSStringArray(xs) == Join(QuoteAll(xs), Separator)
  {
    var q := QuoteAll(xs);
    if |xs| == 1 {
      assert q == [Quote(xs[0])];
    } else {
      FormatJSStringArrayQuotesEach(xs[1..]);
      assert QuoteAll(xs[1..]) == q[1..];
      calc {
        FormatJSStringArray(xs);
        "\"" + (xs[0] + QuotedSeparator + Join(xs[1..], QuotedSeparator)) + "\"";
        ("\"" + xs[0] + "\"") + Separator + ("\"" + Join(xs[1..], QuotedSeparator) + "\"");
        Quote(xs[0]) + Separator + Join(q[1..], Separator);
        Join(q, Separator);
      }
    }
  }

  /**
   * The string formatter's output length: for n >= 1 elements, their
   * characters plus two quotes plus five characters per separator; the
   * empty list gives the two characters `""`.
   */
  lemma FormatJSStringArrayLength(xs: seq<string>)
    ensures xs == [] ==> FormatJSStringArray(xs) == "\"\""
    ensures xs != [] ==> |FormatJSStringArray(xs)| == TotalLength(xs) + 2 + 5 * (|xs| - 1)
  {
    JoinLength(xs, QuotedSeparator);
  }

  /**
   * The string formatter does not escape: a single element holding the
   * quoted separator reads exactly like the two elements around it.
   */
  lemma FormatJSStringArrayAmbiguous(a: string, b: string)
    ensures FormatJSStringArray([a + QuotedSeparator + b]) == FormatJSStringArray([a, b])
  {
    assert Join([a, b], QuotedSeparator) == a + QuotedSeparator + Join([b], QuotedSeparator);
  }

  /** `array.map(JSON.stringify)`, where `stringify` stands for the encoding. */
  function EncodeAll(items: seq<JsValue>, stringify: JsValue -> string): (r: seq<string>)
    ensures |r| == |items|
    ensures forall i :: 0 <= i < |items| ==> r[i] == stringify(items[i])
  {
    seq(|items|, i requires 0 <= i < |items| => stringify(items[i]))
  }

  /** `array.map(JSON.stringify).join(',\n\t')`. */
  function FormatJSONArray(items: seq<JsValue>, stringify: JsValue -> string): (r: string)
  {
    Join(EncodeAll(items, stringify), Separator)
  }

  /**
   * The JSON formatter on one element is that element's encoding, and on a
   * concatenation it is the two formatted parts with one separator between:
   * together these fix its output on every list.
   */
  lemma FormatJSONArrayAppend(a: seq<JsValue>, b: seq<JsValue>, stringify: JsValue -> string)
    requires a != [] && b != []
    ensures FormatJSONArray(a + b, stringify)
         == FormatJSONArray(a, stringify) + Separator + FormatJSONArray(b, stringify)
  {
    assert EncodeAll(a + b, stringify) == EncodeAll(a, stringify) + EncodeAll(b, stringify);
    JoinAppend(EncodeAll(a, stringify), EncodeAll(b, stringify), Separator);
  }

  lemma FormatJSONArraySingle(x: JsValue, stringify: JsValue -> string)
    ensures FormatJSONArray([x], stringify) == stringify(x)
  {
  }

  /**
   * The JSON formatter's output length: the encodings' characters plus three
   * per separator; the empty list gives the empty string.
   */
  lemma FormatJSONArrayLength(items: seq<JsValue>, stringify: JsValue -> string)
    ensures items == [] ==> FormatJSONArray(items, stringify) == ""
    ensures items != [] ==> |FormatJSONArray(items, stringify)|
                            == TotalLength(EncodeAll(items, stringify)) + 3 * (|items| - 1)
  {
    JoinLength(EncodeAll(items, stringify), Separator);
  }
}
