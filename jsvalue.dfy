/** The JavaScript values that flow through the library (cell contents, attribute
    values, children), together with the coercions the library relies on:
    `String(v)`, truthiness, and the ASCII part of `toLowerCase`. */
module JsValue {

  /** A JavaScript primitive or array. Numbers are restricted to integers. */
  datatype Value =
    | Undefined
    | Null
    | Bool(b: bool)
    | Int(i: int)
    | Str(s: string)
    | Array(items: seq<Value>)

  predicate IsDigit(c: char) { '0' <= c <= '9' }

  function DigitChar(d: nat): (c: char)
    requires d < 10
    ensures IsDigit(c) && c as int - '0' as int == d
  {
    (d + '0' as int) as char
  }

  /** Decimal notation of a natural number, most significant digit first, no leading zero. */
  function NatToDecimal(n: nat): (s: string)
    ensures |s| >= 1
    ensures forall k :: 0 <= k < |s| ==> IsDigit(s[k])
    ensures n > 0 ==> s[0] != '0'
    decreases n
  {
    if n < 10 then [DigitChar(n)] else NatToDecimal(n / 10) + [DigitChar(n % 10)]
  }

  /** Reads a string of decimal digits back as a number (the inverse of NatToDecimal). */
  function ParseDecimal(s: string): nat
    requires forall k :: 0 <= k < |s| ==> IsDigit(s[k])
  {
    if s == [] then 0
    else
      assert IsDigit(s[|s| - 1]);
      ParseDecimal(s[..|s| - 1]) * 10 + (s[|s| - 1] as int - '0' as int)
  }

  lemma {:induction false} DecimalRoundTrip(n: nat)
    ensures ParseDecimal(NatToDecimal(n)) == n
    decreases n
  {
    if n >= 10 {
      var s := NatToDecimal(n);
      assert s[..|s| - 1] == NatToDecimal(n / 10);
      DecimalRoundTrip(n / 10);
    }
  }

  /** `String(n)` for an integer-valued number. */
  function IntToDecimal(i: int): string
  {
    if i < 0 then "-" + NatToDecimal(-i) else NatToDecimal(i)
  }

  /** Joins strings with a separator, as `Array.prototype.join` does once every
      element has been converted. */
  function Join(parts: seq<string>, sep: string): (r: string)
    ensures parts == [] ==> r == ""
    ensures |parts| == 1 ==> r == parts[0]
  {
    if parts == [] then ""
    else if |parts| == 1 then parts[0]
    else Join(parts[..|parts| - 1], sep) + sep + parts[|parts| - 1]
  }

  /** `String(v)`: the string a value becomes when it is stored as an attribute or
      passed to `createTextNode`. An array joins its elements with commas and shows
      `null`/`undefined` elements as empty strings. */
  function ToJsString(v: Value): string
    decreases v
  {
    match v
    case Undefined => "undefined"
    case Null => "null"
    case Bool(b) => if b then "true" else "false"
    case Int(i) => IntToDecimal(i)
    case Str(s) => s
    case Array(items) =>
      Join(seq(|items|, k requires 0 <= k < |items| =>
             if items[k].Null? || items[k].Undefined? then "" else ToJsString(items[k])), ",")
  }

  lemma {:induction false} IntStringRoundTrip(i: int)
    ensures i >= 0 ==> ParseDecimal(ToJsString(Int(i))) == i
    ensures i < 0 ==> ToJsString(Int(i))[0] == '-' && ParseDecimal(ToJsString(Int(i))[1..]) == -i
  {
    DecimalRoundTrip(if i < 0 then -i else i);
    if i < 0 {
      assert ToJsString(Int(i))[1..] == NatToDecimal(-i);
    }
  }

  /** JavaScript truthiness: `undefined`, `null`, `false`, `0` and `""` are falsy;
      every other value, including every array, is truthy. */
  predicate Truthy(v: Value)
  {
    match v
    case Undefined => false
    case Null => false
    case Bool(b) => b
    case Int(i) => i != 0
    case Str(s) => s != ""
    case Array(_) => true
  }

  /** The value the `textContent` setter stores. The attribute is a nullable
      string, so `null` and `undefined` both become the empty string; everything
      else goes through `String`. */
  function TextContentString(v: Value): (s: string)
    ensures v.Null? || v.Undefined? ==> s == ""
    ensures !(v.Null? || v.Undefined?) ==> s == ToJsString(v)
  {
    if v.Null? || v.Undefined? then "" else ToJsString(v)
  }

  predicate IsUpper(c: char) { 'A' <= c <= 'Z' }

  function LowerChar(c: char): (r: char)
    ensures !IsUpper(r)
    ensures IsUpper(c) ==> r as int == c as int + 32
    ensures !IsUpper(c) ==> r == c
  {
    if IsUpper(c) then (c as int + 32) as char else c
  }

  /** `toLowerCase` on the ASCII letters: every upper-case letter is replaced by its
      lower-case form, every other character is kept. */
  function AsciiLower(s: string): (r: string)
    ensures |r| == |s|
    ensures forall k :: 0 <= k < |s| ==> r[k] == LowerChar(s[k])
  {
    if s == [] then [] else [LowerChar(s[0])] + AsciiLower(s[1..])
  }
}
