/**
 * The slice of JavaScript's value semantics the dashboard leans on: numbers
 * (integers and NaN only), `Number(string)`, `String(value)`, JSON values,
 * truthiness, property access and `Array.prototype.splice(start, 1)`.
 */
module JsValues {
  import opened Wrappers
  import Text

  /** A JavaScript number, restricted to the integers plus NaN. */
  datatype JsNumber = Int(value: int) | NaN

  predicate IsDigit(c: char) { '0' <= c <= '9' }

  predicate AllDigits(s: string) { forall i :: 0 <= i < |s| ==> IsDigit(s[i]) }

  function DigitValue(c: char): nat
    requires IsDigit(c)
  {
    c as int - '0' as int
  }

  function DigitChar(d: nat): (c: char)
    requires d < 10
    ensures IsDigit(c) && DigitValue(c) == d
  {
    ('0' as int + d) as char
  }

  /** The value of a string of decimal digits, most significant first. */
  function DigitsValue(s: string): nat
    requires AllDigits(s)
    decreases |s|
  {
    if |s| == 0 then 0 else DigitsValue(s[..|s| - 1]) * 10 + DigitValue(s[|s| - 1])
  }

  /** The shortest decimal spelling of `n`: a leading zero only for zero itself. */
  function NatToDigits(n: nat): (r: string)
    ensures |r| >= 1 && AllDigits(r)
    ensures r[0] == '0' <==> n == 0
  {
    if n < 10 then [DigitChar(n)] else NatToDigits(n / 10) + [DigitChar(n % 10)]
  }

  /** `String(n)` for a number. */
  function NumberToText(n: JsNumber): string
  {
    match n
    case NaN => "NaN"
    case Int(v) => if v < 0 then "-" + NatToDigits(-v) else NatToDigits(v)
  }

  /**
   * `Number(s)` on integer literals: the empty string is 0, an optionally
   * signed run of digits is its value, anything else is NaN.
   */
  function ParseNumber(s: string): (r: JsNumber)
    ensures r.Int? <==> AllDigits(s) || (|s| > 1 && (s[0] == '-' || s[0] == '+') && AllDigits(s[1..]))
    ensures r.Int? && s != "" && s[0] != '-' && s[0] != '+' ==> r.value == DigitsValue(s) as int
    ensures r.Int? && |s| > 1 && s[0] == '-' ==> r.value == -(DigitsValue(s[1..]) as int)
    ensures r.Int? && |s| > 1 && s[0] == '+' ==> r.value == DigitsValue(s[1..]) as int
    ensures s == "" ==> r == Int(0)
  {
    if s == "" then Int(0)
    else if s[0] == '-' && |s| > 1 && AllDigits(s[1..]) then Int(-(DigitsValue(s[1..]) as int))
    else if s[0] == '+' && |s| > 1 && AllDigits(s[1..]) then Int(DigitsValue(s[1..]))
    else if AllDigits(s) then Int(DigitsValue(s))
    else NaN
  }

  lemma {:induction false} DigitsRoundTrip(n: nat)
    ensures DigitsValue(NatToDigits(n)) == n
  {
    var d := NatToDigits(n);
    if n >= 10 {
      DigitsRoundTrip(n / 10);
      assert d[..|d| - 1] == NatToDigits(n / 10);
    }
  }

  /** `Number(String(n)) === n` for every number, NaN included (as a value, not by `===`). */
  lemma ParseNumberToText(n: JsNumber)
    ensures ParseNumber(NumberToText(n)) == n
  {
    match n
    case NaN =>
      assert !IsDigit("NaN"[0]);
    case Int(v) =>
      if v < 0 {
        var t := NumberToText(n);
        DigitsRoundTrip(-v);
        assert t[1..] == NatToDigits(-v);
      } else {
        DigitsRoundTrip(v);
      }
  }

  /** A JSON value as the browser sees it after `response.json()`, plus `undefined`. */
  datatype JsValue =
    | Undefined
    | Null
    | Bool(b: bool)
    | Num(n: JsNumber)
    | Str(s: string)
    | Arr(items: seq<JsValue>)
    | Obj(props: map<string, JsValue>)

  /** JavaScript truthiness: `undefined`, `null`, `false`, 0, NaN and "" are falsy. */
  predicate Truthy(v: JsValue)
  {
    match v
    case Undefined => false
    case Null => false
    case Bool(b) => b
    case Num(n) => n.Int? && n.value != 0
    case Str(s) => s != ""
    case Arr(_) => true
    case Obj(_) => true
  }

  predicate Nullish(v: JsValue) { v.Undefined? || v.Null? }

  /** `a || b`: the first operand when it is truthy, the second otherwise. */
  function Or(a: JsValue, b: JsValue): JsValue
  {
    if Truthy(a) then a else b
  }

  /** A canonical array index: "0" or digits without a leading zero. */
  function ArrayIndex(k: string): Option<nat>
  {
    if k != "" && AllDigits(k) && (k == "0" || k[0] != '0') then Some(DigitsValue(k)) else None
  }

  /**
   * `o?.[k]`: own data properties of objects, array elements and `length`,
   * string characters and `length`; `undefined` for everything else.
   */
  function Member(o: JsValue, k: string): (r: JsValue)
    ensures !o.Obj? && !o.Arr? && !o.Str? ==> r == Undefined
  {
    match o
    case Obj(m) => if k in m then m[k] else Undefined
    case Arr(xs) =>
      if k == "length" then Num(Int(|xs|))
      else (match ArrayIndex(k) case Some(i) => if i < |xs| then xs[i] else Undefined case None => Undefined)
    case Str(s) =>
      if k == "length" then Num(Int(|s|))
      else (match ArrayIndex(k) case Some(i) => if i < |s| then Str([s[i]]) else Undefined case None => Undefined)
    case _ => Undefined
  }

  /** `String(v)`; arrays join their elements with "," and print null and undefined as "". */
  function ToText(v: JsValue): string
    decreases v
  {
    match v
    case Undefined => "undefined"
    case Null => "null"
    case Bool(b) => if b then "true" else "false"
    case Num(n) => NumberToText(n)
    case Str(s) => s
    case Obj(_) => "[object Object]"
    case Arr(xs) =>
      Text.Join(seq(|xs|, i requires 0 <= i < |xs| => if Nullish(xs[i]) then "" else ToText(xs[i])), ",")
  }

  /** `xs.join(sep)` over arbitrary values: null and undefined print as "", the rest as `String(x)`. */
  function JoinValues(xs: seq<JsValue>, sep: string): string
  {
    Text.Join(seq(|xs|, i requires 0 <= i < |xs| => if Nullish(xs[i]) then "" else ToText(xs[i])), sep)
  }

  /** The text of a truthy value that is not an array is never empty. */
  lemma TruthyTextNonEmpty(v: JsValue)
    requires Truthy(v) && !v.Arr?
    ensures ToText(v) != ""
  {
    if v.Num? {
      var k := v.n.value;
      if k < 0 { assert NumberToText(v.n)[0] == '-'; } else { assert |NatToDigits(k)| >= 1; }
    }
  }

  /**
   * The index `xs.splice(start, 1)` removes: a negative start counts from the
   * end and is clamped at 0; a start at or past the end removes nothing.
   */
  function SpliceIndex(len: nat, start: int): (r: Option<nat>)
    ensures r.Some? ==> r.value < len
    ensures 0 <= start < len ==> r == Some(start)
    ensures start >= len ==> r == None
    ensures -(len as int) <= start < 0 ==> r == Some(len + start)
    ensures start < -(len as int) && len > 0 ==> r == Some(0)
  {
    var s := if start >= 0 then start else if len + start < 0 then 0 else len + start;
    if s < len then Some(s) else None
  }

  /** A copy of `xs` after `splice(start, 1)`. */
  function Splice<T>(xs: seq<T>, start: int): (r: seq<T>)
    ensures SpliceIndex(|xs|, start).None? ==> r == xs
    ensures SpliceIndex(|xs|, start).Some? ==>
      var i := SpliceIndex(|xs|, start).value;
      |r| == |xs| - 1 &&
      (forall j :: 0 <= j < i ==> r[j] == xs[j]) &&
      (forall j :: i <= j < |r| ==> r[j] == xs[j + 1])
  {
    match SpliceIndex(|xs|, start)
    case None => xs
    case Some(i) => xs[..i] + xs[i + 1..]
  }
}
