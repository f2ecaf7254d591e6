/**
 * The part of JavaScript's value semantics that the client's dictionaries and
 * configuration rely on: values, truthiness, the string conversion used for
 * property keys and `+` concatenation, `startsWith`, and `Array.prototype.join`.
 * Numbers are modelled as integers.
 */
module JsValues {

  /** A JavaScript value. `JsBuffer` is an ArrayBuffer; `JsObject` a plain object. */
  datatype JsValue =
    | JsUndefined
    | JsNull
    | JsBool(b: bool)
    | JsNumber(n: int)
    | JsString(s: string)
    | JsBuffer(bytes: seq<bv8>)
    | JsArray(items: seq<JsValue>)
    | JsObject(fields: map<string, JsValue>)
  {
    /** `v === null || v === undefined` */
    predicate Nullish() {
      JsUndefined? || JsNull?
    }

    /** JavaScript truthiness, `!!v`. */
    predicate Truthy() {
      match this
      case JsUndefined => false
      case JsNull => false
      case JsBool(b) => b
      case JsNumber(n) => n != 0
      case JsString(s) => s != ""
      case _ => true
    }
  }

  /** The property read `v[name]`: only plain objects carry properties in this model. */
  function Property(v: JsValue, name: string): JsValue {
    if v.JsObject? && name in v.fields then v.fields[name] else JsUndefined
  }

  predicate IsDigit(c: char) {
    '0' <= c <= '9'
  }

  predicate AllDigits(s: string) {
    forall k :: 0 <= k < |s| ==> IsDigit(s[k])
  }

  function Digit(d: nat): (c: char)
    requires d < 10
    ensures IsDigit(c) && c as int - '0' as int == d
  {
    ('0' as int + d) as char
  }

  /** The decimal text `String(n)` gives a natural number. */
  function DecimalText(n: nat): (s: string)
    ensures 1 <= |s| && AllDigits(s)
  {
    if n < 10 then [Digit(n)] else DecimalText(n / 10) + [Digit(n % 10)]
  }

  /** The number a string of decimal digits denotes (the inverse of DecimalText). */
  function DecimalValue(s: string): nat
    requires AllDigits(s)
  {
    if |s| == 0 then 0 else DecimalValue(s[..|s| - 1]) * 10 + (s[|s| - 1] as int - '0' as int)
  }

  lemma {:induction false} DecimalRoundTrip(n: nat)
    ensures DecimalValue(DecimalText(n)) == n
  {
    if n >= 10 {
      var s := DecimalText(n);
      assert s[..|s| - 1] == DecimalText(n / 10);
      DecimalRoundTrip(n / 10);
    }
  }

  /** Distinct numbers have distinct decimal texts, so `prefix + id` keys never collide. */
  lemma DecimalTextInjective(a: nat, b: nat)
    requires DecimalText(a) == DecimalText(b)
    ensures a == b
  {
    DecimalRoundTrip(a);
    DecimalRoundTrip(b);
  }

  /** `String(n)` for an integer. */
  function IntText(n: int): string {
    if n < 0 then "-" + DecimalText(-n) else DecimalText(n)
  }

  lemma IntTextSign(n: int)
    ensures |IntText(n)| >= 1 && (IntText(n)[0] == '-' <==> n < 0)
  {
    if n >= 0 {
      assert IsDigit(IntText(n)[0]);
    }
  }

  lemma IntTextInjective(a: int, b: int)
    requires IntText(a) == IntText(b)
    ensures a == b
  {
    IntTextSign(a);
    IntTextSign(b);
    if a < 0 {
      assert IntText(a)[1..] == DecimalText(-a);
      assert IntText(b)[1..] == DecimalText(-b);
      DecimalTextInjective(-a, -b);
    } else {
      DecimalTextInjective(a, b);
    }
  }

  /** `Array.prototype.join(sep)` on strings: `[] -> ""`, `[a] -> a`, `[a, b] -> a + sep + b`. */
  function Join(parts: seq<string>, sep: string): string {
    if |parts| == 0 then ""
    else if |parts| == 1 then parts[0]
    else parts[0] + sep + Join(parts[1..], sep)
  }

  /** `String(v)`: the conversion applied by `'prefix' + v` and by property keys `obj[v]`. */
  function ToText(v: JsValue): string {
    match v
    case JsUndefined => "undefined"
    case JsNull => "null"
    case JsBool(b) => if b then "true" else "false"
    case JsNumber(n) => IntText(n)
    case JsString(s) => s
    case JsBuffer(_) => "[object ArrayBuffer]"
    case JsObject(_) => "[object Object]"
    case JsArray(items) =>
      // join(','), where null and undefined elements contribute the empty string
      Join(seq(|items|, i requires 0 <= i < |items| =>
                 if items[i].Nullish() then "" else ToText(items[i])), ",")
  }

  /** `s.startsWith(prefix)` */
  predicate StartsWith(s: string, prefix: string) {
    |prefix| <= |s| && s[..|prefix|] == prefix
  }

  /** A string that starts with `p + q` starts with `p`. */
  lemma StartsWithConcat(s: string, p: string, q: string)
    requires StartsWith(s, p + q)
    ensures StartsWith(s, p)
  {
    assert s[..|p|] == (s[..|p + q|])[..|p|];
  }
}
