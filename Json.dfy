/**
 * Untyped values as they arrive from the realtime channel or a request body,
 * together with the two JavaScript coercions the application relies on:
 * truthiness (`!!x`) and `String(x)`.
 */
module Json {

  /** A JavaScript value as delivered in a JSON-like payload. Numbers are integers here. */
  datatype Value =
    | Null
    | Undefined
    | Bool(b: bool)
    | Num(n: int)
    | Str(s: string)
    | Arr(items: seq<Value>)
    | Obj(fields: map<string, Value>)

  /** A record with named keys, as `Record<string, unknown>`. */
  type Fields = map<string, Value>

  /** Property access `obj.key`: a missing key reads as `undefined`. */
  function Get(obj: Fields, key: string): (v: Value)
    ensures key !in obj ==> v == Undefined
    ensures key in obj ==> v == obj[key]
  {
    if key in obj then obj[key] else Undefined
  }

  /** JavaScript truthiness. */
  predicate Truthy(v: Value) {
    match v
    case Null => false
    case Undefined => false
    case Bool(b) => b
    case Num(n) => n != 0
    case Str(s) => s != ""
    case Arr(_) => true
    case Obj(_) => true
  }

  function DigitChar(d: nat): (c: char)
    requires d < 10
    ensures '0' <= c <= '9'
  {
    "0123456789"[d]
  }

  /** Decimal rendering of a natural number, most significant digit first. */
  function NatToString(n: nat): (s: string)
    ensures |s| > 0 && '0' <= s[0] <= '9'
    decreases n
  {
    if n < 10 then [DigitChar(n)] else NatToString(n / 10) + [DigitChar(n % 10)]
  }

  function IntToString(n: int): (s: string)
    ensures |s| > 0 && (s[0] == '-' || '0' <= s[0] <= '9')
  {
    if n < 0 then "-" + NatToString(-n) else NatToString(n)
  }

  /** `String(v)`. */
  function Stringify(v: Value): (r: string)
    ensures r == "" ==> v.Str? || v.Arr?
    ensures v.Arr? && |v.items| == 1 && !v.items[0].Null? && !v.items[0].Undefined? ==> r == Stringify(v.items[0])
    decreases v
  {
    match v
    case Null => "null"
    case Undefined => "undefined"
    case Bool(b) => if b then "true" else "false"
    case Num(n) => IntToString(n)
    case Str(s) => s
    case Arr(items) => Join(items)
    case Obj(_) => "[object Object]"
  }

  /** `Array.prototype.join(",")`: `null` and `undefined` elements become empty. */
  function Join(items: seq<Value>): string
    decreases items
  {
    if items == [] then ""
    else
      var head := if items[0].Null? || items[0].Undefined? then "" else Stringify(items[0]);
      if |items| == 1 then head else head + "," + Join(items[1..])
  }

  /** Strips one-element arrays: `[[x]]` becomes `x`; anything else is left as it is. */
  function Unwrap(v: Value): Value
    decreases v
  {
    match v
    case Arr(items) => if |items| == 1 then Unwrap(items[0]) else v
    case _ => v
  }

  /** A lower-case identifier-like word: what every enumeration constant of the application is. */
  predicate PlainWord(w: string) {
    && |w| > 0
    && 'a' <= w[0] <= 'z'
    && (forall i :: 0 <= i < |w| ==> w[i] != ',')
    && w != "null" && w != "undefined" && w != "true" && w != "false"
  }

  /**
   * `String(v)` equals a plain word exactly when `v` is that string, possibly
   * wrapped in any number of one-element arrays.
   */
  lemma {:induction false} StringifyPlainWord(v: Value, w: string)
    requires PlainWord(w)
    ensures Stringify(v) == w <==> Unwrap(v) == Str(w)
    decreases v
  {
    match v
    case Num(n) =>
      assert Stringify(v)[0] != w[0];
    case Obj(_) =>
      assert Stringify(v)[0] == '[';
    case Arr(items) =>
      if |items| == 1 {
        var x := items[0];
        if x.Null? || x.Undefined? {
          assert Stringify(v) == "";
        } else {
          assert Stringify(v) == Stringify(x);
          StringifyPlainWord(x, w);
        }
      } else if |items| > 1 {
        var head := if items[0].Null? || items[0].Undefined? then "" else Stringify(items[0]);
        assert Stringify(v) == head + "," + Join(items[1..]);
        assert Stringify(v)[|head|] == ',';
      }
    case _ =>
  }
}
