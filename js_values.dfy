/** The JavaScript values that flow through the store's arguments and documents,
    with the three pieces of language semantics the store relies on: truthiness,
    string conversion by a template literal (`${v}`), and `instanceof`. */
module JsValues {
  import opened Base

  /** Numbers are integers here; `Obj` is a plain object, whose contents never
      matter to the store; `StringObject` is a `new String(...)` wrapper;
      `Native(name)` is a built-in function such as those every object
      inherits from `Object.prototype`. */
  datatype JsValue =
    | Undefined
    | Null
    | Bool(b: bool)
    | Num(n: int)
    | Str(s: string)
    | Arr(items: seq<JsValue>)
    | Obj
    | StringObject(text: string)
    | Native(name: string)

  /** The built-in constructors named on the right of `instanceof` in the source. */
  datatype Constructor = StringCtor | ArrayCtor | ObjectCtor

  predicate IsTruthy(v: JsValue)
  {
    match v
    case Undefined => false
    case Null => false
    case Bool(b) => b
    case Num(n) => n != 0
    case Str(s) => s != ""
    case _ => true
  }

  /** `undefined` for a missing optional string, the string itself otherwise. */
  function FromOption(o: Option<string>): (v: JsValue)
    ensures IsTruthy(v) <==> Truthy(o)
  {
    match o
    case None => Undefined
    case Some(s) => Str(s)
  }

  /** Only objects are instances of anything; primitives never are. */
  predicate InstanceOf(v: JsValue, c: Constructor)
  {
    match v
    case Arr(_) => c == ArrayCtor || c == ObjectCtor
    case Obj => c == ObjectCtor
    case StringObject(_) => c == StringCtor || c == ObjectCtor
    case Native(_) => c == ObjectCtor
    case _ => false
  }

  /** The shape test `!v instanceof C` as the source writes it: `!` binds
      tighter than `instanceof`, so the left operand is the boolean `!v`, a
      primitive, and the test is false whatever `v` and `C` are. */
  function NegatedInstanceOf(v: JsValue, c: Constructor): (fires: bool)
    ensures !fires
  {
    InstanceOf(Bool(!IsTruthy(v)), c)
  }

  function DigitChar(d: nat): char
    requires d < 10
  {
    "0123456789"[d]
  }

  predicate IsDigit(c: char)
  {
    '0' <= c <= '9'
  }

  /** The value of a string of decimal digits. */
  function DecimalValue(s: string): nat
    requires forall i :: 0 <= i < |s| ==> IsDigit(s[i])
  {
    if s == [] then 0
    else
      var last := s[|s| - 1];
      assert IsDigit(last);
      10 * DecimalValue(s[..|s| - 1]) + (last as int - '0' as int)
  }

  /** The decimal text of a natural number, as `String(n)` writes it. */
  function NatToDecimal(n: nat): (s: string)
    ensures |s| >= 1 && forall i :: 0 <= i < |s| ==> IsDigit(s[i])
    ensures s[0] == '0' ==> n == 0 && s == "0"
    ensures DecimalValue(s) == n
  {
    if n < 10 then [DigitChar(n)]
    else
      var prefix := NatToDecimal(n / 10);
      var s := prefix + [DigitChar(n % 10)];
      assert s[..|s| - 1] == prefix;
      s
  }

  /** String conversion, as a template literal `${v}` performs it. Array
      elements that are `undefined` or `null` become empty strings. */
  function ToStr(v: JsValue): string
  {
    match v
    case Undefined => "undefined"
    case Null => "null"
    case Bool(b) => if b then "true" else "false"
    case Num(n) => if n < 0 then "-" + NatToDecimal(-n) else NatToDecimal(n)
    case Str(s) => s
    case Arr(items) => JoinItems(items)
    case Obj => "[object Object]"
    case StringObject(t) => t
    case Native(name) => "function " + name + "() { [native code] }"
  }

  /** `Array.prototype.join(",")` over the elements. */
  function JoinItems(items: seq<JsValue>): string
  {
    if items == [] then ""
    else
      var head := if items[0].Undefined? || items[0].Null? then "" else ToStr(items[0]);
      if |items| == 1 then head else head + "," + JoinItems(items[1..])
  }

  /** `${o}` for an optional string: the text "undefined" when it is missing. */
  function Template(o: Option<string>): (s: string)
    ensures o.Some? ==> s == o.value
    ensures o.None? ==> s == "undefined"
  {
    ToStr(FromOption(o))
  }

  // ----- JSON.stringify followed by JSON.parse -----

  /** A value `JSON.parse` can produce: no `undefined`, no function, no
      wrapper object, and arrays of such values. */
  predicate IsJsonValue(v: JsValue)
  {
    match v
    case Undefined => false
    case Native(_) => false
    case StringObject(_) => false
    case Arr(items) => forall i :: 0 <= i < |items| ==> IsJsonValue(items[i])
    case _ => true
  }

  /** `JSON.stringify` leaves out an object member whose value is `undefined`
      or a function. */
  predicate DroppedMember(v: JsValue)
  {
    v.Undefined? || v.Native?
  }

  /** What a value kept by `JSON.stringify` reads back as: a `String` wrapper
      becomes its text, and inside an array `undefined` and functions become
      `null`. */
  function JsonValue(v: JsValue): (r: JsValue)
    decreases v, 1
  {
    match v
    case Undefined => Null
    case Native(_) => Null
    case StringObject(t) => Str(t)
    case Arr(items) => Arr(JsonItems(items))
    case _ => v
  }

  function JsonItems(items: seq<JsValue>): (r: seq<JsValue>)
    ensures |r| == |items|
    decreases items, 0
  {
    if items == [] then [] else [JsonValue(items[0])] + JsonItems(items[1..])
  }

  /** The round trip yields a JSON value, and leaves a JSON value as it is. */
  lemma {:induction false} JsonValueIsJson(v: JsValue)
    ensures IsJsonValue(JsonValue(v))
    ensures IsJsonValue(v) ==> JsonValue(v) == v
    decreases v, 1
  {
    match v
    case Arr(items) => JsonItemsAreJson(items);
    case _ =>
  }

  lemma {:induction false} JsonItemsAreJson(items: seq<JsValue>)
    ensures forall i :: 0 <= i < |items| ==> IsJsonValue(JsonItems(items)[i])
    ensures (forall i :: 0 <= i < |items| ==> IsJsonValue(items[i])) ==> JsonItems(items) == items
    decreases items, 0
  {
    if items != [] {
      JsonValueIsJson(items[0]);
      JsonItemsAreJson(items[1..]);
      forall i | 0 <= i < |items|
        ensures IsJsonValue(JsonItems(items)[i])
      {
        if i > 0 {
          assert JsonItems(items)[i] == JsonItems(items[1..])[i - 1];
        }
      }
      if forall i :: 0 <= i < |items| ==> IsJsonValue(items[i]) {
        assert forall i :: 0 <= i < |items[1..]| ==> items[1..][i] == items[i + 1];
      }
    }
  }
}
