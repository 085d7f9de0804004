/**
 * JSON values as `JSON.parse` produces them, and the few pieces of
 * JavaScript semantics the message validator relies on: truthiness (`!x`),
 * `typeof`, the `in` operator and property access on a parsed object.
 */
module Json {
  import opened Wrappers

  /** A value produced by `JSON.parse`. Numbers are JavaScript numbers, kept as reals. */
  datatype Json =
    | JNull
    | JBool(b: bool)
    | JNum(n: real)
    | JStr(s: string)
    | JArr(elems: seq<Json>)
    | JObj(fields: map<string, Json>)

  /** A JavaScript value that may also be `undefined` (what a missing property reads as). */
  datatype JsValue = Undefined | Defined(v: Json)

  /** JavaScript truthiness: `null`, `false`, `0`, `-0` and `""` are falsy; arrays and objects never are. */
  predicate Truthy(x: Json)
  {
    match x
    case JNull => false
    case JBool(b) => b
    case JNum(n) => n != 0.0
    case JStr(s) => s != ""
    case JArr(_) => true
    case JObj(_) => true
  }

  /** The string the `typeof` operator yields. Note that `typeof null` and `typeof []` are both "object". */
  function TypeOf(x: JsValue): string
  {
    match x
    case Undefined => "undefined"
    case Defined(JNull) => "object"
    case Defined(JBool(_)) => "boolean"
    case Defined(JNum(_)) => "number"
    case Defined(JStr(_)) => "string"
    case Defined(JArr(_)) => "object"
    case Defined(JObj(_)) => "object"
  }

  /** The largest length a JavaScript array can have, 2^32 - 1. */
  const MaxArrayLength: nat := 0xFFFF_FFFF

  function DigitValue(c: char): Option<nat>
  {
    if '0' <= c <= '9' then Some(c as nat - '0' as nat) else None
  }

  /** The value of a string of decimal digits, or None if some character is not a digit. */
  function DigitsValue(s: string): (r: Option<nat>)
    ensures s == "" ==> r == Some(0)
    ensures r.None? <==> exists k :: 0 <= k < |s| && DigitValue(s[k]).None?
  {
    if s == [] then Some(0)
    else match (DigitsValue(s[..|s| - 1]), DigitValue(s[|s| - 1]))
      case (Some(h), Some(d)) =>
        assert forall k :: 0 <= k < |s| - 1 ==> s[..|s| - 1][k] == s[k];
        Some(h * 10 + d)
      case (None, _) =>
        var k :| 0 <= k < |s| - 1 && DigitValue(s[..|s| - 1][k]).None?;
        assert DigitValue(s[k]).None?;
        None
      case (_, None) => None
  }

  /**
   * The array index a property name denotes: a canonical decimal numeral
   * (no sign, no leading zero except "0" itself) below 2^32 - 1.
   */
  function ArrayIndex(key: string): (r: Option<nat>)
    ensures r.Some? ==> r.value < MaxArrayLength
    ensures r.Some? ==> key != "" && DigitValue(key[0]).Some?
  {
    if key == "" || (|key| > 1 && key[0] == '0') then None
    else match DigitsValue(key)
      case Some(i) => if i < MaxArrayLength then Some(i) else None
      case None => None
  }

  /**
   * `key in x` for a value of object type. A parsed object has its own keys;
   * an array has "length" and its indices. Properties inherited from the
   * prototypes are not modelled.
   */
  predicate HasProperty(x: Json, key: string)
    requires x.JArr? || x.JObj?
  {
    match x
    case JObj(fields) => key in fields
    case JArr(elems) =>
      key == "length" || (ArrayIndex(key).Some? && ArrayIndex(key).value < |elems|)
  }

  /** `x[key]` for a value of object type: the property's value, or `undefined`. */
  function GetProperty(x: Json, key: string): (r: JsValue)
    requires x.JArr? || x.JObj?
    // On a parsed object, `typeof x[key] === 'string'` exactly when the key is present with a string value.
    ensures x.JObj? ==> (TypeOf(r) == "string" <==> key in x.fields && x.fields[key].JStr?)
    // On an array, only an index can read a string; "length" reads a number.
    ensures x.JArr? && TypeOf(r) == "string" ==> ArrayIndex(key).Some?
    ensures x.JArr? && key == "length" ==> TypeOf(r) == "number"
  {
    match x
    case JObj(fields) => if key in fields then Defined(fields[key]) else Undefined
    case JArr(elems) =>
      if key == "length" then Defined(JNum(|elems| as real))
      else if ArrayIndex(key).Some? && ArrayIndex(key).value < |elems|
      then Defined(elems[ArrayIndex(key).value])
      else Undefined
  }

  /** `!x` holds exactly of null, false, 0 and the empty string. */
  lemma FalsyValues(x: Json)
    ensures !Truthy(x) <==> x == JNull || x == JBool(false) || x == JNum(0.0) || x == JStr("")
  {
  }

  /** A name that starts with a letter, such as "type" or "payload", is never a property of an array. */
  lemma ArrayLacksNamedKey(elems: seq<Json>, key: string)
    requires key != "" && key != "length" && DigitValue(key[0]).None?
    ensures !HasProperty(JArr(elems), key)
    ensures GetProperty(JArr(elems), key) == Undefined
  {
  }
}
