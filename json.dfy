/**
 * Parsed JSON values and the JavaScript coercions the indicator applies to them:
 * truthiness, `??`, `||`, property access, `String(value)`, `Object.values` and
 * `for … of` iteration.
 */
module Js {
  import opened Wrappers
  import opened Text

  /**
   * A JavaScript value as it comes out of `JSON.parse`. `JUndef` is what reading
   * a missing property yields. Numbers are integers; objects keep their key order.
   */
  datatype Json =
    | JUndef
    | JNull
    | JBool(b: bool)
    | JNum(n: int)
    | JStr(s: string)
    | JArr(items: seq<Json>)
    | JObj(fields: seq<(string, Json)>)

  /** What a JavaScript operation throws: a TypeError, or an Error with a message. */
  datatype JsError = TypeError | Error(message: string)

  /** The text of `error.message`; the engine's wording of a type error is not modelled. */
  function ErrorMessage(e: JsError): string {
    match e
    case TypeError => "TypeError"
    case Error(m) => m
  }

  /** `value === null || value === undefined`. */
  predicate Nullish(j: Json) {
    j.JUndef? || j.JNull?
  }

  /** JavaScript truthiness. */
  predicate Truthy(j: Json) {
    match j
    case JUndef => false
    case JNull => false
    case JBool(b) => b
    case JNum(n) => n != 0
    case JStr(s) => s != ""
    case JArr(_) => true
    case JObj(_) => true
  }

  lemma NullishIsFalsy(j: Json)
    ensures Nullish(j) ==> !Truthy(j)
  {
  }

  function Lookup(fields: seq<(string, Json)>, key: string): (r: Option<Json>)
    ensures r.Some? ==> exists i :: 0 <= i < |fields| && fields[i] == (key, r.value)
    ensures r.None? ==> forall i :: 0 <= i < |fields| ==> fields[i].0 != key
  {
    if fields == [] then None
    else if fields[0].0 == key then Some(fields[0].1)
    else Lookup(fields[1..], key)
  }

  /**
   * `j.key` on a value that is not null or undefined (reading a property of
   * those throws a TypeError, which callers model themselves).
   */
  function Get(j: Json, key: string): Json
    requires !Nullish(j)
  {
    match j
    case JObj(fields) => Lookup(fields, key).GetOr(JUndef)
    case _ => JUndef
  }

  /** `j?.key`. */
  function GetOpt(j: Json, key: string): (r: Json)
    ensures Nullish(j) ==> r == JUndef
  {
    if Nullish(j) then JUndef else Get(j, key)
  }

  /** `a ?? b`. */
  function Coalesce(a: Json, b: Json): Json {
    if Nullish(a) then b else a
  }

  /** `a || b`. */
  function Or(a: Json, b: Json): Json {
    if Truthy(a) then a else b
  }

  /**
   * `j[keys[0]] ?? j[keys[1]] ?? … ?? j[keys[n-1]]`: the first candidate field
   * that holds a value; when none does, the last one's (null or undefined).
   */
  function FirstPresent(j: Json, keys: seq<string>): (r: Json)
    requires !Nullish(j)
    ensures Nullish(r) <==> forall k :: 0 <= k < |keys| ==> Nullish(Get(j, keys[k]))
    ensures !Nullish(r) ==>
      exists k :: 0 <= k < |keys| && r == Get(j, keys[k])
        && forall i :: 0 <= i < k ==> Nullish(Get(j, keys[i]))
  {
    if keys == [] then JUndef
    else if |keys| == 1 then Get(j, keys[0])
    else
      assert forall k :: 1 <= k < |keys| ==> keys[1..][k - 1] == keys[k];
      Coalesce(Get(j, keys[0]), FirstPresent(j, keys[1..]))
  }

  /** `String(j)`: how JavaScript turns a value into text. */
  function ToStr(j: Json): string
    decreases j
  {
    match j
    case JUndef => "undefined"
    case JNull => "null"
    case JBool(b) => if b then "true" else "false"
    case JNum(n) => IntToString(n)
    case JStr(s) => s
    case JArr(items) =>
      // Array.prototype.join(','): null and undefined elements print as ''
      Join(seq(|items|, i requires 0 <= i < |items| =>
        if Nullish(items[i]) then "" else ToStr(items[i])), ',')
    case JObj(_) => "[object Object]"
  }

  lemma ToStrOfString(s: string)
    ensures ToStr(JStr(s)) == s
  {
  }

  /** `Object.values(j)` for a value that is not null or undefined. */
  function ObjectValues(j: Json): (r: seq<Json>)
    ensures j.JObj? ==> |r| == |j.fields| && forall i :: 0 <= i < |r| ==> r[i] == j.fields[i].1
    ensures j.JStr? ==> |r| == |j.s| && forall i :: 0 <= i < |r| ==> r[i] == JStr([j.s[i]])
    ensures !j.JObj? && !j.JStr? && !j.JArr? ==> r == []
  {
    match j
    case JObj(fields) => seq(|fields|, i requires 0 <= i < |fields| => fields[i].1)
    case JStr(s) => seq(|s|, i requires 0 <= i < |s| => JStr([s[i]]))
    case JArr(items) => items
    case _ => []
  }

  /**
   * The elements `for (const x of j)` visits: an array's items or a string's
   * characters. None stands for the TypeError thrown on anything else.
   */
  function Iterate(j: Json): (r: Option<seq<Json>>)
    ensures r.Some? <==> j.JArr? || j.JStr?
    ensures j.JArr? ==> r == Some(j.items)
  {
    match j
    case JArr(items) => Some(items)
    case JStr(s) => Some(seq(|s|, i requires 0 <= i < |s| => JStr([s[i]])))
    case _ => None
  }
}
