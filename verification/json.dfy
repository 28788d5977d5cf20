/**
 * JSON values as the page and the routes see them once parsed, together with
 * the JavaScript operators the code applies to them: truthiness, `a || b`,
 * `a ?? b` and optional property access `v?.key`.
 *
 * A JavaScript value read through optional chaining is an `Option<Json>`:
 * `None` is `undefined`, `Some(JNull)` is `null`.
 */
module Json {
  import opened Common

  datatype Json =
    | JNull
    | JBool(b: bool)
    | JNum(n: real)
    | JStr(s: string)
    | JArr(items: seq<Json>)
    | JObj(fields: map<string, Json>)

  /** JavaScript truthiness: `undefined`, `null`, `false`, `0` and `""` are falsy. */
  predicate Truthy(v: Option<Json>) {
    match v
    case None => false
    case Some(JNull) => false
    case Some(JBool(b)) => b
    case Some(JNum(n)) => n != 0.0
    case Some(JStr(s)) => s != ""
    case Some(JArr(_)) => true
    case Some(JObj(_)) => true
  }

  /** `null` or `undefined`, the values `??` and `?.` skip. */
  predicate Nullish(v: Option<Json>) {
    v.None? || v == Some(JNull)
  }

  /** `a || b` where `b` is a defined value. */
  function Or(a: Option<Json>, b: Json): Json {
    if Truthy(a) then a.value else b
  }

  /** `a ?? b` */
  function Coalesce(a: Option<Json>, b: Option<Json>): Option<Json> {
    if Nullish(a) then b else a
  }

  /** `v?.[key]` for a property name that no array or string carries of its own:
      only an object with that key yields a value. */
  function Get(v: Option<Json>, key: string): Option<Json> {
    match v
    case Some(JObj(m)) => if key in m then Some(m[key]) else None
    case _ => None
  }

  /** `v?.[0]`: the first element of an array, the property `"0"` of an object,
      the first character of a string. */
  function Index0(v: Option<Json>): Option<Json> {
    match v
    case Some(JArr(xs)) => if |xs| > 0 then Some(xs[0]) else None
    case Some(JObj(m)) => if "0" in m then Some(m["0"]) else None
    case Some(JStr(s)) => if |s| > 0 then Some(JStr([s[0]])) else None
    case _ => None
  }

  /** `Array.isArray(v)` */
  predicate IsArray(v: Option<Json>) {
    v.Some? && v.value.JArr?
  }

  /** `typeof v === "object" && v !== null` */
  predicate IsObjectLike(v: Option<Json>) {
    v.Some? && (v.value.JObj? || v.value.JArr?)
  }

  /** `JSON.stringify`'s view of `undefined` in a property: `null` stands in here. */
  function OrNull(v: Option<Json>): Json {
    v.GetOr(JNull)
  }

  /** An object whose property `key` holds the string `s`. */
  predicate HasString(v: Json, key: string) {
    v.JObj? && key in v.fields && v.fields[key].JStr?
  }
}
