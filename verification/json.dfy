/**
 * JSON as the modelled code sees it: the values `JSON.parse` yields, the
 * JavaScript truthiness and property reads applied to them, and the text codec
 * `JSON.stringify`/`JSON.parse`, kept abstract behind the two facts of
 * RFC 8259 that the code relies on.
 */
module Json {
  import opened Wrappers

  /** A parsed JSON value. Numbers are kept as integers: only whether a number is zero matters here. */
  datatype Json =
    | JNull
    | JBool(b: bool)
    | JNum(n: int)
    | JStr(s: string)
    | JArr(items: seq<Json>)
    | JObj(fields: map<string, Json>)

  /** JavaScript truthiness of a parsed value: `null`, `false`, `0` and `""` are falsy. */
  predicate Truthy(v: Json) {
    match v
    case JNull => false
    case JBool(b) => b
    case JNum(n) => n != 0
    case JStr(s) => s != ""
    case JArr(_) => true
    case JObj(_) => true
  }

  /**
   * `v.name` on a parsed value other than `null` (reading a property of `null`
   * throws a TypeError, so callers rule it out first). None is `undefined`.
   * Only the own fields of objects are seen: none of the names read by the
   * modelled code is an inherited property.
   */
  function Get(v: Json, name: string): Option<Json>
    requires !v.JNull?
  {
    if v.JObj? && name in v.fields then Some(v.fields[name]) else None
  }

  /** `p || fallback`, for a property read `p`. */
  function OrElse(p: Option<Json>, fallback: Json): (r: Json)
    ensures Truthy(fallback) ==> Truthy(r)
    ensures p.Some? && Truthy(p.value) ==> r == p.value
    ensures !(p.Some? && Truthy(p.value)) ==> r == fallback
  {
    if p.Some? && Truthy(p.value) then p.value else fallback
  }

  /** A JSON text codec for values of type V: `JSON.stringify` and `JSON.parse` (None when it throws). */
  datatype Codec<!V> = Codec(serialize: V -> string, parse: string -> Option<V>)

  /**
   * What RFC 8259 guarantees of a conforming codec and the model relies on: the
   * empty string is not a JSON text, so parsing it fails; the text of a
   * serialized value is never empty; and parsing it gives the value back.
   */
  ghost predicate Lawful<V(!new)>(c: Codec<V>) {
    && c.parse("") == None
    && forall v :: c.serialize(v) != "" && c.parse(c.serialize(v)) == Some(v)
  }
}
