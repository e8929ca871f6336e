/**
 * Decoded JSON values as the job adapters see them, with the JavaScript
 * semantics the adapters use on them: truthiness, `a || b`, property access
 * and conversion to a string inside a template literal.
 */
module JsValue {
  import opened Wrappers
  import opened Text

  /** A value produced by `response.json()`. Numbers are integral in this model. */
  datatype Json =
    | JNull
    | JBool(b: bool)
    | JNum(n: int)
    | JStr(s: string)
    | JArr(items: seq<Json>)
    | JObj(fields: map<string, Json>)

  /** JavaScript truthiness of a value that may be `undefined` (None). */
  predicate Truthy(v: Option<Json>) {
    match v
    case None => false
    case Some(JNull) => false
    case Some(JBool(b)) => b
    case Some(JNum(n)) => n != 0
    case Some(JStr(s)) => s != ""
    case Some(_) => true
  }

  /** `a || b`: the left operand when it is truthy, otherwise the right one. */
  function Or(a: Option<Json>, b: Option<Json>): Option<Json> {
    if Truthy(a) then a else b
  }

  /** `v.key` on a value that is not null: an object's own field, `undefined` on anything else. */
  function Field(v: Json, key: string): Option<Json> {
    if v.JObj? && key in v.fields then Some(v.fields[key]) else None
  }

  /** `v?.key`: `undefined` when v is null or undefined. */
  function OptField(v: Option<Json>, key: string): Option<Json> {
    if v.None? || v.value.JNull? then None else Field(v.value, key)
  }

  /** `${v}` inside a template literal. */
  function ToText(v: Json): string {
    match v
    case JNull => "null"
    case JBool(b) => if b then "true" else "false"
    case JNum(n) => IntToString(n)
    case JStr(s) => s
    case JArr(items) =>
      Join(seq(|items|, i requires 0 <= i < |items| => if items[i].JNull? then "" else ToText(items[i])), ",")
    case JObj(_) => "[object Object]"
  }

  /** `${v}` for a value that may be `undefined`. */
  function OptText(v: Option<Json>): string {
    if v.None? then "undefined" else ToText(v.value)
  }

  /** `items.join(sep)`: null elements contribute the empty string. */
  function JoinValues(items: seq<Json>, sep: string): string {
    Join(seq(|items|, i requires 0 <= i < |items| => if items[i].JNull? then "" else ToText(items[i])), sep)
  }

  /** A string constant as a JSON value, for the literal right operands of `||`. */
  function Lit(s: string): Option<Json> {
    Some(JStr(s))
  }
}
