/** Values of the JSON documents the engine receives, and JavaScript's coercions on them. */
module Json {
  import opened Wrappers

  /**
   * A JSON value. A number carries the text JavaScript's `String(x)` gives for it; an
   * array carries the text `String(a)` gives for it (its elements joined with commas); an
   * object's contents are never read, only its rendering `[object Object]`.
   */
  datatype Json =
    | JNull | JBool(b: bool) | JNumber(text: string) | JString(s: string)
    | JArray(text: string) | JObject

  /** Arrays and objects: JavaScript compares them by identity, not by contents. */
  predicate IsComposite(v: Json) {
    v.JArray? || v.JObject?
  }

  /**
   * `a === b` for values read from two separately parsed documents: scalars (and
   * `undefined`) compare by value, while a freshly parsed array or object is a new object,
   * identical to no other value.
   */
  predicate StrictEquals(a: Option<Json>, b: Option<Json>) {
    a == b && !(a.Some? && IsComposite(a.value))
  }

  /** `list.includes(x)`: some element is identical to `x`. */
  predicate Includes(list: seq<Option<Json>>, x: Option<Json>) {
    exists i :: 0 <= i < |list| && StrictEquals(list[i], x)
  }

  /** JavaScript truthiness (a JSON number is never NaN, and `String(-0)` is "0"). */
  predicate Truthy(v: Option<Json>) {
    match v
    case None => false
    case Some(JNull) => false
    case Some(JBool(b)) => b
    case Some(JNumber(t)) => t != "0"
    case Some(JString(s)) => s != ""
    case Some(JArray(_)) => true
    case Some(JObject) => true
  }

  /** `v.toString()` / `String(v)` of a present value. */
  function ToText(v: Json): string {
    match v
    case JNull => "null"
    case JBool(b) => if b then "true" else "false"
    case JNumber(t) => t
    case JString(s) => s
    case JArray(t) => t
    case JObject => "[object Object]"
  }

  /** What a template literal `${v}` writes for a possibly missing value. */
  function Render(v: Option<Json>): string {
    match v
    case None => "undefined"
    case Some(j) => ToText(j)
  }

  /**
   * The fields of a device's announcement object (`deveiceInfo`) that the engine reads;
   * the same shape is stored in a known device's object and handed back at start-up.
   */
  datatype Announcement = Announcement(devName: Option<Json>, uuid: Option<Json>,
                                       ip: Option<Json>, mac: Option<Json>)
}
