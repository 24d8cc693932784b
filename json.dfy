/** Values produced by `JSON.parse`, and the few JavaScript operations the
    validators apply to them: truthiness, property reads and `typeof` tests. */
module JsonValues {
  import opened Wrappers

  /** A parsed JSON value. JSON numbers are IEEE doubles; they are read as reals,
      which is exact for every test applied to them here (only "is it zero"). */
  datatype Json =
    | JNull
    | JBool(b: bool)
    | JNum(n: real)
    | JStr(s: string)
    | JArr(items: seq<Json>)
    | JObj(fields: map<string, Json>)

  /** JavaScript truthiness: `null`, `false`, `0` and `""` are falsy, every array
      and object is truthy. */
  predicate Truthy(v: Json) {
    match v
    case JNull => false
    case JBool(b) => b
    case JNum(n) => n != 0.0
    case JStr(s) => s != ""
    case JArr(_) => true
    case JObj(_) => true
  }

  /** Truthiness of a property read; `undefined` (None) is falsy. */
  predicate TruthyOpt(v: Option<Json>) {
    v.Some? && Truthy(v.value)
  }

  /** `v.key` for a value that is not `null`: an own property of an object,
      `undefined` (None) for a missing key and for every non-object. Reading a
      property of `null` throws instead; callers test JNull first. */
  function Prop(v: Json, key: string): (r: Option<Json>)
    ensures r.Some? <==> v.JObj? && key in v.fields
    ensures r.Some? ==> r.value == v.fields[key]
  {
    match v
    case JObj(m) => if key in m then Some(m[key]) else None
    case _ => None
  }

  /** The field is present and holds a string. */
  predicate IsStringProp(v: Json, key: string) {
    var p := Prop(v, key);
    p.Some? && p.value.JStr?
  }

  /** The field is present and is exactly the string `text` (strict equality). */
  predicate PropIs(v: Json, key: string, text: string) {
    Prop(v, key) == Some(JStr(text))
  }

  /** The field is present, is an array, and every element of it is a string. */
  predicate IsStringArrayProp(v: Json, key: string) {
    var p := Prop(v, key);
    p.Some? && p.value.JArr? &&
    forall i :: 0 <= i < |p.value.items| ==> p.value.items[i].JStr?
  }

  /** A non-empty string: truthy and `typeof` 'string'. */
  predicate IsNonEmptyString(v: Json) {
    v.JStr? && v.s != ""
  }

  /** The JavaScript type test for "object", which also holds for null and for
      every array. */
  predicate TypeofIsObject(v: Json) {
    v.JNull? || v.JArr? || v.JObj?
  }
}
