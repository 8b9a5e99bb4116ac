/** The `Json` value type of src/index.ts and the JavaScript notion of a
    falsy value, which the validator uses to skip validation of empty bodies. */
module JsonValues {
  import opened Wrappers

  /** `string | number | boolean | null | Json[] | { [key: string]: Json }`.
      Numbers are modelled as integers; object key order is not modelled. */
  datatype Json =
    | JNull
    | JBool(b: bool)
    | JNumber(n: int)
    | JString(s: string)
    | JArray(items: seq<Json>)
    | JObject(fields: map<string, Json>)

  /** JavaScript's `!value` on a Json value: null, false, 0 and "" are falsy;
      every array and every object (even an empty one) is truthy. */
  predicate Falsy(j: Json) {
    match j
    case JNull => true
    case JBool(b) => !b
    case JNumber(n) => n == 0
    case JString(s) => s == ""
    case JArray(_) => false
    case JObject(_) => false
  }

  /** A Json object whose fields are the given string-valued entries. */
  function StringObject(m: map<string, string>): (j: Json)
    ensures j.JObject? && j.fields.Keys == m.Keys
    ensures forall k :: k in m ==> j.fields[k] == JString(m[k])
  {
    JObject(map k | k in m :: JString(m[k]))
  }

  /** A Json object holding only the defined entries of a record whose values
      may be `undefined` (`None`): an undefined property is not serialised
      and an object schema treats it as absent. */
  function DefinedFields(m: map<string, Option<string>>): (j: Json)
    ensures j.JObject?
    ensures forall k :: k in j.fields <==> k in m && m[k].Some?
    ensures forall k :: k in j.fields ==> j.fields[k] == JString(m[k].value)
  {
    JObject(map k | k in m && m[k].Some? :: JString(m[k].value))
  }
}
