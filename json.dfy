/** JSON values, the shape of the LTI 1.3 id_token claims held in the session.
    A missing key of an object (JavaScript `undefined`) is a key absent from
    the map. Numbers are exact reals: floating-point rounding is not modelled. */
module Json {

  datatype Json =
    | JNull
    | JBool(b: bool)
    | JNumber(num: real)
    | JString(str: string)
    | JArray(items: seq<Json>)
    | JObject(fields: map<string, Json>)

  /** True when `key` is present in `fields` and holds a string (zod `z.string()`). */
  predicate HasString(fields: map<string, Json>, key: string)
  {
    key in fields && fields[key].JString?
  }

  /** True when `key` is present in `fields` and holds a number (zod `z.number()`). */
  predicate HasNumber(fields: map<string, Json>, key: string)
  {
    key in fields && fields[key].JNumber?
  }

  /** True when `key` is present in `fields` and holds an object (zod `z.object(...)`). */
  predicate HasObject(fields: map<string, Json>, key: string)
  {
    key in fields && fields[key].JObject?
  }
}
