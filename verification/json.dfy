/**
 * JSON values as `JSON.parse` produces them. Parsing and printing are not
 * modelled: they are passed in as a `Parser` (a partial function, `None`
 * where `JSON.parse` throws) and a `Printer` (`JSON.stringify`).
 */
module JsonValues {
  import opened Options

  datatype Json =
    | JNull
    | JBool(b: bool)
    | JNumber(n: real)
    | JString(str: string)
    | JArray(items: seq<Json>)
    | JObject(fields: map<string, Json>)

  type Parser = string -> Option<Json>

  type Printer = Json -> string

  /** `typeof j[key] === 'string'`. */
  predicate HasString(j: Json, key: string) {
    j.JObject? && key in j.fields && j.fields[key].JString?
  }

  /** `Array.isArray(j[key])`. */
  predicate HasArray(j: Json, key: string) {
    j.JObject? && key in j.fields && j.fields[key].JArray?
  }

  function StringAt(j: Json, key: string): string
    requires HasString(j, key)
  {
    j.fields[key].str
  }

  function ArrayAt(j: Json, key: string): seq<Json>
    requires HasArray(j, key)
  {
    j.fields[key].items
  }
}
