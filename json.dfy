/**
 * The nested key-value structure a channel event carries as its payload
 * (a Swift `[String: Any]` decoded from JSON). Swift's conditional casts
 * `as? [String: Any]` and `as? String` become the two lookups below.
 */
module Json {
  import opened Wrappers

  datatype J =
    | JNull
    | JBool(b: bool)
    | JNum(n: int)
    | JStr(str: string)
    | JArr(items: seq<J>)
    | JObj(fields: map<string, J>)

  /** `m[key] as? [String: Any]`: the value under `key`, if it is a dictionary. */
  function ObjectAt(m: map<string, J>, key: string): Option<map<string, J>>
  {
    if key in m && m[key].JObj? then Some(m[key].fields) else None
  }

  /** `m[key] as? String`: the value under `key`, if it is a string. */
  function StringAt(m: map<string, J>, key: string): Option<string>
  {
    if key in m && m[key].JStr? then Some(m[key].str) else None
  }
}
