/** JSON-like values as they travel through the forwarder: request bodies,
    downstream response bodies and the payloads the handlers build themselves.
    Numbers are mathematical reals; the IEEE-754 doubles of JavaScript are not modelled. */
module JsonValues {
  import opened Wrappers

  datatype Json =
    | JNull
    | JBool(b: bool)
    | JNum(n: real)
    | JStr(s: string)
    | JArr(items: seq<Json>)
    | JObj(fields: map<string, Json>)

  /** The JavaScript property read `v.k` on a non-null value, for property names
      that no built-in prototype defines (`params`, `err`): only an object that
      owns the key yields something; everything else yields `undefined` (`None`). */
  function Get(v: Json, k: string): Option<Json>
  {
    if v.JObj? && k in v.fields then Some(v.fields[k]) else None
  }
}
