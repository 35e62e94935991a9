/**
 * JSON-shaped values: the dictionaries the sync builds and compares (user
 * profiles, preferences, remote-account extra data) and the bodies the
 * authorization service returns.
 */
module Json {

  datatype Value =
    | Null
    | Bool(b: bool)
    | Int(i: int)
    | Str(s: string)
    | Array(items: seq<Value>)
    | Object(fields: map<string, Value>)

  /** A Python dict with string keys. */
  type Dict = map<string, Value>

  /** `d.get(key)`: the value, or None when the key is absent. */
  function Get(d: Dict, key: string): Value
  {
    if key in d then d[key] else Null
  }

  /** `d.get(key, default)`. */
  function GetOr(d: Dict, key: string, default: Value): Value
  {
    if key in d then d[key] else default
  }

  /**
   * `{**local, **incoming}` and `local.update(**incoming)`: a shallow merge in
   * which the incoming value wins on every key it has.
   */
  function Merge(local: Dict, incoming: Dict): (r: Dict)
    ensures r.Keys == local.Keys + incoming.Keys
    ensures forall k :: k in incoming ==> r[k] == incoming[k]
    ensures forall k :: k in local && k !in incoming ==> r[k] == local[k]
  {
    local + incoming
  }

  /** Merging the same incoming values a second time changes nothing. */
  lemma MergeIdempotent(local: Dict, incoming: Dict)
    ensures Merge(Merge(local, incoming), incoming) == Merge(local, incoming)
  {
  }
}
