// JSON-like values: the dictionaries that the service builds, patches and stores.

module Json {

  import opened Wrappers

  datatype Json =
    | JNull
    | JBool(b: bool)
    | JInt(i: int)
    | JStr(s: string)
    | JList(items: seq<Json>)
    | JObj(fields: map<string, Json>)

  /** A string-keyed record (a Python `dict`). Key order is not modelled. */
  type Dict = map<string, Json>

  /** Python truthiness of a JSON value. */
  predicate Truthy(j: Json)
  {
    match j
    case JNull => false
    case JBool(b) => b
    case JInt(i) => i != 0
    case JStr(s) => s != ""
    case JList(xs) => xs != []
    case JObj(m) => m != map[]
  }

  /** `d.get(k)`: the value under `k`, or None when the key is missing. */
  function Get(d: Dict, k: string): (r: Json)
    ensures k !in d ==> r == JNull
    ensures k in d ==> r == d[k]
  {
    if k in d then d[k] else JNull
  }

  /** The integer under `k`, when the key holds one. */
  function GetInt(d: Dict, k: string): (r: Option<int>)
    ensures r.Some? <==> k in d && d[k].JInt?
    ensures r.Some? ==> d[k] == JInt(r.value)
  {
    if k in d && d[k].JInt? then Some(d[k].i) else None
  }

  /** The `id` of a nested object value (`obj.id` of a related entity), when there is one. */
  function RefId(j: Json): (r: Option<int>)
    ensures r.Some? <==> j.JObj? && "id" in j.fields && j.fields["id"].JInt?
  {
    if j.JObj? then GetInt(j.fields, "id") else None
  }

  /** `None` for a missing value, the integer otherwise (a nullable integer column). */
  function OptIntJson(o: Option<int>): (r: Json)
    ensures o.None? ==> r == JNull
    ensures o.Some? ==> r == JInt(o.value)
  {
    if o.Some? then JInt(o.value) else JNull
  }

  /** `dict.update`: every key of `extra` overrides the same key of `base`. */
  function Update(base: Dict, extra: Dict): (r: Dict)
    ensures r.Keys == base.Keys + extra.Keys
    ensures forall k :: k in extra ==> r[k] == extra[k]
    ensures forall k :: k in base && k !in extra ==> r[k] == base[k]
  {
    base + extra
  }
}
