/**
 * The decoded JSON value, as `json.loads` hands it to the scraper, and the
 * few Python operations the scraper applies to it.
 */
module Json {
  import opened Wrappers

  datatype JsonValue =
    | JNull
    | JBool(b: bool)
    | JNumber(n: int)
    | JString(s: string)
    | JArray(items: seq<JsonValue>)
    | JObject(fields: map<string, JsonValue>)

  /** The `""` every missing slot defaults to. */
  const EmptyString: JsonValue := JString("")

  /** The `{}` a missing sub-object defaults to. */
  const EmptyObject: JsonValue := JObject(map[])

  /** `dict.get(key, default)`. */
  function Get(m: map<string, JsonValue>, key: string, default: JsonValue): JsonValue {
    if key in m then m[key] else default
  }

  /** `bool(v)` in Python: empty containers, `""`, `0`, `False` and `None` are falsy. */
  predicate Truthy(v: JsonValue) {
    match v
    case JNull => false
    case JBool(b) => b
    case JNumber(n) => n != 0
    case JString(s) => s != ""
    case JArray(items) => items != []
    case JObject(fields) => fields != map[]
  }

  /** `v[path[0]][path[1]]...`, or None when some step is not an object holding that key. */
  function At(v: JsonValue, path: seq<string>): Option<JsonValue>
    decreases |path|
  {
    if path == [] then Some(v)
    else if v.JObject? && path[0] in v.fields then At(v.fields[path[0]], path[1..])
    else None
  }

  /** The key set of the object found at `path`, if it is an object. */
  function KeysAt(v: JsonValue, path: seq<string>): Option<set<string>> {
    match At(v, path)
    case Some(JObject(fields)) => Some(fields.Keys)
    case _ => None
  }

  /** Following `p + q` is following `p`, then `q` from where `p` leads. */
  lemma {:induction false} AtConcat(v: JsonValue, p: seq<string>, q: seq<string>)
    decreases |p|
    ensures At(v, p + q) == match At(v, p) case Some(w) => At(w, q) case None => None
  {
    if p == [] {
      assert p + q == q;
    } else {
      assert (p + q)[0] == p[0];
      assert (p + q)[1..] == p[1..] + q;
      if v.JObject? && p[0] in v.fields {
        AtConcat(v.fields[p[0]], p[1..], q);
      }
    }
  }

  /** A one-key path is a single lookup. */
  lemma AtSingle(v: JsonValue, key: string)
    ensures At(v, [key]) == if v.JObject? && key in v.fields then Some(v.fields[key]) else None
  {
    assert [key][1..] == [];
  }
}
