/** Parsed JSON values as the front end sees them after `JSON.parse`, the browser's
    stored blobs, and the object-spread merge the pages use to update the session
    snapshot. */
module Json {
  import opened Wrappers

  /** A JSON value. Numbers are modelled as integers. */
  datatype Json =
    | JNull
    | JBool(b: bool)
    | JNum(n: int)
    | JStr(s: string)
    | JArr(items: seq<Json>)
    | JObj(fields: map<string, Json>)

  /** JavaScript truthiness: `null`, `false`, `0` and `""` are falsy; arrays and objects are truthy. */
  predicate Truthy(j: Json) {
    match j
    case JNull => false
    case JBool(b) => b
    case JNum(n) => n != 0
    case JStr(s) => s != []
    case JArr(_) => true
    case JObj(_) => true
  }

  /** `j.key` for a non-null `j`: `None` stands for `undefined`. */
  function Prop(j: Json, key: string): Option<Json> {
    if j.JObj? && key in j.fields then Some(j.fields[key]) else None
  }

  /** A list of strings as a JSON array's elements, in order. */
  function Strings(xs: seq<string>): (r: seq<Json>)
    ensures |r| == |xs|
    ensures forall k :: 0 <= k < |xs| ==> r[k] == JStr(xs[k])
  {
    if xs == [] then [] else [JStr(xs[0])] + Strings(xs[1..])
  }

  /** `v || fallback`, where `None` (undefined) is falsy. */
  function OrElse(v: Option<Json>, fallback: Json): Json {
    if v.Some? && Truthy(v.value) then v.value else fallback
  }

  /** What `localStorage.getItem(key)` followed by `JSON.parse` yields: no item (or the
      empty string), text that does not parse, or a parsed value. */
  datatype Stored = Absent | Corrupt | Parsed(value: Json)

  /** The own enumerable entries `{...j}` copies into a new object. */
  function Spread(j: Json): map<string, Json> {
    if j.JObj? then j.fields else map[]
  }

  /** `{...base, ...top}`: a shallow merge in which `top` wins on shared keys. */
  function Overwrite(base: map<string, Json>, top: map<string, Json>): (r: map<string, Json>)
    ensures r.Keys == base.Keys + top.Keys
    ensures forall k :: k in top ==> r[k] == top[k]
    ensures forall k :: k in base && k !in top ==> r[k] == base[k]
  {
    base + top
  }

  /** Two successive merges keep earlier unrelated keys and overwrite same-named ones:
      `{a:1}` then `{b:2}` gives `{a:1, b:2}`; `{a:3}` afterwards gives `{a:3, b:2}`. */
  lemma {:induction false} OverwriteSequence()
    ensures Overwrite(Overwrite(map[], map["a" := JNum(1)]), map["b" := JNum(2)])
            == map["a" := JNum(1), "b" := JNum(2)]
    ensures Overwrite(map["a" := JNum(1), "b" := JNum(2)], map["a" := JNum(3)])
            == map["a" := JNum(3), "b" := JNum(2)]
  {
  }
}
