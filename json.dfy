/**
 * The JSON objects the client sends, as key/value maps. Byte-level
 * encoding is not modelled; an object is what `json.Marshal` would print.
 */
module Json {

  datatype Value = JString(str: string) | JNumber(num: int) | JObject(fields: map<string, Value>)

  type Object = map<string, Value>

  /** No member of the object is itself an object. */
  predicate Flat(o: Object)
  {
    forall k :: k in o ==> !o[k].JObject?
  }

  /**
   * The object `json.Marshal` prints for an anonymous struct that embeds
   * two structs whose fields marshal to `a` and `b`: the fields of both
   * are promoted to the top level. Under Go's rule for embedded fields, a
   * JSON name that both structs tag at the same depth is ambiguous and is
   * dropped from the output on both sides.
   */
  function Flatten(a: Object, b: Object): (r: Object)
    ensures r.Keys == (a.Keys + b.Keys) - (a.Keys * b.Keys)
    ensures forall k :: k in r && k in a ==> r[k] == a[k]
    ensures forall k :: k in r && k in b ==> r[k] == b[k]
    ensures Flat(a) && Flat(b) ==> Flat(r)
  {
    map k | k in (a.Keys + b.Keys) - (a.Keys * b.Keys) :: if k in a then a[k] else b[k]
  }

  /** When the two structs share no JSON name, flattening loses nothing. */
  lemma FlattenDisjoint(a: Object, b: Object)
    requires a.Keys !! b.Keys
    ensures Flatten(a, b) == a + b
    ensures |Flatten(a, b)| == |a| + |b|
  {
  }
}
