/**
 * The store's schema-less wire shape: a string, a number kept as decimal text, a map of
 * named values, a list, or the explicit null marker.
 */
module AttributeValues {
  import opened Wrappers

  datatype AttributeValue =
    | S(s: string)
    | N(n: string)
    | M(m: map<string, AttributeValue>)
    | L(l: seq<AttributeValue>)
    | Nul

  /** Map.get on an attribute map: an absent key gives null, which differs from a key holding Nul. */
  function Lookup(values: map<string, AttributeValue>, name: string): (r: Option<AttributeValue>)
    ensures r.Some? <==> name in values
    ensures r.Some? ==> r.value == values[name]
  {
    if name in values then Some(values[name]) else None
  }
}
