/**
 * Query keys of the client-side query cache. A key is an array of parts
 * (strings and numbers); invalidating with a filter key marks every cached
 * key that the filter is a prefix of, part by part.
 */
module QueryKeys {
  datatype KeyPart = Text(text: string) | Number(number: int)

  type QueryKey = seq<KeyPart>

  /** Partial matching: a filter key selects every key it is a prefix of. */
  predicate Matches(filter: QueryKey, key: QueryKey)
  {
    |filter| <= |key| && key[..|filter|] == filter
  }

  /**
   * The cache as a map from key to its "stale" flag. Invalidation with
   * `filter` keeps every entry and marks stale exactly the matching ones.
   */
  function Invalidate(cache: map<QueryKey, bool>, filter: QueryKey): (r: map<QueryKey, bool>)
    ensures r.Keys == cache.Keys
    ensures forall k :: k in r && Matches(filter, k) ==> r[k]
    ensures forall k :: k in r && !Matches(filter, k) ==> r[k] == cache[k]
  {
    map k | k in cache :: cache[k] || Matches(filter, k)
  }
}
