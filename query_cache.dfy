/** The client-side query cache (react-query's QueryClient) as an explicitly
    owned object: every cached query is known by its key, and carries a flag
    saying whether it is stale, that is, due to be fetched again. */
module QueryCache {

  /** One element of a query key: a string, or `undefined` (what
      `identity?.getPrincipal().toString()` yields without an identity). */
  datatype KeyPart = Str(s: string) | Undefined

  type QueryKey = seq<KeyPart>

  /** `invalidateQueries({ queryKey: prefix })` selects the queries whose key
      starts with `prefix`. */
  predicate IsPrefix(prefix: QueryKey, key: QueryKey) {
    |prefix| <= |key| && key[..|prefix|] == prefix
  }

  /** The cache after invalidating the queries under `prefix`: every selected
      entry is stale, every other entry keeps its flag, no entry appears or
      disappears. */
  function Invalidate(entries: map<QueryKey, bool>, prefix: QueryKey): (r: map<QueryKey, bool>)
    ensures r.Keys == entries.Keys
    ensures forall k :: k in entries && IsPrefix(prefix, k) ==> r[k]
    ensures forall k :: k in entries && !IsPrefix(prefix, k) ==> r[k] == entries[k]
  {
    map k | k in entries :: entries[k] || IsPrefix(prefix, k)
  }

  /** Invalidating twice under the same prefix is invalidating once. */
  lemma InvalidateIdempotent(entries: map<QueryKey, bool>, prefix: QueryKey)
    ensures Invalidate(Invalidate(entries, prefix), prefix) == Invalidate(entries, prefix)
  {
  }

  /** The order of two invalidations does not matter. */
  lemma InvalidateCommutes(entries: map<QueryKey, bool>, p: QueryKey, q: QueryKey)
    ensures Invalidate(Invalidate(entries, p), q) == Invalidate(Invalidate(entries, q), p)
  {
  }

  /** Whether reading the query under `key` goes to the remote: it is not
      cached, or it is cached but stale. */
  predicate NeedsFetch(entries: map<QueryKey, bool>, key: QueryKey) {
    key !in entries || entries[key]
  }

  class Cache {
    /** Each cached query's key, mapped to its stale flag. */
    var entries: map<QueryKey, bool>

    constructor (initial: map<QueryKey, bool>)
      ensures entries == initial
    {
      entries := initial;
    }

    /** `queryClient.invalidateQueries({ queryKey: prefix })`. */
    method InvalidateQueries(prefix: QueryKey)
      modifies this
      ensures entries == Invalidate(old(entries), prefix)
    {
      entries := Invalidate(entries, prefix);
    }
  }
}
