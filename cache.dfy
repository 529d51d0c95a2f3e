/** The cache layer the dispatcher and the workers call into. Only the
    digest helper of this layer is part of the repository's files; the
    operations are modelled on an abstract store: a map from cache key to
    the stored `{source, map}` pair. */
module Cache {
  import opened Wrappers
  import opened Plugin

  /** A hex digest naming one cache file. */
  type CacheKey = string

  /** `createCacheKey(text, options)`: an uninterpreted digest function. */
  type KeyFunction = (string, PluginOptions) -> CacheKey

  /** The contents of one cache file: minified code and its optional map. */
  datatype CacheEntry = CacheEntry(source: string, sourceMap: Option<SourceMap>)

  /** The cache directory: every key on disk with its contents. */
  type Store = map<CacheKey, CacheEntry>

  /** `pruneCache(usedKeys, keysOnDisk, dir)`: every entry on disk whose key
      was not used is deleted; the used ones stay as they are. */
  function Prune(store: Store, used: seq<CacheKey>): (r: Store)
    ensures forall k :: k in r <==> k in store && k in used
    ensures forall k :: k in r ==> r[k] == store[k]
  {
    map k | k in store && k in used :: store[k]
  }

  /** Entries used by an earlier call survive a prune made with a list that
      only grows: a key recorded once is never pruned afterwards. */
  lemma PruneKeepsEarlierKeys(store: Store, earlier: seq<CacheKey>, later: seq<CacheKey>, k: CacheKey)
    requires k in store && k in earlier
    ensures k in Prune(store, earlier + later)
  {
  }
}
