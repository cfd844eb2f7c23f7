/**
 * The collaborators that the eviction-time entry view wraps: the cache entry
 * (GridCacheEntryEx), its version (GridCacheVersion), the peek modes
 * (GridCachePeekMode), the cache mode and the cache context with its affinity.
 * None of their code is part of this model; each answer they give is recorded
 * here as an uninterpreted value or function.
 */
module CacheCollaborators {
  import opened Wrappers

  /** The peek modes of GridCachePeekMode; the view itself only ever names Smart. */
  datatype PeekMode = Tx | Global | Smart | Swap | Db | NearOnly | PartitionedOnly

  /** How a cache distributes its data; only Local is treated specially by the view. */
  datatype CacheMode = Local | Replicated | Partitioned

  /** A cluster node, identified by its node id (cluster nodes compare by id). */
  type NodeId = int

  /** An entry version; the view only reads its data-center-replication version. */
  datatype CacheVersion = CacheVersion(drVersion: int)

  /** The checked exceptions the wrapped entry's own operations can throw. */
  datatype EntryException =
    | EntryRemoved    // GridCacheEntryRemovedException: the entry was removed concurrently
    | FilterFailed    // GridCacheFilterFailedException: the peek filter rejected the entry
    | CheckedFailure  // any other IgniteCheckedException

  /** A GridTuple: a box that may hold a null value. */
  datatype PeekTuple<V> = PeekTuple(get: Option<V>)

  /**
   * What the wrapped entry holds. `peekTable` is the answer of the entry's own
   * peek0 for each mode while the entry is live (neither the local transaction
   * lookup nor the filter is modelled separately: they are folded into it).
   */
  datatype EntryState<V> = EntryState(
    peekTable: PeekMode -> Result<Option<PeekTuple<V>>, EntryException>,
    removed: bool,
    version: CacheVersion,
    obsoleteVersion: Option<CacheVersion>,
    obsolete: bool)

  /**
   * The cache context: the cache's name (null for the default cache), its mode,
   * the local node, the affinity assignment at the current topology version and
   * the cache's get-or-create entry lookup `entryEx`.
   */
  datatype CacheContext<!K, V> = CacheContext(
    cacheName: Option<string>,
    mode: CacheMode,
    localNodeId: NodeId,
    primaryNode: K -> NodeId,
    backupNodes: K -> set<NodeId>,
    entryEx: K -> EntryState<V>)

  /** A cache entry: its context, its key and its current state. */
  datatype CacheEntry<!K, V> = CacheEntry(ctx: CacheContext<K, V>, key: K, state: EntryState<V>)

  /** The wrapped entry's peek0: a removed entry throws EntryRemoved for every mode. */
  function EntryPeek<V>(s: EntryState<V>, mode: PeekMode): (r: Result<Option<PeekTuple<V>>, EntryException>)
    ensures s.removed ==> r == Failure(EntryRemoved)
  {
    if s.removed then Failure(EntryRemoved) else s.peekTable(mode)
  }

  /** The wrapped entry's version(): it throws EntryRemoved once the entry is removed. */
  function EntryVersion<V>(s: EntryState<V>): (r: Result<CacheVersion, EntryException>)
    ensures r.Failure? <==> s.removed
  {
    if s.removed then Failure(EntryRemoved) else Success(s.version)
  }

  /** ctx.cache().entryEx(key): the entry the cache holds for `key`, bound to `ctx`. */
  function EntryFor<K, V>(ctx: CacheContext<K, V>, key: K): (e: CacheEntry<K, V>)
    ensures e.ctx == ctx && e.key == key && Bound(e)
  {
    CacheEntry(ctx, key, ctx.entryEx(key))
  }

  /** An entry is bound when it is the entry its own cache holds for its key. */
  ghost predicate Bound<K, V>(e: CacheEntry<K, V>) {
    e.state == e.ctx.entryEx(e.key)
  }
}
