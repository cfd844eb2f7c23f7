# GridCacheEvictionEntry: the eviction-time entry view

This project models `GridCacheEvictionEntry`, the read-only wrapper around a cache
entry that eviction code is handed. Through it, eviction code can look at an entry
without changing it.

- `peek` takes one mode, or an ordered collection of modes. A null mode, or a null or
  empty collection, means a single `SMART` peek. For a collection, the first mode
  whose peek gives a value decides the result.
- Peeking a removed entry gives null and never fails.
- `version()` reads the current version. If the entry has been removed, it reads the
  obsolete version instead.
- `primary()` and `backup()` classify the local node from the cache mode and the
  key's affinity assignment.
- `isCached()` is true while the entry is not obsolete.
- `evict()` hands the entry to the eviction manager. A failure of the manager reads
  as "not evicted".
- `equals` compares keys, cache names and the values `peek()` returns. `hashCode` is
  the key's hash code alone.
- `writeExternal` writes the cache context, then the key. `readExternal` reads them
  back and rebinds to that cache's entry for the key.
- Every operation that would read through, change or lock the entry throws
  `UnsupportedOperationException("Operation not supported during eviction.")`.

Layout:

- `wrappers.dfy`: `Option` (Java's null) and `Result` (a value or a thrown exception).
- `cache_collaborators.dfy`: the parts the view wraps. These are the entry
  (`GridCacheEntryEx`), its versions, the peek modes, the cache mode and the cache
  context with its affinity. Each answer they give is an uninterpreted value or a
  function field.
- `eviction_entry.dfy`: the view. Its queries are functions of the wrapped entry.
  The class `EvictionEntry` holds the one mutable field, `cached`, together with the
  members that need the object itself: the constructors, serialisation, `equals`
  (which looks at object identity), `hashCode` and the refused operations.
- `eviction_entry_properties.dfy`: lemmas that relate several calls, and the
  Externalizable protocol end to end.

Modelling choices:

- The wrapped entry is a value `CacheEntry(ctx, key, state)`.
- `state.peekTable` is what the entry's own `peek0` returns, per mode, while the
  entry is live. A removed entry makes that `peek0` throw `EntryRemoved` for every
  mode.
- `ctx.entryEx` models `ctx.cache().entryEx(key)` as a total function from keys to
  entry states.
- Cluster nodes are identified by their node id. `backups(...).contains(localNode())`
  is therefore modelled as membership of the local node id.
- Java's `null` cache name (the default cache) is `None`.
- A mode collection may contain `null` elements. Each one defaults to `SMART`, as in
  the one-mode `peek0`.
- `equals` compares keys, cache names and the values `peek()` returns (lines 478-484
  of the source).

## Model

| member | source | states |
|---|---|---|
| GridCacheEvictionEntry.PeekOne | modules/core/src/main/java/org/apache/ignite/internal/processors/cache/GridCacheEvictionEntry.java:154-177 | A null mode peeks `SMART`. The peek fails only when the entry's peek throws a checked failure other than removal or filter rejection, and then with that failure. It returns a value exactly when the entry gives a tuple that holds one. |
| GridCacheEvictionEntry.PeekFirst | modules/core/src/main/java/org/apache/ignite/internal/processors/cache/GridCacheEvictionEntry.java:193-200 | Returns null iff every mode peeks null. Otherwise it returns the outcome (value or failure) of the earliest mode whose peek is not null, and every earlier mode peeks null. |
| GridCacheEvictionEntry.PeekModes | modules/core/src/main/java/org/apache/ignite/internal/processors/cache/GridCacheEvictionEntry.java:142-201 | A null or empty collection gives exactly a single null-mode (`SMART`) peek. A non-empty one gives the first-hit search over the collection in order. |
| GridCacheEvictionEntry.Peek | modules/core/src/main/java/org/apache/ignite/internal/processors/cache/GridCacheEvictionEntry.java:131-139 | `peek()` succeeds exactly when `peek(null)` does, and then with the same value. For a view that wraps an entry, its only failure is an IgniteException with the message "Unable to perform entry peek() operation.". |
| GridCacheEvictionEntry.Version | modules/core/src/main/java/org/apache/ignite/internal/processors/cache/GridCacheEvictionEntry.java:95-102 | On a live entry it is the current version's `drVersion`. On a removed entry it is the obsolete version's `drVersion`. It fails (null dereference) exactly when the entry is removed and has no obsolete version. |
| GridCacheEvictionEntry.Primary | modules/core/src/main/java/org/apache/ignite/internal/processors/cache/GridCacheEvictionEntry.java:110-115 | Always true in `LOCAL` mode. In any other mode, true iff the local node id is the id of the key's affinity primary. |
| GridCacheEvictionEntry.Backup | modules/core/src/main/java/org/apache/ignite/internal/processors/cache/GridCacheEvictionEntry.java:118-123 | Always false in `LOCAL` mode. In any other mode, true iff the local node is in the key's affinity backup set. |
| GridCacheEvictionEntry.IsCached | modules/core/src/main/java/org/apache/ignite/internal/processors/cache/GridCacheEvictionEntry.java:432-434 | True iff the wrapped entry is not obsolete. |
| GridCacheEvictionEntry.Evict | modules/core/src/main/java/org/apache/ignite/internal/processors/cache/GridCacheEvictionEntry.java:221-235 | True iff the eviction manager reports that it evicted the entry. A checked failure of the manager gives false. |
| GridCacheEvictionEntry.SameEntries | modules/core/src/main/java/org/apache/ignite/internal/processors/cache/GridCacheEvictionEntry.java:475-485 | Two distinct views are equal iff both peeks succeed and the keys, the cache names and the peeked values are all equal. The comparison fails iff either peek fails, and then with peek()'s IgniteException. |
| GridCacheEvictionEntry.Encode | modules/core/src/main/java/org/apache/ignite/internal/processors/cache/GridCacheEvictionEntry.java:437-440 | The serialised form is exactly two objects: the entry's context, then its key. |
| GridCacheEvictionEntry.Decode | modules/core/src/main/java/org/apache/ignite/internal/processors/cache/GridCacheEvictionEntry.java:444-449 | Succeeds iff the stream starts with a non-null context followed by a key. It then gives the entry that context's cache holds for the key (a bound entry), and the serialised form of that entry is a prefix of the input. A null context followed by a key fails with a null dereference. An empty stream, or one holding only a (possibly null) context, fails with end-of-stream. A first object that is not a context, or a second object that is not a key, fails with a class-cast error. |
| GridCacheEvictionEntry.EvictionEntry.Empty | modules/core/src/main/java/org/apache/ignite/internal/processors/cache/GridCacheEvictionEntry.java:59-61 | The no-argument Externalizable constructor leaves nothing wrapped. |
| GridCacheEvictionEntry.EvictionEntry.constructor | modules/core/src/main/java/org/apache/ignite/internal/processors/cache/GridCacheEvictionEntry.java:67-71 | The new view wraps the given entry. |
| GridCacheEvictionEntry.EvictionEntry.Invoke | modules/core/src/main/java/org/apache/ignite/internal/processors/cache/GridCacheEvictionEntry.java:206-365 | Every refused operation always fails with `Unsupported("Operation not supported during eviction.")`. This covers getValue, setValue, reload, clear, compact, get, the set, replace and remove families with their async forms, timeToLive(long), isLocked, isLockedByThread, lock, lockAsync and unlock (lines 85-92 and 405-428 too). The method has no modifies clause, so it cannot change the view. |
| GridCacheEvictionEntry.EvictionEntry.WriteExternal | modules/core/src/main/java/org/apache/ignite/internal/processors/cache/GridCacheEvictionEntry.java:437-440 | Appends the context and then the key to the output stream, and changes nothing else. It fails with a null dereference when nothing is wrapped. |
| GridCacheEvictionEntry.EvictionEntry.ReadExternal | modules/core/src/main/java/org/apache/ignite/internal/processors/cache/GridCacheEvictionEntry.java:444-449 | Reads the stream step by step, as the source does. When the stream decodes, `cached` becomes the decoded entry and the rest of the stream is returned. When it does not, the error is returned and `cached` is unchanged. |
| GridCacheEvictionEntry.EvictionEntry.Equals | modules/core/src/main/java/org/apache/ignite/internal/processors/cache/GridCacheEvictionEntry.java:471-488 | Comparing with the object itself gives true. Comparing with anything that is not an eviction entry gives false. Comparing two distinct views that both wrap an entry gives the result of `SameEntries`. If either view wraps nothing, the comparison fails. |
| GridCacheEvictionEntry.EvictionEntry.Hash | modules/core/src/main/java/org/apache/ignite/internal/processors/cache/GridCacheEvictionEntry.java:465-467 | Is the wrapped key's hash code, and fails exactly when nothing is wrapped. |
| EvictionEntryProperties.DefaultModesPeekSmart | modules/core/src/main/java/org/apache/ignite/internal/processors/cache/GridCacheEvictionEntry.java:159-189 | These all give the result of one `SMART` peek: a null mode, a null collection, an empty collection, `[null]` and `[SMART]`. |
| EvictionEntryProperties.PeekFirstAppend | modules/core/src/main/java/org/apache/ignite/internal/processors/cache/GridCacheEvictionEntry.java:193-200 | Searching `front + back` gives the result of `front` unless `front` yields null. In that case it gives the result of `back`. |
| EvictionEntryProperties.StopsAtFirstHit | modules/core/src/main/java/org/apache/ignite/internal/processors/cache/GridCacheEvictionEntry.java:193-200 | Once mode `i` is the first hit, `peek(modes)` returns its outcome for any modes placed after it. Later modes are never consulted. |
| EvictionEntryProperties.RemovedEntryPeeksNull | modules/core/src/main/java/org/apache/ignite/internal/processors/cache/GridCacheEvictionEntry.java:162-169 | On a removed entry, every form of peek gives null and none fails. This holds for any mode and any mode collection. |
| EvictionEntryProperties.PrimaryBackupExclusive | modules/core/src/main/java/org/apache/ignite/internal/processors/cache/GridCacheEvictionEntry.java:110-123 | If the key's primary is not among its backups, the local node is never both primary and backup. |
| EvictionEntryProperties.SameEntriesSymmetric | modules/core/src/main/java/org/apache/ignite/internal/processors/cache/GridCacheEvictionEntry.java:478-484 | The value comparison is symmetric, failures included. |
| EvictionEntryProperties.SameEntriesTransitive | modules/core/src/main/java/org/apache/ignite/internal/processors/cache/GridCacheEvictionEntry.java:478-484 | The value comparison is transitive. |
| EvictionEntryProperties.SameEntriesReflexive | modules/core/src/main/java/org/apache/ignite/internal/processors/cache/GridCacheEvictionEntry.java:478-484 | A view compares equal to a copy of itself iff its peek succeeds. |
| EvictionEntryProperties.SameEntriesSameHash | modules/core/src/main/java/org/apache/ignite/internal/processors/cache/GridCacheEvictionEntry.java:465-484 | Views that compare equal have keys with equal hash codes, so their `hashCode` results agree. |
| EvictionEntryProperties.EqualsReflexive | modules/core/src/main/java/org/apache/ignite/internal/processors/cache/GridCacheEvictionEntry.java:472-473 | Every eviction entry equals itself, even one that wraps nothing. |
| EvictionEntryProperties.EqualsSymmetric | modules/core/src/main/java/org/apache/ignite/internal/processors/cache/GridCacheEvictionEntry.java:471-488 | Between two views that both wrap an entry, `equals` is symmetric. |
| EvictionEntryProperties.EqualsTransitive | modules/core/src/main/java/org/apache/ignite/internal/processors/cache/GridCacheEvictionEntry.java:471-488 | `equals` is transitive. |
| EvictionEntryProperties.EqualsConsistentWithHash | modules/core/src/main/java/org/apache/ignite/internal/processors/cache/GridCacheEvictionEntry.java:465-488 | Objects that `equals` relates have equal `hashCode` results. |
| EvictionEntryProperties.EncodeDecode | modules/core/src/main/java/org/apache/ignite/internal/processors/cache/GridCacheEvictionEntry.java:437-449 | Decoding what was written gives back the same context and key, with the rest of the stream untouched. For a bound entry (one that is its cache's current entry for its key), it gives back the entry itself. |
| EvictionEntryProperties.SerializeAndRestore | modules/core/src/main/java/org/apache/ignite/internal/processors/cache/GridCacheEvictionEntry.java:437-449 | Takes a view through writeExternal, then the no-argument constructor, then readExternal. The new view wraps the source cache's entry for the same key; for a bound entry, that is the original entry. |

## Left out

- GridCacheEntryEx, GridCacheContext, GridCacheVersion, GridCachePeekMode and the affinity code are not part of this model. Their answers are inputs: the entry's per-mode peek results, its flags and versions, the affinity primary and backups, and the cache's `entryEx` lookup.
- The local transaction lookup (`tm().localTxx()`) and the peek filter (null for `peek()`, empty for `peek(modes)`) are not modelled separately. The entry's per-mode peek answer already reflects them, and `assert tx == null || tx.local()` is not modelled.
- A failed filter gives null, which is the behaviour with Java assertions disabled. With assertions enabled, the `assert false` on that path throws instead, and the stack trace is printed (I/O); neither is modelled.
- The static logger, the volatile `log` field and the error logging in `evict()` are global state with no effect on results.
- The eviction manager's `evict` is an opaque call. Its answer is a function parameter of `Evict`, and its effect on the cache is not modelled.
- The wrapped entry is a snapshot value. Concurrent changes to the entry between two calls, and Java object identity of entries, are not modelled. Object identity is modelled only for the view objects themselves, in `equals`.
- `getKey` is a one-line pass-through; its value is the field `key` of `CacheEntry`, and it gets no member of its own.
- `expirationTime`, `timeToLive()` and `partition` are one-line pass-throughs to the wrapped entry. The model has no expiry, time-to-live or partition data, so they have no counterpart.
- `projection` (`cached.context().cache()`) and `memorySize` (`cached.memorySize()`, which can throw a checked exception) are left out with no counterpart: the model has no cache projection object and no entry size.
- The metadata pass-throughs (`addMeta`, `meta`, `removeMeta`, `putMetaIfAbsent`, `replaceMeta`) contain no logic of their own. They are left out.
- `toString` and `unwrap` (Java reflection) are left out.
- The refused operations take entry filters as arguments. The model leaves these arguments out, because the operations fail before looking at any of them.
- GridCacheEvictionEntry.Decode: a second stream object that is not a key (null or of another class) gives a class-cast error. In Java the cast to the type variable `K` is unchecked and accepts any object, and what `entryEx` then does with it is not part of this model. A null first object is modelled as the source has it: it passes the cast, and rebinding then fails with a null dereference.
- GridCacheEvictionEntry.Peek, GridCacheEvictionEntry.PeekModes, GridCacheEvictionEntry.Version, GridCacheEvictionEntry.Primary, GridCacheEvictionEntry.Backup, GridCacheEvictionEntry.IsCached, GridCacheEvictionEntry.Evict: they take the wrapped entry itself, so they say nothing about a view that wraps nothing (made by the no-argument constructor and not yet read back). In Java each of these throws a NullPointerException on such a view when it dereferences `cached`; for `peek()` it is not caught and is not an IgniteException. `Equals`, `Hash` and `WriteExternal` do model that null dereference.
- GridCacheEvictionEntry.EvictionEntry.ReadExternal: it follows `Decode`, so the same class-cast simplification for the second object applies.
- GridCacheEvictionEntry.PeekOne: every checked exception of the wrapped entry's peek, other than removal and filter rejection, becomes the one value `Checked`. Which exception it was is not kept.
- GridCacheEvictionEntry.Peek: the IgniteException it throws keeps the checked exception as its cause in Java. The model keeps only the message, so two failing peeks give equal errors.
- GridCacheEvictionEntry.SameEntries: keys and values are compared with Dafny equality, where Java uses `key.equals` and `F.eq`. Its symmetry over failures rests on the dropped cause, as noted for `Peek`. The hash-code consistency lemmas rest on equality being a real equality, which in Java holds only for key classes that keep the equals/hashCode contract.
- I/O failures of the object streams themselves are not modelled. Only an early end of stream is.
- The context object in a stream is carried as a value. How GridCacheContext serialises and resolves itself on the reading node is not part of this model.
- Multiversion version chains, the transaction coordinator, conflict detection and the eviction policy appear in none of the modelled source. They are not modelled.
