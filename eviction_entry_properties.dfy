/**
 * Properties of the eviction-time entry view that relate several calls: peek-mode
 * defaulting and first-hit search, peeks of removed entries, ownership
 * classification, the equality contract with hashCode, and the serialisation
 * round trip.
 */
module EvictionEntryProperties {
  import opened Wrappers
  import opened CacheCollaborators
  import opened GridCacheEvictionEntry

  /** A null mode, a null or empty mode collection, and a collection holding only null or Smart all peek Smart. */
  lemma DefaultModesPeekSmart<K, V>(e: CacheEntry<K, V>)
    ensures PeekOne(e, None) == PeekOne(e, Some(Smart))
    ensures PeekModes(e, None) == PeekOne(e, Some(Smart))
    ensures PeekModes(e, Some([])) == PeekOne(e, Some(Smart))
    ensures PeekModes(e, Some([None])) == PeekOne(e, Some(Smart))
    ensures PeekModes(e, Some([Some(Smart)])) == PeekOne(e, Some(Smart))
  {
  }

  /**
   * Searching `front + back` is searching `front`, and only when every mode of
   * `front` gives null does the search go on into `back`.
   */
  lemma {:induction false} PeekFirstAppend<K, V>(e: CacheEntry<K, V>, front: seq<Option<PeekMode>>, back: seq<Option<PeekMode>>)
    ensures PeekFirst(e, front) != Success(None) ==> PeekFirst(e, front + back) == PeekFirst(e, front)
    ensures PeekFirst(e, front) == Success(None) ==> PeekFirst(e, front + back) == PeekFirst(e, back)
  {
    if front == [] {
      assert front + back == back;
    } else {
      assert (front + back)[0] == front[0];
      assert (front + back)[1..] == front[1..] + back;
      PeekFirstAppend(e, front[1..], back);
    }
  }

  /**
   * Once mode `i` is the first to give a value or fail, it decides peek(modes),
   * whatever modes come after it: they are never consulted.
   */
  lemma StopsAtFirstHit<K, V>(e: CacheEntry<K, V>, modes: seq<Option<PeekMode>>, i: nat, later: seq<Option<PeekMode>>)
    requires i < |modes|
    requires PeekOne(e, modes[i]) != Success(None)
    requires forall j :: 0 <= j < i ==> PeekOne(e, modes[j]) == Success(None)
    ensures PeekModes(e, Some(modes)) == PeekOne(e, modes[i])
    ensures PeekModes(e, Some(modes[..i + 1] + later)) == PeekOne(e, modes[i])
  {
    var decided := modes[..i + 1];
    PeekFirstAppend(e, decided, modes[i + 1..]);
    assert decided + modes[i + 1..] == modes;
    PeekFirstAppend(e, decided, later);
  }

  /** A removed entry never makes a peek fail: every form of peek gives null. */
  lemma RemovedEntryPeeksNull<K, V>(e: CacheEntry<K, V>, mode: Option<PeekMode>, modes: Option<seq<Option<PeekMode>>>)
    requires e.state.removed
    ensures PeekOne(e, mode) == Success(None)
    ensures PeekModes(e, modes) == Success(None)
    ensures Peek(e) == Success(None)
  {
  }

  /** Where the affinity never makes the primary its own backup, no node is both. */
  lemma PrimaryBackupExclusive<K, V>(e: CacheEntry<K, V>)
    requires e.ctx.primaryNode(e.key) !in e.ctx.backupNodes(e.key)
    ensures !(Primary(e) && Backup(e))
  {
  }

  /** Value equality of views is symmetric, failures included. */
  lemma SameEntriesSymmetric<K, V>(a: CacheEntry<K, V>, b: CacheEntry<K, V>)
    ensures SameEntries(a, b) == SameEntries(b, a)
  {
  }

  /** Value equality of views is transitive. */
  lemma SameEntriesTransitive<K, V>(a: CacheEntry<K, V>, b: CacheEntry<K, V>, c: CacheEntry<K, V>)
    requires SameEntries(a, b) == Success(true) && SameEntries(b, c) == Success(true)
    ensures SameEntries(a, c) == Success(true)
  {
  }

  /** A view equals a copy of itself exactly when its peek succeeds. */
  lemma SameEntriesReflexive<K, V>(a: CacheEntry<K, V>)
    ensures SameEntries(a, a) == Success(true) <==> Peek(a).Success?
  {
  }

  /** hashCode looks at the key alone, so equal views have equal hash codes. */
  lemma SameEntriesSameHash<K, V>(a: CacheEntry<K, V>, b: CacheEntry<K, V>, keyHash: K -> int)
    requires SameEntries(a, b) == Success(true)
    ensures keyHash(a.key) == keyHash(b.key)
  {
  }

  /** equals is reflexive on objects: an eviction entry equals itself, whatever it wraps. */
  lemma EqualsReflexive<K, V>(x: EvictionEntry<K, V>)
    ensures x.Equals(EvictionEntryRef(x)) == Success(true)
  {
  }

  /** equals is symmetric between views that both wrap an entry. */
  lemma EqualsSymmetric<K, V>(x: EvictionEntry<K, V>, y: EvictionEntry<K, V>)
    requires x.cached.Some? && y.cached.Some?
    ensures x.Equals(EvictionEntryRef(y)) == y.Equals(EvictionEntryRef(x))
  {
  }

  /** equals is transitive. */
  lemma EqualsTransitive<K, V>(x: EvictionEntry<K, V>, y: EvictionEntry<K, V>, z: EvictionEntry<K, V>)
    requires x.Equals(EvictionEntryRef(y)) == Success(true)
    requires y.Equals(EvictionEntryRef(z)) == Success(true)
    ensures x.Equals(EvictionEntryRef(z)) == Success(true)
  {
  }

  /** Equal eviction entries have equal hash codes. */
  lemma EqualsConsistentWithHash<K, V>(x: EvictionEntry<K, V>, y: EvictionEntry<K, V>, keyHash: K -> int)
    requires x.Equals(EvictionEntryRef(y)) == Success(true)
    ensures x.Hash(keyHash) == y.Hash(keyHash)
  {
  }

  /**
   * Reading back what writeExternal wrote gives the entry the same cache holds
   * for the same key, with the rest of the stream untouched; for an entry that
   * is its cache's current entry, that is the entry itself.
   */
  lemma EncodeDecode<K, V>(e: CacheEntry<K, V>, rest: seq<StreamObject<K, V>>)
    ensures Decode(Encode(e) + rest) == Success((EntryFor(e.ctx, e.key), rest))
    ensures Bound(e) ==> Decode(Encode(e) + rest) == Success((e, rest))
  {
  }

  /**
   * The Externalizable protocol end to end: `src` writes itself, a new view is
   * made with the no-argument constructor and reads the stream back.
   */
  method SerializeAndRestore<K(==), V(==)>(src: EvictionEntry<K, V>) returns (dst: EvictionEntry<K, V>, ok: bool)
    ensures fresh(dst)
    ensures ok <==> src.cached.Some?
    ensures ok ==> dst.cached == Some(EntryFor(src.cached.value.ctx, src.cached.value.key))
    ensures ok && Bound(src.cached.value) ==> dst.cached == src.cached
  {
    var written := src.WriteExternal([]);
    dst := new EvictionEntry.Empty();
    ok := written.Success?;
    if ok {
      EncodeDecode(src.cached.value, []);
      assert written.value == Encode(src.cached.value) + [];
      var read := dst.ReadExternal(written.value);
    }
  }
}
