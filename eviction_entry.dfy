/**
 * GridCacheEvictionEntry: the read-only view of a cache entry handed to eviction
 * code. It answers queries about the wrapped entry (peek, version, primary and
 * backup ownership, whether the entry is still cached), can ask the eviction
 * manager to evict it, serialises itself as "context, then key", and refuses
 * every operation that would read through, change or lock the entry.
 *
 * The queries are functions of the wrapped entry. The class EvictionEntry holds
 * the one mutable field of the Java object, `cached`, and the members that need
 * it: construction, serialisation, equality (which looks at object identity)
 * and the refused operations.
 */
module GridCacheEvictionEntry {
  import opened Wrappers
  import opened CacheCollaborators

  /** The message of every UnsupportedOperationException the view throws. */
  const UnsupportedMessage: string := "Operation not supported during eviction."

  /** The message of the IgniteException that peek() throws on a checked failure. */
  const PeekFailedMessage: string := "Unable to perform entry peek() operation."

  /** The exceptions that leave the view. */
  datatype CacheError =
    | Unsupported(message: string)  // UnsupportedOperationException
    | Checked                       // IgniteCheckedException raised by the wrapped entry
    | PeekFailed(message: string)   // IgniteException thrown by peek()
    | NullReference                 // NullPointerException
    | ClassCast                     // ClassCastException while deserialising
    | EndOfStream                   // IOException: the object stream ended early

  /** A missing (null) peek mode stands for Smart. */
  function ModeOrSmart(mode: Option<PeekMode>): (m: PeekMode)
    ensures m == (if mode.Some? then mode.value else Smart)
  {
    if mode.None? then Smart else mode.value
  }

  /**
   * peek0 with one mode: the wrapped entry's peek, where a removed entry, a
   * missing tuple and a rejected filter all give null, and only other checked
   * failures escape.
   */
  function PeekOne<K, V>(e: CacheEntry<K, V>, mode: Option<PeekMode>): (r: Result<Option<V>, CacheError>)
    ensures r.Failure? <==> EntryPeek(e.state, ModeOrSmart(mode)) == Failure(CheckedFailure)
    ensures r.Failure? ==> r.error == Checked
    ensures r.Success? && r.value.Some? <==>
              EntryPeek(e.state, ModeOrSmart(mode)).Success? &&
              EntryPeek(e.state, ModeOrSmart(mode)).value.Some? &&
              EntryPeek(e.state, ModeOrSmart(mode)).value.value.get.Some?
    ensures r.Success? && r.value.Some? ==> r.value == EntryPeek(e.state, ModeOrSmart(mode)).value.value.get
  {
    match EntryPeek(e.state, ModeOrSmart(mode))
    case Success(tuple) => Success(if tuple.Some? then tuple.value.get else None)
    case Failure(CheckedFailure) => Failure(Checked)
    case Failure(_) => Success(None)
  }

  /**
   * The loop of peek0 over a non-empty mode collection: the first mode, in
   * order, whose peek gives a value or fails decides the result; null if none.
   */
  function PeekFirst<K, V>(e: CacheEntry<K, V>, modes: seq<Option<PeekMode>>): (r: Result<Option<V>, CacheError>)
    ensures r == Success(None) <==> forall i :: 0 <= i < |modes| ==> PeekOne(e, modes[i]) == Success(None)
    ensures r != Success(None) ==>
              exists i :: 0 <= i < |modes| && PeekOne(e, modes[i]) == r &&
                          forall j :: 0 <= j < i ==> PeekOne(e, modes[j]) == Success(None)
    decreases |modes|
  {
    if modes == [] then Success(None)
    else
      match PeekOne(e, modes[0])
      case Success(None) =>
        var rest := PeekFirst(e, modes[1..]);
        assert forall i :: 1 <= i < |modes| ==> modes[i] == modes[1..][i - 1];
        rest
      case other => other
  }

  /** peek(modes): a null or empty collection is a single Smart peek, otherwise the first hit. */
  function PeekModes<K, V>(e: CacheEntry<K, V>, modes: Option<seq<Option<PeekMode>>>): (r: Result<Option<V>, CacheError>)
    ensures modes.None? || modes == Some([]) ==> r == PeekOne(e, None)
    ensures modes.Some? && modes.value != [] ==> r == PeekFirst(e, modes.value)
  {
    if modes.None? || |modes.value| == 0 then PeekOne(e, Some(Smart)) else PeekFirst(e, modes.value)
  }

  /** peek(): a Smart peek whose checked failure is rethrown as an IgniteException. */
  function Peek<K, V>(e: CacheEntry<K, V>): (r: Result<Option<V>, CacheError>)
    ensures r.Success? <==> PeekModes(e, None).Success?
    ensures r.Success? ==> r == PeekModes(e, None)
    ensures r.Failure? ==> r.error == PeekFailed(PeekFailedMessage)
  {
    match PeekOne(e, Some(Smart))
    case Success(v) => Success(v)
    case Failure(_) => Failure(PeekFailed(PeekFailedMessage))
  }

  /**
   * version(): the current version's replication version, or the obsolete
   * one's when reading the current version reports the entry removed.
   */
  function Version<K, V>(e: CacheEntry<K, V>): (r: Result<int, CacheError>)
    ensures !e.state.removed ==> r == Success(e.state.version.drVersion)
    ensures e.state.removed && e.state.obsoleteVersion.Some? ==> r == Success(e.state.obsoleteVersion.value.drVersion)
    ensures r.Failure? <==> e.state.removed && e.state.obsoleteVersion.None?
    ensures r.Failure? ==> r.error == NullReference
  {
    match EntryVersion(e.state)
    case Success(v) => Success(v.drVersion)
    case Failure(_) =>
      if e.state.obsoleteVersion.Some? then Success(e.state.obsoleteVersion.value.drVersion)
      else Failure(NullReference)
  }

  /** primary(): a local cache is always primary, otherwise the local node must be the key's primary. */
  function Primary<K, V>(e: CacheEntry<K, V>): (r: bool)
    ensures e.ctx.mode == Local ==> r
    ensures e.ctx.mode != Local ==> (r <==> e.ctx.localNodeId == e.ctx.primaryNode(e.key))
  {
    e.ctx.mode == Local || e.ctx.localNodeId == e.ctx.primaryNode(e.key)
  }

  /** backup(): never in a local cache, otherwise the local node must be among the key's backups. */
  function Backup<K, V>(e: CacheEntry<K, V>): (r: bool)
    ensures e.ctx.mode == Local ==> !r
    ensures e.ctx.mode != Local ==> (r <==> e.ctx.localNodeId in e.ctx.backupNodes(e.key))
  {
    e.ctx.mode != Local && e.ctx.localNodeId in e.ctx.backupNodes(e.key)
  }

  /** isCached(): the entry has not been made obsolete. */
  function IsCached<K, V>(e: CacheEntry<K, V>): (r: bool)
    ensures r <==> !e.state.obsolete
  {
    !e.state.obsolete
  }

  /**
   * evict(): hands the entry to the eviction manager, whose answer `evictor`
   * gives; a checked failure of the manager reads as "not evicted".
   */
  function Evict<K, V>(e: CacheEntry<K, V>, evictor: CacheEntry<K, V> -> Result<bool, EntryException>): (r: bool)
    ensures r <==> evictor(e) == Success(true)
  {
    match evictor(e)
    case Success(evicted) => evicted
    case Failure(_) => false
  }

  /**
   * The value comparison of equals() between two distinct view objects: both
   * are peeked (this one first), then keys, cache names and peeked values must agree.
   */
  function SameEntries<K(==), V(==)>(a: CacheEntry<K, V>, b: CacheEntry<K, V>): (r: Result<bool, CacheError>)
    ensures r == Success(true) <==>
              Peek(a).Success? && Peek(b).Success? && a.key == b.key &&
              a.ctx.cacheName == b.ctx.cacheName && Peek(a).value == Peek(b).value
    ensures r.Failure? <==> Peek(a).Failure? || Peek(b).Failure?
    ensures r.Failure? ==> r.error == PeekFailed(PeekFailedMessage)
  {
    match Peek(a)
    case Failure(err) => Failure(err)
    case Success(v1) =>
      match Peek(b)
      case Failure(err) => Failure(err)
      case Success(v2) => Success(a.key == b.key && a.ctx.cacheName == b.ctx.cacheName && v1 == v2)
  }

  /** An object in a Java object stream, as far as the view's serialisation cares. */
  datatype StreamObject<!K, V> = ContextObject(ctx: CacheContext<K, V>) | KeyObject(key: K) | NullObject | OtherObject

  /** writeExternal's output: the entry's context, then its key. */
  function Encode<K, V>(e: CacheEntry<K, V>): (out: seq<StreamObject<K, V>>)
    ensures |out| == 2 && out[0].ContextObject? && out[1].KeyObject?
    ensures out[0].ctx == e.ctx && out[1].key == e.key
  {
    [ContextObject(e.ctx), KeyObject(e.key)]
  }

  /**
   * readExternal's reading: a context, then a key, then the entry that context's
   * cache holds for that key; also returns what is left of the stream. A null
   * context passes the cast and fails only when its cache is looked up.
   */
  function Decode<K, V>(input: seq<StreamObject<K, V>>): (r: Result<(CacheEntry<K, V>, seq<StreamObject<K, V>>), CacheError>)
    ensures r.Success? <==> |input| >= 2 && input[0].ContextObject? && input[1].KeyObject?
    ensures r.Success? ==> Bound(r.value.0) && input == Encode(r.value.0) + r.value.1
    ensures |input| == 0 || (|input| == 1 && (input[0].ContextObject? || input[0].NullObject?)) ==> r == Failure(EndOfStream)
    ensures |input| >= 1 && !(input[0].ContextObject? || input[0].NullObject?) ==> r == Failure(ClassCast)
    ensures |input| >= 2 && (input[0].ContextObject? || input[0].NullObject?) && !input[1].KeyObject? ==> r == Failure(ClassCast)
    ensures |input| >= 2 && input[0].NullObject? && input[1].KeyObject? ==> r == Failure(NullReference)
    ensures r.Failure? ==> r.error == EndOfStream || r.error == ClassCast || r.error == NullReference
  {
    if |input| == 0 then Failure(EndOfStream)
    else if !(input[0].ContextObject? || input[0].NullObject?) then Failure(ClassCast)
    else if |input| == 1 then Failure(EndOfStream)
    else if !input[1].KeyObject? then Failure(ClassCast)
    else if input[0].NullObject? then Failure(NullReference)
    else
      var entry := EntryFor(input[0].ctx, input[1].key);
      assert input == Encode(entry) + input[2..];
      Success((entry, input[2..]))
  }

  /** Whatever equals() is given: another eviction entry, or anything else (null included). */
  datatype JavaObject<K(==), V(==)> = EvictionEntryRef(entry: EvictionEntry<K, V>) | NotAnEvictionEntry

  /** The operations the view refuses, each with its arguments (entry filters are not modelled). */
  datatype Operation<V> =
    | GetValue | SetValue(val: V)
    | Reload | ReloadAsync | Clear | Compact | Get | GetAsync
    | Set(val: V) | SetAsync(val: V) | Setx(val: V) | SetxAsync(val: V)
    | Replace(val: V) | ReplaceAsync(val: V)
    | ReplaceIf(oldVal: V, newVal: V) | ReplaceIfAsync(oldVal: V, newVal: V)
    | SetTimeToLive(ttl: int)
    | SetIfAbsent(val: V) | SetIfAbsentAsync(val: V) | SetxIfAbsent(val: V) | SetxIfAbsentAsync(val: V)
    | Replacex(val: V) | ReplacexAsync(val: V)
    | RemoveFiltered | RemoveFilteredAsync | Removex | RemovexAsync
    | RemoveValue(val: V) | RemoveValueAsync(val: V)
    | IsLocked | IsLockedByThread | Lock(timeout: int) | LockAsync(timeout: int) | Unlock

  /** The view object; `cached` is None only between the no-argument constructor and readExternal. */
  class EvictionEntry<K(==), V(==)> {
    var cached: Option<CacheEntry<K, V>>

    /** The constructor Externalizable needs: nothing is wrapped yet. */
    constructor Empty()
      ensures cached == None
    {
      cached := None;
    }

    /** Wraps `entry`. */
    constructor (entry: CacheEntry<K, V>)
      ensures cached == Some(entry)
    {
      cached := Some(entry);
    }

    /** Every refused operation throws the same exception; nothing is changed, since nothing may be. */
    method Invoke(op: Operation<V>) returns (r: Result<(), CacheError>)
      ensures r.Failure? && r.error.Unsupported? && r.error.message == UnsupportedMessage
    {
      r := Failure(Unsupported(UnsupportedMessage));
    }

    /** writeExternal: appends the context and the key to `out`. */
    method WriteExternal(out: seq<StreamObject<K, V>>) returns (r: Result<seq<StreamObject<K, V>>, CacheError>)
      ensures cached.None? ==> r == Failure(NullReference)
      ensures cached.Some? ==> r == Success(out + Encode(cached.value))
    {
      if cached.None? {
        return Failure(NullReference);
      }
      var written := out + [ContextObject(cached.value.ctx)];
      written := written + [KeyObject(cached.value.key)];
      assert written == out + Encode(cached.value);
      r := Success(written);
    }

    /**
     * readExternal: reads a context and a key from `input` and rebinds to that
     * cache's entry for the key; returns the rest of the stream. On an exception
     * nothing has been assigned.
     */
    method ReadExternal(input: seq<StreamObject<K, V>>) returns (r: Result<seq<StreamObject<K, V>>, CacheError>)
      modifies this
      ensures Decode(input).Success? ==> cached == Some(Decode(input).value.0) && r == Success(Decode(input).value.1)
      ensures Decode(input).Failure? ==> cached == old(cached) && r == Failure(Decode(input).error)
    {
      var rest := input;
      if |rest| == 0 {
        return Failure(EndOfStream);
      }
      var first := rest[0];
      rest := rest[1..];
      if !(first.ContextObject? || first.NullObject?) {
        return Failure(ClassCast);
      }
      if |rest| == 0 {
        return Failure(EndOfStream);
      }
      var second := rest[0];
      rest := rest[1..];
      if !second.KeyObject? {
        return Failure(ClassCast);
      }
      if first.NullObject? {
        return Failure(NullReference);
      }
      cached := Some(EntryFor(first.ctx, second.key));
      r := Success(rest);
    }

    /**
     * equals(): true for the object itself, false for anything that is not an
     * eviction entry, otherwise the peek-and-compare of SameEntries; a view that
     * wraps nothing throws when it is peeked.
     */
    function Equals(obj: JavaObject<K, V>): (r: Result<bool, CacheError>)
      reads this, if obj.EvictionEntryRef? then {obj.entry} else {}
      ensures obj == EvictionEntryRef(this) ==> r == Success(true)
      ensures obj.NotAnEvictionEntry? ==> r == Success(false)
      ensures obj.EvictionEntryRef? && obj.entry != this && cached.Some? && obj.entry.cached.Some? ==>
                r == SameEntries(cached.value, obj.entry.cached.value)
      ensures obj.EvictionEntryRef? && obj.entry != this && (cached.None? || obj.entry.cached.None?) ==> r.Failure?
    {
      if obj.NotAnEvictionEntry? then Success(false)
      else if obj.entry == this then Success(true)
      else if cached.None? then Failure(NullReference)
      else if obj.entry.cached.None? then
        match Peek(cached.value)
        case Failure(err) => Failure(err)
        case Success(_) => Failure(NullReference)
      else SameEntries(cached.value, obj.entry.cached.value)
    }

    /** hashCode(): the wrapped key's hash code. */
    function Hash(keyHash: K -> int): (r: Result<int, CacheError>)
      reads this
      ensures r.Success? <==> cached.Some?
      ensures r.Success? ==> r.value == keyHash(cached.value.key)
    {
      if cached.None? then Failure(NullReference) else Success(keyHash(cached.value.key))
    }
  }
}
