/** `SetCacheEntry`, the extension that writes a value into the in-process
    memory cache under a key, copying an expiration policy onto the entry. */
module MemoryCacheExtensions {
  import opened Common

  datatype CacheItemPriority = Low | Normal | High | NeverRemove

  /** An `IChangeToken` that expires an entry, by identity. */
  datatype ChangeToken = ChangeToken(id: nat)

  /** A `PostEvictionCallbackRegistration`, by identity. */
  datatype PostEvictionCallback = PostEvictionCallback(id: nat)

  /** `MemoryCacheEntryOptions`: an expiration policy. Times are in ticks;
      `absoluteExpiration` is a point in time, the other two are durations. */
  datatype EntryOptions = EntryOptions(
    absoluteExpiration: Option<int>,
    absoluteExpirationRelativeToNow: Option<int>,
    slidingExpiration: Option<int>,
    expirationTokens: seq<ChangeToken>,
    postEvictionCallbacks: seq<PostEvictionCallback>,
    priority: CacheItemPriority,
    size: Option<int>)

  /** A committed cache entry: its value and its policy. */
  datatype CacheEntry<V> = CacheEntry(
    value: V,
    absoluteExpiration: Option<int>,
    absoluteExpirationRelativeToNow: Option<int>,
    slidingExpiration: Option<int>,
    expirationTokens: seq<ChangeToken>,
    postEvictionCallbacks: seq<PostEvictionCallback>,
    priority: CacheItemPriority,
    size: Option<int>)

  /** A freshly created entry holding `value`: no expirations, no tokens, no
      callbacks, normal priority, no size. */
  function NewEntry<V>(value: V): (entry: CacheEntry<V>) {
    CacheEntry(value, None, None, None, [], [], Normal, None)
  }

  /** The entry `SetCacheEntry` commits for `value` under `options`. */
  function EntryFor<V>(value: V, options: Option<EntryOptions>): (entry: CacheEntry<V>) {
    match options
    case None => NewEntry(value)
    case Some(o) =>
      CacheEntry(value, o.absoluteExpiration, o.absoluteExpirationRelativeToNow, o.slidingExpiration,
                 o.expirationTokens, o.postEvictionCallbacks, o.priority, o.size)
  }

  /** The cache contents after `SetCacheEntry(key, value, options)`. */
  function CacheAfterSet<K(==), V>(entries: map<K, CacheEntry<V>>, key: Option<K>, value: Option<V>, options: Option<EntryOptions>): (after: map<K, CacheEntry<V>>) {
    if key.None? || value.None? then entries else entries[key.value := EntryFor(value.value, options)]
  }

  /** An `IMemoryCache`: the committed entries by key. */
  class MemoryCache<K(==), V> {
    var entries: map<K, CacheEntry<V>>

    constructor ()
      ensures entries == map[]
    {
      entries := map[];
    }

    /** Disposing an entry made by `CreateEntry(key)` commits it, replacing
      any entry under the same key. */
    method Commit(key: K, entry: CacheEntry<V>)
      modifies this
      ensures entries == old(entries)[key := entry]
    {
      entries := entries[key := entry];
    }
  }

  /** Builds the entry the way `SetCacheEntry` fills a created entry: the
      value, then, when options are given, the three expirations, each
      expiration token and each eviction callback in order, the priority and
      the size. */
  method FillEntry<V>(value: V, options: Option<EntryOptions>) returns (entry: CacheEntry<V>)
    ensures entry.value == value
    ensures options.None? ==> entry == NewEntry(value)
    ensures options.Some? ==>
              var o := options.value;
              && entry.absoluteExpiration == o.absoluteExpiration
              && entry.absoluteExpirationRelativeToNow == o.absoluteExpirationRelativeToNow
              && entry.slidingExpiration == o.slidingExpiration
              && entry.expirationTokens == o.expirationTokens
              && entry.postEvictionCallbacks == o.postEvictionCallbacks
              && entry.priority == o.priority
              && entry.size == o.size
    ensures entry == EntryFor(value, options)
  {
    entry := NewEntry(value);
    if options.None? {
      return;
    }
    var o := options.value;
    entry := entry.(absoluteExpiration := o.absoluteExpiration);
    entry := entry.(absoluteExpirationRelativeToNow := o.absoluteExpirationRelativeToNow);
    entry := entry.(slidingExpiration := o.slidingExpiration);
    var i := 0;
    while i < |o.expirationTokens|
      invariant 0 <= i <= |o.expirationTokens|
      invariant entry == NewEntry(value).(absoluteExpiration := o.absoluteExpiration,
                                          absoluteExpirationRelativeToNow := o.absoluteExpirationRelativeToNow,
                                          slidingExpiration := o.slidingExpiration,
                                          expirationTokens := o.expirationTokens[..i])
    {
      entry := entry.(expirationTokens := entry.expirationTokens + [o.expirationTokens[i]]);
      i := i + 1;
    }
    var j := 0;
    while j < |o.postEvictionCallbacks|
      invariant 0 <= j <= |o.postEvictionCallbacks|
      invariant entry == NewEntry(value).(absoluteExpiration := o.absoluteExpiration,
                                          absoluteExpirationRelativeToNow := o.absoluteExpirationRelativeToNow,
                                          slidingExpiration := o.slidingExpiration,
                                          expirationTokens := o.expirationTokens,
                                          postEvictionCallbacks := o.postEvictionCallbacks[..j])
    {
      entry := entry.(postEvictionCallbacks := entry.postEvictionCallbacks + [o.postEvictionCallbacks[j]]);
      j := j + 1;
    }
    entry := entry.(priority := o.priority);
    entry := entry.(size := o.size);
  }

  /** `SetCacheEntry(cache, key, value, options)`. A null key or value is
      `None`. */
  method SetCacheEntry<K(==), V>(cache: MemoryCache?<K, V>, key: Option<K>, value: Option<V>, options: Option<EntryOptions>)
    returns (r: Result<Unit>)
    modifies cache
    ensures cache == null ==> r == Failure(ArgumentNullException("cache"))
    ensures cache != null ==>
              r == Success(Unit) && cache.entries == CacheAfterSet(old(cache.entries), key, value, options)
  {
    if cache == null {
      return Failure(ArgumentNullException("cache"));
    }
    if key.None? || value.None? {
      return Success(Unit);
    }
    var entry := FillEntry(value.value, options);
    cache.Commit(key.value, entry);
    r := Success(Unit);
  }

  /** A null key or value leaves the cache as it was. Otherwise the key holds
      the value with the options' policy (none without options), and every
      other key keeps its entry or its absence. */
  lemma CacheAfterSetEffect<K, V>(entries: map<K, CacheEntry<V>>, key: Option<K>, value: Option<V>, options: Option<EntryOptions>, k: K)
    ensures key.None? || value.None? ==> CacheAfterSet(entries, key, value, options) == entries
    ensures key.Some? && value.Some? ==>
              var after := CacheAfterSet(entries, key, value, options);
              && key.value in after
              && after[key.value].value == value.value
              && (options.None? ==> after[key.value] == NewEntry(value.value))
              && (options.Some? ==>
                    var o, e := options.value, after[key.value];
                    && e.absoluteExpiration == o.absoluteExpiration
                    && e.absoluteExpirationRelativeToNow == o.absoluteExpirationRelativeToNow
                    && e.slidingExpiration == o.slidingExpiration
                    && e.expirationTokens == o.expirationTokens
                    && e.postEvictionCallbacks == o.postEvictionCallbacks
                    && e.priority == o.priority
                    && e.size == o.size)
              && (k != key.value ==> (k in after <==> k in entries) && (k in entries ==> after[k] == entries[k]))
  {
  }

  /** Setting the same entry twice leaves the cache as setting it once. */
  lemma CacheAfterSetIdempotent<K, V>(entries: map<K, CacheEntry<V>>, key: Option<K>, value: Option<V>, options: Option<EntryOptions>)
    ensures CacheAfterSet(CacheAfterSet(entries, key, value, options), key, value, options) ==
            CacheAfterSet(entries, key, value, options)
  {
  }
}
