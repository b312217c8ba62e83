/**
 * The process-wide decoded-bitmap cache (SkBitmapCache), seen from a pixel
 * ref: a keyed store of bitmaps that answers a lookup with a bitmap or
 * nothing, keeps the first bitmap published under a key, and may lose any
 * entry at any time.
 */
module BitmapCache {
  import opened Wrappers
  import opened Image

  /** A lookup is all-or-nothing: the stored bitmap, or no answer. */
  function Find(m: map<CacheKey, Bitmap>, key: CacheKey): (r: Option<Bitmap>)
    ensures r.Some? <==> key in m
    ensures r.Some? ==> r.value == m[key]
  {
    if key in m then Some(m[key]) else None
  }

  /**
   * A publish under a key already present keeps the entry that is there;
   * otherwise the bitmap is stored. No other entry changes.
   */
  function Publish(m: map<CacheKey, Bitmap>, key: CacheKey, b: Bitmap): (r: map<CacheKey, Bitmap>)
    ensures r.Keys == m.Keys + {key}
    ensures key !in m ==> r[key] == b
    ensures forall k :: k in m ==> r[k] == m[k]
  {
    if key in m then m else m[key := b]
  }

  /** Eviction: the named entries disappear, the others are untouched. */
  function Purge(m: map<CacheKey, Bitmap>, keys: set<CacheKey>): (r: map<CacheKey, Bitmap>)
    ensures r.Keys == m.Keys - keys
    ensures forall k :: k in r ==> r[k] == m[k]
  {
    m - keys
  }

  /** Every cached bitmap owns pixel memory that has been marked immutable. */
  predicate WellFormed(m: map<CacheKey, Bitmap>)
  {
    forall k :: k in m ==> m[k].pixels.Some? && m[k].immutable
  }

  /** The cache object shared by every caching pixel ref in the process. */
  class SharedCache {
    var entries: map<CacheKey, Bitmap>

    constructor ()
      ensures entries == map[]
    {
      entries := map[];
    }

    /** SkBitmapCache::Find: reads the store, changes nothing. */
    method Lookup(key: CacheKey) returns (r: Option<Bitmap>)
      ensures r.Some? <==> key in entries
      ensures r.Some? ==> r.value == entries[key]
    {
      r := Find(entries, key);
    }

    /** SkBitmapCache::Add: only immutable bitmaps may be published. */
    method Add(key: CacheKey, b: Bitmap)
      requires b.immutable
      modifies this
      ensures entries == Publish(old(entries), key, b)
    {
      entries := Publish(entries, key, b);
    }

    /** The environment may evict any entries between two calls of a pixel ref. */
    method Evict(keys: set<CacheKey>)
      modifies this
      ensures entries == Purge(old(entries), keys)
    {
      entries := Purge(entries, keys);
    }
  }
}
