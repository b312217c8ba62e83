/**
 * The lock protocol of a caching pixel ref as pure functions over the state it
 * touches: its own fields, the shared cache and the log of generator calls.
 * `Lock` and `Unlock` are one call each; `Run` plays a whole sequence of
 * calls interleaved with what the environment does to the cache, and the
 * lemmas state what holds across such sequences.
 */
module LockProtocol {
  import opened Wrappers
  import opened Image
  import opened BitmapCache

  /** What a pixel ref fixes at construction: its info, generation ID and fRowBytes. */
  datatype Config = Config(info: ImageInfo, genID: nat, rowBytes: nat)

  /** The only key this pixel ref looks up and publishes under. */
  function Key(c: Config): CacheKey
  {
    CacheKey(c.genID, Bounds(c.info))
  }

  /**
   * The verdicts of the foreign calls one lock may make: whether
   * `tryAllocPixels` succeeds and at which address, and whether the
   * generator's decoder succeeds.
   */
  datatype Oracle = Oracle(allocates: bool, addr: Addr, decodes: bool)

  /**
   * Everything a lock reads or writes: fErrorInDecoding, fLockedBitmap, the
   * shared cache, and every call made so far to this ref's generator.
   */
  datatype World = World(errorInDecoding: bool, locked: Bitmap,
                         cache: map<CacheKey, Bitmap>, decodes: seq<DecodeRequest>)

  /** A pixel ref just built by Install, next to whatever the cache already holds. */
  function Fresh(cache: map<CacheKey, Bitmap>): World
  {
    World(false, EmptyBitmap, cache, [])
  }

  /** The outcome of one lock: the new state, the result, and the record written (if any). */
  datatype Step = Step(world: World, ok: bool, rec: Option<LockRec>)

  /**
   * `fLockedBitmap.tryAllocPixels(info, rowBytes)`: fresh mutable pixels
   * described by `info` at the requested stride, or nothing.
   */
  function Allocate(info: ImageInfo, rowBytes: nat, o: Oracle): Option<Bitmap>
  {
    if o.allocates then Some(Bitmap(info, Some(o.addr), rowBytes, false)) else None
  }

  /** The three fields a successful lock writes into the lock record. */
  function Record(b: Bitmap): LockRec
  {
    LockRec(b.pixels, None, b.rowBytes)
  }

  /** `onNewLockPixels(rec)`. */
  function Lock(c: Config, w: World, o: Oracle): (r: Step)
    // a failed ref fails again and touches nothing
    ensures w.errorInDecoding ==> r == Step(w, false, None)
    // success and the error flag are exact opposites afterwards
    ensures r.ok <==> !r.world.errorInDecoding
    // a lock succeeds exactly on a hit, or on a miss whose allocation and decode both succeed
    ensures r.ok <==> !w.errorInDecoding && (Key(c) in w.cache || (o.allocates && o.decodes))
    // the record is written exactly on success, from the locked bitmap, with no colour table
    ensures r.ok ==> r.rec == Some(LockRec(r.world.locked.pixels, None, r.world.locked.rowBytes))
    ensures !r.ok ==> r.rec == None
    // after a success the locked bitmap is the one cached under this ref's key
    ensures r.ok ==> Key(c) in r.world.cache && r.world.cache[Key(c)] == r.world.locked
    ensures WellFormed(w.cache) ==> WellFormed(r.world.cache)
    ensures WellFormed(w.cache) && r.ok ==> r.world.locked.pixels.Some? && r.world.locked.immutable
    // existing cache entries are never changed or removed; at most this key is added
    ensures forall k :: k in w.cache ==> k in r.world.cache && r.world.cache[k] == w.cache[k]
    ensures r.world.cache.Keys <= w.cache.Keys + {Key(c)}
    ensures !r.ok ==> r.world.cache == w.cache
    // the generator runs at most once, only on a miss, for the whole image at fRowBytes
    ensures w.errorInDecoding || Key(c) in w.cache ==> r.world.decodes == w.decodes
    ensures r.world.decodes == w.decodes
         || r.world.decodes == w.decodes + [DecodeRequest(c.info, o.addr, c.rowBytes)]
    ensures !w.errorInDecoding && Key(c) !in w.cache && r.ok ==>
              r.world.decodes == w.decodes + [DecodeRequest(c.info, o.addr, c.rowBytes)]
    // on a miss, the bitmap locked is the freshly allocated buffer: immutable and
    // published when decoded, left mutable when the decode failed, and reset
    // when the allocation failed
    ensures !w.errorInDecoding && Key(c) !in w.cache && r.ok ==>
              r.world.locked == Bitmap(c.info, Some(o.addr), c.rowBytes, true)
    ensures !w.errorInDecoding && Key(c) !in w.cache && o.allocates && !o.decodes ==>
              r.world.locked == Bitmap(c.info, Some(o.addr), c.rowBytes, false)
    ensures !w.errorInDecoding && Key(c) !in w.cache && !o.allocates ==>
              r.world.locked == EmptyBitmap
    // on a miss the generator runs exactly when the allocation succeeded
    ensures !w.errorInDecoding && Key(c) !in w.cache ==>
              r.world.decodes == (if o.allocates then w.decodes + [DecodeRequest(c.info, o.addr, c.rowBytes)]
                                  else w.decodes)
  {
    if w.errorInDecoding then
      Step(w, false, None)
    else
      match Find(w.cache, Key(c))
      case Some(hit) =>
        Step(w.(locked := hit), true, Some(Record(hit)))
      case None =>
        match Allocate(c.info, c.rowBytes, o)
        case None =>
          Step(w.(errorInDecoding := true, locked := EmptyBitmap), false, None)
        case Some(buffer) =>
          var decodes := w.decodes + [DecodeRequest(c.info, o.addr, c.rowBytes)];
          if !o.decodes then
            Step(w.(errorInDecoding := true, locked := buffer, decodes := decodes), false, None)
          else
            var done := buffer.(immutable := true);
            Step(w.(locked := done, cache := Publish(w.cache, Key(c), done), decodes := decodes),
                 true, Some(Record(done)))
  }

  /** `onUnlockPixels()`: drops the locked bitmap and nothing else. */
  function Unlock(w: World): (r: World)
    ensures r.locked == EmptyBitmap
    ensures r.errorInDecoding == w.errorInDecoding && r.cache == w.cache && r.decodes == w.decodes
  {
    w.(locked := EmptyBitmap)
  }

  /**
   * What can happen to one pixel ref and the shared cache: its own lock and
   * unlock calls, evictions, and publications by other pixel refs.
   */
  datatype Event =
    | LockPixels(oracle: Oracle)
    | UnlockPixels
    | Evict(keys: set<CacheKey>)
    | OtherPublish(key: CacheKey, bitmap: Bitmap)

  /** The number of lock calls in a sequence of events. */
  function LockCount(evs: seq<Event>): nat
  {
    if evs == [] then 0 else (if evs[0].LockPixels? then 1 else 0) + LockCount(evs[1..])
  }

  /** The number of evictions in a sequence of events that remove `key`. */
  function EvictionsOf(key: CacheKey, evs: seq<Event>): nat
  {
    if evs == [] then 0
    else (if evs[0].Evict? && key in evs[0].keys then 1 else 0) + EvictionsOf(key, evs[1..])
  }

  /** The cache after only the environment's events, as if the pixel ref did nothing. */
  function EnvironmentOnly(m: map<CacheKey, Bitmap>, evs: seq<Event>): map<CacheKey, Bitmap>
    decreases |evs|
  {
    if evs == [] then m
    else
      match evs[0]
      case Evict(keys) => EnvironmentOnly(Purge(m, keys), evs[1..])
      case OtherPublish(k, b) => EnvironmentOnly(Publish(m, k, b), evs[1..])
      case _ => EnvironmentOnly(m, evs[1..])
  }

  /** The final state, and the result and record of every lock call, in order. */
  datatype Trace = Trace(world: World, results: seq<bool>, recs: seq<Option<LockRec>>)

  /** Plays a sequence of events from state `w`. */
  function Run(c: Config, w: World, evs: seq<Event>): (r: Trace)
    ensures |r.results| == LockCount(evs) && |r.recs| == |r.results|
    ensures w.errorInDecoding ==> r.world.errorInDecoding
    ensures w.decodes <= r.world.decodes
    decreases |evs|
  {
    if evs == [] then Trace(w, [], [])
    else
      match evs[0]
      case LockPixels(o) =>
        var s := Lock(c, w, o);
        var t := Run(c, s.world, evs[1..]);
        Trace(t.world, [s.ok] + t.results, [s.rec] + t.recs)
      case UnlockPixels =>
        Run(c, Unlock(w), evs[1..])
      case Evict(keys) =>
        Run(c, w.(cache := Purge(w.cache, keys)), evs[1..])
      case OtherPublish(k, b) =>
        Run(c, w.(cache := Publish(w.cache, k, b)), evs[1..])
  }

  /**
   * Failure is terminal: once the error flag is set, every later lock fails,
   * the generator is never called again, and the cache changes only by what
   * the environment does.
   */
  lemma {:induction false} FailedIsTerminal(c: Config, w: World, evs: seq<Event>)
    requires w.errorInDecoding
    ensures Run(c, w, evs).world.errorInDecoding
    ensures Run(c, w, evs).world.decodes == w.decodes
    ensures Run(c, w, evs).world.cache == EnvironmentOnly(w.cache, evs)
    ensures forall i :: 0 <= i < |Run(c, w, evs).results| ==> !Run(c, w, evs).results[i]
    decreases |evs|
  {
    if evs != [] {
      match evs[0]
      case LockPixels(o) =>
        FailedIsTerminal(c, w, evs[1..]);
      case UnlockPixels =>
        FailedIsTerminal(c, Unlock(w), evs[1..]);
      case Evict(keys) =>
        FailedIsTerminal(c, w.(cache := Purge(w.cache, keys)), evs[1..]);
      case OtherPublish(k, b) =>
        FailedIsTerminal(c, w.(cache := Publish(w.cache, k, b)), evs[1..]);
    }
  }

  /** No event of `evs` evicts `key`. */
  predicate NeverEvicted(key: CacheKey, evs: seq<Event>)
  {
    forall i :: 0 <= i < |evs| && evs[i].Evict? ==> key !in evs[i].keys
  }

  /**
   * While this ref's entry stays cached, the generator is never called again,
   * the entry is never replaced, and a ref that has not failed succeeds at
   * every lock.
   */
  lemma {:induction false} CachedEntryIsReused(c: Config, w: World, evs: seq<Event>)
    requires Key(c) in w.cache
    requires NeverEvicted(Key(c), evs)
    ensures Run(c, w, evs).world.decodes == w.decodes
    ensures Key(c) in Run(c, w, evs).world.cache
    ensures Run(c, w, evs).world.cache[Key(c)] == w.cache[Key(c)]
    ensures !w.errorInDecoding ==>
              !Run(c, w, evs).world.errorInDecoding &&
              forall i :: 0 <= i < |Run(c, w, evs).results| ==> Run(c, w, evs).results[i]
    decreases |evs|
  {
    if evs != [] {
      assert NeverEvicted(Key(c), evs[1..]) by {
        forall i | 0 <= i < |evs[1..]| && evs[1..][i].Evict?
          ensures Key(c) !in evs[1..][i].keys
        {
          assert evs[1..][i] == evs[i + 1];
        }
      }
      match evs[0]
      case LockPixels(o) =>
        CachedEntryIsReused(c, Lock(c, w, o).world, evs[1..]);
      case UnlockPixels =>
        CachedEntryIsReused(c, Unlock(w), evs[1..]);
      case Evict(keys) =>
        assert Key(c) !in keys by { assert evs[0].Evict?; }
        CachedEntryIsReused(c, w.(cache := Purge(w.cache, keys)), evs[1..]);
      case OtherPublish(k, b) =>
        CachedEntryIsReused(c, w.(cache := Publish(w.cache, k, b)), evs[1..]);
    }
  }

  /** Every bitmap another pixel ref publishes has pixels and is immutable, as `SharedCache.Add` demands. */
  predicate PublishesWellFormed(evs: seq<Event>)
  {
    forall i :: 0 <= i < |evs| && evs[i].OtherPublish? ==>
      evs[i].bitmap.pixels.Some? && evs[i].bitmap.immutable
  }

  /**
   * If the cache holds only immutable bitmaps with pixels and every other
   * publisher keeps to that, it still does after any sequence of events, so
   * every successful lock along the way hands out non-null pixels.
   */
  lemma {:induction false} WellFormedCacheIsKept(c: Config, w: World, evs: seq<Event>)
    requires WellFormed(w.cache)
    requires PublishesWellFormed(evs)
    ensures WellFormed(Run(c, w, evs).world.cache)
    ensures forall i :: 0 <= i < |Run(c, w, evs).results| && Run(c, w, evs).results[i] ==>
              Run(c, w, evs).recs[i].Some? && Run(c, w, evs).recs[i].value.pixels.Some?
    decreases |evs|
  {
    if evs != [] {
      assert PublishesWellFormed(evs[1..]) by {
        forall i | 0 <= i < |evs[1..]| && evs[1..][i].OtherPublish?
          ensures evs[1..][i].bitmap.pixels.Some? && evs[1..][i].bitmap.immutable
        {
          assert evs[1..][i] == evs[i + 1];
        }
      }
      match evs[0]
      case LockPixels(o) =>
        WellFormedCacheIsKept(c, Lock(c, w, o).world, evs[1..]);
      case UnlockPixels =>
        WellFormedCacheIsKept(c, Unlock(w), evs[1..]);
      case Evict(keys) =>
        WellFormedCacheIsKept(c, w.(cache := Purge(w.cache, keys)), evs[1..]);
      case OtherPublish(k, b) =>
        assert b.pixels.Some? && b.immutable by { assert evs[0].OtherPublish?; }
        WellFormedCacheIsKept(c, w.(cache := Publish(w.cache, k, b)), evs[1..]);
    }
  }

  /** A lock from this state would run the generator: no error yet and a cache miss. */
  predicate Armed(c: Config, w: World)
  {
    !w.errorInDecoding && Key(c) !in w.cache
  }

  /**
   * The generator runs at most once per cache generation: over any sequence
   * of events it is called at most once more than the number of evictions of
   * this ref's entry (and not even once if the first lock would hit or the
   * ref has failed).
   */
  lemma {:induction false} DecodesBoundedByEvictions(c: Config, w: World, evs: seq<Event>)
    ensures |Run(c, w, evs).world.decodes|
            <= |w.decodes| + (if Armed(c, w) then 1 else 0) + EvictionsOf(Key(c), evs)
    decreases |evs|
  {
    if evs != [] {
      match evs[0]
      case LockPixels(o) =>
        var s := Lock(c, w, o);
        assert !Armed(c, s.world);
        DecodesBoundedByEvictions(c, s.world, evs[1..]);
      case UnlockPixels =>
        DecodesBoundedByEvictions(c, Unlock(w), evs[1..]);
      case Evict(keys) =>
        DecodesBoundedByEvictions(c, w.(cache := Purge(w.cache, keys)), evs[1..]);
      case OtherPublish(k, b) =>
        DecodesBoundedByEvictions(c, w.(cache := Publish(w.cache, k, b)), evs[1..]);
    }
  }

  /** Every generator call asks for this ref's whole image at its own fRowBytes. */
  lemma {:induction false} DecodesAskForWholeImage(c: Config, w: World, evs: seq<Event>)
    ensures forall i :: |w.decodes| <= i < |Run(c, w, evs).world.decodes| ==>
              Run(c, w, evs).world.decodes[i].info == c.info &&
              Run(c, w, evs).world.decodes[i].rowBytes == c.rowBytes
    decreases |evs|
  {
    if evs != [] {
      match evs[0]
      case LockPixels(o) =>
        DecodesAskForWholeImage(c, Lock(c, w, o).world, evs[1..]);
      case UnlockPixels =>
        DecodesAskForWholeImage(c, Unlock(w), evs[1..]);
      case Evict(keys) =>
        DecodesAskForWholeImage(c, w.(cache := Purge(w.cache, keys)), evs[1..]);
      case OtherPublish(k, b) =>
        DecodesAskForWholeImage(c, w.(cache := Publish(w.cache, k, b)), evs[1..]);
    }
  }

  /**
   * A lock/unlock cycle after a successful lock, with the entry still
   * cached, calls the generator zero more times and hands back the same record.
   */
  lemma RelockHitsCache(c: Config, w: World, o1: Oracle, o2: Oracle)
    requires Lock(c, w, o1).ok
    ensures Lock(c, Unlock(Lock(c, w, o1).world), o2).ok
    ensures Lock(c, Unlock(Lock(c, w, o1).world), o2).world.decodes == Lock(c, w, o1).world.decodes
    ensures Lock(c, Unlock(Lock(c, w, o1).world), o2).rec == Lock(c, w, o1).rec
  {
  }

  /**
   * After the entry has been evicted, the next lock is a fresh miss: with a
   * working allocator and decoder it calls the generator exactly once more
   * and republishes the result.
   */
  lemma RedecodeAfterEviction(c: Config, w: World, o1: Oracle, o2: Oracle)
    requires Lock(c, w, o1).ok
    requires o2.allocates && o2.decodes
    ensures var evicted := Unlock(Lock(c, w, o1).world).(cache := Purge(Lock(c, w, o1).world.cache, {Key(c)}));
            var s := Lock(c, evicted, o2);
            && s.ok
            && s.world.decodes == Lock(c, w, o1).world.decodes + [DecodeRequest(c.info, o2.addr, c.rowBytes)]
            && Key(c) in s.world.cache && s.world.cache[Key(c)] == s.world.locked
  {
  }

  /**
   * A second pixel ref with the same generation ID and bounds finds the
   * first one's published bitmap: it locks without ever calling its own
   * generator and sees the first ref's pixels.
   */
  lemma SecondRefSharesEntry(c1: Config, c2: Config, w1: World, o1: Oracle, o2: Oracle)
    requires Key(c1) == Key(c2)
    requires Lock(c1, w1, o1).ok
    ensures var s := Lock(c2, Fresh(Lock(c1, w1, o1).world.cache), o2);
            && s.ok
            && s.world.decodes == []
            && s.rec == Lock(c1, w1, o1).rec
            && s.world.cache == Lock(c1, w1, o1).world.cache
  {
  }
}
