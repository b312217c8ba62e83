/**
 * SkCachingPixelRef: a pixel ref that owns an image generator and turns it
 * into lockable pixels, going through the shared bitmap cache so that the
 * generator is not run again while its decoded bitmap is still cached.
 * Each method is proved against the matching function of LockProtocol.
 */
module CachingPixelRef {
  import opened Wrappers
  import opened Image
  import opened BitmapCache
  import opened ImageGenerator
  import opened LockProtocol

  class CachingPixelRef {
    /** The description the base class was built with (`this->info()`). */
    const info: ImageInfo
    /** fImageGenerator, owned by this ref. */
    const generator: Generator
    /** fRowBytes: the stride the generator is asked to decode at. */
    const rowBytes: nat
    /** `getGenerationID()`, fixed for the life of the ref. */
    const genID: nat
    /** The process-wide bitmap cache. */
    const cache: SharedCache
    /** fErrorInDecoding: once set, no lock is attempted again. */
    var errorInDecoding: bool
    /** fLockedBitmap: the bitmap whose pixels the current lock hands out. */
    var lockedBitmap: Bitmap

    /** The ref owns a live generator that describes the same image. */
    ghost predicate Valid()
      reads this, generator
    {
      !generator.deleted && generator.info == info
    }

    function ProtocolConfig(): LockProtocol.Config
    {
      LockProtocol.Config(info, genID, rowBytes)
    }

    /** The ref's fields, the shared cache and the generator's call log, as a value. */
    ghost function Snapshot(): World
      reads this, cache, generator
    {
      World(errorInDecoding, lockedBitmap, cache.entries, generator.requests)
    }

    /** `SkCachingPixelRef(info, generator, rowBytes)`: takes ownership of the generator. */
    constructor (info: ImageInfo, generator: Generator, rowBytes: nat, genID: nat, cache: SharedCache)
      requires !generator.deleted && generator.info == info
      ensures Valid()
      ensures this.info == info && this.generator == generator && this.rowBytes == rowBytes
      ensures this.genID == genID && this.cache == cache
      ensures !errorInDecoding && lockedBitmap == EmptyBitmap
    {
      this.info := info;
      this.generator := generator;
      this.rowBytes := rowBytes;
      this.genID := genID;
      this.cache := cache;
      errorInDecoding := false;
      lockedBitmap := EmptyBitmap;
    }

    /** `~SkCachingPixelRef()`: releases the owned generator. */
    method Destroy()
      requires Valid()
      modifies generator
      ensures generator.deleted && generator.requests == old(generator.requests)
    {
      generator.Delete();
    }

    /**
     * `onNewLockPixels(rec)`: the result and the record written (`None` when
     * the record is left alone), with the ref, the cache and the generator
     * log moved exactly as LockProtocol.Lock says.
     */
    method OnNewLockPixels(o: Oracle) returns (ok: bool, rec: Option<LockRec>)
      requires Valid()
      modifies this, cache, generator
      ensures Valid()
      ensures Step(Snapshot(), ok, rec) == Lock(ProtocolConfig(), old(Snapshot()), o)
    {
      if errorInDecoding {
        return false, None;  // a failed decode is never retried
      }
      var key := CacheKey(genID, Bounds(info));
      var found := cache.Lookup(key);
      if found.Some? {
        lockedBitmap := found.value;
      } else {
        var buffer := Allocate(info, rowBytes, o);
        if buffer.None? {
          lockedBitmap := EmptyBitmap;
          errorInDecoding := true;
          return false, None;
        }
        lockedBitmap := buffer.value;
        var decoded := generator.GetPixels(info, lockedBitmap.pixels.value, rowBytes, o.decodes);
        if !decoded {
          errorInDecoding := true;
          return false, None;
        }
        lockedBitmap := lockedBitmap.(immutable := true);
        cache.Add(key, lockedBitmap);
      }
      ok, rec := true, Some(LockRec(lockedBitmap.pixels, None, lockedBitmap.rowBytes));
    }

    /** `onUnlockPixels()`: resets fLockedBitmap and nothing else. */
    method OnUnlockPixels()
      modifies this
      ensures Snapshot() == Unlock(old(Snapshot()))
    {
      lockedBitmap := EmptyBitmap;
    }
  }

  /** The destination SkBitmap that Install binds a new pixel ref to. */
  class TargetBitmap {
    var info: ImageInfo
    var rowBytes: nat
    var pixelRef: CachingPixelRef?

    constructor ()
      ensures info == EmptyBitmap.info && rowBytes == 0 && pixelRef == null
    {
      info := EmptyBitmap.info;
      rowBytes := 0;
      pixelRef := null;
    }

    /**
     * `setInfo(info)`: whether the description is accepted and which stride
     * the bitmap then reports are decided by the bitmap library. Either way
     * the bitmap lets go of its pixel ref; a rejection resets it.
     */
    method SetInfo(i: ImageInfo, accepts: bool, chosenRowBytes: nat) returns (ok: bool)
      modifies this
      ensures ok == accepts
      ensures ok ==> info == i && rowBytes == chosenRowBytes && pixelRef == null
      ensures !ok ==> info == EmptyBitmap.info && rowBytes == 0 && pixelRef == null
    {
      ok := accepts;
      if ok {
        info, rowBytes, pixelRef := i, chosenRowBytes, null;
      } else {
        info, rowBytes, pixelRef := EmptyBitmap.info, 0, null;
      }
    }

    /** `setPixelRef(ref)`. */
    method SetPixelRef(r: CachingPixelRef)
      modifies this
      ensures pixelRef == r && info == old(info) && rowBytes == old(rowBytes)
    {
      pixelRef := r;
    }
  }

  /**
   * `SkCachingPixelRef::Install(generator, dst)`. A null generator is refused
   * with nothing to free and `dst` untouched; a generator whose info `dst`
   * rejects is deleted and `dst` is left reset; otherwise a new pixel ref
   * takes ownership of the generator and is bound to `dst`. The generator is
   * never asked to decode.
   */
  method Install(generator: Generator?, dst: TargetBitmap, cache: SharedCache, genID: nat,
                 accepts: bool, chosenRowBytes: nat)
    returns (ok: bool, ref: CachingPixelRef?)
    requires generator != null ==> !generator.deleted
    modifies dst, generator
    ensures ok <==> generator != null && accepts
    ensures ok <==> ref != null
    ensures generator == null ==> dst.info == old(dst.info) && dst.rowBytes == old(dst.rowBytes)
                                  && dst.pixelRef == old(dst.pixelRef)
    ensures generator != null && !accepts ==>
              dst.info == EmptyBitmap.info && dst.rowBytes == 0 && dst.pixelRef == null
    ensures generator != null ==> generator.requests == old(generator.requests)
    ensures generator != null && !accepts ==> generator.deleted
    ensures ok ==> fresh(ref) && ref.Valid() && ref.generator == generator
                   && ref.info == generator.info && dst.info == generator.info
                   && ref.rowBytes == dst.rowBytes == chosenRowBytes
                   && ref.genID == genID && ref.cache == cache
                   && !ref.errorInDecoding && ref.lockedBitmap == EmptyBitmap
                   && dst.pixelRef == ref
  {
    if generator == null {
      return false, null;
    }
    var info := generator.info;
    var accepted := dst.SetInfo(info, accepts, chosenRowBytes);
    if !accepted {
      generator.Delete();
      return false, null;
    }
    ref := new CachingPixelRef(info, generator, dst.rowBytes, genID, cache);
    dst.SetPixelRef(ref);
    ok := true;
  }
}
