# SkCachingPixelRef, modelled in Dafny

This project models Skia's `SkCachingPixelRef` (src/lazy/SkCachingPixelRef.cpp).
It is a pixel ref that owns an `SkImageGenerator` and hands out lockable pixels.
On a lock it first asks the process-wide `SkBitmapCache` for a bitmap already
decoded under (generation ID, `info.bounds()`). On a miss it allocates pixels,
runs the generator, marks the bitmap immutable and publishes it. A failed
allocation or decode sets the sticky flag `fErrorInDecoding`, and every later
lock then fails at once.

Modules:

- `Image` (image.dfy): value types. `ImageInfo`, `IRect` and `Bounds`, the
  value `Bitmap` (pixels, stride, immutability), `CacheKey`, `LockRec`, and
  `DecodeRequest` (one `getPixels` call).
- `BitmapCache` (bitmap_cache.dfy): the shared cache as a
  `map<CacheKey, Bitmap>`. It has the pure operations `Find`, `Publish` and
  `Purge`, plus the class `SharedCache` that holds the map.
- `ImageGenerator` (image_generator.dfy): the generator. Its decoder's verdict
  is a parameter. A ghost log records every `getPixels` call and a ghost flag
  records deletion.
- `LockProtocol` (lock_protocol.dfy): the lock and unlock calls as pure
  functions over a `World` value. A `World` holds the ref's fields, the cache
  and the generator log. `Run` plays a sequence of lock, unlock, eviction and
  foreign-publish events. The lemmas state what holds over any such sequence.
- `CachingPixelRef` (caching_pixel_ref.dfy): the class with `fErrorInDecoding`,
  `fLockedBitmap` and `fRowBytes`. Its methods are proved against
  `LockProtocol`. The module also has the destination bitmap and `Install`.

The outcomes of foreign calls are parameters of the model:

- `tryAllocPixels` succeeds or not, and at which address (`Oracle.allocates`, `Oracle.addr`).
- `getPixels` succeeds or not (`Oracle.decodes`).
- `setInfo` accepts or not, and which stride `dst` then reports (`accepts`, `chosenRowBytes`).
- The generation ID is a per-instance constant (`genID`).

Assumptions about library code that is not part of this model:

- A failed `tryAllocPixels` leaves `fLockedBitmap` reset, as `SkBitmap` does.
- `SkBitmapCache::Add` keeps an entry that is already present, so the first publish under a key wins.
- `setInfo` drops `dst`'s pixel ref, and a rejected `setInfo` resets `dst`, as `SkBitmap` does.

Two details of the code that the model keeps:

- A null generator makes `Install` fail with nothing to free and `dst` untouched (lines 15-17).
- A failed `getPixels` sets the error flag and returns without resetting `fLockedBitmap` (lines 55-57). The allocated buffer stays in `fLockedBitmap`; it is never published and never handed out.

## Model

| member | source | states |
|---|---|---|
| `BitmapCache.Find` | src/lazy/SkCachingPixelRef.cpp:48-49 | a lookup returns a bitmap exactly when the key is cached, and then returns the cached bitmap |
| `BitmapCache.Publish` | src/lazy/SkCachingPixelRef.cpp:60 | after a publish the key is cached; an absent key gets the new bitmap; existing entries keep their value |
| `BitmapCache.Purge` | src/lazy/SkCachingPixelRef.cpp:50 | eviction removes exactly the named keys and leaves the other entries unchanged |
| `BitmapCache.SharedCache.Lookup` | src/lazy/SkCachingPixelRef.cpp:48-49 | `SkBitmapCache::Find` on the shared object answers like `Find` and changes nothing |
| `BitmapCache.SharedCache.Add` | src/lazy/SkCachingPixelRef.cpp:59-60 | only immutable bitmaps are accepted; the store becomes `Publish` of the old store |
| `BitmapCache.SharedCache.Evict` | src/lazy/SkCachingPixelRef.cpp:50 | the environment may remove any entries between calls; the store becomes `Purge` of the old store |
| `ImageGenerator.Generator.GetPixels` | src/lazy/SkCachingPixelRef.cpp:55 | the result is the decoder's verdict; exactly one request (info, pixels, stride) is appended to the call log |
| `ImageGenerator.Generator.Delete` | src/lazy/SkCachingPixelRef.cpp:20 | a live generator becomes deleted; deleting twice is excluded |
| `LockProtocol.Lock` | src/lazy/SkCachingPixelRef.cpp:42-70 | a failed ref fails again with nothing touched; a lock succeeds exactly when the ref has not failed and either the key is cached or both allocation and decode succeed, and success holds exactly when the error flag is clear afterwards, so an allocation or decode failure sets the flag; the record is written only on success, from the locked bitmap, with no colour table; after success the locked bitmap is the one cached under (genID, bounds); cached entries are never changed or removed; a failure adds nothing to the cache; the generator never runs on a hit, and on a miss it runs exactly once when allocation succeeds and not at all when allocation fails; on a successful miss the locked, published and recorded bitmap is the decoded buffer (the ref's info, the allocated pixels, `fRowBytes`) marked immutable; after a failed decode that buffer stays locked and mutable; after a failed allocation the locked bitmap is reset; a well-formed cache stays well-formed and then the locked pixels are non-null and immutable |
| `LockProtocol.Unlock` | src/lazy/SkCachingPixelRef.cpp:72-74 | only the locked bitmap is reset; the error flag, cache and generator log are unchanged |
| `LockProtocol.Run` | src/lazy/SkCachingPixelRef.cpp:42-74 | over any event sequence there is one result and one record per lock, the error flag is never cleared, and the generator log only grows |
| `LockProtocol.FailedIsTerminal` | src/lazy/SkCachingPixelRef.cpp:43-45 | once the flag is set, every later lock fails, the generator is never called again, and the cache changes only by what the environment does |
| `LockProtocol.WellFormedCacheIsKept` | src/lazy/SkCachingPixelRef.cpp:59-65 | if the cache holds only immutable bitmaps with pixels and other refs publish only such bitmaps, it still does after any event sequence, and every successful lock in the sequence writes a record with non-null pixels |
| `LockProtocol.CachedEntryIsReused` | src/lazy/SkCachingPixelRef.cpp:48-61 | while this ref's entry is not evicted, the generator is never called, the entry is never replaced, and a ref that has not failed succeeds at every lock |
| `LockProtocol.DecodesBoundedByEvictions` | src/lazy/SkCachingPixelRef.cpp:48-61 | over any event sequence the generator runs at most once per eviction of this ref's entry, plus once if the next lock would miss |
| `LockProtocol.DecodesAskForWholeImage` | src/lazy/SkCachingPixelRef.cpp:55 | every generator call requests the ref's own info at `fRowBytes` |
| `LockProtocol.RelockHitsCache` | src/lazy/SkCachingPixelRef.cpp:48-69 | after a successful lock and an unlock, the next lock succeeds with zero more generator calls and the same record |
| `LockProtocol.RedecodeAfterEviction` | src/lazy/SkCachingPixelRef.cpp:50-60 | after the entry is evicted, the next lock with working allocation and decoding calls the generator exactly once more and republishes |
| `LockProtocol.SecondRefSharesEntry` | src/lazy/SkCachingPixelRef.cpp:48-49 | a second ref with the same key finds the first one's bitmap, never calls its own generator, and hands out the same pixels |
| `CachingPixelRef.CachingPixelRef.constructor` | src/lazy/SkCachingPixelRef.cpp:28-36 | the new ref owns the live generator, keeps info and `fRowBytes`, starts with the error flag clear and nothing locked |
| `CachingPixelRef.CachingPixelRef.Destroy` | src/lazy/SkCachingPixelRef.cpp:37-40 | the destructor deletes the owned generator |
| `CachingPixelRef.CachingPixelRef.OnNewLockPixels` | src/lazy/SkCachingPixelRef.cpp:42-70 | result, record, fields, shared cache and generator log move exactly as `LockProtocol.Lock` says; the ref stays valid |
| `CachingPixelRef.CachingPixelRef.OnUnlockPixels` | src/lazy/SkCachingPixelRef.cpp:72-74 | the state moves exactly as `LockProtocol.Unlock` says |
| `CachingPixelRef.TargetBitmap.SetInfo` | src/lazy/SkCachingPixelRef.cpp:19 | accepted: `dst` takes the info, reports the library's stride and has no pixel ref; rejected: `dst` is reset |
| `CachingPixelRef.TargetBitmap.SetPixelRef` | src/lazy/SkCachingPixelRef.cpp:24 | binds the pixel ref and keeps info and stride |
| `CachingPixelRef.Install` | src/lazy/SkCachingPixelRef.cpp:12-26 | succeeds exactly for a non-null generator whose info `dst` accepts; a null generator fails with nothing freed and `dst` unchanged; a rejected generator is deleted and `dst` is left reset; on success a fresh valid ref owns the generator, has its info and `dst`'s stride, has a clear error flag, and is bound to `dst`; the generator is never asked to decode |

## Left out

- Pixel decoding inside `SkImageGenerator::getPixels` is foreign code. Its success is an input, and the bytes it writes are not modelled.
- The internals of `SkBitmapCache`: its eviction policy, its thread safety, and the pixel-ref notification done by `Add`. Eviction is an arbitrary `Evict` event.
- Concurrency: refs racing on the shared cache are modelled only as interleaved `OtherPublish` and `Evict` events.
- CachingPixelRef.TargetBitmap.SetInfo: any adjustment `setInfo` makes to the accepted info (such as correcting the alpha type) is not modelled; `dst` takes the info as given.
- Allocation details of `tryAllocPixels`, the byte layout of pixels, and the validation rules of `setInfo`. Each is a parameter.
- Reference counting (`SkAutoTUnref`, `setPixelRef`'s ref/unref), and the base class's lock bookkeeping beyond the three `LockRec` fields.
- Generation-ID allocation: the ID is a constant of each ref, and the lookup at line 49 and the publish at line 60 use the same key.
- The debug assertions at lines 14 and 35 are expressed by types. `dst` is a non-null `TargetBitmap`, and the constructor takes a non-null `Generator`. The assertion at line 65 is the `WellFormed` clause of `LockProtocol.Lock`.
- Aliasing of one generator between two refs is not modelled. Each ref owns its generator, and `Valid` requires only that it is alive.
