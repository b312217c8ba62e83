/**
 * Value types shared by the caching pixel reference, the bitmap cache and the
 * image generator: image descriptions, integer rectangles, bitmaps, cache keys
 * and the lock record handed back to the pixel-ref base class.
 */
module Image {
  import opened Wrappers

  /** Address of a block of pixel memory; `None` of `Option<Addr>` plays nullptr. */
  type Addr = nat

  /** SkImageInfo: dimensions plus the colour and alpha tags (kept abstract). */
  datatype ImageInfo = ImageInfo(width: int, height: int, colorType: nat, alphaType: nat)

  /** SkIRect, with exclusive right and bottom edges. */
  datatype IRect = IRect(left: int, top: int, right: int, bottom: int)

  /** `info.bounds()`: the whole image, anchored at the origin. */
  function Bounds(info: ImageInfo): IRect
  {
    IRect(0, 0, info.width, info.height)
  }

  /**
   * SkBitmap as a value: its description, its pixel memory (if any), its row
   * stride and whether its pixels have been marked immutable.
   */
  datatype Bitmap = Bitmap(info: ImageInfo, pixels: Option<Addr>, rowBytes: nat, immutable: bool)

  /** The state `SkBitmap::reset()` leaves behind: no description, no pixels. */
  const EmptyBitmap: Bitmap := Bitmap(ImageInfo(0, 0, 0, 0), None, 0, false)

  /** The shared cache is keyed on (generation ID, requested bounds). */
  datatype CacheKey = CacheKey(genID: nat, bounds: IRect)

  /** The three fields of the base class's LockRec that a lock writes. */
  datatype LockRec = LockRec(pixels: Option<Addr>, colorTable: Option<nat>, rowBytes: nat)

  /** One call of `SkImageGenerator::getPixels(info, pixels, rowBytes)`. */
  datatype DecodeRequest = DecodeRequest(info: ImageInfo, pixels: Addr, rowBytes: nat)
}
