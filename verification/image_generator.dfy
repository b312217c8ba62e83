/**
 * The image generator a caching pixel ref owns. Its decoder is foreign code:
 * whether a call succeeds is supplied by the caller of the model, and a ghost
 * log records every call so that "the generator was not run" can be stated.
 * A ghost flag records whether the generator has been deleted.
 */
module ImageGenerator {
  import opened Image

  class Generator {
    /** What `getInfo()` reports. */
    const info: ImageInfo
    /** Every `getPixels` call so far, oldest first. */
    ghost var requests: seq<DecodeRequest>
    /** Set by `delete`; a deleted generator may not be used or deleted again. */
    ghost var deleted: bool

    constructor (info: ImageInfo)
      ensures this.info == info && requests == [] && !deleted
    {
      this.info := info;
      requests := [];
      deleted := false;
    }

    /** `getPixels(info, pixels, rowBytes)`; `decodes` is the foreign decoder's verdict. */
    method GetPixels(i: ImageInfo, pixels: Addr, rowBytes: nat, decodes: bool) returns (ok: bool)
      requires !deleted
      modifies this
      ensures ok == decodes
      ensures requests == old(requests) + [DecodeRequest(i, pixels, rowBytes)]
      ensures deleted == old(deleted)
    {
      ok := decodes;
      requests := requests + [DecodeRequest(i, pixels, rowBytes)];
    }

    /** `delete generator`: releases it exactly once. */
    method Delete()
      requires !deleted
      modifies this
      ensures deleted && requests == old(requests)
    {
      deleted := true;
    }
  }
}
