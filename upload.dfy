/**
 * The multipart loop of `upscale_image_post` (src/main.rs): every part
 * reassigns the image name and both paths, so the last part wins.
 */
module Upload {
  import opened Wrappers
  import opened Command

  /**
   * One multipart part, reduced to what decides the bookkeeping: its
   * declared file name, and whether it got through. `stored` is false when
   * the item or its content disposition is an error, when a chunk read
   * fails, or when creating the file or writing a chunk fails.
   */
  datatype Part = Part(filename: Option<string>, stored: bool)

  /** A part the handler gets through; any other part makes it panic. */
  predicate Accepted(p: Part) {
    p.filename.Some? && p.stored
  }

  /**
   * Walks the parts as the handler does. `ok` is false when a part panics
   * the handler (no file name, or `stored` is false). Otherwise the
   * name and paths are those of the last part, or all empty when no part
   * arrived.
   */
  method ReceiveParts(cacheDir: string, parts: seq<Part>)
    returns (ok: bool, imageName: string, originalPath: string, upscaledPath: string)
    ensures ok <==> forall i :: 0 <= i < |parts| ==> Accepted(parts[i])
    ensures ok && parts == [] ==> imageName == "" && originalPath == "" && upscaledPath == ""
    ensures ok && parts != [] ==>
      && imageName == parts[|parts| - 1].filename.value
      && originalPath == OriginalPath(cacheDir, imageName)
      && upscaledPath == UpscaledPath(cacheDir, imageName)
  {
    imageName, originalPath, upscaledPath := "", "", "";
    var i := 0;
    while i < |parts|
      invariant 0 <= i <= |parts|
      invariant forall j :: 0 <= j < i ==> Accepted(parts[j])
      invariant i == 0 ==> imageName == "" && originalPath == "" && upscaledPath == ""
      invariant i > 0 ==>
        && imageName == parts[i - 1].filename.value
        && originalPath == OriginalPath(cacheDir, imageName)
        && upscaledPath == UpscaledPath(cacheDir, imageName)
    {
      var part := parts[i];
      if part.filename.None? {
        ok := false;
        return;
      }
      imageName := part.filename.value;
      originalPath := cacheDir + "/" + imageName;
      upscaledPath := cacheDir + "/upscaled_" + imageName;
      if !part.stored {
        ok := false;
        return;
      }
      i := i + 1;
    }
    ok := true;
  }
}
