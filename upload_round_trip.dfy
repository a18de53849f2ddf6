/** How the path returned by the upload handler and the URL built by the
    image component fit together. */
module UploadRoundTrip {
  import opened Wrappers
  import ImageHandler
  import EwasteImage
  import EwasteStore

  /** For an upload whose name holds neither '/' nor '\', the URL string the
      image component builds is API_BASE + "/uploads/" + the stored name. */
  lemma SavedPathServesStoredFile(apiBase: string, now: ImageHandler.DateTime, filename: string)
    requires forall i :: 0 <= i < |filename| ==> !EwasteImage.IsSeparator(filename[i])
    ensures EwasteImage.ImageUrl(apiBase, Some(ImageHandler.SavedPath(now, filename)))
         == Some(apiBase + "/uploads/" + ImageHandler.StoredName(now, filename))
  {
    ImageHandler.SavedPathIsStoredName(now, filename);
    var stored := ImageHandler.StoredName(now, filename);
    var safe := ImageHandler.SafeName(filename);
    var ts := ImageHandler.Timestamp(now);
    assert stored == ts + "_" + safe;
    forall i | 0 <= i < |stored| ensures !EwasteImage.IsSeparator(stored[i]) {
      if i < 20 {
        assert stored[i] == ts[i];
      } else if i > 20 {
        assert stored[i] == safe[i - 21];
      }
    }
    EwasteImage.AfterSeparator("/uploads", '/', stored);
    assert "/uploads/" + stored == "/uploads" + ['/'] + stored;
  }

  /** For every item the add route stores with an image, the URL string the
      image component builds from the stored row is API_BASE + "/uploads/" +
      the stored name of the upload. */
  lemma StoredImageIsServed(apiBase: string, req: EwasteStore.AddRequest, id: int,
                            now: ImageHandler.DateTime, analyze: string -> EwasteStore.Analysis)
    requires req.image.Some? && EwasteStore.NewItem(req, id, now, analyze).Ok?
    ensures EwasteImage.ImageUrl(apiBase, EwasteStore.NewItem(req, id, now, analyze).value.imagePath)
         == Some(apiBase + "/uploads/" + ImageHandler.StoredName(now, req.image.value))
  {
    var name := req.image.value;
    assert !ImageHandler.HasSeparator(name);
    forall i | 0 <= i < |name| ensures !EwasteImage.IsSeparator(name[i]) {
      assert name[i] in name;
    }
    SavedPathServesStoredFile(apiBase, now, name);
  }
}
