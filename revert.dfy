// The revert route: the image cache entry of a scene is restored to the
// original saved by the last character edit of that scene.

module Revert {
  import opened Common
  import opened SceneCache

  /** The request body: it does not parse (the message of the thrown error),
      or its timestamp, possibly missing, and its prompt, taken as present
      since the route never checks it. */
  datatype Request = Unreadable(message: string) | RevertRequest(timestamp: Option<real>, prompt: string)

  datatype Response = Reverted(imageUrl: string) | Error(status: int, message: string)

  const NoOriginalMessage := "No original image found for this scene"

  /** The answer `POST` gives for the saved originals. Only a missing
      timestamp is refused: timestamp 0 is accepted. */
  function RevertResponse(originals: map<real, OriginalImage>, req: Request): (resp: Response)
    ensures resp.Error? && resp.status == 400 <==> req.RevertRequest? && req.timestamp.None?
    ensures resp.Reverted? <==> req.RevertRequest? && req.timestamp.Some? && req.timestamp.value in originals
    ensures resp.Reverted? ==> resp.imageUrl == originals[req.timestamp.value].originalImageUrl
  {
    match req
    case Unreadable(m) => Error(500, m)
    case RevertRequest(t, _) =>
      if t.None? then Error(400, "Missing timestamp")
      else if t.value !in originals then Error(404, NoOriginalMessage)
      else Reverted(originals[t.value].originalImageUrl)
  }

  /** `POST`: read the original for the timestamp and upsert the image entry
      for it to the original URL. The original is kept, and a refused request
      changes nothing. */
  method RevertToOriginal(store: Store, req: Request, now: int) returns (resp: Response)
    modifies store
    ensures resp == RevertResponse(old(store.originals), req)
    ensures resp.Reverted? ==> store.images == Some(Upsert(ExistingOrEmpty(old(store.images)), ImageKey,
      CachedImage(resp.imageUrl, req.prompt, req.timestamp.value, now)))
    ensures !resp.Reverted? ==> store.images == old(store.images)
    ensures store.originals == old(store.originals) && store.storyboard == old(store.storyboard)
    ensures store.videos == old(store.videos) && store.stitched == old(store.stitched)
  {
    if req.Unreadable? {
      return Error(500, req.message);
    }
    if req.timestamp.None? {
      return Error(400, "Missing timestamp");
    }
    var t := req.timestamp.value;
    var originalData := store.GetOriginalImage(t, true);
    if originalData.None? {
      return Error(404, NoOriginalMessage);
    }
    var _ := store.CacheGeneratedImage(t, req.prompt, originalData.value.originalImageUrl, now, true, true);
    resp := Reverted(originalData.value.originalImageUrl);
  }

  /** A revert after a character edit of the same scene answers the scene
      image the edit started from, and a reader of the image list then finds
      that image for the scene, provided the list had one entry per
      timestamp. */
  lemma RevertUndoesEdit(originals: map<real, OriginalImage>, images: seq<CachedImage>, t: real,
                         scene: string, edited: string, prompt: string, savedAt: int, now: int)
    requires DistinctKeys(images, ImageKey)
    ensures var saved := originals[t := OriginalImage(t, scene, edited, savedAt)];
      RevertResponse(saved, RevertRequest(Some(t), prompt)) == Reverted(scene)
    ensures ImageUrlAt(Some(Upsert(images, ImageKey, CachedImage(scene, prompt, t, now))), t) == Some(scene)
  {
    UpsertThenLookup(images, ImageKey, CachedImage(scene, prompt, t, now));
  }

  /** Reverting twice (at the same clock reading) leaves the same image list
      as reverting once: the saved original is not consumed. */
  lemma RevertTwice(originals: map<real, OriginalImage>, images: Option<seq<CachedImage>>, req: Request, now: int)
    requires RevertResponse(originals, req).Reverted?
    ensures var x := CachedImage(RevertResponse(originals, req).imageUrl, req.prompt, req.timestamp.value, now);
      var once := Upsert(ExistingOrEmpty(images), ImageKey, x);
      Upsert(ExistingOrEmpty(Some(once)), ImageKey, x) == once
  {
    var x := CachedImage(RevertResponse(originals, req).imageUrl, req.prompt, req.timestamp.value, now);
    UpsertIdempotent(ExistingOrEmpty(images), ImageKey, x);
  }
}
