// The scene cache: a key-value store holding the latest storyboard, the list
// of generated images, the list of generated videos, the originals saved
// before character edits (one per timestamp) and the latest stitched video.
//
// The store is sequential and in memory. Every operation takes the outcome of
// its store calls as a boolean (`ok`, `readOk`, `writeOk`): a failed call is
// swallowed exactly as the source swallows a thrown client error.

module SceneCache {
  import opened Common

  /** Time-to-live of the storyboard entry, in seconds; the image lists and
      originals live 24 times and the videos 48 times as long. Expiry is not
      modelled. */
  const CacheTtl := 3600

  datatype StoryboardItem = StoryboardItem(timestamp: real, prompt: string, duration: Option<real>)

  datatype CachedStoryboard = CachedStoryboard(
    items: seq<StoryboardItem>, audioFileName: string, audioFileUrl: Option<string>, cachedAt: int)

  datatype CachedImage = CachedImage(imageUrl: string, prompt: string, timestamp: real, generatedAt: int)

  datatype OriginalImage = OriginalImage(
    timestamp: real, originalImageUrl: string, editedImageUrl: string, savedAt: int)

  datatype VideoStatus = Queued | Processing | Completed | Failed

  datatype CachedVideo = CachedVideo(
    videoUrl: string, prompt: string, timestamp: real, imageUrl: string, audioDuration: real,
    generatedAt: int, status: VideoStatus, jobId: Option<string>, error: Option<string>)

  datatype StitchStatus = StitchProcessing | StitchCompleted | StitchFailed

  datatype StitchedVideo = StitchedVideo(
    videoUrl: string, audioUrl: string, sceneCount: int, totalDuration: real, stitchedAt: int,
    status: StitchStatus, error: Option<string>)

  function ImageKey(img: CachedImage): real { img.timestamp }

  function VideoKey(v: CachedVideo): real { v.timestamp }

  // ---------------------------------------------------------------------------
  // Timestamp-keyed lists: `findIndex`, replace-or-append, last-wins lookup
  // ---------------------------------------------------------------------------

  /** `findIndex` on the timestamp: the first position holding `t`, or -1. */
  function FindIndex<T>(xs: seq<T>, key: T -> real, t: real): (i: int)
    ensures -1 <= i < |xs|
    ensures 0 <= i ==> key(xs[i]) == t && forall k :: 0 <= k < i ==> key(xs[k]) != t
    ensures i == -1 <==> forall k :: 0 <= k < |xs| ==> key(xs[k]) != t
  {
    if xs == [] then -1
    else if key(xs[0]) == t then 0
    else
      var j := FindIndex(xs[1..], key, t);
      if j < 0 then -1 else j + 1
  }

  /** True when `t` occurs as a key of `xs`. */
  predicate HasKey<T>(xs: seq<T>, key: T -> real, t: real)
  {
    exists k :: 0 <= k < |xs| && key(xs[k]) == t
  }

  /** No two entries share a key. */
  predicate DistinctKeys<T>(xs: seq<T>, key: T -> real)
  {
    forall i, j :: 0 <= i < j < |xs| ==> key(xs[i]) != key(xs[j])
  }

  /** The read-modify-write of `cacheGeneratedImage` and `cacheGeneratedVideo`:
      replace the first entry with the new entry's key, or append. */
  function Upsert<T>(xs: seq<T>, key: T -> real, x: T): (r: seq<T>)
    ensures HasKey(xs, key, key(x)) ==> |r| == |xs|
    ensures !HasKey(xs, key, key(x)) ==> r == xs + [x]
    ensures forall k :: 0 <= k < |xs| && k != FindIndex(xs, key, key(x)) ==> r[k] == xs[k]
    ensures HasKey(r, key, key(x))
  {
    var i := FindIndex(xs, key, key(x));
    if i >= 0 then
      assert xs[i := x][i] == x;
      xs[i := x]
    else
      assert (xs + [x])[|xs|] == x;
      xs + [x]
  }

  /** The `Map` built by `set` in order: the last entry with key `t` wins. */
  function LastWith<T>(xs: seq<T>, key: T -> real, t: real): (r: Option<T>)
    ensures r.Some? <==> HasKey(xs, key, t)
    ensures r.Some? ==> key(r.value) == t && r.value in xs
  {
    if xs == [] then None
    else if key(xs[|xs| - 1]) == t then Some(xs[|xs| - 1])
    else
      var r := LastWith(xs[..|xs| - 1], key, t);
      assert r.Some? ==> r.value in xs by {
        if r.Some? { assert xs == xs[..|xs| - 1] + [xs[|xs| - 1]]; }
      }
      r
  }

  /** After an upsert, the entry for the new key is the new entry, whether it
      is looked up first-match (`findIndex`) or last-match (a `Map`), provided
      the keys were distinct before. */
  lemma UpsertThenLookup<T>(xs: seq<T>, key: T -> real, x: T)
    requires DistinctKeys(xs, key)
    ensures var r := Upsert(xs, key, x);
      0 <= FindIndex(r, key, key(x)) && r[FindIndex(r, key, key(x))] == x
    ensures LastWith(Upsert(xs, key, x), key, key(x)) == Some(x)
  {
    UpsertKeepsDistinct(xs, key, x);
    var r := Upsert(xs, key, x);
    var i := FindIndex(xs, key, key(x));
    var p := if i >= 0 then i else |xs|;
    assert r[p] == x;
    DistinctLookups(r, key, p);
  }

  /** In a list with distinct keys, both lookups find the one entry. */
  lemma {:induction false} DistinctLookups<T>(xs: seq<T>, key: T -> real, p: int)
    requires DistinctKeys(xs, key) && 0 <= p < |xs|
    ensures FindIndex(xs, key, key(xs[p])) == p
    ensures LastWith(xs, key, key(xs[p])) == Some(xs[p])
    decreases |xs|
  {
    var t := key(xs[p]);
    if p < |xs| - 1 {
      var init := xs[..|xs| - 1];
      assert init[p] == xs[p];
      assert DistinctKeys(init, key) by {
        forall i, j | 0 <= i < j < |init| ensures key(init[i]) != key(init[j]) {
          assert init[i] == xs[i] && init[j] == xs[j];
        }
      }
      DistinctLookups(init, key, p);
      assert key(xs[|xs| - 1]) != t;
    }
  }

  /** Upserting into a list with distinct keys keeps the keys distinct. */
  lemma UpsertKeepsDistinct<T>(xs: seq<T>, key: T -> real, x: T)
    requires DistinctKeys(xs, key)
    ensures DistinctKeys(Upsert(xs, key, x), key)
  {
    var r := Upsert(xs, key, x);
    var i := FindIndex(xs, key, key(x));
    forall a, b | 0 <= a < b < |r| ensures key(r[a]) != key(r[b]) {
      if i >= 0 {
        if a != i && b != i {
          assert r[a] == xs[a] && r[b] == xs[b];
        } else if a == i {
          assert r[b] == xs[b];
        } else {
          assert r[a] == xs[a];
        }
      } else {
        if b == |xs| {
          assert r[a] == xs[a];
        } else {
          assert r[a] == xs[a] && r[b] == xs[b];
        }
      }
    }
  }

  /** Repeating the same upsert changes nothing: the length stays and the
      entry is replaced by itself. */
  lemma UpsertIdempotent<T>(xs: seq<T>, key: T -> real, x: T)
    ensures Upsert(Upsert(xs, key, x), key, x) == Upsert(xs, key, x)
  {
    var r := Upsert(xs, key, x);
    var i := FindIndex(xs, key, key(x));
    var j := FindIndex(r, key, key(x));
    if i >= 0 {
      assert r[i] == x;
      assert forall k :: 0 <= k < i ==> r[k] == xs[k];
      assert j == i;
    } else {
      assert r[|xs|] == x;
      assert forall k :: 0 <= k < |xs| ==> r[k] == xs[k];
      assert j == |xs|;
    }
  }

  /** The entry `find` returns for timestamp `t`: the first one holding it. */
  function EntryAt<T>(xs: seq<T>, key: T -> real, t: real): (r: Option<T>)
    ensures r.Some? <==> HasKey(xs, key, t)
    ensures r.Some? ==> key(r.value) == t && r.value in xs
  {
    var i := FindIndex(xs, key, t);
    if i >= 0 then Some(xs[i]) else None
  }

  /** After an upsert the new entry is found for its own key, and every other
      key finds what it found before; no assumption on the list is needed. */
  lemma UpsertLookup<T>(xs: seq<T>, key: T -> real, x: T, t: real)
    ensures EntryAt(Upsert(xs, key, x), key, t) == (if t == key(x) then Some(x) else EntryAt(xs, key, t))
  {
    var r := Upsert(xs, key, x);
    var i := FindIndex(xs, key, key(x));
    var p := if i >= 0 then i else |xs|;
    assert r[p] == x;
    assert forall k :: 0 <= k < p ==> r[k] == xs[k];
    if t != key(x) {
      var j := FindIndex(xs, key, t);
      assert forall k :: 0 <= k < |xs| && key(xs[k]) == t ==> r[k] == xs[k];
      if j >= 0 {
        assert r[j] == xs[j];
        assert forall k :: 0 <= k < j ==> key(r[k]) != t by {
          forall k | 0 <= k < j ensures key(r[k]) != t {
            if k != p { assert r[k] == xs[k]; }
          }
        }
        assert FindIndex(r, key, t) == j;
      } else {
        assert forall k :: 0 <= k < |r| ==> key(r[k]) != t by {
          forall k | 0 <= k < |r| ensures key(r[k]) != t {
            if k != p { assert r[k] == xs[k]; }
          }
        }
      }
    } else {
      assert FindIndex(r, key, t) == p;
    }
  }

  lemma HasKeyAppend<T>(a: seq<T>, b: seq<T>, key: T -> real, t: real)
    ensures HasKey(a + b, key, t) <==> HasKey(a, key, t) || HasKey(b, key, t)
  {
    if HasKey(a + b, key, t) {
      var k :| 0 <= k < |a + b| && key((a + b)[k]) == t;
      if k < |a| {
        assert a[k] == (a + b)[k];
      } else {
        assert b[k - |a|] == (a + b)[k];
      }
    }
    if HasKey(a, key, t) {
      var k :| 0 <= k < |a| && key(a[k]) == t;
      assert (a + b)[k] == a[k];
    }
    if HasKey(b, key, t) {
      var k :| 0 <= k < |b| && key(b[k]) == t;
      assert (a + b)[|a| + k] == b[k];
    }
  }

  /** The last entry with key `t` of a concatenation comes from the second
      part when it has one. */
  lemma {:induction false} LastWithAppend<T>(a: seq<T>, b: seq<T>, key: T -> real, t: real)
    ensures LastWith(a + b, key, t) == (if HasKey(b, key, t) then LastWith(b, key, t) else LastWith(a, key, t))
    decreases |b|
  {
    if b == [] {
      assert a + b == a;
    } else {
      var init := b[..|b| - 1];
      assert (a + b)[..|a + b| - 1] == a + init;
      assert (a + b)[|a + b| - 1] == b[|b| - 1];
      LastWithAppend(a, init, key, t);
      if key(b[|b| - 1]) != t {
        assert HasKey(b, key, t) <==> HasKey(init, key, t) by {
          if HasKey(b, key, t) {
            var k :| 0 <= k < |b| && key(b[k]) == t;
            assert init[k] == b[k];
          }
          if HasKey(init, key, t) {
            var k :| 0 <= k < |init| && key(init[k]) == t;
            assert b[k] == init[k];
          }
        }
      } else {
        assert HasKey(b, key, t) by { assert key(b[|b| - 1]) == t; }
      }
    }
  }

  /** The list an upsert starts from: the stored list, or the empty list when
      the read found nothing or failed. */
  function ExistingOrEmpty<T>(stored: Option<seq<T>>): (r: seq<T>)
    ensures stored.Some? ==> r == stored.value
    ensures stored.None? ==> r == []
  {
    if stored.Some? then stored.value else []
  }

  // ---------------------------------------------------------------------------
  // The store
  // ---------------------------------------------------------------------------

  class Store {
    var storyboard: Option<CachedStoryboard>
    var images: Option<seq<CachedImage>>
    var originals: map<real, OriginalImage>
    var videos: Option<seq<CachedVideo>>
    var stitched: Option<StitchedVideo>

    /** A store with no keys. */
    constructor ()
      ensures storyboard == None && images == None && originals == map[]
      ensures videos == None && stitched == None
    {
      storyboard := None;
      images := None;
      originals := map[];
      videos := None;
      stitched := None;
    }

    /** `cacheStoryboard`. */
    method CacheStoryboard(data: CachedStoryboard, ok: bool) returns (r: bool)
      modifies this
      ensures r == ok
      ensures storyboard == (if ok then Some(data) else old(storyboard))
      ensures images == old(images) && originals == old(originals)
      ensures videos == old(videos) && stitched == old(stitched)
    {
      if ok {
        storyboard := Some(data);
      }
      r := ok;
    }

    /** `getCachedStoryboard`: a failed read yields null. */
    method GetCachedStoryboard(ok: bool) returns (r: Option<CachedStoryboard>)
      ensures ok ==> r == storyboard
      ensures !ok ==> r == None
    {
      r := if ok then storyboard else None;
    }

    /** `clearStoryboardCache`. */
    method ClearStoryboardCache(ok: bool) returns (r: bool)
      modifies this
      ensures r == ok
      ensures storyboard == (if ok then None else old(storyboard))
      ensures images == old(images) && originals == old(originals)
      ensures videos == old(videos) && stitched == old(stitched)
    {
      if ok {
        storyboard := None;
      }
      r := ok;
    }

    /** `cacheGeneratedImages`: the whole list is replaced. */
    method CacheGeneratedImages(list: seq<CachedImage>, ok: bool) returns (r: bool)
      modifies this
      ensures r == ok
      ensures images == (if ok then Some(list) else old(images))
      ensures storyboard == old(storyboard) && originals == old(originals)
      ensures videos == old(videos) && stitched == old(stitched)
    {
      if ok {
        images := Some(list);
      }
      r := ok;
    }

    /** `getCachedImages`: a failed read yields null. */
    method GetCachedImages(ok: bool) returns (r: Option<seq<CachedImage>>)
      ensures ok ==> r == images
      ensures !ok ==> r == None
    {
      r := if ok then images else None;
    }

    /** `clearImageCache`. */
    method ClearImageCache(ok: bool) returns (r: bool)
      modifies this
      ensures r == ok
      ensures images == (if ok then None else old(images))
      ensures storyboard == old(storyboard) && originals == old(originals)
      ensures videos == old(videos) && stitched == old(stitched)
    {
      if ok {
        images := None;
      }
      r := ok;
    }

    /** `cacheGeneratedImage`: read the list (null or a failed read gives the
        empty list), replace the first entry with timestamp `t` or append, and
        write the list back. Both inner calls swallow their failures, so the
        result is `true` whatever happened. */
    method CacheGeneratedImage(t: real, prompt: string, imageUrl: string, now: int, readOk: bool, writeOk: bool)
      returns (r: bool)
      modifies this
      ensures r
      ensures var base := if readOk then ExistingOrEmpty(old(images)) else [];
        images == (if writeOk then Some(Upsert(base, ImageKey, CachedImage(imageUrl, prompt, t, now))) else old(images))
      ensures storyboard == old(storyboard) && originals == old(originals)
      ensures videos == old(videos) && stitched == old(stitched)
    {
      var stored := GetCachedImages(readOk);
      var existing := ExistingOrEmpty(stored);
      var index := FindIndex(existing, ImageKey, t);
      var newImage := CachedImage(imageUrl, prompt, t, now);
      if index >= 0 {
        existing := existing[index := newImage];
      } else {
        existing := existing + [newImage];
      }
      var _ := CacheGeneratedImages(existing, writeOk);
      r := true;
    }

    /** `saveOriginalImage`: the entry for `t` is overwritten unconditionally. */
    method SaveOriginalImage(t: real, originalUrl: string, editedUrl: string, now: int, ok: bool) returns (r: bool)
      modifies this
      ensures r == ok
      ensures originals == (if ok then old(originals)[t := OriginalImage(t, originalUrl, editedUrl, now)] else old(originals))
      ensures storyboard == old(storyboard) && images == old(images)
      ensures videos == old(videos) && stitched == old(stitched)
    {
      if ok {
        originals := originals[t := OriginalImage(t, originalUrl, editedUrl, now)];
      }
      r := ok;
    }

    /** `getOriginalImage`: the last record saved for `t`, or null. */
    method GetOriginalImage(t: real, ok: bool) returns (r: Option<OriginalImage>)
      ensures ok && t in originals ==> r == Some(originals[t])
      ensures !ok || t !in originals ==> r == None
    {
      r := if ok && t in originals then Some(originals[t]) else None;
    }

    /** `cacheGeneratedVideos`: the whole list is replaced. */
    method CacheGeneratedVideos(list: seq<CachedVideo>, ok: bool) returns (r: bool)
      modifies this
      ensures r == ok
      ensures videos == (if ok then Some(list) else old(videos))
      ensures storyboard == old(storyboard) && images == old(images)
      ensures originals == old(originals) && stitched == old(stitched)
    {
      if ok {
        videos := Some(list);
      }
      r := ok;
    }

    /** `getCachedVideos`: a failed read yields null. */
    method GetCachedVideos(ok: bool) returns (r: Option<seq<CachedVideo>>)
      ensures ok ==> r == videos
      ensures !ok ==> r == None
    {
      r := if ok then videos else None;
    }

    /** `cacheGeneratedVideo`: the same replace-or-append as for images, with
        status, job id and error stored as given. */
    method CacheGeneratedVideo(t: real, prompt: string, videoUrl: string, imageUrl: string, audioDuration: real,
                               status: VideoStatus, jobId: Option<string>, error: Option<string>, now: int,
                               readOk: bool, writeOk: bool)
      returns (r: bool)
      modifies this
      ensures r
      ensures var base := if readOk then ExistingOrEmpty(old(videos)) else [];
        var v := CachedVideo(videoUrl, prompt, t, imageUrl, audioDuration, now, status, jobId, error);
        videos == (if writeOk then Some(Upsert(base, VideoKey, v)) else old(videos))
      ensures storyboard == old(storyboard) && images == old(images)
      ensures originals == old(originals) && stitched == old(stitched)
    {
      var stored := GetCachedVideos(readOk);
      var existing := ExistingOrEmpty(stored);
      var index := FindIndex(existing, VideoKey, t);
      var newVideo := CachedVideo(videoUrl, prompt, t, imageUrl, audioDuration, now, status, jobId, error);
      if index >= 0 {
        existing := existing[index := newVideo];
      } else {
        existing := existing + [newVideo];
      }
      var _ := CacheGeneratedVideos(existing, writeOk);
      r := true;
    }

    /** `clearVideoCache`. */
    method ClearVideoCache(ok: bool) returns (r: bool)
      modifies this
      ensures r == ok
      ensures videos == (if ok then None else old(videos))
      ensures storyboard == old(storyboard) && images == old(images)
      ensures originals == old(originals) && stitched == old(stitched)
    {
      if ok {
        videos := None;
      }
      r := ok;
    }

    /** `cacheStitchedVideo`. */
    method CacheStitchedVideo(video: StitchedVideo, ok: bool) returns (r: bool)
      modifies this
      ensures r == ok
      ensures stitched == (if ok then Some(video) else old(stitched))
      ensures storyboard == old(storyboard) && images == old(images)
      ensures originals == old(originals) && videos == old(videos)
    {
      if ok {
        stitched := Some(video);
      }
      r := ok;
    }

    /** `getCachedStitchedVideo`: a failed read yields null. */
    method GetCachedStitchedVideo(ok: bool) returns (r: Option<StitchedVideo>)
      ensures ok ==> r == stitched
      ensures !ok ==> r == None
    {
      r := if ok then stitched else None;
    }

    /** `clearStitchedVideoCache`. */
    method ClearStitchedVideoCache(ok: bool) returns (r: bool)
      modifies this
      ensures r == ok
      ensures stitched == (if ok then None else old(stitched))
      ensures storyboard == old(storyboard) && images == old(images)
      ensures originals == old(originals) && videos == old(videos)
    {
      if ok {
        stitched := None;
      }
      r := ok;
    }
  }

  /** The image a reader of the list finds for `t` through `findIndex`. */
  function ImageUrlAt(images: Option<seq<CachedImage>>, t: real): (r: Option<string>)
    ensures r.Some? <==> images.Some? && HasKey(images.value, ImageKey, t)
  {
    if images.None? then None
    else
      var i := FindIndex(images.value, ImageKey, t);
      if i < 0 then None else Some(images.value[i].imageUrl)
  }

  /** Repeating the same image upsert on a healthy store leaves the list length
      unchanged, and a reader then finds the new URL for `t`. */
  lemma RepeatedImageUpsert(stored: Option<seq<CachedImage>>, t: real, prompt: string, url: string, now: int)
    ensures var once := Upsert(ExistingOrEmpty(stored), ImageKey, CachedImage(url, prompt, t, now));
      var twice := Upsert(once, ImageKey, CachedImage(url, prompt, t, now));
      |twice| == |once| && ImageUrlAt(Some(twice), t) == Some(url)
  {
    var x := CachedImage(url, prompt, t, now);
    var once := Upsert(ExistingOrEmpty(stored), ImageKey, x);
    UpsertIdempotent(ExistingOrEmpty(stored), ImageKey, x);
    var j := FindIndex(once, ImageKey, t);
    var i := FindIndex(ExistingOrEmpty(stored), ImageKey, t);
    if i >= 0 {
      assert once[i] == x;
      assert forall k :: 0 <= k < i ==> once[k] == ExistingOrEmpty(stored)[k];
      assert j == i;
    } else {
      assert once[|once| - 1] == x;
      assert j == |once| - 1;
    }
  }

  /** A failed read makes the upsert overwrite the list with the new entry
      alone: every other cached image is lost. */
  lemma FailedReadDropsOtherImages(t: real, prompt: string, url: string, now: int)
    ensures Upsert([], ImageKey, CachedImage(url, prompt, t, now)) == [CachedImage(url, prompt, t, now)]
  {
    assert !HasKey([], ImageKey, t);
  }
}
