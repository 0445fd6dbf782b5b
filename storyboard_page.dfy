// The storyboard page: it loads the scenes with their durations and any
// cached images, streams new images from the image route into the scenes
// they belong to, reverts character edits and clears the image cache.

module StoryboardPage {
  import opened Common
  import opened Text
  import opened SceneCache
  import opened ImageJobs
  import ImagesStream
  import Revert

  /** A scene card: its scene, the image it shows and what is in progress. */
  datatype Item = Item(timestamp: real, prompt: string, duration: real, imageUrl: Option<string>, error: Option<string>,
                       isGenerating: bool, isRegeneratingWithCharacter: bool, hasCharacterEdit: bool)

  /** Two lists hold the same scenes in the same order: the timestamps,
      prompts and durations agree, whatever the images shown. */
  predicate SameScenes(a: seq<Item>, b: seq<Item>)
  {
    |a| == |b|
    && forall k :: 0 <= k < |a| ==> a[k].timestamp == b[k].timestamp && a[k].prompt == b[k].prompt && a[k].duration == b[k].duration
  }

  // ---------------------------------------------------------------------------
  // Loading
  // ---------------------------------------------------------------------------

  /** A scene lasts until the next one starts; the last lasts 3 s. */
  function DurationAt(timeline: seq<StoryboardItem>, i: nat): real
    requires i < |timeline|
  {
    if i < |timeline| - 1 then timeline[i + 1].timestamp - timeline[i].timestamp else 3.0
  }

  /** The cards of a timeline, with their durations and no image yet. */
  function WithDurations(timeline: seq<StoryboardItem>): (items: seq<Item>)
    ensures |items| == |timeline|
  {
    seq(|timeline|, i requires 0 <= i < |timeline| =>
      Item(timeline[i].timestamp, timeline[i].prompt, DurationAt(timeline, i), None, None, false, false, false))
  }

  function TotalDuration(items: seq<Item>): real
  {
    if items == [] then 0.0 else TotalDuration(items[..|items| - 1]) + items[|items| - 1].duration
  }

  lemma {:induction false} TotalDurationFrom(timeline: seq<StoryboardItem>, m: nat)
    requires 0 < m <= |timeline|
    ensures TotalDuration(WithDurations(timeline)[..m]) == timeline[m - 1].timestamp - timeline[0].timestamp
      + (if m == |timeline| then 3.0 else timeline[m].timestamp - timeline[m - 1].timestamp)
    decreases m
  {
    var items := WithDurations(timeline);
    if m > 1 {
      TotalDurationFrom(timeline, m - 1);
      assert items[..m][..m - 1] == items[..m - 1];
    }
  }

  /** The durations cover the timeline: from the first scene to the start of
      the last one, and 3 s more. */
  lemma TimelineCovered(timeline: seq<StoryboardItem>)
    requires |timeline| > 0
    ensures TotalDuration(WithDurations(timeline)) == timeline[|timeline| - 1].timestamp - timeline[0].timestamp + 3.0
  {
    TotalDurationFrom(timeline, |timeline|);
    assert WithDurations(timeline)[..|timeline|] == WithDurations(timeline);
  }

  /** `cachedUrl || null`: the URL cached for the timestamp, when truthy. */
  function CachedUrl(urls: map<real, string>, t: real): Option<string>
  {
    var u := ImagesStream.Get(urls, t);
    if Truthy(u) then u else None
  }

  /** The cards showing the cached image of their timestamp, or none. */
  function WithCachedImages(items: seq<Item>, urls: map<real, string>): (r: seq<Item>)
    ensures SameScenes(items, r)
  {
    seq(|items|, i requires 0 <= i < |items| => items[i].(imageUrl := CachedUrl(urls, items[i].timestamp)))
  }

  /** Every card shows the URL of the last cache entry for its timestamp,
      when that URL is non-empty, and nothing otherwise; the rest of the card
      is kept. */
  lemma CachedImageShown(items: seq<Item>, images: seq<CachedImage>, k: nat)
    requires k < |items|
    ensures var e := LastWith(images, ImageKey, items[k].timestamp);
      WithCachedImages(items, ImagesStream.UrlMap(images))[k]
        == items[k].(imageUrl := if e.Some? && e.value.imageUrl != "" then Some(e.value.imageUrl) else None)
  {
    ImagesStream.UrlMapLastWins(images, items[k].timestamp);
  }

  /** The cards after loading a timeline: a non-empty image cache replaces
      every card's image; an empty cache or a failed read leaves none. */
  function Loaded(timeline: seq<StoryboardItem>, cached: Option<seq<CachedImage>>): seq<Item>
  {
    var items := WithDurations(timeline);
    if cached.Some? && |cached.value| > 0 then WithCachedImages(items, ImagesStream.UrlMap(cached.value)) else items
  }

  // ---------------------------------------------------------------------------
  // Reading the image stream
  // ---------------------------------------------------------------------------

  /** A result event as the page reads it. */
  datatype ResultEvent = ResultEvent(timestamp: real, imageUrl: Option<string>, error: Option<string>)

  /** What the image route gives the page: a request that fails (a thrown
      `fetch`, a status that is not OK, no body), or the decoded chunks. */
  datatype StreamReply = RequestFailed | Chunks(chunks: seq<string>)

  /** The page's stream state: the cards, `completedCount` and the progress
      shown. */
  datatype Progress = Progress(items: seq<Item>, completed: nat, progress: int)

  /** `data: [DONE]`. */
  predicate IsDone(line: string)
  {
    StartsWith(line, "data: ") && line[6..] == "[DONE]"
  }

  /** The result a line carries: a `data: ` line other than `[DONE]` whose
      payload parses. `parse` is `JSON.parse`, `None` when it throws. */
  function ResultOf(line: string, parse: string -> Option<ResultEvent>): Option<ResultEvent>
  {
    if StartsWith(line, "data: ") && line[6..] != "[DONE]" then parse(line[6..]) else None
  }

  /** The number of cards with timestamp `t`. */
  function Matches(items: seq<Item>, t: real): (m: nat)
    ensures m <= |items|
  {
    if items == [] then 0 else Matches(items[..|items| - 1], t) + (if items[|items| - 1].timestamp == t then 1 else 0)
  }

  /** A card that received a result: its URL or `null`, its error or none,
      and no longer generating. */
  function Receive(item: Item, r: ResultEvent): Item
  {
    item.(imageUrl := if Truthy(r.imageUrl) then r.imageUrl else None,
          error := if Truthy(r.error) then r.error else None,
          isGenerating := false)
  }

  /** The cards after a result: those with its timestamp receive it. */
  function ApplyResult(items: seq<Item>, r: ResultEvent): (res: seq<Item>)
    ensures SameScenes(items, res)
  {
    seq(|items|, i requires 0 <= i < |items| => if items[i].timestamp == r.timestamp then Receive(items[i], r) else items[i])
  }

  /** `Math.round((completedCount / prompts.length) * 100)`. */
  function Percent(completed: nat, n: nat): int
    requires n > 0
  {
    Round(completed as real / n as real * 100.0)
  }

  /** One line of a chunk. Every card that receives a result counts as
      completed, whether it got an image or an error. */
  function LineStep(s: Progress, line: string, parse: string -> Option<ResultEvent>): Progress
  {
    if IsDone(line) then s.(progress := 100)
    else
      match ResultOf(line, parse)
      case None => s
      case Some(r) =>
        var m := Matches(s.items, r.timestamp);
        Progress(ApplyResult(s.items, r), s.completed + m, if m > 0 then Percent(s.completed + m, |s.items|) else s.progress)
  }

  function ReadLines(s: Progress, lines: seq<string>, parse: string -> Option<ResultEvent>): Progress
  {
    if lines == [] then s else LineStep(ReadLines(s, lines[..|lines| - 1], parse), lines[|lines| - 1], parse)
  }

  /** The chunks read so far, each split into lines on "\n". */
  function ReadChunks(s: Progress, chunks: seq<string>, parse: string -> Option<ResultEvent>): Progress
  {
    if chunks == [] then s else ReadLines(ReadChunks(s, chunks[..|chunks| - 1], parse), Split(chunks[|chunks| - 1], '\n'), parse)
  }

  /** The cards when generation starts: all generating, no error. */
  function Started(items: seq<Item>): (r: seq<Item>)
    ensures SameScenes(items, r)
  {
    seq(|items|, i requires 0 <= i < |items| => items[i].(isGenerating := true, error := None))
  }

  /** The cards after a failed request: none generating. */
  function Stopped(items: seq<Item>): (r: seq<Item>)
    ensures SameScenes(items, r)
  {
    seq(|items|, i requires 0 <= i < |items| => items[i].(isGenerating := false))
  }

  /** The prompts sent to the image route. */
  function PromptsOf(items: seq<Item>): (ps: seq<ImagePrompt>)
    ensures |ps| == |items|
  {
    seq(|items|, i requires 0 <= i < |items| => ImagePrompt(items[i].timestamp, items[i].prompt))
  }

  // ---------------------------------------------------------------------------
  // Revert and cache clearing
  // ---------------------------------------------------------------------------

  /** The card after a revert with the route's answer (`None` when the
      request throws): an answered URL replaces the image and clears the
      character edit; in every case the card stops regenerating. */
  function Reverted(item: Item, reply: Option<Revert.Response>): Item
  {
    if reply.Some? && reply.value.Reverted? && reply.value.imageUrl != "" then
      item.(imageUrl := Some(reply.value.imageUrl), isRegeneratingWithCharacter := false, hasCharacterEdit := false)
    else item.(isRegeneratingWithCharacter := false)
  }

  /** A revert against the route shows the original saved for the scene and
      clears the character edit, when one was saved and its URL is not empty;
      otherwise the card keeps its image and its edit. */
  lemma RevertShowsOriginal(item: Item, originals: map<real, OriginalImage>)
    ensures var r := Reverted(item, Some(Revert.RevertResponse(originals, Revert.RevertRequest(Some(item.timestamp), item.prompt))));
      var restored := item.timestamp in originals && originals[item.timestamp].originalImageUrl != "";
      r.imageUrl == (if restored then Some(originals[item.timestamp].originalImageUrl) else item.imageUrl)
      && r.hasCharacterEdit == (item.hasCharacterEdit && !restored)
      && !r.isRegeneratingWithCharacter
  {
  }

  /** The cards after the image cache is cleared: none shows an image. */
  function Cleared(items: seq<Item>): (r: seq<Item>)
    ensures SameScenes(items, r)
    ensures forall k :: 0 <= k < |r| ==> r[k].imageUrl.None? && r[k] == items[k].(imageUrl := None)
  {
    seq(|items|, i requires 0 <= i < |items| => items[i].(imageUrl := None))
  }

  // ---------------------------------------------------------------------------
  // The page
  // ---------------------------------------------------------------------------

  class Page {
    var items: seq<Item>
    var generationProgress: int
    var isGenerating: bool
    var imagesFromCache: bool

    constructor ()
      ensures items == [] && generationProgress == 0 && !isGenerating && !imagesFromCache
    {
      items := [];
      generationProgress := 0;
      isGenerating := false;
      imagesFromCache := false;
    }

    /** `loadFromData`: the cards with their durations, then the cached
        images when the image cache (`None` when reading it fails) is not
        empty. */
    method LoadFromData(timeline: seq<StoryboardItem>, cached: Option<seq<CachedImage>>)
      modifies this
      ensures items == Loaded(timeline, cached)
      ensures imagesFromCache == (old(imagesFromCache) || (cached.Some? && |cached.value| > 0))
      ensures generationProgress == old(generationProgress) && isGenerating == old(isGenerating)
    {
      var itemsWithDuration := WithDurations(timeline);
      items := itemsWithDuration;
      if cached.Some? && |cached.value| > 0 {
        var imageMap := ImagesStream.BuildUrlMap(cached.value);
        items := WithCachedImages(itemsWithDuration, imageMap);
        imagesFromCache := true;
      }
    }

    /** The lines of one chunk, in order. */
    method ReadChunk(chunk: string, parse: string -> Option<ResultEvent>, completed: nat) returns (completedCount: nat)
      modifies this
      ensures Progress(items, completedCount, generationProgress)
        == ReadLines(Progress(old(items), completed, old(generationProgress)), Split(chunk, '\n'), parse)
      ensures isGenerating == old(isGenerating) && imagesFromCache == old(imagesFromCache)
    {
      var lines := Split(chunk, '\n');
      ghost var start := Progress(items, completed, generationProgress);
      completedCount := completed;
      var j := 0;
      while j < |lines|
        invariant 0 <= j <= |lines|
        invariant Progress(items, completedCount, generationProgress) == ReadLines(start, lines[..j], parse)
        invariant isGenerating == old(isGenerating) && imagesFromCache == old(imagesFromCache)
      {
        var line := lines[j];
        assert lines[..j + 1][..j] == lines[..j];
        if StartsWith(line, "data: ") {
          var data := line[6..];
          if data == "[DONE]" {
            generationProgress := 100;
          } else {
            var result := parse(data);
            if result.Some? {
              var r := result.value;
              var m := Matches(items, r.timestamp);
              items := ApplyResult(items, r);
              completedCount := completedCount + m;
              if m > 0 {
                generationProgress := Percent(completedCount, |items|);
              }
            }
          }
        }
        j := j + 1;
      }
      assert lines[..j] == lines;
    }

    /** `handleGenerateImages`: refused with no cards; otherwise every card
        starts generating, the prompts are sent, and the stream's lines are
        read in order. It returns the prompts sent and `completedCount`. */
    method GenerateImages(reply: StreamReply, parse: string -> Option<ResultEvent>)
      returns (sent: Option<seq<ImagePrompt>>, completedCount: nat)
      modifies this
      ensures |old(items)| == 0 ==> sent.None? && items == old(items) && generationProgress == old(generationProgress)
      ensures |old(items)| > 0 ==> sent == Some(PromptsOf(old(items)))
      ensures |old(items)| > 0 && reply.RequestFailed? ==> items == Stopped(Started(old(items))) && generationProgress == 0
      ensures |old(items)| > 0 && reply.Chunks? ==>
        Progress(items, completedCount, generationProgress)
          == ReadChunks(Progress(Started(old(items)), 0, 0), reply.chunks, parse)
      ensures |old(items)| > 0 ==> !isGenerating
      ensures |old(items)| == 0 ==> isGenerating == old(isGenerating)
      ensures imagesFromCache == old(imagesFromCache)
    {
      if |items| == 0 {
        return None, 0;
      }
      var prompts := PromptsOf(items);
      isGenerating := true;
      generationProgress := 0;
      items := Started(items);
      sent := Some(prompts);
      completedCount := 0;
      if reply.RequestFailed? {
        items := Stopped(items);
        generationProgress := 0;
        isGenerating := false;
        return;
      }
      var chunks := reply.chunks;
      ghost var start := Progress(items, 0, 0);
      var i := 0;
      while i < |chunks|
        invariant 0 <= i <= |chunks|
        invariant Progress(items, completedCount, generationProgress) == ReadChunks(start, chunks[..i], parse)
        invariant imagesFromCache == old(imagesFromCache)
      {
        assert chunks[..i + 1][..i] == chunks[..i];
        completedCount := ReadChunk(chunks[i], parse, completedCount);
        i := i + 1;
      }
      assert chunks[..i] == chunks;
      isGenerating := false;
    }

    /** `handleRevertToOriginal`: nothing happens unless the card carries a
        character edit; then the revert route's answer (`None` when the
        request throws) is applied to that card only. */
    method RevertToOriginal(index: nat, reply: Option<Revert.Response>)
      requires index < |items|
      modifies this
      ensures !old(items[index].hasCharacterEdit) ==> items == old(items)
      ensures old(items[index].hasCharacterEdit) ==> items == old(items)[index := Reverted(old(items[index]), reply)]
      ensures generationProgress == old(generationProgress) && isGenerating == old(isGenerating)
      ensures imagesFromCache == old(imagesFromCache)
    {
      var scene := items[index];
      if !scene.hasCharacterEdit {
        return;
      }
      items := items[index := items[index].(isRegeneratingWithCharacter := true)];
      items := items[index := Reverted(items[index], reply)];
    }

    /** `handleClearImageCache`: when the clearing request does not throw,
        no card shows an image and the images no longer come from the
        cache. */
    method ClearImageCache(fetched: bool)
      modifies this
      ensures fetched ==> items == Cleared(old(items)) && !imagesFromCache
      ensures !fetched ==> items == old(items) && imagesFromCache == old(imagesFromCache)
      ensures generationProgress == old(generationProgress) && isGenerating == old(isGenerating)
    {
      if fetched {
        items := Cleared(items);
        imagesFromCache := false;
      }
    }
  }

  // ---------------------------------------------------------------------------
  // Properties of the stream reading
  // ---------------------------------------------------------------------------

  lemma {:induction false} ReadLinesAppend(s: Progress, a: seq<string>, b: seq<string>, parse: string -> Option<ResultEvent>)
    ensures ReadLines(s, a + b, parse) == ReadLines(ReadLines(s, a, parse), b, parse)
    decreases |b|
  {
    if b == [] {
      assert a + b == a;
    } else {
      ReadLinesAppend(s, a, b[..|b| - 1], parse);
      assert (a + b)[..|a + b| - 1] == a + b[..|b| - 1];
    }
  }

  /** All the lines of the chunks, in order. */
  function AllLines(chunks: seq<string>): seq<string>
  {
    if chunks == [] then [] else AllLines(chunks[..|chunks| - 1]) + Split(chunks[|chunks| - 1], '\n')
  }

  /** Reading chunk by chunk is reading all their lines in order. */
  lemma {:induction false} ChunksAreLines(s: Progress, chunks: seq<string>, parse: string -> Option<ResultEvent>)
    ensures ReadChunks(s, chunks, parse) == ReadLines(s, AllLines(chunks), parse)
    decreases |chunks|
  {
    if chunks != [] {
      var init := chunks[..|chunks| - 1];
      ChunksAreLines(s, init, parse);
      ReadLinesAppend(s, AllLines(init), Split(chunks[|chunks| - 1], '\n'), parse);
    }
  }

  /** The lines starting with "data: ". */
  function DataLines(lines: seq<string>): seq<string>
  {
    if lines == [] then []
    else DataLines(lines[..|lines| - 1]) + (if StartsWith(lines[|lines| - 1], "data: ") then [lines[|lines| - 1]] else [])
  }

  /** Only the "data: " lines matter: reading the stream is reading its
      data lines alone. */
  lemma {:induction false} OnlyDataLines(s: Progress, lines: seq<string>, parse: string -> Option<ResultEvent>)
    ensures ReadLines(s, lines, parse) == ReadLines(s, DataLines(lines), parse)
    decreases |lines|
  {
    if lines != [] {
      var init, last := lines[..|lines| - 1], lines[|lines| - 1];
      OnlyDataLines(s, init, parse);
      if StartsWith(last, "data: ") {
        ReadLinesAppend(s, DataLines(init), [last], parse);
      } else {
        assert DataLines(lines) == DataLines(init);
      }
    }
  }

  /** Reading lines keeps the scenes: only images, errors and the
      generating flags change. */
  lemma {:induction false} ReadKeepsScenes(s: Progress, lines: seq<string>, parse: string -> Option<ResultEvent>)
    ensures SameScenes(s.items, ReadLines(s, lines, parse).items)
    ensures s.completed <= ReadLines(s, lines, parse).completed
    decreases |lines|
  {
    if lines != [] {
      ReadKeepsScenes(s, lines[..|lines| - 1], parse);
    }
  }

  /** The last result a stream of lines carries for timestamp `t`. */
  function LastResultFor(lines: seq<string>, t: real, parse: string -> Option<ResultEvent>): Option<ResultEvent>
  {
    if lines == [] then None
    else
      var r := ResultOf(lines[|lines| - 1], parse);
      if r.Some? && r.value.timestamp == t then r else LastResultFor(lines[..|lines| - 1], t, parse)
  }

  /** A card after a stream: it received the last result for its timestamp,
      or it is as it was. */
  function Settle(item: Item, r: Option<ResultEvent>): Item
  {
    if r.Some? then Receive(item, r.value) else item
  }

  predicate AllSettled(before: seq<Item>, after: seq<Item>, lines: seq<string>, parse: string -> Option<ResultEvent>)
  {
    |after| == |before|
    && forall k :: 0 <= k < |before| ==> after[k] == Settle(before[k], LastResultFor(lines, before[k].timestamp, parse))
  }

  /** The last result for a timestamp wins: each card ends showing the URL
      and error of the last result with its timestamp, and is untouched when
      no result has it. */
  lemma {:induction false} LastResultWins(s: Progress, lines: seq<string>, parse: string -> Option<ResultEvent>)
    ensures AllSettled(s.items, ReadLines(s, lines, parse).items, lines, parse)
    decreases |lines|
  {
    if lines != [] {
      var init, last := lines[..|lines| - 1], lines[|lines| - 1];
      LastResultWins(s, init, parse);
      ReadKeepsScenes(s, init, parse);
      var mid := ReadLines(s, init, parse).items;
      var fin := ReadLines(s, lines, parse).items;
      forall k | 0 <= k < |s.items|
        ensures fin[k] == Settle(s.items[k], LastResultFor(lines, s.items[k].timestamp, parse))
      {
        assert mid[k].timestamp == s.items[k].timestamp;
      }
    }
  }

  /** The number of cards with a given timestamp depends only on the scenes. */
  lemma {:induction false} MatchesKeep(a: seq<Item>, b: seq<Item>, t: real)
    requires SameScenes(a, b)
    ensures Matches(a, t) == Matches(b, t)
    decreases |a|
  {
    if a != [] {
      MatchesKeep(a[..|a| - 1], b[..|b| - 1], t);
    }
  }

  /** The cards a stream's results reach, counted on the cards it starts
      from: every result counts once per card with its timestamp. */
  function Hits(items: seq<Item>, lines: seq<string>, parse: string -> Option<ResultEvent>): nat
  {
    if lines == [] then 0
    else
      var r := ResultOf(lines[|lines| - 1], parse);
      Hits(items, lines[..|lines| - 1], parse) + (if r.Some? then Matches(items, r.value.timestamp) else 0)
  }

  /** `completedCount` counts every card a result reaches, images and
      failures alike. */
  lemma {:induction false} CompletedCountsHits(s: Progress, lines: seq<string>, parse: string -> Option<ResultEvent>)
    ensures ReadLines(s, lines, parse).completed == s.completed + Hits(s.items, lines, parse)
    decreases |lines|
  {
    if lines != [] {
      var init := lines[..|lines| - 1];
      CompletedCountsHits(s, init, parse);
      ReadKeepsScenes(s, init, parse);
      var r := ResultOf(lines[|lines| - 1], parse);
      if r.Some? {
        MatchesKeep(s.items, ReadLines(s, init, parse).items, r.value.timestamp);
      }
    }
  }

  /** The progress after the stream: 100 when the last data line is
      `[DONE]`. */
  lemma DoneCompletes(s: Progress, lines: seq<string>, parse: string -> Option<ResultEvent>)
    requires |DataLines(lines)| > 0 && IsDone(DataLines(lines)[|DataLines(lines)| - 1])
    ensures ReadLines(s, lines, parse).progress == 100
  {
    OnlyDataLines(s, lines, parse);
  }
}
