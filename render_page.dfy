// The render page: it loads the scenes with their durations, cached images
// and cached videos, streams video results into the scenes they belong to,
// decides when to open the stitcher and with which videos, and clears the
// video cache.

module RenderPage {
  import opened Common
  import opened Text
  import opened SceneCache
  import ImagesStream
  import VideoStream
  import StoryboardPage

  /** The statuses a scene shows. */
  const Pending := "pending"
  const CompletedStatus := "completed"

  /** A scene of the render page. Its status is one of "pending", "queued",
      "processing", "completed" and "failed". */
  datatype Item = Item(timestamp: real, prompt: string, duration: real, imageUrl: Option<string>,
                       videoUrl: Option<string>, status: string, jobId: Option<string>, error: Option<string>)

  /** The stitched video shown: its URL and status. */
  datatype StitchedView = StitchedView(videoUrl: string, status: StitchStatus)

  /** Two lists hold the same scenes in the same order. */
  predicate SameScenes(a: seq<Item>, b: seq<Item>)
  {
    |a| == |b|
    && forall k :: 0 <= k < |a| ==> a[k].timestamp == b[k].timestamp && a[k].prompt == b[k].prompt && a[k].duration == b[k].duration
  }

  // ---------------------------------------------------------------------------
  // Loading
  // ---------------------------------------------------------------------------

  /** The scenes of a timeline: the same durations as the storyboard page,
      all pending. */
  function WithDurations(timeline: seq<StoryboardItem>): (items: seq<Item>)
    ensures |items| == |timeline|
    ensures forall k :: 0 <= k < |items| ==> items[k].status == Pending
  {
    seq(|timeline|, i requires 0 <= i < |timeline| =>
      Item(timeline[i].timestamp, timeline[i].prompt, StoryboardPage.DurationAt(timeline, i), None, None, Pending, None, None))
  }

  /** The scenes showing the cached image of their timestamp, or "". */
  function WithCachedImages(items: seq<Item>, urls: map<real, string>): (r: seq<Item>)
    ensures SameScenes(items, r)
  {
    seq(|items|, i requires 0 <= i < |items| =>
      var u := ImagesStream.Get(urls, items[i].timestamp);
      items[i].(imageUrl := Some(if Truthy(u) then u.value else "")))
  }

  /** Each scene shows the URL of the last cache entry for its timestamp, or
      "" when there is none or it is empty. */
  lemma CachedImageShown(items: seq<Item>, images: seq<CachedImage>, k: nat)
    requires k < |items|
    ensures var e := LastWith(images, ImageKey, items[k].timestamp);
      WithCachedImages(items, ImagesStream.UrlMap(images))[k]
        == items[k].(imageUrl := Some(if e.Some? then e.value.imageUrl else ""))
  {
    ImagesStream.UrlMapLastWins(images, items[k].timestamp);
  }

  /** The status a cached video shows. */
  function StatusName(s: VideoStatus): string
  {
    match s
    case Queued => "queued"
    case Processing => "processing"
    case Completed => CompletedStatus
    case Failed => "failed"
  }

  /** `videoMap`: timestamp to cached video, the later entry winning. */
  function VideoMap(videos: seq<CachedVideo>): map<real, CachedVideo>
  {
    if videos == [] then map[]
    else
      var last := videos[|videos| - 1];
      VideoMap(videos[..|videos| - 1])[last.timestamp := last]
  }

  /** The map holds the last cached video of every timestamp. */
  lemma {:induction false} VideoMapLastWins(videos: seq<CachedVideo>, t: real)
    ensures t in VideoMap(videos) <==> LastWith(videos, VideoKey, t).Some?
    ensures t in VideoMap(videos) ==> VideoMap(videos)[t] == LastWith(videos, VideoKey, t).value
    decreases |videos|
  {
    if videos != [] {
      VideoMapLastWins(videos[..|videos| - 1], t);
    }
  }

  method BuildVideoMap(videos: seq<CachedVideo>) returns (m: map<real, CachedVideo>)
    ensures m == VideoMap(videos)
  {
    m := map[];
    var i := 0;
    while i < |videos|
      invariant 0 <= i <= |videos| && m == VideoMap(videos[..i])
    {
      assert videos[..i + 1][..i] == videos[..i];
      m := m[videos[i].timestamp := videos[i]];
      i := i + 1;
    }
    assert videos[..i] == videos;
  }

  /** A scene with a cached video takes its URL, status, job id and error. */
  function WithVideo(item: Item, v: CachedVideo): Item
  {
    item.(videoUrl := Some(v.videoUrl), status := StatusName(v.status), jobId := v.jobId, error := v.error)
  }

  /** The scenes with the cached video of their timestamp, if any. */
  function WithCachedVideos(items: seq<Item>, videos: map<real, CachedVideo>): (r: seq<Item>)
    ensures SameScenes(items, r)
  {
    seq(|items|, i requires 0 <= i < |items| =>
      if items[i].timestamp in videos then WithVideo(items[i], videos[items[i].timestamp]) else items[i])
  }

  /** A scene takes the last cached video of its timestamp; a scene without
      one is unchanged. */
  lemma CachedVideoShown(items: seq<Item>, videos: seq<CachedVideo>, k: nat)
    requires k < |items|
    ensures var e := LastWith(videos, VideoKey, items[k].timestamp);
      WithCachedVideos(items, VideoMap(videos))[k] == (if e.Some? then WithVideo(items[k], e.value) else items[k])
  {
    VideoMapLastWins(videos, items[k].timestamp);
  }

  // ---------------------------------------------------------------------------
  // Reading the video stream
  // ---------------------------------------------------------------------------

  /** A result event as the page reads it; a stream error has no timestamp. */
  datatype VideoResult = VideoResult(timestamp: Option<real>, status: Option<string>, videoUrl: Option<string>,
                                     jobId: Option<string>, error: Option<string>)

  /** The page's stream state: the scenes, `completedCount` and the progress
      shown. */
  datatype Progress = Progress(items: seq<Item>, completed: nat, progress: int)

  function ResultOf(line: string, parse: string -> Option<VideoResult>): Option<VideoResult>
  {
    if StartsWith(line, "data: ") && line[6..] != "[DONE]" then parse(line[6..]) else None
  }

  predicate Hit(item: Item, r: VideoResult)
  {
    r.timestamp == Some(item.timestamp)
  }

  /** The number of scenes a result reaches. */
  function Matches(items: seq<Item>, r: VideoResult): (m: nat)
    ensures m <= |items|
  {
    if items == [] then 0 else Matches(items[..|items| - 1], r) + (if Hit(items[|items| - 1], r) then 1 else 0)
  }

  /** A scene that receives a result takes each of its fields that is
      truthy, and keeps its own otherwise. */
  function Receive(item: Item, r: VideoResult): Item
  {
    item.(videoUrl := OrElse(r.videoUrl, item.videoUrl),
          status := if Truthy(r.status) then r.status.value else item.status,
          jobId := OrElse(r.jobId, item.jobId),
          error := OrElse(r.error, item.error))
  }

  function ApplyResult(items: seq<Item>, r: VideoResult): (res: seq<Item>)
    ensures SameScenes(items, res)
  {
    seq(|items|, i requires 0 <= i < |items| => if Hit(items[i], r) then Receive(items[i], r) else items[i])
  }

  /** One line of a chunk: only a "completed" result counts, once per scene
      it reaches. */
  function LineStep(s: Progress, line: string, parse: string -> Option<VideoResult>): Progress
  {
    if StoryboardPage.IsDone(line) then s.(progress := 100)
    else
      match ResultOf(line, parse)
      case None => s
      case Some(r) =>
        var m := if r.status == Some(CompletedStatus) then Matches(s.items, r) else 0;
        Progress(ApplyResult(s.items, r), s.completed + m, if m > 0 then StoryboardPage.Percent(s.completed + m, |s.items|) else s.progress)
  }

  function ReadLines(s: Progress, lines: seq<string>, parse: string -> Option<VideoResult>): Progress
  {
    if lines == [] then s else LineStep(ReadLines(s, lines[..|lines| - 1], parse), lines[|lines| - 1], parse)
  }

  function ReadChunks(s: Progress, chunks: seq<string>, parse: string -> Option<VideoResult>): Progress
  {
    if chunks == [] then s else ReadLines(ReadChunks(s, chunks[..|chunks| - 1], parse), Split(chunks[|chunks| - 1], '\n'), parse)
  }

  /** The scenes when generation starts: all pending, no error. */
  function Started(items: seq<Item>): (r: seq<Item>)
    ensures SameScenes(items, r)
  {
    seq(|items|, i requires 0 <= i < |items| => items[i].(status := Pending, error := None))
  }

  /** Every scene has an image to animate. */
  predicate AllHaveImages(items: seq<Item>)
  {
    forall k :: 0 <= k < |items| ==> Truthy(items[k].imageUrl)
  }

  /** The prompts sent to the video route. */
  function PromptsOf(items: seq<Item>): (ps: seq<VideoStream.VideoPrompt>)
    requires AllHaveImages(items)
    ensures |ps| == |items|
  {
    seq(|items|, i requires 0 <= i < |items| =>
      VideoStream.VideoPrompt(items[i].timestamp, items[i].prompt, items[i].imageUrl.value, items[i].duration))
  }

  // ---------------------------------------------------------------------------
  // Stitching
  // ---------------------------------------------------------------------------

  predicate IsCompletedVideo(item: Item)
  {
    item.status == CompletedStatus && Truthy(item.videoUrl)
  }

  /** The scenes with a completed video, in order. */
  function CompletedVideos(items: seq<Item>): (r: seq<Item>)
    ensures |r| <= |items|
    ensures forall x :: x in r <==> x in items && IsCompletedVideo(x)
  {
    if items == [] then []
    else
      var init, last := items[..|items| - 1], items[|items| - 1];
      assert items == init + [last];
      CompletedVideos(init) + (if IsCompletedVideo(last) then [last] else [])
  }

  predicate SortedByTime(s: seq<Item>)
  {
    forall i, j :: 0 <= i < j < |s| ==> s[i].timestamp <= s[j].timestamp
  }

  /** `x` placed after every element whose timestamp is not later. */
  function InsertByTime(x: Item, s: seq<Item>): (r: seq<Item>)
    ensures multiset(r) == multiset(s) + multiset{x}
  {
    if s == [] || s[|s| - 1].timestamp <= x.timestamp then s + [x]
    else
      assert s == s[..|s| - 1] + [s[|s| - 1]];
      InsertByTime(x, s[..|s| - 1]) + [s[|s| - 1]]
  }

  lemma {:induction false} InsertKeepsSorted(x: Item, s: seq<Item>)
    requires SortedByTime(s)
    ensures SortedByTime(InsertByTime(x, s))
    decreases |s|
  {
    if !(s == [] || s[|s| - 1].timestamp <= x.timestamp) {
      var init, last := s[..|s| - 1], s[|s| - 1];
      assert s == init + [last];
      InsertKeepsSorted(x, init);
      var r := InsertByTime(x, init);
      forall k | 0 <= k < |r| ensures r[k].timestamp <= last.timestamp {
        assert r[k] in multiset(r);
        if r[k] != x {
          assert r[k] in init;
        }
      }
    }
  }

  /** `sort((a, b) => a.timestamp - b.timestamp)`: the same scenes, ordered
      by timestamp. */
  function SortByTime(s: seq<Item>): (r: seq<Item>)
    ensures multiset(r) == multiset(s) && SortedByTime(r)
  {
    if s == [] then []
    else
      assert s == s[..|s| - 1] + [s[|s| - 1]];
      InsertKeepsSorted(s[|s| - 1], SortByTime(s[..|s| - 1]));
      InsertByTime(s[|s| - 1], SortByTime(s[..|s| - 1]))
  }

  lemma SortedAreCompleted(items: seq<Item>)
    ensures forall k :: 0 <= k < |SortByTime(CompletedVideos(items))| ==>
      IsCompletedVideo(SortByTime(CompletedVideos(items))[k]) && SortByTime(CompletedVideos(items))[k] in items
  {
    var c := CompletedVideos(items);
    var sorted := SortByTime(c);
    forall k | 0 <= k < |sorted| ensures IsCompletedVideo(sorted[k]) && sorted[k] in items {
      assert sorted[k] in multiset(sorted);
      assert sorted[k] in c;
    }
  }

  /** The URLs handed to the stitcher: those of the completed videos, ordered
      by the timestamps of their scenes. */
  function StitchUrls(items: seq<Item>): (urls: seq<string>)
  {
    var sorted := SortByTime(CompletedVideos(items));
    SortedAreCompleted(items);
    seq(|sorted|, i requires 0 <= i < |sorted| => sorted[i].videoUrl.value)
  }

  /** The stitcher gets one non-empty URL per completed video, ordered by
      timestamp: each is the URL of a completed scene, and every completed
      scene's URL is there. */
  lemma StitcherInput(items: seq<Item>)
    ensures var sorted := SortByTime(CompletedVideos(items));
      |StitchUrls(items)| == |sorted| && SortedByTime(sorted)
      && multiset(sorted) == multiset(CompletedVideos(items))
      && forall k :: 0 <= k < |sorted| ==> IsCompletedVideo(sorted[k]) && sorted[k] in items && StitchUrls(items)[k] == sorted[k].videoUrl.value
  {
    SortedAreCompleted(items);
  }

  /** What `handleStitchVideos` does with the scenes: nothing to stitch, a
      question before stitching only the completed ones, or the stitcher. */
  datatype StitchDecision = NothingToStitch | AskPartial(completed: nat, total: nat) | OpenStitcher

  function Decide(items: seq<Item>): StitchDecision
  {
    var c := |CompletedVideos(items)|;
    if c == 0 then NothingToStitch else if c < |items| then AskPartial(c, |items|) else OpenStitcher
  }

  /** Whether the stitcher opens, given the answer to the question. */
  function Opens(d: StitchDecision, proceed: bool): bool
  {
    d.OpenStitcher? || (d.AskPartial? && proceed)
  }

  /** The stitcher opens without a question exactly when every scene has a
      completed video, and never when none has. */
  lemma DecideAllCompleted(items: seq<Item>)
    requires |items| > 0
    ensures Decide(items).OpenStitcher? <==> forall k :: 0 <= k < |items| ==> IsCompletedVideo(items[k])
    ensures Decide(items).NothingToStitch? <==> forall k :: 0 <= k < |items| ==> !IsCompletedVideo(items[k])
  {
    var c := CompletedVideos(items);
    if forall k :: 0 <= k < |items| ==> IsCompletedVideo(items[k]) {
      AllKept(items);
    } else {
      var k :| 0 <= k < |items| && !IsCompletedVideo(items[k]);
      assert items[k] !in c;
      NotAllKept(items, k);
    }
    if exists k :: 0 <= k < |items| && IsCompletedVideo(items[k]) {
      var k :| 0 <= k < |items| && IsCompletedVideo(items[k]);
      assert items[k] in c;
    }
    if |c| > 0 {
      assert c[0] in c;
    }
  }

  lemma {:induction false} AllKept(items: seq<Item>)
    requires forall k :: 0 <= k < |items| ==> IsCompletedVideo(items[k])
    ensures CompletedVideos(items) == items
    decreases |items|
  {
    if items != [] {
      AllKept(items[..|items| - 1]);
      assert items == items[..|items| - 1] + [items[|items| - 1]];
    }
  }

  lemma {:induction false} NotAllKept(items: seq<Item>, k: nat)
    requires k < |items| && !IsCompletedVideo(items[k])
    ensures |CompletedVideos(items)| < |items|
    decreases |items|
  {
    if k < |items| - 1 {
      NotAllKept(items[..|items| - 1], k);
    }
  }

  /** The auto-stitch step as written: once the stream ends with
      `completedCount` equal to the number of scenes, `handleStitchVideos`
      decides on `items` as they were when the button was clicked, because
      both handlers read the state of the render they were created in. */
  function AutoStitchAsWritten(clicked: seq<Item>, completedCount: nat, proceed: bool): bool
  {
    completedCount == |clicked| && Opens(Decide(clicked), proceed)
  }

  /** The auto-stitch step as intended: the decision is taken on the scenes
      as the stream left them. */
  function AutoStitch(now: seq<Item>, completedCount: nat, proceed: bool): bool
  {
    completedCount == |now| && Opens(Decide(now), proceed)
  }

  /** As written, a first generation, where no scene had a completed video
      when the button was clicked, never opens the stitcher, whatever the
      stream brings. */
  lemma StaleStitchNeverOpens(clicked: seq<Item>, completedCount: nat, proceed: bool)
    requires forall k :: 0 <= k < |clicked| ==> !IsCompletedVideo(clicked[k])
    ensures !AutoStitchAsWritten(clicked, completedCount, proceed)
  {
    if |clicked| > 0 {
      DecideAllCompleted(clicked);
    }
  }

  /** The result of the example below: scene 1.0 completed with video "v". */
  const ExampleResult := VideoResult(Some(1.0), Some(CompletedStatus), Some("v"), None, None)

  /** A parser that reads every payload as that result. */
  function ExampleParse(payload: string): (r: Option<VideoResult>)
    ensures r == Some(ExampleResult)
  {
    Some(ExampleResult)
  }

  lemma ExampleLineIsResult()
    ensures ResultOf("data: x", ExampleParse) == Some(ExampleResult)
  {
    var line := "data: x";
    assert line[..6] == "data: ";
    assert line[6..] == "x";
  }

  lemma ExampleLineNotDone()
    ensures !StoryboardPage.IsDone("data: x")
  {
    var line := "data: x";
    assert line[6..] == "x";
  }

  lemma ExampleStep(item: Item)
    requires item.timestamp == 1.0
    ensures var s := LineStep(Progress([item], 0, 0), "data: x", ExampleParse);
      s.completed == 1 && s.items == [Receive(item, ExampleResult)]
  {
    ExampleLineIsResult();
    ExampleLineNotDone();
    assert [item][..0] == [];
    assert Matches([item], ExampleResult) == 1;
  }

  /** One pending scene whose video the stream reports completed: the
      intended step opens the stitcher, the step as written does not. */
  lemma StaleStitchExample()
    ensures var clicked := [Item(1.0, "p", 3.0, Some("i"), None, Pending, None, None)];
      var after := ReadLines(Progress(Started(clicked), 0, 0), ["data: x"], ExampleParse);
      after.completed == 1 && AutoStitch(after.items, after.completed, false)
      && !AutoStitchAsWritten(clicked, after.completed, false)
  {
    var clicked := [Item(1.0, "p", 3.0, Some("i"), None, Pending, None, None)];
    var start := Progress(Started(clicked), 0, 0);
    assert Started(clicked) == [clicked[0]];
    ExampleStep(clicked[0]);
    var lines := ["data: x"];
    assert lines[..0] == [] && lines[|lines| - 1] == "data: x";
    assert ReadLines(start, lines[..0], ExampleParse) == start;
    var after := ReadLines(start, lines, ExampleParse);
    assert after == LineStep(start, "data: x", ExampleParse);
    assert IsCompletedVideo(after.items[0]);
    DecideAllCompleted(after.items);
    StaleStitchNeverOpens(clicked, after.completed, false);
  }

  /** As intended, the stitcher opens without a question once every scene's
      video is completed and each was counted once. */
  lemma AutoStitchOpens(now: seq<Item>, completedCount: nat, proceed: bool)
    requires |now| > 0 && completedCount == |now|
    requires forall k :: 0 <= k < |now| ==> IsCompletedVideo(now[k])
    ensures AutoStitch(now, completedCount, proceed)
    ensures Decide(now).OpenStitcher?
  {
    DecideAllCompleted(now);
  }

  /** The label of a status; any other status reads "Pending". */
  function StatusText(status: string): string
  {
    if status == CompletedStatus then "Completed"
    else if status == "failed" then "Failed"
    else if status == "processing" then "Processing..."
    else if status == "queued" then "Queued"
    else "Pending"
  }

  /** A cached video's status is shown by its own label, never as
      "Pending", and the labels of the four statuses differ. */
  lemma StatusTextOfCached(s: VideoStatus, t: VideoStatus)
    ensures StatusText(StatusName(s)) != "Pending"
    ensures StatusText(StatusName(s)) == StatusText(StatusName(t)) ==> s == t
    ensures StatusText(Pending) == "Pending"
  {
  }

  /** The scenes after the video cache is cleared: no video, all pending. */
  function ClearedVideos(items: seq<Item>): (r: seq<Item>)
    ensures SameScenes(items, r)
    ensures forall k :: 0 <= k < |r| ==> r[k].videoUrl.None? && r[k].status == Pending && r[k].imageUrl == items[k].imageUrl
  {
    seq(|items|, i requires 0 <= i < |items| => items[i].(videoUrl := None, status := Pending))
  }

  // ---------------------------------------------------------------------------
  // The page
  // ---------------------------------------------------------------------------

  class Page {
    var items: seq<Item>
    var audioUrl: string
    var generationProgress: int
    var isGenerating: bool
    var videosFromCache: bool
    var stitchedVideo: Option<StitchedView>
    var showStitcher: bool

    constructor ()
      ensures items == [] && audioUrl == "" && generationProgress == 0 && !isGenerating && !videosFromCache
      ensures stitchedVideo.None? && !showStitcher
    {
      items := [];
      audioUrl := "";
      generationProgress := 0;
      isGenerating := false;
      videosFromCache := false;
      stitchedVideo := None;
      showStitcher := false;
    }

    /** `loadFromData`: the pending scenes with their durations, then the
        cached images, the cached videos and the stitched video, each read
        (`None` when it fails) on its own. */
    method LoadFromData(timeline: seq<StoryboardItem>, audioFile: string, images: Option<seq<CachedImage>>,
                        videos: Option<seq<CachedVideo>>, stitched: Option<StitchedVideo>)
      modifies this
      ensures var withImages := if images.Some? && |images.value| > 0 then WithCachedImages(WithDurations(timeline), ImagesStream.UrlMap(images.value)) else WithDurations(timeline);
        items == (if videos.Some? && |videos.value| > 0 then WithCachedVideos(withImages, VideoMap(videos.value)) else withImages)
      ensures audioUrl == audioFile
      ensures videosFromCache == (old(videosFromCache) || (videos.Some? && |videos.value| > 0))
      ensures stitchedVideo == (if stitched.Some? then Some(StitchedView(stitched.value.videoUrl, stitched.value.status)) else old(stitchedVideo))
      ensures generationProgress == old(generationProgress) && isGenerating == old(isGenerating) && showStitcher == old(showStitcher)
    {
      items := WithDurations(timeline);
      audioUrl := audioFile;
      if images.Some? && |images.value| > 0 {
        var imageMap := ImagesStream.BuildUrlMap(images.value);
        items := WithCachedImages(items, imageMap);
      }
      if videos.Some? && |videos.value| > 0 {
        var videoMap := BuildVideoMap(videos.value);
        items := WithCachedVideos(items, videoMap);
        videosFromCache := true;
      }
      if stitched.Some? {
        stitchedVideo := Some(StitchedView(stitched.value.videoUrl, stitched.value.status));
      }
    }

    /** One line of a chunk, as `LineStep` reads it. */
    method ReadLine(line: string, parse: string -> Option<VideoResult>, completed: nat) returns (completedCount: nat)
      modifies this
      ensures Progress(items, completedCount, generationProgress)
        == LineStep(Progress(old(items), completed, old(generationProgress)), line, parse)
      ensures audioUrl == old(audioUrl) && isGenerating == old(isGenerating) && videosFromCache == old(videosFromCache)
      ensures stitchedVideo == old(stitchedVideo) && showStitcher == old(showStitcher)
    {
      completedCount := completed;
      if StartsWith(line, "data: ") {
        var data := line[6..];
        if data == "[DONE]" {
          generationProgress := 100;
        } else {
          var result := parse(data);
          if result.Some? {
            var r := result.value;
            var m := if r.status == Some(CompletedStatus) then Matches(items, r) else 0;
            items := ApplyResult(items, r);
            completedCount := completedCount + m;
            if m > 0 {
              generationProgress := StoryboardPage.Percent(completedCount, |items|);
            }
          }
        }
      }
    }

    method ReadChunk(chunk: string, parse: string -> Option<VideoResult>, completed: nat) returns (completedCount: nat)
      modifies this
      ensures Progress(items, completedCount, generationProgress)
        == ReadLines(Progress(old(items), completed, old(generationProgress)), Split(chunk, '\n'), parse)
      ensures audioUrl == old(audioUrl) && isGenerating == old(isGenerating) && videosFromCache == old(videosFromCache)
      ensures stitchedVideo == old(stitchedVideo) && showStitcher == old(showStitcher)
    {
      var lines := Split(chunk, '\n');
      ghost var start := Progress(items, completed, generationProgress);
      completedCount := completed;
      var j := 0;
      while j < |lines|
        invariant 0 <= j <= |lines|
        invariant Progress(items, completedCount, generationProgress) == ReadLines(start, lines[..j], parse)
        invariant audioUrl == old(audioUrl) && isGenerating == old(isGenerating) && videosFromCache == old(videosFromCache)
        invariant stitchedVideo == old(stitchedVideo) && showStitcher == old(showStitcher)
      {
        assert lines[..j + 1][..j] == lines[..j];
        completedCount := ReadLine(lines[j], parse, completedCount);
        j := j + 1;
      }
      assert lines[..j] == lines;
    }

    /** `handleStitchVideos` on the current scenes, with the answer to the
        question asked when only some videos are completed. */
    method StitchVideos(proceed: bool)
      modifies this
      ensures showStitcher == (old(showStitcher) || Opens(Decide(items), proceed))
      ensures items == old(items) && audioUrl == old(audioUrl) && generationProgress == old(generationProgress)
      ensures isGenerating == old(isGenerating) && videosFromCache == old(videosFromCache) && stitchedVideo == old(stitchedVideo)
    {
      var completedVideos := CompletedVideos(items);
      if |completedVideos| == 0 {
        return;
      }
      if |completedVideos| < |items| && !proceed {
        return;
      }
      showStitcher := true;
    }

    /** `handleGenerateVideos`: refused unless every scene has an image;
        otherwise every scene is reset to pending, the request is sent and
        the stream's lines are read in order. When every scene's video
        completed, the stitch decision is taken on the scenes as they now
        are. */
    method GenerateVideos(reply: StoryboardPage.StreamReply, parse: string -> Option<VideoResult>, proceed: bool)
      returns (sent: Option<VideoStream.Request>, completedCount: nat)
      modifies this
      ensures !AllHaveImages(old(items)) ==>
        (sent.None? && items == old(items) && generationProgress == old(generationProgress)
         && showStitcher == old(showStitcher) && isGenerating == old(isGenerating))
      ensures AllHaveImages(old(items)) ==> sent == Some(VideoStream.VideoRequest(Some(PromptsOf(old(items))), audioUrl))
      ensures AllHaveImages(old(items)) && reply.RequestFailed? ==>
        items == Started(old(items)) && generationProgress == 0 && showStitcher == old(showStitcher)
      ensures AllHaveImages(old(items)) && reply.Chunks? ==>
        Progress(items, completedCount, generationProgress)
          == ReadChunks(Progress(Started(old(items)), 0, 0), reply.chunks, parse)
        && showStitcher == (old(showStitcher) || AutoStitch(items, completedCount, proceed))
      ensures AllHaveImages(old(items)) ==> !isGenerating
      ensures audioUrl == old(audioUrl) && videosFromCache == old(videosFromCache) && stitchedVideo == old(stitchedVideo)
    {
      if !AllHaveImages(items) {
        return None, 0;
      }
      var prompts := PromptsOf(items);
      isGenerating := true;
      generationProgress := 0;
      items := Started(items);
      sent := Some(VideoStream.VideoRequest(Some(prompts), audioUrl));
      completedCount := 0;
      if reply.RequestFailed? {
        generationProgress := 0;
        isGenerating := false;
        return;
      }
      var chunks := reply.chunks;
      ghost var start := Progress(items, 0, 0);
      var i := 0;
      while i < |chunks|
        invariant 0 <= i <= |chunks|
        invariant Progress(items, completedCount, generationProgress) == ReadChunks(start, chunks[..i], parse)
        invariant audioUrl == old(audioUrl) && videosFromCache == old(videosFromCache) && stitchedVideo == old(stitchedVideo)
        invariant showStitcher == old(showStitcher)
      {
        assert chunks[..i + 1][..i] == chunks[..i];
        completedCount := ReadChunk(chunks[i], parse, completedCount);
        i := i + 1;
      }
      assert chunks[..i] == chunks;
      if completedCount == |items| {
        StitchVideos(proceed);
      }
      isGenerating := false;
    }

    /** `handleClearVideoCache`: when the clearing request does not throw,
        no scene shows a video, all are pending, and no stitched video is
        shown. */
    method ClearVideoCache(fetched: bool)
      modifies this
      ensures fetched ==> items == ClearedVideos(old(items)) && !videosFromCache && stitchedVideo.None?
      ensures !fetched ==> items == old(items) && videosFromCache == old(videosFromCache) && stitchedVideo == old(stitchedVideo)
      ensures audioUrl == old(audioUrl) && generationProgress == old(generationProgress)
      ensures isGenerating == old(isGenerating) && showStitcher == old(showStitcher)
    {
      if fetched {
        items := ClearedVideos(items);
        videosFromCache := false;
        stitchedVideo := None;
      }
    }
  }

  // ---------------------------------------------------------------------------
  // Properties of the stream reading
  // ---------------------------------------------------------------------------

  /** Reading lines keeps the scenes. */
  lemma {:induction false} ReadKeepsScenes(s: Progress, lines: seq<string>, parse: string -> Option<VideoResult>)
    ensures SameScenes(s.items, ReadLines(s, lines, parse).items)
    ensures s.completed <= ReadLines(s, lines, parse).completed
    decreases |lines|
  {
    if lines != [] {
      ReadKeepsScenes(s, lines[..|lines| - 1], parse);
    }
  }

  lemma {:induction false} MatchesKeep(a: seq<Item>, b: seq<Item>, r: VideoResult)
    requires SameScenes(a, b)
    ensures Matches(a, r) == Matches(b, r)
    decreases |a|
  {
    if a != [] {
      MatchesKeep(a[..|a| - 1], b[..|b| - 1], r);
    }
  }

  /** The completed results, counted on the scenes the stream starts from:
      each once per scene it reaches. */
  function CompletedHits(items: seq<Item>, lines: seq<string>, parse: string -> Option<VideoResult>): nat
  {
    if lines == [] then 0
    else
      var r := ResultOf(lines[|lines| - 1], parse);
      CompletedHits(items, lines[..|lines| - 1], parse)
        + (if r.Some? && r.value.status == Some(CompletedStatus) then Matches(items, r.value) else 0)
  }

  /** `completedCount` counts only "completed" results: queued, processing
      and failed results and stream errors leave it as it is. */
  lemma {:induction false} CompletedCountsCompletions(s: Progress, lines: seq<string>, parse: string -> Option<VideoResult>)
    ensures ReadLines(s, lines, parse).completed == s.completed + CompletedHits(s.items, lines, parse)
    decreases |lines|
  {
    if lines != [] {
      var init := lines[..|lines| - 1];
      CompletedCountsCompletions(s, init, parse);
      ReadKeepsScenes(s, init, parse);
      var r := ResultOf(lines[|lines| - 1], parse);
      if r.Some? {
        MatchesKeep(s.items, ReadLines(s, init, parse).items, r.value);
      }
    }
  }

  /** The video URL a scene shows after a stream: the last non-empty one a
      result for its timestamp carried, or its own. */
  function LastVideoUrl(lines: seq<string>, t: real, parse: string -> Option<VideoResult>, own: Option<string>): Option<string>
  {
    if lines == [] then own
    else
      var r := ResultOf(lines[|lines| - 1], parse);
      if r.Some? && r.value.timestamp == Some(t) && Truthy(r.value.videoUrl) then r.value.videoUrl
      else LastVideoUrl(lines[..|lines| - 1], t, parse, own)
  }

  predicate VideoUrlsSettled(before: seq<Item>, after: seq<Item>, lines: seq<string>, parse: string -> Option<VideoResult>)
  {
    |after| == |before|
    && forall k :: 0 <= k < |before| ==>
      after[k].videoUrl == LastVideoUrl(lines, before[k].timestamp, parse, before[k].videoUrl)
  }

  /** A scene's video URL after the stream is the last non-empty URL a
      result for its timestamp carried, or the one it had: a result without
      a URL never erases one. */
  lemma {:induction false} LastVideoUrlWins(s: Progress, lines: seq<string>, parse: string -> Option<VideoResult>)
    ensures VideoUrlsSettled(s.items, ReadLines(s, lines, parse).items, lines, parse)
    decreases |lines|
  {
    if lines != [] {
      var init := lines[..|lines| - 1];
      LastVideoUrlWins(s, init, parse);
      ReadKeepsScenes(s, init, parse);
      var mid := ReadLines(s, init, parse).items;
      var fin := ReadLines(s, lines, parse).items;
      forall k | 0 <= k < |s.items|
        ensures fin[k].videoUrl == LastVideoUrl(lines, s.items[k].timestamp, parse, s.items[k].videoUrl)
      {
        assert mid[k].timestamp == s.items[k].timestamp;
      }
    }
  }
}
