// The streaming image route: the image cache is read once into a map by
// timestamp; then for each prompt, in order, a cached URL is sent as it is,
// and any other scene is submitted and polled. One `text/event-stream` event
// (HTML Living Standard, section 9.2) reports each scene. At the end the
// image list in the cache is replaced by this run's cached and new images.

module ImagesStream {
  import opened Common
  import opened SceneCache
  import opened ImagePolling
  import opened ImageJobs

  const SystemStylePrompt := "Cinematic Berlin nightlife scene, hip-hop culture aesthetic, urban street photography style. Shot on professional cinema camera with shallow depth of field. Neon lights casting vibrant colors, graffiti art on walls, moody atmospheric lighting with high contrast. Dark shadows and bright highlights, cinematic color grading with teal and orange tones. Gritty urban environment, authentic street culture, 4k ultra quality, photorealistic, professional composition."

  const NegativePrompt := "blurry, low quality, distorted, ugly, deformed, cartoon, anime, illustration, painting, 3d render, oversaturated, overexposed, bad anatomy, bad proportions, text, watermark, signature"

  /** The wait after a polled scene that is not the last one. */
  const SceneGapMs := 1000

  /** The prompt a job is submitted with, by the scene prompt it is built
      from; `Text` spells it out. */
  datatype JobPrompt = StyledPrompt(scene: string)

  /** The prompt text: the house style, a blank line, then the scene. */
  function Text(j: JobPrompt): string
  {
    SystemStylePrompt + "\n\nScene: " + j.scene
  }

  /** The `input` of a submitted job. */
  datatype JobInput = JobInput(prompt: string, negativePrompt: string, size: string, seed: int, enableSafetyChecker: bool)

  function InputOf(j: JobPrompt): JobInput
  {
    JobInput(Text(j), NegativePrompt, "2048*2048", -1, true)
  }

  /** The scene prompt can be read back from the submitted text, which starts
      with the house style: distinct scene prompts are submitted as distinct
      texts. */
  lemma TextRoundTrip(j: JobPrompt)
    ensures Text(j)[..|SystemStylePrompt|] == SystemStylePrompt
    ensures Text(j)[|SystemStylePrompt| + 9..] == j.scene
    ensures InputOf(j).prompt == Text(j) && InputOf(j).negativePrompt == NegativePrompt
  {
    var r := Text(j);
    assert r[..|SystemStylePrompt|] == SystemStylePrompt;
    assert r[|SystemStylePrompt| + 9..] == j.scene;
  }

  /** The `data:` events of the stream. */
  datatype Event =
    | Result(index: nat, timestamp: real, prompt: string, imageUrl: Option<string>, error: Option<string>)
    | Done

  datatype Response = Rejected(status: int, error: string) | Streamed(events: seq<Event>)

  /** What one scene sends, adds to the final cache write, submits and
      waits for, and whether its poll hung because the provider stopped
      answering. */
  datatype Trace = Trace(events: seq<Event>, generated: seq<CachedImage>, submitted: seq<JobPrompt>,
                         paused: seq<nat>, hung: bool)

  /** The same for the loop so far, with the number of scenes it reached. */
  datatype Run = Run(events: seq<Event>, generated: seq<CachedImage>, submitted: seq<JobPrompt>,
                     paused: seq<nat>, reached: nat, hung: bool)

  // ---------------------------------------------------------------------------
  // The cache map
  // ---------------------------------------------------------------------------

  /** The map the route builds from the cached list with `set`, in list
      order. */
  function UrlMap(images: seq<CachedImage>): map<real, string>
  {
    if images == [] then map[]
    else
      var last := images[|images| - 1];
      UrlMap(images[..|images| - 1])[last.timestamp := last.imageUrl]
  }

  /** `Map.get`. */
  function Get(m: map<real, string>, t: real): Option<string>
  {
    if t in m then Some(m[t]) else None
  }

  /** The URL of an entry, if any. */
  function UrlOfEntry(e: Option<CachedImage>): Option<string>
  {
    if e.Some? then Some(e.value.imageUrl) else None
  }

  /** The map holds a URL for exactly the cached timestamps, and when the
      cache holds several entries for one timestamp the last one wins. */
  lemma {:induction false} UrlMapLastWins(images: seq<CachedImage>, t: real)
    ensures Get(UrlMap(images), t) == UrlOfEntry(LastWith(images, ImageKey, t))
    decreases |images|
  {
    if images != [] {
      UrlMapLastWins(images[..|images| - 1], t);
    }
  }

  /** The loop that fills `cachedImageMap`. */
  method BuildUrlMap(images: seq<CachedImage>) returns (m: map<real, string>)
    ensures m == UrlMap(images)
  {
    m := map[];
    var i := 0;
    while i < |images|
      invariant 0 <= i <= |images| && m == UrlMap(images[..i])
    {
      assert images[..i + 1][..i] == images[..i];
      m := m[images[i].timestamp := images[i].imageUrl];
      i := i + 1;
    }
    assert images[..i] == images;
  }

  // ---------------------------------------------------------------------------
  // One scene
  // ---------------------------------------------------------------------------

  /** Scene `i` of `n`, given the map's URL for its timestamp. A truthy
      cached URL is sent with no error and kept, with no submission. Any
      other scene submits its full prompt; unless its poll hangs it sends its
      URL or error, keeps a URL it got, and after a poll waits 1 s unless it
      is the last scene. */
  function SceneTrace(i: nat, n: nat, scene: ImagePrompt, cached: Option<string>, job: SceneJob, now: int): Trace
  {
    var t, p := scene.timestamp, scene.prompt;
    if Truthy(cached) then
      Trace([Result(i, t, p, cached, None)], [CachedImage(cached.value, p, t, now)], [], [], false)
    else
      var o := OutcomeOf(job, Streaming);
      var sent := [StyledPrompt(p)];
      if o.Hung? then Trace([], [], sent, [], true)
      else
        var url := ReportedUrl(o);
        Trace([Result(i, t, p, url, ReportedError(o))],
              if Truthy(url) then [CachedImage(url.value, p, t, now)] else [],
              sent,
              if o.Polled? && i + 1 < n then [i] else [],
              false)
  }

  /** One iteration of the loop of `POST`. */
  method ProcessScene(i: nat, n: nat, scene: ImagePrompt, cached: Option<string>, job: SceneJob, now: int)
    returns (t: Trace)
    ensures t == SceneTrace(i, n, scene, cached, job, now)
  {
    var ts, p := scene.timestamp, scene.prompt;
    if Truthy(cached) {
      return Trace([Result(i, ts, p, cached, None)], [CachedImage(cached.value, p, ts, now)], [], [], false);
    }
    var fullPrompt := StyledPrompt(p);
    var o := RunJob(job, Streaming);
    if o.Hung? {
      return Trace([], [], [fullPrompt], [], true);
    }
    var imageUrl := ReportedUrl(o);
    var generated := [];
    if Truthy(imageUrl) {
      generated := [CachedImage(imageUrl.value, p, ts, now)];
    }
    var paused := [];
    if o.Polled? && i + 1 < n {
      paused := [i];
    }
    t := Trace([Result(i, ts, p, imageUrl, ReportedError(o))], generated, [fullPrompt], paused, false);
  }

  // ---------------------------------------------------------------------------
  // The route
  // ---------------------------------------------------------------------------

  /** The traces of all scenes, each as if it were reached. */
  function SceneTraces(prompts: seq<ImagePrompt>, urls: map<real, string>, jobs: seq<SceneJob>, now: int): (r: seq<Trace>)
    requires |prompts| == |jobs|
    ensures |r| == |prompts|
  {
    seq(|prompts|, k requires 0 <= k < |prompts| == |jobs| =>
      SceneTrace(k, |prompts|, prompts[k], Get(urls, prompts[k].timestamp), jobs[k], now))
  }

  /** The loop over the first `n` scene traces, stopping at the first that
      hangs. */
  function Compose(scenes: seq<Trace>, n: nat): (r: Run)
    requires n <= |scenes|
    ensures r.reached <= n && (!r.hung ==> r.reached == n) && (r.hung ==> 0 < r.reached)
  {
    if n == 0 then Run([], [], [], [], 0, false)
    else
      var before := Compose(scenes, n - 1);
      if before.hung then before
      else
        var s := scenes[n - 1];
        Run(before.events + s.events, before.generated + s.generated, before.submitted + s.submitted,
            before.paused + s.paused, before.reached + 1, s.hung)
  }

  /** The loop of `POST` over the prompts, given the cache read before it. */
  function RunOf(prompts: seq<ImagePrompt>, stored: Option<seq<CachedImage>>, jobs: seq<SceneJob>, now: int): Run
    requires |prompts| == |jobs|
  {
    Compose(SceneTraces(prompts, UrlMap(ExistingOrEmpty(stored)), jobs, now), |prompts|)
  }

  /** The run of a request; a refused request runs nothing. */
  function StreamRun(req: Request, stored: Option<seq<CachedImage>>, jobs: seq<SceneJob>, now: int): Run
    requires JobsCover(req, jobs)
  {
    if ValidRequest(req) then RunOf(req.prompts.value, stored, jobs, now) else Run([], [], [], [], 0, false)
  }

  /** What `POST` answers: 400 for a body that does not parse or for
      `prompts` that is missing or not an array; otherwise a stream of the
      scene events, closed by `[DONE]` unless a poll hung. An empty array is
      accepted. */
  function ResponseOf(req: Request, stored: Option<seq<CachedImage>>, jobs: seq<SceneJob>, now: int): Response
    requires JobsCover(req, jobs)
  {
    if req.Unreadable? then Rejected(400, "Invalid request body")
    else if req.prompts.None? then Rejected(400, "Invalid prompts array")
    else
      var r := StreamRun(req, stored, jobs, now);
      Streamed(if r.hung then r.events else r.events + [Done])
  }

  /** The image list the cache holds after `POST`: replaced by the kept
      images when there are any and the stream reached its end. */
  function FinalImages(req: Request, stored: Option<seq<CachedImage>>, jobs: seq<SceneJob>, now: int): Option<seq<CachedImage>>
    requires JobsCover(req, jobs)
  {
    var r := StreamRun(req, stored, jobs, now);
    if ValidRequest(req) && !r.hung && |r.generated| > 0 then Some(r.generated) else stored
  }

  /** The loop of `POST`. */
  method RunScenes(prompts: seq<ImagePrompt>, urls: map<real, string>, jobs: seq<SceneJob>, now: int) returns (r: Run)
    requires |prompts| == |jobs|
    ensures r == Compose(SceneTraces(prompts, urls, jobs, now), |prompts|)
  {
    ghost var scenes := SceneTraces(prompts, urls, jobs, now);
    r := Run([], [], [], [], 0, false);
    var index := 0;
    while index < |prompts| && !r.hung
      invariant 0 <= index <= |prompts|
      invariant r == Compose(scenes, index) && r.reached == index
      decreases |prompts| - index
    {
      var item := prompts[index];
      var cachedUrl := Get(urls, item.timestamp);
      var s := ProcessScene(index, |prompts|, item, cachedUrl, jobs[index], now);
      assert scenes[index] == s;
      r := Run(r.events + s.events, r.generated + s.generated, r.submitted + s.submitted,
               r.paused + s.paused, r.reached + 1, s.hung);
      index := index + 1;
    }
    HungStays(scenes, index, |prompts|);
  }

  /** `POST` of the streaming image route, on a healthy store: it returns the
      response, the prompts it submitted and the scenes after which it
      waited 1 s. */
  method GenerateImages(store: Store, req: Request, jobs: seq<SceneJob>, now: int)
    returns (resp: Response, submitted: seq<JobPrompt>, paused: seq<nat>)
    requires JobsCover(req, jobs)
    modifies store
    ensures resp == ResponseOf(req, old(store.images), jobs, now)
    ensures submitted == StreamRun(req, old(store.images), jobs, now).submitted
    ensures paused == StreamRun(req, old(store.images), jobs, now).paused
    ensures store.images == FinalImages(req, old(store.images), jobs, now)
    ensures store.storyboard == old(store.storyboard) && store.originals == old(store.originals)
    ensures store.videos == old(store.videos) && store.stitched == old(store.stitched)
  {
    if req.Unreadable? {
      return Rejected(400, "Invalid request body"), [], [];
    }
    if req.prompts.None? {
      return Rejected(400, "Invalid prompts array"), [], [];
    }
    var prompts := req.prompts.value;
    var cachedImages := store.GetCachedImages(true);
    var cachedImageMap := BuildUrlMap(ExistingOrEmpty(cachedImages));
    var r := RunScenes(prompts, cachedImageMap, jobs, now);
    if r.hung {
      return Streamed(r.events), r.submitted, r.paused;
    }
    if |r.generated| > 0 {
      var _ := store.CacheGeneratedImages(r.generated, true);
    }
    resp, submitted, paused := Streamed(r.events + [Done]), r.submitted, r.paused;
  }

  /** Once a run hangs, later scenes are never reached. */
  lemma {:induction false} HungStays(scenes: seq<Trace>, m: nat, n: nat)
    requires m <= n <= |scenes|
    requires m < n ==> Compose(scenes, m).hung
    ensures Compose(scenes, n) == Compose(scenes, m)
    decreases n - m
  {
    if m < n {
      HungStays(scenes, m, n - 1);
      assert Compose(scenes, n - 1).hung;
    }
  }

  // ---------------------------------------------------------------------------
  // Properties of the route
  // ---------------------------------------------------------------------------

  /** The image kept for each event that carries a URL, in event order. */
  function Successes(events: seq<Event>, now: int): seq<CachedImage>
  {
    if events == [] then []
    else
      var e := events[|events| - 1];
      Successes(events[..|events| - 1], now) + Kept(e, now)
  }

  function Kept(e: Event, now: int): seq<CachedImage>
  {
    if e.Result? && e.imageUrl.Some? then [CachedImage(e.imageUrl.value, e.prompt, e.timestamp, now)] else []
  }

  /** The prompt a scene submits: none when the cache held a truthy URL for
      it. */
  function Wanted(scene: ImagePrompt, cached: Option<string>): seq<JobPrompt>
  {
    if Truthy(cached) then [] else [StyledPrompt(scene.prompt)]
  }

  /** The prompts each scene would submit, in prompt order. */
  function WantedAll(prompts: seq<ImagePrompt>, urls: map<real, string>): (r: seq<seq<JobPrompt>>)
    ensures |r| == |prompts|
  {
    seq(|prompts|, k requires 0 <= k < |prompts| => Wanted(prompts[k], Get(urls, prompts[k].timestamp)))
  }

  /** The first `m` lists, concatenated. */
  function Flatten(xs: seq<seq<JobPrompt>>, m: nat): seq<JobPrompt>
    requires m <= |xs|
  {
    if m == 0 then [] else Flatten(xs, m - 1) + xs[m - 1]
  }

  /** The full prompts of the first `m` scenes that miss the cache, in
      order. */
  function Submissions(prompts: seq<ImagePrompt>, urls: map<real, string>, m: nat): seq<JobPrompt>
    requires m <= |prompts|
  {
    Flatten(WantedAll(prompts, urls), m)
  }

  /** Whether scene `i` of `n` is followed by the 1 s wait: it was polled,
      and it is not the last. */
  predicate Waits(i: nat, n: nat, cached: Option<string>, job: SceneJob)
  {
    !Truthy(cached) && OutcomeOf(job, Streaming).Polled? && i + 1 < n
  }

  /** A scene event that reports exactly one of a non-empty URL and an
      error. */
  predicate Consistent(e: Event)
  {
    e.Result? && (e.error.None? <==> e.imageUrl.Some?) && (e.imageUrl.Some? ==> e.imageUrl.value != "")
  }

  /** Event `e` reports scene `k`: its index, timestamp and prompt, one of a
      URL and an error; the cached URL when the cache held a truthy one, and
      otherwise the URL or error of the scene's job. */
  predicate Reports(e: Event, k: nat, scene: ImagePrompt, cached: Option<string>, job: SceneJob)
  {
    Consistent(e) && e.index == k && e.timestamp == scene.timestamp && e.prompt == scene.prompt
    && (Truthy(cached) ==> e.imageUrl == cached && e.error.None?)
    && (!Truthy(cached) ==> e.imageUrl == ReportedUrl(OutcomeOf(job, Streaming)) && e.error == ReportedError(OutcomeOf(job, Streaming)))
  }

  /** What every scene trace satisfies: a hung scene missed the cache and
      sends, keeps and waits for nothing; any other sends exactly the one
      event reporting it; the scene keeps the image of that event's URL,
      submits its full prompt unless it hit the cache, and waits when
      `Waits` says so. */
  ghost predicate Shaped(s: Trace, i: nat, n: nat, scene: ImagePrompt, cached: Option<string>, job: SceneJob, now: int)
  {
    (s.hung ==> s.events == [] && s.generated == [] && !Truthy(cached))
    && (!s.hung ==> |s.events| == 1 && Reports(s.events[0], i, scene, cached, job))
    && s.generated == Successes(s.events, now)
    && s.submitted == Wanted(scene, cached)
    && s.paused == (if Waits(i, n, cached, job) then [i] else [])
  }

  lemma SuccessesOne(e: Event, now: int)
    ensures Successes([e], now) == Kept(e, now)
  {
    assert [e][..0] == [];
  }

  lemma SceneShaped(i: nat, n: nat, scene: ImagePrompt, cached: Option<string>, job: SceneJob, now: int)
    ensures Shaped(SceneTrace(i, n, scene, cached, job, now), i, n, scene, cached, job, now)
  {
    var s := SceneTrace(i, n, scene, cached, job, now);
    if !Truthy(cached) && !OutcomeOf(job, Streaming).Hung? {
      ReportConsistent(job, Streaming);
    }
    if !s.hung {
      SuccessesOne(s.events[0], now);
    }
  }

  ghost predicate AllShaped(scenes: seq<Trace>, prompts: seq<ImagePrompt>, urls: map<real, string>, jobs: seq<SceneJob>, now: int)
    requires |prompts| == |jobs|
  {
    |scenes| == |prompts| && forall k :: 0 <= k < |scenes| ==>
      Shaped(scenes[k], k, |prompts|, prompts[k], Get(urls, prompts[k].timestamp), jobs[k], now)
  }

  lemma ScenesShaped(prompts: seq<ImagePrompt>, urls: map<real, string>, jobs: seq<SceneJob>, now: int)
    requires |prompts| == |jobs|
    ensures AllShaped(SceneTraces(prompts, urls, jobs, now), prompts, urls, jobs, now)
  {
    var scenes := SceneTraces(prompts, urls, jobs, now);
    forall k | 0 <= k < |scenes|
      ensures Shaped(scenes[k], k, |prompts|, prompts[k], Get(urls, prompts[k].timestamp), jobs[k], now)
    {
      SceneShaped(k, |prompts|, prompts[k], Get(urls, prompts[k].timestamp), jobs[k], now);
    }
  }

  /** The loop sends one event per scene it finished, the event of that
      scene; a hung scene sends none. */
  lemma {:induction false} ComposeEvents(scenes: seq<Trace>, n: nat)
    requires n <= |scenes|
    requires forall k :: 0 <= k < |scenes| ==> |scenes[k].events| == (if scenes[k].hung then 0 else 1)
    ensures var r := Compose(scenes, n);
      |r.events| == (if r.hung then r.reached - 1 else r.reached)
      && forall k :: 0 <= k < |r.events| ==> |scenes[k].events| == 1 && r.events[k] == scenes[k].events[0]
    decreases n
  {
    if n > 0 {
      ComposeEvents(scenes, n - 1);
    }
  }

  lemma {:induction false} SuccessesAppend(a: seq<Event>, b: seq<Event>, now: int)
    ensures Successes(a + b, now) == Successes(a, now) + Successes(b, now)
    decreases |b|
  {
    if b == [] {
      assert a + b == a;
    } else {
      assert (a + b)[..|a + b| - 1] == a + b[..|b| - 1];
      assert (a + b)[|a + b| - 1] == b[|b| - 1];
      SuccessesAppend(a, b[..|b| - 1], now);
    }
  }

  /** The loop keeps the image of every event that carries a URL, in event
      order. */
  lemma {:induction false} ComposeGenerated(scenes: seq<Trace>, n: nat, now: int)
    requires n <= |scenes|
    requires forall k :: 0 <= k < |scenes| ==> scenes[k].generated == Successes(scenes[k].events, now)
    ensures Compose(scenes, n).generated == Successes(Compose(scenes, n).events, now)
    decreases n
  {
    if n > 0 {
      ComposeGenerated(scenes, n - 1, now);
      var before := Compose(scenes, n - 1);
      if !before.hung {
        SuccessesAppend(before.events, scenes[n - 1].events, now);
      }
    }
  }

  /** The loop submits what every scene it reached submits, in order. */
  lemma {:induction false} ComposeSubmitted(scenes: seq<Trace>, ws: seq<seq<JobPrompt>>, n: nat)
    requires n <= |scenes| == |ws|
    requires forall k :: 0 <= k < |scenes| ==> scenes[k].submitted == ws[k]
    ensures Compose(scenes, n).submitted == Flatten(ws, Compose(scenes, n).reached)
    decreases n
  {
    if n > 0 {
      ComposeSubmitted(scenes, ws, n - 1);
    }
  }

  /** The loop waits after exactly the reached scenes that wait. */
  lemma {:induction false} ComposePaused(scenes: seq<Trace>, n: nat)
    requires n <= |scenes|
    requires forall k :: 0 <= k < |scenes| ==> forall j :: j in scenes[k].paused ==> j == k
    ensures forall j: int :: j in Compose(scenes, n).paused <==> 0 <= j < Compose(scenes, n).reached && j in scenes[j].paused
    decreases n
  {
    if n > 0 {
      ComposePaused(scenes, n - 1);
    }
  }

  /** The stream of an accepted request: unless a poll hangs, one event per
      prompt and then `[DONE]`; a hung poll ends the stream early, with no
      `[DONE]`. Scene `k` is reported by event `k`. */
  lemma StreamShape(req: Request, stored: Option<seq<CachedImage>>, jobs: seq<SceneJob>, now: int)
    requires JobsCover(req, jobs) && ValidRequest(req)
    ensures var ps := req.prompts.value;
      var r, evs := StreamRun(req, stored, jobs, now), ResponseOf(req, stored, jobs, now).events;
      (!r.hung ==> |evs| == |ps| + 1 && evs[|ps|] == Done)
      && (r.hung ==> |evs| < |ps|)
      && |r.events| <= |ps| && evs[..|r.events|] == r.events
  {
    var ps, urls := req.prompts.value, UrlMap(ExistingOrEmpty(stored));
    var scenes := SceneTraces(ps, urls, jobs, now);
    forall k | 0 <= k < |scenes| ensures |scenes[k].events| == (if scenes[k].hung then 0 else 1) {
      SceneShaped(k, |ps|, ps[k], Get(urls, ps[k].timestamp), jobs[k], now);
    }
    ComposeEvents(scenes, |ps|);
    var r := StreamRun(req, stored, jobs, now);
    if !r.hung {
      assert (r.events + [Done])[..|r.events|] == r.events;
    }
  }

  /** Each scene event reports its scene: index, timestamp and prompt, and
      exactly one of a non-empty URL and an error. A scene whose timestamp
      the cache map holds with a truthy URL reports that URL and no error;
      any other reports the URL or error of its job. */
  lemma StreamReports(req: Request, stored: Option<seq<CachedImage>>, jobs: seq<SceneJob>, now: int)
    requires JobsCover(req, jobs) && ValidRequest(req)
    ensures var ps, urls := req.prompts.value, UrlMap(ExistingOrEmpty(stored));
      var r := StreamRun(req, stored, jobs, now);
      |r.events| <= |ps| && forall k :: 0 <= k < |r.events| ==> Reports(r.events[k], k, ps[k], Get(urls, ps[k].timestamp), jobs[k])
  {
    var ps, urls := req.prompts.value, UrlMap(ExistingOrEmpty(stored));
    var scenes := SceneTraces(ps, urls, jobs, now);
    ScenesShaped(ps, urls, jobs, now);
    ComposeEvents(scenes, |ps|);
    var r := StreamRun(req, stored, jobs, now);
    forall k | 0 <= k < |r.events| ensures Reports(r.events[k], k, ps[k], Get(urls, ps[k].timestamp), jobs[k]) {
      assert Shaped(scenes[k], k, |ps|, ps[k], Get(urls, ps[k].timestamp), jobs[k], now);
    }
  }

  /** A scene whose timestamp the cache map holds with a truthy URL is never
      submitted: the prompts submitted are the full prompts of the reached
      scenes that missed the cache, in order. */
  lemma StreamSubmissions(req: Request, stored: Option<seq<CachedImage>>, jobs: seq<SceneJob>, now: int)
    requires JobsCover(req, jobs) && ValidRequest(req)
    ensures var r := StreamRun(req, stored, jobs, now);
      r.reached <= |req.prompts.value|
      && r.submitted == Submissions(req.prompts.value, UrlMap(ExistingOrEmpty(stored)), r.reached)
  {
    var ps, urls := req.prompts.value, UrlMap(ExistingOrEmpty(stored));
    var scenes := SceneTraces(ps, urls, jobs, now);
    var ws := WantedAll(ps, urls);
    forall k | 0 <= k < |scenes| ensures scenes[k].submitted == ws[k] {
      SceneShaped(k, |ps|, ps[k], Get(urls, ps[k].timestamp), jobs[k], now);
    }
    ComposeSubmitted(scenes, ws, |ps|);
  }

  /** The route waits 1 s exactly after the reached scenes that were polled
      and are not the last. */
  lemma StreamPauses(req: Request, stored: Option<seq<CachedImage>>, jobs: seq<SceneJob>, now: int)
    requires JobsCover(req, jobs) && ValidRequest(req)
    ensures var ps, urls := req.prompts.value, UrlMap(ExistingOrEmpty(stored));
      var r := StreamRun(req, stored, jobs, now);
      r.reached <= |ps|
      && forall j: int :: j in r.paused <==> 0 <= j < r.reached && Waits(j, |ps|, Get(urls, ps[j].timestamp), jobs[j])
  {
    var ps, urls := req.prompts.value, UrlMap(ExistingOrEmpty(stored));
    var scenes := SceneTraces(ps, urls, jobs, now);
    forall k | 0 <= k < |scenes|
      ensures scenes[k].paused == (if Waits(k, |ps|, Get(urls, ps[k].timestamp), jobs[k]) then [k] else [])
    {
      SceneShaped(k, |ps|, ps[k], Get(urls, ps[k].timestamp), jobs[k], now);
    }
    ComposePaused(scenes, |ps|);
  }

  /** The final cache write. It happens only when the stream reached its
      end and kept an image, and it replaces the whole list by the images of
      the events that carry a URL, cache hits and new images alike, in prompt
      order; failed scenes and cached timestamps outside the request are
      dropped. A refused request or a hung stream leaves the cache as it
      was. */
  lemma FinalWrite(req: Request, stored: Option<seq<CachedImage>>, jobs: seq<SceneJob>, now: int)
    requires JobsCover(req, jobs)
    ensures var r := StreamRun(req, stored, jobs, now);
      var kept := Successes(r.events, now);
      FinalImages(req, stored, jobs, now) == (if ValidRequest(req) && !r.hung && kept != [] then Some(kept) else stored)
  {
    if ValidRequest(req) {
      var ps, urls := req.prompts.value, UrlMap(ExistingOrEmpty(stored));
      var scenes := SceneTraces(ps, urls, jobs, now);
      forall k | 0 <= k < |scenes| ensures scenes[k].generated == Successes(scenes[k].events, now) {
        SceneShaped(k, |ps|, ps[k], Get(urls, ps[k].timestamp), jobs[k], now);
      }
      ComposeGenerated(scenes, |ps|, now);
    }
  }

  /** Every image the final write keeps comes from an event of this run: its
      URL, prompt and timestamp are those the event reports. */
  lemma {:induction false} SuccessesFromEvents(events: seq<Event>, now: int, j: nat)
    requires j < |Successes(events, now)|
    ensures exists k :: (0 <= k < |events| && events[k].Result? && events[k].imageUrl == Some(Successes(events, now)[j].imageUrl)
      && events[k].prompt == Successes(events, now)[j].prompt && events[k].timestamp == Successes(events, now)[j].timestamp)
    decreases |events|
  {
    var init := events[..|events| - 1];
    var e := events[|events| - 1];
    if j < |Successes(init, now)| {
      SuccessesFromEvents(init, now, j);
      var k :| 0 <= k < |init| && init[k].Result? && init[k].imageUrl == Some(Successes(init, now)[j].imageUrl)
        && init[k].prompt == Successes(init, now)[j].prompt && init[k].timestamp == Successes(init, now)[j].timestamp;
      assert events[k] == init[k];
    } else {
      assert events[|events| - 1] == e;
    }
  }
}
