// The non-streaming image route: for each prompt, in order, a job is
// submitted with a fixed style added to the prompt and polled; the answer is
// the list of one result per prompt. This route never reads or writes the
// cache.

module ImagesBatch {
  import opened Common
  import opened ImagePolling
  import opened SceneCache
  import opened ImageJobs
  import ImagesStream

  const StyleSuffix := ", Berlin nightlife, hip-hop culture, urban street photography, neon lights, graffiti art, moody atmosphere, cinematic lighting, 4k quality, professional photography"

  const NegativePrompt := "blurry, low quality, distorted, ugly"

  /** The prompt a job is submitted with, by the scene prompt it is built
      from; `Text` spells it out. */
  datatype JobPrompt = EnhancedPrompt(scene: string)

  /** The prompt text: the scene, then the fixed style. */
  function Text(j: JobPrompt): string
  {
    j.scene + StyleSuffix
  }

  /** The `input` of a submitted job. */
  datatype JobInput = JobInput(prompt: string, negativePrompt: string, size: string, seed: int, enableSafetyChecker: bool)

  function InputOf(j: JobPrompt): JobInput
  {
    JobInput(Text(j), NegativePrompt, "2048*2048", -1, true)
  }

  /** The scene prompt can be read back from the submitted text, which ends
      with the style. */
  lemma TextRoundTrip(j: JobPrompt)
    ensures Text(j)[..|j.scene|] == j.scene
    ensures Text(j)[|j.scene|..] == StyleSuffix
    ensures InputOf(j).prompt == Text(j) && InputOf(j).negativePrompt == NegativePrompt
  {
    var r := Text(j);
    assert r[..|j.scene|] == j.scene;
    assert r[|j.scene|..] == StyleSuffix;
  }

  /** One entry of the `images` list. */
  datatype ImageResult = ImageResult(timestamp: real, prompt: string, imageUrl: Option<string>, error: Option<string>)

  /** What `POST` answers: a 400, the result list, or nothing because a poll
      hung. */
  datatype Response = Rejected(status: int, error: string) | Images(images: seq<ImageResult>) | NoAnswer

  /** The loop so far: the results, the jobs submitted, the scenes after
      which it waited 1 s, and whether a poll hung. */
  datatype Run = Run(images: seq<ImageResult>, submitted: seq<JobPrompt>, paused: seq<nat>, hung: bool)

  /** The outcome of every scene's job, in order. */
  function Outcomes(jobs: seq<SceneJob>): (os: seq<JobOutcome>)
    ensures |os| == |jobs|
  {
    seq(|jobs|, k requires 0 <= k < |jobs| => OutcomeOf(jobs[k], Batch))
  }

  /** The result a scene that did not hang reports. */
  function ResultOf(scene: ImagePrompt, o: JobOutcome): ImageResult
  {
    ImageResult(scene.timestamp, scene.prompt, ReportedUrl(o), ReportedError(o))
  }

  /** Whether scene `i` of `n` is followed by the 1 s wait: it was polled,
      and it is not the last. */
  predicate Waits(i: nat, n: nat, o: JobOutcome)
  {
    o.Polled? && i + 1 < n
  }

  /** The first `m` iterations of the loop, given each scene's outcome. Every
      scene is submitted; the loop stops at the first poll that hangs. */
  function Loop(prompts: seq<ImagePrompt>, os: seq<JobOutcome>, m: nat): (r: Run)
    requires m <= |prompts| == |os|
  {
    if m == 0 then Run([], [], [], false)
    else
      var before := Loop(prompts, os, m - 1);
      if before.hung then before
      else
        var scene, o := prompts[m - 1], os[m - 1];
        var sent := before.submitted + [EnhancedPrompt(scene.prompt)];
        if o.Hung? then Run(before.images, sent, before.paused, true)
        else Run(before.images + [ResultOf(scene, o)], sent, before.paused + (if Waits(m - 1, |prompts|, o) then [m - 1] else []), false)
  }

  /** The run of a request; a refused request runs nothing. */
  function BatchRun(req: Request, jobs: seq<SceneJob>): Run
    requires JobsCover(req, jobs)
  {
    if ValidRequest(req) then Loop(req.prompts.value, Outcomes(jobs), |jobs|) else Run([], [], [], false)
  }

  /** What `POST` answers: 400 for a body that does not parse or for
      `prompts` that is missing or not an array; otherwise the results, unless
      a poll hung. An empty array is answered with an empty list. */
  function ResponseOf(req: Request, jobs: seq<SceneJob>): Response
    requires JobsCover(req, jobs)
  {
    if req.Unreadable? then Rejected(400, "Invalid request body")
    else if req.prompts.None? then Rejected(400, "Invalid prompts array")
    else
      var r := BatchRun(req, jobs);
      if r.hung then NoAnswer else Images(r.images)
  }

  /** Once the loop hangs, later scenes are never reached. */
  lemma {:induction false} HungStays(prompts: seq<ImagePrompt>, os: seq<JobOutcome>, m: nat, n: nat)
    requires m <= n <= |prompts| == |os|
    requires m < n ==> Loop(prompts, os, m).hung
    ensures Loop(prompts, os, n) == Loop(prompts, os, m)
    decreases n - m
  {
    if m < n {
      HungStays(prompts, os, m, n - 1);
      assert Loop(prompts, os, n - 1).hung;
    }
  }

  /** `POST` of the non-streaming image route: it returns the response, the
      jobs it submitted and the scenes after which it waited 1 s. */
  method GenerateImages(req: Request, jobs: seq<SceneJob>)
    returns (resp: Response, submitted: seq<JobPrompt>, paused: seq<nat>)
    requires JobsCover(req, jobs)
    ensures resp == ResponseOf(req, jobs)
    ensures submitted == BatchRun(req, jobs).submitted && paused == BatchRun(req, jobs).paused
  {
    if req.Unreadable? {
      return Rejected(400, "Invalid request body"), [], [];
    }
    if req.prompts.None? {
      return Rejected(400, "Invalid prompts array"), [], [];
    }
    var prompts := req.prompts.value;
    ghost var os := Outcomes(jobs);
    var images := [];
    submitted, paused := [], [];
    var index := 0;
    while index < |prompts|
      invariant 0 <= index <= |prompts|
      invariant Loop(prompts, os, index) == Run(images, submitted, paused, false)
      decreases |prompts| - index
    {
      var item := prompts[index];
      var enhancedPrompt := EnhancedPrompt(item.prompt);
      submitted := submitted + [enhancedPrompt];
      var o := RunJob(jobs[index], Batch);
      assert o == os[index];
      if o.Hung? {
        HungStays(prompts, os, index + 1, |prompts|);
        return NoAnswer, submitted, paused;
      }
      images := images + [ImageResult(item.timestamp, item.prompt, ReportedUrl(o), ReportedError(o))];
      if o.Polled? && index < |prompts| - 1 {
        paused := paused + [index];
      }
      index := index + 1;
    }
    resp := Images(images);
  }

  // ---------------------------------------------------------------------------
  // Properties of the route
  // ---------------------------------------------------------------------------

  lemma {:induction false} LoopShape(prompts: seq<ImagePrompt>, os: seq<JobOutcome>, m: nat)
    requires m <= |prompts| == |os|
    ensures var r := Loop(prompts, os, m);
      |r.submitted| <= m && |r.images| == (if r.hung then |r.submitted| - 1 else |r.submitted|)
      && (!r.hung ==> |r.submitted| == m)
      && (forall k :: 0 <= k < |r.submitted| ==> r.submitted[k] == EnhancedPrompt(prompts[k].prompt))
      && (forall k :: 0 <= k < |r.images| ==> r.images[k] == ResultOf(prompts[k], os[k]) && !os[k].Hung?)
      && (r.hung ==> os[|r.submitted| - 1].Hung?)
    decreases m
  {
    if m > 0 {
      LoopShape(prompts, os, m - 1);
    }
  }

  /** A result that reports exactly one of a non-empty URL and an error. */
  predicate Consistent(r: ImageResult)
  {
    (r.error.None? <==> r.imageUrl.Some?) && (r.imageUrl.Some? ==> r.imageUrl.value != "")
  }

  /** Result `res` reports scene `scene` whose job is `job`: its timestamp
      and prompt, the URL or error of the job, and exactly one of a non-empty
      URL and an error. */
  predicate Reports(res: ImageResult, scene: ImagePrompt, job: SceneJob)
  {
    res.timestamp == scene.timestamp && res.prompt == scene.prompt
    && res.imageUrl == ReportedUrl(OutcomeOf(job, Batch)) && res.error == ReportedError(OutcomeOf(job, Batch))
    && Consistent(res)
  }

  /** The answer to an accepted request: one result per prompt, in order,
      reporting that prompt's scene. A poll that hangs leaves the request
      without an answer. */
  lemma ResultsPerPrompt(req: Request, jobs: seq<SceneJob>)
    requires JobsCover(req, jobs) && ValidRequest(req)
    ensures var ps, resp := req.prompts.value, ResponseOf(req, jobs);
      (resp.Images? <==> !BatchRun(req, jobs).hung)
      && (resp.Images? ==> |resp.images| == |ps| && forall k :: 0 <= k < |ps| ==> Reports(resp.images[k], ps[k], jobs[k]))
  {
    var ps, os := req.prompts.value, Outcomes(jobs);
    LoopShape(ps, os, |ps|);
    var r := BatchRun(req, jobs);
    if !r.hung {
      forall k | 0 <= k < |ps| ensures Reports(r.images[k], ps[k], jobs[k]) {
        assert r.images[k] == ResultOf(ps[k], os[k]);
        ReportConsistent(jobs[k], Batch);
      }
    }
  }

  /** Every reached prompt is submitted, in order, with the style added; all
      of them unless a poll hangs. */
  lemma SubmitsEveryPrompt(req: Request, jobs: seq<SceneJob>)
    requires JobsCover(req, jobs) && ValidRequest(req)
    ensures var ps, r := req.prompts.value, BatchRun(req, jobs);
      |r.submitted| <= |ps| && (!r.hung ==> |r.submitted| == |ps|)
      && forall k :: 0 <= k < |r.submitted| ==> r.submitted[k] == EnhancedPrompt(ps[k].prompt)
  {
    LoopShape(req.prompts.value, Outcomes(jobs), |jobs|);
  }

  /** The route waits 1 s exactly after the reached scenes that were polled
      and are not the last. */
  lemma {:induction false} LoopPauses(prompts: seq<ImagePrompt>, os: seq<JobOutcome>, m: nat)
    requires m <= |prompts| == |os|
    ensures var r := Loop(prompts, os, m);
      |r.submitted| <= m
      && forall j: int :: j in r.paused <==> 0 <= j < |r.submitted| && Waits(j, |prompts|, os[j])
    decreases m
  {
    if m > 0 {
      LoopPauses(prompts, os, m - 1);
      LoopShape(prompts, os, m - 1);
    }
  }

  /** The two routes agree on every scene the streaming route sends to the
      provider: given the same provider answers, the streaming event and the
      result in the list carry the same URL and the same error. */
  lemma RoutesAgree(req: Request, stored: Option<seq<CachedImage>>, jobs: seq<SceneJob>, now: int, k: nat)
    requires JobsCover(req, jobs) && ValidRequest(req)
    requires ResponseOf(req, jobs).Images? && k < |ResponseOf(req, jobs).images| && k < |req.prompts.value|
    requires k < |ImagesStream.StreamRun(req, stored, jobs, now).events|
    requires !Truthy(ImagesStream.Get(ImagesStream.UrlMap(ExistingOrEmpty(stored)), req.prompts.value[k].timestamp))
    ensures var e, res := ImagesStream.StreamRun(req, stored, jobs, now).events[k], ResponseOf(req, jobs).images[k];
      e.Result? && e.imageUrl == res.imageUrl && e.error == res.error
  {
    ImagesStream.StreamReports(req, stored, jobs, now);
    ResultsPerPrompt(req, jobs);
    VariantsSameOutcome(jobs[k]);
  }
}
