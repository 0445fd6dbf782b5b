// The streaming video route: for each scene, in order, a video job is
// submitted with a camera movement added to the prompt and the duration
// clamped, then polled to completion; the progress of every scene is sent as
// a `text/event-stream` event (HTML Living Standard, section 9.2) and
// written to the video cache right after.

module VideoStream {
  import opened Common
  import opened Text
  import opened Provider
  import opened SceneCache

  const MaxAttempts := 120

  // ---------------------------------------------------------------------------
  // The submitted job
  // ---------------------------------------------------------------------------

  const CameraMovements: seq<string> := [
    "Smooth tracking shot moving forward",
    "Dynamic handheld camera following the action",
    "Slow dolly zoom emphasizing the subject",
    "Cinematic crane shot rising upward",
    "Fast-paced whip pan between subjects",
    "Steady cam circling around the scene",
    "Low angle push-in shot",
    "High angle establishing shot descending",
    "Smooth slider shot moving left to right",
    "360-degree rotation around the center"
  ]

  const PromptSuffix := ". Professional music video cinematography, dynamic composition, smooth motion, Berlin hip-hop aesthetic with neon lighting and urban atmosphere."

  /** `enhancePromptWithCameraMovement`. */
  function EnhancePrompt(basePrompt: string, sceneIndex: nat): string
  {
    CameraMovements[sceneIndex % |CameraMovements|] + ". " + basePrompt + PromptSuffix
  }

  /** Scene `i` gets camera movement `i mod 10` in front of its own prompt, so
      the movements repeat every ten scenes. */
  lemma CameraMovementCycle(basePrompt: string, i: nat)
    ensures StartsWith(EnhancePrompt(basePrompt, i), CameraMovements[i % 10] + ". " + basePrompt)
    ensures EnhancePrompt(basePrompt, i + 10) == EnhancePrompt(basePrompt, i)
  {
    var p := CameraMovements[i % 10] + ". " + basePrompt;
    assert EnhancePrompt(basePrompt, i) == p + PromptSuffix;
    assert (p + PromptSuffix)[..|p|] == p;
    assert (i + 10) % 10 == i % 10;
  }

  /** The duration sent with a job: `Math.round` of the scene's audio
      duration, clamped to [3, 10] seconds. */
  function ValidDuration(duration: real): (d: int)
    ensures 3 <= d <= 10
    ensures 3 <= Round(duration) <= 10 ==> d == Round(duration)
    ensures Round(duration) < 3 ==> d == 3
    ensures Round(duration) > 10 ==> d == 10
  {
    MaxInt(3, MinInt(10, Round(duration)))
  }

  /** What `submitVideoJob` sends for a scene. */
  datatype JobInput = JobInput(prompt: string, image: string, duration: int)

  /** The job id `submitVideoJob` returns, or the message it throws. */
  datatype Submitted = JobId(id: Option<string>) | SubmitFailed(message: string)

  function SubmitOutcome(s: Submission): Submitted
  {
    match s
    case SubmitThrew(m) => SubmitFailed(m)
    case SubmitResponse(code, text, created) =>
      if !IsOk(code) then SubmitFailed("RunPod submission failed: " + IntToString(code) + " " + text)
      else
        match created
        case CreatedUnparsable(m) => SubmitFailed(m)
        case JobCreated(id) => JobId(id)
  }

  // ---------------------------------------------------------------------------
  // The poller: up to 120 attempts, each after a 3 s sleep, each allowing
  // three failed status checks
  // ---------------------------------------------------------------------------

  datatype Check = Found(url: string) | Failure(message: string) | RateLimited | Pending

  datatype Poll =
    | Succeeded(url: string, checks: nat, waitedMs: int)
    | Threw(message: string, checks: nat, waitedMs: int)
    | Stalled(checks: nat, waitedMs: int)

  function TimedOutMessage(jobId: string): string
  {
    "Job " + jobId + " timed out after 120 attempts"
  }

  /** The verdict of one status reply. Only a refusal whose body mentions
      "Too Many Requests" is a rate limit; FAILED and a completed job without
      a URL are failures like a thrown request. */
  function CheckOf(reply: Reply): (c: Check)
    ensures c.Found? ==> (reply.Response? && IsOk(reply.code) && reply.payload.Status?
                          && reply.payload.status == "COMPLETED" && VideoUrlOf(reply.payload.output) == Some(c.url))
    ensures c.RateLimited? <==> (reply.Response? && !IsOk(reply.code) && Includes(reply.text, "Too Many Requests"))
    ensures c.Pending? <==> (reply.Response? && IsOk(reply.code) && reply.payload.Status?
                             && reply.payload.status != "COMPLETED" && reply.payload.status != "FAILED")
  {
    match reply
    case NetworkError(m) => Failure(m)
    case Response(code, _, text, payload) =>
      if !IsOk(code) then
        (if Includes(text, "Too Many Requests") then RateLimited else Failure("Status check failed: " + IntToString(code)))
      else
        match payload
        case Unparsable(m) => Failure(m)
        case Status(status, output, outputJson, error) =>
          if status == "COMPLETED" then
            (match VideoUrlOf(output)
             case Some(u) => Found(u)
             case None => Failure("Job completed but no video URL found in output: " + outputJson))
          else if status == "FAILED" then Failure("Job failed: " + (if Truthy(error) then error.value else "Unknown error"))
          else Pending
  }

  /** The wait before the next check once `retries` checks are left:
      `(4 - retries) * 2000` ms. */
  function Backoff(retries: int): int
  {
    (4 - retries) * 2000
  }

  /** The poll from reply `pos` on, in attempt `attempt` with `retries` checks
      left in it, having waited `waited`. */
  function PollFrom(script: seq<Reply>, jobId: string, pos: nat, attempt: nat, retries: nat, waited: int): Poll
    requires pos <= |script| && 1 <= attempt <= MaxAttempts && 1 <= retries <= 3
    decreases |script| - pos
  {
    if pos == |script| then Stalled(pos, waited)
    else
      match CheckOf(script[pos])
      case Found(u) => Succeeded(u, pos + 1, waited)
      case RateLimited => PollFrom(script, jobId, pos + 1, attempt, retries, waited + 10000)
      case Failure(m) =>
        if retries == 1 then Threw(m, pos + 1, waited)
        else PollFrom(script, jobId, pos + 1, attempt, retries - 1, waited + Backoff(retries - 1))
      case Pending =>
        if attempt == MaxAttempts then Threw(TimedOutMessage(jobId), pos + 1, waited)
        else PollFrom(script, jobId, pos + 1, attempt + 1, 3, waited + 3000)
  }

  function PollOf(script: seq<Reply>, jobId: string): Poll
  {
    PollFrom(script, jobId, 0, 1, 3, 3000)
  }

  /** `pollJobStatus` of the video route. */
  method PollJobStatus(script: seq<Reply>, jobId: string) returns (r: Poll)
    ensures r == PollOf(script, jobId)
  {
    var pos := 0;
    var waited := 0;
    var attempt := 1;
    while attempt <= MaxAttempts
      invariant 1 <= attempt <= MaxAttempts + 1 && pos <= |script|
      invariant attempt <= MaxAttempts ==> PollFrom(script, jobId, pos, attempt, 3, waited + 3000) == PollOf(script, jobId)
      invariant attempt > MaxAttempts ==> Threw(TimedOutMessage(jobId), pos, waited) == PollOf(script, jobId)
      decreases MaxAttempts + 1 - attempt
    {
      waited := waited + 3000;
      var retries := 3;
      // The attempt ends with a `break` on a pending status; a third failure
      // throws from inside the loop, so `retries` never reaches 0 here.
      while true
        invariant pos <= |script| && 1 <= retries <= 3
        invariant PollFrom(script, jobId, pos, attempt, retries, waited) == PollOf(script, jobId)
        decreases |script| - pos
      {
        if pos == |script| {
          return Stalled(pos, waited);
        }
        var reply := script[pos];
        pos := pos + 1;
        var error: Option<string> := None;
        match reply {
          case NetworkError(m) =>
            error := Some(m);
          case Response(code, _, text, payload) =>
            if !IsOk(code) {
              if Includes(text, "Too Many Requests") {
                waited := waited + 10000;
                continue;
              }
              error := Some("Status check failed: " + IntToString(code));
            } else {
              match payload {
                case Unparsable(m) =>
                  error := Some(m);
                case Status(status, output, outputJson, jobError) =>
                  if status == "COMPLETED" {
                    var videoUrl := VideoUrlOf(output);
                    if videoUrl.None? {
                      error := Some("Job completed but no video URL found in output: " + outputJson);
                    } else {
                      return Succeeded(videoUrl.value, pos, waited);
                    }
                  } else if status == "FAILED" {
                    error := Some("Job failed: " + (if Truthy(jobError) then jobError.value else "Unknown error"));
                  }
              }
            }
        }
        if error.None? {
          break;
        }
        retries := retries - 1;
        if retries > 0 {
          waited := waited + Backoff(retries);
        } else {
          return Threw(error.value, pos, waited);
        }
      }
      attempt := attempt + 1;
    }
    return Threw(TimedOutMessage(jobId), pos, waited);
  }

  /** Three failed checks in a row within one attempt throw the third
      failure; the poller waits 4 s after the first and 6 s after the second.
      (The source's comment announces 2, 4 and 6 s, but the backoff is taken
      after the decrement.) */
  lemma ThirdFailureThrows(script: seq<Reply>, jobId: string, pos: nat, attempt: nat, waited: int)
    requires pos + 3 <= |script| && 1 <= attempt <= MaxAttempts
    requires CheckOf(script[pos]).Failure? && CheckOf(script[pos + 1]).Failure? && CheckOf(script[pos + 2]).Failure?
    ensures PollFrom(script, jobId, pos, attempt, 3, waited)
      == Threw(CheckOf(script[pos + 2]).message, pos + 3, waited + 4000 + 6000)
  {
    assert PollFrom(script, jobId, pos, attempt, 3, waited) == PollFrom(script, jobId, pos + 1, attempt, 2, waited + 4000);
    assert PollFrom(script, jobId, pos + 1, attempt, 2, waited + 4000) == PollFrom(script, jobId, pos + 2, attempt, 1, waited + 10000);
  }

  /** A rate-limited check costs 10 s and neither a retry nor an attempt. */
  lemma RateLimitIsFree(script: seq<Reply>, jobId: string, pos: nat, attempt: nat, retries: nat, waited: int)
    requires pos < |script| && 1 <= attempt <= MaxAttempts && 1 <= retries <= 3
    requires CheckOf(script[pos]).RateLimited?
    ensures PollFrom(script, jobId, pos, attempt, retries, waited) == PollFrom(script, jobId, pos + 1, attempt, retries, waited + 10000)
  {
  }

  /** Rate limits alone never end the poll: however many replies in a row
      say "Too Many Requests", it reads them all, waiting 10 s after each,
      and asks again. */
  lemma {:induction false} RateLimitsNeverEnd(script: seq<Reply>, jobId: string, pos: nat, attempt: nat, retries: nat, waited: int)
    requires pos <= |script| && 1 <= attempt <= MaxAttempts && 1 <= retries <= 3
    requires forall k :: pos <= k < |script| ==> CheckOf(script[k]).RateLimited?
    ensures PollFrom(script, jobId, pos, attempt, retries, waited) == Stalled(|script|, waited + 10000 * (|script| - pos))
    decreases |script| - pos
  {
    if pos < |script| {
      RateLimitsNeverEnd(script, jobId, pos + 1, attempt, retries, waited + 10000);
    }
  }

  /** The number of pending checks among replies `[lo, hi)`. */
  function PendingIn(script: seq<Reply>, lo: nat, hi: nat): nat
    requires lo <= hi <= |script|
    decreases hi - lo
  {
    if lo == hi then 0 else (if CheckOf(script[lo]).Pending? then 1 else 0) + PendingIn(script, lo + 1, hi)
  }

  /** Whatever the replies, the poller ends its run of attempts after at most
      120 pending checks: each pending check ends one attempt. */
  lemma {:induction false} AtMostMaxAttempts(script: seq<Reply>, jobId: string, pos: nat, attempt: nat, retries: nat, waited: int)
    requires pos <= |script| && 1 <= attempt <= MaxAttempts && 1 <= retries <= 3
    ensures pos <= PollFrom(script, jobId, pos, attempt, retries, waited).checks <= |script|
    ensures PendingIn(script, pos, PollFrom(script, jobId, pos, attempt, retries, waited).checks) <= MaxAttempts + 1 - attempt
    decreases |script| - pos
  {
    var r := PollFrom(script, jobId, pos, attempt, retries, waited);
    if pos < |script| {
      var c := CheckOf(script[pos]);
      if c.RateLimited? {
        AtMostMaxAttempts(script, jobId, pos + 1, attempt, retries, waited + 10000);
      } else if c.Failure? && retries > 1 {
        AtMostMaxAttempts(script, jobId, pos + 1, attempt, retries - 1, waited + Backoff(retries - 1));
      } else if c.Pending? && attempt < MaxAttempts {
        AtMostMaxAttempts(script, jobId, pos + 1, attempt + 1, 3, waited + 3000);
      } else {
        assert r.checks == pos + 1;
        assert PendingIn(script, pos + 1, pos + 1) == 0;
      }
    }
  }

  /** A job that stays pending for 120 checks times out after exactly 120
      checks and 120 sleeps of 3 s. */
  lemma {:induction false} PendingTimesOut(script: seq<Reply>, jobId: string, pos: nat, attempt: nat, waited: int)
    requires 1 <= attempt <= MaxAttempts && pos + MaxAttempts + 1 - attempt <= |script|
    requires forall k :: pos <= k < pos + MaxAttempts + 1 - attempt ==> CheckOf(script[k]).Pending?
    ensures PollFrom(script, jobId, pos, attempt, 3, waited)
      == Threw(TimedOutMessage(jobId), pos + MaxAttempts + 1 - attempt, waited + 3000 * (MaxAttempts - attempt))
    decreases MaxAttempts - attempt
  {
    if attempt < MaxAttempts {
      PendingTimesOut(script, jobId, pos + 1, attempt + 1, waited + 3000);
    }
  }

  /** The poll's outcome is explained by the last reply it read: the URL of
      a completed job, or the failure it throws. */
  predicate ExplainedByLastReply(script: seq<Reply>, jobId: string, r: Poll)
  {
    r.checks <= |script|
    && (r.Succeeded? ==> 0 < r.checks && CheckOf(script[r.checks - 1]) == Found(r.url))
    && (r.Threw? && r.message != TimedOutMessage(jobId) ==> 0 < r.checks && CheckOf(script[r.checks - 1]) == Failure(r.message))
  }

  /** A successful poll returns the URL of its last reply, a completed job;
      any other error than the time-out is the last reply's failure. */
  lemma {:induction false} OutcomeFromLastReply(script: seq<Reply>, jobId: string, pos: nat, attempt: nat, retries: nat, waited: int)
    requires pos <= |script| && 1 <= attempt <= MaxAttempts && 1 <= retries <= 3
    ensures ExplainedByLastReply(script, jobId, PollFrom(script, jobId, pos, attempt, retries, waited))
    decreases |script| - pos
  {
    if pos < |script| {
      var c := CheckOf(script[pos]);
      if c.RateLimited? {
        OutcomeFromLastReply(script, jobId, pos + 1, attempt, retries, waited + 10000);
      } else if c.Failure? && retries > 1 {
        OutcomeFromLastReply(script, jobId, pos + 1, attempt, retries - 1, waited + Backoff(retries - 1));
      } else if c.Pending? && attempt < MaxAttempts {
        OutcomeFromLastReply(script, jobId, pos + 1, attempt + 1, 3, waited + 3000);
      }
    }
  }

  // ---------------------------------------------------------------------------
  // The route: one scene after another, each event followed by a cache write
  // ---------------------------------------------------------------------------

  datatype VideoPrompt = VideoPrompt(timestamp: real, prompt: string, imageUrl: string, audioDuration: real)

  /** The request body: it does not parse (the message of the thrown error),
      or its `prompts`, missing or not an array (`None`), and `audioUrl`. */
  datatype Request = Unreadable(message: string) | VideoRequest(prompts: Option<seq<VideoPrompt>>, audioUrl: string)

  /** What the provider answers for one scene: the submission, then the
      status replies its poller reads. */
  datatype SceneJob = SceneJob(submission: Submission, replies: seq<Reply>)

  /** The `data:` events of the stream. */
  datatype Event =
    | Queued(index: nat, timestamp: real)
    | Processing(index: nat, timestamp: real, jobId: Option<string>)
    | Completed(index: nat, timestamp: real, videoUrl: string)
    | Failed(index: nat, timestamp: real, error: string)
    | StreamError(error: string)
    | Done

  /** What one scene emits and writes to the video cache, and whether its
      poll hung because the provider stopped answering. */
  datatype Trace = Trace(events: seq<Event>, writes: seq<CachedVideo>, hung: bool)

  /** The same for a whole run, with the number of scenes it submitted. */
  datatype Run = Run(events: seq<Event>, writes: seq<CachedVideo>, reached: nat, hung: bool)

  function JobIdText(id: Option<string>): string
  {
    if id.Some? then id.value else "undefined"
  }

  /** The entry `cacheGeneratedVideo` stores for a scene. */
  function Entry(scene: VideoPrompt, now: int, status: VideoStatus, videoUrl: string,
                 jobId: Option<string>, error: Option<string>): CachedVideo
  {
    CachedVideo(videoUrl, scene.prompt, scene.timestamp, scene.imageUrl, scene.audioDuration, now, status, jobId, error)
  }

  /** The job submitted for scene `i`. */
  function JobFor(i: nat, scene: VideoPrompt): JobInput
  {
    JobInput(EnhancePrompt(scene.prompt, i), scene.imageUrl, ValidDuration(scene.audioDuration))
  }

  /** Scene `i` after its `processing` event: the poll ends it as completed or
      failed, or hangs. */
  function PollTrace(i: nat, scene: VideoPrompt, id: Option<string>, replies: seq<Reply>, now: int): Trace
  {
    var t := scene.timestamp;
    match PollOf(replies, JobIdText(id))
    case Succeeded(u, _, _) =>
      Trace([Event.Completed(i, t, u)], [Entry(scene, now, VideoStatus.Completed, u, id, None)], false)
    case Threw(m, _, _) =>
      Trace([Event.Failed(i, t, m)], [Entry(scene, now, VideoStatus.Failed, "", None, Some(m))], false)
    case Stalled(_, _) =>
      Trace([], [], true)
  }

  /** Scene `i` after its `queued` event: a failed submission fails it, an
      accepted one makes it `processing` and polls. */
  function SubmitTrace(i: nat, scene: VideoPrompt, submitted: Submitted, replies: seq<Reply>, now: int): Trace
  {
    var t := scene.timestamp;
    match submitted
    case SubmitFailed(m) =>
      Trace([Event.Failed(i, t, m)], [Entry(scene, now, VideoStatus.Failed, "", None, Some(m))], false)
    case JobId(id) =>
      var p := PollTrace(i, scene, id, replies, now);
      Trace([Event.Processing(i, t, id)] + p.events, [Entry(scene, now, VideoStatus.Processing, "", id, None)] + p.writes, p.hung)
  }

  /** The events and cache writes of scene `i`. */
  function SceneTrace(i: nat, scene: VideoPrompt, job: SceneJob, now: int): Trace
  {
    var s := SubmitTrace(i, scene, SubmitOutcome(job.submission), job.replies, now);
    Trace([Event.Queued(i, scene.timestamp)] + s.events, [Entry(scene, now, VideoStatus.Queued, "", None, None)] + s.writes, s.hung)
  }

  /** The traces of all scenes, each as if it were reached. */
  function SceneTraces(prompts: seq<VideoPrompt>, jobs: seq<SceneJob>, now: int): (r: seq<Trace>)
    requires |prompts| == |jobs|
    ensures |r| == |prompts|
  {
    seq(|prompts|, k requires 0 <= k < |prompts| == |jobs| => SceneTrace(k, prompts[k], jobs[k], now))
  }

  /** The loop over the first `n` scene traces, stopping at the first that
      hangs. */
  function Compose(scenes: seq<Trace>, n: nat): (r: Run)
    requires n <= |scenes|
    ensures r.reached <= n && (!r.hung ==> r.reached == n)
  {
    if n == 0 then Run([], [], 0, false)
    else
      var before := Compose(scenes, n - 1);
      if before.hung then before
      else
        var s := scenes[n - 1];
        Run(before.events + s.events, before.writes + s.writes, before.reached + 1, s.hung)
  }

  function RunTrace(prompts: seq<VideoPrompt>, jobs: seq<SceneJob>, now: int): Run
    requires |prompts| == |jobs|
  {
    Compose(SceneTraces(prompts, jobs, now), |prompts|)
  }

  /** The jobs submitted for the first `m` scenes, in order. */
  function Jobs(prompts: seq<VideoPrompt>, m: nat): seq<JobInput>
    requires m <= |prompts|
  {
    if m == 0 then [] else Jobs(prompts, m - 1) + [JobFor(m - 1, prompts[m - 1])]
  }

  predicate JobsCover(req: Request, jobs: seq<SceneJob>)
  {
    req.VideoRequest? && req.prompts.Some? ==> |jobs| == |req.prompts.value|
  }

  predicate ValidRequest(req: Request)
  {
    req.VideoRequest? && req.prompts.Some? && |req.prompts.value| > 0
  }

  /** Everything `POST` sends and caches for a request: a body that does not
      parse or a missing, non-array or empty `prompts` gives one error event
      and no `[DONE]`; otherwise every scene is run and `[DONE]` closes the
      stream. */
  function StreamTrace(req: Request, jobs: seq<SceneJob>, now: int): Run
    requires JobsCover(req, jobs)
  {
    match req
    case Unreadable(m) => Run([StreamError(m)], [], 0, false)
    case VideoRequest(prompts, _) =>
      if prompts.None? || |prompts.value| == 0 then Run([StreamError("Invalid prompts array")], [], 0, false)
      else
        var r := RunTrace(prompts.value, jobs, now);
        if r.hung then r else r.(events := r.events + [Done])
  }

  /** The jobs `POST` submits: one per scene it reaches. */
  function StreamJobs(req: Request, jobs: seq<SceneJob>, now: int): seq<JobInput>
    requires JobsCover(req, jobs)
  {
    if ValidRequest(req) then Jobs(req.prompts.value, RunTrace(req.prompts.value, jobs, now).reached)
    else []
  }

  /** The stored video list after a sequence of `cacheGeneratedVideo` writes
      on a healthy store. */
  function ApplyWrites(stored: Option<seq<CachedVideo>>, writes: seq<CachedVideo>): Option<seq<CachedVideo>>
  {
    if writes == [] then stored
    else Some(Upsert(ExistingOrEmpty(ApplyWrites(stored, writes[..|writes| - 1])), VideoKey, writes[|writes| - 1]))
  }

  lemma {:induction false} ApplyWritesAppend(stored: Option<seq<CachedVideo>>, a: seq<CachedVideo>, b: seq<CachedVideo>)
    ensures ApplyWrites(stored, a + b) == ApplyWrites(ApplyWrites(stored, a), b)
    decreases |b|
  {
    if b == [] {
      assert a + b == a;
    } else {
      assert (a + b)[..|a + b| - 1] == a + b[..|b| - 1];
      assert (a + b)[|a + b| - 1] == b[|b| - 1];
      ApplyWritesAppend(stored, a, b[..|b| - 1]);
    }
  }

  lemma ApplyWritesSnoc(stored: Option<seq<CachedVideo>>, writes: seq<CachedVideo>, v: CachedVideo)
    ensures ApplyWrites(stored, writes + [v]) == Some(Upsert(ExistingOrEmpty(ApplyWrites(stored, writes)), VideoKey, v))
  {
    assert (writes + [v])[..|writes|] == writes;
  }

  /** One `cacheGeneratedVideo` call of the route, on a healthy store. */
  method RecordVideo(store: Store, v: CachedVideo)
    modifies store
    ensures store.videos == ApplyWrites(old(store.videos), [v])
    ensures store.storyboard == old(store.storyboard) && store.images == old(store.images)
    ensures store.originals == old(store.originals) && store.stitched == old(store.stitched)
  {
    var _ := store.CacheGeneratedVideo(v.timestamp, v.prompt, v.videoUrl, v.imageUrl, v.audioDuration,
                                       v.status, v.jobId, v.error, v.generatedAt, true, true);
    ApplyWritesSnoc(old(store.videos), [], v);
  }

  /** The poll of scene `i` and what follows it. */
  method FollowJob(store: Store, i: nat, scene: VideoPrompt, id: Option<string>, replies: seq<Reply>, now: int)
    returns (t: Trace)
    modifies store
    ensures t == PollTrace(i, scene, id, replies, now)
    ensures store.videos == ApplyWrites(old(store.videos), t.writes)
    ensures store.storyboard == old(store.storyboard) && store.images == old(store.images)
    ensures store.originals == old(store.originals) && store.stitched == old(store.stitched)
  {
    var ts := scene.timestamp;
    var polled := PollJobStatus(replies, JobIdText(id));
    match polled {
      case Stalled(_, _) =>
        t := Trace([], [], true);
      case Succeeded(url, _, _) =>
        var completed := Entry(scene, now, VideoStatus.Completed, url, id, None);
        RecordVideo(store, completed);
        t := Trace([Event.Completed(i, ts, url)], [completed], false);
      case Threw(message, _, _) =>
        var failed := Entry(scene, now, VideoStatus.Failed, "", None, Some(message));
        RecordVideo(store, failed);
        t := Trace([Event.Failed(i, ts, message)], [failed], false);
    }
  }

  /** Scene `i` from its submission on. */
  method FollowSubmission(store: Store, i: nat, scene: VideoPrompt, submitted: Submitted, replies: seq<Reply>, now: int)
    returns (t: Trace)
    modifies store
    ensures t == SubmitTrace(i, scene, submitted, replies, now)
    ensures store.videos == ApplyWrites(old(store.videos), t.writes)
    ensures store.storyboard == old(store.storyboard) && store.images == old(store.images)
    ensures store.originals == old(store.originals) && store.stitched == old(store.stitched)
  {
    var ts := scene.timestamp;
    if submitted.SubmitFailed? {
      var failed := Entry(scene, now, VideoStatus.Failed, "", None, Some(submitted.message));
      RecordVideo(store, failed);
      return Trace([Event.Failed(i, ts, submitted.message)], [failed], false);
    }
    var processing := Entry(scene, now, VideoStatus.Processing, "", submitted.id, None);
    RecordVideo(store, processing);
    var p := FollowJob(store, i, scene, submitted.id, replies, now);
    ApplyWritesAppend(old(store.videos), [processing], p.writes);
    t := Trace([Event.Processing(i, ts, submitted.id)] + p.events, [processing] + p.writes, p.hung);
  }

  /** One scene of `POST`: send each event, then cache the same status. */
  method ProcessScene(store: Store, i: nat, scene: VideoPrompt, job: SceneJob, now: int) returns (t: Trace, input: JobInput)
    modifies store
    ensures t == SceneTrace(i, scene, job, now) && input == JobFor(i, scene)
    ensures store.videos == ApplyWrites(old(store.videos), t.writes)
    ensures store.storyboard == old(store.storyboard) && store.images == old(store.images)
    ensures store.originals == old(store.originals) && store.stitched == old(store.stitched)
  {
    var queued := Entry(scene, now, VideoStatus.Queued, "", None, None);
    RecordVideo(store, queued);
    var enhancedPrompt := EnhancePrompt(scene.prompt, i);
    input := JobInput(enhancedPrompt, scene.imageUrl, ValidDuration(scene.audioDuration));
    var submitted := SubmitOutcome(job.submission);
    var s := FollowSubmission(store, i, scene, submitted, job.replies, now);
    ApplyWritesAppend(old(store.videos), [queued], s.writes);
    t := Trace([Event.Queued(i, scene.timestamp)] + s.events, [queued] + s.writes, s.hung);
  }

  /** Once a run hangs, later scenes are never reached. */
  lemma {:induction false} HungStays(scenes: seq<Trace>, m: nat, n: nat)
    requires m <= n <= |scenes|
    requires m < n ==> Compose(scenes, m).hung
    ensures Compose(scenes, n) == Compose(scenes, m)
    decreases n - m
  {
    if m < n {
      HungStays(scenes, m, n - 1);
      assert Compose(scenes, n - 1).hung;
    }
  }

  /** Scene `i` of the loop, appended to the run so far. */
  method RunStep(store: Store, prompts: seq<VideoPrompt>, jobs: seq<SceneJob>, now: int, i: nat, r: Run,
                 ghost start: Option<seq<CachedVideo>>) returns (next: Run, input: JobInput)
    requires i < |prompts| == |jobs|
    requires !r.hung && r == Compose(SceneTraces(prompts, jobs, now), i)
    requires store.videos == ApplyWrites(start, r.writes)
    modifies store
    ensures next == Compose(SceneTraces(prompts, jobs, now), i + 1) && input == JobFor(i, prompts[i])
    ensures store.videos == ApplyWrites(start, next.writes)
    ensures store.storyboard == old(store.storyboard) && store.images == old(store.images)
    ensures store.originals == old(store.originals) && store.stitched == old(store.stitched)
  {
    var scene;
    scene, input := ProcessScene(store, i, prompts[i], jobs[i], now);
    assert SceneTraces(prompts, jobs, now)[i] == scene;
    ApplyWritesAppend(start, r.writes, scene.writes);
    next := Run(r.events + scene.events, r.writes + scene.writes, r.reached + 1, scene.hung);
  }

  /** The loop of `POST` over the scenes, in order; a scene that fails does
      not stop the next one. */
  method RunScenes(store: Store, prompts: seq<VideoPrompt>, jobs: seq<SceneJob>, now: int)
    returns (r: Run, submitted: seq<JobInput>)
    requires |prompts| == |jobs|
    modifies store
    ensures r == RunTrace(prompts, jobs, now) && submitted == Jobs(prompts, r.reached)
    ensures store.videos == ApplyWrites(old(store.videos), r.writes)
    ensures store.storyboard == old(store.storyboard) && store.images == old(store.images)
    ensures store.originals == old(store.originals) && store.stitched == old(store.stitched)
  {
    ghost var scenes := SceneTraces(prompts, jobs, now);
    r, submitted := Run([], [], 0, false), [];
    var i := 0;
    while i < |prompts| && !r.hung
      invariant 0 <= i <= |prompts|
      invariant r == Compose(scenes, i) && r.reached == i && submitted == Jobs(prompts, i)
      invariant store.videos == ApplyWrites(old(store.videos), r.writes)
      invariant store.storyboard == old(store.storyboard) && store.images == old(store.images)
      invariant store.originals == old(store.originals) && store.stitched == old(store.stitched)
      decreases |prompts| - i
    {
      var input;
      r, input := RunStep(store, prompts, jobs, now, i, r, old(store.videos));
      submitted := submitted + [input];
      i := i + 1;
    }
    HungStays(scenes, i, |prompts|);
  }

  /** `POST` of the video route. The events do not depend on what the video
      cache held: the route never reads it. */
  method GenerateVideos(store: Store, req: Request, jobs: seq<SceneJob>, now: int) returns (events: seq<Event>, submitted: seq<JobInput>)
    requires JobsCover(req, jobs)
    modifies store
    ensures events == StreamTrace(req, jobs, now).events
    ensures submitted == StreamJobs(req, jobs, now)
    ensures store.videos == ApplyWrites(old(store.videos), StreamTrace(req, jobs, now).writes)
    ensures store.storyboard == old(store.storyboard) && store.images == old(store.images)
    ensures store.originals == old(store.originals) && store.stitched == old(store.stitched)
  {
    if req.Unreadable? {
      return [StreamError(req.message)], [];
    }
    if req.prompts.None? || |req.prompts.value| == 0 {
      return [StreamError("Invalid prompts array")], [];
    }
    var r;
    r, submitted := RunScenes(store, req.prompts.value, jobs, now);
    events := r.events;
    if !r.hung {
      events := events + [Done];
    }
  }

  // ---------------------------------------------------------------------------
  // Properties of the route
  // ---------------------------------------------------------------------------

  /** The cache write that follows event `e` stores the same status for the
      same timestamp, with the URL, job id or error the event carries. */
  predicate Mirror(e: Event, w: CachedVideo)
  {
    match e
    case Queued(_, t) =>
      w.timestamp == t && w.status == VideoStatus.Queued && w.videoUrl == "" && w.jobId.None? && w.error.None?
    case Processing(_, t, id) =>
      w.timestamp == t && w.status == VideoStatus.Processing && w.videoUrl == "" && w.jobId == id && w.error.None?
    case Completed(_, t, u) =>
      w.timestamp == t && w.status == VideoStatus.Completed && w.videoUrl == u && w.error.None?
    case Failed(_, t, m) =>
      w.timestamp == t && w.status == VideoStatus.Failed && w.videoUrl == "" && w.jobId.None? && w.error == Some(m)
    case StreamError(_) => false
    case Done => false
  }

  /** One cache write per event, position by position. */
  predicate Mirrors(events: seq<Event>, writes: seq<CachedVideo>)
  {
    |events| == |writes| && forall k :: 0 <= k < |events| ==> Mirror(events[k], writes[k])
  }

  predicate Terminal(e: Event)
  {
    e.Completed? || e.Failed?
  }

  /** The scene indices of the `completed` and `failed` events, in order. */
  function Terminals(events: seq<Event>): seq<nat>
  {
    if events == [] then []
    else
      var e := events[|events| - 1];
      Terminals(events[..|events| - 1]) + (if Terminal(e) then [e.index] else [])
  }

  function Range(n: nat): seq<nat>
  {
    if n == 0 then [] else Range(n - 1) + [n - 1]
  }

  lemma {:induction false} TerminalsAppend(a: seq<Event>, b: seq<Event>)
    ensures Terminals(a + b) == Terminals(a) + Terminals(b)
    decreases |b|
  {
    if b == [] {
      assert a + b == a;
    } else {
      assert (a + b)[..|a + b| - 1] == a + b[..|b| - 1];
      assert (a + b)[|a + b| - 1] == b[|b| - 1];
      TerminalsAppend(a, b[..|b| - 1]);
    }
  }

  lemma TerminalsOne(e: Event)
    ensures Terminals([e]) == (if Terminal(e) then [e.index] else [])
  {
    assert [e][..0] == [];
  }

  lemma MirrorsAppend(e1: seq<Event>, w1: seq<CachedVideo>, e2: seq<Event>, w2: seq<CachedVideo>)
    requires Mirrors(e1, w1) && Mirrors(e2, w2)
    ensures Mirrors(e1 + e2, w1 + w2)
  {
    forall k | 0 <= k < |e1| + |e2| ensures Mirror((e1 + e2)[k], (w1 + w2)[k]) {
      if k < |e1| {
        assert (e1 + e2)[k] == e1[k] && (w1 + w2)[k] == w1[k];
      } else {
        assert (e1 + e2)[k] == e2[k - |e1|] && (w1 + w2)[k] == w2[k - |w1|];
      }
    }
  }

  /** The shape every scene's trace has: it opens with `queued`; each event is
      followed by the write that mirrors it, all for the scene's timestamp;
      a hung poll leaves it at `queued`, `processing`; otherwise it ends in
      its one `completed` or `failed` event, with at most one `processing`
      between. */
  predicate Shaped(s: Trace, i: nat, t: real)
  {
    Mirrors(s.events, s.writes)
    && 0 < |s.events| && s.events[0] == Event.Queued(i, t)
    && WritesFor(s, t)
    && (s.hung ==> Terminals(s.events) == [] && |s.events| == 2 && s.events[1].Processing?)
    && (!s.hung ==> Terminals(s.events) == [i] && Terminal(s.events[|s.events| - 1])
                    && 2 <= |s.events| <= 3 && (|s.events| == 3 ==> s.events[1].Processing?))
  }

  /** A scene writes at least once, and only for its own timestamp. */
  predicate WritesFor(s: Trace, t: real)
  {
    0 < |s.writes| && forall w :: w in s.writes ==> w.timestamp == t
  }

  predicate AllShaped(scenes: seq<Trace>, prompts: seq<VideoPrompt>)
  {
    |scenes| == |prompts| && forall k :: 0 <= k < |scenes| ==> Shaped(scenes[k], k, prompts[k].timestamp)
  }

  lemma PollShape(i: nat, scene: VideoPrompt, id: Option<string>, replies: seq<Reply>, now: int)
    ensures var p := PollTrace(i, scene, id, replies, now);
      Mirrors(p.events, p.writes)
      && (forall w :: w in p.writes ==> w.timestamp == scene.timestamp)
      && (p.hung ==> p.events == [])
      && (!p.hung ==> |p.events| == 1 && Terminal(p.events[0]) && p.events[0].index == i)
  {
  }

  lemma SubmitShape(i: nat, scene: VideoPrompt, submitted: Submitted, replies: seq<Reply>, now: int)
    ensures var s := SubmitTrace(i, scene, submitted, replies, now);
      Mirrors(s.events, s.writes)
      && (forall w :: w in s.writes ==> w.timestamp == scene.timestamp)
      && (s.hung ==> Terminals(s.events) == [] && |s.events| == 1 && s.events[0].Processing?)
      && (!s.hung ==> Terminals(s.events) == [i] && 0 < |s.events| && Terminal(s.events[|s.events| - 1])
                      && |s.events| <= 2 && (|s.events| == 2 ==> s.events[0].Processing?))
  {
    var t := scene.timestamp;
    if submitted.JobId? {
      var p := PollTrace(i, scene, submitted.id, replies, now);
      var processing := Entry(scene, now, VideoStatus.Processing, "", submitted.id, None);
      PollShape(i, scene, submitted.id, replies, now);
      MirrorsAppend([Event.Processing(i, t, submitted.id)], [processing], p.events, p.writes);
      TerminalsOne(Event.Processing(i, t, submitted.id));
      TerminalsAppend([Event.Processing(i, t, submitted.id)], p.events);
      if !p.hung {
        TerminalsOne(p.events[0]);
        assert p.events == [p.events[0]];
      }
    } else {
      TerminalsOne(Event.Failed(i, t, submitted.message));
    }
  }

  /** One scene: queued, then either failed at once, or processing and then
      completed or failed; or the poll hangs after processing. */
  lemma SceneShape(i: nat, scene: VideoPrompt, job: SceneJob, now: int)
    ensures Shaped(SceneTrace(i, scene, job, now), i, scene.timestamp)
  {
    var t := scene.timestamp;
    var sub := SubmitTrace(i, scene, SubmitOutcome(job.submission), job.replies, now);
    var queued := Entry(scene, now, VideoStatus.Queued, "", None, None);
    SubmitShape(i, scene, SubmitOutcome(job.submission), job.replies, now);
    MirrorsAppend([Event.Queued(i, t)], [queued], sub.events, sub.writes);
    TerminalsOne(Event.Queued(i, t));
    TerminalsAppend([Event.Queued(i, t)], sub.events);
  }

  lemma ScenesShaped(prompts: seq<VideoPrompt>, jobs: seq<SceneJob>, now: int)
    requires |prompts| == |jobs|
    ensures AllShaped(SceneTraces(prompts, jobs, now), prompts)
  {
    var scenes := SceneTraces(prompts, jobs, now);
    forall k | 0 <= k < |scenes| ensures Shaped(scenes[k], k, prompts[k].timestamp) {
      SceneShape(k, prompts[k], jobs[k], now);
    }
  }

  /** The loop writes once per event, each write mirroring its event. */
  lemma {:induction false} ComposeMirrors(scenes: seq<Trace>, prompts: seq<VideoPrompt>, n: nat)
    requires AllShaped(scenes, prompts) && n <= |scenes|
    ensures Mirrors(Compose(scenes, n).events, Compose(scenes, n).writes)
    decreases n
  {
    if n > 0 {
      ComposeMirrors(scenes, prompts, n - 1);
      var before := Compose(scenes, n - 1);
      if !before.hung {
        assert Shaped(scenes[n - 1], n - 1, prompts[n - 1].timestamp);
        MirrorsAppend(before.events, before.writes, scenes[n - 1].events, scenes[n - 1].writes);
      }
    }
  }

  /** Unless a poll hung, each of the first `n` scenes ended in exactly one
      `completed` or `failed` event, in order: a failed scene does not stop
      the ones after it. */
  lemma {:induction false} ComposeTerminals(scenes: seq<Trace>, prompts: seq<VideoPrompt>, n: nat)
    requires AllShaped(scenes, prompts) && n <= |scenes|
    ensures !Compose(scenes, n).hung ==> Terminals(Compose(scenes, n).events) == Range(n)
    decreases n
  {
    if n > 0 {
      ComposeTerminals(scenes, prompts, n - 1);
      var before := Compose(scenes, n - 1);
      if !before.hung {
        assert Shaped(scenes[n - 1], n - 1, prompts[n - 1].timestamp);
        TerminalsAppend(before.events, scenes[n - 1].events);
      }
    }
  }

  /** Job `k` is scene `k`'s prompt with camera movement `k mod 10`, its
      image, and its duration clamped to [3, 10]. */
  lemma {:induction false} JobsAt(prompts: seq<VideoPrompt>, m: nat)
    requires m <= |prompts|
    ensures |Jobs(prompts, m)| == m
    ensures forall k :: 0 <= k < m ==> Jobs(prompts, m)[k] == JobFor(k, prompts[k])
    decreases m
  {
    if m > 0 {
      JobsAt(prompts, m - 1);
      assert forall k :: 0 <= k < m - 1 ==> Jobs(prompts, m)[k] == Jobs(prompts, m - 1)[k];
    }
  }

  /** What the stream carries. A body that does not parse, or `prompts` that
      is missing, not an array or empty, gives exactly one error event, no
      `[DONE]`, no job and no cache write. Otherwise scene `k` is submitted
      with camera movement `k mod 10` and a duration in [3, 10]; every event
      but `[DONE]` is a scene event followed by a cache write of the same
      status; and unless a poll hangs, every scene ends in one `completed` or
      `failed` event, in order, and `[DONE]` is sent once, last. */
  lemma StreamShape(req: Request, jobs: seq<SceneJob>, now: int)
    requires JobsCover(req, jobs)
    ensures var r := StreamTrace(req, jobs, now);
      var sent := StreamJobs(req, jobs, now);
      (!ValidRequest(req) ==> |r.events| == 1 && r.events[0].StreamError? && r.writes == [] && sent == [])
      && (ValidRequest(req) ==> |sent| <= |req.prompts.value|)
      && (ValidRequest(req) ==> forall k :: 0 <= k < |sent| ==>
            sent[k] == JobFor(k, req.prompts.value[k]) && 3 <= sent[k].duration <= 10)
      && (ValidRequest(req) && r.hung ==> Mirrors(r.events, r.writes))
      && (ValidRequest(req) && !r.hung ==>
            0 < |r.events| && r.events[|r.events| - 1] == Done
            && Mirrors(r.events[..|r.events| - 1], r.writes)
            && Terminals(r.events[..|r.events| - 1]) == Range(|req.prompts.value|)
            && |sent| == |req.prompts.value|)
  {
    if ValidRequest(req) {
      var ps := req.prompts.value;
      var scenes := SceneTraces(ps, jobs, now);
      ScenesShaped(ps, jobs, now);
      ComposeMirrors(scenes, ps, |ps|);
      ComposeTerminals(scenes, ps, |ps|);
      var r := RunTrace(ps, jobs, now);
      JobsAt(ps, r.reached);
      if !r.hung {
        assert (r.events + [Done])[..|r.events|] == r.events;
      }
    }
  }

  /** `[DONE]` is never a scene event, so it occurs at most once, last. */
  lemma DoneOnce(req: Request, jobs: seq<SceneJob>, now: int)
    requires JobsCover(req, jobs)
    ensures var r := StreamTrace(req, jobs, now);
      forall k :: 0 <= k < |r.events| - 1 ==> r.events[k] != Done
  {
    var r := StreamTrace(req, jobs, now);
    StreamShape(req, jobs, now);
    if ValidRequest(req) {
      forall k | 0 <= k < |r.events| - 1 ensures r.events[k] != Done {
        if r.hung {
          assert Mirror(r.events[k], r.writes[k]);
        } else {
          assert r.events[..|r.events| - 1][k] == r.events[k];
          assert Mirror(r.events[k], r.writes[k]);
        }
      }
    }
  }

  /** One more write: its own timestamp now finds it, others are unchanged. */
  lemma ApplyWritesLookupStep(stored: Option<seq<CachedVideo>>, init: seq<CachedVideo>, w: CachedVideo, t: real)
    ensures EntryAt(ExistingOrEmpty(ApplyWrites(stored, init + [w])), VideoKey, t)
      == (if w.timestamp == t then Some(w) else EntryAt(ExistingOrEmpty(ApplyWrites(stored, init)), VideoKey, t))
  {
    ApplyWritesSnoc(stored, init, w);
    UpsertLookup(ExistingOrEmpty(ApplyWrites(stored, init)), VideoKey, w, t);
  }

  /** The last write for `t` among `init + [w]`. */
  lemma LastWithSnoc(init: seq<CachedVideo>, w: CachedVideo, t: real)
    ensures HasKey(init + [w], VideoKey, t) <==> HasKey(init, VideoKey, t) || w.timestamp == t
    ensures LastWith(init + [w], VideoKey, t) == (if w.timestamp == t then Some(w) else LastWith(init, VideoKey, t))
  {
    HasKeyAppend(init, [w], VideoKey, t);
    assert HasKey([w], VideoKey, t) <==> VideoKey(w) == t by {
      assert [w][0] == w;
    }
    assert (init + [w])[..|init|] == init;
  }

  /** The stored video list after cache writes: the entry found for a
      timestamp is the last write for it, or what was stored before when no
      write was for it. */
  lemma {:induction false} ApplyWritesLookup(stored: Option<seq<CachedVideo>>, writes: seq<CachedVideo>, t: real)
    ensures EntryAt(ExistingOrEmpty(ApplyWrites(stored, writes)), VideoKey, t)
      == (if HasKey(writes, VideoKey, t) then LastWith(writes, VideoKey, t) else EntryAt(ExistingOrEmpty(stored), VideoKey, t))
    decreases |writes|
  {
    if writes != [] {
      var init := writes[..|writes| - 1];
      var w := writes[|writes| - 1];
      assert init + [w] == writes;
      ApplyWritesLookup(stored, init, t);
      ApplyWritesLookupStep(stored, init, w, t);
      LastWithSnoc(init, w, t);
    }
  }

  /** A run that did not hang did not hang on any shorter prefix. */
  lemma {:induction false} NotHungBefore(scenes: seq<Trace>, m: nat, n: nat)
    requires m <= n <= |scenes|
    requires !Compose(scenes, n).hung
    ensures !Compose(scenes, m).hung
    ensures 0 < m ==> !scenes[m - 1].hung
    decreases n - m
  {
    if m < n {
      NotHungBefore(scenes, m + 1, n);
    }
  }

  /** In writes all for timestamp `t`, the last one is the last for `t`. */
  lemma LastOfOwnWrites(ws: seq<CachedVideo>, t: real)
    requires 0 < |ws| && forall w :: w in ws ==> w.timestamp == t
    ensures LastWith(ws, VideoKey, t) == Some(ws[|ws| - 1])
  {
    assert ws[|ws| - 1] in ws;
  }

  /** Writes all for another timestamp hold no entry for `t`. */
  lemma NoOtherKey(ws: seq<CachedVideo>, u: real, t: real)
    requires u != t && forall w :: w in ws ==> w.timestamp == u
    ensures !HasKey(ws, VideoKey, t)
  {
    forall j | 0 <= j < |ws| ensures VideoKey(ws[j]) != t {
      assert ws[j] in ws;
    }
  }

  /** The last write of a run for the timestamp `t` of scene `k`, when no
      other scene writes for `t`, is the last write of scene `k`. */
  lemma {:induction false} LastWriteOfScene(scenes: seq<Trace>, n: nat, k: nat, t: real)
    requires k < n <= |scenes|
    requires WritesFor(scenes[k], t)
    requires forall j :: 0 <= j < |scenes| && j != k ==> LastWith(scenes[j].writes, VideoKey, t).None?
    requires !Compose(scenes, n).hung
    ensures LastWith(Compose(scenes, n).writes, VideoKey, t) == Some(scenes[k].writes[|scenes[k].writes| - 1])
    decreases n
  {
    var s := scenes[n - 1];
    var before := Compose(scenes, n - 1).writes;
    NotHungBefore(scenes, n - 1, n);
    assert Compose(scenes, n).writes == before + s.writes;
    if k == n - 1 {
      LastAfterOwnWrites(before, s.writes, t);
    } else {
      LastWriteOfScene(scenes, n - 1, k, t);
      LastAfterOtherWrites(before, s.writes, t);
    }
  }

  lemma LastAfterOwnWrites(before: seq<CachedVideo>, ws: seq<CachedVideo>, t: real)
    requires 0 < |ws| && forall w :: w in ws ==> w.timestamp == t
    ensures LastWith(before + ws, VideoKey, t) == Some(ws[|ws| - 1])
  {
    LastWithAppend(before, ws, VideoKey, t);
    LastOfOwnWrites(ws, t);
  }

  lemma LastAfterOtherWrites(before: seq<CachedVideo>, ws: seq<CachedVideo>, t: real)
    requires LastWith(ws, VideoKey, t).None?
    ensures LastWith(before + ws, VideoKey, t) == LastWith(before, VideoKey, t)
  {
    LastWithAppend(before, ws, VideoKey, t);
  }

  /** With one scene per timestamp, after a complete stream a reader of the
      video cache finds, for every scene, an entry whose status, URL and error
      are those of the scene's final `completed` or `failed` event. */
  lemma FinalCacheMatchesEvents(stored: Option<seq<CachedVideo>>, prompts: seq<VideoPrompt>, jobs: seq<SceneJob>,
                                now: int, k: nat)
    requires k < |prompts| == |jobs|
    requires forall j :: 0 <= j < |prompts| && j != k ==> prompts[j].timestamp != prompts[k].timestamp
    requires !RunTrace(prompts, jobs, now).hung
    ensures var s := SceneTrace(k, prompts[k], jobs[k], now);
      var e := EntryAt(ExistingOrEmpty(ApplyWrites(stored, RunTrace(prompts, jobs, now).writes)), VideoKey, prompts[k].timestamp);
      e.Some? && 0 < |s.events| && Terminal(s.events[|s.events| - 1]) && Mirror(s.events[|s.events| - 1], e.value)
  {
    var scenes := SceneTraces(prompts, jobs, now);
    var s := scenes[k];
    ScenesShaped(prompts, jobs, now);
    NotHungBefore(scenes, k + 1, |prompts|);
    assert Shaped(s, k, prompts[k].timestamp);
    var t := prompts[k].timestamp;
    forall j | 0 <= j < |scenes| && j != k ensures LastWith(scenes[j].writes, VideoKey, t).None? {
      assert Shaped(scenes[j], j, prompts[j].timestamp);
      NoOtherKey(scenes[j].writes, prompts[j].timestamp, t);
    }
    LastWriteOfScene(scenes, |prompts|, k, t);
    ApplyWritesLookup(stored, Compose(scenes, |prompts|).writes, prompts[k].timestamp);
    assert Mirror(s.events[|s.events| - 1], s.writes[|s.writes| - 1]);
  }
}
