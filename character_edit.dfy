// The character-edit route: a scene image and a character image (a base64
// data URL) are blended by the provider's edit model; on success the scene's
// original image is saved for revert and the image cache entry for the scene
// is replaced by the edited image.

module CharacterEdit {
  import opened Common
  import opened Text
  import opened Provider
  import opened SceneCache

  const MaxAttempts := 30

  // ---------------------------------------------------------------------------
  // The data URL of the character image
  // ---------------------------------------------------------------------------

  /** The parts the route reads from `data:<mime>;base64,<data>`. */
  datatype DataUrl = DataUrl(mimeType: string, data: string)

  /** The characters of the pattern's media-type class `[A-Za-z-+/]`. */
  predicate MimeChar(c: char)
  {
    ('A' <= c <= 'Z') || ('a' <= c <= 'z') || c == '-' || c == '+' || c == '/'
  }

  /** The characters `.` does not match. */
  predicate LineTerminator(c: char)
  {
    c == '\n' || c == '\r' || c == '\U{2028}' || c == '\U{2029}'
  }

  /** What `^data:([A-Za-z-+/]+);base64,(.+)$` accepts: a non-empty media type
      from the class and a non-empty payload without line terminators. */
  predicate WellFormed(d: DataUrl)
  {
    |d.mimeType| > 0 && (forall i :: 0 <= i < |d.mimeType| ==> MimeChar(d.mimeType[i]))
    && |d.data| > 0 && (forall i :: 0 <= i < |d.data| ==> !LineTerminator(d.data[i]))
  }

  function FormatDataUrl(d: DataUrl): string
  {
    "data:" + d.mimeType + ";base64," + d.data
  }

  /** The length of the longest prefix of `s` made of media-type characters. */
  function MimeSpan(s: string): (n: nat)
    ensures n <= |s|
    ensures forall i :: 0 <= i < n ==> MimeChar(s[i])
    ensures n < |s| ==> !MimeChar(s[n])
  {
    if s == [] || !MimeChar(s[0]) then 0 else 1 + MimeSpan(s[1..])
  }

  /** The match of the character image against the pattern, or `null`. Since
      `;` is not a media-type character, the media type ends at the first
      character outside the class. */
  function ParseDataUrl(s: string): Option<DataUrl>
  {
    if !StartsWith(s, "data:") then None
    else
      var rest := s[5..];
      var n := MimeSpan(rest);
      var after := rest[n..];
      if n == 0 || !StartsWith(after, ";base64,") then None
      else
        var data := after[8..];
        if |data| == 0 || exists i :: 0 <= i < |data| && LineTerminator(data[i]) then None
        else Some(DataUrl(rest[..n], data))
  }

  lemma MimeSpanOf(m: string, t: string)
    requires forall i :: 0 <= i < |m| ==> MimeChar(m[i])
    requires |t| > 0 && !MimeChar(t[0])
    ensures MimeSpan(m + t) == |m|
  {
    if m != [] {
      assert (m + t)[1..] == m[1..] + t;
      MimeSpanOf(m[1..], t);
    } else {
      assert m + t == t;
    }
  }

  /** Every well-formed data URL is accepted, with its own parts. */
  lemma ParseFormat(d: DataUrl)
    requires WellFormed(d)
    ensures ParseDataUrl(FormatDataUrl(d)) == Some(d)
  {
    var s := FormatDataUrl(d);
    assert s[..5] == "data:";
    var rest := s[5..];
    assert rest == d.mimeType + (";base64," + d.data);
    MimeSpanOf(d.mimeType, ";base64," + d.data);
    assert rest[|d.mimeType|..] == ";base64," + d.data;
    assert (";base64," + d.data)[..8] == ";base64,";
    assert (";base64," + d.data)[8..] == d.data;
    assert rest[..|d.mimeType|] == d.mimeType;
  }

  /** Everything accepted is a well-formed data URL, written back exactly. */
  lemma FormatParse(s: string)
    requires ParseDataUrl(s).Some?
    ensures WellFormed(ParseDataUrl(s).value)
    ensures FormatDataUrl(ParseDataUrl(s).value) == s
  {
    var rest := s[5..];
    var n := MimeSpan(rest);
    var after := rest[n..];
    var d := ParseDataUrl(s).value;
    assert d.mimeType == rest[..n] && d.data == after[8..];
    assert s == s[..5] + rest;
    assert rest == rest[..n] + after;
    assert after == after[..8] + after[8..];
    assert after[..8] == ";base64,";
    assert s[..5] == "data:";
  }

  // ---------------------------------------------------------------------------
  // The edit poller
  // ---------------------------------------------------------------------------

  /** What one status check of the edit poller decides. A 429 waits 5 s and
      moves on without an error; every other failure is an error. */
  datatype Check = Found(url: string) | Failure(message: string) | RateLimited | Pending

  datatype Poll =
    | Succeeded(url: string, checks: nat, waitedMs: int)
    | Threw(message: string, checks: nat, waitedMs: int)
    | Stalled(checks: nat, waitedMs: int)

  const NoImageUrlMessage := "Job completed but no image URL found"

  function StatusFailedMessage(code: int): string
  {
    "Status check failed: " + IntToString(code)
  }

  function JobFailedMessage(error: Option<string>): string
  {
    "Job failed: " + (if Truthy(error) then error.value else "Unknown error")
  }

  function TimedOutMessage(jobId: string): string
  {
    "Job " + jobId + " timed out after 30 attempts"
  }

  /** The verdict of one reply. The content type is not looked at: a payload
      that does not parse throws. */
  function CheckOf(reply: Reply): (c: Check)
    ensures c.Found? ==> (reply.Response? && IsOk(reply.code) && reply.payload.Status?
                          && reply.payload.status == "COMPLETED" && ImageUrlOf(reply.payload.output) == Some(c.url))
    ensures c.RateLimited? <==> reply.Response? && reply.code == 429
    ensures c.Pending? <==> (reply.Response? && IsOk(reply.code) && reply.payload.Status?
                             && reply.payload.status != "COMPLETED" && reply.payload.status != "FAILED")
  {
    match reply
    case NetworkError(m) => Failure(m)
    case Response(code, _, _, payload) =>
      if !IsOk(code) then (if code == 429 then RateLimited else Failure(StatusFailedMessage(code)))
      else
        match payload
        case Unparsable(m) => Failure(m)
        case Status(status, output, _, error) =>
          if status == "COMPLETED" then
            (match ImageUrlOf(output) case Some(u) => Found(u) case None => Failure(NoImageUrlMessage))
          else if status == "FAILED" then Failure(JobFailedMessage(error))
          else Pending
  }

  /** The poll from attempt `attempt` (counted from 1) on. An error is
      swallowed unless it happens on the last attempt. */
  function PollFrom(script: seq<Reply>, jobId: string, attempt: nat, waited: int): Poll
    requires 1 <= attempt <= MaxAttempts + 1
    decreases MaxAttempts + 1 - attempt
  {
    if attempt > MaxAttempts then Threw(TimedOutMessage(jobId), MaxAttempts, waited)
    else if attempt > |script| then Stalled(attempt - 1, waited)
    else
      match CheckOf(script[attempt - 1])
      case Found(u) => Succeeded(u, attempt, waited)
      case Failure(m) => if attempt == MaxAttempts then Threw(m, attempt, waited) else PollFrom(script, jobId, attempt + 1, waited)
      case RateLimited => PollFrom(script, jobId, attempt + 1, waited + 5000)
      case Pending => PollFrom(script, jobId, attempt + 1, waited + 3000)
  }

  function PollOf(script: seq<Reply>, jobId: string): Poll
  {
    PollFrom(script, jobId, 1, 0)
  }

  /** `pollJobStatus` of the edit route. */
  method PollJobStatus(script: seq<Reply>, jobId: string) returns (r: Poll)
    ensures r == PollOf(script, jobId)
  {
    var attempt := 1;
    var waited := 0;
    while attempt <= MaxAttempts
      invariant 1 <= attempt <= MaxAttempts + 1
      invariant PollFrom(script, jobId, attempt, waited) == PollOf(script, jobId)
      decreases MaxAttempts + 1 - attempt
    {
      if attempt > |script| {
        return Stalled(attempt - 1, waited);
      }
      // `error` is what the attempt throws, if anything.
      var error: Option<string> := None;
      match script[attempt - 1] {
        case NetworkError(m) =>
          error := Some(m);
        case Response(code, _, _, payload) =>
          if !IsOk(code) {
            if code == 429 {
              waited := waited + 5000;
            } else {
              error := Some(StatusFailedMessage(code));
            }
          } else {
            match payload {
              case Unparsable(m) =>
                error := Some(m);
              case Status(status, output, _, jobError) =>
                if status == "COMPLETED" {
                  var imageUrl := ImageUrlOf(output);
                  if imageUrl.Some? {
                    return Succeeded(imageUrl.value, attempt, waited);
                  }
                  error := Some(NoImageUrlMessage);
                } else if status == "FAILED" {
                  error := Some(JobFailedMessage(jobError));
                } else {
                  waited := waited + 3000;
                }
            }
          }
      }
      if error.Some? && attempt == MaxAttempts {
        return Threw(error.value, attempt, waited);
      }
      attempt := attempt + 1;
    }
    return Threw(TimedOutMessage(jobId), MaxAttempts, waited);
  }

  /** No reply in `[lo, hi)` carries a URL. */
  predicate NoneFound(script: seq<Reply>, lo: nat, hi: nat)
    requires hi <= |script|
  {
    forall k :: lo <= k < hi ==> !CheckOf(script[k]).Found?
  }

  lemma {:induction false} FoundFrom(script: seq<Reply>, jobId: string, attempt: nat, waited: int, n: nat)
    requires 1 <= attempt <= n + 1 && n < MaxAttempts && n < |script|
    requires NoneFound(script, attempt - 1, n) && CheckOf(script[n]).Found?
    ensures PollFrom(script, jobId, attempt, waited) == Succeeded(CheckOf(script[n]).url, n + 1, PollFrom(script, jobId, attempt, waited).waitedMs)
    decreases n + 1 - attempt
  {
    if attempt < n + 1 {
      var c := CheckOf(script[attempt - 1]);
      var w := if c.RateLimited? then waited + 5000 else if c.Pending? then waited + 3000 else waited;
      FoundFrom(script, jobId, attempt + 1, w, n);
    }
  }

  lemma {:induction false} NotFoundFrom(script: seq<Reply>, jobId: string, attempt: nat, waited: int)
    requires 1 <= attempt <= MaxAttempts && |script| >= MaxAttempts
    requires NoneFound(script, attempt - 1, MaxAttempts)
    ensures PollFrom(script, jobId, attempt, waited).Threw?
    ensures PollFrom(script, jobId, attempt, waited).checks == MaxAttempts
    ensures PollFrom(script, jobId, attempt, waited).message == LastAttemptMessage(script, jobId)
    decreases MaxAttempts + 1 - attempt
  {
    if attempt < MaxAttempts {
      var c := CheckOf(script[attempt - 1]);
      var w := if c.RateLimited? then waited + 5000 else if c.Pending? then waited + 3000 else waited;
      NotFoundFrom(script, jobId, attempt + 1, w);
    }
  }

  /** What the poll throws when none of 30 replies carries a URL: the last
      attempt's error, or the time-out error. */
  function LastAttemptMessage(script: seq<Reply>, jobId: string): string
    requires |script| >= MaxAttempts
  {
    match CheckOf(script[MaxAttempts - 1])
    case Failure(m) => m
    case _ => TimedOutMessage(jobId)
  }

  /** The edit poll succeeds with the first URL among the first 30 replies,
      whatever errors came before it: they are all swallowed. When none of
      30 replies carries a URL, the poll throws the last attempt's error, or
      the time-out error when the last attempt was pending or rate limited. */
  lemma PollCharacterised(script: seq<Reply>, jobId: string, n: nat)
    requires n <= MinInt(MaxAttempts, |script|) && NoneFound(script, 0, n)
    ensures n < MinInt(MaxAttempts, |script|) && CheckOf(script[n]).Found? ==>
      PollOf(script, jobId).Succeeded? && PollOf(script, jobId).url == CheckOf(script[n]).url
      && PollOf(script, jobId).checks == n + 1
    ensures n == MaxAttempts ==> PollOf(script, jobId).Threw?
    ensures n == MaxAttempts ==> PollOf(script, jobId).message == LastAttemptMessage(script, jobId)
  {
    if n < MinInt(MaxAttempts, |script|) && CheckOf(script[n]).Found? {
      FoundFrom(script, jobId, 1, 0, n);
    }
    if n == MaxAttempts {
      NotFoundFrom(script, jobId, 1, 0);
    }
  }

  /** There is no sleep before the first check. */
  lemma NoSleepBeforeFirstCheck(script: seq<Reply>, jobId: string)
    requires |script| > 0 && CheckOf(script[0]).Found?
    ensures PollOf(script, jobId).Succeeded? && PollOf(script, jobId).waitedMs == 0
  {
  }

  // ---------------------------------------------------------------------------
  // The route
  // ---------------------------------------------------------------------------

  /** The request body: it does not parse (the message of the thrown error),
      or its fields. The image URL, the character image and the prompt may be
      missing; the timestamp is taken as present, since the route never checks
      it and only passes it on to the cache. */
  datatype Request =
    | Unreadable(message: string)
    | EditRequest(sceneImageUrl: Option<string>, characterImageBase64: Option<string>,
                  prompt: Option<string>, timestamp: real)

  /** The outcome of the blob upload of the character image. */
  datatype Upload = Uploaded(url: string) | UploadThrew(message: string)

  /** The route's answer: the edited image, an error with its HTTP status, or
      no answer because the provider stopped answering the poller. */
  datatype Response = Edited(imageUrl: string) | Error(status: int, message: string) | Hung

  function JobIdText(id: Option<string>): string
  {
    if id.Some? then id.value else "undefined"
  }

  /** The fixed text around the user's prompt in the job sent to the
      provider. */
  const BlendOpening := "Seamlessly blend the person from the second image into the Berlin nightlife scene from the first image. "
  const BlendClosing := " The person should appear naturally integrated with proper lighting matching the neon-lit environment, correct perspective and scale, realistic shadows and reflections, and consistent with the moody cinematic atmosphere of the Berlin street scene. Make it look like they were originally part of this photo."

  /** The `input` of the job `POST` submits. */
  datatype EditJob = EditJob(prompt: string, images: seq<string>, size: string, enableSafetyChecker: bool)

  /** The job for a scene image, the uploaded character image and the
      user's prompt. */
  function EditJobOf(sceneImageUrl: string, characterImageUrl: string, prompt: string): EditJob
  {
    EditJob(BlendOpening + prompt + BlendClosing, [sceneImageUrl, characterImageUrl], "1024x1024", true)
  }

  /** The job `POST` submits: none unless the fields are present, the data
      URL parses and the upload succeeded. */
  function SubmittedJob(req: Request, upload: Upload): Option<EditJob>
  {
    match req
    case Unreadable(_) => None
    case EditRequest(scene, character, prompt, _) =>
      if !Truthy(scene) || !Truthy(character) || !Truthy(prompt) || ParseDataUrl(character.value).None? then None
      else
        match upload
        case UploadThrew(_) => None
        case Uploaded(url) => Some(EditJobOf(scene.value, url, prompt.value))
  }

  /** The middle of `a + m + b` is `m`. */
  lemma Middle(a: string, m: string, b: string)
    ensures (a + m + b)[|a|..|a| + |m|] == m
  {
    assert a + m + b == a + (m + b);
    assert (a + (m + b))[|a|..] == m + b;
    assert (m + b)[..|m|] == m;
  }

  /** The user's prompt sits whole between the fixed opening and closing, so
      two different prompts never yield the same job. */
  lemma BlendKeepsPrompt(sceneImageUrl: string, characterImageUrl: string, p1: string, p2: string)
    ensures EditJobOf(sceneImageUrl, characterImageUrl, p1).prompt[|BlendOpening|..|BlendOpening| + |p1|] == p1
    ensures EditJobOf(sceneImageUrl, characterImageUrl, p1) == EditJobOf(sceneImageUrl, characterImageUrl, p2) ==> p1 == p2
  {
    var a, b := BlendOpening, BlendClosing;
    Middle(a, p1, b);
    Middle(a, p2, b);
    if a + p1 + b == a + p2 + b {
      assert |p1| == |p2|;
    }
  }

  /** Without a submitted job the provider cannot change the answer; an
      edited image always comes from a job that blends the scene image
      (first) with the uploaded character image (second), at 1024x1024 with
      the safety checker on. */
  lemma ProviderOnlyAfterSubmission(req: Request, upload: Upload, s1: Submission, p1: seq<Reply>,
                                    s2: Submission, p2: seq<Reply>)
    ensures SubmittedJob(req, upload).None? ==> EditResponse(req, upload, s1, p1) == EditResponse(req, upload, s2, p2)
    ensures EditResponse(req, upload, s1, p1).Edited? ==>
      SubmittedJob(req, upload).Some?
      && SubmittedJob(req, upload).value.images == [req.sceneImageUrl.value, upload.url]
      && SubmittedJob(req, upload).value.size == "1024x1024"
      && SubmittedJob(req, upload).value.enableSafetyChecker
      && SubmittedJob(req, upload).value.prompt == BlendOpening + req.prompt.value + BlendClosing
  {
  }

  /** The answer `POST` gives, stage by stage. */
  function EditResponse(req: Request, upload: Upload, submission: Submission, script: seq<Reply>): Response
  {
    match req
    case Unreadable(m) => Error(500, m)
    case EditRequest(scene, character, prompt, _) =>
      if !Truthy(scene) || !Truthy(character) || !Truthy(prompt) then Error(400, "Missing required fields")
      else if ParseDataUrl(character.value).None? then Error(500, "Invalid base64 data URL")
      else
        match upload
        case UploadThrew(m) => Error(500, m)
        case Uploaded(_) =>
          match submission
          case SubmitThrew(m) => Error(500, m)
          case SubmitResponse(code, _, created) =>
            if !IsOk(code) then Error(500, "RunPod API error: " + IntToString(code))
            else
              match created
              case CreatedUnparsable(m) => Error(500, m)
              case JobCreated(id) =>
                match PollOf(script, JobIdText(id))
                case Succeeded(u, _, _) => Edited(u)
                case Threw(m, _, _) => Error(500, m)
                case Stalled(_, _) => Hung
  }

  /** A request missing the scene image, the character image or the prompt is
      refused with 400 whatever the upload, the provider and the poller would
      have done: nothing is uploaded or submitted. The timestamp is not
      checked. */
  lemma MissingFieldsRefused(req: Request, u1: Upload, s1: Submission, p1: seq<Reply>,
                             u2: Upload, s2: Submission, p2: seq<Reply>)
    requires req.EditRequest?
    requires !Truthy(req.sceneImageUrl) || !Truthy(req.characterImageBase64) || !Truthy(req.prompt)
    ensures EditResponse(req, u1, s1, p1) == EditResponse(req, u2, s2, p2) == Error(400, "Missing required fields")
  {
  }

  /** An edited image is only ever answered for a well-formed character data
      URL, and it is the URL the poller found. */
  lemma EditedOnlyForDataUrl(req: Request, upload: Upload, submission: Submission, script: seq<Reply>)
    requires EditResponse(req, upload, submission, script).Edited?
    ensures req.EditRequest? && Truthy(req.sceneImageUrl) && Truthy(req.prompt)
    ensures Truthy(req.characterImageBase64) && WellFormed(ParseDataUrl(req.characterImageBase64.value).value)
    ensures upload.Uploaded? && submission.SubmitResponse? && IsOk(submission.code)
    ensures submission.created.JobCreated?
    ensures PollOf(script, JobIdText(submission.created.id)).Succeeded?
    ensures EditResponse(req, upload, submission, script).imageUrl == PollOf(script, JobIdText(submission.created.id)).url
  {
    FormatParse(req.characterImageBase64.value);
  }

  /** `POST`: on success the original is saved as (timestamp, scene image,
      edited image), unconditionally overwriting an earlier one, and then the
      image entry for the timestamp is upserted to the edited image. Any
      failure leaves the store as it was. */
  method RegenerateWithCharacter(store: Store, req: Request, upload: Upload, submission: Submission,
                                 script: seq<Reply>, now: int)
    returns (resp: Response, job: Option<EditJob>)
    modifies store
    ensures resp == EditResponse(req, upload, submission, script)
    ensures job == SubmittedJob(req, upload)
    ensures resp.Edited? ==>
      store.originals == old(store.originals)[req.timestamp :=
        OriginalImage(req.timestamp, req.sceneImageUrl.value, resp.imageUrl, now)]
      && store.images == Some(Upsert(ExistingOrEmpty(old(store.images)), ImageKey,
        CachedImage(resp.imageUrl, req.prompt.value, req.timestamp, now)))
    ensures !resp.Edited? ==> store.originals == old(store.originals) && store.images == old(store.images)
    ensures store.storyboard == old(store.storyboard) && store.videos == old(store.videos)
    ensures store.stitched == old(store.stitched)
  {
    job := None;
    if req.Unreadable? {
      return Error(500, req.message), job;
    }
    var scene, character, prompt := req.sceneImageUrl, req.characterImageBase64, req.prompt;
    if !Truthy(scene) || !Truthy(character) || !Truthy(prompt) {
      return Error(400, "Missing required fields"), job;
    }
    var parsed := ParseDataUrl(character.value);
    if parsed.None? {
      return Error(500, "Invalid base64 data URL"), job;
    }
    if upload.UploadThrew? {
      return Error(500, upload.message), job;
    }
    job := Some(EditJobOf(scene.value, upload.url, prompt.value));
    if submission.SubmitThrew? {
      return Error(500, submission.message), job;
    }
    if !IsOk(submission.code) {
      return Error(500, "RunPod API error: " + IntToString(submission.code)), job;
    }
    if submission.created.CreatedUnparsable? {
      return Error(500, submission.created.message), job;
    }
    var polled := PollJobStatus(script, JobIdText(submission.created.id));
    match polled {
      case Succeeded(imageUrl, _, _) =>
        var _ := store.SaveOriginalImage(req.timestamp, scene.value, imageUrl, now, true);
        var _ := store.CacheGeneratedImage(req.timestamp, prompt.value, imageUrl, now, true, true);
        resp := Edited(imageUrl);
      case Threw(m, _, _) =>
        resp := Error(500, m);
      case Stalled(_, _) =>
        resp := Hung;
    }
  }
}
