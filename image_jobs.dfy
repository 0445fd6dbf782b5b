// What the two image routes do with one scene they send to the provider:
// submit the job, read its id, then poll it. Both routes carry the same steps
// and the same error texts; they differ only in their copy of the poller.

module ImageJobs {
  import opened Common
  import opened Provider
  import opened ImagePolling

  const FailedMessage := "Failed to generate image"
  const NoJobIdMessage := "No job ID in response"
  const ApiErrorPrefix := "RunPod API error: "

  datatype ImagePrompt = ImagePrompt(timestamp: real, prompt: string)

  /** The request body of both routes: it does not parse, or its `prompts`,
      missing or not an array (`None`). */
  datatype Request = Unreadable | ImageRequest(prompts: Option<seq<ImagePrompt>>)

  /** A request both routes accept: an empty array is accepted too. */
  predicate ValidRequest(req: Request)
  {
    req.ImageRequest? && req.prompts.Some?
  }

  /** What the provider answers for one scene: the submission, then the
      status replies its poller reads. */
  datatype SceneJob = SceneJob(submission: Submission, replies: seq<Reply>)

  /** There is one provider answer per prompt of an accepted request. */
  predicate JobsCover(req: Request, jobs: seq<SceneJob>)
  {
    ValidRequest(req) ==> |jobs| == |req.prompts.value|
  }

  /** How a scene sent to the provider ends: refused with the error the
      route reports, polled to a URL or to `null`, or hung in a poll the
      provider stopped answering. */
  datatype JobOutcome = Refused(error: string) | Polled(url: Option<string>) | Hung

  /** An OK reply to the submission whose payload parses. */
  predicate AcceptedSubmission(s: Submission)
  {
    s.SubmitResponse? && IsOk(s.code) && s.created.JobCreated?
  }

  /** The outcome of one scene's job. A refused submission reports its body,
      an unparsable one or a thrown request the thrown message, a missing or
      empty job id its own error; a job with an id is polled. */
  function OutcomeOf(job: SceneJob, v: Variant): JobOutcome
  {
    match job.submission
    case SubmitThrew(m) => Refused(m)
    case SubmitResponse(code, text, created) =>
      if !IsOk(code) then Refused(ApiErrorPrefix + text)
      else
        match created
        case CreatedUnparsable(m) => Refused(m)
        case JobCreated(id) =>
          if !Truthy(id) then Refused(NoJobIdMessage)
          else
            match PollOf(job.replies, v)
            case Finished(u, _, _) => Polled(u)
            case Stalled(_, _) => Hung
  }

  /** The `imageUrl` a finished scene reports. */
  function ReportedUrl(o: JobOutcome): Option<string>
  {
    if o.Polled? then o.url else None
  }

  /** The `error` a finished scene reports: a polled scene reports one only
      when its URL is falsy. */
  function ReportedError(o: JobOutcome): Option<string>
  {
    match o
    case Refused(m) => Some(m)
    case Polled(u) => if Truthy(u) then None else Some(FailedMessage)
    case Hung => None
  }

  /** The submission and poll of one scene, as both routes write them. */
  method RunJob(job: SceneJob, v: Variant) returns (o: JobOutcome)
    ensures o == OutcomeOf(job, v)
  {
    match job.submission {
      case SubmitThrew(m) =>
        return Refused(m);
      case SubmitResponse(code, text, created) =>
        if !IsOk(code) {
          return Refused(ApiErrorPrefix + text);
        }
        match created {
          case CreatedUnparsable(m) =>
            return Refused(m);
          case JobCreated(id) =>
            if !Truthy(id) {
              return Refused(NoJobIdMessage);
            }
            var imageUrl := PollJobStatus(job.replies, v);
            o := if imageUrl.Finished? then Polled(imageUrl.url) else Hung;
        }
    }
  }

  /** Every scene that finishes reports exactly one of a URL and an error,
      and a reported URL is never empty. */
  lemma ReportConsistent(job: SceneJob, v: Variant)
    requires !OutcomeOf(job, v).Hung?
    ensures var o := OutcomeOf(job, v);
      (ReportedError(o).None? <==> ReportedUrl(o).Some?) && (ReportedUrl(o).Some? ==> ReportedUrl(o).value != "")
  {
    PollUrlNonEmpty(job.replies, v);
  }

  /** The error labels: a refused submission reports "RunPod API error: "
      and its body, an OK reply without a job id reports "No job ID in
      response", and a poll that returns `null` reports "Failed to generate
      image". A URL the poll returns is reported as it is. */
  lemma ErrorLabels(job: SceneJob, v: Variant)
    ensures job.submission.SubmitResponse? && !IsOk(job.submission.code) ==>
      ReportedError(OutcomeOf(job, v)) == Some(ApiErrorPrefix + job.submission.text)
    ensures AcceptedSubmission(job.submission) && !Truthy(job.submission.created.id) ==>
      ReportedError(OutcomeOf(job, v)) == Some(NoJobIdMessage)
    ensures OutcomeOf(job, v) == Polled(None) ==> ReportedError(OutcomeOf(job, v)) == Some(FailedMessage)
    ensures OutcomeOf(job, v).Polled? ==>
      AcceptedSubmission(job.submission) && Truthy(job.submission.created.id)
      && PollOf(job.replies, v).Finished? && ReportedUrl(OutcomeOf(job, v)) == PollOf(job.replies, v).url
  {
  }

  /** A scene never hangs before its job was accepted with an id: only the
      poll can hang, and only when the provider stops answering before 30
      replies. */
  lemma HangsOnlyInPoll(job: SceneJob, v: Variant)
    ensures OutcomeOf(job, v).Hung? ==>
      AcceptedSubmission(job.submission) && Truthy(job.submission.created.id) && |job.replies| < MaxAttempts
  {
    ChecksBounded(job.replies, v);
    if OutcomeOf(job, v).Hung? {
      HungPollIsShort(job.replies, v);
    }
  }

  /** The two copies of the poller differ only in how long they wait, so a
      scene ends the same way in both routes. */
  lemma VariantsSameOutcome(job: SceneJob)
    ensures OutcomeOf(job, Streaming) == OutcomeOf(job, Batch)
  {
    VariantsAgree(job.replies);
  }
}
