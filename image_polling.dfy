// The status poller of the two image routes (`pollJobStatus` with its default
// of 30 attempts). The streaming and the non-streaming route carry the same
// loop; they differ only in when a refused check counts as rate limited,
// which changes how long the poller waits but never what it returns.

module ImagePolling {
  import opened Common
  import opened Text
  import opened Provider

  const MaxAttempts := 30

  /** Which route's copy of the poller: the non-streaming one also treats a
      body mentioning "Too Many" as a rate limit. */
  datatype Variant = Streaming | Batch

  /** What one status check decides: a URL was found, the job is given up
      (`null` at once), or the poller tries again. */
  datatype Check = Found(url: string) | GiveUp | Again

  /** The outcome of a poll: finished after `checks` status requests having
      waited `waitedMs` in total, or stalled because the provider stopped
      answering. */
  datatype Poll =
    | Finished(url: Option<string>, checks: nat, waitedMs: int)
    | Stalled(checks: nat, waitedMs: int)

  predicate RateLimited(v: Variant, code: int, text: string)
  {
    code == 429 || (v == Batch && Includes(text, "Too Many"))
  }

  /** An OK JSON response whose payload parses. */
  predicate Accepted(reply: Reply)
  {
    reply.Response? && IsOk(reply.code) && reply.isJson && reply.payload.Status?
  }

  /** The verdict of one reply: a refused or non-JSON response, a thrown
      request or an unparsable payload is tried again; FAILED, or COMPLETED
      with no URL in the fallback chain, gives up. */
  function CheckOf(reply: Reply): Check
  {
    match reply
    case NetworkError(_) => Again
    case Response(code, isJson, text, payload) =>
      if !IsOk(code) || !isJson then Again
      else
        match payload
        case Unparsable(_) => Again
        case Status(status, output, _, _) =>
          if status == "COMPLETED" then
            (match ImageUrlOf(output) case Some(u) => Found(u) case None => GiveUp)
          else if status == "FAILED" then GiveUp
          else Again
  }

  /** A URL is found only in a completed job's output; a job is given up
      exactly when it failed or completed without a URL. */
  lemma CheckVerdicts(reply: Reply)
    ensures CheckOf(reply).Found? ==> (Accepted(reply) && reply.payload.status == "COMPLETED"
                                       && ImageUrlOf(reply.payload.output) == Some(CheckOf(reply).url))
    ensures CheckOf(reply).GiveUp? <==> (Accepted(reply) && ((reply.payload.status == "COMPLETED" && ImageUrlOf(reply.payload.output).None?)
                                                             || reply.payload.status == "FAILED"))
  {
  }

  /** The wait after a check that is tried again: 3 s after a thrown request
      or payload, 5 s after a rate-limited refusal, nothing otherwise. */
  function DelayAfter(reply: Reply, v: Variant): int
  {
    match reply
    case NetworkError(_) => 3000
    case Response(code, isJson, text, payload) =>
      if !IsOk(code) || !isJson then (if RateLimited(v, code, text) then 5000 else 0)
      else if payload.Unparsable? then 3000
      else 0
  }

  function Verdict(c: Check): Option<string>
  {
    if c.Found? then Some(c.url) else None
  }

  /** The sleep before an attempt: none before the first, 3 s before every
      later one. */
  function Pause(attempt: nat): int
  {
    if attempt > 0 then 3000 else 0
  }

  /** The verdict of every reply, in order. */
  function Checks(script: seq<Reply>): (cs: seq<Check>)
    ensures |cs| == |script|
  {
    seq(|script|, k requires 0 <= k < |script| => CheckOf(script[k]))
  }

  /** The wait after every reply, in order. */
  function Delays(script: seq<Reply>, v: Variant): (ds: seq<int>)
    ensures |ds| == |script|
  {
    seq(|script|, k requires 0 <= k < |script| => DelayAfter(script[k], v))
  }

  /** The poll from attempt `attempt` on, having waited `waited` so far, given
      the verdict `cs[k]` of the reply to attempt `k` and the wait `ds[k]` it
      causes. Each attempt after the first sleeps 3 s before its request. */
  function PollWith(cs: seq<Check>, ds: seq<int>, attempt: nat, waited: int): Poll
    requires attempt <= MaxAttempts && |ds| == |cs|
    decreases MaxAttempts - attempt
  {
    if attempt == MaxAttempts then Finished(None, MaxAttempts, waited)
    else
      var before := Pause(attempt);
      if attempt >= |cs| then Stalled(attempt, waited + before)
      else if cs[attempt].Again? then PollWith(cs, ds, attempt + 1, waited + before + ds[attempt])
      else Finished(Verdict(cs[attempt]), attempt + 1, waited + before)
  }

  function PollOf(script: seq<Reply>, v: Variant): Poll
  {
    PollWith(Checks(script), Delays(script, v), 0, 0)
  }

  /** The handling of one reply inside the loop: what it decides and how long
      the poller then waits. */
  method HandleReply(reply: Reply, v: Variant) returns (c: Check, delay: int)
    ensures c == CheckOf(reply) && delay == DelayAfter(reply, v)
  {
    c, delay := Again, 0;
    match reply {
      case NetworkError(_) =>
        delay := 3000;
      case Response(code, isJson, text, payload) =>
        if !IsOk(code) || !isJson {
          if RateLimited(v, code, text) {
            delay := 5000;
          }
        } else {
          match payload {
            case Unparsable(_) =>
              delay := 3000;
            case Status(status, output, _, _) =>
              if status == "COMPLETED" {
                var imageUrl := ImageUrlOf(output);
                c := if imageUrl.Some? then Found(imageUrl.value) else GiveUp;
              } else if status == "FAILED" {
                c := GiveUp;
              }
          }
        }
    }
  }

  /** One attempt of the poll: it stalls when no reply comes, is decided by a
      reply not tried again, and otherwise goes on with the next attempt. */
  lemma PollStep(cs: seq<Check>, ds: seq<int>, attempt: nat, waited: int)
    requires attempt < MaxAttempts && |ds| == |cs|
    ensures attempt >= |cs| ==> PollWith(cs, ds, attempt, waited) == Stalled(attempt, waited + Pause(attempt))
    ensures attempt < |cs| && !cs[attempt].Again? ==>
      PollWith(cs, ds, attempt, waited) == Finished(Verdict(cs[attempt]), attempt + 1, waited + Pause(attempt))
    ensures attempt < |cs| && cs[attempt].Again? ==>
      PollWith(cs, ds, attempt, waited) == PollWith(cs, ds, attempt + 1, waited + Pause(attempt) + ds[attempt])
  {
  }

  /** `pollJobStatus` of the image routes. */
  method PollJobStatus(script: seq<Reply>, v: Variant) returns (r: Poll)
    ensures r == PollOf(script, v)
  {
    ghost var cs, ds := Checks(script), Delays(script, v);
    var attempt := 0;
    var waited := 0;
    while attempt < MaxAttempts
      invariant 0 <= attempt <= MaxAttempts
      invariant PollWith(cs, ds, attempt, waited) == PollWith(cs, ds, 0, 0)
      decreases MaxAttempts - attempt
    {
      PollStep(cs, ds, attempt, waited);
      // the sleep before every attempt but the first
      var slept := waited + Pause(attempt);
      if attempt >= |script| {
        return Stalled(attempt, slept);
      }
      var c, delay := HandleReply(script[attempt], v);
      assert c == cs[attempt] && delay == ds[attempt];
      if !c.Again? {
        return Finished(Verdict(c), attempt + 1, slept);
      }
      waited := slept + delay;
      attempt := attempt + 1;
    }
    return Finished(None, MaxAttempts, waited);
  }

  // ---------------------------------------------------------------------------
  // Properties of the poll

  /** The verdicts of attempts `lo .. n-1` are all to try again. */
  predicate AllAgain(cs: seq<Check>, lo: nat, n: nat)
    requires n <= |cs|
  {
    forall k :: lo <= k < n ==> cs[k].Again?
  }

  lemma {:induction false} DecidedFrom(cs: seq<Check>, ds: seq<int>, attempt: nat, waited: int, n: nat)
    requires |ds| == |cs| && attempt <= n < MaxAttempts && n < |cs|
    requires AllAgain(cs, attempt, n) && !cs[n].Again?
    ensures PollWith(cs, ds, attempt, waited).Finished?
    ensures PollWith(cs, ds, attempt, waited).url == Verdict(cs[n])
    ensures PollWith(cs, ds, attempt, waited).checks == n + 1
    decreases n - attempt
  {
    if attempt < n {
      DecidedFrom(cs, ds, attempt + 1, waited + Pause(attempt) + ds[attempt], n);
    }
  }

  lemma {:induction false} UndecidedFrom(cs: seq<Check>, ds: seq<int>, attempt: nat, waited: int)
    requires |ds| == |cs| && attempt <= MaxAttempts
    requires AllAgain(cs, attempt, MinInt(MaxAttempts, |cs|))
    ensures |cs| >= MaxAttempts ==> PollWith(cs, ds, attempt, waited).Finished?
    ensures |cs| >= MaxAttempts ==> PollWith(cs, ds, attempt, waited).url == None
    ensures |cs| >= MaxAttempts ==> PollWith(cs, ds, attempt, waited).checks == MaxAttempts
    ensures |cs| < MaxAttempts && attempt <= |cs| ==> PollWith(cs, ds, attempt, waited).Stalled?
    ensures |cs| < MaxAttempts && attempt <= |cs| ==> PollWith(cs, ds, attempt, waited).checks == |cs|
    decreases MaxAttempts - attempt
  {
    if attempt < MaxAttempts && attempt < |cs| {
      var before := Pause(attempt);
      UndecidedFrom(cs, ds, attempt + 1, waited + before + ds[attempt]);
    }
  }

  /** The poll is decided by the first reply within the first 30 that is not
      tried again: its URL, or `null` for FAILED or a missing URL, after
      exactly that many checks. When every one of 30 replies is tried again
      the poll times out with `null`; when the provider stops answering first,
      it stalls. */
  lemma PollCharacterised(script: seq<Reply>, v: Variant, n: nat)
    requires n <= MinInt(MaxAttempts, |script|)
    requires forall k :: 0 <= k < n ==> CheckOf(script[k]).Again?
    ensures n < MinInt(MaxAttempts, |script|) && !CheckOf(script[n]).Again? ==>
      PollOf(script, v).Finished? && PollOf(script, v).url == Verdict(CheckOf(script[n]))
      && PollOf(script, v).checks == n + 1
    ensures n == MinInt(MaxAttempts, |script|) && |script| >= MaxAttempts ==>
      PollOf(script, v).Finished? && PollOf(script, v).url == None && PollOf(script, v).checks == MaxAttempts
    ensures n == MinInt(MaxAttempts, |script|) && |script| < MaxAttempts ==>
      PollOf(script, v).Stalled? && PollOf(script, v).checks == |script|
  {
    var cs, ds := Checks(script), Delays(script, v);
    assert AllAgain(cs, 0, n);
    if n < MinInt(MaxAttempts, |script|) && !CheckOf(script[n]).Again? {
      DecidedFrom(cs, ds, 0, 0, n);
    }
    if n == MinInt(MaxAttempts, |script|) {
      UndecidedFrom(cs, ds, 0, 0);
    }
  }

  lemma {:induction false} ChecksBoundedFrom(cs: seq<Check>, ds: seq<int>, attempt: nat, waited: int)
    requires |ds| == |cs| && attempt <= MaxAttempts
    ensures attempt <= PollWith(cs, ds, attempt, waited).checks <= MaxAttempts
    ensures attempt <= |cs| ==> PollWith(cs, ds, attempt, waited).checks <= |cs|
    decreases MaxAttempts - attempt
  {
    if attempt < MaxAttempts && attempt < |cs| {
      var before := Pause(attempt);
      ChecksBoundedFrom(cs, ds, attempt + 1, waited + before + ds[attempt]);
    }
  }

  /** At most 30 status requests are made, and never more than there are
      replies. */
  lemma ChecksBounded(script: seq<Reply>, v: Variant)
    ensures PollOf(script, v).checks <= MaxAttempts
    ensures PollOf(script, v).checks <= |script|
  {
    ChecksBoundedFrom(Checks(script), Delays(script, v), 0, 0);
  }

  /** There is no sleep before the first check: a poll decided by the first
      reply has not waited at all. */
  lemma NoSleepBeforeFirstCheck(script: seq<Reply>, v: Variant)
    requires |script| > 0 && !CheckOf(script[0]).Again?
    ensures PollOf(script, v).waitedMs == 0 && PollOf(script, v).checks == 1
  {
    assert Checks(script)[0] == CheckOf(script[0]);
  }

  lemma {:induction false} VariantsAgreeFrom(cs: seq<Check>, d1: seq<int>, d2: seq<int>, attempt: nat, w1: int, w2: int)
    requires |d1| == |cs| && |d2| == |cs| && attempt <= MaxAttempts && w1 <= w2
    requires forall k :: 0 <= k < |cs| ==> d1[k] <= d2[k]
    ensures PollWith(cs, d1, attempt, w1).Finished? == PollWith(cs, d2, attempt, w2).Finished?
    ensures PollWith(cs, d1, attempt, w1).checks == PollWith(cs, d2, attempt, w2).checks
    ensures PollWith(cs, d1, attempt, w1).Finished? ==> PollWith(cs, d1, attempt, w1).url == PollWith(cs, d2, attempt, w2).url
    ensures PollWith(cs, d1, attempt, w1).waitedMs <= PollWith(cs, d2, attempt, w2).waitedMs
    decreases MaxAttempts - attempt
  {
    if attempt < MaxAttempts && attempt < |cs| && cs[attempt].Again? {
      var before := Pause(attempt);
      VariantsAgreeFrom(cs, d1, d2, attempt + 1, w1 + before + d1[attempt], w2 + before + d2[attempt]);
    }
  }

  /** Both copies of the poller return the same URL after the same number of
      checks; the non-streaming copy never waits less. */
  lemma VariantsAgree(script: seq<Reply>)
    ensures PollOf(script, Streaming).Finished? == PollOf(script, Batch).Finished?
    ensures PollOf(script, Streaming).checks == PollOf(script, Batch).checks
    ensures PollOf(script, Streaming).Finished? ==> PollOf(script, Streaming).url == PollOf(script, Batch).url
    ensures PollOf(script, Streaming).waitedMs <= PollOf(script, Batch).waitedMs
  {
    var d1, d2 := Delays(script, Streaming), Delays(script, Batch);
    forall k | 0 <= k < |script| ensures d1[k] <= d2[k] {
      assert d1[k] == DelayAfter(script[k], Streaming) && d2[k] == DelayAfter(script[k], Batch);
    }
    VariantsAgreeFrom(Checks(script), d1, d2, 0, 0, 0);
  }

  /** A found URL is never empty: the fallback chain skips empty strings. */
  lemma FoundNonEmpty(reply: Reply)
    ensures CheckOf(reply).Found? ==> CheckOf(reply).url != ""
  {
    if reply.Response? && reply.payload.Status? {
      ImageUrlChain(reply.payload.output);
    }
  }

  predicate FoundUrlsNonEmpty(cs: seq<Check>)
  {
    forall k :: 0 <= k < |cs| && cs[k].Found? ==> cs[k].url != ""
  }

  lemma {:induction false} UrlNonEmptyFrom(cs: seq<Check>, ds: seq<int>, attempt: nat, waited: int)
    requires |ds| == |cs| && attempt <= MaxAttempts && FoundUrlsNonEmpty(cs)
    ensures PollWith(cs, ds, attempt, waited).Finished? && PollWith(cs, ds, attempt, waited).url.Some? ==>
      PollWith(cs, ds, attempt, waited).url.value != ""
    decreases MaxAttempts - attempt
  {
    if attempt < MaxAttempts && attempt < |cs| && cs[attempt].Again? {
      var before := Pause(attempt);
      UrlNonEmptyFrom(cs, ds, attempt + 1, waited + before + ds[attempt]);
    }
  }

  /** The poller never returns an empty URL: it returns a URL only from a
      completed job whose fallback chain found a non-empty one. */
  lemma PollUrlNonEmpty(script: seq<Reply>, v: Variant)
    ensures PollOf(script, v).Finished? && PollOf(script, v).url.Some? ==> PollOf(script, v).url.value != ""
  {
    var cs := Checks(script);
    forall k | 0 <= k < |cs| && cs[k].Found? ensures cs[k].url != "" {
      FoundNonEmpty(script[k]);
    }
    UrlNonEmptyFrom(cs, Delays(script, v), 0, 0);
  }

  lemma {:induction false} StalledFrom(cs: seq<Check>, ds: seq<int>, attempt: nat, waited: int)
    requires |ds| == |cs| && attempt <= MaxAttempts
    ensures PollWith(cs, ds, attempt, waited).Stalled? ==> |cs| < MaxAttempts
    decreases MaxAttempts - attempt
  {
    if attempt < MaxAttempts && attempt < |cs| && cs[attempt].Again? {
      var before := Pause(attempt);
      StalledFrom(cs, ds, attempt + 1, waited + before + ds[attempt]);
    }
  }

  /** A poll stalls only when the provider answers fewer than 30 times. */
  lemma HungPollIsShort(script: seq<Reply>, v: Variant)
    ensures PollOf(script, v).Stalled? ==> |script| < MaxAttempts
  {
    StalledFrom(Checks(script), Delays(script, v), 0, 0);
  }
}
