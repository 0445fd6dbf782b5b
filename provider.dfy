// The replies of the image and video generation provider, as the routes see
// them, and the fallback chains the routes use to find the output URL in a
// completed job. No request is made: a poller is given the replies it would
// receive, in order, as a finite script.

module Provider {
  import opened Common

  /** The `output` of a job status: absent, a bare string, or an object whose
      URL-bearing fields may each be absent. `images` and `videos` are arrays
      when present. */
  datatype Output =
    | NoOutput
    | Raw(text: string)
    | Fields(result: Option<string>, image: Option<string>, images: Option<seq<string>>,
             video: Option<string>, videoUrl: Option<string>, url: Option<string>,
             videos: Option<seq<string>>)

  /** The JSON payload of a reply: a job status, or a payload whose parsing
      throws with `message`. `outputJson` is the serialised output, which one
      error message quotes. */
  datatype Payload =
    | Status(status: string, output: Output, outputJson: string, error: Option<string>)
    | Unparsable(message: string)

  /** One answer to one status request: the request itself threw, or an HTTP
      response arrived. `isJson` says whether its content type names JSON. */
  datatype Reply =
    | NetworkError(message: string)
    | Response(code: int, isJson: bool, text: string, payload: Payload)

  /** `response.ok`. */
  predicate IsOk(code: int)
  {
    200 <= code <= 299
  }

  /** `xs?.[0]` on an optional array. */
  function Head(xs: Option<seq<string>>): (r: Option<string>)
    ensures r.Some? <==> xs.Some? && |xs.value| > 0
    ensures r.Some? ==> r.value == xs.value[0]
  {
    if xs.Some? && |xs.value| > 0 then Some(xs.value[0]) else None
  }

  predicate NoneTruthy(cands: seq<Option<string>>)
  {
    forall j :: 0 <= j < |cands| ==> !Truthy(cands[j])
  }

  /** `a || b || …`: the first truthy candidate, or null. */
  function FirstTruthy(cands: seq<Option<string>>): (r: Option<string>)
    ensures r.None? <==> NoneTruthy(cands)
    ensures r.Some? ==> Truthy(r)
  {
    if cands == [] then None
    else if Truthy(cands[0]) then cands[0]
    else
      assert forall k :: 1 <= k < |cands| ==> cands[k] == cands[1..][k - 1];
      FirstTruthy(cands[1..])
  }

  /** The value `a || b || …` picks is the first truthy candidate: every
      candidate before it is falsy. */
  lemma {:induction false} FirstTruthyIsFirst(cands: seq<Option<string>>)
    requires !NoneTruthy(cands)
    ensures exists k :: 0 <= k < |cands| && cands[k] == FirstTruthy(cands) && NoneTruthy(cands[..k])
    decreases |cands|
  {
    if !Truthy(cands[0]) {
      var rest := cands[1..];
      assert forall k :: 1 <= k < |cands| ==> cands[k] == rest[k - 1];
      FirstTruthyIsFirst(rest);
      var k :| 0 <= k < |rest| && rest[k] == FirstTruthy(rest) && NoneTruthy(rest[..k]);
      assert cands[..k + 1] == [cands[0]] + rest[..k];
      assert cands[k + 1] == FirstTruthy(cands);
    } else {
      assert cands[..0] == [];
    }
  }

  /** The candidate after only falsy ones, when truthy, is the value. */
  lemma {:induction false} FirstTruthyAt(cands: seq<Option<string>>, k: nat)
    requires k < |cands| && NoneTruthy(cands[..k]) && Truthy(cands[k])
    ensures FirstTruthy(cands) == cands[k]
    decreases k
  {
    if k > 0 {
      assert !Truthy(cands[..k][0]);
      var rest := cands[1..];
      assert rest[..k - 1] == cands[..k][1..];
      FirstTruthyAt(rest, k - 1);
    }
  }

  /** The candidates the image routes try, in order: `output.result`,
      `output.image`, `output.images[0]`, `output.url`, a string output. */
  function ImageCandidates(o: Output): (c: seq<Option<string>>)
    ensures |c| == 5
  {
    match o
    case NoOutput => [None, None, None, None, None]
    case Raw(text) => [None, None, None, None, Some(text)]
    case Fields(result, image, images, _, _, url, _) => [result, image, Head(images), url, None]
  }

  /** The candidates the video route tries, in order: `output.result`,
      `output.video`, `output.video_url`, `output.url`, `output.videos[0]`, a
      string output. */
  function VideoCandidates(o: Output): (c: seq<Option<string>>)
    ensures |c| == 6
  {
    match o
    case NoOutput => [None, None, None, None, None, None]
    case Raw(text) => [None, None, None, None, None, Some(text)]
    case Fields(result, _, _, video, videoUrl, url, videos) => [result, video, videoUrl, url, Head(videos), None]
  }

  function ImageUrlOf(o: Output): Option<string>
  {
    FirstTruthy(ImageCandidates(o))
  }

  function VideoUrlOf(o: Output): Option<string>
  {
    FirstTruthy(VideoCandidates(o))
  }

  /** The image fallback chain: a non-empty `result` always wins, a string
      output is its own URL exactly when non-empty, and an output with no
      non-empty URL field has no URL. */
  lemma ImageUrlChain(o: Output)
    ensures o.Fields? && Truthy(o.result) ==> ImageUrlOf(o) == o.result
    ensures o.Raw? ==> (ImageUrlOf(o).Some? <==> o.text != "") && (o.text != "" ==> ImageUrlOf(o) == Some(o.text))
    ensures o.NoOutput? ==> ImageUrlOf(o) == None
    ensures o.Fields? ==> (ImageUrlOf(o).Some? <==>
      Truthy(o.result) || Truthy(o.image) || Truthy(Head(o.images)) || Truthy(o.url))
    ensures ImageUrlOf(o).Some? ==> ImageUrlOf(o).value != ""
  {
    var c := ImageCandidates(o);
    if o.Fields? {
      assert c[0] == o.result && c[1] == o.image && c[2] == Head(o.images) && c[3] == o.url && c[4] == None;
    } else if o.Raw? {
      assert c[4] == Some(o.text) && !Truthy(c[0]) && !Truthy(c[1]) && !Truthy(c[2]) && !Truthy(c[3]);
      if o.text != "" {
        FirstTruthyAt(c, 4);
      }
    } else {
      assert !Truthy(c[0]) && !Truthy(c[1]) && !Truthy(c[2]) && !Truthy(c[3]) && !Truthy(c[4]);
    }
  }

  /** The video fallback chain: a non-empty `result` always wins, the video
      fields are tried before `url` and `videos[0]`, and a string output is its
      own URL exactly when non-empty. */
  lemma VideoUrlChain(o: Output)
    ensures o.Fields? && Truthy(o.result) ==> VideoUrlOf(o) == o.result
    ensures o.Fields? && !Truthy(o.result) && Truthy(o.video) ==> VideoUrlOf(o) == o.video
    ensures o.Raw? ==> (VideoUrlOf(o).Some? <==> o.text != "") && (o.text != "" ==> VideoUrlOf(o) == Some(o.text))
    ensures o.NoOutput? ==> VideoUrlOf(o) == None
    ensures o.Fields? ==> (VideoUrlOf(o).Some? <==>
      Truthy(o.result) || Truthy(o.video) || Truthy(o.videoUrl) || Truthy(o.url) || Truthy(Head(o.videos)))
    ensures VideoUrlOf(o).Some? ==> VideoUrlOf(o).value != ""
  {
    var c := VideoCandidates(o);
    if o.Fields? {
      assert c[0] == o.result && c[1] == o.video && c[2] == o.videoUrl && c[3] == o.url;
      assert c[4] == Head(o.videos) && c[5] == None;
      if !Truthy(o.result) && Truthy(o.video) {
        FirstTruthyAt(c, 1);
      }
    } else if o.Raw? {
      assert c[5] == Some(o.text);
      assert !Truthy(c[0]) && !Truthy(c[1]) && !Truthy(c[2]) && !Truthy(c[3]) && !Truthy(c[4]);
      if o.text != "" {
        FirstTruthyAt(c, 5);
      }
    } else {
      assert !Truthy(c[0]) && !Truthy(c[1]) && !Truthy(c[2]) && !Truthy(c[3]) && !Truthy(c[4]) && !Truthy(c[5]);
    }
  }

  /** The payload of an accepted submission: it may carry a job id, or its
      parsing throws with `message`. */
  datatype Created = JobCreated(id: Option<string>) | CreatedUnparsable(message: string)

  /** The reply to a job submission: the request threw, or a response arrived;
      its `text` is read when it is not OK, its payload when it is. */
  datatype Submission =
    | SubmitThrew(message: string)
    | SubmitResponse(code: int, text: string, created: Created)
}
