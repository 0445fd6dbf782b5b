/** The editor of components/audio-video-editor.tsx: a stage machine that
    analyses the uploaded audio for beats, asks the scene-prompt route for one
    prompt per scene, lets the user edit the prompts, and hands the timeline
    over to the storyboard page.

    Each handler runs to completion in one step: the awaits inside it are
    replaced by their outcomes, which are parameters (`Audio` for the decoded
    file, `PromptsReply` for the fetch), and every stage the handler passes
    through is returned as a trace. */
module Editor {
  import opened Common
  import opened AudioAnalysis
  import opened SceneCache
  import ScenePrompts
  import StoryboardPage

  datatype Stage = Idle | AnalyzingAudio | GeneratingPrompts | Complete

  datatype TimelineItem = TimelineItem(timestamp: real, prompt: string)

  /** The uploaded file as the analyses see it: decoding fails with an
      error message, or yields the first channel. */
  datatype Audio = Undecodable(message: string) | Decoded(sig: Signal)

  /** A decoded buffer is never empty. */
  predicate Decodes(audio: Audio)
  {
    audio.Decoded? ==> ValidSignal(audio.sig)
  }

  /** The body posted to the scene-prompt route. */
  datatype PromptRequest = PromptRequest(audioCharacteristics: AudioCharacteristics, audioName: string)

  /** The fetch to the scene-prompt route throws with a message, or the route
      answers with its error or its prompts. */
  datatype PromptsReply = FetchFailed(message: string) | Answered(response: ScenePrompts.Response<seq<TimelineItem>>)

  const AnalysisFailedMessage := "Failed to analyze audio. Please try again."

  const NoPromptsMessage := "Please generate scene prompts first"

  /** The text shown under each stage; nothing while idle. */
  function StageMessage(stage: Stage): string
  {
    match stage
    case AnalyzingAudio => "Analyzing audio for beats..."
    case GeneratingPrompts => "Generating scene prompts with AI..."
    case Complete => "Processing complete!"
    case Idle => ""
  }

  /** Only the idle stage shows no text, and no two stages show the same. */
  lemma StageMessagesDistinct(a: Stage, b: Stage)
    ensures StageMessage(a) == "" <==> a == Idle
    ensures StageMessage(a) == StageMessage(b) ==> a == b
  {
  }

  /** The alert raised when prompt generation fails: the message of what was
      thrown, the route's own error, or the default when that is empty. */
  function PromptsAlert(reply: PromptsReply): (alert: Option<string>)
    ensures alert.None? <==> reply.Answered? && reply.response.Prompts?
    ensures alert.Some? ==> alert.value != "" || (reply.FetchFailed? && reply.message == "")
  {
    match reply
    case FetchFailed(message) => Some(message)
    case Answered(response) =>
      if response.Prompts? then None
      else Some(if response.error != "" then response.error else ScenePrompts.FailedMessage)
  }

  /** The timeline after the prompt at timestamp `t` is edited: every item
      with that timestamp takes the new prompt. */
  function WithPrompt(items: seq<TimelineItem>, t: real, prompt: string): (r: seq<TimelineItem>)
    ensures |r| == |items|
  {
    seq(|items|, k requires 0 <= k < |items| => if items[k].timestamp == t then items[k].(prompt := prompt) else items[k])
  }

  /** An edit keeps every timestamp and the order, changes exactly the
      prompts at `t`, and leaves the other items as they were. */
  lemma EditTouchesOnlyItsTimestamp(items: seq<TimelineItem>, t: real, prompt: string)
    ensures var r := WithPrompt(items, t, prompt);
      forall k :: 0 <= k < |items| ==>
        r[k].timestamp == items[k].timestamp
        && (items[k].timestamp == t ==> r[k].prompt == prompt)
        && (items[k].timestamp != t ==> r[k] == items[k])
  {
  }

  /** The last edit at a timestamp wins, and edits at two different
      timestamps can be made in either order. */
  lemma EditsCompose(items: seq<TimelineItem>, t: real, u: real, p: string, q: string)
    ensures WithPrompt(WithPrompt(items, t, p), t, q) == WithPrompt(items, t, q)
    ensures t != u ==> WithPrompt(WithPrompt(items, t, p), u, q) == WithPrompt(WithPrompt(items, u, q), t, p)
  {
    var a, b := WithPrompt(WithPrompt(items, t, p), t, q), WithPrompt(items, t, q);
    assert forall k :: 0 <= k < |items| ==> a[k] == b[k];
    if t != u {
      var c, d := WithPrompt(WithPrompt(items, t, p), u, q), WithPrompt(WithPrompt(items, u, q), t, p);
      assert forall k :: 0 <= k < |items| ==> c[k] == d[k];
    }
  }

  /** The items posted to the storyboard cache: the timeline without
      durations. */
  function StoryboardItems(items: seq<TimelineItem>): (r: seq<StoryboardItem>)
    ensures |r| == |items|
  {
    seq(|items|, k requires 0 <= k < |items| => StoryboardItem(items[k].timestamp, items[k].prompt, None))
  }

  /** The storyboard page opened on the handed-over timeline shows one card
      per item, in order, with the item's timestamp and prompt, whatever the
      image cache holds. */
  lemma StoryboardShowsTimeline(items: seq<TimelineItem>, cached: Option<seq<CachedImage>>)
    ensures var cards := StoryboardPage.Loaded(StoryboardItems(items), cached);
      |cards| == |items|
      && forall k :: 0 <= k < |items| ==> cards[k].timestamp == items[k].timestamp && cards[k].prompt == items[k].prompt
  {
    var timeline := StoryboardItems(items);
    var plain := StoryboardPage.WithDurations(timeline);
    assert forall k :: 0 <= k < |items| ==> plain[k].timestamp == items[k].timestamp && plain[k].prompt == items[k].prompt;
  }

  /** Every detected beat lies at a non-negative time. */
  lemma DetectedBeatsTimed(sig: Signal, sensitivity: real)
    requires ValidSignal(sig) && 0.0 <= sensitivity <= 2.0
    ensures forall k :: 0 <= k < |DetectBeats(sig, sensitivity)| ==> DetectBeats(sig, sensitivity)[k].time >= 0.0
  {
    var es := FrameEnergies(sig);
    BeatFramesFacts(es, sensitivity, |es|);
    var frames := BeatFrames(es, sensitivity, |es|);
    var bs := BeatsOf(es, sensitivity, frames);
    forall k | 0 <= k < |bs| ensures bs[k].time >= 0.0 {
      assert bs[k] == OnsetBeat(es, sensitivity, frames[k]);
    }
  }

  predicate Timed(beats: seq<BeatTimestamp>)
  {
    forall k :: 0 <= k < |beats| ==> beats[k].time >= 0.0
  }

  class AudioVideoEditor {
    var stage: Stage
    var beats: seq<BeatTimestamp>
    var timelineItems: seq<TimelineItem>
    var beatSensitivity: real

    /** Between handlers the editor is idle or complete; it is idle only
        before any beats were found, and it has a timeline only when it has
        beats. The slider keeps the sensitivity within 0..2. */
    predicate Valid()
      reads this
    {
      (stage == Idle || stage == Complete)
      && (stage == Idle ==> beats == [] && timelineItems == [])
      && (timelineItems != [] ==> beats != [])
      && 0.0 <= beatSensitivity <= 2.0
      && Timed(beats)
    }

    constructor ()
      ensures Valid()
      ensures stage == Idle && beats == [] && timelineItems == [] && beatSensitivity == 1.0
    {
      stage := Idle;
      beats := [];
      timelineItems := [];
      beatSensitivity := 1.0;
    }

    /** `analyzeAudio`: the beats of the decoded file at the current
        sensitivity, and the complete stage; on a decoding failure the
        editor goes back to idle with an alert. */
    method AnalyzeAudio(audio: Audio) returns (alert: Option<string>, trace: seq<Stage>)
      requires Valid() && Decodes(audio) && stage == Idle
      modifies this
      ensures Valid()
      ensures timelineItems == old(timelineItems) && beatSensitivity == old(beatSensitivity)
      ensures audio.Decoded? ==> (beats == DetectBeats(audio.sig, beatSensitivity) && stage == Complete
        && alert == None && trace == [AnalyzingAudio, Complete])
      ensures audio.Undecodable? ==> (beats == old(beats) && stage == Idle
        && alert == Some(AnalysisFailedMessage) && trace == [AnalyzingAudio, Idle])
    {
      stage := AnalyzingAudio;
      trace := [stage];
      if audio.Undecodable? {
        stage := Idle;
        trace := trace + [stage];
        return Some(AnalysisFailedMessage), trace;
      }
      var detectedBeats := AnalyzeBeatTimestamps(audio.sig, beatSensitivity);
      DetectedBeatsTimed(audio.sig, beatSensitivity);
      beats := detectedBeats;
      stage := Complete;
      trace := trace + [stage];
      alert := None;
    }

    /** The effect run when the file is set: the analysis starts only from
        the idle stage. */
    method OnAudioFile(audio: Audio) returns (alert: Option<string>, trace: seq<Stage>)
      requires Valid() && Decodes(audio)
      modifies this
      ensures Valid()
      ensures old(stage) != Idle ==> (trace == [] && alert == None
        && stage == old(stage) && beats == old(beats) && timelineItems == old(timelineItems) && beatSensitivity == old(beatSensitivity))
      ensures old(stage) == Idle ==> (|trace| == 2 && trace[0] == AnalyzingAudio
        && (stage == Complete <==> audio.Decoded?))
    {
      if stage == Idle {
        alert, trace := AnalyzeAudio(audio);
      } else {
        alert, trace := None, [];
      }
    }

    /** `handleStartProcessing`: without beats nothing happens. Otherwise
        the characteristics of the file and its beats are posted with the
        file's name, and the route's prompts become the timeline; any failure
        leaves the timeline as it was, with an alert. Either way the editor
        ends complete. */
    method StartProcessing(audio: Audio, audioName: string, root: real -> real, reply: PromptsReply)
      returns (sent: Option<PromptRequest>, alert: Option<string>, trace: seq<Stage>)
      requires Valid() && Decodes(audio) && IsRoot(root)
      modifies this
      ensures Valid()
      ensures beats == old(beats) && beatSensitivity == old(beatSensitivity)
      ensures old(beats) == [] ==> (sent == None && alert == None && trace == []
        && stage == old(stage) && timelineItems == old(timelineItems))
      ensures old(beats) != [] ==> stage == Complete && trace == [GeneratingPrompts, Complete]
      ensures old(beats) != [] && audio.Undecodable? ==>
        sent == None && alert == Some(audio.message) && timelineItems == old(timelineItems)
      ensures old(beats) != [] && audio.Decoded? ==>
        sent.Some? && sent.value.audioName == audioName
        && sent.value.audioCharacteristics.duration == Duration(audio.sig)
        && sent.value.audioCharacteristics.overallEnergy
             == MinReal(1.0, root(SumSq(audio.sig.channel, 0, |audio.sig.channel|) / |audio.sig.channel| as real) * 10.0)
        && sent.value.audioCharacteristics.tempo == TempoOf(beats)
        && |sent.value.audioCharacteristics.beats| == |beats|
        && (forall k :: 0 <= k < |beats| ==> sent.value.audioCharacteristics.beats[k] == FeatureOf(audio.sig, beats[k].time, root))
        && alert == PromptsAlert(reply)
        && timelineItems == (if alert.None? then reply.response.prompts else old(timelineItems))
    {
      if |beats| == 0 {
        return None, None, [];
      }
      stage := GeneratingPrompts;
      trace := [stage];
      if audio.Undecodable? {
        stage := Complete;
        trace := trace + [stage];
        return None, Some(audio.message), trace;
      }
      var audioCharacteristics := AnalyzeAudioCharacteristics(audio.sig, beats, root);
      sent := Some(PromptRequest(audioCharacteristics, audioName));
      alert := PromptsAlert(reply);
      if alert.None? {
        timelineItems := reply.response.prompts;
      }
      stage := Complete;
      trace := trace + [stage];
    }

    /** `handlePromptChange`. */
    method ChangePrompt(t: real, prompt: string)
      requires Valid()
      modifies this
      ensures Valid()
      ensures timelineItems == WithPrompt(old(timelineItems), t, prompt)
      ensures stage == old(stage) && beats == old(beats) && beatSensitivity == old(beatSensitivity)
    {
      timelineItems := WithPrompt(timelineItems, t, prompt);
    }

    /** `handleSensitivityChange`: the value is always stored. With beats,
        the file is analysed again at the new value; success replaces the
        beats and clears the timeline, failure keeps both. */
    method ChangeSensitivity(newSensitivity: real, audio: Audio) returns (trace: seq<Stage>)
      requires Valid() && Decodes(audio) && 0.0 <= newSensitivity <= 2.0
      modifies this
      ensures Valid()
      ensures beatSensitivity == newSensitivity
      ensures old(beats) == [] ==> trace == [] && stage == old(stage) && beats == [] && timelineItems == old(timelineItems)
      ensures old(beats) != [] ==> stage == Complete && trace == [AnalyzingAudio, Complete]
      ensures old(beats) != [] && audio.Decoded? ==> beats == DetectBeats(audio.sig, newSensitivity) && timelineItems == []
      ensures old(beats) != [] && audio.Undecodable? ==> beats == old(beats) && timelineItems == old(timelineItems)
    {
      beatSensitivity := newSensitivity;
      trace := [];
      if |beats| > 0 {
        stage := AnalyzingAudio;
        trace := [stage];
        if audio.Decoded? {
          var detectedBeats := AnalyzeBeatTimestamps(audio.sig, newSensitivity);
          DetectedBeatsTimed(audio.sig, newSensitivity);
          beats := detectedBeats;
          stage := Complete;
          timelineItems := [];
        } else {
          stage := Complete;
        }
        trace := trace + [stage];
      }
    }

    /** `handleGenerateStoryboard`: refused with an alert while the timeline
        is empty; otherwise the timeline, the file's name and its object URL
        are posted to the storyboard cache, stamped with `now`, and the
        storyboard page opens. */
    method GenerateStoryboard(audioFileName: string, audioFileUrl: string, now: int)
      returns (posted: Option<CachedStoryboard>, alert: Option<string>)
      requires Valid()
      ensures posted.None? <==> timelineItems == []
      ensures alert.Some? <==> timelineItems == []
      ensures alert.Some? ==> alert.value == NoPromptsMessage
      ensures posted.Some? ==> posted.value == CachedStoryboard(StoryboardItems(timelineItems), audioFileName, Some(audioFileUrl), now)
    {
      if |timelineItems| == 0 {
        return None, Some(NoPromptsMessage);
      }
      posted := Some(CachedStoryboard(StoryboardItems(timelineItems), audioFileName, Some(audioFileUrl), now));
      alert := None;
    }
  }
}
