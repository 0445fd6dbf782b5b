// The scene-prompt route: it checks the audio analysis it is sent, describes
// the song and each beat in words for the language model, and reads the
// model's answer back as a JSON array of scene prompts.

module ScenePrompts {
  import opened Common
  import opened Text

  const MissingDataMessage := "Missing audio characteristics data"
  const NoKeyMessage := "OpenAI API key not configured. Please add OPENAI_API_KEY to your environment variables."
  const ParseFailedMessage := "Failed to parse AI response"
  const FailedMessage := "Failed to generate scene prompts"

  /** One detected beat, as the editor sends it. */
  datatype Beat = Beat(time: real, energy: real, bassPresence: real)

  /** `audioCharacteristics`: a tempo that is not a finite number arrives as
      `null` (`None`); `beats` may be missing (`None`). */
  datatype Characteristics = Characteristics(tempo: Option<real>, overallEnergy: real, duration: real, beats: Option<seq<Beat>>)

  /** The request body: it does not parse, or it carries the analysis (maybe
      missing) and the song's name (maybe missing). */
  datatype Body = Unreadable | SceneRequest(audioCharacteristics: Option<Characteristics>, audioName: Option<string>)

  // ---------------------------------------------------------------------------
  // Words for the song and for each beat
  // ---------------------------------------------------------------------------

  /** The number of thresholds that `x` exceeds: the band `x` falls in. */
  function Band(x: real, thresholds: seq<real>): (k: nat)
    ensures k <= |thresholds|
  {
    if thresholds == [] then 0 else (if thresholds[0] < x then 1 else 0) + Band(x, thresholds[1..])
  }

  predicate Increasing(ts: seq<real>)
  {
    forall i, j :: 0 <= i < j < |ts| ==> ts[i] < ts[j]
  }

  const EnergyThresholds: seq<real> := [0.4, 0.7]
  const EnergyLevels := ["calm", "moderate energy", "high energy"]
  const TempoThresholds: seq<real> := [80.0, 100.0, 140.0]
  const TempoDescriptions := ["slow", "mid-tempo", "upbeat", "fast-paced"]
  const BeatEnergyThresholds: seq<real> := [0.4, 0.7]
  const BeatEnergies := ["soft", "moderate", "intense"]
  const BassThresholds: seq<real> := [0.4, 0.6]
  const BassDescriptions := ["treble-focused", "balanced", "bass-heavy"]

  /** The song's overall energy in words. */
  function EnergyLevel(overallEnergy: real): string
  {
    if overallEnergy > 0.7 then "high energy" else if overallEnergy > 0.4 then "moderate energy" else "calm"
  }

  /** The tempo in words; a `null` tempo compares false and reads "slow". */
  function TempoDescription(tempo: Option<real>): string
  {
    if tempo.None? then "slow"
    else if tempo.value > 140.0 then "fast-paced"
    else if tempo.value > 100.0 then "upbeat"
    else if tempo.value > 80.0 then "mid-tempo"
    else "slow"
  }

  /** A beat's energy in words. */
  function EnergyDescription(energy: real): string
  {
    if energy > 0.7 then "intense" else if energy > 0.4 then "moderate" else "soft"
  }

  /** A beat's bass presence in words. */
  function BassDescription(bassPresence: real): string
  {
    if bassPresence > 0.6 then "bass-heavy" else if bassPresence > 0.4 then "balanced" else "treble-focused"
  }

  lemma Band2(x: real, a: real, b: real)
    ensures Band(x, [a, b]) == (if a < x then 1 else 0) + (if b < x then 1 else 0)
  {
    assert [a, b][1..] == [b] && [b][1..] == [];
  }

  lemma Band3(x: real, a: real, b: real, c: real)
    ensures Band(x, [a, b, c]) == (if a < x then 1 else 0) + (if b < x then 1 else 0) + (if c < x then 1 else 0)
  {
    assert [a, b, c][1..] == [b, c];
    Band2(x, b, c);
  }

  /** Each description names the band its value falls in, counting the
      thresholds the value exceeds. */
  lemma DescriptionsAreBands(x: real)
    ensures EnergyLevel(x) == EnergyLevels[Band(x, EnergyThresholds)]
    ensures TempoDescription(Some(x)) == TempoDescriptions[Band(x, TempoThresholds)]
    ensures EnergyDescription(x) == BeatEnergies[Band(x, BeatEnergyThresholds)]
    ensures BassDescription(x) == BassDescriptions[Band(x, BassThresholds)]
  {
    Band2(x, 0.4, 0.7);
    Band3(x, 80.0, 100.0, 140.0);
    Band2(x, 0.4, 0.6);
  }

  /** With increasing thresholds, `x` exceeds exactly the first `Band`
      thresholds. */
  lemma {:induction false} BandSplit(x: real, ts: seq<real>)
    requires Increasing(ts)
    ensures forall i :: 0 <= i < |ts| ==> (ts[i] < x <==> i < Band(x, ts))
    decreases |ts|
  {
    if ts != [] {
      var rest := ts[1..];
      assert Increasing(rest) by {
        forall i, j | 0 <= i < j < |rest| ensures rest[i] < rest[j] {
          assert rest[i] == ts[i + 1] && rest[j] == ts[j + 1];
        }
      }
      BandSplit(x, rest);
      forall i | 0 <= i < |ts| ensures ts[i] < x <==> i < Band(x, ts) {
        if i > 0 {
          assert ts[i] == rest[i - 1];
        }
        if ts[0] >= x && rest != [] {
          assert rest[0] == ts[1];
        }
      }
    }
  }

  /** With increasing thresholds, `x` is in band `k` exactly when it exceeds
      threshold `k - 1` and not threshold `k`. */
  lemma BandBounds(x: real, ts: seq<real>, k: nat)
    requires Increasing(ts) && k <= |ts|
    ensures Band(x, ts) == k <==> (k == 0 || ts[k - 1] < x) && (k == |ts| || x <= ts[k])
  {
    BandSplit(x, ts);
  }

  /** A larger value never falls in a lower band. */
  lemma {:induction false} BandMonotone(x: real, y: real, ts: seq<real>)
    requires x <= y
    ensures Band(x, ts) <= Band(y, ts)
    decreases |ts|
  {
    if ts != [] {
      BandMonotone(x, y, ts[1..]);
    }
  }

  /** The descriptions read as intervals: "calm" up to 0.4, "moderate energy"
      up to 0.7, "high energy" above; "slow" up to 80 BPM, "mid-tempo" up to
      100, "upbeat" up to 140, "fast-paced" above; a beat is "soft",
      "moderate" or "intense" at the same cuts as the song, and
      "treble-focused", "balanced" or "bass-heavy" at 0.4 and 0.6. */
  lemma DescriptionIntervals(x: real)
    ensures EnergyLevel(x) == "calm" <==> x <= 0.4
    ensures EnergyLevel(x) == "moderate energy" <==> 0.4 < x <= 0.7
    ensures EnergyLevel(x) == "high energy" <==> 0.7 < x
    ensures TempoDescription(Some(x)) == "slow" <==> x <= 80.0
    ensures TempoDescription(Some(x)) == "mid-tempo" <==> 80.0 < x <= 100.0
    ensures TempoDescription(Some(x)) == "upbeat" <==> 100.0 < x <= 140.0
    ensures TempoDescription(Some(x)) == "fast-paced" <==> 140.0 < x
    ensures EnergyDescription(x) == "moderate" <==> 0.4 < x <= 0.7
    ensures BassDescription(x) == "balanced" <==> 0.4 < x <= 0.6
  {
    DescriptionsAreBands(x);
    var e, t, b := Band(x, EnergyThresholds), Band(x, TempoThresholds), Band(x, BassThresholds);
    BandBounds(x, EnergyThresholds, e);
    BandBounds(x, TempoThresholds, t);
    BandBounds(x, BassThresholds, b);
  }

  /** More energy, a faster tempo or more bass never gives a lower
      description. */
  lemma DescriptionsMonotone(x: real, y: real)
    requires x <= y
    ensures Band(x, EnergyThresholds) <= Band(y, EnergyThresholds)
    ensures Band(x, TempoThresholds) <= Band(y, TempoThresholds)
    ensures Band(x, BassThresholds) <= Band(y, BassThresholds)
  {
    BandMonotone(x, y, EnergyThresholds);
    BandMonotone(x, y, TempoThresholds);
    BandMonotone(x, y, BassThresholds);
  }

  /** The start of the line for beat `index` (counted from 0): its number,
      counted from 1. */
  function LineHead(index: nat): string
  {
    "Beat " + NatToString(index + 1) + " at "
  }

  /** The number in a line's head reads back as the beat's position
      counted from 1. */
  lemma LineNumber(index: nat)
    ensures var head := LineHead(index);
      |head| > 9 && AllDigits(head[5..|head| - 4]) && DecimalValue(head[5..|head| - 4]) == index + 1
  {
    var head := LineHead(index);
    assert head[5..|head| - 4] == NatToString(index + 1);
    NatToStringRoundTrip(index + 1);
  }

  /** The rest of a beat's line: its time to two decimals and its words. */
  function LineBody(beat: Beat): string
  {
    ToFixed2(beat.time) + "s: " + EnergyDescription(beat.energy) + ", " + BassDescription(beat.bassPresence)
  }

  /** The line that describes beat `index` (counted from 0). */
  function BeatLine(index: nat, beat: Beat): string
  {
    LineHead(index) + LineBody(beat)
  }

  function BeatLines(beats: seq<Beat>): (lines: seq<string>)
    ensures |lines| == |beats|
  {
    seq(|beats|, i requires 0 <= i < |beats| => BeatLine(i, beats[i]))
  }

  /** The beat analysis the model is given: the beat lines joined by "\n". */
  function BeatDescriptions(beats: seq<Beat>): string
  {
    Join(BeatLines(beats), '\n')
  }

  lemma DigitsHaveNoNewline(s: string)
    requires AllDigits(s)
    ensures '\n' !in s
  {
  }

  lemma FixedHasNoNewline(x: real)
    ensures '\n' !in ToFixed2(x)
  {
    var m := if x < 0.0 then -x else x;
    var q := (m * 100.0 + 0.5).Floor;
    DigitsHaveNoNewline(NatToString(q / 100));
    var frac := NatToString(q % 100);
    DigitsHaveNoNewline(frac);
    var padded := PadStart2(frac);
    assert '\n' !in padded by {
      if |frac| < 2 {
        assert padded == [padded[0]] + padded[1..];
        assert padded[0] == '0';
      }
    }
  }

  lemma HeadHasNoNewline(index: nat)
    ensures '\n' !in LineHead(index)
  {
    DigitsHaveNoNewline(NatToString(index + 1));
  }

  lemma WordsHaveNoNewline(beat: Beat)
    ensures '\n' !in EnergyDescription(beat.energy) && '\n' !in BassDescription(beat.bassPresence)
  {
  }

  lemma BodyHasNoNewline(beat: Beat)
    ensures '\n' !in LineBody(beat)
  {
    FixedHasNoNewline(beat.time);
    WordsHaveNoNewline(beat);
  }

  /** Every beat line is one line that starts with the beat's number. */
  lemma BeatLineFacts(index: nat, beat: Beat)
    ensures '\n' !in BeatLine(index, beat)
    ensures StartsWith(BeatLine(index, beat), LineHead(index))
  {
    HeadHasNoNewline(index);
    BodyHasNoNewline(beat);
    var head := LineHead(index);
    assert BeatLine(index, beat)[..|head|] == head;
  }

  /** The beat analysis has one line per beat, in order, each starting with
      its beat number counted from 1; no beats give an empty analysis. */
  lemma BeatDescriptionsLines(beats: seq<Beat>)
    ensures |beats| == 0 ==> BeatDescriptions(beats) == ""
    ensures |beats| > 0 ==> Split(BeatDescriptions(beats), '\n') == BeatLines(beats)
    ensures forall i :: 0 <= i < |beats| ==> StartsWith(BeatLines(beats)[i], LineHead(i))
  {
    var lines := BeatLines(beats);
    forall i | 0 <= i < |beats|
      ensures '\n' !in lines[i]
      ensures StartsWith(lines[i], LineHead(i))
    {
      BeatLineFacts(i, beats[i]);
    }
    if |beats| > 0 {
      SplitJoin(lines, '\n');
    }
  }

  // ---------------------------------------------------------------------------
  // Reading the model's answer
  // ---------------------------------------------------------------------------

  /** The first position of `c` in `s`. */
  function FirstIndex(s: string, c: char): (r: Option<nat>)
    ensures r.Some? ==> r.value < |s| && s[r.value] == c && c !in s[..r.value]
    ensures r.None? ==> c !in s
  {
    if s == [] then None
    else if s[0] == c then Some(0)
    else
      var rest := FirstIndex(s[1..], c);
      if rest.None? then None
      else
        assert s[..rest.value + 1] == [s[0]] + s[1..][..rest.value];
        Some(rest.value + 1)
  }

  /** The last position of `c` in `s`. */
  function LastIndex(s: string, c: char): (r: Option<nat>)
    ensures r.Some? ==> r.value < |s| && s[r.value] == c && c !in s[r.value + 1..]
    ensures r.None? ==> c !in s
  {
    if s == [] then None
    else if s[|s| - 1] == c then Some(|s| - 1)
    else
      var init := s[..|s| - 1];
      var r := LastIndex(init, c);
      if r.Some? then
        assert s[r.value + 1..] == init[r.value + 1..] + [s[|s| - 1]];
        r
      else
        assert s == init + [s[|s| - 1]];
        None
  }

  /** `text.match(/\[[\s\S]*\]/)`: from the first '[' to the last ']', when
      some ']' follows it. */
  function JsonMatch(text: string): Option<string>
  {
    var open, close := FirstIndex(text, '['), LastIndex(text, ']');
    if open.Some? && close.Some? && open.value < close.value then Some(text[open.value..close.value + 1])
    else None
  }

  /** What is handed to `JSON.parse`: the match, or the whole text. */
  function JsonCandidate(text: string): string
  {
    var m := JsonMatch(text);
    if m.Some? then m.value else text
  }

  /** `text[i..j]` matches the pattern: a '[' then anything then a ']'. */
  predicate MatchesAt(text: string, i: int, j: int)
  {
    0 <= i && i + 2 <= j <= |text| && text[i] == '[' && text[j - 1] == ']'
  }

  /** The match a regular expression engine reports: the one that starts
      leftmost, and of those the longest, because `*` is greedy. */
  ghost predicate Chosen(text: string, i: int, j: int)
  {
    MatchesAt(text, i, j)
    && forall i2, j2 :: MatchesAt(text, i2, j2) ==> i <= i2 && (i2 == i ==> j2 <= j)
  }

  /** Every match lies between the first '[' and the last ']'. */
  lemma MatchWithinSpan(text: string, i: int, j: int)
    requires MatchesAt(text, i, j)
    ensures FirstIndex(text, '[').Some? && FirstIndex(text, '[').value <= i
    ensures LastIndex(text, ']').Some? && j - 1 <= LastIndex(text, ']').value
  {
    var open, close := FirstIndex(text, '['), LastIndex(text, ']');
    assert text[i] == '[' && text[j - 1] == ']';
  }

  /** The extraction agrees with the pattern: there is a match exactly when
      some '[' is followed by a ']', and then it is the leftmost, longest one. */
  lemma JsonMatchIsRegexMatch(text: string)
    ensures JsonMatch(text).None? <==> forall i, j :: !MatchesAt(text, i, j)
    ensures JsonMatch(text).Some? ==>
      exists i, j :: (Chosen(text, i, j) && JsonMatch(text).value == text[i..j])
  {
    forall i, j | MatchesAt(text, i, j) ensures JsonMatch(text).Some? {
      MatchWithinSpan(text, i, j);
    }
    if JsonMatch(text).Some? {
      var i, j := FirstIndex(text, '[').value, LastIndex(text, ']').value + 1;
      forall i2, j2 | MatchesAt(text, i2, j2) ensures i <= i2 && (i2 == i ==> j2 <= j) {
        MatchWithinSpan(text, i2, j2);
      }
      assert Chosen(text, i, j);
    }
  }

  // ---------------------------------------------------------------------------
  // The route
  // ---------------------------------------------------------------------------

  /** What the language model is told about the song: its name, tempo and
      energy with their descriptions, duration, number of beats and the beat
      analysis. */
  datatype Brief = Brief(audioName: Option<string>, tempo: Option<real>, tempoDescription: string, overallEnergy: real,
                         energyLevel: string, duration: real, beatCount: nat, beatDescriptions: string)

  function BriefOf(c: Characteristics, beats: seq<Beat>, audioName: Option<string>): Brief
  {
    Brief(audioName, c.tempo, TempoDescription(c.tempo), c.overallEnergy, EnergyLevel(c.overallEnergy),
          c.duration, |beats|, BeatDescriptions(beats))
  }

  /** What the model call gives back: its text, or a thrown error. */
  datatype ModelReply = ModelThrew | ModelText(text: string)

  /** What `POST` answers: an error with its status, or the parsed prompts. */
  datatype Response<J> = Failure(status: int, error: string) | Prompts(prompts: J)

  /** Whether the request gets as far as the model call: it parses, carries
      the analysis with its beats (an empty list counts), and a non-empty API
      key is configured. */
  predicate CallsModel(body: Body, apiKey: Option<string>)
  {
    body.SceneRequest? && body.audioCharacteristics.Some? && body.audioCharacteristics.value.beats.Some? && Truthy(apiKey)
  }

  /** `POST` of the scene-prompt route. The model is `ask`, from what it is
      told to its reply, and `JSON.parse` is `parse`, `None` when it throws. */
  function ResponseOf<J>(body: Body, apiKey: Option<string>, ask: Brief -> ModelReply, parse: string -> Option<J>): Response<J>
  {
    if body.Unreadable? then Failure(500, FailedMessage)
    else if body.audioCharacteristics.None? || body.audioCharacteristics.value.beats.None? then Failure(400, MissingDataMessage)
    else if !Truthy(apiKey) then Failure(500, NoKeyMessage)
    else
      var c := body.audioCharacteristics.value;
      match ask(BriefOf(c, c.beats.value, body.audioName))
      case ModelThrew => Failure(500, FailedMessage)
      case ModelText(text) =>
        match parse(JsonCandidate(text))
        case None => Failure(500, ParseFailedMessage)
        case Some(prompts) => Prompts(prompts)
  }

  /** The checks come before the model call: a request that fails them is
      answered the same whatever the model and the parser would do, with 400
      for missing analysis data and 500 for a missing key. */
  lemma ChecksBeforeModel<J>(body: Body, apiKey: Option<string>, ask: Brief -> ModelReply, parse: string -> Option<J>,
                             ask2: Brief -> ModelReply, parse2: string -> Option<J>)
    requires !CallsModel(body, apiKey)
    ensures ResponseOf(body, apiKey, ask, parse) == ResponseOf(body, apiKey, ask2, parse2)
    ensures var r := ResponseOf(body, apiKey, ask, parse);
      r.Failure? && (r.status == 400 <==> body.SceneRequest? && (body.audioCharacteristics.None? || body.audioCharacteristics.value.beats.None?))
    ensures body.SceneRequest? && body.audioCharacteristics.Some? && body.audioCharacteristics.value.beats.Some? ==>
      ResponseOf(body, apiKey, ask, parse) == Failure(500, NoKeyMessage)
  {
  }

  /** Once the model is called with the song's brief, the route answers with
      prompts exactly when it replies with text and the part of that text the
      pattern picks parses; the prompts are what the parser returns, and
      every other outcome is a 500. */
  lemma PromptsWhenParsed<J>(body: Body, apiKey: Option<string>, ask: Brief -> ModelReply, parse: string -> Option<J>)
    requires CallsModel(body, apiKey)
    ensures var c := body.audioCharacteristics.value;
      var reply, r := ask(BriefOf(c, c.beats.value, body.audioName)), ResponseOf(body, apiKey, ask, parse);
      (r.Prompts? <==> (reply.ModelText? && parse(JsonCandidate(reply.text)).Some?))
      && (r.Prompts? ==> parse(JsonCandidate(reply.text)) == Some(r.prompts))
      && (r.Failure? ==> r.status == 500 && (r.error == ParseFailedMessage <==> reply.ModelText?))
      && (r.Failure? && reply.ModelThrew? ==> r.error == FailedMessage)
  {
  }
}
