/** The beat detector and feature extractor of lib/audio-analysis.ts.

    The decoded first channel is a sequence of real samples with its sample
    rate; the Web Audio decoding in front of it is not modelled. Arithmetic is
    over the reals, so floating-point rounding is not modelled either. */
module AudioAnalysis {
  import opened Common
  import opened Text

  /** Samples summed per frame: the analyser's FFT size, not the frame length. */
  const FftSize: nat := 2048
  /** Frames kept in the trailing energy history. */
  const HistorySize: nat := 43
  /** History frames needed before any beat is accepted. */
  const MinHistory: nat := 10
  /** Sample-to-sample change below which a sample counts as bass. */
  const VariationThreshold: real := 0.1

  datatype Signal = Signal(channel: seq<real>, sampleRate: real)

  /** A decoded buffer has a positive sample rate and at least one sample. */
  predicate ValidSignal(sig: Signal)
  {
    sig.sampleRate > 0.0 && |sig.channel| > 0
  }

  datatype BeatTimestamp = BeatTimestamp(time: real, amplitude: real, confidence: real)

  // ---------------------------------------------------------------------------
  // Tuning constants derived from the sensitivity slider

  /** The factor C by which a frame must exceed the mean history energy. */
  function Threshold(sensitivity: real): (c: real)
    ensures 0.0 <= sensitivity <= 2.0 ==> 1.3 <= c <= 1.9
  {
    1.3 + sensitivity * 0.3
  }

  /** The gap, in seconds, that must be exceeded between two accepted beats. */
  function MinBeatGap(sensitivity: real): (gap: real)
    ensures 0.0 <= sensitivity <= 2.0 ==> 1.0 <= gap <= 2.0
  {
    1.0 + sensitivity * 0.5
  }

  // ---------------------------------------------------------------------------
  // Frames

  function Duration(sig: Signal): real
    requires ValidSignal(sig)
  {
    |sig.channel| as real / sig.sampleRate
  }

  /** `Math.floor(duration / sampleInterval)`. */
  function FrameCount(sig: Signal): nat
    requires ValidSignal(sig)
  {
    var q := Duration(sig) / 0.1;
    assert q >= 0.0;
    q.Floor
  }

  function FrameTime(i: nat): real
  {
    i as real * 0.1
  }

  function FrameStart(sig: Signal, i: nat): int
  {
    (i as real * (0.1 * sig.sampleRate)).Floor
  }

  function FrameEnd(sig: Signal, i: nat): int
  {
    MinInt(FrameStart(sig, i) + FftSize, |sig.channel|)
  }

  lemma MulStrictMono(a: real, b: real, c: real)
    requires a < b && c > 0.0
    ensures a * c < b * c
  {
  }

  /** Every frame the loop visits reads at least one sample, all in range. */
  lemma FrameInBounds(sig: Signal, i: nat)
    requires ValidSignal(sig) && i < FrameCount(sig)
    ensures 0 <= FrameStart(sig, i) < FrameEnd(sig, i) <= |sig.channel|
  {
    var len := |sig.channel| as real;
    var step := 0.1 * sig.sampleRate;
    var q := Duration(sig) / 0.1;
    assert q * step == len;
    assert (i as real) < q;
    MulStrictMono(i as real, q, step);
    var x := i as real * step;
    assert 0.0 <= x < len;
  }

  /** Sum of squared samples `xs[lo..hi]`. */
  function SumSq(xs: seq<real>, lo: int, hi: int): (r: real)
    requires 0 <= lo <= hi <= |xs|
    ensures r >= 0.0
    decreases hi - lo
  {
    if lo == hi then 0.0 else SumSq(xs, lo, hi - 1) + xs[hi - 1] * xs[hi - 1]
  }

  /** Mean squared amplitude of the samples a frame reads. */
  function FrameEnergy(sig: Signal, i: nat): (e: real)
    requires ValidSignal(sig) && i < FrameCount(sig)
    ensures e >= 0.0
  {
    FrameInBounds(sig, i);
    var start, end := FrameStart(sig, i), FrameEnd(sig, i);
    SumSq(sig.channel, start, end) / (end - start) as real
  }

  predicate NonNegative(es: seq<real>)
  {
    forall k :: 0 <= k < |es| ==> es[k] >= 0.0
  }

  /** The energy of every frame, in order. */
  function FrameEnergies(sig: Signal): (es: seq<real>)
    requires ValidSignal(sig)
    ensures |es| == FrameCount(sig) && NonNegative(es)
  {
    seq(FrameCount(sig), i requires 0 <= i < FrameCount(sig) => FrameEnergy(sig, i))
  }

  // ---------------------------------------------------------------------------
  // The trailing history, defined directly as the energies of the last frames

  /** The energies of frames `i-42 .. i` (fewer at the start): the history as
      it stands once frame `i` has been pushed and the oldest entry dropped. */
  function Window(es: seq<real>, i: nat): (w: seq<real>)
    requires i < |es|
    ensures 1 <= |w| <= HistorySize && |w| == i + 1 - WindowStart(i)
    ensures w[|w| - 1] == es[i]
  {
    es[WindowStart(i) .. i + 1]
  }

  /** The first frame the history of frame `i` still holds. */
  function WindowStart(i: nat): nat
  {
    if i + 1 <= HistorySize then 0 else i + 1 - HistorySize
  }

  /** One step of the history array: push, then drop the oldest entry when
      more than 43 are held. */
  function Pushed(history: seq<real>, e: real): seq<real>
  {
    var h := history + [e];
    if |h| > HistorySize then h[1..] else h
  }

  function Sum(xs: seq<real>): real
  {
    if xs == [] then 0.0 else Sum(xs[..|xs| - 1]) + xs[|xs| - 1]
  }

  function Mean(xs: seq<real>): real
    requires |xs| > 0
  {
    Sum(xs) / |xs| as real
  }

  lemma {:induction false} SumNonNegativeAtLeastLast(xs: seq<real>)
    requires NonNegative(xs)
    ensures Sum(xs) >= 0.0
    ensures |xs| > 0 ==> Sum(xs) >= xs[|xs| - 1]
    decreases |xs|
  {
    if xs != [] {
      SumNonNegativeAtLeastLast(xs[..|xs| - 1]);
    }
  }

  /** The history of the first frame holds its energy alone. */
  lemma FirstWindow(es: seq<real>)
    requires 0 < |es|
    ensures Window(es, 0) == [es[0]]
  {
    assert Window(es, 0) == es[0..1];
  }

  /** Pushing frame `i`'s energy onto the history of frame `i-1` gives the
      history of frame `i`. */
  lemma WindowStep(es: seq<real>, i: nat)
    requires 0 < i < |es|
    ensures Window(es, i) == Pushed(Window(es, i - 1), es[i])
  {
    var lo := WindowStart(i - 1);
    assert Window(es, i - 1) + [es[i]] == es[lo..i + 1];
    if i + 1 > HistorySize {
      assert es[lo..i + 1][1..] == es[lo + 1..i + 1];
    }
  }

  // ---------------------------------------------------------------------------
  // The detection rule

  /** Frame `i` exceeds C times the mean of its history, and the history holds
      at least ten frames. */
  predicate IsOnset(es: seq<real>, sensitivity: real, i: nat)
    requires i < |es|
  {
    var w := Window(es, i);
    es[i] > Threshold(sensitivity) * Mean(w) && |w| >= MinHistory
  }

  lemma WindowNonNegative(es: seq<real>, i: nat)
    requires i < |es| && NonNegative(es)
    ensures NonNegative(Window(es, i))
  {
    var w := Window(es, i);
    var lo := WindowStart(i);
    forall k | 0 <= k < |w| ensures w[k] >= 0.0 {
      assert w[k] == es[lo + k];
    }
  }

  /** An onset clears a strictly positive threshold, so its confidence ratio is
      well defined. */
  lemma OnsetThresholdPositive(es: seq<real>, sensitivity: real, i: nat)
    requires i < |es| && NonNegative(es) && 0.0 <= sensitivity <= 2.0
    requires IsOnset(es, sensitivity, i)
    ensures Threshold(sensitivity) * Mean(Window(es, i)) > 0.0
  {
    var w := Window(es, i);
    WindowNonNegative(es, i);
    SumNonNegativeAtLeastLast(w);
    assert es[i] > 0.0;
    assert Sum(w) > 0.0;
    assert Mean(w) > 0.0;
  }

  /** The onset test of every frame, in order. */
  function Onsets(es: seq<real>, sensitivity: real): (os: seq<bool>)
    ensures |os| == |es|
  {
    seq(|es|, i requires 0 <= i < |es| => IsOnset(es, sensitivity, i))
  }

  /** Frames accepted among frames `0 .. n-1`, in order, given which frames
      are onsets: an onset is accepted when it is the first, or when it lies
      strictly more than `gap` seconds after the last accepted one. */
  function Accepted(os: seq<bool>, gap: real, n: nat): seq<nat>
    requires n <= |os|
    decreases n
  {
    if n == 0 then []
    else
      var prev := Accepted(os, gap, n - 1);
      var i := n - 1;
      if os[i] && (prev == [] || FrameTime(i) - FrameTime(prev[|prev| - 1]) > gap)
      then prev + [i]
      else prev
  }

  /** Frames accepted as beats among frames `0 .. n-1`. */
  function BeatFrames(es: seq<real>, sensitivity: real, n: nat): seq<nat>
    requires n <= |es|
  {
    Accepted(Onsets(es, sensitivity), MinBeatGap(sensitivity), n)
  }

  predicate AllOnsets(es: seq<real>, sensitivity: real, frames: seq<nat>)
  {
    forall k :: 0 <= k < |frames| ==> frames[k] < |es| && IsOnset(es, sensitivity, frames[k])
  }

  /** Every frame lies in `[9, n)`: at least ten history frames precede it. */
  predicate FramesAfterWarmup(frames: seq<nat>, n: nat)
  {
    forall k :: 0 <= k < |frames| ==> MinHistory - 1 <= frames[k] < n
  }

  /** Consecutive frames are strictly more than `gap` seconds apart. */
  predicate FramesSpaced(frames: seq<nat>, gap: real)
  {
    forall k :: 0 < k < |frames| ==> FrameTime(frames[k]) - FrameTime(frames[k - 1]) > gap
  }

  predicate MarkedIn(os: seq<bool>, frames: seq<nat>)
  {
    forall k :: 0 <= k < |frames| ==> frames[k] < |os| && os[frames[k]]
  }

  /** No frame before the ninth is an onset. */
  predicate WarmOnsets(os: seq<bool>)
  {
    forall i :: 0 <= i < |os| && os[i] ==> MinHistory - 1 <= i
  }

  lemma OnsetsAreWarm(es: seq<real>, sensitivity: real)
    ensures WarmOnsets(Onsets(es, sensitivity))
  {
    var os := Onsets(es, sensitivity);
    forall i | 0 <= i < |os| && os[i] ensures MinHistory - 1 <= i {
      assert |Window(es, i)| >= MinHistory;
    }
  }

  lemma AcceptedExtend(os: seq<bool>, gap: real, prev: seq<nat>, i: nat)
    requires i < |os| && os[i] && WarmOnsets(os)
    requires MarkedIn(os, prev) && FramesAfterWarmup(prev, i) && FramesSpaced(prev, gap)
    requires prev == [] || FrameTime(i) - FrameTime(prev[|prev| - 1]) > gap
    ensures MarkedIn(os, prev + [i]) && FramesAfterWarmup(prev + [i], i + 1) && FramesSpaced(prev + [i], gap)
  {
    var fr := prev + [i];
    assert forall k :: 0 <= k < |prev| ==> fr[k] == prev[k];
  }

  lemma {:induction false} AcceptedFacts(os: seq<bool>, gap: real, n: nat)
    requires n <= |os| && WarmOnsets(os)
    ensures MarkedIn(os, Accepted(os, gap, n))
    ensures FramesAfterWarmup(Accepted(os, gap, n), n)
    ensures FramesSpaced(Accepted(os, gap, n), gap)
    decreases n
  {
    if n > 0 {
      AcceptedFacts(os, gap, n - 1);
      var prev := Accepted(os, gap, n - 1);
      if Accepted(os, gap, n) != prev {
        AcceptedExtend(os, gap, prev, n - 1);
      }
    }
  }

  /** What `BeatFrames` promises: frames are onsets, lie in `[9, n)`, and
      consecutive ones are strictly more than the minimum gap apart. */
  lemma BeatFramesFacts(es: seq<real>, sensitivity: real, n: nat)
    requires n <= |es|
    ensures AllOnsets(es, sensitivity, BeatFrames(es, sensitivity, n))
    ensures FramesAfterWarmup(BeatFrames(es, sensitivity, n), n)
    ensures FramesSpaced(BeatFrames(es, sensitivity, n), MinBeatGap(sensitivity))
  {
    var os := Onsets(es, sensitivity);
    OnsetsAreWarm(es, sensitivity);
    AcceptedFacts(os, MinBeatGap(sensitivity), n);
    var fr := BeatFrames(es, sensitivity, n);
    forall k | 0 <= k < |fr| ensures fr[k] < |es| && IsOnset(es, sensitivity, fr[k]) {
      assert os[fr[k]];
    }
  }

  /** The beat recorded for an onset frame. */
  function OnsetBeat(es: seq<real>, sensitivity: real, i: nat): BeatTimestamp
    requires i < |es| && NonNegative(es) && 0.0 <= sensitivity <= 2.0
    requires IsOnset(es, sensitivity, i)
  {
    OnsetThresholdPositive(es, sensitivity, i);
    BeatTimestamp(FrameTime(i), es[i], MinReal(1.0, es[i] / (Threshold(sensitivity) * Mean(Window(es, i)))))
  }

  /** An onset's energy strictly exceeds the positive threshold it is divided
      by, so the ratio is capped at exactly 1. */
  lemma OnsetConfidence(es: seq<real>, sensitivity: real, i: nat)
    requires i < |es| && NonNegative(es) && 0.0 <= sensitivity <= 2.0
    requires IsOnset(es, sensitivity, i)
    ensures OnsetBeat(es, sensitivity, i).confidence == 1.0
    ensures OnsetBeat(es, sensitivity, i).amplitude > 0.0
  {
    OnsetThresholdPositive(es, sensitivity, i);
    var t := Threshold(sensitivity) * Mean(Window(es, i));
    var e := es[i];
    assert e > t > 0.0;
    assert e / t > 1.0;
  }

  function BeatsOf(es: seq<real>, sensitivity: real, frames: seq<nat>): (bs: seq<BeatTimestamp>)
    requires NonNegative(es) && 0.0 <= sensitivity <= 2.0 && AllOnsets(es, sensitivity, frames)
    ensures |bs| == |frames|
  {
    seq(|frames|, k requires 0 <= k < |frames| => OnsetBeat(es, sensitivity, frames[k]))
  }

  /** The beats detected in a whole signal. */
  function DetectBeats(sig: Signal, sensitivity: real): seq<BeatTimestamp>
    requires ValidSignal(sig) && 0.0 <= sensitivity <= 2.0
  {
    var es := FrameEnergies(sig);
    BeatFramesFacts(es, sensitivity, |es|);
    BeatsOf(es, sensitivity, BeatFrames(es, sensitivity, |es|))
  }

  lemma BeatsOfAppend(es: seq<real>, sensitivity: real, frames: seq<nat>, i: nat)
    requires NonNegative(es) && 0.0 <= sensitivity <= 2.0 && AllOnsets(es, sensitivity, frames)
    requires i < |es| && IsOnset(es, sensitivity, i)
    ensures AllOnsets(es, sensitivity, frames + [i])
    ensures BeatsOf(es, sensitivity, frames + [i]) == BeatsOf(es, sensitivity, frames) + [OnsetBeat(es, sensitivity, i)]
  {
    var fr := frames + [i];
    assert forall k :: 0 <= k < |frames| ==> fr[k] == frames[k];
  }

  /** The loop's onset test on its history array is `IsOnset`. */
  lemma OnsetTest(es: seq<real>, sensitivity: real, i: nat, history: seq<real>, c: real, avg: real)
    requires i < |es| && history == Window(es, i) && avg == Mean(history) && c == Threshold(sensitivity)
    ensures c * avg == Threshold(sensitivity) * Mean(Window(es, i))
    ensures (es[i] > c * avg && |history| >= MinHistory) <==> IsOnset(es, sensitivity, i)
  {
  }

  /** A frame the scan rejects leaves the frames as they are. */
  lemma ScanReject(es: seq<real>, sensitivity: real, i: nat, frames: seq<nat>)
    requires i < |es| && frames == BeatFrames(es, sensitivity, i)
    requires !(IsOnset(es, sensitivity, i)
               && (frames == [] || FrameTime(i) - FrameTime(frames[|frames| - 1]) > MinBeatGap(sensitivity)))
    ensures BeatFrames(es, sensitivity, i + 1) == frames
  {
  }

  /** The loop's gap test on the beats found so far is the one `BeatFrames`
      applies to the frames found so far. */
  lemma GapTest(es: seq<real>, sensitivity: real, frames: seq<nat>, beats: seq<BeatTimestamp>, i: nat)
    requires NonNegative(es) && 0.0 <= sensitivity <= 2.0 && AllOnsets(es, sensitivity, frames)
    requires beats == BeatsOf(es, sensitivity, frames)
    ensures (|beats| == 0 || i as real * 0.1 - beats[|beats| - 1].time > MinBeatGap(sensitivity))
            <==> (frames == [] || FrameTime(i) - FrameTime(frames[|frames| - 1]) > MinBeatGap(sensitivity))
  {
  }

  /** A frame the scan accepts extends both the frames and the beats. */
  lemma ScanAccept(es: seq<real>, sensitivity: real, i: nat, frames: seq<nat>, beats: seq<BeatTimestamp>)
    requires i < |es| && NonNegative(es) && 0.0 <= sensitivity <= 2.0
    requires frames == BeatFrames(es, sensitivity, i) && AllOnsets(es, sensitivity, frames)
    requires beats == BeatsOf(es, sensitivity, frames)
    requires IsOnset(es, sensitivity, i)
    requires frames == [] || FrameTime(i) - FrameTime(frames[|frames| - 1]) > MinBeatGap(sensitivity)
    ensures Threshold(sensitivity) * Mean(Window(es, i)) > 0.0
    ensures BeatFrames(es, sensitivity, i + 1) == frames + [i]
    ensures AllOnsets(es, sensitivity, frames + [i])
    ensures BeatsOf(es, sensitivity, frames + [i])
            == beats + [BeatTimestamp(FrameTime(i), es[i], MinReal(1.0, es[i] / (Threshold(sensitivity) * Mean(Window(es, i)))))]
  {
    OnsetThresholdPositive(es, sensitivity, i);
    BeatsOfAppend(es, sensitivity, frames, i);
  }

  /** The inner loop of `analyzeBeatTimestamps`: the mean square of the samples
      a frame reads. */
  method MeasureFrame(sig: Signal, i: nat) returns (energy: real)
    requires ValidSignal(sig) && i < FrameCount(sig)
    ensures energy == FrameEnergy(sig, i)
  {
    FrameInBounds(sig, i);
    var start := (i as real * (0.1 * sig.sampleRate)).Floor;
    var end := MinInt(start + FftSize, |sig.channel|);
    energy := 0.0;
    var j := start;
    while j < end
      invariant start <= j <= end
      invariant energy == SumSq(sig.channel, start, j)
    {
      energy := energy + sig.channel[j] * sig.channel[j];
      j := j + 1;
    }
    assert start == FrameStart(sig, i) && end == FrameEnd(sig, i);
    energy := energy / (end - start) as real;
  }

  /** Push a frame's energy onto the history and drop the oldest entry
      beyond 43. */
  method PushHistory(ghost es: seq<real>, i: nat, energy: real, history: seq<real>) returns (history': seq<real>)
    requires i < |es| && energy == es[i]
    requires i == 0 ==> history == []
    requires i > 0 ==> history == Window(es, i - 1)
    ensures history' == Window(es, i)
  {
    if i > 0 {
      WindowStep(es, i);
    } else {
      FirstWindow(es);
    }
    history' := history + [energy];
    if |history'| > HistorySize {
      history' := history'[1..];
    }
  }

  /** One frame of the scan: an accepted frame extends the frames and the
      beats, a rejected one leaves both. */
  lemma ScanStep(es: seq<real>, sensitivity: real, i: nat, frames: seq<nat>, beats: seq<BeatTimestamp>,
                 accept: bool, beat: BeatTimestamp)
    requires i < |es| && NonNegative(es) && 0.0 <= sensitivity <= 2.0
    requires frames == BeatFrames(es, sensitivity, i) && AllOnsets(es, sensitivity, frames)
    requires beats == BeatsOf(es, sensitivity, frames)
    requires accept == (IsOnset(es, sensitivity, i)
                        && (frames == [] || FrameTime(i) - FrameTime(frames[|frames| - 1]) > MinBeatGap(sensitivity)))
    requires accept ==> beat == OnsetBeat(es, sensitivity, i)
    ensures var frames' := if accept then frames + [i] else frames;
      frames' == BeatFrames(es, sensitivity, i + 1) && AllOnsets(es, sensitivity, frames')
      && BeatsOf(es, sensitivity, frames') == if accept then beats + [beat] else beats
  {
    if accept {
      ScanAccept(es, sensitivity, i, frames, beats);
    } else {
      ScanReject(es, sensitivity, i, frames);
    }
  }

  /** Record a beat for frame `i` when the onset and gap tests pass, given
      the frame's history. */
  method RecordBeat(ghost es: seq<real>, sensitivity: real, c: real, minGap: real, i: nat, energy: real,
                    history: seq<real>, beats: seq<BeatTimestamp>, ghost frames: seq<nat>)
    returns (beats': seq<BeatTimestamp>, ghost frames': seq<nat>)
    requires i < |es| && NonNegative(es) && 0.0 <= sensitivity <= 2.0 && energy == es[i]
    requires c == Threshold(sensitivity) && minGap == MinBeatGap(sensitivity)
    requires history == Window(es, i)
    requires frames == BeatFrames(es, sensitivity, i) && AllOnsets(es, sensitivity, frames)
    requires beats == BeatsOf(es, sensitivity, frames)
    ensures frames' == BeatFrames(es, sensitivity, i + 1) && AllOnsets(es, sensitivity, frames')
    ensures beats' == BeatsOf(es, sensitivity, frames')
  {
    var avg := Mean(history);
    OnsetTest(es, sensitivity, i, history, c, avg);
    GapTest(es, sensitivity, frames, beats, i);
    var time := i as real * 0.1;
    var beat := BeatTimestamp(time, energy, 0.0);
    var accept := false;
    if energy > c * avg && |history| >= MinHistory {
      if |beats| == 0 || time - beats[|beats| - 1].time > minGap {
        OnsetThresholdPositive(es, sensitivity, i);
        beat := BeatTimestamp(time, energy, MinReal(1.0, energy / (c * avg)));
        accept := true;
      }
    }
    ScanStep(es, sensitivity, i, frames, beats, accept, beat);
    if accept {
      beats', frames' := beats + [beat], frames + [i];
    } else {
      beats', frames' := beats, frames;
    }
  }

  /** `analyzeBeatTimestamps`: scans the frames with a push/shift history. */
  method AnalyzeBeatTimestamps(sig: Signal, sensitivity: real) returns (beats: seq<BeatTimestamp>)
    requires ValidSignal(sig) && 0.0 <= sensitivity <= 2.0
    ensures beats == DetectBeats(sig, sensitivity)
  {
    ghost var es := FrameEnergies(sig);
    var total := FrameCount(sig);
    var c := Threshold(sensitivity);
    var minGap := MinBeatGap(sensitivity);
    var history: seq<real> := [];
    ghost var frames: seq<nat> := [];
    beats := [];
    var i := 0;
    while i < total
      invariant 0 <= i <= total
      invariant i == 0 ==> history == []
      invariant i > 0 ==> history == Window(es, i - 1)
      invariant frames == BeatFrames(es, sensitivity, i)
      invariant AllOnsets(es, sensitivity, frames)
      invariant beats == BeatsOf(es, sensitivity, frames)
    {
      var energy := MeasureFrame(sig, i);
      history := PushHistory(es, i, energy, history);
      beats, frames := RecordBeat(es, sensitivity, c, minGap, i, energy, history, beats, frames);
      i := i + 1;
    }
  }

  // ---------------------------------------------------------------------------
  // Properties of the detected beats

  /** Consecutive beats are strictly more than `gap` seconds apart. */
  predicate BeatsSpaced(bs: seq<BeatTimestamp>, gap: real)
  {
    forall k :: 0 < k < |bs| ==> bs[k].time - bs[k - 1].time > gap
  }

  /** Every beat lies on a frame boundary `i * 0.1` with `9 <= i < n`. */
  predicate BeatsOnFrames(bs: seq<BeatTimestamp>, n: nat)
  {
    forall k :: 0 <= k < |bs| ==>
      0.9 <= bs[k].time && exists i: nat :: MinHistory - 1 <= i < n && bs[k].time == FrameTime(i)
  }

  /** Every beat is a strict energy peak reported with confidence 1. */
  predicate FullConfidence(bs: seq<BeatTimestamp>)
  {
    forall k :: 0 <= k < |bs| ==> bs[k].confidence == 1.0 && bs[k].amplitude > 0.0
  }

  /** Consecutive beats are strictly more than the minimum gap apart, hence in
      strictly increasing time order. */
  lemma BeatsAreSpaced(sig: Signal, sensitivity: real)
    requires ValidSignal(sig) && 0.0 <= sensitivity <= 2.0
    ensures BeatsSpaced(DetectBeats(sig, sensitivity), MinBeatGap(sensitivity))
    ensures BeatsSpaced(DetectBeats(sig, sensitivity), 1.0)
  {
    var es := FrameEnergies(sig);
    BeatFramesFacts(es, sensitivity, |es|);
  }

  /** No beat is accepted before ten history frames exist, and every beat is
      reported at a frame's start time. */
  lemma BeatsOnFramesAfterWarmup(sig: Signal, sensitivity: real)
    requires ValidSignal(sig) && 0.0 <= sensitivity <= 2.0
    ensures BeatsOnFrames(DetectBeats(sig, sensitivity), FrameCount(sig))
  {
    var es := FrameEnergies(sig);
    var n := |es|;
    BeatFramesFacts(es, sensitivity, n);
    var fr := BeatFrames(es, sensitivity, n);
    var bs := DetectBeats(sig, sensitivity);
    forall k | 0 <= k < |bs|
      ensures 0.9 <= bs[k].time
      ensures exists i: nat :: MinHistory - 1 <= i < n && bs[k].time == FrameTime(i)
    {
      assert bs[k].time == FrameTime(fr[k]);
    }
  }

  /** Every beat has confidence exactly 1: its energy strictly exceeds the
      threshold it is divided by. */
  lemma BeatsHaveFullConfidence(sig: Signal, sensitivity: real)
    requires ValidSignal(sig) && 0.0 <= sensitivity <= 2.0
    ensures FullConfidence(DetectBeats(sig, sensitivity))
  {
    var es := FrameEnergies(sig);
    var n := |es|;
    BeatFramesFacts(es, sensitivity, n);
    var fr := BeatFrames(es, sensitivity, n);
    var bs := DetectBeats(sig, sensitivity);
    forall k | 0 <= k < |bs| ensures bs[k].confidence == 1.0 && bs[k].amplitude > 0.0 {
      OnsetConfidence(es, sensitivity, fr[k]);
    }
  }

  lemma {:induction false} SumSqOfSilence(xs: seq<real>, lo: int, hi: int)
    requires 0 <= lo <= hi <= |xs|
    requires forall j :: 0 <= j < |xs| ==> xs[j] == 0.0
    ensures SumSq(xs, lo, hi) == 0.0
    decreases hi - lo
  {
    if lo < hi {
      SumSqOfSilence(xs, lo, hi - 1);
    }
  }

  lemma MeanNonNegative(xs: seq<real>)
    requires |xs| > 0 && NonNegative(xs)
    ensures Mean(xs) >= 0.0
  {
    SumNonNegativeAtLeastLast(xs);
  }

  /** A silent frame is never an onset: its energy cannot exceed a
      non-negative threshold. */
  lemma SilentFrameIsNoOnset(es: seq<real>, sensitivity: real, i: nat)
    requires i < |es| && NonNegative(es) && es[i] == 0.0 && 0.0 <= sensitivity <= 2.0
    ensures !IsOnset(es, sensitivity, i)
  {
    var w := Window(es, i);
    WindowNonNegative(es, i);
    MeanNonNegative(w);
    var m := Mean(w);
    var c := Threshold(sensitivity);
    assert c * m >= 0.0;
  }

  lemma {:induction false} NoEnergyNoFrames(es: seq<real>, sensitivity: real, n: nat)
    requires n <= |es| && 0.0 <= sensitivity <= 2.0
    requires forall k :: 0 <= k < |es| ==> es[k] == 0.0
    ensures BeatFrames(es, sensitivity, n) == []
    decreases n
  {
    if n > 0 {
      NoEnergyNoFrames(es, sensitivity, n - 1);
      SilentFrameIsNoOnset(es, sensitivity, n - 1);
    }
  }

  /** An all-zero signal yields no beats, whatever the sensitivity. */
  lemma SilenceHasNoBeats(sig: Signal, sensitivity: real)
    requires ValidSignal(sig) && 0.0 <= sensitivity <= 2.0
    requires forall j :: 0 <= j < |sig.channel| ==> sig.channel[j] == 0.0
    ensures DetectBeats(sig, sensitivity) == []
  {
    var es := FrameEnergies(sig);
    forall i | 0 <= i < |es| ensures es[i] == 0.0 {
      FrameInBounds(sig, i);
      SumSqOfSilence(sig.channel, FrameStart(sig, i), FrameEnd(sig, i));
    }
    NoEnergyNoFrames(es, sensitivity, |es|);
  }

  /** Beats are at least eleven frames apart and start at frame 9, so a signal
      of `n` frames holds at most `(n + 1) / 11` beats. */
  lemma BeatCountBound(sig: Signal, sensitivity: real)
    requires ValidSignal(sig) && 0.0 <= sensitivity <= 2.0
    ensures 11 * |DetectBeats(sig, sensitivity)| <= FrameCount(sig) + 1
  {
    var es := FrameEnergies(sig);
    var n := |es|;
    BeatFramesFacts(es, sensitivity, n);
    var fr := BeatFrames(es, sensitivity, n);
    if |fr| > 0 {
      var k := 0;
      while k < |fr| - 1
        invariant 0 <= k <= |fr| - 1
        invariant fr[k] >= 9 + 11 * k
      {
        assert FrameTime(fr[k + 1]) - FrameTime(fr[k]) > 1.0;
        k := k + 1;
      }
    }
  }

  // ---------------------------------------------------------------------------
  // Audio characteristics

  datatype BeatFeature = BeatFeature(time: real, energy: Option<real>, bassPresence: real, highFreqPresence: real)

  /** `tempo` is `None` where the source computes NaN or an infinity. */
  datatype AudioCharacteristics = AudioCharacteristics(
    tempo: Option<int>, overallEnergy: real, duration: real, beats: seq<BeatFeature>)

  /** `Math.sqrt` stands for any function that maps non-negative numbers to
      non-negative numbers. */
  ghost predicate IsRoot(root: real -> real)
  {
    forall x :: 0.0 <= x ==> 0.0 <= root(x)
  }

  function Variation(xs: seq<real>, j: int): real
    requires 1 <= j < |xs|
  {
    if xs[j] - xs[j - 1] < 0.0 then xs[j - 1] - xs[j] else xs[j] - xs[j - 1]
  }

  /** Squared samples of `xs(lo..hi)` that change by less than 0.1 from their
      predecessor; the first sample of the window is never classified. */
  function BassSum(xs: seq<real>, lo: int, hi: int): (r: real)
    requires 0 <= lo <= hi <= |xs|
    ensures r >= 0.0
    decreases hi - lo
  {
    if hi <= lo + 1 then 0.0
    else BassSum(xs, lo, hi - 1) + (if Variation(xs, hi - 1) < VariationThreshold then xs[hi - 1] * xs[hi - 1] else 0.0)
  }

  /** The complementary bucket: samples that change by 0.1 or more. */
  function HighSum(xs: seq<real>, lo: int, hi: int): (r: real)
    requires 0 <= lo <= hi <= |xs|
    ensures r >= 0.0
    decreases hi - lo
  {
    if hi <= lo + 1 then 0.0
    else HighSum(xs, lo, hi - 1) + (if Variation(xs, hi - 1) < VariationThreshold then 0.0 else xs[hi - 1] * xs[hi - 1])
  }

  /** The two buckets split the window's energy except its first sample. */
  lemma {:induction false} BucketsCoverWindowButFirst(xs: seq<real>, lo: int, hi: int)
    requires 0 <= lo < hi <= |xs|
    ensures BassSum(xs, lo, hi) + HighSum(xs, lo, hi) == SumSq(xs, lo + 1, hi)
    decreases hi - lo
  {
    if hi > lo + 1 {
      BucketsCoverWindowButFirst(xs, lo, hi - 1);
    }
  }

  /** `Math.floor(beat.time * sampleRate)`. */
  function BeatWindowStart(sig: Signal, time: real): int
  {
    (time * sig.sampleRate).Floor
  }

  /** The start plus a 100 ms window of `Math.floor(0.1 * sampleRate)`
      samples, clamped to the end of the signal. */
  function BeatWindowEnd(sig: Signal, time: real): int
  {
    MinInt(BeatWindowStart(sig, time) + (0.1 * sig.sampleRate).Floor, |sig.channel|)
  }

  lemma BeatWindowInRange(sig: Signal, time: real)
    requires ValidSignal(sig) && time >= 0.0
    ensures 0 <= BeatWindowStart(sig, time) && BeatWindowEnd(sig, time) <= |sig.channel|
  {
    assert time * sig.sampleRate >= 0.0;
  }

  /** The arithmetic after the window loop: `total`, `bass` and `high` are the
      accumulated sums and `len` is `end - start`, zero or negative when the
      window is empty. Dividing by a zero length gives NaN, which is `None` for
      the energy and fails the `> 0` test for the shares. */
  function WindowFeature(time: real, total: real, bass: real, high: real, len: int, root: real -> real): BeatFeature
  {
    if len == 0 then BeatFeature(time, None, 0.5, 0.5)
    else
      var b := bass / len as real;
      var h := high / len as real;
      var freq := b + h;
      BeatFeature(time, Some(root(total / len as real)),
                  MinReal(1.0, if freq > 0.0 then b / freq else 0.5),
                  MinReal(1.0, if freq > 0.0 then h / freq else 0.5))
  }

  /** The features of the 100 ms window that starts at a beat; a window that
      starts at or past the end of the signal reads nothing. */
  function FeatureOf(sig: Signal, time: real, root: real -> real): BeatFeature
    requires ValidSignal(sig) && time >= 0.0
  {
    BeatWindowInRange(sig, time);
    var start, end := BeatWindowStart(sig, time), BeatWindowEnd(sig, time);
    if start < end then
      WindowFeature(time, SumSq(sig.channel, start, end), BassSum(sig.channel, start, end),
                    HighSum(sig.channel, start, end), end - start, root)
    else
      WindowFeature(time, 0.0, 0.0, 0.0, end - start, root)
  }

  /** Dividing both buckets by the same positive length keeps their shares. */
  lemma ScaledShares(bass: real, high: real, l: real)
    requires l > 0.0 && bass >= 0.0 && high >= 0.0 && bass + high > 0.0
    ensures bass / l + high / l > 0.0
    ensures (bass / l) / (bass / l + high / l) == bass / (bass + high)
    ensures (high / l) / (bass / l + high / l) == high / (bass + high)
  {
    var f := bass / l + high / l;
    assert f == (bass + high) / l;
    assert f * l == bass + high;
  }

  lemma SharesOfTotal(bass: real, high: real)
    requires bass >= 0.0 && high >= 0.0 && bass + high > 0.0
    ensures 0.0 <= bass / (bass + high) <= 1.0 && 0.0 <= high / (bass + high) <= 1.0
    ensures bass / (bass + high) + high / (bass + high) == 1.0
  {
    var t := bass + high;
    assert bass / t + high / t == t / t;
  }

  lemma NegativeLengthShares(bass: real, high: real, l: real)
    requires l < 0.0 && bass >= 0.0 && high >= 0.0
    ensures bass / l + high / l <= 0.0
  {
    assert bass / l <= 0.0 && high / l <= 0.0;
  }

  /** With non-negative buckets the shares are each in [0, 1]; they are the
      buckets' shares of their total and sum to 1 when the window is non-empty
      and that total is positive, and are both 0.5 otherwise. */
  lemma WindowShares(time: real, total: real, bass: real, high: real, len: int, root: real -> real)
    requires bass >= 0.0 && high >= 0.0
    ensures WindowFeature(time, total, bass, high, len, root).time == time
    ensures 0.0 <= WindowFeature(time, total, bass, high, len, root).bassPresence <= 1.0
    ensures 0.0 <= WindowFeature(time, total, bass, high, len, root).highFreqPresence <= 1.0
    ensures len > 0 && bass + high > 0.0 ==>
              WindowFeature(time, total, bass, high, len, root).bassPresence == bass / (bass + high)
              && WindowFeature(time, total, bass, high, len, root).bassPresence
                 + WindowFeature(time, total, bass, high, len, root).highFreqPresence == 1.0
    ensures !(len > 0 && bass + high > 0.0) ==>
              WindowFeature(time, total, bass, high, len, root).bassPresence == 0.5
              && WindowFeature(time, total, bass, high, len, root).highFreqPresence == 0.5
  {
    if len != 0 {
      var l := len as real;
      if len > 0 && bass + high > 0.0 {
        ScaledShares(bass, high, l);
        SharesOfTotal(bass, high);
      } else if len > 0 {
        assert bass == 0.0 && high == 0.0;
        assert bass / l + high / l == 0.0;
      } else {
        NegativeLengthShares(bass, high, l);
      }
    }
  }

  /** A beat's bass share is the fraction of its window's energy, first
      sample excepted, carried by slowly varying samples, and the two shares
      sum to 1; a window with no such energy gets 0.5 and 0.5. */
  lemma BeatShares(sig: Signal, time: real, root: real -> real)
    requires ValidSignal(sig) && time >= 0.0
    ensures 0.0 <= FeatureOf(sig, time, root).bassPresence <= 1.0
    ensures 0.0 <= FeatureOf(sig, time, root).highFreqPresence <= 1.0
    ensures var start, end := BeatWindowStart(sig, time), BeatWindowEnd(sig, time);
            0 <= start < end && SumSq(sig.channel, start + 1, end) > 0.0 ==>
              FeatureOf(sig, time, root).bassPresence == BassSum(sig.channel, start, end) / SumSq(sig.channel, start + 1, end)
              && FeatureOf(sig, time, root).bassPresence + FeatureOf(sig, time, root).highFreqPresence == 1.0
    ensures var start, end := BeatWindowStart(sig, time), BeatWindowEnd(sig, time);
            !(0 <= start < end && SumSq(sig.channel, start + 1, end) > 0.0) ==>
              FeatureOf(sig, time, root).bassPresence == 0.5 && FeatureOf(sig, time, root).highFreqPresence == 0.5
  {
    BeatWindowInRange(sig, time);
    var start, end := BeatWindowStart(sig, time), BeatWindowEnd(sig, time);
    if start < end {
      BucketsCoverWindowButFirst(sig.channel, start, end);
      WindowShares(time, SumSq(sig.channel, start, end), BassSum(sig.channel, start, end),
                   HighSum(sig.channel, start, end), end - start, root);
    } else {
      WindowShares(time, 0.0, 0.0, 0.0, end - start, root);
    }
  }

  /** The window loop of `analyzeAudioCharacteristics`: the sum of squares of
      `xs[lo..hi]` and its bass and high-frequency buckets; nothing is read
      when the window is empty or inverted. */
  method AccumulateWindow(xs: seq<real>, lo: int, hi: int) returns (total: real, bass: real, high: real)
    requires 0 <= lo && hi <= |xs|
    ensures lo <= hi ==> total == SumSq(xs, lo, hi) && bass == BassSum(xs, lo, hi) && high == HighSum(xs, lo, hi)
    ensures lo > hi ==> total == 0.0 && bass == 0.0 && high == 0.0
  {
    bass, high, total := 0.0, 0.0, 0.0;
    if lo > hi {
      return;
    }
    var i := lo;
    while i < hi
      invariant lo <= i <= hi
      invariant total == SumSq(xs, lo, i)
      invariant bass == BassSum(xs, lo, i)
      invariant high == HighSum(xs, lo, i)
    {
      var sample := xs[i];
      total := total + sample * sample;
      if i > lo {
        var variation := Variation(xs, i);
        if variation < VariationThreshold {
          bass := bass + sample * sample;
        } else {
          high := high + sample * sample;
        }
      }
      i := i + 1;
    }
  }

  /** The per-beat body of `analyzeAudioCharacteristics`. */
  method BeatFeatureAt(sig: Signal, time: real, root: real -> real) returns (f: BeatFeature)
    requires ValidSignal(sig) && time >= 0.0
    ensures f == FeatureOf(sig, time, root)
  {
    BeatWindowInRange(sig, time);
    var startSample := BeatWindowStart(sig, time);
    var endSample := BeatWindowEnd(sig, time);
    var totalBeatEnergy, bassEnergy, highEnergy := AccumulateWindow(sig.channel, startSample, endSample);
    f := WindowFeature(time, totalBeatEnergy, bassEnergy, highEnergy, endSample - startSample, root);
  }

  /** Tempo in beats per minute from the first and last beat: the mean of the
      consecutive intervals telescopes to `(last - first) / (n - 1)`. */
  function TempoOf(beats: seq<BeatTimestamp>): Option<int>
  {
    if |beats| < 2 then None
    else
      var mean := (beats[|beats| - 1].time - beats[0].time) / (|beats| - 1) as real;
      if mean == 0.0 then None else Some(Round(60.0 / mean))
  }

  /** The first loop of `analyzeAudioCharacteristics`: the signal's total
      energy. */
  method TotalEnergy(xs: seq<real>) returns (totalEnergy: real)
    ensures totalEnergy == SumSq(xs, 0, |xs|)
  {
    totalEnergy := 0.0;
    var i := 0;
    while i < |xs|
      invariant 0 <= i <= |xs|
      invariant totalEnergy == SumSq(xs, 0, i)
    {
      totalEnergy := totalEnergy + xs[i] * xs[i];
      i := i + 1;
    }
  }

  /** The tempo estimate of `analyzeAudioCharacteristics`: 60 over the mean of
      the intervals between consecutive beats, rounded. */
  method EstimateTempo(beats: seq<BeatTimestamp>) returns (tempo: Option<int>)
    ensures tempo == TempoOf(beats)
  {
    var beatIntervals: seq<real> := [];
    var i := 1;
    while i < |beats|
      invariant 1 <= i <= MaxInt(1, |beats|)
      invariant |beatIntervals| == i - 1
      invariant i < |beats| + 1 ==> Sum(beatIntervals) == beats[i - 1].time - beats[0].time
    {
      var next := beatIntervals + [beats[i].time - beats[i - 1].time];
      assert next[..|next| - 1] == beatIntervals;
      beatIntervals := next;
      i := i + 1;
    }
    if |beatIntervals| == 0 {
      // 0 / 0 is NaN, and so is the tempo.
      tempo := None;
    } else {
      assert i == |beats|;
      var avgInterval := Mean(beatIntervals);
      assert avgInterval == (beats[|beats| - 1].time - beats[0].time) / (|beats| - 1) as real;
      // A zero mean interval makes the tempo infinite.
      tempo := if avgInterval == 0.0 then None else Some(Round(60.0 / avgInterval));
    }
  }

  /** `analyzeAudioCharacteristics`. */
  method AnalyzeAudioCharacteristics(sig: Signal, beats: seq<BeatTimestamp>, root: real -> real)
    returns (ac: AudioCharacteristics)
    requires ValidSignal(sig) && IsRoot(root)
    requires forall k :: 0 <= k < |beats| ==> beats[k].time >= 0.0
    ensures ac.duration == Duration(sig)
    ensures ac.overallEnergy == MinReal(1.0, root(SumSq(sig.channel, 0, |sig.channel|) / |sig.channel| as real) * 10.0)
    ensures 0.0 <= ac.overallEnergy <= 1.0
    ensures ac.tempo == TempoOf(beats)
    ensures |ac.beats| == |beats|
    ensures forall k :: 0 <= k < |beats| ==> ac.beats[k] == FeatureOf(sig, beats[k].time, root)
  {
    var totalEnergy := TotalEnergy(sig.channel);
    var overallEnergy := root(totalEnergy / |sig.channel| as real);
    var tempo := EstimateTempo(beats);

    var features: seq<BeatFeature> := [];
    var i := 0;
    while i < |beats|
      invariant 0 <= i <= |beats|
      invariant |features| == i
      invariant forall k :: 0 <= k < i ==> features[k] == FeatureOf(sig, beats[k].time, root)
    {
      var f := BeatFeatureAt(sig, beats[i].time, root);
      features := features + [f];
      i := i + 1;
    }

    ac := AudioCharacteristics(tempo, MinReal(1.0, overallEnergy * 10.0), Duration(sig), features);
  }

  // ---------------------------------------------------------------------------
  // formatTime

  /** JavaScript's `x % m` for `m > 0`: the remainder has the sign of `x`. */
  function JsRemainder(x: real, m: real): real
    requires m > 0.0
  {
    var q := x / m;
    var t := if q >= 0.0 then q.Floor else -((-q).Floor);
    x - m * t as real
  }

  /** Minutes, seconds and hundredths shown by `formatTime`. */
  function TimeFields(seconds: real): (int, int, int)
  {
    ((seconds / 60.0).Floor, JsRemainder(seconds, 60.0).Floor, (JsRemainder(seconds, 1.0) * 100.0).Floor)
  }

  /** `formatTime`: `m:ss.hh`. */
  function FormatTime(seconds: real): string
  {
    var (mins, secs, hundredths) := TimeFields(seconds);
    IntToString(mins) + ":" + PadStart2(IntToString(secs)) + "." + PadStart2(IntToString(hundredths))
  }

  /** For a non-negative time the fields are in range, the seconds and
      hundredths are two zero-padded digits that read back as the fields, and
      the time shown is the input truncated to hundredths. */
  lemma FormatTimeShape(seconds: real)
    requires seconds >= 0.0
    ensures var (mins, secs, hundredths) := TimeFields(seconds);
            && 0 <= mins && 0 <= secs <= 59 && 0 <= hundredths <= 99
            && seconds - 0.01 < (mins * 60 + secs) as real + hundredths as real / 100.0 <= seconds
            && var ss, hh := PadStart2(NatToString(secs)), PadStart2(NatToString(hundredths));
               && FormatTime(seconds) == NatToString(mins) + ":" + ss + "." + hh
               && |ss| == 2 && |hh| == 2 && AllDigits(ss) && AllDigits(hh)
               && DecimalValue(ss) == secs && DecimalValue(hh) == hundredths
  {
    var (mins, secs, hundredths) := TimeFields(seconds);
    var r := JsRemainder(seconds, 60.0);
    assert r == seconds - 60.0 * mins as real;
    assert 0.0 <= r < 60.0;
    var whole := seconds.Floor;
    assert whole == mins * 60 + secs;
    var frac := JsRemainder(seconds, 1.0);
    assert frac == seconds - whole as real;
    assert 0.0 <= frac < 1.0;
    TwoDigitsRoundTrip(secs);
    TwoDigitsRoundTrip(hundredths);
  }
}
