/** The batch meaning of voice analysis: overlapping frames of the whole recording, overlapping patches of frames, and
    one summary over them. */
module VoiceBatch {
  import opened Common

  const FRAME_SIZE := 512
  const FRAME_HOP := 256
  const PATCH_FRAMES := 187
  const PATCH_HOP := 93
  const SAMPLE_RATE := 16_000
  const MAX_AUDIO_SECONDS := 86_400
  const SAMPLE_LIMIT := SAMPLE_RATE * MAX_AUDIO_SECONDS

  type u8 = n: int | 0 <= n < 256

  /** A decoded 32-bit float, as far as the pipeline looks at it. */
  datatype Sample = Finite(value: real) | NotFinite

  datatype VoiceError = Decode | TooLong | Inference

  /** What the model says of one patch: two scores, or nothing usable. */
  datatype Prediction = Scores(instrumental: real, voice: real) | Unusable

  datatype Summary = Summary(scoreTotal: real, voiceLeading: nat, windows: nat)

  const EMPTY_SUMMARY: Summary := Summary(0.0, 0, 0)

  /** The opaque parts: how four bytes become a sample, a frame becomes mel bands, and a patch is scored. */
  datatype Model<!M> = Model(decode: seq<u8> -> Sample, transform: seq<real> -> M, predict: seq<M> -> Prediction)

  function AddPrediction(s: Summary, p: Prediction): Result<Summary, VoiceError> {
    match p
    case Unusable => Err(Inference)
    case Scores(instrumental, voice) =>
      if !(0.0 <= instrumental <= 1.0) || !(0.0 <= voice <= 1.0) || instrumental + voice <= 0.000000001 then
          Err(Inference)
      else
        var score := voice / (instrumental + voice);
        Ok(Summary(s.scoreTotal + score, s.voiceLeading + (if score >= 0.5 then 1 else 0), s.windows + 1))
  }

  // ----- frames -----

  function SampleAt(s: seq<real>, p: int): real {
    if 0 <= p < |s| then s[p] else 0.0
  }

  /** Frame i holds the samples from 256(i-1) to 256(i+1), with zeros outside the recording. */
  function FrameAt(s: seq<real>, i: nat): (f: seq<real>)
    ensures |f| == FRAME_SIZE && forall k :: 0 <= k < FRAME_SIZE ==> f[k] == SampleAt(s, FRAME_HOP * (i - 1) + k)
  {
    seq(FRAME_SIZE, k requires 0 <= k => SampleAt(s, FRAME_HOP * (i - 1) + k))
  }

  function FrameCount(n: nat): nat {
    (n + FRAME_HOP - 1) / FRAME_HOP + 1
  }

  /** Frames that are complete once n samples have arrived. */
  function CompleteFrames(n: nat): nat {
    n / FRAME_HOP
  }

  // ----- patches -----

  /** The mel bands of frames [from, to). */
  function MelFrames<M>(model: Model<M>, s: seq<real>, from: nat, to: nat): (ms: seq<M>)
    requires from <= to
    ensures |ms| == to - from && forall k :: 0 <= k < to - from ==> ms[k] == model.transform(FrameAt(s, from + k))
  {
    seq(to - from, k requires 0 <= k => model.transform(FrameAt(s, from + k)))
  }

  function PatchAt<M>(model: Model<M>, s: seq<real>, start: nat): seq<M> {
    MelFrames(model, s, start, start + PATCH_FRAMES)
  }

  /** Starts of the windows on the regular grid that fit into `frames` frames. */
  function AlignedStarts(frames: nat): (starts: seq<nat>)
    ensures forall j :: 0 <= j < |starts| ==> starts[j] == PATCH_HOP * j && starts[j] + PATCH_FRAMES <= frames
  {
    if frames < PATCH_FRAMES then []
    else
      var last := (frames - PATCH_FRAMES) / PATCH_HOP;
      seq(last + 1, j requires 0 <= j <= last => PATCH_HOP * j)
  }

  /** The grid, and one window anchored at the end when the grid does not reach it. */
  function WindowStarts(frames: nat): seq<nat> {
    if frames < PATCH_FRAMES || (frames - PATCH_FRAMES) % PATCH_HOP == 0 then AlignedStarts(frames)
    else AlignedStarts(frames) + [frames - PATCH_FRAMES]
  }

  /** The predictions of the given windows added up in order; the first unusable one decides. */
  function Summarize<M>(model: Model<M>, s: seq<real>, starts: seq<nat>): Result<Summary, VoiceError> {
    if starts == [] then Ok(EMPTY_SUMMARY)
    else
      var sum :- Summarize(model, s, starts[..|starts| - 1]);
      AddPrediction(sum, model.predict(PatchAt(model, s, starts[|starts| - 1])))
  }

  /** The result for a whole recording of finite samples. */
  function BatchSummary<M>(model: Model<M>, s: seq<real>): Result<Summary, VoiceError> {
    if s == [] || FrameCount(|s|) < PATCH_FRAMES then Err(Inference)
    else Summarize(model, s, WindowStarts(FrameCount(|s|)))
  }

  // ----- what the definition amounts to -----

  predicate Covered(starts: seq<nat>, frame: nat) {
    exists i :: 0 <= i < |starts| && starts[i] <= frame < starts[i] + PATCH_FRAMES
  }

  /** There are ceil((F-187)/93)+1 windows, all different, and every frame lies in one of them. */
  lemma WindowsCoverEveryFrame(frames: nat)
    requires frames >= PATCH_FRAMES
    ensures var w := WindowStarts(frames);
            && |w| == (frames - PATCH_FRAMES + PATCH_HOP - 1) / PATCH_HOP + 1
            && (forall i, j :: 0 <= i < j < |w| ==> w[i] < w[j])
            && (forall i :: 0 <= i < |w| ==> w[i] + PATCH_FRAMES <= frames)
            && (forall f: nat :: f < frames ==> Covered(w, f))
  {
    var w := WindowStarts(frames);
    forall f: nat | f < frames ensures Covered(w, f) {
      var i := if f < PATCH_FRAMES then 0 else Min((f - PATCH_FRAMES) / PATCH_HOP + 1, |w| - 1);
      assert w[i] <= f < w[i] + PATCH_FRAMES;
    }
  }

  lemma {:induction false} SummarizeCounts<M>(model: Model<M>, s: seq<real>, starts: seq<nat>)
    requires Summarize(model, s, starts).Ok?
    ensures Summarize(model, s, starts).value.windows == |starts|
    ensures Summarize(model, s, starts).value.voiceLeading <= |starts|
    ensures 0.0 <= Summarize(model, s, starts).value.scoreTotal <= |starts| as real
    decreases |starts|
  {
    if starts != [] {
      SummarizeCounts(model, s, starts[..|starts| - 1]);
      var p := model.predict(PatchAt(model, s, starts[|starts| - 1]));
      RatioBounds(p.voice, p.instrumental);
    }
  }

  lemma RatioBounds(voice: real, instrumental: real)
    requires 0.0 <= voice && 0.0 <= instrumental && instrumental + voice > 0.0
    ensures 0.0 <= voice / (instrumental + voice) <= 1.0
  {
  }

  /** A successful analysis has exactly one prediction per window, and its mean score is a proportion. */
  lemma SuccessHasEveryWindow<M>(model: Model<M>, s: seq<real>)
    requires BatchSummary(model, s).Ok?
    ensures var r := BatchSummary(model, s).value; var frames := FrameCount(|s|);
            && r.windows == (frames - PATCH_FRAMES + PATCH_HOP - 1) / PATCH_HOP + 1
            && r.voiceLeading <= r.windows && 0.0 <= r.scoreTotal <= r.windows as real
  {
    WindowsCoverEveryFrame(FrameCount(|s|));
    SummarizeCounts(model, s, WindowStarts(FrameCount(|s|)));
  }

  // ----- growing recordings -----

  /** Completing one more frame brings at most the one window that ends with it. */
  lemma AlignedStartsGrow(frames: nat)
    ensures AlignedStarts(frames + 1) ==
            AlignedStarts(frames) +
            if frames + 1 >= PATCH_FRAMES && (frames + 1 - PATCH_FRAMES) % PATCH_HOP == 0 then
                [frames + 1 - PATCH_FRAMES] else []
  {
    var next := AlignedStarts(frames + 1);
    if frames + 1 >= PATCH_FRAMES && (frames + 1 - PATCH_FRAMES) % PATCH_HOP == 0 {
      assert next == AlignedStarts(frames) + [frames + 1 - PATCH_FRAMES];
    } else {
      assert next == AlignedStarts(frames);
    }
  }

  /** A frame completed within a prefix is the same frame of the whole recording. */
  lemma FrameOfPrefix(s: seq<real>, t: seq<real>, i: nat)
    requires i < CompleteFrames(|s|)
    ensures FrameAt(s + t, i) == FrameAt(s, i)
  {
  }

  lemma PatchOfPrefix<M>(model: Model<M>, s: seq<real>, t: seq<real>, start: nat)
    requires start + PATCH_FRAMES <= CompleteFrames(|s|)
    ensures PatchAt(model, s + t, start) == PatchAt(model, s, start)
  {
    forall i: nat | i < CompleteFrames(|s|) ensures FrameAt(s + t, i) == FrameAt(s, i) {
      FrameOfPrefix(s, t, i);
    }
  }

  lemma {:induction false} SummaryOfPrefix<M>(model: Model<M>, s: seq<real>, t: seq<real>, starts: seq<nat>)
    requires forall j :: 0 <= j < |starts| ==> starts[j] + PATCH_FRAMES <= CompleteFrames(|s|)
    ensures Summarize(model, s + t, starts) == Summarize(model, s, starts)
    decreases |starts|
  {
    if starts != [] {
      SummaryOfPrefix(model, s, t, starts[..|starts| - 1]);
      PatchOfPrefix(model, s, t, starts[|starts| - 1]);
    }
  }

  lemma {:induction false} SummarizeExtends<M>(model: Model<M>, s: seq<real>, starts: seq<nat>, more: seq<nat>)
    ensures Summarize(model, s, starts).Err? ==> Summarize(model, s, starts + more) == Summarize(model, s, starts)
    decreases |more|
  {
    if more == [] {
      assert starts + more == starts;
    } else {
      assert (starts + more)[..|starts + more| - 1] == starts + more[..|more| - 1];
      SummarizeExtends(model, s, starts, more[..|more| - 1]);
    }
  }

  lemma {:induction false} SummarizeFailsOneWay<M>(model: Model<M>, s: seq<real>, starts: seq<nat>)
    requires Summarize(model, s, starts).Err?
    ensures Summarize(model, s, starts) == Err(Inference)
    decreases |starts|
  {
    if Summarize(model, s, starts[..|starts| - 1]).Err? {
      SummarizeFailsOneWay(model, s, starts[..|starts| - 1]);
    }
  }

  /** A window that cannot be scored while streaming spoils the whole recording. */
  lemma EarlyFailureIsFinal<M>(model: Model<M>, s: seq<real>, frames: nat)
    requires s != [] && frames <= FrameCount(|s|) && Summarize(model, s, AlignedStarts(frames)).Err?
    ensures BatchSummary(model, s) == Err(Inference)
  {
    var all, early := WindowStarts(FrameCount(|s|)), AlignedStarts(frames);
    assert FrameCount(|s|) >= PATCH_FRAMES;
    assert all == early + all[|early|..];
    SummarizeExtends(model, s, early, all[|early|..]);
    SummarizeFailsOneWay(model, s, early);
  }

  // ----- streams -----

  /** The samples a byte stream decodes to; up to three bytes at its end decode to none. */
  function Decoded<M>(model: Model<M>, bytes: seq<u8>): (ss: seq<Sample>)
    ensures |ss| == |bytes| / 4
  {
    seq(|bytes| / 4, i requires 0 <= i < |bytes| / 4 => model.decode(bytes[4 * i..4 * i + 4]))
  }

  /** Which recording the samples make, or the first error met while they arrive. */
  function Feed<M>(model: Model<M>, samples: seq<Sample>): (r: Result<seq<real>, VoiceError>)
    ensures r.Ok? ==> |r.value| == |samples|
  {
    if samples == [] then Ok([])
    else
      var s :- Feed(model, samples[..|samples| - 1]);
      FeedOne(model, s, samples[|samples| - 1])
  }

  function FeedOne<M>(model: Model<M>, s: seq<real>, sample: Sample): (r: Result<seq<real>, VoiceError>)
    ensures r.Ok? ==> |r.value| == |s| + 1
  {
    if |s| >= SAMPLE_LIMIT then Err(TooLong)
    else if sample.NotFinite? then Err(Decode)
    else if Summarize(model, s + [sample.value], AlignedStarts(CompleteFrames(|s| + 1))).Err? then Err(Inference)
    else Ok(s + [sample.value])
  }

  /** The result of analysing a byte stream, however it was cut into chunks. */
  function Outcome<M>(model: Model<M>, bytes: seq<u8>): Result<Summary, VoiceError> {
    var s :- Feed(model, Decoded(model, bytes));
    if |bytes| % 4 != 0 then Err(Decode) else BatchSummary(model, s)
  }

  predicate AllFinite(samples: seq<Sample>) {
    forall i :: 0 <= i < |samples| ==> samples[i].Finite?
  }

  function Values(samples: seq<Sample>): (s: seq<real>)
    requires AllFinite(samples)
    ensures |s| == |samples|
  {
    seq(|samples|, i requires 0 <= i < |samples| => samples[i].value)
  }

  predicate Acceptable<M>(model: Model<M>, samples: seq<Sample>) {
    && |samples| <= SAMPLE_LIMIT && AllFinite(samples)
    && Summarize(model, Values(samples), AlignedStarts(CompleteFrames(|samples|))).Ok?
  }

  lemma AcceptablePrefix<M>(model: Model<M>, samples: seq<Sample>)
    requires samples != [] && Acceptable(model, samples)
    ensures Acceptable(model, samples[..|samples| - 1])
    ensures Values(samples) == Values(samples[..|samples| - 1]) + [samples[|samples| - 1].value]
  {
    var front, last := samples[..|samples| - 1], samples[|samples| - 1];
    assert Values(samples) == Values(front) + [last.value];
    EarlierSummary(model, Values(front), [last.value]);
  }

  lemma ValuesAppend(samples: seq<Sample>, sample: Sample)
    requires AllFinite(samples) && sample.Finite?
    ensures AllFinite(samples + [sample]) && Values(samples + [sample]) == Values(samples) + [sample.value]
  {
  }

  lemma FeedOneAccepts<M>(model: Model<M>, samples: seq<Sample>, sample: Sample)
    requires Acceptable(model, samples)
    ensures FeedOne(model, Values(samples), sample).Ok? <==> Acceptable(model, samples + [sample])
    ensures FeedOne(model, Values(samples), sample).Ok? ==>
            FeedOne(model, Values(samples), sample).value == Values(samples + [sample])
  {
    if sample.Finite? {
      ValuesAppend(samples, sample);
    } else {
      assert (samples + [sample])[|samples|] == sample;
    }
  }

  /** A stream is taken in exactly when it is short enough, finite throughout, and every window it completes scores. */
  lemma {:induction false} FeedAcceptsExactly<M>(model: Model<M>, samples: seq<Sample>)
    ensures Feed(model, samples).Ok? <==> Acceptable(model, samples)
    ensures Feed(model, samples).Ok? ==> AllFinite(samples) && Feed(model, samples).value == Values(samples)
    decreases |samples|
  {
    if samples == [] {
      assert Values(samples) == [];
    } else {
      var front, last := samples[..|samples| - 1], samples[|samples| - 1];
      assert samples == front + [last];
      FeedAcceptsExactly(model, front);
      if Acceptable(model, samples) {
        AcceptablePrefix(model, samples);
      }
      if Acceptable(model, front) {
        FeedOneAccepts(model, front, last);
      }
    }
  }

  lemma EarlierSummary<M>(model: Model<M>, s: seq<real>, t: seq<real>)
    requires Summarize(model, s + t, AlignedStarts(CompleteFrames(|s + t|))).Ok?
    ensures Summarize(model, s, AlignedStarts(CompleteFrames(|s|))).Ok?
  {
    var early, all := AlignedStarts(CompleteFrames(|s|)), AlignedStarts(CompleteFrames(|s + t|));
    assert all == early + all[|early|..];
    SummarizeExtends(model, s + t, early, all[|early|..]);
    SummaryOfPrefix(model, s, t, early);
  }

  /** The first error decides, whatever follows. */
  lemma {:induction false} FeedStops<M>(model: Model<M>, samples: seq<Sample>, more: seq<Sample>)
    requires Feed(model, samples).Err?
    ensures Feed(model, samples + more) == Feed(model, samples)
    decreases |more|
  {
    if more == [] {
      assert samples + more == samples;
    } else {
      assert (samples + more)[..|samples + more| - 1] == samples + more[..|more| - 1];
      FeedStops(model, samples, more[..|more| - 1]);
    }
  }

  /** Exactly which byte streams are analysed to the end. */
  lemma AnalysedExactly<M>(model: Model<M>, bytes: seq<u8>)
    ensures var samples := Decoded(model, bytes);
            Outcome(model, bytes).Ok? <==>
            && |bytes| % 4 == 0 && 0 < |samples| <= SAMPLE_LIMIT && AllFinite(samples)
            && FrameCount(|samples|) >= PATCH_FRAMES
            && Summarize(model, Values(samples), WindowStarts(FrameCount(|samples|))).Ok?
  {
    var samples := Decoded(model, bytes);
    FeedAcceptsExactly(model, samples);
    if samples != [] && AllFinite(samples) {
      var s := Values(samples);
      if Summarize(model, s, AlignedStarts(CompleteFrames(|s|))).Err? {
        EarlyFailureIsFinal(model, s, CompleteFrames(|s|));
      }
    }
  }

  /** The first sample that ends the intake is the i-th, and it is not finite. */
  predicate BreaksAt<M>(model: Model<M>, samples: seq<Sample>, i: nat) {
    i < |samples| && i < SAMPLE_LIMIT && samples[i].NotFinite? && Acceptable(model, samples[..i])
  }

  lemma FeedBreaksNext<M>(model: Model<M>, samples: seq<Sample>)
    requires samples != []
    ensures var n := |samples| - 1;
            Feed(model, samples) == Err(Decode) <==>
                Feed(model, samples[..n]) == Err(Decode) || BreaksAt(model, samples, n)
  {
    FeedAcceptsExactly(model, samples[..|samples| - 1]);
  }

  lemma BreaksEarlier<M>(model: Model<M>, samples: seq<Sample>, i: nat)
    requires samples != [] && i < |samples| - 1
    ensures BreaksAt(model, samples, i) <==> BreaksAt(model, samples[..|samples| - 1], i)
  {
    assert samples[..i] == samples[..|samples| - 1][..i];
  }

  lemma {:induction false} FeedBreaksExactly<M>(model: Model<M>, samples: seq<Sample>)
    ensures Feed(model, samples) == Err(Decode) <==> exists i: nat :: BreaksAt(model, samples, i)
    decreases |samples|
  {
    if samples != [] {
      FeedBreaksNext(model, samples);
      var front := samples[..|samples| - 1];
      FeedBreaksExactly(model, front);
      if i: nat :| BreaksAt(model, front, i) {
        BreaksEarlier(model, samples, i);
      }
      if i: nat :| BreaksAt(model, samples, i) && i < |samples| - 1 {
        BreaksEarlier(model, samples, i);
      }
    }
  }

  /** A stream whose last sample is cut short always fails: with a decode error exactly if all its whole samples are
      acceptable, or the first one that is not is not a finite number. */
  lemma TruncatedStreamFails<M>(model: Model<M>, bytes: seq<u8>)
    requires |bytes| % 4 != 0
    ensures var samples := Decoded(model, bytes);
            && Outcome(model, bytes).Err?
            && (Outcome(model, bytes).error == Decode <==>
               Acceptable(model, samples) || exists i: nat :: BreaksAt(model, samples, i))
  {
    FeedAcceptsExactly(model, Decoded(model, bytes));
    FeedBreaksExactly(model, Decoded(model, bytes));
  }
}
