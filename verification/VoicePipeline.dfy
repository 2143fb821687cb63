/** The streaming pipeline: one half-overlapping frame buffer, a bounded queue of mel frames, and windows predicted as
    they complete. It is tied to the batch definition of the same recording. */
module VoicePipeline {
  import opened Common
  import opened VoiceBatch

  class Pipeline<!M> {
    const model: Model<M>
    const frame: array<real>
    var filled: nat
    var frameStart: int
    var totalSamples: nat
    var emittedFrames: nat
    var lastPredictedFrame: nat
    var melFrames: seq<M>
    var summary: Summary
    ghost var samples: seq<real>

    /** Frames [0, emittedFrames) of the recording are out, and their windows are in the summary. */
    ghost predicate Emitted()
      reads this
    {
      && melFrames == MelFrames(model, samples, emittedFrames - Min(emittedFrames, PATCH_FRAMES), emittedFrames)
      && Summarize(model, samples, AlignedStarts(emittedFrames)) == Ok(summary)
      && lastPredictedFrame == LastPredicted(emittedFrames)
    }

    /** The buffer holds the recording from frameStart on, as far as it is filled. */
    ghost predicate Buffered()
      reads this, frame
    {
      && frame.Length == FRAME_SIZE && filled <= FRAME_SIZE && totalSamples == |samples|
      && frameStart == FRAME_HOP * (emittedFrames - 1)
      && forall k :: 0 <= k < filled ==> frame[k] == SampleAt(samples, frameStart + k)
    }

    /** Between two samples of the stream. */
    ghost predicate Streaming()
      reads this, frame
    {
      Buffered() && Emitted() && emittedFrames == CompleteFrames(|samples|) &&
          filled == FRAME_HOP + |samples| % FRAME_HOP
    }

    constructor (model: Model<M>)
      ensures Streaming() && samples == [] && this.model == model && fresh(frame)
    {
      this.model := model;
      frame := new real[FRAME_SIZE](_ => 0.0);
      filled := FRAME_HOP;
      frameStart := -FRAME_HOP;
      totalSamples, emittedFrames, lastPredictedFrame := 0, 0, 0;
      melFrames := [];
      summary := EMPTY_SUMMARY;
      samples := [];
    }

    method PredictWindow() returns (error: Option<VoiceError>)
      modifies this`summary, this`lastPredictedFrame
      ensures match AddPrediction(old(summary), model.predict(melFrames))
              case Ok(sum) => error.None? && summary == sum && lastPredictedFrame == emittedFrames
              case Err(e) => error == Some(e)
    {
      var added := AddPrediction(summary, model.predict(melFrames));
      if added.Err? {
        return Some(added.error);
      }
      summary := added.value;
      lastPredictedFrame := emittedFrames;
      return None;
    }

    method PushMelFrame()
      modifies this`melFrames, this`emittedFrames
      ensures emittedFrames == old(emittedFrames) + 1
      ensures melFrames == (if |old(melFrames)| == PATCH_FRAMES then old(melFrames)[1..] else old(melFrames)) +
              [model.transform(frame[..])]
    {
      if |melFrames| == PATCH_FRAMES {
        melFrames := melFrames[1..];
      }
      melFrames := melFrames + [model.transform(frame[..])];
      emittedFrames := emittedFrames + 1;
    }

    /** Emit the full buffer as the next frame and predict the window it completes, if any. */
    method EmitFrame() returns (error: Option<VoiceError>)
      requires Emitted() && frame.Length == FRAME_SIZE && frame[..] == FrameAt(samples, emittedFrames)
      modifies this`melFrames, this`emittedFrames, this`summary, this`lastPredictedFrame
      ensures emittedFrames == old(emittedFrames) + 1
      ensures error.None? ==> Emitted()
      ensures error.Some? ==> error.value == Inference && Summarize(model, samples, AlignedStarts(emittedFrames)).Err?
    {
      MelFramesPush(model, samples, emittedFrames);
      NextEmission(model, samples, emittedFrames);
      PushMelFrame();
      error := None;
      if IsDue(emittedFrames) {
        error := PredictWindow();
      }
    }

    method AdvanceFrame()
      requires frame.Length == FRAME_SIZE
      requires forall k :: 0 <= k < FRAME_SIZE ==> frame[k] == SampleAt(samples, frameStart + k)
      modifies this`filled, this`frameStart, frame
      ensures filled == FRAME_SIZE - FRAME_HOP && frameStart == old(frameStart) + FRAME_HOP
      ensures forall k :: 0 <= k < filled ==> frame[k] == SampleAt(samples, frameStart + k)
    {
      for k := 0 to FRAME_SIZE - FRAME_HOP
        modifies frame
        invariant forall j :: 0 <= j < k ==> frame[j] == SampleAt(samples, frameStart + FRAME_HOP + j)
        invariant forall j :: k <= j < FRAME_SIZE ==> frame[j] == SampleAt(samples, frameStart + j)
      {
        frame[k] := frame[FRAME_HOP + k];
      }
      filled := FRAME_SIZE - FRAME_HOP;
      frameStart := frameStart + FRAME_HOP;
    }

    /** Put one sample into the buffer. */
    method Store(value: real)
      requires Streaming() && filled < FRAME_SIZE
      modifies this`filled, this`totalSamples, this`samples, frame
      ensures samples == old(samples) + [value]
      ensures Buffered() && Emitted() && filled == old(filled) + 1
    {
      EmittedAppend(model, samples, value, emittedFrames);
      frame[filled] := value;
      filled := filled + 1;
      totalSamples := totalSamples + 1;
      samples := samples + [value];
    }

    /** Emit the frame the last sample filled and make room for the next half. */
    method CompleteFrame() returns (error: Option<VoiceError>)
      requires Buffered() && Emitted() && filled == FRAME_SIZE
      requires emittedFrames + 1 == CompleteFrames(|samples|) && |samples| % FRAME_HOP == 0
      modifies this`melFrames, this`emittedFrames, this`summary, this`lastPredictedFrame, this`filled,
               this`frameStart, frame
      ensures error.None? ==> Streaming()
      ensures error.Some? ==>
              error.value == Inference && Summarize(model, samples, AlignedStarts(CompleteFrames(|samples|))).Err?
    {
      assert frame[..] == FrameAt(samples, emittedFrames);
      error := EmitFrame();
      if error.None? {
        AdvanceFrame();
      }
    }

    /** Store a sample, and emit the frame it completes, if any. */
    method TakeSample(value: real) returns (error: Option<VoiceError>)
      requires Streaming()
      modifies this, frame
      ensures samples == old(samples) + [value]
      ensures error.None? ==> Streaming()
      ensures error.Some? ==>
              error.value == Inference && Summarize(model, samples, AlignedStarts(CompleteFrames(|samples|))).Err?
    {
      OneMoreSample(|samples|);
      Store(value);
      error := None;
      if filled == FRAME_SIZE {
        error := CompleteFrame();
      }
    }

    /** Take in one sample, unless the recording is full or the sample is not a number. */
    method AddSample(sample: Sample) returns (error: Option<VoiceError>)
      requires Streaming()
      modifies this, frame
      ensures match FeedOne(model, old(samples), sample)
              case Ok(s) => error.None? && samples == s && Streaming()
              case Err(e) => error == Some(e)
    {
      if totalSamples >= SAMPLE_LIMIT {
        return Some(TooLong);
      }
      if sample.NotFinite? {
        return Some(Decode);
      }
      error := TakeSample(sample.value);
    }

    /** Pad the buffer with silence, once the recording has ended. */
    method ZeroFill()
      requires Buffered() && |samples| <= frameStart + filled
      modifies frame
      ensures frame[..] == FrameAt(samples, emittedFrames) && Buffered()
    {
      for k := filled to FRAME_SIZE
        invariant forall j :: 0 <= j < k ==> frame[j] == SampleAt(samples, frameStart + j)
      {
        frame[k] := 0.0;
      }
    }

    /** Emit the frames the end of the recording still reaches into. */
    method EmitRest() returns (error: Option<VoiceError>)
      requires Streaming() && samples != []
      modifies this`melFrames, this`emittedFrames, this`summary, this`lastPredictedFrame, this`filled,
               this`frameStart, frame
      ensures error.None? ==> Emitted() && emittedFrames == FrameCount(|samples|)
      ensures error.Some? ==> error.value == Inference && BatchSummary(model, samples) == Err(Inference)
    {
      while true
        invariant Buffered() && Emitted()
        invariant frameStart < |samples| <= frameStart + filled
        decreases FrameCount(|samples|) - emittedFrames
      {
        ZeroFill();
        assert forall k :: 0 <= k < FRAME_SIZE ==> frame[k] == frame[..][k];
        error := EmitFrame();
        if error.Some? {
          EarlyFailureIsFinal(model, samples, emittedFrames);
          return;
        }
        if frameStart + FRAME_HOP >= totalSamples {
          return;
        }
        AdvanceFrame();
      }
    }

    /** Emit what is left, and anchor one window at the end unless the last one is already there. */
    method Finish() returns (r: Result<Summary, VoiceError>)
      requires Streaming()
      modifies this`melFrames, this`emittedFrames, this`summary, this`lastPredictedFrame, this`filled,
               this`frameStart, frame
      ensures r == BatchSummary(model, samples)
      ensures r.Ok? ==> emittedFrames == FrameCount(|samples|)
    {
      if totalSamples == 0 {
        return Err(Inference);
      }
      var error := EmitRest();
      if error.Some? {
        return Err(error.value);
      }
      LastWindow(model, samples, emittedFrames);
      if |melFrames| == PATCH_FRAMES && lastPredictedFrame != emittedFrames {
        error := PredictWindow();
        if error.Some? {
          return Err(error.value);
        }
      }
      if summary.windows == 0 {
        return Err(Inference);
      }
      return Ok(summary);
    }
  }

  /** A window of the regular grid ends with this many frames. */
  predicate IsDue(frames: nat) {
    frames >= PATCH_FRAMES && (frames - PATCH_FRAMES) % PATCH_HOP == 0
  }

  /** How many frames were out when the last window of the grid was predicted. */
  function LastPredicted(frames: nat): nat {
    if frames < PATCH_FRAMES then 0 else (frames - PATCH_FRAMES) / PATCH_HOP * PATCH_HOP + PATCH_FRAMES
  }

  /** Pushing the next frame and dropping the oldest keeps the queue a sliding window. */
  lemma MelFramesPush<M>(model: Model<M>, s: seq<real>, frames: nat)
    ensures var queue := MelFrames(model, s, frames - Min(frames, PATCH_FRAMES), frames);
            MelFrames(model, s, frames + 1 - Min(frames + 1, PATCH_FRAMES), frames + 1) ==
            (if |queue| == PATCH_FRAMES then queue[1..] else queue) + [model.transform(FrameAt(s, frames))]
  {
  }

  /** What one more frame does to the summary of the grid windows. */
  lemma NextEmission<M>(model: Model<M>, s: seq<real>, frames: nat)
    requires Summarize(model, s, AlignedStarts(frames)).Ok?
    ensures var before := Summarize(model, s, AlignedStarts(frames));
            var after := Summarize(model, s, AlignedStarts(frames + 1));
            if IsDue(frames + 1)
            then && after == AddPrediction(before.value, model.predict(PatchAt(model, s, frames + 1 - PATCH_FRAMES)))
                 && LastPredicted(frames + 1) == frames + 1
                 && (after.Err? ==> after.error == Inference)
            else after == before && LastPredicted(frames + 1) == LastPredicted(frames)
  {
    AlignedStartsGrow(frames);
    var starts := AlignedStarts(frames);
    if IsDue(frames + 1) {
      assert (starts + [frames + 1 - PATCH_FRAMES])[..|starts|] == starts;
    } else {
      assert starts + [] == starts;
    }
  }

  /** How the anchored window completes the summary, when there is one. */
  lemma LastWindow<M>(model: Model<M>, s: seq<real>, frames: nat)
    requires Summarize(model, s, AlignedStarts(frames)).Ok?
    ensures var grid := Summarize(model, s, AlignedStarts(frames)).value; var all :=
            Summarize(model, s, WindowStarts(frames));
            && (grid.windows == 0 <==> frames < PATCH_FRAMES)
            && if frames < PATCH_FRAMES || LastPredicted(frames) == frames then all == Ok(grid)
               else all == AddPrediction(grid, model.predict(PatchAt(model, s, frames - PATCH_FRAMES)))
  {
    var starts := AlignedStarts(frames);
    SummarizeCounts(model, s, starts);
    if frames >= PATCH_FRAMES && LastPredicted(frames) != frames {
      assert (starts + [frames - PATCH_FRAMES])[..|starts|] == starts;
    }
  }

  lemma OneMoreSample(n: nat)
    ensures if n % FRAME_HOP == FRAME_HOP - 1
            then CompleteFrames(n + 1) == CompleteFrames(n) + 1 && (n + 1) % FRAME_HOP == 0
            else CompleteFrames(n + 1) == CompleteFrames(n) && (n + 1) % FRAME_HOP == n % FRAME_HOP + 1
  {
  }

  /** A new sample changes no frame that is already out. */
  lemma EmittedAppend<M>(model: Model<M>, s: seq<real>, value: real, frames: nat)
    requires frames <= CompleteFrames(|s|)
    ensures MelFrames(model, s + [value], frames - Min(frames, PATCH_FRAMES), frames) ==
            MelFrames(model, s, frames - Min(frames, PATCH_FRAMES), frames)
    ensures Summarize(model, s + [value], AlignedStarts(frames)) == Summarize(model, s, AlignedStarts(frames))
  {
    forall i: nat | i < frames ensures FrameAt(s + [value], i) == FrameAt(s, i) {
      FrameOfPrefix(s, [value], i);
    }
    SummaryOfPrefix(model, s, [value], AlignedStarts(frames));
  }
}
