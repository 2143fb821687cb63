/** The decoder's side of voice analysis: byte chunks cut anywhere are put back together into samples. */
module VoiceStream {
  import opened Common
  import opened VoiceBatch
  import opened VoicePipeline

  function Flatten(chunks: seq<seq<u8>>): seq<u8> {
    if chunks == [] then [] else Flatten(chunks[..|chunks| - 1]) + chunks[|chunks| - 1]
  }

  lemma {:induction false} FlattenAppend(a: seq<seq<u8>>, b: seq<seq<u8>>)
    ensures Flatten(a + b) == Flatten(a) + Flatten(b)
    decreases |b|
  {
    if b == [] {
      assert a + b == a;
    } else {
      assert (a + b)[..|a + b| - 1] == a + b[..|b| - 1];
      FlattenAppend(a, b[..|b| - 1]);
    }
  }

  lemma SliceOfAppend(a: seq<u8>, b: seq<u8>, from: nat, to: nat)
    requires from <= to <= |a + b|
    ensures to <= |a| ==> (a + b)[from..to] == a[from..to]
    ensures |a| <= from ==> (a + b)[from..to] == b[from - |a|..to - |a|]
  {
  }

  /** Whole samples decode the same wherever the bytes around them are cut. */
  lemma DecodedAppend<M>(model: Model<M>, a: seq<u8>, b: seq<u8>)
    requires |a| % 4 == 0
    ensures Decoded(model, a + b) == Decoded(model, a) + Decoded(model, b)
  {
    var both, front, back := Decoded(model, a + b), Decoded(model, a), Decoded(model, b);
    assert |both| == |front| + |back|;
    forall i | 0 <= i < |both| ensures both[i] == (front + back)[i] {
      SliceOfAppend(a, b, 4 * i, 4 * i + 4);
      if i >= |front| {
        assert 4 * i - |a| == 4 * (i - |front|);
      }
    }
  }

  lemma DecodedOne<M>(model: Model<M>, a: seq<u8>, bytes: seq<u8>)
    requires |a| % 4 == 0 && |bytes| == 4
    ensures Decoded(model, a + bytes) == Decoded(model, a) + [model.decode(bytes)]
  {
    DecodedAppend(model, a, bytes);
    assert bytes[0..4] == bytes;
    assert Decoded(model, bytes) == [model.decode(bytes)];
  }

  lemma FeedAppendOne<M>(model: Model<M>, samples: seq<Sample>, sample: Sample)
    ensures Feed(model, samples + [sample]) ==
            var s :- Feed(model, samples); FeedOne(model, s, sample)
  {
    assert (samples + [sample])[..|samples|] == samples;
  }

  /** An error within the stream is the outcome of the whole stream. */
  lemma ErrorIsOutcome<M>(model: Model<M>, a: seq<u8>, b: seq<u8>)
    requires |a| % 4 == 0 && Feed(model, Decoded(model, a)).Err?
    ensures Outcome(model, a + b) == Err(Feed(model, Decoded(model, a)).error)
  {
    DecodedAppend(model, a, b);
    FeedStops(model, Decoded(model, a), Decoded(model, b));
  }

  /** The pipeline holds the samples of `done`. */
  ghost predicate Fed<M>(pipeline: Pipeline<M>, done: seq<u8>)
    reads pipeline, pipeline.frame
  {
    && pipeline.Streaming() && |done| % 4 == 0
    && Feed(pipeline.model, Decoded(pipeline.model, done)) == Ok(pipeline.samples)
  }

  method AddFourBytes<M>(pipeline: Pipeline<M>, bytes: seq<u8>, ghost done: seq<u8>) returns (error: Option<VoiceError>)
    requires Fed(pipeline, done) && |bytes| == 4
    modifies pipeline, pipeline.frame
    ensures error.None? ==> Fed(pipeline, done + bytes)
    ensures error.Some? ==> Feed(pipeline.model, Decoded(pipeline.model, done + bytes)) == Err(error.value)
  {
    DecodedOne(pipeline.model, done, bytes);
    FeedAppendOne(pipeline.model, Decoded(pipeline.model, done), pipeline.model.decode(bytes));
    error := pipeline.AddSample(pipeline.model.decode(bytes));
  }

  lemma MoveFour(taken: seq<u8>, rest: seq<u8>)
    requires |rest| >= 4
    ensures (taken + rest[..4]) + rest[4..] == taken + rest
  {
  }

  /** Feed every whole sample of the pending bytes and the new chunk; keep what is left over. */
  method AddChunk<M>(pipeline: Pipeline<M>, pending: seq<u8>, bytes: seq<u8>, ghost done: seq<u8>)
    returns (error: Option<VoiceError>, rest: seq<u8>, ghost taken: seq<u8>)
    requires Fed(pipeline, done)
    modifies pipeline, pipeline.frame
    ensures taken + rest == done + (pending + bytes) && |taken| % 4 == 0
    ensures error.None? ==> |rest| < 4 && Fed(pipeline, taken)
    ensures error.Some? ==> Feed(pipeline.model, Decoded(pipeline.model, taken)) == Err(error.value)
  {
    error, rest, taken := None, pending + bytes, done;
    while |rest| >= 4
      invariant error.None? && taken + rest == done + (pending + bytes) && Fed(pipeline, taken)
    {
      MoveFour(taken, rest);
      assert |taken + rest[..4]| % 4 == 0;
      error := AddFourBytes(pipeline, rest[..4], taken);
      taken, rest := taken + rest[..4], rest[4..];
      if error.Some? {
        return;
      }
    }
  }

  /** Feed the chunks in turn, until one brings an error. */
  method AddChunks<M>(pipeline: Pipeline<M>, chunks: seq<seq<u8>>)
    returns (error: Option<VoiceError>, pending: seq<u8>, ghost done: seq<u8>)
    requires Fed(pipeline, [])
    modifies pipeline, pipeline.frame
    ensures error.None? ==> done + pending == Flatten(chunks) && |pending| < 4 && Fed(pipeline, done)
    ensures error.Some? ==> Outcome(pipeline.model, Flatten(chunks)) == Err(error.value)
  {
    error, pending, done := None, [], [];
    for i := 0 to |chunks|
      invariant error.None? && done + pending == Flatten(chunks[..i]) && |pending| < 4 && Fed(pipeline, done)
    {
      OneMoreChunk(chunks, i, done, pending);
      error, pending, done := AddChunk(pipeline, pending, chunks[i], done);
      if error.Some? {
        ErrorEndsStream(pipeline.model, chunks, i + 1, done, pending);
        return;
      }
    }
    assert chunks[..|chunks|] == chunks;
  }

  lemma OneMoreChunk(chunks: seq<seq<u8>>, i: nat, done: seq<u8>, pending: seq<u8>)
    requires i < |chunks| && done + pending == Flatten(chunks[..i])
    ensures done + (pending + chunks[i]) == Flatten(chunks[..i + 1])
  {
    assert chunks[..i + 1][..i] == chunks[..i];
  }

  lemma Rejoin(chunks: seq<seq<u8>>, i: nat)
    requires i <= |chunks|
    ensures Flatten(chunks) == Flatten(chunks[..i]) + Flatten(chunks[i..])
  {
    assert chunks == chunks[..i] + chunks[i..];
    FlattenAppend(chunks[..i], chunks[i..]);
  }

  lemma Reassociate(a: seq<u8>, b: seq<u8>, c: seq<u8>)
    ensures (a + b) + c == a + (b + c)
  {
  }

  lemma ErrorEndsStream<M>(model: Model<M>, chunks: seq<seq<u8>>, i: nat, done: seq<u8>, pending: seq<u8>)
    requires i <= |chunks| && done + pending == Flatten(chunks[..i])
    requires |done| % 4 == 0 && Feed(model, Decoded(model, done)).Err?
    ensures Outcome(model, Flatten(chunks)) == Err(Feed(model, Decoded(model, done)).error)
  {
    var rest := Flatten(chunks[i..]);
    Rejoin(chunks, i);
    Reassociate(done, pending, rest);
    ErrorIsOutcome(model, done, pending + rest);
  }

  /** The whole analysis, chunk by chunk: where the stream was cut makes no difference. */
  method Analyze<M>(model: Model<M>, chunks: seq<seq<u8>>) returns (r: Result<Summary, VoiceError>)
    ensures r == Outcome(model, Flatten(chunks))
  {
    var pipeline := new Pipeline(model);
    var error, pending, done := AddChunks(pipeline, chunks);
    if error.Some? {
      return Err(error.value);
    }
    LeftOver(model, done, pending);
    if pending != [] {
      return Err(Decode);
    }
    assert done + pending == done;
    r := pipeline.Finish();
  }

  /** Up to three bytes left over add no sample, and make the stream a truncated one. */
  lemma LeftOver<M>(model: Model<M>, done: seq<u8>, pending: seq<u8>)
    requires |done| % 4 == 0 && |pending| < 4
    ensures Decoded(model, done + pending) == Decoded(model, done)
    ensures |done + pending| % 4 == 0 <==> pending == []
  {
    DecodedAppend(model, done, pending);
    assert Decoded(model, pending) == [];
  }
}
