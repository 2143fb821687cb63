/** What the numbers of a voice analysis mean: which windows can be scored, what they add up to, and what is
    reported. */
module VoiceScores {
  import opened Common
  import opened VoiceBatch
  import opened VoiceStream

  /** What the model says of one window of the recording. */
  function WindowAt<M>(model: Model<M>, s: seq<real>, start: nat): Prediction {
    model.predict(PatchAt(model, s, start))
  }

  /** Both scores are proportions, and together more than next to nothing. */
  predicate CanScore(p: Prediction) {
    p.Scores? && 0.0 <= p.instrumental <= 1.0 && 0.0 <= p.voice <= 1.0 && p.instrumental + p.voice > 0.000000001
  }

  predicate AllScore<M>(model: Model<M>, s: seq<real>, starts: seq<nat>) {
    forall i :: 0 <= i < |starts| ==> CanScore(WindowAt(model, s, starts[i]))
  }

  /** x is the voice's part of the two scores. */
  predicate IsShare(x: real, p: Prediction) {
    p.Scores? && x * (p.instrumental + p.voice) == p.voice
  }

  predicate Leads(p: Prediction) {
    p.Scores? && p.voice >= p.instrumental
  }

  predicate AreShares<M>(model: Model<M>, s: seq<real>, starts: seq<nat>, shares: seq<real>) {
    |shares| == |starts| && forall i :: 0 <= i < |starts| ==> IsShare(shares[i], WindowAt(model, s, starts[i]))
  }

  function Sum(xs: seq<real>): real {
    if xs == [] then 0.0 else Sum(xs[..|xs| - 1]) + xs[|xs| - 1]
  }

  /** The windows in which the voice scores no less than the rest. */
  function Leading<M>(model: Model<M>, s: seq<real>, starts: seq<nat>): set<nat> {
    set i: nat | i < |starts| && Leads(WindowAt(model, s, starts[i]))
  }

  function Added(s: Summary, share: real, leads: bool): Summary {
    Summary(s.scoreTotal + share, s.voiceLeading + (if leads then 1 else 0), s.windows + 1)
  }

  lemma ScoreOne(s: Summary, p: Prediction)
    ensures AddPrediction(s, p).Ok? <==> CanScore(p)
    ensures AddPrediction(s, p).Err? ==> AddPrediction(s, p).error == Inference
    ensures CanScore(p) ==>
              exists x :: IsShare(x, p) && AddPrediction(s, p) == Ok(Added(s, x, Leads(p)))
  {
    if CanScore(p) {
      var x := p.voice / (p.instrumental + p.voice);
      assert IsShare(x, p);
      assert x >= 0.5 <==> p.voice >= p.instrumental by {
        HalfOrMore(p.voice, p.instrumental);
      }
    }
  }

  lemma HalfOrMore(voice: real, instrumental: real)
    requires instrumental + voice > 0.0
    ensures voice / (instrumental + voice) >= 0.5 <==> voice >= instrumental
  {
    var x := voice / (instrumental + voice);
    assert x * (instrumental + voice) == voice;
  }

  lemma LeadingNext<M>(model: Model<M>, s: seq<real>, starts: seq<nat>)
    requires starts != []
    ensures var n := |starts| - 1;
            |Leading(model, s, starts)| ==
            |Leading(model, s, starts[..n])| + (if Leads(WindowAt(model, s, starts[n])) then 1 else 0)
  {
    var n := |starts| - 1;
    var before := Leading(model, s, starts[..n]);
    assert forall i: nat :: i < n ==> starts[..n][i] == starts[i];
    assert Leading(model, s, starts) == before + if Leads(WindowAt(model, s, starts[n])) then {n} else {};
  }

  lemma AllScoreNext<M>(model: Model<M>, s: seq<real>, starts: seq<nat>)
    requires starts != []
    ensures var n := |starts| - 1;
            AllScore(model, s, starts) <==> AllScore(model, s, starts[..n]) && CanScore(WindowAt(model, s, starts[n]))
  {
    var n := |starts| - 1;
    assert forall i :: 0 <= i < n ==> starts[..n][i] == starts[i];
  }

  lemma SharesNext<M>(model: Model<M>, s: seq<real>, starts: seq<nat>, shares: seq<real>, share: real)
    requires starts != [] && AreShares(model, s, starts[..|starts| - 1], shares)
    requires IsShare(share, WindowAt(model, s, starts[|starts| - 1]))
    ensures AreShares(model, s, starts, shares + [share]) && Sum(shares + [share]) == Sum(shares) + share
  {
    var n := |starts| - 1;
    assert forall i :: 0 <= i < n ==> starts[..n][i] == starts[i];
    assert (shares + [share])[..n] == shares;
  }

  /** Windows are summed up exactly if each can be scored; the sum is that of the voice's shares. */
  lemma {:induction false} SummarizeExactly<M>(model: Model<M>, s: seq<real>, starts: seq<nat>)
    returns (shares: seq<real>)
    ensures var r := Summarize(model, s, starts);
            && (r.Ok? <==> AllScore(model, s, starts))
            && (r.Err? ==> r.error == Inference)
            && (r.Ok? ==>
                  && AreShares(model, s, starts, shares) && r.value.scoreTotal == Sum(shares)
                  && r.value.voiceLeading == |Leading(model, s, starts)| && r.value.windows == |starts|)
    decreases |starts|
  {
    if starts == [] {
      shares := [];
      assert Leading(model, s, starts) == {};
    } else {
      var n := |starts| - 1;
      var front, p := Summarize(model, s, starts[..n]), WindowAt(model, s, starts[n]);
      var earlier := SummarizeExactly(model, s, starts[..n]);
      shares := earlier;
      AllScoreNext(model, s, starts);
      if front.Ok? {
        ScoreOne(front.value, p);
        LeadingNext(model, s, starts);
        if CanScore(p) {
          var x :| IsShare(x, p) && AddPrediction(front.value, p) == Ok(Added(front.value, x, Leads(p)));
          shares := earlier + [x];
          SharesNext(model, s, starts, earlier, x);
        }
      }
    }
  }

  /** A recording of finite samples is analysed exactly if it has 187 frames and each of its windows can be scored. The
      total is the sum over the windows of the voice's share, and the voice leads in the windows where it scores no
      less. */
  lemma ScoresExactly<M>(model: Model<M>, s: seq<real>) returns (shares: seq<real>)
    ensures var r, frames := BatchSummary(model, s), FrameCount(|s|); var starts := WindowStarts(frames);
            && (r.Ok? <==> s != [] && frames >= PATCH_FRAMES && AllScore(model, s, starts))
            && (r.Err? ==> r.error == Inference)
            && (r.Ok? ==>
                  && AreShares(model, s, starts, shares) && r.value.scoreTotal == Sum(shares)
                  && r.value.voiceLeading == |Leading(model, s, starts)| && r.value.windows == |starts|)
  {
    shares := SummarizeExactly(model, s, WindowStarts(FrameCount(|s|)));
  }

  // ----- the report -----

  datatype Report = Report(voiceScore: real, vocalCoverage: real, windows: nat)

  function Means(s: Summary): Result<Report, VoiceError> {
    if s.windows == 0 then Err(Inference)
    else Ok(Report(s.scoreTotal / s.windows as real, s.voiceLeading as real / s.windows as real, s.windows))
  }

  lemma RatioWithin(x: real, n: nat)
    requires n > 0 && 0.0 <= x <= n as real
    ensures 0.0 <= x / n as real <= 1.0 && x / n as real * n as real == x
  {
  }

  /** A report on n windows: both means are proportions, of these sums. */
  predicate IsReport(r: Report, n: nat, total: real, leading: nat) {
    && r.windows == n
    && 0.0 <= r.voiceScore <= 1.0 && r.voiceScore * n as real == total
    && 0.0 <= r.vocalCoverage <= 1.0 && r.vocalCoverage * n as real == leading as real
  }

  lemma MeansOf(s: Summary)
    requires s.windows > 0 && s.voiceLeading <= s.windows && 0.0 <= s.scoreTotal <= s.windows as real
    ensures Means(s).Ok? && IsReport(Means(s).value, s.windows, s.scoreTotal, s.voiceLeading)
  {
    RatioWithin(s.scoreTotal, s.windows);
    RatioWithin(s.voiceLeading as real, s.windows);
  }

  lemma BatchMeans<M>(model: Model<M>, s: seq<real>)
    requires BatchSummary(model, s).Ok?
    ensures var summary := BatchSummary(model, s).value; var r := Means(summary);
            r.Ok? && IsReport(r.value, summary.windows, summary.scoreTotal, summary.voiceLeading)
  {
    SuccessHasEveryWindow(model, s);
    MeansOf(BatchSummary(model, s).value);
  }

  /** Every stream that is analysed to the end is reported on: the voice score is the mean share of its windows, the
      coverage the part of them in which the voice leads. */
  lemma ReportMeans<M>(model: Model<M>, bytes: seq<u8>) returns (shares: seq<real>)
    requires Outcome(model, bytes).Ok?
    ensures var s := Feed(model, Decoded(model, bytes)); var r := Means(Outcome(model, bytes).value);
            && s.Ok? && r.Ok?
            && var starts := WindowStarts(FrameCount(|s.value|));
               && AreShares(model, s.value, starts, shares)
               && IsReport(r.value, |starts|, Sum(shares), |Leading(model, s.value, starts)|)
  {
    var s := Feed(model, Decoded(model, bytes)).value;
    shares := ScoresExactly(model, s);
    BatchMeans(model, s);
  }

  /** Analyse a stream and report on it. */
  method AnalyzeVoice<M>(model: Model<M>, chunks: seq<seq<u8>>) returns (r: Result<Report, VoiceError>)
    ensures var outcome := Outcome(model, Flatten(chunks));
            r == if outcome.Ok? then Means(outcome.value) else Err(outcome.error)
    ensures r.Ok? <==> Outcome(model, Flatten(chunks)).Ok?
  {
    var outcome := Analyze(model, chunks);
    if outcome.Err? {
      return Err(outcome.error);
    }
    ghost var shares := ReportMeans(model, Flatten(chunks));
    return Means(outcome.value);
  }
}
