/** What moving through the ambient queue preserves. */
module PlaybackQueue {
  import opened Common
  import opened Playback

  /** The whole running order: what was played, what plays, what comes next. */
  function Order(a: Ambient): seq<TrackId> {
    Played(a) + a.queue
  }

  function Skip(s: State, ctx: Context): Result<Step, PlaybackError> {
    SkipNextStep(s, None, None, ctx)
  }

  /** In order, a skip into a non-empty queue only moves the cursor. */
  lemma SkipKeepsOrder(s: State, follow: Option<TrackId>, expected: Option<TrackId>, ctx: Context)
    requires s.ambient.shuffle == InOrder && s.ambient.queue != []
    requires SkipNextStep(s, follow, expected, ctx).Ok?
    ensures Order(SkipNextStep(s, follow, expected, ctx).value.state.ambient) == Order(s.ambient)
  {
    var t := SkipNextStep(s, follow, expected, ctx).value.state.ambient;
    var a := s.ambient;
    if t.queue != a.queue {
      assert a.queue == [a.queue[0]] + a.queue[1..];
    }
  }

  /** Skipping back undoes a skip into the queue: track, queue and history are what they were. */
  lemma SkipPreviousUndoesSkip(s: State, follow: Option<TrackId>, expected: Option<TrackId>, ctx: Context, laterMs: u64)
    requires s.ambient.shuffle == InOrder && s.ambient.queue != [] && s.ambient.current.Some? &&
             s.ambient.loopMode != Track
    requires SkipNextStep(s, follow, expected, ctx).Ok? && SkipNextStep(s, follow, expected, ctx).value.changed
    requires SkipPreviousStep(SkipNextStep(s, follow, expected, ctx).value.state, laterMs).Ok?
    ensures var b := SkipPreviousStep(SkipNextStep(s, follow, expected, ctx).value.state, laterMs).value.state.ambient;
            b.current == s.ambient.current && b.queue == s.ambient.queue && b.history == s.ambient.history
  {
    var a, t := s.ambient, SkipNextStep(s, follow, expected, ctx).value.state.ambient;
    assert t.history == a.history + [a.current.value];
    assert t.history[..|t.history| - 1] == a.history;
    assert [a.queue[0]] + a.queue[1..] == a.queue;
  }

  lemma TakeOneMultiset(q: seq<TrackId>, i: nat)
    requires i < |q|
    ensures multiset(q[..i] + q[i + 1..]) + multiset{q[i]} == multiset(q)
  {
    assert q == q[..i] + [q[i]] + q[i + 1..];
  }

  predicate KeepsTracks(a: Ambient, t: Ambient) {
    multiset(Order(t)) == multiset(Order(a))
  }

  lemma QueuedSkipKeepsTracks(a: Ambient, follow: Option<TrackId>, index: nat, anchor: Option<u64>)
    requires a.queue != [] && !(a.loopMode == Track && a.current.Some?) && index < |a.queue|
    ensures KeepsTracks(a, SkippedLane(a, follow, index, anchor))
  {
    var t := SkippedLane(a, follow, index, anchor);
    TakeOneMultiset(a.queue, index);
    assert multiset(Order(t)) == multiset(Played(a)) + multiset{a.queue[index]} + multiset(t.queue);
    assert multiset(Order(a)) == multiset(Played(a)) + multiset(a.queue);
  }

  lemma SizeOfOrder(a: Ambient)
    ensures |multiset(Order(a))| == |Order(a)|
  {
  }

  lemma SkippedLaneKeepsTracksExactly(a: Ambient, follow: Option<TrackId>, index: nat, anchor: Option<u64>)
    requires a.current.Some? || a.queue != []
    requires a.queue != [] && !(a.loopMode == Track && a.current.Some?) ==> index < |a.queue|
    ensures KeepsTracks(a, SkippedLane(a, follow, index, anchor))
            <==> a.queue != [] || a.loopMode == Queue || a.loopMode == Track
  {
    var t := SkippedLane(a, follow, index, anchor);
    if a.loopMode == Track && a.current.Some? {
      assert Order(t) == Order(a);
    } else if a.queue != [] {
      QueuedSkipKeepsTracks(a, follow, index, anchor);
    } else if a.loopMode == Queue {
      assert Order(t) == [Played(a)[0]] + Played(a)[1..] == Played(a) == Order(a);
    } else {
      assert |Order(t)| != |Order(a)|;
      SizeOfOrder(a);
      SizeOfOrder(t);
    }
  }

  /** A skip neither loses nor adds a track exactly when there is a queue to take from, or the loop mode repeats the
      track or the queue. Running off the end drops the current track from the order; following adds one to it. */
  lemma SkipKeepsTracksExactly(s: State, follow: Option<TrackId>, expected: Option<TrackId>, ctx: Context)
    requires SkipNextStep(s, follow, expected, ctx).Ok? && SkipNextStep(s, follow, expected, ctx).value.changed
    ensures KeepsTracks(s.ambient, SkipNextStep(s, follow, expected, ctx).value.state.ambient)
            <==> s.ambient.queue != [] || s.ambient.loopMode == Queue || s.ambient.loopMode == Track
  {
    var index := ChosenIndex(s.ambient, ctx.randomQueueIndex);
    SkippedLaneKeepsTracksExactly(s.ambient, follow, index.value, AmbientAnchor(s, ctx.nowMs));
  }

  /** Playing a sequence puts exactly its tracks in the running order, with the cursor at the requested one. */
  lemma PlaySequenceArranges(s: State, trackIds: seq<TrackId>, start: nat, source: Option<int>, nowMs: u64)
    requires trackIds != [] && PlaySequenceStep(s, trackIds, start, source, nowMs).Ok?
    ensures var a := PlaySequenceStep(s, trackIds, start, source, nowMs).value.state.ambient;
            Order(a) == trackIds && |a.history| == Min(start, |trackIds| - 1) &&
                a.current == Some(trackIds[|a.history|])
  {
    var at := Min(start, |trackIds| - 1);
    assert trackIds == trackIds[..at] + [trackIds[at]] + trackIds[at + 1..];
  }

  // ----- looping the queue -----

  /** A lane that loops its queue in order, with a current track. */
  predicate Circular(a: Ambient) {
    a.loopMode == Queue && a.shuffle == InOrder && a.current.Some?
  }

  /** Skips taken one after another, each with its own clock; None once one of them is rejected. */
  function Skips(s: State, ctxs: seq<Context>): Option<State>
    decreases ctxs
  {
    if ctxs == [] then Some(s)
    else if Skip(s, ctxs[0]).Err? then None
    else Skips(Skip(s, ctxs[0]).value.state, ctxs[1..])
  }

  lemma CircularSkip(s: State, ctx: Context)
    requires Circular(s.ambient) && Skip(s, ctx).Ok?
    ensures var t := Skip(s, ctx).value.state.ambient; var n := |Order(s.ambient)|;
            && Circular(t) && Order(t) == Order(s.ambient)
            && |t.history| == (if |s.ambient.history| + 1 == n then 0 else |s.ambient.history| + 1)
  {
    var a, t := s.ambient, Skip(s, ctx).value.state.ambient;
    if a.queue != [] {
      SkipKeepsOrder(s, None, None, ctx);
    } else {
      assert Order(t) == [Played(a)[0]] + Played(a)[1..] == Played(a);
    }
  }

  lemma {:induction false} CircularSkips(s: State, ctxs: seq<Context>)
    requires Circular(s.ambient) && |ctxs| <= |Order(s.ambient)| && Skips(s, ctxs).Some?
    ensures var t := Skips(s, ctxs).value.ambient;
            var n, cursor := |Order(s.ambient)|, |s.ambient.history| + |ctxs|;
            Circular(t) && Order(t) == Order(s.ambient) && |t.history| == (if cursor < n then cursor else cursor - n)
    decreases ctxs
  {
    if ctxs != [] {
      CircularSkip(s, ctxs[0]);
      CircularSkips(Skip(s, ctxs[0]).value.state, ctxs[1..]);
    }
  }

  /** Looping a queue of n tracks, n skips come back to the starting arrangement. */
  lemma FullCircle(s: State, ctxs: seq<Context>)
    requires Circular(s.ambient) && |ctxs| == |Order(s.ambient)| && Skips(s, ctxs).Some?
    ensures var t := Skips(s, ctxs).value.ambient;
            t.history == s.ambient.history && t.current == s.ambient.current && t.queue == s.ambient.queue
  {
    CircularSkips(s, ctxs);
    CursorDeterminesLane(s.ambient, Skips(s, ctxs).value.ambient);
  }

  lemma CursorDeterminesLane(a: Ambient, t: Ambient)
    requires a.current.Some? && t.current.Some? && Order(a) == Order(t) && |a.history| == |t.history|
    ensures a.history == t.history && a.current == t.current && a.queue == t.queue
  {
    var h := |a.history|;
    assert t.history == Order(t)[..h] && a.history == Order(a)[..h];
    assert t.current.value == Order(t)[h] && a.current.value == Order(a)[h];
    assert t.queue == Order(t)[h + 1..] && a.queue == Order(a)[h + 1..];
  }
}
