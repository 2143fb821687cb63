/** What a listener gets for each command: which track plays, from where, and what comes before and after it. */
module PlaybackAnswers {
  import opened Common
  import opened Playback
  import opened PlaybackInvariants
  import opened PlaybackRuns

  /** The position a reader at this time is given. */
  function AmbientNow(s: State, nowMs: u64): u64 {
    MaterializeAmbient(s.ambient, nowMs).positionMs
  }

  function InterruptNow(s: State, nowMs: u64): u64
    requires s.interrupt.Some?
  {
    MaterializeInterrupt(s.interrupt.value, nowMs).positionMs
  }

  /** The command is carried out, unless there is no next epoch; then it is refused. */
  predicate Carried(s: State, r: Result<Reduction, PlaybackError>) {
    if s.positionEpoch == U64_MAX then r == Err(PositionEpochOverflow)
    else r.Ok? && r.value.changed && r.value.nextState.positionEpoch == s.positionEpoch + 1
  }

  predicate LeftAlone(s: State, r: Result<Reduction, PlaybackError>) {
    r.Ok? && !r.value.changed && r.value.nextState == s
  }

  /** The ambient lane plays this track from this position, with this much around it. */
  predicate Plays(t: State, history: seq<TrackId>, track: TrackId, queue: seq<TrackId>, positionMs: u64, nowMs: u64) {
    && t.ambient.current == Some(track) && t.ambient.history == history && t.ambient.queue == queue
    && AmbientNow(t, nowMs) == positionMs
  }

  /** Nothing but the ambient lane, and whether the document plays, is different. */
  predicate OnlyAmbient(s: State, t: State) {
    && t.room == s.room && t.interrupt == s.interrupt
    && t.ambient.loopMode == s.ambient.loopMode && t.ambient.shuffle == s.ambient.shuffle
  }

  /** What was played, with the track that plays now. */
  function PlayedSoFar(a: Ambient): seq<TrackId> {
    a.history + match a.current { case Some(track) => [track] case None => [] }
  }

  // ----- moving the ambient lane -----

  /** A seek lands where it was asked to, up to the largest position, in the track that plays. */
  lemma SeekLands(s: State, positionMs: u64, ctx: Context)
    ensures var r := ReduceResult(s, AmbientSeek(positionMs), ctx);
            match s.ambient.current
            case None => LeftAlone(s, r)
            case Some(track) =>
              && Carried(s, r)
              && (r.Ok? ==>
                    var t := r.value.nextState;
                    && Plays(t, s.ambient.history, track, s.ambient.queue, Min(positionMs, MAX_POSITION_MS), ctx.nowMs)
                    && OnlyAmbient(s, t) && t.isPlaying == s.isPlaying
                    && t.ambient.sourcePlaylistId == s.ambient.sourcePlaylistId)
  {
  }

  /** A track played on its own starts at its beginning, with nothing before or after it. */
  lemma TrackStarts(s: State, track: TrackId, ctx: Context)
    ensures var r := ReduceResult(s, AmbientPlayTrack(track), ctx);
            && Carried(s, r)
            && (r.Ok? ==>
                  var t := r.value.nextState;
                  Plays(t, [], track, [], 0, ctx.nowMs) && OnlyAmbient(s, t) && t.isPlaying)
  {
  }

  /** A jump plays the entry asked for from its beginning; entries before it are dropped, those behind it stay. */
  lemma JumpPlaysEntry(s: State, index: nat, ctx: Context)
    ensures var r := ReduceResult(s, AmbientJumpQueue(index), ctx);
            if index >= |s.ambient.queue| then LeftAlone(s, r)
            else
              && Carried(s, r)
              && (r.Ok? ==>
                    var t := r.value.nextState;
                    && Plays(t, PlayedSoFar(s.ambient), s.ambient.queue[index], s.ambient.queue[index + 1..], 0,
                             ctx.nowMs)
                    && OnlyAmbient(s, t) && t.isPlaying)
  {
    assert s.ambient.history + [] == s.ambient.history;
  }

  /** A sequence plays from the entry asked for, the last one if there are fewer. */
  lemma SequenceStarts(s: State, trackIds: seq<TrackId>, startIndex: nat, source: Option<int>, ctx: Context)
    ensures var r := ReduceResult(s, AmbientPlaySequence(trackIds, startIndex, source), ctx);
            if trackIds == [] then LeftAlone(s, r)
            else
              var at := Min(startIndex, |trackIds| - 1);
              && Carried(s, r)
              && (r.Ok? ==>
                    var t := r.value.nextState;
                    && Plays(t, trackIds[..at], trackIds[at], trackIds[at + 1..], 0, ctx.nowMs)
                    && OnlyAmbient(s, t) && t.isPlaying && t.ambient.sourcePlaylistId == source)
  {
  }

  /** Going back plays the track played last and puts the current one first in the queue; with nothing played before,
      the current track starts anew. */
  lemma PreviousPlays(s: State, ctx: Context)
    ensures var r := ReduceResult(s, AmbientSkipPrevious, ctx); var a := s.ambient; var n := |a.history|;
            if n == 0 && a.current.None? then LeftAlone(s, r)
            else
              && Carried(s, r)
              && (r.Ok? ==>
                    var t := r.value.nextState;
                    && OnlyAmbient(s, t) && t.isPlaying == s.isPlaying
                    && (if n == 0 then Plays(t, [], a.current.value, a.queue, 0, ctx.nowMs)
                        else Plays(t, a.history[..n - 1], a.history[n - 1],
                                   match a.current { case Some(track) => [track] + a.queue case None => a.queue }, 0,
                                   ctx.nowMs)))
  {
    assert [] + s.ambient.queue == s.ambient.queue;
  }

  /** A skip is ignored if nothing could follow, or if the track it means to skip is no longer playing. */
  predicate SkipIsIdle(a: Ambient, expected: Option<TrackId>) {
    (expected.Some? && a.current != expected) || (a.current.None? && a.queue == [])
  }

  /** What follows in a lane: the same track if tracks are looped; else the queue's first entry, or the one drawn; else
      the first of everything played if the queue is looped; else the track to follow with, if asked to. */
  predicate Follows(a: Ambient, follow: Option<TrackId>, drawn: nat, t: State, nowMs: u64) {
    if a.loopMode == LoopMode.Track && a.current.Some? then Plays(t, a.history, a.current.value, a.queue, 0, nowMs)
    else if a.queue != [] then
      var at := if a.shuffle == InOrder then 0 else drawn;
      at < |a.queue| && Plays(t, PlayedSoFar(a), a.queue[at], a.queue[..at] + a.queue[at + 1..], 0, nowMs)
    else if a.loopMode == LoopMode.Queue then
      PlayedSoFar(a) != [] && Plays(t, [], PlayedSoFar(a)[0], PlayedSoFar(a)[1..], 0, nowMs)
    else if a.loopMode == LoopMode.Follow && follow.Some? then Plays(t, PlayedSoFar(a), follow.value, [], 0, nowMs)
    else t.ambient.current.None? && !t.isPlaying && t.ambient.history == a.history && t.ambient.queue == []
  }

  /** A drawn entry is needed exactly for a shuffled queue that a skip takes from. */
  predicate NeedsDraw(a: Ambient) {
    a.queue != [] && a.shuffle == Random && !(a.loopMode == LoopMode.Track && a.current.Some?)
  }

  lemma LaneFollows(s: State, follow: Option<TrackId>, index: nat, t: State, nowMs: u64)
    requires s.ambient.current.Some? || s.ambient.queue != []
    requires s.ambient.queue != [] && !(s.ambient.loopMode == LoopMode.Track && s.ambient.current.Some?) ==>
               index < |s.ambient.queue| && (s.ambient.shuffle == InOrder ==> index == 0)
    requires t.ambient == SkippedLane(s.ambient, follow, index, AmbientAnchor(s, nowMs))
    requires t.isPlaying == (s.isPlaying && t.ambient.current.Some?)
    ensures Follows(s.ambient, follow, index, t, nowMs)
  {
    var a := s.ambient;
    assert a.history + [] == a.history;
    assert a.queue != [] ==> a.queue[..0] + a.queue[1..] == a.queue[1..];
  }

  /** A skip plays what follows, or is refused because there is no next epoch or no valid draw. */
  lemma SkipPlaysNext(s: State, follow: Option<TrackId>, expected: Option<TrackId>, ctx: Context)
    ensures var r := ReduceResult(s, AmbientSkipNext(follow, expected), ctx); var a, draw := s.ambient,
            ctx.randomQueueIndex;
            if SkipIsIdle(a, expected) then LeftAlone(s, r)
            else if s.positionEpoch == U64_MAX then r == Err(PositionEpochOverflow)
            else if NeedsDraw(a) && draw.None? then r == Err(RandomChoiceRequired)
            else if NeedsDraw(a) && draw.value >= |a.queue| then r == Err(RandomChoiceOutOfRange)
            else
              && Carried(s, r) && OnlyAmbient(s, r.value.nextState)
              && Follows(a, follow, if draw.Some? then draw.value else 0, r.value.nextState, ctx.nowMs)
              && (r.value.nextState.isPlaying <==> s.isPlaying && r.value.nextState.ambient.current.Some?)
  {
    var r := ReduceResult(s, AmbientSkipNext(follow, expected), ctx);
    if r.Ok? && r.value.changed {
      var index := ChosenIndex(s.ambient, ctx.randomQueueIndex).value;
      LaneFollows(s, follow, index, r.value.nextState, ctx.nowMs);
    }
  }

  /** Stopping empties the lane. */
  lemma StopEmpties(s: State, ctx: Context)
    ensures var r := ReduceResult(s, AmbientStop, ctx); var a := s.ambient;
            if a.current.None? && a.queue == [] && a.history == [] && a.positionMs == 0 then LeftAlone(s, r)
            else
              && Carried(s, r)
              && (r.Ok? ==>
                    var t := r.value.nextState;
                    && t.ambient.current.None? && t.ambient.queue == [] && t.ambient.history == []
                    && AmbientNow(t, ctx.nowMs) == 0 && OnlyAmbient(s, t) && t.isPlaying == s.isPlaying)
  {
  }

  // ----- editing the queue -----

  /** An edit of the queue: everything but the queue and where it came from stays, epoch included. */
  predicate OnlyQueue(s: State, t: State) {
    t == s.(ambient := s.ambient.(queue := t.ambient.queue, sourcePlaylistId := t.ambient.sourcePlaylistId))
  }

  /** A track goes into the queue at the place asked for, at the end if none is asked for or there are fewer entries;
      the others keep their order. */
  lemma EnqueuePlaces(s: State, track: TrackId, position: Option<nat>, ctx: Context)
    ensures var r := ReduceResult(s, AmbientEnqueue(track, position), ctx); var queue := s.ambient.queue;
            && r.Ok? && r.value.changed && OnlyQueue(s, r.value.nextState)
            && r.value.nextState.ambient.sourcePlaylistId == s.ambient.sourcePlaylistId
            && var after := r.value.nextState.ambient.queue;
               var at := if position.Some? && position.value < |queue| then position.value else |queue|;
               && |after| == |queue| + 1 && after[at] == track
               && after[..at] == queue[..at] && after[at + 1..] == queue[at..]
  {
    var queue := s.ambient.queue;
    var at := Min(if position.Some? then position.value else |queue|, |queue|);
    var after := queue[..at] + [track] + queue[at..];
    assert after[..at] == queue[..at] && after[at + 1..] == queue[at..];
  }

  /** Setting or clearing the queue leaves exactly the tracks asked for. */
  lemma QueueIsSet(s: State, trackIds: seq<TrackId>, ctx: Context)
    ensures var set_, cleared := ReduceResult(s, AmbientSetQueue(trackIds), ctx),
            ReduceResult(s, AmbientClearQueue, ctx);
            && set_.Ok? && set_.value.nextState.ambient.queue == trackIds && OnlyQueue(s, set_.value.nextState)
            && cleared.Ok? && cleared.value.nextState.ambient.queue == [] && OnlyQueue(s, cleared.value.nextState)
            && (set_.value.changed <==> s.ambient.queue != trackIds) &&
               (cleared.value.changed <==> s.ambient.queue != [])
            && set_.value.nextState.ambient.sourcePlaylistId ==
               (if s.ambient.queue == trackIds then s.ambient.sourcePlaylistId else None)
            && cleared.value.nextState.ambient.sourcePlaylistId == s.ambient.sourcePlaylistId
  {
  }

  /** Loop and shuffle mode become those asked for, and nothing else changes. */
  lemma ModesAreSet(s: State, loopMode: LoopMode, shuffle: ShuffleMode, ctx: Context)
    ensures var loops, shuffles := ReduceResult(s, AmbientSetLoop(loopMode), ctx),
                                   ReduceResult(s, AmbientSetShuffle(shuffle), ctx);
            && loops.Ok? && loops.value.nextState == s.(ambient := s.ambient.(loopMode := loopMode))
            && shuffles.Ok? && shuffles.value.nextState == s.(ambient := s.ambient.(shuffle := shuffle))
            && (loops.value.changed <==> s.ambient.loopMode != loopMode)
            && (shuffles.value.changed <==> s.ambient.shuffle != shuffle)
  {
  }

  // ----- playing and pausing -----

  /** The document plays or not as asked. The ambient position stays what it is at that moment; afterwards it stands
      while the document is paused. */
  lemma PlayingIsSet(s: State, playing: bool, ctx: Context, laterMs: u64)
    requires LanesOk(s, ctx.nowMs) && ctx.nowMs <= laterMs
    ensures var r := ReduceResult(s, SetPlaying(playing), ctx);
            && r.Ok? && (r.value.changed <==> s.isPlaying != playing)
            && var t := r.value.nextState;
               && t.isPlaying == playing && t.positionEpoch == s.positionEpoch
               && t.ambient.current == s.ambient.current && t.ambient.queue == s.ambient.queue
               && t.ambient.history == s.ambient.history && OnlyAmbient(s, t)
               && AmbientNow(t, ctx.nowMs) == AmbientNow(s, ctx.nowMs)
               && (!playing ==> AmbientNow(t, laterMs) == AmbientNow(s, ctx.nowMs))
  {
  }

  /** A report sets the position of the lane that is heard, up to the largest, and is remembered with its sender and its
      time; track and epoch stay, and so does the other lane. */
  lemma ReportIsTaken(s: State, deviceId: string, positionMs: u64, ctx: Context)
    ensures var r := ReduceResult(s, ReportPosition(deviceId, positionMs), ctx);
            var capped := Min(positionMs, MAX_POSITION_MS);
            && r.Ok? && r.value.changed && r.value.persistence.Throttled? && !r.value.publishState
            && var t := r.value.nextState;
               && t.room.lastPositionReport == Some(PositionReport(deviceId, capped, ctx.unixSeconds))
               && t.positionEpoch == s.positionEpoch && t.isPlaying == s.isPlaying
               && (match s.interrupt
                   case Some(i) =>
                     && t.ambient == s.ambient && t.interrupt.Some? && InterruptNow(t, ctx.nowMs) == capped
                     && t.interrupt.value.current == i.current && t.interrupt.value.queue == i.queue
                   case None =>
                     && t.interrupt.None? && OnlyAmbient(s, t.(room := s.room))
                     && t.ambient.current == s.ambient.current && t.ambient.queue == s.ambient.queue
                     && t.ambient.history == s.ambient.history && AmbientNow(t, ctx.nowMs) == capped)
  {
  }

  // ----- the interrupt lane -----

  /** The interrupt lane plays this track from this position, with these to follow. */
  predicate Interrupts(t: State, track: TrackId, queue: seq<TrackId>, positionMs: u64, nowMs: u64) {
    && t.interrupt.Some? && t.interrupt.value.current == track && t.interrupt.value.queue == queue
    && InterruptNow(t, nowMs) == positionMs
  }

  predicate FadesAs(t: State, fade: InterruptFade)
    requires t.interrupt.Some?
  {
    var i := t.interrupt.value;
    && i.returnToAmbient == fade.returnToAmbient && i.fadeInMs == fade.fadeInMs && i.fadeOutMs == fade.fadeOutMs
    && i.duckTo == fade.duckTo
  }

  /** An interrupt plays its first track from the beginning with the fades asked for. Under it the ambient lane reads as
      it did, and goes on only if it is ducked. */
  lemma InterruptStarts(s: State, trackIds: seq<TrackId>, fade: InterruptFade, ctx: Context, laterMs: u64)
    requires LanesOk(s, ctx.nowMs) && ctx.nowMs <= laterMs
    ensures var r := ReduceResult(s, FireInterruptSequence(trackIds, fade), ctx);
            if trackIds == [] then LeftAlone(s, r)
            else
              && Carried(s, r)
              && (r.Ok? ==>
                    var t := r.value.nextState;
                    && Interrupts(t, trackIds[0], trackIds[1..], 0, ctx.nowMs) && FadesAs(t, fade)
                    && t.isPlaying && t.room == s.room
                    && t.ambient.current == s.ambient.current && t.ambient.queue == s.ambient.queue
                    && t.ambient.history == s.ambient.history
                    && AmbientNow(t, ctx.nowMs) == AmbientNow(s, ctx.nowMs)
                    && AmbientNow(t, laterMs) ==
                       (if fade.duckTo.Some? then AmbientNow(s, laterMs) else AmbientNow(s, ctx.nowMs)))
  {
  }

  /** A seek in the interrupt lands where it was asked to, up to the largest position. */
  lemma InterruptSeekLands(s: State, positionMs: u64, ctx: Context)
    ensures var r := ReduceResult(s, InterruptSeek(positionMs), ctx);
            match s.interrupt
            case None => LeftAlone(s, r)
            case Some(i) =>
              && Carried(s, r)
              && (r.Ok? ==>
                    var t := r.value.nextState;
                    && Interrupts(t, i.current, i.queue, Min(positionMs, MAX_POSITION_MS), ctx.nowMs)
                    && FadesAs(t, InterruptFade(i.returnToAmbient, i.fadeInMs, i.fadeOutMs, i.duckTo))
                    && t.ambient == s.ambient && t.room == s.room && t.isPlaying == s.isPlaying)
  {
  }

  /** The interrupt is over: the ambient lane reads as it did, and runs on if the interrupt was to return to it and the
      document plays; otherwise the document stops playing. */
  predicate HandsBack(s: State, t: State, nowMs: u64)
    requires s.interrupt.Some?
  {
    && t.interrupt.None? && t.room == s.room
    && t.ambient.current == s.ambient.current && t.ambient.queue == s.ambient.queue
    && t.ambient.history == s.ambient.history && AmbientNow(t, nowMs) == AmbientNow(s, nowMs)
    && t.isPlaying == (s.isPlaying && s.interrupt.value.returnToAmbient)
  }

  /** Cancelling ends the interrupt. */
  lemma CancelHandsBack(s: State, ctx: Context)
    requires LanesOk(s, ctx.nowMs)
    ensures var r := ReduceResult(s, CancelInterrupt, ctx);
            if s.interrupt.None? then LeftAlone(s, r)
            else Carried(s, r) && (r.Ok? ==> HandsBack(s, r.value.nextState, ctx.nowMs))
  {
  }

  /** A skip in the interrupt plays its next track, or ends it behind the last; one meant for another track is
      ignored. */
  lemma InterruptSkipPlaysNext(s: State, expected: Option<TrackId>, ctx: Context)
    requires LanesOk(s, ctx.nowMs)
    ensures var r := ReduceResult(s, InterruptSkipNext(expected), ctx);
            if s.interrupt.None? || (expected.Some? && expected != Some(s.interrupt.value.current)) then LeftAlone(s, r)
            else
              var i := s.interrupt.value;
              && Carried(s, r)
              && (r.Ok? ==>
                    var t := r.value.nextState;
                    if i.queue == [] then HandsBack(s, t, ctx.nowMs)
                    else
                      && Interrupts(t, i.queue[0], i.queue[1..], 0, ctx.nowMs)
                      && FadesAs(t, InterruptFade(i.returnToAmbient, i.fadeInMs, i.fadeOutMs, i.duckTo))
                      && t.ambient == s.ambient && t.room == s.room && t.isPlaying == s.isPlaying)
  {
  }

  // ----- cues -----

  /** A cue plays its list from the entry and the position it names, and leaves both lanes alone if it has none. */
  lemma CueStartsAt(s: State, cue: Cue, ctx: Context)
    ensures var r := ReduceResult(s, FireCue(cue), ctx);
            if !ValidCue(s.room, cue) then r == Err(InvalidCuePlayback)
            else
              match cue.playlist
              case None =>
                r.Ok? && r.value.nextState == s.(room := r.value.nextState.room)
              case Some(p) =>
                var at := Min(p.startIndex, |p.trackIds| - 1);
                && Carried(s, r)
                && (r.Ok? ==>
                      var t := r.value.nextState;
                      && Plays(t, p.trackIds[..at], p.trackIds[at], p.trackIds[at + 1..],
                         Min(p.startMs, MAX_POSITION_MS),
                               ctx.nowMs)
                      && OnlyAmbient(s, t.(room := s.room)) && t.isPlaying
                      && t.ambient.sourcePlaylistId == Some(p.sourcePlaylistId))
  {
  }

  /** What a cue does to the room: its preset, if it has one, with the fade it asks for; and its loops, behind those of
      other cues, in place of its own. */
  lemma CueSetsRoom(s: State, cue: Cue, ctx: Context)
    requires ReduceResult(s, FireCue(cue), ctx).Ok?
    ensures var before, after := s.room, ReduceResult(s, FireCue(cue), ctx).value.nextState.room;
            && after.activePresetIds ==
               (if cue.preset.Some? then [cue.preset.value.presetId] else before.activePresetIds)
            && after.crossfadeMs == (if cue.preset.Some? && cue.preset.value.crossfadeMs.Some?
                                     then cue.preset.value.crossfadeMs.value else before.crossfadeMs)
            && (exists kept ::
                  && after.loopingSfx == kept + cue.loops
                  && forall l :: l in kept <==> l in before.loopingSfx && !("cue:" + cue.cueId + ":" <= l.id))
            && after == before.(activePresetIds := after.activePresetIds, crossfadeMs := after.crossfadeMs,
                                loopingSfx := after.loopingSfx)
  {
    if cue.preset.Some? {
      assert [cue.preset.value.presetId][..0] == [];
      assert Deduplicated([cue.preset.value.presetId]) == [cue.preset.value.presetId];
    }
    var kept := WithoutPrefix(s.room.loopingSfx, LoopPrefix(cue.cueId));
    assert ReduceResult(s, FireCue(cue), ctx).value.nextState.room.loopingSfx == kept + cue.loops;
  }

  // ----- the room -----

  /** The command changes at most this part of the room, and says so exactly if it does. */
  predicate RoomBecomes(s: State, r: Result<Reduction, PlaybackError>, room: Room) {
    r.Ok? && r.value.nextState == s.(room := room) && (r.value.changed <==> s.room != room)
  }

  /** Another mode starts without presets and soundboard; the same one keeps them. */
  lemma ModeIsSet(s: State, modeId: Option<string>, ctx: Context)
    ensures RoomBecomes(s, ReduceResult(s, SetActiveMode(modeId), ctx),
                        if s.room.activeModeId == modeId then s.room
                        else s.room.(activeModeId := modeId, activePresetIds := [], activeSoundboardId := None))
  {
  }

  lemma SoundboardIsSet(s: State, id: Option<string>, ctx: Context)
    ensures RoomBecomes(s, ReduceResult(s, SetActiveSoundboard(id), ctx), s.room.(activeSoundboardId := id))
  {
  }

  /** One device's volume is set, and no other's. */
  lemma VolumeIsSet(s: State, deviceId: string, volume: UnitInterval, ctx: Context)
    ensures var r := ReduceResult(s, SetDeviceVolume(deviceId, volume), ctx); var before := s.room.deviceVolumes;
            && r.Ok? && r.value.nextState == s.(room := s.room.(deviceVolumes := before[deviceId := volume]))
            && (r.value.changed <==> deviceId !in before || before[deviceId] != volume)
  {
    if deviceId in s.room.deviceVolumes && s.room.deviceVolumes[deviceId] == volume {
      assert s.room.deviceVolumes[deviceId := volume] == s.room.deviceVolumes;
    }
  }

  lemma CrossfadeIsSet(s: State, crossfadeMs: u32, kind: Option<CrossfadeType>, ctx: Context)
    ensures RoomBecomes(s, ReduceResult(s, SetCrossfade(crossfadeMs, kind), ctx),
                        s.room.(crossfadeMs := crossfadeMs,
                                crossfadeType := if kind.Some? then kind.value else s.room.crossfadeType))
  {
  }

  /** The places of first mention, in order. */
  predicate AreFirstMentions(ids: seq<string>, kept: seq<string>, places: seq<nat>) {
    && |places| == |kept|
    && (forall i :: 0 <= i < |places| ==>
          places[i] < |ids| && ids[places[i]] == kept[i] && kept[i] !in ids[..places[i]])
    && (forall i, j :: 0 <= i < j < |places| ==> places[i] < places[j])
  }

  lemma {:induction false} FirstMentions(ids: seq<string>) returns (places: seq<nat>)
    ensures AreFirstMentions(ids, Deduplicated(ids), places)
    ensures forall id :: id in ids <==> id in Deduplicated(ids)
    decreases |ids|
  {
    places := [];
    if ids != [] {
      var front, last := ids[..|ids| - 1], ids[|ids| - 1];
      places := FirstMentions(front);
      forall i | 0 <= i < |places| ensures ids[..places[i]] == front[..places[i]] {
      }
      assert ids == front + [last];
      if last !in Deduplicated(front) {
        places := places + [|ids| - 1];
      }
    }
  }

  /** The presets asked for are active, each once, in the order of their first mention; the fade is set if asked for. */
  lemma PresetsAreSet(s: State, ids: seq<string>, fade: Option<u32>, ctx: Context) returns (places: seq<nat>)
    ensures var r := ReduceResult(s, SetActivePresets(ids, fade), ctx);
            && r.Ok? && var kept := r.value.nextState.room.activePresetIds;
               && AreFirstMentions(ids, kept, places) && (forall id :: id in ids <==> id in kept)
               && RoomBecomes(s, r, s.room.(activePresetIds := kept,
                                            crossfadeMs := if fade.Some? then fade.value else s.room.crossfadeMs))
  {
    places := FirstMentions(ids);
  }

  /** New preset content gets the next revision, if there is one. */
  lemma PresetsAreRevised(s: State, ids: Option<seq<string>>, fade: Option<u32>, ctx: Context)
    ensures var r := ReduceResult(s, PresetsChanged(ids, fade), ctx);
            if s.room.presetRevision == U64_MAX then r == Err(PresetRevisionOverflow)
            else RoomBecomes(s, r, s.room.(presetRevision := s.room.presetRevision + 1,
                                           activePresetIds := if ids.Some? then ids.value else s.room.activePresetIds,
                                           crossfadeMs := if fade.Some? then fade.value else s.room.crossfadeMs))
  {
  }

  /** Where several outputs may play, or at most one is asked for, exactly those asked for play. */
  lemma OutputsAreSet(s: State, deviceIds: seq<string>, ctx: Context)
    requires s.room.multipleOutputs || |deviceIds| <= 1
    ensures RoomBecomes(s, ReduceResult(s, SetActiveOutputs(deviceIds), ctx), s.room.(activeOutputs := deviceIds))
  {
  }

  /** A device that connects is known from then on, at the default volume unless it was known before. It starts to play
      exactly if it asks to and several may play or none does. */
  lemma DeviceJoins(s: State, deviceId: string, activate: bool, ctx: Context)
    ensures var r := ReduceResult(s, RegisterDevice(deviceId, activate), ctx); var before := s.room;
            && r.Ok? && var after := r.value.nextState.room;
               && after.deviceVolumes.Keys == before.deviceVolumes.Keys + {deviceId}
               && (forall d :: d in before.deviceVolumes ==> after.deviceVolumes[d] == before.deviceVolumes[d])
               && (deviceId !in before.deviceVolumes ==> after.deviceVolumes[deviceId] == before.defaultDeviceVolume)
               && after.activeOutputs ==
                  (if activate && deviceId !in before.activeOutputs &&
                        (before.multipleOutputs || before.activeOutputs == [])
                   then before.activeOutputs + [deviceId] else before.activeOutputs)
               && RoomBecomes(s, r, before.(deviceVolumes := after.deviceVolumes, activeOutputs := after.activeOutputs))
  {
  }

  lemma {:induction false} OthersStay(devices: seq<string>, deviceId: string) returns (places: seq<nat>)
    ensures ArePlaces(devices, WithoutDevice(devices, deviceId), places)
    ensures multiset(WithoutDevice(devices, deviceId)) == multiset(devices)[deviceId := 0]
    decreases |devices|
  {
    places := [];
    if devices != [] {
      var rest := OthersStay(devices[1..], deviceId);
      var moved := PlacesBehind(devices, WithoutDevice(devices[1..], deviceId), rest);
      places := if devices[0] == deviceId then moved else [0] + moved;
      assert devices == [devices[0]] + devices[1..];
    }
  }

  /** A device that is removed no longer plays; all others do, in their order. */
  lemma DeviceLeaves(s: State, deviceId: string, ctx: Context) returns (places: seq<nat>)
    ensures var r := ReduceResult(s, RemoveActiveOutput(deviceId), ctx); var before := s.room.activeOutputs;
            && r.Ok? && var kept := r.value.nextState.room.activeOutputs;
               && ArePlaces(before, kept, places) && multiset(kept) == multiset(before)[deviceId := 0]
               && RoomBecomes(s, r, s.room.(activeOutputs := kept))
  {
    places := OthersStay(s.room.activeOutputs, deviceId);
  }

  /** A loop that starts replaces one of its id; all others stay. */
  lemma LoopStarts(s: State, looping: LoopingSfx, ctx: Context)
    ensures var r := ReduceResult(s, StartLoop(looping), ctx);
            && r.Ok? && r.value.changed && r.value.events == [LoopStarted(looping)]
            && var after := r.value.nextState.room.loopingSfx;
               && r.value.nextState == s.(room := s.room.(loopingSfx := after))
               && forall l :: l in after <==> l == looping || (l in s.room.loopingSfx && l.id != looping.id)
  {
  }

  lemma {:induction false} LoopGoes(loops: seq<LoopingSfx>, id: string)
    ensures |WithoutLoop(loops, id)| < |loops| <==> exists l :: l in loops && l.id == id
    decreases |loops|
  {
    if loops != [] {
      LoopGoes(loops[1..], id);
      assert loops == [loops[0]] + loops[1..];
    }
  }

  /** A loop that stops is gone, and is said to have stopped exactly if there was one; all others stay. */
  lemma LoopStops(s: State, id: string, ctx: Context)
    ensures var r := ReduceResult(s, StopLoop(id), ctx);
            && r.Ok? && r.value.events == (if r.value.changed then [LoopStopped(id)] else [])
            && (r.value.changed <==> exists l :: l in s.room.loopingSfx && l.id == id)
            && var after := r.value.nextState.room.loopingSfx;
               && r.value.nextState == s.(room := s.room.(loopingSfx := after))
               && forall l :: l in after <==> l in s.room.loopingSfx && l.id != id
  {
    LoopGoes(s.room.loopingSfx, id);
  }

  /** An effect changes nothing. */
  lemma EffectLeavesAlone(s: State, sfx: CueSfx, ctx: Context)
    ensures LeftAlone(s, ReduceResult(s, FireSfx(sfx), ctx))
  {
  }

  lemma EventsFollow(s: State, command: Command, ctx: Context)
    requires ReduceResult(s, command, ctx).Ok?
    ensures var r := ReduceResult(s, command, ctx).value; r.events == EventsOf(command, r.changed)
  {
  }

  /** Effects and cues say what to play: an effect itself, a cue its loops and then its effects; loops say when they
      start and stop; and no other command says anything. */
  lemma EffectsAreSent(s: State, command: Command, ctx: Context)
    requires ReduceResult(s, command, ctx).Ok?
    ensures var r := ReduceResult(s, command, ctx).value;
            match command
            case FireSfx(sfx) => r.events == [SfxFired(sfx)]
            case FireCue(cue) =>
              && |r.events| == |cue.loops| + |cue.sfx|
              && (forall i :: 0 <= i < |cue.loops| ==> r.events[i] == LoopStarted(cue.loops[i]))
              && (forall i :: 0 <= i < |cue.sfx| ==> r.events[|cue.loops| + i] == SfxFired(cue.sfx[i]))
            case StartLoop(looping) => r.events == [LoopStarted(looping)]
            case StopLoop(id) => r.events == if r.changed then [LoopStopped(id)] else []
            case _ => r.events == []
  {
    EventsFollow(s, command, ctx);
  }
}
