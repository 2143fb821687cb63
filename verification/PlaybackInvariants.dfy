/** The two-lane invariant and the seek rule, proved helper by helper and then for every command. */
module PlaybackInvariants {
  import opened Common
  import opened Playback

  predicate Pausing(s: State) {
    s.interrupt.Some? && s.interrupt.value.duckTo.None?
  }

  predicate AmbientOk(s: State, nowMs: u64) {
    && s.ambient.positionMs <= MAX_POSITION_MS
    && (s.ambient.anchorMs.Some? ==>
          s.ambient.anchorMs.value <= nowMs && s.isPlaying && s.ambient.current.Some? && !Pausing(s))
    && (s.interrupt.None? && s.isPlaying && s.ambient.current.Some? ==> s.ambient.anchorMs.Some?)
  }

  predicate InterruptOk(s: State, nowMs: u64) {
    s.interrupt.Some? ==>
      && s.interrupt.value.anchorMs.Some?
      && s.interrupt.value.anchorMs.value <= nowMs
      && s.interrupt.value.positionMs <= MAX_POSITION_MS
  }

  /** When an anchor may exist, and how far a lane may have got, at clock `nowMs`. */
  predicate LanesOk(s: State, nowMs: u64) {
    AmbientOk(s, nowMs) && InterruptOk(s, nowMs)
  }

  predicate SameTracks(a: State, b: State) {
    && a.ambient.current == b.ambient.current
    && a.interrupt.Some? == b.interrupt.Some?
    && (a.interrupt.Some? ==> a.interrupt.value.current == b.interrupt.value.current)
  }

  /** Both lanes stand at the same place when read at `nowMs`. */
  predicate SamePositions(a: State, b: State, nowMs: u64)
    requires SameTracks(a, b)
  {
    && MaterializeAmbient(a.ambient, nowMs).positionMs == MaterializeAmbient(b.ambient, nowMs).positionMs
    && (a.interrupt.Some? ==>
          MaterializeInterrupt(a.interrupt.value, nowMs).positionMs ==
              MaterializeInterrupt(b.interrupt.value, nowMs).positionMs)
  }

  /** From s to t at `nowMs`: the lanes stay well-formed and no discontinuity escapes the epoch. */
  predicate GoodMove(s: State, t: State, nowMs: u64) {
    && LanesOk(t, nowMs)
    && s.positionEpoch <= t.positionEpoch <= s.positionEpoch + 1
    && (s.positionEpoch == t.positionEpoch ==> SameTracks(s, t) && SamePositions(s, t, nowMs))
  }

  // ----- one helper at a time -----

  lemma QueueEditMoves(s: State, command: Command, nowMs: u64)
    requires LanesOk(s, nowMs) && IsQueueEdit(command)
    ensures GoodMove(s, s.(ambient := ApplyQueueEdit(s.ambient, command).lane), nowMs)
  {
  }

  lemma SetPlayingMoves(s: State, playing: bool, nowMs: u64)
    requires LanesOk(s, nowMs)
    ensures var t := SetPlayingStep(s, playing, nowMs).state;
            GoodMove(s, t, nowMs)
  {
  }

  lemma ReportMoves(s: State, deviceId: string, positionMs: u64, ctx: Context)
    requires LanesOk(s, ctx.nowMs) && positionMs <= MAX_POSITION_MS
    ensures var t := ReportPositionStep(s, deviceId, positionMs, ctx).state;
            LanesOk(t, ctx.nowMs) && t.positionEpoch == s.positionEpoch && SameTracks(s, t)
  {
  }

  lemma SkipNextMoves(s: State, follow: Option<TrackId>, expected: Option<TrackId>, ctx: Context)
    requires LanesOk(s, ctx.nowMs) && SkipNextStep(s, follow, expected, ctx).Ok?
    ensures GoodMove(s, SkipNextStep(s, follow, expected, ctx).value.state, ctx.nowMs)
  {
  }

  lemma PlaySequenceMoves(s: State, trackIds: seq<TrackId>, start: nat, source: Option<int>, nowMs: u64)
    requires LanesOk(s, nowMs) && PlaySequenceStep(s, trackIds, start, source, nowMs).Ok?
    ensures GoodMove(s, PlaySequenceStep(s, trackIds, start, source, nowMs).value.state, nowMs)
  {
  }

  lemma JumpQueueMoves(s: State, index: nat, nowMs: u64)
    requires LanesOk(s, nowMs) && JumpQueueStep(s, index, nowMs).Ok?
    ensures GoodMove(s, JumpQueueStep(s, index, nowMs).value.state, nowMs)
  {
  }

  lemma SkipPreviousMoves(s: State, nowMs: u64)
    requires LanesOk(s, nowMs) && SkipPreviousStep(s, nowMs).Ok?
    ensures GoodMove(s, SkipPreviousStep(s, nowMs).value.state, nowMs)
  {
  }

  lemma StopMoves(s: State, nowMs: u64)
    requires LanesOk(s, nowMs) && StopStep(s).Ok?
    ensures GoodMove(s, StopStep(s).value.state, nowMs)
  {
  }

  lemma SeekMoves(s: State, positionMs: u64, nowMs: u64)
    requires LanesOk(s, nowMs) && SeekStep(s, positionMs, nowMs).Ok?
    ensures GoodMove(s, SeekStep(s, positionMs, nowMs).value.state, nowMs)
  {
  }

  lemma PlayTrackMoves(s: State, trackId: TrackId, nowMs: u64)
    requires LanesOk(s, nowMs) && PlayTrackStep(s, trackId, nowMs).Ok?
    ensures GoodMove(s, PlayTrackStep(s, trackId, nowMs).value.state, nowMs)
  {
  }

  lemma AmbientCommandMoves(s: State, command: Command, ctx: Context)
    requires LanesOk(s, ctx.nowMs) && IsAmbientMove(command) && ApplyAmbientMove(s, command, ctx).Ok?
    ensures GoodMove(s, ApplyAmbientMove(s, command, ctx).value.state, ctx.nowMs)
  {
    match command
    case AmbientJumpQueue(index) => JumpQueueMoves(s, index, ctx.nowMs);
    case AmbientSkipNext(follow, expected) => SkipNextMoves(s, follow, expected, ctx);
    case AmbientPlaySequence(trackIds, start, source) => PlaySequenceMoves(s, trackIds, start, source, ctx.nowMs);
    case AmbientPlayTrack(trackId) => PlayTrackMoves(s, trackId, ctx.nowMs);
    case AmbientSkipPrevious => SkipPreviousMoves(s, ctx.nowMs);
    case AmbientSeek(positionMs) => SeekMoves(s, positionMs, ctx.nowMs);
    case AmbientStop => StopMoves(s, ctx.nowMs);
  }

  lemma EndInterruptMoves(s: State, nowMs: u64)
    requires LanesOk(s, nowMs) && EndInterruptStep(s, nowMs).Ok?
    ensures GoodMove(s, EndInterruptStep(s, nowMs).value.state, nowMs)
  {
  }

  lemma FireInterruptMoves(s: State, trackIds: seq<TrackId>, fade: InterruptFade, nowMs: u64)
    requires LanesOk(s, nowMs) && FireInterruptStep(s, trackIds, fade, nowMs).Ok?
    ensures GoodMove(s, FireInterruptStep(s, trackIds, fade, nowMs).value.state, nowMs)
  {
  }

  lemma InterruptSkipMoves(s: State, expected: Option<TrackId>, nowMs: u64)
    requires LanesOk(s, nowMs) && InterruptSkipNextStep(s, expected, nowMs).Ok?
    ensures GoodMove(s, InterruptSkipNextStep(s, expected, nowMs).value.state, nowMs)
  {
    if EndInterruptStep(s, nowMs).Ok? {
      EndInterruptMoves(s, nowMs);
    }
  }

  lemma InterruptSeekMoves(s: State, positionMs: u64, nowMs: u64)
    requires LanesOk(s, nowMs) && InterruptSeekStep(s, positionMs, nowMs).Ok?
    ensures GoodMove(s, InterruptSeekStep(s, positionMs, nowMs).value.state, nowMs)
  {
  }

  lemma InterruptCommandMoves(s: State, command: Command, nowMs: u64)
    requires LanesOk(s, nowMs) && IsInterruptCommand(command) && ApplyInterrupt(s, command, nowMs).Ok?
    ensures GoodMove(s, ApplyInterrupt(s, command, nowMs).value.state, nowMs)
  {
    match command
    case FireInterruptSequence(trackIds, fade) => FireInterruptMoves(s, trackIds, fade, nowMs);
    case InterruptSkipNext(expected) => InterruptSkipMoves(s, expected, nowMs);
    case InterruptSeek(positionMs) => InterruptSeekMoves(s, positionMs, nowMs);
    case CancelInterrupt => EndInterruptMoves(s, nowMs);
  }

  lemma CuePlaylistMoves(s: State, playlist: Option<CuePlaylist>, nowMs: u64)
    requires LanesOk(s, nowMs) && CuePlaylistStep(s, playlist, nowMs).Ok?
    requires playlist.Some? ==> playlist.value.trackIds != []
    ensures GoodMove(s, CuePlaylistStep(s, playlist, nowMs).value.state, nowMs)
  {
    if playlist.Some? {
      var p := playlist.value;
      PlaySequenceMoves(s, p.trackIds, p.startIndex, Some(p.sourcePlaylistId), nowMs);
    }
  }

  lemma FireCueMoves(s: State, cue: Cue, nowMs: u64)
    requires LanesOk(s, nowMs) && FireCueStep(s, cue, nowMs).Ok?
    ensures GoodMove(s, FireCueStep(s, cue, nowMs).value.state, nowMs)
  {
    CuePlaylistMoves(s, cue.playlist, nowMs);
  }

  // ----- every command -----

  /** Except for drift corrections from outputs, every command is a good move; a correction never changes a track. */
  lemma EveryCommandMovesWell(s: State, command: Command, ctx: Context)
    requires LanesOk(s, ctx.nowMs) && Apply(s, command, ctx).Ok?
    ensures var t := Apply(s, command, ctx).value.state;
            && LanesOk(t, ctx.nowMs)
            && (command.ReportPosition? ==> t.positionEpoch == s.positionEpoch && SameTracks(s, t))
            && (!command.ReportPosition? ==> GoodMove(s, t, ctx.nowMs))
  {
    if IsRoomCommand(command) {
      assert Apply(s, command, ctx).value.state == s.(room := ApplyRoom(s.room, command).value.room);
    } else if IsQueueEdit(command) {
      QueueEditMoves(s, command, ctx.nowMs);
    } else if IsAmbientMove(command) {
      AmbientCommandMoves(s, command, ctx);
    } else if IsInterruptCommand(command) {
      InterruptCommandMoves(s, command, ctx.nowMs);
    } else if command.SetPlaying? {
      SetPlayingMoves(s, command.playing, ctx.nowMs);
    } else if command.ReportPosition? {
      ReportMoves(s, command.deviceId, Min(command.positionMs, MAX_POSITION_MS), ctx);
    } else {
      FireCueMoves(s, command.cue, ctx.nowMs);
    }
  }
}
