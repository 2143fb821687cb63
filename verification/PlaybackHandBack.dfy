/** What an interrupt gives back to the ambient lane, and why a materialized snapshot is as good as the live
    document. */
module PlaybackHandBack {
  import opened Common
  import opened Playback
  import opened PlaybackInvariants
  import opened PlaybackRuns

  // ----- an interrupt that pauses the ambient lane -----

  /** Commands that leave a paused lane alone: everything but ambient commands, cue playlists and ducking interrupts. */
  predicate SparesPausedLane(c: Command) {
    && !IsAmbientMove(c) && !IsQueueEdit(c)
    && (c.FireCue? ==> c.cue.playlist.None?)
    && (c.FireInterruptSequence? ==> c.fade.duckTo.None?)
  }

  /** Under a ducking interrupt the ambient lane runs on, so pausing it in any way is excluded too. */
  predicate SparesDuckedLane(c: Command) {
    && !IsAmbientMove(c) && !IsQueueEdit(c) && !c.SetPlaying?
    && (c.FireCue? ==> c.cue.playlist.None?)
    && (c.FireInterruptSequence? ==> c.fade.duckTo.Some?)
  }

  /** A sparing command, or a change of the output policy. */
  predicate Spares(input: Input, ducked: bool) {
    match input
    case Do(command, _) => if ducked then SparesDuckedLane(command) else SparesPausedLane(command)
    case AdoptPolicy(_) => true
    case Restart(_) => false
  }

  /** An interrupt is up before each input; the last one may end it. */
  predicate HeldThroughout(s: State, inputs: seq<Input>, ducked: bool)
    decreases inputs
  {
    inputs == [] ||
    (s.interrupt.Some? && Spares(inputs[0], ducked) && HeldThroughout(After(s, inputs[0]), inputs[1..], ducked))
  }

  /** The lane apart from whether its clock is running. */
  function Parked(a: Ambient): Ambient {
    a.(anchorMs := None)
  }

  lemma InterruptCommandSparesPausedLane(s: State, command: Command, nowMs: u64)
    requires IsInterruptCommand(command) && ApplyInterrupt(s, command, nowMs).Ok?
    requires Pausing(s) && s.ambient.anchorMs.None? && SparesPausedLane(command)
    ensures var t := ApplyInterrupt(s, command, nowMs).value.state;
            Parked(t.ambient) == s.ambient && (t.interrupt.Some? ==> Pausing(t) && t.ambient == s.ambient)
  {
  }

  lemma InputSparesPausedLane(s: State, input: Input)
    requires Spares(input, false) && Pausing(s) && s.ambient.anchorMs.None?
    ensures var t := After(s, input);
            Parked(t.ambient) == s.ambient && (t.interrupt.Some? ==> Pausing(t) && t.ambient == s.ambient)
  {
    if input.Do? && Apply(s, input.command, input.ctx).Ok? {
      if IsInterruptCommand(input.command) {
        InterruptCommandSparesPausedLane(s, input.command, input.ctx.nowMs);
      }
    }
  }

  lemma {:induction false} PausedLaneIsHeld(s: State, inputs: seq<Input>)
    requires Pausing(s) && s.ambient.anchorMs.None? && HeldThroughout(s, inputs, false)
    ensures Parked(Execute(s, inputs).ambient) == s.ambient
    ensures Execute(s, inputs).interrupt.Some? ==> Execute(s, inputs).ambient == s.ambient
    decreases inputs
  {
    if inputs != [] {
      InputSparesPausedLane(s, inputs[0]);
      if After(s, inputs[0]).interrupt.Some? {
        PausedLaneIsHeld(After(s, inputs[0]), inputs[1..]);
      } else {
        assert inputs[1..] == [];
      }
    }
  }

  /** Fire a pausing interrupt at `ctx`, then skip, seek, report and replace at will: at the end the ambient lane has
      the track, queue, history and position it had when the interrupt fired, and it runs exactly if the document
      plays. */
  lemma PausingInterruptHandsBack(s: State, clock: u64, trackIds: seq<TrackId>, fade: InterruptFade, ctx: Context,
      inputs: seq<Input>)
    requires LanesOk(s, clock) && RoomOk(s.room) && clock <= ctx.nowMs
    requires trackIds != [] && fade.duckTo.None? && s.positionEpoch < U64_MAX
    requires var fired := After(s, Do(FireInterruptSequence(trackIds, fade), ctx));
             InOrderOfTime(ctx.nowMs, inputs) && HeldThroughout(fired, inputs, false)
    ensures var before := MaterializeAmbient(s.ambient, ctx.nowMs);
            var end := Execute(After(s, Do(FireInterruptSequence(trackIds, fade), ctx)), inputs);
            && Parked(end.ambient) == Parked(before)
            && MaterializeAmbient(end.ambient, ClockAtEnd(ctx.nowMs, inputs)).positionMs == before.positionMs
            && (end.interrupt.None? ==> (end.ambient.anchorMs.Some? <==> end.isPlaying && end.ambient.current.Some?))
    decreases inputs
  {
    var fire := Do(FireInterruptSequence(trackIds, fade), ctx);
    var fired := After(s, fire);
    InputKeepsInvariants(s, fire, clock);
    PausedLaneIsHeld(fired, inputs);
    EveryRunKeepsInvariants(fired, ctx.nowMs, inputs);
    HeldLaneRestartsAtTheEnd(fired, ctx.nowMs, inputs);
  }

  lemma ReturningSetsTheAnchorNow(s: State, clock: u64, input: Input)
    requires Spares(input, false) && Pausing(s) && s.ambient.anchorMs.None?
    ensures var t := After(s, input); t.ambient.anchorMs.Some? ==> t.ambient.anchorMs.value == ClockAfter(clock, input)
  {
  }

  lemma {:induction false} HeldLaneRestartsAtTheEnd(s: State, clock: u64, inputs: seq<Input>)
    requires Pausing(s) && s.ambient.anchorMs.None? && HeldThroughout(s, inputs, false)
    ensures var a := Execute(s, inputs).ambient; a.anchorMs.Some? ==> a.anchorMs.value == ClockAtEnd(clock, inputs)
    decreases inputs
  {
    if inputs != [] {
      InputSparesPausedLane(s, inputs[0]);
      ReturningSetsTheAnchorNow(s, clock, inputs[0]);
      if After(s, inputs[0]).interrupt.Some? {
        HeldLaneRestartsAtTheEnd(After(s, inputs[0]), ClockAfter(clock, inputs[0]), inputs[1..]);
      } else {
        assert inputs[1..] == [];
      }
    }
  }

  // ----- an interrupt the ambient lane keeps running under -----

  lemma InterruptCommandSparesDuckedLane(s: State, command: Command, nowMs: u64)
    requires IsInterruptCommand(command) && ApplyInterrupt(s, command, nowMs).Ok?
    requires s.interrupt.Some? && !Pausing(s) && s.ambient.anchorMs.Some? && SparesDuckedLane(command)
    ensures var t := ApplyInterrupt(s, command, nowMs).value.state;
            && (t.ambient == s.ambient || t.ambient == FreezeAmbient(s.ambient, nowMs))
            && (t.interrupt.Some? ==> !Pausing(t) && t.ambient == s.ambient)
  {
  }

  lemma InputSparesDuckedLane(s: State, clock: u64, input: Input)
    requires Spares(input, true) && s.interrupt.Some? && !Pausing(s) && s.ambient.anchorMs.Some?
    ensures var t := After(s, input);
            && (t.ambient == s.ambient || t.ambient == FreezeAmbient(s.ambient, ClockAfter(clock, input)))
            && (t.interrupt.Some? ==> !Pausing(t) && t.ambient == s.ambient)
  {
    if input.Do? && Apply(s, input.command, input.ctx).Ok? {
      if IsInterruptCommand(input.command) {
        InterruptCommandSparesDuckedLane(s, input.command, input.ctx.nowMs);
      }
    }
  }

  lemma {:induction false} DuckedLaneRunsOn(s: State, clock: u64, inputs: seq<Input>)
    requires s.interrupt.Some? && !Pausing(s) && s.ambient.anchorMs.Some? && HeldThroughout(s, inputs, true)
    ensures var a := Execute(s, inputs).ambient;
            a == s.ambient || a == FreezeAmbient(s.ambient, ClockAtEnd(clock, inputs))
    decreases inputs
  {
    if inputs != [] {
      InputSparesDuckedLane(s, clock, inputs[0]);
      if After(s, inputs[0]).interrupt.Some? {
        DuckedLaneRunsOn(After(s, inputs[0]), ClockAfter(clock, inputs[0]), inputs[1..]);
      } else {
        assert inputs[1..] == [];
      }
    }
  }

  lemma {:induction false} HeldClockIsOrdered(s: State, clock: u64, inputs: seq<Input>, ducked: bool)
    requires InOrderOfTime(clock, inputs) && HeldThroughout(s, inputs, ducked)
    ensures clock <= ClockAtEnd(clock, inputs)
    decreases inputs
  {
    if inputs != [] {
      HeldClockIsOrdered(After(s, inputs[0]), ClockAfter(clock, inputs[0]), inputs[1..], ducked);
    }
  }

  /** Fire a ducking interrupt while the ambient lane runs: whatever happens to the interrupt, at the end the ambient
      position has advanced by exactly the elapsed time, up to the largest position. */
  lemma DuckingInterruptLetsAmbientRun(s: State, clock: u64, trackIds: seq<TrackId>, fade: InterruptFade,
      ctx: Context, inputs: seq<Input>)
    requires LanesOk(s, clock) && clock <= ctx.nowMs && s.ambient.anchorMs.Some?
    requires trackIds != [] && fade.duckTo.Some? && s.positionEpoch < U64_MAX
    requires var fired := After(s, Do(FireInterruptSequence(trackIds, fade), ctx));
             InOrderOfTime(ctx.nowMs, inputs) && HeldThroughout(fired, inputs, true)
    ensures var before := MaterializeAmbient(s.ambient, ctx.nowMs);
            var end := Execute(After(s, Do(FireInterruptSequence(trackIds, fade), ctx)), inputs);
            var endMs := ClockAtEnd(ctx.nowMs, inputs);
            && MaterializeAmbient(end.ambient, endMs).positionMs ==
               Min(before.positionMs + (endMs - ctx.nowMs), MAX_POSITION_MS)
            && end.ambient.current == s.ambient.current && end.ambient.queue == s.ambient.queue
            && end.ambient.history == s.ambient.history
  {
    var fired := After(s, Do(FireInterruptSequence(trackIds, fade), ctx));
    assert fired.ambient == s.ambient;
    DuckedLaneRunsOn(fired, ctx.nowMs, inputs);
    HeldClockIsOrdered(fired, ctx.nowMs, inputs, true);
  }

  // ----- whether the play state comes back -----

  /** Inputs that neither change the ambient track nor set the play state: editing the queue and replacing the interrupt
      are among them, whether the new interrupt ducks or pauses. */
  predicate KeepsTrack(input: Input) {
    match input
    case Do(command, _) =>
        !IsAmbientMove(command) && !command.SetPlaying? && (command.FireCue? ==> command.cue.playlist.None?)
    case AdoptPolicy(_) => true
    case Restart(_) => false
  }

  /** An interrupt is up before each input, and the last input ends it. */
  predicate EndsInterrupt(s: State, inputs: seq<Input>)
    decreases inputs
  {
    if inputs == [] then s.interrupt.None?
    else s.interrupt.Some? && KeepsTrack(inputs[0]) && EndsInterrupt(After(s, inputs[0]), inputs[1..])
  }

  /** The interrupt the last input ends; it need not be the first. */
  function Ended(s: State, inputs: seq<Input>): Interrupt
    requires EndsInterrupt(s, inputs) && inputs != []
    decreases inputs
  {
    if |inputs| == 1 then s.interrupt.value else Ended(After(s, inputs[0]), inputs[1..])
  }

  lemma InterruptCommandSetsPlayState(s: State, command: Command, nowMs: u64)
    requires s.interrupt.Some? && s.isPlaying && IsInterruptCommand(command) && ApplyInterrupt(s, command, nowMs).Ok?
    ensures var t := ApplyInterrupt(s, command, nowMs).value.state;
            && t.ambient.current == s.ambient.current
            && t.isPlaying == (t.interrupt.Some? || s.interrupt.value.returnToAmbient)
  {
  }

  lemma InputSetsPlayState(s: State, input: Input)
    requires s.interrupt.Some? && s.isPlaying && KeepsTrack(input)
    ensures var t := After(s, input);
            && t.ambient.current == s.ambient.current
            && t.isPlaying == (t.interrupt.Some? || s.interrupt.value.returnToAmbient)
  {
    if input.Do? && Apply(s, input.command, input.ctx).Ok? && IsInterruptCommand(input.command) {
      InterruptCommandSetsPlayState(s, input.command, input.ctx.nowMs);
    }
  }

  lemma {:induction false} EndingSetsPlayState(s: State, inputs: seq<Input>)
    requires s.isPlaying && EndsInterrupt(s, inputs) && inputs != []
    ensures var end := Execute(s, inputs);
            end.interrupt.None? && end.ambient.current == s.ambient.current &&
                end.isPlaying == Ended(s, inputs).returnToAmbient
    decreases inputs
  {
    InputSetsPlayState(s, inputs[0]);
    if |inputs| > 1 {
      EndingSetsPlayState(After(s, inputs[0]), inputs[1..]);
    } else {
      assert inputs[1..] == [];
    }
  }

  /** Firing forgets whether the document was playing. Once the interrupt, or the last one to replace it, has ended,
      the document plays as it did before exactly if that interrupt's way of returning says so; and the ambient clock
      runs, or stands, as it did before exactly if that holds or no ambient track is current. */
  lemma PlayStateComesBackExactly(s: State, clock: u64, trackIds: seq<TrackId>, fade: InterruptFade, ctx: Context,
      inputs: seq<Input>)
    requires LanesOk(s, clock) && RoomOk(s.room) && clock <= ctx.nowMs && s.interrupt.None?
    requires trackIds != [] && s.positionEpoch < U64_MAX && InOrderOfTime(ctx.nowMs, inputs)
    requires EndsInterrupt(After(s, Do(FireInterruptSequence(trackIds, fade), ctx)), inputs)
    ensures inputs != []
    ensures var fired := After(s, Do(FireInterruptSequence(trackIds, fade), ctx));
            var end, returning := Execute(fired, inputs), Ended(fired, inputs).returnToAmbient;
            && (end.isPlaying == s.isPlaying <==> s.isPlaying == returning)
            && (end.ambient.anchorMs.Some? == s.ambient.anchorMs.Some? <==>
               s.isPlaying == returning || s.ambient.current.None?)
  {
    var fire := Do(FireInterruptSequence(trackIds, fade), ctx);
    var fired := After(s, fire);
    assert fired.isPlaying && fired.interrupt.Some? && fired.ambient.current == s.ambient.current;
    InputKeepsInvariants(s, fire, clock);
    EndingSetsPlayState(fired, inputs);
    EveryRunKeepsInvariants(fired, ctx.nowMs, inputs);
  }

  /** At that failing input: an interrupt fired over a paused lane and cancelled starts the lane from where it was
      paused. */
  lemma InterruptResumesPausedLane(s: State, trackIds: seq<TrackId>, fade: InterruptFade, firedMs: u64, endedMs: u64)
    requires LanesOk(s, firedMs) && firedMs <= endedMs && !s.isPlaying && s.interrupt.None? && s.ambient.current.Some?
    requires trackIds != [] && fade.returnToAmbient && s.positionEpoch + 1 < U64_MAX
    ensures FireInterruptStep(s, trackIds, fade, firedMs).Ok?
    ensures var fired := FireInterruptStep(s, trackIds, fade, firedMs).value.state;
            && fired.isPlaying && fired.ambient == s.ambient && fired.ambient.anchorMs.None?
            && EndInterruptStep(fired, endedMs).Ok?
            && EndInterruptStep(fired, endedMs).value.state ==
               s.(isPlaying := true, ambient := s.ambient.(anchorMs := Some(endedMs)),
                   positionEpoch := s.positionEpoch + 2)
  {
    assert FreezeAmbient(s.ambient, firedMs) == s.ambient;
  }

  // ----- snapshots -----

  /** Positions read at a later instant do not depend on the instants they were materialized at before. */
  lemma MaterializeComposes(s: State, t1: u64, t2: u64)
    requires t1 <= t2
    ensures MaterializePositions(MaterializePositions(s, t1), t2) == MaterializePositions(s, t2)
  {
  }

  /** Two outcomes no reader of the document can tell apart at `nowMs`. */
  predicate Alike(a: Result<Step, PlaybackError>, b: Result<Step, PlaybackError>, nowMs: u64) {
    match (a, b)
    case (Ok(x), Ok(y)) =>
      x.changed == y.changed && MaterializePositions(x.state, nowMs) == MaterializePositions(y.state, nowMs)
    case (Err(x), Err(y)) => x == y
    case _ => false
  }

  lemma RoomCommandAlike(s: State, command: Command, ctx: Context)
    requires IsRoomCommand(command)
    ensures Alike(Apply(MaterializePositions(s, ctx.nowMs), command, ctx), Apply(s, command, ctx), ctx.nowMs)
  {
    assert MaterializePositions(s, ctx.nowMs).room == s.room;
  }

  lemma QueueEditAlike(a: Ambient, command: Command, nowMs: u64)
    requires IsQueueEdit(command)
    ensures var x, y := ApplyQueueEdit(MaterializeAmbient(a, nowMs), command), ApplyQueueEdit(a, command);
            x.changed == y.changed && MaterializeAmbient(x.lane, nowMs) == MaterializeAmbient(y.lane, nowMs)
  {
  }

  predicate SkipsNothing(a: Ambient, expected: Option<TrackId>) {
    (expected.Some? && a.current != expected) || (a.current.None? && a.queue == [])
  }

  lemma SkippingAlike(s: State, follow: Option<TrackId>, expected: Option<TrackId>, ctx: Context)
    requires LanesOk(s, ctx.nowMs) && !SkipsNothing(s.ambient, expected)
    ensures Alike(SkipNextStep(MaterializePositions(s, ctx.nowMs), follow, expected, ctx),
            SkipNextStep(s, follow, expected, ctx), ctx.nowMs)
  {
    var a, m := s.ambient, MaterializeAmbient(s.ambient, ctx.nowMs);
    var anchor := AmbientAnchor(s, ctx.nowMs);
    var index := ChosenIndex(a, ctx.randomQueueIndex);
    assert ChosenIndex(m, ctx.randomQueueIndex) == index &&
        AmbientAnchor(MaterializePositions(s, ctx.nowMs), ctx.nowMs) == anchor;
    if index.Ok? {
      SkippedLaneIgnoresPosition(a, m, follow, index.value, anchor);
    }
  }

  lemma SkipNextAlike(s: State, follow: Option<TrackId>, expected: Option<TrackId>, ctx: Context)
    requires LanesOk(s, ctx.nowMs)
    ensures Alike(SkipNextStep(MaterializePositions(s, ctx.nowMs), follow, expected, ctx),
            SkipNextStep(s, follow, expected, ctx), ctx.nowMs)
  {
    if SkipsNothing(s.ambient, expected) {
      MaterializeComposes(s, ctx.nowMs, ctx.nowMs);
    } else {
      SkippingAlike(s, follow, expected, ctx);
    }
  }

  lemma SkippedLaneIgnoresPosition(a: Ambient, m: Ambient, follow: Option<TrackId>, index: nat, anchor: Option<u64>)
    requires m == a.(positionMs := m.positionMs, anchorMs := m.anchorMs)
    requires a.current.Some? || a.queue != []
    requires a.queue != [] && !(a.loopMode == Track && a.current.Some?) ==> index < |a.queue|
    ensures SkippedLane(a, follow, index, anchor) == SkippedLane(m, follow, index, anchor)
  {
  }

  lemma SkipPreviousAlike(s: State, nowMs: u64)
    requires LanesOk(s, nowMs)
    ensures Alike(SkipPreviousStep(MaterializePositions(s, nowMs), nowMs), SkipPreviousStep(s, nowMs), nowMs)
  {
  }

  lemma JumpQueueAlike(s: State, index: nat, nowMs: u64)
    requires LanesOk(s, nowMs)
    ensures Alike(JumpQueueStep(MaterializePositions(s, nowMs), index, nowMs), JumpQueueStep(s, index, nowMs), nowMs)
  {
  }

  lemma StopAlike(s: State, nowMs: u64)
    requires LanesOk(s, nowMs)
    ensures Alike(StopStep(MaterializePositions(s, nowMs)), StopStep(s), nowMs)
  {
  }

  lemma PlaySequenceAlike(s: State, trackIds: seq<TrackId>, start: nat, source: Option<int>, nowMs: u64)
    ensures Alike(PlaySequenceStep(MaterializePositions(s, nowMs), trackIds, start, source, nowMs),
                  PlaySequenceStep(s, trackIds, start, source, nowMs), nowMs)
  {
  }

  lemma AmbientMoveAlike(s: State, command: Command, ctx: Context)
    requires LanesOk(s, ctx.nowMs) && IsAmbientMove(command)
    ensures Alike(ApplyAmbientMove(MaterializePositions(s, ctx.nowMs), command, ctx),
            ApplyAmbientMove(s, command, ctx), ctx.nowMs)
  {
    match command
    case AmbientSkipNext(follow, expected) => SkipNextAlike(s, follow, expected, ctx);
    case AmbientSkipPrevious => SkipPreviousAlike(s, ctx.nowMs);
    case AmbientJumpQueue(index) => JumpQueueAlike(s, index, ctx.nowMs);
    case AmbientStop => StopAlike(s, ctx.nowMs);
    case AmbientPlaySequence(trackIds, start, source) => PlaySequenceAlike(s, trackIds, start, source, ctx.nowMs);
    case AmbientPlayTrack(_) =>
    case AmbientSeek(_) =>
  }

  lemma EndInterruptAlike(s: State, nowMs: u64)
    requires LanesOk(s, nowMs)
    ensures Alike(EndInterruptStep(MaterializePositions(s, nowMs), nowMs), EndInterruptStep(s, nowMs), nowMs)
  {
  }

  lemma FireInterruptAlike(s: State, trackIds: seq<TrackId>, fade: InterruptFade, nowMs: u64)
    requires LanesOk(s, nowMs)
    ensures Alike(FireInterruptStep(MaterializePositions(s, nowMs), trackIds, fade, nowMs),
            FireInterruptStep(s, trackIds, fade, nowMs), nowMs)
  {
  }

  lemma InterruptSkipAlike(s: State, expected: Option<TrackId>, nowMs: u64)
    requires LanesOk(s, nowMs)
    ensures Alike(InterruptSkipNextStep(MaterializePositions(s, nowMs), expected, nowMs),
            InterruptSkipNextStep(s, expected, nowMs), nowMs)
  {
    EndInterruptAlike(s, nowMs);
  }

  lemma InterruptAlike(s: State, command: Command, nowMs: u64)
    requires LanesOk(s, nowMs) && IsInterruptCommand(command)
    ensures Alike(ApplyInterrupt(MaterializePositions(s, nowMs), command, nowMs), ApplyInterrupt(s, command, nowMs),
            nowMs)
  {
    match command
    case FireInterruptSequence(trackIds, fade) => FireInterruptAlike(s, trackIds, fade, nowMs);
    case InterruptSkipNext(expected) => InterruptSkipAlike(s, expected, nowMs);
    case InterruptSeek(_) =>
    case CancelInterrupt => EndInterruptAlike(s, nowMs);
  }

  lemma CuePlaylistAlike(s: State, playlist: Option<CuePlaylist>, nowMs: u64)
    ensures Alike(CuePlaylistStep(MaterializePositions(s, nowMs), playlist, nowMs),
            CuePlaylistStep(s, playlist, nowMs), nowMs)
  {
    if playlist.Some? {
      var p := playlist.value;
      PlaySequenceAlike(s, p.trackIds, p.startIndex, Some(p.sourcePlaylistId), nowMs);
    }
  }

  lemma FireCueAlike(s: State, cue: Cue, nowMs: u64)
    ensures Alike(FireCueStep(MaterializePositions(s, nowMs), cue, nowMs), FireCueStep(s, cue, nowMs), nowMs)
  {
    CuePlaylistAlike(s, cue.playlist, nowMs);
  }

  lemma SetPlayingAlike(s: State, playing: bool, nowMs: u64)
    requires LanesOk(s, nowMs)
    ensures Alike(Ok(SetPlayingStep(MaterializePositions(s, nowMs), playing, nowMs)),
            Ok(SetPlayingStep(s, playing, nowMs)), nowMs)
  {
  }

  lemma ReportAlike(s: State, deviceId: string, positionMs: u64, ctx: Context)
    ensures Alike(Ok(ReportPositionStep(MaterializePositions(s, ctx.nowMs), deviceId, positionMs, ctx)),
                  Ok(ReportPositionStep(s, deviceId, positionMs, ctx)), ctx.nowMs)
  {
  }

  /** Reducing a materialized snapshot is as good as reducing the live document. */
  lemma SnapshotsReduceAlike(s: State, command: Command, ctx: Context)
    requires LanesOk(s, ctx.nowMs)
    ensures Alike(Apply(MaterializePositions(s, ctx.nowMs), command, ctx), Apply(s, command, ctx), ctx.nowMs)
  {
    if IsRoomCommand(command) {
      RoomCommandAlike(s, command, ctx);
    } else if IsQueueEdit(command) {
      QueueEditAlike(s.ambient, command, ctx.nowMs);
    } else if IsAmbientMove(command) {
      AmbientMoveAlike(s, command, ctx);
    } else if IsInterruptCommand(command) {
      InterruptAlike(s, command, ctx.nowMs);
    } else if command.SetPlaying? {
      SetPlayingAlike(s, command.playing, ctx.nowMs);
    } else if command.ReportPosition? {
      ReportAlike(s, command.deviceId, Min(command.positionMs, MAX_POSITION_MS), ctx);
    } else if command.FireCue? {
      FireCueAlike(s, command.cue, ctx.nowMs);
    }
  }

  /** A whole session continued from a snapshot taken at `clock` reads the same as the session itself. */
  lemma {:induction false} SnapshotsRunAlike(s: State, t: State, clock: u64, inputs: seq<Input>)
    requires LanesOk(s, clock) && RoomOk(s.room) && LanesOk(t, clock) && RoomOk(t.room)
    requires MaterializePositions(s, clock) == MaterializePositions(t, clock)
    requires InOrderOfTime(clock, inputs) && (forall i :: 0 <= i < |inputs| ==> inputs[i].Do?)
    ensures var end := ClockAtEnd(clock, inputs);
            MaterializePositions(Execute(s, inputs), end) == MaterializePositions(Execute(t, inputs), end)
    decreases inputs
  {
    if inputs != [] {
      var now := inputs[0].ctx.nowMs;
      MaterializeComposes(s, clock, now);
      MaterializeComposes(t, clock, now);
      LanesOkLater(s, clock, now);
      LanesOkLater(t, clock, now);
      SnapshotsReduceAlike(s, inputs[0].command, inputs[0].ctx);
      SnapshotsReduceAlike(t, inputs[0].command, inputs[0].ctx);
      InputKeepsInvariants(s, inputs[0], clock);
      InputKeepsInvariants(t, inputs[0], clock);
      SnapshotsRunAlike(After(s, inputs[0]), After(t, inputs[0]), now, inputs[1..]);
    }
  }
}
