/** What every run of the playback reducer keeps, and what one position epoch tells a client. */
module PlaybackRuns {
  import opened Common
  import opened Playback
  import opened PlaybackInvariants

  // ----- runs -----

  /** One thing that happens to the live document. */
  datatype Input =
    | Do(command: Command, ctx: Context)
    | AdoptPolicy(multipleOutputs: bool)
    | Restart(savedAtMs: u64)

  /** A rejected command leaves the document as it was; a restart reloads a materialized snapshot. */
  function After(s: State, input: Input): State {
    match input
    case Do(command, ctx) => if Apply(s, command, ctx).Ok? then Apply(s, command, ctx).value.state else s
    case AdoptPolicy(multiple) => s.(room := OutputPolicyStep(s.room, multiple).room)
    case Restart(savedAtMs) => Decoded(MaterializePositions(s, savedAtMs))
  }

  function Execute(s: State, inputs: seq<Input>): State
    decreases inputs
  {
    if inputs == [] then s else Execute(After(s, inputs[0]), inputs[1..])
  }

  /** The monotonic clock after an input; it is process-local, so a restart starts it afresh. */
  function ClockAfter(clock: u64, input: Input): u64 {
    match input
    case Do(_, ctx) => ctx.nowMs
    case AdoptPolicy(_) => clock
    case Restart(_) => 0
  }

  function ClockAtEnd(clock: u64, inputs: seq<Input>): u64
    decreases inputs
  {
    if inputs == [] then clock else ClockAtEnd(ClockAfter(clock, inputs[0]), inputs[1..])
  }

  predicate InOrderOfTime(clock: u64, inputs: seq<Input>)
    decreases inputs
  {
    inputs == [] ||
    (&& (inputs[0].Do? ==> clock <= inputs[0].ctx.nowMs)
     && InOrderOfTime(ClockAfter(clock, inputs[0]), inputs[1..]))
  }

  predicate NoRestart(inputs: seq<Input>) {
    forall i :: 0 <= i < |inputs| ==> !inputs[i].Restart?
  }

  // ----- the room -----

  predicate DistinctIds(loops: seq<LoopingSfx>) {
    forall i, j :: 0 <= i < j < |loops| ==> loops[i].id != loops[j].id
  }

  predicate RoomOk(r: Room) {
    (!r.multipleOutputs ==> |r.activeOutputs| <= 1) && DistinctIds(r.loopingSfx)
  }

  lemma {:induction false} WithoutLoopDistinct(loops: seq<LoopingSfx>, id: string)
    requires DistinctIds(loops)
    ensures DistinctIds(WithoutLoop(loops, id))
  {
    if loops != [] {
      WithoutLoopDistinct(loops[1..], id);
      assert forall l :: l in WithoutLoop(loops[1..], id) ==> l in loops[1..];
    }
  }

  lemma {:induction false} WithoutPrefixDistinct(loops: seq<LoopingSfx>, prefix: string)
    requires DistinctIds(loops)
    ensures DistinctIds(WithoutPrefix(loops, prefix))
  {
    if loops != [] {
      WithoutPrefixDistinct(loops[1..], prefix);
      assert forall l :: l in WithoutPrefix(loops[1..], prefix) ==> l in loops[1..];
    }
  }

  /** A cue's loops are numbered under its own prefix, so they clash neither with each other nor with what stays. */
  lemma CueLoopsDistinct(r: Room, cue: Cue)
    requires ValidCue(r, cue) && DistinctIds(r.loopingSfx)
    ensures DistinctIds(CueLoopsStep(r, cue).room.loopingSfx)
  {
    var prefix := LoopPrefix(cue.cueId);
    var kept := WithoutPrefix(r.loopingSfx, prefix);
    WithoutPrefixDistinct(r.loopingSfx, prefix);
    forall i, j | 0 <= i < j < |cue.loops| ensures cue.loops[i].id != cue.loops[j].id {
      if cue.loops[i].id == cue.loops[j].id {
        assert Decimal(i) == cue.loops[i].id[|prefix|..] == Decimal(j);
        DecimalInjective(i, j);
      }
    }
    forall i, j | 0 <= i < |kept| && 0 <= j < |cue.loops| ensures kept[i].id != cue.loops[j].id {
      assert kept[i] in kept;
      assert prefix <= cue.loops[j].id;
    }
  }

  lemma RoomCommandKeepsRoom(r: Room, command: Command)
    requires RoomOk(r) && IsRoomCommand(command) && ApplyRoom(r, command).Ok?
    ensures RoomOk(ApplyRoom(r, command).value.room)
  {
    match command
    case StartLoop(looping) =>
      WithoutLoopDistinct(r.loopingSfx, looping.id);
      assert forall l :: l in WithoutLoop(r.loopingSfx, looping.id) ==> l.id != looping.id;
    case StopLoop(id) => WithoutLoopDistinct(r.loopingSfx, id);
    case _ =>
  }

  lemma AmbientMoveKeepsRoom(s: State, command: Command, ctx: Context)
    requires IsAmbientMove(command) && ApplyAmbientMove(s, command, ctx).Ok?
    ensures ApplyAmbientMove(s, command, ctx).value.state.room == s.room
  {
  }

  lemma EveryCommandKeepsRoom(s: State, command: Command, ctx: Context)
    requires RoomOk(s.room) && Apply(s, command, ctx).Ok?
    ensures RoomOk(Apply(s, command, ctx).value.state.room)
  {
    if IsRoomCommand(command) {
      RoomCommandKeepsRoom(s.room, command);
    } else if IsAmbientMove(command) {
      AmbientMoveKeepsRoom(s, command, ctx);
    } else if command.FireCue? {
      CueLoopsDistinct(CuePresetStep(s.room, command.cue.preset).room, command.cue);
    }
  }

  // ----- invariants of every run -----

  /** Whatever document was stored, it decodes to one the invariants hold of. */
  lemma StartupEstablishesInvariants(stored: State, clock: u64)
    ensures LanesOk(Decoded(stored), clock) && RoomOk(Decoded(stored).room)
  {
  }

  lemma LanesOkLater(s: State, clock: u64, later: u64)
    requires LanesOk(s, clock) && clock <= later
    ensures LanesOk(s, later)
  {
  }

  lemma InputKeepsInvariants(s: State, input: Input, clock: u64)
    requires LanesOk(s, clock) && RoomOk(s.room) && (input.Do? ==> clock <= input.ctx.nowMs)
    ensures LanesOk(After(s, input), ClockAfter(clock, input)) && RoomOk(After(s, input).room)
  {
    match input
    case Do(command, ctx) =>
      LanesOkLater(s, clock, ctx.nowMs);
      if Apply(s, command, ctx).Ok? {
        EveryCommandMovesWell(s, command, ctx);
        EveryCommandKeepsRoom(s, command, ctx);
      }
    case AdoptPolicy(_) =>
    case Restart(_) =>
  }

  /** Every run from startup stays inside the lane and room invariants. */
  lemma {:induction false} EveryRunKeepsInvariants(s: State, clock: u64, inputs: seq<Input>)
    requires LanesOk(s, clock) && RoomOk(s.room) && InOrderOfTime(clock, inputs)
    ensures LanesOk(Execute(s, inputs), ClockAtEnd(clock, inputs)) && RoomOk(Execute(s, inputs).room)
    decreases inputs
  {
    if inputs != [] {
      InputKeepsInvariants(s, inputs[0], clock);
      EveryRunKeepsInvariants(After(s, inputs[0]), ClockAfter(clock, inputs[0]), inputs[1..]);
    }
  }

  // ----- the seek rule -----

  /** The anchor rules spelled out for a state any run can reach. */
  lemma AnchorRule(stored: State, clock: u64, inputs: seq<Input>)
    requires InOrderOfTime(clock, inputs)
    ensures var s := Execute(Decoded(stored), inputs);
            && (s.ambient.anchorMs.Some? ==> s.isPlaying && s.ambient.current.Some? && !Pausing(s))
            && (s.interrupt.None? ==> (s.ambient.anchorMs.Some? <==> s.isPlaying && s.ambient.current.Some?))
            && (s.interrupt.Some? ==> s.interrupt.value.anchorMs.Some?)
  {
    StartupEstablishesInvariants(stored, clock);
    EveryRunKeepsInvariants(Decoded(stored), clock, inputs);
  }

  /** A client that seeks only when the epoch moves misses no discontinuity, and every bump is saved and published. */
  lemma SeekRule(s: State, command: Command, ctx: Context, clock: u64)
    requires LanesOk(s, clock) && clock <= ctx.nowMs && ReduceResult(s, command, ctx).Ok?
    ensures var r := ReduceResult(s, command, ctx).value; var t := r.nextState;
            && s.positionEpoch <= t.positionEpoch <= s.positionEpoch + 1
            && (t.positionEpoch == s.positionEpoch ==> SameTracks(s, t))
            && (t.positionEpoch == s.positionEpoch && !command.ReportPosition? ==> SamePositions(s, t, ctx.nowMs))
            && (t.positionEpoch != s.positionEpoch ==> r.publishState && r.persistence == Immediate)
  {
    LanesOkLater(s, clock, ctx.nowMs);
    EveryCommandMovesWell(s, command, ctx);
    if !ReduceResult(s, command, ctx).value.changed {
      UnchangedMeansEqual(s, command, ctx);
    }
  }

  /** Over a whole session: equal epochs at both ends mean the same tracks at both ends. */
  lemma {:induction false} EqualEpochsMeanSameTracks(s: State, clock: u64, inputs: seq<Input>)
    requires LanesOk(s, clock) && RoomOk(s.room) && InOrderOfTime(clock, inputs) && NoRestart(inputs)
    ensures s.positionEpoch <= Execute(s, inputs).positionEpoch
    ensures s.positionEpoch == Execute(s, inputs).positionEpoch ==> SameTracks(s, Execute(s, inputs))
    decreases inputs
  {
    if inputs != [] {
      var input := inputs[0];
      InputKeepsInvariants(s, input, clock);
      if input.Do? && Apply(s, input.command, input.ctx).Ok? {
        LanesOkLater(s, clock, input.ctx.nowMs);
        EveryCommandMovesWell(s, input.command, input.ctx);
      }
      EqualEpochsMeanSameTracks(After(s, input), ClockAfter(clock, input), inputs[1..]);
    }
  }

  lemma UnchangedAmbientMove(s: State, command: Command, ctx: Context)
    requires IsAmbientMove(command) && ApplyAmbientMove(s, command, ctx).Ok? &&
             !ApplyAmbientMove(s, command, ctx).value.changed
    ensures ApplyAmbientMove(s, command, ctx).value.state == s
  {
  }

  lemma UnchangedCue(s: State, cue: Cue, nowMs: u64)
    requires FireCueStep(s, cue, nowMs).Ok? && !FireCueStep(s, cue, nowMs).value.changed
    ensures FireCueStep(s, cue, nowMs).value.state == s
  {
    assert CuePresetStep(s.room, cue.preset).room == s.room;
    assert CueLoopsStep(s.room, cue).room.loopingSfx == s.room.loopingSfx;
  }

  lemma UnchangedRoomCommand(r: Room, command: Command)
    requires IsRoomCommand(command) && ApplyRoom(r, command).Ok? && !ApplyRoom(r, command).value.changed
    ensures ApplyRoom(r, command).value.room == r
  {
  }

  /** A command reported as not changed returns the very document it was given, and publishes nothing. */
  lemma UnchangedMeansEqual(s: State, command: Command, ctx: Context)
    requires ReduceResult(s, command, ctx).Ok? && !ReduceResult(s, command, ctx).value.changed
    ensures ReduceResult(s, command, ctx).value.nextState == s
    ensures !ReduceResult(s, command, ctx).value.publishState
  {
    if IsRoomCommand(command) {
      UnchangedRoomCommand(s.room, command);
    } else if IsAmbientMove(command) {
      UnchangedAmbientMove(s, command, ctx);
    } else if command.FireCue? {
      UnchangedCue(s, command.cue, ctx.nowMs);
    }
  }
}
