/** The playback document and the meaning of every command, as functions of the document. */
module Playback {
  import opened Common

  const MAX_POSITION_MS: u64 := I64_MAX

  type TrackId = n: int | 0 < n <= I64_MAX witness 1
  type UnitInterval = r: real | 0.0 <= r <= 1.0 witness 1.0
  type u32 = n: int | 0 <= n <= 0xFFFF_FFFF

  datatype LoopMode = Off | Follow | Queue | Track
  datatype ShuffleMode = InOrder | Random
  datatype CrossfadeType = Linear | EqualPower | Cut

  datatype Ambient = Ambient(
    current: Option<TrackId>,
    queue: seq<TrackId>,
    history: seq<TrackId>,
    positionMs: u64,
    anchorMs: Option<u64>,
    loopMode: LoopMode,
    shuffle: ShuffleMode,
    sourcePlaylistId: Option<int>)

  datatype Interrupt = Interrupt(
    current: TrackId,
    queue: seq<TrackId>,
    positionMs: u64,
    anchorMs: Option<u64>,
    returnToAmbient: bool,
    fadeInMs: u32,
    fadeOutMs: u32,
    duckTo: Option<UnitInterval>)

  datatype LoopingSfx = LoopingSfx(
    id: string,
    name: string,
    soundboardId: string,
    itemPath: string,
    intervalSeconds: real,
    volume: UnitInterval)

  datatype PositionReport = PositionReport(deviceId: string, positionMs: u64, reportedAt: real)

  /** Everything about the room that is not the two lanes: outputs, volumes, presets and effects. */
  datatype Room = Room(
    publicationRevision: u64,
    activeModeId: Option<string>,
    activeOutputs: seq<string>,
    multipleOutputs: bool,
    defaultDeviceVolume: UnitInterval,
    deviceVolumes: map<string, UnitInterval>,
    activeSoundboardId: Option<string>,
    activePresetIds: seq<string>,
    presetRevision: u64,
    crossfadeMs: u32,
    crossfadeType: CrossfadeType,
    loopingSfx: seq<LoopingSfx>,
    lastPositionReport: Option<PositionReport>)

  /** The playback document. The fields of Room stand beside the other four in the source's single record. */
  datatype State = State(
    room: Room,
    positionEpoch: u64,
    isPlaying: bool,
    ambient: Ambient,
    interrupt: Option<Interrupt>)

  datatype InterruptFade = InterruptFade(
    returnToAmbient: bool, fadeInMs: u32, fadeOutMs: u32, duckTo: Option<UnitInterval>)

  datatype CuePreset = CuePreset(presetId: string, crossfadeMs: Option<u32>)
  datatype CuePlaylist = CuePlaylist(trackIds: seq<TrackId>, startIndex: nat, startMs: u64, sourcePlaylistId: int)
  datatype CueSfx = CueSfx(soundboardId: string, itemPath: string, volume: UnitInterval)
  datatype Cue = Cue(
    modeId: string,
    cueId: string,
    preset: Option<CuePreset>,
    playlist: Option<CuePlaylist>,
    loops: seq<LoopingSfx>,
    sfx: seq<CueSfx>)

  datatype Command =
    | SetPlaying(playing: bool)
    | SetActiveMode(modeId: Option<string>)
    | SetActiveOutputs(deviceIds: seq<string>)
    | RegisterDevice(deviceId: string, activate: bool)
    | RemoveActiveOutput(deviceId: string)
    | SetDeviceVolume(deviceId: string, volume: UnitInterval)
    | SetActiveSoundboard(soundboardId: Option<string>)
    | SetActivePresets(presetIds: seq<string>, presetCrossfade: Option<u32>)
    | PresetsChanged(activePresetIds: Option<seq<string>>, presetCrossfade: Option<u32>)
    | SetCrossfade(crossfadeMs: u32, crossfadeType: Option<CrossfadeType>)
    | ReportPosition(deviceId: string, positionMs: u64)
    | AmbientPlayTrack(trackId: TrackId)
    | AmbientSetQueue(trackIds: seq<TrackId>)
    | AmbientJumpQueue(index: nat)
    | AmbientEnqueue(trackId: TrackId, position: Option<nat>)
    | AmbientClearQueue
    | AmbientSkipNext(followNextId: Option<TrackId>, expectedTrackId: Option<TrackId>)
    | AmbientSkipPrevious
    | AmbientSeek(positionMs: u64)
    | AmbientSetLoop(loopMode: LoopMode)
    | AmbientSetShuffle(shuffle: ShuffleMode)
    | AmbientStop
    | AmbientPlaySequence(trackIds: seq<TrackId>, startIndex: nat, sourcePlaylistId: Option<int>)
    | FireInterruptSequence(trackIds: seq<TrackId>, fade: InterruptFade)
    | InterruptSkipNext(expectedTrackId: Option<TrackId>)
    | InterruptSeek(positionMs: u64)
    | CancelInterrupt
    | FireCue(cue: Cue)
    | FireSfx(sfx: CueSfx)
    | StartLoop(looping: LoopingSfx)
    | StopLoop(id: string)

  datatype Context = Context(nowMs: u64, unixSeconds: real, randomQueueIndex: Option<nat>)

  datatype DomainEvent =
    | SfxFired(sfx: CueSfx)
    | LoopStarted(looping: LoopingSfx)
    | LoopStopped(id: string)

  datatype PersistenceIntent = Nothing | Throttled | Immediate

  datatype Reduction = Reduction(
    nextState: State,
    changed: bool,
    publishState: bool,
    persistence: PersistenceIntent,
    events: seq<DomainEvent>)

  datatype PlaybackError =
    | InvalidCuePlayback
    | RandomChoiceRequired
    | RandomChoiceOutOfRange
    | PositionEpochOverflow
    | PresetRevisionOverflow

  /** What one helper leaves behind: the document, and whether it reports a change. */
  datatype Step = Step(state: State, changed: bool)
  datatype RoomStep = RoomStep(room: Room, changed: bool)
  datatype LaneStep = LaneStep(lane: Ambient, changed: bool)

  // ----- the dead-reckoned clock -----

  /** A saturating 64-bit addition, capped where a signed 64-bit position ends. */
  function BoundedAdd(positionMs: u64, elapsedMs: u64): (p: u64)
    ensures p == Min(positionMs + elapsedMs, MAX_POSITION_MS)
  {
    Min(Min(positionMs + elapsedMs, U64_MAX), MAX_POSITION_MS)
  }

  function MaterializeAmbient(a: Ambient, nowMs: u64): Ambient {
    if a.anchorMs.Some? && SaturatingSub(nowMs, a.anchorMs.value) > 0
    then a.(positionMs := BoundedAdd(a.positionMs, nowMs - a.anchorMs.value), anchorMs := Some(nowMs))
    else a
  }

  function MaterializeInterrupt(i: Interrupt, nowMs: u64): Interrupt {
    if i.anchorMs.Some? && SaturatingSub(nowMs, i.anchorMs.value) > 0
    then i.(positionMs := BoundedAdd(i.positionMs, nowMs - i.anchorMs.value), anchorMs := Some(nowMs))
    else i
  }

  function MaterializePositions(s: State, nowMs: u64): State {
    s.(ambient := MaterializeAmbient(s.ambient, nowMs),
       interrupt := if s.interrupt.Some? then Some(MaterializeInterrupt(s.interrupt.value, nowMs)) else None)
  }

  function FreezeAmbient(a: Ambient, nowMs: u64): Ambient {
    MaterializeAmbient(a, nowMs).(anchorMs := None)
  }

  function AmbientAnchor(s: State, nowMs: u64): Option<u64> {
    if s.isPlaying && (s.interrupt.None? || s.interrupt.value.duckTo.Some?) then Some(nowMs) else None
  }

  function IncrementEpoch(s: State): Result<State, PlaybackError> {
    if s.positionEpoch < U64_MAX then Ok(s.(positionEpoch := s.positionEpoch + 1)) else Err(PositionEpochOverflow)
  }

  /** The common ending of a deliberate move: bump the epoch and report a change. */
  function Moved(s: State): Result<Step, PlaybackError> {
    var bumped :- IncrementEpoch(s);
    Ok(Step(bumped, true))
  }

  // ----- room settings -----

  function SetPlayingStep(s: State, playing: bool, nowMs: u64): Step {
    if s.isPlaying == playing then
      Step(s, false)
    else if playing then
      var p := s.(isPlaying := true);
      Step(if s.ambient.current.Some? then p.(ambient := p.ambient.(anchorMs := AmbientAnchor(p, nowMs))) else p, true)
    else
      Step(s.(ambient := FreezeAmbient(s.ambient, nowMs), isPlaying := false), true)
  }

  function SetActiveModeStep(r: Room, modeId: Option<string>): RoomStep {
    if r.activeModeId == modeId then RoomStep(r, false)
    else RoomStep(r.(activeModeId := modeId, activePresetIds := [], activeSoundboardId := None), true)
  }

  function RegisterDeviceStep(r: Room, deviceId: string, activate: bool): RoomStep {
    var known := deviceId in r.deviceVolumes;
    var volumes := if known then r.deviceVolumes else r.deviceVolumes[deviceId := r.defaultDeviceVolume];
    var slotFree := r.multipleOutputs || r.activeOutputs == [];
    var joins := activate && slotFree && deviceId !in r.activeOutputs;
    RoomStep(r.(deviceVolumes := volumes, activeOutputs := if joins then r.activeOutputs + [deviceId]
        else r.activeOutputs),
         !known || joins)
  }

  /** Index of the last requested device that is not active yet, else of the last one requested. */
  function NewestIndex(current: seq<string>, requested: seq<string>, n: nat): (i: nat)
    requires 1 <= n <= |requested| && forall j :: n <= j < |requested| ==> requested[j] in current
    ensures i < |requested|
    ensures forall j :: i < j < |requested| && requested[i] !in current ==> requested[j] in current
    ensures requested[i] in current ==>
            i == |requested| - 1 && forall j :: 0 <= j < |requested| ==> requested[j] in current
  {
    if requested[n - 1] !in current then n - 1
    else if n == 1 then |requested| - 1
    else NewestIndex(current, requested, n - 1)
  }

  function NewestOutput(current: seq<string>, requested: seq<string>): seq<string> {
    if |requested| <= 1 then requested else [requested[NewestIndex(current, requested, |requested|)]]
  }

  function SetActiveOutputsStep(r: Room, deviceIds: seq<string>): RoomStep {
    var chosen := if r.multipleOutputs then deviceIds else NewestOutput(r.activeOutputs, deviceIds);
    RoomStep(r.(activeOutputs := chosen), r.activeOutputs != chosen)
  }

  function WithoutDevice(devices: seq<string>, deviceId: string): (kept: seq<string>)
    ensures |kept| <= |devices|
    ensures |kept| == |devices| ==> kept == devices
    ensures forall d :: d in kept <==> d in devices && d != deviceId
  {
    if devices == [] then []
    else
      var rest := WithoutDevice(devices[1..], deviceId);
      assert devices == [devices[0]] + devices[1..];
      if devices[0] == deviceId then rest else [devices[0]] + rest
  }

  function RemoveActiveOutputStep(r: Room, deviceId: string): RoomStep {
    var kept := WithoutDevice(r.activeOutputs, deviceId);
    RoomStep(r.(activeOutputs := kept), |kept| != |r.activeOutputs|)
  }

  function SetDeviceVolumeStep(r: Room, deviceId: string, volume: UnitInterval): RoomStep {
    if deviceId in r.deviceVolumes && r.deviceVolumes[deviceId] == volume then RoomStep(r, false)
    else RoomStep(r.(deviceVolumes := r.deviceVolumes[deviceId := volume]), true)
  }

  /** The ids in order of first mention. */
  function Deduplicated(ids: seq<string>): seq<string> {
    if ids == [] then []
    else
      var kept := Deduplicated(ids[..|ids| - 1]);
      if ids[|ids| - 1] in kept then kept else kept + [ids[|ids| - 1]]
  }

  function SetActivePresetsStep(r: Room, presetIds: seq<string>, crossfadeMs: Option<u32>): RoomStep {
    var kept := Deduplicated(presetIds);
    var fade := if crossfadeMs.Some? then crossfadeMs.value else r.crossfadeMs;
    RoomStep(r.(activePresetIds := kept, crossfadeMs := fade), r.activePresetIds != kept || r.crossfadeMs != fade)
  }

  function PresetsChangedStep(r: Room, presetIds: Option<seq<string>>, crossfadeMs: Option<u32>)
    : Result<RoomStep, PlaybackError> {
    if r.presetRevision == U64_MAX then Err(PresetRevisionOverflow)
    else Ok(RoomStep(r.(presetRevision := r.presetRevision + 1,
                    activePresetIds := if presetIds.Some? then presetIds.value else r.activePresetIds,
                    crossfadeMs := if crossfadeMs.Some? then crossfadeMs.value else r.crossfadeMs), true))
  }

  function SetCrossfadeStep(r: Room, crossfadeMs: u32, crossfadeType: Option<CrossfadeType>): RoomStep {
    var kind := if crossfadeType.Some? then crossfadeType.value else r.crossfadeType;
    RoomStep(r.(crossfadeMs := crossfadeMs, crossfadeType := kind), r.crossfadeMs != crossfadeMs ||
        r.crossfadeType != kind)
  }

  function ReportPositionStep(s: State, deviceId: string, positionMs: u64, ctx: Context): Step {
    var r := s.(room := s.room.(lastPositionReport := Some(PositionReport(deviceId, positionMs, ctx.unixSeconds))));
    if s.interrupt.Some? then
      var i := s.interrupt.value;
      Step(r.(interrupt := Some(i.(positionMs := positionMs,
                                   anchorMs := if i.anchorMs.Some? then Some(ctx.nowMs) else None))), true)
    else
      Step(r.(ambient := s.ambient.(positionMs := positionMs,
                                    anchorMs := if s.ambient.anchorMs.Some? then Some(ctx.nowMs) else None)), true)
  }

  // ----- the ambient lane -----

  function EmptyAmbient(loopMode: LoopMode, shuffle: ShuffleMode): Ambient {
    Ambient(None, [], [], 0, None, loopMode, shuffle, None)
  }

  /** Ambient history with the current track, if any, filed at its end. */
  function Played(a: Ambient): seq<TrackId> {
    if a.current.Some? then a.history + [a.current.value] else a.history
  }

  function PlayTrackStep(s: State, trackId: TrackId, nowMs: u64): Result<Step, PlaybackError> {
    var p := s.(isPlaying := true);
    Moved(p.(ambient := EmptyAmbient(s.ambient.loopMode, s.ambient.shuffle).(
               current := Some(trackId), anchorMs := AmbientAnchor(p, nowMs))))
  }

  function SetQueueStep(a: Ambient, trackIds: seq<TrackId>): LaneStep {
    if a.queue == trackIds then LaneStep(a, false)
    else LaneStep(a.(queue := trackIds, sourcePlaylistId := None), true)
  }

  function JumpQueueStep(s: State, index: nat, nowMs: u64): Result<Step, PlaybackError> {
    if index >= |s.ambient.queue| then Ok(Step(s, false))
    else
      var p := s.(isPlaying := true);
      Moved(p.(ambient := s.ambient.(history := Played(s.ambient),
                                     current := Some(s.ambient.queue[index]),
                                     queue := s.ambient.queue[index + 1..],
                                     positionMs := 0,
                                     anchorMs := AmbientAnchor(p, nowMs))))
  }

  function EnqueueStep(a: Ambient, trackId: TrackId, position: Option<nat>): LaneStep {
    var at := Min(if position.Some? then position.value else |a.queue|, |a.queue|);
    LaneStep(a.(queue := a.queue[..at] + [trackId] + a.queue[at..]), true)
  }

  function ClearQueueStep(a: Ambient): LaneStep {
    LaneStep(a.(queue := []), a.queue != [])
  }

  /** The queue index a skip takes: the caller's choice under shuffle, the head otherwise. */
  function ChosenIndex(a: Ambient, randomIndex: Option<nat>): (r: Result<nat, PlaybackError>)
    ensures r.Ok? && a.queue != [] && !(a.loopMode == Track && a.current.Some?) ==> r.value < |a.queue|
  {
    if a.queue == [] || (a.loopMode == Track && a.current.Some?) || a.shuffle == InOrder then Ok(0)
    else if randomIndex.None? then Err(RandomChoiceRequired)
    else if randomIndex.value >= |a.queue| then Err(RandomChoiceOutOfRange)
    else Ok(randomIndex.value)
  }

  /** The lane after a skip that takes queue entry `index`, started with the given anchor. */
  function SkippedLane(a: Ambient, follow: Option<TrackId>, index: nat, anchor: Option<u64>): Ambient
    requires a.current.Some? || a.queue != []
    requires a.queue != [] && !(a.loopMode == Track && a.current.Some?) ==> index < |a.queue|
  {
    var restarted := a.(positionMs := 0, anchorMs := anchor);
    if a.loopMode == Track && a.current.Some? then
      restarted
    else if a.queue != [] then
      restarted.(history := Played(a), current := Some(a.queue[index]),
          queue := a.queue[..index] + a.queue[index + 1..])
    else if a.loopMode == Queue then
      // The queue is empty, so a track is current, and everything played wraps around.
      restarted.(history := [], current := Some(Played(a)[0]), queue := Played(a)[1..])
    else if a.loopMode == Follow && follow.Some? then
      restarted.(history := Played(a), current := follow, queue := [])
    else
      restarted.(current := None, anchorMs := None)
  }

  function SkipNextStep(s: State, follow: Option<TrackId>, expected: Option<TrackId>, ctx: Context)
    : Result<Step, PlaybackError> {
    var a := s.ambient;
    if expected.Some? && a.current != expected then Ok(Step(s, false))
    else if a.current.None? && a.queue == [] then Ok(Step(s, false))
    else
      var bumped :- IncrementEpoch(s);
      var index :- ChosenIndex(a, ctx.randomQueueIndex);
      var lane := SkippedLane(a, follow, index, AmbientAnchor(s, ctx.nowMs));
      // A skip off the end of the queue stops the lane.
      Ok(Step(bumped.(ambient := lane, isPlaying := s.isPlaying && lane.current.Some?), true))
  }

  function SkipPreviousStep(s: State, nowMs: u64): Result<Step, PlaybackError> {
    var a := s.ambient;
    var restarted := a.(positionMs := 0, anchorMs := AmbientAnchor(s, nowMs));
    if a.history == [] && a.current.None? then Ok(Step(s, false))
    else if a.history == [] then Moved(s.(ambient := restarted))
    else
      var last := |a.history| - 1;
      Moved(s.(ambient := restarted.(history := a.history[..last],
                                     current := Some(a.history[last]),
                                     queue := (if a.current.Some? then [a.current.value] else []) + a.queue)))
  }

  function SeekStep(s: State, positionMs: u64, nowMs: u64): Result<Step, PlaybackError> {
    if s.ambient.current.None? then Ok(Step(s, false))
    else Moved(s.(ambient := s.ambient.(positionMs := Min(positionMs, MAX_POSITION_MS),
                                        anchorMs := AmbientAnchor(s, nowMs))))
  }

  function StopStep(s: State): Result<Step, PlaybackError> {
    if s.ambient.current.None? && s.ambient.queue == [] && s.ambient.history == [] && s.ambient.positionMs == 0
    then Ok(Step(s, false))
    else Moved(s.(ambient := EmptyAmbient(s.ambient.loopMode, s.ambient.shuffle)))
  }

  function PlaySequenceStep(s: State, trackIds: seq<TrackId>, startIndex: nat, source: Option<int>, nowMs: u64)
    : Result<Step, PlaybackError>
  {
    if trackIds == [] then Ok(Step(s, false))
    else
      var at := Min(startIndex, |trackIds| - 1);
      var p := s.(isPlaying := true);
      Moved(p.(ambient := Ambient(Some(trackIds[at]), trackIds[at + 1..], trackIds[..at], 0, AmbientAnchor(p, nowMs),
                                  s.ambient.loopMode, s.ambient.shuffle, source)))
  }

  // ----- the interrupt lane -----

  function FireInterruptStep(s: State, trackIds: seq<TrackId>, fade: InterruptFade, nowMs: u64)
    : Result<Step, PlaybackError> {
    if trackIds == [] then Ok(Step(s, false))
    else
      Moved(s.(ambient := if fade.duckTo.None? then FreezeAmbient(s.ambient, nowMs) else s.ambient,
               interrupt := Some(Interrupt(trackIds[0], trackIds[1..], 0, Some(nowMs), fade.returnToAmbient,
                                           fade.fadeInMs, fade.fadeOutMs, fade.duckTo)),
               isPlaying := true))
  }

  function EndInterruptStep(s: State, nowMs: u64): Result<Step, PlaybackError> {
    if s.interrupt.None? then Ok(Step(s, false))
    else
      var q := s.(interrupt := None);
      if s.interrupt.value.returnToAmbient then
        if s.isPlaying && s.ambient.current.Some? && s.ambient.anchorMs.None?
        then Moved(q.(ambient := s.ambient.(anchorMs := Some(nowMs))))
        else Moved(q)
      else
        Moved(q.(isPlaying := false, ambient := FreezeAmbient(s.ambient, nowMs)))
  }

  function InterruptSkipNextStep(s: State, expected: Option<TrackId>, nowMs: u64): Result<Step, PlaybackError> {
    if s.interrupt.None? then Ok(Step(s, false))
    else
      var i := s.interrupt.value;
      if expected.Some? && Some(i.current) != expected then Ok(Step(s, false))
      else if i.queue == [] then EndInterruptStep(s, nowMs)
      else Moved(s.(interrupt := Some(i.(current := i.queue[0], queue := i.queue[1..], positionMs := 0,
          anchorMs := Some(nowMs)))))
  }

  function InterruptSeekStep(s: State, positionMs: u64, nowMs: u64): Result<Step, PlaybackError> {
    if s.interrupt.None? then Ok(Step(s, false))
    else Moved(s.(interrupt := Some(s.interrupt.value.(positionMs := Min(positionMs, MAX_POSITION_MS),
        anchorMs := Some(nowMs)))))
  }

  // ----- looping effects and cues -----

  function WithoutLoop(loops: seq<LoopingSfx>, id: string): (kept: seq<LoopingSfx>)
    ensures |kept| <= |loops| && (|kept| == |loops| ==> kept == loops)
    ensures forall l :: l in kept <==> l in loops && l.id != id
  {
    if loops == [] then []
    else
      var rest := WithoutLoop(loops[1..], id);
      assert loops == [loops[0]] + loops[1..];
      if loops[0].id == id then rest else [loops[0]] + rest
  }

  function StartLoopStep(r: Room, looping: LoopingSfx): RoomStep {
    RoomStep(r.(loopingSfx := WithoutLoop(r.loopingSfx, looping.id) + [looping]), true)
  }

  function StopLoopStep(r: Room, id: string): RoomStep {
    var kept := WithoutLoop(r.loopingSfx, id);
    RoomStep(r.(loopingSfx := kept), |kept| != |r.loopingSfx|)
  }

  function WithoutPrefix(loops: seq<LoopingSfx>, prefix: string): (kept: seq<LoopingSfx>)
    ensures |kept| <= |loops| && (|kept| == |loops| ==> kept == loops)
    ensures forall l :: l in kept <==> l in loops && !(prefix <= l.id)
  {
    if loops == [] then []
    else
      var rest := WithoutPrefix(loops[1..], prefix);
      assert loops == [loops[0]] + loops[1..];
      if prefix <= loops[0].id then rest else [loops[0]] + rest
  }

  function LoopPrefix(cueId: string): string {
    "cue:" + cueId + ":"
  }

  predicate ValidCue(r: Room, cue: Cue) {
    && cue.modeId != "" && cue.cueId != ""
    && r.activeModeId == Some(cue.modeId)
    && (cue.preset.Some? ==> cue.preset.value.presetId != "")
    && (cue.playlist.Some? ==> cue.playlist.value.trackIds != [] && cue.playlist.value.sourcePlaylistId > 0)
    && (forall i :: 0 <= i < |cue.loops| ==>
          && cue.loops[i].id == LoopPrefix(cue.cueId) + Decimal(i)
          && cue.loops[i].name != "" && cue.loops[i].soundboardId != "" && cue.loops[i].itemPath != ""
          && 1.0 <= cue.loops[i].intervalSeconds <= 3600.0)
    && (forall i :: 0 <= i < |cue.sfx| ==> cue.sfx[i].soundboardId != "" && cue.sfx[i].itemPath != "")
  }

  function CuePresetStep(r: Room, preset: Option<CuePreset>): RoomStep {
    if preset.None? then RoomStep(r, false)
    else SetActivePresetsStep(r, [preset.value.presetId], preset.value.crossfadeMs)
  }

  function CuePlaylistStep(s: State, playlist: Option<CuePlaylist>, nowMs: u64): Result<Step, PlaybackError> {
    if playlist.None? then Ok(Step(s, false))
    else
      var p := playlist.value;
      var played :- PlaySequenceStep(s, p.trackIds, p.startIndex, Some(p.sourcePlaylistId), nowMs);
      var t := played.state;
      Ok(Step(if p.startMs == 0 then t
              else t.(ambient := t.ambient.(positionMs := Min(p.startMs, MAX_POSITION_MS),
                  anchorMs := AmbientAnchor(t, nowMs))),
              true))
  }

  function CueLoopsStep(r: Room, cue: Cue): RoomStep {
    var kept := WithoutPrefix(r.loopingSfx, LoopPrefix(cue.cueId));
    RoomStep(r.(loopingSfx := kept + cue.loops), |kept| != |r.loopingSfx| || cue.loops != [])
  }

  function FireCueStep(s: State, cue: Cue, nowMs: u64): Result<Step, PlaybackError> {
    if !ValidCue(s.room, cue) then Err(InvalidCuePlayback)
    else
      var preset := CuePresetStep(s.room, cue.preset);
      var playlist :- CuePlaylistStep(s, cue.playlist, nowMs);
      var loops := CueLoopsStep(preset.room, cue);
      Ok(Step(playlist.state.(room := loops.room), preset.changed || playlist.changed || loops.changed))
  }

  function CueEvents(cue: Cue): seq<DomainEvent> {
    seq(|cue.loops|, i requires 0 <= i < |cue.loops| => LoopStarted(cue.loops[i])) +
    seq(|cue.sfx|, i requires 0 <= i < |cue.sfx| => SfxFired(cue.sfx[i]))
  }

  // ----- the reducer -----

  /** Commands about the room: outputs, volumes, presets, soundboards and looping effects. */
  predicate IsRoomCommand(c: Command) {
    c.SetActiveMode? || c.SetActiveOutputs? || c.RegisterDevice? || c.RemoveActiveOutput? || c.SetDeviceVolume? ||
    c.SetActiveSoundboard? || c.SetActivePresets? || c.PresetsChanged? || c.SetCrossfade? || c.FireSfx? ||
    c.StartLoop? || c.StopLoop?
  }

  /** Commands that edit what comes next without moving the position. */
  predicate IsQueueEdit(c: Command) {
    c.AmbientSetQueue? || c.AmbientEnqueue? || c.AmbientClearQueue? || c.AmbientSetLoop? || c.AmbientSetShuffle?
  }

  /** Commands that move the ambient lane. */
  predicate IsAmbientMove(c: Command) {
    c.AmbientPlayTrack? || c.AmbientJumpQueue? || c.AmbientSkipNext? || c.AmbientSkipPrevious? || c.AmbientSeek? ||
    c.AmbientStop? || c.AmbientPlaySequence?
  }

  predicate IsInterruptCommand(c: Command) {
    c.FireInterruptSequence? || c.InterruptSkipNext? || c.InterruptSeek? || c.CancelInterrupt?
  }

  function ApplyRoom(r: Room, command: Command): Result<RoomStep, PlaybackError>
    requires IsRoomCommand(command)
  {
    match command
    case SetActiveMode(modeId) => Ok(SetActiveModeStep(r, modeId))
    case SetActiveOutputs(deviceIds) => Ok(SetActiveOutputsStep(r, deviceIds))
    case RegisterDevice(deviceId, activate) => Ok(RegisterDeviceStep(r, deviceId, activate))
    case RemoveActiveOutput(deviceId) => Ok(RemoveActiveOutputStep(r, deviceId))
    case SetDeviceVolume(deviceId, volume) => Ok(SetDeviceVolumeStep(r, deviceId, volume))
    case SetActiveSoundboard(id) => Ok(RoomStep(r.(activeSoundboardId := id), r.activeSoundboardId != id))
    case SetActivePresets(presetIds, fade) => Ok(SetActivePresetsStep(r, presetIds, fade))
    case PresetsChanged(presetIds, fade) => PresetsChangedStep(r, presetIds, fade)
    case SetCrossfade(fade, kind) => Ok(SetCrossfadeStep(r, fade, kind))
    case FireSfx(_) => Ok(RoomStep(r, false))
    case StartLoop(looping) => Ok(StartLoopStep(r, looping))
    case StopLoop(id) => Ok(StopLoopStep(r, id))
  }

  function ApplyQueueEdit(a: Ambient, command: Command): LaneStep
    requires IsQueueEdit(command)
  {
    match command
    case AmbientSetQueue(trackIds) => SetQueueStep(a, trackIds)
    case AmbientEnqueue(trackId, position) => EnqueueStep(a, trackId, position)
    case AmbientClearQueue => ClearQueueStep(a)
    case AmbientSetLoop(loopMode) => LaneStep(a.(loopMode := loopMode), a.loopMode != loopMode)
    case AmbientSetShuffle(shuffle) => LaneStep(a.(shuffle := shuffle), a.shuffle != shuffle)
  }

  function ApplyAmbientMove(s: State, command: Command, ctx: Context): Result<Step, PlaybackError>
    requires IsAmbientMove(command)
  {
    match command
    case AmbientPlayTrack(trackId) => PlayTrackStep(s, trackId, ctx.nowMs)
    case AmbientJumpQueue(index) => JumpQueueStep(s, index, ctx.nowMs)
    case AmbientSkipNext(follow, expected) => SkipNextStep(s, follow, expected, ctx)
    case AmbientSkipPrevious => SkipPreviousStep(s, ctx.nowMs)
    case AmbientSeek(positionMs) => SeekStep(s, positionMs, ctx.nowMs)
    case AmbientStop => StopStep(s)
    case AmbientPlaySequence(trackIds, start, source) => PlaySequenceStep(s, trackIds, start, source, ctx.nowMs)
  }

  function ApplyInterrupt(s: State, command: Command, nowMs: u64): Result<Step, PlaybackError>
    requires IsInterruptCommand(command)
  {
    match command
    case FireInterruptSequence(trackIds, fade) => FireInterruptStep(s, trackIds, fade, nowMs)
    case InterruptSkipNext(expected) => InterruptSkipNextStep(s, expected, nowMs)
    case InterruptSeek(positionMs) => InterruptSeekStep(s, positionMs, nowMs)
    case CancelInterrupt => EndInterruptStep(s, nowMs)
  }

  function Apply(s: State, command: Command, ctx: Context): Result<Step, PlaybackError> {
    if IsRoomCommand(command) then
      var step :- ApplyRoom(s.room, command);
      Ok(Step(s.(room := step.room), step.changed))
    else if IsQueueEdit(command) then
      var step := ApplyQueueEdit(s.ambient, command);
      Ok(Step(s.(ambient := step.lane), step.changed))
    else if IsAmbientMove(command) then ApplyAmbientMove(s, command, ctx)
    else if IsInterruptCommand(command) then ApplyInterrupt(s, command, ctx.nowMs)
    else
      match command
      case SetPlaying(playing) => Ok(SetPlayingStep(s, playing, ctx.nowMs))
      case ReportPosition(deviceId, positionMs) =>
          Ok(ReportPositionStep(s, deviceId, Min(positionMs, MAX_POSITION_MS), ctx))
      case FireCue(cue) => FireCueStep(s, cue, ctx.nowMs)
  }

  /** The transient events of an accepted command; `changed` is what its step reported. */
  function EventsOf(command: Command, changed: bool): seq<DomainEvent> {
    match command
    case FireCue(cue) => CueEvents(cue)
    case FireSfx(sfx) => [SfxFired(sfx)]
    case StartLoop(looping) => [LoopStarted(looping)]
    case StopLoop(id) => if changed then [LoopStopped(id)] else []
    case _ => []
  }

  function ReduceResult(s: State, command: Command, ctx: Context): Result<Reduction, PlaybackError> {
    var step :- Apply(s, command, ctx);
    var events := EventsOf(command, step.changed);
    if !step.changed then Ok(Reduction(step.state, false, false, Nothing, events))
    else if command.ReportPosition? then Ok(Reduction(step.state, true, false, Throttled, events))
    else Ok(Reduction(step.state, true, true, Immediate, events))
  }

  // ----- startup and the mode's output policy -----

  /** A stored report, if its time makes sense, with its position capped. */
  function DecodedReport(report: Option<PositionReport>): Option<PositionReport> {
    if report.Some? && report.value.reportedAt >= 0.0
    then Some(report.value.(positionMs := Min(report.value.positionMs, MAX_POSITION_MS)))
    else None
  }

  /** The live document a stored one decodes to. The output policy comes with the mode catalog. */
  function Decoded(stored: State): State {
    NormalizedForStartup(stored.(
      room := stored.room.(multipleOutputs := false,
                           lastPositionReport := DecodedReport(stored.room.lastPositionReport)),
      ambient := stored.ambient.(positionMs := Min(stored.ambient.positionMs, MAX_POSITION_MS))))
  }

  function NormalizedForStartup(s: State): State {
    s.(room := s.room.(activeOutputs := [], loopingSfx := []),
       isPlaying := false, interrupt := None, ambient := s.ambient.(anchorMs := None))
  }

  function OutputPolicyStep(r: Room, multipleOutputs: bool): RoomStep {
    var truncates := !multipleOutputs && |r.activeOutputs| > 1;
    RoomStep(r.(multipleOutputs := multipleOutputs, activeOutputs := if truncates then r.activeOutputs[..1]
        else r.activeOutputs),
             r.multipleOutputs != multipleOutputs || truncates)
  }
}
