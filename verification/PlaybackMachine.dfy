/** The reducer as the source runs it: helpers that edit one live document field by field, under a clone-in,
    value-out `Reduce`. Every helper is tied to its step function. */
module PlaybackMachine {
  import opened Common
  import opened Playback
  import opened PlaybackCatalog

  /** A helper's reply `r` and the document `after` it are what the step function says; on an error the document is
      discarded. */
  ghost predicate Meets(r: Result<bool, PlaybackError>, spec: Result<Step, PlaybackError>, after: State) {
    match r
    case Ok(changed) => spec == Ok(Step(after, changed))
    case Err(error) => spec == Err(error)
  }

  class Document {
    var publicationRevision: u64
    var positionEpoch: u64
    var isPlaying: bool
    var activeModeId: Option<string>
    var activeOutputs: seq<string>
    var multipleOutputs: bool
    var defaultDeviceVolume: UnitInterval
    var deviceVolumes: map<string, UnitInterval>
    var activeSoundboardId: Option<string>
    var activePresetIds: seq<string>
    var presetRevision: u64
    var crossfadeMs: u32
    var crossfadeType: CrossfadeType
    var ambient: Ambient
    var interrupt: Option<Interrupt>
    var loopingSfx: seq<LoopingSfx>
    var lastPositionReport: Option<PositionReport>

    function RoomView(): Room
      reads this
    {
      Room(publicationRevision, activeModeId, activeOutputs, multipleOutputs, defaultDeviceVolume, deviceVolumes,
           activeSoundboardId, activePresetIds, presetRevision, crossfadeMs, crossfadeType, loopingSfx,
               lastPositionReport)
    }

    function Snapshot(): State
      reads this
    {
      State(RoomView(), positionEpoch, isPlaying, ambient, interrupt)
    }

    constructor (s: State)
      ensures Snapshot() == s
    {
      publicationRevision, positionEpoch, isPlaying := s.room.publicationRevision, s.positionEpoch, s.isPlaying;
      activeModeId, activeOutputs, multipleOutputs := s.room.activeModeId, s.room.activeOutputs, s.room.multipleOutputs;
      defaultDeviceVolume, deviceVolumes := s.room.defaultDeviceVolume, s.room.deviceVolumes;
      activeSoundboardId, activePresetIds := s.room.activeSoundboardId, s.room.activePresetIds;
      presetRevision, crossfadeMs, crossfadeType := s.room.presetRevision, s.room.crossfadeMs, s.room.crossfadeType;
      ambient, interrupt := s.ambient, s.interrupt;
      loopingSfx, lastPositionReport := s.room.loopingSfx, s.room.lastPositionReport;
    }

    // ----- shared pieces -----

    method Materialize(nowMs: u64)
      modifies this`ambient
      ensures ambient == MaterializeAmbient(old(ambient), nowMs)
    {
      if ambient.anchorMs.Some? {
        var elapsed := SaturatingSub(nowMs, ambient.anchorMs.value);
        if elapsed > 0 {
          ambient := ambient.(positionMs := BoundedAdd(ambient.positionMs, elapsed));
          ambient := ambient.(anchorMs := Some(nowMs));
        }
      }
    }

    method Freeze(nowMs: u64)
      modifies this`ambient
      ensures ambient == FreezeAmbient(old(ambient), nowMs)
    {
      Materialize(nowMs);
      ambient := ambient.(anchorMs := None);
    }

    method IncrementPositionEpoch() returns (r: Result<bool, PlaybackError>)
      modifies this`positionEpoch
      ensures Meets(r, Moved(old(Snapshot())), Snapshot())
    {
      if positionEpoch == U64_MAX {
        return Err(PositionEpochOverflow);
      }
      positionEpoch := positionEpoch + 1;
      return Ok(true);
    }

    // ----- room settings -----

    method SetPlaying(playing: bool, nowMs: u64) returns (changed: bool)
      modifies this`isPlaying, this`ambient
      ensures Step(Snapshot(), changed) == SetPlayingStep(old(Snapshot()), playing, nowMs)
    {
      if isPlaying == playing {
        return false;
      }
      if playing {
        isPlaying := true;
        if ambient.current.Some? {
          ambient := ambient.(anchorMs := AmbientAnchor(Snapshot(), nowMs));
        }
      } else {
        Freeze(nowMs);
        isPlaying := false;
      }
      return true;
    }

    method SetActiveMode(modeId: Option<string>) returns (changed: bool)
      modifies this`activeModeId, this`activePresetIds, this`activeSoundboardId
      ensures RoomStep(RoomView(), changed) == SetActiveModeStep(old(RoomView()), modeId)
    {
      if activeModeId == modeId {
        return false;
      }
      activeModeId := modeId;
      activePresetIds := [];
      activeSoundboardId := None;
      return true;
    }

    method SetActiveOutputs(deviceIds: seq<string>) returns (changed: bool)
      modifies this`activeOutputs
      ensures RoomStep(RoomView(), changed) == SetActiveOutputsStep(old(RoomView()), deviceIds)
    {
      var chosen := deviceIds;
      if !multipleOutputs {
        chosen := NewestOutput(activeOutputs, deviceIds);
      }
      changed := activeOutputs != chosen;
      activeOutputs := chosen;
    }

    method RegisterDevice(deviceId: string, activate: bool) returns (changed: bool)
      modifies this`deviceVolumes, this`activeOutputs
      ensures RoomStep(RoomView(), changed) == RegisterDeviceStep(old(RoomView()), deviceId, activate)
    {
      changed := false;
      if deviceId !in deviceVolumes {
        deviceVolumes := deviceVolumes[deviceId := defaultDeviceVolume];
        changed := true;
      }
      var slotFree := multipleOutputs || activeOutputs == [];
      if activate && slotFree && deviceId !in activeOutputs {
        activeOutputs := activeOutputs + [deviceId];
        changed := true;
      }
    }

    method RemoveActiveOutput(deviceId: string) returns (changed: bool)
      modifies this`activeOutputs
      ensures RoomStep(RoomView(), changed) == RemoveActiveOutputStep(old(RoomView()), deviceId)
    {
      var previousLength := |activeOutputs|;
      activeOutputs := WithoutDevice(activeOutputs, deviceId);
      return |activeOutputs| != previousLength;
    }

    method SetDeviceVolume(deviceId: string, volume: UnitInterval) returns (changed: bool)
      modifies this`deviceVolumes
      ensures RoomStep(RoomView(), changed) == SetDeviceVolumeStep(old(RoomView()), deviceId, volume)
    {
      if deviceId in deviceVolumes && deviceVolumes[deviceId] == volume {
        return false;
      }
      deviceVolumes := deviceVolumes[deviceId := volume];
      return true;
    }

    method SetActivePresets(presetIds: seq<string>, fade: Option<u32>) returns (changed: bool)
      modifies this`activePresetIds, this`crossfadeMs
      ensures RoomStep(RoomView(), changed) == SetActivePresetsStep(old(RoomView()), presetIds, fade)
    {
      var deduplicated: seq<string> := [];
      for i := 0 to |presetIds|
        invariant deduplicated == Deduplicated(presetIds[..i])
      {
        assert presetIds[..i + 1][..i] == presetIds[..i];
        if presetIds[i] !in deduplicated {
          deduplicated := deduplicated + [presetIds[i]];
        }
      }
      assert presetIds[..|presetIds|] == presetIds;
      changed := activePresetIds != deduplicated;
      activePresetIds := deduplicated;
      if fade.Some? && crossfadeMs != fade.value {
        crossfadeMs := fade.value;
        changed := true;
      }
    }

    method BumpPresets(presetIds: Option<seq<string>>, fade: Option<u32>) returns (r: Result<bool, PlaybackError>)
      modifies this`presetRevision, this`activePresetIds, this`crossfadeMs
      ensures match r
              case Ok(changed) =>
                  PresetsChangedStep(old(RoomView()), presetIds, fade) == Ok(RoomStep(RoomView(), changed))
              case Err(error) => PresetsChangedStep(old(RoomView()), presetIds, fade) == Err(error)
    {
      if presetRevision == U64_MAX {
        return Err(PresetRevisionOverflow);
      }
      presetRevision := presetRevision + 1;
      if presetIds.Some? {
        activePresetIds := presetIds.value;
      }
      if fade.Some? {
        crossfadeMs := fade.value;
      }
      return Ok(true);
    }

    method BeginLoop(looping: LoopingSfx) returns (changed: bool, events: seq<DomainEvent>)
      modifies this`loopingSfx
      ensures RoomStep(RoomView(), changed) == StartLoopStep(old(RoomView()), looping)
      ensures events == [LoopStarted(looping)]
    {
      loopingSfx := WithoutLoop(loopingSfx, looping.id);
      loopingSfx := loopingSfx + [looping];
      return true, [LoopStarted(looping)];
    }

    method EndLoop(id: string) returns (changed: bool, events: seq<DomainEvent>)
      modifies this`loopingSfx
      ensures RoomStep(RoomView(), changed) == StopLoopStep(old(RoomView()), id)
      ensures events == if changed then [LoopStopped(id)] else []
    {
      var previousLength := |loopingSfx|;
      loopingSfx := WithoutLoop(loopingSfx, id);
      if |loopingSfx| == previousLength {
        return false, [];
      }
      return true, [LoopStopped(id)];
    }

    method SetCrossfade(fade: u32, kind: Option<CrossfadeType>) returns (changed: bool)
      modifies this`crossfadeMs, this`crossfadeType
      ensures RoomStep(RoomView(), changed) == SetCrossfadeStep(old(RoomView()), fade, kind)
    {
      var nextType := if kind.Some? then kind.value else crossfadeType;
      if crossfadeMs == fade && crossfadeType == nextType {
        return false;
      }
      crossfadeMs := fade;
      crossfadeType := nextType;
      return true;
    }

    method ReportPosition(deviceId: string, positionMs: u64, ctx: Context)
      modifies this`lastPositionReport, this`interrupt, this`ambient
      ensures Step(Snapshot(), true) == ReportPositionStep(old(Snapshot()), deviceId, positionMs, ctx)
    {
      lastPositionReport := Some(PositionReport(deviceId, positionMs, ctx.unixSeconds));
      if interrupt.Some? {
        var i := interrupt.value.(positionMs := positionMs);
        if i.anchorMs.Some? {
          i := i.(anchorMs := Some(ctx.nowMs));
        }
        interrupt := Some(i);
      } else {
        ambient := ambient.(positionMs := positionMs);
        if ambient.anchorMs.Some? {
          ambient := ambient.(anchorMs := Some(ctx.nowMs));
        }
      }
    }

    // ----- the ambient lane -----

    method AmbientPlayTrack(trackId: TrackId, nowMs: u64) returns (r: Result<bool, PlaybackError>)
      modifies this
      ensures Meets(r, PlayTrackStep(old(Snapshot()), trackId, nowMs), Snapshot())
    {
      var loopMode, shuffle := ambient.loopMode, ambient.shuffle;
      isPlaying := true;
      ambient := Ambient(Some(trackId), [], [], 0, AmbientAnchor(Snapshot(), nowMs), loopMode, shuffle, None);
      r := IncrementPositionEpoch();
    }

    method AmbientJumpQueue(position: nat, nowMs: u64) returns (r: Result<bool, PlaybackError>)
      modifies this
      ensures Meets(r, JumpQueueStep(old(Snapshot()), position, nowMs), Snapshot())
    {
      if position >= |ambient.queue| {
        return Ok(false);
      }
      FileCurrent();
      ambient := ambient.(current := Some(ambient.queue[position]));
      ambient := ambient.(queue := ambient.queue[position + 1..]);
      ambient := ambient.(positionMs := 0);
      isPlaying := true;
      ambient := ambient.(anchorMs := AmbientAnchor(Snapshot(), nowMs));
      r := IncrementPositionEpoch();
    }

    method FileCurrent()
      modifies this`ambient
      ensures ambient == old(ambient).(history := Played(old(ambient)))
    {
      if ambient.current.Some? {
        ambient := ambient.(history := ambient.history + [ambient.current.value]);
      }
    }

    method AdvanceLane(follow: Option<TrackId>, index: nat, anchor: Option<u64>)
      requires ambient.current.Some? || ambient.queue != []
      requires ambient.queue != [] && !(ambient.loopMode == Track && ambient.current.Some?) ==> index < |ambient.queue|
      modifies this`ambient, this`isPlaying
      ensures ambient == SkippedLane(old(ambient), follow, index, anchor)
      ensures isPlaying == (old(isPlaying) && ambient.current.Some?)
    {
      if ambient.loopMode == Track && ambient.current.Some? {
        ambient := ambient.(positionMs := 0, anchorMs := anchor);
        return;
      }
      if ambient.queue != [] {
        FileCurrent();
        ambient := ambient.(current := Some(ambient.queue[index]),
                            queue := ambient.queue[..index] + ambient.queue[index + 1..]);
        ambient := ambient.(positionMs := 0, anchorMs := anchor);
        return;
      }
      if ambient.loopMode == Queue {
        FileCurrent();
        var sequence := ambient.history;
        ambient := ambient.(history := [], current := Some(sequence[0]), queue := sequence[1..]);
        ambient := ambient.(positionMs := 0, anchorMs := anchor);
        return;
      }
      if ambient.loopMode == Follow && follow.Some? {
        FileCurrent();
        ambient := ambient.(current := follow, queue := []);
        ambient := ambient.(positionMs := 0, anchorMs := anchor);
        return;
      }
      ambient := ambient.(current := None, positionMs := 0, anchorMs := None);
      isPlaying := false;
    }

    method AmbientSkipNext(follow: Option<TrackId>, expected: Option<TrackId>, ctx: Context)
      returns (r: Result<bool, PlaybackError>)
      modifies this
      ensures Meets(r, SkipNextStep(old(Snapshot()), follow, expected, ctx), Snapshot())
    {
      if expected.Some? && ambient.current != expected {
        return Ok(false);
      }
      if ambient.current.None? && ambient.queue == [] {
        return Ok(false);
      }
      var anchor := AmbientAnchor(Snapshot(), ctx.nowMs);
      var _ :- IncrementPositionEpoch();
      var index :- ChosenIndex(ambient, ctx.randomQueueIndex);
      AdvanceLane(follow, index, anchor);
      return Ok(true);
    }

    method AmbientSkipPrevious(nowMs: u64) returns (r: Result<bool, PlaybackError>)
      modifies this
      ensures Meets(r, SkipPreviousStep(old(Snapshot()), nowMs), Snapshot())
    {
      if ambient.history == [] && ambient.current.None? {
        return Ok(false);
      }
      var anchor := AmbientAnchor(Snapshot(), nowMs);
      if ambient.history != [] {
        var last := |ambient.history| - 1;
        var previous := ambient.history[last];
        ambient := ambient.(history := ambient.history[..last]);
        if ambient.current.Some? {
          ambient := ambient.(queue := [ambient.current.value] + ambient.queue);
        } else {
          assert [] + ambient.queue == ambient.queue;
        }
        ambient := ambient.(current := Some(previous));
      }
      ambient := ambient.(positionMs := 0, anchorMs := anchor);
      r := IncrementPositionEpoch();
    }

    method AmbientSeek(positionMs: u64, nowMs: u64) returns (r: Result<bool, PlaybackError>)
      modifies this
      ensures Meets(r, SeekStep(old(Snapshot()), positionMs, nowMs), Snapshot())
    {
      if ambient.current.None? {
        return Ok(false);
      }
      ambient := ambient.(positionMs := Min(positionMs, MAX_POSITION_MS));
      ambient := ambient.(anchorMs := AmbientAnchor(Snapshot(), nowMs));
      r := IncrementPositionEpoch();
    }

    method AmbientStop() returns (r: Result<bool, PlaybackError>)
      modifies this
      ensures Meets(r, StopStep(old(Snapshot())), Snapshot())
    {
      if ambient.current.None? && ambient.queue == [] && ambient.history == [] && ambient.positionMs == 0 {
        return Ok(false);
      }
      ambient := Ambient(None, [], [], 0, None, ambient.loopMode, ambient.shuffle, None);
      r := IncrementPositionEpoch();
    }

    method AmbientPlaySequence(trackIds: seq<TrackId>, startIndex: nat, source: Option<int>, nowMs: u64)
      returns (r: Result<bool, PlaybackError>)
      modifies this`isPlaying, this`ambient, this`positionEpoch
      ensures Meets(r, PlaySequenceStep(old(Snapshot()), trackIds, startIndex, source, nowMs), Snapshot())
    {
      if trackIds == [] {
        return Ok(false);
      }
      var index := Min(startIndex, |trackIds| - 1);
      var loopMode, shuffle := ambient.loopMode, ambient.shuffle;
      isPlaying := true;
      ambient := Ambient(Some(trackIds[index]), trackIds[index + 1..], trackIds[..index], 0,
                         AmbientAnchor(Snapshot(), nowMs), loopMode, shuffle, source);
      r := IncrementPositionEpoch();
    }

    // ----- the interrupt lane -----

    method FireInterrupt(trackIds: seq<TrackId>, fade: InterruptFade, nowMs: u64)
      returns (r: Result<bool, PlaybackError>)
      modifies this
      ensures Meets(r, FireInterruptStep(old(Snapshot()), trackIds, fade, nowMs), Snapshot())
    {
      if trackIds == [] {
        return Ok(false);
      }
      if fade.duckTo.None? {
        Freeze(nowMs);
      }
      interrupt := Some(Interrupt(trackIds[0], trackIds[1..], 0, Some(nowMs), fade.returnToAmbient, fade.fadeInMs,
                                  fade.fadeOutMs, fade.duckTo));
      isPlaying := true;
      r := IncrementPositionEpoch();
    }

    method EndInterrupt(nowMs: u64) returns (r: Result<bool, PlaybackError>)
      modifies this
      ensures Meets(r, EndInterruptStep(old(Snapshot()), nowMs), Snapshot())
    {
      if interrupt.None? {
        return Ok(false);
      }
      var ended := interrupt.value;
      interrupt := None;
      if ended.returnToAmbient {
        if isPlaying && ambient.current.Some? && ambient.anchorMs.None? {
          ambient := ambient.(anchorMs := Some(nowMs));
        }
      } else {
        isPlaying := false;
        Freeze(nowMs);
      }
      r := IncrementPositionEpoch();
    }

    method SkipInterrupt(expected: Option<TrackId>, nowMs: u64) returns (r: Result<bool, PlaybackError>)
      modifies this
      ensures Meets(r, InterruptSkipNextStep(old(Snapshot()), expected, nowMs), Snapshot())
    {
      if interrupt.None? {
        return Ok(false);
      }
      var i := interrupt.value;
      if expected.Some? && Some(i.current) != expected {
        return Ok(false);
      }
      if i.queue != [] {
        interrupt := Some(i.(current := i.queue[0], queue := i.queue[1..], positionMs := 0, anchorMs := Some(nowMs)));
        r := IncrementPositionEpoch();
        return;
      }
      r := EndInterrupt(nowMs);
    }

    method SeekInterrupt(positionMs: u64, nowMs: u64) returns (r: Result<bool, PlaybackError>)
      modifies this
      ensures Meets(r, InterruptSeekStep(old(Snapshot()), positionMs, nowMs), Snapshot())
    {
      if interrupt.None? {
        return Ok(false);
      }
      interrupt := Some(interrupt.value.(positionMs := Min(positionMs, MAX_POSITION_MS), anchorMs := Some(nowMs)));
      r := IncrementPositionEpoch();
    }

    // ----- cues -----

    method FireCuePreset(preset: Option<CuePreset>) returns (changed: bool)
      modifies this`activePresetIds, this`crossfadeMs
      ensures RoomStep(RoomView(), changed) == CuePresetStep(old(RoomView()), preset)
    {
      changed := false;
      if preset.Some? {
        changed := SetActivePresets([preset.value.presetId], preset.value.crossfadeMs);
      }
    }

    method FireCuePlaylist(playlist: Option<CuePlaylist>, nowMs: u64) returns (r: Result<bool, PlaybackError>)
      modifies this`isPlaying, this`ambient, this`positionEpoch
      ensures Meets(r, CuePlaylistStep(old(Snapshot()), playlist, nowMs), Snapshot())
    {
      if playlist.None? {
        return Ok(false);
      }
      var p := playlist.value;
      var _ :- AmbientPlaySequence(p.trackIds, p.startIndex, Some(p.sourcePlaylistId), nowMs);
      if p.startMs > 0 {
        ambient := ambient.(positionMs := Min(p.startMs, MAX_POSITION_MS));
        ambient := ambient.(anchorMs := AmbientAnchor(Snapshot(), nowMs));
      }
      return Ok(true);
    }

    method ReplaceCueLoops(cue: Cue) returns (changed: bool, events: seq<DomainEvent>)
      modifies this`loopingSfx
      ensures RoomStep(RoomView(), changed) == CueLoopsStep(old(RoomView()), cue)
      ensures events == CueEvents(cue)
    {
      var previousCount := |loopingSfx|;
      loopingSfx := WithoutPrefix(loopingSfx, LoopPrefix(cue.cueId));
      changed := |loopingSfx| != previousCount;
      ghost var kept := loopingSfx;
      events := [];
      for i := 0 to |cue.loops|
        invariant loopingSfx == kept + cue.loops[..i]
        invariant changed == (|kept| != previousCount || i > 0)
        invariant events == seq(i, j requires 0 <= j < i => LoopStarted(cue.loops[j]))
      {
        loopingSfx := loopingSfx + [cue.loops[i]];
        events := events + [LoopStarted(cue.loops[i])];
        changed := true;
      }
      assert cue.loops[..|cue.loops|] == cue.loops;
      for i := 0 to |cue.sfx|
        invariant events == seq(|cue.loops|, j requires 0 <= j < |cue.loops| => LoopStarted(cue.loops[j])) +
                            seq(i, j requires 0 <= j < i => SfxFired(cue.sfx[j]))
      {
        events := events + [SfxFired(cue.sfx[i])];
      }
    }

    /** Preset, then playlist, then loops and one-shot effects. */
    method FireCueParts(cue: Cue, nowMs: u64) returns (r: Result<bool, PlaybackError>, events: seq<DomainEvent>)
      requires ValidCue(RoomView(), cue)
      modifies this
      ensures Meets(r, FireCueStep(old(Snapshot()), cue, nowMs), Snapshot())
      ensures r.Ok? ==> events == CueEvents(cue)
    {
      var presetChanged := FireCuePreset(cue.preset);
      events := [];
      r := FireCuePlaylist(cue.playlist, nowMs);
      if r.Ok? {
        var loopsChanged;
        loopsChanged, events := ReplaceCueLoops(cue);
        r := Ok(presetChanged || r.value || loopsChanged);
      }
    }

    method FireCueNow(cue: Cue, nowMs: u64) returns (r: Result<bool, PlaybackError>, events: seq<DomainEvent>)
      modifies this
      ensures Meets(r, FireCueStep(old(Snapshot()), cue, nowMs), Snapshot())
      ensures r.Ok? ==> events == CueEvents(cue)
    {
      if !ValidCue(RoomView(), cue) {
        return Err(InvalidCuePlayback), [];
      }
      r, events := FireCueParts(cue, nowMs);
    }

    // ----- startup and the mode's output policy -----

    method NormalizeForStartup()
      modifies this
      ensures Snapshot() == NormalizedForStartup(old(Snapshot()))
    {
      isPlaying := false;
      activeOutputs := [];
      loopingSfx := [];
      interrupt := None;
      ambient := ambient.(anchorMs := None);
    }

    /** What decoding a stored document does to it. */
    method Decode()
      modifies this
      ensures Snapshot() == Decoded(old(Snapshot()))
    {
      multipleOutputs := false;
      if lastPositionReport.Some? {
        if lastPositionReport.value.reportedAt >= 0.0 {
          var positionMs := Min(lastPositionReport.value.positionMs, MAX_POSITION_MS);
          lastPositionReport := Some(lastPositionReport.value.(positionMs := positionMs));
        } else {
          lastPositionReport := None;
        }
      }
      ambient := ambient.(positionMs := Min(ambient.positionMs, MAX_POSITION_MS));
      NormalizeForStartup();
    }

    method ApplyOutputPolicy(multiple: bool) returns (changed: bool)
      modifies this`multipleOutputs, this`activeOutputs
      ensures RoomStep(RoomView(), changed) == OutputPolicyStep(old(RoomView()), multiple)
    {
      changed := multipleOutputs != multiple;
      multipleOutputs := multiple;
      if !multiple && |activeOutputs| > 1 {
        activeOutputs := activeOutputs[..1];
        changed := true;
      }
    }

    // ----- a new catalog -----

    method PruneInterruptLane(tracks: set<TrackId>, nowMs: u64) returns (changed: bool)
      modifies this`ambient, this`interrupt
      ensures Step(Snapshot(), changed) == PruneInterrupt(old(Snapshot()), tracks, nowMs)
    {
      changed := false;
      if interrupt.Some? {
        var previous := |interrupt.value.queue|;
        interrupt := Some(interrupt.value.(queue := Within(interrupt.value.queue, tracks)));
        changed := previous != |interrupt.value.queue|;
        if interrupt.value.current !in tracks {
          interrupt := None;
          if isPlaying && ambient.current.Some? {
            ambient := ambient.(anchorMs := Some(nowMs));
          }
          changed := true;
        }
      }
    }

    method PruneLanes(tracks: set<TrackId>, nowMs: u64) returns (changed: bool)
      modifies this`ambient, this`interrupt, this`isPlaying
      ensures Step(Snapshot(), changed) == PruneTracks(old(Snapshot()), tracks, nowMs)
    {
      var previousQueue, previousHistory := |ambient.queue|, |ambient.history|;
      ambient := ambient.(queue := Within(ambient.queue, tracks));
      ambient := ambient.(history := Within(ambient.history, tracks));
      changed := previousQueue != |ambient.queue| || previousHistory != |ambient.history|;
      if ambient.current.Some? && ambient.current.value !in tracks {
        ambient := ambient.(current := None, positionMs := 0, anchorMs := None);
        isPlaying := false;
        changed := true;
      }
      var interruptChanged := PruneInterruptLane(tracks, nowMs);
      changed := changed || interruptChanged;
    }

    method PruneModeResources(mode: Option<Mode>) returns (changed: bool)
      modifies this`activeSoundboardId, this`activePresetIds, this`loopingSfx
      ensures RoomStep(RoomView(), changed) == PruneResources(old(RoomView()), mode)
    {
      changed := false;
      if activeSoundboardId.Some? && (mode.None? || activeSoundboardId.value !in mode.value.items) {
        activeSoundboardId := None;
        changed := true;
      }
      var previousPresets, previousLoops := |activePresetIds|, |loopingSfx|;
      activePresetIds := Within(activePresetIds, if mode.Some? then mode.value.presetIds else {});
      loopingSfx := AllowedLoops(mode, loopingSfx);
      changed := changed || previousPresets != |activePresetIds| || previousLoops != |loopingSfx|;
    }

    method LeaveMode(modes: map<string, Mode>) returns (changed: bool)
      modifies this`activeModeId, this`activeSoundboardId, this`activePresetIds, this`loopingSfx
      ensures RoomStep(RoomView(), changed) == LeaveMissingMode(old(RoomView()), modes)
    {
      changed := activeModeId.Some? && activeModeId.value !in modes;
      if changed {
        activeModeId := None;
        activeSoundboardId := None;
        activePresetIds := [];
        loopingSfx := [];
      }
    }

    method PruneRoom(modes: map<string, Mode>) returns (changed: bool)
      modifies this`activeModeId, this`activeSoundboardId, this`activePresetIds, this`loopingSfx
      modifies this`multipleOutputs, this`activeOutputs
      ensures RoomStep(RoomView(), changed) == PruneModes(old(RoomView()), modes)
    {
      changed := LeaveMode(modes);
      var pruned := PruneModeResources(ActiveMode(RoomView(), modes));
      var adopted := ApplyOutputPolicy(AllowsMultiple(RoomView(), modes));
      changed := changed || pruned || adopted;
    }

    method PruneContents(catalog: Catalog, nowMs: u64) returns (changed: bool)
      modifies this
      ensures var lanes := PrunedLanes(old(Snapshot()), catalog, nowMs);
              var room := PrunedRoom(lanes.state.room, catalog);
              Snapshot() == lanes.state.(room := room.room) && changed == (lanes.changed || room.changed)
    {
      changed := false;
      if catalog.tracks.Some? {
        changed := PruneLanes(catalog.tracks.value, nowMs);
      }
      if catalog.modes.Some? {
        var roomChanged := PruneRoom(catalog.modes.value);
        changed := changed || roomChanged;
      }
    }

    method PruneForCatalog(catalog: Catalog, presetsChanged: bool, nowMs: u64) returns (r: Result<bool, PlaybackError>)
      modifies this
      ensures Meets(r, Pruned(old(Snapshot()), catalog, presetsChanged, nowMs), Snapshot())
    {
      var changed := PruneContents(catalog, nowMs);
      if presetsChanged {
        if presetRevision == U64_MAX {
          return Err(PresetRevisionOverflow);
        }
        presetRevision := presetRevision + 1;
        changed := true;
      }
      return Ok(changed);
    }

    // ----- dispatch -----

    method DispatchRoom(command: Command) returns (r: Result<bool, PlaybackError>, events: seq<DomainEvent>)
      requires IsRoomCommand(command)
      modifies this
      ensures match r
              case Ok(changed) => ApplyRoom(old(RoomView()), command) == Ok(RoomStep(RoomView(), changed)) &&
                                  events == EventsOf(command, changed) &&
                                  Snapshot() == old(Snapshot()).(room := RoomView())
              case Err(error) => ApplyRoom(old(RoomView()), command) == Err(error)
    {
      var changed := true;
      events := [];
      match command {
        case SetActiveMode(modeId) => changed := SetActiveMode(modeId);
        case SetActiveOutputs(deviceIds) => changed := SetActiveOutputs(deviceIds);
        case RegisterDevice(deviceId, activate) => changed := RegisterDevice(deviceId, activate);
        case RemoveActiveOutput(deviceId) => changed := RemoveActiveOutput(deviceId);
        case SetDeviceVolume(deviceId, volume) => changed := SetDeviceVolume(deviceId, volume);
        case SetActiveSoundboard(id) =>
          if activeSoundboardId == id {
            changed := false;
          } else {
            activeSoundboardId := id;
          }
        case SetActivePresets(presetIds, fade) => changed := SetActivePresets(presetIds, fade);
        case PresetsChanged(presetIds, fade) =>
          r := BumpPresets(presetIds, fade);
          return;
        case SetCrossfade(fade, kind) => changed := SetCrossfade(fade, kind);
        case FireSfx(sfx) =>
          events := [SfxFired(sfx)];
          changed := false;
        case StartLoop(looping) => changed, events := BeginLoop(looping);
        case StopLoop(id) => changed, events := EndLoop(id);
      }
      r := Ok(changed);
    }

    method DispatchQueueEdit(command: Command) returns (changed: bool)
      requires IsQueueEdit(command)
      modifies this`ambient
      ensures LaneStep(ambient, changed) == ApplyQueueEdit(old(ambient), command)
    {
      changed := true;
      match command {
        case AmbientSetQueue(trackIds) =>
          if ambient.queue == trackIds {
            changed := false;
          } else {
            ambient := ambient.(queue := trackIds);
            ambient := ambient.(sourcePlaylistId := None);
          }
        case AmbientEnqueue(trackId, position) =>
          var index := if position.Some? then Min(position.value, |ambient.queue|) else |ambient.queue|;
          ambient := ambient.(queue := ambient.queue[..index] + [trackId] + ambient.queue[index..]);
        case AmbientClearQueue =>
          if ambient.queue == [] {
            changed := false;
          } else {
            ambient := ambient.(queue := []);
          }
        case AmbientSetLoop(loopMode) =>
          changed := ambient.loopMode != loopMode;
          ambient := ambient.(loopMode := loopMode);
        case AmbientSetShuffle(shuffle) =>
          changed := ambient.shuffle != shuffle;
          ambient := ambient.(shuffle := shuffle);
      }
    }

    method DispatchAmbientMove(command: Command, ctx: Context) returns (r: Result<bool, PlaybackError>)
      requires IsAmbientMove(command)
      modifies this
      ensures Meets(r, ApplyAmbientMove(old(Snapshot()), command, ctx), Snapshot())
    {
      match command {
        case AmbientPlayTrack(trackId) => r := AmbientPlayTrack(trackId, ctx.nowMs);
        case AmbientJumpQueue(index) => r := AmbientJumpQueue(index, ctx.nowMs);
        case AmbientSkipNext(follow, expected) => r := AmbientSkipNext(follow, expected, ctx);
        case AmbientSkipPrevious => r := AmbientSkipPrevious(ctx.nowMs);
        case AmbientSeek(positionMs) => r := AmbientSeek(positionMs, ctx.nowMs);
        case AmbientStop => r := AmbientStop();
        case AmbientPlaySequence(trackIds, start, source) =>
            r := AmbientPlaySequence(trackIds, start, source, ctx.nowMs);
      }
    }

    method DispatchInterrupt(command: Command, nowMs: u64) returns (r: Result<bool, PlaybackError>)
      requires IsInterruptCommand(command)
      modifies this
      ensures Meets(r, ApplyInterrupt(old(Snapshot()), command, nowMs), Snapshot())
    {
      match command {
        case FireInterruptSequence(trackIds, fade) => r := FireInterrupt(trackIds, fade, nowMs);
        case InterruptSkipNext(expected) => r := SkipInterrupt(expected, nowMs);
        case InterruptSeek(positionMs) => r := SeekInterrupt(positionMs, nowMs);
        case CancelInterrupt => r := EndInterrupt(nowMs);
      }
    }

    method DispatchRest(command: Command, ctx: Context)
      returns (r: Result<bool, PlaybackError>, events: seq<DomainEvent>)
      requires command.SetPlaying? || command.ReportPosition? || command.FireCue?
      modifies this
      ensures command.SetPlaying? ==>
              Meets(r, Ok(SetPlayingStep(old(Snapshot()), command.playing, ctx.nowMs)), Snapshot())
      ensures command.ReportPosition? ==>
                Meets(r, Ok(ReportPositionStep(old(Snapshot()), command.deviceId,
                    Min(command.positionMs, MAX_POSITION_MS), ctx)), Snapshot())
      ensures command.FireCue? ==> Meets(r, FireCueStep(old(Snapshot()), command.cue, ctx.nowMs), Snapshot())
      ensures r.Ok? ==> events == if command.FireCue? then CueEvents(command.cue) else []
    {
      events := [];
      match command {
        case SetPlaying(playing) =>
          var changed := SetPlaying(playing, ctx.nowMs);
          r := Ok(changed);
        case ReportPosition(deviceId, positionMs) =>
          ReportPosition(deviceId, Min(positionMs, MAX_POSITION_MS), ctx);
          r := Ok(true);
        case FireCue(cue) =>
          r, events := FireCueNow(cue, ctx.nowMs);
      }
    }

    method Dispatch(command: Command, ctx: Context) returns (r: Result<bool, PlaybackError>, events: seq<DomainEvent>)
      modifies this
      ensures Meets(r, Apply(old(Snapshot()), command, ctx), Snapshot())
      ensures r.Ok? ==> events == EventsOf(command, r.value)
    {
      events := [];
      if IsRoomCommand(command) {
        r, events := DispatchRoom(command);
      } else if IsQueueEdit(command) {
        var changed := DispatchQueueEdit(command);
        r := Ok(changed);
      } else if IsAmbientMove(command) {
        r := DispatchAmbientMove(command, ctx);
      } else if IsInterruptCommand(command) {
        r := DispatchInterrupt(command, ctx.nowMs);
      } else {
        r, events := DispatchRest(command, ctx);
      }
    }
  }

  /** Clone the document, apply one command to the clone, and say what to publish and how urgently to save. */
  method Reduce(current: State, command: Command, ctx: Context) returns (r: Result<Reduction, PlaybackError>)
    ensures r == ReduceResult(current, command, ctx)
  {
    var next := new Document(current);
    var publishState, persistence := true, Immediate;
    if command.ReportPosition? {
      publishState, persistence := false, Throttled;
    }
    var outcome, events := next.Dispatch(command, ctx);
    if outcome.Err? {
      return Err(outcome.error);
    }
    var changed := outcome.value;
    if command.FireSfx? || (command.FireCue? && !changed) || (!changed && events == []) {
      publishState, persistence := false, Nothing;
    }
    return Ok(Reduction(next.Snapshot(), changed, publishState, persistence, events));
  }
}
