/** What a new library or mode catalog does to the playback document, and exactly when clients can tell. */
module PlaybackCatalog {
  import opened Common
  import opened Playback
  import opened PlaybackInvariants
  import opened PlaybackRuns

  datatype Mode = Mode(items: map<string, set<string>>, presetIds: set<string>, multipleOutputs: bool)

  /** The tracks and modes playback may refer to; either may not be known yet. */
  datatype Catalog = Catalog(library: u64, modeGeneration: u64, tracks: Option<set<TrackId>>,
      modes: Option<map<string, Mode>>)

  // ----- pruning -----

  function Within<T(==,!new)>(s: seq<T>, allowed: set<T>): (kept: seq<T>)
    ensures |kept| <= |s| && (|kept| == |s| ==> kept == s)
    ensures forall x :: x in kept <==> x in s && x in allowed
  {
    if s == [] then []
    else
      var rest := Within(s[1..], allowed);
      assert s == [s[0]] + s[1..];
      if s[0] in allowed then [s[0]] + rest else rest
  }

  predicate LoopAllowed(mode: Option<Mode>, l: LoopingSfx) {
    mode.Some? && l.soundboardId in mode.value.items && l.itemPath in mode.value.items[l.soundboardId]
  }

  function AllowedLoops(mode: Option<Mode>, loops: seq<LoopingSfx>): (kept: seq<LoopingSfx>)
    ensures |kept| <= |loops| && (|kept| == |loops| ==> kept == loops)
    ensures forall l :: l in kept <==> l in loops && LoopAllowed(mode, l)
  {
    if loops == [] then []
    else
      var rest := AllowedLoops(mode, loops[1..]);
      assert loops == [loops[0]] + loops[1..];
      if LoopAllowed(mode, loops[0]) then [loops[0]] + rest else rest
  }

  function PruneAmbient(s: State, tracks: set<TrackId>): Step {
    var a := s.ambient.(queue := Within(s.ambient.queue, tracks), history := Within(s.ambient.history, tracks));
    var shorter := |a.queue| != |s.ambient.queue| || |a.history| != |s.ambient.history|;
    if a.current.Some? && a.current.value !in tracks
    then Step(s.(ambient := a.(current := None, positionMs := 0, anchorMs := None), isPlaying := false), true)
    else Step(s.(ambient := a), shorter)
  }

  /** An interrupt whose track is gone is dropped, and the ambient lane restarts its clock where it was last
      anchored. */
  function PruneInterrupt(s: State, tracks: set<TrackId>, nowMs: u64): Step {
    if s.interrupt.None? then Step(s, false)
    else
      var i := s.interrupt.value.(queue := Within(s.interrupt.value.queue, tracks));
      if i.current in tracks then Step(s.(interrupt := Some(i)), |i.queue| != |s.interrupt.value.queue|)
      else if s.isPlaying && s.ambient.current.Some?
      then Step(s.(interrupt := None, ambient := s.ambient.(anchorMs := Some(nowMs))), true)
      else Step(s.(interrupt := None), true)
  }

  function PruneTracks(s: State, tracks: set<TrackId>, nowMs: u64): Step {
    var ambient := PruneAmbient(s, tracks);
    var interrupt := PruneInterrupt(ambient.state, tracks, nowMs);
    Step(interrupt.state, ambient.changed || interrupt.changed)
  }

  function ActiveMode(r: Room, modes: map<string, Mode>): Option<Mode> {
    if r.activeModeId.Some? && r.activeModeId.value in modes then Some(modes[r.activeModeId.value]) else None
  }

  /** Without an active mode the room plays through one output. */
  predicate AllowsMultiple(r: Room, modes: map<string, Mode>) {
    ActiveMode(r, modes).Some? && ActiveMode(r, modes).value.multipleOutputs
  }

  function LeaveMissingMode(r: Room, modes: map<string, Mode>): RoomStep {
    if r.activeModeId.Some? && r.activeModeId.value !in modes
    then RoomStep(r.(activeModeId := None, activeSoundboardId := None, activePresetIds := [], loopingSfx := []), true)
    else RoomStep(r, false)
  }

  function PruneResources(r: Room, mode: Option<Mode>): RoomStep {
    var gone := r.activeSoundboardId.Some? && (mode.None? || r.activeSoundboardId.value !in mode.value.items);
    var presets := Within(r.activePresetIds, if mode.Some? then mode.value.presetIds else {});
    var loops := AllowedLoops(mode, r.loopingSfx);
    RoomStep(r.(activeSoundboardId := if gone then None
        else r.activeSoundboardId, activePresetIds := presets, loopingSfx := loops),
             gone || |presets| != |r.activePresetIds| || |loops| != |r.loopingSfx|)
  }

  function PruneModes(r: Room, modes: map<string, Mode>): RoomStep {
    var left := LeaveMissingMode(r, modes);
    var pruned := PruneResources(left.room, ActiveMode(left.room, modes));
    var policy := OutputPolicyStep(pruned.room, AllowsMultiple(pruned.room, modes));
    RoomStep(policy.room, left.changed || pruned.changed || policy.changed)
  }

  function PrunedLanes(s: State, catalog: Catalog, nowMs: u64): Step {
    if catalog.tracks.Some? then PruneTracks(s, catalog.tracks.value, nowMs) else Step(s, false)
  }

  function PrunedRoom(r: Room, catalog: Catalog): RoomStep {
    if catalog.modes.Some? then PruneModes(r, catalog.modes.value) else RoomStep(r, false)
  }

  function WithNewPresets(r: Room, presetsChanged: bool): Result<RoomStep, PlaybackError> {
    if !presetsChanged then Ok(RoomStep(r, false))
    else if r.presetRevision == U64_MAX then Err(PresetRevisionOverflow)
    else Ok(RoomStep(r.(presetRevision := r.presetRevision + 1), true))
  }

  /** The document under a new catalog; the presets in force may also have new content. */
  function Pruned(s: State, catalog: Catalog, presetsChanged: bool, nowMs: u64): Result<Step, PlaybackError> {
    var lanes := PrunedLanes(s, catalog, nowMs);
    var room := PrunedRoom(lanes.state.room, catalog);
    var revised :- WithNewPresets(room.room, presetsChanged);
    Ok(Step(lanes.state.(room := revised.room), lanes.changed || room.changed || revised.changed))
  }

  // ----- what pruning keeps -----

  lemma {:induction false} AllowedLoopsDistinct(mode: Option<Mode>, loops: seq<LoopingSfx>)
    requires DistinctIds(loops)
    ensures DistinctIds(AllowedLoops(mode, loops))
    decreases |loops|
  {
    if loops != [] {
      var rest := AllowedLoops(mode, loops[1..]);
      AllowedLoopsDistinct(mode, loops[1..]);
      forall i | 0 <= i < |rest| ensures rest[i].id != loops[0].id {
        assert rest[i] in rest && rest[i] in loops[1..];
        var k :| 0 <= k < |loops| - 1 && loops[1..][k] == rest[i];
        assert loops[k + 1].id != loops[0].id;
      }
    }
  }

  lemma PrunedRoomIsOk(r: Room, catalog: Catalog)
    requires RoomOk(r)
    ensures RoomOk(PrunedRoom(r, catalog).room)
  {
    if catalog.modes.Some? {
      var left := LeaveMissingMode(r, catalog.modes.value).room;
      AllowedLoopsDistinct(ActiveMode(left, catalog.modes.value), left.loopingSfx);
    }
  }

  lemma PrunedLanesAreOk(s: State, catalog: Catalog, nowMs: u64)
    requires LanesOk(s, nowMs)
    ensures var t := PrunedLanes(s, catalog, nowMs).state;
            LanesOk(t, nowMs) && t.room == s.room && t.positionEpoch == s.positionEpoch
  {
  }

  lemma PruneKeepsInvariants(s: State, catalog: Catalog, presetsChanged: bool, nowMs: u64)
    requires LanesOk(s, nowMs) && RoomOk(s.room) && Pruned(s, catalog, presetsChanged, nowMs).Ok?
    ensures var t := Pruned(s, catalog, presetsChanged, nowMs).value.state; LanesOk(t, nowMs) && RoomOk(t.room)
  {
    PrunedLanesAreOk(s, catalog, nowMs);
    PrunedRoomIsOk(s.room, catalog);
  }

  /** Reported as unchanged, the document is unchanged. */
  lemma UnchangedPruneIsEqual(s: State, catalog: Catalog, presetsChanged: bool, nowMs: u64)
    requires Pruned(s, catalog, presetsChanged, nowMs).Ok? && !Pruned(s, catalog, presetsChanged, nowMs).value.changed
    ensures Pruned(s, catalog, presetsChanged, nowMs).value.state == s
  {
  }

  predicate LanesWithin(s: State, tracks: set<TrackId>) {
    && (s.ambient.current.Some? ==> s.ambient.current.value in tracks)
    && (forall t :: t in s.ambient.queue ==> t in tracks)
    && (forall t :: t in s.ambient.history ==> t in tracks)
    && (s.interrupt.Some? ==> s.interrupt.value.current in tracks)
    && (s.interrupt.Some? ==> forall t :: t in s.interrupt.value.queue ==> t in tracks)
  }

  predicate RoomWithin(r: Room, modes: map<string, Mode>) {
    var mode := ActiveMode(r, modes);
    && (r.activeModeId.Some? ==> mode.Some?)
    && (r.activeSoundboardId.Some? ==> mode.Some? && r.activeSoundboardId.value in mode.value.items)
    && (forall p :: p in r.activePresetIds ==> mode.Some? && p in mode.value.presetIds)
    && (forall l :: l in r.loopingSfx ==> LoopAllowed(mode, l))
    && r.multipleOutputs == AllowsMultiple(r, modes)
  }

  /** The document refers only to what the catalog has, and the active mode decides on the outputs. */
  predicate RefersWithin(s: State, catalog: Catalog) {
    && (catalog.tracks.Some? ==> LanesWithin(s, catalog.tracks.value))
    && (catalog.modes.Some? ==> RoomWithin(s.room, catalog.modes.value))
  }

  lemma PrunedLanesAreWithin(s: State, tracks: set<TrackId>, nowMs: u64)
    ensures LanesWithin(PruneTracks(s, tracks, nowMs).state, tracks)
  {
  }

  lemma PrunedRoomIsWithin(r: Room, modes: map<string, Mode>)
    ensures RoomWithin(PruneModes(r, modes).room, modes)
  {
    var left := LeaveMissingMode(r, modes).room;
    var pruned := PruneResources(left, ActiveMode(left, modes)).room;
    assert ActiveMode(pruned, modes) == ActiveMode(left, modes) == ActiveMode(PruneModes(r, modes).room, modes);
  }

  /** Afterwards nothing in the document refers to anything that is gone. */
  lemma PrunedRefersWithin(s: State, catalog: Catalog, presetsChanged: bool, nowMs: u64)
    requires Pruned(s, catalog, presetsChanged, nowMs).Ok?
    ensures RefersWithin(Pruned(s, catalog, presetsChanged, nowMs).value.state, catalog)
  {
    if catalog.tracks.Some? {
      PrunedLanesAreWithin(s, catalog.tracks.value, nowMs);
    }
    if catalog.modes.Some? {
      PrunedRoomIsWithin(PrunedLanes(s, catalog, nowMs).state.room, catalog.modes.value);
    }
  }

  lemma {:induction false} AllWithin<T(!new)>(s: seq<T>, allowed: set<T>)
    requires forall x :: x in s ==> x in allowed
    ensures Within(s, allowed) == s
    decreases |s|
  {
    if s != [] {
      AllWithin(s[1..], allowed);
      assert s[0] in s && s == [s[0]] + s[1..];
    }
  }

  lemma {:induction false} AllLoopsAllowed(mode: Option<Mode>, loops: seq<LoopingSfx>)
    requires forall l :: l in loops ==> LoopAllowed(mode, l)
    ensures AllowedLoops(mode, loops) == loops
    decreases |loops|
  {
    if loops != [] {
      AllLoopsAllowed(mode, loops[1..]);
      assert loops[0] in loops && loops == [loops[0]] + loops[1..];
    }
  }

  lemma NothingToPruneInRoom(r: Room, modes: map<string, Mode>)
    requires RoomWithin(r, modes) && RoomOk(r)
    ensures PruneModes(r, modes) == RoomStep(r, false)
  {
    var mode := ActiveMode(r, modes);
    AllWithin(r.activePresetIds, if mode.Some? then mode.value.presetIds else {});
    AllLoopsAllowed(mode, r.loopingSfx);
  }

  lemma NothingToPruneInLanes(s: State, tracks: set<TrackId>, nowMs: u64)
    requires LanesWithin(s, tracks)
    ensures PruneTracks(s, tracks, nowMs) == Step(s, false)
  {
    AllWithin(s.ambient.queue, tracks);
    AllWithin(s.ambient.history, tracks);
    if s.interrupt.Some? {
      AllWithin(s.interrupt.value.queue, tracks);
    }
  }

  /** A document that refers only to what the catalog has is left as it is; so pruning twice prunes once. */
  lemma NothingToPrune(s: State, catalog: Catalog, nowMs: u64)
    requires RefersWithin(s, catalog) && RoomOk(s.room)
    ensures Pruned(s, catalog, false, nowMs) == Ok(Step(s, false))
  {
    if catalog.tracks.Some? {
      NothingToPruneInLanes(s, catalog.tracks.value, nowMs);
    }
    if catalog.modes.Some? {
      NothingToPruneInRoom(s.room, catalog.modes.value);
    }
  }

  // ----- what clients can tell -----

  predicate AmbientTrackKept(s: State, catalog: Catalog) {
    catalog.tracks.Some? && s.ambient.current.Some? ==> s.ambient.current.value in catalog.tracks.value
  }

  predicate InterruptTrackKept(s: State, catalog: Catalog) {
    catalog.tracks.Some? && s.interrupt.Some? ==> s.interrupt.value.current in catalog.tracks.value
  }

  lemma PrunedTracksExactly(s: State, catalog: Catalog, nowMs: u64)
    requires LanesOk(s, nowMs)
    ensures var t := PrunedLanes(s, catalog, nowMs).state;
            && (SameTracks(s, t) <==> AmbientTrackKept(s, catalog) && InterruptTrackKept(s, catalog))
            && (SameTracks(s, t) ==> SamePositions(s, t, nowMs))
  {
  }

  /** Pruning never moves the epoch. So equal epochs go on meaning equal tracks, and then equal positions, exactly when
      the catalog still has the track of each lane. */
  lemma PruneKeepsSeekRuleExactly(s: State, catalog: Catalog, presetsChanged: bool, nowMs: u64)
    requires LanesOk(s, nowMs) && Pruned(s, catalog, presetsChanged, nowMs).Ok?
    ensures var t := Pruned(s, catalog, presetsChanged, nowMs).value.state;
            && t.positionEpoch == s.positionEpoch
            && (SameTracks(s, t) <==> AmbientTrackKept(s, catalog) && InterruptTrackKept(s, catalog))
            && (SameTracks(s, t) ==> SamePositions(s, t, nowMs))
  {
    PrunedLanesAreOk(s, catalog, nowMs);
    PrunedTracksExactly(s, catalog, nowMs);
  }

  /** When only the interrupt's track is gone, the ambient lane reads the same position afterwards exactly if it was not
      running on under the interrupt: its clock is set anew without counting the time since it was last set. */
  lemma DroppedInterruptRewindsExactly(s: State, catalog: Catalog, presetsChanged: bool, nowMs: u64)
    requires LanesOk(s, nowMs) && Pruned(s, catalog, presetsChanged, nowMs).Ok?
    requires AmbientTrackKept(s, catalog) && !InterruptTrackKept(s, catalog)
    ensures var t := Pruned(s, catalog, presetsChanged, nowMs).value.state;
            && MaterializeAmbient(t.ambient, nowMs).positionMs == s.ambient.positionMs
            && (MaterializeAmbient(t.ambient, nowMs).positionMs == MaterializeAmbient(s.ambient, nowMs).positionMs <==>
                s.ambient.anchorMs.None? || s.ambient.anchorMs.value == nowMs ||
                    s.ambient.positionMs == MAX_POSITION_MS)
  {
  }
}
