/** What a new catalog leaves of the document, and what a restart brings back of it. */
module PlaybackKept {
  import opened Common
  import opened Playback
  import opened PlaybackAnswers
  import opened PlaybackCatalog
  import opened PlaybackInvariants
  import opened PlaybackLive
  import opened PlaybackService
  import opened Recovery

  // ----- a new catalog -----

  /** Exactly the allowed elements are kept, as often as they were and in their order. */
  ghost predicate IsKept<T(!new)>(before: seq<T>, after: seq<T>, allowed: set<T>) {
    && (exists places :: ArePlaces(before, after, places))
    && forall x :: multiset(after)[x] == if x in allowed then multiset(before)[x] else 0
  }

  lemma {:induction false} WithinKeeps<T(!new)>(s: seq<T>, allowed: set<T>) returns (places: seq<nat>)
    ensures ArePlaces(s, Within(s, allowed), places)
    ensures forall x :: multiset(Within(s, allowed))[x] == if x in allowed then multiset(s)[x] else 0
    decreases |s|
  {
    places := [];
    if s != [] {
      var rest := WithinKeeps(s[1..], allowed);
      var moved := PlacesBehind(s, Within(s[1..], allowed), rest);
      places := if s[0] in allowed then [0] + moved else moved;
      assert s == [s[0]] + s[1..];
    }
  }

  /** The loops a mode has the effects for. */
  function LoopsOf(mode: Option<Mode>, loops: seq<LoopingSfx>): set<LoopingSfx> {
    set l | l in loops && LoopAllowed(mode, l)
  }

  lemma {:induction false} LoopsKeep(mode: Option<Mode>, loops: seq<LoopingSfx>) returns (places: seq<nat>)
    ensures ArePlaces(loops, AllowedLoops(mode, loops), places)
    ensures forall l :: multiset(AllowedLoops(mode, loops))[l] == if LoopAllowed(mode, l) then multiset(loops)[l] else 0
    decreases |loops|
  {
    places := [];
    if loops != [] {
      var rest := LoopsKeep(mode, loops[1..]);
      var moved := PlacesBehind(loops, AllowedLoops(mode, loops[1..]), rest);
      places := if LoopAllowed(mode, loops[0]) then [0] + moved else moved;
      assert loops == [loops[0]] + loops[1..];
    }
  }

  lemma LoopsKept(mode: Option<Mode>, loops: seq<LoopingSfx>)
    ensures IsKept(loops, AllowedLoops(mode, loops), LoopsOf(mode, loops))
  {
    var places := LoopsKeep(mode, loops);
  }

  lemma WithinKept<T(!new)>(before: seq<T>, allowed: set<T>)
    ensures IsKept(before, Within(before, allowed), allowed)
  {
    var places := WithinKeeps(before, allowed);
  }

  /** The ambient lane is left with the tracks the catalog has. */
  predicate AmbientPruned(s: State, t: State, catalog: Catalog, nowMs: u64) {
    && t.ambient.loopMode == s.ambient.loopMode && t.ambient.shuffle == s.ambient.shuffle
    && t.ambient.sourcePlaylistId == s.ambient.sourcePlaylistId && t.room == s.room
    && (if AmbientTrackKept(s, catalog) then t.ambient.current == s.ambient.current && t.isPlaying == s.isPlaying
        else t.ambient.current.None? && !t.isPlaying && AmbientNow(t, nowMs) == 0)
  }

  lemma AmbientPrunes(s: State, catalog: Catalog, nowMs: u64)
    requires LanesOk(s, nowMs) && catalog.tracks.Some?
    ensures var t := PrunedLanes(s, catalog, nowMs).state;
            && AmbientPruned(s, t, catalog, nowMs)
            && t.ambient.queue == Within(s.ambient.queue, catalog.tracks.value)
            && t.ambient.history == Within(s.ambient.history, catalog.tracks.value)
  {
  }

  /** The ambient lane keeps the tracks the catalog has. Without its current track it stands empty-handed at the start,
      and the document stops playing. */
  lemma AmbientIsPruned(s: State, catalog: Catalog, nowMs: u64)
    requires LanesOk(s, nowMs) && catalog.tracks.Some?
    ensures var t := PrunedLanes(s, catalog, nowMs).state;
            && AmbientPruned(s, t, catalog, nowMs)
            && IsKept(s.ambient.queue, t.ambient.queue, catalog.tracks.value)
            && IsKept(s.ambient.history, t.ambient.history, catalog.tracks.value)
  {
    AmbientPrunes(s, catalog, nowMs);
    WithinKept(s.ambient.queue, catalog.tracks.value);
    WithinKept(s.ambient.history, catalog.tracks.value);
  }

  /** The interrupt goes if its track does; otherwise it keeps the tracks the catalog has, and all else. */
  lemma InterruptIsPruned(s: State, catalog: Catalog, nowMs: u64)
    requires catalog.tracks.Some? && s.interrupt.Some?
    ensures var t := PrunedLanes(s, catalog, nowMs).state;
            if !InterruptTrackKept(s, catalog) then t.interrupt.None?
            else
              && t.interrupt.Some?
              && t.interrupt.value == s.interrupt.value.(queue := t.interrupt.value.queue)
              && IsKept(s.interrupt.value.queue, t.interrupt.value.queue, catalog.tracks.value)
  {
    WithinKept(s.interrupt.value.queue, catalog.tracks.value);
  }

  function PresetsOf(mode: Option<Mode>): set<string> {
    if mode.Some? then mode.value.presetIds else {}
  }

  /** What a room is left with, apart from presets and loops. */
  predicate RoomPruned(r: Room, t: Room, mode: Option<Mode>) {
    && t.activeModeId == (if mode.Some? then r.activeModeId else None)
    && t.activeSoundboardId == (if mode.Some? && r.activeSoundboardId.Some? &&
                                   r.activeSoundboardId.value in mode.value.items
                                then r.activeSoundboardId else None)
    && t.multipleOutputs == (mode.Some? && mode.value.multipleOutputs)
    && t.activeOutputs == (if t.multipleOutputs || |r.activeOutputs| <= 1 then r.activeOutputs
                           else [r.activeOutputs[0]])
    && t == r.(activeModeId := t.activeModeId, activeSoundboardId := t.activeSoundboardId,
               activePresetIds := t.activePresetIds, loopingSfx := t.loopingSfx,
               multipleOutputs := t.multipleOutputs, activeOutputs := t.activeOutputs)
  }

  lemma NothingWithin<T(!new)>(s: seq<T>)
    ensures Within(s, {}) == []
  {
    if Within(s, {}) != [] {
      assert Within(s, {})[0] in Within(s, {});
    }
  }

  lemma NoLoopsAllowed(loops: seq<LoopingSfx>)
    ensures AllowedLoops(None, loops) == []
  {
    if AllowedLoops(None, loops) != [] {
      assert AllowedLoops(None, loops)[0] in AllowedLoops(None, loops);
    }
  }

  lemma RoomPrunes(r: Room, catalog: Catalog)
    requires catalog.modes.Some?
    ensures var t, mode := PrunedRoom(r, catalog).room, ActiveMode(r, catalog.modes.value);
            && RoomPruned(r, t, mode) && t.activePresetIds == Within(r.activePresetIds, PresetsOf(mode))
            && t.loopingSfx == AllowedLoops(mode, r.loopingSfx)
  {
    NothingWithin(r.activePresetIds);
    NoLoopsAllowed(r.loopingSfx);
  }

  /** A room whose mode is gone is left without mode, soundboard, presets and loops. Otherwise it keeps of these what
      the mode has. It plays through as many outputs as the mode allows, the first if only one. */
  lemma RoomIsPruned(r: Room, catalog: Catalog)
    requires catalog.modes.Some?
    ensures var t, mode := PrunedRoom(r, catalog).room, ActiveMode(r, catalog.modes.value);
            && RoomPruned(r, t, mode) && IsKept(r.activePresetIds, t.activePresetIds, PresetsOf(mode))
            && IsKept(r.loopingSfx, t.loopingSfx, LoopsOf(mode, r.loopingSfx))
  {
    var mode := ActiveMode(r, catalog.modes.value);
    RoomPrunes(r, catalog);
    WithinKept(r.activePresetIds, PresetsOf(mode));
    LoopsKept(mode, r.loopingSfx);
  }

  // ----- a restart -----

  /** What was saved of a document comes back paused, with the ambient lane where it was, its settings, and the revision
      and epoch it had; without interrupt, loops and outputs. */
  lemma RestartBringsBack(s: State, savedMs: u64, loadedMs: u64)
    requires LanesOk(s, savedMs)
    ensures var t := Decoded(Durable(MaterializePositions(s, savedMs)));
            && t.ambient.current == s.ambient.current && t.ambient.queue == s.ambient.queue
            && t.ambient.history == s.ambient.history && t.ambient.loopMode == s.ambient.loopMode
            && t.ambient.shuffle == s.ambient.shuffle && t.ambient.sourcePlaylistId == s.ambient.sourcePlaylistId
            && AmbientNow(t, loadedMs) == AmbientNow(s, savedMs)
            && !t.isPlaying && t.interrupt.None? && t.positionEpoch == s.positionEpoch
            && t.room == s.room.(activeOutputs := [], loopingSfx := [], multipleOutputs := false,
                                 lastPositionReport := t.room.lastPositionReport)
            && t.room.lastPositionReport ==
               match s.room.lastPositionReport
               case None => None
               case Some(report) =>
                 if report.reportedAt < 0.0 then None
                 else Some(report.(positionMs := Min(report.positionMs, MAX_POSITION_MS)))
  {
  }

  /** A start writes the document exactly if there is none, if reading it changed it, or if the catalog does; and it
      succeeds exactly if every write it makes is seen. */
  lemma LaunchIsServed(stored: Option<State>, catalog: Catalog, nowMs: u64, load: Reply, fit: Reply)
    ensures var s := if stored.Some? then Decoded(stored.value) else NEW_DOCUMENT;
            var pruned := PlaybackCatalog.Pruned(s, catalog, false, nowMs);
            && pruned.Ok?
            && var l := Launched(stored, catalog, nowMs, load, fit).0;
               && (l.Some? <==>
                   && (stored.None? || Durable(s) != stored.value ==> load.Seen?)
                   && (pruned.value.state != s ==> fit.Seen?))
               && (l.Some? ==> l.value.state == pruned.value.state && l.value.catalog == catalog)
  {
    var s := if stored.Some? then Decoded(stored.value) else NEW_DOCUMENT;
    assert PlaybackCatalog.Pruned(s, catalog, false, nowMs).Ok?;
    PrunedIsOther(s, catalog, false, nowMs);
  }
}
