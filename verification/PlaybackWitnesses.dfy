/** Runs of the live document, from the start of a new installation, at the inputs where what watchers may expect
    fails. */
module PlaybackWitnesses {
  import opened Common
  import opened Playback
  import opened PlaybackCatalog
  import opened PlaybackInvariants
  import opened PlaybackLive
  import opened PlaybackPublications
  import opened PlaybackRuns
  import opened Recovery

  lemma ServeTwo(l: Live, a: Request, b: Request)
    requires l.running && Handled(l, a).running
    ensures Serve(l, [a, b]) == Handled(Handled(l, a), b)
  {
    assert [a, b][1..] == [b] && [b][1..] == [];
    assert Serve(Handled(Handled(l, a), b), []) == Handled(Handled(l, a), b);
    assert Serve(Handled(l, a), [b]) == Handled(Handled(l, a), b);
  }

  lemma ServeThree(l: Live, a: Request, b: Request, c: Request)
    requires l.running && Handled(l, a).running && Handled(Handled(l, a), b).running
    ensures Serve(l, [a, b, c]) == Handled(Handled(Handled(l, a), b), c)
  {
    assert [a, b, c][1..] == [b, c];
    ServeTwo(Handled(l, a), b, c);
  }

  lemma TwoInTime(clock: u64, a: Request, b: Request)
    requires clock <= TimeOf(a) <= TimeOf(b)
    ensures InTime(clock, [a, b])
  {
    assert [a, b][1..] == [b] && [b][1..] == [];
    assert InTime(TimeOf(a), [b]);
  }

  lemma ThreeInTime(clock: u64, a: Request, b: Request, c: Request)
    requires clock <= TimeOf(a) <= TimeOf(b) <= TimeOf(c)
    ensures InTime(clock, [a, b, c])
  {
    assert [a, b, c][1..] == [b, c];
    TwoInTime(TimeOf(a), b, c);
  }

  function NewLive(catalog: Catalog): Live {
    Live(NEW_DOCUMENT, catalog, [], 1, Durable(NEW_DOCUMENT), false, true,
        [Publication(NEW_DOCUMENT, map[], Started)], 0)
  }

  lemma LaunchesNew(catalog: Catalog, nowMs: u64)
    requires catalog.modes.None?
    ensures Launched(None, catalog, nowMs, Seen, Seen).0 == Some(NewLive(catalog))
  {
    NothingToPrune(NEW_DOCUMENT, catalog, nowMs);
    LaunchedIsOk(None, catalog, nowMs, Seen, Seen);
  }

  // ----- a catalog drops the track that plays -----

  /** A library of these tracks, of the given version. */
  function Holding(tracks: set<TrackId>, library: u64): Catalog {
    Catalog(library, 0, Some(tracks), None)
  }

  function Play(track: TrackId, nowMs: u64): Request {
    Execute(AmbientPlayTrack(track), Context(nowMs, 0.0, None), true, Seen)
  }

  function Adopt(catalog: Catalog, nowMs: u64): Request {
    ReplaceCatalog(catalog, false, nowMs, Seen)
  }

  /** The live document after one more document was saved, adopted and shown. */
  function Committed(l: Live, next: State, catalog: Catalog, nowMs: u64, cause: Cause): Live {
    SaveAndShow(l, next, catalog, l.connections, nowMs, cause, Seen).0
  }

  /** A new document in which a track was started. */
  function Playing(track: TrackId, nowMs: u64): State {
    Revised(NEW_DOCUMENT.(positionEpoch := 1, isPlaying := true,
                          ambient := EmptyAmbient(LoopMode.Off, InOrder).(current := Some(track),
                              anchorMs := Some(nowMs))), 1)
  }

  lemma FirstTrackPlays(tracks: set<TrackId>, track: TrackId, nowMs: u64)
    ensures Handled(NewLive(Holding(tracks, 0)), Play(track, nowMs)) ==
            Committed(NewLive(Holding(tracks, 0)), Playing(track, nowMs), Holding(tracks, 0), nowMs, Changed)
  {
  }

  lemma TrackIsDropped(l: Live, tracks: set<TrackId>, track: TrackId, nowMs: u64)
    requires l.state == Playing(track, nowMs) && l.catalog == Holding(tracks, 0) && track in tracks && l.running
    ensures Handled(l, Adopt(Holding({}, 1), nowMs)) ==
            Committed(l, Revised(NEW_DOCUMENT.(positionEpoch := 1), 2), Holding({}, 1), nowMs, Cause.Pruned(false))
  {
  }

  /** A track is started, and a new library lacks it: two publications show different tracks under one epoch. */
  lemma DroppedTrackKeepsEpoch(track: TrackId, nowMs: u64)
    ensures var catalog, requests := Holding({track}, 0), [Play(track, nowMs), Adopt(Holding({}, 1), nowMs)];
            && Launched(None, catalog, nowMs, Seen, Seen).0.Some? && InTime(nowMs, requests)
            && var shown := Running(None, catalog, nowMs, Seen, Seen, requests).shown;
               && |shown| == 3 && shown[1].state.positionEpoch == shown[2].state.positionEpoch
               && shown[1].state.ambient.current == Some(track) && shown[2].state.ambient.current == None
  {
    var catalog, play, adopt := Holding({track}, 0), Play(track, nowMs), Adopt(Holding({}, 1), nowMs);
    LaunchesNew(catalog, nowMs);
    FirstTrackPlays({track}, track, nowMs);
    TrackIsDropped(Handled(NewLive(catalog), play), {track}, track, nowMs);
    ServeTwo(NewLive(catalog), play, adopt);
    TwoInTime(nowMs, play, adopt);
  }

  // ----- a catalog drops the track of an interrupt -----

  const DUCKED := InterruptFade(true, 0, 0, Some(0.5))

  function Interrupting(track: TrackId, nowMs: u64): Request {
    Execute(FireInterruptSequence([track], DUCKED), Context(nowMs, 0.0, None), true, Seen)
  }

  /** The document in which an interrupt plays over the track. */
  function Ducked(track: TrackId, interrupt: TrackId, nowMs: u64): State {
    Revised(Playing(track, nowMs).(positionEpoch := 2,
                interrupt := Some(Interrupt(interrupt, [], 0, Some(nowMs), true, 0, 0, Some(0.5)))), 2)
  }

  lemma InterruptFires(track: TrackId, interrupt: TrackId, nowMs: u64)
    ensures ReduceResult(Playing(track, nowMs), Interrupting(interrupt, nowMs).command, Context(nowMs, 0.0, None)) ==
            Ok(Reduction(Revised(Ducked(track, interrupt, nowMs), 1), true, true, Immediate, []))
  {
    assert [interrupt][1..] == [];
  }

  lemma InterruptPlays(l: Live, tracks: set<TrackId>, track: TrackId, interrupt: TrackId, nowMs: u64)
    requires l.state == Playing(track, nowMs) && l.catalog == Holding(tracks, 0) && l.running
    ensures Handled(l, Interrupting(interrupt, nowMs)) ==
            Committed(l, Ducked(track, interrupt, nowMs), l.catalog, nowMs, Changed)
  {
    InterruptFires(track, interrupt, nowMs);
  }

  /** Without its interrupt the document has its first clock set anew. */
  lemma InterruptIsDropped(l: Live, tracks: set<TrackId>, track: TrackId, interrupt: TrackId, nowMs: u64, laterMs: u64)
    requires l.state == Ducked(track, interrupt, nowMs) && l.catalog == Holding(tracks, 0) && l.running &&
             track != interrupt
    ensures Handled(l, Adopt(Holding({track}, 1), laterMs)) ==
            Committed(l, Revised(Playing(track, laterMs).(positionEpoch := 2), 3), Holding({track}, 1), laterMs,
                Cause.Pruned(false))
  {
    assert Within([], {track}) == [];
  }

  function AmbientPosition(p: Publication, nowMs: u64): u64 {
    MaterializeAmbient(p.state.ambient, nowMs).positionMs
  }

  /** What two more documents are shown as, each at the time its clocks were set. */
  lemma CommittedShow(l: Live, a: State, b: State, next: Catalog, nowMs: u64, laterMs: u64, cause: Cause)
    requires MaterializePositions(a, nowMs) == a && MaterializePositions(b, laterMs) == b
    ensures var shown := Committed(Committed(l, a, l.catalog, nowMs, Changed), b, next, laterMs, cause).shown;
            |shown| == |l.shown| + 2 && shown[|l.shown|].state == a && shown[|l.shown| + 1].state == b
  {
  }

  lemma InterruptComesAndGoes(track: TrackId, interrupt: TrackId, nowMs: u64, laterMs: u64)
    requires track != interrupt
    ensures var l := NewLive(Holding({track, interrupt}, 0));
            var playing := Committed(l, Playing(track, nowMs), l.catalog, nowMs, Changed);
            var ducked := Committed(playing, Ducked(track, interrupt, nowMs), l.catalog, nowMs, Changed);
            Serve(l, [Play(track, nowMs), Interrupting(interrupt, nowMs), Adopt(Holding({track}, 1), laterMs)]) ==
            Committed(ducked, Revised(Playing(track, laterMs).(positionEpoch := 2), 3), Holding({track}, 1), laterMs,
                Cause.Pruned(false))
  {
    var tracks := {track, interrupt};
    var l, play, fire, adopt := NewLive(Holding(tracks, 0)), Play(track, nowMs), Interrupting(interrupt, nowMs),
      Adopt(Holding({track}, 1), laterMs);
    FirstTrackPlays(tracks, track, nowMs);
    InterruptPlays(Handled(l, play), tracks, track, interrupt, nowMs);
    InterruptIsDropped(Handled(Handled(l, play), fire), tracks, track, interrupt, nowMs, laterMs);
    ServeThree(l, play, fire, adopt);
  }

  /** A track is started and an interrupt ducks it; some time later a new library lacks only the interrupt's track: the
      track, which ran on until then, is back at its start, under the same epoch. */
  lemma DroppedInterruptRewinds(track: TrackId, interrupt: TrackId, nowMs: u64, laterMs: u64)
    requires track != interrupt && nowMs < laterMs
    ensures var catalog := Holding({track, interrupt}, 0);
            var requests := [Play(track, nowMs), Interrupting(interrupt, nowMs), Adopt(Holding({track}, 1), laterMs)];
            && Launched(None, catalog, nowMs, Seen, Seen).0.Some? && InTime(nowMs, requests)
            && var shown := Running(None, catalog, nowMs, Seen, Seen, requests).shown;
               && |shown| == 4 && shown[2].state.positionEpoch == shown[3].state.positionEpoch
               && shown[2].state.ambient.current == shown[3].state.ambient.current == Some(track)
               && AmbientPosition(shown[2], laterMs) == Min(laterMs - nowMs, MAX_POSITION_MS)
               && AmbientPosition(shown[3], laterMs) == 0
  {
    var l := NewLive(Holding({track, interrupt}, 0));
    var playing := Committed(l, Playing(track, nowMs), l.catalog, nowMs, Changed);
    var ducked, rewound := Ducked(track, interrupt, nowMs), Revised(Playing(track, laterMs).(positionEpoch := 2), 3);
    LaunchesNew(Holding({track, interrupt}, 0), nowMs);
    InterruptComesAndGoes(track, interrupt, nowMs, laterMs);
    CommittedShow(playing, ducked, rewound, Holding({track}, 1), nowMs, laterMs, Cause.Pruned(false));
    ThreeInTime(nowMs, Play(track, nowMs), Interrupting(interrupt, nowMs), Adopt(Holding({track}, 1), laterMs));
  }

  // ----- clients -----

  const NO_CATALOG := Catalog(0, 0, None, None)

  /** The document once a first client has registered, with the revision `revision`. */
  function Joined(r: Registration, revision: u64): State {
    Revised(NEW_DOCUMENT.(room := NEW_DOCUMENT.room.(deviceVolumes := map[r.clientId := 1.0])), revision)
  }

  function JoinedLive(r: Registration): Live {
    Live(Joined(r, 1), NO_CATALOG, [Connection(1, Some(r))], 2, Joined(r, 1), false, true,
         [Publication(NEW_DOCUMENT, map[], Started),
             Publication(Joined(r, 1), map[r.clientId := ClientOf(r)], Changed)], 1)
  }

  lemma OneClient(r: Registration)
    ensures Clients([Connection(1, Some(r))]) == map[r.clientId := ClientOf(r)]
    ensures Clients([Connection(1, None)]) == map[]
  {
    assert [Connection(1, Some(r))][..0] == [] && [Connection(1, None)][..0] == [];
  }

  lemma FirstClientJoins(r: Registration, nowMs: u64)
    requires ValidRegistration(r) && !r.isDefaultOutput
    ensures Handled(NewLive(NO_CATALOG), Open(nowMs)) ==
            NewLive(NO_CATALOG).(nextConnection := 2, connections := [Connection(1, None)])
    ensures Handled(Handled(NewLive(NO_CATALOG), Open(nowMs)), Register(1, r, nowMs, Seen)) == JoinedLive(r)
  {
    var open := NewLive(NO_CATALOG).(nextConnection := 2, connections := [Connection(1, None)]);
    assert NewLive(NO_CATALOG).connections + [Connection(1, None)] == [Connection(1, None)];
    OneClient(r);
    assert IndexOf(open.connections, 1) == Some(0);
    assert [Connection(1, None)][0 := Connection(1, Some(r))] == [Connection(1, Some(r))];
    assert NEW_DOCUMENT.room.deviceVolumes[r.clientId := 1.0] == map[r.clientId := 1.0];
    assert Handled(open, Register(1, r, nowMs, Seen)) == RegisterAt(open, 0, r, nowMs, Seen).0;
    assert Bumped(Joined(r, 0), 0) == Some(Joined(r, 1));
    assert MaterializePositions(Joined(r, 1), nowMs) == Joined(r, 1) == Durable(Joined(r, 1));
  }

  lemma ClientIsRenamed(r: Registration, name: string, nowMs: u64)
    requires ValidRegistration(r) && 1 <= |name| <= MAX_CLIENT_NAME && name != ClientOf(r).name
    ensures var renamed := r.(rememberedName := Some(name), isDefaultOutput := false);
            Handled(JoinedLive(r), RefreshMetadata(r.clientId, Some(name), false, nowMs)) ==
            ShowStep(JoinedLive(r).(connections := [Connection(1, Some(renamed))]), nowMs, Refresh)
    ensures var renamed := r.(rememberedName := Some(name), isDefaultOutput := false);
            Clients([Connection(1, Some(renamed))]) == map[r.clientId := ClientOf(renamed)]
            != map[r.clientId := ClientOf(r)]
  {
    var renamed := r.(rememberedName := Some(name), isDefaultOutput := false);
    assert RefreshedAll([Connection(1, Some(r))], r.clientId, Some(name), false) == [Connection(1, Some(renamed))];
    OneClient(r);
    OneClient(renamed);
    assert map[r.clientId := ClientOf(r)][r.clientId] != map[r.clientId := ClientOf(renamed)][r.clientId];
  }

  /** A client joins and is then renamed by the operator: two publications show different clients under one revision. */
  lemma RefreshRepeatsRevision(r: Registration, name: string, nowMs: u64)
    requires ValidRegistration(r) && !r.isDefaultOutput && 1 <= |name| <= MAX_CLIENT_NAME && name != ClientOf(r).name
    ensures var requests :=
            [Open(nowMs), Register(1, r, nowMs, Seen), RefreshMetadata(r.clientId, Some(name), false, nowMs)];
            && Launched(None, NO_CATALOG, nowMs, Seen, Seen).0.Some? && InTime(nowMs, requests)
            && var shown := Running(None, NO_CATALOG, nowMs, Seen, Seen, requests).shown;
               && |shown| == 3 && shown[2].cause.Refresh? && shown[1].clients != shown[2].clients
               && shown[1].state.room.publicationRevision == shown[2].state.room.publicationRevision
  {
    LaunchesNew(NO_CATALOG, nowMs);
    FirstClientJoins(r, nowMs);
    ClientIsRenamed(r, name, nowMs);
    var open, join, rename := Open(nowMs), Register(1, r, nowMs, Seen),
        RefreshMetadata(r.clientId, Some(name), false, nowMs);
    ServeThree(NewLive(NO_CATALOG), open, join, rename);
    ThreeInTime(nowMs, open, join, rename);
  }

  lemma LastClientLeaves(r: Registration, nowMs: u64)
    ensures var t := Handled(JoinedLive(r), Disconnect(1, nowMs, Refused));
            t == ShowStep(JoinedLive(r).(state := Joined(r, 2), connections := []), nowMs, Presence)
  {
    var l := JoinedLive(r);
    OneClient(r);
    assert IndexOf(l.connections, 1) == Some(0);
    assert l.connections[..0] + l.connections[1..] == [];
    assert r.clientId in Clients(l.connections) && r.clientId !in Clients([]);
    assert LeaveRoom(l.state.room, Some(r.clientId)) == RoomStep(l.state.room, false);
    assert Bumped(l.state, 1) == Some(Joined(r, 2));
  }

  lemma RestartsWithOne(r: Registration, nowMs: u64)
    ensures var next := Launched(Some(Joined(r, 1)), NO_CATALOG, nowMs, Refused, Refused).0;
            next.Some? && next.value.shown != [] && FirstRevision(next.value) == 1
  {
    var s := Joined(r, 1);
    assert Decoded(s) == s == Durable(s);
    LaunchKeepsRevision(s, NO_CATALOG, nowMs, Refused, Refused);
  }

  /** A client joins and leaves: the second change is published under revision 2 and never saved, so after a restart the
      first publication has revision 1 again. */
  lemma PresenceIsNotSaved(r: Registration, nowMs: u64, restartMs: u64)
    requires ValidRegistration(r) && !r.isDefaultOutput
    ensures var requests := [Open(nowMs), Register(1, r, nowMs, Seen), Disconnect(1, nowMs, Refused)];
            && Launched(None, NO_CATALOG, nowMs, Seen, Seen).0.Some? && InTime(nowMs, requests)
            && var l := Running(None, NO_CATALOG, nowMs, Seen, Seen, requests);
               && l.running && l.shown != [] && LastRevision(l) == 2 && l.saved.room.publicationRevision == 1
               && var next := Launched(Some(l.saved), NO_CATALOG, restartMs, Refused, Refused).0;
                  next.Some? && next.value.shown != [] && FirstRevision(next.value) == 1
  {
    LaunchesNew(NO_CATALOG, nowMs);
    FirstClientJoins(r, nowMs);
    var open, join, leave := Open(nowMs), Register(1, r, nowMs, Seen), Disconnect(1, nowMs, Refused);
    ServeThree(NewLive(NO_CATALOG), open, join, leave);
    ThreeInTime(nowMs, open, join, leave);
    LastClientLeaves(r, nowMs);
    RestartsWithOne(r, restartMs);
  }
}
