/** What watchers of the live document can rely on over every run, and what a restart can take back. */
module PlaybackPublications {
  import opened Common
  import opened Playback
  import opened PlaybackCatalog
  import opened PlaybackInvariants
  import opened PlaybackLive
  import opened PlaybackRuns
  import opened Recovery

  // ----- what was published -----

  /** What one publication may be followed by: the next revision, or for a refresh the same one with other clients; no
      lower epoch; and with the same epoch the same tracks, unless a catalog dropped the track of a lane. */
  predicate Follows(a: Publication, b: Publication) {
    && b.state.room.publicationRevision == a.state.room.publicationRevision + (if b.cause.Refresh? then 0 else 1)
    && (b.cause.Refresh? ==> a.clients != b.clients)
    && a.state.positionEpoch <= b.state.positionEpoch
    && (if b.cause == Cause.Pruned(false) then a.state.positionEpoch == b.state.positionEpoch &&
       !SameTracks(a.state, b.state)
        else a.state.positionEpoch == b.state.positionEpoch ==> SameTracks(a.state, b.state))
  }

  predicate Chained(shown: seq<Publication>) {
    |shown| > 1 ==> Follows(shown[|shown| - 2], shown[|shown| - 1]) && Chained(shown[..|shown| - 1])
  }

  /** How many publications after the i-th, up to the j-th, are more than a refresh. */
  function ChangesBetween(shown: seq<Publication>, i: nat, j: nat): (n: nat)
    requires i <= j < |shown|
    ensures n == 0 <==> forall k :: i < k <= j ==> shown[k].cause.Refresh?
    decreases j
  {
    if i == j then 0 else ChangesBetween(shown, i, j - 1) + (if shown[j].cause.Refresh? then 0 else 1)
  }

  lemma {:induction false} ChangesOfFront(shown: seq<Publication>, i: nat, j: nat)
    requires i <= j < |shown| - 1
    ensures ChangesBetween(shown[..|shown| - 1], i, j) == ChangesBetween(shown, i, j)
    decreases j
  {
    if i < j {
      ChangesOfFront(shown, i, j - 1);
    }
  }

  /** Revisions count the changes, and epochs never fall. */
  lemma {:induction false} RevisionsCountChanges(shown: seq<Publication>, i: nat, j: nat)
    requires Chained(shown) && i <= j < |shown|
    ensures shown[j].state.room.publicationRevision ==
            shown[i].state.room.publicationRevision + ChangesBetween(shown, i, j)
    ensures shown[i].state.positionEpoch <= shown[j].state.positionEpoch
    decreases |shown|
  {
    var n := |shown| - 1;
    if j < n {
      RevisionsCountChanges(shown[..n], i, j);
      ChangesOfFront(shown, i, j);
    } else if i < n {
      RevisionsCountChanges(shown[..n], i, n - 1);
      ChangesOfFront(shown, i, n - 1);
    }
  }

  predicate DropsTrack(p: Publication) {
    p.cause == Cause.Pruned(false)
  }

  /** Equal epochs mean equal tracks as long as no catalog drops the track of a lane in between. */
  lemma {:induction false} EqualEpochsTell(shown: seq<Publication>, i: nat, j: nat)
    requires Chained(shown) && i <= j < |shown| && shown[i].state.positionEpoch == shown[j].state.positionEpoch
    requires forall k :: i < k <= j ==> !DropsTrack(shown[k])
    ensures SameTracks(shown[i].state, shown[j].state)
    decreases |shown|
  {
    var n := |shown| - 1;
    if j < n {
      EqualEpochsTell(shown[..n], i, j);
    } else if i < n {
      RevisionsCountChanges(shown[..n], i, n - 1);
      assert !DropsTrack(shown[n]) && Follows(shown[n - 1], shown[n]);
      EqualEpochsTell(shown[..n], i, n - 1);
    }
  }

  // ----- what was saved -----

  /** How many presence changes were published from the given point on. */
  function PresenceSince(shown: seq<Publication>, from: nat): (n: nat)
    ensures n == 0 <==> forall k :: from <= k < |shown| ==> !shown[k].cause.Presence?
    decreases |shown|
  {
    if |shown| <= from then 0
    else
      var last := |shown| - 1;
      PresenceSince(shown[..last], from) + (if shown[last].cause.Presence? then 1 else 0)
  }

  lemma PresenceOfNext(shown: seq<Publication>, next: Publication, from: nat)
    requires from <= |shown|
    ensures PresenceSince(shown + [next], from) == PresenceSince(shown, from) + (if next.cause.Presence? then 1 else 0)
  {
    assert (shown + [next])[..|shown|] == shown;
  }

  /** What is saved is the durable part of the document, but for the revision and for positions reported since. */
  predicate Keeps(saved: State, s: State) {
    var d := Durable(s);
    saved == d.(room := d.room.(publicationRevision := saved.room.publicationRevision,
                                lastPositionReport := saved.room.lastPositionReport),
                ambient := d.ambient.(positionMs := saved.ambient.positionMs))
  }

  /** The saved revision is behind by the presence changes published since the last save. Only an actor that stopped
      because a save was not seen to succeed may have saved one revision more. */
  predicate SavedBehind(l: Live) {
    var behind := PresenceSince(l.shown, l.savedAt);
    || l.saved.room.publicationRevision + behind == l.state.room.publicationRevision
    || (!l.running && behind == 0 && l.saved.room.publicationRevision == l.state.room.publicationRevision + 1)
  }

  // ----- the invariant -----

  predicate PolicyOk(r: Room, catalog: Catalog) {
    catalog.modes.Some? ==> r.multipleOutputs == AllowsMultiple(r, catalog.modes.value)
  }

  ghost predicate DocumentOk(s: State, catalog: Catalog, clock: u64) {
    LanesOk(s, clock) && RoomOk(s.room) && PolicyOk(s.room, catalog)
  }

  /** A publication that shows the document but for positions reported since. */
  predicate Shows(p: Publication, s: State, connections: seq<Connection>) {
    && p.state.room.publicationRevision == s.room.publicationRevision
    && p.state.positionEpoch == s.positionEpoch && SameTracks(p.state, s)
    && p.clients == Clients(connections)
  }

  predicate ShownOk(l: Live) {
    && l.shown != [] && l.savedAt <= |l.shown| && Chained(l.shown)
    && Shows(l.shown[|l.shown| - 1], l.state, l.connections)
    && SavedBehind(l) && (l.running ==> Keeps(l.saved, l.state))
  }

  ghost predicate LiveOk(l: Live, clock: u64) {
    DocumentOk(l.state, l.catalog, clock) && ShownOk(l)
  }

  lemma OkLater(s: State, catalog: Catalog, clock: u64, later: u64)
    requires DocumentOk(s, catalog, clock) && clock <= later
    ensures DocumentOk(s, catalog, later)
  {
  }

  // ----- saving and showing -----

  /** How the document may move when it is published for this cause. */
  predicate Moves(s: State, t: State, cause: Cause) {
    && s.positionEpoch <= t.positionEpoch
    && match cause
       case Changed => s.positionEpoch == t.positionEpoch ==> SameTracks(s, t)
       case Pruned(kept) => s.positionEpoch == t.positionEpoch && (kept <==> SameTracks(s, t))
       case Presence => s.positionEpoch == t.positionEpoch && SameTracks(s, t)
       case _ => false
  }

  lemma KeepsAfterSave(s: State, nowMs: u64)
    ensures Keeps(Durable(MaterializePositions(s, nowMs)), s)
  {
  }

  /** Publishing the next revision: of a document just saved, or one that differs from what is saved as little as the
      one before did. */
  lemma ShowingKeeps(l: Live, t: Live, nowMs: u64, cause: Cause)
    requires ShownOk(l) && t.shown == l.shown && t.running && Moves(l.state, t.state, cause)
    requires t.state.room.publicationRevision == l.state.room.publicationRevision + 1
    requires if cause.Presence? then l.running && t.saved == l.saved && t.savedAt == l.savedAt &&
             Keeps(l.saved, t.state)
             else t.savedAt == |l.shown| && t.saved == Durable(MaterializePositions(t.state, nowMs))
    ensures ShownOk(ShowStep(t, nowMs, cause))
  {
    var next := Publication(MaterializePositions(t.state, nowMs), Clients(t.connections), cause);
    assert (l.shown + [next])[..|l.shown|] == l.shown;
    PresenceOfNext(l.shown, next, t.savedAt);
    KeepsAfterSave(t.state, nowMs);
  }

  /** A save that was not seen to succeed stops the actor and leaves everything else as it was. */
  lemma StoppingKeeps(l: Live, candidate: State, nowMs: u64, reply: Reply)
    requires ShownOk(l) && l.running && !reply.Seen?
    requires var revision := l.state.room.publicationRevision;
             revision <= candidate.room.publicationRevision <= revision + 1
    ensures var t := SaveStep(l, candidate, nowMs, reply);
            ShownOk(t) && !t.running && t.state == l.state && t.catalog == l.catalog
  {
  }

  lemma SaveAndShowKeeps(l: Live, next: State, catalog: Catalog, connections: seq<Connection>, nowMs: u64, cause: Cause,
      reply: Reply)
    requires LiveOk(l, nowMs) && l.running && DocumentOk(next, catalog, nowMs)
    requires Moves(l.state, next, cause) && !cause.Presence?
    requires next.room.publicationRevision == l.state.room.publicationRevision + 1
    ensures LiveOk(SaveAndShow(l, next, catalog, connections, nowMs, cause, reply).0, nowMs)
  {
    var s := SaveStep(l, next, nowMs, reply);
    if s.running {
      var t := s.(state := next, catalog := catalog, connections := connections, dirty := false);
      ShowingKeeps(l, t, nowMs, cause);
    } else {
      StoppingKeeps(l, next, nowMs, reply);
    }
  }

  /** The next revision of a document that may be published. */
  lemma BumpedIsOk(l: Live, candidate: State, catalog: Catalog, clock: u64, cause: Cause)
    requires DocumentOk(candidate, catalog, clock) && Moves(l.state, candidate, cause)
    ensures var next := Bumped(candidate, l.state.room.publicationRevision);
            next.Some? ==>
              && DocumentOk(next.value, catalog, clock) && Moves(l.state, next.value, cause)
              && next.value.room.publicationRevision == l.state.room.publicationRevision + 1
  {
  }

  lemma CommitKeeps(l: Live, candidate: State, catalog: Catalog, nowMs: u64, cause: Cause, reply: Reply)
    requires LiveOk(l, nowMs) && l.running && DocumentOk(candidate, catalog, nowMs)
    requires Moves(l.state, candidate, cause) && !cause.Presence?
    ensures LiveOk(CommitStep(l, candidate, catalog, nowMs, cause, reply).0, nowMs)
  {
    BumpedIsOk(l, candidate, catalog, nowMs, cause);
    var next := Bumped(candidate, l.state.room.publicationRevision);
    if next.Some? {
      SaveAndShowKeeps(l, next.value, catalog, l.connections, nowMs, cause, reply);
    }
  }

  // ----- commands -----

  /** What any reduction of the document may be, for each urgency of saving it. */
  ghost predicate Fits(s: State, r: Reduction, catalog: Catalog, nowMs: u64) {
    var t := r.nextState;
    && DocumentOk(t, catalog, nowMs) && Moves(s, t, Changed)
    && t.room.publicationRevision == s.room.publicationRevision
    && match r.persistence
       case Nothing => t == s && !r.changed
       case Throttled => r.changed && OnlyPositions(s, t)
       case Immediate => r.changed
  }

  /** What a position report may change. */
  predicate OnlyPositions(s: State, t: State) {
    && t.positionEpoch == s.positionEpoch && SameTracks(s, t) && t.isPlaying == s.isPlaying
    && t.room == s.room.(lastPositionReport := t.room.lastPositionReport)
    && t.ambient == s.ambient.(positionMs := t.ambient.positionMs, anchorMs := t.ambient.anchorMs)
  }

  lemma PolicyKeeps(s: State, catalog: Catalog, clock: u64)
    requires LanesOk(s, clock) && RoomOk(s.room)
    ensures var t := WithPolicy(s, catalog);
            && DocumentOk(t, catalog, clock) && t == s.(room := t.room)
            && t.room.publicationRevision == s.room.publicationRevision
    ensures PolicyOk(s.room, catalog) ==> WithPolicy(s, catalog) == s
  {
  }

  lemma RoomCommandKeepsRevision(r: Room, command: Command)
    requires IsRoomCommand(command) && ApplyRoom(r, command).Ok?
    ensures ApplyRoom(r, command).value.room.publicationRevision == r.publicationRevision
  {
  }

  /** No command touches the publication revision. */
  lemma CommandKeepsRevision(s: State, command: Command, ctx: Context)
    requires Apply(s, command, ctx).Ok?
    ensures Apply(s, command, ctx).value.state.room.publicationRevision == s.room.publicationRevision
  {
    if IsRoomCommand(command) {
      RoomCommandKeepsRevision(s.room, command);
    } else if IsAmbientMove(command) {
      AmbientMoveKeepsRoom(s, command, ctx);
    }
  }

  lemma ReductionMoves(s: State, command: Command, ctx: Context)
    requires LanesOk(s, ctx.nowMs) && RoomOk(s.room) && ReduceResult(s, command, ctx).Ok?
    ensures var t := ReduceResult(s, command, ctx).value.nextState;
            && LanesOk(t, ctx.nowMs) && RoomOk(t.room) && Moves(s, t, Changed)
            && t.room.publicationRevision == s.room.publicationRevision
  {
    EveryCommandMovesWell(s, command, ctx);
    EveryCommandKeepsRoom(s, command, ctx);
    CommandKeepsRevision(s, command, ctx);
  }

  lemma ReductionIsUrgent(s: State, command: Command, ctx: Context, catalog: Catalog)
    requires PolicyOk(s.room, catalog) && RoomOk(s.room) && ReduceResult(s, command, ctx).Ok?
    ensures var r := ReduceResult(s, command, ctx).value; var t := r.nextState;
            match r.persistence
            case Nothing => t == s && !r.changed
            case Throttled => r.changed && OnlyPositions(s, t) && PolicyOk(t.room, catalog)
            case Immediate => r.changed
  {
    if !ReduceResult(s, command, ctx).value.changed {
      UnchangedMeansEqual(s, command, ctx);
    }
  }

  /** Every reduction fits: in particular a command that changes nothing, or only reports a position, leaves the output
      policy alone. */
  lemma ReductionFits(s: State, command: Command, ctx: Context, catalog: Catalog)
    requires DocumentOk(s, catalog, ctx.nowMs) && ReduceResult(s, command, ctx).Ok?
    ensures Fits(s, Policed(ReduceResult(s, command, ctx), catalog).value, catalog, ctx.nowMs)
  {
    ReductionMoves(s, command, ctx);
    ReductionIsUrgent(s, command, ctx, catalog);
    PolicyKeeps(ReduceResult(s, command, ctx).value.nextState, catalog, ctx.nowMs);
    PolicyKeeps(s, catalog, ctx.nowMs);
  }

  lemma ReportingKeeps(l: Live, t: State)
    requires ShownOk(l) && OnlyPositions(l.state, t)
    ensures ShownOk(l.(state := t, dirty := true))
  {
  }

  lemma SettleKeeps(l: Live, reduction: Reduction, nowMs: u64, reply: Reply)
    requires LiveOk(l, nowMs) && l.running && Fits(l.state, reduction, l.catalog, nowMs)
    ensures LiveOk(SettleStep(l, reduction, nowMs, reply).0, nowMs)
  {
    match reduction.persistence
    case Nothing =>
    case Throttled => ReportingKeeps(l, reduction.nextState);
    case Immediate => CommitKeeps(l, reduction.nextState, l.catalog, nowMs, Changed, reply);
  }

  lemma ExecuteKeeps(l: Live, command: Command, ctx: Context, referencesOk: bool, reply: Reply)
    requires LiveOk(l, ctx.nowMs) && l.running
    ensures LiveOk(ExecuteStep(l, command, ctx, referencesOk, reply).0, ctx.nowMs)
  {
    var reduced := Policed(ReduceResult(l.state, command, ctx), l.catalog);
    if reduced.Ok? {
      ReductionFits(l.state, command, ctx, l.catalog);
      SettleKeeps(l, reduced.value, ctx.nowMs, reply);
    }
  }

  // ----- catalogs -----

  /** A pruned document fits its catalog; if pruning changed nothing, so does the document as it was. */
  lemma PruneFits(s: State, catalog: Catalog, next: Catalog, presetsChanged: bool, nowMs: u64)
    requires DocumentOk(s, catalog, nowMs) && PlaybackCatalog.Pruned(s, next, presetsChanged, nowMs).Ok?
    ensures var p := PlaybackCatalog.Pruned(s, next, presetsChanged, nowMs).value;
            && DocumentOk(p.state, next, nowMs) && Moves(s, p.state, Cause.Pruned(LiveTracksKept(s, next)))
            && (!p.changed ==> p.state == s)
  {
    PruneKeepsInvariants(s, next, presetsChanged, nowMs);
    PrunedRefersWithin(s, next, presetsChanged, nowMs);
    PruneKeepsSeekRuleExactly(s, next, presetsChanged, nowMs);
    if !PlaybackCatalog.Pruned(s, next, presetsChanged, nowMs).value.changed {
      UnchangedPruneIsEqual(s, next, presetsChanged, nowMs);
    }
  }

  lemma ReplaceCatalogKeeps(l: Live, next: Catalog, presetsChanged: bool, nowMs: u64, reply: Reply)
    requires LiveOk(l, nowMs) && l.running
    ensures LiveOk(ReplaceCatalogStep(l, next, presetsChanged, nowMs, reply).0, nowMs)
  {
    var pruned := PlaybackCatalog.Pruned(l.state, next, presetsChanged, nowMs);
    if pruned.Ok? {
      PruneFits(l.state, l.catalog, next, presetsChanged, nowMs);
      if pruned.value.changed {
        CommitKeeps(l, pruned.value.state, next, nowMs, Cause.Pruned(LiveTracksKept(l.state, next)), reply);
      }
    }
  }

  lemma FlushKeeps(l: Live, nowMs: u64, reply: Reply)
    requires LiveOk(l, nowMs) && l.running
    ensures LiveOk(FlushStep(l, nowMs, reply).0, nowMs)
  {
    if l.dirty {
      if reply.Seen? {
        KeepsAfterSave(l.state, nowMs);
      } else {
        StoppingKeeps(l, l.state, nowMs, reply);
      }
    }
  }

  // ----- connections -----

  lemma OpenKeeps(l: Live)
    requires ShownOk(l)
    ensures ShownOk(OpenStep(l).0)
  {
    if l.nextConnection < U64_MAX {
      var after := l.connections + [Connection(l.nextConnection, None)];
      assert after[..|after| - 1] == l.connections;
    }
  }

  /** Connections change only outputs and device volumes, and unless they say so nothing of the document. */
  predicate OnlyOutputs(r: Room, step: RoomStep) {
    && RoomOk(step.room) && (!step.changed ==> step.room == r)
    && step.room == r.(activeOutputs := step.room.activeOutputs, deviceVolumes := step.room.deviceVolumes)
  }

  lemma PresenceKeeps(l: Live, next: State, connections: seq<Connection>, nowMs: u64)
    requires LiveOk(l, nowMs) && l.running && DocumentOk(next, l.catalog, nowMs)
    requires Bumped(l.state, l.state.room.publicationRevision) == Some(next)
    ensures LiveOk(ShowStep(l.(state := next, connections := connections), nowMs, Presence), nowMs)
  {
    ShowingKeeps(l, l.(state := next, connections := connections), nowMs, Presence);
  }

  lemma OutputsKeepDocument(s: State, step: RoomStep, catalog: Catalog, nowMs: u64)
    requires DocumentOk(s, catalog, nowMs) && OnlyOutputs(s.room, step)
    ensures var t := s.(room := step.room);
            DocumentOk(t, catalog, nowMs) && Moves(s, t, Changed) && (!step.changed ==> t == s)
  {
  }

  lemma BumpedKeeps(l: Live, candidate: State, connections: seq<Connection>, durable: bool, presence: bool, nowMs: u64,
      reply: Reply)
    requires LiveOk(l, nowMs) && l.running && DocumentOk(candidate, l.catalog, nowMs)
    requires Moves(l.state, candidate, Changed) && (!durable ==> candidate == l.state)
    requires !durable ==> presence == (Clients(l.connections) != Clients(connections))
    ensures LiveOk(ExternalStep(l, candidate, connections, durable, presence, nowMs, reply).0, nowMs)
  {
    BumpedIsOk(l, candidate, l.catalog, nowMs, Changed);
    var next := Bumped(candidate, l.state.room.publicationRevision);
    if next.Some? {
      if durable || l.dirty {
        SaveAndShowKeeps(l, next.value, l.catalog, connections, nowMs, Changed, reply);
      } else {
        PresenceKeeps(l, next.value, connections, nowMs);
      }
    }
  }

  lemma RoomChangeKeeps(l: Live, step: RoomStep, connections: seq<Connection>, nowMs: u64, reply: Reply)
    requires LiveOk(l, nowMs) && l.running && OnlyOutputs(l.state.room, step)
    ensures LiveOk(RoomChange(l, step, connections, nowMs, reply).0, nowMs)
  {
    OutputsKeepDocument(l.state, step, l.catalog, nowMs);
    var presence := Clients(l.connections) != Clients(connections);
    BumpedKeeps(l, l.state.(room := step.room), connections, step.changed, presence, nowMs, reply);
  }

  lemma LeavingKeeps(r: Room, left: Option<string>)
    requires RoomOk(r)
    ensures OnlyOutputs(r, LeaveRoom(r, left))
  {
  }

  lemma ReplacingKeeps(r: Room, connection: Connection, connections: seq<Connection>, registration: Registration)
    requires RoomOk(r)
    ensures OnlyOutputs(r, ReplaceClientStep(r, connection, connections, registration))
  {
    LeavingKeeps(r, Displaced(connection, connections, registration));
  }

  lemma RegisterKeeps(l: Live, id: u64, r: Registration, nowMs: u64, reply: Reply)
    requires LiveOk(l, nowMs) && l.running
    ensures LiveOk(RegisterStep(l, id, r, nowMs, reply).0, nowMs)
  {
    var at := IndexOf(l.connections, id);
    if at.Some? {
      var connection := l.connections[at.value];
      var connections := l.connections[at.value := connection.(registration := Some(r))];
      ReplacingKeeps(l.state.room, connection, connections, r);
      RoomChangeKeeps(l, ReplaceClientStep(l.state.room, connection, connections, r), connections, nowMs, reply);
    }
  }

  lemma DisconnectKeeps(l: Live, id: u64, nowMs: u64, reply: Reply)
    requires LiveOk(l, nowMs) && l.running
    ensures LiveOk(DisconnectStep(l, id, nowMs, reply).0, nowMs)
  {
    var at := IndexOf(l.connections, id);
    if at.Some? {
      var connections := l.connections[..at.value] + l.connections[at.value + 1..];
      var left := Departed(l.connections[at.value].registration, connections);
      LeavingKeeps(l.state.room, left);
      RoomChangeKeeps(l, LeaveRoom(l.state.room, left), connections, nowMs, reply);
    }
  }

  lemma RefreshShows(l: Live, connections: seq<Connection>, nowMs: u64)
    requires ShownOk(l) && Clients(l.connections) != Clients(connections)
    ensures ShownOk(ShowStep(l.(connections := connections), nowMs, Refresh))
  {
    var next := Publication(MaterializePositions(l.state, nowMs), Clients(connections), Refresh);
    assert (l.shown + [next])[..|l.shown|] == l.shown;
    PresenceOfNext(l.shown, next, l.savedAt);
  }

  lemma RefreshKeeps(l: Live, clientId: string, remembered: Option<string>, isDefault: bool, nowMs: u64)
    requires LiveOk(l, nowMs)
    ensures LiveOk(RefreshStep(l, clientId, remembered, isDefault, nowMs).0, nowMs)
  {
    var connections := RefreshedAll(l.connections, clientId, remembered, isDefault);
    if Clients(l.connections) != Clients(connections) {
      RefreshShows(l, connections, nowMs);
    }
  }

  // ----- runs -----

  /** Every request keeps the document well-formed, the publications chained, and what is saved behind by the presence
      changes published since. */
  lemma RequestKeeps(l: Live, r: Request, clock: u64)
    requires LiveOk(l, clock) && l.running && clock <= TimeOf(r)
    ensures LiveOk(Handled(l, r), TimeOf(r))
  {
    OkLater(l.state, l.catalog, clock, TimeOf(r));
    match r
    case Execute(command, ctx, referencesOk, reply) => ExecuteKeeps(l, command, ctx, referencesOk, reply);
    case ReplaceCatalog(next, presetsChanged, nowMs, reply) =>
        ReplaceCatalogKeeps(l, next, presetsChanged, nowMs, reply);
    case FlushPosition(nowMs, reply) => FlushKeeps(l, nowMs, reply);
    case Open(_) => OpenKeeps(l);
    case Register(id, registration, nowMs, reply) => RegisterKeeps(l, id, registration, nowMs, reply);
    case Disconnect(id, nowMs, reply) => DisconnectKeeps(l, id, nowMs, reply);
    case RefreshMetadata(clientId, remembered, isDefault, nowMs) =>
      RefreshKeeps(l, clientId, remembered, isDefault, nowMs);
  }

  // ----- saved before shown -----

  /** Two documents that differ at most in their revisions. */
  predicate SameButRevision(s: State, t: State) {
    t == Revised(s, t.room.publicationRevision)
  }

  /** What one request may show: one publication of the document and its clients as they then are. A change or a pruning
      was saved first; a presence change is shown of an unchanged document with nothing waiting to be saved; a refresh
      changes only clients. */
  predicate ShowsOne(l: Live, t: Live, nowMs: u64, cause: Cause) {
    var p := Publication(MaterializePositions(t.state, nowMs), Clients(t.connections), cause);
    && t.running && t.shown == l.shown + [p]
    && match cause
       case Started => false
       case Presence => t.saved == l.saved && !l.dirty && SameButRevision(l.state, t.state) && t.catalog == l.catalog
       case Refresh => t == l.(connections := t.connections, shown := t.shown)
       case _ => t.saved == Durable(p.state) && !t.dirty && t.savedAt == |l.shown|
  }

  /** A request shows nothing, or one publication; and a request that stops the actor changes nothing but what is
      saved. */
  predicate SavesBeforeShowing(l: Live, t: Live, nowMs: u64) {
    if t.shown == l.shown
    then t.running || t == l.(saved := t.saved, savedAt := t.savedAt, running := false)
    else t.shown != [] && ShowsOne(l, t, nowMs, t.shown[|t.shown| - 1].cause)
  }

  lemma ShowingOne(l: Live, t: Live, nowMs: u64, cause: Cause)
    requires ShowsOne(l, t, nowMs, cause)
    ensures SavesBeforeShowing(l, t, nowMs)
  {
    assert |t.shown| == |l.shown| + 1 && t.shown[|l.shown|].cause == cause;
  }

  lemma SaveAndShowSaves(l: Live, next: State, catalog: Catalog, connections: seq<Connection>, nowMs: u64, cause: Cause,
      reply: Reply)
    requires l.running && (cause.Changed? || cause.Pruned?)
    ensures SavesBeforeShowing(l, SaveAndShow(l, next, catalog, connections, nowMs, cause, reply).0, nowMs)
  {
    if reply.Seen? {
      ShowingOne(l, SaveAndShow(l, next, catalog, connections, nowMs, cause, reply).0, nowMs, cause);
    }
  }

  lemma CommitSaves(l: Live, candidate: State, catalog: Catalog, nowMs: u64, cause: Cause, reply: Reply)
    requires l.running && (cause.Changed? || cause.Pruned?)
    ensures SavesBeforeShowing(l, CommitStep(l, candidate, catalog, nowMs, cause, reply).0, nowMs)
  {
    var next := Bumped(candidate, l.state.room.publicationRevision);
    if next.Some? {
      SaveAndShowSaves(l, next.value, catalog, l.connections, nowMs, cause, reply);
    }
  }

  lemma SettleSaves(l: Live, reduction: Reduction, nowMs: u64, reply: Reply)
    requires l.running
    ensures SavesBeforeShowing(l, SettleStep(l, reduction, nowMs, reply).0, nowMs)
  {
    match reduction.persistence
    case Nothing =>
    case Throttled =>
    case Immediate => CommitSaves(l, reduction.nextState, l.catalog, nowMs, Changed, reply);
  }

  lemma ExecuteSaves(l: Live, command: Command, ctx: Context, referencesOk: bool, reply: Reply)
    requires l.running
    ensures SavesBeforeShowing(l, ExecuteStep(l, command, ctx, referencesOk, reply).0, ctx.nowMs)
  {
    var reduced := Policed(ReduceResult(l.state, command, ctx), l.catalog);
    if reduced.Ok? {
      SettleSaves(l, reduced.value, ctx.nowMs, reply);
    }
  }

  lemma ReplaceCatalogSaves(l: Live, next: Catalog, presetsChanged: bool, nowMs: u64, reply: Reply)
    requires l.running
    ensures SavesBeforeShowing(l, ReplaceCatalogStep(l, next, presetsChanged, nowMs, reply).0, nowMs)
  {
    var pruned := PlaybackCatalog.Pruned(l.state, next, presetsChanged, nowMs);
    if pruned.Ok? {
      CommitSaves(l, pruned.value.state, next, nowMs, Cause.Pruned(LiveTracksKept(l.state, next)), reply);
    }
  }

  lemma RoomChangeSaves(l: Live, step: RoomStep, connections: seq<Connection>, nowMs: u64, reply: Reply)
    requires l.running && OnlyOutputs(l.state.room, step)
    ensures SavesBeforeShowing(l, RoomChange(l, step, connections, nowMs, reply).0, nowMs)
  {
    var candidate := l.state.(room := step.room);
    var next := Bumped(candidate, l.state.room.publicationRevision);
    if next.Some? && (step.changed || Clients(l.connections) != Clients(connections)) {
      if step.changed || l.dirty {
        SaveAndShowSaves(l, next.value, l.catalog, connections, nowMs, Changed, reply);
      } else {
        assert candidate == l.state;
        ShowingOne(l, RoomChange(l, step, connections, nowMs, reply).0, nowMs, Presence);
      }
    }
  }

  lemma RegisterSaves(l: Live, id: u64, r: Registration, nowMs: u64, reply: Reply)
    requires l.running && RoomOk(l.state.room)
    ensures SavesBeforeShowing(l, RegisterStep(l, id, r, nowMs, reply).0, nowMs)
  {
    var at := IndexOf(l.connections, id);
    if at.Some? {
      var connection := l.connections[at.value];
      var connections := l.connections[at.value := connection.(registration := Some(r))];
      ReplacingKeeps(l.state.room, connection, connections, r);
      RoomChangeSaves(l, ReplaceClientStep(l.state.room, connection, connections, r), connections, nowMs, reply);
    }
  }

  lemma DisconnectSaves(l: Live, id: u64, nowMs: u64, reply: Reply)
    requires l.running && RoomOk(l.state.room)
    ensures SavesBeforeShowing(l, DisconnectStep(l, id, nowMs, reply).0, nowMs)
  {
    var at := IndexOf(l.connections, id);
    if at.Some? {
      var connections := l.connections[..at.value] + l.connections[at.value + 1..];
      var left := Departed(l.connections[at.value].registration, connections);
      LeavingKeeps(l.state.room, left);
      RoomChangeSaves(l, LeaveRoom(l.state.room, left), connections, nowMs, reply);
    }
  }

  lemma RefreshSaves(l: Live, clientId: string, remembered: Option<string>, isDefault: bool, nowMs: u64)
    requires l.running
    ensures SavesBeforeShowing(l, RefreshStep(l, clientId, remembered, isDefault, nowMs).0, nowMs)
  {
    var t := l.(connections := RefreshedAll(l.connections, clientId, remembered, isDefault));
    if Clients(l.connections) != Clients(t.connections) {
      var shows := ShowStep(t, nowMs, Refresh);
      assert ShowsOne(l, shows, nowMs, Refresh);
      ShowingOne(l, shows, nowMs, Refresh);
    }
  }

  /** No request shows a document before it is saved, but for presence changes and refreshes, and none that stops the
      actor changes the document, its catalog or its clients. */
  lemma NothingShownUnsaved(l: Live, r: Request, clock: u64)
    requires LiveOk(l, clock) && l.running
    ensures SavesBeforeShowing(l, Handled(l, r), TimeOf(r))
  {
    match r
    case Execute(command, ctx, referencesOk, reply) => ExecuteSaves(l, command, ctx, referencesOk, reply);
    case ReplaceCatalog(next, presetsChanged, nowMs, reply) =>
        ReplaceCatalogSaves(l, next, presetsChanged, nowMs, reply);
    case FlushPosition(_, _) =>
    case Open(_) =>
    case Register(id, registration, nowMs, reply) => RegisterSaves(l, id, registration, nowMs, reply);
    case Disconnect(id, nowMs, reply) => DisconnectSaves(l, id, nowMs, reply);
    case RefreshMetadata(clientId, remembered, isDefault, nowMs) =>
      RefreshSaves(l, clientId, remembered, isDefault, nowMs);
  }

  /** When the last request handled was handled. */
  function ServedUntil(l: Live, clock: u64, requests: seq<Request>): u64
    decreases requests
  {
    if requests == [] || !l.running then clock
    else ServedUntil(Handled(l, requests[0]), TimeOf(requests[0]), requests[1..])
  }

  lemma {:induction false} ServingKeeps(l: Live, clock: u64, requests: seq<Request>)
    requires LiveOk(l, clock) && InTime(clock, requests)
    ensures LiveOk(Serve(l, requests), ServedUntil(l, clock, requests))
    decreases requests
  {
    if requests != [] && l.running {
      RequestKeeps(l, requests[0], clock);
      ServingKeeps(Handled(l, requests[0]), TimeOf(requests[0]), requests[1..]);
    }
  }

  // ----- startup -----

  lemma LoadingKeeps(stored: Option<State>, reply: Reply, nowMs: u64)
    requires Load(stored, reply).state.Some?
    ensures var loaded := Load(stored, reply); var s := loaded.state.value;
            && LanesOk(s, nowMs) && RoomOk(s.room) && loaded.saved == Some(Durable(s))
            && !s.isPlaying && s.interrupt.None? && s.ambient.anchorMs.None?
  {
    if stored.Some? {
      StartupEstablishesInvariants(stored.value, nowMs);
    }
  }

  lemma FittingKeeps(s: State, catalog: Catalog, nowMs: u64, reply: Reply)
    requires LanesOk(s, nowMs) && RoomOk(s.room) && Fit(s, Some(Durable(s)), catalog, nowMs, reply).state.Some?
    requires !s.isPlaying && s.interrupt.None? && s.ambient.anchorMs.None?
    ensures var fitted := Fit(s, Some(Durable(s)), catalog, nowMs, reply); var t := fitted.state.value;
            && DocumentOk(t, catalog, nowMs) && RefersWithin(t, catalog) && fitted.saved == Some(Durable(t))
            && !t.isPlaying && t.interrupt.None? && t.ambient.anchorMs.None?
            && t.room.publicationRevision == s.room.publicationRevision
  {
    PruneKeepsInvariants(s, catalog, false, nowMs);
    PrunedRefersWithin(s, catalog, false, nowMs);
    if !PlaybackCatalog.Pruned(s, catalog, false, nowMs).value.changed {
      UnchangedPruneIsEqual(s, catalog, false, nowMs);
    }
  }

  /** A start that succeeds shows the stored document, not playing, as far as it fits the catalog, and has it saved. */
  lemma LaunchedIsOk(stored: Option<State>, catalog: Catalog, nowMs: u64, load: Reply, fit: Reply)
    requires Launched(stored, catalog, nowMs, load, fit).0.Some?
    ensures var l := Launched(stored, catalog, nowMs, load, fit).0.value;
            && LiveOk(l, nowMs) && l.running && RefersWithin(l.state, catalog) && l.saved == Durable(l.state)
            && !l.state.isPlaying && l.state.interrupt.None? && l.connections == []
            && l.shown == [Publication(l.state, map[], Started)]
  {
    LoadingKeeps(stored, load, nowMs);
    FittingKeeps(Load(stored, load).state.value, catalog, nowMs, fit);
    var l := Launched(stored, catalog, nowMs, load, fit).0.value;
    assert MaterializePositions(l.state, nowMs) == l.state;
    assert l.shown == [Publication(l.state, map[], Started)];
  }

  // ----- what every run shows -----

  function FirstRevision(l: Live): u64
    requires l.shown != []
  {
    l.shown[0].state.room.publicationRevision
  }

  function LastRevision(l: Live): u64
    requires l.shown != []
  {
    l.shown[|l.shown| - 1].state.room.publicationRevision
  }

  /** A run of the actor, from its start to some moment. */
  function Running(stored: Option<State>, catalog: Catalog, nowMs: u64, load: Reply, fit: Reply,
      requests: seq<Request>): Live
    requires Launched(stored, catalog, nowMs, load, fit).0.Some?
  {
    Serve(Launched(stored, catalog, nowMs, load, fit).0.value, requests)
  }

  lemma RunningIsOk(stored: Option<State>, catalog: Catalog, nowMs: u64, load: Reply, fit: Reply,
      requests: seq<Request>)
    requires Launched(stored, catalog, nowMs, load, fit).0.Some? && InTime(nowMs, requests)
    ensures ShownOk(Running(stored, catalog, nowMs, load, fit, requests))
  {
    LaunchedIsOk(stored, catalog, nowMs, load, fit);
    ServingKeeps(Launched(stored, catalog, nowMs, load, fit).0.value, nowMs, requests);
  }

  /** Of any two publications of a run: revisions and epochs never fall; the revisions are equal exactly if everything
      published after the first is a refresh; and equal epochs mean equal tracks as long as no catalog drops the track
      of a lane in between. */
  lemma PublicationsOfEveryRun(stored: Option<State>, catalog: Catalog, nowMs: u64, load: Reply, fit: Reply,
      requests: seq<Request>, i: nat, j: nat)
    requires Launched(stored, catalog, nowMs, load, fit).0.Some? && InTime(nowMs, requests)
    requires i <= j < |Running(stored, catalog, nowMs, load, fit, requests).shown|
    ensures var shown := Running(stored, catalog, nowMs, load, fit, requests).shown; var a, b := shown[i].state,
            shown[j].state;
            && a.room.publicationRevision <= b.room.publicationRevision && a.positionEpoch <= b.positionEpoch
            && (a.room.publicationRevision == b.room.publicationRevision <==>
               forall k :: i < k <= j ==> shown[k].cause.Refresh?)
            && (a.positionEpoch == b.positionEpoch && (forall k :: i < k <= j ==> !DropsTrack(shown[k])) ==>
               SameTracks(a, b))
  {
    var shown := Running(stored, catalog, nowMs, load, fit, requests).shown;
    RunningIsOk(stored, catalog, nowMs, load, fit, requests);
    RevisionsCountChanges(shown, i, j);
    if shown[i].state.positionEpoch == shown[j].state.positionEpoch &&
        forall k :: i < k <= j ==> !DropsTrack(shown[k]) {
      EqualEpochsTell(shown, i, j);
    }
  }

  predicate PresenceUnsaved(l: Live) {
    exists k :: l.savedAt <= k < |l.shown| && l.shown[k].cause.Presence?
  }

  /** While the actor runs, the saved revision is the published one exactly if no presence change was published since
      the last save; everything else that is saved is up to date but for reported positions. */
  lemma SavedRevisionExactly(stored: Option<State>, catalog: Catalog, nowMs: u64, load: Reply, fit: Reply,
      requests: seq<Request>)
    requires Launched(stored, catalog, nowMs, load, fit).0.Some? && InTime(nowMs, requests)
    ensures var l := Running(stored, catalog, nowMs, load, fit, requests);
            l.running ==>
              && l.shown != [] && l.saved.room.publicationRevision <= LastRevision(l) && Keeps(l.saved, l.state)
              && (l.saved.room.publicationRevision == LastRevision(l) <==> !PresenceUnsaved(l))
  {
    RunningIsOk(stored, catalog, nowMs, load, fit, requests);
  }

  lemma LaunchKeepsRevision(saved: State, catalog: Catalog, nowMs: u64, load: Reply, fit: Reply)
    requires Launched(Some(saved), catalog, nowMs, load, fit).0.Some?
    ensures var l := Launched(Some(saved), catalog, nowMs, load, fit).0.value;
            l.shown != [] && FirstRevision(l) == saved.room.publicationRevision
  {
    LoadingKeeps(Some(saved), load, nowMs);
    FittingKeeps(Load(Some(saved), load).state.value, catalog, nowMs, fit);
  }

  /** However a run ends, the next start begins with a lower revision than was published last exactly if a presence
      change was published since the last save. */
  lemma RestartFallsExactly(stored: Option<State>, catalog: Catalog, nowMs: u64, load: Reply, fit: Reply,
      requests: seq<Request>, catalog': Catalog, nowMs': u64, load': Reply, fit': Reply)
    requires Launched(stored, catalog, nowMs, load, fit).0.Some? && InTime(nowMs, requests)
    requires Launched(Some(Running(stored, catalog, nowMs, load, fit, requests).saved), catalog', nowMs', load',
             fit').0.Some?
    ensures var l := Running(stored, catalog, nowMs, load, fit, requests);
            var next := Launched(Some(l.saved), catalog', nowMs', load', fit').0.value;
            && l.shown != [] && next.shown != []
            && (FirstRevision(next) < LastRevision(l) <==> PresenceUnsaved(l))
  {
    RunningIsOk(stored, catalog, nowMs, load, fit, requests);
    LaunchKeepsRevision(Running(stored, catalog, nowMs, load, fit, requests).saved, catalog', nowMs', load', fit');
  }
}
