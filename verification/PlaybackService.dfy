/** What each request to the owner of the live document owes its caller: when it is carried out, and why not
    otherwise. */
module PlaybackService {
  import opened Common
  import opened Playback
  import opened PlaybackCatalog
  import opened PlaybackClients
  import opened PlaybackLive
  import opened PlaybackPublications
  import opened PlaybackRuns
  import opened Recovery

  /** The document with the outputs its mode allows: if only one, the one that has played longest. */
  predicate IsUnderPolicy(t: State, s: State, catalog: Catalog) {
    match catalog.modes
    case None => t == s
    case Some(modes) =>
      var several := AllowsMultiple(s.room, modes);
      && t == s.(room := s.room.(multipleOutputs := several, activeOutputs := t.room.activeOutputs))
      && t.room.activeOutputs == (if several || |s.room.activeOutputs| <= 1 then s.room.activeOutputs
                                  else [s.room.activeOutputs[0]])
  }

  /** The next revision of a document was saved, adopted and shown, and nothing waits to be saved. */
  predicate Adopted(l: Live, t: Live, next: State, catalog: Catalog, nowMs: u64) {
    && Bumped(next, l.state.room.publicationRevision) == Some(t.state)
    && t.catalog == catalog && t.running && !t.dirty && |t.shown| == |l.shown| + 1
    && t.saved == Durable(MaterializePositions(t.state, nowMs))
  }

  /** What a document that is to be saved and shown comes to: adopted if the write is seen; otherwise the actor
      stops. */
  predicate CommitsOrStops(l: Live, t: Live, r: Answer, next: State, catalog: Catalog, nowMs: u64, reply: Reply) {
    if l.state.room.publicationRevision == U64_MAX then r == Err(RevisionOverflow) && t == l.(running := false)
    else if reply.Seen? then r == Ok(true) && Adopted(l, t, next, catalog, nowMs) && t.connections == l.connections
    else
      && r == Err(NotSaved) && !t.running && t == l.(running := false, saved := t.saved, savedAt := t.savedAt)
      && (reply.Refused? ==> t.saved == l.saved)
  }

  lemma CommitAnswers(l: Live, next: State, catalog: Catalog, nowMs: u64, cause: Cause, reply: Reply)
    requires l.running
    ensures var (t, r) := CommitStep(l, next, catalog, nowMs, cause, reply);
            CommitsOrStops(l, t, r, next, catalog, nowMs, reply)
  {
  }

  lemma PolicyIsAdopted(s: State, catalog: Catalog)
    ensures IsUnderPolicy(WithPolicy(s, catalog), s, catalog)
  {
  }

  lemma SettlingAnswers(l: Live, reduction: Reduction, nowMs: u64, reply: Reply)
    requires l.running
    ensures var (t, r) := SettleStep(l, reduction, nowMs, reply);
            match reduction.persistence
            case Nothing => t == l && r == Ok(reduction.changed)
            case Throttled => t == l.(state := reduction.nextState, dirty := true) && r == Ok(reduction.changed)
            case Immediate =>
              if reduction.changed then CommitsOrStops(l, t, r, reduction.nextState, l.catalog, nowMs, reply)
              else t == l && r == Ok(false)
  {
    CommitAnswers(l, reduction.nextState, l.catalog, nowMs, Changed, reply);
  }

  /** Applying the policy after the command neither makes nor hides a change. */
  lemma PolicyFollows(s: State, command: Command, ctx: Context, catalog: Catalog)
    requires DocumentOk(s, catalog, ctx.nowMs) && ReduceResult(s, command, ctx).Ok?
    ensures var plain, r := ReduceResult(s, command, ctx).value, Policed(ReduceResult(s, command, ctx), catalog).value;
            && (!plain.changed ==> r.persistence.Nothing? && !r.changed)
            && (plain.changed ==>
               r.changed && r.persistence == if command.ReportPosition? then Throttled else Immediate)
            && (plain.changed && command.ReportPosition? ==> r.nextState == plain.nextState)
            && IsUnderPolicy(r.nextState, plain.nextState, catalog)
  {
    var plain := ReduceResult(s, command, ctx).value;
    ReductionIsUrgent(s, command, ctx, catalog);
    PolicyKeeps(s, catalog, ctx.nowMs);
    PolicyIsAdopted(plain.nextState, catalog);
    if plain.changed && command.ReportPosition? {
      ReductionMoves(s, command, ctx);
      PolicyKeeps(plain.nextState, catalog, ctx.nowMs);
    }
  }

  /** A command is refused for an unknown reference or for what the reducer refuses it for, and then changes nothing. A
      command that changes nothing is answered so. A position report is adopted and waits to be saved. Any other command
      is adopted, under the policy of the mode then active, saved and shown, or stops the actor. */
  lemma CommandIsServed(l: Live, command: Command, ctx: Context, referencesOk: bool, reply: Reply)
    returns (next: State)
    requires LiveOk(l, ctx.nowMs) && l.running
    ensures var (t, r) := ExecuteStep(l, command, ctx, referencesOk, reply);
            var reduced := ReduceResult(l.state, command, ctx);
            if !referencesOk then t == l && r == Err(InvalidReference)
            else if reduced.Err? then t == l && r == Err(CommandRefused(reduced.error))
            else if !reduced.value.changed then t == l && r == Ok(false)
            else if command.ReportPosition? then
              t == l.(state := reduced.value.nextState, dirty := true) && r == Ok(true)
            else
              && IsUnderPolicy(next, reduced.value.nextState, l.catalog)
              && CommitsOrStops(l, t, r, next, l.catalog, ctx.nowMs, reply)
  {
    var reduced := ReduceResult(l.state, command, ctx);
    next := l.state;
    if reduced.Ok? {
      var policed := Policed(reduced, l.catalog).value;
      next := policed.nextState;
      PolicyFollows(l.state, command, ctx, l.catalog);
      SettlingAnswers(l, policed, ctx.nowMs, reply);
    }
  }

  lemma PrunedLanesAreOther(s: State, catalog: Catalog, nowMs: u64)
    ensures var lanes := PrunedLanes(s, catalog, nowMs); lanes.changed <==> lanes.state != s
    ensures PrunedLanes(s, catalog, nowMs).state.room == s.room
  {
    if catalog.tracks.Some? {
      var ambient := PruneAmbient(s, catalog.tracks.value);
      assert ambient.changed <==> ambient.state.ambient != s.ambient;
    }
  }

  lemma PrunedRoomIsOther(r: Room, catalog: Catalog)
    ensures var room := PrunedRoom(r, catalog); room.changed <==> room.room != r
    ensures PrunedRoom(r, catalog).room.presetRevision == r.presetRevision
  {
  }

  /** Pruning reports a change exactly if there is one. */
  lemma PrunedIsOther(s: State, catalog: Catalog, presetsChanged: bool, nowMs: u64)
    requires PlaybackCatalog.Pruned(s, catalog, presetsChanged, nowMs).Ok?
    ensures var p := PlaybackCatalog.Pruned(s, catalog, presetsChanged, nowMs).value; p.changed <==> p.state != s
  {
    PrunedLanesAreOther(s, catalog, nowMs);
    PrunedRoomIsOther(s.room, catalog);
  }

  /** A catalog older than the current one is refused; the same one changes nothing; a newer one is adopted, and if the
      document has to be pruned for it, that is saved and shown with it, or stops the actor. */
  lemma CatalogIsServed(l: Live, next: Catalog, presetsChanged: bool, nowMs: u64, reply: Reply)
    requires LiveOk(l, nowMs) && l.running
    ensures var (t, r) := ReplaceCatalogStep(l, next, presetsChanged, nowMs, reply);
            var pruned := PlaybackCatalog.Pruned(l.state, next, presetsChanged, nowMs);
            if next.library < l.catalog.library || next.modeGeneration < l.catalog.modeGeneration
            then t == l && r == Err(Regressed)
            else if next == l.catalog && !presetsChanged then t == l && r == Ok(false)
            else if pruned.Err? then t == l && r == Err(CommandRefused(pruned.error))
            else if pruned.value.state == l.state then t == l.(catalog := next) && r == Ok(false)
            else CommitsOrStops(l, t, r, pruned.value.state, next, nowMs, reply)
  {
    var pruned := PlaybackCatalog.Pruned(l.state, next, presetsChanged, nowMs);
    if pruned.Ok? {
      CommitAnswers(l, pruned.value.state, next, nowMs, Cause.Pruned(LiveTracksKept(l.state, next)), reply);
      PrunedIsOther(l.state, next, presetsChanged, nowMs);
    }
  }

  /** Positions reported since the last save are saved when asked for, or the actor stops. */
  lemma FlushIsServed(l: Live, nowMs: u64, reply: Reply)
    requires l.running
    ensures var (t, r) := FlushStep(l, nowMs, reply);
            if !l.dirty then t == l && r == Ok(false)
            else if reply.Seen? then
              && r == Ok(true) && t == l.(dirty := false, saved := t.saved, savedAt := t.savedAt)
              && t.saved == Durable(MaterializePositions(l.state, nowMs))
            else r == Err(NotSaved) && t == l.(running := false, saved := t.saved, savedAt := t.savedAt)
  {
  }

  // ----- connections -----

  /** A change of connections that must be saved, if `durable`, and is to be shown if anything differs. */
  predicate ChangeServed(l: Live, r: Answer, durable: bool, presence: bool, reply: Reply) {
    if !durable && !presence then r == Ok(false)
    else if l.state.room.publicationRevision == U64_MAX then r == Err(RevisionOverflow)
    else if (durable || l.dirty) && !reply.Seen? then r == Err(NotSaved)
    else r == Ok(true)
  }

  lemma ChangeAnswers(l: Live, step: RoomStep, connections: seq<Connection>, nowMs: u64, reply: Reply)
    ensures ChangeServed(l, RoomChange(l, step, connections, nowMs, reply).1, step.changed,
                         Clients(l.connections) != Clients(connections), reply)
  {
  }

  /** An output is taken away exactly if its client has no other connection. */
  predicate TakesOutput(l: Live, at: nat)
    requires at < |l.connections|
  {
    var c := l.connections[at].registration;
    && c.Some? && c.value.clientId in l.state.room.activeOutputs
    && !HasClient(l.connections[..at] + l.connections[at + 1..], c.value.clientId)
  }

  lemma LeavingIsNoted(room: Room, left: Option<string>)
    ensures LeaveRoom(room, left).changed <==> left.Some? && left.value in room.activeOutputs
  {
    var step := LeaveRoom(room, left);
    LeavingStops(room, left);
    if step.changed {
      KeptIsShorter(room.activeOutputs, left.value);
    }
  }

  lemma {:induction false} KeptIsShorter(devices: seq<string>, deviceId: string)
    ensures |WithoutDevice(devices, deviceId)| < |devices| ==> deviceId in devices
    decreases |devices|
  {
    if devices != [] {
      KeptIsShorter(devices[1..], deviceId);
      assert devices == [devices[0]] + devices[1..];
    }
  }

  /** A connection that is known can be closed. What it takes with it is saved first if that is an output. */
  lemma CloseIsServed(l: Live, id: u64, nowMs: u64, reply: Reply)
    ensures var (t, r) := DisconnectStep(l, id, nowMs, reply);
            match IndexOf(l.connections, id)
            case None => t == l && r == Err(UnknownConnection)
            case Some(at) =>
              ChangeServed(l, r, TakesOutput(l, at),
                           Clients(l.connections) != Clients(l.connections[..at] + l.connections[at + 1..]), reply)
  {
    var found := IndexOf(l.connections, id);
    if found.Some? {
      var at := found.value;
      var connections := l.connections[..at] + l.connections[at + 1..];
      var left := Departed(l.connections[at].registration, connections);
      LeavingIsNoted(l.state.room, left);
      ChangeAnswers(l, LeaveRoom(l.state.room, left), connections, nowMs, reply);
    }
  }

  /** A registration changes who plays, or which devices are known. */
  predicate ChangesRoom(room: Room, left: Option<string>, r: Registration) {
    || (left.Some? && left.value in room.activeOutputs) || r.clientId !in room.deviceVolumes
    || (r.isDefaultOutput && r.clientId !in room.activeOutputs
        && (room.multipleOutputs || forall i :: 0 <= i < |room.activeOutputs| ==> Some(room.activeOutputs[i]) == left))
  }

  lemma ReplacingIsNotedExactly(room: Room, connection: Connection, connections: seq<Connection>, r: Registration)
    ensures ReplaceClientStep(room, connection, connections, r).changed <==>
            ChangesRoom(room, Displaced(connection, connections, r), r)
  {
    var left := Displaced(connection, connections, r);
    var leave := LeaveRoom(room, left);
    LeavingStops(room, left);
    LeavingIsNoted(room, left);
    assert left.Some? ==> left.value != r.clientId;
    assert r.clientId in leave.room.activeOutputs <==> r.clientId in room.activeOutputs;
    OutputsAllLeft(room.activeOutputs, leave.room.activeOutputs, left);
  }

  lemma OutputsAllLeft(before: seq<string>, after: seq<string>, left: Option<string>)
    requires forall d :: d in after <==> d in before && Some(d) != left
    ensures after == [] <==> forall i :: 0 <= i < |before| ==> Some(before[i]) == left
  {
    if after != [] {
      assert after[0] in before && Some(after[0]) != left;
      var i :| 0 <= i < |before| && before[i] == after[0];
    } else {
      forall i | 0 <= i < |before| ensures Some(before[i]) == left {
        assert before[i] in before;
      }
    }
  }

  /** A valid registration of a known connection is carried out; a repeated one changes nothing. */
  lemma RegistrationIsServed(l: Live, id: u64, r: Registration, nowMs: u64, reply: Reply)
    ensures var (t, answer) := RegisterStep(l, id, r, nowMs, reply);
            if !(1 <= |r.clientId| <= 64 && 1 <= |r.name| <= 128
                 && (r.rememberedName.Some? ==> 1 <= |r.rememberedName.value| <= 128))
            then t == l && answer == Err(InvalidRegistration)
            else
              match IndexOf(l.connections, id)
              case None => t == l && answer == Err(UnknownConnection)
              case Some(at) =>
                if l.connections[at].registration == Some(r) then t == l && answer == Ok(false)
                else
                  var connections := l.connections[at := l.connections[at].(registration := Some(r))];
                  ChangeServed(l, answer,
                               ChangesRoom(l.state.room, Displaced(l.connections[at], connections, r), r),
                               Clients(l.connections) != Clients(connections), reply)
  {
    var found := IndexOf(l.connections, id);
    if found.Some? {
      var at := found.value;
      var connections := l.connections[at := l.connections[at].(registration := Some(r))];
      ReplacingIsNotedExactly(l.state.room, l.connections[at], connections, r);
      ChangeAnswers(l, ReplaceClientStep(l.state.room, l.connections[at], connections, r), connections, nowMs, reply);
    }
  }

  /** A renaming reaches every connection of the client and no other, and is shown exactly if that changes what is
      shown. */
  lemma RenamingIsServed(l: Live, clientId: string, remembered: Option<string>, isDefault: bool, nowMs: u64)
    ensures var (t, r) := RefreshStep(l, clientId, remembered, isDefault, nowMs);
            if !(1 <= |clientId| <= 64) || (remembered.Some? && !(1 <= |remembered.value| <= 128))
            then t == l && r == Err(InvalidRegistration)
            else
              && |t.connections| == |l.connections|
              && (forall i :: 0 <= i < |l.connections| ==>
                    t.connections[i] ==
                    if IsClient(l.connections[i], clientId)
                    then Connection(l.connections[i].id,
                                    Some(Registration(clientId, l.connections[i].registration.value.name, remembered,
                                                      isDefault)))
                    else l.connections[i])
              && r == Ok(Clients(t.connections) != Clients(l.connections))
              && t == l.(connections := t.connections, shown := t.shown)
              && |t.shown| == |l.shown| + (if Clients(t.connections) != Clients(l.connections) then 1 else 0)
  {
  }
}
