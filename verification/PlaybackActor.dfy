/** The actor that owns the live playback document, as the source runs it: its fields change with every request, and
    each method is one step of PlaybackLive. */
module PlaybackActor {
  import opened Common
  import opened Playback
  import opened PlaybackCatalog
  import opened PlaybackClients
  import opened PlaybackLive
  import opened PlaybackMachine
  import opened PlaybackPublications
  import opened PlaybackRuns
  import opened Recovery

  /** The clients connected, read off the connections in the order of their ids. */
  method ConnectedClients(connections: seq<Connection>) returns (clients: map<string, Client>)
    ensures clients == Clients(connections)
  {
    clients := map[];
    for i := 0 to |connections|
      invariant clients == Clients(connections[..i])
    {
      assert connections[..i + 1][..i] == connections[..i];
      if connections[i].registration.Some? {
        var r := connections[i].registration.value;
        clients := clients[r.clientId := ClientOf(r)];
      }
    }
    assert connections[..|connections|] == connections;
  }

  method Find(connections: seq<Connection>, id: u64) returns (at: Option<nat>)
    ensures at == IndexOf(connections, id)
  {
    var n := |connections|;
    assert connections[..n] == connections;
    while n > 0
      invariant n <= |connections|
      invariant IndexOf(connections, id) == IndexOf(connections[..n], id)
    {
      assert connections[..n][..n - 1] == connections[..n - 1];
      if connections[n - 1].id == id {
        return Some(n - 1);
      }
      n := n - 1;
    }
    return None;
  }

  method RefreshAll(connections: seq<Connection>, clientId: string, remembered: Option<string>, isDefault: bool)
    returns (refreshed: seq<Connection>)
    ensures refreshed == RefreshedAll(connections, clientId, remembered, isDefault)
  {
    refreshed := connections;
    for i := 0 to |connections|
      invariant |refreshed| == |connections|
      invariant forall j :: 0 <= j < i ==> refreshed[j] == Refreshed(connections[j], clientId, remembered, isDefault)
      invariant forall j :: i <= j < |connections| ==> refreshed[j] == connections[j]
    {
      if IsClient(connections[i], clientId) {
        var r := connections[i].registration.value.(rememberedName := remembered, isDefaultOutput := isDefault);
        refreshed := refreshed[i := connections[i].(registration := Some(r))];
      }
    }
  }

  /** Take an output away through the reducer. */
  method RemoveOutput(s: State, clientId: string, nowMs: u64) returns (t: State, changed: bool)
    ensures RoomStep(t.room, changed) == RemoveActiveOutputStep(s.room, clientId) && t == s.(room := t.room)
  {
    var reduced := Reduce(s, RemoveActiveOutput(clientId), Context(nowMs, 0.0, None));
    t, changed := reduced.value.nextState, reduced.value.changed;
  }

  /** Let a device join through the reducer. */
  method JoinDevice(s: State, clientId: string, activate: bool, nowMs: u64) returns (t: State, changed: bool)
    ensures RoomStep(t.room, changed) == RegisterDeviceStep(s.room, clientId, activate) && t == s.(room := t.room)
  {
    var reduced := Reduce(s, RegisterDevice(clientId, activate), Context(nowMs, 0.0, None));
    t, changed := reduced.value.nextState, reduced.value.changed;
  }

  /** A write of the durable document during startup. */
  method Write(s: State, before: Option<State>, reply: Reply) returns (ok: bool, after: Option<State>)
    ensures Loaded(if ok then Some(s) else None, after) == Written(s, before, reply)
  {
    ok := reply.Seen?;
    after := before;
    if !reply.Refused? {
      after := Some(Durable(s));
    }
  }

  method LoadDocument(stored: Option<State>, reply: Reply) returns (s: State, ok: bool, saved: Option<State>)
    ensures Loaded(if ok then Some(s) else None, saved) == Load(stored, reply)
  {
    s, ok, saved := NEW_DOCUMENT, true, stored;
    if stored.None? {
      ok, saved := Write(s, stored, reply);
      return;
    }
    var document := new Document(stored.value);
    document.Decode();
    s := document.Snapshot();
    if Durable(s) != stored.value {
      ok, saved := Write(s, stored, reply);
    }
  }

  method FitDocument(loaded: State, before: Option<State>, catalog: Catalog, nowMs: u64, reply: Reply)
    returns (s: State, ok: bool, saved: Option<State>)
    ensures Loaded(if ok then Some(s) else None, saved) == Fit(loaded, before, catalog, nowMs, reply)
  {
    s, ok, saved := loaded, true, before;
    var document := new Document(loaded);
    var pruned := document.PruneForCatalog(catalog, false, nowMs);
    if pruned.Err? {
      ok := false;
      return;
    }
    if pruned.value {
      s := document.Snapshot();
      ok, saved := Write(s, before, reply);
    }
  }

  class Actor {
    var state: State
    var catalog: Catalog
    var connections: seq<Connection>
    var nextConnection: u64
    var saved: State
    var dirty: bool
    var running: bool
    ghost var shown: seq<Publication>
    ghost var savedAt: nat

    ghost function View(): Live
      reads this
    {
      Live(state, catalog, connections, nextConnection, saved, dirty, running, shown, savedAt)
    }

    constructor (state: State, catalog: Catalog, saved: State, nowMs: u64)
      ensures View() == ShowStep(Live(state, catalog, [], 1, saved, false, true, [], 0), nowMs, Started)
    {
      this.state, this.catalog, this.saved := state, catalog, saved;
      connections, nextConnection, dirty, running := [], 1, false, true;
      shown, savedAt := [Publication(MaterializePositions(state, nowMs), map[], Started)], 0;
    }

    /** Load, prune, serve. A write that is not seen to succeed ends the start. */
    static method Start(stored: Option<State>, catalog: Catalog, nowMs: u64, load: Reply, fit: Reply)
      returns (actor: Actor?, after: Option<State>)
      ensures actor == null || fresh(actor)
      ensures (if actor == null then None else Some(actor.View()), after) == Launched(stored, catalog, nowMs, load, fit)
    {
      actor := null;
      var s, ok, before := LoadDocument(stored, load);
      after := before;
      if ok {
        s, ok, after := FitDocument(s, before, catalog, nowMs, fit);
        if ok && after.Some? {
          actor := new Actor(s, catalog, after.value, nowMs);
        }
      }
    }

    // ----- saving and showing -----

    method Save(candidate: State, nowMs: u64, reply: Reply) returns (ok: bool)
      requires running
      modifies this`saved, this`running, this`savedAt
      ensures View() == SaveStep(old(View()), candidate, nowMs, reply) && ok == running
    {
      ok := reply.Seen?;
      if !reply.Refused? {
        saved := Durable(MaterializePositions(candidate, nowMs));
        savedAt := |shown|;
      }
      running := ok;
    }

    method Publish(nowMs: u64, ghost cause: Cause)
      modifies this`shown
      ensures View() == ShowStep(old(View()), nowMs, cause)
    {
      var clients := ConnectedClients(connections);
      shown := shown + [Publication(MaterializePositions(state, nowMs), clients, cause)];
    }

    method SaveThenShow(next: State, nextCatalog: Catalog, nextConnections: seq<Connection>, nowMs: u64, reply: Reply,
        ghost cause: Cause)
      returns (r: Answer)
      requires running
      modifies this
      ensures (View(), r) == SaveAndShow(old(View()), next, nextCatalog, nextConnections, nowMs, cause, reply)
    {
      var ok := Save(next, nowMs, reply);
      if !ok {
        return Err(NotSaved);
      }
      state, catalog, connections, dirty := next, nextCatalog, nextConnections, false;
      Publish(nowMs, cause);
      return Ok(true);
    }

    method Commit(candidate: State, nextCatalog: Catalog, nowMs: u64, reply: Reply, ghost cause: Cause)
      returns (r: Answer)
      requires running
      modifies this
      ensures (View(), r) == CommitStep(old(View()), candidate, nextCatalog, nowMs, cause, reply)
    {
      var next := Bumped(candidate, state.room.publicationRevision);
      if next.None? {
        running := false;
        return Err(RevisionOverflow);
      }
      r := SaveThenShow(next.value, nextCatalog, connections, nowMs, reply, cause);
    }

    // ----- commands -----

    method AdoptActivePolicy(reduction: Reduction) returns (r: Reduction)
      ensures Policed(Ok(reduction), catalog) == Ok(r)
    {
      r := reduction;
      if catalog.modes.Some? {
        var next := new Document(reduction.nextState);
        var adopted := next.ApplyOutputPolicy(AllowsMultiple(next.RoomView(), catalog.modes.value));
        r := reduction.(nextState := next.Snapshot(), changed := reduction.changed || adopted);
      }
    }

    /** Reduce the command, then apply the output policy of the mode that is active afterwards. */
    method ReduceWithPolicy(command: Command, ctx: Context) returns (r: Result<Reduction, PlaybackError>)
      ensures r == Policed(ReduceResult(state, command, ctx), catalog)
    {
      r := Reduce(state, command, ctx);
      if r.Ok? {
        var policed := AdoptActivePolicy(r.value);
        r := Ok(policed);
      }
    }

    method Settle(reduction: Reduction, nowMs: u64, reply: Reply) returns (r: Answer)
      requires running
      modifies this
      ensures (View(), r) == SettleStep(old(View()), reduction, nowMs, reply)
    {
      r := Ok(reduction.changed);
      match reduction.persistence {
        case Nothing =>
        case Throttled =>
          state, dirty := reduction.nextState, true;
        case Immediate =>
          if reduction.changed {
            r := Commit(reduction.nextState, catalog, nowMs, reply, Changed);
          }
      }
    }

    /** Carry out one command. */
    method Execute(command: Command, ctx: Context, referencesOk: bool, reply: Reply) returns (r: Answer)
      requires running
      modifies this
      ensures (View(), r) == ExecuteStep(old(View()), command, ctx, referencesOk, reply)
      ensures SavesBeforeShowing(old(View()), View(), ctx.nowMs)
    {
      ExecuteSaves(View(), command, ctx, referencesOk, reply);
      if !referencesOk {
        return Err(InvalidReference);
      }
      var reduced := ReduceWithPolicy(command, ctx);
      if reduced.Err? {
        return Err(CommandRefused(reduced.error));
      }
      r := Settle(reduced.value, ctx.nowMs, reply);
    }

    /** Save reported positions, if any. */
    method FlushPosition(nowMs: u64, reply: Reply) returns (r: Answer)
      requires running
      modifies this
      ensures (View(), r) == FlushStep(old(View()), nowMs, reply)
    {
      if !dirty {
        return Ok(false);
      }
      var ok := Save(state, nowMs, reply);
      if !ok {
        return Err(NotSaved);
      }
      dirty := false;
      return Ok(true);
    }

    // ----- catalogs -----

    method Prune(next: Catalog, presetsChanged: bool, nowMs: u64) returns (r: Result<Step, PlaybackError>)
      ensures r == PlaybackCatalog.Pruned(state, next, presetsChanged, nowMs)
    {
      var document := new Document(state);
      var pruned := document.PruneForCatalog(next, presetsChanged, nowMs);
      r := if pruned.Err? then Err(pruned.error) else Ok(Step(document.Snapshot(), pruned.value));
    }

    method Adopt(next: Catalog, presetsChanged: bool, nowMs: u64, reply: Reply) returns (r: Answer)
      requires running
      modifies this
      ensures (View(), r) == AdoptStep(old(View()), next, presetsChanged, nowMs, reply)
    {
      var pruned := Prune(next, presetsChanged, nowMs);
      if pruned.Err? {
        return Err(CommandRefused(pruned.error));
      }
      if !pruned.value.changed {
        catalog := next;
        return Ok(false);
      }
      ghost var kept := LiveTracksKept(state, next);
      r := Commit(pruned.value.state, next, nowMs, reply, Cause.Pruned(kept));
    }

    /** Adopt a new catalog and prune the document for it. */
    method ReplaceCatalog(next: Catalog, presetsChanged: bool, nowMs: u64, reply: Reply) returns (r: Answer)
      requires running
      modifies this
      ensures (View(), r) == ReplaceCatalogStep(old(View()), next, presetsChanged, nowMs, reply)
      ensures SavesBeforeShowing(old(View()), View(), nowMs)
    {
      ReplaceCatalogSaves(View(), next, presetsChanged, nowMs, reply);
      if next.library < catalog.library || next.modeGeneration < catalog.modeGeneration {
        return Err(Regressed);
      }
      if next == catalog && !presetsChanged {
        return Ok(false);
      }
      r := Adopt(next, presetsChanged, nowMs, reply);
    }

    // ----- connections -----

    method OpenConnection() returns (r: Result<u64, ActorError>)
      modifies this`connections, this`nextConnection
      ensures (View(), r) == OpenStep(old(View()))
    {
      var id := nextConnection;
      if id == U64_MAX {
        return Err(ConnectionIdOverflow);
      }
      nextConnection := id + 1;
      connections := connections + [Connection(id, None)];
      return Ok(id);
    }

    /** Adopt changed connections, and the document that changed with them. */
    method CommitExternal(candidate: State, next: seq<Connection>, durable: bool, presence: bool, nowMs: u64,
        reply: Reply)
      returns (r: Answer)
      requires running
      modifies this
      ensures (View(), r) == ExternalStep(old(View()), candidate, next, durable, presence, nowMs, reply)
    {
      if !durable && !presence {
        connections := next;
        return Ok(false);
      }
      var bumped := Bumped(candidate, state.room.publicationRevision);
      if bumped.None? {
        running := false;
        return Err(RevisionOverflow);
      }
      if durable || dirty {
        r := SaveThenShow(bumped.value, catalog, next, nowMs, reply, Changed);
        return;
      }
      state, connections := bumped.value, next;
      Publish(nowMs, Presence);
      return Ok(true);
    }

    method Leave(left: Option<string>, nowMs: u64) returns (t: State, changed: bool)
      ensures RoomStep(t.room, changed) == LeaveRoom(state.room, left) && t == state.(room := t.room)
    {
      t, changed := state, false;
      if left.Some? {
        t, changed := RemoveOutput(state, left.value, nowMs);
      }
    }

    method RegisterFound(at: nat, r: Registration, nowMs: u64, reply: Reply) returns (answer: Answer)
      requires running && at < |connections|
      modifies this
      ensures (View(), answer) == RegisterAt(old(View()), at, r, nowMs, reply)
    {
      var next := connections[at := connections[at].(registration := Some(r))];
      var before := ConnectedClients(connections);
      var after := ConnectedClients(next);
      var candidate, left := Leave(Displaced(connections[at], next, r), nowMs);
      var joined;
      candidate, joined := JoinDevice(candidate, r.clientId, r.isDefaultOutput, nowMs);
      answer := CommitExternal(candidate, next, left || joined, before != after, nowMs, reply);
    }

    /** A connection announces the client it stands for. */
    method RegisterConnection(id: u64, r: Registration, nowMs: u64, reply: Reply) returns (answer: Answer)
      requires running
      modifies this
      ensures (View(), answer) == RegisterStep(old(View()), id, r, nowMs, reply)
      ensures RoomOk(old(state).room) ==> SavesBeforeShowing(old(View()), View(), nowMs)
    {
      if RoomOk(state.room) {
        RegisterSaves(View(), id, r, nowMs, reply);
      }
      if !ValidRegistration(r) {
        return Err(InvalidRegistration);
      }
      var at := Find(connections, id);
      if at.None? {
        return Err(UnknownConnection);
      }
      if connections[at.value].registration == Some(r) {
        return Ok(false);
      }
      answer := RegisterFound(at.value, r, nowMs, reply);
    }

    /** A connection closes; the last one of a client takes the client's output with it. */
    method Disconnect(id: u64, nowMs: u64, reply: Reply) returns (r: Answer)
      requires running
      modifies this
      ensures (View(), r) == DisconnectStep(old(View()), id, nowMs, reply)
      ensures RoomOk(old(state).room) ==> SavesBeforeShowing(old(View()), View(), nowMs)
      ensures r.Ok? ==>
                match old(connections)[IndexOf(old(connections), id).value].registration
                case None => state.room.activeOutputs == old(state).room.activeOutputs
                case Some(closed) =>
                  closed.clientId in state.room.activeOutputs ==> HasClient(connections, closed.clientId)
    {
      if RoomOk(state.room) {
        DisconnectSaves(View(), id, nowMs, reply);
      }
      if DisconnectStep(View(), id, nowMs, reply).1.Ok? {
        ClosingTakesOutput(View(), id, nowMs, reply);
      }
      var found := Find(connections, id);
      if found.None? {
        return Err(UnknownConnection);
      }
      var at := found.value;
      var registration := connections[at].registration;
      var next := connections[..at] + connections[at + 1..];
      var before := ConnectedClients(connections);
      var after := ConnectedClients(next);
      var candidate, changed := Leave(Departed(registration, next), nowMs);
      r := CommitExternal(candidate, next, changed, before != after, nowMs, reply);
    }

    /** Show a client under the name the operator remembers it by, without a new revision. */
    method RefreshClientMetadata(clientId: string, remembered: Option<string>, isDefault: bool, nowMs: u64)
      returns (r: Answer)
      modifies this`connections, this`shown
      ensures (View(), r) == RefreshStep(old(View()), clientId, remembered, isDefault, nowMs)
    {
      if !ValidClientId(clientId) || !ValidRememberedName(remembered) {
        return Err(InvalidRegistration);
      }
      var before := ConnectedClients(connections);
      connections := RefreshAll(connections, clientId, remembered, isDefault);
      var after := ConnectedClients(connections);
      if before != after {
        Publish(nowMs, Refresh);
      }
      return Ok(before != after);
    }
  }
}
