/** The live playback document with its clients, its durable copy and its publications, and what each request to the
    actor that owns it does to them. */
module PlaybackLive {
  import opened Common
  import opened Playback
  import opened PlaybackCatalog
  import opened PlaybackRuns
  import opened Recovery

  // ----- clients -----

  const MAX_CLIENT_ID := 64
  const MAX_CLIENT_NAME := 128

  datatype Registration = Registration(clientId: string, name: string, rememberedName: Option<string>,
                                       isDefaultOutput: bool)

  /** Connections are kept in the order of their ids, which is the order they were opened in. */
  datatype Connection = Connection(id: u64, registration: Option<Registration>)

  /** What watchers are shown of a client. */
  datatype Client = Client(name: string, isDefaultOutput: bool)

  function ClientOf(r: Registration): Client {
    Client(if r.rememberedName.Some? then r.rememberedName.value else r.name, r.isDefaultOutput)
  }

  /** The clients connected; of several connections of one client the latest opened counts. */
  function Clients(connections: seq<Connection>): map<string, Client> {
    if connections == [] then map[]
    else
      var earlier, last := Clients(connections[..|connections| - 1]), connections[|connections| - 1];
      match last.registration
      case None => earlier
      case Some(r) => earlier[r.clientId := ClientOf(r)]
  }

  function IndexOf(connections: seq<Connection>, id: u64): (r: Option<nat>)
    ensures r.Some? ==> r.value < |connections| && connections[r.value].id == id
    ensures r.None? ==> forall i :: 0 <= i < |connections| ==> connections[i].id != id
  {
    if connections == [] then None
    else if connections[|connections| - 1].id == id then Some(|connections| - 1)
    else IndexOf(connections[..|connections| - 1], id)
  }

  predicate IsClient(c: Connection, clientId: string) {
    c.registration.Some? && c.registration.value.clientId == clientId
  }

  predicate HasClient(connections: seq<Connection>, clientId: string) {
    exists i :: 0 <= i < |connections| && IsClient(connections[i], clientId)
  }

  /** Another connection of the same client. */
  predicate HasSibling(connections: seq<Connection>, id: u64, clientId: string) {
    exists i :: 0 <= i < |connections| && connections[i].id != id && IsClient(connections[i], clientId)
  }

  function Refreshed(c: Connection, clientId: string, remembered: Option<string>, isDefault: bool): Connection {
    if IsClient(c, clientId)
    then c.(registration := Some(c.registration.value.(rememberedName := remembered, isDefaultOutput := isDefault)))
    else c
  }

  function RefreshedAll(connections: seq<Connection>, clientId: string, remembered: Option<string>, isDefault: bool)
    : (r: seq<Connection>)
    ensures |r| == |connections|
  {
    seq(|connections|, i requires 0 <= i < |connections| => Refreshed(connections[i], clientId, remembered, isDefault))
  }

  predicate ValidClientId(id: string) {
    1 <= |id| <= MAX_CLIENT_ID
  }

  predicate ValidRememberedName(name: Option<string>) {
    name.Some? ==> 1 <= |name.value| <= MAX_CLIENT_NAME
  }

  predicate ValidRegistration(r: Registration) {
    ValidClientId(r.clientId) && 1 <= |r.name| <= MAX_CLIENT_NAME && ValidRememberedName(r.rememberedName)
  }

  // ----- the live document -----

  /** Why something was published. A catalog may have dropped the track of a lane; a presence change that changes
      nothing durable is published without being saved, unless reported positions wait to be saved; a refresh shows
      the clients anew under the revision shown before. */
  datatype Cause = Started | Changed | Pruned(kept: bool) | Presence | Refresh

  datatype Publication = Publication(state: State, clients: map<string, Client>, cause: Cause)

  /** `saved` is the durable document, `shown` everything published so far, and `savedAt` how much of it had been
      published at the last save. */
  datatype Live = Live(
    state: State,
    catalog: Catalog,
    connections: seq<Connection>,
    nextConnection: u64,
    saved: State,
    dirty: bool,
    running: bool,
    shown: seq<Publication>,
    savedAt: nat)

  datatype ActorError =
    | InvalidReference
    | InvalidRegistration
    | UnknownConnection
    | ConnectionIdOverflow
    | Regressed
    | CommandRefused(error: PlaybackError)
    | RevisionOverflow
    | NotSaved

  type Answer = Result<bool, ActorError>

  function Revised(s: State, revision: u64): State {
    s.(room := s.room.(publicationRevision := revision))
  }

  /** The document with the revision after `current`, if there is one. */
  function Bumped(s: State, current: u64): Option<State> {
    if current == U64_MAX then None else Some(Revised(s, current + 1))
  }

  /** What the store keeps of a document; interrupts, loops and clocks are never written. */
  function Durable(s: State): State {
    s.(room := s.room.(multipleOutputs := false, loopingSfx := []), interrupt := None,
        ambient := s.ambient.(anchorMs := None))
  }

  /** Replace the durable document. Unless that is seen to succeed the actor stops. */
  function SaveStep(l: Live, candidate: State, nowMs: u64, reply: Reply): Live {
    if reply.Refused? then l.(running := false)
    else l.(saved := Durable(MaterializePositions(candidate, nowMs)), savedAt := |l.shown|, running := reply.Seen?)
  }

  function ShowStep(l: Live, nowMs: u64, cause: Cause): Live {
    l.(shown := l.shown + [Publication(MaterializePositions(l.state, nowMs), Clients(l.connections), cause)])
  }

  /** Save a document, adopt it with its catalog and connections, publish it. */
  function SaveAndShow(l: Live, next: State, catalog: Catalog, connections: seq<Connection>, nowMs: u64, cause: Cause,
      reply: Reply): (Live, Answer)
  {
    var s := SaveStep(l, next, nowMs, reply);
    if !s.running then (s, Err(NotSaved))
    else (ShowStep(s.(state := next, catalog := catalog, connections := connections, dirty := false), nowMs, cause),
        Ok(true))
  }

  /** Give a document the next revision, save it, adopt it with its catalog, publish it. */
  function CommitStep(l: Live, candidate: State, catalog: Catalog, nowMs: u64, cause: Cause, reply: Reply)
    : (Live, Answer) {
    match Bumped(candidate, l.state.room.publicationRevision)
    case None => (l.(running := false), Err(RevisionOverflow))
    case Some(next) => SaveAndShow(l, next, catalog, l.connections, nowMs, cause, reply)
  }

  // ----- commands -----

  /** The document under the active mode's output policy. */
  function WithPolicy(s: State, catalog: Catalog): State {
    if catalog.modes.Some? then After(s, AdoptPolicy(AllowsMultiple(s.room, catalog.modes.value))) else s
  }

  /** A reduction with the output policy of the mode that is active afterwards, in the same change. */
  function Policed(r: Result<Reduction, PlaybackError>, catalog: Catalog): Result<Reduction, PlaybackError> {
    var reduction :- r;
    var next := WithPolicy(reduction.nextState, catalog);
    Ok(reduction.(nextState := next, changed := reduction.changed || next != reduction.nextState))
  }

  /** Do what a reduction asks for: nothing, a save later, or a save and a publication now. */
  function SettleStep(l: Live, reduction: Reduction, nowMs: u64, reply: Reply): (Live, Answer) {
    match reduction.persistence
    case Nothing => (l, Ok(reduction.changed))
    case Throttled => (l.(state := reduction.nextState, dirty := true), Ok(reduction.changed))
    case Immediate =>
      if reduction.changed then CommitStep(l, reduction.nextState, l.catalog, nowMs, Changed, reply) else (l, Ok(false))
  }

  /** `referencesOk` says whether the command's references are in the current catalog. */
  function ExecuteStep(l: Live, command: Command, ctx: Context, referencesOk: bool, reply: Reply): (Live, Answer) {
    if !referencesOk then (l, Err(InvalidReference))
    else
      match Policed(ReduceResult(l.state, command, ctx), l.catalog)
      case Err(e) => (l, Err(CommandRefused(e)))
      case Ok(reduction) => SettleStep(l, reduction, ctx.nowMs, reply)
  }

  // ----- catalogs -----

  predicate LiveTracksKept(s: State, catalog: Catalog) {
    AmbientTrackKept(s, catalog) && InterruptTrackKept(s, catalog)
  }

  function AdoptStep(l: Live, next: Catalog, presetsChanged: bool, nowMs: u64, reply: Reply): (Live, Answer) {
    match PlaybackCatalog.Pruned(l.state, next, presetsChanged, nowMs)
    case Err(e) => (l, Err(CommandRefused(e)))
    case Ok(pruned) =>
      if !pruned.changed then (l.(catalog := next), Ok(false))
      else CommitStep(l, pruned.state, next, nowMs, Cause.Pruned(LiveTracksKept(l.state, next)), reply)
  }

  function ReplaceCatalogStep(l: Live, next: Catalog, presetsChanged: bool, nowMs: u64, reply: Reply): (Live, Answer) {
    if next.library < l.catalog.library || next.modeGeneration < l.catalog.modeGeneration then (l, Err(Regressed))
    else if next == l.catalog && !presetsChanged then (l, Ok(false))
    else AdoptStep(l, next, presetsChanged, nowMs, reply)
  }

  function FlushStep(l: Live, nowMs: u64, reply: Reply): (Live, Answer) {
    if !l.dirty then (l, Ok(false))
    else
      var s := SaveStep(l, l.state, nowMs, reply);
      if s.running then (s.(dirty := false), Ok(true)) else (s, Err(NotSaved))
  }

  // ----- connections -----

  /** A change of connections, and of the document with it. It is published if anything changed, and saved only if the
      document changed or reported positions wait to be saved. */
  function ExternalStep(l: Live, candidate: State, connections: seq<Connection>, durable: bool, presence: bool,
      nowMs: u64,
      reply: Reply): (Live, Answer)
  {
    if !durable && !presence then (l.(connections := connections), Ok(false))
    else
      match Bumped(candidate, l.state.room.publicationRevision)
      case None => (l.(running := false), Err(RevisionOverflow))
      case Some(next) =>
        if durable || l.dirty then SaveAndShow(l, next, l.catalog, connections, nowMs, Changed, reply)
        else (ShowStep(l.(state := next, connections := connections), nowMs, Presence), Ok(true))
  }

  function OpenStep(l: Live): (Live, Result<u64, ActorError>) {
    if l.nextConnection == U64_MAX then (l, Err(ConnectionIdOverflow))
    else (l.(nextConnection := l.nextConnection + 1,
        connections := l.connections + [Connection(l.nextConnection, None)]),
          Ok(l.nextConnection))
  }

  /** A client that leaves, if there is one and no other connection of it, gives up its output. */
  function LeaveRoom(r: Room, left: Option<string>): RoomStep {
    if left.Some? then RemoveActiveOutputStep(r, left.value) else RoomStep(r, false)
  }

  /** The client a connection stood for, if it now stands for another and no other connection stands for the first. */
  function Displaced(connection: Connection, connections: seq<Connection>, r: Registration): Option<string> {
    var previous := connection.registration;
    if previous.Some? && previous.value.clientId != r.clientId
       && !HasSibling(connections, connection.id, previous.value.clientId)
    then Some(previous.value.clientId) else None
  }

  /** Connections that change together with the outputs of the room. */
  function RoomChange(l: Live, step: RoomStep, connections: seq<Connection>, nowMs: u64, reply: Reply): (Live, Answer) {
    ExternalStep(l, l.state.(room := step.room), connections, step.changed,
        Clients(l.connections) != Clients(connections),
                 nowMs, reply)
  }

  /** The client a connection stood for leaves if need be, and the one it stands for now joins. */
  function ReplaceClientStep(room: Room, connection: Connection, connections: seq<Connection>, r: Registration)
    : RoomStep {
    var leave := LeaveRoom(room, Displaced(connection, connections, r));
    var join := RegisterDeviceStep(leave.room, r.clientId, r.isDefaultOutput);
    RoomStep(join.room, leave.changed || join.changed)
  }

  function RegisterAt(l: Live, at: nat, r: Registration, nowMs: u64, reply: Reply): (Live, Answer)
    requires at < |l.connections|
  {
    var connection := l.connections[at];
    var connections := l.connections[at := connection.(registration := Some(r))];
    RoomChange(l, ReplaceClientStep(l.state.room, connection, connections, r), connections, nowMs, reply)
  }

  function RegisterStep(l: Live, id: u64, r: Registration, nowMs: u64, reply: Reply): (Live, Answer) {
    if !ValidRegistration(r) then (l, Err(InvalidRegistration))
    else
      match IndexOf(l.connections, id)
      case None => (l, Err(UnknownConnection))
      case Some(at) =>
          if l.connections[at].registration == Some(r) then (l, Ok(false)) else RegisterAt(l, at, r, nowMs, reply)
  }

  /** The client a closed connection stood for, if no other connection stands for it. */
  function Departed(registration: Option<Registration>, connections: seq<Connection>): Option<string> {
    if registration.Some? && !HasClient(connections, registration.value.clientId) then Some(registration.value.clientId)
    else None
  }

  function DisconnectStep(l: Live, id: u64, nowMs: u64, reply: Reply): (Live, Answer) {
    match IndexOf(l.connections, id)
    case None => (l, Err(UnknownConnection))
    case Some(at) =>
      var connections := l.connections[..at] + l.connections[at + 1..];
      var leave := LeaveRoom(l.state.room, Departed(l.connections[at].registration, connections));
      RoomChange(l, leave, connections, nowMs, reply)
  }

  /** Rename a client as the operator remembers it. What changes is shown at once under the revision shown before. */
  function RefreshStep(l: Live, clientId: string, remembered: Option<string>, isDefault: bool, nowMs: u64)
    : (Live, Answer) {
    if !ValidClientId(clientId) || !ValidRememberedName(remembered) then (l, Err(InvalidRegistration))
    else
      var t := l.(connections := RefreshedAll(l.connections, clientId, remembered, isDefault));
      var changed := Clients(l.connections) != Clients(t.connections);
      (if changed then ShowStep(t, nowMs, Refresh) else t, Ok(changed))
  }

  // ----- runs -----

  datatype Request =
    | Execute(command: Command, ctx: Context, referencesOk: bool, reply: Reply)
    | ReplaceCatalog(next: Catalog, presetsChanged: bool, nowMs: u64, reply: Reply)
    | FlushPosition(nowMs: u64, reply: Reply)
    | Open(nowMs: u64)
    | Register(id: u64, registration: Registration, nowMs: u64, reply: Reply)
    | Disconnect(id: u64, nowMs: u64, reply: Reply)
    | RefreshMetadata(clientId: string, remembered: Option<string>, isDefault: bool, nowMs: u64)

  function TimeOf(r: Request): u64 {
    if r.Execute? then r.ctx.nowMs else r.nowMs
  }

  function Handled(l: Live, r: Request): Live {
    match r
    case Execute(command, ctx, referencesOk, reply) => ExecuteStep(l, command, ctx, referencesOk, reply).0
    case ReplaceCatalog(next, presetsChanged, nowMs, reply) =>
        ReplaceCatalogStep(l, next, presetsChanged, nowMs, reply).0
    case FlushPosition(nowMs, reply) => FlushStep(l, nowMs, reply).0
    case Open(_) => OpenStep(l).0
    case Register(id, registration, nowMs, reply) => RegisterStep(l, id, registration, nowMs, reply).0
    case Disconnect(id, nowMs, reply) => DisconnectStep(l, id, nowMs, reply).0
    case RefreshMetadata(clientId, remembered, isDefault, nowMs) =>
      RefreshStep(l, clientId, remembered, isDefault, nowMs).0
  }

  /** Requests are handled one after another; a stopped actor handles none. */
  function Serve(l: Live, requests: seq<Request>): Live
    decreases requests
  {
    if requests == [] || !l.running then l else Serve(Handled(l, requests[0]), requests[1..])
  }

  predicate InTime(clock: u64, requests: seq<Request>)
    decreases requests
  {
    requests == [] || (clock <= TimeOf(requests[0]) && InTime(TimeOf(requests[0]), requests[1..]))
  }

  // ----- startup -----

  const NEW_DOCUMENT: State := State(
    Room(0, None, [], false, 1.0, map[], None, [], 0, 0, Linear, [], None), 0, false,
    EmptyAmbient(LoopMode.Off, InOrder), None)

  /** A document to start with, unless the start failed, and what the store holds then. */
  datatype Loaded = Loaded(state: Option<State>, saved: Option<State>)

  /** A write of the durable document during startup. */
  function Written(s: State, before: Option<State>, reply: Reply): Loaded {
    Loaded(if reply.Seen? then Some(s) else None, if reply.Refused? then before else Some(Durable(s)))
  }

  /** Decode the stored document, and write it back if that changed it; if there is none, store a new one. */
  function Load(stored: Option<State>, reply: Reply): Loaded {
    match stored
    case None => Written(NEW_DOCUMENT, None, reply)
    case Some(document) =>
      var s := Decoded(document);
      if Durable(s) == document then Loaded(Some(s), stored) else Written(s, stored, reply)
  }

  /** Prune the loaded document for the catalog, and write it back if that changed it. */
  function Fit(loaded: State, saved: Option<State>, catalog: Catalog, nowMs: u64, reply: Reply): Loaded {
    match PlaybackCatalog.Pruned(loaded, catalog, false, nowMs)
    case Err(_) => Loaded(None, saved)
    case Ok(pruned) =>
      if pruned.changed then Written(pruned.state, saved, reply) else Loaded(Some(loaded), saved)
  }

  function Launched(stored: Option<State>, catalog: Catalog, nowMs: u64, load: Reply, fit: Reply)
    : (Option<Live>, Option<State>) {
    var loaded := Load(stored, load);
    if loaded.state.None? then (None, loaded.saved)
    else
      var fitted := Fit(loaded.state.value, loaded.saved, catalog, nowMs, fit);
      if fitted.state.None? || fitted.saved.None? then (None, fitted.saved)
      else (Some(ShowStep(Live(fitted.state.value, catalog, [], 1, fitted.saved.value, false, true, [], 0), nowMs,
          Started)),
            fitted.saved)
  }
}
