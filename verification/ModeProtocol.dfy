/** The write-ahead protocol for mode mutations, step by step, with a crash allowed between any two steps. A mutation
    touches mode files and mode data; restart rolls unfinished mutations back. */
module ModeProtocol {
  import opened Common
  import opened Journal
  import opened ModeCatalog
  import opened Recovery

  // ----- the durable world -----

  /** One of the two stores a mutation edits: the rows whose effect is complete, in order, and those left half done. */
  datatype Side = Side(done: seq<nat>, partial: set<nat>)

  // ----- the process -----

  datatype Catalog = Catalog(generation: u64, modes: Modes)

  /** What the playback actor is sent: the generation, the references of these modes, the presets that changed. */
  datatype Publication = Publication(generation: u64, modes: Modes, changed: set<PresetKey>)

  datatype Pc =
    | Idle
    | Staged(mutation: Mutation, next: Modes)
    | Recorded(row: nat, next: Modes)
    | Journalled(row: nat, next: Modes)
    | FilesDone(row: nat, next: Modes)
    | BothDone(row: nat, next: Modes)
    | Verified(row: nat, next: Modes)
    | CommitSeen(row: nat, next: Modes)
    | Undoing(row: nat, fatal: bool)
    | Unwinding(row: nat, fatal: bool)
    | DataUnwound(row: nat, fatal: bool, ok: bool)
    | Unwound(row: nat, fatal: bool, ok: bool)
    | Stopped

  datatype BootPc = NextEntry | BootUnwinding(row: nat) | BootDataUnwound(row: nat) | BootUnwound(row: nat)

  datatype Process =
    | Down
    | Starting(queue: seq<nat>, boot: BootPc)
    | Up(current: Option<Catalog>, accepted: seq<Publication>, pc: Pc)

  datatype World = World(rows: seq<Row<Mutation>>, files: Side, data: Side, process: Process)

  // ----- what the environment may answer -----

  datatype EffectReply = Success | Failure(progress: Progress)

  datatype PrepareReply = Prepared | PrepareFailed(kind: Failure) | PlanInvalid

  datatype LoadReply = LoadFailed | Loaded(modes: Modes, errors: map<string, string>)

  /** What the loader can report: it takes a document's id from its file name, and refuses names that are not slugs. */
  type Load = l: LoadReply | l.Loaded? ==> SlugKeys(l.modes) witness LoadFailed

  /** The sink takes the publication, takes it although the caller gets an error, or does not take it. */
  datatype SinkReply = Accepted | AcceptedUnseen | Rejected

  datatype Label =
    | Reload(load: Load, sink: SinkReply)
    | Begin(mutation: Mutation, prepare: PrepareReply)
    | CreateRow(reply: Reply)
    | StartApplying(reply: Reply)
    | ApplyFiles(effect: EffectReply)
    | ApplyData(effect: EffectReply)
    | Verify(load: Load)
    | Commit(reply: Reply)
    | Publish(sink: SinkReply)
    | StartUndo(reply: Reply)
    | UndoData(effect: EffectReply)
    | UndoFiles(effect: EffectReply)
    | EndUndo(reply: Reply)
    | Crash
    | Boot
    | BootStart(reply: Reply)
    | BootUndoData(effect: EffectReply)
    | BootUndoFiles(effect: EffectReply)
    | BootEnd(reply: Reply)
    | BootDone(cleaned: bool)

  // ----- effects on a store -----

  function Apply(s: Side, row: nat, effect: EffectReply): Side {
    match effect
    case Success => Side(s.done + [row], s.partial)
    case Failure(Untouched) => s
    case Failure(Halfway) => Side(s.done, s.partial + {row})
    case Failure(Finished) => Side(s.done + [row], s.partial)
  }

  /** The store without the row's effect, which can only be the latest. */
  function Without(s: Side, row: nat): Side {
    Side(if s.done != [] && s.done[|s.done| - 1] == row then s.done[..|s.done| - 1] else s.done, s.partial - {row})
  }

  function Undo(s: Side, row: nat, effect: EffectReply): Side {
    match effect
    case Success => Without(s, row)
    case Failure(Untouched) => s
    case Failure(Halfway) => Side(Without(s, row).done, s.partial + {row})
    case Failure(Finished) => Without(s, row)
  }

  predicate Has(s: Side, row: nat) {
    row in s.done || row in s.partial
  }

  /** The catalog to publish, once the written mode has been read back from disk. */
  function ReadBack(m: Mutation, next: Modes, load: Load): Option<Modes> {
    var target := TargetMode(m);
    if load.LoadFailed? then None
    else if m.DeleteMode? then if target in load.modes || target in load.errors then None else Some(next)
    else if target in load.modes then Some(next[target := load.modes[target]])
    else None
  }

  predicate IsBoot(l: Label) {
    l.Boot? || l.BootStart? || l.BootUndoData? || l.BootUndoFiles? || l.BootEnd? || l.BootDone?
  }

  predicate IsMutation(l: Label) {
    l.CreateRow? || l.StartApplying? || l.ApplyFiles? || l.ApplyData? || l.Verify? || l.Commit?
  }

  predicate IsUndo(l: Label) {
    l.StartUndo? || l.UndoData? || l.UndoFiles? || l.EndUndo?
  }

  predicate EnabledBoot(w: World, l: Label)
    requires IsBoot(l)
  {
    var p := w.process;
    match l
    case Boot => p.Down?
    case BootStart(_) =>
        p.Starting? && p.boot.NextEntry? && p.queue != [] && p.queue[0] < |w.rows| && IsUnfinished(w.rows[p.queue[0]])
    case BootUndoData(_) => p.Starting? && p.boot.BootUnwinding?
    case BootUndoFiles(_) => p.Starting? && p.boot.BootDataUnwound?
    case BootEnd(_) => p.Starting? && p.boot.BootUnwound? && p.boot.row < |w.rows| && p.queue != []
    case BootDone(_) => p.Starting? && p.boot.NextEntry? && p.queue == []
  }

  predicate EnabledMutation(w: World, l: Label)
    requires IsMutation(l) && w.process.Up?
  {
    var pc := w.process.pc;
    match l
    case CreateRow(_) => pc.Staged?
    case StartApplying(_) => pc.Recorded? && pc.row < |w.rows|
    case ApplyFiles(_) => pc.Journalled?
    case ApplyData(_) => pc.FilesDone?
    case Verify(_) => pc.BothDone? && pc.row < |w.rows|
    case Commit(_) => pc.Verified? && pc.row < |w.rows|
  }

  predicate EnabledUndo(w: World, l: Label)
    requires IsUndo(l) && w.process.Up?
  {
    var pc := w.process.pc;
    match l
    case StartUndo(_) => pc.Undoing? && pc.row < |w.rows|
    case UndoData(_) => pc.Unwinding?
    case UndoFiles(_) => pc.DataUnwound?
    case EndUndo(_) => pc.Unwound? && pc.row < |w.rows|
  }

  predicate Enabled(w: World, l: Label) {
    if l.Crash? then true
    else if IsBoot(l) then EnabledBoot(w, l)
    else
      && w.process.Up?
      && if IsMutation(l) then EnabledMutation(w, l)
         else if IsUndo(l) then EnabledUndo(w, l)
         else if l.Publish? then w.process.pc.CommitSeen? && Generation(w.process.current) < U64_MAX
         else w.process.pc.Idle?
  }

  function At(w: World, pc: Pc): World
    requires w.process.Up?
  {
    w.(process := w.process.(pc := pc))
  }

  function Generation(current: Option<Catalog>): u64 {
    if current.Some? then current.value.generation else 0
  }

  function ModesOf(current: Option<Catalog>): Option<Modes> {
    if current.Some? then Some(current.value.modes) else None
  }

  /** Offer the next generation to the sink; adopt it only when the sink is seen to take it. */
  ghost function Offered(p: Process, modes: Modes, sink: SinkReply): Process
    requires p.Up? && Generation(p.current) < U64_MAX
  {
    var generation := Generation(p.current) + 1;
    var publication := Publication(generation, modes, ChangedKeys(ModesOf(p.current), modes));
    match sink
    case Accepted => Up(Some(Catalog(generation, modes)), p.accepted + [publication], Idle)
    case AcceptedUnseen => Up(p.current, p.accepted + [publication], Stopped)
    case Rejected => p.(pc := Stopped)
  }

  ghost function Published(w: World, modes: Modes, sink: SinkReply): World
    requires w.process.Up? && Generation(w.process.current) < U64_MAX
  {
    w.(process := Offered(w.process, modes, sink))
  }

  /** Load the catalog and publish it; a failed or faulty load changes nothing. */
  ghost function StepReload(w: World, load: Load, sink: SinkReply): World
    requires w.process.Up?
  {
    if load.LoadFailed? || load.errors != map[] then w
    else if Generation(w.process.current) == U64_MAX then At(w, Stopped)
    else Published(w, load.modes, sink)
  }

  /** Check the mutation against the current catalog and stage it. */
  function StepBegin(w: World, m: Mutation, prepare: PrepareReply): World
    requires w.process.Up?
  {
    var current := w.process.current;
    if current.None? || m.expectedGeneration != current.value.generation then w
    else if current.value.generation == U64_MAX then At(w, Stopped)
    else
      match ApplyCatalogMutation(current.value.modes, m)
      case Err(_) => w
      case Ok(next) =>
        match prepare
        case Prepared => At(w, Staged(m, next))
        case PrepareFailed(_) => w
        case PlanInvalid => At(w, Stopped)
  }

  /** Journal the mutation, apply it to files and data, read it back, commit it. */
  function StepMutation(w: World, l: Label): World
    requires IsMutation(l) && w.process.Up? && EnabledMutation(w, l)
  {
    var pc := w.process.pc;
    match l
    case CreateRow(reply) =>
      var row := Row(pc.mutation, Planned);
      if reply.Refused? then At(w, Stopped)
      else if reply.Lost? then At(w, Stopped).(rows := w.rows + [row])
      else At(w, Recorded(|w.rows|, pc.next)).(rows := w.rows + [row])
    case StartApplying(reply) =>
      var (rows, seen) := Transition(w.rows, pc.row, Planned, Applying, reply);
      At(w, if seen then Journalled(pc.row, pc.next) else Stopped).(rows := rows)
    case ApplyFiles(effect) =>
      At(w, if effect.Success? then FilesDone(pc.row, pc.next)
          else Undoing(pc.row, false)).(files := Apply(w.files, pc.row, effect))
    case ApplyData(effect) =>
      At(w, if effect.Success? then BothDone(pc.row, pc.next)
          else Undoing(pc.row, false)).(data := Apply(w.data, pc.row, effect))
    case Verify(load) =>
      At(w, match ReadBack(w.rows[pc.row].entry, pc.next, load)
            case Some(next) => Verified(pc.row, next)
            case None => Undoing(pc.row, false))
    case Commit(reply) =>
      var (rows, seen) := Transition(w.rows, pc.row, Applying, Committed, reply);
      At(w, if seen then CommitSeen(pc.row, pc.next) else Undoing(pc.row, true)).(rows := rows)
  }

  /** Roll a mutation back: data first, then files, both in any case. */
  function StepUndo(w: World, l: Label): World
    requires IsUndo(l) && w.process.Up? && EnabledUndo(w, l)
  {
    var pc := w.process.pc;
    match l
    case StartUndo(reply) =>
      var (rows, seen) := Transition(w.rows, pc.row, Applying, RollingBack, reply);
      At(w, if seen then Unwinding(pc.row, pc.fatal) else Stopped).(rows := rows)
    case UndoData(effect) =>
      At(w, DataUnwound(pc.row, pc.fatal, effect.Success?)).(data := Undo(w.data, pc.row, effect))
    case UndoFiles(effect) =>
      At(w, Unwound(pc.row, pc.fatal, pc.ok && effect.Success?)).(files := Undo(w.files, pc.row, effect))
    case EndUndo(reply) =>
      if !pc.ok then At(w, Stopped).(rows := Transition(w.rows, pc.row, RollingBack, Failed, reply).0)
      else
        var (rows, seen) := Transition(w.rows, pc.row, RollingBack, RolledBack, reply);
        At(w, if seen && !pc.fatal then Idle else Stopped).(rows := rows)
  }

  /** Restart: roll back each unfinished row; any error ends the attempt. */
  function StepBoot(w: World, l: Label): World
    requires IsBoot(l) && EnabledBoot(w, l)
  {
    match l
    case Boot => w.(process := Starting(Unfinished(w.rows), NextEntry))
    case BootStart(reply) =>
      var row := w.process.queue[0];
      if w.rows[row].state.RollingBack? then w.(process := w.process.(boot := BootUnwinding(row)))
      else
        var (rows, seen) := Transition(w.rows, row, w.rows[row].state, RollingBack, reply);
        w.(rows := rows, process := if seen then w.process.(boot := BootUnwinding(row)) else Down)
    case BootUndoData(effect) =>
      var row := w.process.boot.row;
      w.(data := Undo(w.data, row, effect), process := if effect.Success? then
          w.process.(boot := BootDataUnwound(row)) else Down)
    case BootUndoFiles(effect) =>
      var row := w.process.boot.row;
      w.(files := Undo(w.files, row, effect), process := if effect.Success? then w.process.(boot := BootUnwound(row))
          else Down)
    case BootEnd(reply) =>
      var (rows, seen) := Transition(w.rows, w.process.boot.row, RollingBack, RolledBack, reply);
      w.(rows := rows, process := if seen then Starting(w.process.queue[1..], NextEntry) else Down)
    case BootDone(cleaned) => w.(process := if cleaned then Up(None, [], Idle) else Down)
  }

  ghost function Step(w: World, l: Label): World
    requires Enabled(w, l)
  {
    if l.Crash? then w.(process := Down)
    else if IsBoot(l) then StepBoot(w, l)
    else if IsMutation(l) then StepMutation(w, l)
    else if IsUndo(l) then StepUndo(w, l)
    else if l.Publish? then Published(w, w.process.pc.next, l.sink)
    else if l.Reload? then StepReload(w, l.load, l.sink)
    else StepBegin(w, l.mutation, l.prepare)
  }

  /** The world after a run of steps; None if one of them is not possible. */
  ghost function Run(w: World, labels: seq<Label>): Option<World>
    decreases labels
  {
    if labels == [] then Some(w)
    else if !Enabled(w, labels[0]) then None
    else Run(Step(w, labels[0]), labels[1..])
  }

  const FRESH: World := World([], Side([], {}), Side([], {}), Down)
}
