/** The write-ahead protocol for sound-effect mutations, step by step: a crash may fall between any two steps, the
    repository may lose a reply, and many tasks compete for the gate. Restart rolls forward. */
module SfxProtocol {
  import opened Common
  import opened Journal
  import opened Recovery
  import opened SfxJournal

  // ----- the durable world -----

  /** How a mutation is written into a row, and read back from it. */
  datatype Entry = Entry(operation: string, plan: Json)
  datatype Codec = Codec(encode: SfxMutation -> Entry, decode: Entry -> Result<SfxMutation, JournalError>)

  const SFX_CODEC: Codec :=
      Codec((m: SfxMutation) => Entry(OperationName(m), Plan(m)), (e: Entry) => FromJournal(Sfx, e.operation, e.plan))

  ghost predicate Faithful(codec: Codec) {
    forall m :: codec.decode(codec.encode(m)) == Ok(m)
  }

  /** The sound-effect rows of the journal decode to what was written. */
  lemma SfxCodecIsFaithful()
    ensures Faithful(SFX_CODEC)
  {
    forall m ensures SFX_CODEC.decode(SFX_CODEC.encode(m)) == Ok(m) {
      JournalRoundTrip(m);
    }
  }

  datatype Applied = Applied(row: nat, mutation: SfxMutation)

  /** The mutations whose effect is complete on disk, in order, and the rows whose effect is half done. */
  datatype Disk = Disk(done: seq<Applied>, partial: set<nat>)

  predicate Done(d: Disk, row: nat) {
    exists i :: 0 <= i < |d.done| && d.done[i].row == row
  }

  /** Nothing of the row's mutation is on disk. */
  predicate Absent(d: Disk, row: nat) {
    !Done(d, row) && row !in d.partial
  }

  // ----- the process -----

  datatype Pc =
    | Rechecking
    | Admitted
    | Recorded(row: nat, mutation: SfxMutation)
    | Journalled(row: nat, mutation: SfxMutation)
    | Performed(row: nat)
    | Declined(row: nat)
    | Leaving

  datatype Holder = Holder(task: nat, pc: Pc)

  datatype BootPc =
    | NextEntry
    | Replaying(row: nat, mutation: SfxMutation)
    | Replayed(row: nat)
    | ReplayDeclined(row: nat)

  /** While starting, `queue` holds the unfinished rows as loaded that are not yet dealt with. */
  datatype Process =
    | Down
    | Starting(queue: seq<nat>, boot: BootPc)
    | Up(recoveryRequired: bool, waiting: set<nat>, holder: Option<Holder>)

  datatype World = World(codec: Codec, rows: seq<Row<Entry>>, disk: Disk, process: Process, conflict: bool)

  // ----- what the environment may answer -----

  datatype EffectReply = Success | CleanFailure | DirtyFailure(progress: Progress)

  datatype Label =
    | Arrive(task: nat)
    | Lock(task: nat)
    | Recheck
    | Leave
    | CreateRow(mutation: SfxMutation, reply: Reply)
    | StartApplying(reply: Reply)
    | ApplyEffect(effect: EffectReply)
    | Commit(reply: Reply)
    | MarkFailed(reply: Reply)
    | RejectOutcome
    | Crash
    | CrashWhileApplying(progress: Progress)
    | Boot(order: seq<nat>)
    | BootEntry(reply: Reply)
    | Replay(effect: EffectReply)
    | BootCommit(reply: Reply)
    | BootFail(reply: Reply)
    | BootDone(cleaned: bool)

  function Decoded(w: World, row: nat): Result<SfxMutation, JournalError>
    requires row < |w.rows|
  {
    w.codec.decode(w.rows[row].entry)
  }

  /** A compare-and-set that meets another state than expected is a conflict. */
  function Move(w: World, row: nat, expected: RecoveryState, next: RecoveryState, reply: Reply): (World, bool)
    requires row < |w.rows| && expected.Allows(next)
  {
    var (rows, seen) := Transition(w.rows, row, expected, next, reply);
    (w.(rows := rows, conflict := w.conflict || (!reply.Refused? && w.rows[row].state != expected)), seen)
  }

  /** The mutation of a row left at some progress on disk. */
  function Progressed(d: Disk, row: nat, m: SfxMutation, progress: Progress): Disk {
    match progress
    case Untouched => d
    case Halfway => if Done(d, row) then d else Disk(d.done, d.partial + {row})
    case Finished => if Done(d, row) then d else Disk(d.done + [Applied(row, m)], d.partial - {row})
  }

  predicate HoldsGate(w: World) {
    w.process.Up? && w.process.holder.Some?
  }

  function PcOf(w: World): Pc
    requires HoldsGate(w)
  {
    w.process.holder.value.pc
  }

  function At(w: World, pc: Pc): World
    requires HoldsGate(w)
  {
    w.(process := w.process.(holder := Some(w.process.holder.value.(pc := pc))))
  }

  function Alarmed(w: World): World
    requires HoldsGate(w)
  {
    At(w, Leaving).(process := At(w, Leaving).process.(recoveryRequired := true))
  }

  /** The unfinished rows in the order the repository lists them: by time to the second, then at random. */
  predicate Lists(order: seq<nat>, rows: seq<Row<Entry>>) {
    multiset(order) == multiset(Unfinished(rows))
  }

  // ----- steps of a running coordinator -----

  predicate Enabled(w: World, l: Label) {
    match l
    case Arrive(_) => w.process.Up?
    case Lock(task) => w.process.Up? && w.process.holder.None? && task in w.process.waiting
    case Recheck => HoldsGate(w) && PcOf(w).Rechecking?
    case Leave => HoldsGate(w) && (PcOf(w).Admitted? || PcOf(w).Leaving?)
    case CreateRow(_, _) => HoldsGate(w) && PcOf(w).Admitted?
    case StartApplying(_) => HoldsGate(w) && PcOf(w).Recorded? && PcOf(w).row < |w.rows|
    case ApplyEffect(effect) =>
      && HoldsGate(w) && PcOf(w).Journalled?
      // A failure that asks for no recovery has changed nothing.
      && (effect.CleanFailure? ==> Absent(w.disk, PcOf(w).row))
    case Commit(_) => HoldsGate(w) && PcOf(w).Performed? && PcOf(w).row < |w.rows|
    case MarkFailed(_) => HoldsGate(w) && PcOf(w).Declined? && PcOf(w).row < |w.rows|
    case RejectOutcome => HoldsGate(w) && PcOf(w).Admitted?
    case Crash => true
    case CrashWhileApplying(_) =>
      (HoldsGate(w) && PcOf(w).Journalled?) || (w.process.Starting? && w.process.boot.Replaying?)
    case Boot(order) => w.process.Down? && Lists(order, w.rows)
    case BootEntry(_) =>
      w.process.Starting? && w.process.boot.NextEntry? && w.process.queue != [] && w.process.queue[0] < |w.rows|
    case Replay(effect) =>
      && w.process.Starting? && w.process.boot.Replaying?
      && (effect.CleanFailure? ==> Absent(w.disk, w.process.boot.row))
    case BootCommit(_) => w.process.Starting? && w.process.boot.Replayed? && w.process.boot.row < |w.rows|
    case BootFail(_) => w.process.Starting? && w.process.boot.ReplayDeclined? && w.process.boot.row < |w.rows|
    case BootDone(_) => w.process.Starting? && w.process.boot.NextEntry? && w.process.queue == []
  }

  /** Admission: look at the flag, wait for the gate, look at the flag again. */
  function StepAdmission(w: World, l: Label): World
    requires Enabled(w, l) && (l.Arrive? || l.Lock? || l.Recheck? || l.Leave?)
  {
    var p := w.process;
    match l
    case Arrive(task) => if p.recoveryRequired then w else w.(process := p.(waiting := p.waiting + {task}))
    case Lock(task) => w.(process := p.(waiting := p.waiting - {task}, holder := Some(Holder(task, Rechecking))))
    case Recheck => if p.recoveryRequired then w.(process := p.(holder := None)) else At(w, Admitted)
    case Leave => w.(process := p.(holder := None))
  }

  /** One mutation under the gate: record, journal, apply, conclude. */
  function StepMutation(w: World, l: Label): World
    requires Enabled(w, l) &&
             (l.CreateRow? || l.StartApplying? || l.ApplyEffect? || l.Commit? || l.MarkFailed? || l.RejectOutcome?)
  {
    match l
    case CreateRow(m, reply) =>
      var row := Row(w.codec.encode(m), Planned);
      if reply.Refused? then At(w, Leaving)
      else if reply.Lost? then At(w, Leaving).(rows := w.rows + [row])
      else At(w, Recorded(|w.rows|, m)).(rows := w.rows + [row])
    case StartApplying(reply) =>
      var (t, seen) := Move(w, PcOf(w).row, Planned, Applying, reply);
      if seen then At(t, Journalled(PcOf(w).row, PcOf(w).mutation)) else Alarmed(t)
    case ApplyEffect(effect) =>
      var row, m := PcOf(w).row, PcOf(w).mutation;
      match effect {
        case Success => At(w, Performed(row)).(disk := Progressed(w.disk, row, m, Finished))
        case CleanFailure => At(w, Declined(row))
        case DirtyFailure(progress) => Alarmed(w).(disk := Progressed(w.disk, row, m, progress))
      }
    case Commit(reply) =>
      var (t, seen) := Move(w, PcOf(w).row, Applying, Committed, reply);
      if seen then At(t, Admitted) else Alarmed(t)
    case MarkFailed(reply) =>
      var (t, seen) := Move(w, PcOf(w).row, Applying, Failed, reply);
      if seen then At(t, Leaving) else Alarmed(t)
    // An upload batch got an outcome of the wrong kind for a mutation that was committed.
    case RejectOutcome => Alarmed(w)
  }

  function StepCrash(w: World, l: Label): World
    requires Enabled(w, l) && (l.Crash? || l.CrashWhileApplying?)
  {
    match l
    case Crash => w.(process := Down)
    case CrashWhileApplying(progress) =>
      if w.process.Up? then w.(process := Down, disk := Progressed(w.disk, PcOf(w).row, PcOf(w).mutation, progress))
      else w.(process := Down, disk := Progressed(w.disk, w.process.boot.row, w.process.boot.mutation, progress))
  }

  /** Restart: load the unfinished rows in some order, bring each to Applying, replay it, conclude it; any error ends
      the attempt. */
  function StepBoot(w: World, l: Label): World
    requires Enabled(w, l) && (l.Boot? || l.BootEntry? || l.Replay? || l.BootCommit? || l.BootFail? || l.BootDone?)
  {
    match l
    case Boot(order) => w.(process := Starting(order, NextEntry))
    case BootEntry(reply) =>
      var row, rest := w.process.queue[0], w.process.queue[1..];
      var decoded := Decoded(w, row);
      if decoded.Err? then w.(process := Down)
      else if w.rows[row].state.Planned? then
        var (t, seen) := Move(w, row, Planned, Applying, reply);
        t.(process := if seen then Starting(rest, Replaying(row, decoded.value)) else Down)
      else if w.rows[row].state.Applying? then
        w.(process := Starting(rest, Replaying(row, decoded.value)))
      else
        w.(process := Down, conflict := true)
    case Replay(effect) =>
      var row, m, queue := w.process.boot.row, w.process.boot.mutation, w.process.queue;
      match effect {
        case Success => w.(process := Starting(queue, Replayed(row)), disk := Progressed(w.disk, row, m, Finished))
        case CleanFailure => w.(process := Starting(queue, ReplayDeclined(row)))
        case DirtyFailure(progress) => w.(process := Down, disk := Progressed(w.disk, row, m, progress))
      }
    case BootCommit(reply) =>
      var (t, seen) := Move(w, w.process.boot.row, Applying, Committed, reply);
      t.(process := if seen then Starting(w.process.queue, NextEntry) else Down)
    case BootFail(reply) =>
      var (t, seen) := Move(w, w.process.boot.row, Applying, Failed, reply);
      t.(process := if seen then Starting(w.process.queue, NextEntry) else Down)
    case BootDone(cleaned) => w.(process := if cleaned then Up(false, {}, None) else Down)
  }

  function Step(w: World, l: Label): World
    requires Enabled(w, l)
  {
    match l
    case Arrive(_) => StepAdmission(w, l)
    case Lock(_) => StepAdmission(w, l)
    case Recheck => StepAdmission(w, l)
    case Leave => StepAdmission(w, l)
    case CreateRow(_, _) => StepMutation(w, l)
    case StartApplying(_) => StepMutation(w, l)
    case ApplyEffect(_) => StepMutation(w, l)
    case Commit(_) => StepMutation(w, l)
    case MarkFailed(_) => StepMutation(w, l)
    case RejectOutcome => StepMutation(w, l)
    case Crash => StepCrash(w, l)
    case CrashWhileApplying(_) => StepCrash(w, l)
    case _ => StepBoot(w, l)
  }

  /** The world after a run of steps; None if one of them is not possible. */
  function Run(w: World, labels: seq<Label>): Option<World>
    decreases labels
  {
    if labels == [] then Some(w)
    else if !Enabled(w, labels[0]) then None
    else Run(Step(w, labels[0]), labels[1..])
  }

  const FRESH: World := World(SFX_CODEC, [], Disk([], {}), Down, false)
}
