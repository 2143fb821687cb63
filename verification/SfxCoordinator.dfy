/** The sound-effect coordinator as the source runs it, under the gate and at startup. Every method is a run of the
    protocol's steps; a crash between two of its lines is a crash between two steps of that run. */
module SfxCoordinator {
  import opened Common
  import opened Journal
  import opened MediaPath
  import opened Recovery
  import opened SfxJournal
  import opened SfxProtocol
  import opened SfxOrder
  import opened SfxSafety

  datatype MutationError = DependencyError | RecoveryConflict | MutationRefused | InvalidJournal

  /** What the journal and the filesystem answer to one mutation. */
  datatype Answers = Answers(create: Reply, start: Reply, effect: EffectReply, conclude: Reply)

  /** A filesystem that has already changed something never claims that nothing changed. */
  function Honest(d: Disk, row: nat, effect: EffectReply): EffectReply {
    if effect.CleanFailure? && !Absent(d, row) then DirtyFailure(Untouched) else effect
  }

  /** The error of a transition that was not seen: the repository failed, or it answered that the row had moved. */
  function TransitionError(reply: Reply): MutationError {
    if reply.Seen? then RecoveryConflict else DependencyError
  }

  /** What a mutation owes its caller once it is journalled as applying, and when it closes the coordinator. */
  predicate AnsweredApplying(effect: EffectReply, conclude: Reply, r: Result<Applied, MutationError>, closed: bool) {
    match effect
    case Success => if conclude.Seen? then r.Ok? && !closed else r == Err(DependencyError) && closed
    case CleanFailure =>
      if conclude.Seen? then r == Err(MutationRefused) && !closed else r == Err(RecoveryConflict) && closed
    case DirtyFailure(_) => r == Err(MutationRefused) && closed
  }

  predicate AnsweredRecorded(env: Answers, r: Result<Applied, MutationError>, closed: bool) {
    if env.start.Seen? then AnsweredApplying(env.effect, env.conclude, r, closed)
    else r == Err(DependencyError) && closed
  }

  predicate Answered(env: Answers, r: Result<Applied, MutationError>, closed: bool) {
    if env.create.Seen? then AnsweredRecorded(env, r, closed) else r == Err(DependencyError) && !closed
  }

  /** Everything a mutation needs of journal and filesystem. */
  predicate Cooperates(env: Answers) {
    env.create.Seen? && env.start.Seen? && env.effect.Success? && env.conclude.Seen?
  }

  /** Where the row of a mutation ends up. */
  function ConcludedState(effect: EffectReply, conclude: Reply): RecoveryState {
    if effect.DirtyFailure? || conclude.Refused? then Applying
    else if effect.Success? then Committed
    else Failed
  }

  function RecordedState(env: Answers): RecoveryState {
    match env.start
    case Refused => Planned
    case Lost => Applying
    case Seen => ConcludedState(env.effect, env.conclude)
  }

  /** What an effect leaves on disk. */
  function Affected(d: Disk, row: nat, m: SfxMutation, effect: EffectReply): Disk {
    match effect
    case Success => Progressed(d, row, m, Finished)
    case CleanFailure => d
    case DirtyFailure(progress) => Progressed(d, row, m, progress)
  }

  datatype StagedUpload = StagedUpload(requested: Path, staged: Path)
  datatype Resolution = Publish(destination: Path, replaceExisting: bool) | Skip | ResolutionFailed

  /** A row from here on that no one will finish before the next restart. */
  predicate Stranded(rows: seq<Row<Entry>>, row: nat) {
    row < |rows| && IsUnfinished(rows[row])
  }

  /** The environment's part in one upload: how its name resolves, whether a discard works, whether the outcome is a
      file. */
  datatype UploadAnswers = UploadAnswers(resolution: Resolution, discards: bool, mutation: Answers, isFile: bool)

  predicate LosesUpload(env: UploadAnswers) {
    env.resolution.Publish? && env.mutation.create.Lost?
  }

  datatype BatchItem = Published(applied: Applied) | Skipped(requested: Path)

  /** The answers with which an upload takes its place among the results of a batch. */
  predicate UploadSucceeds(env: UploadAnswers) {
    match env.resolution
    case ResolutionFailed => false
    case Skip => env.discards
    case Publish(_, _) => Cooperates(env.mutation) && env.isFile
  }

  /** The place it takes, if its journal row is `row`. */
  predicate IsItemOf(item: BatchItem, upload: StagedUpload, env: UploadAnswers, row: nat) {
    match env.resolution
    case ResolutionFailed => false
    case Skip => item == Skipped(upload.requested)
    case Publish(destination, overwrite) =>
      item == Published(Applied(row, PublishUpload(upload.staged, destination, overwrite)))
  }

  /** The error an upload ends its batch with, and whether that closes the coordinator. */
  predicate UploadFailed(env: UploadAnswers, error: MutationError, closed: bool) {
    match env.resolution
    case ResolutionFailed => error.MutationRefused? && !closed
    case Skip => !env.discards && error.MutationRefused? && !closed
    case Publish(_, _) =>
      if Cooperates(env.mutation) then !env.isFile && error.RecoveryConflict? && closed
      else Answered(env.mutation, Err(error), closed)
  }

  function PublishedOf(items: seq<BatchItem>): seq<Applied> {
    if items == [] then []
    else PublishedOf(items[..|items| - 1]) +
         if items[|items| - 1].Published? then [items[|items| - 1].applied] else []
  }

  /** Compare-and-set a row; a mismatch is remembered as a conflict. */
  method MoveRow(rows: seq<Row<Entry>>, conflict: bool, row: nat, expected: RecoveryState, next: RecoveryState,
      reply: Reply)
    returns (after: seq<Row<Entry>>, conflicted: bool, seen: bool)
    requires row < |rows| && expected.Allows(next)
    ensures (after, seen) == Transition(rows, row, expected, next, reply)
    ensures conflicted == (conflict || (!reply.Refused? && rows[row].state != expected))
    ensures rows[row].state != expected ==> after == rows && !seen
  {
    after, seen := Journal.TransitionRow(rows, row, expected, next, reply);
    conflicted := conflict || (!reply.Refused? && rows[row].state != expected);
  }

  class Coordinator {
    const codec: Codec
    var rows: seq<Row<Entry>>
    var disk: Disk
    var conflict: bool
    var recoveryRequired: bool
    ghost var waiting: set<nat>
    ghost var task: nat
    ghost var pc: Pc

    ghost function View(): World
      reads this
    {
      World(codec, rows, disk, Up(recoveryRequired, waiting, Some(Holder(task, pc))), conflict)
    }

    method Record(m: SfxMutation, reply: Reply) returns (recorded: bool, ghost trace: seq<Label>)
      requires pc.Admitted? && Inv(View())
      modifies this`rows, this`pc
      ensures trace == [CreateRow(m, reply)] && Run(old(View()), trace) == Some(View())
      ensures Inv(View()) && recorded == reply.Seen?
      ensures pc == if recorded then Recorded(old(|rows|), m) else Leaving
      ensures rows == if reply.Refused? then old(rows) else old(rows) + [Row(codec.encode(m), Planned)]
    {
      trace := [CreateRow(m, reply)];
      RunOne(View(), CreateRow(m, reply));
      StepKeepsInv(View(), CreateRow(m, reply));
      recorded := reply.Seen?;
      pc := if recorded then Recorded(|rows|, m) else Leaving;
      if !reply.Refused? {
        rows := rows + [Row(codec.encode(m), Planned)];
      }
    }

    method BeginApplying(row: nat, m: SfxMutation, reply: Reply) returns (seen: bool, ghost trace: seq<Label>)
      requires pc == Recorded(row, m) && row < |rows| && Inv(View())
      modifies this`rows, this`pc, this`conflict, this`recoveryRequired
      ensures trace == [StartApplying(reply)] && Run(old(View()), trace) == Some(View()) && Inv(View())
      ensures pc == if seen then Journalled(row, m) else Leaving
      ensures seen == reply.Seen? && recoveryRequired == !seen
      ensures rows == if reply.Refused? then old(rows) else SetState(old(rows), row, Applying)
    {
      trace := [StartApplying(reply)];
      RunOne(View(), StartApplying(reply));
      StepKeepsInv(View(), StartApplying(reply));
      rows, conflict, seen := MoveRow(rows, conflict, row, Planned, Applying, reply);
      if !seen {
        recoveryRequired := true;
      }
      pc := if seen then Journalled(row, m) else Leaving;
    }

    /** Apply the journalled mutation; an effect that may have stopped half-way raises the flag. */
    method Perform(row: nat, m: SfxMutation, effect: EffectReply) returns (ghost trace: seq<Label>)
      requires pc == Journalled(row, m) && Inv(View())
      modifies this`disk, this`pc, this`recoveryRequired
      ensures Run(old(View()), trace) == Some(View()) && Inv(View())
      ensures recoveryRequired == effect.DirtyFailure?
      ensures match effect
              case Success => pc == Performed(row) && disk == Progressed(old(disk), row, m, Finished)
              case CleanFailure => pc == Declined(row) && disk == old(disk)
              case DirtyFailure(progress) => pc.Leaving? && disk == Progressed(old(disk), row, m, progress)
    {
      trace := [ApplyEffect(effect)];
      RunOne(View(), ApplyEffect(effect));
      StepKeepsInv(View(), ApplyEffect(effect));
      match effect {
        case DirtyFailure(progress) =>
          disk := Progressed(disk, row, m, progress);
          recoveryRequired := true;
          pc := Leaving;
        case CleanFailure =>
          pc := Declined(row);
        case Success =>
          disk := Progressed(disk, row, m, Finished);
          pc := Performed(row);
      }
    }

    /** Commit a performed mutation, or mark a declined one failed. */
    method Conclude(row: nat, performed: bool, reply: Reply) returns (seen: bool, ghost trace: seq<Label>)
      requires pc == (if performed then Performed(row) else Declined(row)) && row < |rows| && Inv(View())
      modifies this`rows, this`pc, this`conflict, this`recoveryRequired
      ensures Run(old(View()), trace) == Some(View()) && Inv(View())
      ensures pc == if seen && performed then Admitted else Leaving
      ensures seen == reply.Seen? && recoveryRequired == !seen
      ensures rows == if reply.Refused? then old(rows)
                      else SetState(old(rows), row, if performed then Committed else Failed)
    {
      ghost var conclusion := if performed then Commit(reply) else MarkFailed(reply);
      trace := [conclusion];
      RunOne(View(), conclusion);
      StepKeepsInv(View(), conclusion);
      rows, conflict, seen := MoveRow(rows, conflict, row, Applying, if performed then Committed else Failed, reply);
      if !seen {
        recoveryRequired := true;
      }
      pc := if seen && performed then Admitted else Leaving;
    }

    method ApplyAndConclude(row: nat, m: SfxMutation, env: Answers)
      returns (r: Result<Applied, MutationError>, ghost trace: seq<Label>)
      requires pc == Journalled(row, m) && row < |rows| && Inv(View())
      modifies this`rows, this`disk, this`pc, this`conflict, this`recoveryRequired
      ensures Run(old(View()), trace) == Some(View()) && Inv(View())
      ensures AnsweredApplying(env.effect, env.conclude, r, recoveryRequired)
      ensures if r.Ok? then pc.Admitted? && r.value == Applied(row, m) else pc.Leaving?
      ensures disk == Affected(old(disk), row, m, env.effect)
      ensures rows == SetState(old(rows), row, ConcludedState(env.effect, env.conclude))
    {
      ghost var before := View();
      trace := Perform(row, m, env.effect);
      if env.effect.DirtyFailure? {
        return Err(MutationRefused), trace;
      }
      var seen;
      ghost var more;
      seen, more := Conclude(row, env.effect.Success?, env.conclude);
      RunAppend(before, trace, more);
      trace := trace + more;
      if env.effect.CleanFailure? {
        r := Err(if seen then MutationRefused else RecoveryConflict);
      } else {
        r := if seen then Ok(Applied(row, m)) else Err(TransitionError(env.conclude));
      }
    }

    method Proceed(row: nat, m: SfxMutation, env: Answers)
      returns (r: Result<Applied, MutationError>, ghost trace: seq<Label>)
      requires pc == Recorded(row, m) && row < |rows| && Inv(View())
      modifies this`rows, this`disk, this`pc, this`conflict, this`recoveryRequired
      ensures Run(old(View()), trace) == Some(View()) && Inv(View())
      ensures AnsweredRecorded(env, r, recoveryRequired)
      ensures if r.Ok? then pc.Admitted? && r.value == Applied(row, m) else pc.Leaving?
      ensures disk == if env.start.Seen? then Affected(old(disk), row, m, env.effect) else old(disk)
      ensures rows == SetState(old(rows), row, RecordedState(env))
    {
      ghost var before := View();
      var seen;
      seen, trace := BeginApplying(row, m, env.start);
      if !seen {
        return Err(TransitionError(env.start)), trace;
      }
      ghost var more;
      r, more := ApplyAndConclude(row, m, env);
      RunAppend(before, trace, more);
      trace := trace + more;
    }

    /** Record the mutation, journal it as applying, apply it, conclude it. It succeeds exactly if journal and
        filesystem cooperate throughout; then the mutation is on disk and committed. Any doubtful answer but that to
        the creation closes the coordinator until a restart. An error that does not close it means the disk is
        untouched, and its row, if there is one, is finished unless the reply to the creation was lost. */
    method ExecuteMutation(m: SfxMutation, env: Answers)
      returns (r: Result<Applied, MutationError>, ghost trace: seq<Label>)
      requires pc.Admitted? && Inv(View())
      modifies this`rows, this`disk, this`pc, this`conflict, this`recoveryRequired
      ensures Run(old(View()), trace) == Some(View()) && Inv(View())
      ensures r.Ok? <==> env.create.Seen? && env.start.Seen? && env.effect.Success? && env.conclude.Seen?
      ensures Answered(env, r, recoveryRequired)
      ensures r.Ok? ==> pc.Admitted? && r.value == Applied(old(|rows|), m) && disk.done == old(disk).done + [r.value]
      ensures r.Ok? ==> |rows| == old(|rows|) + 1 && rows[old(|rows|)].state.Committed?
      ensures r.Err? ==> pc.Leaving? && (!recoveryRequired ==> disk == old(disk))
      ensures r.Err? && !recoveryRequired && Stranded(rows, old(|rows|)) <==> env.create.Lost?
      ensures rows == if env.create.Refused? then old(rows)
                      else old(rows) +
                           [Row(codec.encode(m), if env.create.Lost? then Planned else RecordedState(env))]
      ensures disk == if env.create.Seen? && env.start.Seen? then Affected(old(disk), old(|rows|), m, env.effect)
                      else old(disk)
    {
      ghost var before := View();
      var row := |rows|;
      var recorded;
      recorded, trace := Record(m, env.create);
      if !recorded {
        return Err(DependencyError), trace;
      }
      ghost var more;
      r, more := Proceed(row, m, env);
      RunAppend(before, trace, more);
      trace := trace + more;
    }

    // ----- a batch of uploads -----

    /** A committed mutation whose outcome has the wrong kind raises the flag and ends the batch. */
    method RejectCommitted() returns (ghost trace: seq<Label>)
      requires pc.Admitted? && Inv(View())
      modifies this`pc, this`recoveryRequired
      ensures Run(old(View()), trace) == Some(View()) && Inv(View())
      ensures pc.Leaving? && recoveryRequired
    {
      trace := [RejectOutcome];
      RunOne(View(), RejectOutcome);
      StepKeepsInv(View(), RejectOutcome);
      recoveryRequired := true;
      pc := Leaving;
    }

    /** One upload of a batch. `discarded` says whether its staged file was given up. A restart is left with a row whose
        staged file was given up exactly when the reply to the row's creation was lost. */
    method PublishOne(upload: StagedUpload, env: UploadAnswers)
      returns (r: Result<BatchItem, MutationError>, discarded: bool, ghost trace: seq<Label>)
      requires pc.Admitted? && Inv(View())
      modifies this`rows, this`disk, this`pc, this`conflict, this`recoveryRequired
      ensures Run(old(View()), trace) == Some(View()) && Inv(View())
      ensures r.Ok? ==> pc.Admitted? && disk.done == old(disk).done + PublishedOf([r.value])
      ensures r.Ok? ==> |rows| == old(|rows|) + |PublishedOf([r.value])|
      ensures discarded && Stranded(rows, old(|rows|)) <==> LosesUpload(env)
      ensures r.Ok? <==> UploadSucceeds(env)
      ensures if r.Ok? then IsItemOf(r.value, upload, env, old(|rows|))
              else UploadFailed(env, r.error, recoveryRequired)
      ensures r.Ok? ==> (discarded <==> r.value.Skipped?)
      ensures r.Err? ==> (discarded <==> !recoveryRequired) && (!recoveryRequired ==> disk == old(disk))
    {
      trace := [];
      if env.resolution.ResolutionFailed? {
        return Err(MutationRefused), true, trace;
      }
      if env.resolution.Skip? {
        r := if env.discards then Ok(Skipped(upload.requested)) else Err(MutationRefused);
        return r, true, trace;
      }
      ghost var before := View();
      var m := PublishUpload(upload.staged, env.resolution.destination, env.resolution.replaceExisting);
      var outcome;
      outcome, trace := ExecuteMutation(m, env.mutation);
      if outcome.Err? {
        return Err(outcome.error), !recoveryRequired, trace;
      }
      if !env.isFile {
        ghost var more := RejectCommitted();
        RunAppend(before, trace, more);
        return Err(RecoveryConflict), false, trace + more;
      }
      return Ok(Published(outcome.value)), false, trace;
    }

    method DiscardUploads(already: set<nat>, first: nat, end: nat) returns (discarded: set<nat>)
      requires first <= end
      ensures forall k :: k in discarded <==> k in already || first <= k < end
    {
      discarded := already;
      for j := first to end
        invariant forall k :: k in discarded <==> k in already || first <= k < j
      {
        discarded := discarded + {j};
      }
    }

    /** Publish uploads in order until one fails. Everything before the failure is committed in order, every upload
        after it is discarded, and the failing one is discarded exactly when no recovery is required. Its row is then
        left to the next restart exactly when the reply to the row's creation was lost. The batch fails exactly if some
        upload of it cannot succeed, with the error of the first such. */
    method PublishUploads(uploads: seq<StagedUpload>, env: seq<UploadAnswers>)
      returns (completed: seq<BatchItem>, error: Option<MutationError>, discarded: set<nat>, ghost trace: seq<Label>)
      requires pc.Admitted? && Inv(View()) && |env| == |uploads|
      modifies this`rows, this`disk, this`pc, this`conflict, this`recoveryRequired
      ensures Run(old(View()), trace) == Some(View()) && Inv(View())
      ensures |completed| <= |uploads| && (error.None? <==> |completed| == |uploads|)
      ensures error.None? <==> forall i :: 0 <= i < |env| ==> UploadSucceeds(env[i])
      ensures ItemsOf(completed, uploads, env, old(|rows|))
      ensures error.Some? ==> UploadFailed(env[|completed|], error.value, recoveryRequired)
      ensures error.None? ==> !recoveryRequired
      ensures forall i :: 0 <= i < |completed| ==> (i in discarded <==> completed[i].Skipped?)
      ensures forall i :: |completed| < i < |uploads| ==> i in discarded
      ensures error.Some? ==> (|completed| in discarded <==> !recoveryRequired)
      ensures !recoveryRequired ==> disk.done == old(disk).done + PublishedOf(completed)
      ensures error.Some? ==>
                (|completed| in discarded && Stranded(rows, old(|rows|) + |PublishedOf(completed)|) <==>
                    LosesUpload(env[|completed|]))
    {
      ghost var first := |rows|;
      completed, error, discarded, trace := PublishUntilFailure(uploads, env);
      forall i | 0 <= i < |completed| ensures UploadSucceeds(env[i]) {
        assert ItemAt(completed, uploads, env, first, i);
      }
      if error.Some? {
        assert !UploadSucceeds(env[|completed|]);
        discarded := DiscardUploads(discarded, |completed| + 1, |uploads|);
      }
    }

    method PublishUntilFailure(uploads: seq<StagedUpload>, env: seq<UploadAnswers>)
      returns (completed: seq<BatchItem>, error: Option<MutationError>, discarded: set<nat>, ghost trace: seq<Label>)
      requires pc.Admitted? && Inv(View()) && |env| == |uploads|
      modifies this`rows, this`disk, this`pc, this`conflict, this`recoveryRequired
      ensures Run(old(View()), trace) == Some(View()) && Inv(View())
      ensures |completed| <= |uploads| && (error.None? <==> |completed| == |uploads|)
      ensures ItemsOf(completed, uploads, env, old(|rows|))
      ensures error.Some? ==> UploadFailed(env[|completed|], error.value, recoveryRequired)
      ensures error.None? ==> !recoveryRequired
      ensures GivenUp(completed, error.Some? && !recoveryRequired, discarded)
      ensures !recoveryRequired ==> disk.done == old(disk).done + PublishedOf(completed)
      ensures error.Some? ==>
                (|completed| in discarded && Stranded(rows, old(|rows|) + |PublishedOf(completed)|) <==>
                    LosesUpload(env[|completed|]))
    {
      completed, error, discarded, trace := [], None, {}, [];
      ghost var before := View();
      while |completed| < |uploads|
        invariant |completed| <= |uploads| && error.None?
        invariant pc.Admitted? && Inv(View())
        invariant Run(before, trace) == Some(View())
        invariant GivenUp(completed, false, discarded)
        invariant ItemsOf(completed, uploads, env, |before.rows|)
        invariant disk.done == before.disk.done + PublishedOf(completed)
        invariant |rows| == |before.rows| + |PublishedOf(completed)|
        decreases |uploads| - |completed|
      {
        ghost var more;
        ghost var earlier, next := completed, |rows|;
        completed, error, discarded, more :=
            PublishNext(uploads[|completed|], env[|completed|], completed, discarded, before.disk.done);
        ItemsOfNext(earlier, completed, uploads, env, |before.rows|, next);
        RunAppend(before, trace, more);
        trace := trace + more;
        if error.Some? {
          return;
        }
      }
    }

    method PublishNext(upload: StagedUpload, env: UploadAnswers, earlier: seq<BatchItem>, given: set<nat>,
        ghost base: seq<Applied>)
      returns (completed: seq<BatchItem>, error: Option<MutationError>, discarded: set<nat>, ghost trace: seq<Label>)
      requires pc.Admitted? && Inv(View())
      requires GivenUp(earlier, false, given) && disk.done == base + PublishedOf(earlier)
      modifies this`rows, this`disk, this`pc, this`conflict, this`recoveryRequired
      ensures Run(old(View()), trace) == Some(View()) && Inv(View())
      ensures if error.Some? then completed == earlier && UploadFailed(env, error.value, recoveryRequired)
              else pc.Admitted? && IsNext(earlier, completed, upload, env, old(|rows|))
      ensures error.None? ==> |rows| - old(|rows|) == |PublishedOf(completed)| - |PublishedOf(earlier)|
      ensures GivenUp(completed, error.Some? && !recoveryRequired, discarded)
      ensures !recoveryRequired ==> disk.done == base + PublishedOf(completed)
      ensures error.Some? ==> (|completed| in discarded && Stranded(rows, old(|rows|)) <==> LosesUpload(env))
    {
      var item, givenUp;
      item, givenUp, trace := PublishOne(upload, env);
      discarded := if givenUp then given + {|earlier|} else given;
      GivenUpNext(earlier, given, item, givenUp, discarded);
      if item.Err? {
        return earlier, Some(item.error), discarded, trace;
      }
      PublishedOfAppend(earlier, item.value);
      return earlier + [item.value], None, discarded, trace;
    }
  }

  /** The i-th result: its upload succeeded, and a published one has the row after those published before it. */
  predicate ItemAt(completed: seq<BatchItem>, uploads: seq<StagedUpload>, env: seq<UploadAnswers>, first: nat, i: nat)
    requires i < |completed| <= |uploads| == |env|
  {
    UploadSucceeds(env[i]) && IsItemOf(completed[i], uploads[i], env[i], first + |PublishedOf(completed[..i])|)
  }

  predicate ItemsOf(completed: seq<BatchItem>, uploads: seq<StagedUpload>, env: seq<UploadAnswers>, first: nat)
    requires |completed| <= |uploads| == |env|
  {
    forall i :: 0 <= i < |completed| ==> ItemAt(completed, uploads, env, first, i)
  }

  predicate IsNext(earlier: seq<BatchItem>, completed: seq<BatchItem>, upload: StagedUpload, env: UploadAnswers,
      row: nat)
  {
    && UploadSucceeds(env) && |completed| == |earlier| + 1 && completed[..|earlier|] == earlier
    && IsItemOf(completed[|earlier|], upload, env, row)
  }

  lemma ItemStays(earlier: seq<BatchItem>, completed: seq<BatchItem>, uploads: seq<StagedUpload>,
      env: seq<UploadAnswers>, first: nat, i: nat)
    requires i < |earlier| <= |completed| <= |uploads| == |env| && completed[..|earlier|] == earlier
    requires ItemAt(earlier, uploads, env, first, i)
    ensures ItemAt(completed, uploads, env, first, i)
  {
    assert completed[..i] == earlier[..i] && completed[i] == earlier[i];
  }

  lemma ItemsOfNext(earlier: seq<BatchItem>, completed: seq<BatchItem>, uploads: seq<StagedUpload>,
      env: seq<UploadAnswers>, first: nat, row: nat)
    requires |earlier| < |uploads| == |env| && ItemsOf(earlier, uploads, env, first)
    requires row == first + |PublishedOf(earlier)|
    requires completed == earlier || IsNext(earlier, completed, uploads[|earlier|], env[|earlier|], row)
    ensures ItemsOf(completed, uploads, env, first)
  {
    forall i | 0 <= i < |completed| ensures ItemAt(completed, uploads, env, first, i) {
      if i < |earlier| {
        ItemStays(earlier, completed, uploads, env, first, i);
      }
    }
  }

  /** Staged files given up so far: those of the skipped uploads, and of the next one if it failed. */
  predicate GivenUp(completed: seq<BatchItem>, failed: bool, discarded: set<nat>) {
    && (forall i :: 0 <= i < |completed| ==> (i in discarded <==> completed[i].Skipped?))
    && (forall i :: i in discarded ==> i <= |completed|)
    && (|completed| in discarded <==> failed)
  }

  lemma GivenUpNext(earlier: seq<BatchItem>, given: set<nat>, item: Result<BatchItem, MutationError>, givenUp: bool,
      discarded: set<nat>)
    requires GivenUp(earlier, false, given) && discarded == (if givenUp then given + {|earlier|} else given)
    requires item.Ok? ==> (givenUp <==> item.value.Skipped?)
    ensures item.Err? ==> GivenUp(earlier, givenUp, discarded)
    ensures item.Ok? ==> GivenUp(earlier + [item.value], false, discarded)
  {
  }

  lemma PublishedOfAppend(items: seq<BatchItem>, item: BatchItem)
    ensures PublishedOf(items + [item]) == PublishedOf(items) + PublishedOf([item])
  {
    assert (items + [item])[..|items|] == items;
    assert [item][..0] == [];
  }

  // ----- startup -----

  datatype BootAnswers = BootAnswers(start: Reply, effect: EffectReply, conclude: Reply)

  predicate Favourable(env: BootAnswers) {
    env.start.Seen? && env.effect.Success? && env.conclude.Seen?
  }

  class Startup {
    const codec: Codec
    var rows: seq<Row<Entry>>
    var disk: Disk
    var conflict: bool
    ghost var process: Process

    ghost function View(): World
      reads this
    {
      World(codec, rows, disk, process, conflict)
    }

    /** Decode one unfinished row and bring it to Applying. */
    method LoadEntry(row: nat, reply: Reply) returns (m: Option<SfxMutation>, ghost trace: seq<Label>)
      requires Inv(View()) && process.Starting? && process.boot.NextEntry? && process.queue != [] &&
               process.queue[0] == row
      requires row < |rows|
      modifies this
      ensures Run(old(View()), trace) == Some(View()) && Inv(View()) && |rows| == old(|rows|)
      ensures m.Some? ==> process == Starting(old(process.queue)[1..], Replaying(row, m.value))
      ensures m.None? ==> process.Down?
      ensures reply.Seen? ==> m.Some?
    {
      trace := [BootEntry(reply)];
      RunOne(View(), BootEntry(reply));
      StepKeepsInv(View(), BootEntry(reply));
      assert RowOk(codec, rows[row], disk, row);
      ghost var rest := process.queue[1..];
      // The source refuses a row it cannot decode, or one already rolling back or finished; neither can come up.
      var decoded := codec.decode(rows[row].entry);
      assert decoded.Ok? && (rows[row].state.Planned? || rows[row].state.Applying?);
      m := Some(decoded.value);
      if rows[row].state.Planned? {
        var seen;
        rows, conflict, seen := MoveRow(rows, conflict, row, Planned, Applying, reply);
        if !seen {
          m := None;
        }
      }
      process := if m.Some? then Starting(rest, Replaying(row, m.value)) else Down;
    }

    method ReplayEntry(row: nat, m: SfxMutation, reply: EffectReply)
      returns (effect: EffectReply, ghost trace: seq<Label>)
      requires Inv(View()) && process.Starting? && process.boot == Replaying(row, m)
      modifies this`disk, this`process
      ensures Run(old(View()), trace) == Some(View()) && Inv(View())
      ensures match effect
              case Success => process == Starting(old(process.queue), Replayed(row))
              case CleanFailure => process == Starting(old(process.queue), ReplayDeclined(row))
              case DirtyFailure(_) => process.Down?
      ensures reply.Success? ==> effect.Success?
    {
      effect := Honest(disk, row, reply);
      trace := [Replay(effect)];
      RunOne(View(), Replay(effect));
      StepKeepsInv(View(), Replay(effect));
      ghost var queue := process.queue;
      match effect {
        case Success =>
          disk := Progressed(disk, row, m, Finished);
          process := Starting(queue, Replayed(row));
        case CleanFailure =>
          process := Starting(queue, ReplayDeclined(row));
        case DirtyFailure(progress) =>
          disk := Progressed(disk, row, m, progress);
          process := Down;
      }
    }

    method ConcludeEntry(row: nat, replayed: bool, reply: Reply) returns (seen: bool, ghost trace: seq<Label>)
      requires Inv(View()) && process.Starting? && row < |rows|
      requires process.boot == if replayed then Replayed(row) else ReplayDeclined(row)
      modifies this`rows, this`conflict, this`process
      ensures Run(old(View()), trace) == Some(View()) && Inv(View())
      ensures process == if seen then Starting(old(process.queue), NextEntry) else Down
      ensures |rows| == old(|rows|)
      ensures reply.Seen? ==> seen
    {
      ghost var label_ := if replayed then BootCommit(reply) else BootFail(reply);
      trace := [label_];
      RunOne(View(), label_);
      StepKeepsInv(View(), label_);
      ghost var queue := process.queue;
      rows, conflict, seen := MoveRow(rows, conflict, row, Applying, if replayed then Committed else Failed, reply);
      process := if seen then Starting(queue, NextEntry) else Down;
    }

    /** One unfinished row, from load to conclusion. */
    method RecoverEntry(row: nat, env: BootAnswers) returns (ok: bool, ghost trace: seq<Label>)
      requires Inv(View()) && process.Starting? && process.boot.NextEntry? && process.queue != [] &&
               process.queue[0] == row
      requires row < |rows|
      modifies this
      ensures Run(old(View()), trace) == Some(View()) && Inv(View())
      ensures process == if ok then Starting(old(process.queue)[1..], NextEntry) else Down
      ensures |rows| == old(|rows|)
      ensures Favourable(env) ==> ok
    {
      ghost var before := View();
      var m;
      m, trace := LoadEntry(row, env.start);
      if m.None? {
        return false, trace;
      }
      var effect;
      ghost var more;
      effect, more := ReplayEntry(row, m.value, env.effect);
      RunAppend(before, trace, more);
      trace := trace + more;
      if effect.DirtyFailure? {
        return false, trace;
      }
      ok, more := ConcludeEntry(row, effect.Success?, env.conclude);
      RunAppend(before, trace, more);
      trace := trace + more;
    }

    /** Replay every unfinished row in the order the repository lists them, then clean up. When it returns ok, every
        row is finished and the files are the committed mutations, each exactly once; when the environment cooperates
        it does return ok. */
    method Recover(order: seq<nat>, env: nat -> BootAnswers, cleaned: bool) returns (ok: bool, ghost trace: seq<Label>)
      requires Inv(View()) && process.Down? && Lists(order, rows)
      modifies this
      ensures Run(old(View()), trace) == Some(View()) && Inv(View())
      ensures if ok then process == Up(false, {}, None) else process.Down?
      ensures ok ==> AllFinished(rows) && disk.partial == {} &&
              multiset(disk.done) == multiset(CommittedOf(codec, rows))
      ensures cleaned && (forall i :: Favourable(env(i))) ==> ok
    {
      ghost var before := View();
      ListedOnce(order, rows);
      trace := [Boot(order)];
      RunOne(before, Boot(order));
      StepKeepsInv(before, Boot(order));
      process := Starting(order, NextEntry);
      for i := 0 to |order|
        invariant process == Starting(order[i..], NextEntry) && Inv(View())
        invariant Run(before, trace) == Some(View())
        invariant forall j :: 0 <= j < |order| ==> order[j] < |rows|
      {
        ghost var more;
        ok, more := RecoverEntry(order[i], env(i));
        RunAppend(before, trace, more);
        trace := trace + more;
        if !ok {
          return;
        }
      }
      ok := cleaned;
      ghost var loaded := View();
      RunOne(loaded, BootDone(cleaned));
      BootEndsKeepInv(loaded, BootDone(cleaned));
      RunAppend(before, trace, [BootDone(cleaned)]);
      trace := trace + [BootDone(cleaned)];
      process := if cleaned then Up(false, {}, None) else Down;
      FinishedMeansExactlyCommitted(View());
    }
  }
}
