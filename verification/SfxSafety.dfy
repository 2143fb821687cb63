/** Crash safety of the sound-effect protocol over every run, lost replies included. */
module SfxSafety {
  import opened Common
  import opened Journal
  import opened Recovery
  import opened SfxJournal
  import opened SfxProtocol
  import opened Sorting

  // ----- the invariant -----

  /** A row decodes, and its mutation is on disk as far as its state says. */
  predicate RowOk(codec: Codec, row: Row<Entry>, disk: Disk, r: nat) {
    && codec.decode(row.entry).Ok?
    && match row.state
       case Planned => Absent(disk, r)
       case Applying => true
       case Committed => Done(disk, r) && r !in disk.partial
       case Failed => Absent(disk, r)
       case _ => false
  }

  /** What is on disk: mutations of rows, each at most once, complete or half done. */
  predicate DiskOk(codec: Codec, rows: seq<Row<Entry>>, disk: Disk) {
    && (forall i, j :: 0 <= i < j < |disk.done| ==> disk.done[i].row != disk.done[j].row)
    && (forall i :: 0 <= i < |disk.done| ==> AppliedOk(codec, rows, disk, disk.done[i]))
    && (forall r :: r in disk.partial ==> r < |rows|)
  }

  predicate AppliedOk(codec: Codec, rows: seq<Row<Entry>>, disk: Disk, a: Applied) {
    a.row < |rows| && a.row !in disk.partial && codec.decode(rows[a.row].entry) == Ok(a.mutation)
  }

  predicate Sound(codec: Codec, rows: seq<Row<Entry>>, disk: Disk) {
    DiskOk(codec, rows, disk) && forall r: nat :: r < |rows| ==> RowOk(codec, rows[r], disk, r)
  }

  predicate RowIs(codec: Codec, rows: seq<Row<Entry>>, row: nat, state: RecoveryState, m: SfxMutation) {
    row < |rows| && rows[row].state == state && codec.decode(rows[row].entry) == Ok(m)
  }

  predicate PcOk(codec: Codec, rows: seq<Row<Entry>>, disk: Disk, required: bool, pc: Pc) {
    match pc
    case Rechecking => true
    case Leaving => true
    case Admitted => !required
    case Recorded(row, m) => !required && RowIs(codec, rows, row, Planned, m)
    case Journalled(row, m) => !required && RowIs(codec, rows, row, Applying, m) && Absent(disk, row)
    case Performed(row) => !required && row < |rows| && rows[row].state.Applying? && Done(disk, row)
    case Declined(row) => !required && row < |rows| && rows[row].state.Applying? && Absent(disk, row)
  }

  predicate InHand(pc: Pc, r: nat) {
    (pc.Recorded? || pc.Journalled? || pc.Performed? || pc.Declined?) && pc.row == r
  }

  /** Unless recovery is required, the only rows not yet finished are the one in hand and ones nobody has begun. */
  predicate OthersNotBegun(rows: seq<Row<Entry>>, holder: Option<Holder>) {
    forall r: nat :: r < |rows| && rows[r].state.Applying? ==> holder.Some? && InHand(holder.value.pc, r)
  }

  predicate BootRow(boot: BootPc, r: nat) {
    !boot.NextEntry? && boot.row == r
  }

  /** The rows still to deal with are the unfinished ones, each once. */
  predicate QueueOk(rows: seq<Row<Entry>>, queue: seq<nat>, boot: BootPc) {
    && Distinct(queue)
    && (forall i :: 0 <= i < |queue| ==> queue[i] < |rows| && IsUnfinished(rows[queue[i]]) && !BootRow(boot, queue[i]))
    && forall r: nat :: r < |rows| && IsUnfinished(rows[r]) ==> r in queue || BootRow(boot, r)
  }

  predicate BootOk(codec: Codec, rows: seq<Row<Entry>>, disk: Disk, boot: BootPc) {
    match boot
    case NextEntry => true
    case Replaying(row, m) => RowIs(codec, rows, row, Applying, m)
    case Replayed(row) => row < |rows| && rows[row].state.Applying? && Done(disk, row)
    case ReplayDeclined(row) => row < |rows| && rows[row].state.Applying? && Absent(disk, row)
  }

  predicate ProcessOk(codec: Codec, rows: seq<Row<Entry>>, disk: Disk, process: Process) {
    match process
    case Down => true
    case Starting(queue, boot) => QueueOk(rows, queue, boot) && BootOk(codec, rows, disk, boot)
    case Up(required, _, holder) =>
      && (!required ==> OthersNotBegun(rows, holder))
      && (holder.Some? ==> PcOk(codec, rows, disk, required, holder.value.pc))
  }

  ghost predicate Inv(w: World) {
    Faithful(w.codec) && !w.conflict && Sound(w.codec, w.rows, w.disk) && ProcessOk(w.codec, w.rows, w.disk, w.process)
  }

  // ----- single changes -----

  lemma SoundAppend(codec: Codec, rows: seq<Row<Entry>>, disk: Disk, m: SfxMutation)
    requires Sound(codec, rows, disk) && codec.decode(codec.encode(m)) == Ok(m)
    ensures Sound(codec, rows + [Row(codec.encode(m), Planned)], disk)
  {
    var after := rows + [Row(codec.encode(m), Planned)];
    forall i | 0 <= i < |disk.done| ensures AppliedOk(codec, after, disk, disk.done[i]) {
      assert AppliedOk(codec, rows, disk, disk.done[i]);
    }
    forall r: nat | r < |after| ensures RowOk(codec, after[r], disk, r) {
      if r < |rows| {
        assert RowOk(codec, rows[r], disk, r);
      }
    }
  }

  lemma SoundState(codec: Codec, rows: seq<Row<Entry>>, disk: Disk, row: nat, state: RecoveryState)
    requires Sound(codec, rows, disk) && row < |rows| && RowOk(codec, rows[row].(state := state), disk, row)
    ensures Sound(codec, SetState(rows, row, state), disk)
  {
    var after := SetState(rows, row, state);
    forall i | 0 <= i < |disk.done| ensures AppliedOk(codec, after, disk, disk.done[i]) {
      assert AppliedOk(codec, rows, disk, disk.done[i]);
    }
    forall r: nat | r < |after| ensures RowOk(codec, after[r], disk, r) {
      assert RowOk(codec, rows[r], disk, r);
    }
  }

  /** Whatever part of a mutation is on disk, progress adds to that row only, and completing it completes it once. */
  lemma ProgressIsReplayable(disk: Disk, row: nat, m: SfxMutation, progress: Progress)
    ensures var after := Progressed(disk, row, m, progress);
            && (forall r: nat :: r != row ==>
               (Done(after, r) <==> Done(disk, r)) && (r in after.partial <==> r in disk.partial))
            && (Done(disk, row) ==> after == disk)
            && (progress.Finished? ==> Done(after, row))
            && (progress.Finished? && !Done(disk, row) ==>
               after == Disk(disk.done + [Applied(row, m)], disk.partial - {row}))
  {
    var after := Progressed(disk, row, m, progress);
    if after.done != disk.done {
      assert after.done[|disk.done|].row == row;
      forall r: nat | r != row ensures Done(after, r) <==> Done(disk, r) {
        if i :| 0 <= i < |disk.done| && disk.done[i].row == r {
          assert after.done[i].row == r;
        }
      }
    }
  }

  lemma SoundProgress(codec: Codec, rows: seq<Row<Entry>>, disk: Disk, row: nat, m: SfxMutation, progress: Progress)
    requires Sound(codec, rows, disk) && RowIs(codec, rows, row, Applying, m)
    ensures Sound(codec, rows, Progressed(disk, row, m, progress))
  {
    var after := Progressed(disk, row, m, progress);
    ProgressIsReplayable(disk, row, m, progress);
    forall i | 0 <= i < |after.done| ensures AppliedOk(codec, rows, after, after.done[i]) {
      if i < |disk.done| {
        assert AppliedOk(codec, rows, disk, disk.done[i]);
        assert after != disk ==> !Done(disk, row);
      }
    }
    forall i, j | 0 <= i < j < |after.done| ensures after.done[i].row != after.done[j].row {
      assert i < |disk.done| && after.done[i] == disk.done[i];
      assert after.done != disk.done ==> !Done(disk, row);
    }
    forall r: nat | r < |rows| ensures RowOk(codec, rows[r], after, r) {
      assert RowOk(codec, rows[r], disk, r);
    }
  }

  /** A compare-and-set from the state the row is in. */
  lemma SoundMove(w: World, row: nat, expected: RecoveryState, next: RecoveryState, reply: Reply)
    requires !w.conflict && Sound(w.codec, w.rows, w.disk) && row < |w.rows| && expected.Allows(next)
    requires w.rows[row].state == expected && RowOk(w.codec, w.rows[row].(state := next), w.disk, row)
    ensures var (t, seen) := Move(w, row, expected, next, reply);
            && t == w.(rows := if reply.Refused? then w.rows else SetState(w.rows, row, next))
            && Sound(t.codec, t.rows, t.disk) && seen == reply.Seen?
  {
    SoundState(w.codec, w.rows, w.disk, row, next);
  }

  // ----- steps -----

  lemma AdmissionKeepsInv(w: World, l: Label)
    requires Inv(w) && Enabled(w, l) && (l.Arrive? || l.Lock? || l.Recheck? || l.Leave?)
    ensures Inv(StepAdmission(w, l))
  {
  }

  lemma CreateKeepsInv(w: World, m: SfxMutation, reply: Reply)
    requires Inv(w) && Enabled(w, CreateRow(m, reply))
    ensures Inv(StepMutation(w, CreateRow(m, reply)))
  {
    SoundAppend(w.codec, w.rows, w.disk, m);
  }

  lemma StartKeepsInv(w: World, reply: Reply)
    requires Inv(w) && Enabled(w, StartApplying(reply))
    ensures Inv(StepMutation(w, StartApplying(reply)))
  {
    SoundMove(w, PcOf(w).row, Planned, Applying, reply);
  }

  lemma ApplyKeepsInv(w: World, effect: EffectReply)
    requires Inv(w) && Enabled(w, ApplyEffect(effect))
    ensures Inv(StepMutation(w, ApplyEffect(effect)))
  {
    var progress := if effect.DirtyFailure? then effect.progress else Finished;
    SoundProgress(w.codec, w.rows, w.disk, PcOf(w).row, PcOf(w).mutation, progress);
    ProgressIsReplayable(w.disk, PcOf(w).row, PcOf(w).mutation, progress);
  }

  lemma DoneIsNotPartial(codec: Codec, rows: seq<Row<Entry>>, disk: Disk, row: nat)
    requires Sound(codec, rows, disk) && Done(disk, row)
    ensures row !in disk.partial
  {
    var i :| 0 <= i < |disk.done| && disk.done[i].row == row;
    assert AppliedOk(codec, rows, disk, disk.done[i]);
  }

  lemma CommitKeepsInv(w: World, reply: Reply)
    requires Inv(w) && Enabled(w, Commit(reply))
    ensures Inv(StepMutation(w, Commit(reply)))
  {
    var row := PcOf(w).row;
    DoneIsNotPartial(w.codec, w.rows, w.disk, row);
    assert RowOk(w.codec, w.rows[row], w.disk, row);
    SoundMove(w, row, Applying, Committed, reply);
  }

  lemma MarkFailedKeepsInv(w: World, reply: Reply)
    requires Inv(w) && Enabled(w, MarkFailed(reply))
    ensures Inv(StepMutation(w, MarkFailed(reply)))
  {
    var row := PcOf(w).row;
    assert RowOk(w.codec, w.rows[row], w.disk, row);
    SoundMove(w, row, Applying, Failed, reply);
  }

  lemma CrashKeepsInv(w: World, l: Label)
    requires Inv(w) && Enabled(w, l) && (l.Crash? || l.CrashWhileApplying?)
    ensures Inv(StepCrash(w, l))
  {
    if l.CrashWhileApplying? {
      var row, m := if w.process.Up? then PcOf(w).row else w.process.boot.row,
                    if w.process.Up? then PcOf(w).mutation else w.process.boot.mutation;
      SoundProgress(w.codec, w.rows, w.disk, row, m, l.progress);
    }
  }

  /** Whatever order the repository lists them in, the unfinished rows are each listed once. */
  lemma ListedOnce(order: seq<nat>, rows: seq<Row<Entry>>)
    requires Lists(order, rows)
    ensures QueueOk(rows, order, NextEntry)
  {
    var unfinished := Unfinished(rows);
    forall r ensures r in order <==> r in unfinished {
      assert r in multiset(order) <==> r in multiset(unfinished);
    }
    RearrangedDistinct(unfinished, order);
    assert forall i :: 0 <= i < |order| ==> order[i] in order;
  }

  lemma BootEntryKeepsInv(w: World, reply: Reply)
    requires Inv(w) && Enabled(w, BootEntry(reply))
    ensures Inv(StepBoot(w, BootEntry(reply)))
  {
    var row := w.process.queue[0];
    assert RowOk(w.codec, w.rows[row], w.disk, row);
    if w.rows[row].state.Planned? {
      SoundMove(w, row, Planned, Applying, reply);
    }
  }

  lemma ReplayKeepsInv(w: World, effect: EffectReply)
    requires Inv(w) && Enabled(w, Replay(effect))
    ensures Inv(StepBoot(w, Replay(effect)))
  {
    var progress := if effect.DirtyFailure? then effect.progress else Finished;
    SoundProgress(w.codec, w.rows, w.disk, w.process.boot.row, w.process.boot.mutation, progress);
    ProgressIsReplayable(w.disk, w.process.boot.row, w.process.boot.mutation, progress);
  }

  lemma BootConcludesKeepsInv(w: World, l: Label)
    requires Inv(w) && Enabled(w, l) && (l.BootCommit? || l.BootFail?)
    ensures Inv(StepBoot(w, l))
  {
    var row := w.process.boot.row;
    assert RowOk(w.codec, w.rows[row], w.disk, row);
    if l.BootCommit? {
      DoneIsNotPartial(w.codec, w.rows, w.disk, row);
      SoundMove(w, row, Applying, Committed, l.reply);
    } else {
      SoundMove(w, row, Applying, Failed, l.reply);
    }
  }

  /** Once startup succeeds, every row is finished. */
  lemma BootEndsKeepInv(w: World, l: Label)
    requires Inv(w) && Enabled(w, l) && (l.Boot? || l.BootDone?)
    ensures Inv(StepBoot(w, l)) && (l.BootDone? ==> AllFinished(w.rows))
  {
    if l.Boot? {
      ListedOnce(l.order, w.rows);
    }
  }

  /** Every step of any task, every crash and every step of a restart keeps the invariant. */
  lemma StepKeepsInv(w: World, l: Label)
    requires Inv(w) && Enabled(w, l)
    ensures Inv(Step(w, l))
  {
    match l
    case Arrive(_) => AdmissionKeepsInv(w, l);
    case Lock(_) => AdmissionKeepsInv(w, l);
    case Recheck => AdmissionKeepsInv(w, l);
    case Leave => AdmissionKeepsInv(w, l);
    case CreateRow(m, reply) => CreateKeepsInv(w, m, reply);
    case StartApplying(reply) => StartKeepsInv(w, reply);
    case ApplyEffect(effect) => ApplyKeepsInv(w, effect);
    case Commit(reply) => CommitKeepsInv(w, reply);
    case MarkFailed(reply) => MarkFailedKeepsInv(w, reply);
    case RejectOutcome =>
    case Crash => CrashKeepsInv(w, l);
    case CrashWhileApplying(_) => CrashKeepsInv(w, l);
    case BootEntry(reply) => BootEntryKeepsInv(w, reply);
    case Replay(effect) => ReplayKeepsInv(w, effect);
    case BootCommit(_) => BootConcludesKeepsInv(w, l);
    case BootFail(_) => BootConcludesKeepsInv(w, l);
    case _ => BootEndsKeepInv(w, l);
  }

  lemma FreshIsInv()
    ensures Inv(FRESH)
  {
    SfxCodecIsFaithful();
  }

  lemma {:induction false} RunsKeepInv(w: World, labels: seq<Label>)
    requires Inv(w) && Run(w, labels).Some?
    ensures Inv(Run(w, labels).value)
    decreases labels
  {
    if labels != [] {
      StepKeepsInv(w, labels[0]);
      RunsKeepInv(Step(w, labels[0]), labels[1..]);
    }
  }

  lemma {:induction false} RunAppend(w: World, a: seq<Label>, b: seq<Label>)
    ensures Run(w, a + b) == if Run(w, a).Some? then Run(Run(w, a).value, b) else None
    decreases |a|
  {
    if a == [] {
      assert a + b == b;
    } else {
      assert (a + b)[1..] == a[1..] + b && (a + b)[0] == a[0];
      if Enabled(w, a[0]) {
        RunAppend(Step(w, a[0]), a[1..], b);
      }
    }
  }

  lemma RunOne(w: World, l: Label)
    requires Enabled(w, l)
    ensures Run(w, [l]) == Some(Step(w, l))
  {
    assert [l][1..] == [];
  }

  // ----- committed mutations are on disk, each once -----

  /** The mutations of the committed rows, in row order. */
  function CommittedOf(codec: Codec, rows: seq<Row<Entry>>): (done: seq<Applied>)
    ensures forall a :: a in done <==>
            a.row < |rows| && rows[a.row].state.Committed? && codec.decode(rows[a.row].entry) == Ok(a.mutation)
    ensures InOrder(done)
  {
    if rows == [] then []
    else
      var last := |rows| - 1;
      var before, decoded := CommittedOf(codec, rows[..last]), codec.decode(rows[last].entry);
      assert forall i :: 0 <= i < |before| ==> before[i] in before;
      if rows[last].state.Committed? && decoded.Ok? then before + [Applied(last, decoded.value)] else before
  }

  predicate InOrder(done: seq<Applied>) {
    forall i, j :: 0 <= i < j < |done| ==> done[i].row < done[j].row
  }

  /** At every moment of every run, a committed mutation is on disk once, whole, and as it was recorded. */
  lemma CommittedOnDiskOnce(w: World, r: nat) returns (i: nat)
    requires Inv(w) && r < |w.rows| && w.rows[r].state.Committed?
    ensures i < |w.disk.done| && w.disk.done[i].row == r && Decoded(w, r) == Ok(w.disk.done[i].mutation)
    ensures forall j :: 0 <= j < |w.disk.done| && w.disk.done[j].row == r ==> j == i
    ensures r !in w.disk.partial
  {
    assert RowOk(w.codec, w.rows[r], w.disk, r);
    i :| 0 <= i < |w.disk.done| && w.disk.done[i].row == r;
    assert AppliedOk(w.codec, w.rows, w.disk, w.disk.done[i]);
    forall j | 0 <= j < |w.disk.done| && w.disk.done[j].row == r ensures j == i {
      assert !(i < j) && !(j < i);
    }
  }

  lemma DoneIsCommitted(w: World, a: Applied)
    requires Inv(w) && AllFinished(w.rows)
    ensures a in w.disk.done <==> a in CommittedOf(w.codec, w.rows)
  {
    if a in w.disk.done {
      assert AppliedOk(w.codec, w.rows, w.disk, a) && Done(w.disk, a.row);
      assert RowOk(w.codec, w.rows[a.row], w.disk, a.row);
    }
    if a in CommittedOf(w.codec, w.rows) {
      var i := CommittedOnDiskOnce(w, a.row);
      assert w.disk.done[i] == a;
    }
  }

  function ByRow(): (Applied, Applied) -> bool {
    (a: Applied, b: Applied) => a.row < b.row
  }

  /** When every row is finished, the files are the committed mutations, each once and none half done; they are in row
      order exactly when they were applied in row order. */
  lemma FinishedMeansExactlyCommitted(w: World)
    requires Inv(w) && AllFinished(w.rows)
    ensures w.disk.partial == {} && multiset(w.disk.done) == multiset(CommittedOf(w.codec, w.rows))
    ensures w.disk.done == CommittedOf(w.codec, w.rows) <==> InOrder(w.disk.done)
  {
    forall r: nat | r < |w.rows| ensures r !in w.disk.partial {
      assert RowOk(w.codec, w.rows[r], w.disk, r);
    }
    forall a ensures a in w.disk.done <==> a in CommittedOf(w.codec, w.rows) {
      DoneIsCommitted(w, a);
    }
    SameElements(w.disk.done, CommittedOf(w.codec, w.rows));
    if InOrder(w.disk.done) {
      OrderedUnique(w.disk.done, CommittedOf(w.codec, w.rows), ByRow());
    }
  }

  lemma {:induction false} EndsWithBootDone(w: World, labels: seq<Label>)
    requires Inv(w) && Run(w, labels).Some? && labels != [] && labels[|labels| - 1] == BootDone(true)
    ensures Run(w, labels).value.process == Up(false, {}, None) && AllFinished(Run(w, labels).value.rows)
    decreases labels
  {
    StepKeepsInv(w, labels[0]);
    if |labels| > 1 {
      EndsWithBootDone(Step(w, labels[0]), labels[1..]);
    } else {
      assert labels[1..] == [];
      BootEndsKeepInv(w, labels[0]);
    }
  }

  /** In every run from a fresh installation, whatever replies are lost and wherever it crashes: no transition ever
      conflicts, and once startup succeeds every journal is finished and the files are the committed mutations, each
      exactly once. */
  lemma FilesAreTheCommittedMutations(labels: seq<Label>)
    requires Run(FRESH, labels).Some?
    ensures var w := Run(FRESH, labels).value;
            && !w.conflict
            && (labels != [] && labels[|labels| - 1] == BootDone(true) ==>
                  && AllFinished(w.rows) && w.disk.partial == {}
                  && multiset(w.disk.done) == multiset(CommittedOf(w.codec, w.rows)))
  {
    FreshIsInv();
    RunsKeepInv(FRESH, labels);
    if labels != [] && labels[|labels| - 1] == BootDone(true) {
      EndsWithBootDone(FRESH, labels);
      FinishedMeansExactlyCommitted(Run(FRESH, labels).value);
    }
  }

  // ----- the journal's promise -----

  /** What an observer of the journal is promised: one unfinished row at most, none while the gate is free and no
      recovery is required, and no conflict. */
  predicate Observed(w: World) {
    && |Unfinished(w.rows)| <= 1
    && (w.process.Up? && w.process.holder.None? && !w.process.recoveryRequired ==> Unfinished(w.rows) == [])
    && !w.conflict
  }

  predicate OnlyLastUnfinished(rows: seq<Row<Entry>>) {
    forall r: nat :: r + 1 < |rows| ==> !IsUnfinished(rows[r])
  }

  /** Only the newest row may be unfinished, and the files are in row order. */
  ghost predicate Calm(w: World) {
    Inv(w) && OnlyLastUnfinished(w.rows) && InOrder(w.disk.done)
  }

  /** Unless recovery is required, the only unfinished row of a running coordinator is the one in hand. */
  predicate NoStrays(w: World) {
    w.process.Up? && !w.process.recoveryRequired ==>
      forall r: nat :: r < |w.rows| && IsUnfinished(w.rows[r]) ==>
          w.process.holder.Some? && InHand(w.process.holder.value.pc, r)
  }

  predicate LosesCreation(l: Label) {
    l.CreateRow? && l.reply.Lost?
  }

  predicate RecordsRow(l: Label) {
    l.CreateRow? && !l.reply.Refused?
  }

  lemma ProgressInOrder(w: World, row: nat, m: SfxMutation, progress: Progress)
    requires Inv(w) && InOrder(w.disk.done) && row + 1 == |w.rows|
    ensures InOrder(Progressed(w.disk, row, m, progress).done)
  {
    if !Done(w.disk, row) {
      forall i | 0 <= i < |w.disk.done| ensures w.disk.done[i].row < row {
        assert AppliedOk(w.codec, w.rows, w.disk, w.disk.done[i]);
        assert w.disk.done[i].row != row;
      }
    }
  }

  lemma UnfinishedIsLast(w: World, row: nat)
    requires OnlyLastUnfinished(w.rows) && row < |w.rows| && IsUnfinished(w.rows[row])
    ensures row + 1 == |w.rows|
  {
  }

  lemma CalmMutation(w: World, l: Label)
    requires Calm(w) && Enabled(w, l) &&
             (l.StartApplying? || l.ApplyEffect? || l.Commit? || l.MarkFailed? || l.RejectOutcome?)
    ensures Calm(StepMutation(w, l))
  {
    StepKeepsInv(w, l);
    if l.ApplyEffect? {
      var progress := if l.effect.DirtyFailure? then l.effect.progress else Finished;
      UnfinishedIsLast(w, PcOf(w).row);
      ProgressInOrder(w, PcOf(w).row, PcOf(w).mutation, progress);
    }
  }

  lemma CalmCrash(w: World, l: Label)
    requires Calm(w) && Enabled(w, l) && (l.Crash? || l.CrashWhileApplying?)
    ensures Calm(StepCrash(w, l))
  {
    StepKeepsInv(w, l);
    if l.CrashWhileApplying? {
      var row, m := if w.process.Up? then PcOf(w).row else w.process.boot.row,
                    if w.process.Up? then PcOf(w).mutation else w.process.boot.mutation;
      UnfinishedIsLast(w, row);
      ProgressInOrder(w, row, m, l.progress);
    }
  }

  lemma CalmBoot(w: World, l: Label)
    requires Calm(w) && Enabled(w, l) &&
             (l.Boot? || l.BootEntry? || l.Replay? || l.BootCommit? || l.BootFail? || l.BootDone?)
    ensures Calm(StepBoot(w, l))
  {
    StepKeepsInv(w, l);
    if l.Replay? {
      var progress := if l.effect.DirtyFailure? then l.effect.progress else Finished;
      UnfinishedIsLast(w, w.process.boot.row);
      ProgressInOrder(w, w.process.boot.row, w.process.boot.mutation, progress);
    }
  }

  /** As long as no row is recorded while another is unfinished, the files stay in row order. */
  lemma StepKeepsCalm(w: World, l: Label)
    requires Calm(w) && Enabled(w, l) && (RecordsRow(l) ==> AllFinished(w.rows))
    ensures Calm(Step(w, l))
  {
    match l
    case Arrive(_) => StepKeepsInv(w, l);
    case Lock(_) => StepKeepsInv(w, l);
    case Recheck => StepKeepsInv(w, l);
    case Leave => StepKeepsInv(w, l);
    case CreateRow(_, _) => StepKeepsInv(w, l);
    case StartApplying(_) => CalmMutation(w, l);
    case ApplyEffect(_) => CalmMutation(w, l);
    case Commit(_) => CalmMutation(w, l);
    case MarkFailed(_) => CalmMutation(w, l);
    case RejectOutcome => CalmMutation(w, l);
    case Crash => CalmCrash(w, l);
    case CrashWhileApplying(_) => CalmCrash(w, l);
    case _ => CalmBoot(w, l);
  }
}
