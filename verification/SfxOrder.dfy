/** Exactly when the sound-effect journal keeps its promises, and in which order restart leaves the files. */
module SfxOrder {
  import opened Common
  import opened Journal
  import opened Recovery
  import opened SfxJournal
  import opened SfxProtocol
  import opened SfxSafety

  // ----- restart -----

  const REPLAY: seq<Label> := [BootEntry(Seen)] + ([Replay(Success)] + [BootCommit(Seen)])

  function Replays(order: seq<nat>): seq<Label> {
    if order == [] then [] else REPLAY + Replays(order[1..])
  }

  function Restart(order: seq<nat>): seq<Label> {
    [Boot(order)] + (Replays(order) + [BootDone(true)])
  }

  lemma EntryLoads(w: World)
    requires Inv(w) && w.process.Starting? && w.process.boot.NextEntry? && w.process.queue != []
    ensures Enabled(w, BootEntry(Seen))
    ensures var row := w.process.queue[0];
            row < |w.rows| && Decoded(w, row).Ok?
            && Step(w, BootEntry(Seen)) ==
               w.(rows := SetState(w.rows, row, Applying),
                   process := Starting(w.process.queue[1..], Replaying(row, Decoded(w, row).value)))
  {
    var row := w.process.queue[0];
    assert RowOk(w.codec, w.rows[row], w.disk, row);
    if w.rows[row].state.Applying? {
      assert SetState(w.rows, row, Applying) == w.rows;
    }
  }

  /** One entry, from load to commit, when journal and files answer. */
  lemma OneReplay(w: World)
    requires Inv(w) && w.process.Starting? && w.process.boot.NextEntry? && w.process.queue != []
    ensures var row := w.process.queue[0];
            row < |w.rows| && Decoded(w, row).Ok?
            && Run(w, REPLAY) ==
               Some(w.(rows := SetState(w.rows, row, Committed),
                   disk := Progressed(w.disk, row, Decoded(w, row).value, Finished),
                       process := Starting(w.process.queue[1..], NextEntry)))
  {
    EntryLoads(w);
    var row, m := w.process.queue[0], Decoded(w, w.process.queue[0]).value;
    var loaded := Step(w, BootEntry(Seen));
    var replayed := Step(loaded, Replay(Success));
    assert replayed.rows[row].state.Applying?;
    var committed := Step(replayed, BootCommit(Seen));
    assert SetState(SetState(w.rows, row, Applying), row, Committed) == SetState(w.rows, row, Committed);
    assert committed == w.(rows := SetState(w.rows, row, Committed), disk := Progressed(w.disk, row, m, Finished),
                           process := Starting(w.process.queue[1..], NextEntry));
    RunOne(w, BootEntry(Seen));
    RunOne(loaded, Replay(Success));
    RunOne(replayed, BootCommit(Seen));
    RunAppend(loaded, [Replay(Success)], [BootCommit(Seen)]);
    RunAppend(w, [BootEntry(Seen)], [Replay(Success)] + [BootCommit(Seen)]);
  }

  /** Rows in `order` committed, every other as it was. */
  predicate RolledForward(before: seq<Row<Entry>>, order: seq<nat>, after: seq<Row<Entry>>) {
    |after| == |before| &&
        forall r :: 0 <= r < |before| ==> after[r] == if r in order then before[r].(state := Committed) else before[r]
  }

  /** What was done stays, everything in `order` is done, and the first in `order` came next if it was not done
      before. */
  predicate CarriedForward(before: Disk, order: seq<nat>, after: Disk) {
    && before.done <= after.done
    && (forall r :: r in order ==> Done(after, r))
    && (order != [] && !Done(before, order[0]) ==>
       |before.done| < |after.done| && after.done[|before.done|].row == order[0])
  }

  lemma {:induction false} ReplaysFinish(w: World)
    requires Inv(w) && w.process.Starting? && w.process.boot.NextEntry?
    ensures var t := Run(w, Replays(w.process.queue));
            && t.Some? && Inv(t.value) && t.value.codec == w.codec && t.value.process == Starting([], NextEntry)
            && RolledForward(w.rows, w.process.queue, t.value.rows) &&
               CarriedForward(w.disk, w.process.queue, t.value.disk)
    decreases |w.process.queue|
  {
    var queue := w.process.queue;
    if queue != [] {
      OneReplay(w);
      var next := Run(w, REPLAY).value;
      RunsKeepInv(w, REPLAY);
      ReplaysFinish(next);
      RunAppend(w, REPLAY, Replays(queue[1..]));
      var t := Run(next, Replays(queue[1..])).value;
      ProgressIsReplayable(w.disk, queue[0], Decoded(w, queue[0]).value, Finished);
      ReplayedOn(w.disk, next.disk, t.disk, queue);
    }
  }

  lemma ReplayedOn(before: Disk, next: Disk, after: Disk, order: seq<nat>)
    requires order != [] && CarriedForward(next, order[1..], after) && before.done <= next.done && Done(next, order[0])
    requires !Done(before, order[0]) ==> |before.done| < |next.done| && next.done[|before.done|].row == order[0]
    ensures CarriedForward(before, order, after)
  {
    var i :| 0 <= i < |next.done| && next.done[i].row == order[0];
    assert after.done[i] == next.done[i];
    forall r | r in order ensures Done(after, r) {
      assert r == order[0] || r in order[1..];
    }
  }

  /** From any crash, an undisturbed restart carries every unfinished mutation forward, each exactly once, whatever the
      order the repository lists them in, and serves. */
  lemma RestartRollsForward(w: World, order: seq<nat>)
    requires Inv(w) && w.process.Down? && Lists(order, w.rows)
    ensures var t := Run(w, Restart(order));
            && t.Some? && Inv(t.value) && t.value.codec == w.codec && t.value.process == Up(false, {}, None)
            && AllFinished(t.value.rows) && RolledForward(w.rows, order, t.value.rows) &&
               CarriedForward(w.disk, order, t.value.disk)
  {
    var loaded := Step(w, Boot(order));
    StepKeepsInv(w, Boot(order));
    ReplaysFinish(loaded);
    var ready := Run(loaded, Replays(order)).value;
    BootEndsKeepInv(ready, BootDone(true));
    RunOne(w, Boot(order));
    RunOne(ready, BootDone(true));
    RunAppend(loaded, Replays(order), [BootDone(true)]);
    RunAppend(w, [Boot(order)], Replays(order) + [BootDone(true)]);
  }

  lemma CrashThenRestart(w: World, order: seq<nat>)
    ensures Run(w, [Crash] + Restart(order)) == Run(w.(process := Down), Restart(order))
  {
    RunOne(w, Crash);
    RunAppend(w, [Crash], Restart(order));
  }

  // ----- the promise to observers -----

  lemma StepKeepsNoStrays(w: World, l: Label)
    requires Inv(w) && NoStrays(w) && Enabled(w, l) && !LosesCreation(l)
    ensures NoStrays(Step(w, l)) && (RecordsRow(l) ==> AllFinished(w.rows))
  {
    if l.BootDone? {
      BootEndsKeepInv(w, l);
    }
  }

  ghost predicate Kept(w: World) {
    Calm(w) && NoStrays(w)
  }

  lemma TwoUnfinished(rows: seq<Row<Entry>>)
    requires |Unfinished(rows)| > 1
    ensures !OnlyLastUnfinished(rows)
  {
    var r, s := Unfinished(rows)[0], Unfinished(rows)[1];
    assert r in Unfinished(rows) && s in Unfinished(rows) && r < s;
  }

  lemma KeptIsObserved(w: World)
    requires Kept(w)
    ensures Observed(w)
  {
    if |Unfinished(w.rows)| > 1 {
      TwoUnfinished(w.rows);
    }
    NoneUnfinished(w.rows);
  }

  predicate NoLostCreation(labels: seq<Label>) {
    forall i :: 0 <= i < |labels| ==> !LosesCreation(labels[i])
  }

  lemma {:induction false} RunsKeepPromise(w: World, labels: seq<Label>)
    requires Kept(w) && Run(w, labels).Some? && NoLostCreation(labels)
    ensures Kept(Run(w, labels).value)
    decreases labels
  {
    if labels != [] {
      StepKeepsNoStrays(w, labels[0]);
      StepKeepsCalm(w, labels[0]);
      RunsKeepPromise(Step(w, labels[0]), labels[1..]);
    }
  }

  lemma Loses(w: World, m: SfxMutation)
    requires Enabled(w, CreateRow(m, Lost))
    ensures Run(w, [CreateRow(m, Lost)] + [Leave]) ==
            Some(w.(rows := w.rows + [Row(w.codec.encode(m), Planned)], process := w.process.(holder := None)))
  {
    var lost := Step(w, CreateRow(m, Lost));
    RunOne(w, CreateRow(m, Lost));
    RunOne(lost, Leave);
    RunAppend(w, [CreateRow(m, Lost)], [Leave]);
  }

  /** Losing the reply to a creation breaks the promise as soon as the caller leaves: the gate is free, no recovery is
      required, and a row is unfinished. */
  lemma LostCreationEscapes(w: World, m: SfxMutation)
    requires Inv(w) && Enabled(w, CreateRow(m, Lost))
    ensures Run(w, [CreateRow(m, Lost)] + [Leave]).Some?
    ensures !Observed(Run(w, [CreateRow(m, Lost)] + [Leave]).value)
  {
    Loses(w, m);
    assert |w.rows| in Unfinished(w.rows + [Row(w.codec.encode(m), Planned)]);
  }

  /** Exactly: a creation keeps the promise unless its reply is lost. */
  lemma CreationSafeExactly(w: World, m: SfxMutation, reply: Reply)
    requires Kept(w) && Enabled(w, CreateRow(m, reply))
    ensures Kept(Step(w, CreateRow(m, reply))) <==> !reply.Lost?
  {
    if reply.Lost? {
      assert IsUnfinished(Step(w, CreateRow(m, reply)).rows[|w.rows|]);
    } else {
      StepKeepsNoStrays(w, CreateRow(m, reply));
      StepKeepsCalm(w, CreateRow(m, reply));
    }
  }

  lemma Prefix(w: World, labels: seq<Label>, k: nat)
    requires k <= |labels| && Run(w, labels).Some?
    ensures Run(w, labels[..k]).Some? && Run(w, labels) == Run(Run(w, labels[..k]).value, labels[k..])
  {
    assert labels == labels[..k] + labels[k..];
    RunAppend(w, labels[..k], labels[k..]);
  }

  lemma RunExtends(w: World, labels: seq<Label>, k: nat, more: seq<Label>)
    requires k < |labels| && Run(w, labels).Some?
    ensures Run(w, labels[..k]).Some? && Enabled(Run(w, labels[..k]).value, labels[k])
    ensures Run(w, labels[..k + 1] + more) == Run(Step(Run(w, labels[..k]).value, labels[k]), more)
  {
    Prefix(w, labels, k);
    var v := Run(w, labels[..k]).value;
    assert labels[k..][0] == labels[k];
    assert labels[..k + 1] + more == labels[..k] + ([labels[k]] + more);
    RunAppend(w, labels[..k], [labels[k]] + more);
    assert ([labels[k]] + more)[1..] == more;
  }

  /** After the first k steps the promise holds, and goes on holding as long as no creation is lost. */
  ghost predicate PromisedAfter(labels: seq<Label>, k: nat)
    requires k <= |labels|
  {
    forall more :: NoLostCreation(more) && Run(FRESH, labels[..k] + more).Some? ==>
        Observed(Run(FRESH, labels[..k] + more).value)
  }

  lemma PromisedWithoutLoss(labels: seq<Label>, k: nat)
    requires k <= |labels| && NoLostCreation(labels)
    ensures PromisedAfter(labels, k)
  {
    forall more | NoLostCreation(more) && Run(FRESH, labels[..k] + more).Some?
      ensures Observed(Run(FRESH, labels[..k] + more).value) {
      FreshIsInv();
      RunsKeepPromise(FRESH, labels[..k] + more);
      KeptIsObserved(Run(FRESH, labels[..k] + more).value);
    }
  }

  lemma BrokenByLoss(labels: seq<Label>, k: nat)
    requires k < |labels| && LosesCreation(labels[k]) && Run(FRESH, labels).Some?
    ensures !PromisedAfter(labels, k + 1)
  {
    RunExtends(FRESH, labels, k, [Leave]);
    FreshIsInv();
    RunsKeepInv(FRESH, labels[..k]);
    var w := Run(FRESH, labels[..k]).value;
    LostCreationEscapes(w, labels[k].mutation);
    RunOne(w, labels[k]);
    RunAppend(w, [labels[k]], [Leave]);
    assert NoLostCreation([Leave]);
  }

  /** The journal's promise to observers holds throughout a run, and whatever follows without a loss, if and only if the
      run loses no reply to a creation. */
  lemma PromiseKeptExactly(labels: seq<Label>)
    requires Run(FRESH, labels).Some?
    ensures NoLostCreation(labels) <==> forall k: nat :: k <= |labels| ==> PromisedAfter(labels, k)
  {
    if NoLostCreation(labels) {
      forall k: nat | k <= |labels| ensures PromisedAfter(labels, k) {
        PromisedWithoutLoss(labels, k);
      }
    } else {
      var k :| 0 <= k < |labels| && LosesCreation(labels[k]);
      BrokenByLoss(labels, k);
    }
  }

  // ----- the order of the files -----

  /** No row is recorded while another is unfinished. */
  ghost predicate NeverOvertakes(w: World, labels: seq<Label>)
    decreases labels
  {
    labels != [] && Enabled(w, labels[0]) ==>
      (RecordsRow(labels[0]) ==> AllFinished(w.rows)) && NeverOvertakes(Step(w, labels[0]), labels[1..])
  }

  predicate RecordsNothing(labels: seq<Label>) {
    forall i :: 0 <= i < |labels| ==> !RecordsRow(labels[i])
  }

  predicate FilesInOrder(w: World) {
    AllFinished(w.rows) ==> w.disk == Disk(CommittedOf(w.codec, w.rows), {})
  }

  lemma {:induction false} RunsStayCalm(w: World, labels: seq<Label>)
    requires Calm(w) && Run(w, labels).Some? && NeverOvertakes(w, labels)
    ensures Calm(Run(w, labels).value)
    decreases labels
  {
    if labels != [] {
      StepKeepsCalm(w, labels[0]);
      RunsStayCalm(Step(w, labels[0]), labels[1..]);
    }
  }

  lemma {:induction false} PrefixNeverOvertakes(w: World, labels: seq<Label>, k: nat, more: seq<Label>)
    requires k <= |labels| && NeverOvertakes(w, labels) && RecordsNothing(more) && Run(w, labels[..k] + more).Some?
    ensures NeverOvertakes(w, labels[..k] + more)
    decreases k, |more|
  {
    var run := labels[..k] + more;
    if k > 0 {
      assert run[0] == labels[0] && run[1..] == labels[1..][..k - 1] + more;
      PrefixNeverOvertakes(Step(w, labels[0]), labels[1..], k - 1, more);
    } else if more != [] {
      assert run == more && run[1..] == labels[..0] + more[1..];
      PrefixNeverOvertakes(Step(w, more[0]), [], 0, more[1..]);
      assert [][..0] + more[1..] == more[1..];
    }
  }

  lemma CalmMeansInOrder(w: World)
    requires Calm(w)
    ensures FilesInOrder(w)
  {
    if AllFinished(w.rows) {
      FinishedMeansExactlyCommitted(w);
    }
  }

  /** After the first k steps, the files come out in row order however the run goes on, short of new mutations. */
  ghost predicate OrderSafeAfter(labels: seq<Label>, k: nat)
    requires k <= |labels|
  {
    forall more :: RecordsNothing(more) && Run(FRESH, labels[..k] + more).Some? ==>
        FilesInOrder(Run(FRESH, labels[..k] + more).value)
  }

  lemma OrderSafeWithoutOvertaking(labels: seq<Label>, k: nat)
    requires k <= |labels| && NeverOvertakes(FRESH, labels)
    ensures OrderSafeAfter(labels, k)
  {
    forall more | RecordsNothing(more) && Run(FRESH, labels[..k] + more).Some?
      ensures FilesInOrder(Run(FRESH, labels[..k] + more).value) {
      FreshIsInv();
      PrefixNeverOvertakes(FRESH, labels, k, more);
      RunsStayCalm(FRESH, labels[..k] + more);
      CalmMeansInOrder(Run(FRESH, labels[..k] + more).value);
    }
  }

  lemma {:induction false} FindOvertaking(w: World, labels: seq<Label>) returns (k: nat)
    requires Run(w, labels).Some? && !NeverOvertakes(w, labels)
    ensures k < |labels| && RecordsRow(labels[k]) && Run(w, labels[..k]).Some? &&
            !AllFinished(Run(w, labels[..k]).value.rows)
    decreases labels
  {
    if RecordsRow(labels[0]) && !AllFinished(w.rows) {
      k := 0;
    } else {
      var i := FindOvertaking(Step(w, labels[0]), labels[1..]);
      k := i + 1;
      assert labels[..k][0] == labels[0] && labels[..k][1..] == labels[1..][..i] && labels[1..][i] == labels[k];
    }
  }

  lemma UnfinishedAppend(rows: seq<Row<Entry>>, row: Row<Entry>)
    requires IsUnfinished(row)
    ensures Unfinished(rows + [row]) == Unfinished(rows) + [|rows|]
  {
    assert (rows + [row])[..|rows|] == rows;
  }

  lemma NewestFirstIsOutOfOrder(before: Disk, order: seq<nat>, after: Disk, older: nat)
    requires CarriedForward(before, order, after) && order != [] && older in order && older < order[0]
    requires !Done(before, order[0]) && !Done(before, older)
    ensures !InOrder(after.done)
  {
    var n := |before.done|;
    assert Done(after, older);
    var i :| 0 <= i < |after.done| && after.done[i].row == older;
    assert forall j :: 0 <= j < n ==> after.done[j] == before.done[j];
    assert n < i && after.done[n].row == order[0];
  }

  /** The repository may list the newest of several unfinished rows first; restart then applies it before the others. */
  lemma OvertakenIsOutOfOrder(w: World, order: seq<nat>, older: nat)
    requires Inv(w) && Lists(order, w.rows) && order != [] && older in order && older < order[0]
    requires Absent(w.disk, order[0]) && Absent(w.disk, older)
    ensures Run(w, [Crash] + Restart(order)).Some? && !FilesInOrder(Run(w, [Crash] + Restart(order)).value)
  {
    CrashThenRestart(w, order);
    StepKeepsInv(w, Crash);
    RestartRollsForward(w.(process := Down), order);
    var t := Run(w.(process := Down), Restart(order)).value;
    NewestFirstIsOutOfOrder(w.disk, order, t.disk, older);
    FinishedMeansExactlyCommitted(t);
  }

  lemma RestartRecordsNothing(order: seq<nat>)
    ensures RecordsNothing([Crash] + Restart(order))
  {
    ReplaysRecordNothing(order);
  }

  lemma {:induction false} ReplaysRecordNothing(order: seq<nat>)
    ensures RecordsNothing(Replays(order))
    decreases |order|
  {
    if order != [] {
      ReplaysRecordNothing(order[1..]);
    }
  }

  /** The rows a newly recorded one leaves behind have not been begun. */
  lemma LeftBehind(w: World, l: Label) returns (older: nat)
    requires Inv(w) && Enabled(w, l) && RecordsRow(l) && !AllFinished(w.rows)
    ensures older in Unfinished(w.rows) && older < |w.rows| && Absent(w.disk, older)
  {
    NoneUnfinished(w.rows);
    older := Unfinished(w.rows)[0];
    assert older in Unfinished(w.rows);
    assert RowOk(w.codec, w.rows[older], w.disk, older);
  }

  lemma NewRowIsAbsent(w: World, l: Label)
    requires Inv(w) && Enabled(w, l) && RecordsRow(l)
    ensures Inv(Step(w, l)) && Step(w, l).disk == w.disk && Absent(w.disk, |w.rows|)
    ensures Step(w, l).rows == w.rows + [Row(w.codec.encode(l.mutation), Planned)]
  {
    StepKeepsInv(w, l);
    assert RowOk(w.codec, Step(w, l).rows[|w.rows|], w.disk, |w.rows|);
  }

  lemma NewestListedFirst(rows: seq<Row<Entry>>, row: Row<Entry>, older: nat) returns (order: seq<nat>)
    requires IsUnfinished(row) && older in Unfinished(rows)
    ensures Lists(order, rows + [row]) && order != [] && order[0] == |rows| && older in order && older < |rows|
  {
    UnfinishedAppend(rows, row);
    order := [|rows|] + Unfinished(rows);
    assert older in order[1..];
  }

  /** Recording a row while another is unfinished opens a way for restart to leave the files out of order. */
  lemma OvertakingIsUnsafe(w: World, l: Label) returns (more: seq<Label>)
    requires Inv(w) && Enabled(w, l) && RecordsRow(l) && !AllFinished(w.rows)
    ensures RecordsNothing(more) && Run(Step(w, l), more).Some? && !FilesInOrder(Run(Step(w, l), more).value)
  {
    var older := LeftBehind(w, l);
    NewRowIsAbsent(w, l);
    var order := NewestListedFirst(w.rows, Row(w.codec.encode(l.mutation), Planned), older);
    OvertakenIsOutOfOrder(Step(w, l), order, older);
    RestartRecordsNothing(order);
    more := [Crash] + Restart(order);
  }

  lemma OrderLostByOvertaking(labels: seq<Label>, k: nat)
    requires k < |labels| && Run(FRESH, labels).Some? && RecordsRow(labels[k])
    requires Run(FRESH, labels[..k]).Some? && !AllFinished(Run(FRESH, labels[..k]).value.rows)
    ensures !OrderSafeAfter(labels, k + 1)
  {
    RunExtends(FRESH, labels, k, []);
    FreshIsInv();
    RunsKeepInv(FRESH, labels[..k]);
    var more := OvertakingIsUnsafe(Run(FRESH, labels[..k]).value, labels[k]);
    RunExtends(FRESH, labels, k, more);
  }

  /** Throughout a run, and however it goes on short of new mutations, the files come out as the committed mutations in
      row order, if and only if no row is recorded while another is unfinished. */
  lemma FilesInOrderExactly(labels: seq<Label>)
    requires Run(FRESH, labels).Some?
    ensures NeverOvertakes(FRESH, labels) <==> forall k: nat :: k <= |labels| ==> OrderSafeAfter(labels, k)
  {
    if NeverOvertakes(FRESH, labels) {
      forall k: nat | k <= |labels| ensures OrderSafeAfter(labels, k) {
        OrderSafeWithoutOvertaking(labels, k);
      }
    } else {
      var k := FindOvertaking(FRESH, labels);
      OrderLostByOvertaking(labels, k);
    }
  }

  // ----- a lost mutation carried out later -----

  ghost predicate KeepsEntries(w: World, t: World) {
    t.codec == w.codec && |w.rows| <= |t.rows| && forall r :: 0 <= r < |w.rows| ==> t.rows[r].entry == w.rows[r].entry
  }

  lemma StepKeepsEntries(w: World, l: Label)
    requires Enabled(w, l)
    ensures KeepsEntries(w, Step(w, l))
  {
  }

  lemma {:induction false} RunsKeepEntries(w: World, labels: seq<Label>)
    requires Run(w, labels).Some?
    ensures KeepsEntries(w, Run(w, labels).value)
    decreases labels
  {
    if labels != [] {
      StepKeepsEntries(w, labels[0]);
      RunsKeepEntries(Step(w, labels[0]), labels[1..]);
    }
  }

  /** A mutation reported as failed because the reply to its creation was lost: however long the coordinator goes on,
      the next undisturbed restart carries it out, once, unless it has been dealt with before. */
  lemma LostCreationIsReplayedAtRestart(w: World, m: SfxMutation, between: seq<Label>, order: seq<nat>) returns (i: nat)
    requires Inv(w) && Enabled(w, CreateRow(m, Lost))
    requires var t := Run(Step(w, CreateRow(m, Lost)), between);
             t.Some? && t.value.process.Down? && |w.rows| < |t.value.rows| && IsUnfinished(t.value.rows[|w.rows|]) &&
                 Lists(order, t.value.rows)
    ensures var t := Run(Run(Step(w, CreateRow(m, Lost)), between).value, Restart(order));
            && t.Some? && |w.rows| < |t.value.rows| && t.value.rows[|w.rows|].state.Committed?
            && i < |t.value.disk.done| && t.value.disk.done[i] == Applied(|w.rows|, m)
            && forall j :: 0 <= j < |t.value.disk.done| && t.value.disk.done[j].row == |w.rows| ==> j == i
  {
    var lost := Step(w, CreateRow(m, Lost));
    var v := Run(lost, between).value;
    StepKeepsInv(w, CreateRow(m, Lost));
    RunsKeepInv(lost, between);
    RunsKeepEntries(lost, between);
    ListedOnce(order, v.rows);
    RestartRollsForward(v, order);
    RunsKeepEntries(v, Restart(order));
    i := CommittedOnDiskOnce(Run(v, Restart(order)).value, |w.rows|);
  }

  // ----- a run that leaves the files out of order -----

  function Admit(task: nat): seq<Label> {
    [Arrive(task)] + ([Lock(task)] + [Recheck])
  }

  /** One task loses the reply to a creation and leaves; another is admitted. */
  function LoseAndAdmit(m: SfxMutation, task: nat): seq<Label> {
    ([CreateRow(m, Lost)] + [Leave]) + Admit(task)
  }

  function Carry(m: SfxMutation): seq<Label> {
    ([CreateRow(m, Seen)] + [StartApplying(Seen)]) + ([ApplyEffect(Success)] + [Commit(Seen)])
  }

  ghost predicate AtRest(w: World, task: nat) {
    && Inv(w) && AllFinished(w.rows) && w.disk.done == CommittedOf(w.codec, w.rows)
    && w.process == Up(false, {}, Some(Holder(task, Admitted)))
  }

  lemma Admits(w: World, task: nat)
    requires w.process == Up(false, {}, None)
    ensures Run(w, Admit(task)) == Some(w.(process := Up(false, {}, Some(Holder(task, Admitted)))))
  {
    var waiting := Step(w, Arrive(task));
    var locked := Step(waiting, Lock(task));
    RunOne(w, Arrive(task));
    RunOne(waiting, Lock(task));
    RunOne(locked, Recheck);
    RunAppend(waiting, [Lock(task)], [Recheck]);
    RunAppend(w, [Arrive(task)], [Lock(task)] + [Recheck]);
  }

  lemma LosesAndAdmits(w: World, task: nat, m: SfxMutation, next: nat)
    requires AtRest(w, task)
    ensures Run(w, LoseAndAdmit(m, next)) ==
            Some(w.(rows := w.rows + [Row(w.codec.encode(m), Planned)],
                process := Up(false, {}, Some(Holder(next, Admitted)))))
  {
    Loses(w, m);
    var left := Run(w, [CreateRow(m, Lost)] + [Leave]).value;
    Admits(left, next);
    RunAppend(w, [CreateRow(m, Lost)] + [Leave], Admit(next));
  }

  lemma Records(w: World, task: nat, m: SfxMutation)
    requires !w.conflict && w.process == Up(false, {}, Some(Holder(task, Admitted)))
    ensures Run(w, [CreateRow(m, Seen)] + [StartApplying(Seen)]) ==
            Some(w.(rows := w.rows + [Row(w.codec.encode(m), Applying)],
                    process := Up(false, {}, Some(Holder(task, Journalled(|w.rows|, m))))))
  {
    var a := Step(w, CreateRow(m, Seen));
    assert SetState(a.rows, |w.rows|, Applying) == w.rows + [Row(w.codec.encode(m), Applying)];
    RunOne(w, CreateRow(m, Seen));
    RunOne(a, StartApplying(Seen));
    RunAppend(w, [CreateRow(m, Seen)], [StartApplying(Seen)]);
  }

  lemma AppliesAndCommits(w: World, task: nat, row: nat, m: SfxMutation)
    requires !w.conflict && w.process == Up(false, {}, Some(Holder(task, Journalled(row, m))))
    requires row < |w.rows| && w.rows[row].state.Applying? && Absent(w.disk, row)
    ensures Run(w, [ApplyEffect(Success)] + [Commit(Seen)]) ==
            Some(w.(rows := SetState(w.rows, row, Committed),
                disk := Disk(w.disk.done + [Applied(row, m)], w.disk.partial),
                    process := Up(false, {}, Some(Holder(task, Admitted)))))
  {
    var a := Step(w, ApplyEffect(Success));
    assert w.disk.partial - {row} == w.disk.partial;
    RunOne(w, ApplyEffect(Success));
    RunOne(a, Commit(Seen));
    RunAppend(w, [ApplyEffect(Success)], [Commit(Seen)]);
  }

  lemma Carries(w: World, task: nat, m: SfxMutation)
    requires Inv(w) && w.process == Up(false, {}, Some(Holder(task, Admitted)))
    ensures Run(w, Carry(m)) ==
            Some(w.(rows := w.rows + [Row(w.codec.encode(m), Committed)],
                disk := Disk(w.disk.done + [Applied(|w.rows|, m)], w.disk.partial)))
  {
    Records(w, task, m);
    var a := Run(w, [CreateRow(m, Seen)] + [StartApplying(Seen)]).value;
    RunsKeepInv(w, [CreateRow(m, Seen)] + [StartApplying(Seen)]);
    AppliesAndCommits(a, task, |w.rows|, m);
    assert SetState(a.rows, |w.rows|, Committed) == w.rows + [Row(w.codec.encode(m), Committed)];
    RunAppend(w, [CreateRow(m, Seen)] + [StartApplying(Seen)], [ApplyEffect(Success)] + [Commit(Seen)]);
  }

  lemma CommittedAppend(codec: Codec, rows: seq<Row<Entry>>, m: SfxMutation)
    requires codec.decode(codec.encode(m)) == Ok(m)
    ensures CommittedOf(codec, rows + [Row(codec.encode(m), Committed)]) ==
            CommittedOf(codec, rows) + [Applied(|rows|, m)]
  {
    var last := Row(codec.encode(m), Committed);
    var all := rows + [last];
    assert all != [] && all[|all| - 1] == last && all[..|all| - 1] == rows;
  }

  lemma StaleRowLeft(w: World, task: nat, m1: SfxMutation, next: nat, m2: SfxMutation)
    requires AtRest(w, task)
    ensures var t := Run(w, LoseAndAdmit(m1, next) + Carry(m2));
            && t.Some? && Inv(t.value) && t.value.codec == w.codec && !t.value.conflict
            && t.value.rows == (w.rows + [Row(w.codec.encode(m1), Planned)]) + [Row(w.codec.encode(m2), Committed)]
            && t.value.disk == Disk(w.disk.done + [Applied(|w.rows| + 1, m2)], w.disk.partial)
  {
    LosesAndAdmits(w, task, m1, next);
    RunsKeepInv(w, LoseAndAdmit(m1, next));
    var b := Run(w, LoseAndAdmit(m1, next)).value;
    Carries(b, next, m2);
    RunsKeepInv(b, Carry(m2));
    RunAppend(w, LoseAndAdmit(m1, next), Carry(m2));
  }

  lemma OneUnfinished(rows: seq<Row<Entry>>, first: Row<Entry>, second: Row<Entry>)
    requires AllFinished(rows) && IsUnfinished(first) && !IsUnfinished(second)
    ensures Lists([|rows|], (rows + [first]) + [second])
  {
    NoneUnfinished(rows);
    UnfinishedAppend(rows, first);
    assert ((rows + [first]) + [second])[..|rows| + 1] == rows + [first];
  }

  lemma MiddleCommitted(rows: seq<Row<Entry>>, entry: Entry, last: Row<Entry>)
    ensures SetState((rows + [Row(entry, Planned)]) + [last], |rows|, Committed) ==
            (rows + [Row(entry, Committed)]) + [last]
  {
  }

  lemma BothCommitted(codec: Codec, rows: seq<Row<Entry>>, m1: SfxMutation, m2: SfxMutation)
    requires codec.decode(codec.encode(m1)) == Ok(m1) && codec.decode(codec.encode(m2)) == Ok(m2)
    ensures CommittedOf(codec, (rows + [Row(codec.encode(m1), Committed)]) + [Row(codec.encode(m2), Committed)]) ==
            CommittedOf(codec, rows) + [Applied(|rows|, m1)] + [Applied(|rows| + 1, m2)]
  {
    CommittedAppend(codec, rows, m1);
    CommittedAppend(codec, rows + [Row(codec.encode(m1), Committed)], m2);
  }

  lemma RunThenRestart(w: World, first: seq<Label>, order: seq<nat>)
    requires Run(w, first).Some?
    ensures Run(w, first + ([Crash] + Restart(order))) == Run(Run(w, first).value.(process := Down), Restart(order))
  {
    RunAppend(w, first, [Crash] + Restart(order));
    CrashThenRestart(Run(w, first).value, order);
  }

  /** A task loses the reply to creating m1, another task's m2 is committed after it, and then it restarts: m1 is
      replayed over m2, although it was recorded first. */
  lemma StaleMutationOvertakes(w: World, task: nat, m1: SfxMutation, next: nat, m2: SfxMutation)
    requires AtRest(w, task)
    ensures var t := Run(w, (LoseAndAdmit(m1, next) + Carry(m2)) + ([Crash] + Restart([|w.rows|])));
            && t.Some? && t.value.process == Up(false, {}, None)
            && t.value.disk.done == w.disk.done + [Applied(|w.rows| + 1, m2)] + [Applied(|w.rows|, m1)]
            && CommittedOf(t.value.codec, t.value.rows) ==
               CommittedOf(w.codec, w.rows) + [Applied(|w.rows|, m1)] + [Applied(|w.rows| + 1, m2)]
  {
    var n := |w.rows|;
    StaleRowLeft(w, task, m1, next, m2);
    var c := Run(w, LoseAndAdmit(m1, next) + Carry(m2)).value;
    RunThenRestart(w, LoseAndAdmit(m1, next) + Carry(m2), [n]);
    OneUnfinished(w.rows, Row(w.codec.encode(m1), Planned), Row(w.codec.encode(m2), Committed));
    StaleReplay(c, n, m1);
    MiddleCommitted(w.rows, w.codec.encode(m1), Row(w.codec.encode(m2), Committed));
    BothCommitted(w.codec, w.rows, m1, m2);
  }

  /** A fresh installation starts and admits a first task. */
  const SERVE: seq<Label> := ([Boot([])] + [BootDone(true)]) + Admit(0)

  lemma FreshComesToRest()
    ensures Run(FRESH, SERVE).Some? && AtRest(Run(FRESH, SERVE).value, 0)
    ensures Run(FRESH, SERVE).value == FRESH.(process := Up(false, {}, Some(Holder(0, Admitted))))
  {
    FreshIsInv();
    var started := Step(FRESH, Boot([]));
    RunOne(FRESH, Boot([]));
    RunOne(started, BootDone(true));
    RunAppend(FRESH, [Boot([])], [BootDone(true)]);
    Admits(FRESH.(process := Up(false, {}, None)), 0);
    RunAppend(FRESH, [Boot([])] + [BootDone(true)], Admit(0));
  }

  lemma FirstTwoFromRest(w: World, m1: SfxMutation, m2: SfxMutation)
    requires AtRest(w, 0) && w.rows == [] && w.disk.done == []
    ensures var t := Run(w, (LoseAndAdmit(m1, 1) + Carry(m2)) + ([Crash] + Restart([0])));
            && t.Some? && t.value.disk.done == [Applied(1, m2), Applied(0, m1)]
            && CommittedOf(t.value.codec, t.value.rows) == [Applied(0, m1), Applied(1, m2)]
  {
    StaleMutationOvertakes(w, 0, m1, 1, m2);
  }

  /** Such a run from a fresh installation, for any two mutations. */
  lemma FirstTwoSwapped(m1: SfxMutation, m2: SfxMutation)
    ensures var t := Run(FRESH, SERVE + ((LoseAndAdmit(m1, 1) + Carry(m2)) + ([Crash] + Restart([0]))));
            && t.Some? && t.value.disk.done == [Applied(1, m2), Applied(0, m1)]
            && CommittedOf(t.value.codec, t.value.rows) == [Applied(0, m1), Applied(1, m2)]
  {
    FreshComesToRest();
    FirstTwoFromRest(Run(FRESH, SERVE).value, m1, m2);
    RunAppend(FRESH, SERVE, (LoseAndAdmit(m1, 1) + Carry(m2)) + ([Crash] + Restart([0])));
  }

  lemma StaleReplay(w: World, row: nat, m: SfxMutation)
    requires Inv(w) && RowIs(w.codec, w.rows, row, Planned, m) && Lists([row], w.rows)
    ensures Run(w.(process := Down), Restart([row])) ==
            Some(w.(rows := SetState(w.rows, row, Committed),
                disk := Disk(w.disk.done + [Applied(row, m)], w.disk.partial - {row}),
                    process := Up(false, {}, None)))
  {
    var down := w.(process := Down);
    var loaded := Step(down, Boot([row]));
    StepKeepsInv(w, Crash);
    StepKeepsInv(down, Boot([row]));
    assert RowOk(w.codec, w.rows[row], w.disk, row);
    OneReplay(loaded);
    assert [row][1..] == [] && Replays([row]) == REPLAY + [];
    assert REPLAY + [] == REPLAY;
    var ready := Run(loaded, REPLAY).value;
    RunOne(down, Boot([row]));
    RunOne(ready, BootDone(true));
    RunAppend(loaded, REPLAY, [BootDone(true)]);
    RunAppend(down, [Boot([row])], Replays([row]) + [BootDone(true)]);
  }
}
