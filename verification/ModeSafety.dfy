/** What every run of the mode protocol keeps, whatever fails and wherever it crashes. */
module ModeSafety {
  import opened Common
  import opened Journal
  import opened ModeCatalog
  import opened ModeProtocol
  import opened Recovery
  import opened Sorting

  // ----- the invariant -----

  predicate Increasing(s: seq<nat>) {
    forall i, j :: 0 <= i < j < |s| ==> s[i] < s[j]
  }

  /** Committed rows are complete in the store, planned and rolled-back ones left no trace of themselves. */
  predicate Settled(rows: seq<Row<Mutation>>, s: Side) {
    && Increasing(s.done)
    && (forall r :: r in s.done ==> r < |rows| && r !in s.partial)
    && (forall r :: r in s.partial ==> r < |rows|)
    && forall r :: 0 <= r < |rows| ==> RowSettled(rows[r].state, s, r)
  }

  predicate RowSettled(state: RecoveryState, s: Side, r: nat) {
    && (state.Committed? ==> r in s.done)
    && (state.Planned? || state.RolledBack? ==> !Has(s, r))
  }

  predicate OnlyLastUnfinished(rows: seq<Row<Mutation>>) {
    forall r :: 0 <= r < |rows| - 1 ==> !IsUnfinished(rows[r])
  }

  predicate LastIs(rows: seq<Row<Mutation>>, row: nat, state: RecoveryState) {
    row == |rows| - 1 && rows[row].state == state
  }

  predicate PcOk(rows: seq<Row<Mutation>>, files: Side, data: Side, pc: Pc) {
    match pc
    case Idle => AllFinished(rows)
    case Staged(_, _) => AllFinished(rows)
    case Recorded(row, _) => LastIs(rows, row, RecoveryState.Planned)
    case Journalled(row, _) => LastIs(rows, row, RecoveryState.Applying) && !Has(files, row) && !Has(data, row)
    case FilesDone(row, _) => LastIs(rows, row, RecoveryState.Applying) && row in files.done && !Has(data, row)
    case BothDone(row, _) => LastIs(rows, row, RecoveryState.Applying) && row in files.done && row in data.done
    case Verified(row, _) => LastIs(rows, row, RecoveryState.Applying) && row in files.done && row in data.done
    case CommitSeen(row, _) => AllFinished(rows)
    case Undoing(row, fatal) =>
        LastIs(rows, row, RecoveryState.Applying) || (fatal && LastIs(rows, row, RecoveryState.Committed))
    case Unwinding(row, _) => LastIs(rows, row, RecoveryState.RollingBack)
    case DataUnwound(row, _, ok) => LastIs(rows, row, RecoveryState.RollingBack) && (ok ==> !Has(data, row))
    case Unwound(row, _, ok) =>
        LastIs(rows, row, RecoveryState.RollingBack) && (ok ==> !Has(data, row) && !Has(files, row))
    case Stopped => true
  }

  predicate BootOk(rows: seq<Row<Mutation>>, files: Side, data: Side, queue: seq<nat>, boot: BootPc) {
    && queue == (if rows != [] && IsUnfinished(rows[|rows| - 1]) then [|rows| - 1] else [])
    && match boot
       case NextEntry => true
       case BootUnwinding(row) => LastIs(rows, row, RecoveryState.RollingBack)
       case BootDataUnwound(row) => LastIs(rows, row, RecoveryState.RollingBack) && !Has(data, row)
       case BootUnwound(row) => LastIs(rows, row, RecoveryState.RollingBack) && !Has(data, row) && !Has(files, row)
  }

  predicate IsLatest(current: Option<Catalog>, accepted: seq<Publication>) {
    if accepted == [] then current.None?
    else current == Some(Catalog(accepted[|accepted| - 1].generation, accepted[|accepted| - 1].modes))
  }

  function LatestModes(accepted: seq<Publication>): Option<Modes> {
    if accepted == [] then None else Some(accepted[|accepted| - 1].modes)
  }

  /** Generations count 1, 2, 3, …, and each publication names the presets that differ from the one before. */
  ghost predicate Chained(accepted: seq<Publication>) {
    if accepted == [] then true
    else
      var front, last := accepted[..|accepted| - 1], accepted[|accepted| - 1];
      Chained(front) && last.generation == |accepted| && last.changed == ChangedKeys(LatestModes(front), last.modes)
  }

  predicate InMutation(pc: Pc) {
    pc.Staged? || pc.Recorded? || pc.Journalled? || pc.FilesDone? || pc.BothDone? || pc.Verified? || pc.CommitSeen?
  }

  /** The current catalog is the last one the sink took, unless the coordinator stopped before it could know. */
  ghost predicate SinkOk(current: Option<Catalog>, accepted: seq<Publication>, pc: Pc) {
    && Chained(accepted)
    && (IsLatest(current, accepted) || (pc.Stopped? && accepted != [] && IsLatest(current, accepted[..|accepted| - 1])))
    && (InMutation(pc) ==> current.Some? && current.value.generation < U64_MAX)
  }

  ghost predicate Inv(w: World) {
    && OnlyLastUnfinished(w.rows) && Settled(w.rows, w.files) && Settled(w.rows, w.data)
    && match w.process
       case Down => true
       case Starting(queue, boot) => BootOk(w.rows, w.files, w.data, queue, boot)
       case Up(current, accepted, pc) => PcOk(w.rows, w.files, w.data, pc) && SinkOk(current, accepted, pc)
  }

  // ----- single changes -----

  lemma SettledUpdate(rows: seq<Row<Mutation>>, s: Side, row: nat, state: RecoveryState)
    requires Settled(rows, s) && row < |rows| && RowSettled(state, s, row)
    ensures Settled(SetState(rows, row, state), s)
  {
  }

  lemma SettledAppend(rows: seq<Row<Mutation>>, s: Side, m: Mutation)
    requires Settled(rows, s)
    ensures Settled(rows + [Row(m, RecoveryState.Planned)], s) && !Has(s, |rows|)
  {
  }

  lemma SettledApply(rows: seq<Row<Mutation>>, s: Side, row: nat, effect: EffectReply)
    requires Settled(rows, s) && LastIs(rows, row, RecoveryState.Applying) && !Has(s, row)
    ensures Settled(rows, Apply(s, row, effect)) && (effect.Success? ==> row in Apply(s, row, effect).done)
  {
    var after := Apply(s, row, effect);
    assert forall i :: 0 <= i < |s.done| ==> s.done[i] in s.done;
    forall r | 0 <= r < |rows| ensures RowSettled(rows[r].state, after, r) {
      assert RowSettled(rows[r].state, s, r);
    }
  }

  lemma WithoutLast(rows: seq<Row<Mutation>>, s: Side, row: nat)
    requires Settled(rows, s) && row == |rows| - 1
    ensures var after := Without(s, row);
            && !Has(after, row) && Increasing(after.done) &&
               forall r :: r != row ==> (Has(after, r) <==> Has(s, r)) && (r in after.done <==> r in s.done)
  {
    if row in s.done {
      var i :| 0 <= i < |s.done| && s.done[i] == row;
      assert s.done[|s.done| - 1] in s.done;
      assert i == |s.done| - 1;
    }
  }

  lemma SettledUndo(rows: seq<Row<Mutation>>, s: Side, row: nat, effect: EffectReply)
    requires Settled(rows, s) && LastIs(rows, row, RecoveryState.RollingBack)
    ensures Settled(rows, Undo(s, row, effect)) && (effect.Success? ==> !Has(Undo(s, row, effect), row))
  {
    WithoutLast(rows, s, row);
    var after := Undo(s, row, effect);
    forall r | 0 <= r < |rows| ensures RowSettled(rows[r].state, after, r) {
      assert RowSettled(rows[r].state, s, r);
    }
  }

  /** A compare-and-set on the last row, seen or not. */
  lemma SettledTransition(rows: seq<Row<Mutation>>, s: Side, row: nat, expected: RecoveryState, next: RecoveryState,
      reply: Reply)
    requires Settled(rows, s) && OnlyLastUnfinished(rows) && row == |rows| - 1 && expected.Allows(next)
    requires rows[row].state == expected ==> RowSettled(next, s, row)
    ensures var (after, seen) := Transition(rows, row, expected, next, reply);
            && Settled(after, s) && OnlyLastUnfinished(after) && (seen ==> LastIs(after, row, next)) &&
               |after| == |rows|
            && (after[row].state == rows[row].state || after[row].state == next)
  {
    if rows[row].state == expected {
      SettledUpdate(rows, s, row, next);
    }
  }

  // ----- steps -----

  lemma SinkTakes(current: Option<Catalog>, accepted: seq<Publication>, modes: Modes)
    requires Chained(accepted) && IsLatest(current, accepted) && Generation(current) < U64_MAX
    ensures var generation := Generation(current) + 1;
            var after := accepted + [Publication(generation, modes, ChangedKeys(ModesOf(current), modes))];
            Chained(after) && after[..|after| - 1] == accepted && IsLatest(Some(Catalog(generation, modes)), after)
  {
    var after := accepted + [Publication(Generation(current) + 1, modes, ChangedKeys(ModesOf(current), modes))];
    assert after[..|after| - 1] == accepted;
    assert Generation(current) == |accepted| && ModesOf(current) == LatestModes(accepted);
  }

  lemma OfferedSink(p: Process, modes: Modes, sink: SinkReply)
    requires p.Up? && Generation(p.current) < U64_MAX && Chained(p.accepted) && IsLatest(p.current, p.accepted)
    ensures var after := Offered(p, modes, sink); SinkOk(after.current, after.accepted, after.pc)
  {
    match sink
    case Accepted => SinkTakes(p.current, p.accepted, modes);
    case AcceptedUnseen => SinkTakes(p.current, p.accepted, modes);
    case Rejected =>
  }

  lemma PublishedKeeps(w: World, modes: Modes, sink: SinkReply)
    requires w.process.Up? && Generation(w.process.current) < U64_MAX
    requires Inv(w) && AllFinished(w.rows) && IsLatest(w.process.current, w.process.accepted)
    ensures Inv(Published(w, modes, sink))
  {
    OfferedSink(w.process, modes, sink);
  }

  lemma BeginKeeps(w: World, m: Mutation, prepare: PrepareReply)
    requires w.process.Up? && w.process.pc.Idle? && Inv(w)
    ensures Inv(StepBegin(w, m, prepare))
  {
  }

  lemma JournalKeeps(w: World, l: Label)
    requires IsMutation(l) && w.process.Up? && EnabledMutation(w, l) && Inv(w) &&
             (l.CreateRow? || l.StartApplying? || l.Commit?)
    ensures Inv(StepMutation(w, l))
  {
    var pc := w.process.pc;
    match l
    case CreateRow(reply) =>
      SettledAppend(w.rows, w.files, pc.mutation);
      SettledAppend(w.rows, w.data, pc.mutation);
    case StartApplying(reply) =>
      SettledTransition(w.rows, w.files, pc.row, RecoveryState.Planned, RecoveryState.Applying, reply);
      SettledTransition(w.rows, w.data, pc.row, RecoveryState.Planned, RecoveryState.Applying, reply);
    case Commit(reply) =>
      SettledTransition(w.rows, w.files, pc.row, RecoveryState.Applying, RecoveryState.Committed, reply);
      SettledTransition(w.rows, w.data, pc.row, RecoveryState.Applying, RecoveryState.Committed, reply);
  }

  lemma EffectsKeep(w: World, l: Label)
    requires IsMutation(l) && w.process.Up? && EnabledMutation(w, l) && Inv(w) &&
             (l.ApplyFiles? || l.ApplyData? || l.Verify?)
    ensures Inv(StepMutation(w, l))
  {
    var pc := w.process.pc;
    match l
    case ApplyFiles(effect) => SettledApply(w.rows, w.files, pc.row, effect);
    case ApplyData(effect) => SettledApply(w.rows, w.data, pc.row, effect);
    case Verify(load) =>
  }

  lemma UndoKeeps(w: World, l: Label)
    requires IsUndo(l) && w.process.Up? && EnabledUndo(w, l) && Inv(w)
    ensures Inv(StepUndo(w, l))
  {
    var pc := w.process.pc;
    match l
    case StartUndo(reply) =>
      SettledTransition(w.rows, w.files, pc.row, RecoveryState.Applying, RecoveryState.RollingBack, reply);
      SettledTransition(w.rows, w.data, pc.row, RecoveryState.Applying, RecoveryState.RollingBack, reply);
    case UndoData(effect) => SettledUndo(w.rows, w.data, pc.row, effect);
    case UndoFiles(effect) => SettledUndo(w.rows, w.files, pc.row, effect);
    case EndUndo(reply) =>
      var next := if pc.ok then RecoveryState.RolledBack else RecoveryState.Failed;
      SettledTransition(w.rows, w.files, pc.row, RecoveryState.RollingBack, next, reply);
      SettledTransition(w.rows, w.data, pc.row, RecoveryState.RollingBack, next, reply);
  }

  lemma UnfinishedIsLast(rows: seq<Row<Mutation>>)
    requires OnlyLastUnfinished(rows)
    ensures Unfinished(rows) == if rows != [] && IsUnfinished(rows[|rows| - 1]) then [|rows| - 1] else []
  {
    if rows != [] {
      NoneUnfinished(rows[..|rows| - 1]);
    }
  }

  lemma BootRowKeeps(w: World, l: Label)
    requires (l.BootStart? || l.BootEnd?) && EnabledBoot(w, l) && Inv(w)
    ensures Inv(StepBoot(w, l))
  {
    if l.BootStart? {
      var row := w.process.queue[0];
      if !w.rows[row].state.RollingBack? {
        SettledTransition(w.rows, w.files, row, w.rows[row].state, RecoveryState.RollingBack, l.reply);
        SettledTransition(w.rows, w.data, row, w.rows[row].state, RecoveryState.RollingBack, l.reply);
      }
    } else {
      SettledTransition(w.rows, w.files, w.process.boot.row, RecoveryState.RollingBack, RecoveryState.RolledBack,
          l.reply);
      SettledTransition(w.rows, w.data, w.process.boot.row, RecoveryState.RollingBack, RecoveryState.RolledBack,
          l.reply);
    }
  }

  lemma BootKeeps(w: World, l: Label)
    requires IsBoot(l) && EnabledBoot(w, l) && Inv(w)
    ensures Inv(StepBoot(w, l))
  {
    match l
    case Boot => UnfinishedIsLast(w.rows);
    case BootStart(_) => BootRowKeeps(w, l);
    case BootUndoData(effect) => SettledUndo(w.rows, w.data, w.process.boot.row, effect);
    case BootUndoFiles(effect) => SettledUndo(w.rows, w.files, w.process.boot.row, effect);
    case BootEnd(_) => BootRowKeeps(w, l);
    case BootDone(_) => assert AllFinished(w.rows);
  }

  lemma StepKeepsInv(w: World, l: Label)
    requires Enabled(w, l) && Inv(w)
    ensures Inv(Step(w, l))
  {
    if l.Crash? {
    } else if IsBoot(l) {
      BootKeeps(w, l);
    } else if IsMutation(l) {
      if l.CreateRow? || l.StartApplying? || l.Commit? {
        JournalKeeps(w, l);
      } else {
        EffectsKeep(w, l);
      }
    } else if IsUndo(l) {
      UndoKeeps(w, l);
    } else if l.Publish? {
      PublishedKeeps(w, w.process.pc.next, l.sink);
    } else if l.Reload? {
      if l.load.Loaded? && Generation(w.process.current) < U64_MAX {
        PublishedKeeps(w, l.load.modes, l.sink);
      }
    } else {
      BeginKeeps(w, l.mutation, l.prepare);
    }
  }

  lemma {:induction false} RunsKeepInv(w: World, labels: seq<Label>)
    requires Inv(w) && Run(w, labels).Some?
    ensures Inv(Run(w, labels).value)
    decreases labels
  {
    if labels != [] {
      StepKeepsInv(w, labels[0]);
      RunsKeepInv(Step(w, labels[0]), labels[1..]);
    }
  }

  // ----- what the invariant says of the stores -----

  function CommittedRows(rows: seq<Row<Mutation>>): (r: seq<nat>)
    ensures forall i: nat :: i in r <==> i < |rows| && rows[i].state.Committed?
    ensures Increasing(r)
  {
    if rows == [] then []
    else
      var n := |rows| - 1;
      var front := CommittedRows(rows[..n]);
      assert forall i :: 0 <= i < |front| ==> front[i] in front;
      if rows[n].state.Committed? then front + [n] else front
  }

  predicate IsFailed(rows: seq<Row<Mutation>>, r: nat) {
    r < |rows| && rows[r].state.Failed?
  }

  function WithoutFailed(rows: seq<Row<Mutation>>, s: seq<nat>): (r: seq<nat>)
    ensures forall i :: i in r <==> i in s && !IsFailed(rows, i)
  {
    if s == [] then []
    else
      var front, last := WithoutFailed(rows, s[..|s| - 1]), s[|s| - 1];
      assert s == s[..|s| - 1] + [last];
      if IsFailed(rows, last) then front else front + [last]
  }

  lemma {:induction false} WithoutFailedIncreases(rows: seq<Row<Mutation>>, s: seq<nat>)
    requires Increasing(s)
    ensures Increasing(WithoutFailed(rows, s))
    decreases |s|
  {
    if s != [] {
      var rest := s[..|s| - 1];
      WithoutFailedIncreases(rows, rest);
      var front := WithoutFailed(rows, rest);
      forall i | 0 <= i < |front| ensures front[i] < s[|s| - 1] {
        assert front[i] in front;
        assert front[i] in rest;
      }
    }
  }

  lemma IncreasingUnique(a: seq<nat>, b: seq<nat>)
    requires Increasing(a) && Increasing(b) && forall i :: i in a <==> i in b
    ensures a == b
  {
    SameElements(a, b);
    OrderedUnique(a, b, (x: nat, y: nat) => x < y);
  }

  lemma DoneExceptFailed(rows: seq<Row<Mutation>>, s: Side)
    requires Settled(rows, s) && AllFinished(rows)
    ensures forall r :: r in s.done && !IsFailed(rows, r) <==> r in CommittedRows(rows)
    ensures forall r :: r in s.partial ==> IsFailed(rows, r)
  {
    forall r | r in s.done || r in s.partial
      ensures IsFailed(rows, r) || (rows[r].state.Committed? && r in s.done) {
      assert RowSettled(rows[r].state, s, r);
    }
    forall r: nat | r < |rows| && rows[r].state.Committed? ensures r in s.done {
      assert RowSettled(rows[r].state, s, r);
    }
  }

  /** Between mutations each store holds exactly the committed ones, in order, but for what failed rollbacks left; and
      it is exactly the committed ones if and only if failed rollbacks left nothing in it. */
  lemma StoresAreTheCommittedMutations(w: World, s: Side)
    requires Inv(w) && AllFinished(w.rows) && (s == w.files || s == w.data)
    ensures WithoutFailed(w.rows, s.done) == CommittedRows(w.rows)
    ensures forall r :: r in s.partial ==> IsFailed(w.rows, r)
    ensures s == Side(CommittedRows(w.rows), {}) <==> forall r: nat :: IsFailed(w.rows, r) ==> !Has(s, r)
  {
    assert Settled(w.rows, s);
    DoneExceptFailed(w.rows, s);
    WithoutFailedIncreases(w.rows, s.done);
    IncreasingUnique(WithoutFailed(w.rows, s.done), CommittedRows(w.rows));
    if forall r: nat :: IsFailed(w.rows, r) ==> !Has(s, r) {
      IncreasingUnique(s.done, CommittedRows(w.rows));
    }
  }

  /** In every run from an empty journal, an idle coordinator means finished journals and stores that match them. */
  lemma IdleMeansConsistent(labels: seq<Label>)
    requires Run(FRESH, labels).Some?
    ensures var w := Run(FRESH, labels).value;
            w.process.Up? && w.process.pc.Idle? ==>
              && AllFinished(w.rows)
              && WithoutFailed(w.rows, w.files.done) == CommittedRows(w.rows)
              && WithoutFailed(w.rows, w.data.done) == CommittedRows(w.rows)
  {
    RunsKeepInv(FRESH, labels);
    var w := Run(FRESH, labels).value;
    if w.process.Up? && w.process.pc.Idle? {
      StoresAreTheCommittedMutations(w, w.files);
      StoresAreTheCommittedMutations(w, w.data);
    }
  }

  // ----- what it says of the sink -----

  lemma {:induction false} GenerationsCount(accepted: seq<Publication>, k: nat)
    requires Chained(accepted) && k < |accepted|
    ensures accepted[k].generation == k + 1
    ensures forall key :: key in accepted[k].changed <==>
            k > 0 && PresetAt(accepted[k - 1].modes, key) != PresetAt(accepted[k].modes, key)
    decreases |accepted|
  {
    var front := accepted[..|accepted| - 1];
    if k < |front| {
      GenerationsCount(front, k);
    } else {
      ChangedKeysExactly(LatestModes(front), accepted[k].modes);
    }
  }

  /** In every run the sink sees generations 1, 2, 3, … without gap or repeat, and the snapshot is the last publication
      it took; only a stopped coordinator may have missed that one. */
  lemma SinkSeesEveryGenerationOnce(labels: seq<Label>, k: nat)
    requires Run(FRESH, labels).Some? && Run(FRESH, labels).value.process.Up?
    requires k < |Run(FRESH, labels).value.process.accepted|
    ensures var p := Run(FRESH, labels).value.process;
            && p.accepted[k].generation == k + 1
            && (forall key :: key in p.accepted[k].changed <==>
                  k > 0 && PresetAt(p.accepted[k - 1].modes, key) != PresetAt(p.accepted[k].modes, key))
            && (!p.pc.Stopped? ==> IsLatest(p.current, p.accepted))
            && (!IsLatest(p.current, p.accepted) ==> IsLatest(p.current, p.accepted[..|p.accepted| - 1]))
  {
    RunsKeepInv(FRESH, labels);
    GenerationsCount(Run(FRESH, labels).value.process.accepted, k);
  }

  // ----- failed rollbacks -----

  predicate RowKept(w: World, after: World, row: nat) {
    IsFailed(after.rows, row) && (Has(after.files, row) <==> Has(w.files, row)) &&
        (Has(after.data, row) <==> Has(w.data, row))
  }

  lemma UndoSparesOthers(rows: seq<Row<Mutation>>, s: Side, row: nat, effect: EffectReply, other: nat)
    requires Settled(rows, s) && row == |rows| - 1 && other != row
    ensures Has(Undo(s, row, effect), other) <==> Has(s, other)
  {
    WithoutLast(rows, s, row);
  }

  lemma FailedThroughUndo(w: World, l: Label, row: nat)
    requires IsUndo(l) && w.process.Up? && EnabledUndo(w, l) && Inv(w) && row < |w.rows|
    ensures if IsFailed(w.rows, row) then RowKept(w, StepUndo(w, l), row)
            else IsFailed(StepUndo(w, l).rows, row) <==>
                 l.EndUndo? && w.process.pc.row == row && !w.process.pc.ok && !l.reply.Refused?
  {
    if IsFailed(w.rows, row) && l.UndoData? {
      UndoSparesOthers(w.rows, w.data, w.process.pc.row, l.effect, row);
    } else if IsFailed(w.rows, row) && l.UndoFiles? {
      UndoSparesOthers(w.rows, w.files, w.process.pc.row, l.effect, row);
    }
  }

  lemma FailedThroughBoot(w: World, l: Label, row: nat)
    requires IsBoot(l) && EnabledBoot(w, l) && Inv(w) && row < |w.rows|
    ensures if IsFailed(w.rows, row) then RowKept(w, StepBoot(w, l), row) else !IsFailed(StepBoot(w, l).rows, row)
  {
    if IsFailed(w.rows, row) && l.BootUndoData? {
      UndoSparesOthers(w.rows, w.data, w.process.boot.row, l.effect, row);
    } else if IsFailed(w.rows, row) && l.BootUndoFiles? {
      UndoSparesOthers(w.rows, w.files, w.process.boot.row, l.effect, row);
    }
  }

  lemma FailedThroughMutation(w: World, l: Label, row: nat)
    requires IsMutation(l) && w.process.Up? && EnabledMutation(w, l) && Inv(w) && row < |w.rows|
    ensures if IsFailed(w.rows, row) then RowKept(w, StepMutation(w, l), row)
            else !IsFailed(StepMutation(w, l).rows, row)
  {
  }

  /** The last step of a rollback that did not succeed, unless the journal refuses it. */
  predicate FailsRow(w: World, l: Label, row: nat) {
    l.EndUndo? && w.process.Up? && w.process.pc.Unwound? && w.process.pc.row == row && !w.process.pc.ok &&
        !l.reply.Refused?
  }

  /** A row fails exactly by the end of a rollback that did not succeed, and then it stays failed and its traces stay:
      no later step, startup included, touches it again. */
  lemma FailedRowsStay(w: World, l: Label, row: nat)
    requires Enabled(w, l) && Inv(w) && row < |w.rows|
    ensures if IsFailed(w.rows, row) then RowKept(w, Step(w, l), row) else IsFailed(Step(w, l).rows, row) <==>
            FailsRow(w, l, row)
  {
    if l.Crash? {
    } else if IsBoot(l) {
      FailedThroughBoot(w, l, row);
    } else if IsMutation(l) {
      FailedThroughMutation(w, l, row);
    } else if IsUndo(l) {
      FailedThroughUndo(w, l, row);
    }
  }

  /** Over every run, crashes and restarts included, a failed row and what it left in the stores stay. */
  lemma {:induction false} FailedRowsStayForever(w: World, labels: seq<Label>, row: nat)
    requires Inv(w) && IsFailed(w.rows, row) && Run(w, labels).Some?
    ensures RowKept(w, Run(w, labels).value, row)
    decreases labels
  {
    if labels != [] {
      FailedRowsStay(w, labels[0], row);
      StepKeepsInv(w, labels[0]);
      FailedRowsStayForever(Step(w, labels[0]), labels[1..], row);
    }
  }

  /** A commit whose reply was lost: the rollback that follows finds the row committed and stops the coordinator with
      the mutation in both stores and the catalog still unpublished. */
  lemma LostCommitStops(w: World, reply: Reply)
    requires Inv(w) && w.process.Up? && w.process.pc.Verified? && w.process.pc.row < |w.rows|
    ensures Run(w, [Commit(Lost), StartUndo(reply)]).Some?
    ensures var row := w.process.pc.row;
            var after := Run(w, [Commit(Lost), StartUndo(reply)]).value;
            && after.process == w.process.(pc := Stopped)
            && after.rows == SetState(w.rows, row, RecoveryState.Committed)
            && row in after.files.done && row in after.data.done
  {
    var mid := Step(w, Commit(Lost));
    assert Run(mid, [StartUndo(reply)]) == Run(Step(mid, StartUndo(reply)), []);
  }

  // ----- undoing an effect -----

  /** Rolling back what a mutation did, whatever part of it, restores the store it found. */
  lemma RollbackRestores(s: Side, row: nat, applied: EffectReply)
    requires !Has(s, row)
    ensures Without(Apply(s, row, applied), row) == s && Without(s, row) == s
  {
    assert (s.done + [row])[..|s.done|] == s.done;
    assert s.partial + {row} - {row} == s.partial;
    assert s.partial - {row} == s.partial;
  }

  lemma {:induction false} RunAppend(w: World, first: seq<Label>, second: seq<Label>)
    requires Run(w, first).Some?
    ensures Run(w, first + second) == Run(Run(w, first).value, second)
    decreases |first|
  {
    if first == [] {
      assert first + second == second;
    } else {
      assert (first + second)[1..] == first[1..] + second;
      RunAppend(Step(w, first[0]), first[1..], second);
    }
  }

  lemma RunThen(w: World, first: seq<Label>, mid: World, second: seq<Label>, after: World)
    requires Run(w, first) == Some(mid) && Run(mid, second) == Some(after)
    ensures Run(w, first + second) == Some(after)
  {
    RunAppend(w, first, second);
  }

  lemma RunOne(w: World, l: Label)
    requires Enabled(w, l)
    ensures Run(w, [l]) == Some(Step(w, l))
  {
    assert [l][1..] == [];
  }
}
