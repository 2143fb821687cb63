/** What whole runs of the mode protocol show: published catalogs keep to slugs, and a failed rollback is never
    cleaned up. */
module ModeRuns {
  import opened Common
  import opened Journal
  import opened ModeCatalog
  import opened ModeProtocol
  import opened ModeSafety
  import opened Recovery

  // ----- resource ids -----

  predicate SlugsBut(modes: Modes, target: string) {
    forall id :: id in modes && id != target ==> SlugBundle(modes[id])
  }

  /** The catalog a mutation proposes: slugs outside its target mode, which is gone if the mutation deletes it. */
  predicate Proposed(m: Mutation, next: Modes) {
    SlugsBut(next, TargetMode(m)) && (m.DeleteMode? ==> TargetMode(m) !in next)
  }

  predicate PcSlugs(rows: seq<Row<Mutation>>, pc: Pc) {
    match pc
    case Staged(m, next) => Proposed(m, next)
    case Recorded(row, next) => row < |rows| && Proposed(rows[row].entry, next)
    case Journalled(row, next) => row < |rows| && Proposed(rows[row].entry, next)
    case FilesDone(row, next) => row < |rows| && Proposed(rows[row].entry, next)
    case BothDone(row, next) => row < |rows| && Proposed(rows[row].entry, next)
    case Verified(_, next) => SlugKeys(next)
    case CommitSeen(_, next) => SlugKeys(next)
    case _ => true
  }

  predicate CatalogsSlug(w: World) {
    w.process.Up? ==>
      && (w.process.current.Some? ==> SlugKeys(w.process.current.value.modes))
      && (forall k :: 0 <= k < |w.process.accepted| ==> SlugKeys(w.process.accepted[k].modes))
      && PcSlugs(w.rows, w.process.pc)
  }

  lemma PublishedSlugs(w: World, modes: Modes, sink: SinkReply)
    requires CatalogsSlug(w) && w.process.Up? && Generation(w.process.current) < U64_MAX && SlugKeys(modes)
    ensures CatalogsSlug(Published(w, modes, sink))
  {
  }

  lemma BeginSlugs(w: World, m: Mutation, prepare: PrepareReply)
    requires CatalogsSlug(w) && w.process.Up?
    ensures CatalogsSlug(StepBegin(w, m, prepare))
  {
    if w.process.current.Some? && ApplyCatalogMutation(w.process.current.value.modes, m).Ok? {
      var modes, next := w.process.current.value.modes, ApplyCatalogMutation(w.process.current.value.modes, m).value;
      OnlyTargetChanges(modes, m);
      forall id | id in next && id != TargetMode(m) ensures SlugBundle(next[id]) {
        assert id in next - {TargetMode(m)} && (next - {TargetMode(m)})[id] == next[id];
      }
    }
  }

  lemma MutationSlugs(w: World, l: Label)
    requires CatalogsSlug(w) && IsMutation(l) && w.process.Up? && EnabledMutation(w, l)
    ensures CatalogsSlug(StepMutation(w, l))
  {
  }

  lemma ReloadSlugs(w: World, load: Load, sink: SinkReply)
    requires CatalogsSlug(w) && w.process.Up?
    ensures CatalogsSlug(StepReload(w, load, sink))
  {
    if load.Loaded? && Generation(w.process.current) < U64_MAX {
      PublishedSlugs(w, load.modes, sink);
    }
  }

  lemma UndoSlugs(w: World, l: Label)
    requires CatalogsSlug(w) && IsUndo(l) && w.process.Up? && EnabledUndo(w, l)
    ensures CatalogsSlug(StepUndo(w, l))
  {
  }

  lemma BootSlugs(w: World, l: Label)
    requires CatalogsSlug(w) && IsBoot(l) && EnabledBoot(w, l)
    ensures CatalogsSlug(StepBoot(w, l))
  {
  }

  lemma StepSlugs(w: World, l: Label)
    requires CatalogsSlug(w) && Enabled(w, l)
    ensures CatalogsSlug(Step(w, l))
  {
    if l.Crash? {
    } else if IsBoot(l) {
      BootSlugs(w, l);
    } else if IsUndo(l) {
      UndoSlugs(w, l);
    } else if IsMutation(l) {
      MutationSlugs(w, l);
    } else if l.Publish? {
      PublishedSlugs(w, w.process.pc.next, l.sink);
    } else if l.Reload? {
      ReloadSlugs(w, l.load, l.sink);
    } else {
      BeginSlugs(w, l.mutation, l.prepare);
    }
  }

  lemma {:induction false} RunsKeepSlugs(w: World, labels: seq<Label>)
    requires CatalogsSlug(w) && Run(w, labels).Some?
    ensures CatalogsSlug(Run(w, labels).value)
    decreases labels
  {
    if labels != [] {
      StepSlugs(w, labels[0]);
      RunsKeepSlugs(Step(w, labels[0]), labels[1..]);
    }
  }

  /** Although an import may bring ids that are not slugs, in every run every catalog that is published or read by the
      next mutation has slug ids only: what a mutation wrote is read back from files before it is published. */
  lemma PublishedCatalogsKeepSlugs(labels: seq<Label>)
    requires Run(FRESH, labels).Some? && Run(FRESH, labels).value.process.Up?
    ensures var p := Run(FRESH, labels).value.process;
            && (p.current.Some? ==> SlugKeys(p.current.value.modes))
            && forall k :: 0 <= k < |p.accepted| ==> SlugKeys(p.accepted[k].modes)
  {
    RunsKeepSlugs(FRESH, labels);
  }

  // ----- a rollback that fails -----

  /** Start and publish a first catalog. */
  function Serve(modes: Modes): seq<Label>
    requires SlugKeys(modes)
  {
    ([Boot] + [BootDone(true)]) + [Reload(Loaded(modes, map[]), Accepted)]
  }

  /** A mutation whose write to the files stops half-way. */
  function StopHalfway(m: Mutation): seq<Label> {
    ([Begin(m, Prepared)] + [CreateRow(Seen)]) + ([StartApplying(Seen)] + [ApplyFiles(Failure(Halfway))])
  }

  /** Its rollback, in which the files do not answer. */
  const FAIL_UNDO: seq<Label> :=
    ([StartUndo(Seen)] + [UndoData(Success)]) + ([UndoFiles(Failure(Untouched))] + [EndUndo(Seen)])

  const RESTART: seq<Label> := [Crash] + ([Boot] + [BootDone(true)])

  lemma RunTwo(w: World, a: Label, b: Label)
    requires Enabled(w, a) && Enabled(Step(w, a), b)
    ensures Run(w, [a] + [b]) == Some(Step(Step(w, a), b))
  {
    RunOne(w, a);
    RunOne(Step(w, a), b);
    RunAppend(w, [a], [b]);
  }

  function Serving(modes: Modes): Process {
    Up(Some(Catalog(1, modes)), [Publication(1, modes, {})], Idle)
  }

  lemma Serves(modes: Modes)
    requires SlugKeys(modes)
    ensures Run(FRESH, Serve(modes)) == Some(FRESH.(process := Serving(modes)))
  {
    var idle := FRESH.(process := Up(None, [], Idle));
    RunTwo(FRESH, Boot, BootDone(true));
    RunOne(idle, Reload(Loaded(modes, map[]), Accepted));
    assert idle.process.accepted + [Publication(1, modes, {})] == [Publication(1, modes, {})];
    RunAppend(FRESH, [Boot] + [BootDone(true)], [Reload(Loaded(modes, map[]), Accepted)]);
  }

  lemma Stages(w: World, modes: Modes, m: Mutation)
    requires w.process == Serving(modes) && w.rows == []
    requires ApplyCatalogMutation(modes, m).Ok? && m.expectedGeneration == 1
    ensures Run(w, [Begin(m, Prepared)] + [CreateRow(Seen)]) ==
            Some(w.(rows := [Row(m, RecoveryState.Planned)],
                    process := w.process.(pc := Recorded(0, ApplyCatalogMutation(modes, m).value))))
  {
    assert w.rows + [Row(m, RecoveryState.Planned)] == [Row(m, RecoveryState.Planned)];
    RunTwo(w, Begin(m, Prepared), CreateRow(Seen));
  }

  lemma Halts(w: World, m: Mutation, next: Modes)
    requires w.rows == [Row(m, RecoveryState.Planned)] && w.process.Up? && w.process.pc == Recorded(0, next)
    requires w.files == Side([], {})
    ensures Run(w, [StartApplying(Seen)] + [ApplyFiles(Failure(Halfway))]) ==
            Some(w.(rows := [Row(m, RecoveryState.Applying)], files := Side([], {0}),
                process := w.process.(pc := Undoing(0, false))))
  {
    assert SetState(w.rows, 0, RecoveryState.Applying) == [Row(m, RecoveryState.Applying)];
    assert w.files.partial + {0} == {0};
    RunTwo(w, StartApplying(Seen), ApplyFiles(Failure(Halfway)));
  }

  lemma UndoBegins(w: World, m: Mutation)
    requires w.rows == [Row(m, RecoveryState.Applying)] && w.process.Up? && w.process.pc == Undoing(0, false)
    requires w.data == Side([], {})
    ensures Run(w, [StartUndo(Seen)] + [UndoData(Success)]) ==
            Some(w.(rows := [Row(m, RecoveryState.RollingBack)],
                process := w.process.(pc := DataUnwound(0, false, true))))
  {
    assert SetState(w.rows, 0, RecoveryState.RollingBack) == [Row(m, RecoveryState.RollingBack)];
    assert w.data.partial - {0} == {};
    RunTwo(w, StartUndo(Seen), UndoData(Success));
  }

  lemma UndoFails(w: World, m: Mutation)
    requires w.rows == [Row(m, RecoveryState.RollingBack)] && w.process.Up? &&
             w.process.pc == DataUnwound(0, false, true)
    ensures Run(w, [UndoFiles(Failure(Untouched))] + [EndUndo(Seen)]) ==
            Some(w.(rows := [Row(m, RecoveryState.Failed)], process := w.process.(pc := Stopped)))
  {
    assert SetState(w.rows, 0, RecoveryState.Failed) == [Row(m, RecoveryState.Failed)];
    RunTwo(w, UndoFiles(Failure(Untouched)), EndUndo(Seen));
  }

  lemma Restarts(w: World)
    requires AllFinished(w.rows)
    ensures Run(w, RESTART) == Some(w.(process := Up(None, [], Idle)))
  {
    NoneUnfinished(w.rows);
    var down := w.(process := Down);
    RunOne(w, Crash);
    RunTwo(down, Boot, BootDone(true));
    RunAppend(w, [Crash], [Boot] + [BootDone(true)]);
  }

  lemma StopsHalfway(w: World, modes: Modes, m: Mutation)
    requires w == FRESH.(process := Serving(modes)) && ApplyCatalogMutation(modes, m).Ok? && m.expectedGeneration == 1
    ensures Run(w, StopHalfway(m)) ==
            Some(w.(rows := [Row(m, RecoveryState.Applying)], files := Side([], {0}),
                process := w.process.(pc := Undoing(0, false))))
  {
    Stages(w, modes, m);
    Halts(Run(w, [Begin(m, Prepared)] + [CreateRow(Seen)]).value, m, ApplyCatalogMutation(modes, m).value);
    RunAppend(w, [Begin(m, Prepared)] + [CreateRow(Seen)], [StartApplying(Seen)] + [ApplyFiles(Failure(Halfway))]);
  }

  lemma FailsToUndo(w: World, m: Mutation)
    requires w.rows == [Row(m, RecoveryState.Applying)] && w.process.Up? && w.process.pc == Undoing(0, false)
    requires w.data == Side([], {})
    ensures Run(w, FAIL_UNDO) == Some(w.(rows := [Row(m, RecoveryState.Failed)], process := w.process.(pc := Stopped)))
  {
    UndoBegins(w, m);
    UndoFails(Run(w, [StartUndo(Seen)] + [UndoData(Success)]).value, m);
    RunAppend(w, [StartUndo(Seen)] + [UndoData(Success)], [UndoFiles(Failure(Untouched))] + [EndUndo(Seen)]);
  }

  /** For any catalog and any mutation it accepts, a run from an empty journal that ends with the coordinator
      restarted and idle, the mutation's row failed, and the mutation half-way in the mode files. */
  lemma FailedRollbackLeavesTraces(modes: Modes, m: Mutation)
    requires SlugKeys(modes) && ApplyCatalogMutation(modes, m).Ok? && m.expectedGeneration == 1
    ensures Run(FRESH, (Serve(modes) + StopHalfway(m)) + (FAIL_UNDO + RESTART)) ==
            Some(World([Row(m, RecoveryState.Failed)], Side([], {0}), Side([], {}), Up(None, [], Idle)))
  {
    Serves(modes);
    var serving := FRESH.(process := Serving(modes));
    StopsHalfway(serving, modes, m);
    var halted := Run(serving, StopHalfway(m)).value;
    FailsToUndo(halted, m);
    var failed := Run(halted, FAIL_UNDO).value;
    Restarts(failed);
    RunAppend(FRESH, Serve(modes), StopHalfway(m));
    RunAppend(halted, FAIL_UNDO, RESTART);
    RunAppend(FRESH, Serve(modes) + StopHalfway(m), FAIL_UNDO + RESTART);
  }
}
