/** The mode coordinator as the source runs it: reload, mutate, roll back, and recover at startup. Every method is a run
    of the protocol's steps; a crash between two of its lines is a crash between two steps of that run. */
module ModeCoordinator {
  import opened Common
  import opened Journal
  import opened ModeCatalog
  import opened ModeProtocol
  import opened ModeSafety
  import opened Recovery

  datatype LoadState = NotLoaded | Current | Degraded | LoadFailure

  datatype Status = Status(state: LoadState, generation: u64, loadedIds: set<string>)

  datatype ReloadReport = ReloadReport(loadedIds: set<string>, published: bool, generation: u64)

  datatype MutationOutcome = Report(catalog: Catalog) | RejectedWith(kind: Failure) | Fatal

  /** What the journal, the two stores, the catalog source and the sink answer to one mutation. */
  datatype Answers = Answers(prepare: PrepareReply, create: Reply, start: Reply, files: EffectReply, filesKind: Failure,
                             data: EffectReply, dataKind: Failure, load: Load, commit: Reply, sink: SinkReply,
                                 undo: UndoAnswers)

  datatype UndoAnswers = UndoAnswers(start: Reply, data: EffectReply, files: EffectReply, end: Reply)

  predicate AllWell(env: UndoAnswers) {
    env.start.Seen? && env.data.Success? && env.files.Success? && env.end.Seen?
  }

  /** The mutation is in both stores and its mode reads back as it should. */
  predicate IsWritten(m: Mutation, next: Modes, env: Answers) {
    env.files.Success? && env.data.Success? && ReadBack(m, next, env.load).Some?
  }

  /** What a mutation that is not written is refused for: the first of the three steps that failed. */
  function WriteError(env: Answers): Failure {
    if !env.files.Success? then env.filesKind else if !env.data.Success? then env.dataKind else Unavailable
  }

  /** The status once a mutation is published: its load is the newest, and its errors degrade it. */
  function StatusAfter(load: LoadReply, generation: u64): Status
    requires load.Loaded?
  {
    Status(if load.errors == map[] then Current else Degraded, generation, load.modes.Keys)
  }

  predicate IsFaultless(load: LoadReply) {
    load.Loaded? && load.errors == map[]
  }

  /** A mutation made against the current generation, accepted, and staged. */
  predicate IsStaged(current: Option<Catalog>, m: Mutation, prepare: PrepareReply) {
    && current.Some? && m.expectedGeneration == current.value.generation < U64_MAX
    && ApplyCatalogMutation(current.value.modes, m).Ok? && prepare.Prepared?
  }

  class Coordinator {
    var rows: seq<Row<Mutation>>
    var files: Side
    var data: Side
    var current: Option<Catalog>
    var snapshot: Option<Catalog>
    var status: Status
    ghost var accepted: seq<Publication>
    ghost var pc: Pc

    ghost function View(): World
      reads this
    {
      World(rows, files, data, Up(current, accepted, pc))
    }

    /** Between commands: the readers' snapshot and status show the current catalog. */
    ghost predicate Ready()
      reads this
    {
      Inv(View()) && pc.Idle? && snapshot == current && status.generation == Generation(current)
    }

    static method ChangedSince(current: Option<Catalog>, modes: Modes) returns (changed: set<PresetKey>)
      ensures changed == ChangedKeys(ModesOf(current), modes)
    {
      changed := ChangedPresets(if current.Some? then Some(current.value.modes) else None, modes);
    }

    /** Send the next generation to the sink and adopt it once taken. */
    method Offer(modes: Modes, sink: SinkReply) returns (taken: bool)
      requires Inv(View()) && AllFinished(rows) && IsLatest(current, accepted) && Generation(current) < U64_MAX
      requires snapshot == current
      modifies this`current, this`snapshot, this`accepted, this`pc
      ensures View() == Published(old(View()), modes, sink) && Inv(View())
      ensures taken == sink.Accepted? && snapshot == current
      ensures taken ==>
                && pc.Idle? && current.Some?
                && current.value.generation == Generation(old(current)) + 1 && current.value.modes == modes
      ensures !taken ==> current == old(current) && pc.Stopped?
    {
      PublishedKeeps(View(), modes, sink);
      var generation := (if current.Some? then current.value.generation else 0) + 1;
      var changed := ChangedSince(current, modes);
      if !sink.Rejected? {
        accepted := accepted + [Publication(generation, modes, changed)];
      }
      taken := sink.Accepted?;
      if !taken {
        pc := Stopped;
        return;
      }
      current := Some(Catalog(generation, modes));
      snapshot := current;
      pc := Idle;
    }

    method Degrade(loadedIds: set<string>) returns (report: Option<ReloadReport>)
      modifies this`status
      ensures status == Status(if current.Some? then Degraded else LoadFailure, Generation(current), loadedIds)
      ensures report == Some(ReloadReport(loadedIds, false, Generation(current)))
    {
      var generation := if current.Some? then current.value.generation else 0;
      status := Status(if current.Some? then Degraded else LoadFailure, generation, loadedIds);
      return Some(ReloadReport(loadedIds, false, generation));
    }

    /** Publish a faultless load as the next generation. The sink's refusal stops the coordinator. */
    method PublishLoaded(modes: Modes, sink: SinkReply) returns (report: Option<ReloadReport>)
      requires Ready() && Generation(current) < U64_MAX
      modifies this`current, this`snapshot, this`status, this`accepted, this`pc
      ensures View() == Published(old(View()), modes, sink) && Inv(View())
      ensures report.Some? ==>
              Ready() && report.value == ReloadReport(modes.Keys, true, status.generation) && status.state.Current?
      ensures report.Some? ==>
              current.Some? && current.value.generation == Generation(old(current)) + 1 && current.value.modes == modes
      ensures report.None? ==> pc.Stopped? && current == old(current) && snapshot == old(snapshot)
    {
      var taken := Offer(modes, sink);
      if !taken {
        return None;
      }
      status := Status(Current, current.value.generation, modes.Keys);
      return Some(ReloadReport(modes.Keys, true, current.value.generation));
    }

    /** Load the catalog and publish it; a load that fails or reports errors only degrades the status. A generation too
        many stops the coordinator. */
    method PerformReload(load: Load, sink: SinkReply) returns (report: Option<ReloadReport>)
      requires Ready()
      modifies this`current, this`snapshot, this`status, this`accepted, this`pc
      ensures Run(old(View()), [Reload(load, sink)]) == Some(View()) && Inv(View())
      ensures report.Some? ==> Ready() && report.value.generation == status.generation
      ensures report.None? ==> pc.Stopped? && current == old(current) && snapshot == old(snapshot)
      ensures report.None? <==>
              IsFaultless(load) && (Generation(old(current)) == U64_MAX || !sink.Accepted?)
      ensures report.Some? ==>
              && (report.value.published <==> IsFaultless(load))
              && report.value.loadedIds == (if load.Loaded? then load.modes.Keys else {})
      ensures report.Some? && report.value.published ==>
                && load.Loaded? && load.errors == map[] && status.state.Current?
                && current.Some? && current.value.generation == Generation(old(current)) + 1 &&
                   current.value.modes == load.modes
      ensures report.Some? && !report.value.published ==>
                && current == old(current) && accepted == old(accepted)
                && status.state == (if current.Some? then Degraded else LoadFailure)
    {
      RunOne(View(), Reload(load, sink));
      if load.LoadFailed? {
        report := Degrade({});
      } else if load.errors != map[] {
        report := Degrade(load.modes.Keys);
      } else if current.Some? && current.value.generation == U64_MAX {
        pc := Stopped;
        report := None;
      } else {
        report := PublishLoaded(load.modes, sink);
      }
    }

    // ----- one mutation -----

    /** Check the mutation against the current catalog and stage its effects. */
    method Stage(m: Mutation, prepare: PrepareReply) returns (refusal: Option<MutationOutcome>, next: Modes)
      requires Inv(View()) && pc.Idle?
      modifies this`pc
      ensures Run(old(View()), [Begin(m, prepare)]) == Some(View()) && Inv(View())
      ensures refusal.None? ==>
                pc == Staged(m, next) && current.Some? && current.value.generation < U64_MAX
                && ApplyCatalogMutation(current.value.modes, m) == Ok(next)
      ensures refusal.Some? ==>
                (refusal.value.RejectedWith? && View() == old(View())) || (refusal.value.Fatal? && pc.Stopped?)
      ensures current.None? ==> refusal == Some(RejectedWith(Unavailable))
      ensures current.Some? && m.expectedGeneration != current.value.generation ==> refusal == Some(RejectedWith(Stale))
      ensures current.Some? && m.expectedGeneration == current.value.generation ==>
                if current.value.generation == U64_MAX then refusal == Some(Fatal)
                else
                  match ApplyCatalogMutation(current.value.modes, m)
                  case Err(error) => refusal == Some(RejectedWith(error))
                  case Ok(_) =>
                    match prepare
                    case Prepared => refusal.None?
                    case PrepareFailed(kind) => refusal == Some(RejectedWith(kind))
                    case PlanInvalid => refusal == Some(Fatal)
    {
      RunOne(View(), Begin(m, prepare));
      BeginKeeps(View(), m, prepare);
      refusal, next := None, map[];
      if current.None? {
        return Some(RejectedWith(Unavailable)), next;
      }
      if m.expectedGeneration != current.value.generation {
        return Some(RejectedWith(Stale)), next;
      }
      if current.value.generation == U64_MAX {
        pc := Stopped;
        return Some(Fatal), next;
      }
      var edited := ApplyCatalogMutation(current.value.modes, m);
      if edited.Err? {
        return Some(RejectedWith(edited.error)), next;
      }
      if prepare.PrepareFailed? {
        return Some(RejectedWith(prepare.kind)), next;
      }
      if prepare.PlanInvalid? {
        pc := Stopped;
        return Some(Fatal), next;
      }
      next := edited.value;
      pc := Staged(m, next);
    }

    method Record(m: Mutation, next: Modes, reply: Reply) returns (recorded: bool)
      requires Inv(View()) && pc == Staged(m, next)
      modifies this`rows, this`pc
      ensures Run(old(View()), [CreateRow(reply)]) == Some(View()) && Inv(View())
      ensures if recorded then pc == Recorded(old(|rows|), next) &&
              rows == old(rows) + [Row(m, RecoveryState.Planned)] else pc.Stopped?
      ensures recorded == reply.Seen?
    {
      RunOne(View(), CreateRow(reply));
      JournalKeeps(View(), CreateRow(reply));
      recorded := reply.Seen?;
      pc := if recorded then Recorded(|rows|, next) else Stopped;
      if !reply.Refused? {
        rows := rows + [Row(m, RecoveryState.Planned)];
      }
    }

    method BeginApplying(row: nat, next: Modes, reply: Reply) returns (seen: bool)
      requires Inv(View()) && pc == Recorded(row, next)
      modifies this`rows, this`pc
      ensures Run(old(View()), [StartApplying(reply)]) == Some(View()) && Inv(View())
      ensures if seen then pc == Journalled(row, next) && row < |old(rows)| &&
              rows == SetState(old(rows), row, RecoveryState.Applying) else pc.Stopped?
      ensures seen == reply.Seen?
    {
      RunOne(View(), StartApplying(reply));
      JournalKeeps(View(), StartApplying(reply));
      rows, seen := TransitionRow(rows, row, RecoveryState.Planned, RecoveryState.Applying, reply);
      pc := if seen then Journalled(row, next) else Stopped;
    }

    method ApplyToFiles(row: nat, next: Modes, effect: EffectReply)
      requires Inv(View()) && pc == Journalled(row, next)
      modifies this`files, this`pc
      ensures Run(old(View()), [ApplyFiles(effect)]) == Some(View()) && Inv(View())
      ensures files == Apply(old(files), row, effect) && !Has(old(files), row) && !Has(data, row)
      ensures pc == if effect.Success? then FilesDone(row, next) else Undoing(row, false)
    {
      RunOne(View(), ApplyFiles(effect));
      EffectsKeep(View(), ApplyFiles(effect));
      files := Apply(files, row, effect);
      pc := if effect.Success? then FilesDone(row, next) else Undoing(row, false);
    }

    method ApplyToData(row: nat, next: Modes, effect: EffectReply)
      requires Inv(View()) && pc == FilesDone(row, next)
      modifies this`data, this`pc
      ensures Run(old(View()), [ApplyData(effect)]) == Some(View()) && Inv(View())
      ensures data == Apply(old(data), row, effect) && !Has(old(data), row)
      ensures pc == if effect.Success? then BothDone(row, next) else Undoing(row, false)
    {
      RunOne(View(), ApplyData(effect));
      EffectsKeep(View(), ApplyData(effect));
      data := Apply(data, row, effect);
      pc := if effect.Success? then BothDone(row, next) else Undoing(row, false);
    }

    /** Read the catalog back: a deleted mode must be gone, a written one must load. */
    method VerifyWritten(row: nat, next: Modes, load: Load) returns (read: Option<Modes>)
      requires Inv(View()) && pc == BothDone(row, next) && row < |rows|
      modifies this`pc
      ensures Run(old(View()), [Verify(load)]) == Some(View()) && Inv(View())
      ensures read == ReadBack(rows[row].entry, next, load)
      ensures pc == match read case Some(modes) => Verified(row, modes) case None => Undoing(row, false)
    {
      RunOne(View(), Verify(load));
      EffectsKeep(View(), Verify(load));
      var target := TargetMode(rows[row].entry);
      read := None;
      if load.Loaded? {
        if rows[row].entry.DeleteMode? {
          if target !in load.modes && target !in load.errors {
            read := Some(next);
          }
        } else if target in load.modes {
          read := Some(next[target := load.modes[target]]);
        }
      }
      pc := if read.Some? then Verified(row, read.value) else Undoing(row, false);
    }

    // ----- rolling back -----

    method BeginUndo(row: nat, fatal: bool, reply: Reply) returns (seen: bool)
      requires Inv(View()) && pc == Undoing(row, fatal) && row < |rows|
      modifies this`rows, this`pc
      ensures Run(old(View()), [StartUndo(reply)]) == Some(View()) && Inv(View())
      ensures pc == if seen then Unwinding(row, fatal) else Stopped
      ensures |rows| == old(|rows|) && (seen ==> rows == SetState(old(rows), row, RecoveryState.RollingBack))
      ensures seen == (reply.Seen? && old(rows)[row].state.Applying?) && (!seen ==> !IsFailed(rows, row))
    {
      RunOne(View(), StartUndo(reply));
      UndoKeeps(View(), StartUndo(reply));
      rows, seen := TransitionRow(rows, row, RecoveryState.Applying, RecoveryState.RollingBack, reply);
      pc := if seen then Unwinding(row, fatal) else Stopped;
    }

    method UnwindData(row: nat, fatal: bool, reply: EffectReply)
      requires Inv(View()) && pc == Unwinding(row, fatal)
      modifies this`data, this`pc
      ensures Run(old(View()), [UndoData(reply)]) == Some(View()) && Inv(View())
      ensures pc == DataUnwound(row, fatal, reply.Success?) && data == Undo(old(data), row, reply)
    {
      RunOne(View(), UndoData(reply));
      UndoKeeps(View(), UndoData(reply));
      data := Undo(data, row, reply);
      pc := DataUnwound(row, fatal, reply.Success?);
    }

    method UnwindFiles(row: nat, fatal: bool, dataOk: bool, reply: EffectReply)
      requires Inv(View()) && pc == DataUnwound(row, fatal, dataOk)
      modifies this`files, this`pc
      ensures Run(old(View()), [UndoFiles(reply)]) == Some(View()) && Inv(View())
      ensures pc == Unwound(row, fatal, dataOk && reply.Success?) && files == Undo(old(files), row, reply)
    {
      RunOne(View(), UndoFiles(reply));
      UndoKeeps(View(), UndoFiles(reply));
      files := Undo(files, row, reply);
      pc := Unwound(row, fatal, dataOk && reply.Success?);
    }

    /** Roll back the data, then the files, the second whatever came of the first. */
    method Unwind(row: nat, fatal: bool, dataReply: EffectReply, filesReply: EffectReply)
      returns (ghost trace: seq<Label>)
      requires Inv(View()) && pc == Unwinding(row, fatal)
      modifies this`files, this`data, this`pc
      ensures Run(old(View()), trace) == Some(View()) && Inv(View())
      ensures pc == Unwound(row, fatal, dataReply.Success? && filesReply.Success?)
      ensures files == Undo(old(files), row, filesReply) && data == Undo(old(data), row, dataReply)
    {
      UnwindData(row, fatal, dataReply);
      ghost var mid := View();
      UnwindFiles(row, fatal, dataReply.Success?, filesReply);
      trace := [UndoData(dataReply)] + [UndoFiles(filesReply)];
      RunThen(old(View()), [UndoData(dataReply)], mid, [UndoFiles(filesReply)], View());
    }

    method ConcludeUndo(row: nat, fatal: bool, ok: bool, reply: Reply) returns (restored: bool)
      requires Inv(View()) && pc == Unwound(row, fatal, ok) && row < |rows|
      modifies this`rows, this`pc
      ensures Run(old(View()), [EndUndo(reply)]) == Some(View()) && Inv(View())
      ensures restored <==> ok && reply.Seen?
      ensures restored ==> rows == SetState(old(rows), row, RecoveryState.RolledBack)
      ensures pc == if restored && !fatal then Idle else Stopped
      ensures IsFailed(rows, row) <==> !ok && !reply.Refused?
    {
      RunOne(View(), EndUndo(reply));
      UndoKeeps(View(), EndUndo(reply));
      var next := if ok then RecoveryState.RolledBack else RecoveryState.Failed;
      var seen;
      rows, seen := TransitionRow(rows, row, RecoveryState.RollingBack, next, reply);
      restored := ok && seen;
      pc := if restored && !fatal then Idle else Stopped;
    }

    method UnwindAndConclude(row: nat, fatal: bool, env: UndoAnswers) returns (restored: bool, ghost trace: seq<Label>)
      requires Inv(View()) && pc == Unwinding(row, fatal) && row < |rows|
      modifies this`rows, this`files, this`data, this`pc
      ensures Run(old(View()), trace) == Some(View()) && Inv(View())
      ensures pc == if restored && !fatal then Idle else Stopped
      ensures restored ==> files == Without(old(files), row) && data == Without(old(data), row)
      ensures restored ==> rows == SetState(old(rows), row, RecoveryState.RolledBack)
      ensures restored <==> env.data.Success? && env.files.Success? && env.end.Seen?
      ensures IsFailed(rows, row) <==> !(env.data.Success? && env.files.Success?) && !env.end.Refused?
    {
      trace := Unwind(row, fatal, env.data, env.files);
      ghost var mid := View();
      restored := ConcludeUndo(row, fatal, env.data.Success? && env.files.Success?, env.end);
      RunThen(old(View()), trace, mid, [EndUndo(env.end)], View());
      trace := trace + [EndUndo(env.end)];
    }

    /** Roll a mutation back. When it works both stores are without it and its journal says so. Its row is marked failed
        exactly when the rollback begins but one of the stores does not answer it well. */
    method RollBack(row: nat, fatal: bool, env: UndoAnswers) returns (restored: bool, ghost trace: seq<Label>)
      requires Inv(View()) && pc == Undoing(row, fatal) && row < |rows|
      modifies this`rows, this`files, this`data, this`pc
      ensures Run(old(View()), trace) == Some(View()) && Inv(View())
      ensures pc == if restored && !fatal then Idle else Stopped
      ensures restored ==> files == Without(old(files), row) && data == Without(old(data), row)
      ensures restored ==> rows == SetState(old(rows), row, RecoveryState.RolledBack)
      ensures restored <==> old(rows)[row].state.Applying? && AllWell(env)
      ensures IsFailed(rows, row) <==>
                && old(rows)[row].state.Applying? && env.start.Seen?
                && !(env.data.Success? && env.files.Success?) && !env.end.Refused?
    {
      restored, trace := false, [StartUndo(env.start)];
      var seen := BeginUndo(row, fatal, env.start);
      if seen {
        ghost var mid, more := View(), [];
        restored, more := UnwindAndConclude(row, fatal, env);
        RunThen(old(View()), trace, mid, more, View());
        trace := trace + more;
      }
    }

    // ----- the whole mutation -----

    method RecordAndBegin(m: Mutation, next: Modes, create: Reply, start: Reply)
      returns (row: nat, ok: bool, ghost trace: seq<Label>)
      requires Inv(View()) && pc == Staged(m, next)
      modifies this`rows, this`pc
      ensures Run(old(View()), trace) == Some(View()) && Inv(View())
      ensures row == old(|rows|) && (ok <==> create.Seen? && start.Seen?)
      ensures if ok then pc == Journalled(row, next) && rows == old(rows) + [Row(m, RecoveryState.Applying)]
              else pc.Stopped?
    {
      row, trace := |rows|, [CreateRow(create)];
      ok := Record(m, next, create);
      if ok {
        ghost var mid := View();
        ok := BeginApplying(row, next, start);
        RunThen(old(View()), trace, mid, [StartApplying(start)], View());
        trace := trace + [StartApplying(start)];
      }
    }

    /** Apply the mutation to the files, then to the data. Whatever was done, rolling it back gives the stores as they
        were. */
    method ApplyBoth(row: nat, next: Modes, filesReply: EffectReply, dataReply: EffectReply)
      returns (ghost trace: seq<Label>)
      requires Inv(View()) && pc == Journalled(row, next)
      modifies this`files, this`data, this`pc
      ensures Run(old(View()), trace) == Some(View()) && Inv(View())
      ensures pc == if filesReply.Success? && dataReply.Success? then BothDone(row, next) else Undoing(row, false)
      ensures Without(files, row) == old(files) && Without(data, row) == old(data)
      ensures pc.BothDone? ==> files == Apply(old(files), row, Success) && data == Apply(old(data), row, Success)
    {
      trace := [ApplyFiles(filesReply)];
      ApplyToFiles(row, next, filesReply);
      RollbackRestores(old(files), row, filesReply);
      RollbackRestores(old(data), row, dataReply);
      if filesReply.Success? {
        ghost var mid := View();
        ApplyToData(row, next, dataReply);
        RunThen(old(View()), trace, mid, [ApplyData(dataReply)], View());
        trace := trace + [ApplyData(dataReply)];
      }
    }

    method ApplyAndVerify(row: nat, next: Modes, env: Answers)
      returns (r: Result<Modes, Failure>, ghost trace: seq<Label>)
      requires Inv(View()) && pc == Journalled(row, next) && row < |rows|
      modifies this`files, this`data, this`pc
      ensures Run(old(View()), trace) == Some(View()) && Inv(View())
      ensures pc == match r case Ok(modes) => Verified(row, modes) case Err(_) => Undoing(row, false)
      ensures Without(files, row) == old(files) && Without(data, row) == old(data)
      ensures r.Ok? ==> files == Apply(old(files), row, Success) && data == Apply(old(data), row, Success)
      ensures r.Ok? <==> IsWritten(rows[row].entry, next, env)
      ensures if r.Ok? then ReadBack(rows[row].entry, next, env.load) == Some(r.value) else r.error == WriteError(env)
    {
      trace := ApplyBoth(row, next, env.files, env.data);
      if !env.files.Success? {
        return Err(env.filesKind), trace;
      }
      if !env.data.Success? {
        return Err(env.dataKind), trace;
      }
      ghost var mid := View();
      var read := VerifyWritten(row, next, env.load);
      RunThen(old(View()), trace, mid, [Verify(env.load)], View());
      trace := trace + [Verify(env.load)];
      r := match read case Some(modes) => Ok(modes) case None => Err(Unavailable);
    }

    method CommitRow(row: nat, modes: Modes, reply: Reply) returns (seen: bool)
      requires Inv(View()) && pc == Verified(row, modes) && row < |rows|
      modifies this`rows, this`pc
      ensures Run(old(View()), [Commit(reply)]) == Some(View()) && Inv(View())
      ensures pc == if seen then CommitSeen(row, modes) else Undoing(row, true)
      ensures |rows| == old(|rows|) && (seen ==> rows == SetState(old(rows), row, RecoveryState.Committed))
      ensures seen == reply.Seen?
    {
      RunOne(View(), Commit(reply));
      JournalKeeps(View(), Commit(reply));
      rows, seen := TransitionRow(rows, row, RecoveryState.Applying, RecoveryState.Committed, reply);
      pc := if seen then CommitSeen(row, modes) else Undoing(row, true);
    }

    method PublishCommitted(row: nat, modes: Modes, load: Load, sink: SinkReply) returns (taken: bool)
      requires Inv(View()) && pc == CommitSeen(row, modes) && snapshot == current && load.Loaded?
      modifies this`current, this`snapshot, this`status, this`accepted, this`pc
      ensures Run(old(View()), [Publish(sink)]) == Some(View()) && Inv(View())
      ensures if taken then Ready() else pc.Stopped? && current == old(current) && snapshot == current
      ensures taken ==>
              current.Some? && current.value.modes == modes && current.value.generation == Generation(old(current)) + 1
                        && |accepted| == |old(accepted)| + 1
      ensures taken == sink.Accepted?
      ensures taken ==> status == StatusAfter(load, Generation(current))
    {
      RunOne(View(), Publish(sink));
      taken := Offer(modes, sink);
      if taken {
        status := Status(if load.errors == map[] then Current else Degraded, current.value.generation, load.modes.Keys);
      }
    }

    /** Commit the journal, then publish. A commit that is not seen is rolled back as far as possible, and the
        coordinator stops. */
    method CommitAndPublish(row: nat, modes: Modes, env: Answers)
      returns (outcome: MutationOutcome, ghost trace: seq<Label>)
      requires Inv(View()) && pc == Verified(row, modes) && row < |rows| && snapshot == current && env.load.Loaded?
      modifies this
      ensures Run(old(View()), trace) == Some(View()) && Inv(View())
      ensures if env.commit.Seen? && env.sink.Accepted? then outcome.Report? && Ready() &&
              current == Some(outcome.catalog)
              else outcome.Fatal? && pc.Stopped?
      ensures outcome.Report? ==> status == StatusAfter(env.load, Generation(current))
      ensures outcome.Report? ==>
                && rows == SetState(old(rows), row, RecoveryState.Committed)
                && files == old(files) && data == old(data)
                && current.Some? && current.value.modes == modes &&
                   current.value.generation == Generation(old(current)) + 1
                && |accepted| == |old(accepted)| + 1
    {
      trace, outcome := [Commit(env.commit)], Fatal;
      var seen := CommitRow(row, modes, env.commit);
      ghost var mid := View();
      if seen {
        var published := PublishCommitted(row, modes, env.load, env.sink);
        if published {
          outcome := Report(current.value);
        }
        RunThen(old(View()), trace, mid, [Publish(env.sink)], View());
        trace := trace + [Publish(env.sink)];
      } else {
        var _, more' := RollBack(row, true, env.undo);
        RunThen(old(View()), trace, mid, more', View());
        trace := trace + more';
      }
    }

    /** Roll back a mutation that is not written, and refuse it for what went wrong. */
    method UndoAndRefuse(row: nat, error: Failure, env: UndoAnswers)
      returns (outcome: MutationOutcome, ghost trace: seq<Label>)
      requires Inv(View()) && pc == Undoing(row, false) && row < |rows| && rows[row].state.Applying?
      modifies this`rows, this`files, this`data, this`pc
      ensures Run(old(View()), trace) == Some(View()) && Inv(View())
      ensures outcome == if AllWell(env) then RejectedWith(error) else Fatal
      ensures pc == if AllWell(env) then Idle else Stopped
      ensures AllWell(env) ==>
                && files == Without(old(files), row) && data == Without(old(data), row)
                && rows == SetState(old(rows), row, RecoveryState.RolledBack)
    {
      var restored;
      restored, trace := RollBack(row, false, env);
      outcome := if restored then RejectedWith(error) else Fatal;
    }

    /** Carry out a journalled mutation: published as the next generation, rolled back without trace, or fatal. */
    method Execute(row: nat, next: Modes, env: Answers) returns (outcome: MutationOutcome, ghost trace: seq<Label>)
      requires Inv(View()) && pc == Journalled(row, next) && row < |rows| && snapshot == current &&
               status.generation == Generation(current)
      modifies this
      ensures Run(old(View()), trace) == Some(View()) && Inv(View())
      ensures outcome.Report? <==> IsWritten(old(rows)[row].entry, next, env) && env.commit.Seen? && env.sink.Accepted?
      ensures outcome.RejectedWith? <==> !IsWritten(old(rows)[row].entry, next, env) && AllWell(env.undo)
      ensures outcome.RejectedWith? ==> outcome.kind == WriteError(env) && status == old(status)
      ensures outcome.Report? ==> status == StatusAfter(env.load, Generation(current))
      ensures match outcome
              case Report(catalog) =>
                && Ready() && current == Some(catalog) && catalog.generation == Generation(old(current)) + 1 &&
                   |accepted| == |old(accepted)| + 1
                && ReadBack(old(rows)[row].entry, next, env.load) == Some(catalog.modes)
                && rows == SetState(old(rows), row, RecoveryState.Committed)
                && files == Apply(old(files), row, Success) && data == Apply(old(data), row, Success)
              case RejectedWith(_) =>
                && Ready() && current == old(current) && accepted == old(accepted) && files == old(files) &&
                   data == old(data)
                && rows == SetState(old(rows), row, RecoveryState.RolledBack)
              case Fatal => pc.Stopped?
    {
      var applied;
      applied, trace := ApplyAndVerify(row, next, env);
      ghost var mid := View();
      if applied.Err? {
        ghost var more;
        outcome, more := UndoAndRefuse(row, applied.error, env.undo);
        RunThen(old(View()), trace, mid, more, View());
        trace := trace + more;
      } else {
        ghost var more;
        outcome, more := CommitAndPublish(row, applied.value, env);
        RunThen(old(View()), trace, mid, more, View());
        trace := trace + more;
      }
    }

    /** Journal a staged mutation and carry it out. */
    method JournalAndExecute(m: Mutation, next: Modes, env: Answers)
      returns (outcome: MutationOutcome, ghost trace: seq<Label>)
      requires Inv(View()) && pc == Staged(m, next) && snapshot == current && status.generation == Generation(current)
      modifies this
      ensures Run(old(View()), trace) == Some(View()) && Inv(View())
      ensures outcome.Report? <==>
                && env.create.Seen? && env.start.Seen? && IsWritten(m, next, env)
                && env.commit.Seen? && env.sink.Accepted?
      ensures outcome.RejectedWith? <==>
              env.create.Seen? && env.start.Seen? && !IsWritten(m, next, env) && AllWell(env.undo)
      ensures outcome.RejectedWith? ==> outcome.kind == WriteError(env) && status == old(status)
      ensures outcome.Report? ==> status == StatusAfter(env.load, Generation(current))
      ensures match outcome
              case Report(catalog) =>
                && Ready() && current == Some(catalog) && catalog.generation == Generation(old(current)) + 1 &&
                   |accepted| == |old(accepted)| + 1
                && ReadBack(m, next, env.load) == Some(catalog.modes)
                && rows == old(rows) + [Row(m, RecoveryState.Committed)]
                && files == Apply(old(files), old(|rows|), Success) && data == Apply(old(data), old(|rows|), Success)
              case RejectedWith(_) =>
                && Ready() && current == old(current) && accepted == old(accepted) && files == old(files) &&
                   data == old(data)
                && rows == old(rows) + [Row(m, RecoveryState.RolledBack)]
              case Fatal => pc.Stopped?
    {
      var row, ok;
      row, ok, trace := RecordAndBegin(m, next, env.create, env.start);
      if !ok {
        return Fatal, trace;
      }
      ghost var mid := View();
      ghost var executed;
      outcome, executed := Execute(row, next, env);
      RunThen(old(View()), trace, mid, executed, View());
      trace := trace + executed;
    }

    /** A mutation is all or nothing. Reported, it is committed, in both stores, and published as the next generation,
        with no mode changed but its target. Refused, the catalog, the sink and both stores are as before, and its
        journal, if there is one, is rolled back. Anything else stops the coordinator. It is reported exactly if it was
        made against the current generation, is accepted, and everything it needs answers well; one made against another
        generation is stale and changes nothing. */
    method PerformMutation(m: Mutation, env: Answers) returns (outcome: MutationOutcome, ghost trace: seq<Label>)
      requires Ready()
      modifies this
      ensures Run(old(View()), trace) == Some(View()) && Inv(View())
      ensures old(current).None? ==> outcome == RejectedWith(Unavailable) && View() == old(View())
      ensures old(current).Some? && m.expectedGeneration != old(current).value.generation ==>
                outcome == RejectedWith(Stale) && View() == old(View())
      ensures outcome.Report? <==>
                && old(current).Some? && m.expectedGeneration == old(current).value.generation < U64_MAX
                && ApplyCatalogMutation(old(current).value.modes, m).Ok? && env.prepare.Prepared?
                && env.create.Seen? && env.start.Seen? && env.files.Success? && env.data.Success?
                && ReadBack(m, ApplyCatalogMutation(old(current).value.modes, m).value, env.load).Some?
                && env.commit.Seen? && env.sink.Accepted?
      ensures IsStaged(old(current), m, env.prepare) ==>
                var next := ApplyCatalogMutation(old(current).value.modes, m).value;
                && (outcome.RejectedWith? <==>
                    env.create.Seen? && env.start.Seen? && !IsWritten(m, next, env) && AllWell(env.undo))
                && (outcome.RejectedWith? ==> outcome.kind == WriteError(env))
      ensures !IsStaged(old(current), m, env.prepare) && old(current).Some?
              && m.expectedGeneration == old(current).value.generation ==>
                if old(current).value.generation == U64_MAX then outcome == Fatal
                else if ApplyCatalogMutation(old(current).value.modes, m).Err?
                then outcome == RejectedWith(ApplyCatalogMutation(old(current).value.modes, m).error)
                     && View() == old(View())
                else if env.prepare.PrepareFailed?
                then outcome == RejectedWith(env.prepare.kind) && View() == old(View())
                else outcome == Fatal
      ensures outcome.RejectedWith? ==> status == old(status)
      ensures outcome.Report? ==> status == StatusAfter(env.load, outcome.catalog.generation)
      ensures match outcome
              case Report(catalog) =>
                && Ready() && current == Some(catalog) && old(current).Some? && |accepted| == |old(accepted)| + 1
                && catalog.generation == old(current).value.generation + 1
                && catalog.modes - {TargetMode(m)} == old(current).value.modes - {TargetMode(m)}
                && (TargetMode(m) in catalog.modes <==> !m.DeleteMode?)
                && (!m.DeleteMode? ==>
                      TargetMode(m) in env.load.modes && catalog.modes[TargetMode(m)] == env.load.modes[TargetMode(m)])
                && rows == old(rows) + [Row(m, RecoveryState.Committed)]
                && files == Side(old(files).done + [old(|rows|)], old(files).partial)
                && data == Side(old(data).done + [old(|rows|)], old(data).partial)
              case RejectedWith(_) =>
                && Ready() && current == old(current) && accepted == old(accepted) && files == old(files) &&
                   data == old(data)
                && (rows == old(rows) || rows == old(rows) + [Row(m, RecoveryState.RolledBack)])
              case Fatal => pc.Stopped?
    {
      trace := [Begin(m, env.prepare)];
      var refusal, next := Stage(m, env.prepare);
      if refusal.Some? {
        return refusal.value, trace;
      }
      ghost var staged := View();
      ghost var executed;
      outcome, executed := JournalAndExecute(m, next, env);
      RunThen(old(View()), trace, staged, executed, View());
      trace := trace + executed;
      if outcome.Report? {
        ReadBackChangesTarget(old(current).value.modes, m, next, env.load);
      }
    }
  }

  /** The published catalog differs from the one before in the target mode only. */
  lemma ReadBackChangesTarget(modes: Modes, m: Mutation, next: Modes, load: Load)
    requires ApplyCatalogMutation(modes, m) == Ok(next) && ReadBack(m, next, load).Some?
    ensures var read := ReadBack(m, next, load).value;
            && read - {TargetMode(m)} == modes - {TargetMode(m)} && (TargetMode(m) in read <==> !m.DeleteMode?)
            && (!m.DeleteMode? ==> TargetMode(m) in load.modes && read[TargetMode(m)] == load.modes[TargetMode(m)])
  {
    OnlyTargetChanges(modes, m);
    var read := ReadBack(m, next, load).value;
    assert read - {TargetMode(m)} == next - {TargetMode(m)};
  }

  // ----- startup -----

  /** Every unfinished row rolled back, every other as it was. */
  function RolledBackRows(rows: seq<Row<Mutation>>): seq<Row<Mutation>> {
    seq(|rows|, i requires 0 <= i < |rows| =>
        if IsUnfinished(rows[i]) then rows[i].(state := RecoveryState.RolledBack) else rows[i])
  }

  /** A store without the effect of the unfinished row, if there is one; only the last row can be. */
  function WithoutUnfinished(rows: seq<Row<Mutation>>, s: Side): Side {
    if rows != [] && IsUnfinished(rows[|rows| - 1]) then Without(s, |rows| - 1) else s
  }

  class Startup {
    var rows: seq<Row<Mutation>>
    var files: Side
    var data: Side
    ghost var process: Process

    ghost function View(): World
      reads this
    {
      World(rows, files, data, process)
    }

    method BeginEntry(row: nat, reply: Reply) returns (seen: bool, ghost trace: seq<Label>)
      requires Inv(View()) && process == Starting([row], NextEntry) && row < |rows|
      modifies this`rows, this`process
      ensures trace == [BootStart(reply)] && Run(old(View()), trace) == Some(View()) && Inv(View())
      ensures process == if seen then Starting([row], BootUnwinding(row)) else Down
      ensures |rows| == old(|rows|) && (reply.Seen? ==> seen)
      ensures seen ==> rows == SetState(old(rows), row, RecoveryState.RollingBack)
    {
      trace := [BootStart(reply)];
      RunOne(View(), BootStart(reply));
      BootKeeps(View(), BootStart(reply));
      seen := true;
      if rows[row].state.RollingBack? {
        assert rows == SetState(rows, row, RecoveryState.RollingBack);
      } else if reply.Refused? {
        seen := false;
      } else {
        rows := SetState(rows, row, RecoveryState.RollingBack);
        seen := reply.Seen?;
      }
      process := if seen then Starting([row], BootUnwinding(row)) else Down;
    }

    method UnwindData(row: nat, reply: EffectReply) returns (ghost trace: seq<Label>)
      requires Inv(View()) && process == Starting([row], BootUnwinding(row))
      modifies this`data, this`process
      ensures trace == [BootUndoData(reply)] && Run(old(View()), trace) == Some(View()) && Inv(View())
      ensures process == if reply.Success? then Starting([row], BootDataUnwound(row)) else Down
      ensures data == Undo(old(data), row, reply)
    {
      trace := [BootUndoData(reply)];
      RunOne(View(), BootUndoData(reply));
      BootKeeps(View(), BootUndoData(reply));
      data := Undo(data, row, reply);
      process := if reply.Success? then Starting([row], BootDataUnwound(row)) else Down;
    }

    method UnwindFiles(row: nat, reply: EffectReply) returns (ghost trace: seq<Label>)
      requires Inv(View()) && process == Starting([row], BootDataUnwound(row))
      modifies this`files, this`process
      ensures trace == [BootUndoFiles(reply)] && Run(old(View()), trace) == Some(View()) && Inv(View())
      ensures process == if reply.Success? then Starting([row], BootUnwound(row)) else Down
      ensures files == Undo(old(files), row, reply)
    {
      trace := [BootUndoFiles(reply)];
      RunOne(View(), BootUndoFiles(reply));
      BootKeeps(View(), BootUndoFiles(reply));
      files := Undo(files, row, reply);
      process := if reply.Success? then Starting([row], BootUnwound(row)) else Down;
    }

    method ConcludeEntry(row: nat, reply: Reply) returns (seen: bool, ghost trace: seq<Label>)
      requires Inv(View()) && process == Starting([row], BootUnwound(row)) && row < |rows|
      modifies this`rows, this`process
      ensures trace == [BootEnd(reply)] && Run(old(View()), trace) == Some(View()) && Inv(View())
      ensures process == if seen then Starting([], NextEntry) else Down
      ensures seen == reply.Seen? && (seen ==> rows == SetState(old(rows), row, RecoveryState.RolledBack))
    {
      trace := [BootEnd(reply)];
      RunOne(View(), BootEnd(reply));
      BootKeeps(View(), BootEnd(reply));
      if !reply.Refused? {
        rows := SetState(rows, row, RecoveryState.RolledBack);
      }
      seen := reply.Seen?;
      process := if seen then Starting([], NextEntry) else Down;
    }

    method UnwindEntry(row: nat, env: UndoAnswers) returns (ok: bool, ghost trace: seq<Label>)
      requires Inv(View()) && process == Starting([row], BootUnwinding(row))
      modifies this`files, this`data, this`process
      ensures Run(old(View()), trace) == Some(View()) && Inv(View())
      ensures process == if ok then Starting([row], BootUnwound(row)) else Down
      ensures ok == (env.data.Success? && env.files.Success?)
      ensures ok ==> files == Without(old(files), row) && data == Without(old(data), row)
    {
      trace := UnwindData(row, env.data);
      ok := env.data.Success?;
      if ok {
        ghost var mid := View();
        ghost var more := UnwindFiles(row, env.files);
        RunThen(old(View()), trace, mid, more, View());
        trace := trace + more;
        ok := env.files.Success?;
      }
    }

    method FinishEntry(row: nat, env: UndoAnswers) returns (ok: bool, ghost trace: seq<Label>)
      requires Inv(View()) && process == Starting([row], BootUnwinding(row)) && row < |rows|
      modifies this`rows, this`files, this`data, this`process
      ensures Run(old(View()), trace) == Some(View()) && Inv(View())
      ensures process == if ok then Starting([], NextEntry) else Down
      ensures AllWell(env) ==> ok
      ensures ok ==> files == Without(old(files), row) && data == Without(old(data), row)
      ensures ok ==> rows == SetState(old(rows), row, RecoveryState.RolledBack)
    {
      ok, trace := UnwindEntry(row, env);
      if ok {
        ghost var mid := View();
        var seen, more := ConcludeEntry(row, env.end);
        RunThen(old(View()), trace, mid, more, View());
        trace := trace + more;
        ok := seen;
      }
    }

    /** Roll one unfinished journal back; any error ends the attempt, to be taken up again at the next start. */
    method RecoverEntry(row: nat, env: UndoAnswers) returns (ok: bool, ghost trace: seq<Label>)
      requires Inv(View()) && process == Starting([row], NextEntry) && row < |rows|
      modifies this`rows, this`files, this`data, this`process
      ensures Run(old(View()), trace) == Some(View()) && Inv(View())
      ensures process == if ok then Starting([], NextEntry) else Down
      ensures AllWell(env) ==> ok
      ensures ok ==> files == Without(old(files), row) && data == Without(old(data), row)
      ensures ok ==> rows == SetState(old(rows), row, RecoveryState.RolledBack)
    {
      ok, trace := BeginEntry(row, env.start);
      if ok {
        ghost var mid := View();
        var finished, more := FinishEntry(row, env);
        RunThen(old(View()), trace, mid, more, View());
        trace := trace + more;
        ok := finished;
      }
    }

    method LoadUnfinished() returns (unfinished: seq<nat>, ghost trace: seq<Label>)
      requires Inv(View()) && process.Down?
      modifies this`process
      ensures trace == [Boot] && Run(old(View()), trace) == Some(View()) && Inv(View())
      ensures unfinished == Unfinished(rows) && process == Starting(unfinished, NextEntry)
    {
      trace := [Boot];
      RunOne(View(), Boot);
      BootKeeps(View(), Boot);
      unfinished := Unfinished(rows);
      process := Starting(unfinished, NextEntry);
    }

    /** Roll back the loaded entries in turn. */
    method RecoverEntries(unfinished: seq<nat>, env: seq<UndoAnswers>) returns (ok: bool, ghost trace: seq<Label>)
      requires Inv(View()) && process == Starting(unfinished, NextEntry) && |env| == |unfinished|
      modifies this`rows, this`files, this`data, this`process
      ensures Run(old(View()), trace) == Some(View()) && Inv(View())
      ensures process == if ok then Starting([], NextEntry) else Down
      ensures (forall i :: 0 <= i < |env| ==> AllWell(env[i])) ==> ok
      ensures ok ==> rows == RolledBackRows(old(rows))
      ensures ok ==>
                && files == WithoutUnfinished(old(rows), old(files))
                && data == WithoutUnfinished(old(rows), old(data))
    {
      ok, trace := true, [];
      ghost var before := View();
      var i := 0;
      while i < |unfinished| && ok
        invariant i <= |unfinished| <= 1 && Run(before, trace) == Some(View()) && Inv(View())
        invariant process == if ok then Starting(unfinished[i..], NextEntry) else Down
        invariant (forall k :: 0 <= k < |env| ==> AllWell(env[k])) ==> ok
        invariant i == 0 ==> View() == before && ok
        invariant i == 1 && ok ==>
                    var row := unfinished[0];
                    && row < |before.rows| && rows == SetState(before.rows, row, RecoveryState.RolledBack)
                    && files == Without(before.files, row) && data == Without(before.data, row)
      {
        ghost var mid := View();
        assert unfinished == [unfinished[0]] == unfinished[0..];
        ghost var more;
        ok, more := RecoverEntry(unfinished[i], env[i]);
        RunThen(before, trace, mid, more, View());
        trace := trace + more;
        i := i + 1;
      }
      if ok {
        RecoveredIsRolledBack(before, unfinished);
      }
    }

    /** Startup rolls every unfinished journal back and then admits commands; on any error it gives up and the next
        start takes up what is left. When the journal and both stores answer, it succeeds. */
    method Recover(env: seq<UndoAnswers>, cleaned: bool) returns (ok: bool, ghost trace: seq<Label>)
      requires Inv(View()) && process.Down? && |env| == |Unfinished(rows)|
      modifies this`rows, this`files, this`data, this`process
      ensures Run(old(View()), trace) == Some(View()) && Inv(View())
      ensures process == if ok then Up(None, [], Idle) else Down
      ensures cleaned && (forall i :: 0 <= i < |env| ==> AllWell(env[i])) ==> ok
      ensures ok ==> AllFinished(rows) && rows == RolledBackRows(old(rows))
      ensures ok ==>
                && files == WithoutUnfinished(old(rows), old(files))
                && data == WithoutUnfinished(old(rows), old(data))
    {
      var unfinished;
      unfinished, trace := LoadUnfinished();
      ghost var mid := View();
      ghost var more;
      ok, more := RecoverEntries(unfinished, env);
      RunThen(old(View()), trace, mid, more, View());
      trace := trace + more;
      if ok {
        mid := View();
        FinishBoot(cleaned);
        RunThen(old(View()), trace, mid, [BootDone(cleaned)], View());
        ok, trace := cleaned, trace + [BootDone(cleaned)];
      }
    }

    method FinishBoot(cleaned: bool)
      requires Inv(View()) && process == Starting([], NextEntry)
      modifies this`process
      ensures Run(old(View()), [BootDone(cleaned)]) == Some(View()) && Inv(View())
      ensures process == if cleaned then Up(None, [], Idle) else Down
      ensures AllFinished(rows)
    {
      RunOne(View(), BootDone(cleaned));
      BootKeeps(View(), BootDone(cleaned));
      process := if cleaned then Up(None, [], Idle) else Down;
    }
  }

  lemma RecoveredIsRolledBack(w: World, unfinished: seq<nat>)
    requires Inv(w) && w.process == Starting(unfinished, NextEntry)
    ensures |unfinished| <= 1
    ensures unfinished == [] ==>
              && RolledBackRows(w.rows) == w.rows
              && WithoutUnfinished(w.rows, w.files) == w.files && WithoutUnfinished(w.rows, w.data) == w.data
    ensures unfinished != [] ==>
              var row := unfinished[0];
              && row < |w.rows| && RolledBackRows(w.rows) == SetState(w.rows, row, RecoveryState.RolledBack)
              && WithoutUnfinished(w.rows, w.files) == Without(w.files, row) &&
                 WithoutUnfinished(w.rows, w.data) == Without(w.data, row)
  {
    if unfinished == [] {
      assert RolledBackRows(w.rows) == w.rows;
    } else {
      var row := unfinished[0];
      assert RolledBackRows(w.rows) == SetState(w.rows, row, RecoveryState.RolledBack);
    }
  }
}
