/** The files one upload touches while it is published, operation by operation, and what a replay makes of them. */
module SfxUploads {
  import opened Common
  import opened Journal
  import opened Recovery
  import opened SfxJournal
  import opened SfxProtocol
  import opened SfxSafety
  import opened SfxOrder

  /** What a name refers to: nothing, a regular file by its identity, or something that is not a regular file. */
  datatype Node = Missing | File(id: nat) | Occupied

  datatype Files = Files(staged: Node, target: Node, backup: Node)

  datatype Verdict = Published | StageMissing | DestinationExists | ArtifactConflict | UnexpectedArtifact

  /** The states the files go through if nothing stops them, one for each operation, and the verdict then. */
  datatype Attempt = Attempt(steps: seq<Files>, verdict: Verdict)

  function PublishNew(f: Files, replay: bool): Attempt {
    if f.staged.File? && f.target.Missing? then
      Attempt([f.(target := f.staged), f.(staged := Missing, target := f.staged)], Published)
    else if f.staged.File? && f.target.File? && replay && f.staged == f.target then
      Attempt([f.(staged := Missing)], Published)
    else if f.staged.Missing? && f.target.File? && replay then Attempt([], Published)
    else if f.staged.Missing? && f.target.Missing? then Attempt([], StageMissing)
    else if f.target.Occupied? then Attempt([], ArtifactConflict)
    else Attempt([], DestinationExists)
  }

  function PublishReplacing(f: Files, replay: bool): Attempt {
    if f.target.Occupied? then Attempt([], ArtifactConflict)
    else if f.staged.File? then
      if f.target.Missing? then
        Attempt([Files(Missing, f.staged, f.backup), Files(Missing, f.staged, Missing)], Published)
      else if f.backup.Missing? then
        Attempt([Files(f.staged, Missing, f.target), Files(Missing, f.staged, f.target),
            Files(Missing, f.staged, Missing)], Published)
      else Attempt([], ArtifactConflict)
    else if replay && f.target.File? then Attempt([f.(backup := Missing)], Published)
    else if f.target.Missing? && f.backup.File? then Attempt([Files(Missing, f.backup, Missing)], StageMissing)
    else Attempt([], StageMissing)
  }

  function Publish(f: Files, replace: bool, replay: bool): Attempt {
    if f.staged.Occupied? || f.backup.Occupied? then Attempt([], UnexpectedArtifact)
    else if replace then PublishReplacing(f, replay)
    else if !f.backup.Missing? then Attempt([], ArtifactConflict)
    else PublishNew(f, replay)
  }

  /** The files after the first `stop` operations of an attempt. */
  function StoppedAfter(f: Files, a: Attempt, stop: nat): Files {
    if stop == 0 || a.steps == [] then f else if stop < |a.steps| then a.steps[stop - 1] else a.steps[|a.steps| - 1]
  }

  function Completed(f: Files, a: Attempt): Files {
    StoppedAfter(f, a, |a.steps|)
  }

  /** The files of one upload as the adapter changes them. An operation that fails, and a crash, is a `budget` that
      runs out. */
  class Upload {
    var staged: Node
    var target: Node
    var backup: Node
    var budget: nat

    function View(): Files
      reads this
    {
      Files(staged, target, backup)
    }

    /** Whether the next operation is carried out. */
    method Spend() returns (ok: bool)
      modifies this`budget
      ensures ok == (old(budget) > 0) && budget == if ok then old(budget) - 1 else 0
    {
      ok := budget > 0;
      budget := if ok then budget - 1 else 0;
    }

    method LinkNew(replay: bool) returns (verdict: Option<Verdict>)
      requires staged.File? && target.Missing?
      modifies this
      ensures View() == StoppedAfter(old(View()), PublishNew(old(View()), replay), old(budget))
      ensures verdict == if old(budget) < 2 then None else Some(Published)
    {
      var ok := Spend();
      if !ok {
        return None;
      }
      target := staged;
      ok := Spend();
      if !ok {
        return None;
      }
      staged := Missing;
      return Some(Published);
    }

    method RunNew(replay: bool) returns (verdict: Option<Verdict>)
      requires !staged.Occupied?
      modifies this
      ensures var a := PublishNew(old(View()), replay);
              View() == StoppedAfter(old(View()), a, old(budget)) && verdict == if old(budget) < |a.steps| then None
                  else Some(a.verdict)
    {
      if staged.File? && target.Missing? {
        verdict := LinkNew(replay);
      } else if staged.File? && target.File? && replay && staged == target {
        var ok := Spend();
        if !ok {
          return None;
        }
        staged := Missing;
        return Some(Published);
      } else if staged.Missing? && target.File? && replay {
        return Some(Published);
      } else if staged.Missing? && target.Missing? {
        return Some(StageMissing);
      } else if target.Occupied? {
        return Some(ArtifactConflict);
      } else {
        return Some(DestinationExists);
      }
    }

    /** The stage takes the destination's place, whose file is first put aside. */
    method MoveStage(replay: bool) returns (verdict: Option<Verdict>)
      requires staged.File? && !target.Occupied? && !backup.Occupied?
      modifies this
      ensures var a := PublishReplacing(old(View()), replay);
              View() == StoppedAfter(old(View()), a, old(budget)) && verdict == if old(budget) < |a.steps| then None
                  else Some(a.verdict)
    {
      if target.File? {
        if backup.File? {
          return Some(ArtifactConflict);
        }
        var ok := Spend();
        if !ok {
          return None;
        }
        target, backup := Missing, target;
      }
      var ok := Spend();
      if !ok {
        return None;
      }
      staged, target := Missing, staged;
      ok := Spend();
      if !ok {
        return None;
      }
      backup := Missing;
      return Some(Published);
    }

    method RunReplacing(replay: bool) returns (verdict: Option<Verdict>)
      requires !staged.Occupied? && !backup.Occupied?
      modifies this
      ensures var a := PublishReplacing(old(View()), replay);
              View() == StoppedAfter(old(View()), a, old(budget)) && verdict == if old(budget) < |a.steps| then None
                  else Some(a.verdict)
    {
      if target.Occupied? {
        return Some(ArtifactConflict);
      }
      if staged.File? {
        verdict := MoveStage(replay);
        return;
      }
      if replay && target.File? {
        var ok := Spend();
        if !ok {
          return None;
        }
        backup := Missing;
        return Some(Published);
      }
      if target.Missing? && backup.File? {
        var ok := Spend();
        if !ok {
          return None;
        }
        target, backup := backup, Missing;
      }
      return Some(StageMissing);
    }

    /** One attempt to publish, stopped by a failure or a crash after `budget` operations; None if it was stopped. */
    method Run(replace: bool, replay: bool) returns (verdict: Option<Verdict>)
      modifies this
      ensures var a := Publish(old(View()), replace, replay);
              View() == StoppedAfter(old(View()), a, old(budget)) && verdict == if old(budget) < |a.steps| then None
                  else Some(a.verdict)
    {
      if staged.Occupied? || backup.Occupied? {
        return Some(UnexpectedArtifact);
      }
      if replace {
        verdict := RunReplacing(replay);
      } else if !backup.Missing? {
        return Some(ArtifactConflict);
      } else {
        verdict := RunNew(replay);
      }
    }
  }

  // ----- attempts, each stopped somewhere -----

  /** One attempt that was stopped after some operations, as the first one or as a replay. */
  datatype Stop = Stop(after: nat, replay: bool)

  function Interrupted(f: Files, replace: bool, stops: seq<Stop>): Files
    decreases stops
  {
    if stops == [] then f
    else Interrupted(StoppedAfter(f, Publish(f, replace, stops[0].replay), stops[0].after), replace, stops[1..])
  }

  /** A file is staged, and its destination is vacant or holds another file that may be replaced. */
  predicate Ready(f: Files, replace: bool) {
    f.staged.File? && f.backup.Missing? && (f.target.Missing? || (replace && f.target.File? && f.target != f.staged))
  }

  /** Somewhere between staged and published: what was at the destination is there or put aside until the new file is
      published. */
  predicate Underway(start: Files, replace: bool, f: Files) {
    || f == start
    || f == Files(Missing, start.staged, Missing)
    || (if replace then f == Files(start.staged, Missing, start.target) ||
        f == Files(Missing, start.staged, start.target)
        else f == start.(target := start.staged))
  }

  lemma StopsKeepUnderway(start: Files, replace: bool, f: Files, stop: Stop)
    requires Ready(start, replace) && Underway(start, replace, f)
    ensures Underway(start, replace, StoppedAfter(f, Publish(f, replace, stop.replay), stop.after))
  {
  }

  lemma {:induction false} InterruptedIsUnderway(start: Files, replace: bool, f: Files, stops: seq<Stop>)
    requires Ready(start, replace) && Underway(start, replace, f)
    ensures Underway(start, replace, Interrupted(f, replace, stops))
    decreases stops
  {
    if stops != [] {
      StopsKeepUnderway(start, replace, f, stops[0]);
      InterruptedIsUnderway(start, replace, StoppedAfter(f, Publish(f, replace, stops[0].replay), stops[0].after),
          stops[1..]);
    }
  }

  /** However many attempts were stopped, and wherever, one replay that is not stopped publishes the staged file and
      leaves nothing beside it. */
  lemma ReplayPublishes(f: Files, replace: bool, stops: seq<Stop>)
    requires Ready(f, replace)
    ensures var g := Interrupted(f, replace, stops);
            Publish(g, replace, true).verdict.Published? &&
                Completed(g, Publish(g, replace, true)) == Files(Missing, f.staged, Missing)
  {
    InterruptedIsUnderway(f, replace, f, stops);
  }

  /** The answer to an attempt that is not a replay. It is published if and only if a file is staged and its place is
      vacant, or holds a file it may replace with none put aside; the stage is then gone and the file in its place.
      Otherwise nothing changes, but that a file put aside by an interrupted replacement comes back. */
  lemma FirstAttempt(f: Files, replace: bool)
    ensures var a := Publish(f, replace, false);
            var comesBack := replace && f.staged.Missing? && f.target.Missing? && f.backup.File?;
            && (a.verdict.Published? <==> f.staged.File? && if replace then !f.backup.Occupied? &&
                    (f.target.Missing? || (f.target.File? && f.backup.Missing?))
                else f.target.Missing? && f.backup.Missing?)
            && (a.verdict.DestinationExists? <==>
                !replace && !f.staged.Occupied? && f.backup.Missing? && f.target.File?)
            && (a.verdict.StageMissing? <==> f.staged.Missing? && !f.backup.Occupied? && if replace
                then !f.target.Occupied? else f.target.Missing? && f.backup.Missing?)
            && (a.verdict.UnexpectedArtifact? <==> f.staged.Occupied? || f.backup.Occupied?)
            && Completed(f, a) == if a.verdict.Published? then Files(Missing, f.staged, Missing)
                else if comesBack then Files(Missing, f.backup, Missing) else f
  {
  }

  /** What stopped attempts leave of a staged file and of whatever was at its destination: a file that may be replaced
      is put aside for as long as its place is vacant. */
  predicate Holds(start: Files, replace: bool, f: Files) {
    var arrived := f.staged.Missing? && f.target == start.staged;
    && (f.staged == start.staged || arrived)
    && (start.target.Missing? || f.target == start.target ||
        (replace && start.target.File? && (arrived || (f.target.Missing? && f.backup == start.target))))
  }

  /** Attempts lose no file. The staged file is at its stage or at its destination after every operation, and what was
      at the destination stays there unless it is a file that may be replaced; then it is put aside until the staged
      file has taken its place. */
  lemma {:induction false} AttemptsLoseNoFile(start: Files, f: Files, replace: bool, stops: seq<Stop>)
    requires start.staged.File? && Holds(start, replace, f)
    ensures Holds(start, replace, Interrupted(f, replace, stops))
    decreases stops
  {
    if stops != [] {
      AttemptsLoseNoFile(start, StoppedAfter(f, Publish(f, replace, stops[0].replay), stops[0].after), replace,
          stops[1..]);
    }
  }

  /** Once its stage is gone, an upload that never began changes nothing. */
  lemma {:induction false} DiscardedStaysPut(f: Files, replace: bool, stops: seq<Stop>)
    requires f.staged.Missing? && f.backup.Missing?
    ensures Interrupted(f, replace, stops) == f
    decreases stops
  {
    if stops != [] {
      DiscardedStaysPut(f, replace, stops[1..]);
    }
  }

  /** After any stopped attempts and one replay that is not: the uploaded file is at its destination if and only if its
      stage was not discarded, yet the replay reports success also if a file to be replaced was there. */
  lemma PublishedExactly(f: Files, replace: bool, discarded: bool, stops: seq<Stop>)
    requires Ready(f, replace)
    ensures var g := Interrupted(if discarded then f.(staged := Missing) else f, replace, stops);
            && (Completed(g, Publish(g, replace, true)).target == f.staged <==> !discarded)
            && (Publish(g, replace, true).verdict.Published? <==> !discarded || f.target.File?)
            && (discarded ==> Completed(g, Publish(g, replace, true)) == f.(staged := Missing))
  {
    if discarded {
      DiscardedStaysPut(f.(staged := Missing), replace, stops);
    } else {
      ReplayPublishes(f, replace, stops);
    }
  }

  // ----- an upload whose creation reply is lost -----

  /** How the adapter answers the coordinator: of these errors only a conflict of artifacts asks for recovery. */
  function ReplyTo(a: Attempt): EffectReply {
    if a.verdict.Published? then Success else if a.verdict.ArtifactConflict? then DirtyFailure(Untouched)
        else CleanFailure
  }

  /** The restart that finds one unfinished row, with the adapter answering as the files have it. */
  function RestartOn(row: nat, effect: EffectReply): seq<Label> {
    if effect.Success? then Restart([row])
    else ([Boot([row])] + [BootEntry(Seen)]) + ([Replay(effect)] + ([BootFail(Seen)] + [BootDone(true)]))
  }

  lemma DeclinedReplay(w: World, row: nat, m: SfxMutation)
    requires !w.conflict && RowIs(w.codec, w.rows, row, Applying, m) && Absent(w.disk, row)
    requires w.process == Starting([], Replaying(row, m))
    ensures Run(w, [Replay(CleanFailure)] + ([BootFail(Seen)] + [BootDone(true)])) ==
            Some(w.(rows := SetState(w.rows, row, Failed), process := Up(false, {}, None)))
  {
    var declined := Step(w, Replay(CleanFailure));
    var failed := Step(declined, BootFail(Seen));
    RunOne(failed, BootDone(true));
    RunOne(declined, BootFail(Seen));
    RunOne(w, Replay(CleanFailure));
    RunAppend(declined, [BootFail(Seen)], [BootDone(true)]);
    RunAppend(w, [Replay(CleanFailure)], [BootFail(Seen)] + [BootDone(true)]);
  }

  lemma Begun(w: World, row: nat, m: SfxMutation)
    requires Inv(w) && w.process.Down? && RowIs(w.codec, w.rows, row, Planned, m) && Lists([row], w.rows)
    ensures Run(w, [Boot([row])] + [BootEntry(Seen)]) ==
            Some(w.(rows := SetState(w.rows, row, Applying), process := Starting([], Replaying(row, m))))
  {
    var loaded := Step(w, Boot([row]));
    StepKeepsInv(w, Boot([row]));
    EntryLoads(loaded);
    assert [row][1..] == [];
    RunOne(loaded, BootEntry(Seen));
    RunOne(w, Boot([row]));
    RunAppend(w, [Boot([row])], [BootEntry(Seen)]);
  }

  lemma FailedReplay(w: World, row: nat, m: SfxMutation)
    requires Inv(w) && RowIs(w.codec, w.rows, row, Planned, m) && Lists([row], w.rows)
    ensures Run(w.(process := Down), RestartOn(row, CleanFailure)) ==
            Some(w.(rows := SetState(w.rows, row, Failed), process := Up(false, {}, None)))
  {
    var down := w.(process := Down);
    assert RowOk(w.codec, w.rows[row], w.disk, row);
    StepKeepsInv(w, Crash);
    Begun(down, row, m);
    var begun := Run(down, [Boot([row])] + [BootEntry(Seen)]).value;
    DeclinedReplay(begun, row, m);
    assert SetState(SetState(w.rows, row, Applying), row, Failed) == SetState(w.rows, row, Failed);
    RunAppend(down, [Boot([row])] + [BootEntry(Seen)], [Replay(CleanFailure)] + ([BootFail(Seen)] + [BootDone(true)]));
  }

  lemma LeftPlanned(w: World, m: SfxMutation)
    requires Inv(w) && AllFinished(w.rows) && Enabled(w, CreateRow(m, Lost))
    ensures var t := Run(w, [CreateRow(m, Lost)] + [Leave]);
            && t.Some? && Inv(t.value) && t.value.rows == w.rows + [Row(w.codec.encode(m), Planned)]
            && (forall s :: SetState(t.value.rows, |w.rows|, s) == w.rows + [Row(w.codec.encode(m), s)])
            && RowIs(t.value.codec, t.value.rows, |w.rows|, Planned, m) && Lists([|w.rows|], t.value.rows)
  {
    Loses(w, m);
    RunsKeepInv(w, [CreateRow(m, Lost)] + [Leave]);
    NoneUnfinished(w.rows);
    UnfinishedAppend(w.rows, Row(w.codec.encode(m), Planned));
  }

  /** The reply to an upload's creation is lost, so it is reported as failed and its stage is discarded. The next
      restart publishes nothing; it commits the upload's row if there is a file to replace, and marks it failed if
      there is none. */
  lemma LostUploadIsNotPublished(w: World, m: SfxMutation, f: Files)
    requires Inv(w) && AllFinished(w.rows) && Enabled(w, CreateRow(m, Lost)) && m.PublishUpload? &&
             Ready(f, m.replaceExisting)
    ensures var a := Publish(f.(staged := Missing), m.replaceExisting, true);
            && Completed(f.(staged := Missing), a) == f.(staged := Missing)
            && var lost := Run(w, [CreateRow(m, Lost)] + [Leave]);
               && lost.Some?
               && var t := Run(lost.value.(process := Down), RestartOn(|w.rows|, ReplyTo(a)));
                  && t.Some? && t.value.process == Up(false, {}, None)
                  && t.value.rows == w.rows + [Row(w.codec.encode(m), if f.target.File? then Committed else Failed)]
  {
    PublishedExactly(f, m.replaceExisting, true, []);
    LeftPlanned(w, m);
    var left := Run(w, [CreateRow(m, Lost)] + [Leave]).value;
    if f.target.File? {
      StaleReplay(left, |w.rows|, m);
    } else {
      FailedReplay(left, |w.rows|, m);
    }
  }
}
