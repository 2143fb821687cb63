# Verification models of the music server's core

These Dafny modules model the parts of the music server where correctness depends on many pieces of code working
together, and prove what those parts promise. `dafny verify dfyconfig.toml` checks everything.

- **Playback** (`Playback*.dfy`): the reducer behind the shared playback document, and the actor that owns the document.
  Two lanes (ambient and interrupt), a dead-reckoned clock, and the position epoch that clients use as their seek signal.
  `Playback` holds the step functions, `PlaybackCatalog` what a new catalog does to the document, and `PlaybackMachine`
  both as the source writes them, editing a document in place. `PlaybackLive` holds what each request to the actor does to
  document, clients, store and watchers, `PlaybackPublications` what watchers and restarts can rely on over every run,
  `PlaybackWitnesses` runs at the inputs where they cannot, and `PlaybackActor` the actor as the source writes it.
  `PlaybackAnswers` says what a listener gets for each command, `PlaybackService` and `PlaybackClients` when a request to
  the actor is carried out and what it means for clients, `PlaybackKept` what a catalog and a restart leave. The other
  modules say what holds of every command and every run of commands.
- **Journalled mutations** (`Recovery`, `Journal`, `Sfx*`, `Mode*`): two write-ahead journals with crash recovery. Sound
  effects roll forward at restart, modes roll back. `SfxProtocol` and `ModeProtocol` are state machines in which a crash
  may fall between any two steps, any reply of the repository may be lost, and any effect may stop half-way; `SfxSafety`
  and `ModeSafety` hold the invariants of every run, `SfxOrder` exactly when the sound-effect journal keeps its promises
  and in which order restart leaves the files, `ModeRuns` what whole runs of the mode protocol show; `SfxCoordinator` and
  `ModeCoordinator` are the coordinators' code, each method proved to be a run of its protocol. `SfxUploads` follows the
  file operations of one upload, `ModeCatalog` is the catalog the mode mutations edit, and `ModeEdits` what each of them
  does and is refused for.
- **Voice analysis** (`Voice*.dfy`): the streaming windower, with its half-overlapping frame buffer, bounded queue of
  mel frames and byte reassembly, equals a batch definition over the whole recording; `VoiceScores` says what its numbers
  mean.
- **Cleanup renames** (`Filenames`, `PortableNames`, `Cleanup*`): the allocator of unique file names, its termination and
  byte bound, what its names keep of the title, and that its renames can be applied in any order.
- **Automatic playlists** (`Playlist*.dfy`): rules, the four orders and the resolved list in `Playlists`, what rules and
  orders ask for in `PlaylistOrders`, the history of the library they are resolved from in `PlaylistLibrary`, and the
  stored list in `PlaylistViews`.
- **Sections**, **MediaPath**: greedy section boundaries, and path algebra.
- `Common`, `Text`, `Sorting`: shared vocabulary.

## What the environment may do

- A repository write is *seen* (it lands and the caller is told), *lost* (it lands and the caller gets an error, which
  the storage code allows because it reads the row back after writing) or *refused* (it does not land). A transition is
  an atomic compare-and-set. The durable playback document is written in the same three ways.
- Unfinished journals are listed in any order: the repository orders them by second and then by random id.
- An effect on files or data succeeds, or fails leaving its work untouched, half done or complete. A sound-effect failure
  that does not ask for recovery has changed nothing, and replay completes whatever part was done. A successful mode
  rollback removes whatever part was done. In `SfxProtocol` a mutation is done when the files answer so; what that answer
  is worth for an upload is proved in `SfxUploads`, operation by operation.
- The mode loader takes document ids from file names and reports none that is not a slug.
- The playback sink takes a publication, takes it although the caller gets an error, or refuses it.
- Case folding and Unicode tables, the voice decoder, the mel transform and the model, change scores and their threshold,
  the playlist signature's hash of what it covers, and random queue choices are parameters.

## Findings

Proving these properties showed where the code keeps a promise only under a condition. Each has its own lemma, stated as
an exact condition where it has one.

- A sound-effect journal whose creation reply is lost stays unfinished while no recovery is required, so a promise of the
  journal holds exactly in runs without such a loss (`SfxOrder.PromiseKeptExactly`, `CreationSafeExactly`). The mutation
  reported as failed is committed at the next restart (`LostCreationIsReplayedAtRestart`), by then possibly over a newer
  one: files keep the order of their journals exactly if no journal is recorded while another is unfinished
  (`FilesInOrderExactly`, with a run in `FirstTwoSwapped`).
- An upload that fails this way has its stage discarded although its journal is replayed. The restart publishes nothing,
  and still commits the journal if the upload was to replace a file (`SfxUploads.LostUploadIsNotPublished`,
  `PublishedExactly`).
- A mode journal marked failed after an unsuccessful rollback is terminal, so startup never retries it and what it left
  in the stores stays (`ModeSafety.FailedRowsStay`, `StoresAreTheCommittedMutations`, with a run in
  `ModeRuns.FailedRollbackLeavesTraces`).
- The in-memory check of an import does not look at cue and preset ids (`ModeCatalog.SlugsKeptExactly`,
  `ImportTakesAnyCueId`). The file store refuses ids that are not slugs when it stages and when it loads, so no such
  catalog is ever published (`ModeRuns.PublishedCatalogsKeepSlugs`).
- The signature that guards an automatic playlist, its preview included, does not cover the time a track was added. A
  deleted track that is found again may get its old id and a later time, so the signature binds the playlist exactly for
  the rules that do not order by newest (`PlaylistLibrary.SignatureBindsExactly`, with a run in `NewestIsNotSigned`).
- Deleting a track takes it out of every stored list. If it comes back before a playlist is opened, the signature is the
  stored one again and the list is not written anew, so it stays short until the signature changes or it is refreshed by
  hand (`PlaylistViews.OpenedShowsRuleExactly`, with a run for every accepted rule in `LostItemStaysLost`).
- A collision stem keeps to 240 bytes only for extensions up to 237; the resolver's own limit of 208 keeps it safe
  (`Filenames.CollisionNameFits`).
- Renames are safe in any order exactly when no two files of a folder have names that differ in case only
  (`CleanupSafety.SafeExactly`, with an example in `CaseTwinsCollide`).
- Firing an interrupt forgets whether the document was playing: it comes back exactly if the interrupt was to return to
  the ambient lane just when that lane was playing (`PlaybackHandBack.PlayStateComesBackExactly`; an interrupt over a
  paused lane starts it, `InterruptResumesPausedLane`).
- A skip that runs off the end of the queue drops the current track from the running order
  (`PlaybackQueue.SkipKeepsTracksExactly`).
- A catalog without a live track changes the lanes under the same epoch (`PlaybackCatalog.PruneKeepsSeekRuleExactly`,
  with a run in `PlaybackWitnesses.DroppedTrackKeepsEpoch`). If it drops an interrupt under which the ambient lane ran on,
  that lane's clock is set anew without the time since it was last set, so its position falls back
  (`PlaybackCatalog.DroppedInterruptRewindsExactly`, with a run in `PlaybackWitnesses.DroppedInterruptRewinds`).
- Renaming a client publishes the new name under the revision published before, so two publications have equal revisions
  exactly if everything after the first is such a refresh (`PlaybackPublications.PublicationsOfEveryRun`, with a run in
  `PlaybackWitnesses.RefreshRepeatsRevision`). A client that drops only lower revisions (`frontend/src/core/playerStore.ts`)
  takes both.
- A client that comes or goes without changing anything durable is published under a new revision that is not saved, so the
  saved revision is the published one exactly if there was no such change since the last save, and otherwise revisions
  fall at the next start (`PlaybackPublications.SavedRevisionExactly`, `RestartFallsExactly`, with a run in
  `PlaybackWitnesses.PresenceIsNotSaved`). The same client forgets the last revision when it connects anew.

## Model

| member | source | states |
|---|---|---|
| `PlaybackInvariants.EveryCommandMovesWell` | crates/music-domain/src/playback.rs:429-627 | From a state whose lanes are well-formed, every accepted command keeps them so, moves the epoch up by at most one, and, unless it is a position report, with the epoch unchanged leaves both tracks and both positions read at the clock unchanged |
| `PlaybackInvariants.ReportMoves` | crates/music-domain/src/playback.rs:859-881 | A position report may correct a position but never changes a track or the epoch, and leaves the lanes well-formed |
| `PlaybackRuns.EveryRunKeepsInvariants` | crates/music-domain/src/playback.rs:429-627 | Over every run of commands with a non-decreasing clock, output policies and restarts: lanes stay well-formed with positions at most the largest signed 64-bit value, at most one output is active while multiple outputs are off, and looping-effect ids stay pairwise distinct |
| `PlaybackRuns.AnchorRule` | crates/music-domain/src/playback.rs:659-695 | In every state a run can reach: an ambient anchor implies playing, a current track and no pausing interrupt; without an interrupt the anchor exists exactly when a track is playing; an interrupt always has an anchor |
| `PlaybackRuns.SeekRule` | clients/README.md:141-148 | The client contract: unchanged epoch means the same tracks, and after anything but a position report the same positions; every bump is published and saved at once |
| `PlaybackRuns.EqualEpochsMeanSameTracks` | clients/README.md:116 | Over a whole session the epoch never falls, and equal epochs at two instants mean the same tracks at both |
| `PlaybackRuns.UnchangedMeansEqual` | crates/music-domain/src/playback.rs:597-626 | A command reported as not changed returns the very document it was given, and nothing is published |
| `PlaybackRuns.StartupEstablishesInvariants` | crates/music-application/src/playback/persistence.rs:154-191 | Whatever document was stored, it decodes to one inside the lane and room invariants |
| `PlaybackRuns.EveryCommandKeepsRoom` | crates/music-domain/src/playback.rs:443-450 | Every accepted command keeps at most one output while multiple outputs are off, and looping ids distinct |
| `PlaybackRuns.CueLoopsDistinct` | crates/music-domain/src/playback.rs:775-843 | A valid cue replaces its own loops and keeps all looping ids distinct |
| `PlaybackHandBack.PausingInterruptHandsBack` | crates/music-domain/src/playback.rs:1088-1173 | Across a pausing interrupt with any skips, seeks, reports, replacements and policy changes, the ambient track, queue, history and position at the end are those it had when the interrupt fired, and the lane runs exactly if the document plays |
| `PlaybackHandBack.PlayStateComesBackExactly` | crates/music-domain/src/playback.rs:1088-1173 | Once the interrupt, or the last one to replace it, has ended, the document plays as it did before firing if and only if it was playing exactly when that interrupt is to return to the ambient lane; the ambient clock runs or stands as before if and only if that holds or no track is current |
| `PlaybackHandBack.DuckingInterruptLetsAmbientRun` | crates/music-domain/src/playback.rs:1088-1116 | Across a ducking interrupt fired while the ambient lane runs, its position advances by exactly the elapsed time, up to the largest position, and its track, queue and history stay |
| `PlaybackHandBack.InterruptResumesPausedLane` | crates/music-domain/src/playback.rs:1103-1116 | The failing input: an interrupt fired over a paused ambient lane and ended with a return starts the lane from where it was paused, two epochs on |
| `PlaybackHandBack.MaterializeComposes` | crates/music-domain/src/playback.rs:630-637 | Materializing at one instant and then at a later one equals materializing at the later one |
| `PlaybackHandBack.SnapshotsReduceAlike` | crates/music-domain/src/playback.rs:630-671 | Reducing a command on a materialized snapshot and on the live document gives outcomes no reader can tell apart |
| `PlaybackHandBack.SnapshotsRunAlike` | crates/music-domain/src/playback.rs:630-637 | The same over whole runs: a snapshot replayed through any commands reads the same as the live document |
| `PlaybackQueue.SkipKeepsOrder` | crates/music-domain/src/playback.rs:937-1008 | In order, a skip into a non-empty queue leaves history, current track and queue together unchanged |
| `PlaybackQueue.SkipPreviousUndoesSkip` | crates/music-domain/src/playback.rs:937-1025 | Unless a track is looped, going back exactly undoes a skip |
| `PlaybackQueue.SkipKeepsTracksExactly` | crates/music-domain/src/playback.rs:937-1008 | With any random choice a skip keeps the multiset of tracks if and only if the queue is non-empty or the loop mode repeats the track or the queue |
| `PlaybackQueue.PlaySequenceArranges` | crates/music-domain/src/playback.rs:1060-1086 | Playing a sequence arranges exactly its tracks with the cursor at the requested one, clamped to the last |
| `PlaybackQueue.FullCircle` | crates/music-domain/src/playback.rs:937-1008 | Looping a queue of n tracks, n skips return to the starting arrangement |
| `PlaybackMachine.Document.FireInterrupt` | crates/music-domain/src/playback.rs:1088-1119 | Editing the document field by field gives the specified interrupt step, or the specified error |
| `PlaybackMachine.Document.AmbientSkipNext` | crates/music-domain/src/playback.rs:937-1008 | Editing the document field by field gives the specified skip, or the specified error |
| `PlaybackMachine.Document.ReplaceCueLoops` | crates/music-domain/src/playback.rs:775-843 | The loops that replace a cue's looping effects give the specified room, change flag and ordered events |
| `PlaybackOutputs.NewestRequestedWins` | crates/music-domain/src/playback.rs:727-736 | A single-output room asked for several outputs takes the last one requested that is not active yet, and the last one requested if all are |
| `PlaybackOutputs.SoleNewcomerWins` | crates/music-domain/src/playback.rs:1519-1552 | Asking a single-output room for its active outputs and one more, in any order, moves it to the new one |
| `PlaybackOutputs.LongestRunningOutputStays` | crates/music-domain/src/playback.rs:707-723 | Over every run in which no outputs are chosen and this one is not removed, devices connecting by default and modes changing their policy included, the output that has played longest stays first, and is the only one whenever the policy allows one |
| `PlaybackCatalog.PruneKeepsSeekRuleExactly` | crates/music-application/src/playback/actor.rs:1723-1814 | A new catalog never moves the epoch; tracks stay the same if and only if the catalog has the track of each lane, and then positions do too |
| `PlaybackCatalog.DroppedInterruptRewindsExactly` | crates/music-application/src/playback/actor.rs:1751-1762 | When the catalog has lost only the interrupt's track, the ambient position read afterwards is the one last stored, which is the one read before if and only if the lane was not running on under the interrupt, had just been anchored or was at the largest position |
| `PlaybackCatalog.PrunedRefersWithin` | crates/music-application/src/playback/actor.rs:1723-1814 | After pruning, tracks, soundboard, presets and loops all exist in the catalog, and the active mode decides how many outputs may play |
| `PlaybackCatalog.NothingToPrune` | crates/music-application/src/playback/actor.rs:1723-1814 | A document within its catalog is left as it is and reported unchanged, so pruning twice prunes once |
| `PlaybackCatalog.PruneKeepsInvariants` | crates/music-application/src/playback/actor.rs:1723-1814 | Pruning keeps the lane and room invariants of every run |
| `PlaybackMachine.Document.PruneForCatalog` | crates/music-application/src/playback/actor.rs:1723-1814 | Editing the document field by field gives the specified pruned document, change flag and error |
| `PlaybackWitnesses.DroppedTrackKeepsEpoch` | crates/music-application/src/playback/actor.rs:1723-1814 | The failing run: a track is started on a new installation and a new library lacks it, so two publications show different tracks under one epoch |
| `PlaybackWitnesses.DroppedInterruptRewinds` | crates/music-application/src/playback/actor.rs:1751-1762 | The failing run: a track is started, an interrupt ducks it, and later a new library lacks only the interrupt's track; the ambient track, which ran on until then, is back at its start under the same epoch |
| `PlaybackPublications.LaunchedIsOk` | crates/music-application/src/playback/actor.rs:521-582 | A start that succeeds has saved the stored document, decoded and pruned for its catalog, and shows just that, not playing and with no interrupt and no client |
| `PlaybackPublications.PublicationsOfEveryRun` | crates/music-application/src/playback/actor.rs:1255-1258 | Of any two publications of a run the later has no lower revision and no lower epoch; the revisions are equal if and only if everything published after the first is a metadata refresh; and equal epochs mean the same tracks unless a catalog dropped a live track in between |
| `PlaybackPublications.RevisionsCountChanges` | crates/music-application/src/playback/actor.rs:1494-1502 | Between two publications the revision grows by exactly the number of publications that are not a refresh |
| `PlaybackPublications.NothingShownUnsaved` | crates/music-application/src/playback/actor.rs:1209-1236 | A request shows nothing or one publication of the document and clients as they then are; a change or a pruning was saved first, a presence change leaves the document alone with nothing waiting to be saved, a refresh changes clients only; a request that stops the actor changes nothing but what is saved |
| `PlaybackPublications.SavedRevisionExactly` | crates/music-application/src/playback/actor.rs:1209-1236 | While the actor runs, the saved revision is the published one if and only if no presence change was published since the last save; all else that is saved is the live document but for reported positions |
| `PlaybackPublications.RestartFallsExactly` | crates/music-application/src/playback/actor.rs:521-582 | However a run ends, the next start publishes a lower revision than was published last if and only if a presence change was published since the last save |
| `PlaybackPublications.RequestKeeps` | crates/music-application/src/playback/actor.rs:777-918 | Commands, catalogs, flushes and connections, each with its write seen, lost or refused, keep the document well-formed and under its policy, the publications in order, and what is saved behind by the presence changes published since |
| `PlaybackPublications.ReductionFits` | crates/music-application/src/playback/actor.rs:919-994 | With the output policy applied after it, every reduction still moves the epoch with the tracks, and one that changes nothing or only reports a position leaves the policy alone too |
| `PlaybackWitnesses.RefreshRepeatsRevision` | crates/music-application/src/playback/actor.rs:1130-1163 | The run in which a client joins and is then renamed by the operator: two publications show different clients under one revision |
| `PlaybackWitnesses.PresenceIsNotSaved` | crates/music-application/src/playback/actor.rs:1209-1236 | The run in which a client joins and leaves: revision 2 is published, revision 1 is saved, and the next start publishes 1 again |
| `PlaybackActor.Actor.Start` | crates/music-application/src/playback/actor.rs:521-582 | Loading, pruning and serving in place is the specified start: it writes only what decoding or pruning changed, and ends without an actor if a write is not seen to succeed |
| `PlaybackActor.Actor.Execute` | crates/music-application/src/playback/actor.rs:919-994 | Reducing a command and settling it in place is the specified step, answer and error included; whatever it shows was saved first, and if it stops the actor nothing but what is saved has changed |
| `PlaybackActor.Actor.ReplaceCatalog` | crates/music-application/src/playback/actor.rs:1165-1206 | Adopting a catalog in place is the specified step, answer and error included; whatever it shows was saved first, and if it stops the actor nothing but what is saved has changed |
| `PlaybackActor.Actor.FlushPosition` | crates/music-application/src/playback/actor.rs:1238-1253 | Reported positions are saved, or the actor stops |
| `PlaybackActor.Actor.OpenConnection` | crates/music-application/src/playback/actor.rs:1021-1030 | A new connection takes the next id and stands for no client yet; when ids have run out it is refused and nothing changes |
| `PlaybackActor.Actor.RegisterConnection` | crates/music-application/src/playback/actor.rs:1032-1088 | Registering a connection through the reducer is the specified step: a displaced client gives up its output unless another connection stands for it, and the new one joins; the change is saved before it is shown unless it is one of presence only |
| `PlaybackActor.Actor.Disconnect` | crates/music-application/src/playback/actor.rs:1090-1128 | Closing a connection is the specified step: the last connection of a client takes its output with it; the change is saved before it is shown unless it is one of presence only |
| `PlaybackActor.Actor.RefreshClientMetadata` | crates/music-application/src/playback/actor.rs:1130-1163 | Editing every connection of a client is the specified step: nothing is saved and the revision stays |
| `PlaybackService.CommandIsServed` | crates/music-application/src/playback/actor.rs:919-994 | When a command is owed: refused for an unknown reference or by the reducer it changes nothing; a position report is adopted and waits to be saved; any other change is adopted under the policy of the mode then active, saved and shown if the write is seen, and stops the actor otherwise |
| `PlaybackService.CatalogIsServed` | crates/music-application/src/playback/actor.rs:1165-1206 | An older catalog is refused, a newer one adopted; if the document differs once pruned for it, that is saved and shown with it, or stops the actor |
| `PlaybackService.FlushIsServed` | crates/music-application/src/playback/actor.rs:1238-1253 | Positions that wait are saved if the write is seen, and stop the actor otherwise |
| `PlaybackService.CloseIsServed` | crates/music-application/src/playback/actor.rs:1090-1128 | Exactly when closing a connection is carried out: it is saved first if it takes an output away or positions wait, and shown if clients or outputs differ |
| `PlaybackService.RegistrationIsServed` | crates/music-application/src/playback/actor.rs:1032-1088 | Exactly when a registration is accepted and carried out, with the reason otherwise |
| `PlaybackService.RenamingIsServed` | crates/music-application/src/playback/actor.rs:1130-1163 | A renaming reaches every connection of the client and no other, and is shown exactly if that changes what is shown |
| `PlaybackClients.ClientsAreShown` | crates/music-application/src/playback/actor.rs:1540-1560 | A client is shown if and only if some connection stands for it, as the latest such connection has it, under the remembered name if there is one |
| `PlaybackClients.ClosingTakesOutput` | crates/music-application/src/playback/actor.rs:1090-1128 | After a connection closes its client plays only if it did and another connection stands for it; all others play on |
| `PlaybackClients.RegisteringTakesOutput` | crates/music-application/src/playback/actor.rs:1032-1088 | Once a connection stands for another client, the one it stood for plays only if another connection stands for it, the new one joins if it is a default output and there is room, and all others play on |
| `PlaybackKept.AmbientIsPruned` | crates/music-application/src/playback/actor.rs:1723-1814 | The ambient lane keeps exactly the tracks the catalog has, as often as they were and in their order; without its current track it is at the start and the document stops |
| `PlaybackKept.InterruptIsPruned` | crates/music-application/src/playback/actor.rs:1723-1814 | The interrupt goes exactly if its track does, and otherwise keeps exactly the queued tracks the catalog has |
| `PlaybackKept.RoomIsPruned` | crates/music-application/src/playback/actor.rs:1723-1814 | A room keeps of soundboard, presets and loops exactly what its mode has, nothing if the mode is gone, and plays through as many outputs as the mode allows |
| `PlaybackKept.RestartBringsBack` | crates/music-application/src/playback/persistence.rs:154-191 | A saved document comes back paused, with the ambient lane at the position read when it was saved, its settings, revision and epoch, and without interrupt, loops and outputs |
| `PlaybackKept.LaunchIsServed` | crates/music-application/src/playback/actor.rs:521-582 | A start succeeds if and only if each write it needs is seen: one if there was no document or reading changed it, one if the catalog does |
| `PlaybackMachine.Reduce` | crates/music-domain/src/playback.rs:429-627 | The imperative reducer, which clones the document and edits the clone, gives the next state, change flag, publication, urgency, events and errors of the step functions; what each command then does is stated by PlaybackAnswers without them |
| `PlaybackAnswers.SeekLands` | crates/music-domain/src/playback.rs:1027-1039 | A seek with a current track reads exactly the position asked for, up to the largest, one epoch on, with track, queue, history, interrupt and room as they were; it is refused only when epochs have run out |
| `PlaybackAnswers.TrackStarts` | crates/music-domain/src/playback.rs:883-899 | A track played on its own starts at its beginning with nothing before or after it |
| `PlaybackAnswers.JumpPlaysEntry` | crates/music-domain/src/playback.rs:910-928 | A jump plays the queue entry asked for from its beginning, files the current track, drops the entries before it and keeps those behind it |
| `PlaybackAnswers.SequenceStarts` | crates/music-domain/src/playback.rs:1060-1086 | A sequence plays from the entry asked for, clamped to the last, with the others around it and its source remembered |
| `PlaybackAnswers.SkipPlaysNext` | crates/music-domain/src/playback.rs:937-1008 | What follows a skip in every loop and shuffle mode, when a skip is ignored, and exactly when a missing or impossible draw or the last epoch refuses it |
| `PlaybackAnswers.PreviousPlays` | crates/music-domain/src/playback.rs:1010-1025 | Going back plays the track played last and puts the current one first in the queue; with none played before, the current one starts anew |
| `PlaybackAnswers.StopEmpties` | crates/music-domain/src/playback.rs:1041-1058 | Stopping empties the lane one epoch on, unless it is empty |
| `PlaybackAnswers.EnqueuePlaces` | crates/music-domain/src/playback.rs:930-935 | A track goes into the queue at the place asked for, at the end if there are fewer entries, and the others keep their order |
| `PlaybackAnswers.QueueIsSet` | crates/music-domain/src/playback.rs:901-908 | Setting and clearing leave exactly the queue asked for; a new queue forgets its source |
| `PlaybackAnswers.ModesAreSet` | crates/music-domain/src/playback.rs:429-627 | Loop and shuffle mode become those asked for, and nothing else changes |
| `PlaybackAnswers.PlayingIsSet` | crates/music-domain/src/playback.rs:681-695 | The document plays or not as asked, with the position unchanged at that moment and standing while paused |
| `PlaybackAnswers.ReportIsTaken` | crates/music-domain/src/playback.rs:859-881 | A report sets the position of the lane that is heard, is remembered with sender and time, waits to be saved and is not published |
| `PlaybackAnswers.InterruptStarts` | crates/music-domain/src/playback.rs:1088-1119 | An interrupt plays its first track from the beginning with the fades asked for; the ambient position reads as before, and goes on exactly if it is ducked |
| `PlaybackAnswers.InterruptSeekLands` | crates/music-domain/src/playback.rs:1142-1154 | A seek in the interrupt reads exactly the position asked for, up to the largest, and leaves the ambient lane alone |
| `PlaybackAnswers.InterruptSkipPlaysNext` | crates/music-domain/src/playback.rs:1121-1140 | A skip in the interrupt plays its next track from the beginning, or hands back behind the last; one meant for another track is ignored |
| `PlaybackAnswers.CancelHandsBack` | crates/music-domain/src/playback.rs:1156-1173 | Ending an interrupt leaves the ambient lane reading as it did, and playing exactly if the document played and the interrupt was to return to it |
| `PlaybackAnswers.CueStartsAt` | crates/music-domain/src/playback.rs:775-843 | A valid cue plays its list from the entry and position it names, clamped; without a list it leaves both lanes alone; an invalid one is refused |
| `PlaybackAnswers.CueSetsRoom` | crates/music-domain/src/playback.rs:775-843 | A cue sets its preset and fade if it has them, and puts its loops in place of its own earlier ones, behind all others |
| `PlaybackAnswers.PresetsAreSet` | crates/music-domain/src/playback.rs:754-773 | Exactly the presets asked for are active, each once, in the order of first mention |
| `PlaybackAnswers.PresetsAreRevised` | crates/music-domain/src/playback.rs:429-627 | New preset content gets the next revision, with the presets and the fade it brings, or is refused when revisions have run out |
| `PlaybackAnswers.ModeIsSet` | crates/music-domain/src/playback.rs:697-705 | Another mode starts without presets and soundboard; the same one keeps them |
| `PlaybackAnswers.SoundboardIsSet` | crates/music-domain/src/playback.rs:429-627 | The soundboard becomes the one asked for |
| `PlaybackAnswers.VolumeIsSet` | crates/music-domain/src/playback.rs:746-752 | One device gets the volume asked for, and no other |
| `PlaybackAnswers.CrossfadeIsSet` | crates/music-domain/src/playback.rs:845-857 | Fade time and, if asked for, kind are set |
| `PlaybackAnswers.OutputsAreSet` | crates/music-domain/src/playback.rs:429-627 | Where several outputs may play, or at most one is asked for, exactly those asked for play |
| `PlaybackAnswers.DeviceJoins` | crates/music-domain/src/playback.rs:707-723 | A device that connects is known at the default volume unless it was known, and starts to play exactly if it asks to and several may play or none does |
| `PlaybackAnswers.DeviceLeaves` | crates/music-domain/src/playback.rs:738-744 | A removed device no longer plays; all others do, in their order |
| `PlaybackAnswers.LoopStarts` | crates/music-domain/src/playback.rs:597-606 | A loop that starts replaces one of its id, says so, and leaves all others |
| `PlaybackAnswers.LoopStops` | crates/music-domain/src/playback.rs:607-618 | A loop that stops is gone and is said to have stopped exactly if there was one; all others stay |
| `PlaybackAnswers.EffectLeavesAlone` | crates/music-domain/src/playback.rs:429-627 | A sound effect changes nothing |
| `PlaybackAnswers.EffectsAreSent` | crates/music-domain/src/playback.rs:429-627 | Which transient events each command sends, in order |
| `Recovery.ValidateJson` | crates/music-application/src/recovery.rs:275-303 | Within the size limit, the worklist validator accepts exactly the documents with at most 16384 nodes and depth at most 64, reports the right error otherwise, and terminates on every tree |
| `Recovery.ExpandedCount` | crates/music-application/src/recovery.rs:275-303 | Expanding the top entry of the worklist accounts for exactly one node |
| `Recovery.ExpandedFits` | crates/music-application/src/recovery.rs:275-303 | Expanding the top entry preserves, in both directions, that everything pending fits its depth |
| `SfxJournal.JournalRoundTrip` | crates/music-application/src/sfx.rs:98-182 | What a mutation writes to the journal, operation name and plan, is exactly what restart reads back |
| `SfxJournal.PlanHasGoodShape` | crates/music-application/src/sfx.rs:112-141 | No plan is refused by the journal for its shape: at most four nodes, one level deep |
| `SfxSafety.StepKeepsInv` | crates/music-application/src/sfx.rs:557-713 | Every step, crash or restart step of any task, lost replies included, keeps: each row decodes, a committed mutation is on disk once and whole, planned and failed ones are not there at all, and no transition ever conflicts |
| `SfxSafety.RunsKeepInv` | crates/music-application/src/sfx.rs:557-713 | The same over every run |
| `SfxSafety.CommittedOnDiskOnce` | crates/music-application/src/sfx.rs:572-636 | At every moment of every run a committed mutation is on disk exactly once, whole, and as it was recorded |
| `SfxSafety.FinishedMeansExactlyCommitted` | crates/music-application/src/sfx.rs:645-697 | When every journal is finished the files are the committed mutations, each once and none half done, and in row order if and only if they were applied in row order |
| `SfxOrder.PromiseKeptExactly` | crates/music-application/src/sfx.rs:561-570 | At most one journal unfinished, none while the gate is free and no recovery is required: this holds throughout a run, and however it goes on short of a lost creation, if and only if the run has lost no creation |
| `SfxOrder.FilesInOrderExactly` | crates/music-application/src/sfx.rs:645-697 | The files come out in row order, throughout a run and however it goes on short of new mutations, if and only if no row is recorded while another is unfinished |
| `SfxOrder.FirstTwoSwapped` | crates/music-storage/src/recovery.rs:13-48 | The failing run from a fresh installation: a creation is lost, a second mutation is committed, a restart then replays the first over it, so that the files hold the two in the opposite order of their rows |
| `SfxOrder.StaleMutationOvertakes` | crates/music-application/src/sfx.rs:645-697 | The same from any state at rest |
| `SfxOrder.OvertakingIsUnsafe` | crates/music-storage/src/recovery.rs:60-82 | Because unfinished journals are listed by second and then by random id, recording a row while another is unfinished always opens a way for restart to leave the files out of order |
| `SfxOrder.CreationSafeExactly` | crates/music-storage/src/recovery.rs:13-48 | A creation keeps that promise if and only if its reply is not lost: the repository inserts and then reads back, so an insert can land and still be reported as an error |
| `SfxOrder.LostCreationEscapes` | crates/music-application/src/sfx.rs:572-636 | After a lost creation reply the gate is free and no recovery is required although a journal is unfinished |
| `SfxSafety.FilesAreTheCommittedMutations` | crates/music-application/src/sfx.rs:572-713 | In every run from a fresh installation no transition conflicts, and once startup succeeds every journal is finished and the files are the committed mutations, each exactly once, none half done |
| `SfxOrder.RestartRollsForward` | crates/music-application/src/sfx.rs:645-697 | From any crash, an undisturbed restart commits every unfinished journal and completes its mutation exactly once, in whatever order the journals are listed, and serves |
| `SfxOrder.LostCreationIsReplayedAtRestart` | crates/music-application/src/sfx.rs:645-697 | However long the coordinator goes on after a lost creation, the next undisturbed restart commits that mutation, once, unless it has been dealt with before |
| `SfxSafety.ProgressIsReplayable` | crates/music-application/src/sfx.rs:200-230 | Wherever applying a mutation stops, replaying it completes it, and does nothing when it was complete |
| `SfxCoordinator.Coordinator.ExecuteMutation` | crates/music-application/src/sfx.rs:572-636 | A mutation succeeds if and only if the creation, the move to applying and the commit are seen and the effect succeeds; each other answer has its error, and closes the coordinator or not, as stated; success means the mutation is on disk and committed; an error that does not close it leaves the disk untouched, and its row unfinished if and only if the creation reply was lost |
| `SfxCoordinator.Coordinator.PublishUploads` | crates/music-application/src/sfx.rs:491-547 | A batch succeeds if and only if every upload is skipped with its stage discarded, or published with four good answers and a file; the results are those of the uploads in order, published ones with the rows in order; otherwise the first upload that cannot succeed decides the error, everything before it is committed and everything after it discarded; its own stage is discarded exactly when no recovery is required, and gone while its row is left to a restart if and only if the creation reply was lost |
| `SfxUploads.ReplayPublishes` | crates/music-media/src/sfx.rs:876-980 | However many attempts at publishing an upload stopped, and after whichever file operation, one replay that is not stopped puts the uploaded file at its destination and leaves nothing beside it |
| `SfxUploads.PublishedExactly` | crates/music-media/src/sfx.rs:876-980 | After any stopped attempts and one replay the uploaded file is at its destination if and only if its stage was not discarded; the replay reports success also if a file to be replaced was there |
| `SfxUploads.FirstAttempt` | crates/music-media/src/sfx.rs:876-980 | An attempt that is not a replay publishes if and only if a file is staged and its place is vacant or holds a file it may replace with none put aside; each other answer has its exact condition and leaves the files alone, but that a file put aside comes back where its stage is gone |
| `SfxUploads.AttemptsLoseNoFile` | crates/music-media/src/sfx.rs:876-980 | However many attempts stopped and wherever, the staged file is at its stage or at its destination, and what was at the destination is there unless it is a file that may be replaced, which is put aside until the staged file has taken its place |
| `SfxUploads.LostUploadIsNotPublished` | crates/music-application/src/sfx.rs:491-547 | At that input: after a lost creation reply the stage is discarded, and the next restart publishes nothing and changes no file, yet commits the row if there is a file to replace and fails it if there is none |
| `SfxUploads.Upload.Run` | crates/music-media/src/sfx.rs:284-336 | The file operations, stopped anywhere, leave exactly the files of that step of the attempt |
| `Journal.TransitionRow` | crates/music-application/src/sfx.rs:699-713 | A caller is told of a transition only if the row was in the expected state and is now in the next; a mismatch changes no row, and every other row and every entry stays |
| `SfxCoordinator.Startup.Recover` | crates/music-application/src/sfx.rs:645-697 | In whatever order the journals are listed: when startup reports success every journal is finished and the files are the committed mutations, each exactly once; when journal and files cooperate it does succeed |
| `SfxCoordinator.Startup.LoadEntry` | crates/music-application/src/sfx.rs:645-697 | An unfinished journal always decodes and is brought to applying, so the refusing arms are never taken |
| `ModeCatalog.MutationKeepsWellFormed` | crates/music-application/src/modes.rs:936-1135 | Every accepted mutation keeps the catalog well-formed: each mode's key is its manifest id, the default soundboard exists, soundboard, cue and preset ids equal their keys, ranges hold |
| `ModeCatalog.MutationsKeepWellFormed` | crates/music-application/src/modes.rs:936-1135 | The same for every sequence of mutations |
| `ModeEdits.EditDoesWhatItSays` | crates/music-application/src/modes.rs:936-1135 | An accepted edit puts exactly its document under its id, or removes exactly it, or merges exactly what it imports, and leaves every other resource and the rest of the mode |
| `ModeEdits.MutationDoesWhatItSays` | crates/music-application/src/modes.rs:936-1135 | A new mode has its manifest and nothing else, a deleted one is gone, an edited one is what the edit says, and every other mode is as it was |
| `ModeEdits.RefusedExactly` | crates/music-application/src/modes.rs:936-1135 | Exactly which mutations are accepted, and with which error the others are refused |
| `ModeCatalog.OnlyTargetChanges` | crates/music-application/src/modes.rs:936-1135 | A mutation changes its target mode only |
| `ModeCatalog.CreateThenDelete` | crates/music-application/src/modes.rs:936-1135 | Deleting a mode, cue or preset just created gives the catalog back |
| `ModeCatalog.CreateThenDeleteSoundboard` | crates/music-application/src/modes.rs:1005-1024 | A soundboard just created can be deleted again exactly when the manifest does not name it as default, which in a well-formed catalog it cannot |
| `ModeCatalog.SlugsKeptExactly` | crates/music-application/src/modes.rs:1088-1134 | In memory, resource ids stay file-system slugs under a mutation if and only if it is not an import bringing other cue or preset ids, which the import does not check |
| `ModeCatalog.ImportTakesAnyCueId` | crates/music-application/src/modes.rs:1111-1119 | Into any mode of a well-formed catalog the in-memory check lets a cue be imported under any new id, slug or not |
| `ModeRuns.PublishedCatalogsKeepSlugs` | crates/music-application/src/modes.rs:847-879 | Nevertheless in every run every catalog published or current has slug ids only, because what a mutation wrote is read back through the loader, which refuses other file names |
| `ModeCatalog.ChangedPresets` | crates/music-application/src/modes.rs:1384-1419 | The nested loops return exactly the (mode, preset) keys whose documents differ, and none for the first catalog |
| `ModeCatalog.MutationChangesPresets` | crates/music-application/src/modes.rs:936-1135 | The presets a mutation changes are exactly the one it names, those it imports or those of the mode it deletes, except a preset put back as it was |
| `ModeSafety.StepKeepsInv` | crates/music-application/src/modes.rs:660-924 | Every step, failure, crash or restart step keeps: only the last journal may be unfinished, committed mutations are complete in both stores, planned and rolled-back ones left no trace, and the sink has seen every generation once |
| `ModeSafety.RunsKeepInv` | crates/music-application/src/modes.rs:660-924 | The same over every run |
| `ModeSafety.IdleMeansConsistent` | crates/music-application/src/modes.rs:758-924 | In every run from an empty journal, an idle coordinator has only finished journals, and each store holds exactly the committed mutations in order, apart from what failed rollbacks left |
| `ModeSafety.StoresAreTheCommittedMutations` | crates/music-application/src/modes.rs:758-924 | Between mutations a store is exactly the committed mutations, in order and with nothing half done, if and only if failed rollbacks left nothing in it |
| `ModeSafety.SinkSeesEveryGenerationOnce` | crates/music-application/src/modes.rs:712-731 | In every run the sink sees generations 1, 2, 3 and so on without gap or repeat, each naming exactly the presets that differ from the one before, and the current catalog is the last one it took unless the coordinator has stopped |
| `ModeSafety.FailedRowsStay` | crates/music-application/src/modes.rs:1265-1279 | A journal is marked failed if and only if a rollback ends that did not succeed in both stores and the journal takes the mark; then no later step, startup included, touches it or its remains |
| `ModeSafety.FailedRowsStayForever` | crates/music-application/src/modes.rs:1281-1340 | The same over every run, crashes and restarts included |
| `ModeRuns.FailedRollbackLeavesTraces` | crates/music-application/src/modes.rs:1265-1279 | For any catalog and any mutation it accepts, a run from an empty journal that ends restarted and idle with the mutation's journal failed and the mutation half-way in the mode files |
| `ModeSafety.LostCommitStops` | crates/music-application/src/modes.rs:881-894 | When the commit lands but its reply is lost, the rollback finds the journal committed and the coordinator stops with the mutation in both stores and the catalog unpublished |
| `ModeSafety.RollbackRestores` | crates/music-application/src/modes.rs:830-845 | Rolling back whatever part of a mutation was applied gives the store as it was |
| `ModeCoordinator.Coordinator.PerformMutation` | crates/music-application/src/modes.rs:758-924 | A mutation against another generation is stale and changes nothing; it is reported if and only if it is against the current one, accepted and staged, its journal, both stores and the sink answer well and its mode reads back; then it is committed, in both stores, and published as the next generation with only the target mode changed, to what was read back. It is refused, for the first step that failed and with everything as before, if and only if nothing was written or the rollback worked; anything else stops the coordinator |
| `ModeCoordinator.Coordinator.PerformReload` | crates/music-application/src/modes.rs:660-744 | A load is published, as the next generation, if and only if it is faultless, there is a next generation and the sink is seen to take it; a failed or faulty one changes only the status; a refusing sink or an overflowing generation stops the coordinator |
| `ModeCoordinator.Coordinator.RollBack` | crates/music-application/src/modes.rs:1253-1288 | A rollback that reports success leaves both stores without the mutation and its journal rolled back; the journal is marked failed if and only if the rollback began and a store did not answer it well |
| `ModeCoordinator.Coordinator.VerifyWritten` | crates/music-application/src/modes.rs:847-879 | A deleted mode must be gone from the catalog read back, a written one must load |
| `ModeCoordinator.Coordinator.Offer` | crates/music-application/src/modes.rs:712-731 | Catalog and snapshot advance together, and only when the sink is seen to take the publication |
| `ModeCoordinator.Startup.Recover` | crates/music-application/src/modes.rs:1290-1337 | Startup rolls back every unfinished journal and the traces it left, and succeeds when journal and stores answer |
| `ModeCoordinator.ReadBackChangesTarget` | crates/music-application/src/modes.rs:847-879 | The catalog published after reading back from disk differs from the one before in the target mode only |
| `VoiceBatch.WindowsCoverEveryFrame` | crates/music-analysis/src/voice.rs:604-638 | There are ceil((F-187)/93)+1 windows, strictly increasing, each inside the recording, and every frame lies in one |
| `VoiceBatch.SuccessHasEveryWindow` | crates/music-analysis/src/voice.rs:853-889 | A successful analysis has exactly one prediction per window and its mean score is a proportion |
| `VoiceBatch.AlignedStartsGrow` | crates/music-analysis/src/voice.rs:640-658 | One more frame completes at most the one grid window that ends with it |
| `VoiceBatch.SummaryOfPrefix` | crates/music-analysis/src/voice.rs:640-658 | Windows complete within a prefix are scored the same in the whole recording |
| `VoiceBatch.EarlyFailureIsFinal` | crates/music-analysis/src/voice.rs:660-676 | A window that cannot be scored while streaming fails the whole analysis |
| `VoiceBatch.FeedAcceptsExactly` | crates/music-analysis/src/voice.rs:579-602 | A stream is taken in if and only if it is short enough, finite throughout, and every window it completes scores |
| `VoiceBatch.AnalysedExactly` | crates/music-analysis/src/voice.rs:389-489 | Exactly which byte streams are analysed to the end |
| `VoiceBatch.TruncatedStreamFails` | crates/music-analysis/src/voice.rs:450-455 | A stream whose byte length is not a multiple of four always fails, and with a decode error if and only if all its whole samples are acceptable or the first that is not is not finite |
| `VoicePipeline.Pipeline.EmitFrame` | crates/music-analysis/src/voice.rs:640-658 | The full buffer is frame i of the batch definition; pushing it keeps the bounded queue a sliding window, and the window it completes is predicted |
| `VoicePipeline.Pipeline.AdvanceFrame` | crates/music-analysis/src/voice.rs:678-682 | Moving the second half to the front keeps the buffer aligned with the recording |
| `VoicePipeline.Pipeline.AddSample` | crates/music-analysis/src/voice.rs:579-602 | Taking in one sample equals one step of the batch definition, or returns its error |
| `VoicePipeline.Pipeline.Finish` | crates/music-analysis/src/voice.rs:604-638 | The streaming result equals the batch result, with exactly ceil(n/256)+1 frames emitted; what the batch result adds up is stated by VoiceScores.ScoresExactly |
| `VoicePipeline.NextEmission` | crates/music-analysis/src/voice.rs:613-631 | What one more frame does to the summary of the grid windows |
| `VoicePipeline.LastWindow` | crates/music-analysis/src/voice.rs:622-631 | The anchored window completes the summary, and is predicted only if the grid did not end there |
| `VoiceStream.AddChunk` | crates/music-analysis/src/voice.rs:457-470 | The reassembly loop feeds every whole sample of pending and new bytes and keeps at most three |
| `VoiceStream.Analyze` | crates/music-analysis/src/voice.rs:389-489 | However the byte stream is cut into chunks, the analysis is the outcome of the whole stream |
| `VoiceScores.ScoresExactly` | crates/music-analysis/src/voice.rs:860-877 | A recording is analysed if and only if it has 187 frames and both scores of each of its windows are proportions with a sum above 1e-9; the total is the sum over the windows of the share x with x (instrumental + voice) = voice, and the leading windows are those with voice at least instrumental |
| `VoiceScores.ReportMeans` | crates/music-analysis/src/voice.rs:879-888 | Every stream analysed to the end is reported on: the voice score is the mean share of its windows and the coverage the part of them in which the voice leads, both proportions |
| `VoiceScores.AnalyzeVoice` | crates/music-analysis/src/voice.rs:357-372 | The report on a stream cut into any chunks is that of the whole stream, or its error |
| `VoiceStream.DecodedAppend` | crates/music-analysis/src/voice.rs:457-470 | Whole samples decode the same wherever the bytes around them are cut |
| `Filenames.PortablePartIsPortable` | crates/music-domain/src/cleanup.rs:1536-1551 | A portable part has no reserved or control character and neither starts nor ends with a space or full stop |
| `Filenames.CollisionNameFits` | crates/music-domain/src/cleanup.rs:1553-1563 | A collision stem with its extension is at most 240 bytes if and only if the extension is at most 237 |
| `PortableNames.PortablePartExactly` | crates/music-domain/src/cleanup.rs:1536-1551 | A portable part has no reserved character, single spaces between words only and no space or full stop at its ends; a text is its own portable part if and only if it is like that |
| `PortableNames.PortablePartKeeps` | crates/music-domain/src/cleanup.rs:1536-1551 | A portable part keeps the visible characters of its text in order, reserved ones replaced, up to spaces and full stops at the ends |
| `PortableNames.CollisionStemKeepsTitle` | crates/music-domain/src/cleanup.rs:1553-1563 | A collision stem is a prefix of the portable title and a prefix of the portable mark in parentheses; no longer mark fits its budget, and a longer title that fits ends in a space or a full stop |
| `PortableNames.FittingTitleIsKept` | crates/music-domain/src/cleanup.rs:1553-1563 | A title and a mark that are portable and fit are kept whole |
| `Filenames.CountersDistinct` | crates/music-domain/src/cleanup.rs:1553-1563 | With an extension of at most 208 bytes, different 32-bit counters give names that differ even without regard to case |
| `Filenames.CaseKeyAppend` | crates/music-domain/src/cleanup.rs:232-244 | The case key of a concatenation is the concatenation of the case keys |
| `Filenames.TruncateBytes` | crates/music-domain/src/cleanup.rs:1553-1563 | Cutting at a character boundary gives the longest prefix within the byte budget |
| `Cleanup.StemAndSuffix` | crates/music-domain/src/cleanup.rs:639-649 | Stem and suffix put together give the name; a suffix is a full stop followed by text without one, after a non-empty stem |
| `CleanupSafety.NameHasOwner` | crates/music-domain/src/cleanup.rs:1586-1592 | The case key of every name is owned by a track whose name has that key |
| `Cleanup.TryLabels` | crates/music-domain/src/cleanup.rs:1655-1673 | The first surviving label that gives a free name is taken |
| `Cleanup.CountUp` | crates/music-domain/src/cleanup.rs:1674-1679 | The numeric fallback terminates at the lowest free number, at most one try more than there are names |
| `Cleanup.NumbersRunOut` | crates/music-domain/src/cleanup.rs:1674-1679 | The pigeonhole argument: taken numbers are no more than the names of the folder |
| `Cleanup.ResolveName` | crates/music-domain/src/cleanup.rs:1626-1680 | A rename is kept when free, dropped when the suffix is too long, and otherwise becomes the first free labelled or numbered name |
| `Cleanup.ResolvedNameKeepsTitle` | crates/music-domain/src/cleanup.rs:1626-1680 | A name that had to be altered is the wanted title, cut no shorter than it must be, followed by one of the track's labels, or by the lowest free number if no label gives a free name |
| `Cleanup.FirstFreeLabel` | crates/music-domain/src/cleanup.rs:1626-1680 | The label used is the first that gives a free name, and none is used exactly if none gives one |
| `Cleanup.ResolvedNameIsFree` | crates/music-domain/src/cleanup.rs:1626-1680 | A resolved name is free, differs from the wanted one only if that was taken, and then fits 240 bytes |
| `Cleanup.ResolveFolder` | crates/music-domain/src/cleanup.rs:1586-1691 | Each plan of a folder is resolved against the names on disk and those promised before it |
| `Cleanup.AnalyzeCleanup` | crates/music-domain/src/cleanup.rs:1566-1697 | Every folder is resolved against all the tracks of the library in it |
| `CleanupSafety.AnyOrderIsSafe` | crates/music-domain/src/cleanup.rs:1566-1697 | When names in a folder are case-distinct, applying any selection of the renames in any order keeps them so, and each rename lands on a name no other track holds at that moment |
| `CleanupSafety.NewNameAvoidsOldNames` | crates/music-domain/src/cleanup.rs:1627-1633 | A new name differs from every other track's present name |
| `CleanupSafety.NewNamesDiffer` | crates/music-domain/src/cleanup.rs:1680-1691 | New names of one analysis differ from each other |
| `CleanupSafety.ChangedOnlyWhenTaken` | crates/music-domain/src/cleanup.rs:1626-1691 | A proposed name is altered only when taken, an altered one fits 240 bytes, and a rename is dropped only for a suffix over 208 bytes |
| `CleanupSafety.SafeExactly` | crates/music-domain/src/cleanup.rs:1586-1592 | Renames are safe whatever is planned if and only if no two names of a folder differ in case only |
| `CleanupSafety.CaseTwinsCollide` | crates/music-domain/src/cleanup.rs:1586-1592 | Without case-distinct names the resolver can hand out a name another track holds |
| `Sections.ChangeBoundaries` | crates/music-analysis/src/context.rs:1273-1355 | Boundaries run from 0 to the row count over the greedily chosen rows, ascending; a row is chosen if and only if it is a candidate with fewer than nine better chosen rows, none within twenty of it |
| `Sections.SelectRows` | crates/music-analysis/src/context.rs:1334-1348 | The selection loop meets that definition |
| `Sections.GreedyIsUnique` | crates/music-analysis/src/context.rs:1326-1348 | The definition determines the choice |
| `Sections.BoundariesWellFormed` | crates/music-analysis/src/context.rs:1326-1354 | For a non-empty recording boundaries increase strictly, there are at most ten sections, with several none is shorter than twenty rows, and every inner boundary scores at least the threshold |
| `Sections.RejectedRowsAreBeaten` | crates/music-analysis/src/context.rs:1334-1348 | A row with full windows around it, twenty rows from either end and scoring at least the threshold, that was not chosen lost to a chosen row near it scoring no lower, or to nine chosen rows scoring no lower |
| `Sections.OrderedScores` | crates/music-analysis/src/context.rs:1326-1333 | Ranking lists every scored row once, higher scores first and later rows first among equals |
| `Playlists.OrdersAreStrictAndTotal` | crates/music-application/src/playlists.rs:333-352 | All four orders are strict total orders on tracks with different ids |
| `PlaylistOrders.BeforeExactly` | crates/music-application/src/playlists.rs:333-352 | What each of the four orders means: by the title shown, character by character, then by id; newest first; known tempos before unknown ones, slow or fast ones first as asked |
| `PlaylistOrders.TemposAreOrdered` | crates/music-application/src/playlists.rs:354-362 | A list ordered by tempo rises or falls as asked, with tracks of unknown tempo last |
| `PlaylistOrders.MatchesExactly` | crates/music-application/src/playlists.rs:313-331 | A rule takes a track if and only if it has one, or all, of the tags included, none of those excluded, and a tempo within the bounds, or none if unknown ones are taken |
| `Playlists.ResolvedIsLongestAllowedPrefix` | crates/music-application/src/playlists.rs:290-311 | The list holds matching tracks only, strictly in order; when one is left out the list is full and every listed track comes before it; the library count is that of the source |
| `Playlists.ListingOrderDoesNotMatter` | crates/music-application/src/playlists.rs:290-311 | The resolution, signature included, does not depend on the order in which the library lists its tracks |
| `PlaylistLibrary.SignatureBindsExactly` | crates/music-application/src/playlists.rs:375-417 | With a collision-free hash, whenever a library signs as it did earlier in its history it lists the same tracks, if and only if the accepted rule does not order by newest |
| `PlaylistLibrary.ReachedIsLibrary` | crates/music-storage/src/library.rs:1405-1440 | Whatever is published, edited, tagged or deleted, ids and paths stay distinct and tracks of later ids were added no earlier |
| `Playlists.SignatureDecidesPlaylist` | crates/music-application/src/playlists.rs:375-417 | Libraries resolved with the same signature list the same tracks under every order but newest |
| `PlaylistLibrary.NewestIsNotSigned` | crates/music-application/src/playlists.rs:375-417 | The failing run: two tracks of one scan, of which the second is later missed and found again under its old id, sign as before and list in the other order, because the signature does not cover the time of adding |
| `PlaylistViews.OpenedShowsRuleExactly` | crates/music-storage/src/playlists.rs:375-481 | An opened playlist does not show what its rule resolves to if a listed track was deleted since the list was written and the library has come to sign as it did then; under the rules not ordered by newest it shows it in all other cases; a refreshed one always does |
| `PlaylistViews.LostItemStaysLost` | crates/music-storage/src/playlists.rs:424-443 | The failing run, for every accepted rule: a playlist opened before its only track is missed and found again stays empty when opened afterwards |
| `Playlists.Resolve` | crates/music-application/src/playlists.rs:290-311 | Sorting by id, signing, filtering, sorting and truncating in place gives the specified resolution |
| `Playlists.ArrangedExactly` | crates/music-application/src/playlists.rs:313-331 | A track is listed before truncation if and only if it matches the rule |
| `Playlists.NormalizeTags` | crates/music-application/src/playlists.rs:234-259 | The loop returns the folded tags in order of first appearance, or the first tag error |
| `Playlists.NormalizedTagsExactly` | crates/music-application/src/playlists.rs:234-259 | Tags normalise if and only if each is good, to exactly the set of their foldings, each once |
| `Playlists.NormalizedTwice` | crates/music-application/src/playlists.rs:155-188 | Normalising a normalised rule changes nothing, provided folding is stable |
| `Playlists.NormalizedExactly` | crates/music-application/src/playlists.rs:155-188 | A rule is accepted if and only if its schema is known, each list has at most 32 tags folding to 1 to 64 printable characters, no tag is in both lists once folded, tempo bounds lie in 1 to 999 and in order, and it asks for 1 to 1000 tracks; accepting changes its tags only |
| `Sorting.SortOrders` | crates/music-application/src/playlists.rs:304 | Elements that can all be told apart come out strictly ordered |
| `Sorting.SortIsCanonical` | crates/music-application/src/playlists.rs:295 | Sorting distinguishable elements forgets the order they came in |
| `MediaPath.AcceptedExactly` | crates/music-domain/src/media_path.rs:145-177 | The staged checks accept exactly the short, clean texts all of whose components are good |
| `MediaPath.AcceptedMeans` | crates/music-domain/src/media_path.rs:145-177 | Accepted are exactly the texts of 1 to 1024 bytes without backslash and control character in which no part between slashes is empty, a single or double full stop, or starts like a drive |
| `MediaPath.ComponentsRebuild` | crates/music-domain/src/media_path.rs:145-177 | A path says no more than its components |
| `MediaPath.ParentIsValid` | crates/music-domain/src/media_path.rs:83-88 | The parent, which is built without validation, is always valid |
| `MediaPath.JoinAccepts` | crates/music-domain/src/media_path.rs:90-92 | A join is accepted exactly when the joined text is short enough and the descendant is clean and made of good components |
| `MediaPath.JoinThenParent` | crates/music-domain/src/media_path.rs:83-92 | Joining one component and taking the parent gives back the path |
| `MediaPath.ParentThenJoin` | crates/music-domain/src/media_path.rs:76-92 | Joining the parent with the file name gives back the path |
| `MediaPath.ExtensionChangeKeepsStem` | crates/music-domain/src/media_path.rs:105-109 | A successful extension change keeps the parent and the stem |
| `MediaPath.ExtensionRoundTrip` | crates/music-domain/src/media_path.rs:96-109 | For a file name with an extension, changing to another plain extension and back gives the path back |

## Left out

- Playback: the wall-clock part of clock samples and event payload formats. Device, preset, mode and loop ids are opaque
  strings; volumes are opaque.
- Playback actor: deadlines of looping effects and of track ends, whose commands it sends itself; a clock that fails; the
  check that a command's references are in the current catalog (its outcome is given); the text of the stored document,
  with differences the decoded document does not show; and storage revisions. Unix time is given with each command.
- PlaybackActor.Actor.Execute: takes from the mode catalog only what decides the outputs; cue and soundboard references
  are part of the check whose outcome is given.
- Sound effects: a future dropped in the middle of a call, listing calls, and the kind of a mutation's outcome except
  where a batch checks it.
- SfxUploads: a file that another program puts at the destination between the look and the link, and the other five
  mutations' file operations, whose replay is assumed to complete what was begun.
- Recovery: how the encoded size of a document comes about (it is given), journal ids and timestamps, and the limit of
  1000 unfinished journals that one load may return.
- Modes: message texts of refusals and of load errors, their bounds, the progress object of a journal, the playlists an
  import creates, and the command channel. The content of a load is whatever the source reports. The refusal of other
  ids while staging is among the answers a mutation may get.
- ModeCatalog.MutationKeepsWellFormed: says nothing of modes edited on disk outside the coordinator, which a reload takes
  as they are.
- Modes: the best-effort `finish` of both stores after a publication, whose result the source ignores, and staging
  clean-up, which only decides whether startup succeeds.
- Voice: cancellation, deadlines, the decoder process and its threads, which can only abort an analysis; rounding of
  floating-point sums; flattening 187 mel frames into one buffer.
- Cleanup: how a stem or a label is derived from tags. The labels are those that survive the comparison with the
  competitors' labels. Every planned track is assumed to be among the library's tracks, and a folder to hold fewer names
  than a 32-bit counter can number.
- CleanupSafety.AnyOrderIsSafe: assumes that names in a folder differ by more than case, which `SafeExactly` shows to be
  the exact condition.
- Sections: the arithmetic of scores, median and quantile; scores are real numbers.
- Playlists: fields of a track that neither order nor signature uses; a rule that changes; positions of a stored list.
- PlaylistViews.OpenedShowsRuleExactly: of the rules ordered by newest says only that a list that lost a track is wrong.
  Under these a list may also be out of date without a loss, when a track beyond its end is deleted and added again.
- PlaylistLibrary.ReachedIsLibrary: the clock that dates new tracks is assumed not to run backwards, and ids not to reach
  the largest 64-bit integer. A track is deleted one at a time, as a scan's or a folder's deletion is in effect.
- MediaPath: Unicode normalisation. The library coordinator, jobs, authentication, devices, the compatibility player and
  all HTTP routes are not modelled.
