# Voxint evaluation harness and lineage tables: a Dafny model

The project models the parts of Voxint whose correctness spans many operations and proves what they promise.

1. **The crash-safe batch driver** (`RunJournal`, `StagedPaths`, `BatchProtocol`, `BatchInvariant`, `BatchSafety`,
   `BatchInvocation`, `BatchRepetition`, `BatchConvergence`, `StoredRows`, `BatchPowerLoss`, `BatchDriver`,
   `AtomicFile`). Any number of `eval_quality run` processes share a database and one journal file per out-dir.
   `BatchProtocol.Step` has one step per statement whose effect another process or a later resume can see, plus
   crash, run transition, foreign ingest and a further run queued by hand. `BatchInvariant.ReachableInv` proves one
   invariant for every reachable state of every interleaving; `BatchSafety` draws the consequences.
   `BatchInvocation` says when one invocation can reach its manifest, and `BatchRepetition` how many invocations
   that end anyhow it takes, for three sets of `Movers` of a run's status: the workers; also a task that requeues
   the run it has just failed; also operators, who pause, resume, cancel, adjudicate and restart. A completed run is
   exported or its rows are refused; `StoredRows` says which, from the stored turns and segments. `BatchPowerLoss`
   puts the protocol on a machine whose journal writes may not be on disk yet. `BatchConvergence` says which namings
   let a recording be submitted twice. The step `ReadId`, the driver reading `run.id` from a fresh submission,
   belongs to an intended variant: the code as written cannot take it (`AsWritten`). The safety results hold with
   and without it; a result that needs it says so. `BatchDriver` is the imperative `cmd_run` and `_drive_one`, as
   written: a class over the shared state in which anybody may move between two statements, each method proved to be
   a path of protocol steps. `AtomicFile` proves what the journal's file system underneath does over whole histories
   of `write_json_atomic` calls, exceptions, kills and power losses.
2. **Cohort binding and the portable bundle** (`Cohort`, `Bundle`, `ScoreCommand`, `RoundTrip`, `JournalToScore`).
   `run` attests bytes and hashes a canonical descriptor; `score` loads the bundle, asks its scorers, and recomputes
   that hash from what it read. `RoundTrip.TranscriptToScore` joins them, from stored transcript rows to the verdict,
   and `JournalToScore` starts where the driver ends: at any reachable state with a readable manifest.
3. **Supersession lineages and merge tombstones** (`Lineage`, `SpeakerMerge`, `ProfileBackfill`).
4. **Cropping, renders, windows and WAV ranges** (`Cropping`, `Renders`, `Windows`, `Wav`).
5. **Folder backfill and roster selection** (`Folders`, `Roster`).

`Common` and `Sorting` (with `TextOrder`) hold shared types and the theory of Python's `sorted`.

Abstractions. SHA-256 is a free constructor, hence injective. Run, speaker and row ids are numbers; other ids and text
are strings. Times are integers (microseconds, or commit order for `created_at`). Floats that are only compared
(purity, duration) are reals. The poll deadline is a bound on the number of polls. A Python exception is an `Err` or a
`None`; a process that raises leaves `with out_dir_lock` and so ends.

## Findings

Properties that are false of the code as written, each with its exact condition proved:

- A fresh submission kills the driver. `submit_media_item_if_new` returns a `SubmissionResult`, whose only field is
  `run_id` (src/voxint/ingest/service.py:73-83); the driver then reads `run.id` from it (tools/eval_quality.py:2073)
  and raises, with the run committed and nothing recorded. With nobody at work but the movers of its runs, one
  invocation can reach its manifest exactly when the journal is its own, the environment can be verified, no
  recording stops it, every recording it would submit already has its staged path in the database with one run, and
  every run it would poll, recorded or adopted, can still be completed by the movers with rows the export accepts:
  for the workers, a run that is queued, running, or completed with such rows (`BatchInvocation.OneInvocation`,
  `CompletableExactly`). The default batch id is a fresh uuid, so by default every path is unknown: no invocation
  that submits anything finishes (`BatchConvergence.FreshPathNeverFinishes`), and each mints another run, without
  bound (`EndlessRuns`). A series of resumed and retried invocations, each under a new root, finishes exactly when
  every recording is done or has a recorded run that can be completed, and it is longer than the number of
  recordings recorded failed or cancelled (`BatchRepetition.NewRootsFinish`). Were `run.id` readable, one
  resumed invocation would do exactly when every run it polls can be completed (`IntendedResumeConverges`).
- Repeating an invocation, resumed and retried under one naming and ending anyhow (killed or raising at any statement,
  or after recording what it polled), finishes exactly when no recording is beyond help, and takes one invocation more
  than the recordings cost together (`BatchRepetition.InvocationsNeeded`; `Cost`). A recording costs nothing if a run
  of it can be had and completed; one for a dead (failed or cancelled) recorded run that is polled; one for a
  submission under an unknown path, and one more if that submission leaves a dead run recorded; and one where the path
  bars adoption but an older recorded run can be completed, which takes an end between the announcement and the record
  of another run. It is beyond help if it is to be polled and its run is stuck, that is paused or awaiting
  adjudication, or completed with rows the export refuses, with nobody to restart it; if a stuck run is left recorded
  by a submission; or if the path bars adoption and no recorded run can be completed. With `run.id` readable,
  submissions under unknown paths are free.
- A recorded run that completed with rows the export refuses stops its batch for good. The refusal (turn or segment
  indices out of order, a blank label, text without word timing, a malformed word, no UEM region:
  `StoredRows.ExportCompleted`) raises with nothing recorded, so every later invocation polls the run again and
  raises again, under any naming, until an operator restarts it (`BatchConvergence.UnexportableRunStrands`;
  `StoredRows.LostTimingStrands` is the input: one segment with text and NULL words).
- `--retry-failed` does not start a recording over. Under the root it was staged under, the retry adopts the very run
  that failed (`BatchConvergence.RetryAdoptsTheSameRun`), finds it failed or cancelled as it was, and raises. So a
  batch with a cancelled run never finishes under that root, however often it is resumed and however its invocations
  end, until an operator restarts the run (`CancelledRunStrands`); under another root it finishes in three invocations
  and no fewer (`AnotherRootTakesThree`). With operators at work the status of the runs plays no part in one
  invocation (`BatchInvocation.OneInvocationWithOperators`).
- Media subdirectory and batch id come from the flags, or a fresh uuid, and those stored in the journal are never read
  back. Two namings let a recording be submitted twice exactly when they stage it under different paths, that is when
  the stripped subdirectory, a slash and the batch id differ (`BatchConvergence.NamingDecides`).
- A staged path does not name subdirectory, batch and recording: two are equal exactly when the recordings are and the
  stripped subdirectory, a slash and the batch id are, and the batch id may hold slashes
  (`StagedPaths.StagedPathExactly`; `StagedPathCollidesAcrossSubdirs` is the input). It does for batch ids without a
  slash (`PlainBatchesInjective`).
- After a power loss a reader of the journal gets the payload of the last rename, or the one that was in place when
  the directory last reached the disk, by its fsync or on its own, and may get either (`AtomicFile.HistoryReads`). So
  one write leaves "old or new" exactly when the payload certainly on disk before was the one readers saw, or the
  directory is fsynced, and a complete write is durable exactly when the directory could be fsynced or held that
  payload already (`OldOrNew`, `DurableExactly`). The code tolerates a failing directory fsync.
- So write-ahead and completion can be undone. After a power loss the protocol's invariant, and with it write-ahead,
  holds exactly when every run submitted for a losing out-dir is announced in its journal on disk, and a completed
  recording survives exactly when it is completed there (`BatchPowerLoss.PowerLossExactly`,
  `CompletedSurvivesExactly`). Both hold over every history in which the directory fsyncs work, with any number of
  power losses (`SyncedHistorySurvives`); with none working, any reachable state can lose its whole journal
  (`UnsyncedLosesEverything`).
- The supersession trigger alone allows two current rows per group (`Lineage.TriggerAloneAllowsTwoHeads`). A statement
  breaks the one head exactly when it is an admitted insert into a group that has a current row
  (`StatementKeepsOneHead`); the writer keeps one (`RecordedOneHead`).
- `run` completes and bundles a recording with a word in an unlabelled segment (`RoundTrip.UnlabelledRowIsExported`:
  the column is nullable, and a null label passes the export's guard), and `score` then refuses the bundle although
  nothing changed. It accepts exactly when nothing scored changed since attestation, the scorers accept the references
  and renders, and with a cpWER reference every kept word has a label, of which there are at most 20
  (`RoundTrip.TranscriptToScore`).
- `fetch_ami_window` lets a negative offset of at most 22 frames through its bounds check and then decodes header
  bytes (`Wav.FetchReadsHeader`); an empty window passes the check and then fails; for any file at all,
  `Wav.FetchDecodesWindow` says when the fetch succeeds.
- `write_canonical_wav` succeeds exactly below the 32-bit RIFF size (`Wav.WavRoundTrip`).
- Window clipping composes exactly when the inner window lies in the outer one or is empty (`Windows.ClipComposes`);
  for words, whose parser admits an end before the start, also an empty inner window must lie inside
  (`Windows.WordsCompose`).
- The reference builder rejects some UEM files the driver accepts: exactly those with a short line or a region that is
  not positive; and the driver converts through `float` first (`Cropping.CropAgreement`).
- A changed audio file goes unnoticed at score time (`RoundTrip.BindsExactly`): its bytes are not read there.

Code and documentation disagree in two places, and the model follows the code. The docstring of `plan_resume`
(tools/eval_run.py:954-957) calls a resumable item without `--resume` a fresh submit, where the code stops. The
database knows a status `paused` (src/voxint/pipeline/transitions.py:29-47) that `map_db_status` does not, so polling
a paused run raises.

## Model

| member | source | states |
|---|---|---|
| `RunJournal.PlanResume` | tools/eval_run.py:945-1003 | exactly one decision per selected id, in order; the only error is a corpus without an artifact contract |
| `RunJournal.DecideNeverStops` | tools/eval_run.py:961-1003 | an item of the shape drivers leave behind is never a STOP under resume and retry |
| `StagedPaths.StagedPathExactly` | tools/eval_quality.py:1808-1810 | two staged paths are equal exactly when the recordings are and the stripped subdirectory, a slash and the batch id are |
| `StagedPaths.StagedPathInjective` | tools/eval_quality.py:1808-1810 | per media subdirectory a staged path determines batch and recording, for every batch id and every id the id pattern admits |
| `StagedPaths.PlainBatchesInjective` | tools/eval_quality.py:1808-1810 | for batch ids without a slash it determines stripped subdirectory, batch and recording |
| `StagedPaths.StagedPathCollidesAcrossSubdirs` | tools/eval_quality.py:1808-1810 | counterexample across subdirectories |
| `BatchInvariant.InvStep` | tools/eval_quality.py:1941-2111 | every step of every actor keeps the protocol invariant |
| `BatchInvariant.ReachableInv` | tools/eval_quality.py:1941-2111 | the invariant holds in every reachable state of any interleaving of drivers, crashes, resumes, pipeline and other ingesters |
| `BatchInvariant.LockExcludes` | tools/eval_run.py:880-910 | two live drivers never share an out-dir |
| `BatchInvariant.RecordedItem` | tools/eval_quality.py:2032-2036 | whatever a record step writes satisfies the journal invariant and never touches a completed item |
| `BatchSafety.AtMostOneRun` | alembic/versions/0001_baseline_schema.py:24-33 | a staged path has at most one run unless a further run was queued for it by hand |
| `BatchSafety.WriteAhead` | tools/eval_quality.py:2066-2069 | every run a driver created has its item in the durable journal, and where all drivers of the out-dir stage under one root the item's path is the run's |
| `BatchSafety.RecordedRunIsTheRun` | tools/eval_quality.py:2069-2074 | where all drivers of an out-dir stage under one root, however they spell it, a recorded run_uuid is the unique run of the item's staged path |
| `BatchSafety.AlwaysARunToPoll` | tools/eval_quality.py:2077-2085 | "no run to poll" and "run vanished" are unreachable |
| `BatchSafety.ReconcileExactly` | tools/eval_quality.py:1813-1829 | adoption after a refused submit succeeds exactly when the path has one run, and always without a hand-made rerun |
| `BatchSafety.NoLostUpdate` | tools/eval_quality.py:2032-2036 | a stored journal changes only by patching one unfinished item of what is stored, and only by the lock holder |
| `BatchSafety.StopExactly` | tools/eval_run.py:967-1003 | the exact condition under which a reachable journal makes a batch stop on an item |
| `BatchSafety.ResumeNeverSticks` | tools/eval_run.py:945-1003 | with resume and retry no reachable driver meets a STOP |
| `BatchSafety.DecisionsStayValid` | tools/eval_quality.py:1951-1961 | a decision computed before the loop is still what would be decided when its turn comes |
| `BatchSafety.CompletedAbsorbing` | tools/eval_quality.py:2100-2111 | over whole histories a completed item never changes, has every required artifact, and each artifact hash is the hash of the payload beside it |
| `BatchSafety.Progress` | tools/eval_quality.py:2039-2113 | the number of uncompleted recordings never rises and drops by exactly one when a recording is completed |
| `BatchSafety.NothingMissing` | tools/eval_quality.py:1968-1972 | after the loop the partial-bundle refusal is unreachable |
| `BatchSafety.ManifestSound` | tools/eval_quality.py:1963-1995 | over whole histories, a whole manifest attests completed recordings and full, equal fingerprints, and the journal beside it keeps agreeing; the bundle and the manifest are written in separate steps between which the process may die |
| `BatchSafety.ReachableManifest` | tools/eval_quality.py:1756-1787 | the same in every reachable state |
| `BatchInvocation.CompletableExactly` | src/voxint/pipeline/transitions.py:29-47 | a run is completable exactly when some sequence of its movers' own moves leads to a completed run whose rows are exported without an error |
| `BatchInvocation.DriveOneCanReturn` | tools/eval_quality.py:2039-2113 | standing before a recording that passes, a driver can, with only the movers at work, end with it completed |
| `BatchInvocation.OneInvocation` | tools/eval_quality.py:1941-1997 | with only the movers at work (workers, retrying tasks, or operators too) one invocation can reach its manifest exactly when the journal is its own, the environment verifies, every recording it would submit has its staged path known with one run (in the intended variant: or unknown), and every run it would poll can still be completed with rows the export accepts |
| `BatchInvocation.OneInvocationWithOperators` | src/voxint/ingest/service.py:1041-1069 | the variant with operators at work, who can restart, resume or adjudicate: the status and the rows of the runs drop out of the condition |
| `BatchRepetition.CostZero` | tools/eval_quality.py:2039-2113 | a recording costs nothing exactly when one invocation can get past it |
| `BatchRepetition.EndOneLess` | tools/eval_quality.py:2050-2112 | however an invocation ends, at whatever statement of whichever recording, it takes at most one off the sum of the costs |
| `BatchRepetition.SomeEndSaves` | tools/eval_quality.py:2059-2095 | if the sum is finite and positive, some invocation can end so that it is one less |
| `BatchRepetition.InvocationsNeeded` | tools/eval_quality.py:2050-2112 | resumed and retried under one naming, as written or intended and for each set of movers, `n` invocations ending anyhow can reach the manifest exactly when every recording has a finite cost and `n` exceeds the sum |
| `BatchRepetition.NewRootsNeeded` | tools/eval_quality.py:1898 | the same for a series in which each invocation stages under a root of its own, for both variants and each set of movers: the costs do not depend on the namings |
| `BatchRepetition.NewRootsFinish` | tools/eval_quality.py:1898 | the default use as written: such a series finishes exactly when every recording is done or has a recorded run that can be completed with rows the export accepts, and it is longer than the number of recordings recorded failed or cancelled |
| `BatchConvergence.FreshPathNeverFinishes` | tools/eval_quality.py:2070-2073 | an invocation that would submit a recording under an unknown path cannot reach its manifest, whoever moves runs |
| `BatchConvergence.IntendedResumeConverges` | tools/eval_quality.py:1941-1997 | intended variant only, `run.id` taken as readable: a resumed and retried batch can reach its manifest in one invocation exactly when every run it would poll can be completed; for several invocations see `BatchRepetition.InvocationsNeeded`, which covers this variant |
| `BatchConvergence.RetryAdoptsTheSameRun` | tools/eval_quality.py:2065-2074 | a retry under the root the recording was staged under polls the very run recorded for it |
| `BatchConvergence.CancelledRunStrands` | tools/eval_quality.py:2080-2092 | a reachable state with one cancelled run, from which no number of invocations under its naming, ending anyhow, finishes unless operators are at work, as written or intended |
| `BatchConvergence.AnotherRootTakesThree` | tools/eval_quality.py:2066-2092 | a reachable state with the cancellation recorded: its own root never finishes without operators; another root takes exactly three invocations as written, two with operators, one as intended |
| `BatchConvergence.UnexportableRunStrands` | tools/eval_quality.py:2086-2090 | for any rows the export refuses, a reachable state with a completed run of such rows recorded, from which no number of invocations under any naming finishes unless operators are at work, as written or intended |
| `StoredRows.ExportCompleted` | tools/eval_quality.py:1832-1870 | succeeds exactly when the turn indices increase and, for AMI, the transcript passes every guard within a UEM that has a region; what it returns is what the protocol exports for these rows |
| `StoredRows.ExportIsScored` | tools/eval_quality.py:1832-1870 | the driver's export of stored AMI rows is an export in the sense of `RoundTrip.TranscriptToScore`, text and streams |
| `StoredRows.LostTimingStrands` | tools/eval_quality.py:1499-1504 | the input: one segment with text and NULL words strands the batch |
| `BatchConvergence.FinishWrites` | tools/eval_quality.py:1993-1997 | the last statement leaves the whole manifest of all selected recordings, each completed |
| `BatchConvergence.InterruptedOutputIsRewritten` | tools/eval_quality.py:1564-1634 | after a death inside the bundle or the manifest the same batch, resumed, decides `skip_done` for every recording and can write the output again |
| `BatchConvergence.OneRootNoDuplicate` | tools/eval_quality.py:1898 | drivers of an out-dir that stage under one root never submit a recording twice |
| `BatchConvergence.FreshRootDuplicates` | tools/eval_quality.py:2070-2073 | an invocation that dies at its submission and another under a different root give two runs of one recording |
| `BatchConvergence.NamingDecides` | tools/eval_quality.py:1898 | for two arbitrary subdirectories and batch ids, duplicates are possible exactly when the staged paths differ |
| `BatchConvergence.EndlessRuns` | tools/eval_quality.py:1898 | with a fresh batch id per invocation any number of runs of one recording can be submitted with no manifest written |
| `BatchPowerLoss.EventKeeps` | tools/eval_run.py:831-876 | every step and write-back, with or without a working directory fsync, keeps the invariant and keeps the journal on disk an earlier version of the live one |
| `BatchPowerLoss.PowerLossExactly` | tools/eval_quality.py:2066-2071 | a power loss leaves the invariant, and so write-ahead, intact exactly when every run submitted for a losing out-dir is announced in its journal on disk |
| `BatchPowerLoss.CompletedSurvivesExactly` | tools/eval_quality.py:2100-2111 | a completed recording survives a power loss, unchanged, exactly when the journal that is left has it completed |
| `BatchPowerLoss.SyncedHistorySurvives` | tools/eval_run.py:831-876 | while the directory fsync works, both results survive any history with any number of power losses |
| `BatchPowerLoss.CarefulHistorySound` | tools/eval_quality.py:2066-2071 | any history stays sound in which each power loss finds the losing out-dirs' runs announced on disk |
| `BatchPowerLoss.UnsyncedLosesEverything` | tools/eval_run.py:831-849 | with no directory fsync working, any reachable state can lose an out-dir's journal, its announced runs and its completed recordings |
| `BatchDriver.OthersCommute` | tools/eval_quality.py:2039-2113 | what the other actors can do, and its effect, is independent of this process's local progress |
| `BatchDriver.RunCommand.Record` | tools/eval_quality.py:2032-2036 | the in-memory and the durable journal change by the same patch and are equal afterwards |
| `BatchDriver.RunCommand.SubmitIfNew` | src/voxint/ingest/service.py:762-842 | media item and run are created together exactly when the path is new, and a `SubmissionResult` is returned |
| `BatchDriver.RunCommand.ReconcileRun` | tools/eval_quality.py:1813-1829 | returns the one run of the path or refuses |
| `BatchDriver.RunCommand.SubmitOne` | tools/eval_quality.py:2059-2075 | stage, announce, submit or adopt, record, publish: ends polling a recorded run with nothing submitted, or with the process gone; a fresh submission always ends the process |
| `BatchDriver.RunCommand.PollRun` | tools/eval_quality.py:2080-2098 | ends with the export of a completed run's rows, or with the process gone: with the last status seen in the durable journal, or with the journal as it was where that status is unknown to it or the export is refused |
| `BatchDriver.RunCommand.DriveOne` | tools/eval_quality.py:2039-2113 | a normal return means the recording is completed durably; every other end leaves the process gone; STOP never returns |
| `BatchDriver.RunCommand.Run` | tools/eval_quality.py:1941-1997 | under interference by anybody between any two statements, at most one run is submitted, and success means none was, and the manifest attests every selected recording as completed, with verified fingerprints |
| `AtomicFile.Stages` | tools/eval_run.py:864-876 | the file system after each of the five sub-steps |
| `AtomicFile.MayReadExactly` | tools/eval_run.py:864-876 | after a power loss exactly the live payload or the one certainly on disk may be read |
| `AtomicFile.WriteMoves` | tools/eval_run.py:864-876 | what each number of completed sub-steps leaves: the rename moves the live payload, the directory fsync the one on disk |
| `AtomicFile.OldOrNew` | tools/eval_run.py:864-876 | after a kill or power loss at any sub-step the target holds the old or the new payload exactly when the payload on disk before was the live one, or the directory was fsynced |
| `AtomicFile.DurableExactly` | tools/eval_run.py:831-876 | a finished write survives power loss exactly when the directory fsync worked or that payload was on disk already |
| `AtomicFile.OthersUntouched` | tools/eval_run.py:864-876 | no sub-step changes what any other file holds; the directory fsync makes the others' live payloads durable too |
| `AtomicFile.HistoryIsAssignment` | tools/eval_run.py:851-876 | any history of calls that return, raise or die at any sub-step, with or without a working directory fsync, of power losses and of write-backs refines assignments to two payloads |
| `AtomicFile.HistoryReads` | tools/eval_run.py:851-876 | at the end of any history exactly two payloads may be read: the last renamed one and the one in place when the directory last reached the disk |
| `AtomicFile.PowerLossChooses` | tools/eval_run.py:831-876 | a power loss leaves one of these two, and it is then the only one |
| `AtomicFile.SyncedHistoryIsCell` | tools/eval_run.py:851-876 | while every rename is followed by a working directory fsync the target is one atomic cell |
| `AtomicFile.RaisedKeeps` | tools/eval_run.py:872-875 | the handler's unlink restores every file's durable content |
| `AtomicFile.Directory.WriteJsonAtomic` | tools/eval_run.py:851-876 | the state after return, death at any sub-step, an exception in any sub-step, or one that arrives after the rename |
| `Sorting.SortStable` | tools/eval_run.py:768-803 | Python's `sorted` keeps the input order within one key |
| `Sorting.SortForgetsOrder` | tools/eval_run.py:768-803 | sorting forgets the input order exactly when equal keys mean equal elements |
| `Cohort.DescriptorIgnoresOrder` | tools/eval_run.py:768-803 | the descriptor ignores input order exactly when no two different records share an (id, role) key |
| `Cohort.DescriptorIsCanonical` | tools/eval_run.py:768-810 | two cohort hashes are equal exactly when corpus, ids, records, environment and protocol are |
| `Cohort.CohortRecords` | tools/eval_quality.py:704-778 | accepts exactly the arrays that are non-empty, well typed, consistent, duplicate-free and complete, and tabulates them |
| `Cohort.BindCohort` | tools/eval_quality.py:823-931 | accepts exactly the manifests meeting the order-free conditions of `Acceptable`, and stamps the attested hash |
| `Cohort.Recompute` | tools/eval_quality.py:896-931 | the hash rebuilt from observed bytes is the attested one |
| `Cohort.RebuiltIsAttested` | tools/eval_quality.py:896-931 | verified observations rebuild the attested records up to order |
| `Cohort.CorpusDecidesScoredSets` | tools/eval_quality.py:823-931 | in an accepted manifest the corpus alone fixes the WER, cpWER and UEM sets |
| `Cohort.ExpectedIds` | tools/eval_quality.py:786-795 | the ids whose record for the role is present |
| `Bundle.AttestationOk` | tools/eval_quality.py:1539-1549 | what `run` attests is a well-formed cohort for every resolved corpus |
| `Bundle.BundlePathInjective` | tools/eval_quality.py:1564-1634 | two (recording, role) pairs never share a bundle file, wherever the bundle lies |
| `Bundle.Store.WriteOne` | tools/eval_quality.py:1588-1620 | one recording's files are written one after the other, each copy reading what is there by then |
| `Bundle.Store.WriteBundle` | tools/eval_quality.py:1564-1634 | fails exactly when a file to copy is missing at its turn; otherwise the manifest lists every recording with its paths and the files are those of the loop |
| `Bundle.BundleComplete` | tools/eval_quality.py:1564-1634 | where no copied file lies inside the bundle, that is: fails exactly when one is missing at the start; otherwise the bundle holds every recording's corpus bytes as they were, its hypotheses and its stream document |
| `Bundle.LoadDiarItems` | tools/eval_quality.py:616-653 | fails exactly on a duplicate, an entry without the `uem` key, or an unreadable file; observes exactly the listed files, a null UEM included |
| `Bundle.LoadTexts` | tools/eval_quality.py:992-1003 | fails exactly on a duplicate or unreadable WER entry; observes exactly the listed references |
| `ScoreCommand.ValidateCpwerStreams` | tools/eval_quality.py:426-460 | accepts exactly dictionaries whose keys are the anonymous key, where allowed, or a speaker key with a label that is not blank, and whose words are strings that are not blank |
| `ScoreCommand.CpwerOne` | tools/eval_quality.py:474-500 | refuses exactly more than 20 streams on a side, an invalid side, and a reference stream that normalizes to nothing |
| `ScoreCommand.ScoreCpwer` | tools/eval_quality.py:511-568 | scores exactly non-empty lists of scorable recordings and counts the words of the anonymous hypothesis streams |
| `ScoreCommand.LoadCpwer` | tools/eval_quality.py:934-1013 | fails exactly on a duplicate, an unreadable file, or a stream file that is no object, names another recording or has no `streams` object |
| `ScoreCommand.ObservedOnce` | tools/eval_quality.py:955-1045 | what `score` observes of a manifest's files is unique |
| `ScoreCommand.CmdScore` | tools/eval_quality.py:955-1045 | accepts exactly the manifests with diarization or WER entries that load, that no scorer refuses, that leave no word unassigned, and whose block, if there is one, is acceptable for the bytes read; stamps the attested hash, or nothing without a block |
| `RoundTrip.BlockIsAttestation` | tools/eval_quality.py:1985-1992 | the manifest's records are the attested ones and hash to the claimed value |
| `RoundTrip.ScoreLoads` | tools/eval_quality.py:955-1045 | wherever the bundle is moved, every file the manifest names is found |
| `RoundTrip.ScoreObserves` | tools/eval_quality.py:616-653 | scoring the moved bundle observes the bytes that were bundled |
| `RoundTrip.SoundExactly` | tools/eval_quality.py:798-820 | every attested record agrees with the scored bytes exactly when nothing scored changed since attestation |
| `RoundTrip.BindsExactly` | tools/eval_quality.py:823-931 | the moved bundle's block claims its own hash and is acceptable exactly when no reference, UEM or transcript changed between attestation and bundling |
| `RoundTrip.ScoresExactly` | tools/eval_quality.py:955-1022 | loading and scoring the moved bundle succeed exactly when the scorers accept the corpus bytes and hypotheses that were bundled, wherever it lies |
| `RoundTrip.RunToScore` | tools/eval_quality.py:955-1045 | `score` accepts the moved bundle exactly when nothing scored changed, the scorers accept the copied references and the hypotheses, and no hypothesis leaves a word unassigned |
| `RoundTrip.HypothesisScoresExactly` | tools/eval_quality.py:511-568 | an exported hypothesis passes the cpWER guards exactly when every kept word has a label and there are at most 20 labels |
| `RoundTrip.TranscriptToScore` | tools/eval_quality.py:955-1045 | from stored transcript rows: accepted exactly when nothing scored changed, the scorers accept, and of every recording with a cpWER reference each kept word has a label, at most 20 in all |
| `RoundTrip.UnlabelledRowIsExported` | tools/eval_quality.py:1476-1508 | a row without a label and with a kept word passes every guard of the export |
| `RoundTrip.BundleRelocates` | tools/eval_quality.py:1564-1634 | the code's directory layout is injective and relocatable |
| `JournalToScore.ManifestVouched` | tools/eval_quality.py:1974-1984 | in any reachable state with a readable manifest, each selected recording's hypotheses are in the journal, and the recorded artifact hashes are of them |
| `JournalToScore.JournalBundles` | tools/eval_quality.py:1974-1995 | so writing the bundle from the journal fails exactly when a corpus file is missing |
| `JournalToScore.JournalIsScored` | tools/eval_quality.py:1963-1997 | whatever drivers and others did: the bundle made of the journal's completed items, moved anywhere, is accepted by `score` exactly when nothing scored changed and the scorers accept the copied references and the journal's hypotheses |
| `JournalToScore.JournalOfTranscriptsIsScored` | tools/eval_quality.py:1844-1870 | the same where the items hold what the export made of stored rows: every kept AMI word must have a label, of at most 20 |
| `Lineage.HistoryImmutable` | alembic/versions/0012_run_enrichment_assets.py:169-228 | under any statements rows never disappear, content never changes, a pointer once set stays |
| `Lineage.Head` | alembic/versions/0047_translation_idempotency.py:37-92 | following pointers ends at an unsuperseded row of the same group that is not older |
| `Lineage.HopsBounded` | alembic/versions/0012_run_enrichment_assets.py:209-225 | within (head generation minus own) hops |
| `Lineage.Acyclic` | alembic/versions/0012_run_enrichment_assets.py:209-225 | every chain raises the generation, so none returns |
| `Lineage.NewestIsHead` | alembic/versions/0012_run_enrichment_assets.py:209-225 | the newest row of a group is never superseded |
| `Lineage.HeadNeverOlder` | alembic/versions/0047_translation_idempotency.py:37-92 | the head a fixed row resolves to never goes back to an older generation |
| `Lineage.EveryRowResolvesToTheHead` | alembic/versions/0047_translation_idempotency.py:37-92 | with one head, all rows of a group resolve to it and it is the newest |
| `Lineage.RecordedOneHead` | alembic/versions/0038_transcript_translation.py:122-125 | the insert-then-supersede step keeps one head per group, moves every row of the group to it and leaves other groups alone |
| `Lineage.Lineages.Execute` | alembic/versions/0047_translation_idempotency.py:37-92 | the table after a statement; deletes of rows are refused |
| `Lineage.Lineages.MaxGeneration` | src/voxint/enrichment/translations.py:349-359 | the newest generation of the group, or zero |
| `Lineage.Lineages.Record` | src/voxint/enrichment/translations.py:250-395 | writes exactly for an unknown key, replays exactly when a row with that key, group and content exists, whatever its completion time, and conflicts otherwise; a new row becomes the head of every row of its group |
| `Lineage.Lineages.Supersede` | src/voxint/enrichment/translations.py:377-386 | row by row through the trigger, the UPDATE gives the recorded table |
| `Lineage.StatementKeepsOneHead` | alembic/versions/0012_run_enrichment_assets.py:169-228 | any statement on a sound table keeps the one head of a group exactly unless it is an admitted insert into a group that has a current row |
| `Lineage.TriggerAloneAllowsTwoHeads` | alembic/versions/0012_run_enrichment_assets.py:169-228 | the trigger alone does not keep one head |
| `SpeakerMerge.EndsOrCycles` | alembic/versions/0041_speaker_profiles.py:49-65 | a chain ends at a speaker without tombstone or reaches a cycle, never both |
| `SpeakerMerge.CanonicalUnique` | alembic/versions/0041_speaker_profiles.py:49-65 | at most one canonical speaker |
| `SpeakerMerge.Canonicalize` | alembic/versions/0041_speaker_profiles.py:49-65 | terminates on every map, raises exactly when a cycle is reached, otherwise returns the canonical speaker |
| `SpeakerMerge.CanonicalStep` | alembic/versions/0041_speaker_profiles.py:49-65 | following one tombstone does not change the answer |
| `SpeakerMerge.Idempotent` | alembic/versions/0041_speaker_profiles.py:49-65 | canonicalising twice changes nothing |
| `SpeakerMerge.CompressionInvisible` | alembic/versions/0041_speaker_profiles.py:49-65 | path compression changes no result, cycles included |
| `ProfileBackfill.VerdictsAreFinal` | alembic/versions/0010_enrichment_drafts_and_profile_review.py:377-463 | under any statements verdicts, their uniqueness and the judged values are preserved |
| `ProfileBackfill.WinnerUnique` | alembic/versions/0041_speaker_profiles.py:75-93 | the newest accepted decision of a key is unique |
| `ProfileBackfill.FirstWins` | alembic/versions/0041_speaker_profiles.py:85-93 | newest-first iteration with first-wins picks the maximum by (created_at, id) |
| `ProfileBackfill.PickWinners` | alembic/versions/0041_speaker_profiles.py:89-93 | aborts exactly on a cycle; otherwise collects the first row of each (canonical speaker, field) |
| `ProfileBackfill.InsertWinners` | alembic/versions/0041_speaker_profiles.py:94-116 | existing profiles stay, missing ones get their winner |
| `ProfileBackfill.Backfill` | alembic/versions/0041_speaker_profiles.py:68-116 | aborts exactly when an accepted claim's chain cycles; otherwise every claimed key holds its maximal decision |
| `ProfileBackfill.BackfillIdempotent` | alembic/versions/0041_speaker_profiles.py:94-116 | a second run changes nothing |
| `ProfileBackfill.BackfillDetermined` | alembic/versions/0041_speaker_profiles.py:68-116 | two runs over any two orders of the joined rows have the same outcome |
| `ProfileBackfill.StoredValueIsAcceptedValue` | alembic/versions/0041_speaker_profiles.py:68-116 | whatever happened to the ledger in between, the stored value is the one accepted |
| `Cropping.KeptVersusRegions` | tools/build_ami_wer_reference.py:172-179 | the per-region counts add up to the kept words exactly when no word lies in two regions |
| `Cropping.DisjointRegionsCountWords` | tools/build_ami_wer_reference.py:172-179 | for disjoint regions the kept count is the sum over regions |
| `Cropping.ParseUem` | tools/build_ami_wer_reference.py:115-141 | accepts exactly well-formed files with positive regions of the recording, and returns those in order |
| `Cropping.UemRegionsUs` | tools/eval_quality.py:1873-1888 | accepts exactly files with some readable region of the recording |
| `Cropping.SameRegionsExactly` | tools/eval_quality.py:1873-1888 | two time conversions read the same regions exactly when they agree on the recording's lines |
| `Cropping.CropAgreement` | tools/build_ami_wer_reference.py:115-141 | both parsers give the same regions exactly when the conversions agree; the builder rejects what the driver accepts exactly for short lines and non-positive regions |
| `Renders.KeptHypWords` | tools/eval_run.py:239-259 | the kept words in ASR order; fails exactly without regions or on a malformed word |
| `Renders.KeptExactly` | tools/eval_run.py:239-259 | a word is kept exactly when it is readable, its midpoint lies in a region and its stripped text is not empty |
| `Renders.KeptInAsrOrder` | tools/eval_run.py:239-259 | the kept words come in segment order, then stored order |
| `Renders.EncodeInjective` | tools/eval_run.py:226-236 | the label encoding is injective, null included |
| `Renders.GroupStreams` | tools/eval_run.py:281-283 | the dictionary holds, for exactly the keys that occur, the order-preserving filter |
| `Renders.StreamIsFilterByLabel` | tools/eval_run.py:281-283 | each stream is the filter of the kept words by diarization label |
| `Renders.StreamsConserve` | tools/eval_run.py:284-292 | the streams together hold exactly the words of the list, with multiplicity |
| `Renders.GroupedTotal` | tools/eval_run.py:284 | the grouped total is the number of kept words |
| `Renders.PlainIsInterleaving` | tools/eval_run.py:280-283 | the plain text reads the streams in an interleaving that consumes each exactly |
| `Renders.NoDuplicates` | tools/eval_run.py:274-279 | the Counter check fails exactly when two kept words share an occurrence id |
| `Renders.AmiHypothesisRenders` | tools/eval_run.py:262-293 | both renders come from the same kept words; the conservation error is unreachable |
| `Renders.MonotonicUnique` | tools/eval_quality.py:1463-1473 | accepts exactly strictly increasing indices |
| `Renders.SegmentsToLabeledWords` | tools/eval_quality.py:1476-1508 | accepts exactly ordered rows with usable labels and timing |
| `Renders.KeptDistinct` | tools/eval_run.py:274-279 | distinct segment indices give distinct occurrence ids |
| `Renders.Hypothesis` | tools/eval_quality.py:1856-1870 | end to end, neither the duplicate nor the conservation error can occur |
| `Renders.BuildReference` | tools/build_ami_wer_reference.py:228-258 | the reference's conservation error is unreachable |
| `Renders.MergeIgnoresLoadOrder` | tools/build_ami_wer_reference.py:182-189 | the merged reference does not depend on file order and holds exactly the scored words |
| `Renders.FilterOfSort` | tools/build_ami_wer_reference.py:192-207 | filtering the sorted list is sorting the filtered list |
| `Renders.StreamsNeedNoSecondSort` | tools/build_ami_wer_reference.py:192-207 | each speaker's stream is the chronological merge of that speaker's own scored words |
| `Windows.ClipStmToWindow` | tools/prepare_bakeoff_corpus.py:500-526 | the loop computes the cut segment by segment |
| `Windows.ClipKeepsWholeText` | tools/prepare_bakeoff_corpus.py:500-526 | unmasked output is exactly the whole, unmasked segments inside the window, with their text |
| `Windows.ClipMasks` | tools/prepare_bakeoff_corpus.py:500-526 | a mask comes from a mask or an edge crossing, carries no text, and spans exactly the overlap |
| `Windows.ClipCoverage` | tools/prepare_bakeoff_corpus.py:500-526 | instant by instant, covered after is covered before and inside the window |
| `Windows.ClipComposes` | tools/prepare_bakeoff_corpus.py:500-526 | cutting twice is cutting once, for every transcript, exactly when the inner window is inside or empty |
| `Windows.WordsCompose` | tools/prepare_bakeoff_corpus.py:486-497 | the same law for contained words, with its exact condition |
| `Windows.WordsAreContained` | tools/prepare_bakeoff_corpus.py:486-497 | exactly the contained words survive, rebased |
| `Wav.AcceptedExactly` | tools/prepare_bakeoff_corpus.py:386-427 | parser and validator accept exactly the canonical layout and read back its data size |
| `Wav.HeaderBytesExactly` | tools/prepare_bakeoff_corpus.py:386-427 | that is, agreement with the written header on every byte but RIFF size, byte rate and block alignment |
| `Wav.WavRoundTrip` | tools/prepare_bakeoff_corpus.py:356-380 | every sample sequence that fits a RIFF header parses, validates and reads back identically; longer ones are refused |
| `Wav.RangeGetExactly` | tools/prepare_bakeoff_corpus.py:430-453 | a range request yields exactly the asked bytes or an error, and when |
| `Wav.FetchDecodesWindow` | tools/prepare_bakeoff_corpus.py:472-480 | for any file, truncated or odd-sized ones included: exactly when the fetch succeeds, and that for an offset that is not negative it decodes exactly that window of the file's samples |
| `Wav.FetchOfComplete` | tools/prepare_bakeoff_corpus.py:472-480 | from a file whose data is the encoding of given samples a successful fetch returns exactly that window of them |
| `Wav.FetchReadsHeader` | tools/prepare_bakeoff_corpus.py:472-480 | a negative offset that succeeds decodes header bytes |
| `Folders.ComponentBoundary` | alembic/versions/0040_projects_media_folders.py:48-67 | for plain paths a folder holds exactly itself and what starts with it and a slash |
| `Folders.AncestorsAreAChain` | alembic/versions/0040_projects_media_folders.py:48-67 | ancestors of one path at one depth are one path; otherwise the deeper lies in the other |
| `Folders.DeepestAncestor` | alembic/versions/0040_projects_media_folders.py:48-67 | the loop computes the specification function |
| `Folders.DeepestIsLongestPrefix` | alembic/versions/0040_projects_media_folders.py:48-67 | which is the longest registered prefix, first spelling first, and None exactly when nothing holds the path |
| `Folders.FlatNeverAborts` | alembic/versions/0040_projects_media_folders.py:159-224 | non-nested registrations covering all mapped folders never change a pack |
| `Folders.PreflightExactly` | alembic/versions/0040_projects_media_folders.py:195-224 | no path whatever can mismatch exactly when no registered or mapped folder, taken as a path, does |
| `Folders.Database.Register` | alembic/versions/0040_projects_media_folders.py:179-193 | one row per registered folder, existing rows kept |
| `Folders.Database.Assign` | alembic/versions/0040_projects_media_folders.py:195-216 | every agreeing item gets its deepest folder; mismatches are reported exactly for the others |
| `Folders.Database.Backfill` | alembic/versions/0040_projects_media_folders.py:159-224 | with a registered folder it succeeds exactly when every item's old and new pack agree; the whole new state |
| `Folders.PacksPreserved` | alembic/versions/0040_projects_media_folders.py:195-224 | after success the relation gives every item exactly its old pack |
| `Folders.BackfillTwice` | alembic/versions/0040_projects_media_folders.py:159-224 | a second run changes nothing and meets the same verdict |
| `Folders.NestedAborts` | alembic/versions/0040_projects_media_folders.py:217-224 | a nested registration that must abort |
| `Roster.CollectCandidates` | tools/build_attribution_roster.py:95-115 | the eligible slots of the meetings with a run, in report order |
| `Roster.CollectExactly` | tools/build_attribution_roster.py:95-115 | the candidates are exactly the genuine slots whose dominant speaker the meeting enrols, in meetings with a run |
| `Roster.FirstPerName` | tools/build_attribution_roster.py:125-127 | over a list sorted best first, setdefault keeps the best per identity |
| `Roster.SelectEnrollmentCandidates` | tools/build_attribution_roster.py:88-128 | every identity with an eligible slot gets one that no other slot of it beats; the rest is reported missing |
| `Roster.BestUnique` | tools/build_attribution_roster.py:116-127 | there is only one best slot per identity |
| `Roster.SelectionIgnoresOrder` | tools/build_attribution_roster.py:88-128 | reordering the reports, and the slots within them, does not change the selection |

## Left out

- DER, JER, WER and cpWER numerics, text normalisation and assignment: they live in libraries outside this model.
- HTTP, subprocess, docker, GPU and sysfs probes, argument parsing and report rendering; fingerprints are opaque values compared for equality.
- Preflight of durations and `load_subset` and `select_only` validation: only their result, distinct safe ids, is used.
- JSON encoding and decoding, RTTM and XML parsing and the hex spelling of hashes: a document is its value.
- Fairness of the real pipeline: `CanFinish` says that an invocation can finish, not that the pipeline will let it.
- Concurrency of the translation writer: `Lineages.Record` runs under its advisory lock, so writers are serial; the savepoint race on the idempotency key is not modelled.
- `rerun` in `BatchProtocol` marks paths for which `submit_media_item` minted a further run; one-run claims exclude those paths, because that function creates second runs on purpose.
- BatchInvocation.OneInvocation: about an invocation with nobody at work but the chosen movers of runs, and no crash of its own; what others may do in between is covered by the safety results. That a worker fails a run in between is allowed, as is that it does not.
- BatchRepetition.InvocationsNeeded: all invocations in a row use the same arguments (in `NewRootsNeeded`: but for the naming, which is new each time; other mixtures of namings are not counted), the environment verifies each time, and between them nobody but the chosen movers is at work; that they can end where it helps is enough, not that they will.
- BatchRepetition.NewRootsNeeded: the roots differ from each other and the database knows none of their paths at the start.
- StoredRows.ExportCompleted: a recording's UEM regions are taken as the same in every invocation, so that a run's rows are exported or refused once and for all; `to_rttm` is not modelled.
- Failing file, database or broker calls: an end at any statement is part of the protocol (`Crash`), but that an invocation can finish presumes that its calls succeed.
- BatchPowerLoss.PowerLossExactly: takes the database's committed transactions as durable, and says nothing of the bundle and manifest, which are never fsynced: after a power loss they are arbitrary.
- BatchConvergence.IntendedResumeConverges: about an intended variant in which `run.id` of a fresh submission is readable; it is not a property of the code as written.
- Bundle.Store.WriteBundle: the files after a refusal are not promised (the source has then written part of the failing recording); a hypothesis for every recording is a precondition, which the driver's completed journal gives.
- Bundle.BundleComplete: assumes that no copied corpus file lies at one of the bundle's own paths, since writing the bundle would then overwrite its input.
- RoundTrip.RunToScore: whether the diarization and the WER scorer accept their input, JSON decoding and text normalization are functions the theorem takes as parameters, with JSON giving back what was dumped; RTTM and UEM parse errors at score time count as the diarization scorer's refusal.
- ScoreCommand.CmdScore: the internal S+D+I consistency checks on the cpWER library are not modelled.
- BatchDriver.RunCommand.SubmitIfNew: the sidecar, folder membership and settings snapshot of the real function are not modelled; nor is its admission guard, which looks for a trash or purge mark on the media row the same transaction has just inserted.
- Wav.WavRoundTrip: `read_canonical_wav` is modelled for files in the canonical chunk layout; the general chunk walk of Python's `wave` is not.
- Wav.FetchDecodesWindow: the conversion of seconds to whole frames (`round`) happens before; offset and window are frames.
- Float rounding in `quantize_int16`: samples are integers from the start.
- Folders.Database.Backfill: the rollback of a raised migration is the migration framework's and not modelled; the contract gives the state at the raise.
- Roster.SelectEnrollmentCandidates: the missing identities are returned as a set; their sorting is not modelled, and purities are real numbers, so NaN is outside the model.
- `load_speaker_words`: only the tagged words it returns.
- Resolver, matcher, aligner, protocol builder, media operations, job executors and the adjudication ledger's effective-decision fold: their code is not part of this model.
- Additive migrations, enum swaps and settings columns: single-branch facts.
