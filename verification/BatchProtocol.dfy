/** The `run` step as a transition system.
  *
  * Any number of driver processes, each at some statement of `cmd_run` / `_drive_one`, share a
  * database and one journal file per out-dir. Every step below is one statement whose effect another
  * process or a later resume can see; a driver may die between any two of them (`Crash`), and the
  * pipeline, another ingester or an operator may change the database at any time.
  */
module BatchProtocol {
  import opened Common
  import opened RunJournal
  import opened StagedPaths

  type OutDir = string
  type DriverId = nat

  /** A host-side environment fingerprint; `rest` is everything compared only for equality. */
  datatype Fingerprint = Fingerprint(full: bool, whisper: Option<string>, gpuName: Option<string>, rest: string)

  datatype StaticEnv = StaticEnv(imageDigest: string, gpuName: string)

  /** `require_verified_fingerprints` returns. */
  predicate Verified(before: Fingerprint, after: Fingerprint, env: StaticEnv) {
    && before.full && after.full && before == after
    && (before.whisper.Some? ==> before.whisper.value == env.imageDigest)
    && (before.gpuName.Some? ==> before.gpuName.value == env.gpuName)
  }

  /** The arguments of one `run` invocation, after the subset has been validated. */
  datatype Config = Config(
    out: OutDir, naming: Naming, corpus: Corpus, cohort: string, ids: seq<RecId>,
    resume: bool, retryFailed: bool, fpBefore: Fingerprint, env: StaticEnv)

  /** `load_subset` and `select_only` let through only distinct, filename-safe ids of a known corpus. */
  predicate ConfigOk(cfg: Config) {
    && !cfg.corpus.UnknownCorpus?
    && NoDup(cfg.ids)
    && forall i :: 0 <= i < |cfg.ids| ==> SafeId(cfg.ids[i])
  }

  /** Where a driver stands inside `_drive_one` for recording number `k`. */
  datatype Pc =
    | AtLoop                                   // about to take decision k, or past the last one
    | Staged                                   // audio staged and re-hashed
    | Announced                                // "submitting" is durable
    | Conflicted                               // submit_media_item_if_new returned None
    | Submitted(run: RunId)                    // it returned a SubmissionResult, which has no `id`
    | HaveRun(run: RunId)                      // the run is known but not recorded
    | Recorded(run: RunId)                     // "queued" and run_uuid are durable, not yet published
    | Polling(run: RunId)
    | Ended(run: RunId, seen: Status)          // polled a failure, or a live status at the deadline
    | Exported(run: RunId, exported: Export)   // read a completed run's rows
    | Bundling(fpAfter: Fingerprint)           // past the loop, copying the bundle's files
    | Closing(fpAfter: Fingerprint)            // manifest.json truncated, not yet written

  datatype Process =
    | Idle
    | Locked(cfg: Config)
    | Working(cfg: Config, journal: Journal, decisions: seq<Decision>, k: nat, pc: Pc)

  datatype Manifest = Manifest(ids: seq<RecId>, items: Items, before: Fingerprint, after: Fingerprint, env: StaticEnv)

  /** What lies in an out-dir beside the journal. The bundle's files and manifest.json are plain writes: a
    * driver may die while copying, with the older manifest still there, or with manifest.json truncated. */
  datatype Output =
    | NoOutput
    | Copying(ids: seq<RecId>, older: Option<Manifest>)
    | Torn(ids: seq<RecId>)
    | Whole(manifest: Manifest)

  /** The manifest a reader finds, if it is readable. */
  function Readable(out: Output): Option<Manifest> {
    match out
    case NoOutput => None
    case Copying(_, older) => older
    case Torn(_) => None
    case Whole(m) => Some(m)
  }

  /** One out-dir: its journal file, its lock and its output. */
  datatype Disk = Disk(journal: Option<Journal>, lock: Option<DriverId>, output: Output)

  /** Who submitted a run: a driver for a recording of its out-dir, or somebody else. */
  datatype Origin = Driver(out: OutDir, rec: RecId) | Foreign

  /** `rows` is what the run has stored; only a completed run's rows are exported. */
  datatype RunRow = RunRow(path: string, status: DbStatus, origin: Origin, rows: Rows)

  function NewRun(path: string, origin: Origin): RunRow { RunRow(path, DbQueued, origin, Rows(None, None)) }

  datatype System = System(
    media: set<string>,                  // media_items.source_path, UNIQUE
    runs: map<RunId, RunRow>,
    rerun: set<string>,                  // history: paths somebody queued a further run for
    disks: map<OutDir, Disk>,
    procs: map<DriverId, Process>,
    used: set<(OutDir, Naming)>)         // history: the namings the drivers of an out-dir were started with

  const NO_DISK := Disk(None, None, NoOutput)

  const INIT := System({}, map[], {}, map[], map[], {})

  function DiskOf(s: System, o: OutDir): Disk { if o in s.disks then s.disks[o] else NO_DISK }

  function ProcOf(s: System, d: DriverId): Process { if d in s.procs then s.procs[d] else Idle }

  datatype Step =
    | Start(d: DriverId, cfg: Config)
    | Load(d: DriverId)
    | Skip(d: DriverId)
    | Stage(d: DriverId)
    | Announce(d: DriverId)
    | SubmitNew(d: DriverId, run: RunId)
    | ReadId(d: DriverId)
    | SubmitExists(d: DriverId)
    | Reconcile(d: DriverId, run: RunId)
    | RecordQueued(d: DriverId)
    | Publish(d: DriverId)
    | Attach(d: DriverId)
    | PollLive(d: DriverId)
    | PollEnded(d: DriverId, deadline: bool)
    | RecordEnded(d: DriverId)
    | PollCompleted(d: DriverId, exported: Export)
    | RecordCompleted(d: DriverId)
    | BeginBundle(d: DriverId, fpAfter: Fingerprint)
    | OpenManifest(d: DriverId)
    | Finish(d: DriverId)
    | Crash(d: DriverId)
    | Transition(run: RunId, to: DbStatus, rows: Rows)
    | Ingest(path: string, run: RunId)
    | Rerun(path: string, run: RunId)

  predicate ActorIs(a: Step, d: DriverId) { !a.Transition? && !a.Ingest? && !a.Rerun? && a.d == d }

  /** `str(run.id)` succeeds on what `submit_media_item_if_new` returned. It does not: a SubmissionResult has
    * only `run_id`, so the code as written takes every step but this one; the intended code takes this one too. */
  predicate AsWritten(a: Step) { !a.ReadId? }

  /** The pipeline's run status machine (src/voxint/pipeline/transitions.py). */
  predicate AllowedTransition(a: DbStatus, b: DbStatus) {
    match a
    case DbQueued => b.DbRunning? || b.DbCancelled? || b.DbPaused?
    case DbRunning => true
    case DbAwaitingAdjudication => b.DbRunning? || b.DbCancelled?
    case DbPaused => b.DbQueued? || b.DbCancelled?
    case DbFailed | DbCompleted | DbCancelled => b.DbQueued?
  }

  function PathOf(p: Process): string
    requires p.Working? && p.k < |p.cfg.ids|
  {
    StagedPath(p.cfg.naming, p.cfg.ids[p.k])
  }

  function SetProc(s: System, d: DriverId, p: Process): System { s.(procs := s.procs[d := p]) }

  /** `_record`: merge the patch into the in-memory journal and write the file, then move on to `pc`. */
  function Recording(s: System, d: DriverId, p: Process, patch: Patch, pc: Pc, k: nat): System
    requires p.Working? && p.k < |p.cfg.ids|
  {
    var rec := p.cfg.ids[p.k];
    var journal := p.journal.(items := p.journal.items[rec := ApplyPatch(ItemOf(p.journal.items, rec), patch)]);
    SetProc(s, d, p.(journal := journal, pc := pc, k := k))
    .(disks := s.disks[p.cfg.out := DiskOf(s, p.cfg.out).(journal := Some(journal))])
  }

  /** A step of the output phase: the process moves on and its out-dir's output changes. */
  function SetOutput(s: System, d: DriverId, p: Process, out: Output): System
    requires p.Working?
  {
    SetProc(s, d, p).(disks := s.disks[p.cfg.out := DiskOf(s, p.cfg.out).(output := out)])
  }

  function ManifestBy(p: Process, fpAfter: Fingerprint): Manifest
    requires p.Working?
  {
    Manifest(p.cfg.ids, p.journal.items, p.cfg.fpBefore, fpAfter, p.cfg.env)
  }

  /** The process ends; its file descriptor, hence its lock, is gone. */
  function Leave(s: System, d: DriverId): System
    requires !ProcOf(s, d).Idle?
  {
    var out := ProcOf(s, d).cfg.out;
    SetProc(s, d, Idle).(disks := s.disks[out := DiskOf(s, out).(lock := None)])
  }

  function Loaded(s: System, d: DriverId, cfg: Config): Journal {
    var disk := DiskOf(s, cfg.out);
    if disk.journal.Some? then disk.journal.value else Journal(cfg.corpus, cfg.cohort, map[])
  }

  function Plan(cfg: Config, items: Items): (ds: seq<Decision>)
    requires !cfg.corpus.UnknownCorpus?
    ensures |ds| == |cfg.ids|
    ensures forall i :: 0 <= i < |ds| ==>
      ds[i] == Decision(cfg.ids[i], Decide(cfg.corpus, items, cfg.ids[i], cfg.resume, cfg.retryFailed))
  {
    seq(|cfg.ids|, i requires 0 <= i < |cfg.ids| =>
      Decision(cfg.ids[i], Decide(cfg.corpus, items, cfg.ids[i], cfg.resume, cfg.retryFailed)))
  }

  function Sole(runs: map<RunId, RunRow>, path: string): set<RunId> {
    set u | u in runs && runs[u].path == path
  }

  /** The next state, or None where the step is not enabled. The queries of one export may see different rows, if
    * the run is restarted in between, so `PollCompleted` takes any export the corpus admits. A run's rows change only
    * with its status: stages write them while it runs, a restart deletes them. */
  function Exec(s: System, a: Step): Option<System> {
    match a
    case Start(d, cfg) =>
      if ProcOf(s, d).Idle? && ConfigOk(cfg) && DiskOf(s, cfg.out).lock.None? then
        Some(SetProc(s, d, Locked(cfg))
             .(disks := s.disks[cfg.out := DiskOf(s, cfg.out).(lock := Some(d))],
               used := s.used + {(cfg.out, cfg.naming)}))
      else None
    case Load(d) =>
      var p := ProcOf(s, d);
      if p.Locked? && !p.cfg.corpus.UnknownCorpus? then
        var journal := Loaded(s, d, p.cfg);
        if journal.corpus == p.cfg.corpus && journal.cohort == p.cfg.cohort && (journal.items == map[] || p.cfg.resume)
        then
          Some(SetProc(s, d, Working(p.cfg, journal, Plan(p.cfg, journal.items), 0, AtLoop))
               .(disks := s.disks[p.cfg.out := DiskOf(s, p.cfg.out).(journal := Some(journal))]))
        else None
      else None
    case Skip(d) =>
      var p := ProcOf(s, d);
      if AtDecision(p) && p.decisions[p.k].action.SkipDone? then Some(SetProc(s, d, p.(k := p.k + 1))) else None
    case Stage(d) =>
      var p := ProcOf(s, d);
      if AtDecision(p) && (p.decisions[p.k].action.Submit? || p.decisions[p.k].action.Retry?)
      then Some(SetProc(s, d, p.(pc := Staged))) else None
    case Announce(d) =>
      var p := ProcOf(s, d);
      if At(p) && p.pc.Staged?
      then Some(Recording(s, d, p, PatchSubmitting(PathOf(p), p.cfg.naming.batch), Announced, p.k)) else None
    case SubmitNew(d, run) =>
      var p := ProcOf(s, d);
      if At(p) && p.pc.Announced? && PathOf(p) !in s.media && run !in s.runs then
        Some(SetProc(s, d, p.(pc := Submitted(run)))
             .(media := s.media + {PathOf(p)},
               runs := s.runs[run := NewRun(PathOf(p), Driver(p.cfg.out, p.cfg.ids[p.k]))]))
      else None
    case ReadId(d) =>
      var p := ProcOf(s, d);
      if At(p) && p.pc.Submitted? then Some(SetProc(s, d, p.(pc := HaveRun(p.pc.run)))) else None
    case SubmitExists(d) =>
      var p := ProcOf(s, d);
      if At(p) && p.pc.Announced? && PathOf(p) in s.media then Some(SetProc(s, d, p.(pc := Conflicted))) else None
    case Reconcile(d, run) =>
      var p := ProcOf(s, d);
      if At(p) && p.pc.Conflicted? && Sole(s.runs, PathOf(p)) == {run}
      then Some(SetProc(s, d, p.(pc := HaveRun(run)))) else None
    case RecordQueued(d) =>
      var p := ProcOf(s, d);
      if At(p) && p.pc.HaveRun? then Some(Recording(s, d, p, PatchQueued(p.pc.run), Recorded(p.pc.run), p.k)) else None
    case Publish(d) =>
      var p := ProcOf(s, d);
      if At(p) && p.pc.Recorded? then Some(SetProc(s, d, p.(pc := Polling(p.pc.run)))) else None
    case Attach(d) =>
      var p := ProcOf(s, d);
      if AtDecision(p) && p.decisions[p.k].action.Poll?
         && ItemOf(p.journal.items, p.cfg.ids[p.k]).runUuid.Some?
      then Some(SetProc(s, d, p.(pc := Polling(ItemOf(p.journal.items, p.cfg.ids[p.k]).runUuid.value)))) else None
    case PollLive(d) =>
      var p := ProcOf(s, d);
      if At(p) && p.pc.Polling? && p.pc.run in s.runs
         && MapDbStatus(s.runs[p.pc.run].status).Some? && IsResumable(MapDbStatus(s.runs[p.pc.run].status).value)
      then Some(s) else None
    case PollEnded(d, deadline) =>
      var p := ProcOf(s, d);
      if At(p) && p.pc.Polling? && p.pc.run in s.runs && MapDbStatus(s.runs[p.pc.run].status).Some?
         && !s.runs[p.pc.run].status.DbCompleted?
         && (deadline || IsFailure(MapDbStatus(s.runs[p.pc.run].status).value))
      then Some(SetProc(s, d, p.(pc := Ended(p.pc.run, MapDbStatus(s.runs[p.pc.run].status).value)))) else None
    case RecordEnded(d) =>
      var p := ProcOf(s, d);
      if At(p) && p.pc.Ended?
      then Some(Leave(Recording(s, d, p, PatchStatus(p.pc.seen), AtLoop, p.k), d)) else None
    case PollCompleted(d, e) =>
      var p := ProcOf(s, d);
      if At(p) && p.pc.Polling? && p.pc.run in s.runs && s.runs[p.pc.run].status.DbCompleted?
         && ExportOk(p.cfg.corpus, e)
      then Some(SetProc(s, d, p.(pc := Exported(p.pc.run, e)))) else None
    case RecordCompleted(d) =>
      var p := ProcOf(s, d);
      if At(p) && p.pc.Exported?
      then Some(Recording(s, d, p, PatchCompleted(p.pc.exported), AtLoop, p.k + 1)) else None
    case BeginBundle(d, fpAfter) =>
      var p := ProcOf(s, d);
      if p.Working? && p.pc.AtLoop? && p.k == |p.cfg.ids| && Verified(p.cfg.fpBefore, fpAfter, p.cfg.env)
         && Uncompleted(p.journal.items, p.cfg.ids) == 0
      then Some(SetOutput(s, d, p.(pc := Bundling(fpAfter)), Copying(p.cfg.ids, Readable(DiskOf(s, p.cfg.out).output))))
      else None
    case OpenManifest(d) =>
      var p := ProcOf(s, d);
      if p.Working? && p.pc.Bundling?
      then Some(SetOutput(s, d, p.(pc := Closing(p.pc.fpAfter)), Torn(p.cfg.ids)))
      else None
    case Finish(d) =>
      var p := ProcOf(s, d);
      if p.Working? && p.pc.Closing?
      then Some(Leave(SetOutput(s, d, p, Whole(ManifestBy(p, p.pc.fpAfter))), d))
      else None
    case Crash(d) => if ProcOf(s, d).Idle? then None else Some(Leave(s, d))
    case Transition(run, to, rows) =>
      if run in s.runs && AllowedTransition(s.runs[run].status, to)
      then Some(s.(runs := s.runs[run := s.runs[run].(status := to, rows := rows)])) else None
    case Ingest(path, run) =>
      if path !in s.media && run !in s.runs
      then Some(s.(media := s.media + {path}, runs := s.runs[run := NewRun(path, Foreign)])) else None
    case Rerun(path, run) =>
      if path in s.media && run !in s.runs
      then Some(s.(rerun := s.rerun + {path}, runs := s.runs[run := NewRun(path, Foreign)])) else None
  }

  predicate At(p: Process) { p.Working? && p.k < |p.cfg.ids| }

  predicate AtDecision(p: Process) { At(p) && p.pc.AtLoop? && p.k < |p.decisions| }

  // ------------------------------------------------------------------ traces

  ghost predicate Trace(s: System, steps: seq<Step>, t: System)
    decreases |steps|
  {
    if steps == [] then s == t
    else Exec(s, steps[0]).Some? && Trace(Exec(s, steps[0]).value, steps[1..], t)
  }

  ghost predicate Reachable(s: System) { exists steps :: Trace(INIT, steps, s) }

  /** Reachable by the code as written. */
  ghost predicate ReachableAsWritten(s: System) {
    exists steps :: Trace(INIT, steps, s) && forall i :: 0 <= i < |steps| ==> AsWritten(steps[i])
  }

  // ------------------------------------------------------------------ invariant

  /** All drivers of the out-dir stage under one root. */
  ghost predicate Uniform(s: System, o: OutDir) {
    forall n, m :: (o, n) in s.used && (o, m) in s.used ==> Root(n) == Root(m)
  }

  /** What holds of a journal item wherever it is stored. */
  ghost predicate ItemOk(corpus: Corpus, it: Item, runs: map<RunId, RunRow>) {
    && ItemShape(corpus, it)
    && (it.runUuid.Some? ==> it.runUuid.value in runs)
  }

  /** With one root per out-dir, an item's path is the staged path and its run is a run of that path. */
  ghost predicate ItemAt(rec: RecId, it: Item, n: Naming, runs: map<RunId, RunRow>) {
    && it.sourcePath == Some(StagedPath(n, rec))
    && (it.runUuid.Some? && it.runUuid.value in runs ==> runs[it.runUuid.value].path == StagedPath(n, rec))
  }

  ghost predicate JournalOk(s: System, o: OutDir, j: Journal) {
    && !j.corpus.UnknownCorpus?
    && (forall r :: r in j.items ==> ItemOk(j.corpus, j.items[r], s.runs))
    && (Uniform(s, o) ==> forall r, n :: r in j.items && (o, n) in s.used ==> ItemAt(r, j.items[r], n, s.runs))
  }

  ghost predicate DiskOk(s: System, o: OutDir) {
    var disk := DiskOf(s, o);
    && (disk.journal.Some? ==> JournalOk(s, o, disk.journal.value) && exists n :: (o, n) in s.used)
    && (disk.lock.Some? ==> var p := ProcOf(s, disk.lock.value); !p.Idle? && p.cfg.out == o)
  }

  ghost predicate DecisionsOk(p: Process)
    requires p.Working?
  {
    && |p.decisions| == |p.cfg.ids| && p.k <= |p.cfg.ids| && !p.cfg.corpus.UnknownCorpus?
    && (forall i :: p.k <= i < |p.cfg.ids| && (i == p.k ==> p.pc.AtLoop? || p.pc.Staged?) ==>
          p.decisions[i] ==
          Decision(p.cfg.ids[i],
                   Decide(p.cfg.corpus, p.journal.items, p.cfg.ids[i], p.cfg.resume, p.cfg.retryFailed)))
    && (forall i :: 0 <= i < p.k ==> Done(p.journal.items, p.cfg.ids[i]))
  }

  predicate Done(items: Items, rec: RecId) { rec in items && items[rec].status.Completed? }

  /** The facts the code relies on at each program point of `_drive_one`. */
  ghost predicate PcOk(s: System, p: Process)
    requires At(p)
  {
    var rec := p.cfg.ids[p.k];
    var it := ItemOf(p.journal.items, rec);
    var path := PathOf(p);
    match p.pc
    case AtLoop => true
    case Staged => !it.status.Completed?
    case Announced => Awaiting(p, path)
    case Conflicted => Awaiting(p, path) && path in s.media
    case Submitted(u) => Awaiting(p, path) && u in s.runs && s.runs[u].path == path
    case HaveRun(u) => Awaiting(p, path) && u in s.runs && s.runs[u].path == path
    case Recorded(u) => Attached(s, p, u)
    case Polling(u) => Attached(s, p, u)
    case Ended(u, seen) =>
      Attached(s, p, u) && !seen.Other? && !seen.SubmissionUnknown? && !seen.Submitting? && !seen.Completed?
    case Exported(u, e) => Attached(s, p, u) && ExportOk(p.cfg.corpus, e)
    case Bundling(_) => false
    case Closing(_) => false
  }

  /** Past the loop: idle there, or writing the output under fingerprints that agreed. */
  ghost predicate PastOk(s: System, p: Process)
    requires p.Working?
  {
    && (p.pc.AtLoop? || p.pc.Bundling? || p.pc.Closing?)
    && (p.pc.Bundling? ==> Verified(p.cfg.fpBefore, p.pc.fpAfter, p.cfg.env) && DiskOf(s, p.cfg.out).output.Copying?)
    && (p.pc.Closing? ==> Verified(p.cfg.fpBefore, p.pc.fpAfter, p.cfg.env) && DiskOf(s, p.cfg.out).output.Torn?)
  }

  predicate Awaiting(p: Process, path: string)
    requires At(p)
  {
    var rec := p.cfg.ids[p.k];
    && rec in p.journal.items
    && p.journal.items[rec].status.Submitting?
    && p.journal.items[rec].sourcePath == Some(path)
  }

  predicate Attached(s: System, p: Process, u: RunId)
    requires At(p)
  {
    var rec := p.cfg.ids[p.k];
    && rec in p.journal.items && !p.journal.items[rec].status.Completed?
    && p.journal.items[rec].runUuid == Some(u) && u in s.runs
  }

  ghost predicate ProcOk(s: System, d: DriverId) {
    var p := ProcOf(s, d);
    p.Idle? || (
      && ConfigOk(p.cfg)
      && DiskOf(s, p.cfg.out).lock == Some(d)
      && (p.cfg.out, p.cfg.naming) in s.used
      && (p.Working? ==>
            && DiskOf(s, p.cfg.out).journal == Some(p.journal)
            && p.journal.corpus == p.cfg.corpus && p.journal.cohort == p.cfg.cohort
            && DecisionsOk(p)
            && (p.k == |p.cfg.ids| ==> PastOk(s, p))
            && (At(p) ==> PcOk(s, p))))
  }

  /** A run has its media item; a driver's run was announced in the durable journal first. */
  ghost predicate RunOk(s: System, u: RunId) {
    u in s.runs ==>
      && s.runs[u].path in s.media
      && (s.runs[u].origin.Driver? ==>
            var o, r := s.runs[u].origin.out, s.runs[u].origin.rec;
            && DiskOf(s, o).journal.Some? && r in DiskOf(s, o).journal.value.items
            && (exists n :: (o, n) in s.used && s.runs[u].path == StagedPath(n, r)))
  }

  ghost predicate UniqueOk(s: System, u: RunId, v: RunId) {
    u in s.runs && v in s.runs && s.runs[u].path == s.runs[v].path && s.runs[u].path !in s.rerun ==> u == v
  }

  ghost predicate MediaOk(s: System, path: string) {
    path in s.media ==> exists u :: u in s.runs && s.runs[u].path == path
  }

  ghost predicate Inv(s: System) {
    && (forall o :: DiskOk(s, o))
    && (forall d :: ProcOk(s, d))
    && (forall u :: RunOk(s, u))
    && (forall u, v :: UniqueOk(s, u, v))
    && (forall path :: MediaOk(s, path))
  }
}
