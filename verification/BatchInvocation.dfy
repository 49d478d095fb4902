/** One `run` invocation while only its runs' movers are at work: when it can reach its manifest.
  *
  * `submit_media_item_if_new` returns a SubmissionResult, whose only field is `run_id`, and the driver reads
  * `run.id` from it. So the code as written commits a fresh submission and then raises. `Mode.fixed` says whether
  * that attribute can be read: false is the code as written, true the evident intention. `Mode.movers` says who
  * changes the status of runs meanwhile.
  */
module BatchInvocation {
  import opened Common
  import opened RunJournal
  import opened StagedPaths
  import opened BatchProtocol
  import opened BatchInvariant
  import opened BatchSafety

  // ------------------------------------------------------------------ who moves a run

  /** Who changes the status of a run. `Workers`: the pipeline's workers and the sweep that requeues a dead
    * worker's run. `WithRetries`: also a task that requeues the run its own attempt has just failed. `WithOperators`:
    * also whoever pauses, resumes, cancels, adjudicates or restarts. */
  datatype Movers = Workers | WithRetries | WithOperators

  datatype Mode = Mode(fixed: bool, movers: Movers)

  /** A worker takes a queued run up, advances, hands over, parks, completes or fails it. */
  predicate ByWorker(a: DbStatus, b: DbStatus) {
    (a.DbQueued? && b.DbRunning?) || (a.DbRunning? && !b.DbPaused? && !b.DbCancelled?)
  }

  /** The moves of the status machine that are theirs; the rows of a run may change with its status. */
  predicate Moves(who: Movers, a: RunRow, b: RunRow) {
    && AllowedTransition(a.status, b.status) && b == a.(status := b.status, rows := b.rows)
    && match who
       case Workers => ByWorker(a.status, b.status)
       case WithRetries => ByWorker(a.status, b.status) || a.status.DbFailed?
       case WithOperators => true
  }

  /** A completed run whose rows are exported without an error. */
  predicate Exports(corpus: Corpus, a: RunRow) { a.status.DbCompleted? && ExportOf(corpus, a.rows).Some? }

  /** The runs which they can complete so. A completed run whose rows the export refuses takes a restart. */
  predicate Completable(who: Movers, corpus: Corpus, a: RunRow) {
    || a.status.DbQueued? || a.status.DbRunning? || Exports(corpus, a)
    || (a.status.DbFailed? && !who.Workers?) || who.WithOperators?
  }

  /** A sequence of their moves leads from `a` to `b`. */
  ghost predicate Leads(who: Movers, a: RunRow, path: seq<RunRow>, b: RunRow)
    decreases |path|
  {
    if path == [] then a == b else Moves(who, a, path[0]) && Leads(who, path[0], path[1..], b)
  }

  lemma {:induction false} NotCompletableStays(who: Movers, corpus: Corpus, a: RunRow, path: seq<RunRow>, b: RunRow)
    requires Leads(who, a, path, b) && Completable(who, corpus, b)
    ensures Completable(who, corpus, a)
    decreases |path|
  {
    if path != [] { NotCompletableStays(who, corpus, path[0], path[1..], b); }
  }

  ghost predicate CanLead(who: Movers, corpus: Corpus, a: RunRow) {
    exists path, b :: Leads(who, a, path, b) && Exports(corpus, b)
  }

  /** `Completable` is exactly that: some of their moves lead to a completed run that is exported. */
  lemma CompletableExactly(who: Movers, corpus: Corpus, a: RunRow)
    ensures Completable(who, corpus, a) <==> CanLead(who, corpus, a)
  {
    if Completable(who, corpus, a) {
      var path, b := WayToCompletion(who, corpus, a);
      assert CanLead(who, corpus, a);
    }
    if CanLead(who, corpus, a) {
      var path, b :| Leads(who, a, path, b) && Exports(corpus, b);
      NotCompletableStays(who, corpus, a, path, b);
    }
  }

  lemma OneMove(who: Movers, a: RunRow, rest: seq<RunRow>, b: RunRow)
    requires rest != [] && Moves(who, a, rest[0]) && Leads(who, rest[0], rest[1..], b)
    ensures Leads(who, a, rest, b)
  {
  }

  /** The run completed with rows any export accepts. */
  function CompletedRow(a: RunRow): (b: RunRow)
    ensures forall corpus :: Exports(corpus, b)
  {
    a.(status := DbCompleted, rows := Rows(Some(""), Some(Transcript("", map[]))))
  }

  lemma WayToCompletion(who: Movers, corpus: Corpus, a: RunRow) returns (path: seq<RunRow>, b: RunRow)
    requires Completable(who, corpus, a)
    ensures Leads(who, a, path, b) && Exports(corpus, b)
    ensures forall i :: 0 <= i < |path| ==> Completable(who, corpus, path[i])
  {
    if Exports(corpus, a) {
      path, b := [], a;
    } else {
      b := CompletedRow(a);
      var running, queued := a.(status := DbRunning), a.(status := DbQueued);
      assert Leads(who, b, [b][1..], b);
      OneMove(who, running, [b], b);
      assert [running, b][1..] == [b];
      assert [queued, running, b][1..] == [running, b];
      match a.status
      case DbRunning => path := [b];
      case DbQueued | DbAwaitingAdjudication => path := [running, b];
      case DbPaused | DbFailed | DbCancelled | DbCompleted => path := [queued, running, b];
    }
  }

  // ------------------------------------------------------------------ undisturbed runs

  /** A run after a move. */
  function Moved(a: RunRow, to: DbStatus, rows: Rows): RunRow { a.(status := to, rows := rows) }

  /** The export is that of the polled run's rows. */
  predicate OwnRows(s: System, d: DriverId, e: Export) {
    var p := ProcOf(s, d);
    At(p) && p.pc.Polling? && p.pc.run in s.runs && ExportOf(p.cfg.corpus, s.runs[p.pc.run].rows) == Some(e)
  }

  /** A step of driver `d` on its own way, or of a mover. */
  predicate Solo(s: System, a: Step, d: DriverId, mode: Mode) {
    if a.Transition? then a.run in s.runs && Moves(mode.movers, s.runs[a.run], Moved(s.runs[a.run], a.to, a.rows))
    else
      && ActorIs(a, d) && !a.Start? && !a.Crash? && (mode.fixed || AsWritten(a))
      && (a.PollCompleted? ==> OwnRows(s, d, a.exported))
  }

  ghost predicate Alone(s: System, steps: seq<Step>, d: DriverId, mode: Mode)
    decreases |steps|
  {
    steps == [] || (Solo(s, steps[0], d, mode) && Exec(s, steps[0]).Some?
                    && Alone(Exec(s, steps[0]).value, steps[1..], d, mode))
  }

  ghost predicate Runs(s: System, t: System, d: DriverId, mode: Mode) {
    exists steps :: Trace(s, steps, t) && Alone(s, steps, d, mode)
  }

  lemma {:induction false} TraceAppend(s: System, xs: seq<Step>, t: System, ys: seq<Step>, u: System)
    requires Trace(s, xs, t) && Trace(t, ys, u)
    ensures Trace(s, xs + ys, u)
    decreases |xs|
  {
    if xs == [] {
      assert xs + ys == ys;
    } else {
      TraceAppend(Exec(s, xs[0]).value, xs[1..], t, ys, u);
      assert (xs + ys)[1..] == xs[1..] + ys;
    }
  }

  lemma OneStep(s: System, a: Step)
    requires Exec(s, a).Some?
    ensures Trace(s, [a], Exec(s, a).value)
  {
    assert [a][1..] == [];
    assert Trace(Exec(s, a).value, [], Exec(s, a).value);
  }

  lemma RunsOn(s: System, t: System, a: Step, d: DriverId, mode: Mode)
    requires Runs(s, t, d, mode) && Exec(t, a).Some? && Solo(t, a, d, mode)
    ensures Runs(s, Exec(t, a).value, d, mode)
  {
    var steps :| Trace(s, steps, t) && Alone(s, steps, d, mode);
    OneStep(t, a);
    TraceAppend(s, steps, t, [a], Exec(t, a).value);
    AloneAppend(s, steps, t, a, d, mode);
  }

  lemma {:induction false} AloneAppend(s: System, xs: seq<Step>, t: System, a: Step, d: DriverId, mode: Mode)
    requires Trace(s, xs, t) && Alone(s, xs, d, mode) && Solo(t, a, d, mode) && Exec(t, a).Some?
    ensures Alone(s, xs + [a], d, mode)
    decreases |xs|
  {
    if xs == [] {
      assert (xs + [a])[1..] == [];
    } else {
      AloneAppend(Exec(s, xs[0]).value, xs[1..], t, a, d, mode);
      assert (xs + [a])[1..] == xs[1..] + [a];
    }
  }

  // ------------------------------------------------------------------ one recording at a time

  /** The journal `cfg` may load in `s`. */
  ghost predicate Loadable(s: System, cfg: Config) {
    var j := Loaded(s, 0, cfg);
    j.corpus == cfg.corpus && j.cohort == cfg.cohort && (j.items == map[] || cfg.resume)
  }

  function PathAt(cfg: Config, i: nat): string
    requires i < |cfg.ids|
  {
    StagedPath(cfg.naming, cfg.ids[i])
  }

  /** What an invocation started in `s` decides for recording `i`. */
  function ActionAt(s: System, cfg: Config, i: nat): Action
    requires i < |cfg.ids| && !cfg.corpus.UnknownCorpus?
  {
    Decide(cfg.corpus, Loaded(s, 0, cfg).items, cfg.ids[i], cfg.resume, cfg.retryFailed)
  }

  predicate Submits(s: System, cfg: Config, i: nat)
    requires i < |cfg.ids| && !cfg.corpus.UnknownCorpus?
  {
    ActionAt(s, cfg, i).Submit? || ActionAt(s, cfg, i).Retry?
  }

  /** The invocation can get hold of recording `i`'s run or need none: it does not stop there, and if it submits,
    * the path has the one run to adopt (or, were `run.id` readable, is new). */
  predicate Obtains(s: System, cfg: Config, i: nat, fixed: bool)
    requires i < |cfg.ids| && !cfg.corpus.UnknownCorpus?
  {
    && !ActionAt(s, cfg, i).Stop?
    && (Submits(s, cfg, i) ==> |Sole(s.runs, PathAt(cfg, i))| == 1 || (fixed && PathAt(cfg, i) !in s.media))
  }

  /** The run recorded for an item, if any. */
  function RecordedRun(items: Items, rec: RecId): set<RunId> {
    if ItemOf(items, rec).runUuid.Some? then {ItemOf(items, rec).runUuid.value} else {}
  }

  /** The existing runs it would poll for recording `i`: the recorded one, or those it may adopt. */
  function Awaited(s: System, cfg: Config, i: nat): set<RunId>
    requires i < |cfg.ids| && !cfg.corpus.UnknownCorpus?
  {
    if Submits(s, cfg, i) then Sole(s.runs, PathAt(cfg, i))
    else if ActionAt(s, cfg, i).Poll? then RecordedRun(Loaded(s, 0, cfg).items, cfg.ids[i])
    else {}
  }

  /** These can still be completed. */
  predicate Live(s: System, cfg: Config, i: nat, who: Movers)
    requires i < |cfg.ids| && !cfg.corpus.UnknownCorpus?
  {
    forall u :: u in Awaited(s, cfg, i) ==> u in s.runs && Completable(who, cfg.corpus, s.runs[u])
  }

  /** The invocation can get past recording `i`. */
  predicate Passes(s: System, cfg: Config, i: nat, mode: Mode)
    requires i < |cfg.ids| && !cfg.corpus.UnknownCorpus?
  {
    Obtains(s, cfg, i, mode.fixed) && Live(s, cfg, i, mode.movers)
  }

  lemma AwaitedExist(s: System, cfg: Config, i: nat)
    requires Inv(s) && i < |cfg.ids| && !cfg.corpus.UnknownCorpus?
    ensures Awaited(s, cfg, i) <= s.runs.Keys
  {
    assert DiskOk(s, cfg.out);
  }

  lemma PathsDiffer(cfg: Config, i: nat, j: nat)
    requires ConfigOk(cfg) && i < |cfg.ids| && j < |cfg.ids| && i != j
    ensures PathAt(cfg, i) != PathAt(cfg, j)
  {
    StagedPathExactly(cfg.naming, cfg.ids[i], cfg.naming, cfg.ids[j]);
  }

  /** The database says the same about a path. */
  ghost predicate Same(s: System, t: System, path: string) {
    (path in s.media <==> path in t.media) && Sole(s.runs, path) == Sole(t.runs, path)
  }

  predicate SameItem(a: Items, b: Items, rec: RecId) { ItemOf(a, rec) == ItemOf(b, rec) && (rec in a <==> rec in b) }

  predicate SameRecorded(s0: System, cfg: Config, p: Process)
    requires At(p) && p.cfg == cfg
  {
    RecordedRun(p.journal.items, cfg.ids[p.k]) == RecordedRun(Loaded(s0, 0, cfg).items, cfg.ids[p.k])
  }

  /** The process holds run `u` for recording `k`: the run it was to poll, or, were `run.id` readable, one it has
    * just submitted. */
  ghost predicate Holds(s0: System, cfg: Config, mode: Mode, s: System, k: nat, u: RunId)
    requires k < |cfg.ids| && !cfg.corpus.UnknownCorpus?
  {
    && Obtains(s0, cfg, k, mode.fixed) && Awaited(s0, cfg, k) <= {u}
    && (Submits(s0, cfg, k) || ActionAt(s0, cfg, k).Poll?)
    && (Same(s0, s, PathAt(cfg, k)) || (mode.fixed && Submits(s0, cfg, k) && PathAt(cfg, k) !in s0.media))
  }

  predicate Resumable(p: Process)
    requires At(p)
  {
    IsResumable(ItemOf(p.journal.items, p.cfg.ids[p.k]).status)
  }

  /** Of a run the movers cannot complete only the status it always had can be seen. */
  predicate SeenAsIs(s0: System, who: Movers, corpus: Corpus, u: RunId, seen: Status) {
    u in s0.runs && !Completable(who, corpus, s0.runs[u]) ==> MapDbStatus(s0.runs[u].status) == Some(seen)
  }

  /** What recording `k` has shown so far of the state `s0` the invocation started in. */
  ghost predicate Here(s0: System, cfg: Config, mode: Mode, s: System, p: Process)
    requires At(p) && p.cfg == cfg && !cfg.corpus.UnknownCorpus?
  {
    match p.pc
    case AtLoop => Ahead(s0, cfg, s, p, p.k)
    case Staged => Ahead(s0, cfg, s, p, p.k) && Submits(s0, cfg, p.k)
    case Announced => Same(s0, s, PathAt(cfg, p.k)) && Submits(s0, cfg, p.k) && SameRecorded(s0, cfg, p)
    case Conflicted => Same(s0, s, PathAt(cfg, p.k)) && Submits(s0, cfg, p.k) && SameRecorded(s0, cfg, p)
    case Submitted(_) => PathAt(cfg, p.k) !in s0.media && Submits(s0, cfg, p.k) && SameRecorded(s0, cfg, p)
    case HaveRun(u) => Holds(s0, cfg, mode, s, p.k, u) && Submits(s0, cfg, p.k) && SameRecorded(s0, cfg, p)
    case Recorded(u) => Holds(s0, cfg, mode, s, p.k, u) && Resumable(p)
    case Polling(u) => Holds(s0, cfg, mode, s, p.k, u) && Resumable(p)
    case Ended(u, seen) =>
      Holds(s0, cfg, mode, s, p.k, u) && Resumable(p) && SeenAsIs(s0, mode.movers, cfg.corpus, u, seen)
    case _ => Passes(s0, cfg, p.k, mode)
  }

  /** What the invocation may poll exists when it starts, and every run has its path. */
  ghost predicate Begun(s0: System, cfg: Config) {
    && (!cfg.corpus.UnknownCorpus? ==> forall i :: 0 <= i < |cfg.ids| ==> Awaited(s0, cfg, i) <= s0.runs.Keys)
    && forall u :: u in s0.runs ==> s0.runs[u].path in s0.media
  }

  lemma NoRunYet(s0: System, cfg: Config, i: nat)
    requires Begun(s0, cfg) && i < |cfg.ids| && !cfg.corpus.UnknownCorpus?
    requires PathAt(cfg, i) !in s0.media && Submits(s0, cfg, i)
    ensures Awaited(s0, cfg, i) == {}
  {
  }

  /** A run that could not be completed when the invocation started is as it was. */
  ghost predicate NotRevived(s0: System, s: System, who: Movers, corpus: Corpus) {
    forall u :: u in s0.runs ==>
      && u in s.runs && s.runs[u].path == s0.runs[u].path
      && (!Completable(who, corpus, s0.runs[u]) ==> s.runs[u] == s0.runs[u])
  }

  /** Everything behind the loop counter passed, everything ahead is as the invocation found it. */
  ghost predicate Track(s0: System, d: DriverId, cfg: Config, mode: Mode, s: System) {
    var p := ProcOf(s, d);
    && s.rerun == s0.rerun && Begun(s0, cfg) && NotRevived(s0, s, mode.movers, cfg.corpus)
    && (p.Locked? ==>
          && p.cfg == cfg && DiskOf(s, cfg.out).journal == DiskOf(s0, cfg.out).journal
          && forall path :: Same(s0, s, path))
    && (p.Working? ==>
          && p.cfg == cfg && !cfg.corpus.UnknownCorpus? && Loadable(s0, cfg) && p.k <= |cfg.ids|
          && p.decisions == Plan(cfg, Loaded(s0, 0, cfg).items)
          && (forall i :: 0 <= i < p.k ==> Passes(s0, cfg, i, mode))
          && (forall i :: p.k < i < |cfg.ids| ==> Ahead(s0, cfg, s, p, i))
          && (At(p) ==> Here(s0, cfg, mode, s, p)))
  }

  ghost predicate Ahead(s0: System, cfg: Config, s: System, p: Process, i: nat)
    requires p.Working? && i < |cfg.ids|
  {
    Same(s0, s, PathAt(cfg, i)) && SameItem(Loaded(s0, 0, cfg).items, p.journal.items, cfg.ids[i])
  }

  /** The process moved on within recording `k`; nothing else changed. */
  lemma TrackStay(s0: System, d: DriverId, cfg: Config, mode: Mode, s: System, t: System)
    requires Track(s0, d, cfg, mode, s) && ProcOf(s, d).Working? && ProcOf(t, d).Working?
    requires t.media == s.media && t.runs == s.runs && t.rerun == s.rerun
    requires var p, q := ProcOf(s, d), ProcOf(t, d);
      && q.journal == p.journal && q.k == p.k && q.decisions == p.decisions && q.cfg == p.cfg
      && (At(q) ==> Here(s0, cfg, mode, t, q))
    ensures Track(s0, d, cfg, mode, t)
  {
    var p, q := ProcOf(s, d), ProcOf(t, d);
    forall i | p.k < i < |cfg.ids| ensures Ahead(s0, cfg, t, q, i) { assert Ahead(s0, cfg, s, p, i); }
  }

  lemma TrackDecision(s0: System, d: DriverId, cfg: Config, mode: Mode, s: System, a: Step, t: System)
    requires Inv(s) && ConfigOk(cfg) && Exec(s, a) == Some(t) && Track(s0, d, cfg, mode, s)
    requires ActorIs(a, d) && (a.Stage? || a.Attach?)
    ensures Track(s0, d, cfg, mode, t)
  {
    assert ActionAt(s0, cfg, ProcOf(s, d).k) == ProcOf(s, d).decisions[ProcOf(s, d).k].action;
    TrackStay(s0, d, cfg, mode, s, t);
  }

  lemma TrackSubmit(s0: System, d: DriverId, cfg: Config, mode: Mode, s: System, a: Step, t: System)
    requires Inv(s) && ConfigOk(cfg) && Exec(s, a) == Some(t) && Track(s0, d, cfg, mode, s)
    requires ActorIs(a, d) && (mode.fixed || AsWritten(a))
    requires a.ReadId? || a.SubmitExists? || a.Reconcile? || a.Publish?
    ensures Track(s0, d, cfg, mode, t)
  {
    if a.Reconcile? {
      assert Sole(s0.runs, PathAt(cfg, ProcOf(s, d).k)) == {a.run};
      assert |{a.run}| == 1;
    }
    if a.ReadId? {
      NoRunYet(s0, cfg, ProcOf(s, d).k);
    }
    TrackStay(s0, d, cfg, mode, s, t);
  }

  /** A run that is exported now could be completed from the start. */
  lemma ExportedPasses(s0: System, cfg: Config, mode: Mode, s: System, k: nat, u: RunId)
    requires NotRevived(s0, s, mode.movers, cfg.corpus) && Begun(s0, cfg) && k < |cfg.ids| && !cfg.corpus.UnknownCorpus?
    requires Holds(s0, cfg, mode, s, k, u) && u in s.runs && Exports(cfg.corpus, s.runs[u])
    ensures Passes(s0, cfg, k, mode)
  {
    forall v | v in Awaited(s0, cfg, k) ensures v in s0.runs && Completable(mode.movers, cfg.corpus, s0.runs[v]) {
      assert v == u && v in s0.runs;
    }
  }

  lemma TrackExport(s0: System, d: DriverId, cfg: Config, mode: Mode, s: System, a: Step, t: System)
    requires Inv(s) && ConfigOk(cfg) && Exec(s, a) == Some(t) && Track(s0, d, cfg, mode, s) && Solo(s, a, d, mode)
    requires a.PollCompleted?
    ensures Track(s0, d, cfg, mode, t)
  {
    var p := ProcOf(s, d);
    assert ExportOf(cfg.corpus, s.runs[p.pc.run].rows).Some?;
    ExportedPasses(s0, cfg, mode, s, p.k, p.pc.run);
    TrackStay(s0, d, cfg, mode, s, t);
  }

  lemma TrackPoll(s0: System, d: DriverId, cfg: Config, mode: Mode, s: System, a: Step, t: System)
    requires Inv(s) && ConfigOk(cfg) && Exec(s, a) == Some(t) && Track(s0, d, cfg, mode, s)
    requires ActorIs(a, d) && (a.PollLive? || a.PollEnded?)
    ensures Track(s0, d, cfg, mode, t)
  {
    TrackStay(s0, d, cfg, mode, s, t);
  }

  lemma TrackOutput(s0: System, d: DriverId, cfg: Config, mode: Mode, s: System, a: Step, t: System)
    requires Inv(s) && ConfigOk(cfg) && Exec(s, a) == Some(t) && Track(s0, d, cfg, mode, s)
    requires ActorIs(a, d) && (a.BeginBundle? || a.OpenManifest?)
    ensures Track(s0, d, cfg, mode, t)
  {
    assert ProcOk(s, d);
    TrackStay(s0, d, cfg, mode, s, t);
  }

  lemma TrackLoad(s0: System, d: DriverId, cfg: Config, mode: Mode, s: System, a: Step, t: System)
    requires Inv(s) && ConfigOk(cfg) && Exec(s, a) == Some(t) && Track(s0, d, cfg, mode, s)
    requires ActorIs(a, d) && a.Load?
    ensures Track(s0, d, cfg, mode, t)
  {
    assert Loaded(s, d, cfg) == Loaded(s0, 0, cfg);
    forall i | 0 <= i < |cfg.ids| ensures Same(s0, t, PathAt(cfg, i)) { assert Same(s0, s, PathAt(cfg, i)); }
  }

  /** Recording `k` is behind: the next one becomes the current one. */
  lemma TrackNext(s0: System, d: DriverId, cfg: Config, mode: Mode, s: System, t: System)
    requires Track(s0, d, cfg, mode, s) && At(ProcOf(s, d)) && Passes(s0, cfg, ProcOf(s, d).k, mode)
    requires t.media == s.media && t.runs == s.runs && t.rerun == s.rerun
    requires var p, q := ProcOf(s, d), ProcOf(t, d);
      && q.Working? && q.cfg == p.cfg && q.decisions == p.decisions && q.k == p.k + 1 && q.pc.AtLoop?
      && forall i :: p.k < i < |cfg.ids| ==> SameItem(p.journal.items, q.journal.items, cfg.ids[i])
    ensures Track(s0, d, cfg, mode, t)
  {
    var p, q := ProcOf(s, d), ProcOf(t, d);
    forall i | p.k < i < |cfg.ids| ensures Ahead(s0, cfg, t, q, i) { assert Ahead(s0, cfg, s, p, i); }
    if At(q) { assert Ahead(s0, cfg, t, q, q.k); }
  }

  lemma TrackSkip(s0: System, d: DriverId, cfg: Config, mode: Mode, s: System, a: Step, t: System)
    requires Inv(s) && ConfigOk(cfg) && Exec(s, a) == Some(t) && Track(s0, d, cfg, mode, s)
    requires ActorIs(a, d) && a.Skip?
    ensures Track(s0, d, cfg, mode, t)
  {
    assert ActionAt(s0, cfg, ProcOf(s, d).k) == ProcOf(s, d).decisions[ProcOf(s, d).k].action;
    TrackNext(s0, d, cfg, mode, s, t);
  }

  /** A recording step leaves the items ahead as they were. */
  lemma ItemsAhead(s: System, d: DriverId, cfg: Config, a: Step, t: System)
    requires ConfigOk(cfg) && Exec(s, a) == Some(t) && ActorIs(a, d) && ProcOf(s, d).Working?
    requires ProcOf(s, d).cfg == cfg
    requires a.Announce? || a.RecordQueued? || a.RecordCompleted?
    ensures ProcOf(t, d).Working?
    ensures forall i :: ProcOf(s, d).k < i < |cfg.ids| ==>
      SameItem(ProcOf(s, d).journal.items, ProcOf(t, d).journal.items, cfg.ids[i])
    ensures t.media == s.media && t.runs == s.runs && t.rerun == s.rerun
    ensures ProcOf(t, d).cfg == cfg && ProcOf(t, d).decisions == ProcOf(s, d).decisions
  {
    var p := ProcOf(s, d);
    forall i | p.k < i < |cfg.ids| ensures cfg.ids[i] != cfg.ids[p.k] {}
  }

  lemma TrackComplete(s0: System, d: DriverId, cfg: Config, mode: Mode, s: System, a: Step, t: System)
    requires ConfigOk(cfg) && Exec(s, a) == Some(t) && Track(s0, d, cfg, mode, s)
    requires ActorIs(a, d) && a.RecordCompleted?
    ensures Track(s0, d, cfg, mode, t)
  {
    assert ProcOf(s, d).Working?;
    ItemsAhead(s, d, cfg, a, t);
    TrackNext(s0, d, cfg, mode, s, t);
  }

  lemma TrackRecord(s0: System, d: DriverId, cfg: Config, mode: Mode, s: System, a: Step, t: System)
    requires ConfigOk(cfg) && Exec(s, a) == Some(t) && Track(s0, d, cfg, mode, s)
    requires ActorIs(a, d) && (a.Announce? || a.RecordQueued?)
    ensures Track(s0, d, cfg, mode, t)
  {
    var p, q := ProcOf(s, d), ProcOf(t, d);
    ItemsAhead(s, d, cfg, a, t);
    forall i | p.k < i < |cfg.ids| ensures Ahead(s0, cfg, t, q, i) { assert Ahead(s0, cfg, s, p, i); }
  }

  lemma TrackSubmitNew(s0: System, d: DriverId, cfg: Config, mode: Mode, s: System, a: Step, t: System)
    requires Inv(s) && ConfigOk(cfg) && Exec(s, a) == Some(t) && Track(s0, d, cfg, mode, s)
    requires ActorIs(a, d) && a.SubmitNew?
    ensures Track(s0, d, cfg, mode, t)
  {
    var p, q := ProcOf(s, d), ProcOf(t, d);
    forall i | p.k < i < |cfg.ids| ensures Ahead(s0, cfg, t, q, i) {
      assert Ahead(s0, cfg, s, p, i);
      PathsDiffer(cfg, i, p.k);
      assert Sole(t.runs, PathAt(cfg, i)) == Sole(s.runs, PathAt(cfg, i));
    }
  }

  lemma MoveChanges(s: System, a: Step, t: System, d: DriverId, who: Movers, corpus: Corpus)
    requires Exec(s, a) == Some(t) && a.Transition? && a.run in s.runs
    requires Moves(who, s.runs[a.run], Moved(s.runs[a.run], a.to, a.rows))
    ensures t == s.(runs := t.runs) && t.runs.Keys == s.runs.Keys && NotRevived(s, t, who, corpus)
    ensures forall path :: Sole(t.runs, path) == Sole(s.runs, path)
  {
    forall path ensures Sole(t.runs, path) == Sole(s.runs, path) { }
  }

  lemma TrackTransition(s0: System, d: DriverId, cfg: Config, mode: Mode, s: System, a: Step, t: System)
    requires Exec(s, a) == Some(t) && Track(s0, d, cfg, mode, s) && a.Transition? && Solo(s, a, d, mode)
    ensures Track(s0, d, cfg, mode, t)
  {
    var p := ProcOf(s, d);
    MoveChanges(s, a, t, d, mode.movers, cfg.corpus);
    if p.Locked? { forall path ensures Same(s0, t, path) { assert Same(s0, s, path); } }
    if p.Working? {
      forall i | p.k < i < |cfg.ids| ensures Ahead(s0, cfg, t, p, i) { assert Ahead(s0, cfg, s, p, i); }
    }
  }

  /** Every undisturbed step keeps the track. */
  lemma TrackStep(s0: System, d: DriverId, cfg: Config, mode: Mode, s: System, a: Step, t: System)
    requires Inv(s) && ConfigOk(cfg) && Exec(s, a) == Some(t) && Track(s0, d, cfg, mode, s) && Solo(s, a, d, mode)
    ensures Track(s0, d, cfg, mode, t)
  {
    if a.Transition? {
      TrackTransition(s0, d, cfg, mode, s, a, t);
    } else if a.Load? {
      TrackLoad(s0, d, cfg, mode, s, a, t);
    } else if a.Skip? {
      TrackSkip(s0, d, cfg, mode, s, a, t);
    } else if a.SubmitNew? {
      TrackSubmitNew(s0, d, cfg, mode, s, a, t);
    } else if a.ReadId? || a.SubmitExists? || a.Reconcile? || a.Publish? {
      TrackSubmit(s0, d, cfg, mode, s, a, t);
    } else if a.Stage? || a.Attach? {
      TrackDecision(s0, d, cfg, mode, s, a, t);
    } else if a.RecordCompleted? {
      TrackComplete(s0, d, cfg, mode, s, a, t);
    } else if a.Announce? || a.RecordQueued? {
      TrackRecord(s0, d, cfg, mode, s, a, t);
    } else if a.RecordEnded? || a.Finish? {
      assert ProcOf(t, d).Idle? && t.rerun == s.rerun;
    } else if a.BeginBundle? || a.OpenManifest? {
      TrackOutput(s0, d, cfg, mode, s, a, t);
    } else if a.PollCompleted? {
      TrackExport(s0, d, cfg, mode, s, a, t);
    } else {
      TrackPoll(s0, d, cfg, mode, s, a, t);
    }
  }

  lemma {:induction false} TrackTrace(s0: System, d: DriverId, cfg: Config, mode: Mode, s: System, steps: seq<Step>,
                                      t: System)
    requires Inv(s) && ConfigOk(cfg) && Track(s0, d, cfg, mode, s) && Trace(s, steps, t) && Alone(s, steps, d, mode)
    ensures Inv(t) && Track(s0, d, cfg, mode, t)
    decreases |steps|
  {
    if steps != [] {
      var m := Exec(s, steps[0]).value;
      InvStep(s, steps[0], m);
      TrackStep(s0, d, cfg, mode, s, steps[0], m);
      TrackTrace(s0, d, cfg, mode, m, steps[1..], t);
    }
  }

  // ------------------------------------------------------------------ one invocation

  /** Driver `d` is started with `cfg` in `s` and, left to itself, is later found in `t`. */
  ghost predicate Invocation(s: System, d: DriverId, cfg: Config, mode: Mode, t: System) {
    Exec(s, Start(d, cfg)).Some? && Runs(Exec(s, Start(d, cfg)).value, t, d, mode)
  }

  /** The invocation can end by writing the manifest. */
  ghost predicate CanFinish(s: System, d: DriverId, cfg: Config, mode: Mode) {
    exists t :: Invocation(s, d, cfg, mode, t) && Exec(t, Finish(d)).Some?
  }

  ghost predicate AllPass(s: System, cfg: Config, mode: Mode)
    requires !cfg.corpus.UnknownCorpus?
  {
    forall i :: 0 <= i < |cfg.ids| ==> Passes(s, cfg, i, mode)
  }

  /** An invocation under way: undisturbed since its start in `s0`. */
  ghost predicate On(s0: System, d: DriverId, cfg: Config, mode: Mode, s: System) {
    Invocation(s0, d, cfg, mode, s) && Inv(s) && Track(s0, d, cfg, mode, s)
  }

  /** Every run that could be completed at the start still can. */
  ghost predicate Kept(s0: System, s: System, who: Movers, corpus: Corpus) {
    forall u :: u in s0.runs && Completable(who, corpus, s0.runs[u]) ==>
      u in s.runs && Completable(who, corpus, s.runs[u])
  }

  /** The same, with no run spoiled. */
  ghost predicate Going(s0: System, d: DriverId, cfg: Config, mode: Mode, s: System) {
    On(s0, d, cfg, mode, s) && Kept(s0, s, mode.movers, cfg.corpus)
  }

  lemma StartOn(s: System, d: DriverId, cfg: Config, mode: Mode) returns (t: System)
    requires Inv(s) && ProcOf(s, d).Idle? && ConfigOk(cfg) && DiskOf(s, cfg.out).lock.None?
    ensures Going(s, d, cfg, mode, t) && t == Exec(s, Start(d, cfg)).value && ProcOf(t, d) == Locked(cfg)
  {
    t := Exec(s, Start(d, cfg)).value;
    InvStep(s, Start(d, cfg), t);
    assert Trace(t, [], t) && Alone(t, [], d, mode);
    forall i | !cfg.corpus.UnknownCorpus? && 0 <= i < |cfg.ids| ensures Awaited(s, cfg, i) <= s.runs.Keys {
      AwaitedExist(s, cfg, i);
    }
    forall u | u in s.runs ensures s.runs[u].path in s.media { assert RunOk(s, u); }
  }

  lemma StepKeeps(s0: System, s: System, a: Step, t: System, who: Movers, corpus: Corpus)
    requires Kept(s0, s, who, corpus) && Exec(s, a) == Some(t)
    requires a.Transition? && a.run in s.runs ==> Completable(who, corpus, Moved(s.runs[a.run], a.to, a.rows))
    ensures Kept(s0, t, who, corpus)
  {
    forall u | u in s.runs && Completable(who, corpus, s.runs[u])
      ensures u in t.runs && Completable(who, corpus, t.runs[u])
    {
      RunStays(s, a, t, u);
    }
  }

  lemma RunStays(s: System, a: Step, t: System, u: RunId)
    requires Exec(s, a) == Some(t) && u in s.runs
    ensures u in t.runs
    ensures t.runs[u] == if a.Transition? && a.run == u then Moved(s.runs[u], a.to, a.rows) else s.runs[u]
  {
  }

  /** Take one more step. */
  lemma Then(s0: System, d: DriverId, cfg: Config, mode: Mode, s: System, a: Step) returns (t: System)
    requires Going(s0, d, cfg, mode, s) && ConfigOk(cfg) && Exec(s, a).Some? && Solo(s, a, d, mode)
    requires a.Transition? && a.run in s.runs ==>
      Completable(mode.movers, cfg.corpus, Moved(s.runs[a.run], a.to, a.rows))
    ensures t == Exec(s, a).value && Going(s0, d, cfg, mode, t)
  {
    t := Exec(s, a).value;
    StepKeeps(s0, s, a, t, mode.movers, cfg.corpus);
    InvStep(s, a, t);
    TrackStep(s0, d, cfg, mode, s, a, t);
    RunsOn(Exec(s0, Start(d, cfg)).value, s, a, d, mode);
  }

  // ------------------------------------------------------------------ driving one recording

  /** The driver stands at `pc` of recording `k`. */
  ghost predicate Stands(s: System, d: DriverId, cfg: Config, k: nat, pc: Pc) {
    var p := ProcOf(s, d);
    p.Working? && p.cfg == cfg && p.k == k && p.pc == pc
  }

  lemma MoveRun(s0: System, d: DriverId, cfg: Config, mode: Mode, s: System, u: RunId, to: RunRow) returns (t: System)
    requires Going(s0, d, cfg, mode, s) && ConfigOk(cfg) && u in s.runs
    requires Moves(mode.movers, s.runs[u], to) && Completable(mode.movers, cfg.corpus, to)
    ensures Going(s0, d, cfg, mode, t) && t == s.(runs := s.runs[u := to])
  {
    assert Moved(s.runs[u], to.status, to.rows) == to;
    t := Then(s0, d, cfg, mode, s, Transition(u, to.status, to.rows));
  }

  lemma {:induction false} MoveAlong(s0: System, d: DriverId, cfg: Config, mode: Mode, s: System, u: RunId,
                                     path: seq<RunRow>, b: RunRow) returns (t: System)
    requires Going(s0, d, cfg, mode, s) && ConfigOk(cfg) && u in s.runs
    requires Leads(mode.movers, s.runs[u], path, b)
    requires forall i :: 0 <= i < |path| ==> Completable(mode.movers, cfg.corpus, path[i])
    ensures Going(s0, d, cfg, mode, t)
    ensures t == s.(runs := t.runs) && u in t.runs && t.runs[u] == b
    decreases |path|
  {
    if path == [] {
      t := s;
    } else {
      t := MoveRun(s0, d, cfg, mode, s, u, path[0]);
      t := MoveAlong(s0, d, cfg, mode, t, u, path[1..], b);
    }
  }

  /** The movers can complete a run that is completable, with rows that are exported. */
  lemma RunCanComplete(s0: System, d: DriverId, cfg: Config, mode: Mode, s: System, u: RunId) returns (t: System)
    requires Going(s0, d, cfg, mode, s) && ConfigOk(cfg)
    requires u in s.runs && Completable(mode.movers, cfg.corpus, s.runs[u])
    ensures Going(s0, d, cfg, mode, t)
    ensures t == s.(runs := t.runs) && u in t.runs && Exports(cfg.corpus, t.runs[u])
  {
    var path, b := WayToCompletion(mode.movers, cfg.corpus, s.runs[u]);
    t := MoveAlong(s0, d, cfg, mode, s, u, path, b);
  }

  lemma ExportStep(s: System, d: DriverId, cfg: Config, k: nat, u: RunId) returns (t: System, e: Export)
    requires k < |cfg.ids| && Stands(s, d, cfg, k, Polling(u)) && u in s.runs && Exports(cfg.corpus, s.runs[u])
    ensures Exec(s, PollCompleted(d, e)) == Some(t) && OwnRows(s, d, e) && Stands(t, d, cfg, k, Exported(u, e))
  {
    e := ExportOf(cfg.corpus, s.runs[u].rows).value;
    t := Exec(s, PollCompleted(d, e)).value;
  }

  lemma RecordStep(s: System, d: DriverId, cfg: Config, k: nat, u: RunId, e: Export) returns (t: System)
    requires k < |cfg.ids| && Stands(s, d, cfg, k, Exported(u, e))
    ensures Exec(s, RecordCompleted(d)) == Some(t) && Stands(t, d, cfg, k + 1, AtLoop)
  {
    t := Exec(s, RecordCompleted(d)).value;
  }

  lemma ExportOne(s0: System, d: DriverId, cfg: Config, mode: Mode, s: System, k: nat, u: RunId)
    returns (t: System, e: Export)
    requires Going(s0, d, cfg, mode, s) && ConfigOk(cfg) && k < |cfg.ids| && Stands(s, d, cfg, k, Polling(u))
    requires u in s.runs && Exports(cfg.corpus, s.runs[u])
    ensures Going(s0, d, cfg, mode, t) && Stands(t, d, cfg, k, Exported(u, e))
  {
    t, e := ExportStep(s, d, cfg, k, u);
    t := Then(s0, d, cfg, mode, s, PollCompleted(d, e));
  }

  lemma CompleteOne(s0: System, d: DriverId, cfg: Config, mode: Mode, s: System, k: nat, u: RunId, e: Export)
    returns (t: System)
    requires Going(s0, d, cfg, mode, s) && ConfigOk(cfg) && k < |cfg.ids| && Stands(s, d, cfg, k, Exported(u, e))
    ensures Going(s0, d, cfg, mode, t) && Stands(t, d, cfg, k + 1, AtLoop)
  {
    var m := RecordStep(s, d, cfg, k, u, e);
    t := Then(s0, d, cfg, mode, s, RecordCompleted(d));
  }

  lemma PollToEnd(s0: System, d: DriverId, cfg: Config, mode: Mode, s: System, k: nat, u: RunId) returns (t: System)
    requires Going(s0, d, cfg, mode, s) && ConfigOk(cfg) && k < |cfg.ids| && Stands(s, d, cfg, k, Polling(u))
    requires u in s.runs && Completable(mode.movers, cfg.corpus, s.runs[u])
    ensures Going(s0, d, cfg, mode, t) && Stands(t, d, cfg, k + 1, AtLoop)
  {
    t := RunCanComplete(s0, d, cfg, mode, s, u);
    assert Stands(t, d, cfg, k, Polling(u));
    var e: Export;
    t, e := ExportOne(s0, d, cfg, mode, t, k, u);
    t := CompleteOne(s0, d, cfg, mode, t, k, u, e);
  }

  lemma StageOne(s0: System, d: DriverId, cfg: Config, mode: Mode, s: System, k: nat) returns (t: System)
    requires Going(s0, d, cfg, mode, s) && ConfigOk(cfg) && k < |cfg.ids| && Stands(s, d, cfg, k, AtLoop)
    requires Submits(s0, cfg, k)
    ensures Going(s0, d, cfg, mode, t) && Stands(t, d, cfg, k, Staged)
  {
    assert ProcOf(s, d).decisions[k].action == ActionAt(s0, cfg, k);
    t := Then(s0, d, cfg, mode, s, Stage(d));
  }

  lemma AnnounceOne(s0: System, d: DriverId, cfg: Config, mode: Mode, s: System, k: nat) returns (t: System)
    requires Going(s0, d, cfg, mode, s) && ConfigOk(cfg) && k < |cfg.ids| && Stands(s, d, cfg, k, Staged)
    ensures Going(s0, d, cfg, mode, t) && Stands(t, d, cfg, k, Announced)
  {
    t := Then(s0, d, cfg, mode, s, Announce(d));
  }

  lemma StageToAnnounce(s0: System, d: DriverId, cfg: Config, mode: Mode, s: System, k: nat) returns (t: System)
    requires Going(s0, d, cfg, mode, s) && ConfigOk(cfg) && k < |cfg.ids| && Stands(s, d, cfg, k, AtLoop)
    requires Submits(s0, cfg, k)
    ensures Going(s0, d, cfg, mode, t) && Stands(t, d, cfg, k, Announced)
  {
    t := StageOne(s0, d, cfg, mode, s, k);
    t := AnnounceOne(s0, d, cfg, mode, t, k);
  }

  lemma QueueOne(s0: System, d: DriverId, cfg: Config, mode: Mode, s: System, k: nat, u: RunId) returns (t: System)
    requires Going(s0, d, cfg, mode, s) && ConfigOk(cfg) && k < |cfg.ids| && Stands(s, d, cfg, k, HaveRun(u))
    ensures Going(s0, d, cfg, mode, t) && Stands(t, d, cfg, k, Recorded(u)) && t.runs == s.runs
  {
    var m := QueueStep(s, d, cfg, k, u);
    t := Then(s0, d, cfg, mode, s, RecordQueued(d));
  }

  lemma QueueStep(s: System, d: DriverId, cfg: Config, k: nat, u: RunId) returns (t: System)
    requires k < |cfg.ids| && Stands(s, d, cfg, k, HaveRun(u))
    ensures Exec(s, RecordQueued(d)) == Some(t) && Stands(t, d, cfg, k, Pc.Recorded(u)) && t.runs == s.runs
  {
    t := Exec(s, RecordQueued(d)).value;
  }

  lemma PublishOne(s0: System, d: DriverId, cfg: Config, mode: Mode, s: System, k: nat, u: RunId) returns (t: System)
    requires Going(s0, d, cfg, mode, s) && ConfigOk(cfg) && k < |cfg.ids| && Stands(s, d, cfg, k, Recorded(u))
    ensures Going(s0, d, cfg, mode, t) && Stands(t, d, cfg, k, Polling(u)) && t.runs == s.runs
  {
    var m := PublishStep(s, d, cfg, k, u);
    t := Then(s0, d, cfg, mode, s, Publish(d));
  }

  lemma PublishStep(s: System, d: DriverId, cfg: Config, k: nat, u: RunId) returns (t: System)
    requires k < |cfg.ids| && Stands(s, d, cfg, k, Pc.Recorded(u))
    ensures Exec(s, Publish(d)) == Some(t) && Stands(t, d, cfg, k, Polling(u)) && t.runs == s.runs
  {
    t := Exec(s, Publish(d)).value;
  }

  /** The one run the invocation found under the path is still the one. */
  lemma SoleStays(s0: System, d: DriverId, cfg: Config, mode: Mode, s: System, k: nat) returns (u: RunId)
    requires Inv(s) && Track(s0, d, cfg, mode, s) && k < |cfg.ids| && Stands(s, d, cfg, k, Announced)
    requires |Sole(s0.runs, PathAt(cfg, k))| == 1
    ensures Sole(s.runs, PathAt(cfg, k)) == {u} && PathAt(cfg, k) in s.media && u in Sole(s0.runs, PathAt(cfg, k))
  {
    u :| u in Sole(s.runs, PathAt(cfg, k));
    SingletonSet(Sole(s.runs, PathAt(cfg, k)), u);
    assert RunOk(s, u);
  }

  lemma RefuseOne(s0: System, d: DriverId, cfg: Config, mode: Mode, s: System, k: nat) returns (t: System)
    requires Going(s0, d, cfg, mode, s) && ConfigOk(cfg) && k < |cfg.ids| && Stands(s, d, cfg, k, Announced)
    requires PathAt(cfg, k) in s.media
    ensures Going(s0, d, cfg, mode, t) && Stands(t, d, cfg, k, Conflicted) && t.runs == s.runs
  {
    t := Then(s0, d, cfg, mode, s, SubmitExists(d));
  }

  lemma ReconcileOne(s0: System, d: DriverId, cfg: Config, mode: Mode, s: System, k: nat, u: RunId) returns (t: System)
    requires Going(s0, d, cfg, mode, s) && ConfigOk(cfg) && k < |cfg.ids| && Stands(s, d, cfg, k, Conflicted)
    requires Sole(s.runs, PathAt(cfg, k)) == {u}
    ensures Going(s0, d, cfg, mode, t) && Stands(t, d, cfg, k, HaveRun(u)) && t.runs == s.runs
  {
    t := Then(s0, d, cfg, mode, s, Reconcile(d, u));
  }

  lemma FreshNat(xs: set<nat>) returns (u: nat)
    ensures u !in xs && forall x :: x in xs ==> x < u
    decreases xs
  {
    if xs == {} {
      u := 0;
    } else {
      var x :| x in xs;
      var v := FreshNat(xs - {x});
      u := if v <= x then x + 1 else v;
      assert forall y :: y in xs ==> y == x || y in xs - {x};
    }
  }

  lemma SubmitStep(s: System, d: DriverId, cfg: Config, k: nat, u: RunId) returns (t: System)
    requires Inv(s) && k < |cfg.ids| && Stands(s, d, cfg, k, Announced) && PathAt(cfg, k) !in s.media && u !in s.runs
    ensures Exec(s, SubmitNew(d, u)) == Some(t) && Stands(t, d, cfg, k, Submitted(u))
    ensures u in t.runs && t.runs[u].status.DbQueued? && Sole(t.runs, PathAt(cfg, k)) == {u}
  {
    t := Exec(s, SubmitNew(d, u)).value;
    forall v | v in s.runs ensures s.runs[v].path != PathAt(cfg, k) { assert RunOk(s, v); }
  }

  lemma StillUnknown(s0: System, d: DriverId, cfg: Config, mode: Mode, s: System, k: nat)
    requires Track(s0, d, cfg, mode, s) && k < |cfg.ids| && Stands(s, d, cfg, k, Announced)
    requires PathAt(cfg, k) !in s0.media
    ensures PathAt(cfg, k) !in s.media
  {
  }

  lemma SubmitFresh(s0: System, d: DriverId, cfg: Config, mode: Mode, s: System, k: nat) returns (t: System, u: RunId)
    requires Going(s0, d, cfg, mode, s) && ConfigOk(cfg) && k < |cfg.ids| && Stands(s, d, cfg, k, Announced)
    requires PathAt(cfg, k) !in s0.media
    ensures Going(s0, d, cfg, mode, t) && Stands(t, d, cfg, k, Submitted(u))
    ensures u in t.runs && t.runs[u].status.DbQueued? && Sole(t.runs, PathAt(cfg, k)) == {u}
  {
    u := FreshNat(s.runs.Keys);
    StillUnknown(s0, d, cfg, mode, s, k);
    var m := SubmitStep(s, d, cfg, k, u);
    t := Then(s0, d, cfg, mode, s, SubmitNew(d, u));
  }

  lemma SkipOne(s0: System, d: DriverId, cfg: Config, mode: Mode, s: System, k: nat) returns (t: System)
    requires Going(s0, d, cfg, mode, s) && ConfigOk(cfg) && k < |cfg.ids| && Stands(s, d, cfg, k, AtLoop)
    requires ActionAt(s0, cfg, k).SkipDone?
    ensures Going(s0, d, cfg, mode, t) && Stands(t, d, cfg, k + 1, AtLoop)
  {
    assert ProcOf(s, d).decisions[k].action == ActionAt(s0, cfg, k);
    t := Then(s0, d, cfg, mode, s, BatchProtocol.Skip(d));
  }

  lemma AttachStep(s: System, d: DriverId, cfg: Config, k: nat, u: RunId) returns (t: System)
    requires k < |cfg.ids| && Stands(s, d, cfg, k, AtLoop) && k < |ProcOf(s, d).decisions|
    requires ProcOf(s, d).decisions[k].action.Poll? && RecordedRun(ProcOf(s, d).journal.items, cfg.ids[k]) == {u}
    ensures Exec(s, Attach(d)) == Some(t) && Stands(t, d, cfg, k, Polling(u)) && t.runs == s.runs
  {
    assert u in RecordedRun(ProcOf(s, d).journal.items, cfg.ids[k]);
    t := Exec(s, Attach(d)).value;
  }

  lemma ToAttach(s0: System, d: DriverId, cfg: Config, mode: Mode, s: System, k: nat) returns (u: RunId)
    requires Inv(s) && Track(s0, d, cfg, mode, s) && k < |cfg.ids| && Stands(s, d, cfg, k, AtLoop)
    requires !cfg.corpus.UnknownCorpus? && ActionAt(s0, cfg, k).Poll?
    ensures k < |ProcOf(s, d).decisions| && ProcOf(s, d).decisions[k].action.Poll?
    ensures RecordedRun(ProcOf(s, d).journal.items, cfg.ids[k]) == {u} && Awaited(s0, cfg, k) == {u}
  {
    assert Ahead(s0, cfg, s, ProcOf(s, d), k);
    u :| u in RecordedRun(ProcOf(s, d).journal.items, cfg.ids[k]);
  }

  lemma AttachOne(s0: System, d: DriverId, cfg: Config, mode: Mode, s: System, k: nat) returns (t: System, u: RunId)
    requires Going(s0, d, cfg, mode, s) && ConfigOk(cfg) && k < |cfg.ids| && Stands(s, d, cfg, k, AtLoop)
    requires ActionAt(s0, cfg, k).Poll?
    ensures Going(s0, d, cfg, mode, t) && Stands(t, d, cfg, k, Polling(u)) && t.runs == s.runs
    ensures u in Awaited(s0, cfg, k)
  {
    u := ToAttach(s0, d, cfg, mode, s, k);
    var m := AttachStep(s, d, cfg, k, u);
    t := Then(s0, d, cfg, mode, s, Attach(d));
  }

  lemma ReadOne(s0: System, d: DriverId, cfg: Config, mode: Mode, s: System, k: nat, u: RunId) returns (t: System)
    requires Going(s0, d, cfg, mode, s) && ConfigOk(cfg) && k < |cfg.ids| && Stands(s, d, cfg, k, Submitted(u))
    requires mode.fixed
    ensures Going(s0, d, cfg, mode, t) && Stands(t, d, cfg, k, HaveRun(u)) && t.runs == s.runs
  {
    t := Then(s0, d, cfg, mode, s, ReadId(d));
  }

  lemma AwaitedKept(s0: System, cfg: Config, mode: Mode, s: System, k: nat, u: RunId)
    requires k < |cfg.ids| && !cfg.corpus.UnknownCorpus? && Live(s0, cfg, k, mode.movers)
    requires Kept(s0, s, mode.movers, cfg.corpus)
    requires u in Awaited(s0, cfg, k)
    ensures u in s.runs && Completable(mode.movers, cfg.corpus, s.runs[u])
  {
  }

  lemma AdoptRun(s0: System, d: DriverId, cfg: Config, mode: Mode, s: System, k: nat) returns (t: System, u: RunId)
    requires Going(s0, d, cfg, mode, s) && ConfigOk(cfg) && k < |cfg.ids| && Stands(s, d, cfg, k, Announced)
    requires Submits(s0, cfg, k) && Live(s0, cfg, k, mode.movers) && |Sole(s0.runs, PathAt(cfg, k))| == 1
    ensures Going(s0, d, cfg, mode, t) && Stands(t, d, cfg, k, HaveRun(u))
    ensures u in t.runs && Completable(mode.movers, cfg.corpus, t.runs[u])
  {
    u := SoleStays(s0, d, cfg, mode, s, k);
    t := RefuseOne(s0, d, cfg, mode, s, k);
    t := ReconcileOne(s0, d, cfg, mode, t, k, u);
    AwaitedKept(s0, cfg, mode, t, k, u);
  }

  /** Submit or adopt: the driver holds the run. */
  lemma ObtainRun(s0: System, d: DriverId, cfg: Config, mode: Mode, s: System, k: nat) returns (t: System, u: RunId)
    requires Going(s0, d, cfg, mode, s) && ConfigOk(cfg) && k < |cfg.ids| && Stands(s, d, cfg, k, AtLoop)
    requires Submits(s0, cfg, k) && Passes(s0, cfg, k, mode)
    ensures Going(s0, d, cfg, mode, t) && Stands(t, d, cfg, k, HaveRun(u))
    ensures u in t.runs && Completable(mode.movers, cfg.corpus, t.runs[u])
  {
    t := StageToAnnounce(s0, d, cfg, mode, s, k);
    if |Sole(s0.runs, PathAt(cfg, k))| == 1 {
      t, u := AdoptRun(s0, d, cfg, mode, t, k);
    } else {
      t, u := SubmitFresh(s0, d, cfg, mode, t, k);
      t := ReadOne(s0, d, cfg, mode, t, k, u);
    }
  }

  /** `_drive_one` can return normally from every recording that passes, whatever state it was left in. */
  lemma DriveOneCanReturn(s0: System, d: DriverId, cfg: Config, mode: Mode, s: System, k: nat) returns (t: System)
    requires Going(s0, d, cfg, mode, s) && ConfigOk(cfg) && k < |cfg.ids| && Stands(s, d, cfg, k, AtLoop)
    requires Passes(s0, cfg, k, mode)
    ensures Going(s0, d, cfg, mode, t) && Stands(t, d, cfg, k + 1, AtLoop)
  {
    var u: RunId;
    match ActionAt(s0, cfg, k)
    case SkipDone =>
      t := SkipOne(s0, d, cfg, mode, s, k);
    case Poll =>
      t, u := AttachOne(s0, d, cfg, mode, s, k);
      AwaitedKept(s0, cfg, mode, t, k, u);
      t := PollToEnd(s0, d, cfg, mode, t, k, u);
    case _ =>
      t, u := ObtainRun(s0, d, cfg, mode, s, k);
      t := QueueOne(s0, d, cfg, mode, t, k, u);
      t := PublishOne(s0, d, cfg, mode, t, k, u);
      t := PollToEnd(s0, d, cfg, mode, t, k, u);
  }

  lemma {:induction false} LoopReaches(s0: System, d: DriverId, cfg: Config, mode: Mode, s: System, k: nat, n: nat)
    returns (t: System)
    requires Going(s0, d, cfg, mode, s) && ConfigOk(cfg) && k <= n <= |cfg.ids| && Stands(s, d, cfg, k, AtLoop)
    requires forall i :: k <= i < n ==> Passes(s0, cfg, i, mode)
    ensures Going(s0, d, cfg, mode, t) && Stands(t, d, cfg, n, AtLoop)
    decreases n - k
  {
    if k == n {
      t := s;
    } else {
      t := DriveOneCanReturn(s0, d, cfg, mode, s, k);
      t := LoopReaches(s0, d, cfg, mode, t, k + 1, n);
    }
  }

  lemma EnterLoop(s: System, d: DriverId, cfg: Config, mode: Mode) returns (t: System)
    requires Inv(s) && ProcOf(s, d).Idle? && ConfigOk(cfg) && DiskOf(s, cfg.out).lock.None? && Loadable(s, cfg)
    ensures Going(s, d, cfg, mode, t) && Stands(t, d, cfg, 0, AtLoop)
  {
    t := StartOn(s, d, cfg, mode);
    assert Loaded(t, d, cfg) == Loaded(s, 0, cfg);
    t := Then(s, d, cfg, mode, t, Load(d));
  }

  lemma BeginStep(s: System, d: DriverId, cfg: Config) returns (t: System)
    requires Inv(s) && Stands(s, d, cfg, |cfg.ids|, AtLoop) && Verified(cfg.fpBefore, cfg.fpBefore, cfg.env)
    ensures Exec(s, BeginBundle(d, cfg.fpBefore)) == Some(t)
    ensures Stands(t, d, cfg, |cfg.ids|, Bundling(cfg.fpBefore))
  {
    assert ProcOk(s, d);
    AllDone(ProcOf(s, d).journal.items, cfg.ids);
    t := Exec(s, BeginBundle(d, cfg.fpBefore)).value;
  }

  /** Past the loop the output can be written. */
  lemma BeginOne(s0: System, d: DriverId, cfg: Config, mode: Mode, s: System) returns (t: System)
    requires Going(s0, d, cfg, mode, s) && ConfigOk(cfg) && Stands(s, d, cfg, |cfg.ids|, AtLoop)
    requires Verified(cfg.fpBefore, cfg.fpBefore, cfg.env)
    ensures Going(s0, d, cfg, mode, t) && Stands(t, d, cfg, |cfg.ids|, Bundling(cfg.fpBefore))
  {
    var m := BeginStep(s, d, cfg);
    t := Then(s0, d, cfg, mode, s, BeginBundle(d, cfg.fpBefore));
  }

  lemma CloseStep(s: System, d: DriverId, cfg: Config) returns (t: System)
    requires Stands(s, d, cfg, |cfg.ids|, Bundling(cfg.fpBefore))
    ensures Exec(s, OpenManifest(d)) == Some(t) && Stands(t, d, cfg, |cfg.ids|, Closing(cfg.fpBefore))
  {
    t := Exec(s, OpenManifest(d)).value;
  }

  lemma CloseOne(s0: System, d: DriverId, cfg: Config, mode: Mode, s: System) returns (t: System)
    requires Going(s0, d, cfg, mode, s) && ConfigOk(cfg) && Stands(s, d, cfg, |cfg.ids|, Bundling(cfg.fpBefore))
    ensures Going(s0, d, cfg, mode, t) && Stands(t, d, cfg, |cfg.ids|, Closing(cfg.fpBefore))
  {
    var m := CloseStep(s, d, cfg);
    t := Then(s0, d, cfg, mode, s, OpenManifest(d));
  }

  lemma PassingFinishes(s: System, d: DriverId, cfg: Config, mode: Mode)
    requires Inv(s) && ProcOf(s, d).Idle? && ConfigOk(cfg) && DiskOf(s, cfg.out).lock.None? && Loadable(s, cfg)
    requires Verified(cfg.fpBefore, cfg.fpBefore, cfg.env) && AllPass(s, cfg, mode)
    ensures CanFinish(s, d, cfg, mode)
  {
    var t := EnterLoop(s, d, cfg, mode);
    t := LoopReaches(s, d, cfg, mode, t, 0, |cfg.ids|);
    WriteOut(s, d, cfg, mode, t);
  }

  lemma WriteOut(s0: System, d: DriverId, cfg: Config, mode: Mode, s: System)
    requires Going(s0, d, cfg, mode, s) && ConfigOk(cfg) && Stands(s, d, cfg, |cfg.ids|, AtLoop)
    requires Verified(cfg.fpBefore, cfg.fpBefore, cfg.env)
    ensures CanFinish(s0, d, cfg, mode)
  {
    var t := BeginOne(s0, d, cfg, mode, s);
    t := CloseOne(s0, d, cfg, mode, t);
    ClosingFinishes(t, d, cfg);
  }

  lemma ClosingFinishes(t: System, d: DriverId, cfg: Config)
    requires Stands(t, d, cfg, |cfg.ids|, Closing(cfg.fpBefore))
    ensures Exec(t, Finish(d)).Some?
  {
  }

  lemma Invoked(s: System, d: DriverId, cfg: Config, mode: Mode, t: System)
    requires Inv(s) && ConfigOk(cfg) && Invocation(s, d, cfg, mode, t)
    ensures On(s, d, cfg, mode, t)
  {
    var b := StartOn(s, d, cfg, mode);
    var steps :| Trace(b, steps, t) && Alone(b, steps, d, mode);
    TrackTrace(s, d, cfg, mode, b, steps, t);
  }

  /** Whoever stands before the last statement has passed every recording. */
  lemma FinisherPassed(s0: System, d: DriverId, cfg: Config, mode: Mode, t: System)
    requires Inv(t) && Track(s0, d, cfg, mode, t) && Exec(t, Finish(d)).Some?
    ensures !cfg.corpus.UnknownCorpus? && Loadable(s0, cfg) && AllPass(s0, cfg, mode)
    ensures Verified(cfg.fpBefore, cfg.fpBefore, cfg.env)
  {
    assert ProcOk(t, d);
    forall i | 0 <= i < |cfg.ids| ensures Passes(s0, cfg, i, mode) { assert i < ProcOf(t, d).k; }
  }

  /** The exact condition. With only the movers at work, one invocation can write its manifest exactly when the
    * journal is its own, the environment can be verified, no recording stops it, every recording it would submit
    * already has its staged path in the database with one run (were `run.id` readable, a path may also be new), and
    * the movers can still complete every run it would poll, recorded or adopted, with rows the export accepts. */
  lemma OneInvocation(s: System, d: DriverId, cfg: Config, mode: Mode)
    requires Reachable(s) && ProcOf(s, d).Idle? && ConfigOk(cfg) && DiskOf(s, cfg.out).lock.None?
    ensures CanFinish(s, d, cfg, mode) <==>
      Loadable(s, cfg) && Verified(cfg.fpBefore, cfg.fpBefore, cfg.env) && AllPass(s, cfg, mode)
  {
    ReachableInv(s);
    OneInvocationFrom(s, d, cfg, mode);
  }

  lemma OneInvocationFrom(s: System, d: DriverId, cfg: Config, mode: Mode)
    requires Inv(s) && ProcOf(s, d).Idle? && ConfigOk(cfg) && DiskOf(s, cfg.out).lock.None?
    ensures CanFinish(s, d, cfg, mode) <==>
      Loadable(s, cfg) && Verified(cfg.fpBefore, cfg.fpBefore, cfg.env) && AllPass(s, cfg, mode)
  {
    if CanFinish(s, d, cfg, mode) {
      var t :| Invocation(s, d, cfg, mode, t) && Exec(t, Finish(d)).Some?;
      Invoked(s, d, cfg, mode, t);
      FinisherPassed(s, d, cfg, mode, t);
    }
    if Loadable(s, cfg) && Verified(cfg.fpBefore, cfg.fpBefore, cfg.env) && AllPass(s, cfg, mode) {
      PassingFinishes(s, d, cfg, mode);
    }
  }

  /** The variant in which operators are at work too: they can restart, resume or adjudicate any run, so the status
    * of the runs plays no part. */
  lemma OneInvocationWithOperators(s: System, d: DriverId, cfg: Config, fixed: bool)
    requires Reachable(s) && ProcOf(s, d).Idle? && ConfigOk(cfg) && DiskOf(s, cfg.out).lock.None?
    ensures CanFinish(s, d, cfg, Mode(fixed, WithOperators)) <==>
      && Loadable(s, cfg) && Verified(cfg.fpBefore, cfg.fpBefore, cfg.env)
      && forall i :: 0 <= i < |cfg.ids| ==> Obtains(s, cfg, i, fixed)
  {
    ReachableInv(s);
    OneInvocation(s, d, cfg, Mode(fixed, WithOperators));
    AnyRunWillDo(s, cfg, fixed);
  }

  lemma AnyRunWillDo(s: System, cfg: Config, fixed: bool)
    requires Inv(s) && !cfg.corpus.UnknownCorpus?
    ensures AllPass(s, cfg, Mode(fixed, WithOperators))
      <==> forall i :: 0 <= i < |cfg.ids| ==> Obtains(s, cfg, i, fixed)
  {
    forall i | 0 <= i < |cfg.ids|
      ensures Passes(s, cfg, i, Mode(fixed, WithOperators)) <==> Obtains(s, cfg, i, fixed)
    {
      AwaitedExist(s, cfg, i);
    }
  }

  ghost predicate NoReruns(s: System, cfg: Config) {
    forall i :: 0 <= i < |cfg.ids| ==> PathAt(cfg, i) !in s.rerun
  }

  /** Under `--resume --retry-failed` and without reruns by hand, a recording under a known path gets its run. */
  lemma SettledObtains(s: System, cfg: Config, i: nat)
    requires Inv(s) && ConfigOk(cfg) && Loadable(s, cfg) && cfg.resume && cfg.retryFailed && NoReruns(s, cfg)
    requires i < |cfg.ids| && (Submits(s, cfg, i) ==> PathAt(cfg, i) in s.media)
    ensures Obtains(s, cfg, i, false)
  {
    var path := PathAt(cfg, i);
    assert DiskOk(s, cfg.out);
    var j := Loaded(s, 0, cfg);
    if cfg.ids[i] in j.items { assert ItemOk(j.corpus, j.items[cfg.ids[i]], s.runs); }
    DecideNeverStops(cfg.corpus, j.items, cfg.ids[i]);
    if Submits(s, cfg, i) {
      assert MediaOk(s, path);
      var u :| u in s.runs && s.runs[u].path == path;
      forall v | v in Sole(s.runs, path) ensures v == u { assert UniqueOk(s, u, v); }
      assert Sole(s.runs, path) == {u};
    }
  }

  /** The code as written. */
  function AsIs(who: Movers): Mode { Mode(false, who) }
}
