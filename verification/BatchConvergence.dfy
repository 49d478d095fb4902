/** Resuming a batch: what the code as written cannot finish, what it would finish with `run.id` readable, what
  * happens to an interrupted output, and which namings let a recording be submitted twice. */
module BatchConvergence {
  import opened Common
  import opened RunJournal
  import opened StagedPaths
  import opened BatchProtocol
  import opened BatchInvariant
  import opened BatchSafety
  import opened BatchInvocation
  import opened BatchRepetition

  // ------------------------------------------------------------------ resuming

  /** The code as written: an invocation that would submit a recording under a new path never writes its
    * manifest, whoever is at work. With the default batch id, a fresh uuid, that is every recording it would
    * submit. */
  lemma FreshPathNeverFinishes(s: System, d: DriverId, cfg: Config, i: nat, who: Movers)
    requires Reachable(s) && ProcOf(s, d).Idle? && ConfigOk(cfg) && DiskOf(s, cfg.out).lock.None?
    requires i < |cfg.ids| && Submits(s, cfg, i) && PathAt(cfg, i) !in s.media
    ensures !CanFinish(s, d, cfg, AsIs(who))
  {
    OneInvocation(s, d, cfg, AsIs(who));
    ReachableInv(s);
    forall u | u in s.runs ensures s.runs[u].path != PathAt(cfg, i) { assert RunOk(s, u); }
    assert Sole(s.runs, PathAt(cfg, i)) == {};
    assert !Passes(s, cfg, i, AsIs(who));
  }

  /** The intended variant: could `run.id` be read, one `run --resume --retry-failed` would do exactly when every
    * existing run it would poll can be completed. */
  lemma IntendedResumeConverges(s: System, d: DriverId, cfg: Config, who: Movers)
    requires Reachable(s) && ProcOf(s, d).Idle? && ConfigOk(cfg) && DiskOf(s, cfg.out).lock.None? && Loadable(s, cfg)
    requires cfg.resume && cfg.retryFailed && NoReruns(s, cfg) && Verified(cfg.fpBefore, cfg.fpBefore, cfg.env)
    ensures CanFinish(s, d, cfg, Mode(true, who)) <==> forall i :: 0 <= i < |cfg.ids| ==> Live(s, cfg, i, who)
  {
    ReachableInv(s);
    forall i | 0 <= i < |cfg.ids| ensures Obtains(s, cfg, i, true) {
      if Submits(s, cfg, i) ==> PathAt(cfg, i) in s.media { SettledObtains(s, cfg, i); }
    }
    OneInvocation(s, d, cfg, Mode(true, who));
    if CanFinish(s, d, cfg, Mode(true, who)) {
      forall i | 0 <= i < |cfg.ids| ensures Live(s, cfg, i, who) { assert Passes(s, cfg, i, Mode(true, who)); }
    }
  }

  /** Retrying does not start a failed recording over: under the root it was staged under, the invocation adopts the
    * very run the journal has recorded for it. */
  lemma RetryAdoptsTheSameRun(s: System, d: DriverId, cfg: Config, i: nat)
    requires Reachable(s) && ProcOf(s, d).Idle? && ConfigOk(cfg) && DiskOf(s, cfg.out).lock.None?
    requires i < |cfg.ids| && ActionAt(s, cfg, i).Retry? && DiskOf(s, cfg.out).journal.Some?
    requires Uniform(s, cfg.out) && (cfg.out, cfg.naming) in s.used && PathAt(cfg, i) !in s.rerun
    requires var items := DiskOf(s, cfg.out).journal.value.items; RecordedRun(items, cfg.ids[i]) != {}
    ensures Awaited(s, cfg, i) == RecordedRun(DiskOf(s, cfg.out).journal.value.items, cfg.ids[i])
  {
    ReachableInv(s);
    assert DiskOk(s, cfg.out);
    var j := DiskOf(s, cfg.out).journal.value;
    assert ItemAt(cfg.ids[i], j.items[cfg.ids[i]], cfg.naming, s.runs);
    RecordedRunIsTheRun(s, cfg.out, cfg.ids[i]);
  }

  /** The input: a recording whose one run was cancelled. As long as nobody restarts it, no number of resumed and
    * retried invocations under the naming it was staged under finishes, however each of them ends, with `run.id`
    * readable or not; with operators at work one can. */
  lemma CancelledRunStrands(o: OutDir, n: Naming, r: RecId) returns (s: System)
    requires SafeId(r)
    ensures ReachableAsWritten(s) && ProcOf(s, 0).Idle? && DiskOf(s, o).lock.None?
    ensures Sole(s.runs, StagedPath(n, r)) == {0} && 0 in s.runs && s.runs[0].status.DbCancelled?
    ensures forall k, mode: Mode ::
      FinishesWithin(k, s, 0, Single(o, n, r), mode) <==> k > 0 && mode.movers.WithOperators?
  {
    s := OneRunCancelled(o, n, r);
    AwaitsTheRun(s, o, n, r, s.runs[0]);
    forall k, mode: Mode
      ensures FinishesWithin(k, s, 0, Single(o, n, r), mode) <==> k > 0 && mode.movers.WithOperators?
    {
      Stranded(s, o, n, r, s.runs[0], k, mode);
    }
  }

  lemma OneRow(o: OutDir, n: Naming, r: RecId)
    ensures RunRows(o, [n], r) == map[0 := NewRun(StagedPath(n, r), Driver(o, r))]
    ensures PathsOf([n], r) == {StagedPath(n, r)}
  {
    assert [n][..0] == [];
  }

  /** Run 0, of the recording's staged path, looks like `row`, and nothing else ever happened. */
  ghost predicate OneRun(s: System, o: OutDir, n: Naming, r: RecId, row: RunRow) {
    && ReachableAsWritten(s) && ProcOf(s, 0).Idle? && Unrecorded(s, o, r) && s.rerun == {} && SafeId(r)
    && s.media == {StagedPath(n, r)} && s.runs == map[0 := row] && row.path == StagedPath(n, r)
  }

  lemma MoveTheRun(s: System, o: OutDir, n: Naming, r: RecId, row: RunRow, to: DbStatus, rows: Rows)
    returns (t: System)
    requires OneRun(s, o, n, r, row) && Inv(s) && AllowedTransition(row.status, to)
    ensures OneRun(t, o, n, r, Moved(row, to, rows)) && Inv(t)
  {
    t := Take(s, Transition(0, to, rows));
    assert s.runs[0 := Moved(row, to, rows)] == map[0 := Moved(row, to, rows)];
  }

  lemma OneRunQueued(o: OutDir, n: Naming, r: RecId) returns (s: System)
    requires SafeId(r)
    ensures OneRun(s, o, n, r, NewRun(StagedPath(n, r), Driver(o, r))) && Inv(s)
  {
    s := RunPerNaming(o, [n], r);
    OneRow(o, n, r);
  }

  lemma OneRunCancelled(o: OutDir, n: Naming, r: RecId) returns (s: System)
    requires SafeId(r)
    ensures Inv(s) && 0 in s.runs && s.runs[0].status.DbCancelled? && OneRun(s, o, n, r, s.runs[0])
  {
    s := OneRunQueued(o, n, r);
    s := MoveTheRun(s, o, n, r, s.runs[0], DbCancelled, s.runs[0].rows);
  }

  lemma OneRunCompleted(o: OutDir, n: Naming, r: RecId, rows: Rows) returns (s: System)
    requires SafeId(r)
    ensures Inv(s) && 0 in s.runs && s.runs[0].status.DbCompleted? && s.runs[0].rows == rows
    ensures OneRun(s, o, n, r, s.runs[0])
  {
    s := OneRunQueued(o, n, r);
    s := MoveTheRun(s, o, n, r, s.runs[0], DbRunning, rows);
    s := MoveTheRun(s, o, n, r, s.runs[0], DbCompleted, rows);
  }

  lemma AwaitsTheRun(s: System, o: OutDir, n: Naming, r: RecId, row: RunRow)
    requires OneRun(s, o, n, r, row)
    ensures Loadable(s, Single(o, n, r)) && ActionAt(s, Single(o, n, r), 0).Submit?
    ensures RecordedRun(Loaded(s, 0, Single(o, n, r)).items, r) == {} && Sole(s.runs, StagedPath(n, r)) == {0}
  {
  }

  /** For a batch of one recording the sum is its cost. */
  lemma SingleSum(s: System, o: OutDir, n: Naming, r: RecId, mode: Mode)
    ensures Sum(Costs(s, Single(o, n, r), mode, false)) == Cost(s, Single(o, n, r), 0, mode, false)
  {
    var cs := Costs(s, Single(o, n, r), mode, false);
    assert cs == [Cost(s, Single(o, n, r), 0, mode, false)] && cs[..0] == [];
  }

  lemma OneRunPath(s: System, path: string, u: RunId, who: Movers)
    requires path in s.media && Sole(s.runs, path) == {u} && u in s.runs
    ensures PathOutlook(s, path, who, Ami) == if Completable(who, Ami, s.runs[u]) then Adoptable else Barred
  {
    assert u in Sole(s.runs, path);
  }

  lemma Stranded(s: System, o: OutDir, n: Naming, r: RecId, row: RunRow, k: nat, mode: Mode)
    requires OneRun(s, o, n, r, row)
    ensures FinishesWithin(k, s, 0, Single(o, n, r), mode) <==> k > 0 && Completable(mode.movers, Ami, row)
  {
    AwaitsTheRun(s, o, n, r, row);
    OneRunPath(s, StagedPath(n, r), 0, mode.movers);
    SingleSum(s, o, n, r, mode);
    InvocationsNeeded(k, s, 0, Single(o, n, r), mode);
  }

  /** The recording is recorded as cancelled with run 0, which was staged under `n`. */
  ghost predicate FailureRecorded(t: System, o: OutDir, n: Naming, r: RecId) {
    && ReachableAsWritten(t) && ProcOf(t, 0).Idle? && SafeId(r) && DiskOf(t, o).lock.None?
    && 0 in t.runs && t.runs[0].status.DbCancelled?
    && StagedPath(n, r) in t.media && Sole(t.runs, StagedPath(n, r)) == {0}
    && (forall path :: path in t.media ==> path == StagedPath(n, r))
    && DiskOf(t, o).journal.Some?
    && var j := DiskOf(t, o).journal.value;
       && j.corpus == Ami && j.cohort == ""
       && r in j.items && IsFailure(j.items[r].status) && j.items[r].runUuid == Some(0)
  }

  /** An invocation adopts the run and polls it. */
  lemma PollTheRun(s: System, o: OutDir, n: Naming, r: RecId, row: RunRow) returns (m: System)
    requires OneRun(s, o, n, r, row) && Inv(s)
    ensures Going(s, 0, Single(o, n, r), AsIs(Workers), m) && Stands(m, 0, Single(o, n, r), 0, Polling(0))
  {
    AwaitsTheRun(s, o, n, r, row);
    m := EnterLoop(s, 0, Single(o, n, r), AsIs(Workers));
    m := StageToAnnounce(s, 0, Single(o, n, r), AsIs(Workers), m, 0);
    m := AdoptTheRun(s, Single(o, n, r), m);
    m := QueueOne(s, 0, Single(o, n, r), AsIs(Workers), m, 0, 0);
    m := PublishOne(s, 0, Single(o, n, r), AsIs(Workers), m, 0, 0);
  }

  lemma AdoptTheRun(s: System, cfg: Config, m: System) returns (t: System)
    requires Going(s, 0, cfg, AsIs(Workers), m) && ConfigOk(cfg) && |cfg.ids| == 1 && Stands(m, 0, cfg, 0, Announced)
    requires Sole(s.runs, PathAt(cfg, 0)) == {0}
    ensures Going(s, 0, cfg, AsIs(Workers), t) && Stands(t, 0, cfg, 0, HaveRun(0))
  {
    var u := SoleStays(s, 0, cfg, AsIs(Workers), m, 0);
    t := RefuseOne(s, 0, cfg, AsIs(Workers), m, 0);
    t := ReconcileOne(s, 0, cfg, AsIs(Workers), t, 0, u);
  }

  /** It records what it saw and raises. */
  lemma RecordTheCancelled(s: System, o: OutDir, n: Naming, r: RecId, row: RunRow) returns (t: System)
    requires OneRun(s, o, n, r, row) && row.status.DbCancelled? && Inv(s)
    ensures FailureRecorded(t, o, n, r)
  {
    var cfg, mode := Single(o, n, r), AsIs(Workers);
    AwaitsTheRun(s, o, n, r, row);
    var m := PollTheRun(s, o, n, r, row);
    m := SeeItDead(s, 0, cfg, mode, m, 0, 0);
    t := RecordEnd(m, 0);
    AfterRecord(s, 0, cfg, mode, m, t);
    assert EndsAnyhow(s, 0, cfg, mode, t);
    EndIsReachable(s, 0, cfg, Workers, t);
    MediaOfInvocation(s, 0, cfg, mode, m);
    StaysSpoiled(s, o, n, r, row, m);
    RecordedAt(m, o, n, r, t);
  }

  lemma StaysSpoiled(s: System, o: OutDir, n: Naming, r: RecId, row: RunRow, m: System)
    requires OneRun(s, o, n, r, row) && Track(s, 0, Single(o, n, r), AsIs(Workers), m)
    requires !Completable(Workers, Ami, row) && ProcOf(m, 0).Working? && ProcOf(m, 0).k == 0
    requires (ProcOf(m, 0).pc.Ended? || ProcOf(m, 0).pc.Polling?) && ProcOf(m, 0).pc.run == 0
    requires forall path :: path in m.media && path !in s.media ==> InBatch(Single(o, n, r), path)
    ensures 0 in m.runs && m.runs[0] == row
    ensures StagedPath(n, r) in m.media && Sole(m.runs, StagedPath(n, r)) == {0}
    ensures forall path :: path in m.media ==> path == StagedPath(n, r)
  {
    var cfg := Single(o, n, r);
    assert PathAt(cfg, 0) == StagedPath(n, r);
    assert Same(s, m, PathAt(cfg, 0));
  }

  lemma RecordedAt(m: System, o: OutDir, n: Naming, r: RecId, t: System)
    requires Inv(m) && Exec(m, RecordEnded(0)) == Some(t)
    requires ProcOf(m, 0).Working? && ProcOf(m, 0).cfg == Single(o, n, r)
    requires ProcOf(m, 0).k == 0 && ProcOf(m, 0).pc.Ended? && ProcOf(m, 0).pc.run == 0
    requires IsFailure(ProcOf(m, 0).pc.seen)
    ensures ProcOf(t, 0).Idle? && DiskOf(t, o).lock.None? && DiskOf(t, o).journal.Some?
    ensures var j := DiskOf(t, o).journal.value;
      && j.corpus == Ami && j.cohort == ""
      && r in j.items && IsFailure(j.items[r].status) && j.items[r].runUuid == Some(0)
  {
    assert ProcOk(m, 0);
  }

  lemma FailureUnder(t: System, o: OutDir, n: Naming, other: Naming, r: RecId)
    requires FailureRecorded(t, o, n, r)
    ensures Loadable(t, Single(o, other, r)) && ActionAt(t, Single(o, other, r), 0).Retry?
    ensures ItemOf(Loaded(t, 0, Single(o, other, r)).items, r).runUuid == Some(0)
  {
  }

  /** Under the same root nothing helps but an operator. */
  lemma SameRootNeverFinishes(t: System, o: OutDir, n: Naming, r: RecId, k: nat, mode: Mode)
    requires FailureRecorded(t, o, n, r)
    ensures FinishesWithin(k, t, 0, Single(o, n, r), mode) <==> k > 0 && mode.movers.WithOperators?
  {
    FailureUnder(t, o, n, n, r);
    OneRunPath(t, StagedPath(n, r), 0, mode.movers);
    SingleSum(t, o, n, r, mode);
    InvocationsNeeded(k, t, 0, Single(o, n, r), mode);
  }

  /** Under another root the code as written needs three: one dies submitting and leaves the dead run recorded, one
    * polls that and records the failure, one adopts the new run. */
  lemma OtherRootFinishes(t: System, o: OutDir, n: Naming, other: Naming, r: RecId, k: nat, mode: Mode)
    requires FailureRecorded(t, o, n, r) && Root(n) != Root(other)
    ensures FinishesWithin(k, t, 0, Single(o, other, r), mode) <==>
      k >= if mode.fixed then 1 else if mode.movers.WithOperators? then 2 else 3
  {
    StagedPathExactly(n, r, other, r);
    FailureUnder(t, o, n, other, r);
    SingleSum(t, o, other, r, mode);
    InvocationsNeeded(k, t, 0, Single(o, other, r), mode);
  }

  /** The input for both: a run was cancelled and recorded so. Repeating the batch under its own root never finishes,
    * under another root three invocations do, and no fewer. */
  lemma AnotherRootTakesThree(o: OutDir, n: Naming, other: Naming, r: RecId) returns (t: System)
    requires SafeId(r) && Root(n) != Root(other)
    ensures ReachableAsWritten(t) && 0 in t.runs && t.runs[0].status.DbCancelled?
    ensures forall k, mode: Mode ::
      FinishesWithin(k, t, 0, Single(o, n, r), mode) <==> k > 0 && mode.movers.WithOperators?
    ensures forall k, mode: Mode :: FinishesWithin(k, t, 0, Single(o, other, r), mode) <==>
      k >= if mode.fixed then 1 else if mode.movers.WithOperators? then 2 else 3
  {
    var s := OneRunCancelled(o, n, r);
    t := RecordTheCancelled(s, o, n, r, s.runs[0]);
    forall k, mode: Mode
      ensures FinishesWithin(k, t, 0, Single(o, n, r), mode) <==> k > 0 && mode.movers.WithOperators?
    {
      SameRootNeverFinishes(t, o, n, r, k, mode);
    }
    forall k, mode: Mode
      ensures FinishesWithin(k, t, 0, Single(o, other, r), mode) <==>
        k >= if mode.fixed then 1 else if mode.movers.WithOperators? then 2 else 3
    {
      OtherRootFinishes(t, o, n, other, r, k, mode);
    }
  }

  /** The recording is recorded with run 0 and not done. */
  ghost predicate RunRecorded(t: System, o: OutDir, r: RecId) {
    && ReachableAsWritten(t) && ProcOf(t, 0).Idle? && SafeId(r) && DiskOf(t, o).lock.None? && 0 in t.runs
    && DiskOf(t, o).journal.Some?
    && var j := DiskOf(t, o).journal.value;
       && j.corpus == Ami && j.cohort == ""
       && r in j.items && IsResumable(j.items[r].status) && j.items[r].runUuid == Some(0)
  }

  /** An invocation dies polling. */
  lemma DiePolling(s: System, o: OutDir, n: Naming, r: RecId, row: RunRow) returns (t: System)
    requires OneRun(s, o, n, r, row) && Inv(s) && !Completable(Workers, Ami, row)
    ensures RunRecorded(t, o, r) && t.runs[0] == row
  {
    var cfg, mode := Single(o, n, r), AsIs(Workers);
    var m := PollTheRun(s, o, n, r, row);
    t := KilledStep(m, 0, cfg);
    assert EndsIn(m, 0, t) && EndsAnyhow(s, 0, cfg, mode, t);
    EndIsReachable(s, 0, cfg, Workers, t);
    MediaOfInvocation(s, 0, cfg, mode, m);
    StaysSpoiled(s, o, n, r, row, m);
    LeftPolling(s, cfg, mode, m);
  }

  lemma LeftPolling(s: System, cfg: Config, mode: Mode, m: System)
    requires Inv(m) && Track(s, 0, cfg, mode, m) && |cfg.ids| == 1 && Stands(m, 0, cfg, 0, Polling(0))
    ensures var j := ProcOf(m, 0).journal;
      && j.corpus == cfg.corpus && j.cohort == cfg.cohort
      && cfg.ids[0] in j.items && IsResumable(j.items[cfg.ids[0]].status) && j.items[cfg.ids[0]].runUuid == Some(0)
  {
    assert ProcOk(m, 0);
  }

  /** A recorded run is polled under any naming. */
  lemma PolledUnder(t: System, o: OutDir, other: Naming, r: RecId, k: nat, mode: Mode)
    requires RunRecorded(t, o, r) && !t.runs[0].status.DbFailed? && !t.runs[0].status.DbCancelled?
    ensures FinishesWithin(k, t, 0, Single(o, other, r), mode) <==>
      k > 0 && Completable(mode.movers, Ami, t.runs[0])
  {
    SingleSum(t, o, other, r, mode);
    InvocationsNeeded(k, t, 0, Single(o, other, r), mode);
  }

  /** The input: a recording of a corpus with a transcript whose recorded run completed with rows the export refuses.
    * Each invocation that polls it raises and records nothing, so as long as nobody restarts the run no number of
    * them finishes, under no naming at all, with `run.id` readable or not. */
  lemma UnexportableRunStrands(o: OutDir, n: Naming, r: RecId, rows: Rows) returns (t: System)
    requires SafeId(r) && ExportOf(Ami, rows).None?
    ensures RunRecorded(t, o, r) && t.runs[0].status.DbCompleted? && t.runs[0].rows == rows
    ensures forall k, other, mode: Mode ::
      FinishesWithin(k, t, 0, Single(o, other, r), mode) <==> k > 0 && mode.movers.WithOperators?
  {
    var s := OneRunCompleted(o, n, r, rows);
    t := DiePolling(s, o, n, r, s.runs[0]);
    forall k, other, mode: Mode
      ensures FinishesWithin(k, t, 0, Single(o, other, r), mode) <==> k > 0 && mode.movers.WithOperators?
    {
      PolledUnder(t, o, other, r, k, mode);
    }
  }

  /** What the last statement leaves: the manifest of all the batch's recordings, each completed. */
  lemma FinishWrites(s: System, d: DriverId, t: System)
    requires Inv(s) && Exec(s, Finish(d)) == Some(t)
    ensures var p := ProcOf(s, d);
      && DiskOf(t, p.cfg.out).lock.None?
      && DiskOf(t, p.cfg.out).output == Whole(ManifestBy(p, p.pc.fpAfter))
      && forall i :: 0 <= i < |p.cfg.ids| ==> CompletedAt(t, p.cfg.out, p.cfg.ids[i])
  {
    assert ProcOk(s, d);
    var p := ProcOf(s, d);
    assert DiskOf(t, p.cfg.out).journal == Some(p.journal);
  }

  lemma InterruptedOutputSkips(s: System, d: DriverId, cfg: Config)
    requires Reachable(s) && ConfigOk(cfg) && Loadable(s, cfg)
    requires var out := DiskOf(s, cfg.out).output; (out.Copying? || out.Torn?) && out.ids == cfg.ids
    ensures forall i :: 0 <= i < |cfg.ids| ==> ActionAt(s, cfg, i).SkipDone?
  {
    ReachableInv(s);
    ReachableManifest(s, cfg.out);
    assert DiskOk(s, cfg.out);
    var j := DiskOf(s, cfg.out).journal.value;
    forall i | 0 <= i < |cfg.ids| ensures ActionAt(s, cfg, i).SkipDone? {
      assert CompletedAt(s, cfg.out, cfg.ids[i]);
      assert ItemOk(j.corpus, j.items[cfg.ids[i]], s.runs);
    }
  }

  /** A driver died inside the bundle or the manifest: the same batch, resumed, rewrites the output without
    * submitting or polling anything. */
  lemma InterruptedOutputIsRewritten(s: System, d: DriverId, cfg: Config, who: Movers)
    requires Reachable(s) && ProcOf(s, d).Idle? && ConfigOk(cfg) && DiskOf(s, cfg.out).lock.None?
    requires Loadable(s, cfg) && Verified(cfg.fpBefore, cfg.fpBefore, cfg.env)
    requires var out := DiskOf(s, cfg.out).output; (out.Copying? || out.Torn?) && out.ids == cfg.ids
    ensures forall i :: 0 <= i < |cfg.ids| ==> ActionAt(s, cfg, i).SkipDone?
    ensures CanFinish(s, d, cfg, AsIs(who))
  {
    InterruptedOutputSkips(s, d, cfg);
    OneInvocation(s, d, cfg, AsIs(who));
  }

  // ------------------------------------------------------------------ one recording, one run

  /** Two runs of one recording were submitted for one out-dir, with no rerun by hand. */
  ghost predicate Duplicated(s: System, o: OutDir, r: RecId) {
    exists u, v ::
      u in s.runs && v in s.runs && u != v
      && s.runs[u].origin == Driver(o, r) && s.runs[v].origin == Driver(o, r)
      && s.runs[u].path !in s.rerun && s.runs[v].path !in s.rerun
  }

  /** Drivers of an out-dir that all stage under one root never submit a recording twice. */
  lemma OneRootNoDuplicate(s: System, o: OutDir, r: RecId)
    requires Reachable(s) && Uniform(s, o)
    ensures !Duplicated(s, o, r)
  {
    ReachableInv(s);
    forall u, v | u in s.runs && v in s.runs
        && s.runs[u].origin == Driver(o, r) && s.runs[v].origin == Driver(o, r)
        && s.runs[u].path !in s.rerun && s.runs[v].path !in s.rerun
      ensures u == v
    {
      assert RunOk(s, u) && RunOk(s, v) && UniqueOk(s, u, v);
    }
  }

  lemma Take(s: System, a: Step) returns (t: System)
    requires ReachableAsWritten(s) && Inv(s) && Exec(s, a).Some? && AsWritten(a)
    ensures t == Exec(s, a).value && ReachableAsWritten(t) && Inv(t)
  {
    t := Exec(s, a).value;
    InvStep(s, a, t);
    var steps :| Trace(INIT, steps, s) && forall i :: 0 <= i < |steps| ==> AsWritten(steps[i]);
    OneStep(s, a);
    TraceAppend(INIT, steps, s, [a], t);
  }

  /** The invocation of this section: one recording, resumed and retried. */
  function Single(o: OutDir, n: Naming, r: RecId): Config {
    Config(o, n, Ami, "", [r], true, true, Fingerprint(true, None, None, ""), StaticEnv("", ""))
  }

  /** The journal holds the recording as announced and without a run, or does not exist. */
  ghost predicate Unrecorded(s: System, o: OutDir, r: RecId) {
    var disk := DiskOf(s, o);
    && disk.lock.None? && disk.output.NoOutput?
    && (disk.journal.Some? ==>
          var j := disk.journal.value;
          j.corpus == Ami && j.cohort == ""
          && (r in j.items ==> j.items[r].status.Submitting? && j.items[r].runUuid.None?))
  }

  lemma LockAgain(s: System, o: OutDir, n: Naming, r: RecId) returns (t: System)
    requires ReachableAsWritten(s) && Inv(s) && ProcOf(s, 0).Idle? && Unrecorded(s, o, r) && SafeId(r)
    ensures ReachableAsWritten(t) && Inv(t) && ProcOf(t, 0) == Locked(Single(o, n, r))
    ensures t.media == s.media && t.runs == s.runs && t.rerun == s.rerun && t.used == s.used + {(o, n)}
    ensures DiskOf(t, o) == DiskOf(s, o).(lock := Some(0))
  {
    t := Take(s, Start(0, Single(o, n, r)));
  }

  /** Driver 0 starts over and stands before its only recording. */
  lemma StartAgain(s: System, o: OutDir, n: Naming, r: RecId) returns (t: System)
    requires ReachableAsWritten(s) && Inv(s) && ProcOf(s, 0).Idle? && Unrecorded(s, o, r) && SafeId(r)
    ensures ReachableAsWritten(t) && Inv(t) && t.media == s.media && t.runs == s.runs && t.rerun == s.rerun
    ensures t.used == s.used + {(o, n)} && Stands(t, 0, Single(o, n, r), 0, AtLoop)
    ensures ProcOf(t, 0).decisions == [Decision(r, Action.Submit)] && Unrecorded(Leave(t, 0), o, r)
  {
    var m := LockAgain(s, o, n, r);
    t := Take(m, Load(0));
    assert ProcOf(t, 0).decisions[0] == Decision(r, Action.Submit);
  }

  lemma StageAgain(s: System, o: OutDir, n: Naming, r: RecId) returns (t: System)
    requires ReachableAsWritten(s) && Inv(s) && Stands(s, 0, Single(o, n, r), 0, AtLoop)
    requires ProcOf(s, 0).decisions == [Decision(r, Action.Submit)]
    ensures ReachableAsWritten(t) && Inv(t) && ProcOf(t, 0) == ProcOf(s, 0).(pc := Staged) && t == s.(procs := t.procs)
  {
    t := Take(s, Stage(0));
  }

  lemma RecordAgain(s: System, o: OutDir, n: Naming, r: RecId) returns (t: System)
    requires ReachableAsWritten(s) && Inv(s) && Stands(s, 0, Single(o, n, r), 0, Staged)
      && Unrecorded(Leave(s, 0), o, r)
    ensures ReachableAsWritten(t) && Inv(t) && t.media == s.media && t.runs == s.runs && t.rerun == s.rerun
    ensures t.used == s.used && Stands(t, 0, Single(o, n, r), 0, Announced) && Unrecorded(Leave(t, 0), o, r)
  {
    assert ProcOk(s, 0);
    t := Take(s, Announce(0));
  }

  /** It announces: the journal holds the recording without a run. */
  lemma AnnounceAgain(s: System, o: OutDir, n: Naming, r: RecId) returns (t: System)
    requires ReachableAsWritten(s) && Inv(s) && Stands(s, 0, Single(o, n, r), 0, AtLoop)
    requires ProcOf(s, 0).decisions == [Decision(r, Action.Submit)] && Unrecorded(Leave(s, 0), o, r)
    ensures ReachableAsWritten(t) && Inv(t) && t.media == s.media && t.runs == s.runs && t.rerun == s.rerun
    ensures t.used == s.used && Stands(t, 0, Single(o, n, r), 0, Announced) && Unrecorded(Leave(t, 0), o, r)
  {
    t := StageAgain(s, o, n, r);
    LeavesAlike(s, t, o);
    t := RecordAgain(t, o, n, r);
  }

  /** It submits; as written it dies there. */
  lemma SubmitAndDie(s: System, o: OutDir, n: Naming, r: RecId, u: RunId) returns (t: System)
    requires ReachableAsWritten(s) && Inv(s) && ProcOf(s, 0).Idle? && Unrecorded(s, o, r) && SafeId(r)
    requires u !in s.runs && StagedPath(n, r) !in s.media
    ensures ReachableAsWritten(t) && Inv(t) && ProcOf(t, 0).Idle? && Unrecorded(t, o, r)
    ensures t.used == s.used + {(o, n)} && t.rerun == s.rerun && t.media == s.media + {StagedPath(n, r)}
    ensures t.runs == s.runs[u := NewRun(StagedPath(n, r), Driver(o, r))]
  {
    t := StartAgain(s, o, n, r);
    t := AnnounceAgain(t, o, n, r);
    t := LeaveSubmitting(t, o, n, r, u);
  }

  lemma SubmitAgain(s: System, o: OutDir, n: Naming, r: RecId, u: RunId) returns (t: System)
    requires ReachableAsWritten(s) && Inv(s) && Stands(s, 0, Single(o, n, r), 0, Announced)
    requires u !in s.runs && StagedPath(n, r) !in s.media
    ensures ReachableAsWritten(t) && Inv(t) && ProcOf(t, 0) == ProcOf(s, 0).(pc := Submitted(u)) && t.disks == s.disks
    ensures t.used == s.used && t.rerun == s.rerun && t.media == s.media + {StagedPath(n, r)}
    ensures t.runs == s.runs[u := NewRun(StagedPath(n, r), Driver(o, r))]
  {
    t := Take(s, SubmitNew(0, u));
  }

  lemma LeaveSubmitting(s: System, o: OutDir, n: Naming, r: RecId, u: RunId) returns (t: System)
    requires ReachableAsWritten(s) && Inv(s) && Stands(s, 0, Single(o, n, r), 0, Announced)
      && Unrecorded(Leave(s, 0), o, r)
    requires u !in s.runs && StagedPath(n, r) !in s.media
    ensures ReachableAsWritten(t) && Inv(t) && ProcOf(t, 0).Idle? && Unrecorded(t, o, r)
    ensures t.used == s.used && t.rerun == s.rerun && t.media == s.media + {StagedPath(n, r)}
    ensures t.runs == s.runs[u := NewRun(StagedPath(n, r), Driver(o, r))]
  {
    t := SubmitAgain(s, o, n, r, u);
    LeavesAlike(s, t, o);
    t := Die(t);
  }

  lemma LeavesAlike(s: System, t: System, o: OutDir)
    requires ProcOf(s, 0).Working? && ProcOf(t, 0).Working? && ProcOf(t, 0).cfg == ProcOf(s, 0).cfg
      && t.disks == s.disks
    ensures DiskOf(Leave(t, 0), o) == DiskOf(Leave(s, 0), o)
  {
  }

  lemma CrashLeaves(s: System)
    requires !ProcOf(s, 0).Idle?
    ensures Exec(s, Crash(0)) == Some(Leave(s, 0))
  {
  }

  lemma Die(s: System) returns (t: System)
    requires ReachableAsWritten(s) && Inv(s) && !ProcOf(s, 0).Idle?
    ensures t == Leave(s, 0) && ReachableAsWritten(t) && Inv(t)
  {
    CrashLeaves(s);
    t := Take(s, Crash(0));
  }

  ghost predicate DifferentRoots(ns: seq<Naming>) {
    forall i, j :: 0 <= i < j < |ns| ==> Root(ns[i]) != Root(ns[j])
  }

  function UsedBy(o: OutDir, ns: seq<Naming>): set<(OutDir, Naming)> {
    if ns == [] then {} else UsedBy(o, ns[..|ns| - 1]) + {(o, ns[|ns| - 1])}
  }

  function PathsOf(ns: seq<Naming>, r: RecId): set<string> {
    if ns == [] then {} else PathsOf(ns[..|ns| - 1], r) + {StagedPath(ns[|ns| - 1], r)}
  }

  function RunRows(o: OutDir, ns: seq<Naming>, r: RecId): map<RunId, RunRow> {
    if ns == [] then map[]
    else RunRows(o, ns[..|ns| - 1], r)[|ns| - 1 := NewRun(StagedPath(ns[|ns| - 1], r), Driver(o, r))]
  }

  lemma {:induction false} RunRowsAre(o: OutDir, ns: seq<Naming>, r: RecId)
    ensures forall u: RunId :: u in RunRows(o, ns, r) <==> u < |ns|
    ensures forall u :: u in RunRows(o, ns, r) ==> RunRows(o, ns, r)[u].origin == Driver(o, r)
    ensures |RunRows(o, ns, r).Keys| == |ns|
  {
    if ns != [] {
      var p := RunRows(o, ns[..|ns| - 1], r);
      RunRowsAre(o, ns[..|ns| - 1], r);
      assert RunRows(o, ns, r).Keys == p.Keys + {|ns| - 1};
      forall u: RunId ensures u in RunRows(o, ns, r) <==> u < |ns| { assert u in p <==> u < |ns| - 1; }
    }
  }

  lemma {:induction false} NewPath(ns: seq<Naming>, n: Naming, r: RecId)
    requires SafeId(r) && forall i :: 0 <= i < |ns| ==> Root(ns[i]) != Root(n)
    ensures StagedPath(n, r) !in PathsOf(ns, r)
  {
    if ns != [] {
      NewPath(ns[..|ns| - 1], n, r);
      StagedPathExactly(n, r, ns[|ns| - 1], r);
    }
  }

  /** One run per naming, all of one recording. */
  lemma {:induction false} RunPerNaming(o: OutDir, ns: seq<Naming>, r: RecId) returns (s: System)
    requires SafeId(r) && DifferentRoots(ns)
    ensures ReachableAsWritten(s) && Inv(s) && ProcOf(s, 0).Idle? && Unrecorded(s, o, r) && s.rerun == {}
    ensures s.used == UsedBy(o, ns) && s.media == PathsOf(ns, r) && s.runs == RunRows(o, ns, r)
  {
    if ns == [] {
      s := INIT;
      assert Trace(INIT, [], INIT);
      assert Inv(INIT);
    } else {
      var last := |ns| - 1;
      assert DifferentRoots(ns[..last]);
      s := RunPerNaming(o, ns[..last], r);
      NewPath(ns[..last], ns[last], r);
      RunRowsAre(o, ns[..last], r);
      s := SubmitAndDie(s, o, ns[last], r, last);
    }
  }

  lemma TwoNamings(o: OutDir, n1: Naming, n2: Naming)
    ensures UsedBy(o, [n1, n2]) == {(o, n1), (o, n2)}
  {
    assert [n1, n2][..1] == [n1] && [n1][..0] == [];
    assert UsedBy(o, [n1]) == {(o, n1)};
  }

  /** The first invocation dies at its submission, the second, under another root, submits again: two runs. */
  lemma FreshRootDuplicates(o: OutDir, n1: Naming, n2: Naming, r: RecId) returns (s: System)
    requires SafeId(r) && Root(n1) != Root(n2)
    ensures ReachableAsWritten(s) && Duplicated(s, o, r) && s.used == {(o, n1), (o, n2)}
  {
    s := RunPerNaming(o, [n1, n2], r);
    RunRowsAre(o, [n1, n2], r);
    assert 0 in RunRows(o, [n1, n2], r) && 1 in RunRows(o, [n1, n2], r);
    TwoNamings(o, n1, n2);
  }

  /** `cmd_run` takes its media subdirectory and batch id from the flags or a fresh uuid and never reads back the
    * journal's own. Two namings let one recording be submitted twice exactly when they stage it under
    * different paths. */
  lemma NamingDecides(o: OutDir, n1: Naming, n2: Naming, r: RecId)
    requires SafeId(r)
    ensures (exists s :: ReachableAsWritten(s) && s.used <= {(o, n1), (o, n2)} && Duplicated(s, o, r))
      <==> StagedPath(n1, r) != StagedPath(n2, r)
    ensures StagedPath(n1, r) != StagedPath(n2, r) <==> Root(n1) != Root(n2)
  {
    StagedPathExactly(n1, r, n2, r);
    if Root(n1) != Root(n2) {
      var s := FreshRootDuplicates(o, n1, n2, r);
    } else {
      forall s | ReachableAsWritten(s) && s.used <= {(o, n1), (o, n2)} ensures !Duplicated(s, o, r) {
        var steps :| Trace(INIT, steps, s) && forall i :: 0 <= i < |steps| ==> AsWritten(steps[i]);
        OneRootNoDuplicate(s, o, r);
      }
    }
  }

  function RunsOf(s: System, o: OutDir, r: RecId): set<RunId> {
    set u | u in s.runs && s.runs[u].origin == Driver(o, r)
  }

  function Batch(i: nat): string { if i == 0 then "" else Batch(i - 1) + "a" }

  lemma {:induction false} BatchLength(i: nat)
    ensures |Batch(i)| == i
  {
    if i > 0 { BatchLength(i - 1); }
  }

  /** With a fresh batch id for every invocation there is no bound: any number of runs of one recording can be
    * submitted for one out-dir, and no manifest exists. */
  lemma EndlessRuns(o: OutDir, subdir: string, r: RecId, n: nat)
    requires SafeId(r)
    ensures exists s :: ReachableAsWritten(s) && |RunsOf(s, o, r)| == n && Readable(DiskOf(s, o).output).None?
  {
    var ns := seq(n, i requires 0 <= i < n => Naming(subdir, Batch(i)));
    forall i, j | 0 <= i < j < |ns| ensures Root(ns[i]) != Root(ns[j]) {
      BatchLength(i);
      BatchLength(j);
    }
    var s := RunPerNaming(o, ns, r);
    RunRowsAre(o, ns, r);
    assert RunsOf(s, o, r) == s.runs.Keys;
  }
}
