/** What the invariant gives in every reachable state, and what holds over whole histories. */
module BatchSafety {
  import opened Common
  import opened RunJournal
  import opened StagedPaths
  import opened BatchProtocol
  import opened BatchInvariant

  // ------------------------------------------------------------------ runs

  /** A staged path has at most one run, unless somebody queued a further run for it by hand. */
  lemma AtMostOneRun(s: System, u: RunId, v: RunId)
    requires Reachable(s) && u in s.runs && v in s.runs
    requires s.runs[u].path == s.runs[v].path && s.runs[u].path !in s.rerun
    ensures u == v
  {
    ReachableInv(s);
    assert UniqueOk(s, u, v);
  }

  /** Write-ahead: a run submitted by a driver was announced in the durable journal of its out-dir before. */
  lemma WriteAhead(s: System, u: RunId)
    requires Reachable(s) && u in s.runs && s.runs[u].origin.Driver?
    ensures var o, r := s.runs[u].origin.out, s.runs[u].origin.rec;
      && DiskOf(s, o).journal.Some? && r in DiskOf(s, o).journal.value.items
      && (exists n :: (o, n) in s.used && s.runs[u].path == StagedPath(n, r))
      && (Uniform(s, o) ==> DiskOf(s, o).journal.value.items[r].sourcePath == Some(s.runs[u].path))
  {
    ReachableInv(s);
    var o, r := s.runs[u].origin.out, s.runs[u].origin.rec;
    assert RunOk(s, u) && DiskOk(s, o);
    var n :| (o, n) in s.used && s.runs[u].path == StagedPath(n, r);
    if Uniform(s, o) {
      assert ItemAt(r, DiskOf(s, o).journal.value.items[r], n, s.runs);
    }
  }

  /** With one root per out-dir, a recorded run_uuid is the one run of the item's staged path. */
  lemma RecordedRunIsTheRun(s: System, o: OutDir, r: RecId)
    requires Reachable(s) && Uniform(s, o)
    requires DiskOf(s, o).journal.Some? && r in DiskOf(s, o).journal.value.items
    requires DiskOf(s, o).journal.value.items[r].runUuid.Some?
    ensures var it := DiskOf(s, o).journal.value.items[r];
      && it.sourcePath.Some?
      && it.runUuid.value in s.runs && s.runs[it.runUuid.value].path == it.sourcePath.value
      && (it.sourcePath.value !in s.rerun ==> Sole(s.runs, it.sourcePath.value) == {it.runUuid.value})
  {
    ReachableInv(s);
    assert DiskOk(s, o);
    var j := DiskOf(s, o).journal.value;
    var n :| (o, n) in s.used;
    assert ItemAt(r, j.items[r], n, s.runs) && ItemOk(j.corpus, j.items[r], s.runs);
    var u := j.items[r].runUuid.value;
    forall v | v in Sole(s.runs, s.runs[u].path) && s.runs[u].path !in s.rerun ensures v == u {
      assert UniqueOk(s, u, v);
    }
  }

  /** The driver never meets "no run to poll" or a vanished run: a poll decision has a live run to attach to. */
  lemma AlwaysARunToPoll(s: System, d: DriverId)
    requires Reachable(s)
    ensures AtDecision(ProcOf(s, d)) && ProcOf(s, d).decisions[ProcOf(s, d).k].action.Poll? ==> Exec(s, Attach(d)).Some?
    ensures At(ProcOf(s, d)) && ProcOf(s, d).pc.Polling? ==> ProcOf(s, d).pc.run in s.runs
  {
    ReachableInv(s);
    assert ProcOk(s, d);
  }

  /** After a refused submit, adopting the existing run succeeds exactly when its path has a single run. */
  lemma ReconcileExactly(s: System, d: DriverId)
    requires Reachable(s) && At(ProcOf(s, d)) && ProcOf(s, d).pc.Conflicted?
    ensures PathOf(ProcOf(s, d)) !in s.rerun ==> exists u :: Exec(s, Reconcile(d, u)).Some?
    ensures (exists u :: Exec(s, Reconcile(d, u)).Some?) <==> |Sole(s.runs, PathOf(ProcOf(s, d)))| == 1
  {
    ReachableInv(s);
    var u := SomeRun(s, d);
    if |Sole(s.runs, PathOf(ProcOf(s, d)))| == 1 {
      SingletonSet(Sole(s.runs, PathOf(ProcOf(s, d))), u);
      assert Exec(s, Reconcile(d, u)).Some?;
    }
    if PathOf(ProcOf(s, d)) !in s.rerun { assert Exec(s, Reconcile(d, u)).Some?; }
  }

  /** The run behind a refused submit. */
  lemma SomeRun(s: System, d: DriverId) returns (u: RunId)
    requires Inv(s) && At(ProcOf(s, d)) && ProcOf(s, d).pc.Conflicted?
    ensures u in Sole(s.runs, PathOf(ProcOf(s, d)))
    ensures PathOf(ProcOf(s, d)) !in s.rerun ==> Sole(s.runs, PathOf(ProcOf(s, d))) == {u}
  {
    assert ProcOk(s, d);
    var path := PathOf(ProcOf(s, d));
    assert MediaOk(s, path);
    u :| u in s.runs && s.runs[u].path == path;
    forall v | path !in s.rerun && v in Sole(s.runs, path) ensures v == u { assert UniqueOk(s, u, v); }
  }

  lemma SingletonSet<T>(xs: set<T>, x: T)
    requires x in xs && |xs| == 1
    ensures xs == {x}
  {
    assert xs - {x} == {};
    assert xs == {x} + (xs - {x});
  }

  // ------------------------------------------------------------------ journal

  /** The recording a step completes, the out-dir it writes, and the patch, if it records anything. */
  ghost predicate Records(s: System, a: Step, o: OutDir) {
    && (a.Announce? || a.RecordQueued? || a.RecordEnded? || a.RecordCompleted?)
    && ProcOf(s, a.d).Working? && ProcOf(s, a.d).cfg.out == o
  }

  lemma JournalUntouched(s: System, a: Step, t: System, o: OutDir)
    requires Exec(s, a) == Some(t) && !Records(s, a, o) && DiskOf(s, o).journal.Some?
    ensures DiskOf(t, o).journal == DiskOf(s, o).journal
  {
  }

  lemma RecordPatches(s: System, a: Step, t: System, o: OutDir)
    requires Inv(s) && Exec(s, a) == Some(t) && Records(s, a, o) && DiskOf(s, o).journal == Some(ProcOf(s, a.d).journal)
    ensures var p := ProcOf(s, a.d);
      var stored, rec := DiskOf(s, o).journal.value, p.cfg.ids[p.k];
      DiskOf(t, o).journal
      == Some(stored.(items := stored.items[rec := ApplyPatch(ItemOf(stored.items, rec), RecordOf(p).0)]))
  {
  }

  /** No lost update: a step changes a stored journal only by patching one unfinished item of what is stored,
    * and only the process holding the lock does so. */
  lemma NoLostUpdate(s: System, a: Step, t: System, o: OutDir)
    requires Reachable(s) && Exec(s, a) == Some(t) && DiskOf(s, o).journal.Some?
    ensures !Records(s, a, o) ==> DiskOf(t, o).journal == DiskOf(s, o).journal
    ensures Records(s, a, o) ==>
      var p := ProcOf(s, a.d);
      var stored, rec := DiskOf(s, o).journal.value, p.cfg.ids[p.k];
      && DiskOf(s, o).lock == Some(a.d)
      && !Done(stored.items, rec)
      && DiskOf(t, o).journal
         == Some(stored.(items := stored.items[rec := ApplyPatch(ItemOf(stored.items, rec), RecordOf(p).0)]))
  {
    ReachableInv(s);
    if Records(s, a, o) {
      assert ProcOk(s, a.d);
      RecordedItem(s, a.d);
      RecordPatches(s, a, t, o);
    } else {
      JournalUntouched(s, a, t, o);
    }
  }

  /** The exact condition under which `plan_resume` halts a batch on an item a driver can have left behind. */
  lemma StopExactly(s: System, o: OutDir, rec: RecId, resume: bool, retryFailed: bool)
    requires Reachable(s) && DiskOf(s, o).journal.Some?
    ensures var j := DiskOf(s, o).journal.value;
      && !j.corpus.UnknownCorpus?
      && (Decide(j.corpus, j.items, rec, resume, retryFailed).Stop? <==>
            rec in j.items && (if IsFailure(j.items[rec].status) then !retryFailed
                               else !j.items[rec].status.Completed? && !resume))
  {
    ReachableInv(s);
    assert DiskOk(s, o);
    var j := DiskOf(s, o).journal.value;
    if rec in j.items {
      assert ItemOk(j.corpus, j.items[rec], s.runs);
    }
  }

  /** With resume and retry set, a resumed batch never stops on a decision. */
  lemma ResumeNeverSticks(s: System, d: DriverId)
    requires Reachable(s) && AtDecision(ProcOf(s, d))
    requires ProcOf(s, d).cfg.resume && ProcOf(s, d).cfg.retryFailed
    ensures !ProcOf(s, d).decisions[ProcOf(s, d).k].action.Stop?
  {
    ReachableInv(s);
    NeverStopsHere(s, d);
  }

  lemma NeverStopsHere(s: System, d: DriverId)
    requires Inv(s) && AtDecision(ProcOf(s, d))
    requires ProcOf(s, d).cfg.resume && ProcOf(s, d).cfg.retryFailed
    ensures !ProcOf(s, d).decisions[ProcOf(s, d).k].action.Stop?
  {
    var p := ProcOf(s, d);
    assert ProcOk(s, d) && DiskOk(s, p.cfg.out);
    if p.cfg.ids[p.k] in p.journal.items {
      assert ItemOk(p.journal.corpus, p.journal.items[p.cfg.ids[p.k]], s.runs);
    }
    DecideNeverStops(p.cfg.corpus, p.journal.items, p.cfg.ids[p.k]);
  }

  /** The decisions were computed once, before the loop; each is still the right one when its turn comes. */
  lemma DecisionsStayValid(s: System, d: DriverId, i: nat)
    requires Reachable(s) && ProcOf(s, d).Working? && i < |ProcOf(s, d).cfg.ids|
    requires ProcOf(s, d).k < i || (ProcOf(s, d).k == i && ProcOf(s, d).pc.AtLoop?)
    ensures var p := ProcOf(s, d);
      && i < |p.decisions| && !p.cfg.corpus.UnknownCorpus?
      && p.decisions[i] == Decision(p.cfg.ids[i],
           Decide(p.cfg.corpus, p.journal.items, p.cfg.ids[i], p.cfg.resume, p.cfg.retryFailed))
  {
    ReachableInv(s);
    assert ProcOk(s, d);
  }

  // ------------------------------------------------------------------ completed is absorbing

  ghost predicate CompletedAt(s: System, o: OutDir, r: RecId) {
    DiskOf(s, o).journal.Some? && Done(DiskOf(s, o).journal.value.items, r)
  }

  lemma CompletedStep(s: System, a: Step, t: System, o: OutDir, r: RecId)
    requires Inv(s) && Exec(s, a) == Some(t) && CompletedAt(s, o, r)
    ensures CompletedAt(t, o, r) && DiskOf(t, o).journal.value.items[r] == DiskOf(s, o).journal.value.items[r]
    ensures DiskOf(t, o).journal.value.corpus == DiskOf(s, o).journal.value.corpus
  {
    if Records(s, a, o) {
      RecordKeepsCompleted(s, a, t, o, r);
    } else {
      assert DiskOf(t, o).journal == DiskOf(s, o).journal;
    }
  }

  lemma RecordKeepsCompleted(s: System, a: Step, t: System, o: OutDir, r: RecId)
    requires Inv(s) && Exec(s, a) == Some(t) && CompletedAt(s, o, r) && Records(s, a, o)
    ensures CompletedAt(t, o, r) && DiskOf(t, o).journal.value.items[r] == DiskOf(s, o).journal.value.items[r]
    ensures DiskOf(t, o).journal.value.corpus == DiskOf(s, o).journal.value.corpus
  {
    assert ProcOk(s, a.d);
    RecordedItem(s, a.d);
  }

  /** Once completed, a recording's payload, artifacts and run never change again, whatever anybody does. */
  lemma {:induction false} CompletedAbsorbing(s: System, steps: seq<Step>, t: System, o: OutDir, r: RecId)
    requires Inv(s) && Trace(s, steps, t) && CompletedAt(s, o, r)
    ensures CompletedAt(t, o, r) && DiskOf(t, o).journal.value.items[r] == DiskOf(s, o).journal.value.items[r]
    ensures CompletedOk(DiskOf(t, o).journal.value.corpus, DiskOf(t, o).journal.value.items[r])
    decreases |steps|
  {
    if steps == [] {
      assert DiskOk(s, o);
      assert ItemOk(DiskOf(s, o).journal.value.corpus, DiskOf(s, o).journal.value.items[r], s.runs);
    } else {
      var m := Exec(s, steps[0]).value;
      InvStep(s, steps[0], m);
      CompletedStep(s, steps[0], m, o, r);
      CompletedAbsorbing(m, steps[1..], t, o, r);
    }
  }

  // ------------------------------------------------------------------ progress

  lemma {:induction false} UncompletedSame(a: Items, b: Items, ids: seq<RecId>)
    requires forall i :: 0 <= i < |ids| ==> (Done(a, ids[i]) <==> Done(b, ids[i]))
    ensures Uncompleted(a, ids) == Uncompleted(b, ids)
  {
    if ids != [] {
      assert Done(a, ids[0]) <==> Done(b, ids[0]);
      forall i | 0 <= i < |ids[1..]| ensures Done(a, ids[1..][i]) <==> Done(b, ids[1..][i]) {
        assert ids[1..][i] == ids[i + 1];
      }
      UncompletedSame(a, b, ids[1..]);
    }
  }

  lemma {:induction false} UncompletedFewer(a: Items, b: Items, ids: seq<RecId>)
    requires forall i :: 0 <= i < |ids| && Done(a, ids[i]) ==> Done(b, ids[i])
    ensures Uncompleted(b, ids) <= Uncompleted(a, ids)
  {
    if ids != [] {
      assert Done(a, ids[0]) ==> Done(b, ids[0]);
      forall i | 0 <= i < |ids[1..]| && Done(a, ids[1..][i]) ensures Done(b, ids[1..][i]) {
        assert ids[1..][i] == ids[i + 1];
      }
      UncompletedFewer(a, b, ids[1..]);
    }
  }

  /** Completing one of several distinct ids lowers the count by exactly one. */
  lemma {:induction false} UncompletedDrops(a: Items, ids: seq<RecId>, k: nat, it: Item)
    requires NoDup(ids) && k < |ids| && !Done(a, ids[k]) && it.status.Completed?
    ensures Uncompleted(a[ids[k] := it], ids) == Uncompleted(a, ids) - 1
  {
    var b := a[ids[k] := it];
    if k == 0 {
      forall i | 0 <= i < |ids[1..]| ensures Done(a, ids[1..][i]) <==> Done(b, ids[1..][i]) {
        assert ids[0] != ids[i + 1];
      }
      UncompletedSame(a, b, ids[1..]);
    } else {
      assert ids[0] != ids[k] && ids[1..][k - 1] == ids[k];
      assert NoDup(ids[1..]) by {
        forall i, j | 0 <= i < j < |ids[1..]| ensures ids[1..][i] != ids[1..][j] { assert ids[i + 1] != ids[j + 1]; }
      }
      UncompletedDrops(a, ids[1..], k - 1, it);
    }
  }

  /** The count of uncompleted recordings of an out-dir never rises, and drops by one when `_drive_one`
    * returns normally from a decision other than SKIP_DONE. */
  lemma Progress(s: System, a: Step, t: System, o: OutDir, ids: seq<RecId>)
    requires Inv(s) && Exec(s, a) == Some(t) && DiskOf(s, o).journal.Some?
    ensures DiskOf(t, o).journal.Some?
    ensures Uncompleted(DiskOf(t, o).journal.value.items, ids) <= Uncompleted(DiskOf(s, o).journal.value.items, ids)
    ensures a.RecordCompleted? && ProcOf(s, a.d).cfg.out == o && ProcOf(s, a.d).cfg.ids == ids ==>
      Uncompleted(DiskOf(t, o).journal.value.items, ids) == Uncompleted(DiskOf(s, o).journal.value.items, ids) - 1
  {
    var before, after := DiskOf(s, o).journal.value.items, DiskOf(t, o).journal.value.items;
    forall i | 0 <= i < |ids| && Done(before, ids[i]) ensures Done(after, ids[i]) {
      CompletedStep(s, a, t, o, ids[i]);
    }
    UncompletedFewer(before, after, ids);
    if a.RecordCompleted? && ProcOf(s, a.d).cfg.out == o && ProcOf(s, a.d).cfg.ids == ids { CompletingDrops(s, a, t); }
  }

  lemma CompletingDrops(s: System, a: Step, t: System)
    requires Inv(s) && Exec(s, a) == Some(t) && a.RecordCompleted?
    requires DiskOf(s, ProcOf(s, a.d).cfg.out).journal.Some?
    ensures var p := ProcOf(s, a.d);
      && DiskOf(t, p.cfg.out).journal.Some?
      && Uncompleted(DiskOf(t, p.cfg.out).journal.value.items, p.cfg.ids)
         == Uncompleted(DiskOf(s, p.cfg.out).journal.value.items, p.cfg.ids) - 1
  {
    var p := ProcOf(s, a.d);
    assert ProcOk(s, a.d);
    UncompletedDrops(p.journal.items, p.cfg.ids, p.k,
      ApplyPatch(ItemOf(p.journal.items, p.cfg.ids[p.k]), PatchCompleted(p.pc.exported)));
  }

  // ------------------------------------------------------------------ manifest

  lemma {:induction false} AllDone(items: Items, ids: seq<RecId>)
    ensures Uncompleted(items, ids) == 0 <==> forall i :: 0 <= i < |ids| ==> Done(items, ids[i])
  {
    if ids != [] {
      AllDone(items, ids[1..]);
      if forall i :: 0 <= i < |ids| ==> Done(items, ids[i]) {
        forall i | 0 <= i < |ids[1..]| ensures Done(items, ids[1..][i]) { assert ids[1..][i] == ids[i + 1]; }
        assert Done(items, ids[0]);
      }
      if Uncompleted(items, ids) == 0 {
        forall i | 0 <= i < |ids| ensures Done(items, ids[i]) {
          if i > 0 { assert ids[i] == ids[1..][i - 1]; }
        }
      }
    }
  }

  /** When every decision has been driven, "cannot write a scoreable bundle" is unreachable. */
  lemma NothingMissing(s: System, d: DriverId)
    requires Reachable(s) && ProcOf(s, d).Working? && ProcOf(s, d).k == |ProcOf(s, d).cfg.ids|
    ensures Uncompleted(ProcOf(s, d).journal.items, ProcOf(s, d).cfg.ids) == 0
  {
    ReachableInv(s);
    assert ProcOk(s, d);
    AllDone(ProcOf(s, d).journal.items, ProcOf(s, d).cfg.ids);
  }

  ghost predicate AllCompleted(s: System, o: OutDir, ids: seq<RecId>) {
    DiskOf(s, o).journal.Some? && forall i :: 0 <= i < |ids| ==> CompletedAt(s, o, ids[i])
  }

  /** What a readable manifest attests, and that the journal beside it still agrees. */
  ghost predicate ManifestTrue(s: System, o: OutDir, m: Manifest) {
    && Verified(m.before, m.after, m.env)
    && AllCompleted(s, o, m.ids)
    && forall i :: 0 <= i < |m.ids| ==>
         && Done(m.items, m.ids[i])
         && CompletedOk(DiskOf(s, o).journal.value.corpus, m.items[m.ids[i]])
         && DiskOf(s, o).journal.value.items[m.ids[i]] == m.items[m.ids[i]]
  }

  /** A driver writes output only for completed recordings, and every manifest a reader can find is true. */
  ghost predicate OutputOk(s: System, o: OutDir) {
    match DiskOf(s, o).output
    case NoOutput => true
    case Copying(ids, older) => AllCompleted(s, o, ids) && (older.Some? ==> ManifestTrue(s, o, older.value))
    case Torn(ids) => AllCompleted(s, o, ids)
    case Whole(m) => ManifestTrue(s, o, m)
  }

  lemma JournalStays(s: System, a: Step, t: System, o: OutDir)
    requires Exec(s, a) == Some(t) && DiskOf(s, o).journal.Some?
    ensures DiskOf(t, o).journal.Some?
  {
  }

  lemma AllCompletedStep(s: System, a: Step, t: System, o: OutDir, ids: seq<RecId>)
    requires Inv(s) && Exec(s, a) == Some(t) && AllCompleted(s, o, ids)
    ensures AllCompleted(t, o, ids)
  {
    JournalStays(s, a, t, o);
    forall i | 0 <= i < |ids| ensures CompletedAt(t, o, ids[i]) { CompletedStep(s, a, t, o, ids[i]); }
  }

  lemma ManifestStaysTrue(s: System, a: Step, t: System, o: OutDir, m: Manifest)
    requires Inv(s) && Exec(s, a) == Some(t) && ManifestTrue(s, o, m)
    ensures ManifestTrue(t, o, m)
  {
    AllCompletedStep(s, a, t, o, m.ids);
    forall i | 0 <= i < |m.ids|
      ensures DiskOf(t, o).journal.value.items[m.ids[i]] == m.items[m.ids[i]]
      ensures DiskOf(t, o).journal.value.corpus == DiskOf(s, o).journal.value.corpus
    {
      CompletedStep(s, a, t, o, m.ids[i]);
    }
  }

  /** Whoever is past the loop has all its recordings completed, and its manifest is true. */
  lemma PastLoopTrue(s: System, d: DriverId, fpAfter: Fingerprint)
    requires Inv(s) && ProcOf(s, d).Working? && ProcOf(s, d).k == |ProcOf(s, d).cfg.ids|
    requires Verified(ProcOf(s, d).cfg.fpBefore, fpAfter, ProcOf(s, d).cfg.env)
    ensures ManifestTrue(s, ProcOf(s, d).cfg.out, ManifestBy(ProcOf(s, d), fpAfter))
  {
    var p := ProcOf(s, d);
    assert ProcOk(s, d) && DiskOk(s, p.cfg.out);
    forall i | 0 <= i < |p.cfg.ids|
      ensures Done(p.journal.items, p.cfg.ids[i]) && CompletedOk(p.journal.corpus, p.journal.items[p.cfg.ids[i]])
    {
      assert ItemOk(p.journal.corpus, p.journal.items[p.cfg.ids[i]], s.runs);
    }
  }

  lemma OutputWritten(s: System, a: Step, t: System)
    requires Inv(s) && Exec(s, a) == Some(t) && (a.BeginBundle? || a.OpenManifest? || a.Finish?)
    requires OutputOk(s, ProcOf(s, a.d).cfg.out)
    ensures OutputOk(t, ProcOf(s, a.d).cfg.out)
  {
    var p := ProcOf(s, a.d);
    assert ProcOk(s, a.d);
    var fpAfter := if a.BeginBundle? then a.fpAfter else p.pc.fpAfter;
    PastLoopTrue(s, a.d, fpAfter);
    ManifestStaysTrue(s, a, t, p.cfg.out, ManifestBy(p, fpAfter));
    if a.BeginBundle? {
      var older := Readable(DiskOf(s, p.cfg.out).output);
      if older.Some? { ManifestStaysTrue(s, a, t, p.cfg.out, older.value); }
    }
  }

  lemma OutputStays(s: System, a: Step, t: System, o: OutDir)
    requires Inv(s) && Exec(s, a) == Some(t) && OutputOk(s, o) && DiskOf(t, o).output == DiskOf(s, o).output
    ensures OutputOk(t, o)
  {
    match DiskOf(s, o).output
    case NoOutput =>
    case Copying(ids, older) =>
      AllCompletedStep(s, a, t, o, ids);
      if older.Some? { ManifestStaysTrue(s, a, t, o, older.value); }
    case Torn(ids) => AllCompletedStep(s, a, t, o, ids);
    case Whole(m) => ManifestStaysTrue(s, a, t, o, m);
  }

  lemma OutputStep(s: System, a: Step, t: System, o: OutDir)
    requires Inv(s) && Exec(s, a) == Some(t) && OutputOk(s, o)
    ensures OutputOk(t, o)
  {
    if (a.BeginBundle? || a.OpenManifest? || a.Finish?) && ProcOf(s, a.d).cfg.out == o {
      OutputWritten(s, a, t);
    } else {
      OutputUntouched(s, a, t, o);
      OutputStays(s, a, t, o);
    }
  }

  lemma OutputUntouched(s: System, a: Step, t: System, o: OutDir)
    requires Exec(s, a) == Some(t)
    requires !((a.BeginBundle? || a.OpenManifest? || a.Finish?) && ProcOf(s, a.d).cfg.out == o)
    ensures DiskOf(t, o).output == DiskOf(s, o).output
  {
  }

  /** Over whole histories: a manifest exists only when every selected recording is completed and both
    * fingerprints are full and equal, the journal never drifts away from what it attests, and a driver that
    * dies inside the bundle or the manifest leaves a true older manifest or none. */
  lemma {:induction false} ManifestSound(s: System, steps: seq<Step>, t: System, o: OutDir)
    requires Inv(s) && OutputOk(s, o) && Trace(s, steps, t)
    ensures OutputOk(t, o)
    decreases |steps|
  {
    if steps != [] {
      var m := Exec(s, steps[0]).value;
      InvStep(s, steps[0], m);
      OutputStep(s, steps[0], m, o);
      ManifestSound(m, steps[1..], t, o);
    }
  }

  lemma ReachableManifest(s: System, o: OutDir)
    requires Reachable(s)
    ensures OutputOk(s, o)
    ensures Readable(DiskOf(s, o).output).Some? ==> ManifestTrue(s, o, Readable(DiskOf(s, o).output).value)
  {
    var steps :| Trace(INIT, steps, s);
    assert Inv(INIT) && OutputOk(INIT, o);
    ManifestSound(INIT, steps, s, o);
  }
}
