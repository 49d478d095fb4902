/** Every step of the batch protocol keeps the invariant, so it holds in every reachable state. */
module BatchInvariant {
  import opened Common
  import opened RunJournal
  import opened StagedPaths
  import opened BatchProtocol

  /** No step forgets a run, its path, its origin, a media item or a naming. */
  ghost predicate Monotone(s: System, t: System) {
    && (forall u :: u in s.runs ==>
          u in t.runs && t.runs[u].path == s.runs[u].path && t.runs[u].origin == s.runs[u].origin)
    && s.media <= t.media && s.used <= t.used && s.rerun <= t.rerun
  }

  lemma JournalFrame(s: System, t: System, o: OutDir, j: Journal)
    requires Monotone(s, t) && JournalOk(s, o, j) && exists n :: (o, n) in s.used
    ensures JournalOk(t, o, j)
  {
    var m :| (o, m) in s.used;
    assert (o, m) in t.used;
    if Uniform(t, o) {
      forall n1, n2 | (o, n1) in s.used && (o, n2) in s.used ensures Root(n1) == Root(n2) {
        assert (o, n1) in t.used && (o, n2) in t.used;
      }
      forall r, n | r in j.items && (o, n) in t.used ensures ItemAt(r, j.items[r], n, t.runs) {
        assert Root(n) == Root(m);
        assert ItemAt(r, j.items[r], m, s.runs);
        assert ItemOk(j.corpus, j.items[r], s.runs);
      }
    }
    forall r | r in j.items ensures ItemOk(j.corpus, j.items[r], t.runs) {
      assert ItemOk(j.corpus, j.items[r], s.runs);
    }
  }

  lemma DiskFrame(s: System, t: System, o: OutDir)
    requires Monotone(s, t) && DiskOk(s, o)
    requires DiskOf(t, o).journal == DiskOf(s, o).journal
    requires DiskOf(t, o).lock.Some? ==>
      !ProcOf(t, DiskOf(t, o).lock.value).Idle? && ProcOf(t, DiskOf(t, o).lock.value).cfg.out == o
    ensures DiskOk(t, o)
  {
    if DiskOf(s, o).journal.Some? {
      JournalFrame(s, t, o, DiskOf(s, o).journal.value);
      var n :| (o, n) in s.used;
      assert (o, n) in t.used;
    }
  }

  lemma ProcFrame(s: System, t: System, d: DriverId)
    requires Monotone(s, t) && ProcOk(s, d) && ProcOf(t, d) == ProcOf(s, d)
    requires !ProcOf(s, d).Idle? ==>
      DiskOf(t, ProcOf(s, d).cfg.out) == DiskOf(s, ProcOf(s, d).cfg.out)
    ensures ProcOk(t, d)
  {
  }

  lemma RunFrame(s: System, t: System, u: RunId)
    requires Monotone(s, t) && RunOk(s, u) && u in s.runs
    requires forall o :: DiskOf(s, o).journal.Some? ==>
      DiskOf(t, o).journal.Some? && DiskOf(s, o).journal.value.items.Keys <= DiskOf(t, o).journal.value.items.Keys
    ensures RunOk(t, u)
  {
    if s.runs[u].origin.Driver? {
      var o, r := s.runs[u].origin.out, s.runs[u].origin.rec;
      var n :| (o, n) in s.used && s.runs[u].path == StagedPath(n, r);
      assert (o, n) in t.used && t.runs[u].path == StagedPath(n, r);
    }
  }

  /** Two live drivers never share an out-dir. */
  lemma LockExcludes(s: System, d: DriverId, e: DriverId)
    requires Inv(s) && !ProcOf(s, d).Idle? && !ProcOf(s, e).Idle?
    requires ProcOf(s, d).cfg.out == ProcOf(s, e).cfg.out
    ensures d == e
  {
    assert ProcOk(s, d) && ProcOk(s, e);
  }

  /** A step of driver `d` that leaves the database, the histories and every journal alone. */
  lemma LocalStep(s: System, t: System, d: DriverId)
    requires Inv(s) && ProcOk(t, d)
    requires t == s.(procs := t.procs) && (forall e :: e != d ==> ProcOf(t, e) == ProcOf(s, e))
    requires !ProcOf(s, d).Idle? && !ProcOf(t, d).Idle? && ProcOf(t, d).cfg == ProcOf(s, d).cfg
    ensures Inv(t)
  {
    forall o ensures DiskOk(t, o) { assert DiskOk(s, o); DiskFrame(s, t, o); }
    forall e ensures ProcOk(t, e) { assert ProcOk(s, e); if e != d { ProcFrame(s, t, e); } }
    forall u ensures RunOk(t, u) { assert RunOk(s, u); if u in s.runs { RunFrame(s, t, u); } }
    forall u, v ensures UniqueOk(t, u, v) { assert UniqueOk(s, u, v); }
    forall path ensures MediaOk(t, path) { assert MediaOk(s, path); }
  }

  lemma DecisionStep(s: System, a: Step, t: System)
    requires Inv(s) && Exec(s, a) == Some(t)
    requires a.Skip? || a.Stage?
    ensures Inv(t)
  {
    assert ProcOk(s, a.d);
    LocalStep(s, t, a.d);
  }

  lemma AttachStep(s: System, a: Step, t: System)
    requires Inv(s) && Exec(s, a) == Some(t) && a.Attach?
    ensures Inv(t)
  {
    var p := ProcOf(s, a.d);
    assert ProcOk(s, a.d) && DiskOk(s, p.cfg.out);
    if p.cfg.ids[p.k] in p.journal.items {
      assert ItemOk(p.journal.corpus, p.journal.items[p.cfg.ids[p.k]], s.runs);
    }
    LocalStep(s, t, a.d);
  }

  lemma SubmitStep(s: System, a: Step, t: System)
    requires Inv(s) && Exec(s, a) == Some(t)
    requires a.SubmitExists? || a.ReadId? || a.Reconcile? || a.Publish?
    ensures Inv(t)
  {
    assert ProcOk(s, a.d);
    if a.Reconcile? {
      assert a.run in Sole(s.runs, PathOf(ProcOf(s, a.d)));
    }
    LocalStep(s, t, a.d);
  }

  lemma PollStep(s: System, a: Step, t: System)
    requires Inv(s) && Exec(s, a) == Some(t)
    requires a.PollLive? || a.PollEnded? || a.PollCompleted?
    ensures Inv(t)
  {
    assert ProcOk(s, a.d);
    LocalStep(s, t, a.d);
  }

  /** Runs appear without any process or file moving: an ingest, a rerun or a pipeline transition. */
  lemma DatabaseStep(s: System, a: Step, t: System)
    requires Inv(s) && Exec(s, a) == Some(t)
    requires a.Transition? || a.Ingest? || a.Rerun?
    ensures Inv(t)
  {
    forall o ensures DiskOk(t, o) { assert DiskOk(s, o); DiskFrame(s, t, o); }
    forall e ensures ProcOk(t, e) { assert ProcOk(s, e); ProcFrame(s, t, e); }
    forall u ensures RunOk(t, u) { assert RunOk(s, u); if u in s.runs { RunFrame(s, t, u); } }
    UniqueAfter(s, t, a.run);
    forall path ensures MediaOk(t, path) {
      assert MediaOk(s, path);
      if path in s.media {
        var u :| u in s.runs && s.runs[u].path == path;
        assert u in t.runs && t.runs[u].path == path;
      } else if path in t.media {
        assert t.runs[a.run].path == path;
      }
    }
  }

  /** At most one run is new, and a new run's path was unknown before or is a rerun. */
  lemma UniqueAfter(s: System, t: System, added: RunId)
    requires Inv(s) && Monotone(s, t)
    requires t.runs.Keys <= s.runs.Keys + {added} && added in t.runs
    requires added !in s.runs ==> t.runs[added].path !in s.media || t.runs[added].path in t.rerun
    ensures forall u, v :: UniqueOk(t, u, v)
  {
    forall u, v ensures UniqueOk(t, u, v) {
      assert UniqueOk(s, u, v) && RunOk(s, u) && RunOk(s, v);
    }
  }

  lemma SubmitNewStep(s: System, a: Step, t: System)
    requires Inv(s) && Exec(s, a) == Some(t) && a.SubmitNew?
    ensures Inv(t)
  {
    var p := ProcOf(s, a.d);
    assert ProcOk(s, a.d);
    forall o ensures DiskOk(t, o) { assert DiskOk(s, o); DiskFrame(s, t, o); }
    forall e ensures ProcOk(t, e) { assert ProcOk(s, e); if e != a.d { ProcFrame(s, t, e); } }
    forall u ensures RunOk(t, u) {
      assert RunOk(s, u);
      if u in s.runs { RunFrame(s, t, u); }
      else if u == a.run { assert (p.cfg.out, p.cfg.naming) in t.used; }
    }
    UniqueAfter(s, t, a.run);
    forall path ensures MediaOk(t, path) {
      assert MediaOk(s, path);
      if path in s.media {
        var u :| u in s.runs && s.runs[u].path == path;
        assert u in t.runs && t.runs[u].path == path;
      } else if path in t.media {
        assert t.runs[a.run].path == path;
      }
    }
  }

  /** Patching one journal item keeps every other item, so decisions about other ids stay valid. */
  lemma PatchedDecisions(p: Process, rec: RecId, it: Item, i: nat)
    requires p.Working? && !p.cfg.corpus.UnknownCorpus? && NoDup(p.cfg.ids)
    requires p.k < |p.cfg.ids| && rec == p.cfg.ids[p.k] && i < |p.cfg.ids| && i != p.k
    ensures p.cfg.ids[i] != rec
    ensures Decide(p.cfg.corpus, p.journal.items[rec := it], p.cfg.ids[i], p.cfg.resume, p.cfg.retryFailed)
         == Decide(p.cfg.corpus, p.journal.items, p.cfg.ids[i], p.cfg.resume, p.cfg.retryFailed)
    ensures Done(p.journal.items[rec := it], p.cfg.ids[i]) <==> Done(p.journal.items, p.cfg.ids[i])
  {
    assert p.cfg.ids[i] != p.cfg.ids[p.k];
  }

  /** The patch a driver is about to write, where it goes next, and which recording it then works on. */
  ghost function RecordOf(p: Process): (Patch, Pc, nat)
    requires At(p) && (p.pc.Staged? || p.pc.HaveRun? || p.pc.Ended? || p.pc.Exported?)
  {
    match p.pc
    case Staged => (PatchSubmitting(PathOf(p), p.cfg.naming.batch), Announced, p.k)
    case HaveRun(u) => (PatchQueued(u), Recorded(u), p.k)
    case Ended(u, seen) => (PatchStatus(seen), AtLoop, p.k)
    case Exported(u, e) => (PatchCompleted(e), AtLoop, p.k + 1)
  }

  /** Completing an item stores every required artifact with its hash. */
  lemma CompletedItemOk(corpus: Corpus, it: Item, e: Export, runs: map<RunId, RunRow>)
    requires !corpus.UnknownCorpus? && ExportOk(corpus, e) && it.runUuid.Some? && it.runUuid.value in runs
    ensures ItemOk(corpus, ApplyPatch(it, PatchCompleted(e)), runs)
  {
  }

  lemma RecordedItemOk(s: System, d: DriverId)
    requires Inv(s) && At(ProcOf(s, d))
    requires var pc := ProcOf(s, d).pc; pc.Staged? || pc.HaveRun? || pc.Ended? || pc.Exported?
    ensures var p := ProcOf(s, d);
      var rec := p.cfg.ids[p.k];
      ItemOk(p.journal.corpus, ApplyPatch(ItemOf(p.journal.items, rec), RecordOf(p).0), s.runs)
  {
    var p := ProcOf(s, d);
    var rec := p.cfg.ids[p.k];
    assert ProcOk(s, d) && DiskOk(s, p.cfg.out);
    if rec in p.journal.items { assert ItemOk(p.journal.corpus, p.journal.items[rec], s.runs); }
    if p.pc.Exported? { CompletedItemOk(p.journal.corpus, p.journal.items[rec], p.pc.exported, s.runs); }
  }

  /** The item a record step writes satisfies the journal invariant. */
  lemma RecordedItem(s: System, d: DriverId)
    requires Inv(s)
    requires At(ProcOf(s, d))
    requires var pc := ProcOf(s, d).pc; pc.Staged? || pc.HaveRun? || pc.Ended? || pc.Exported?
    ensures var p := ProcOf(s, d);
      var rec := p.cfg.ids[p.k];
      var it := ApplyPatch(ItemOf(p.journal.items, rec), RecordOf(p).0);
      && ItemOk(p.journal.corpus, it, s.runs)
      && (Uniform(s, p.cfg.out) ==> forall n :: (p.cfg.out, n) in s.used ==> ItemAt(rec, it, n, s.runs))
      && !ItemOf(p.journal.items, rec).status.Completed?
  {
    RecordedItemOk(s, d);
    var p := ProcOf(s, d);
    var rec := p.cfg.ids[p.k];
    assert ProcOk(s, d) && DiskOk(s, p.cfg.out);
    if rec in p.journal.items && Uniform(s, p.cfg.out) {
      assert ItemAt(rec, p.journal.items[rec], p.cfg.naming, s.runs);
    }
  }

  /** After a record the remaining decisions still describe the journal, and the next statement may run. */
  lemma RecordedProcess(s: System, d: DriverId, p: Process, q: Process)
    requires Inv(s) && p == ProcOf(s, d) && At(p) && (p.pc.Staged? || p.pc.HaveRun? || p.pc.Exported?)
    requires q == ProcOf(Recording(s, d, p, RecordOf(p).0, RecordOf(p).1, RecordOf(p).2), d)
    ensures q.Working? && DecisionsOk(q)
    ensures At(q) ==> PcOk(s, q)
  {
    assert ProcOk(s, d);
    forall i | 0 <= i < |p.cfg.ids| && i != p.k
      ensures Decide(p.cfg.corpus, q.journal.items, p.cfg.ids[i], p.cfg.resume, p.cfg.retryFailed)
           == Decide(p.cfg.corpus, p.journal.items, p.cfg.ids[i], p.cfg.resume, p.cfg.retryFailed)
      ensures Done(q.journal.items, p.cfg.ids[i]) <==> Done(p.journal.items, p.cfg.ids[i])
    {
      PatchedDecisions(p, p.cfg.ids[p.k], q.journal.items[p.cfg.ids[p.k]], i);
    }
  }

  lemma RecordStep(s: System, a: Step, t: System)
    requires Inv(s) && Exec(s, a) == Some(t)
    requires a.Announce? || a.RecordQueued? || a.RecordCompleted?
    ensures Inv(t)
  {
    var p := ProcOf(s, a.d);
    RecordingKeeps(s, a.d, t);
    RecordedProcess(s, a.d, p, ProcOf(t, a.d));
    assert ProcOk(s, a.d);
    assert ProcOk(t, a.d);
    forall e ensures ProcOk(t, e) {
      assert ProcOk(s, e);
      if e != a.d {
        if !ProcOf(s, e).Idle? && ProcOf(s, e).cfg.out == p.cfg.out { LockExcludes(s, a.d, e); }
        ProcFrame(s, t, e);
      }
    }
  }

  /** Everything but the processes: the journals stay sound and no announced recording is dropped. */
  lemma RecordingKeeps(s: System, d: DriverId, t: System)
    requires Inv(s) && At(ProcOf(s, d))
    requires var pc := ProcOf(s, d).pc; pc.Staged? || pc.HaveRun? || pc.Ended? || pc.Exported?
    requires var p := ProcOf(s, d); t == Recording(s, d, p, RecordOf(p).0, RecordOf(p).1, RecordOf(p).2)
    ensures forall o :: DiskOk(t, o)
    ensures forall u :: RunOk(t, u)
    ensures forall u, v :: UniqueOk(t, u, v)
    ensures forall path :: MediaOk(t, path)
  {
    var p := ProcOf(s, d);
    assert ProcOk(s, d);
    RecordedItem(s, d);
    forall o ensures DiskOk(t, o) {
      assert DiskOk(s, o);
      if o != p.cfg.out {
        DiskFrame(s, t, o);
      } else {
        assert Uniform(t, o) <==> Uniform(s, o);
        assert (o, p.cfg.naming) in t.used;
        var j, j' := p.journal, DiskOf(t, o).journal.value;
        forall r | r in j'.items ensures ItemOk(j'.corpus, j'.items[r], t.runs) {
          if r != p.cfg.ids[p.k] { assert ItemOk(j.corpus, j.items[r], s.runs); }
        }
        if Uniform(t, o) {
          forall r, n | r in j'.items && (o, n) in t.used ensures ItemAt(r, j'.items[r], n, t.runs) {
            if r != p.cfg.ids[p.k] { assert ItemAt(r, j.items[r], n, s.runs); }
          }
        }
      }
    }
    forall u ensures RunOk(t, u) { assert RunOk(s, u); if u in s.runs { RunFrame(s, t, u); } }
    forall u, v ensures UniqueOk(t, u, v) { assert UniqueOk(s, u, v); }
    forall path ensures MediaOk(t, path) { assert MediaOk(s, path); }
  }

  /** A process that leaves releases its lock and nothing else. */
  lemma LeaveKeeps(s: System, d: DriverId)
    requires !ProcOf(s, d).Idle?
    requires DiskOf(s, ProcOf(s, d).cfg.out).lock == Some(d)
    requires (forall o :: DiskOk(s, o)) && (forall e :: e != d ==> ProcOk(s, e)) && (forall u :: RunOk(s, u))
    requires (forall u, v :: UniqueOk(s, u, v)) && (forall path :: MediaOk(s, path))
    ensures Inv(Leave(s, d))
  {
    var t := Leave(s, d);
    var out := ProcOf(s, d).cfg.out;
    forall o ensures DiskOk(t, o) { assert DiskOk(s, o); DiskFrame(s, t, o); }
    forall e ensures ProcOk(t, e) {
      if e != d {
        assert ProcOk(s, e);
        ProcFrame(s, t, e);
      }
    }
    forall u ensures RunOk(t, u) { assert RunOk(s, u); if u in s.runs { RunFrame(s, t, u); } }
    forall u, v ensures UniqueOk(t, u, v) { assert UniqueOk(s, u, v); }
    forall path ensures MediaOk(t, path) { assert MediaOk(s, path); }
  }

  /** The output of an out-dir changes and its one driver moves on. */
  lemma OutputKeeps(s: System, d: DriverId, q: Process, out: Output)
    requires Inv(s) && !ProcOf(s, d).Idle? && q.Working? && q.cfg == ProcOf(s, d).cfg
    requires ProcOk(SetOutput(s, d, q, out), d)
    ensures Inv(SetOutput(s, d, q, out))
  {
    var t := SetOutput(s, d, q, out);
    assert ProcOk(s, d);
    forall o ensures DiskOk(t, o) { assert DiskOk(s, o); DiskFrame(s, t, o); }
    forall e ensures ProcOk(t, e) {
      assert ProcOk(s, e);
      if e != d {
        if !ProcOf(s, e).Idle? && ProcOf(s, e).cfg.out == q.cfg.out { LockExcludes(s, d, e); }
        ProcFrame(s, t, e);
      }
    }
    forall u ensures RunOk(t, u) { assert RunOk(s, u); if u in s.runs { RunFrame(s, t, u); } }
    forall u, v ensures UniqueOk(t, u, v) { assert UniqueOk(s, u, v); }
    forall path ensures MediaOk(t, path) { assert MediaOk(s, path); }
  }

  lemma OutputStep(s: System, a: Step, t: System)
    requires Inv(s) && Exec(s, a) == Some(t) && (a.BeginBundle? || a.OpenManifest?)
    ensures Inv(t)
  {
    var p := ProcOf(s, a.d);
    assert ProcOk(s, a.d);
    if a.BeginBundle? {
      OutputKeeps(s, a.d, p.(pc := Bundling(a.fpAfter)), Copying(p.cfg.ids, Readable(DiskOf(s, p.cfg.out).output)));
    } else {
      OutputKeeps(s, a.d, p.(pc := Closing(p.pc.fpAfter)), Torn(p.cfg.ids));
    }
  }

  /** The written manifest: the process is as good as idle, the rest as before. */
  lemma FinishStep(s: System, a: Step, t: System)
    requires Inv(s) && Exec(s, a) == Some(t) && a.Finish?
    ensures Inv(t)
  {
    var p := ProcOf(s, a.d);
    assert ProcOk(s, a.d);
    var q := p.(pc := AtLoop);
    OutputKeeps(s, a.d, q, Whole(ManifestBy(p, p.pc.fpAfter)));
    var u := SetOutput(s, a.d, q, Whole(ManifestBy(p, p.pc.fpAfter)));
    LeaveKeeps(u, a.d);
    assert Leave(u, a.d) == t by {
      assert Leave(u, a.d).procs == t.procs;
    }
  }

  lemma EndedStep(s: System, a: Step, t: System)
    requires Inv(s) && Exec(s, a) == Some(t) && a.RecordEnded?
    ensures Inv(t)
  {
    var p := ProcOf(s, a.d);
    assert ProcOk(s, a.d);
    var s' := Recording(s, a.d, p, PatchStatus(p.pc.seen), AtLoop, p.k);
    RecordingKeeps(s, a.d, s');
    forall e | e != a.d ensures ProcOk(s', e) {
      assert ProcOk(s, e);
      if !ProcOf(s, e).Idle? && ProcOf(s, e).cfg.out == p.cfg.out { LockExcludes(s, a.d, e); }
      ProcFrame(s, s', e);
    }
    LeaveKeeps(s', a.d);
  }

  lemma CrashStep(s: System, a: Step, t: System)
    requires Inv(s) && Exec(s, a) == Some(t) && a.Crash?
    ensures Inv(t)
  {
    assert ProcOk(s, a.d);
    LeaveKeeps(s, a.d);
  }

  lemma StartStep(s: System, a: Step, t: System)
    requires Inv(s) && Exec(s, a) == Some(t) && a.Start?
    ensures Inv(t)
  {
    var out := a.cfg.out;
    assert ProcOk(s, a.d) && DiskOk(s, out) && (out, a.cfg.naming) in t.used;
    assert DiskOk(t, out) by {
      if DiskOf(s, out).journal.Some? { DiskFrame(s, t, out); }
    }
    assert ProcOk(t, a.d);
    OthersKept(s, a.d, out, t);
  }

  lemma LoadStep(s: System, a: Step, t: System)
    requires Inv(s) && Exec(s, a) == Some(t) && a.Load?
    ensures Inv(t)
  {
    var out := ProcOf(s, a.d).cfg.out;
    assert ProcOk(s, a.d) && DiskOk(s, out);
    assert DiskOk(t, out) by {
      if DiskOf(s, out).journal.Some? { DiskFrame(s, t, out); }
    }
    assert ProcOk(t, a.d);
    OthersKept(s, a.d, out, t);
  }

  /** A driver that enters touches its own process and its own out-dir only. */
  lemma OthersKept(s: System, d: DriverId, out: OutDir, t: System)
    requires Inv(s) && ProcOk(t, d) && DiskOk(t, out)
    requires t.media == s.media && t.runs == s.runs && t.rerun == s.rerun && s.used <= t.used
    requires forall o :: o != out ==> DiskOf(t, o) == DiskOf(s, o)
    requires forall e :: e != d ==> ProcOf(t, e) == ProcOf(s, e)
    requires DiskOf(s, out).lock.None? || DiskOf(s, out).lock == Some(d)
    requires !ProcOf(t, d).Idle? && (ProcOf(s, d).Idle? || ProcOf(s, d).cfg.out == ProcOf(t, d).cfg.out)
    requires DiskOf(s, out).journal.Some? ==> DiskOf(t, out).journal == DiskOf(s, out).journal
    ensures Inv(t)
  {
    forall o ensures DiskOk(t, o) { assert DiskOk(s, o); if o != out { DiskFrame(s, t, o); } }
    forall e ensures ProcOk(t, e) {
      assert ProcOk(s, e);
      if e != d { ProcFrame(s, t, e); }
    }
    forall u ensures RunOk(t, u) { assert RunOk(s, u); if u in s.runs { RunFrame(s, t, u); } }
    forall u, v ensures UniqueOk(t, u, v) { assert UniqueOk(s, u, v); }
    forall path ensures MediaOk(t, path) { assert MediaOk(s, path); }
  }

  /** Every step of every actor keeps the invariant. */
  lemma InvStep(s: System, a: Step, t: System)
    requires Inv(s) && Exec(s, a) == Some(t)
    ensures Inv(t)
  {
    match a
    case Start(_, _) => StartStep(s, a, t);
    case Load(_) => LoadStep(s, a, t);
    case Skip(_) => DecisionStep(s, a, t);
    case Stage(_) => DecisionStep(s, a, t);
    case Attach(_) => AttachStep(s, a, t);
    case SubmitNew(_, _) => SubmitNewStep(s, a, t);
    case ReadId(_) => SubmitStep(s, a, t);
    case SubmitExists(_) => SubmitStep(s, a, t);
    case Reconcile(_, _) => SubmitStep(s, a, t);
    case Publish(_) => SubmitStep(s, a, t);
    case PollLive(_) => PollStep(s, a, t);
    case PollEnded(_, _) => PollStep(s, a, t);
    case PollCompleted(_, _) => PollStep(s, a, t);
    case Announce(_) => RecordStep(s, a, t);
    case RecordQueued(_) => RecordStep(s, a, t);
    case RecordCompleted(_) => RecordStep(s, a, t);
    case RecordEnded(_) => EndedStep(s, a, t);
    case BeginBundle(_, _) => OutputStep(s, a, t);
    case OpenManifest(_) => OutputStep(s, a, t);
    case Finish(_) => FinishStep(s, a, t);
    case Crash(_) => CrashStep(s, a, t);
    case Transition(_, _, _) => DatabaseStep(s, a, t);
    case Ingest(_, _) => DatabaseStep(s, a, t);
    case Rerun(_, _) => DatabaseStep(s, a, t);
  }

  lemma {:induction false} InvTrace(s: System, steps: seq<Step>, t: System)
    requires Inv(s) && Trace(s, steps, t)
    ensures Inv(t)
    decreases |steps|
  {
    if steps != [] {
      InvStep(s, steps[0], Exec(s, steps[0]).value);
      InvTrace(Exec(s, steps[0]).value, steps[1..], t);
    }
  }

  /** The invariant holds in every reachable state of any interleaving. */
  lemma ReachableInv(s: System)
    requires Reachable(s)
    ensures Inv(s)
  {
    var steps :| Trace(INIT, steps, s);
    assert Inv(INIT);
    InvTrace(INIT, steps, s);
  }
}
