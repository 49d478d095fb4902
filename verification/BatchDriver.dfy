/** The `run` command as imperative code, statement by statement, proved to be a run of the protocol. */
module BatchDriver {
  import opened Common
  import opened RunJournal
  import opened StagedPaths
  import opened BatchProtocol
  import opened BatchInvariant
  import opened BatchSafety

  /** Everything the process cannot decide itself: what the other actors do before its n-th statement, what rows the
    * queries of an export see if the run is restarted between them, and how many polls fit before the deadline. */
  datatype World = World(others: nat -> seq<Step>, torn: nat -> Option<Rows>, maxPolls: nat)

  /** What `submit_media_item_if_new` returns for a new path: one field, and it is not called `id`. */
  datatype SubmissionResult = SubmissionResult(runId: RunId)

  /** Replacing this process's record before or after another actor's step gives the same state. */
  ghost predicate Commutes(s: System, me: DriverId, p: Process, a: Step) {
    Exec(s, a).Some? ==> Exec(SetProc(s, me, p), a) == Some(SetProc(Exec(s, a).value, me, p))
  }

  lemma EnteringCommutes(s: System, me: DriverId, p: Process, a: Step)
    requires !ActorIs(a, me) && (a.Start? || a.Load? || a.Skip? || a.Stage? || a.Attach?)
    ensures Commutes(s, me, p, a)
  {
    if Exec(s, a).Some? {
      var q := ProcOf(Exec(s, a).value, a.d);
      assert s.procs[a.d := q][me := p] == s.procs[me := p][a.d := q];
    }
  }

  lemma SubmittingCommutes(s: System, me: DriverId, p: Process, a: Step)
    requires !ActorIs(a, me) && (a.SubmitNew? || a.ReadId? || a.SubmitExists? || a.Reconcile? || a.Publish?)
    ensures Commutes(s, me, p, a)
  {
    if Exec(s, a).Some? {
      var q := ProcOf(Exec(s, a).value, a.d);
      assert s.procs[a.d := q][me := p] == s.procs[me := p][a.d := q];
    }
  }

  lemma PollingCommutes(s: System, me: DriverId, p: Process, a: Step)
    requires !ActorIs(a, me) && (a.PollLive? || a.PollEnded? || a.PollCompleted?)
    ensures Commutes(s, me, p, a)
  {
    if Exec(s, a).Some? {
      var q := ProcOf(Exec(s, a).value, a.d);
      assert s.procs[a.d := q][me := p] == s.procs[me := p][a.d := q];
    }
  }

  lemma RecordingCommutes(s: System, me: DriverId, p: Process, a: Step)
    requires !ActorIs(a, me) && (a.Announce? || a.RecordQueued? || a.RecordCompleted?)
    ensures Commutes(s, me, p, a)
  {
    if Exec(s, a).Some? {
      var q := ProcOf(Exec(s, a).value, a.d);
      ProcsCommute(s, me, p, a.d, q);
    }
  }

  lemma ProcsCommute(s: System, me: DriverId, p: Process, d: DriverId, q: Process)
    requires d != me
    ensures s.procs[d := q][me := p] == s.procs[me := p][d := q]
  {
  }

  lemma LeaveCommutes(s: System, me: DriverId, p: Process, d: DriverId)
    requires d != me && !ProcOf(s, d).Idle?
    ensures Leave(SetProc(s, me, p), d) == SetProc(Leave(s, d), me, p)
  {
    assert s.procs[d := Idle][me := p] == s.procs[me := p][d := Idle];
  }

  lemma OutputCommutes(s: System, me: DriverId, p: Process, d: DriverId, q: Process, out: Output)
    requires d != me && q.Working?
    ensures SetOutput(SetProc(s, me, p), d, q, out) == SetProc(SetOutput(s, d, q, out), me, p)
  {
    ProcsCommute(s, me, p, d, q);
  }

  lemma WritingCommutes(s: System, me: DriverId, p: Process, a: Step)
    requires !ActorIs(a, me) && (a.BeginBundle? || a.OpenManifest?)
    ensures Commutes(s, me, p, a)
  {
    if Exec(s, a).Some? {
      var q := ProcOf(s, a.d);
      assert ProcOf(SetProc(s, me, p), a.d) == q;
      if a.BeginBundle? {
        OutputCommutes(s, me, p, a.d, q.(pc := Bundling(a.fpAfter)),
          Copying(q.cfg.ids, Readable(DiskOf(s, q.cfg.out).output)));
      } else {
        OutputCommutes(s, me, p, a.d, q.(pc := Closing(q.pc.fpAfter)), Torn(q.cfg.ids));
      }
    }
  }

  lemma LeavingCommutes(s: System, me: DriverId, p: Process, a: Step)
    requires !ActorIs(a, me) && (a.Finish? || a.Crash?)
    ensures Commutes(s, me, p, a)
  {
    if Exec(s, a).Some? {
      var q := ProcOf(s, a.d);
      assert ProcOf(SetProc(s, me, p), a.d) == q;
      if a.Crash? {
        LeaveCommutes(s, me, p, a.d);
      } else {
        var m := Whole(ManifestBy(q, q.pc.fpAfter));
        OutputCommutes(s, me, p, a.d, q, m);
        LeaveCommutes(SetOutput(s, a.d, q, m), me, p, a.d);
      }
    }
  }

  lemma EndingCommutes(s: System, me: DriverId, p: Process, a: Step)
    requires !ActorIs(a, me) && a.RecordEnded?
    ensures Commutes(s, me, p, a)
  {
    if Exec(s, a).Some? {
      var q := ProcOf(s, a.d);
      assert ProcOf(SetProc(s, me, p), a.d) == q;
      var t := Recording(s, a.d, q, PatchStatus(q.pc.seen), AtLoop, q.k);
      var r := ProcOf(t, a.d);
      assert s.procs[a.d := r][me := p] == s.procs[me := p][a.d := r];
      assert Recording(SetProc(s, me, p), a.d, q, PatchStatus(q.pc.seen), AtLoop, q.k) == SetProc(t, me, p);
      LeaveCommutes(t, me, p, a.d);
    }
  }

  /** What other actors can do does not depend on how far this process has come. */
  lemma OthersCommute(s: System, me: DriverId, p: Process, a: Step)
    requires !ActorIs(a, me) && Exec(s, a).Some?
    ensures Exec(SetProc(s, me, p), a) == Some(SetProc(Exec(s, a).value, me, p))
  {
    assert Commutes(s, me, p, a) by {
      if a.Transition? || a.Ingest? || a.Rerun? {
      } else if a.RecordEnded? {
        EndingCommutes(s, me, p, a);
      } else if a.Finish? || a.Crash? {
        LeavingCommutes(s, me, p, a);
      } else if a.BeginBundle? || a.OpenManifest? {
        WritingCommutes(s, me, p, a);
      } else if a.Announce? || a.RecordQueued? || a.RecordCompleted? {
        RecordingCommutes(s, me, p, a);
      } else if a.PollLive? || a.PollEnded? || a.PollCompleted? {
        PollingCommutes(s, me, p, a);
      } else if a.SubmitNew? || a.ReadId? || a.SubmitExists? || a.Reconcile? || a.Publish? {
        SubmittingCommutes(s, me, p, a);
      } else {
        EnteringCommutes(s, me, p, a);
      }
    }
  }

  class RunCommand {
    const me: DriverId
    const cfg: Config
    const world: World

    /** The database, the out-dirs and the other processes. */
    var shared: System
    /** This process's in-memory journal. */
    var journal: Journal
    var clock: nat

    ghost var decisions: seq<Decision>
    ghost var k: nat
    ghost var pc: Pc
    /** The runs this process has submitted. */
    ghost var submitted: set<RunId>

    constructor (me: DriverId, cfg: Config, world: World, shared: System)
      ensures this.me == me && this.cfg == cfg && this.world == world && this.shared == shared && submitted == {}
    {
      this.me, this.cfg, this.world, this.shared := me, cfg, world, shared;
      journal, clock := Journal(cfg.corpus, cfg.cohort, map[]), 0;
      decisions, k, pc, submitted := [], 0, AtLoop, {};
    }

    /** The protocol state this process and its surroundings are in. */
    ghost function Now(): System
      reads this
    {
      SetProc(shared, me, Working(cfg, journal, decisions, k, pc))
    }

    ghost predicate Live()
      reads this
    {
      Reachable(Now()) && ProcOf(shared, me) == Locked(cfg)
    }

    ghost predicate Gone()
      reads this
    {
      Reachable(shared) && ProcOf(shared, me).Idle?
    }

    /** One more step of the protocol leads to a reachable state. */
    lemma Stepped(before: System, a: Step, after: System)
      requires Reachable(before) && Exec(before, a) == Some(after)
      ensures Reachable(after)
    {
      var steps :| Trace(INIT, steps, before);
      Extend(INIT, steps, before, a, after);
    }

    lemma {:induction false} Extend(s: System, steps: seq<Step>, t: System, a: Step, u: System)
      requires Trace(s, steps, t) && Exec(t, a) == Some(u)
      ensures Trace(s, steps + [a], u)
      decreases |steps|
    {
      if steps == [] {
        assert steps + [a] == [a] && [a][1..] == [];
      } else {
        Extend(Exec(s, steps[0]).value, steps[1..], t, a, u);
        assert (steps + [a])[0] == steps[0] && (steps + [a])[1..] == steps[1..] + [a];
      }
    }

    /** Anybody else moves, as often as the schedule says, before the next statement. */
    method Others()
      requires Live()
      modifies this`shared, this`clock
      ensures Live()
    {
      var todo := world.others(clock);
      clock := clock + 1;
      for i := 0 to |todo|
        invariant Live()
      {
        var a := todo[i];
        var next := Exec(shared, a);
        if !ActorIs(a, me) && next.Some? {
          ghost var before := Now();
          OthersCommute(shared, me, Working(cfg, journal, decisions, k, pc), a);
          OthersKeepMe(shared, a, me);
          shared := next.value;
          Stepped(before, a, Now());
        }
      }
    }

    lemma OthersKeepMe(s: System, a: Step, d: DriverId)
      requires !ActorIs(a, d) && Exec(s, a).Some?
      ensures ProcOf(Exec(s, a).value, d) == ProcOf(s, d)
    {
    }

    /** `_record`: patch the in-memory item, then write the whole journal. */
    method Record(rid: RecId, patch: Patch)
      modifies this`journal, this`shared
      ensures journal ==
        old(journal).(items := old(journal).items[rid := ApplyPatch(ItemOf(old(journal).items, rid), patch)])
      ensures shared ==
        old(shared).(disks := old(shared).disks[cfg.out := DiskOf(old(shared), cfg.out).(journal := Some(journal))])
    {
      if rid !in journal.items {
        journal := journal.(items := journal.items[rid := EMPTY_ITEM]);
      }
      journal := journal.(items := journal.items[rid := ApplyPatch(journal.items[rid], patch)]);
      assert journal.items == old(journal).items[rid := ApplyPatch(ItemOf(old(journal).items, rid), patch)];
      shared := shared.(disks := shared.disks[cfg.out := DiskOf(shared, cfg.out).(journal := Some(journal))]);
    }

    /** An exception unwinds through `with out_dir_lock`: the process ends and its lock is released. */
    method Unwind()
      modifies this`shared
      ensures shared == old(shared).(procs := old(shared).procs[me := Idle],
                                     disks := old(shared).disks[cfg.out := DiskOf(old(shared), cfg.out).(lock := None)])
    {
      shared := shared.(procs := shared.procs[me := Idle],
                        disks := shared.disks[cfg.out := DiskOf(shared, cfg.out).(lock := None)]);
    }

    method Raise()
      requires Live()
      modifies this`shared
      ensures Gone() && shared.runs == old(shared).runs
    {
      ghost var before := Now();
      Unwind();
      assert shared.procs == before.procs[me := Idle];
      Stepped(before, Crash(me), shared);
    }

    /** `submit_media_item_if_new`: the media item and its run are created together, or nothing happens. */
    method SubmitIfNew(path: string, rec: RecId, newRun: RunId) returns (result: Option<SubmissionResult>)
      requires newRun !in shared.runs
      modifies this`shared, this`submitted
      ensures path in old(shared).media ==> result.None? && shared == old(shared) && submitted == old(submitted)
      ensures path !in old(shared).media ==>
        && result == Some(SubmissionResult(newRun)) && submitted == old(submitted) + {newRun}
        && shared == old(shared).(media := old(shared).media + {path},
                                  runs := old(shared).runs[newRun := NewRun(path, Driver(cfg.out, rec))])
    {
      if path in shared.media {
        result := None;
      } else {
        shared := shared.(media := shared.media + {path},
                          runs := shared.runs[newRun := NewRun(path, Driver(cfg.out, rec))]);
        submitted := submitted + {newRun};
        result := Some(SubmissionResult(newRun));
      }
    }

    /** `_reconcile_run`: the one run of the path, or a refusal to guess. */
    method ReconcileRun(path: string) returns (run: Option<RunId>)
      ensures run.Some? <==> |Sole(shared.runs, path)| == 1
      ensures run.Some? ==> Sole(shared.runs, path) == {run.value}
    {
      var found := Sole(shared.runs, path);
      if |found| != 1 { return None; }
      var u :| u in found;
      SingletonSet(found, u);
      run := Some(u);
    }

    /** A run id no run has yet. */
    method NewRunId() returns (u: RunId)
      ensures u !in shared.runs
    {
      var ids := shared.runs.Keys;
      u := 0;
      while ids != {}
        invariant forall x :: x in shared.runs.Keys && x !in ids ==> x < u
        decreases ids
      {
        var x :| x in ids;
        u := if u <= x then x + 1 else u;
        ids := ids - {x};
      }
    }

    /** `_export_completed`: the export of the rows its queries see, or an exception. */
    method ExportCompleted(run: RunId) returns (e: Option<Export>)
      requires run in shared.runs
      ensures world.torn(clock).None? ==> e == ExportOf(cfg.corpus, shared.runs[run].rows)
      ensures e.Some? ==> ExportOk(cfg.corpus, e.value)
    {
      var torn := world.torn(clock);
      e := ExportOf(cfg.corpus, if torn.Some? then torn.value else shared.runs[run].rows);
    }

    /** The driver stands before statement `at` of recording number `n`. */
    ghost predicate Before(n: nat, at: Pc)
      reads this
    {
      Live() && k == n && pc == at && n < |cfg.ids|
    }

    /** Stage, announce, then submit or adopt. A fresh submission is committed and then ends the process, for
      * `run.id` does not exist on a SubmissionResult; only an adopted run is recorded and published. */
    method SubmitOne(rid: RecId) returns (run: Option<RunId>)
      requires Before(k, AtLoop) && rid == cfg.ids[k] && k < |decisions| && submitted == {}
      requires decisions[k].action.Submit? || decisions[k].action.Retry?
      modifies this`shared, this`journal, this`clock, this`pc, this`submitted
      ensures run.Some? ==> Before(old(k), Polling(run.value)) && submitted == {}
      ensures run.None? ==> Gone() && |submitted| <= 1
      ensures forall u :: u in submitted ==> u in shared.runs && shared.runs[u].origin == Driver(cfg.out, rid)
    {
      var path := StagedPath(cfg.naming, rid);
      Prepare(rid, path);
      var newRun := NewRunId();
      var result := Submitting(rid, path, newRun);
      if result.Some? {
        assert submitted == {newRun};
        Raise();
        return None;
      }
      run := AdoptOne(rid, path);
    }

    /** Stage the audio and announce the submission. */
    method Prepare(rid: RecId, path: string)
      requires Before(k, AtLoop) && rid == cfg.ids[k] && k < |decisions| && path == StagedPath(cfg.naming, rid)
      requires decisions[k].action.Submit? || decisions[k].action.Retry?
      modifies this`shared, this`journal, this`clock, this`pc
      ensures Before(old(k), Announced)
    {
      Staging();
      Others();
      Announcing(rid, path);
      Others();
    }

    /** The path is known: adopt its one run, record it, publish it. */
    method AdoptOne(rid: RecId, path: string) returns (run: Option<RunId>)
      requires Before(k, Conflicted) && rid == cfg.ids[k] && path == StagedPath(cfg.naming, rid)
      modifies this`shared, this`journal, this`clock, this`pc
      ensures run.Some? ==> Before(old(k), Polling(run.value))
      ensures run.None? ==> Gone()
    {
      Others();
      run := ReconcileRun(path);
      if run.None? {
        Raise();
        return;
      }
      Adopting(run.value);
      Others();
      Queueing(rid, run.value);
      Others();
      Publishing(run.value);
    }

    ghost method Staging()
      requires Before(k, AtLoop) && k < |decisions| && (decisions[k].action.Submit? || decisions[k].action.Retry?)
      modifies this`pc
      ensures Before(old(k), Staged)
    {
      ghost var before := Now();
      pc := Staged;
      assert Now().procs == before.procs[me := ProcOf(Now(), me)];
      Stepped(before, Stage(me), Now());
    }

    ghost method Adopting(run: RunId)
      requires Before(k, Conflicted) && Sole(shared.runs, StagedPath(cfg.naming, cfg.ids[k])) == {run}
      modifies this`pc
      ensures Before(old(k), HaveRun(run))
    {
      ghost var before := Now();
      pc := HaveRun(run);
      assert Now().procs == before.procs[me := ProcOf(Now(), me)];
      Stepped(before, Reconcile(me, run), Now());
    }

    ghost method Publishing(run: RunId)
      requires Before(k, Recorded(run))
      modifies this`pc
      ensures Before(old(k), Polling(run))
    {
      ghost var before := Now();
      pc := Polling(run);
      assert Now().procs == before.procs[me := ProcOf(Now(), me)];
      Stepped(before, Publish(me), Now());
    }

    method Announcing(rid: RecId, path: string)
      requires Before(k, Staged) && rid == cfg.ids[k] && path == StagedPath(cfg.naming, rid)
      modifies this`shared, this`journal, this`pc
      ensures Before(old(k), Announced)
    {
      ghost var before := Now();
      Record(rid, PatchSubmitting(path, cfg.naming.batch));
      pc := Announced;
      assert Now().procs == before.procs[me := ProcOf(Now(), me)];
      Stepped(before, Announce(me), Now());
    }

    method Submitting(rid: RecId, path: string, newRun: RunId) returns (result: Option<SubmissionResult>)
      requires Before(k, Announced) && rid == cfg.ids[k] && path == StagedPath(cfg.naming, rid)
        && newRun !in shared.runs
      modifies this`shared, this`pc, this`submitted
      ensures result.Some? <==> path !in old(shared).media
      ensures result.Some? ==> Before(old(k), Submitted(newRun)) && submitted == old(submitted) + {newRun}
      ensures result.Some? ==> newRun in shared.runs && shared.runs[newRun].origin == Driver(cfg.out, rid)
      ensures result.None? ==> Before(old(k), Conflicted) && submitted == old(submitted)
    {
      ghost var before := Now();
      result := SubmitIfNew(path, rid, newRun);
      pc := if result.Some? then Submitted(newRun) else Conflicted;
      assert Now().procs == before.procs[me := ProcOf(Now(), me)];
      Stepped(before, if result.Some? then SubmitNew(me, newRun) else SubmitExists(me), Now());
    }

    method Queueing(rid: RecId, run: RunId)
      requires Before(k, HaveRun(run)) && rid == cfg.ids[k]
      modifies this`shared, this`journal, this`pc
      ensures Before(old(k), Recorded(run))
    {
      ghost var before := Now();
      Record(rid, PatchQueued(run));
      pc := Recorded(run);
      assert Now().procs == before.procs[me := ProcOf(Now(), me)];
      Stepped(before, RecordQueued(me), Now());
    }

    /** Record a failure, or the live status at the deadline, and raise. */
    method Ending(rid: RecId, run: RunId, seen: Status, deadline: bool)
      requires Before(k, Polling(run)) && rid == cfg.ids[k] && run in shared.runs
      requires MapDbStatus(shared.runs[run].status) == Some(seen) && !seen.Completed?
      requires deadline || IsFailure(seen)
      modifies this`shared, this`journal, this`clock, this`pc
      ensures Gone() && Journalled(rid, seen)
    {
      SeeingEnd(run, seen, deadline);
      Others();
      RecordAndRaise(rid, run, seen);
    }

    /** The journal, in memory and on disk, holds this status for the recording. */
    ghost predicate Journalled(rid: RecId, seen: Status)
      reads this
    {
      DiskOf(shared, cfg.out).journal == Some(journal) && rid in journal.items && journal.items[rid].status == seen
    }

    method RecordAndRaise(rid: RecId, run: RunId, seen: Status)
      requires Before(k, Ended(run, seen)) && rid == cfg.ids[k]
      modifies this`shared, this`journal
      ensures Gone() && Journalled(rid, seen)
    {
      ghost var before, open := Now(), shared;
      Record(rid, PatchStatus(seen));
      Unwind();
      RecordedAndLeft(open, me, ProcOf(before, me), cfg.out, journal);
      RecordEndedExec(before, me, rid, seen);
      Stepped(before, RecordEnded(me), shared);
    }

    /** Writing the journal and then leaving, on plain states. */
    lemma RecordedAndLeft(s: System, d: DriverId, w: Process, out: OutDir, j: Journal)
      ensures var written := s.(disks := s.disks[out := DiskOf(s, out).(journal := Some(j))]);
        written.(procs := written.procs[d := Idle], disks := written.disks[out := DiskOf(written, out).(lock := None)])
        == LeftState(SetProc(s, d, w), d, out, j)
    {
      assert s.procs[d := w][d := Idle] == s.procs[d := Idle];
      var disk := DiskOf(s, out);
      assert s.disks[out := disk.(journal := Some(j))][out := disk.(journal := Some(j), lock := None)]
          == s.disks[out := disk.(journal := Some(j), lock := None)];
    }

    /** The state after a last record and the unwinding. */
    ghost function LeftState(s: System, d: DriverId, out: OutDir, j: Journal): System {
      s.(procs := s.procs[d := Idle], disks := s.disks[out := DiskOf(s, out).(journal := Some(j), lock := None)])
    }

    ghost method SeeingEnd(run: RunId, seen: Status, deadline: bool)
      requires Before(k, Polling(run)) && run in shared.runs
      requires MapDbStatus(shared.runs[run].status) == Some(seen) && !seen.Completed?
      requires deadline || IsFailure(seen)
      modifies this`pc
      ensures Before(old(k), Ended(run, seen))
    {
      ghost var before := Now();
      pc := Ended(run, seen);
      assert Now().procs == before.procs[me := ProcOf(Now(), me)];
      Stepped(before, PollEnded(me, deadline), Now());
    }

    lemma RecordEndedExec(s: System, d: DriverId, rid: RecId, seen: Status)
      requires At(ProcOf(s, d)) && ProcOf(s, d).pc.Ended? && ProcOf(s, d).pc.seen == seen
      requires rid == ProcOf(s, d).cfg.ids[ProcOf(s, d).k]
      ensures var p := ProcOf(s, d);
        var item := ApplyPatch(ItemOf(p.journal.items, rid), PatchStatus(seen));
        var j := p.journal.(items := p.journal.items[rid := item]);
        Exec(s, RecordEnded(d)) == Some(LeftState(s, d, p.cfg.out, j))
    {
      var p := ProcOf(s, d);
      var j := p.journal.(items := p.journal.items[rid := ApplyPatch(ItemOf(p.journal.items, rid), PatchStatus(seen))]);
      var t, u := Exec(s, RecordEnded(d)).value, LeftState(s, d, p.cfg.out, j);
      assert t.procs == u.procs;
      assert t.disks == u.disks;
    }

    /** The polling loop: leaves with the export of a completed run; otherwise the process is gone, and the last
      * status seen is what the journal records, unless the journal does not know that status or the export of a
      * completed run was refused: then it records nothing. */
    method PollRun(rid: RecId, run: RunId) returns (e: Option<Export>, last: Option<Status>)
      requires Before(k, Polling(run)) && rid == cfg.ids[k]
      modifies this`shared, this`journal, this`clock, this`pc
      ensures e.Some? ==> Before(old(k), Exported(run, e.value)) && journal == old(journal)
      ensures e.None? ==> Gone()
      ensures e.Some? ==> last == Some(Completed) && ExportOk(cfg.corpus, e.value)
      ensures e.None? && last.Some? && !last.value.Completed? ==> Journalled(rid, last.value)
      ensures e.None? && (last.None? || last.value.Completed?) ==> journal == old(journal)
      ensures last == Some(Completed) ==> run in shared.runs && shared.runs[run].status.DbCompleted?
      ensures last == Some(Completed) && world.torn(clock).None? ==> e == ExportOf(cfg.corpus, shared.runs[run].rows)
    {
      var polls := 0;
      while true
        invariant Before(old(k), Polling(run)) && journal == old(journal)
        invariant k == old(k) && polls <= world.maxPolls
        decreases world.maxPolls - polls
      {
        Others();
        AlwaysARunToPoll(Now(), me);
        last := MapDbStatus(shared.runs[run].status);
        if last.None? {
          Raise();
          return None, None;
        }
        if last.value.Completed? {
          e := ExportCompleted(run);
          if e.None? {
            Raise();
          } else {
            Exporting(run, e.value);
          }
          return e, last;
        }
        if IsFailure(last.value) || polls >= world.maxPolls {
          Ending(rid, run, last.value, polls >= world.maxPolls);
          return None, last;
        }
        polls := polls + 1;
      }
    }

    ghost method Exporting(run: RunId, e: Export)
      requires Before(k, Polling(run)) && run in shared.runs && shared.runs[run].status.DbCompleted?
      requires ExportOk(cfg.corpus, e)
      modifies this`pc
      ensures Before(old(k), Exported(run, e))
    {
      ghost var before := Now();
      pc := Exported(run, e);
      assert Now().procs == before.procs[me := ProcOf(Now(), me)];
      Stepped(before, PollCompleted(me, e), Now());
    }

    method Completing(rid: RecId, run: RunId, e: Export)
      requires Before(k, Exported(run, e)) && rid == cfg.ids[k]
      modifies this`shared, this`journal, this`pc, this`k
      ensures Live() && k == old(k) + 1 && pc == AtLoop
      ensures journal.items == old(journal).items[rid := ApplyPatch(ItemOf(old(journal).items, rid), PatchCompleted(e))]
    {
      ghost var before := Now();
      Record(rid, PatchCompleted(e));
      pc, k := AtLoop, k + 1;
      assert Now().procs == before.procs[me := ProcOf(Now(), me)];
      Stepped(before, RecordCompleted(me), Now());
    }

    /** `_drive_one`: returns normally only with the recording completed; otherwise the process is gone. */
    method DriveOne(rid: RecId, action: Action) returns (ok: bool)
      requires Before(k, AtLoop) && rid == cfg.ids[k] && k < |decisions| && decisions[k] == Decision(rid, action)
      requires submitted == {}
      modifies this`shared, this`journal, this`clock, this`pc, this`k, this`submitted
      ensures ok ==> Live() && k == old(k) + 1 && pc == AtLoop && submitted == {}
      ensures ok ==> (CompletedAt(Now(), cfg.out, rid) && Done(journal.items, rid))
      ensures action.Stop? ==> !ok
      ensures !ok ==> Gone() && |submitted| <= 1
    {
      if action.SkipDone? {
        Skipping();
        StillDone(rid);
        return true;
      }
      if action.Stop? {
        Raise();
        return false;
      }
      var run: Option<RunId>;
      if action.Submit? || action.Retry? {
        run := SubmitOne(rid);
        if run.None? { return false; }
      } else {
        run := ItemOf(journal.items, rid).runUuid;
        Attaching();
      }
      ok := Await(rid, run.value);
    }

    /** Poll, export, and record the completion. */
    method Await(rid: RecId, run: RunId) returns (ok: bool)
      requires Before(k, Polling(run)) && rid == cfg.ids[k]
      modifies this`shared, this`journal, this`clock, this`pc, this`k
      ensures ok ==> Live() && k == old(k) + 1 && pc == AtLoop
      ensures ok ==> CompletedAt(Now(), cfg.out, rid) && Done(journal.items, rid)
      ensures !ok ==> Gone()
    {
      var e, last := PollRun(rid, run);
      if e.None? { return false; }
      Others();
      Completing(rid, run, e.value);
      StillDone(rid);
      return true;
    }

    ghost method Skipping()
      requires Before(k, AtLoop) && k < |decisions| && decisions[k].action.SkipDone?
      modifies this`k
      ensures Live() && k == old(k) + 1
    {
      ghost var before := Now();
      k := k + 1;
      assert Now().procs == before.procs[me := ProcOf(Now(), me)];
      Stepped(before, BatchProtocol.Skip(me), Now());
    }

    ghost method Attaching()
      requires Before(k, AtLoop) && k < |decisions| && decisions[k].action.Poll?
      modifies this`pc
      ensures ItemOf(journal.items, cfg.ids[k]).runUuid.Some?
      ensures Before(old(k), Polling(ItemOf(journal.items, cfg.ids[k]).runUuid.value))
    {
      ghost var before := Now();
      AlwaysARunToPoll(before, me);
      pc := Polling(ItemOf(journal.items, cfg.ids[k]).runUuid.value);
      assert Now().procs == before.procs[me := ProcOf(Now(), me)];
      Stepped(before, Attach(me), Now());
    }

    /** `cmd_run` from the lock to the manifest. The lock is refused, never waited for; the journal is loaded
      * under it; a journal with results is honoured only under --resume. Anybody may move between any two
      * statements. A successful invocation has submitted nothing itself, and none submits more than one run. */
    method Run(fpAfter: Fingerprint) returns (ok: bool)
      requires Reachable(shared) && ProcOf(shared, me).Idle? && ConfigOk(cfg) && submitted == {}
      modifies this
      ensures Reachable(shared) && ProcOf(shared, me).Idle?
      ensures |submitted| <= 1
      ensures ok ==>
        && submitted == {}
        && Verified(cfg.fpBefore, fpAfter, cfg.env)
        && DiskOf(shared, cfg.out).output == Whole(Manifest(cfg.ids, journal.items, cfg.fpBefore, fpAfter, cfg.env))
        && DiskOf(shared, cfg.out).journal == Some(journal)
        && forall i :: 0 <= i < |cfg.ids| ==> Done(journal.items, cfg.ids[i])
    {
      if DiskOf(shared, cfg.out).lock.Some? { return false; }
      Locking();
      OthersMeanwhile();
      var planned := OpenJournal();
      if planned.None? { return false; }
      var driven := Drive(planned.value);
      if !driven { return false; }
      Others();
      ok := WriteOutput(fpAfter);
    }

    /** Load or create the journal, check it, and decide once for every recording. */
    method OpenJournal() returns (planned: Option<seq<Decision>>)
      requires Reachable(shared) && ProcOf(shared, me) == Locked(cfg) && ConfigOk(cfg)
      modifies this`shared, this`journal, this`decisions, this`k, this`pc
      ensures planned.None? ==> Gone()
      ensures planned.Some? ==> Live() && k == 0 && pc == AtLoop && decisions == planned.value && Planned(planned.value)
    {
      if DiskOf(shared, cfg.out).journal.Some? {
        journal := DiskOf(shared, cfg.out).journal.value;
        if journal.corpus != cfg.corpus || journal.cohort != cfg.cohort || (journal.items != map[] && !cfg.resume) {
          Dying();
          return None;
        }
      } else {
        journal := Journal(cfg.corpus, cfg.cohort, map[]);
      }
      var decided := PlanResume(journal, cfg.ids, cfg.resume, cfg.retryFailed);
      Loading(decided.value);
      return Some(decided.value);
    }

    predicate Planned(ds: seq<Decision>) { |ds| == |cfg.ids| && forall i :: 0 <= i < |ds| ==> ds[i].rec == cfg.ids[i] }

    /** The loop over the recordings. */
    method Drive(planned: seq<Decision>) returns (ok: bool)
      requires Live() && k == 0 && pc == AtLoop && decisions == planned && Planned(planned) && submitted == {}
      modifies this`shared, this`journal, this`clock, this`pc, this`k, this`submitted
      ensures ok ==> Live() && k == |cfg.ids| && pc == AtLoop && submitted == {}
      ensures !ok ==> Gone() && |submitted| <= 1
    {
      for n := 0 to |cfg.ids|
        invariant Live() && k == n && pc == AtLoop && decisions == planned && submitted == {}
      {
        Others();
        var done := DriveOne(cfg.ids[n], planned[n].action);
        if !done { return false; }
      }
      return true;
    }

    /** Check the fingerprints, then write the bundle and the manifest. */
    method WriteOutput(fpAfter: Fingerprint) returns (ok: bool)
      requires Live() && k == |cfg.ids| && pc == AtLoop
      modifies this`shared, this`clock, this`pc
      ensures Gone()
      ensures ok <==> Verified(cfg.fpBefore, fpAfter, cfg.env)
      ensures ok ==>
        && DiskOf(shared, cfg.out).output == Whole(Manifest(cfg.ids, journal.items, cfg.fpBefore, fpAfter, cfg.env))
        && DiskOf(shared, cfg.out).journal == Some(journal)
        && forall i :: 0 <= i < |cfg.ids| ==> Done(journal.items, cfg.ids[i])
    {
      NothingMissing(Now(), me);
      if !Verified(cfg.fpBefore, fpAfter, cfg.env) {
        Raise();
        return false;
      }
      Beginning(fpAfter);
      Others();
      Opening(fpAfter);
      Others();
      Finishing(fpAfter);
      return true;
    }

    /** Anybody else moves while this process holds the lock and has loaded nothing yet. */
    method OthersMeanwhile()
      requires Reachable(shared) && ProcOf(shared, me) == Locked(cfg)
      modifies this`shared, this`clock
      ensures Reachable(shared) && ProcOf(shared, me) == Locked(cfg)
    {
      var todo := world.others(clock);
      clock := clock + 1;
      for i := 0 to |todo|
        invariant Reachable(shared) && ProcOf(shared, me) == Locked(cfg)
      {
        var next := Exec(shared, todo[i]);
        if !ActorIs(todo[i], me) && next.Some? {
          OthersKeepMe(shared, todo[i], me);
          Stepped(shared, todo[i], next.value);
          shared := next.value;
        }
      }
    }

    /** Take the lock. */
    method Locking()
      requires Reachable(shared) && ProcOf(shared, me).Idle? && ConfigOk(cfg) && DiskOf(shared, cfg.out).lock.None?
      modifies this`shared
      ensures Reachable(shared) && ProcOf(shared, me) == Locked(cfg)
    {
      ghost var before := shared;
      shared := shared.(procs := shared.procs[me := Locked(cfg)],
                        disks := shared.disks[cfg.out := DiskOf(shared, cfg.out).(lock := Some(me))],
                        used := shared.used + {(cfg.out, cfg.naming)});
      Stepped(before, Start(me, cfg), shared);
    }

    method Dying()
      requires Reachable(shared) && ProcOf(shared, me) == Locked(cfg)
      modifies this`shared
      ensures Gone()
    {
      ghost var before := shared;
      Unwind();
      Stepped(before, Crash(me), shared);
    }

    /** Write the loaded (or new) journal back and keep the decisions. */
    method Loading(planned: seq<Decision>)
      requires Reachable(shared) && ProcOf(shared, me) == Locked(cfg) && ConfigOk(cfg)
      requires journal == Loaded(shared, me, cfg) && journal.corpus == cfg.corpus && journal.cohort == cfg.cohort
      requires journal.items == map[] || cfg.resume
      requires |planned| == |cfg.ids| && forall i :: 0 <= i < |cfg.ids| ==>
        planned[i] == Decision(cfg.ids[i], Decide(cfg.corpus, journal.items, cfg.ids[i], cfg.resume, cfg.retryFailed))
      modifies this`shared, this`decisions, this`k, this`pc
      ensures Live() && k == 0 && pc == AtLoop && decisions == planned
    {
      ghost var before := shared;
      shared := shared.(disks := shared.disks[cfg.out := DiskOf(shared, cfg.out).(journal := Some(journal))]);
      decisions, k, pc := planned, 0, AtLoop;
      assert planned == Plan(cfg, journal.items);
      Stepped(before, Load(me), Now());
    }

    /** All recordings are driven and both fingerprints agree: the bundle is being copied. */
    method Beginning(fpAfter: Fingerprint)
      requires Live() && k == |cfg.ids| && pc == AtLoop && Verified(cfg.fpBefore, fpAfter, cfg.env)
      requires Uncompleted(journal.items, cfg.ids) == 0
      modifies this`shared, this`pc
      ensures Live() && k == |cfg.ids| && pc == Bundling(fpAfter)
    {
      ghost var before := Now();
      var older := Readable(DiskOf(shared, cfg.out).output);
      shared := shared.(disks := shared.disks[cfg.out := DiskOf(shared, cfg.out).(output := Copying(cfg.ids, older))]);
      pc := Bundling(fpAfter);
      assert Now().procs == before.procs[me := ProcOf(Now(), me)];
      Stepped(before, BeginBundle(me, fpAfter), Now());
    }

    /** manifest.json is opened for writing, which truncates it. */
    method Opening(fpAfter: Fingerprint)
      requires Live() && k == |cfg.ids| && pc == Bundling(fpAfter)
      modifies this`shared, this`pc
      ensures Live() && k == |cfg.ids| && pc == Closing(fpAfter)
    {
      ghost var before := Now();
      shared := shared.(disks := shared.disks[cfg.out := DiskOf(shared, cfg.out).(output := Torn(cfg.ids))]);
      pc := Closing(fpAfter);
      assert Now().procs == before.procs[me := ProcOf(Now(), me)];
      Stepped(before, OpenManifest(me), Now());
    }

    /** The manifest is written and the lock released. */
    method Finishing(fpAfter: Fingerprint)
      requires Live() && k == |cfg.ids| && pc == Closing(fpAfter)
      modifies this`shared
      ensures Gone()
      ensures DiskOf(shared, cfg.out).output == Whole(Manifest(cfg.ids, journal.items, cfg.fpBefore, fpAfter, cfg.env))
      ensures Verified(cfg.fpBefore, fpAfter, cfg.env)
      ensures DiskOf(shared, cfg.out).journal == Some(journal)
      ensures forall i :: 0 <= i < |cfg.ids| ==> Done(journal.items, cfg.ids[i])
    {
      ghost var before, open := Now(), shared;
      ReachableInv(before);
      assert ProcOk(before, me);
      var m := Manifest(cfg.ids, journal.items, cfg.fpBefore, fpAfter, cfg.env);
      shared := shared.(disks := shared.disks[cfg.out := DiskOf(shared, cfg.out).(output := Whole(m))]);
      Unwind();
      WrittenAndLeft(open, me, ProcOf(before, me), cfg.out, Whole(m));
      FinishExec(before, me);
      Stepped(before, Finish(me), shared);
    }

    /** The state after the output is written and the process left. */
    ghost function WrittenState(s: System, d: DriverId, out: OutDir, output: Output): System {
      s.(procs := s.procs[d := Idle], disks := s.disks[out := DiskOf(s, out).(output := output, lock := None)])
    }

    lemma WrittenAndLeft(s: System, d: DriverId, w: Process, out: OutDir, output: Output)
      ensures var written := s.(disks := s.disks[out := DiskOf(s, out).(output := output)]);
        written.(procs := written.procs[d := Idle], disks := written.disks[out := DiskOf(written, out).(lock := None)])
        == WrittenState(SetProc(s, d, w), d, out, output)
    {
      assert s.procs[d := w][d := Idle] == s.procs[d := Idle];
      var disk := DiskOf(s, out);
      assert s.disks[out := disk.(output := output)][out := disk.(output := output, lock := None)]
          == s.disks[out := disk.(output := output, lock := None)];
    }

    lemma FinishExec(s: System, d: DriverId)
      requires ProcOf(s, d).Working? && ProcOf(s, d).pc.Closing?
      ensures var p := ProcOf(s, d);
        Exec(s, Finish(d)) == Some(WrittenState(s, d, p.cfg.out, Whole(ManifestBy(p, p.pc.fpAfter))))
    {
      var p := ProcOf(s, d);
      var t := Exec(s, Finish(d)).value;
      var u := WrittenState(s, d, p.cfg.out, Whole(ManifestBy(p, p.pc.fpAfter)));
      assert t.procs == u.procs;
      assert t.disks == u.disks;
    }

    /** What lies behind the loop counter is completed, in memory and on disk. */
    lemma StillDone(rid: RecId)
      requires Live() && 0 < k && k - 1 < |cfg.ids| && rid == cfg.ids[k - 1]
      ensures CompletedAt(Now(), cfg.out, rid) && Done(journal.items, rid)
    {
      ReachableInv(Now());
      assert ProcOk(Now(), me);
    }
  }
}
