/** The batch protocol on a machine that can lose power.
  *
  * A driver's journal write replaces the file at once for every reader, but is on disk for certain only once a
  * directory fsync has worked, which the code attempts and tolerates failing. So each out-dir has, besides the
  * journal readers see, the journal certainly on disk. A power loss kills every driver and leaves either of the two.
  * The database's committed transactions are taken as durable.
  */
module BatchPowerLoss {
  import opened Common
  import opened RunJournal
  import opened StagedPaths
  import opened BatchProtocol
  import opened BatchInvariant
  import opened BatchSafety

  /** `safe` has the journals certainly on disk. */
  datatype Machine = Machine(sys: System, safe: map<OutDir, Journal>)

  const START := Machine(INIT, map[])

  function SafeOf(m: Machine, o: OutDir): Option<Journal> { if o in m.safe then Some(m.safe[o]) else None }

  /** A protocol step, with or without a working directory fsync where it writes a journal; the kernel writing a
    * directory back on its own; a power loss, after which the out-dirs in `lost` have their safe journal and the
    * outputs, never fsynced, are whatever `left` says. */
  datatype Event =
    | Do(a: Step, synced: bool)
    | WriteBack(o: OutDir)
    | PowerLoss(lost: set<OutDir>, left: map<OutDir, Output>)

  /** The out-dir whose journal file a step writes. */
  function WritesTo(s: System, a: Step): Option<OutDir> {
    match a
    case Load(d) =>
      var p := ProcOf(s, d);
      if p.Locked? && DiskOf(s, p.cfg.out).journal.None? then Some(p.cfg.out) else None
    case Announce(d) => OutOf(s, d)
    case RecordQueued(d) => OutOf(s, d)
    case RecordEnded(d) => OutOf(s, d)
    case RecordCompleted(d) => OutOf(s, d)
    case _ => None
  }

  function OutOf(s: System, d: DriverId): Option<OutDir> {
    if ProcOf(s, d).Working? then Some(ProcOf(s, d).cfg.out) else None
  }

  /** What is live in `o` is on disk from now on. */
  function Flushed(m: Machine, o: OutDir): Machine {
    var live := DiskOf(m.sys, o).journal;
    m.(safe := if live.Some? then m.safe[o := live.value] else m.safe)
  }

  function JournalAfter(m: Machine, lost: set<OutDir>, o: OutDir): Option<Journal> {
    if o in lost then SafeOf(m, o) else DiskOf(m.sys, o).journal
  }

  function Outage(m: Machine, lost: set<OutDir>, left: map<OutDir, Output>): Machine {
    var s := m.sys;
    var disks := map o | o in s.disks ::
      Disk(JournalAfter(m, lost, o), None, if o in left then left[o] else s.disks[o].output);
    Machine(s.(procs := map[], disks := disks),
            map o | o in s.disks && JournalAfter(m, lost, o).Some? :: JournalAfter(m, lost, o).value)
  }

  function Happens(m: Machine, e: Event): Option<Machine> {
    match e
    case Do(a, synced) =>
      var t := Exec(m.sys, a);
      if t.None? then None
      else
        var n := m.(sys := t.value);
        var o := WritesTo(m.sys, a);
        Some(if synced && o.Some? then Flushed(n, o.value) else n)
    case WriteBack(o) => Some(Flushed(m, o))
    case PowerLoss(lost, left) => Some(Outage(m, lost, left))
  }

  ghost predicate History(m: Machine, es: seq<Event>, n: Machine)
    decreases |es|
  {
    if es == [] then m == n else Happens(m, es[0]).Some? && History(Happens(m, es[0]).value, es[1..], n)
  }

  // ------------------------------------------------------------------ what is on disk lags behind

  /** `older` is an earlier version of `newer`: no item more, and a completed item is the same. */
  predicate Behind(older: Journal, newer: Journal) {
    && older.items.Keys <= newer.items.Keys && older.corpus == newer.corpus
    && forall r :: r in older.items && older.items[r].status.Completed? ==> newer.items[r] == older.items[r]
  }

  ghost predicate SafeOk(m: Machine, o: OutDir) {
    o in m.safe ==>
      && DiskOf(m.sys, o).journal.Some? && Behind(m.safe[o], DiskOf(m.sys, o).journal.value)
      && JournalOk(m.sys, o, m.safe[o]) && exists n :: (o, n) in m.sys.used
  }

  /** The protocol's invariant, and journals on disk that are earlier versions of the live ones. */
  ghost predicate Sound(m: Machine) { Inv(m.sys) && forall o :: SafeOk(m, o) }

  lemma FlushKeeps(m: Machine, o: OutDir)
    requires Sound(m)
    ensures Sound(Flushed(m, o))
  {
    assert DiskOk(m.sys, o);
    forall p ensures SafeOk(Flushed(m, o), p) { assert SafeOk(m, p); }
  }

  /** No step takes back an item or changes a completed one. */
  lemma StepExtends(s: System, a: Step, t: System, o: OutDir)
    requires Inv(s) && Exec(s, a) == Some(t) && DiskOf(s, o).journal.Some?
    ensures DiskOf(t, o).journal.Some? && Behind(DiskOf(s, o).journal.value, DiskOf(t, o).journal.value)
  {
    JournalStays(s, a, t, o);
    var j, k := DiskOf(s, o).journal.value, DiskOf(t, o).journal.value;
    ItemsStay(s, a, t, o);
    forall r | r in j.items && j.items[r].status.Completed? ensures k.items[r] == j.items[r] {
      CompletedStep(s, a, t, o, r);
    }
  }

  lemma ItemsStay(s: System, a: Step, t: System, o: OutDir)
    requires Inv(s) && Exec(s, a) == Some(t) && DiskOf(s, o).journal.Some?
    ensures DiskOf(t, o).journal.Some? && DiskOf(s, o).journal.value.items.Keys <= DiskOf(t, o).journal.value.items.Keys
    ensures DiskOf(t, o).journal.value.corpus == DiskOf(s, o).journal.value.corpus
  {
    if Records(s, a, o) {
      assert ProcOk(s, a.d);
      RecordAdds(s, a, t, o);
    } else {
      JournalUntouched(s, a, t, o);
    }
  }

  lemma RecordAdds(s: System, a: Step, t: System, o: OutDir)
    requires Exec(s, a) == Some(t) && Records(s, a, o) && DiskOf(s, o).journal == Some(ProcOf(s, a.d).journal)
    ensures DiskOf(t, o).journal.Some? && DiskOf(s, o).journal.value.items.Keys <= DiskOf(t, o).journal.value.items.Keys
    ensures DiskOf(t, o).journal.value.corpus == DiskOf(s, o).journal.value.corpus
  {
  }

  lemma BehindTransitive(a: Journal, b: Journal, c: Journal)
    requires Behind(a, b) && Behind(b, c)
    ensures Behind(a, c)
  {
  }

  lemma DatabaseGrows(s: System, a: Step, t: System)
    requires Exec(s, a) == Some(t) && (a.SubmitNew? || a.Transition? || a.Ingest? || a.Rerun?)
    ensures Monotone(s, t)
  {
  }

  lemma DatabaseStays(s: System, a: Step, t: System)
    requires Exec(s, a) == Some(t) && !a.SubmitNew? && !a.Transition? && !a.Ingest? && !a.Rerun?
    ensures t.runs == s.runs && t.media == s.media && t.rerun == s.rerun && s.used <= t.used
  {
  }

  lemma StepMonotone(s: System, a: Step, t: System)
    requires Exec(s, a) == Some(t)
    ensures Monotone(s, t)
  {
    if a.SubmitNew? || a.Transition? || a.Ingest? || a.Rerun? {
      DatabaseGrows(s, a, t);
    } else {
      DatabaseStays(s, a, t);
    }
  }

  lemma SafeStays(m: Machine, a: Step, t: System, o: OutDir)
    requires Inv(m.sys) && SafeOk(m, o) && Exec(m.sys, a) == Some(t)
    ensures SafeOk(m.(sys := t), o)
  {
    if o in m.safe {
      StepMonotone(m.sys, a, t);
      JournalFrame(m.sys, t, o, m.safe[o]);
      StepExtends(m.sys, a, t, o);
      BehindTransitive(m.safe[o], DiskOf(m.sys, o).journal.value, DiskOf(t, o).journal.value);
      var n :| (o, n) in m.sys.used;
      assert (o, n) in t.used;
    }
  }

  /** Everything but a power loss keeps the machine sound, whatever fsync does. */
  lemma EventKeeps(m: Machine, e: Event, n: Machine)
    requires Sound(m) && Happens(m, e) == Some(n) && !e.PowerLoss?
    ensures Sound(n)
  {
    match e
    case Do(a, synced) =>
      var t := Exec(m.sys, a).value;
      InvStep(m.sys, a, t);
      forall o ensures SafeOk(m.(sys := t), o) { SafeStays(m, a, t, o); }
      if synced && WritesTo(m.sys, a).Some? { FlushKeeps(m.(sys := t), WritesTo(m.sys, a).value); }
    case WriteBack(o) => FlushKeeps(m, o);
  }

  // ------------------------------------------------------------------ power loss

  /** Every run submitted for `o` is announced in the journal on disk. */
  ghost predicate AnnouncedOnDisk(m: Machine, o: OutDir) {
    forall u :: u in m.sys.runs && m.sys.runs[u].origin.Driver? && m.sys.runs[u].origin.out == o ==>
      o in m.safe && m.sys.runs[u].origin.rec in m.safe[o].items
  }

  lemma JournalIs(m: Machine, lost: set<OutDir>, left: map<OutDir, Output>, o: OutDir)
    requires Sound(m)
    ensures DiskOf(Outage(m, lost, left).sys, o).journal == JournalAfter(m, lost, o)
    ensures DiskOf(Outage(m, lost, left).sys, o).lock.None?
  {
    assert SafeOk(m, o);
  }

  /** Write-ahead survives a power loss exactly when every run submitted for a losing out-dir is announced in its
    * journal on disk; then the whole invariant survives, and the machine is sound again. */
  lemma PowerLossExactly(m: Machine, lost: set<OutDir>, left: map<OutDir, Output>)
    requires Sound(m)
    ensures Inv(Outage(m, lost, left).sys) <==> forall o :: o in lost ==> AnnouncedOnDisk(m, o)
    ensures Inv(Outage(m, lost, left).sys) ==> Sound(Outage(m, lost, left))
  {
    if forall o :: o in lost ==> AnnouncedOnDisk(m, o) { OutageKeeps(m, lost, left); }
    if Inv(Outage(m, lost, left).sys) {
      forall o | o in lost ensures AnnouncedOnDisk(m, o) { OutageAnnounced(m, lost, left, o); }
    }
  }

  lemma OutageAnnounced(m: Machine, lost: set<OutDir>, left: map<OutDir, Output>, o: OutDir)
    requires Sound(m) && Inv(Outage(m, lost, left).sys) && o in lost
    ensures AnnouncedOnDisk(m, o)
  {
    JournalIs(m, lost, left, o);
    forall u | u in m.sys.runs && m.sys.runs[u].origin.Driver? && m.sys.runs[u].origin.out == o
      ensures o in m.safe && m.sys.runs[u].origin.rec in m.safe[o].items
    {
      assert RunOk(Outage(m, lost, left).sys, u);
    }
  }

  lemma OutageKeeps(m: Machine, lost: set<OutDir>, left: map<OutDir, Output>)
    requires Sound(m) && forall o :: o in lost ==> AnnouncedOnDisk(m, o)
    ensures Sound(Outage(m, lost, left))
  {
    var n := Outage(m, lost, left);
    forall o ensures DiskOk(n.sys, o) && SafeOk(n, o) { OutageDisk(m, lost, left, o); }
    forall d ensures ProcOk(n.sys, d) { }
    forall u ensures RunOk(n.sys, u) { OutageRun(m, lost, left, u); }
    forall u, v ensures UniqueOk(n.sys, u, v) { assert UniqueOk(m.sys, u, v); }
    forall path ensures MediaOk(n.sys, path) { assert MediaOk(m.sys, path); }
  }

  lemma OutageDisk(m: Machine, lost: set<OutDir>, left: map<OutDir, Output>, o: OutDir)
    requires Sound(m)
    ensures DiskOk(Outage(m, lost, left).sys, o) && SafeOk(Outage(m, lost, left), o)
  {
    var n := Outage(m, lost, left);
    JournalIs(m, lost, left, o);
    assert DiskOk(m.sys, o) && SafeOk(m, o);
    if JournalAfter(m, lost, o).Some? {
      JournalFrame(m.sys, n.sys, o, JournalAfter(m, lost, o).value);
      assert o in m.sys.disks;
    }
  }

  lemma OutageRun(m: Machine, lost: set<OutDir>, left: map<OutDir, Output>, u: RunId)
    requires Sound(m) && forall o :: o in lost ==> AnnouncedOnDisk(m, o)
    ensures RunOk(Outage(m, lost, left).sys, u)
  {
    assert RunOk(m.sys, u);
    if u in m.sys.runs && m.sys.runs[u].origin.Driver? {
      JournalIs(m, lost, left, m.sys.runs[u].origin.out);
    }
  }

  /** A completed recording survives a power loss exactly when the journal that is left has it completed; it is then
    * the very item it was. */
  lemma CompletedSurvivesExactly(m: Machine, lost: set<OutDir>, left: map<OutDir, Output>, o: OutDir, r: RecId)
    requires Sound(m) && CompletedAt(m.sys, o, r)
    ensures var n := Outage(m, lost, left).sys;
      && (CompletedAt(n, o, r) <==> (o in lost ==> o in m.safe && Done(m.safe[o].items, r)))
      && (CompletedAt(n, o, r) ==>
            DiskOf(n, o).journal.value.items[r] == DiskOf(m.sys, o).journal.value.items[r])
  {
    JournalIs(m, lost, left, o);
    assert SafeOk(m, o);
  }

  // ------------------------------------------------------------------ while the directory fsync works

  /** What is live is on disk. */
  ghost predicate OnDisk(m: Machine) { forall o :: SafeOf(m, o) == DiskOf(m.sys, o).journal }

  predicate EverySynced(es: seq<Event>) { forall i :: 0 <= i < |es| && es[i].Do? ==> es[i].synced }

  lemma OthersStay(s: System, a: Step, t: System, o: OutDir)
    requires Exec(s, a) == Some(t) && WritesTo(s, a) != Some(o)
    ensures DiskOf(t, o).journal == DiskOf(s, o).journal
  {
    if a.Announce? || a.RecordQueued? || a.RecordEnded? || a.RecordCompleted? {
      RecordsElsewhere(s, a, t, o);
    } else if DiskOf(s, o).journal.Some? {
      JournalUntouched(s, a, t, o);
    }
  }

  lemma RecordsElsewhere(s: System, a: Step, t: System, o: OutDir)
    requires Exec(s, a) == Some(t) && WritesTo(s, a) != Some(o)
    requires a.Announce? || a.RecordQueued? || a.RecordEnded? || a.RecordCompleted?
    ensures DiskOf(t, o).journal == DiskOf(s, o).journal
  {
  }

  lemma WrittenIsSome(s: System, a: Step, t: System, o: OutDir)
    requires Inv(s) && Exec(s, a) == Some(t) && WritesTo(s, a) == Some(o)
    ensures DiskOf(t, o).journal.Some?
  {
  }

  lemma SyncedStep(m: Machine, e: Event, n: Machine)
    requires Sound(m) && OnDisk(m) && Happens(m, e) == Some(n) && (e.Do? ==> e.synced)
    ensures Sound(n) && OnDisk(n)
  {
    if e.PowerLoss? {
      forall o ensures AnnouncedOnDisk(m, o) { AnnouncedBySync(m, o); }
      OutageKeeps(m, e.lost, e.left);
      forall o ensures SafeOf(n, o) == DiskOf(n.sys, o).journal {
        assert SafeOf(m, o) == DiskOf(m.sys, o).journal;
        JournalIs(m, e.lost, e.left, o);
      }
    } else {
      EventKeeps(m, e, n);
      forall o ensures SafeOf(n, o) == DiskOf(n.sys, o).journal {
        assert SafeOf(m, o) == DiskOf(m.sys, o).journal;
        if e.Do? {
          if WritesTo(m.sys, e.a) == Some(o) {
            WrittenIsSome(m.sys, e.a, Exec(m.sys, e.a).value, o);
          } else {
            OthersStay(m.sys, e.a, Exec(m.sys, e.a).value, o);
          }
        }
      }
    }
  }

  lemma AnnouncedBySync(m: Machine, o: OutDir)
    requires Inv(m.sys) && OnDisk(m)
    ensures AnnouncedOnDisk(m, o)
  {
    forall u | u in m.sys.runs && m.sys.runs[u].origin.Driver? && m.sys.runs[u].origin.out == o
      ensures o in m.safe && m.sys.runs[u].origin.rec in m.safe[o].items
    {
      assert RunOk(m.sys, u) && SafeOf(m, o) == DiskOf(m.sys, o).journal;
    }
  }

  /** While the directory fsync works, both results survive any history with any number of power losses: the
    * invariant, hence write-ahead, holds throughout, and a completed recording is never lost or changed. */
  lemma {:induction false} SyncedHistorySurvives(m: Machine, es: seq<Event>, n: Machine)
    requires Sound(m) && OnDisk(m) && History(m, es, n) && EverySynced(es)
    ensures Sound(n) && OnDisk(n)
    ensures forall o, r :: CompletedAt(m.sys, o, r) ==>
      CompletedAt(n.sys, o, r) && DiskOf(n.sys, o).journal.value.items[r] == DiskOf(m.sys, o).journal.value.items[r]
    decreases |es|
  {
    if es != [] {
      var k := Happens(m, es[0]).value;
      SyncedStep(m, es[0], k);
      forall o, r | CompletedAt(m.sys, o, r)
        ensures CompletedAt(k.sys, o, r)
        ensures DiskOf(k.sys, o).journal.value.items[r] == DiskOf(m.sys, o).journal.value.items[r]
      {
        CompletedOnce(m, es[0], k, o, r);
      }
      assert forall i :: 0 <= i < |es[1..]| ==> es[1..][i] == es[i + 1];
      SyncedHistorySurvives(k, es[1..], n);
    }
  }

  lemma CompletedOnce(m: Machine, e: Event, n: Machine, o: OutDir, r: RecId)
    requires Sound(m) && OnDisk(m) && Happens(m, e) == Some(n) && CompletedAt(m.sys, o, r)
    ensures CompletedAt(n.sys, o, r)
    ensures DiskOf(n.sys, o).journal.value.items[r] == DiskOf(m.sys, o).journal.value.items[r]
  {
    match e
    case Do(a, _) => CompletedStep(m.sys, a, Exec(m.sys, a).value, o, r);
    case WriteBack(_) =>
    case PowerLoss(lost, left) =>
      assert SafeOf(m, o) == DiskOf(m.sys, o).journal;
      CompletedSurvivesExactly(m, lost, left, o, r);
  }

  // ------------------------------------------------------------------ while it does not

  function Unsynced(steps: seq<Step>): (es: seq<Event>)
    ensures |es| == |steps| && forall i :: 0 <= i < |es| ==> es[i] == Do(steps[i], false)
  {
    seq(|steps|, i requires 0 <= i < |steps| => Do(steps[i], false))
  }

  lemma {:induction false} UnsyncedHistory(s: System, steps: seq<Step>, t: System)
    requires Trace(s, steps, t)
    ensures History(Machine(s, map[]), Unsynced(steps), Machine(t, map[]))
    decreases |steps|
  {
    if steps != [] {
      UnsyncedHistory(Exec(s, steps[0]).value, steps[1..], t);
      assert Unsynced(steps)[1..] == Unsynced(steps[1..]);
    }
  }

  /** The input: whatever state the drivers reach, if no directory fsync ever worked, a power loss can leave an
    * out-dir without a journal. A run they submitted then has no item, and a completed recording is not recorded. */
  lemma UnsyncedLosesEverything(s: System, o: OutDir) returns (es: seq<Event>, n: Machine)
    requires Reachable(s)
    ensures History(START, es, n) && n.sys.runs == s.runs && n.sys.media == s.media
    ensures DiskOf(n.sys, o).journal.None?
    ensures forall r :: !CompletedAt(n.sys, o, r)
    ensures (exists u :: u in s.runs && s.runs[u].origin.Driver? && s.runs[u].origin.out == o) ==> !Inv(n.sys)
  {
    var steps :| Trace(INIT, steps, s);
    UnsyncedHistory(INIT, steps, s);
    ReachableInv(s);
    var m := Machine(s, map[]);
    n := Outage(m, {o}, map[]);
    HistoryAppend(START, Unsynced(steps), m, PowerLoss({o}, map[]), n);
    es := Unsynced(steps) + [PowerLoss({o}, map[])];
    JournalIs(m, {o}, map[], o);
    if u :| u in s.runs && s.runs[u].origin.Driver? && s.runs[u].origin.out == o {
      assert !AnnouncedOnDisk(m, o);
      PowerLossExactly(m, {o}, map[]);
    }
  }

  lemma {:induction false} HistoryAppend(m: Machine, es: seq<Event>, k: Machine, e: Event, n: Machine)
    requires History(m, es, k) && Happens(k, e) == Some(n)
    ensures History(m, es + [e], n)
    decreases |es|
  {
    if es == [] {
      assert (es + [e])[1..] == [];
      assert History(n, [], n);
    } else {
      HistoryAppend(Happens(m, es[0]).value, es[1..], k, e, n);
      assert (es + [e])[1..] == es[1..] + [e];
    }
  }

  /** Histories in general: as long as every power loss finds each losing out-dir's runs announced on disk, the
    * machine stays sound, and with it everything that follows from the invariant. */
  ghost predicate Careful(m: Machine, es: seq<Event>)
    decreases |es|
  {
    es == [] || (
      && (es[0].PowerLoss? ==> forall o :: o in es[0].lost ==> AnnouncedOnDisk(m, o))
      && Happens(m, es[0]).Some? && Careful(Happens(m, es[0]).value, es[1..]))
  }

  lemma {:induction false} CarefulHistorySound(m: Machine, es: seq<Event>, n: Machine)
    requires Sound(m) && History(m, es, n) && Careful(m, es)
    ensures Sound(n)
    decreases |es|
  {
    if es != [] {
      var k := Happens(m, es[0]).value;
      if es[0].PowerLoss? { OutageKeeps(m, es[0].lost, es[0].left); } else { EventKeeps(m, es[0], k); }
      CarefulHistorySound(k, es[1..], n);
    }
  }
}
