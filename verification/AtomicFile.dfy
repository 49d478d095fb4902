/** `write_json_atomic`: temp file, fsync, rename, directory fsync, against power loss at any point.
  *
  * A file system is what live readers see (`entries`, `Inode.data`) together with what is certainly on
  * disk (`synced`, `Inode.disk`). After a power loss a directory entry is either its live or its synced
  * version, and an inode that was never fsynced holds anything at all.
  */
module AtomicFile {
  import opened Common

  type Bytes = string

  datatype Inode = Inode(data: Bytes, disk: Option<Bytes>)

  datatype Fs = Fs(inodes: map<nat, Inode>, entries: map<string, nat>, synced: map<string, nat>)

  function Entry(m: map<string, nat>, name: string): Option<nat> { if name in m then Some(m[name]) else None }

  predicate WellFormed(fs: Fs) {
    && (forall n :: n in fs.entries ==> fs.entries[n] in fs.inodes)
    && (forall n :: n in fs.synced ==> fs.synced[n] in fs.inodes)
  }

  /** What a live reader of `name` gets. */
  function Read(fs: Fs, name: string): Option<Bytes>
    requires WellFormed(fs)
  {
    if name in fs.entries then Some(fs.inodes[fs.entries[name]].data) else None
  }

  /** What a reader may get through a directory entry once the machine is back. */
  predicate Survives(fs: Fs, e: Option<nat>, r: Option<Bytes>)
    requires e.Some? ==> e.value in fs.inodes
  {
    if e.None? then r.None?
    else r.Some? && (fs.inodes[e.value].disk.Some? ==> r == fs.inodes[e.value].disk)
  }

  /** `r` is a possible content of `name` after a power loss in state `fs`. */
  predicate MayRead(fs: Fs, name: string, r: Option<Bytes>)
    requires WellFormed(fs)
  {
    Survives(fs, Entry(fs.entries, name), r) || Survives(fs, Entry(fs.synced, name), r)
  }

  // ------------------------------------------------------------------ the five steps

  function Create(fs: Fs, tmp: string, node: nat): Fs {
    fs.(inodes := fs.inodes[node := Inode("", None)], entries := fs.entries[tmp := node])
  }

  function Fill(fs: Fs, node: nat, data: Bytes): Fs { fs.(inodes := fs.inodes[node := Inode(data, None)]) }

  function Fsync(fs: Fs, node: nat): Fs
    requires node in fs.inodes
  {
    fs.(inodes := fs.inodes[node := Inode(fs.inodes[node].data, Some(fs.inodes[node].data))])
  }

  function Replace(fs: Fs, tmp: string, target: string): Fs
    requires tmp in fs.entries
  {
    fs.(entries := (fs.entries - {tmp})[target := fs.entries[tmp]])
  }

  function FsyncDir(fs: Fs): Fs { fs.(synced := fs.entries) }

  /** `mkstemp` picks a name no file has, and a new file has an inode no file has. */
  predicate Unused(fs: Fs, target: string, tmp: string, node: nat) {
    tmp != target && tmp !in fs.entries && node !in fs.inodes
  }

  /** The state after the first `n` steps; step five is skipped where the directory cannot be fsynced. */
  function After(fs: Fs, target: string, tmp: string, node: nat, data: Bytes, n: nat, dirSync: bool): (t: Fs)
    requires n <= 5 && Unused(fs, target, tmp, node)
    ensures 1 <= n ==> node in t.inodes
    ensures 1 <= n <= 3 ==> tmp in t.entries
  {
    if n == 0 then fs
    else
      var p := After(fs, target, tmp, node, data, n - 1, dirSync);
      if n == 1 then Create(p, tmp, node)
      else if n == 2 then Fill(p, node, data)
      else if n == 3 then Fsync(p, node)
      else if n == 4 then Replace(p, tmp, target)
      else if dirSync then FsyncDir(p) else p
  }

  /** The state the write is in after `n` steps, written out. */
  ghost predicate Stage(fs: Fs, target: string, tmp: string, node: nat, data: Bytes, n: nat, dirSync: bool, t: Fs) {
    && WellFormed(t)
    && (forall i :: i in fs.inodes ==> i in t.inodes && t.inodes[i] == fs.inodes[i])
    && (1 <= n ==>
          node in t.inodes
          && t.inodes[node] == Inode(if n == 1 then "" else data, if n < 3 then None else Some(data)))
    && t.synced == (if n == 5 && dirSync then t.entries else fs.synced)
    && t.entries == (if n == 0 then fs.entries
                     else if n < 4 then fs.entries[tmp := node] else fs.entries[target := node])
  }

  /** The five states the write goes through. */
  lemma {:induction false} Stages(fs: Fs, target: string, tmp: string, node: nat, data: Bytes, n: nat, dirSync: bool)
    requires n <= 5 && WellFormed(fs) && Unused(fs, target, tmp, node)
    ensures Stage(fs, target, tmp, node, data, n, dirSync, After(fs, target, tmp, node, data, n, dirSync))
  {
    if 1 <= n <= 3 {
      Stages(fs, target, tmp, node, data, n - 1, dirSync);
    } else if n == 4 {
      Stages(fs, target, tmp, node, data, 3, dirSync);
      assert fs.entries[tmp := node] - {tmp} == fs.entries;
    } else if n == 5 {
      Stages(fs, target, tmp, node, data, 4, dirSync);
    }
  }

  // ------------------------------------------------------------------ one write

  /** A reader of `name` gets `live` now; the directory version certainly on disk holds `safe`; and both
    * payloads are on disk themselves. Before the first unsynced rename the two are the same. */
  ghost predicate Holds(fs: Fs, name: string, live: Option<Bytes>, safe: Option<Bytes>) {
    && WellFormed(fs)
    && Stored(fs, Entry(fs.entries, name), live)
    && Stored(fs, Entry(fs.synced, name), safe)
  }

  ghost predicate Stored(fs: Fs, e: Option<nat>, v: Option<Bytes>) {
    if e.None? then v.None? else e.value in fs.inodes && v.Some? && fs.inodes[e.value] == Inode(v.value, v)
  }

  /** What may be read after a power loss: exactly the live payload or the safe one. */
  lemma MayReadExactly(fs: Fs, name: string, live: Option<Bytes>, safe: Option<Bytes>, r: Option<Bytes>)
    requires Holds(fs, name, live, safe)
    ensures MayRead(fs, name, r) <==> r == live || r == safe
    ensures Read(fs, name) == live
  {
  }

  /** What a write leaves, by how many of its steps were taken: the rename moves the live payload, the directory
    * fsync, if it works, the safe one. */
  lemma WriteMoves(fs: Fs, target: string, tmp: string, node: nat, data: Bytes, n: nat, dirSync: bool,
                   live: Option<Bytes>, safe: Option<Bytes>)
    requires n <= 5 && Unused(fs, target, tmp, node) && Holds(fs, target, live, safe)
    ensures Holds(After(fs, target, tmp, node, data, n, dirSync), target,
                  if n < 4 then live else Some(data), if n == 5 && dirSync then Some(data) else safe)
  {
    Stages(fs, target, tmp, node, data, n, dirSync);
  }

  /** Killed or powered off after any number of steps, every reader gets the payload live before or the new one,
    * exactly when the payload live before had reached the disk with its directory, or the new one is what lay
    * there already, or this write was carried through to a working directory fsync. */
  lemma OldOrNew(fs: Fs, target: string, tmp: string, node: nat, data: Bytes, n: nat, dirSync: bool,
                 live: Option<Bytes>, safe: Option<Bytes>)
    requires n <= 5 && Unused(fs, target, tmp, node) && Holds(fs, target, live, safe)
    ensures var t := After(fs, target, tmp, node, data, n, dirSync);
      && WellFormed(t)
      && Read(t, target) == (if n < 4 then live else Some(data))
      && ((forall r :: MayRead(t, target, r) ==> r == live || r == Some(data))
          <==> safe == live || safe == Some(data) || (n == 5 && dirSync))
  {
    WriteMoves(fs, target, tmp, node, data, n, dirSync, live, safe);
    var t := After(fs, target, tmp, node, data, n, dirSync);
    var live', safe' := if n < 4 then live else Some(data), if n == 5 && dirSync then Some(data) else safe;
    MayReadExactly(t, target, live', safe', safe');
    forall r ensures MayRead(t, target, r) <==> r == live' || r == safe' { MayReadExactly(t, target, live', safe', r); }
  }

  /** After a complete write the new payload is durable exactly when the directory could be fsynced, or it was
    * the durable one already. */
  lemma DurableExactly(fs: Fs, target: string, tmp: string, node: nat, data: Bytes, dirSync: bool,
                       live: Option<Bytes>, safe: Option<Bytes>)
    requires Unused(fs, target, tmp, node) && Holds(fs, target, live, safe)
    ensures var t := After(fs, target, tmp, node, data, 5, dirSync);
      && WellFormed(t)
      && ((forall r :: MayRead(t, target, r) ==> r == Some(data)) <==> dirSync || safe == Some(data))
  {
    WriteMoves(fs, target, tmp, node, data, 5, dirSync, live, safe);
    var t := After(fs, target, tmp, node, data, 5, dirSync);
    var safe' := if dirSync then Some(data) else safe;
    MayReadExactly(t, target, Some(data), safe', safe');
    forall r ensures MayRead(t, target, r) <==> r == Some(data) || r == safe' {
      MayReadExactly(t, target, Some(data), safe', r);
    }
  }

  /** Before its directory fsync no write changes what any other file holds; that fsync makes the other files'
    * live versions durable too. */
  lemma OthersUntouched(fs: Fs, target: string, tmp: string, node: nat, data: Bytes, n: nat, dirSync: bool,
                        other: string, live: Option<Bytes>, safe: Option<Bytes>)
    requires n <= 5 && Unused(fs, target, tmp, node)
    requires other != target && other != tmp && Holds(fs, other, live, safe)
    ensures Holds(After(fs, target, tmp, node, data, n, dirSync), other, live, if n == 5 && dirSync then live else safe)
  {
    Stages(fs, target, tmp, node, data, n, dirSync);
  }

  function Unlinked(fs: Fs, name: string): Fs { fs.(entries := fs.entries - {name}) }

  /** Unlinking the temp file after one, two or three steps leaves every file as it was. */
  lemma RaisedKeeps(fs: Fs, target: string, tmp: string, node: nat, data: Bytes, n: nat, dirSync: bool,
                    name: string, live: Option<Bytes>, safe: Option<Bytes>)
    requires n <= 3 && Unused(fs, target, tmp, node) && Holds(fs, name, live, safe)
    ensures Unlinked(After(fs, target, tmp, node, data, n, dirSync), tmp).entries == fs.entries
    ensures Holds(Unlinked(After(fs, target, tmp, node, data, n, dirSync), tmp), name, live, safe)
  {
    Stages(fs, target, tmp, node, data, n, dirSync);
    assert n > 0 ==> fs.entries[tmp := node] - {tmp} == fs.entries;
    assert fs.entries - {tmp} == fs.entries;
  }

  // ------------------------------------------------------------------ histories

  /** How a call goes: it returns; step `step` raises without effect; an exception arrives between the rename and
    * the end of the `try`; or the process is killed after some steps. */
  datatype Fate = Returns | Raises(step: nat) | RaisesRenamed | Dies(steps: nat)

  predicate PossibleFate(fate: Fate) {
    && (fate.Raises? ==> 1 <= fate.step <= 4)
    && (fate.Dies? ==> fate.steps <= 5)
  }

  /** One call: where its temp file lives, what it writes, whether the directory fsync works, how it goes. */
  datatype Write = Write(tmp: string, node: nat, data: Bytes, dirSync: bool, fate: Fate)

  predicate Possible(fs: Fs, target: string, w: Write) { Unused(fs, target, w.tmp, w.node) && PossibleFate(w.fate) }

  /** The file system after a call, however it goes. */
  function Called(fs: Fs, target: string, w: Write): Fs
    requires Possible(fs, target, w)
  {
    match w.fate
    case Returns => After(fs, target, w.tmp, w.node, w.data, 5, w.dirSync)
    case Raises(step) => Unlinked(After(fs, target, w.tmp, w.node, w.data, step - 1, w.dirSync), w.tmp)
    case RaisesRenamed => Unlinked(After(fs, target, w.tmp, w.node, w.data, 4, w.dirSync), w.tmp)
    case Dies(steps) => After(fs, target, w.tmp, w.node, w.data, steps, w.dirSync)
  }

  /** The call got as far as its rename. */
  predicate Renamed(w: Write) { w.fate.Returns? || w.fate.RaisesRenamed? || (w.fate.Dies? && w.fate.steps >= 4) }

  /** The call got as far as a working directory fsync. */
  predicate Synced(w: Write) { w.dirSync && (w.fate.Returns? || (w.fate.Dies? && w.fate.steps == 5)) }

  /** What happens to the file system: a call, the kernel writing the directory back on its own, or a power loss
    * after which the disk reads as `after`. */
  datatype Event = Call(w: Write) | WriteBack | PowerLoss(after: Fs)

  /** After a power loss each name reads as it may, and what is read is on disk. */
  ghost predicate Recovered(fs: Fs, after: Fs)
    requires WellFormed(fs)
  {
    && WellFormed(after) && after.synced == after.entries
    && (forall n :: n in after.inodes ==> after.inodes[n].disk == Some(after.inodes[n].data))
    && (forall name :: MayRead(fs, name, Read(after, name)))
  }

  ghost predicate Happens(fs: Fs, target: string, e: Event) {
    match e
    case Call(w) => Possible(fs, target, w)
    case WriteBack => true
    case PowerLoss(after) => WellFormed(fs) && Recovered(fs, after)
  }

  ghost function Next(fs: Fs, target: string, e: Event): Fs
    requires Happens(fs, target, e)
  {
    match e
    case Call(w) => Called(fs, target, w)
    case WriteBack => FsyncDir(fs)
    case PowerLoss(after) => after
  }

  ghost predicate History(fs: Fs, target: string, es: seq<Event>)
    decreases |es|
  {
    es == [] || (Happens(fs, target, es[0]) && History(Next(fs, target, es[0]), target, es[1..]))
  }

  ghost function AfterAll(fs: Fs, target: string, es: seq<Event>): Fs
    requires History(fs, target, es)
    decreases |es|
  {
    if es == [] then fs else AfterAll(Next(fs, target, es[0]), target, es[1..])
  }

  /** The two payloads of a target: what readers get, and what the disk's directory has. */
  datatype Payloads = Payloads(live: Option<Bytes>, safe: Option<Bytes>)

  /** The whole effect of an event on a target: an assignment to one or both payloads. */
  ghost function Assign(p: Payloads, target: string, e: Event): Payloads {
    match e
    case Call(w) => Payloads(if Renamed(w) then Some(w.data) else p.live, if Synced(w) then Some(w.data) else p.safe)
    case WriteBack => Payloads(p.live, p.live)
    case PowerLoss(after) => if WellFormed(after) then Payloads(Read(after, target), Read(after, target)) else p
  }

  ghost function AssignAll(p: Payloads, target: string, es: seq<Event>): Payloads
    decreases |es|
  {
    if es == [] then p else AssignAll(Assign(p, target, es[0]), target, es[1..])
  }

  lemma CallAssigns(fs: Fs, target: string, w: Write, p: Payloads)
    requires Holds(fs, target, p.live, p.safe) && Possible(fs, target, w)
    ensures Holds(Called(fs, target, w), target, Assign(p, target, Call(w)).live, Assign(p, target, Call(w)).safe)
  {
    match w.fate
    case Returns => WriteMoves(fs, target, w.tmp, w.node, w.data, 5, w.dirSync, p.live, p.safe);
    case Raises(step) => RaisedKeeps(fs, target, w.tmp, w.node, w.data, step - 1, w.dirSync, target, p.live, p.safe);
    case RaisesRenamed => WriteMoves(fs, target, w.tmp, w.node, w.data, 4, w.dirSync, p.live, p.safe);
    case Dies(steps) => WriteMoves(fs, target, w.tmp, w.node, w.data, steps, w.dirSync, p.live, p.safe);
  }

  lemma EventAssigns(fs: Fs, target: string, e: Event, p: Payloads)
    requires Holds(fs, target, p.live, p.safe) && Happens(fs, target, e)
    ensures Holds(Next(fs, target, e), target, Assign(p, target, e).live, Assign(p, target, e).safe)
  {
    match e
    case Call(w) => CallAssigns(fs, target, w, p);
    case WriteBack =>
    case PowerLoss(after) =>
  }

  /** Any history refines assignments to two payloads. Calls may return, raise anywhere, be killed after any
    * sub-step, and fail to fsync the directory; a power loss may follow anything. */
  lemma {:induction false} HistoryIsAssignment(fs: Fs, target: string, es: seq<Event>, p: Payloads)
    requires Holds(fs, target, p.live, p.safe) && History(fs, target, es)
    ensures Holds(AfterAll(fs, target, es), target, AssignAll(p, target, es).live, AssignAll(p, target, es).safe)
    decreases |es|
  {
    if es != [] {
      EventAssigns(fs, target, es[0], p);
      HistoryIsAssignment(Next(fs, target, es[0]), target, es[1..], Assign(p, target, es[0]));
    }
  }

  /** What may be read at the end of a history, now or after a power loss: the payload of the last rename, or
    * the one in place when the directory last reached the disk; nothing else, and each of the two is possible. */
  lemma HistoryReads(fs: Fs, target: string, es: seq<Event>, p: Payloads, r: Option<Bytes>)
    requires Holds(fs, target, p.live, p.safe) && History(fs, target, es)
    ensures WellFormed(AfterAll(fs, target, es))
    ensures Read(AfterAll(fs, target, es), target) == AssignAll(p, target, es).live
    ensures MayRead(AfterAll(fs, target, es), target, r)
      <==> r == AssignAll(p, target, es).live || r == AssignAll(p, target, es).safe
  {
    HistoryIsAssignment(fs, target, es, p);
    MayReadExactly(AfterAll(fs, target, es), target, AssignAll(p, target, es).live, AssignAll(p, target, es).safe, r);
  }

  /** A power loss leaves one of the two payloads. */
  lemma PowerLossChooses(fs: Fs, target: string, after: Fs, p: Payloads)
    requires Holds(fs, target, p.live, p.safe) && Recovered(fs, after)
    ensures var q := Assign(p, target, PowerLoss(after)); q.live == q.safe && (q.live == p.live || q.live == p.safe)
  {
    MayReadExactly(fs, target, p.live, p.safe, Read(after, target));
  }

  /** Every rename of the history was followed by its directory fsync. */
  predicate AllSynced(es: seq<Event>) {
    forall i :: 0 <= i < |es| ==> es[i].Call? && Renamed(es[i].w) ==> Synced(es[i].w)
  }

  /** While every rename is followed by a working directory fsync, the target is one atomic cell: at any time
    * every possible read is its one current payload. */
  lemma {:induction false} SyncedHistoryIsCell(target: string, es: seq<Event>, p: Payloads)
    requires p.live == p.safe && AllSynced(es)
    ensures AssignAll(p, target, es).live == AssignAll(p, target, es).safe
    decreases |es|
  {
    if es != [] {
      assert es[0].Call? && Renamed(es[0].w) ==> Synced(es[0].w);
      forall i | 0 <= i < |es[1..]| ensures es[1..][i].Call? && Renamed(es[1..][i].w) ==> Synced(es[1..][i].w) {
        assert es[1..][i] == es[i + 1];
      }
      SyncedHistoryIsCell(target, es[1..], Assign(p, target, es[0]));
    }
  }

  // ------------------------------------------------------------------ the method itself

  class Directory {
    var fs: Fs

    constructor (fs: Fs)
      ensures this.fs == fs
    {
      this.fs := fs;
    }

    /** `write_json_atomic`, going as `w.fate` says. */
    method WriteJsonAtomic(target: string, w: Write) returns (done: bool)
      requires WellFormed(fs) && Possible(fs, target, w)
      modifies this
      ensures done <==> w.fate.Returns?
      ensures fs == Called(old(fs), target, w)
    {
      done := w.fate.Returns?;
      var last := match w.fate
        case Returns => 5
        case Raises(step) => step - 1
        case RaisesRenamed => 4
        case Dies(n) => n;
      Steps(target, w, last);
      if w.fate.Raises? || w.fate.RaisesRenamed? { Unlink(w.tmp); }
    }

    /** The first `last` statements. */
    method Steps(target: string, w: Write, last: nat)
      requires WellFormed(fs) && Unused(fs, target, w.tmp, w.node) && last <= 5
      modifies this
      ensures fs == After(old(fs), target, w.tmp, w.node, w.data, last, w.dirSync)
    {
      ghost var f0 := fs;
      if last == 0 { return; }
      fs := Create(fs, w.tmp, w.node);
      assert fs == After(f0, target, w.tmp, w.node, w.data, 1, w.dirSync);
      if last == 1 { return; }
      fs := Fill(fs, w.node, w.data);
      assert fs == After(f0, target, w.tmp, w.node, w.data, 2, w.dirSync);
      if last == 2 { return; }
      fs := Fsync(fs, w.node);
      assert fs == After(f0, target, w.tmp, w.node, w.data, 3, w.dirSync);
      if last == 3 { return; }
      fs := Replace(fs, w.tmp, target);
      assert fs == After(f0, target, w.tmp, w.node, w.data, 4, w.dirSync);
      if last == 4 { return; }
      if w.dirSync { fs := FsyncDir(fs); }
    }

    method Unlink(name: string)
      modifies this
      ensures fs == Unlinked(old(fs), name)
    {
      fs := fs.(entries := fs.entries - {name});
    }
  }
}
