/** From `run` to `score`: the moved bundle is accepted exactly when no reference drifted in between. */
module RoundTrip {
  import opened Common
  import opened Sorting
  import opened Cohort
  import opened Bundle
  import opened ScoreCommand
  import Cropping
  import Renders

  // ------------------------------------------------------------------ the block is the attestation, reordered

  lemma PairOkSymmetric(a: RawInput, b: RawInput)
    ensures PairOk(a, b) <==> PairOk(b, a)
  {
  }

  lemma EntriesOkPermuted(raw: seq<RawInput>, ps: seq<RawInput>)
    requires Permutation(raw, ps) && EntriesOk(raw)
    ensures EntriesOk(ps)
  {
    SameElements(raw, ps);
    assert NoDup(raw) by {
      forall i, j | 0 <= i < j < |raw| ensures raw[i] != raw[j] { assert PairOk(raw[i], raw[j]); }
    }
    NoDupPermuted(raw, ps);
    forall i | 0 <= i < |ps| ensures EntryOk(ps[i]) {
      assert ps[i] in raw;
    }
    forall i, j | 0 <= i < j < |ps| ensures PairOk(ps[i], ps[j]) {
      assert ps[i] in raw && ps[j] in raw && ps[i] != ps[j];
      var p :| 0 <= p < |raw| && raw[p] == ps[i];
      var q :| 0 <= q < |raw| && raw[q] == ps[j];
      PairOkSymmetric(ps[i], ps[j]);
      assert p < q ==> PairOk(raw[p], raw[q]);
      assert q < p ==> PairOk(raw[q], raw[p]);
    }
  }

  lemma MembersDecide(raw: seq<RawInput>, ps: seq<RawInput>, id: string, role: Role)
    requires forall x :: x in raw <==> x in ps
    ensures HasEntry(raw, id, role) ==> HasEntry(ps, id, role)
    ensures HasNonNull(raw, id, role) ==> HasNonNull(ps, id, role)
  {
    if HasEntry(raw, id, role) {
      var j :| 0 <= j < |raw| && raw[j].id == id && raw[j].role == role;
      assert raw[j] in ps;
    }
    if HasNonNull(raw, id, role) {
      var j :| 0 <= j < |raw| && raw[j].id == id && raw[j].role == role && Value(raw[j]).Some?;
      assert raw[j] in ps;
    }
  }

  lemma InputsOkPermuted(raw: seq<RawInput>, ps: seq<RawInput>)
    requires Permutation(raw, ps) && InputsOk(raw)
    ensures InputsOk(ps)
  {
    SameElements(raw, ps);
    EntriesOkPermuted(raw, ps);
    forall i: int, role: Role | 0 <= i < |ps| && !role.OtherRole? ensures HasEntry(ps, ps[i].id, role) {
      assert ps[i] in raw;
      var k :| 0 <= k < |raw| && raw[k] == ps[i];
      assert HasEntry(raw, raw[k].id, role);
      MembersDecide(raw, ps, ps[i].id, role);
    }
    forall i | 0 <= i < |ps|
      ensures HasNonNull(ps, ps[i].id, WerReference) <==> HasNonNull(ps, ps[i].id, CpwerReference)
    {
      assert ps[i] in raw;
      var k :| 0 <= k < |raw| && raw[k] == ps[i];
      assert HasNonNull(raw, raw[k].id, WerReference) <==> HasNonNull(raw, raw[k].id, CpwerReference);
      MembersDecide(raw, ps, ps[i].id, WerReference);
      MembersDecide(raw, ps, ps[i].id, CpwerReference);
      MembersDecide(ps, raw, ps[i].id, WerReference);
      MembersDecide(ps, raw, ps[i].id, CpwerReference);
    }
  }

  /** An entry with both or neither of length and hash is determined by its record. */
  lemma RawBack(e: RawInput)
    requires EntryOk(e)
    ensures RawOfRecord(RecordOf(e)) == e
  {
  }

  lemma RecordBack(r: Record)
    ensures RecordOf(RawOfRecord(r)) == r
  {
  }

  /** Sorting the records of distinct entries and turning them back into entries only reorders them. */
  lemma ReorderedEntries(raw: seq<RawInput>)
    requires EntriesOk(raw)
    ensures Permutation(raw, RawsOf(Sort(KeyLe, Attested(raw))))
  {
    var records := Sort(KeyLe, Attested(raw));
    var ps := RawsOf(records);
    AttestedKeysDistinct(raw);
    DistinctKeysIdentify(Attested(raw));
    SortPermutes(KeyLe, Attested(raw));
    SameElements(Attested(raw), records);
    NoDupPermuted(Attested(raw), records);
    assert NoDup(raw) by {
      forall i, j | 0 <= i < j < |raw| ensures raw[i] != raw[j] { assert Attested(raw)[i] != Attested(raw)[j]; }
    }
    assert NoDup(ps) by {
      forall i, j | 0 <= i < j < |ps| ensures ps[i] != ps[j] {
        RecordBack(records[i]);
        RecordBack(records[j]);
      }
    }
    forall e ensures e in raw <==> e in ps {
      if e in raw { EntryKept(raw, e); }
      if e in ps {
        var i :| 0 <= i < |ps| && ps[i] == e;
        assert records[i] in Attested(raw);
        var k :| 0 <= k < |raw| && Attested(raw)[k] == records[i];
        assert EntryOk(raw[k]);
        RawBack(raw[k]);
      }
    }
    NoDupSameSet(raw, ps);
  }

  lemma EntryKept(raw: seq<RawInput>, e: RawInput)
    requires EntriesOk(raw) && e in raw
    ensures e in RawsOf(Sort(KeyLe, Attested(raw)))
  {
    var records := Sort(KeyLe, Attested(raw));
    SortPermutes(KeyLe, Attested(raw));
    SameElements(Attested(raw), records);
    var k :| 0 <= k < |raw| && raw[k] == e;
    assert Attested(raw)[k] in records;
    var i :| 0 <= i < |records| && records[i] == Attested(raw)[k];
    assert EntryOk(raw[k]);
    RawBack(raw[k]);
    assert RawsOf(records)[i] == e;
  }

  lemma SortTwice(raw: seq<RawInput>)
    requires EntriesOk(raw)
    ensures Sort(KeyLe, Attested(RawsOf(Sort(KeyLe, Attested(raw))))) == Sort(KeyLe, Attested(raw))
  {
    var records := Sort(KeyLe, Attested(raw));
    forall i | 0 <= i < |records| ensures Attested(RawsOf(records))[i] == records[i] { RecordBack(records[i]); }
    assert Attested(RawsOf(records)) == records;
    AttestedKeysDistinct(raw);
    DistinctKeysIdentify(Attested(raw));
    KeyLeIsOrder();
    SortPermutes(KeyLe, Attested(raw));
    SortForgetsOrder(KeyLe, Attested(raw));
  }

  lemma SameIds(raw: seq<RawInput>, ps: seq<RawInput>)
    requires forall x :: x in raw <==> x in ps
    ensures Ids(raw) == Ids(ps)
  {
    forall id ensures id in Ids(ps) <==> id in Ids(raw) {
      if id in Ids(ps) {
        var i :| 0 <= i < |ps| && ps[i].id == id;
        assert ps[i] in raw;
      }
      if id in Ids(raw) {
        var i :| 0 <= i < |raw| && raw[i].id == id;
        assert raw[i] in ps;
      }
    }
  }

  /** The manifest's records are the attested ones in sorted order, and they hash to what `run` claimed. */
  lemma BlockIsAttestation(corpus: string, fs: Files, rs: seq<Resolved>, envHash: string)
    requires AllReadable(fs, rs) && EntriesOk(InputsOf(fs, rs))
    ensures var b := BlockOf(corpus, fs, rs, envHash);
      && Permutation(InputsOf(fs, rs), b.inputs)
      && b.claimed == Some(CohortHash(b))
  {
    var raw := InputsOf(fs, rs);
    ReorderedEntries(raw);
    SortTwice(raw);
    var b := BlockOf(corpus, fs, rs, envHash);
    SameElements(raw, b.inputs);
    SameIds(raw, b.inputs);
  }

  // ------------------------------------------------------------------ what score reads

  /** The bundle at `out` was copied, as a whole, to `base`. */
  ghost predicate Moved(fs: Files, out: Layout, moved: Files, base: Layout) {
    forall k, id :: out.at(k, id) in fs ==> Holds(moved, base.at(k, id), fs[out.at(k, id)])
  }

  /** Nothing `score` reads of this recording changed between attestation and copy. */
  predicate Unchanged(a: Files, b: Files, r: Resolved)
    requires Copyable(a, r) && Copyable(b, r)
  {
    && a[r.reference] == b[r.reference]
    && (r.uem.Some? ==> a[r.uem.value] == b[r.uem.value])
    && (r.wer.Some? ==> a[r.wer.value] == b[r.wer.value])
    && (r.cpwer.Some? ==> a[r.cpwer.value] == b[r.cpwer.value])
  }

  lemma DistinctPrefix(rs: seq<Resolved>, n: nat)
    requires Distinct(rs) && n <= |rs|
    ensures Distinct(rs[..n])
  {
  }

  /** The entry lists name each recording once, with its bundle paths. */
  lemma {:induction false} DiarEntries(l: Layout, rs: seq<Resolved>)
    ensures |DiarsOf(l, rs)| == |rs| && forall i :: 0 <= i < |rs| ==> DiarsOf(l, rs)[i] == DiarOf(l, rs[i])
  {
    if rs != [] {
      DiarEntries(l, rs[..|rs| - 1]);
    }
  }

  lemma {:induction false} WerEntries(l: Layout, rs: seq<Resolved>)
    requires Distinct(rs)
    ensures forall e :: e in WerOf(l, rs) <==> exists i :: 0 <= i < |rs| && rs[i].wer.Some? && e == WerEntry(l, rs[i])
    ensures forall i, j :: 0 <= i < j < |WerOf(l, rs)| ==> WerOf(l, rs)[i].id != WerOf(l, rs)[j].id
  {
    if rs != [] {
      var n := |rs| - 1;
      DistinctPrefix(rs, n);
      WerEntries(l, rs[..n]);
      forall e | e in WerOf(l, rs[..n]) ensures e.id != rs[n].id {
      }
    }
  }

  lemma {:induction false} CpwerEntries(l: Layout, rs: seq<Resolved>)
    requires Distinct(rs)
    ensures forall e ::
      e in CpwerOf(l, rs) <==> exists i :: 0 <= i < |rs| && rs[i].cpwer.Some? && e == CpwerEntry(l, rs[i])
    ensures forall i, j :: 0 <= i < j < |CpwerOf(l, rs)| ==> CpwerOf(l, rs)[i].id != CpwerOf(l, rs)[j].id
  {
    if rs != [] {
      var n := |rs| - 1;
      DistinctPrefix(rs, n);
      CpwerEntries(l, rs[..n]);
      forall e | e in CpwerOf(l, rs[..n]) ensures e.id != rs[n].id {
      }
    }
  }

  /** Manifest names taken relative to `base` are the files of the moved bundle. */
  ghost predicate Relocates(l: Layout, base: string, lb: Layout) {
    && (forall k, id :: Resolve(base, l.rel(k, id)) == lb.at(k, id))
    && (forall id, streams :: lb.dump(id, streams) == l.dump(id, streams))
  }

  /** A moved bundle: written at `l` from `src`, copied to `base`, where its files are `lb`. */
  ghost predicate MovedBundle(rs: seq<Resolved>, l: Layout, src: Files, fs: Files, hyps: map<string, Hyps>,
                              moved: Files, base: string, lb: Layout) {
    Progress(l, rs, |rs|, src, fs, hyps) && Moved(fs, l, moved, lb) && Relocates(l, base, lb)
  }

  lemma StillBundled(rs: seq<Resolved>, l: Layout, src: Files, fs: Files, hyps: map<string, Hyps>,
                     moved: Files, base: string, lb: Layout, i: nat)
    requires MovedBundle(rs, l, src, fs, hyps, moved, base, lb) && i < |rs|
    ensures rs[i].id in hyps && Copyable(src, rs[i]) && Bundled(moved, lb, rs[i], src, hyps[rs[i].id])
  {
  }

  /** Wherever the bundle was moved, `score` finds every file the manifest names. */
  lemma ScoreLoads(rs: seq<Resolved>, l: Layout, src: Files, fs: Files, hyps: map<string, Hyps>,
                   moved: Files, base: string, lb: Layout)
    requires Distinct(rs) && MovedBundle(rs, l, src, fs, hyps, moved, base, lb)
    ensures EntriesFound(moved, base, DiarsOf(l, rs))
    ensures TextsFound(moved, base, WerOf(l, rs)) && TextsFound(moved, base, CpwerOf(l, rs))
  {
    DiarEntries(l, rs);
    WerEntries(l, rs);
    CpwerEntries(l, rs);
    var diar, wer, cpwer := DiarsOf(l, rs), WerOf(l, rs), CpwerOf(l, rs);
    forall i | 0 <= i < |diar| ensures EntryFound(moved, base, diar[i]) {
      StillBundled(rs, l, src, fs, hyps, moved, base, lb, i);
    }
    forall i, j | 0 <= i < j < |diar| ensures diar[i].id != diar[j].id {
    }
    forall n | 0 <= n < |wer| ensures TextFound(moved, base, wer[n]) {
      assert wer[n] in wer;
      var i :| 0 <= i < |rs| && rs[i].wer.Some? && wer[n] == WerEntry(l, rs[i]);
      StillBundled(rs, l, src, fs, hyps, moved, base, lb, i);
    }
    forall n | 0 <= n < |cpwer| ensures TextFound(moved, base, cpwer[n]) {
      assert cpwer[n] in cpwer;
      var i :| 0 <= i < |rs| && rs[i].cpwer.Some? && cpwer[n] == CpwerEntry(l, rs[i]);
      StillBundled(rs, l, src, fs, hyps, moved, base, lb, i);
    }
  }

  /** What `score` observes of a recording is what was copied into the bundle. */
  predicate ObservedAs(obs: Observed, r: Resolved, src: Files)
    requires Copyable(src, r)
  {
    && ScoredValue(obs, r.id, ReferenceRttm) == RoleObserved(src, r, ReferenceRttm)
    && ScoredValue(obs, r.id, Uem) == RoleObserved(src, r, Uem)
    && ScoredValue(obs, r.id, WerReference) == RoleObserved(src, r, WerReference)
    && ScoredValue(obs, r.id, CpwerReference) == RoleObserved(src, r, CpwerReference)
  }

  lemma ScoreObserves(rs: seq<Resolved>, l: Layout, src: Files, fs: Files, hyps: map<string, Hyps>,
                      moved: Files, base: string, lb: Layout, block: Block, obs: Observed, i: nat)
    requires Distinct(rs) && MovedBundle(rs, l, src, fs, hyps, moved, base, lb) && i < |rs|
    requires Observes(moved, base, ManifestOf(l, rs, block), obs)
    ensures Copyable(src, rs[i]) && ObservedAs(obs, rs[i], src)
  {
    StillBundled(rs, l, src, fs, hyps, moved, base, lb, i);
    DiarEntries(l, rs);
    assert DiarObserved(moved, base, DiarsOf(l, rs)[i], obs);
    ObservesWer(rs, l, moved, base, obs.wer, i);
    ObservesCpwer(rs, l, moved, base, obs.cpwer, i);
    ObservedFrom(l, moved, base, lb, obs, rs[i], src, hyps[rs[i].id]);
  }

  /** Reading a bundled recording's entries gives its observations. */
  lemma ObservedFrom(l: Layout, moved: Files, base: string, lb: Layout, obs: Observed, r: Resolved, src: Files, h: Hyps)
    requires Relocates(l, base, lb) && Copyable(src, r) && Bundled(moved, lb, r, src, h)
    requires DiarObserved(moved, base, DiarOf(l, r), obs)
    requires r.id in obs.wer <==> r.wer.Some?
    requires r.wer.Some? ==> TextObserved(moved, base, WerEntry(l, r), obs.wer)
    requires r.id in obs.cpwer <==> r.cpwer.Some?
    requires r.cpwer.Some? ==> TextObserved(moved, base, CpwerEntry(l, r), obs.cpwer)
    ensures ObservedAs(obs, r, src)
  {
  }

  lemma ObservesWer(rs: seq<Resolved>, l: Layout, moved: Files, base: string, got: map<string, Observation>, i: nat)
    requires Distinct(rs) && i < |rs|
    requires forall n :: 0 <= n < |WerOf(l, rs)| ==> TextObserved(moved, base, WerOf(l, rs)[n], got)
    requires forall id :: id in got ==> Named(WerOf(l, rs), id)
    ensures rs[i].id in got <==> rs[i].wer.Some?
    ensures rs[i].wer.Some? ==> TextObserved(moved, base, WerEntry(l, rs[i]), got)
  {
    WerEntries(l, rs);
    ScoreObservesText(moved, base, WerOf(l, rs), got, rs[i].wer.Some?, WerEntry(l, rs[i]));
  }

  lemma ObservesCpwer(rs: seq<Resolved>, l: Layout, moved: Files, base: string, got: map<string, Observation>, i: nat)
    requires Distinct(rs) && i < |rs|
    requires forall n :: 0 <= n < |CpwerOf(l, rs)| ==> TextObserved(moved, base, CpwerOf(l, rs)[n], got)
    requires forall id :: id in got ==> Named(CpwerOf(l, rs), id)
    ensures rs[i].id in got <==> rs[i].cpwer.Some?
    ensures rs[i].cpwer.Some? ==> TextObserved(moved, base, CpwerEntry(l, rs[i]), got)
  {
    CpwerEntries(l, rs);
    ScoreObservesText(moved, base, CpwerOf(l, rs), got, rs[i].cpwer.Some?, CpwerEntry(l, rs[i]));
  }

  /** A text entry is observed exactly when it was written. */
  lemma ScoreObservesText(moved: Files, base: string, es: seq<TextEntry>, got: map<string, Observation>,
                          present: bool, e: TextEntry)
    requires forall n :: 0 <= n < |es| ==> TextObserved(moved, base, es[n], got)
    requires forall id :: id in got ==> Named(es, id)
    requires (present <==> e in es) && forall x :: x in es && x.id == e.id ==> x == e
    ensures e.id in got <==> present
    ensures present ==> TextObserved(moved, base, e, got)
  {
    if present {
      var n :| 0 <= n < |es| && es[n] == e;
      assert TextObserved(moved, base, es[n], got);
    }
    if e.id in got {
      var n :| 0 <= n < |es| && es[n].id == e.id;
      assert es[n] in es;
    }
  }

  lemma ReferenceKeys(rs: seq<Resolved>, l: Layout, src0: Files, moved: Files, base: string, obs: Observed)
    requires AllReadable(src0, rs)
    requires forall i :: 0 <= i < |DiarsOf(l, rs)| ==> DiarObserved(moved, base, DiarsOf(l, rs)[i], obs)
    requires forall id :: id in obs.reference ==> exists i :: 0 <= i < |DiarsOf(l, rs)| && DiarsOf(l, rs)[i].id == id
    ensures obs.reference.Keys == Ids(InputsOf(src0, rs))
  {
    DiarEntries(l, rs);
    var raw := InputsOf(src0, rs);
    forall id | id in obs.reference.Keys ensures id in Ids(raw) {
      var i :| 0 <= i < |DiarsOf(l, rs)| && DiarsOf(l, rs)[i].id == id;
      InputAt(src0, rs, i, 0);
    }
    forall id | id in Ids(raw) ensures id in obs.reference.Keys {
      var n :| 0 <= n < |raw| && raw[n].id == id;
      InputIs(src0, rs, n);
      assert DiarObserved(moved, base, DiarsOf(l, rs)[n / 5], obs);
    }
  }

  /** Every attested record is sound exactly when nothing scored has changed since attestation. */
  lemma SoundExactly(corpus: string, src0: Files, src1: Files, rs: seq<Resolved>, b: Block, obs: Observed)
    requires b.corpus == corpus && forall i :: 0 <= i < |rs| ==> ItemOk(corpus, rs[i])
    requires AllReadable(src0, rs) && AllCopyable(src1, rs)
    requires forall x :: x in InputsOf(src0, rs) <==> x in b.inputs
    requires forall i :: 0 <= i < |rs| ==> ObservedAs(obs, rs[i], src1)
    ensures RecordsSound(b, obs) <==> forall i :: 0 <= i < |rs| ==> Unchanged(src0, src1, rs[i])
  {
    var raw := InputsOf(src0, rs);
    if RecordsSound(b, obs) {
      forall i | 0 <= i < |rs| ensures Unchanged(src0, src1, rs[i]) {
        forall k | 0 <= k < 5 ensures RecordSound(b, obs, RawOf(src0, rs[i], RoleAt(k))) {
          InputAt(src0, rs, i, k);
          assert raw[5 * i + k] in b.inputs;
        }
        UnchangedExactly(src0, src1, rs[i], b, obs);
      }
    }
    if forall i :: 0 <= i < |rs| ==> Unchanged(src0, src1, rs[i]) {
      forall n | 0 <= n < |b.inputs| ensures RecordSound(b, obs, b.inputs[n]) {
        assert b.inputs[n] in raw;
        var m :| 0 <= m < |raw| && raw[m] == b.inputs[n];
        InputIs(src0, rs, m);
        UnchangedExactly(src0, src1, rs[m / 5], b, obs);
      }
    }
  }

  lemma UnchangedExactly(src0: Files, src1: Files, r: Resolved, b: Block, obs: Observed)
    requires Readable(src0, r) && Copyable(src1, r) && ItemOk(b.corpus, r) && ObservedAs(obs, r, src1)
    ensures Unchanged(src0, src1, r) <==> forall k :: 0 <= k < 5 ==> RecordSound(b, obs, RawOf(src0, r, RoleAt(k)))
  {
    forall k | 0 <= k < 5
      ensures RecordSound(b, obs, RawOf(src0, r, RoleAt(k)))
        <==> (k == 0 || RoleObserved(src1, r, RoleAt(k)) == RoleObserved(src0, r, RoleAt(k)))
    {
    }
    assert RoleObserved(src1, r, RoleAt(1)) == RoleObserved(src0, r, RoleAt(1))
      <==> src0[r.reference] == src1[r.reference];
    if forall k :: 0 <= k < 5 ==> RecordSound(b, obs, RawOf(src0, r, RoleAt(k))) {
      assert RecordSound(b, obs, RawOf(src0, r, RoleAt(1))) && RecordSound(b, obs, RawOf(src0, r, RoleAt(2)));
      assert RecordSound(b, obs, RawOf(src0, r, RoleAt(3))) && RecordSound(b, obs, RawOf(src0, r, RoleAt(4)));
    }
  }

  lemma ScoredSets(corpus: string, src0: Files, rs: seq<Resolved>, b: Block, role: Role, ids: set<string>)
    requires ResolvedOk(corpus, rs) && AllReadable(src0, rs)
    requires forall x :: x in InputsOf(src0, rs) <==> x in b.inputs
    requires role.WerReference? || role.CpwerReference?
    requires forall i :: 0 <= i < |rs| ==> (rs[i].id in ids <==> RolePath(rs[i], role).Some?)
    requires ids <= Ids(InputsOf(src0, rs))
    ensures ScoredExactly(b.inputs, role, ids)
  {
    var raw := InputsOf(src0, rs);
    forall id ensures id in ids <==> HasNonNull(b.inputs, id, role) {
      MembersDecide(raw, b.inputs, id, role);
      MembersDecide(b.inputs, raw, id, role);
      if id in ids || HasNonNull(raw, id, role) {
        var n :| 0 <= n < |raw| && raw[n].id == id;
        InputIs(src0, rs, n);
        PresentExactly(corpus, src0, rs, n / 5, role);
      }
    }
  }

  /** The binding alone: the moved bundle's block claims its own hash, and it is acceptable exactly when nothing
    * scored changed. A changed audio file goes unnoticed, for its bytes are not read at score time. */
  lemma BindsExactly(corpus: string, envHash: string, rs: seq<Resolved>, src0: Files, src1: Files, l: Layout, fs: Files,
                     hyps: map<string, Hyps>, moved: Files, base: string, lb: Layout, obs: Observed)
    requires ResolvedOk(corpus, rs) && AllReadable(src0, rs) && AllCopyable(src1, rs)
    requires MovedBundle(rs, l, src1, fs, hyps, moved, base, lb)
    requires Observes(moved, base, ManifestOf(l, rs, BlockOf(corpus, src0, rs, envHash)), obs)
    ensures var b := BlockOf(corpus, src0, rs, envHash);
      && b.claimed == Some(CohortHash(b))
      && (Acceptable(b, obs) <==> forall i :: 0 <= i < |rs| ==> Unchanged(src0, src1, rs[i]))
  {
    var b := BlockOf(corpus, src0, rs, envHash);
    BlockSound(corpus, envHash, rs, src0, b);
    assert Distinct(rs);
    ScoreWerSet(corpus, rs, src0, l, moved, base, b, obs.wer);
    ScoreCpwerSet(corpus, rs, src0, l, moved, base, b, obs.cpwer);
    ScoreSide(corpus, rs, src0, src1, l, fs, hyps, moved, base, lb, b, obs);
    AcceptableWhenSound(b, obs);
  }

  /** The attesting side: a well-formed block with the attested entries and the claimed hash. */
  lemma BlockSound(corpus: string, envHash: string, rs: seq<Resolved>, src0: Files, b: Block)
    requires ResolvedOk(corpus, rs) && AllReadable(src0, rs) && b == BlockOf(corpus, src0, rs, envHash)
    ensures InputsOk(b.inputs) && b.claimed == Some(CohortHash(b))
    ensures forall x :: x in InputsOf(src0, rs) <==> x in b.inputs
    ensures b.schemaVersion == SCHEMA_VERSION && b.corpus == corpus && corpus in {"ami", "voxconverse"} && b.envOk
  {
    AttestationOk(corpus, src0, rs);
    BlockIsAttestation(corpus, src0, rs, envHash);
    SameElements(InputsOf(src0, rs), b.inputs);
    InputsOkPermuted(InputsOf(src0, rs), b.inputs);
  }

  lemma AcceptableWhenSound(b: Block, obs: Observed)
    requires b.schemaVersion == SCHEMA_VERSION && b.corpus in {"ami", "voxconverse"} && b.envOk
    requires InputsOk(b.inputs) && b.claimed == Some(CohortHash(b)) && obs.reference.Keys == Ids(b.inputs)
    requires ScoredExactly(b.inputs, WerReference, obs.wer.Keys)
      && ScoredExactly(b.inputs, CpwerReference, obs.cpwer.Keys)
    ensures Acceptable(b, obs) <==> RecordsSound(b, obs)
  {
  }

  /** The scored sets are exactly the recordings with that reference. */
  lemma ScoreWerSet(corpus: string, rs: seq<Resolved>, src0: Files, l: Layout, moved: Files, base: string, b: Block,
                    got: map<string, Observation>)
    requires ResolvedOk(corpus, rs) && Distinct(rs) && AllReadable(src0, rs)
    requires forall n :: 0 <= n < |WerOf(l, rs)| ==> TextObserved(moved, base, WerOf(l, rs)[n], got)
    requires forall id :: id in got ==> Named(WerOf(l, rs), id)
    requires forall x :: x in InputsOf(src0, rs) <==> x in b.inputs
    ensures ScoredExactly(b.inputs, WerReference, got.Keys)
  {
    WerKeysAreIds(rs, l, src0, got);
    forall i | 0 <= i < |rs| ensures rs[i].id in got <==> rs[i].wer.Some? {
      ObservesWer(rs, l, moved, base, got, i);
    }
    ScoredSets(corpus, src0, rs, b, WerReference, got.Keys);
  }

  lemma ScoreCpwerSet(corpus: string, rs: seq<Resolved>, src0: Files, l: Layout, moved: Files, base: string, b: Block,
                    got: map<string, Observation>)
    requires ResolvedOk(corpus, rs) && Distinct(rs) && AllReadable(src0, rs)
    requires forall n :: 0 <= n < |CpwerOf(l, rs)| ==> TextObserved(moved, base, CpwerOf(l, rs)[n], got)
    requires forall id :: id in got ==> Named(CpwerOf(l, rs), id)
    requires forall x :: x in InputsOf(src0, rs) <==> x in b.inputs
    ensures ScoredExactly(b.inputs, CpwerReference, got.Keys)
  {
    CpwerKeysAreIds(rs, l, src0, got);
    forall i | 0 <= i < |rs| ensures rs[i].id in got <==> rs[i].cpwer.Some? {
      ObservesCpwer(rs, l, moved, base, got, i);
    }
    ScoredSets(corpus, src0, rs, b, CpwerReference, got.Keys);
  }

  lemma ReferenceSide(rs: seq<Resolved>, src0: Files, l: Layout, moved: Files, base: string, b: Block, obs: Observed)
    requires AllReadable(src0, rs) && Observes(moved, base, ManifestOf(l, rs, b), obs)
    requires forall x :: x in InputsOf(src0, rs) <==> x in b.inputs
    ensures obs.reference.Keys == Ids(b.inputs)
  {
    SameIds(InputsOf(src0, rs), b.inputs);
    ReferenceKeys(rs, l, src0, moved, base, obs);
  }

  /** The scoring side: the scored sets are right, and the records agree exactly when nothing changed. */
  lemma ScoreSide(corpus: string, rs: seq<Resolved>, src0: Files, src1: Files, l: Layout, fs: Files,
                  hyps: map<string, Hyps>, moved: Files, base: string, lb: Layout, b: Block, obs: Observed)
    requires ResolvedOk(corpus, rs) && Distinct(rs) && AllReadable(src0, rs) && AllCopyable(src1, rs)
      && b.corpus == corpus
    requires MovedBundle(rs, l, src1, fs, hyps, moved, base, lb)
    requires Observes(moved, base, ManifestOf(l, rs, b), obs)
    requires forall x :: x in InputsOf(src0, rs) <==> x in b.inputs
    ensures obs.reference.Keys == Ids(b.inputs)
    ensures RecordsSound(b, obs) <==> forall i :: 0 <= i < |rs| ==> Unchanged(src0, src1, rs[i])
  {
    ReferenceSide(rs, src0, l, moved, base, b, obs);
    forall i | 0 <= i < |rs| ensures ObservedAs(obs, rs[i], src1) {
      ScoreObserves(rs, l, src1, fs, hyps, moved, base, lb, b, obs, i);
    }
    SoundExactly(corpus, src0, src1, rs, b, obs);
  }

  lemma WerKeysAreIds(rs: seq<Resolved>, l: Layout, src0: Files, got: map<string, Observation>)
    requires Distinct(rs) && AllReadable(src0, rs)
    requires forall id :: id in got ==> Named(WerOf(l, rs), id)
    ensures got.Keys <= Ids(InputsOf(src0, rs))
  {
    WerEntries(l, rs);
    forall id | id in got.Keys ensures id in Ids(InputsOf(src0, rs)) {
      var n :| 0 <= n < |WerOf(l, rs)| && WerOf(l, rs)[n].id == id;
      assert WerOf(l, rs)[n] in WerOf(l, rs);
      var i :| 0 <= i < |rs| && rs[i].wer.Some? && WerOf(l, rs)[n] == WerEntry(l, rs[i]);
      InputAt(src0, rs, i, 0);
    }
  }

  lemma CpwerKeysAreIds(rs: seq<Resolved>, l: Layout, src0: Files, got: map<string, Observation>)
    requires Distinct(rs) && AllReadable(src0, rs)
    requires forall id :: id in got ==> Named(CpwerOf(l, rs), id)
    ensures got.Keys <= Ids(InputsOf(src0, rs))
  {
    CpwerEntries(l, rs);
    forall id | id in got.Keys ensures id in Ids(InputsOf(src0, rs)) {
      var n :| 0 <= n < |CpwerOf(l, rs)| && CpwerOf(l, rs)[n].id == id;
      assert CpwerOf(l, rs)[n] in CpwerOf(l, rs);
      var i :| 0 <= i < |rs| && rs[i].cpwer.Some? && CpwerOf(l, rs)[n] == CpwerEntry(l, rs[i]);
      InputAt(src0, rs, i, 0);
    }
  }

  // ------------------------------------------------------------------ the scorers, on what was bundled

  function AllSome(xs: seq<string>): (os: seq<Option<string>>)
    ensures |os| == |xs| && forall i :: 0 <= i < |xs| ==> os[i] == Some(xs[i])
  {
    seq(|xs|, i requires 0 <= i < |xs| => Some(xs[i]))
  }

  /** A stream dictionary as JSON gives it back. */
  function Lifted(streams: map<string, seq<string>>): Streams {
    map key | key in streams :: Words(AllSome(streams[key]))
  }

  /** JSON gives back what was dumped. */
  ghost predicate Spells(sc: Scorer, l: Layout) {
    forall id, streams :: sc.load(l.dump(id, streams)) == Some(StreamDoc(Some(id), Some(Lifted(streams))))
  }

  /** A recording's cpWER reference, as copied, can be scored. */
  ghost predicate ReferenceScores(sc: Scorer, r: Resolved, src: Files)
    requires Copyable(src, r) && r.cpwer.Some?
  {
    var loaded := LoadCpwerStreams(sc, src[r.cpwer.value], r.id);
    loaded.Ok? && ReferenceFit(sc, loaded.value)
  }

  /** Its hypothesis can be scored and assigns every word. */
  ghost predicate HypothesisScores(streams: map<string, seq<string>>) {
    HypothesisFit(Lifted(streams)) && Unassigned(Lifted(streams)) == 0
  }

  ghost predicate CpwerScores(sc: Scorer, r: Resolved, src: Files, h: Hyps)
    requires Copyable(src, r)
  {
    r.cpwer.Some? ==> ReferenceScores(sc, r, src) && HypothesisScores(h.streams)
  }

  /** Every recording's files are in the moved bundle. */
  ghost predicate AllBundled(rs: seq<Resolved>, src: Files, hyps: map<string, Hyps>, moved: Files, lb: Layout) {
    forall i :: 0 <= i < |rs| ==>
      rs[i].id in hyps && Copyable(src, rs[i]) && Bundled(moved, lb, rs[i], src, hyps[rs[i].id])
  }

  function DiarScored(r: Resolved, src: Files, h: Hyps): DiarInput
    requires Copyable(src, r)
  {
    DiarInput(r.id, src[r.reference], h.rttm, if r.uem.Some? then Some(src[r.uem.value]) else None)
  }

  /** What the diarization scorer is given: corpus bytes and exported hypotheses, wherever the bundle lies. */
  function DiarsScored(rs: seq<Resolved>, src: Files, hyps: map<string, Hyps>): (xs: seq<DiarInput>)
    requires forall i :: 0 <= i < |rs| ==> rs[i].id in hyps && Copyable(src, rs[i])
    ensures |xs| == |rs| && forall i :: 0 <= i < |rs| ==> xs[i] == DiarScored(rs[i], src, hyps[rs[i].id])
  {
    seq(|rs|, i requires 0 <= i < |rs| => DiarScored(rs[i], src, hyps[rs[i].id]))
  }

  /** What the WER scorer is given. */
  function TextsScored(rs: seq<Resolved>, src: Files, hyps: map<string, Hyps>): seq<TextInput>
    requires forall i :: 0 <= i < |rs| ==> rs[i].id in hyps && Copyable(src, rs[i])
  {
    if rs == [] then []
    else
      var r := rs[|rs| - 1];
      assert Copyable(src, r);
      TextsScored(rs[..|rs| - 1], src, hyps)
      + (if r.wer.Some? then [TextInput(r.id, src[r.wer.value], hyps[r.id].werText)] else [])
  }

  lemma DiarInputsAre(rs: seq<Resolved>, l: Layout, src: Files, hyps: map<string, Hyps>, moved: Files, base: string,
                      lb: Layout)
    requires AllBundled(rs, src, hyps, moved, lb) && Relocates(l, base, lb)
    requires EntriesFound(moved, base, DiarsOf(l, rs))
    ensures DiarInputs(moved, base, DiarsOf(l, rs)) == DiarsScored(rs, src, hyps)
  {
    DiarEntries(l, rs);
    forall i | 0 <= i < |rs| ensures DiarInputs(moved, base, DiarsOf(l, rs))[i] == DiarsScored(rs, src, hyps)[i] {
      DiarInputIs(l, rs[i], src, hyps[rs[i].id], moved, base, lb);
    }
  }

  lemma DiarInputIs(l: Layout, r: Resolved, src: Files, h: Hyps, moved: Files, base: string, lb: Layout)
    requires Copyable(src, r) && Bundled(moved, lb, r, src, h) && Relocates(l, base, lb)
    ensures EntryFound(moved, base, DiarOf(l, r))
    ensures DiarInputOf(moved, base, DiarOf(l, r)) == DiarScored(r, src, h)
  {
  }

  lemma {:induction false} TextInputsAre(rs: seq<Resolved>, l: Layout, src: Files, hyps: map<string, Hyps>,
                                         moved: Files, base: string, lb: Layout)
    requires AllBundled(rs, src, hyps, moved, lb) && Relocates(l, base, lb)
    requires forall i :: 0 <= i < |WerOf(l, rs)| ==> TextFound(moved, base, WerOf(l, rs)[i])
    ensures TextInputs(moved, base, WerOf(l, rs)) == TextsScored(rs, src, hyps)
  {
    if rs != [] {
      var n := |rs| - 1;
      var ws := WerOf(l, rs[..n]);
      assert forall i :: 0 <= i < |ws| ==> WerOf(l, rs)[i] == ws[i];
      TextInputsAre(rs[..n], l, src, hyps, moved, base, lb);
      assert AllBundled(rs, src, hyps, moved, lb) && Bundled(moved, lb, rs[n], src, hyps[rs[n].id]);
      assert TextInputs(moved, base, WerOf(l, rs))
        == TextInputs(moved, base, ws)
           + (if rs[n].wer.Some? then [TextInputOf(moved, base, WerEntry(l, rs[n]))] else []);
    }
  }

  /** A cpWER entry loads and scores exactly when the recording does. */
  lemma EntryPasses(sc: Scorer, l: Layout, r: Resolved, src: Files, h: Hyps, moved: Files, base: string, lb: Layout)
    requires Copyable(src, r) && Bundled(moved, lb, r, src, h) && Relocates(l, base, lb) && Spells(sc, l)
      && r.cpwer.Some?
    ensures var e := CpwerEntry(l, r);
      EntryLoads(sc, moved, base, e) && EntryScores(sc, moved, base, e)
      <==> ReferenceScores(sc, r, src) && HypothesisScores(h.streams)
  {
    var e := CpwerEntry(l, r);
    assert moved[Resolve(base, e.reference)] == src[r.cpwer.value];
    assert moved[Resolve(base, e.hypothesis)] == l.dump(r.id, h.streams);
  }

  lemma CpwerSide(sc: Scorer, rs: seq<Resolved>, l: Layout, src: Files, hyps: map<string, Hyps>, moved: Files,
                  base: string, lb: Layout)
    requires Distinct(rs) && AllBundled(rs, src, hyps, moved, lb) && Relocates(l, base, lb) && Spells(sc, l)
    ensures (forall n :: 0 <= n < |CpwerOf(l, rs)| ==>
               EntryLoads(sc, moved, base, CpwerOf(l, rs)[n]) && EntryScores(sc, moved, base, CpwerOf(l, rs)[n]))
      <==> forall i :: 0 <= i < |rs| ==> CpwerScores(sc, rs[i], src, hyps[rs[i].id])
  {
    CpwerEntries(l, rs);
    var es := CpwerOf(l, rs);
    if forall i :: 0 <= i < |rs| ==> CpwerScores(sc, rs[i], src, hyps[rs[i].id]) {
      forall n | 0 <= n < |es| ensures EntryLoads(sc, moved, base, es[n]) && EntryScores(sc, moved, base, es[n]) {
        assert es[n] in es;
        var i :| 0 <= i < |rs| && rs[i].cpwer.Some? && es[n] == CpwerEntry(l, rs[i]);
        EntryPasses(sc, l, rs[i], src, hyps[rs[i].id], moved, base, lb);
        assert CpwerScores(sc, rs[i], src, hyps[rs[i].id]);
      }
    }
    if forall n :: 0 <= n < |es| ==> EntryLoads(sc, moved, base, es[n]) && EntryScores(sc, moved, base, es[n]) {
      forall i | 0 <= i < |rs| ensures CpwerScores(sc, rs[i], src, hyps[rs[i].id]) {
        if rs[i].cpwer.Some? {
          assert CpwerEntry(l, rs[i]) in es;
          var n :| 0 <= n < |es| && es[n] == CpwerEntry(l, rs[i]);
          EntryPasses(sc, l, rs[i], src, hyps[rs[i].id], moved, base, lb);
        }
      }
    }
  }

  /** The scorers, given what was bundled, refuse nothing. */
  ghost predicate ScorersAccept(sc: Scorer, rs: seq<Resolved>, src: Files, hyps: map<string, Hyps>)
    requires forall i :: 0 <= i < |rs| ==> rs[i].id in hyps && Copyable(src, rs[i])
  {
    && sc.diarization(DiarsScored(rs, src, hyps))
    && (TextsScored(rs, src, hyps) != [] ==> sc.wer(TextsScored(rs, src, hyps)))
    && forall i :: 0 <= i < |rs| ==> CpwerScores(sc, rs[i], src, hyps[rs[i].id])
  }

  /** Loading and scoring depend on what was bundled, not on where the bundle was moved. */
  lemma ScoresExactly(sc: Scorer, rs: seq<Resolved>, l: Layout, src: Files, fs: Files, hyps: map<string, Hyps>,
                      moved: Files, base: string, lb: Layout, block: Block)
    requires Distinct(rs) && rs != [] && MovedBundle(rs, l, src, fs, hyps, moved, base, lb) && Spells(sc, l)
    requires AllBundled(rs, src, hyps, moved, lb)
    ensures var m := ManifestOf(l, rs, block);
      Loads(sc, moved, base, m) && Scores(sc, moved, base, m) <==> ScorersAccept(sc, rs, src, hyps)
  {
    ScoreLoads(rs, l, src, fs, hyps, moved, base, lb);
    DiarEntries(l, rs);
    DiarInputsAre(rs, l, src, hyps, moved, base, lb);
    TextInputsAre(rs, l, src, hyps, moved, base, lb);
    CpwerSide(sc, rs, l, src, hyps, moved, base, lb);
    assert |WerOf(l, rs)| == |TextInputs(moved, base, WerOf(l, rs))|;
  }

  /** The round trip. A bundle written at `l` from the corpus as it then was (`src1`), attested from the corpus as
    * it was at the start (`src0`), and moved anywhere: `score` accepts it exactly when no reference, UEM or
    * transcript changed between the two, the scorers accept the copied references and the hypotheses, and no
    * hypothesis leaves a word unassigned. Where the bundle lies plays no part. */
  lemma RunToScore(sc: Scorer, corpus: string, envHash: string, rs: seq<Resolved>, src0: Files, src1: Files, l: Layout,
                   fs: Files, hyps: map<string, Hyps>, moved: Files, base: string, lb: Layout)
    requires ResolvedOk(corpus, rs) && AllReadable(src0, rs) && AllCopyable(src1, rs) && Spells(sc, l)
    requires MovedBundle(rs, l, src1, fs, hyps, moved, base, lb) && forall i :: 0 <= i < |rs| ==> rs[i].id in hyps
    ensures var m := ManifestOf(l, rs, BlockOf(corpus, src0, rs, envHash));
      Accepted(sc, moved, base, m) <==>
        (forall i :: 0 <= i < |rs| ==> Unchanged(src0, src1, rs[i])) && ScorersAccept(sc, rs, src1, hyps)
  {
    var m := ManifestOf(l, rs, BlockOf(corpus, src0, rs, envHash));
    forall i | 0 <= i < |rs| ensures Bundled(moved, lb, rs[i], src1, hyps[rs[i].id]) {
      StillBundled(rs, l, src1, fs, hyps, moved, base, lb, i);
    }
    DiarEntries(l, rs);
    ScoresExactly(sc, rs, l, src1, fs, hyps, moved, base, lb, BlockOf(corpus, src0, rs, envHash));
    if Loads(sc, moved, base, m) {
      var obs := SomeObserved(moved, base, m);
      BindsByAny(moved, base, m, obs);
      BindsExactly(corpus, envHash, rs, src0, src1, l, fs, hyps, moved, base, lb, obs);
    }
  }

  // ------------------------------------------------------------------ hypotheses as the export makes them

  /** The diarization labels among the kept words; None is a word whose segment has none. */
  function Labels(kept: seq<Renders.KeptWord>): set<Option<string>> { set i | 0 <= i < |kept| :: kept[i].speaker }

  /** Every kept word has a label. */
  predicate Labelled(kept: seq<Renders.KeptWord>) { None !in Labels(kept) }

  predicate WordFit(k: Renders.KeptWord) {
    Renders.Strip(k.text) != "" && (k.speaker.Some? ==> Renders.Strip(k.speaker.value) != "")
  }

  /** What the export guards: no blank label, no blank word. */
  ghost predicate WordsFit(kept: seq<Renders.KeptWord>) { forall i :: 0 <= i < |kept| ==> WordFit(kept[i]) }

  lemma StripTwice(s: string)
    requires Renders.Strip(s) != ""
    ensures Renders.Strip(Renders.Strip(s)) != ""
  {
  }

  /** The export's guards give fit words. */
  lemma ExportedFit(rows: seq<Renders.SegmentRow>, rs: seq<Cropping.Region>)
    requires forall i :: 0 <= i < |rows| ==> Renders.Exportable(rows[i])
    ensures WordsFit(Renders.KeptOf(Renders.ShapedAll(rows), rs))
  {
    var segs := Renders.ShapedAll(rows);
    var kept := Renders.KeptOf(segs, rs);
    forall n | 0 <= n < |kept| ensures WordFit(kept[n]) {
      Renders.KeptExactly(segs, rs, kept[n]);
      var i: nat, j: nat :| Renders.KeptAt(segs, rs, i, j, kept[n]);
      assert Renders.Exportable(rows[i]);
      StripTwice(segs[i].words[j].token.value);
    }
  }

  lemma {:induction false} StreamWords(ts: seq<Renders.Tagged>, key: string, n: nat)
    requires n < |Renders.StreamOf(ts, key)|
    ensures exists i :: 0 <= i < |ts| && ts[i].text == Renders.StreamOf(ts, key)[n]
  {
    var last := |ts| - 1;
    var p := Renders.StreamOf(ts[..last], key);
    if n < |p| {
      StreamWords(ts[..last], key, n);
      var i :| 0 <= i < last && ts[..last][i].text == p[n];
      assert ts[i].text == p[n];
    } else {
      assert ts[last].text == Renders.StreamOf(ts, key)[n];
    }
  }

  lemma {:induction false} PresentIsNotEmpty(ts: seq<Renders.Tagged>, i: nat)
    requires i < |ts|
    ensures Renders.StreamOf(ts, ts[i].key) != []
  {
    if i < |ts| - 1 {
      assert ts[..|ts| - 1][i] == ts[i];
      PresentIsNotEmpty(ts[..|ts| - 1], i);
    }
  }

  /** As many stream keys as labels: the encoding is injective. */
  lemma {:induction false} EncodedCount(labels: set<Option<string>>)
    ensures |set l | l in labels :: Renders.EncodeLabel(l)| == |labels|
    decreases |labels|
  {
    var keys := set l | l in labels :: Renders.EncodeLabel(l);
    if labels == {} {
      assert keys == {};
    } else {
      var x :| x in labels;
      var rest := labels - {x};
      var restKeys := set l | l in rest :: Renders.EncodeLabel(l);
      EncodedCount(rest);
      forall l | l in rest ensures Renders.EncodeLabel(l) != Renders.EncodeLabel(x) { Renders.EncodeInjective(l, x); }
      assert keys == restKeys + {Renders.EncodeLabel(x)};
    }
  }

  lemma KeysAreLabels(kept: seq<Renders.KeptWord>, s: Renders.Streams)
    requires Renders.IsStreams(Renders.TagKept(kept), s)
    ensures s.of.Keys == set l | l in Labels(kept) :: Renders.EncodeLabel(l)
  {
    var ts := Renders.TagKept(kept);
    forall key ensures key in s.of.Keys <==> exists l :: l in Labels(kept) && key == Renders.EncodeLabel(l) {
      assert key in s.of <==> Renders.HasKey(ts, key);
      if Renders.HasKey(ts, key) {
        var i :| 0 <= i < |ts| && ts[i].key == key;
        assert kept[i].speaker in Labels(kept);
      }
      if l :| l in Labels(kept) && key == Renders.EncodeLabel(l) {
        var i :| 0 <= i < |kept| && kept[i].speaker == l;
        assert ts[i].key == key;
      }
    }
  }

  lemma StreamFits(kept: seq<Renders.KeptWord>, s: Renders.Streams, key: string)
    requires Renders.IsStreams(Renders.TagKept(kept), s) && WordsFit(kept) && key in s.of
    ensures StreamOk(Lifted(s.of), key, true)
  {
    var ts := Renders.TagKept(kept);
    assert Renders.HasKey(ts, key);
    var i :| 0 <= i < |ts| && ts[i].key == key;
    assert WordFit(kept[i]);
    KeyFits(kept[i].speaker);
    forall n | 0 <= n < |s.of[key]| ensures WordOk(AllSome(s.of[key])[n]) {
      StreamWords(ts, key, n);
      var j :| 0 <= j < |ts| && ts[j].text == s.of[key][n];
      assert WordFit(kept[j]);
    }
  }

  lemma KeyFits(speaker: Option<string>)
    requires speaker.Some? ==> Renders.Strip(speaker.value) != ""
    ensures KeyOk(Renders.EncodeLabel(speaker), true)
  {
    if speaker.Some? {
      Renders.EncodeInjective(speaker, None);
      assert (SPEAKER + speaker.value)[|SPEAKER|..] == speaker.value;
    }
  }

  lemma AnonymousExactly(kept: seq<Renders.KeptWord>, s: Renders.Streams)
    requires Renders.IsStreams(Renders.TagKept(kept), s)
    ensures Unassigned(Lifted(s.of)) == 0 <==> Labelled(kept)
  {
    var ts := Renders.TagKept(kept);
    assert UNASSIGNED == Renders.EncodeLabel(None);
    if !Labelled(kept) {
      var i :| 0 <= i < |kept| && kept[i].speaker == None;
      assert ts[i].key == UNASSIGNED;
    }
    if UNASSIGNED in s.of {
      assert Renders.HasKey(ts, UNASSIGNED);
      var i :| 0 <= i < |ts| && ts[i].key == UNASSIGNED;
      Renders.EncodeInjective(kept[i].speaker, None);
      PresentIsNotEmpty(ts, i);
      assert kept[i].speaker in Labels(kept);
    }
  }

  /** A hypothesis the export made passes the scorer's guards exactly when every kept word has a label and there
    * are at most 20 labels. */
  lemma HypothesisScoresExactly(kept: seq<Renders.KeptWord>, r: Renders.Renders)
    requires Renders.RendersOf(kept, r) && WordsFit(kept)
    ensures HypothesisScores(r.streams.of) <==> Labelled(kept) && |Labels(kept)| <= MAX_SPEAKERS
  {
    KeysAreLabels(kept, r.streams);
    EncodedCount(Labels(kept));
    assert Lifted(r.streams.of).Keys == r.streams.of.Keys;
    assert |Lifted(r.streams.of)| == |Labels(kept)|;
    forall key | key in Lifted(r.streams.of) ensures StreamOk(Lifted(r.streams.of), key, true) {
      StreamFits(kept, r.streams, key);
    }
    AnonymousExactly(kept, r.streams);
  }

  /** The stored transcript of one recording, its scoring regions, and the renders the export made of them. */
  datatype Export = Export(rows: seq<Renders.SegmentRow>, regions: seq<Cropping.Region>, renders: Renders.Renders)

  function Kept(e: Export): seq<Renders.KeptWord> { Renders.KeptOf(Renders.ShapedAll(e.rows), e.regions) }

  /** The hypothesis is what `Hypothesis` returned for these rows. */
  ghost predicate ExportedAs(e: Export, h: Hyps) {
    && (forall i :: 0 <= i < |e.rows| ==> Renders.Exportable(e.rows[i]))
    && Renders.RendersOf(Kept(e), e.renders)
    && h.werText == e.renders.text && h.streams == e.renders.streams.of
  }

  ghost predicate TranscriptScores(sc: Scorer, r: Resolved, src: Files, e: Export)
    requires Copyable(src, r)
  {
    r.cpwer.Some? ==> ReferenceScores(sc, r, src) && Labelled(Kept(e)) && |Labels(Kept(e))| <= MAX_SPEAKERS
  }

  /** From the stored transcripts to the score: a bundle of exported hypotheses is accepted exactly when nothing
    * scored changed since attestation, the scorers accept the copied references and the renders, and of every
    * recording with a cpWER reference every kept word has a diarization label, of which there are at most 20. One
    * kept word of an unlabelled segment is enough for a refusal, with nothing changed at all. */
  lemma TranscriptToScore(sc: Scorer, corpus: string, envHash: string, rs: seq<Resolved>, src0: Files, src1: Files,
                          l: Layout, fs: Files, hyps: map<string, Hyps>, exports: map<string, Export>,
                          moved: Files, base: string, lb: Layout)
    requires ResolvedOk(corpus, rs) && AllReadable(src0, rs) && AllCopyable(src1, rs) && Spells(sc, l)
    requires MovedBundle(rs, l, src1, fs, hyps, moved, base, lb)
    requires forall i :: 0 <= i < |rs| ==> rs[i].id in hyps && rs[i].id in exports
    requires forall i :: 0 <= i < |rs| && rs[i].cpwer.Some? ==> ExportedAs(exports[rs[i].id], hyps[rs[i].id])
    ensures var m := ManifestOf(l, rs, BlockOf(corpus, src0, rs, envHash));
      Accepted(sc, moved, base, m) <==>
        && (forall i :: 0 <= i < |rs| ==> Unchanged(src0, src1, rs[i]))
        && sc.diarization(DiarsScored(rs, src1, hyps))
        && (TextsScored(rs, src1, hyps) != [] ==> sc.wer(TextsScored(rs, src1, hyps)))
        && (forall i :: 0 <= i < |rs| ==> TranscriptScores(sc, rs[i], src1, exports[rs[i].id]))
  {
    RunToScore(sc, corpus, envHash, rs, src0, src1, l, fs, hyps, moved, base, lb);
    forall i | 0 <= i < |rs|
      ensures CpwerScores(sc, rs[i], src1, hyps[rs[i].id]) <==> TranscriptScores(sc, rs[i], src1, exports[rs[i].id])
    {
      if rs[i].cpwer.Some? { ExportScores(sc, rs[i], src1, hyps[rs[i].id], exports[rs[i].id]); }
    }
  }

  /** Such a word gets through the export: a row without a label whose one word is kept passes every guard. */
  lemma UnlabelledRowIsExported(index: int, w: Renders.StoredWord, raw: Option<string>, rs: seq<Cropping.Region>)
    requires Renders.Keeps(w, rs)
    ensures var rows := [Renders.SegmentRow(index, None, Some([w]), raw)];
      && Renders.Increasing(rows) && Renders.Exportable(rows[0]) && rs != []
      && Renders.AllWellFormed(Renders.ShapedAll(rows))
      && !Labelled(Renders.KeptOf(Renders.ShapedAll(rows), rs))
  {
    var segs := Renders.ShapedAll([Renders.SegmentRow(index, None, Some([w]), raw)]);
    var k := Renders.KeptWord(index, 0, None, Renders.Strip(w.token.value));
    assert Renders.KeptAt(segs, rs, 0, 0, k);
    Renders.KeptExactly(segs, rs, k);
  }

  lemma ExportScores(sc: Scorer, r: Resolved, src: Files, h: Hyps, e: Export)
    requires Copyable(src, r) && ExportedAs(e, h)
    ensures CpwerScores(sc, r, src, h) <==> TranscriptScores(sc, r, src, e)
  {
    ExportedFit(e.rows, e.regions);
    HypothesisScoresExactly(Kept(e), e.renders);
  }

  /** The layout the code uses satisfies what the round trip needs of it. */
  lemma BundleRelocates(out: string, base: string, dump: (string, map<string, seq<string>>) -> Bytes)
    ensures Injective(LayoutAt(out, dump)) && Relocates(LayoutAt(out, dump), base, LayoutAt(base, dump))
  {
    LayoutInjective(out, dump);
  }
}
