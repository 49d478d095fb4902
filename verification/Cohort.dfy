/** The cohort identity: canonical descriptor, validation of its records, and the check `score` makes. */
module Cohort {
  import opened Common
  import opened Sorting
  import opened TextOrder

  type Bytes = string

  /** What `_observe` computes of a buffer. */
  datatype Observation = Observation(byteLen: int, sha: Digest<Bytes>)

  function Observe(data: Bytes): Observation { Observation(|data|, Sha256(data)) }

  datatype Role = Audio | ReferenceRttm | Uem | WerReference | CpwerReference | OtherRole(name: string)

  function RoleName(r: Role): string {
    match r
    case Audio => "audio"
    case ReferenceRttm => "reference_rttm"
    case Uem => "uem"
    case WerReference => "wer_reference"
    case CpwerReference => "cpwer_reference"
    case OtherRole(name) => name
  }

  /** One entry of the descriptor's `inputs` array; a role the corpus lacks is an explicit None. */
  datatype Record = Record(id: string, split: string, role: Role, observed: Option<Observation>)

  datatype CohortInput = CohortInput(id: string, role: Role, observed: Option<Observation>)

  /** `recordingIds` is the set behind the sorted id list, which it determines. */
  datatype Descriptor = Descriptor(
    corpus: string, recordingIds: set<string>, inputs: seq<Record>, envHash: string, protocol: string)

  /** The sort key `(id, role)` of `cohort_descriptor`, as a comparison. */
  predicate KeyLe(a: Record, b: Record) {
    TextLe(a.id, b.id) && (a.id == b.id ==> TextLe(RoleName(a.role), RoleName(b.role)))
  }

  lemma KeyLeIsOrder()
    ensures TotalPreorder(KeyLe)
  {
    forall x: Record, y: Record ensures KeyLe(x, y) || KeyLe(y, x) {
      TextTotal(x.id, y.id);
      TextTotal(RoleName(x.role), RoleName(y.role));
    }
    forall x: Record, y: Record, z: Record | KeyLe(x, y) && KeyLe(y, z) ensures KeyLe(x, z) {
      TextTransitive(x.id, y.id, z.id);
      TextTotal(x.id, y.id);
      TextTotal(y.id, z.id);
      if x.id == z.id {
        TextTransitive(RoleName(x.role), RoleName(y.role), RoleName(z.role));
      }
    }
  }

  predicate SameKey(a: Record, b: Record) { a.id == b.id && RoleName(a.role) == RoleName(b.role) }

  ghost predicate KeysDistinct(rs: seq<Record>) {
    forall i, j :: 0 <= i < j < |rs| ==> !SameKey(rs[i], rs[j])
  }

  function RecordsOf(splitById: map<string, string>, inputs: seq<CohortInput>): (rs: seq<Record>)
    requires forall i :: 0 <= i < |inputs| ==> inputs[i].id in splitById
    ensures |rs| == |inputs|
  {
    seq(|inputs|, i requires 0 <= i < |inputs| =>
      Record(inputs[i].id, splitById[inputs[i].id], inputs[i].role, inputs[i].observed))
  }

  /** `cohort_descriptor`; a recording without a split raises KeyError. */
  function CohortDescriptor(corpus: string, splitById: map<string, string>, inputs: seq<CohortInput>,
                            envHash: string, protocol: string): Result<Descriptor, string>
  {
    if forall i :: 0 <= i < |inputs| ==> inputs[i].id in splitById then
      Ok(Descriptor(corpus, splitById.Keys, Sort(KeyLe, RecordsOf(splitById, inputs)), envHash, protocol))
    else Err("KeyError")
  }

  lemma DistinctKeysIdentify(rs: seq<Record>)
    requires KeysDistinct(rs)
    ensures KeysIdentify(KeyLe, rs) && NoDup(rs)
  {
    forall i, j | 0 <= i < |rs| && 0 <= j < |rs| && KeyLe(rs[i], rs[j]) && KeyLe(rs[j], rs[i]) ensures rs[i] == rs[j] {
      TextTotal(rs[i].id, rs[j].id);
      TextTotal(RoleName(rs[i].role), RoleName(rs[j].role));
    }
  }

  /** The descriptor's record list ignores the order of the inputs exactly when no two different records
    * share an (id, role) key. */
  lemma DescriptorIgnoresOrder(rs: seq<Record>)
    ensures (forall ps :: Permutation(rs, ps) ==> Sort(KeyLe, ps) == Sort(KeyLe, rs)) <==>
      (forall i, j :: 0 <= i < |rs| && 0 <= j < |rs| && SameKey(rs[i], rs[j]) ==> rs[i] == rs[j])
  {
    KeyLeIsOrder();
    SortForgetsOrder(KeyLe, rs);
    forall i, j | 0 <= i < |rs| && 0 <= j < |rs|
      ensures KeyLe(rs[i], rs[j]) && KeyLe(rs[j], rs[i]) <==> SameKey(rs[i], rs[j])
    {
      TextTotal(rs[i].id, rs[j].id);
      TextTotal(RoleName(rs[i].role), RoleName(rs[j].role));
    }
  }

  /** Canonical form: two descriptors are equal exactly when the two cohorts agree on corpus, ids, per-role
    * records, environment and protocol; and the hash tells descriptors apart. */
  lemma DescriptorIsCanonical(c1: string, ids1: set<string>, rs1: seq<Record>, e1: string, p1: string,
                              c2: string, ids2: set<string>, rs2: seq<Record>, e2: string, p2: string)
    requires KeysDistinct(rs1) && KeysDistinct(rs2)
    ensures Sha256(Descriptor(c1, ids1, Sort(KeyLe, rs1), e1, p1))
      == Sha256(Descriptor(c2, ids2, Sort(KeyLe, rs2), e2, p2))
      <==> c1 == c2 && ids1 == ids2 && Permutation(rs1, rs2) && e1 == e2 && p1 == p2
  {
    SortPermutes(KeyLe, rs1);
    SortPermutes(KeyLe, rs2);
    if Permutation(rs1, rs2) {
      KeyLeIsOrder();
      DistinctKeysIdentify(rs1);
      SortForgetsOrder(KeyLe, rs1);
    }
  }

  // ------------------------------------------------------------------ _cohort_records

  /** One element of a manifest's `cohort.inputs`, before validation. */
  datatype RawInput = RawInput(id: string, split: string, role: Role, byteLen: Option<int>, sha: Option<Digest<Bytes>>)

  function Value(r: RawInput): Option<Observation> {
    if r.byteLen.Some? && r.sha.Some? then Some(Observation(r.byteLen.value, r.sha.value)) else None
  }

  predicate Required(role: Role) { role.Audio? || role.ReferenceRttm? }

  predicate EntryOk(r: RawInput) {
    && r.id != "" && !r.role.OtherRole? && r.split != ""
    && (r.byteLen.Some? <==> r.sha.Some?)
    && (r.byteLen.None? ==> !Required(r.role))
    && (r.byteLen.Some? ==> r.byteLen.value >= 0)
  }

  /** Two entries of one array: no shared key, one split per id. */
  predicate PairOk(a: RawInput, b: RawInput) { a.id == b.id ==> a.role != b.role && a.split == b.split }

  ghost predicate EntriesOk(raw: seq<RawInput>) {
    && (forall i :: 0 <= i < |raw| ==> EntryOk(raw[i]))
    && (forall i, j :: 0 <= i < j < |raw| ==> PairOk(raw[i], raw[j]))
  }

  ghost predicate HasEntry(raw: seq<RawInput>, id: string, role: Role) {
    exists j :: 0 <= j < |raw| && raw[j].id == id && raw[j].role == role
  }

  ghost predicate HasNonNull(raw: seq<RawInput>, id: string, role: Role) {
    exists j :: 0 <= j < |raw| && raw[j].id == id && raw[j].role == role && Value(raw[j]).Some?
  }

  /** Each id carries each role exactly once, with one split, and both transcript references or neither. */
  ghost predicate InputsOk(raw: seq<RawInput>) {
    && raw != []
    && EntriesOk(raw)
    && (forall i: int, role: Role :: 0 <= i < |raw| && !role.OtherRole? ==> HasEntry(raw, raw[i].id, role))
    && (forall i :: 0 <= i < |raw| ==>
          (HasNonNull(raw, raw[i].id, WerReference) <==> HasNonNull(raw, raw[i].id, CpwerReference)))
  }

  datatype Records = Records(splitById: map<string, string>, byKey: map<(string, Role), Option<Observation>>)

  predicate InTable(rs: Records, e: RawInput) {
    && (e.id, e.role) in rs.byKey && rs.byKey[(e.id, e.role)] == Value(e)
    && e.id in rs.splitById && rs.splitById[e.id] == e.split
  }

  ghost predicate HasId(raw: seq<RawInput>, id: string) { exists i :: 0 <= i < |raw| && raw[i].id == id }

  ghost predicate Backed(rs: Records, raw: seq<RawInput>, id: string, role: Role) {
    (id, role) in rs.byKey ==> HasEntry(raw, id, role)
  }

  ghost predicate BackedId(rs: Records, raw: seq<RawInput>, id: string) { id in rs.splitById ==> HasId(raw, id) }

  /** `rs` is exactly the table of `raw`. */
  ghost predicate Tabulates(rs: Records, raw: seq<RawInput>) {
    && (forall i :: 0 <= i < |raw| ==> InTable(rs, raw[i]))
    && (forall id, role :: Backed(rs, raw, id, role))
    && (forall id :: BackedId(rs, raw, id))
  }

  predicate CarriesAll(rs: Records, id: string) {
    && (id, Audio) in rs.byKey && (id, ReferenceRttm) in rs.byKey && (id, Uem) in rs.byKey
    && (id, WerReference) in rs.byKey && (id, CpwerReference) in rs.byKey
  }

  predicate Complete(rs: Records) { forall id :: id in rs.splitById ==> CarriesAll(rs, id) }

  predicate CoherentAt(rs: Records, id: string) {
    && CarriesAll(rs, id)
    && (rs.byKey[(id, WerReference)].None? <==> rs.byKey[(id, CpwerReference)].None?)
  }

  predicate Coherent(rs: Records) { forall id :: id in rs.splitById ==> CoherentAt(rs, id) }

  lemma PrefixOfOk(raw: seq<RawInput>, n: nat)
    requires n <= |raw| && EntriesOk(raw)
    ensures EntriesOk(raw[..n])
  {
  }

  /** A table lookup finds the array's entry. */
  lemma Lookup(rs: Records, raw: seq<RawInput>, id: string, role: Role)
    requires Tabulates(rs, raw)
    ensures HasEntry(raw, id, role) <==> (id, role) in rs.byKey
    ensures HasNonNull(raw, id, role) <==> (id, role) in rs.byKey && rs.byKey[(id, role)].Some?
  {
    if (id, role) in rs.byKey {
      assert Backed(rs, raw, id, role);
      var j :| 0 <= j < |raw| && raw[j].id == id && raw[j].role == role;
      assert InTable(rs, raw[j]);
    }
    forall j | 0 <= j < |raw| ensures InTable(rs, raw[j]) {
    }
  }

  lemma CompleteExactly(raw: seq<RawInput>, rs: Records)
    requires Tabulates(rs, raw)
    ensures Complete(rs) <==> forall i: int, role: Role :: 0 <= i < |raw| && !role.OtherRole? ==>
      HasEntry(raw, raw[i].id, role)
  {
    if Complete(rs) {
      forall i, role: Role | 0 <= i < |raw| && !role.OtherRole? ensures HasEntry(raw, raw[i].id, role) {
        assert InTable(rs, raw[i]);
        assert CarriesAll(rs, raw[i].id);
        Lookup(rs, raw, raw[i].id, role);
      }
    }
    if forall i: int, role: Role :: 0 <= i < |raw| && !role.OtherRole? ==> HasEntry(raw, raw[i].id, role) {
      forall id | id in rs.splitById ensures CarriesAll(rs, id) {
        assert BackedId(rs, raw, id);
        forall role: Role | !role.OtherRole? ensures (id, role) in rs.byKey { Lookup(rs, raw, id, role); }
      }
    }
  }

  lemma CoherentExactly(raw: seq<RawInput>, rs: Records)
    requires Tabulates(rs, raw) && Complete(rs)
    ensures Coherent(rs) <==> forall i :: 0 <= i < |raw| ==>
      (HasNonNull(raw, raw[i].id, WerReference) <==> HasNonNull(raw, raw[i].id, CpwerReference))
  {
    forall id | id in rs.splitById
      ensures CoherentAt(rs, id) <==> (HasNonNull(raw, id, WerReference) <==> HasNonNull(raw, id, CpwerReference))
    {
      assert CarriesAll(rs, id);
      Lookup(rs, raw, id, WerReference);
      Lookup(rs, raw, id, CpwerReference);
    }
    if Coherent(rs) {
      forall i | 0 <= i < |raw|
        ensures HasNonNull(raw, raw[i].id, WerReference) <==> HasNonNull(raw, raw[i].id, CpwerReference)
      {
        assert InTable(rs, raw[i]);
        assert CoherentAt(rs, raw[i].id);
      }
    } else {
      var id :| id in rs.splitById && !CoherentAt(rs, id);
      assert BackedId(rs, raw, id);
      var i :| 0 <= i < |raw| && raw[i].id == id;
      assert !(HasNonNull(raw, raw[i].id, WerReference) <==> HasNonNull(raw, raw[i].id, CpwerReference));
    }
  }

  /** The loop's three rejections are exactly the ways the next entry breaks the array. */
  lemma NextEntry(raw: seq<RawInput>, rs: Records, e: RawInput)
    requires EntriesOk(raw) && Tabulates(rs, raw)
    ensures EntriesOk(raw + [e]) <==>
      EntryOk(e) && (e.id in rs.splitById ==> rs.splitById[e.id] == e.split) && (e.id, e.role) !in rs.byKey
  {
    var all := raw + [e];
    assert all[|raw|] == e;
    forall i | 0 <= i < |raw| ensures all[i] == raw[i] && InTable(rs, raw[i]) {
    }
    Lookup(rs, raw, e.id, e.role);
    if EntriesOk(all) {
      forall i | 0 <= i < |raw| ensures PairOk(raw[i], e) { assert PairOk(all[i], all[|raw|]); }
      assert EntryOk(all[|raw|]);
      assert BackedId(rs, raw, e.id);
    }
  }

  lemma NextTable(raw: seq<RawInput>, rs: Records, e: RawInput, t: Records)
    requires EntriesOk(raw + [e]) && Tabulates(rs, raw)
    requires t == Records(rs.splitById[e.id := e.split], rs.byKey[(e.id, e.role) := Value(e)])
    ensures Tabulates(t, raw + [e])
  {
    var all := raw + [e];
    assert all[|raw|] == e;
    forall i | 0 <= i < |all| ensures InTable(t, all[i]) {
      if i < |raw| {
        assert InTable(rs, raw[i]) && PairOk(all[i], all[|raw|]);
      }
    }
    forall id, role ensures Backed(t, all, id, role) {
      if (id, role) in t.byKey && (id, role) != (e.id, e.role) {
        assert Backed(rs, raw, id, role);
        var j :| 0 <= j < |raw| && raw[j].id == id && raw[j].role == role;
        assert all[j] == raw[j];
      }
    }
    forall id ensures BackedId(t, all, id) {
      if id in t.splitById && id != e.id {
        assert BackedId(rs, raw, id);
        var i :| 0 <= i < |raw| && raw[i].id == id;
        assert all[i] == raw[i];
      }
    }
  }

  /** `_cohort_records`: accepts exactly the well-formed arrays and returns their table. */
  method CohortRecords(raw: seq<RawInput>) returns (r: Result<Records, string>)
    ensures r.Ok? <==> InputsOk(raw)
    ensures r.Ok? ==> Tabulates(r.value, raw)
  {
    if raw == [] { return Err("cohort.inputs must be a non-empty array"); }
    var rs := Records(map[], map[]);
    for n := 0 to |raw|
      invariant EntriesOk(raw[..n]) && Tabulates(rs, raw[..n])
    {
      var e := raw[n];
      NextEntry(raw[..n], rs, e);
      assert raw[..n + 1] == raw[..n] + [e];
      if !EntryOk(e) || (e.id in rs.splitById && rs.splitById[e.id] != e.split) || (e.id, e.role) in rs.byKey {
        if EntriesOk(raw) { PrefixOfOk(raw, n + 1); }
        return Err("bad, inconsistent or duplicate cohort input");
      }
      var t := Records(rs.splitById[e.id := e.split], rs.byKey[(e.id, e.role) := Value(e)]);
      NextTable(raw[..n], rs, e, t);
      rs := t;
    }
    assert raw[..|raw|] == raw;
    CompleteExactly(raw, rs);
    if !Complete(rs) { return Err("an id does not carry exactly the cohort roles"); }
    CoherentExactly(raw, rs);
    if !Coherent(rs) { return Err("wer_reference and cpwer_reference must be both null or both present"); }
    return Ok(rs);
  }

  // ------------------------------------------------------------------ _bind_cohort

  /** The bytes `score` read, per recording; None is an entry that scores without that role. */
  datatype Observed = Observed(
    reference: map<string, Observation>, uem: map<string, Option<Observation>>,
    wer: map<string, Observation>, cpwer: map<string, Observation>)

  /** A manifest's cohort block. */
  datatype Block = Block(
    schemaVersion: int, corpus: string, envOk: bool, envHash: string, inputs: seq<RawInput>,
    claimed: Option<Digest<Descriptor>>)

  const SCHEMA_VERSION := 2
  const PROTOCOL := "strict, diagnostic, cpwer"

  /** `_CORPUS_NONNULL_ROLES`. */
  predicate NonNull(corpus: string, role: Role) {
    corpus == "ami" && (role.Uem? || role.WerReference? || role.CpwerReference?)
  }

  function Get<K, V>(m: map<K, V>, k: K): Option<V> { if k in m then Some(m[k]) else None }

  /** What `score` observed for a role; the audio is not read at score time. */
  function ScoredValue(obs: Observed, id: string, role: Role): Option<Observation> {
    match role
    case ReferenceRttm => Get(obs.reference, id)
    case Uem => if id in obs.uem then obs.uem[id] else None
    case WerReference => Get(obs.wer, id)
    case CpwerReference => Get(obs.cpwer, id)
    case Audio | OtherRole(_) => None
  }

  function RecordOf(e: RawInput): Record { Record(e.id, e.split, e.role, Value(e)) }

  function Attested(raw: seq<RawInput>): (rs: seq<Record>)
    ensures |rs| == |raw| && forall i :: 0 <= i < |raw| ==> rs[i] == RecordOf(raw[i])
  {
    seq(|raw|, i requires 0 <= i < |raw| => RecordOf(raw[i]))
  }

  function Ids(raw: seq<RawInput>): set<string> { set i | 0 <= i < |raw| :: raw[i].id }

  /** The identity an attestation stands for. */
  function CohortHash(b: Block): Digest<Descriptor> {
    Sha256(Descriptor(b.corpus, Ids(b.inputs), Sort(KeyLe, Attested(b.inputs)), b.envHash, PROTOCOL))
  }

  /** One record agrees with the corpus matrix and with the bytes scored. */
  predicate RecordSound(b: Block, obs: Observed, e: RawInput) {
    && (!Required(e.role) ==> (Value(e).Some? <==> NonNull(b.corpus, e.role)))
    && (!e.role.Audio? ==> ScoredValue(obs, e.id, e.role) == Value(e))
  }

  ghost predicate RecordsSound(b: Block, obs: Observed) {
    forall i :: 0 <= i < |b.inputs| ==> RecordSound(b, obs, b.inputs[i])
  }

  /** The scored ids are exactly the recordings whose record for `role` is present. */
  ghost predicate ScoredExactly(raw: seq<RawInput>, role: Role, ids: set<string>) {
    forall id :: id in ids <==> HasNonNull(raw, id, role)
  }

  /** Cohort soundness: what a manifest must satisfy to be scored, clause by clause and in no order. */
  ghost predicate Acceptable(b: Block, obs: Observed) {
    && b.schemaVersion == SCHEMA_VERSION && b.corpus in {"ami", "voxconverse"} && b.envOk
    && InputsOk(b.inputs)
    && obs.reference.Keys == Ids(b.inputs)
    && RecordsSound(b, obs)
    && ScoredExactly(b.inputs, WerReference, obs.wer.Keys)
    && ScoredExactly(b.inputs, CpwerReference, obs.cpwer.Keys)
    && (b.claimed.Some? ==> b.claimed.value == CohortHash(b))
  }

  /** For an id of the cohort, an optional role is present exactly when the corpus matrix has it. */
  lemma RoleDecided(b: Block, obs: Observed, id: string, role: Role)
    requires InputsOk(b.inputs) && RecordsSound(b, obs) && !Required(role) && !role.OtherRole?
    ensures HasNonNull(b.inputs, id, role) <==> NonNull(b.corpus, role) && HasId(b.inputs, id)
    ensures HasId(b.inputs, id) ==> (ScoredValue(obs, id, role).Some? <==> NonNull(b.corpus, role))
  {
    var raw := b.inputs;
    if HasNonNull(raw, id, role) {
      var j :| 0 <= j < |raw| && raw[j].id == id && raw[j].role == role && Value(raw[j]).Some?;
      assert RecordSound(b, obs, raw[j]);
    }
    if HasId(raw, id) {
      var i :| 0 <= i < |raw| && raw[i].id == id;
      assert HasEntry(raw, raw[i].id, role);
      var j :| 0 <= j < |raw| && raw[j].id == id && raw[j].role == role;
      assert RecordSound(b, obs, raw[j]);
    }
  }

  /** The corpus label decides everything about which sets are scored: for AMI every recording has both
    * transcript scores and a UEM, for VoxConverse none has. */
  lemma CorpusDecidesScoredSets(b: Block, obs: Observed)
    requires Acceptable(b, obs)
    ensures obs.wer.Keys == if NonNull(b.corpus, WerReference) then obs.reference.Keys else {}
    ensures obs.cpwer.Keys == if NonNull(b.corpus, CpwerReference) then obs.reference.Keys else {}
    ensures forall id :: id in obs.reference ==> (ScoredValue(obs, id, Uem).Some? <==> NonNull(b.corpus, Uem))
  {
    ScoredSet(b, obs, WerReference, obs.wer.Keys);
    ScoredSet(b, obs, CpwerReference, obs.cpwer.Keys);
    UemSet(b, obs);
  }

  lemma ScoredSet(b: Block, obs: Observed, role: Role, ids: set<string>)
    requires InputsOk(b.inputs) && RecordsSound(b, obs) && !Required(role) && !role.OtherRole?
    requires ScoredExactly(b.inputs, role, ids)
    ensures ids == if NonNull(b.corpus, role) then Ids(b.inputs) else {}
  {
    forall id ensures id in ids <==> NonNull(b.corpus, role) && id in Ids(b.inputs) {
      assert id in ids <==> HasNonNull(b.inputs, id, role);
      RoleDecided(b, obs, id, role);
    }
  }

  lemma UemSet(b: Block, obs: Observed)
    requires InputsOk(b.inputs) && RecordsSound(b, obs)
    ensures forall id :: id in Ids(b.inputs) ==> (ScoredValue(obs, id, Uem).Some? <==> NonNull(b.corpus, Uem))
  {
    forall id | id in Ids(b.inputs) ensures ScoredValue(obs, id, Uem).Some? <==> NonNull(b.corpus, Uem) {
      RoleDecided(b, obs, id, Uem);
    }
  }

  /** `expected_ids_for_role`. */
  function ExpectedIds(rs: Records, role: Role): (ids: set<string>)
    ensures forall id :: id in ids <==> (id, role) in rs.byKey && rs.byKey[(id, role)].Some?
  {
    set id | id in rs.splitById.Keys + (set key | key in rs.byKey :: key.0) && (id, role) in rs.byKey
             && rs.byKey[(id, role)].Some?
  }

  /** One role of one id agrees with the corpus matrix and with the bytes scored. */
  predicate RoleSound(b: Block, obs: Observed, rs: Records, id: string, role: Role) {
    && (id, role) in rs.byKey
    && (!Required(role) ==> (rs.byKey[(id, role)].Some? <==> NonNull(b.corpus, role)))
    && ScoredValue(obs, id, role) == rs.byKey[(id, role)]
  }

  predicate IdSound(b: Block, obs: Observed, rs: Records, id: string) {
    && RoleSound(b, obs, rs, id, ReferenceRttm) && RoleSound(b, obs, rs, id, Uem)
    && RoleSound(b, obs, rs, id, WerReference) && RoleSound(b, obs, rs, id, CpwerReference)
  }

  predicate IdsSound(b: Block, obs: Observed, rs: Records) {
    forall id :: id in rs.splitById ==> IdSound(b, obs, rs, id)
  }

  lemma IdFromRecords(b: Block, obs: Observed, rs: Records, id: string, role: Role)
    requires Tabulates(rs, b.inputs) && (id, role) in rs.byKey && !role.OtherRole? && !role.Audio?
    requires RecordsSound(b, obs)
    ensures RoleSound(b, obs, rs, id, role)
  {
    assert Backed(rs, b.inputs, id, role);
    var j :| 0 <= j < |b.inputs| && b.inputs[j].id == id && b.inputs[j].role == role;
    assert InTable(rs, b.inputs[j]) && RecordSound(b, obs, b.inputs[j]);
  }

  lemma RecordFromId(b: Block, obs: Observed, rs: Records, e: RawInput)
    requires InTable(rs, e) && EntryOk(e) && IdSound(b, obs, rs, e.id)
    ensures RecordSound(b, obs, e)
  {
    match e.role
    case Audio =>
    case ReferenceRttm => assert RoleSound(b, obs, rs, e.id, ReferenceRttm);
    case Uem => assert RoleSound(b, obs, rs, e.id, Uem);
    case WerReference => assert RoleSound(b, obs, rs, e.id, WerReference);
    case CpwerReference => assert RoleSound(b, obs, rs, e.id, CpwerReference);
  }

  lemma TableSound(b: Block, obs: Observed, rs: Records)
    requires InputsOk(b.inputs) && Tabulates(rs, b.inputs)
    ensures IdsSound(b, obs, rs) <==> RecordsSound(b, obs)
  {
    var raw := b.inputs;
    CompleteExactly(raw, rs);
    if IdsSound(b, obs, rs) {
      forall i | 0 <= i < |raw| ensures RecordSound(b, obs, raw[i]) {
        assert InTable(rs, raw[i]) && EntryOk(raw[i]);
        RecordFromId(b, obs, rs, raw[i]);
      }
    }
    if RecordsSound(b, obs) {
      forall id | id in rs.splitById ensures IdSound(b, obs, rs, id) {
        assert CarriesAll(rs, id);
        IdFromRecords(b, obs, rs, id, ReferenceRttm);
        IdFromRecords(b, obs, rs, id, Uem);
        IdFromRecords(b, obs, rs, id, WerReference);
        IdFromRecords(b, obs, rs, id, CpwerReference);
      }
    }
  }

  lemma IdsAre(raw: seq<RawInput>, rs: Records)
    requires Tabulates(rs, raw)
    ensures rs.splitById.Keys == Ids(raw)
  {
    forall id ensures id in rs.splitById <==> id in Ids(raw) {
      assert BackedId(rs, raw, id);
      if id in Ids(raw) {
        var i :| 0 <= i < |raw| && raw[i].id == id;
        assert InTable(rs, raw[i]);
      }
    }
  }

  /** The input `_bind_cohort` rebuilds for one role: attested for the audio, observed for the rest. */
  predicate Wanted(obs: Observed, rs: Records, x: CohortInput) {
    && !x.role.OtherRole?
    && (x.id, Audio) in rs.byKey
    && x.observed == (if x.role.Audio? then rs.byKey[(x.id, Audio)] else ScoredValue(obs, x.id, x.role))
  }

  predicate DifferentKeys(x: CohortInput, y: CohortInput) { x.id != y.id || x.role != y.role }

  /** `inputs` holds every wanted input of the ids in `done`, once. */
  ghost predicate Rebuilt(obs: Observed, rs: Records, done: set<string>, inputs: seq<CohortInput>) {
    && (forall x :: x in inputs <==> x.id in done && Wanted(obs, rs, x))
    && (forall i, j :: 0 <= i < j < |inputs| ==> DifferentKeys(inputs[i], inputs[j]))
  }

  function FiveInputs(obs: Observed, rs: Records, id: string): seq<CohortInput>
    requires (id, Audio) in rs.byKey
  {
    [CohortInput(id, Audio, rs.byKey[(id, Audio)]),
     CohortInput(id, ReferenceRttm, ScoredValue(obs, id, ReferenceRttm)),
     CohortInput(id, Uem, ScoredValue(obs, id, Uem)),
     CohortInput(id, WerReference, ScoredValue(obs, id, WerReference)),
     CohortInput(id, CpwerReference, ScoredValue(obs, id, CpwerReference))]
  }

  lemma FiveWanted(obs: Observed, rs: Records, id: string, x: CohortInput)
    requires (id, Audio) in rs.byKey
    ensures x in FiveInputs(obs, rs, id) <==> x.id == id && Wanted(obs, rs, x)
  {
    var f := FiveInputs(obs, rs, id);
    if x.id == id && Wanted(obs, rs, x) {
      var at := match x.role case Audio => 0 case ReferenceRttm => 1 case Uem => 2 case WerReference => 3 case _ => 4;
      assert x == f[at];
    }
  }

  lemma AddFive(obs: Observed, rs: Records, done: set<string>, inputs: seq<CohortInput>, id: string)
    requires Rebuilt(obs, rs, done, inputs) && id !in done && (id, Audio) in rs.byKey
    ensures Rebuilt(obs, rs, done + {id}, inputs + FiveInputs(obs, rs, id))
  {
    var f := FiveInputs(obs, rs, id);
    var all := inputs + f;
    forall x ensures x in all <==> x.id in done + {id} && Wanted(obs, rs, x) {
      FiveWanted(obs, rs, id, x);
    }
    forall i, j | 0 <= i < j < |all| ensures DifferentKeys(all[i], all[j]) {
      if i < |inputs| { assert all[i] in inputs; }
      if j >= |inputs| { assert all[j] in f; FiveWanted(obs, rs, id, all[j]); }
    }
  }

  method Rebuild(obs: Observed, rs: Records) returns (inputs: seq<CohortInput>)
    requires Complete(rs)
    ensures Rebuilt(obs, rs, rs.splitById.Keys, inputs)
  {
    inputs := [];
    var todo := rs.splitById.Keys;
    while todo != {}
      invariant todo <= rs.splitById.Keys
      invariant Rebuilt(obs, rs, rs.splitById.Keys - todo, inputs)
      decreases todo
    {
      var id :| id in todo;
      assert CarriesAll(rs, id);
      AddFive(obs, rs, rs.splitById.Keys - todo, inputs, id);
      inputs := inputs + FiveInputs(obs, rs, id);
      assert rs.splitById.Keys - todo + {id} == rs.splitById.Keys - (todo - {id});
      todo := todo - {id};
    }
  }

  lemma KeyNames(a: Role, b: Role)
    requires !a.OtherRole? && !b.OtherRole?
    ensures RoleName(a) == RoleName(b) <==> a == b
  {
    assert RoleName(a)[0] == RoleName(b)[0] ==> a == b;
  }

  lemma AttestedKeysDistinct(raw: seq<RawInput>)
    requires EntriesOk(raw)
    ensures KeysDistinct(Attested(raw))
  {
    var q := Attested(raw);
    forall i, j | 0 <= i < j < |q| ensures !SameKey(q[i], q[j]) {
      assert PairOk(raw[i], raw[j]) && EntryOk(raw[i]) && EntryOk(raw[j]);
      KeyNames(q[i].role, q[j].role);
    }
  }

  /** Rebuilding from verified observations gives back the attested records, up to order. */
  lemma RebuiltIsAttested(b: Block, obs: Observed, rs: Records, inputs: seq<CohortInput>)
    requires InputsOk(b.inputs) && Tabulates(rs, b.inputs) && Complete(rs)
    requires IdsSound(b, obs, rs)
    requires Rebuilt(obs, rs, rs.splitById.Keys, inputs)
    ensures forall i :: 0 <= i < |inputs| ==> inputs[i].id in rs.splitById
    ensures Sort(KeyLe, RecordsOf(rs.splitById, inputs)) == Sort(KeyLe, Attested(b.inputs))
  {
    forall i | 0 <= i < |inputs| ensures inputs[i].id in rs.splitById { assert inputs[i] in inputs; }
    var p, q := RecordsOf(rs.splitById, inputs), Attested(b.inputs);
    forall x ensures x in p <==> x in q {
      if x in p { RebuiltInAttested(b, obs, rs, inputs, x); }
      if x in q { AttestedInRebuilt(b, obs, rs, inputs, x); }
    }
    AttestedKeysDistinct(b.inputs);
    DistinctKeysIdentify(q);
    assert NoDup(p) by {
      forall i, j | 0 <= i < j < |p| ensures p[i] != p[j] { assert DifferentKeys(inputs[i], inputs[j]); }
    }
    NoDupSameSet(q, p);
    KeyLeIsOrder();
    SortForgetsOrder(KeyLe, q);
  }

  lemma RebuiltInAttested(b: Block, obs: Observed, rs: Records, inputs: seq<CohortInput>, x: Record)
    requires Tabulates(rs, b.inputs) && Complete(rs)
    requires IdsSound(b, obs, rs)
    requires Rebuilt(obs, rs, rs.splitById.Keys, inputs)
    requires forall i :: 0 <= i < |inputs| ==> inputs[i].id in rs.splitById
    requires x in RecordsOf(rs.splitById, inputs)
    ensures x in Attested(b.inputs)
  {
    var p, q := RecordsOf(rs.splitById, inputs), Attested(b.inputs);
    var i :| 0 <= i < |p| && p[i] == x;
    assert inputs[i] in inputs;
    ValueIs(b, obs, rs, inputs[i]);
    assert Backed(rs, b.inputs, x.id, x.role);
    var j :| 0 <= j < |b.inputs| && b.inputs[j].id == x.id && b.inputs[j].role == x.role;
    assert InTable(rs, b.inputs[j]);
    assert q[j] == x;
  }

  /** A rebuilt input carries the attested value. */
  lemma ValueIs(b: Block, obs: Observed, rs: Records, x: CohortInput)
    requires Complete(rs) && x.id in rs.splitById && IdSound(b, obs, rs, x.id) && !x.role.OtherRole?
    ensures (x.id, x.role) in rs.byKey
    ensures Wanted(obs, rs, x) <==> x.observed == rs.byKey[(x.id, x.role)]
  {
    assert CarriesAll(rs, x.id);
    match x.role
    case Audio =>
    case ReferenceRttm => assert RoleSound(b, obs, rs, x.id, ReferenceRttm);
    case Uem => assert RoleSound(b, obs, rs, x.id, Uem);
    case WerReference => assert RoleSound(b, obs, rs, x.id, WerReference);
    case CpwerReference => assert RoleSound(b, obs, rs, x.id, CpwerReference);
  }

  lemma AttestedInRebuilt(b: Block, obs: Observed, rs: Records, inputs: seq<CohortInput>, x: Record)
    requires EntriesOk(b.inputs) && Tabulates(rs, b.inputs) && Complete(rs)
    requires IdsSound(b, obs, rs)
    requires Rebuilt(obs, rs, rs.splitById.Keys, inputs)
    requires forall i :: 0 <= i < |inputs| ==> inputs[i].id in rs.splitById
    requires x in Attested(b.inputs)
    ensures x in RecordsOf(rs.splitById, inputs)
  {
    var p, q := RecordsOf(rs.splitById, inputs), Attested(b.inputs);
    var j :| 0 <= j < |q| && q[j] == x;
    assert InTable(rs, b.inputs[j]) && EntryOk(b.inputs[j]);
    var y := CohortInput(x.id, x.role, x.observed);
    ValueIs(b, obs, rs, y);
    assert y in inputs;
    var i :| 0 <= i < |inputs| && inputs[i] == y;
    assert p[i] == x;
  }

  /** The three checks `_bind_cohort` makes on the table. */
  predicate TableMatches(b: Block, obs: Observed, rs: Records) {
    && obs.reference.Keys == rs.splitById.Keys
    && obs.wer.Keys == ExpectedIds(rs, WerReference) && obs.cpwer.Keys == ExpectedIds(rs, CpwerReference)
    && IdsSound(b, obs, rs)
  }

  /** With the table at hand, acceptability is exactly the table's checks and the claimed hash. */
  lemma AcceptableExactly(b: Block, obs: Observed, rs: Records)
    requires b.schemaVersion == SCHEMA_VERSION && b.corpus in {"ami", "voxconverse"} && b.envOk
    requires InputsOk(b.inputs) && Tabulates(rs, b.inputs)
    ensures Acceptable(b, obs) <==>
      TableMatches(b, obs, rs) && (b.claimed.Some? ==> b.claimed.value == CohortHash(b))
  {
    IdsAre(b.inputs, rs);
    TableSound(b, obs, rs);
    ExpectedAre(b.inputs, rs, WerReference, obs.wer.Keys);
    ExpectedAre(b.inputs, rs, CpwerReference, obs.cpwer.Keys);
  }

  lemma ExpectedAre(raw: seq<RawInput>, rs: Records, role: Role, ids: set<string>)
    requires Tabulates(rs, raw)
    ensures ids == ExpectedIds(rs, role) <==> ScoredExactly(raw, role, ids)
  {
    forall id ensures HasNonNull(raw, id, role) <==> id in ExpectedIds(rs, role) {
      Lookup(rs, raw, id, role);
    }
  }

  /** `_bind_cohort`: accepts exactly the acceptable manifests, and stamps the attested identity. */
  method BindCohort(b: Block, obs: Observed) returns (r: Result<Digest<Descriptor>, string>)
    ensures r.Ok? <==> Acceptable(b, obs)
    ensures r.Ok? ==> r.value == CohortHash(b)
  {
    if b.schemaVersion != SCHEMA_VERSION { return Err("re-run the bundle with the current harness"); }
    if b.corpus != "ami" && b.corpus != "voxconverse" { return Err("not a known corpus"); }
    if !b.envOk { return Err("bad pipeline_environment"); }
    var table := CohortRecords(b.inputs);
    if table.Err? { return Err(table.error); }
    r := BindTable(b, obs, table.value);
  }

  /** The first check the table fails, if any. */
  method Mismatch(b: Block, obs: Observed, rs: Records) returns (m: Option<string>)
    ensures m.None? <==> TableMatches(b, obs, rs)
  {
    if obs.reference.Keys != rs.splitById.Keys { return Some("scored set does not equal the cohort set"); }
    if obs.wer.Keys != ExpectedIds(rs, WerReference) || obs.cpwer.Keys != ExpectedIds(rs, CpwerReference) {
      return Some("scored WER or cpWER set is not the reference set");
    }
    if !IdsSound(b, obs, rs) {
      return Some("a record breaks the corpus matrix or disagrees with the bytes scored");
    }
    return None;
  }

  /** The part of `_bind_cohort` that works on the validated table. */
  method BindTable(b: Block, obs: Observed, rs: Records) returns (r: Result<Digest<Descriptor>, string>)
    requires b.schemaVersion == SCHEMA_VERSION && b.corpus in {"ami", "voxconverse"} && b.envOk
    requires InputsOk(b.inputs) && Tabulates(rs, b.inputs)
    ensures r.Ok? <==> Acceptable(b, obs)
    ensures r.Ok? ==> r.value == CohortHash(b)
  {
    AcceptableExactly(b, obs, rs);
    var mismatch := Mismatch(b, obs, rs);
    if mismatch.Some? { return Err(mismatch.value); }
    var hash := Recompute(b, obs, rs);
    if b.claimed.Some? && b.claimed.value != hash { return Err("cohort_sha256 does not match the recompute"); }
    return Ok(hash);
  }

  /** The descriptor built from observed values hashes to the attested identity. */
  method Recompute(b: Block, obs: Observed, rs: Records) returns (hash: Digest<Descriptor>)
    requires InputsOk(b.inputs) && Tabulates(rs, b.inputs)
    requires IdsSound(b, obs, rs)
    ensures hash == CohortHash(b)
  {
    CompleteExactly(b.inputs, rs);
    IdsAre(b.inputs, rs);
    var inputs := Rebuild(obs, rs);
    RebuiltIsAttested(b, obs, rs, inputs);
    var descriptor := CohortDescriptor(b.corpus, rs.splitById, inputs, b.envHash, PROTOCOL);
    hash := Sha256(descriptor.value);
  }
}
