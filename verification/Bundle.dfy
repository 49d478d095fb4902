/** The portable score bundle: `run` attests and copies, `score` reads back and recomputes. */
module Bundle {
  import opened Common
  import opened Sorting
  import opened StagedPaths
  import opened Cohort

  type Files = map<string, Bytes>

  /** One recording's resolved corpus paths. */
  datatype Resolved = Resolved(
    id: string, split: string, audio: string, reference: string,
    uem: Option<string>, wer: Option<string>, cpwer: Option<string>)

  predicate Distinct(rs: seq<Resolved>) { forall i, j :: 0 <= i < j < |rs| ==> rs[i].id != rs[j].id }

  /** What `load_subset` and `resolve_item` guarantee for one corpus. */
  predicate ResolvedOk(corpus: string, rs: seq<Resolved>) {
    && rs != [] && corpus in {"ami", "voxconverse"} && Distinct(rs)
    && (forall i :: 0 <= i < |rs| ==> ItemOk(corpus, rs[i]))
  }

  predicate ItemOk(corpus: string, r: Resolved) {
    && SafeId(r.id) && r.split != ""
    && (r.uem.Some? <==> NonNull(corpus, Uem))
    && (r.wer.Some? <==> NonNull(corpus, WerReference))
    && (r.cpwer.Some? <==> NonNull(corpus, CpwerReference))
  }

  /** The corpus file behind a role, if the corpus has one. */
  function RolePath(r: Resolved, role: Role): Option<string> {
    match role
    case Audio => Some(r.audio)
    case ReferenceRttm => Some(r.reference)
    case Uem => r.uem
    case WerReference => r.wer
    case CpwerReference => r.cpwer
    case OtherRole(_) => None
  }

  /** The files the bundle copies are there. */
  predicate Copyable(fs: Files, r: Resolved) {
    && r.reference in fs
    && (r.uem.Some? ==> r.uem.value in fs)
    && (r.wer.Some? ==> r.wer.value in fs)
    && (r.cpwer.Some? ==> r.cpwer.value in fs)
  }

  predicate AllCopyable(fs: Files, rs: seq<Resolved>) { forall i :: 0 <= i < |rs| ==> Copyable(fs, rs[i]) }

  /** All files the attestation hashes are there: these and the audio. */
  predicate Readable(fs: Files, r: Resolved) { r.audio in fs && Copyable(fs, r) }

  predicate AllReadable(fs: Files, rs: seq<Resolved>) { forall i :: 0 <= i < |rs| ==> Readable(fs, rs[i]) }

  // ------------------------------------------------------------------ attestation

  /** `observe_role_files` for one role. */
  function RoleObserved(fs: Files, r: Resolved, role: Role): Option<Observation>
    requires Copyable(fs, r) && (role.Audio? ==> r.audio in fs)
  {
    if RolePath(r, role).Some? then Some(Observe(fs[RolePath(r, role).value])) else None
  }

  function FiveRaw(fs: Files, r: Resolved): seq<RawInput>
    requires Readable(fs, r)
  {
    [RawOf(fs, r, Audio), RawOf(fs, r, ReferenceRttm), RawOf(fs, r, Uem), RawOf(fs, r, WerReference),
     RawOf(fs, r, CpwerReference)]
  }

  function RawOf(fs: Files, r: Resolved, role: Role): (e: RawInput)
    requires Readable(fs, r)
    ensures Value(e) == RoleObserved(fs, r, role)
  {
    var o := RoleObserved(fs, r, role);
    RawInput(r.id, r.split, role,
             if o.Some? then Some(o.value.byteLen) else None,
             if o.Some? then Some(o.value.sha) else None)
  }

  /** `build_cohort_inputs`: five records per recording, in order. */
  function InputsOf(fs: Files, rs: seq<Resolved>): seq<RawInput>
    requires AllReadable(fs, rs)
  {
    if rs == [] then [] else InputsOf(fs, rs[..|rs| - 1]) + FiveRaw(fs, rs[|rs| - 1])
  }

  lemma {:induction false} InputsAre(fs: Files, rs: seq<Resolved>)
    requires AllReadable(fs, rs)
    ensures |InputsOf(fs, rs)| == 5 * |rs|
    ensures forall i :: 0 <= i < |rs| ==> InputsOf(fs, rs)[5 * i..5 * i + 5] == FiveRaw(fs, rs[i])
  {
    if rs != [] {
      var n := |rs| - 1;
      InputsAre(fs, rs[..n]);
      var p := InputsOf(fs, rs[..n]);
      forall i | 0 <= i < |rs| ensures InputsOf(fs, rs)[5 * i..5 * i + 5] == FiveRaw(fs, rs[i]) {
        if i < n {
          assert p[5 * i..5 * i + 5] == FiveRaw(fs, rs[..n][i]);
          assert InputsOf(fs, rs)[5 * i..5 * i + 5] == p[5 * i..5 * i + 5];
        }
      }
    }
  }

  function RoleAt(k: nat): Role
    requires k < 5
  {
    if k == 0 then Audio else if k == 1 then ReferenceRttm else if k == 2 then Uem
    else if k == 3 then WerReference else CpwerReference
  }

  function RoleIndex(role: Role): (k: nat)
    requires !role.OtherRole?
    ensures k < 5 && RoleAt(k) == role
  {
    match role case Audio => 0 case ReferenceRttm => 1 case Uem => 2 case WerReference => 3 case CpwerReference => 4
  }

  /** Entry number 5i+k is role k of recording i. */
  lemma InputAt(fs: Files, rs: seq<Resolved>, i: nat, k: nat)
    requires AllReadable(fs, rs) && i < |rs| && k < 5
    ensures |InputsOf(fs, rs)| == 5 * |rs| && 5 * i + k < |InputsOf(fs, rs)|
    ensures InputsOf(fs, rs)[5 * i + k] == RawOf(fs, rs[i], RoleAt(k))
  {
    InputsAre(fs, rs);
    var p := InputsOf(fs, rs);
    assert p[5 * i..5 * i + 5][k] == p[5 * i + k];
  }

  lemma InputIs(fs: Files, rs: seq<Resolved>, n: nat)
    requires AllReadable(fs, rs) && n < |InputsOf(fs, rs)|
    ensures n / 5 < |rs| && InputsOf(fs, rs)[n] == RawOf(fs, rs[n / 5], RoleAt(n % 5))
  {
    InputsAre(fs, rs);
    InputAt(fs, rs, n / 5, n % 5);
  }

  lemma SameId(corpus: string, rs: seq<Resolved>, i: nat, j: nat)
    requires ResolvedOk(corpus, rs) && i < |rs| && j < |rs| && rs[i].id == rs[j].id
    ensures i == j
  {
  }

  lemma AttestedEntryOk(corpus: string, fs: Files, rs: seq<Resolved>, n: nat)
    requires ResolvedOk(corpus, rs) && AllReadable(fs, rs) && n < |InputsOf(fs, rs)|
    ensures EntryOk(InputsOf(fs, rs)[n])
  {
    InputIs(fs, rs, n);
    assert ItemOk(corpus, rs[n / 5]);
  }

  lemma AttestedPairOk(corpus: string, fs: Files, rs: seq<Resolved>, m: nat, n: nat)
    requires ResolvedOk(corpus, rs) && AllReadable(fs, rs) && m < n < |InputsOf(fs, rs)|
    ensures PairOk(InputsOf(fs, rs)[m], InputsOf(fs, rs)[n])
  {
    InputIs(fs, rs, m);
    InputIs(fs, rs, n);
    if InputsOf(fs, rs)[m].id == InputsOf(fs, rs)[n].id { SameId(corpus, rs, m / 5, n / 5); }
  }

  lemma AttestedEntriesOk(corpus: string, fs: Files, rs: seq<Resolved>)
    requires ResolvedOk(corpus, rs) && AllReadable(fs, rs)
    ensures EntriesOk(InputsOf(fs, rs))
  {
    var raw := InputsOf(fs, rs);
    forall n | 0 <= n < |raw| ensures EntryOk(raw[n]) { AttestedEntryOk(corpus, fs, rs, n); }
    forall m, n | 0 <= m < n < |raw| ensures PairOk(raw[m], raw[n]) { AttestedPairOk(corpus, fs, rs, m, n); }
  }

  lemma AttestedComplete(fs: Files, rs: seq<Resolved>, n: nat, role: Role)
    requires AllReadable(fs, rs) && n < |InputsOf(fs, rs)| && !role.OtherRole?
    ensures HasEntry(InputsOf(fs, rs), InputsOf(fs, rs)[n].id, role)
  {
    InputIs(fs, rs, n);
    InputAt(fs, rs, n / 5, RoleIndex(role));
  }

  /** What `run` attests is a well-formed cohort. */
  lemma AttestationOk(corpus: string, fs: Files, rs: seq<Resolved>)
    requires ResolvedOk(corpus, rs) && AllReadable(fs, rs)
    ensures InputsOk(InputsOf(fs, rs))
  {
    var raw := InputsOf(fs, rs);
    InputsAre(fs, rs);
    AttestedEntriesOk(corpus, fs, rs);
    forall n: int, role: Role | 0 <= n < |raw| && !role.OtherRole? ensures HasEntry(raw, raw[n].id, role) {
      AttestedComplete(fs, rs, n, role);
    }
    forall n | 0 <= n < |raw|
      ensures HasNonNull(raw, raw[n].id, WerReference) <==> HasNonNull(raw, raw[n].id, CpwerReference)
    {
      InputIs(fs, rs, n);
      PresentExactly(corpus, fs, rs, n / 5, WerReference);
      PresentExactly(corpus, fs, rs, n / 5, CpwerReference);
    }
  }

  lemma PresentExactly(corpus: string, fs: Files, rs: seq<Resolved>, i: nat, role: Role)
    requires ResolvedOk(corpus, rs) && AllReadable(fs, rs) && i < |rs| && !role.OtherRole?
    ensures HasNonNull(InputsOf(fs, rs), rs[i].id, role) <==> RolePath(rs[i], role).Some?
    ensures !Required(role) ==> (RolePath(rs[i], role).Some? <==> NonNull(corpus, role))
  {
    var raw := InputsOf(fs, rs);
    assert ItemOk(corpus, rs[i]);
    InputAt(fs, rs, i, RoleIndex(role));
    forall n | 0 <= n < |raw| && raw[n].id == rs[i].id && raw[n].role == role
      ensures Value(raw[n]) == RoleObserved(fs, rs[i], role)
    {
      InputIs(fs, rs, n);
      SameId(corpus, rs, n / 5, i);
    }
  }

  function RawOfRecord(r: Record): RawInput {
    RawInput(r.id, r.split, r.role,
             if r.observed.Some? then Some(r.observed.value.byteLen) else None,
             if r.observed.Some? then Some(r.observed.value.sha) else None)
  }

  function RawsOf(rs: seq<Record>): (raw: seq<RawInput>)
    ensures |raw| == |rs| && forall i :: 0 <= i < |rs| ==> raw[i] == RawOfRecord(rs[i])
  {
    seq(|rs|, i requires 0 <= i < |rs| => RawOfRecord(rs[i]))
  }

  /** The manifest's cohort block: the sorted records and the hash `run` computed over them. */
  function BlockOf(corpus: string, fs: Files, rs: seq<Resolved>, envHash: string): Block
    requires AllReadable(fs, rs)
  {
    var records := Sort(KeyLe, Attested(InputsOf(fs, rs)));
    Block(SCHEMA_VERSION, corpus, true, envHash, RawsOf(records),
          Some(Sha256(Descriptor(corpus, Ids(InputsOf(fs, rs)), records, envHash, PROTOCOL))))
  }

  // ------------------------------------------------------------------ bundle paths

  datatype Kind = RefRttm | UemCopy | WerRef | CpwerRef | HypRttm | WerHyp | CpwerHyp

  function Folder(k: Kind): string {
    if k.RefRttm? || k.UemCopy? || k.WerRef? || k.CpwerRef? then "inputs/" else "hypotheses/"
  }

  function Suffix(k: Kind): string {
    match k
    case RefRttm => ".reference.rttm"
    case UemCopy => ".uem"
    case WerRef => ".wer_reference.txt"
    case CpwerRef => ".cpwer_reference.json"
    case HypRttm => ".hypothesis.rttm"
    case WerHyp => ".wer_hypothesis.txt"
    case CpwerHyp => ".cpwer_hypothesis.json"
  }

  function BundlePath(k: Kind, id: string): string { Folder(k) + id + Suffix(k) }

  /** `_resolve`: relative to the manifest's directory unless absolute. */
  function Resolve(base: string, path: string): string {
    if path != "" && path[0] == '/' then path else base + "/" + path
  }

  /** Two roles or two recordings never share a file of the bundle, wherever the bundle lies. */
  lemma BundlePathInjective(base: string, k1: Kind, id1: string, k2: Kind, id2: string)
    ensures Resolve(base, BundlePath(k1, id1)) == Resolve(base, BundlePath(k2, id2)) <==> k1 == k2 && id1 == id2
  {
    var p1, p2 := BundlePath(k1, id1), BundlePath(k2, id2);
    assert p1[0] == Folder(k1)[0] && p2[0] == Folder(k2)[0];
    if Resolve(base, p1) == Resolve(base, p2) {
      CancelPrefix(base + "/", p1, p2);
      assert Folder(k1) == Folder(k2);
      SuffixEnds(k1, id1);
      SuffixEnds(k2, id2);
      assert k1 == k2;
      CancelSuffix(Folder(k1) + id1, Folder(k2) + id2, Suffix(k1));
      CancelPrefix(Folder(k1), id1, id2);
    }
  }

  /** The last two characters of a bundle path tell its kind within its folder. */
  lemma SuffixEnds(k: Kind, id: string)
    ensures var p := BundlePath(k, id); var s := Suffix(k);
      |p| >= 2 && |s| >= 2 && p[|p| - 1] == s[|s| - 1] && p[|p| - 2] == s[|s| - 2]
  {
  }

  /** How a bundle is laid out: the manifest's relative name of a file, the file itself, and the bytes
    * `_canonical_streams_bytes` makes of a recording's stream document. */
  datatype Layout = Layout(
    rel: (Kind, string) -> string, at: (Kind, string) -> string, dump: (string, map<string, seq<string>>) -> Bytes)

  ghost predicate Injective(l: Layout) {
    forall k1, id1, k2, id2 :: l.at(k1, id1) == l.at(k2, id2) ==> k1 == k2 && id1 == id2
  }

  function LayoutAt(base: string, dump: (string, map<string, seq<string>>) -> Bytes): Layout {
    Layout(BundlePath, (k, id) => Resolve(base, BundlePath(k, id)), dump)
  }

  lemma LayoutInjective(base: string, dump: (string, map<string, seq<string>>) -> Bytes)
    ensures Injective(LayoutAt(base, dump))
  {
    var at := LayoutAt(base, dump).at;
    forall k1, id1, k2, id2 ensures at(k1, id1) == at(k2, id2) ==> k1 == k2 && id1 == id2 {
      BundlePathInjective(base, k1, id1, k2, id2);
    }
  }

  // ------------------------------------------------------------------ write_bundle

  /** A diarization entry. `uem` is None when the key is missing, Some(None) for an explicit null. */
  datatype DiarEntry = DiarEntry(id: string, reference: string, hypothesis: string, uem: Option<Option<string>>)

  datatype TextEntry = TextEntry(id: string, reference: string, hypothesis: string)

  /** A manifest; only one that `run` wrote has a cohort block. */
  datatype Manifest = Manifest(
    diarization: seq<DiarEntry>, wer: seq<TextEntry>, cpwer: seq<TextEntry>, block: Option<Block>)

  /** The exported hypotheses of one recording. */
  datatype Hyps = Hyps(rttm: Bytes, werText: Bytes, streams: map<string, seq<string>>)

  function DiarOf(l: Layout, r: Resolved): DiarEntry {
    DiarEntry(r.id, l.rel(RefRttm, r.id), l.rel(HypRttm, r.id),
              Some(if r.uem.Some? then Some(l.rel(UemCopy, r.id)) else None))
  }

  function WerEntry(l: Layout, r: Resolved): TextEntry { TextEntry(r.id, l.rel(WerRef, r.id), l.rel(WerHyp, r.id)) }

  function CpwerEntry(l: Layout, r: Resolved): TextEntry {
    TextEntry(r.id, l.rel(CpwerRef, r.id), l.rel(CpwerHyp, r.id))
  }

  function DiarsOf(l: Layout, rs: seq<Resolved>): seq<DiarEntry> {
    if rs == [] then [] else DiarsOf(l, rs[..|rs| - 1]) + [DiarOf(l, rs[|rs| - 1])]
  }

  function WerOf(l: Layout, rs: seq<Resolved>): seq<TextEntry> {
    if rs == [] then []
    else var r := rs[|rs| - 1];
      WerOf(l, rs[..|rs| - 1]) + (if r.wer.Some? then [WerEntry(l, r)] else [])
  }

  function CpwerOf(l: Layout, rs: seq<Resolved>): seq<TextEntry> {
    if rs == [] then []
    else var r := rs[|rs| - 1];
      CpwerOf(l, rs[..|rs| - 1]) + (if r.cpwer.Some? then [CpwerEntry(l, r)] else [])
  }

  predicate Holds(fs: Files, path: string, data: Bytes) { path in fs && fs[path] == data }

  /** The bundle has one recording's inputs as they were in `src`, and its hypotheses. */
  predicate Bundled(fs: Files, l: Layout, r: Resolved, src: Files, h: Hyps)
    requires Copyable(src, r)
  {
    && Holds(fs, l.at(RefRttm, r.id), src[r.reference])
    && Holds(fs, l.at(HypRttm, r.id), h.rttm)
    && (r.uem.Some? ==> Holds(fs, l.at(UemCopy, r.id), src[r.uem.value]))
    && (r.wer.Some? ==> Holds(fs, l.at(WerRef, r.id), src[r.wer.value]) && Holds(fs, l.at(WerHyp, r.id), h.werText))
    && (r.cpwer.Some? ==>
          Holds(fs, l.at(CpwerRef, r.id), src[r.cpwer.value])
          && Holds(fs, l.at(CpwerHyp, r.id), l.dump(r.id, h.streams)))
  }

  /** `path` is a file the bundle of `id` may write. */
  predicate OwnPath(l: Layout, id: string, path: string) {
    path == l.at(RefRttm, id) || path == l.at(UemCopy, id) || path == l.at(WerRef, id) || path == l.at(CpwerRef, id)
    || path == l.at(HypRttm, id) || path == l.at(WerHyp, id) || path == l.at(CpwerHyp, id)
  }

  /** Files outside the bundle of `id` are as they were. */
  ghost predicate OnlyOwn(before: Files, after: Files, l: Layout, id: string) {
    forall path :: !OwnPath(l, id, path) ==>
      (path in after <==> path in before) && (path in before ==> after[path] == before[path])
  }

  /** None of a recording's copied files is a bundle file of `id`. */
  ghost predicate Apart(l: Layout, r: Resolved, id: string) {
    && !OwnPath(l, id, r.reference)
    && (r.uem.Some? ==> !OwnPath(l, id, r.uem.value))
    && (r.wer.Some? ==> !OwnPath(l, id, r.wer.value))
    && (r.cpwer.Some? ==> !OwnPath(l, id, r.cpwer.value))
  }

  /** No copied file of any recording is a file of the bundle. */
  ghost predicate NoAlias(l: Layout, rs: seq<Resolved>) {
    forall i, j :: 0 <= i < |rs| && 0 <= j < |rs| ==> Apart(l, rs[i], rs[j].id)
  }

  predicate SameFile(a: Files, b: Files, p: string) { (p in a <==> p in b) && (p in a ==> a[p] == b[p]) }

  /** One recording's copied files read the same in two file systems. */
  predicate SameCorpus(a: Files, b: Files, r: Resolved) {
    && SameFile(a, b, r.reference)
    && (r.uem.Some? ==> SameFile(a, b, r.uem.value))
    && (r.wer.Some? ==> SameFile(a, b, r.wer.value))
    && (r.cpwer.Some? ==> SameFile(a, b, r.cpwer.value))
  }

  lemma SameCopyable(a: Files, b: Files, r: Resolved)
    requires SameCorpus(a, b, r)
    ensures Copyable(a, r) <==> Copyable(b, r)
  {
  }

  lemma SameCorpusFrame(before: Files, after: Files, l: Layout, r: Resolved, id: string)
    requires OnlyOwn(before, after, l, id) && Apart(l, r, id)
    ensures SameCorpus(before, after, r)
  {
  }

  /** Writing one recording's bundle files does not disturb another recording's. */
  lemma BundledFrame(before: Files, after: Files, l: Layout, r: Resolved, other: string, src: Files, h: Hyps)
    requires Injective(l) && Copyable(src, r) && Bundled(before, l, r, src, h)
    requires OnlyOwn(before, after, l, other) && r.id != other
    ensures Bundled(after, l, r, src, h)
  {
    forall k ensures !OwnPath(l, other, l.at(k, r.id)) {
    }
  }

  /** What the loop of `write_bundle` has achieved after `n` recordings. */
  ghost predicate Progress(l: Layout, rs: seq<Resolved>, n: nat, src: Files, fs: Files, hyps: map<string, Hyps>)
    requires n <= |rs|
  {
    && (forall i :: 0 <= i < |rs| ==> SameCorpus(src, fs, rs[i]))
    && (forall i :: 0 <= i < n ==>
          rs[i].id in hyps && Copyable(src, rs[i]) && Bundled(fs, l, rs[i], src, hyps[rs[i].id]))
  }

  lemma OneMore(l: Layout, rs: seq<Resolved>, n: nat, src: Files, before: Files, after: Files,
                hyps: map<string, Hyps>)
    requires Distinct(rs) && Injective(l) && NoAlias(l, rs) && n < |rs| && rs[n].id in hyps
    requires Progress(l, rs, n, src, before, hyps)
    requires Copyable(before, rs[n]) && Bundled(after, l, rs[n], before, hyps[rs[n].id])
    requires OnlyOwn(before, after, l, rs[n].id)
    ensures Progress(l, rs, n + 1, src, after, hyps)
  {
    forall i | 0 <= i < |rs| ensures SameCorpus(src, after, rs[i]) {
      assert SameCorpus(src, before, rs[i]) && Apart(l, rs[i], rs[n].id);
      SameCorpusFrame(before, after, l, rs[i], rs[n].id);
    }
    assert SameCorpus(src, before, rs[n]);
    forall i | 0 <= i < n ensures Bundled(after, l, rs[i], src, hyps[rs[i].id]) {
      BundledFrame(before, after, l, rs[i], rs[n].id, src, hyps[rs[i].id]);
    }
  }

  /** The effect of `write_bundle`'s loop body, write by write; each copy reads what is there by then. */
  function Written(fs: Files, l: Layout, r: Resolved, h: Hyps): Files
    requires Copyable(fs, r)
  {
    var f := fs[l.at(RefRttm, r.id) := fs[r.reference]][l.at(HypRttm, r.id) := h.rttm];
    var g := if r.uem.Some? then f[l.at(UemCopy, r.id) := f[r.uem.value]] else f;
    var k := if r.wer.Some? then g[l.at(WerRef, r.id) := g[r.wer.value]][l.at(WerHyp, r.id) := h.werText] else g;
    if r.cpwer.Some?
    then k[l.at(CpwerRef, r.id) := k[r.cpwer.value]][l.at(CpwerHyp, r.id) := l.dump(r.id, h.streams)]
    else k
  }

  lemma WrittenIsBundled(fs: Files, l: Layout, r: Resolved, h: Hyps)
    requires Injective(l) && Copyable(fs, r) && Apart(l, r, r.id)
    ensures Bundled(Written(fs, l, r, h), l, r, fs, h)
  {
  }

  lemma WrittenOnlyOwn(fs: Files, l: Layout, r: Resolved, h: Hyps)
    requires Copyable(fs, r)
    ensures OnlyOwn(fs, Written(fs, l, r, h), l, r.id)
  {
  }

  /** The effect of the whole loop; None when a file to copy is missing when its recording's turn comes. */
  function WrittenAll(fs: Files, l: Layout, rs: seq<Resolved>, hyps: map<string, Hyps>): Option<Files>
    requires forall i :: 0 <= i < |rs| ==> rs[i].id in hyps
  {
    if rs == [] then Some(fs)
    else
      var r := rs[|rs| - 1];
      var before := WrittenAll(fs, l, rs[..|rs| - 1], hyps);
      if before.None? || !Copyable(before.value, r) then None
      else Some(Written(before.value, l, r, hyps[r.id]))
  }

  /** With no copied file inside the bundle, the loop succeeds exactly when every file to copy is there at the
    * start, and then the bundle holds every recording's files as they were, whatever was in its place before. */
  lemma {:induction false} BundleComplete(fs: Files, l: Layout, rs: seq<Resolved>, n: nat, hyps: map<string, Hyps>)
    requires Distinct(rs) && Injective(l) && NoAlias(l, rs) && n <= |rs|
    requires forall i :: 0 <= i < |rs| ==> rs[i].id in hyps
    ensures WrittenAll(fs, l, rs[..n], hyps).Some? <==> AllCopyable(fs, rs[..n])
    ensures WrittenAll(fs, l, rs[..n], hyps).Some? ==>
      Progress(l, rs, n, fs, WrittenAll(fs, l, rs[..n], hyps).value, hyps)
  {
    if n == 0 {
      assert rs[..n] == [];
    } else {
      BundleComplete(fs, l, rs, n - 1, hyps);
      CopyableStep(fs, rs, n);
      LastWritten(fs, l, rs, n, hyps);
      var before := WrittenAll(fs, l, rs[..n - 1], hyps);
      if before.None? { return; }
      OneMoreWritten(fs, l, rs, n - 1, hyps, before.value);
    }
  }

  lemma LastWritten(fs: Files, l: Layout, rs: seq<Resolved>, n: nat, hyps: map<string, Hyps>)
    requires 0 < n <= |rs|
    requires forall i :: 0 <= i < |rs| ==> rs[i].id in hyps
    ensures var before := WrittenAll(fs, l, rs[..n - 1], hyps);
            WrittenAll(fs, l, rs[..n], hyps) ==
            if before.Some? && Copyable(before.value, rs[n - 1])
            then Some(Written(before.value, l, rs[n - 1], hyps[rs[n - 1].id]))
            else None
  {
    assert rs[..n][..n - 1] == rs[..n - 1];
  }

  lemma OneMoreWritten(fs: Files, l: Layout, rs: seq<Resolved>, n: nat, hyps: map<string, Hyps>, before: Files)
    requires Distinct(rs) && Injective(l) && NoAlias(l, rs) && n < |rs| && rs[n].id in hyps
    requires Progress(l, rs, n, fs, before, hyps)
    ensures Copyable(before, rs[n]) <==> Copyable(fs, rs[n])
    ensures Copyable(before, rs[n]) ==> Progress(l, rs, n + 1, fs, Written(before, l, rs[n], hyps[rs[n].id]), hyps)
  {
    assert SameCorpus(fs, before, rs[n]);
    SameCopyable(fs, before, rs[n]);
    if Copyable(before, rs[n]) { WrittenStep(l, rs, n, fs, before, hyps); }
  }

  lemma WholeBundle(fs: Files, l: Layout, rs: seq<Resolved>, hyps: map<string, Hyps>)
    requires Distinct(rs) && Injective(l) && NoAlias(l, rs)
    requires forall i :: 0 <= i < |rs| ==> rs[i].id in hyps
    ensures WrittenAll(fs, l, rs, hyps).Some? <==> AllCopyable(fs, rs)
    ensures WrittenAll(fs, l, rs, hyps).Some? ==> Progress(l, rs, |rs|, fs, WrittenAll(fs, l, rs, hyps).value, hyps)
  {
    BundleComplete(fs, l, rs, |rs|, hyps);
    assert rs[..|rs|] == rs;
  }

  lemma CopyableStep(fs: Files, rs: seq<Resolved>, n: nat)
    requires 0 < n <= |rs|
    ensures AllCopyable(fs, rs[..n]) <==> AllCopyable(fs, rs[..n - 1]) && Copyable(fs, rs[n - 1])
  {
    var p, q := rs[..n], rs[..n - 1];
    assert p[n - 1] == rs[n - 1] && forall i :: 0 <= i < n - 1 ==> p[i] == q[i];
  }

  lemma WrittenStep(l: Layout, rs: seq<Resolved>, n: nat, src: Files, before: Files, hyps: map<string, Hyps>)
    requires Distinct(rs) && Injective(l) && NoAlias(l, rs) && n < |rs| && rs[n].id in hyps
    requires Progress(l, rs, n, src, before, hyps) && Copyable(before, rs[n])
    ensures Progress(l, rs, n + 1, src, Written(before, l, rs[n], hyps[rs[n].id]), hyps)
  {
    var r := rs[n];
    assert Apart(l, r, rs[n].id);
    WrittenIsBundled(before, l, r, hyps[r.id]);
    WrittenOnlyOwn(before, l, r, hyps[r.id]);
    OneMore(l, rs, n, src, before, Written(before, l, r, hyps[r.id]), hyps);
  }

  class Store {
    var files: Files

    constructor (files: Files)
      ensures this.files == files
    {
      this.files := files;
    }

    method Put(path: string, data: Bytes)
      modifies this
      ensures files == old(files)[path := data]
    {
      files := files[path := data];
    }

    /** The body of `write_bundle`'s loop. */
    method WriteOne(l: Layout, r: Resolved, h: Hyps)
      requires Copyable(files, r)
      modifies this
      ensures files == Written(old(files), l, r, h)
    {
      Put(l.at(RefRttm, r.id), files[r.reference]);
      Put(l.at(HypRttm, r.id), h.rttm);
      if r.uem.Some? {
        Put(l.at(UemCopy, r.id), files[r.uem.value]);
      }
      if r.wer.Some? {
        Put(l.at(WerRef, r.id), files[r.wer.value]);
        Put(l.at(WerHyp, r.id), h.werText);
      }
      if r.cpwer.Some? {
        Put(l.at(CpwerRef, r.id), files[r.cpwer.value]);
        Put(l.at(CpwerHyp, r.id), l.dump(r.id, h.streams));
      }
    }

    /** `write_bundle`: the loop's effect and the manifest, or an error for a missing file. */
    method WriteBundle(l: Layout, rs: seq<Resolved>, hyps: map<string, Hyps>, block: Block)
      returns (m: Result<Manifest, string>)
      requires forall i :: 0 <= i < |rs| ==> rs[i].id in hyps
      modifies this
      ensures m.Ok? <==> WrittenAll(old(files), l, rs, hyps).Some?
      ensures m.Ok? ==> m.value == ManifestOf(l, rs, block) && files == WrittenAll(old(files), l, rs, hyps).value
    {
      m := Ok(Manifest([], [], [], Some(block)));
      for n := 0 to |rs|
        invariant m == Ok(ManifestOf(l, rs[..n], block))
        invariant WrittenAll(old(files), l, rs[..n], hyps) == Some(files)
      {
        var r := rs[n];
        assert rs[..n + 1][..n] == rs[..n];
        if !Copyable(files, r) {
          MissingStays(old(files), l, rs, n + 1, hyps);
          return Err("missing corpus file");
        }
        WriteOne(l, r, hyps[r.id]);
        EntriesStep(l, rs, n, block);
        m := Ok(Listed(m.value, l, r));
      }
      assert rs[..|rs|] == rs;
    }
  }

  lemma {:induction false} MissingStays(fs: Files, l: Layout, rs: seq<Resolved>, n: nat, hyps: map<string, Hyps>)
    requires n <= |rs| && forall i :: 0 <= i < |rs| ==> rs[i].id in hyps
    requires WrittenAll(fs, l, rs[..n], hyps).None?
    ensures WrittenAll(fs, l, rs, hyps).None?
    decreases |rs|
  {
    if n == |rs| {
      assert rs[..n] == rs;
    } else {
      assert rs[..|rs| - 1][..n] == rs[..n];
      MissingStays(fs, l, rs[..|rs| - 1], n, hyps);
    }
  }

  /** The entries of one recording more. */
  function Listed(m: Manifest, l: Layout, r: Resolved): Manifest {
    m.(diarization := m.diarization + [DiarOf(l, r)],
       wer := m.wer + (if r.wer.Some? then [WerEntry(l, r)] else []),
       cpwer := m.cpwer + (if r.cpwer.Some? then [CpwerEntry(l, r)] else []))
  }

  lemma EntriesStep(l: Layout, rs: seq<Resolved>, n: nat, block: Block)
    requires n < |rs|
    ensures ManifestOf(l, rs[..n + 1], block) == Listed(ManifestOf(l, rs[..n], block), l, rs[n])
  {
    assert rs[..n + 1][..n] == rs[..n];
  }

  function ManifestOf(l: Layout, rs: seq<Resolved>, block: Block): Manifest {
    Manifest(DiarsOf(l, rs), WerOf(l, rs), CpwerOf(l, rs), Some(block))
  }

  // ------------------------------------------------------------------ score

  /** Reads a manifest path: relative to the manifest's directory unless absolute. */
  predicate Found(fs: Files, base: string, rel: string) { Resolve(base, rel) in fs }

  function Fetched(fs: Files, base: string, rel: string): Observation
    requires Found(fs, base, rel)
  {
    Observe(fs[Resolve(base, rel)])
  }

  predicate EntryFound(fs: Files, base: string, e: DiarEntry) {
    && e.uem.Some? && Found(fs, base, e.reference) && Found(fs, base, e.hypothesis)
    && (e.uem.value.Some? ==> Found(fs, base, e.uem.value.value))
  }

  /** The bytes of an entry's UEM, as observed. */
  function UemFetched(fs: Files, base: string, e: DiarEntry): Option<Observation>
    requires EntryFound(fs, base, e)
  {
    if e.uem.value.Some? then Some(Fetched(fs, base, e.uem.value.value)) else None
  }

  predicate TextFound(fs: Files, base: string, e: TextEntry) {
    Found(fs, base, e.reference) && Found(fs, base, e.hypothesis)
  }

  /** `obs` is what reading the manifest's files gives. */
  ghost predicate Observes(fs: Files, base: string, m: Manifest, obs: Observed) {
    && (forall i :: 0 <= i < |m.diarization| ==> DiarObserved(fs, base, m.diarization[i], obs))
    && (forall i :: 0 <= i < |m.wer| ==> TextObserved(fs, base, m.wer[i], obs.wer))
    && (forall i :: 0 <= i < |m.cpwer| ==> TextObserved(fs, base, m.cpwer[i], obs.cpwer))
    && obs.uem.Keys == obs.reference.Keys
    && (forall id :: id in obs.reference ==> exists i :: 0 <= i < |m.diarization| && m.diarization[i].id == id)
    && (forall id :: id in obs.wer ==> Named(m.wer, id))
    && (forall id :: id in obs.cpwer ==> Named(m.cpwer, id))
  }

  predicate DiarObserved(fs: Files, base: string, e: DiarEntry, obs: Observed) {
    && EntryFound(fs, base, e) && e.id in obs.reference && e.id in obs.uem
    && obs.reference[e.id] == Fetched(fs, base, e.reference)
    && obs.uem[e.id] == UemFetched(fs, base, e)
  }

  predicate TextObserved(fs: Files, base: string, e: TextEntry, obs: map<string, Observation>) {
    TextFound(fs, base, e) && e.id in obs && obs[e.id] == Fetched(fs, base, e.reference)
  }

  ghost predicate Named(es: seq<TextEntry>, id: string) { exists n :: 0 <= n < |es| && es[n].id == id }

  ghost predicate TextsFound(fs: Files, base: string, es: seq<TextEntry>) {
    && (forall i :: 0 <= i < |es| ==> TextFound(fs, base, es[i]))
    && (forall i, j :: 0 <= i < j < |es| ==> es[i].id != es[j].id)
  }

  ghost predicate EntriesFound(fs: Files, base: string, es: seq<DiarEntry>) {
    && (forall i :: 0 <= i < |es| ==> EntryFound(fs, base, es[i]))
    && (forall i, j :: 0 <= i < j < |es| ==> es[i].id != es[j].id)
  }

  /** An entry among the first `n` has this id. */
  ghost predicate NamedBefore(es: seq<TextEntry>, n: nat, id: string)
    requires n <= |es|
  {
    exists i :: 0 <= i < n && es[i].id == id
  }

  /** The first `n` entries are distinct and read, and nothing else is. */
  ghost predicate TextsRead(fs: Files, base: string, es: seq<TextEntry>, n: nat, got: map<string, Observation>)
    requires n <= |es|
  {
    && (forall i, j :: 0 <= i < j < n ==> es[i].id != es[j].id)
    && (forall i :: 0 <= i < n ==> TextObserved(fs, base, es[i], got))
    && (forall id :: id in got ==> NamedBefore(es, n, id))
  }

  function WithText(fs: Files, base: string, e: TextEntry, got: map<string, Observation>): map<string, Observation>
    requires TextFound(fs, base, e)
  {
    got[e.id := Fetched(fs, base, e.reference)]
  }

  lemma TextKept(fs: Files, base: string, e: TextEntry, x: TextEntry, got: map<string, Observation>)
    requires TextFound(fs, base, e) && TextObserved(fs, base, x, got) && x.id != e.id
    ensures TextObserved(fs, base, x, WithText(fs, base, e, got))
  {
  }

  lemma TextAt(fs: Files, base: string, es: seq<TextEntry>, n: nat, got: map<string, Observation>, i: nat)
    requires i <= n < |es| && TextsRead(fs, base, es, n, got) && es[n].id !in got && TextFound(fs, base, es[n])
    ensures TextObserved(fs, base, es[i], WithText(fs, base, es[n], got))
  {
    if i < n {
      assert TextObserved(fs, base, es[i], got);
      TextKept(fs, base, es[n], es[i], got);
    }
  }

  lemma TextStep(fs: Files, base: string, es: seq<TextEntry>, n: nat, got: map<string, Observation>)
    requires n < |es| && TextsRead(fs, base, es, n, got) && es[n].id !in got && TextFound(fs, base, es[n])
    ensures TextsRead(fs, base, es, n + 1, WithText(fs, base, es[n], got))
  {
    forall i | 0 <= i < n + 1 ensures TextObserved(fs, base, es[i], WithText(fs, base, es[n], got)) {
      TextAt(fs, base, es, n, got, i);
    }
    forall i, j | 0 <= i < j < n + 1 ensures es[i].id != es[j].id {
      if j == n { assert TextObserved(fs, base, es[i], got); }
    }
    forall id | id in got ensures NamedBefore(es, n + 1, id) { assert NamedBefore(es, n, id); }
    assert NamedBefore(es, n + 1, es[n].id);
  }

  method LoadTexts(fs: Files, base: string, es: seq<TextEntry>) returns (r: Result<map<string, Observation>, string>)
    ensures r.Ok? <==> TextsFound(fs, base, es)
    ensures r.Ok? ==> forall i :: 0 <= i < |es| ==> TextObserved(fs, base, es[i], r.value)
    ensures r.Ok? ==> forall id :: id in r.value ==> Named(es, id)
  {
    var got: map<string, Observation> := map[];
    for n := 0 to |es|
      invariant TextsRead(fs, base, es, n, got)
    {
      if es[n].id in got {
        assert NamedBefore(es, n, es[n].id);
        return Err("duplicate recording_id");
      }
      if !TextFound(fs, base, es[n]) { return Err("unreadable file"); }
      TextStep(fs, base, es, n, got);
      got := got[es[n].id := Fetched(fs, base, es[n].reference)];
    }
    forall i | 0 <= i < |es| ensures TextFound(fs, base, es[i]) { assert TextObserved(fs, base, es[i], got); }
    forall id | id in got ensures Named(es, id) { assert NamedBefore(es, |es|, id); }
    return Ok(got);
  }

  ghost predicate DiarNamed(es: seq<DiarEntry>, n: nat, id: string)
    requires n <= |es|
  {
    exists i :: 0 <= i < n && es[i].id == id
  }

  /** The first `n` entries are distinct and read, and nothing else is. */
  ghost predicate DiarsRead(fs: Files, base: string, es: seq<DiarEntry>, n: nat, obs: Observed)
    requires n <= |es|
  {
    && (forall i, j :: 0 <= i < j < n ==> es[i].id != es[j].id)
    && (forall i :: 0 <= i < n ==> DiarObserved(fs, base, es[i], obs))
    && obs.uem.Keys == obs.reference.Keys
    && (forall id :: id in obs.reference ==> DiarNamed(es, n, id))
  }

  function WithDiar(fs: Files, base: string, e: DiarEntry, obs: Observed): Observed
    requires EntryFound(fs, base, e)
  {
    obs.(reference := obs.reference[e.id := Fetched(fs, base, e.reference)],
         uem := obs.uem[e.id := UemFetched(fs, base, e)])
  }

  lemma DiarAdded(fs: Files, base: string, e: DiarEntry, obs: Observed)
    requires EntryFound(fs, base, e)
    ensures DiarObserved(fs, base, e, WithDiar(fs, base, e, obs))
  {
  }

  lemma DiarKept(fs: Files, base: string, e: DiarEntry, x: DiarEntry, obs: Observed)
    requires EntryFound(fs, base, e) && DiarObserved(fs, base, x, obs) && x.id != e.id
    ensures DiarObserved(fs, base, x, WithDiar(fs, base, e, obs))
  {
  }

  lemma DiarAt(fs: Files, base: string, es: seq<DiarEntry>, n: nat, obs: Observed, i: nat)
    requires i <= n < |es| && DiarsRead(fs, base, es, n, obs) && es[n].id !in obs.reference
      && EntryFound(fs, base, es[n])
    ensures DiarObserved(fs, base, es[i], WithDiar(fs, base, es[n], obs))
  {
    if i < n {
      assert DiarObserved(fs, base, es[i], obs);
      DiarKept(fs, base, es[n], es[i], obs);
    } else {
      DiarAdded(fs, base, es[n], obs);
    }
  }

  lemma DiarNames(es: seq<DiarEntry>, n: nat, before: set<string>, after: set<string>)
    requires n < |es| && after == before + {es[n].id} && forall id :: id in before ==> DiarNamed(es, n, id)
    ensures forall id :: id in after ==> DiarNamed(es, n + 1, id)
  {
    forall id | id in after ensures DiarNamed(es, n + 1, id) {
      if id != es[n].id { assert DiarNamed(es, n, id); }
    }
  }

  lemma DiarStep(fs: Files, base: string, es: seq<DiarEntry>, n: nat, obs: Observed)
    requires n < |es| && DiarsRead(fs, base, es, n, obs) && es[n].id !in obs.reference && EntryFound(fs, base, es[n])
    ensures DiarsRead(fs, base, es, n + 1, WithDiar(fs, base, es[n], obs))
  {
    var next := WithDiar(fs, base, es[n], obs);
    forall i | 0 <= i < n + 1 ensures DiarObserved(fs, base, es[i], next) { DiarAt(fs, base, es, n, obs, i); }
    forall i, j | 0 <= i < j < n + 1 ensures es[i].id != es[j].id {
      if j == n { assert DiarObserved(fs, base, es[i], obs); }
    }
    DiarNames(es, n, obs.reference.Keys, next.reference.Keys);
  }

  /** `_load_diar_items`. */
  method LoadDiarItems(fs: Files, base: string, es: seq<DiarEntry>) returns (r: Result<Observed, string>)
    ensures r.Ok? <==> EntriesFound(fs, base, es)
    ensures r.Ok? ==> DiarsRead(fs, base, es, |es|, r.value)
  {
    var obs := Observed(map[], map[], map[], map[]);
    for n := 0 to |es|
      invariant DiarsRead(fs, base, es, n, obs)
    {
      var e := es[n];
      if e.id in obs.reference {
        assert DiarNamed(es, n, e.id);
        return Err("duplicate recording_id");
      }
      if e.uem.None? { return Err("the entry must set 'uem' explicitly"); }
      if !EntryFound(fs, base, e) { return Err("unreadable file"); }
      DiarStep(fs, base, es, n, obs);
      obs := obs.(reference := obs.reference[e.id := Fetched(fs, base, e.reference)],
                  uem := obs.uem[e.id := UemFetched(fs, base, e)]);
    }
    forall i | 0 <= i < |es| ensures EntryFound(fs, base, es[i]) { assert DiarObserved(fs, base, es[i], obs); }
    return Ok(obs);
  }
}
