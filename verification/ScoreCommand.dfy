/** `score` as a whole: loading, the scorers' own refusals, the unassigned-word tripwire, and the cohort binding. */
module ScoreCommand {
  import opened Common
  import opened Cohort
  import opened Bundle
  import Renders

  // ------------------------------------------------------------------ stream documents

  /** A JSON value where a list of words is expected; None is an element that is no string. */
  datatype Stream = NotAList | Words(words: seq<Option<string>>)

  type Streams = map<string, Stream>

  /** A JSON object read from a stream file: its `recording_id` if that is a string, its `streams` if an object. */
  datatype StreamDoc = StreamDoc(id: Option<string>, streams: Option<Streams>)

  datatype DiarInput = DiarInput(id: string, reference: Bytes, hypothesis: Bytes, uem: Option<Bytes>)

  datatype TextInput = TextInput(id: string, reference: Bytes, hypothesis: Bytes)

  datatype CpwerItem = CpwerItem(id: string, reference: Streams, hypothesis: Streams)

  /** Code outside the model, as functions: JSON decoding (None: not a JSON object), the frozen normalizer, and
    * whether the diarization and the WER scorer accept what they are given. */
  datatype Scorer = Scorer(
    load: Bytes -> Option<StreamDoc>, normalize: string -> seq<string>,
    diarization: seq<DiarInput> -> bool, wer: seq<TextInput> -> bool)

  const MAX_SPEAKERS := 20
  const UNASSIGNED := "unassigned:"
  const SPEAKER := "speaker:"

  /** `_load_cpwer_streams`, after the file was read. */
  function LoadCpwerStreams(sc: Scorer, data: Bytes, id: string): Result<Streams, string> {
    var doc := sc.load(data);
    if doc.None? then Err("must be a JSON object")
    else if doc.value.id != Some(id) then Err("recording_id differs from the manifest")
    else if doc.value.streams.None? then Err("must carry a 'streams' object")
    else Ok(doc.value.streams.value)
  }

  predicate KeyOk(key: string, allowUnassigned: bool) {
    if key == UNASSIGNED then allowUnassigned
    else SPEAKER <= key && Renders.Strip(key[|SPEAKER|..]) != ""
  }

  predicate WordOk(w: Option<string>) { w.Some? && Renders.Strip(w.value) != "" }

  predicate WordsOk(s: Stream) { s.Words? && forall i :: 0 <= i < |s.words| ==> WordOk(s.words[i]) }

  predicate StreamOk(streams: Streams, key: string, allowUnassigned: bool)
    requires key in streams
  {
    KeyOk(key, allowUnassigned) && WordsOk(streams[key])
  }

  /** What `_validate_cpwer_streams` demands. */
  ghost predicate ValidStreams(streams: Streams, allowUnassigned: bool, allowEmpty: bool) {
    && (streams == map[] ==> allowEmpty)
    && forall key :: key in streams ==> StreamOk(streams, key, allowUnassigned)
  }

  method ValidateCpwerStreams(streams: Streams, allowUnassigned: bool, allowEmpty: bool) returns (ok: bool)
    ensures ok <==> ValidStreams(streams, allowUnassigned, allowEmpty)
  {
    if |streams| == 0 && !allowEmpty { return false; }
    var todo := streams.Keys;
    while todo != {}
      invariant todo <= streams.Keys
      invariant forall key :: key in streams && key !in todo ==> StreamOk(streams, key, allowUnassigned)
      decreases todo
    {
      var key :| key in todo;
      if !KeyOk(key, allowUnassigned) { return false; }
      if !WordsOk(streams[key]) { return false; }
      todo := todo - {key};
    }
    return true;
  }

  function TextsOf(s: Stream): (xs: seq<string>)
    requires WordsOk(s)
    ensures |xs| == |s.words|
  {
    seq(|s.words|, i requires 0 <= i < |s.words| => s.words[i].value)
  }

  /** The stream is not empty after normalization. */
  predicate Audible(sc: Scorer, s: Stream)
    requires WordsOk(s)
  {
    sc.normalize(Renders.Join(TextsOf(s))) != []
  }

  /** What is demanded of a reference: at most 20 speakers, well-formed, and every stream says something. */
  ghost predicate ReferenceFit(sc: Scorer, streams: Streams) {
    && |streams| <= MAX_SPEAKERS
    && ValidStreams(streams, false, false)
    && forall key :: key in streams ==> Audible(sc, streams[key])
  }

  /** What is demanded of a hypothesis, which may be silent and may hold words nobody is assigned to. */
  ghost predicate HypothesisFit(streams: Streams) {
    |streams| <= MAX_SPEAKERS && ValidStreams(streams, true, true)
  }

  /** The guards of `_cpwer_one`. */
  method CpwerOne(sc: Scorer, reference: Streams, hypothesis: Streams) returns (ok: bool)
    ensures ok <==> ReferenceFit(sc, reference) && HypothesisFit(hypothesis)
  {
    if |reference| > MAX_SPEAKERS || |hypothesis| > MAX_SPEAKERS { return false; }
    var valid := ValidateCpwerStreams(reference, false, false);
    if !valid { return false; }
    valid := ValidateCpwerStreams(hypothesis, true, true);
    if !valid { return false; }
    var todo := reference.Keys;
    while todo != {}
      invariant todo <= reference.Keys
      invariant forall key :: key in reference && key !in todo ==> Audible(sc, reference[key])
      decreases todo
    {
      var key :| key in todo;
      if !Audible(sc, reference[key]) { return false; }
      todo := todo - {key};
    }
    return true;
  }

  /** The words of the anonymous stream, counted before normalization. */
  function Unassigned(hypothesis: Streams): nat {
    if UNASSIGNED in hypothesis && hypothesis[UNASSIGNED].Words? then |hypothesis[UNASSIGNED].words| else 0
  }

  function TotalUnassigned(items: seq<CpwerItem>): nat {
    if items == [] then 0
    else TotalUnassigned(items[..|items| - 1]) + Unassigned(items[|items| - 1].hypothesis)
  }

  lemma {:induction false} NoneUnassigned(items: seq<CpwerItem>)
    ensures TotalUnassigned(items) == 0 <==> forall i :: 0 <= i < |items| ==> Unassigned(items[i].hypothesis) == 0
  {
    if items != [] { NoneUnassigned(items[..|items| - 1]); }
  }

  ghost predicate ItemFit(sc: Scorer, item: CpwerItem) {
    ReferenceFit(sc, item.reference) && HypothesisFit(item.hypothesis)
  }

  ghost predicate AllFit(sc: Scorer, items: seq<CpwerItem>) { forall i :: 0 <= i < |items| ==> ItemFit(sc, items[i]) }

  lemma TotalStep(items: seq<CpwerItem>, n: nat)
    requires n < |items|
    ensures TotalUnassigned(items[..n + 1]) == TotalUnassigned(items[..n]) + Unassigned(items[n].hypothesis)
  {
    assert items[..n + 1][..n] == items[..n];
  }

  lemma FitStep(sc: Scorer, items: seq<CpwerItem>, n: nat)
    requires n < |items| && AllFit(sc, items[..n]) && ItemFit(sc, items[n])
    ensures AllFit(sc, items[..n + 1])
  {
    var next := items[..n + 1];
    forall i | 0 <= i < |next| ensures ItemFit(sc, next[i]) {
      if i < n { assert next[i] == items[..n][i]; }
    }
  }

  /** `score_cpwer`: the number of unassigned words, if every recording can be scored. */
  method ScoreCpwer(sc: Scorer, items: seq<CpwerItem>) returns (r: Result<nat, string>)
    ensures r.Ok? <==> items != [] && AllFit(sc, items)
    ensures r.Ok? ==> r.value == TotalUnassigned(items)
  {
    if items == [] { return Err("empty cpWER cohort"); }
    var total := 0;
    for n := 0 to |items|
      invariant total == TotalUnassigned(items[..n])
      invariant AllFit(sc, items[..n])
    {
      TotalStep(items, n);
      total := total + Unassigned(items[n].hypothesis);
      var ok := CpwerOne(sc, items[n].reference, items[n].hypothesis);
      if !ok {
        assert !ItemFit(sc, items[n]);
        return Err("not scorable");
      }
      FitStep(sc, items, n);
    }
    assert items[..|items|] == items;
    return Ok(total);
  }

  // ------------------------------------------------------------------ loading

  /** Both stream files of an entry load. */
  predicate StreamsLoad(sc: Scorer, fs: Files, base: string, e: TextEntry)
    requires TextFound(fs, base, e)
  {
    && LoadCpwerStreams(sc, fs[Resolve(base, e.reference)], e.id).Ok?
    && LoadCpwerStreams(sc, fs[Resolve(base, e.hypothesis)], e.id).Ok?
  }

  predicate EntryLoads(sc: Scorer, fs: Files, base: string, e: TextEntry) {
    TextFound(fs, base, e) && StreamsLoad(sc, fs, base, e)
  }

  function ItemOf(sc: Scorer, fs: Files, base: string, e: TextEntry): CpwerItem
    requires EntryLoads(sc, fs, base, e)
  {
    CpwerItem(e.id, LoadCpwerStreams(sc, fs[Resolve(base, e.reference)], e.id).value,
              LoadCpwerStreams(sc, fs[Resolve(base, e.hypothesis)], e.id).value)
  }

  ghost predicate AllLoad(sc: Scorer, fs: Files, base: string, es: seq<TextEntry>) {
    forall i :: 0 <= i < |es| ==> EntryLoads(sc, fs, base, es[i])
  }

  /** The loading loop over the `cpwer` entries. */
  method LoadCpwer(sc: Scorer, fs: Files, base: string, es: seq<TextEntry>)
    returns (r: Result<map<string, Observation>, string>, items: seq<CpwerItem>)
    ensures r.Ok? <==> TextsFound(fs, base, es) && AllLoad(sc, fs, base, es)
    ensures r.Ok? ==> TextsRead(fs, base, es, |es|, r.value)
    ensures r.Ok? ==> |items| == |es| && forall i :: 0 <= i < |es| ==> items[i] == ItemOf(sc, fs, base, es[i])
  {
    var got: map<string, Observation> := map[];
    items := [];
    for n := 0 to |es|
      invariant TextsRead(fs, base, es, n, got)
      invariant |items| == n
      invariant forall i :: 0 <= i < n ==> EntryLoads(sc, fs, base, es[i]) && items[i] == ItemOf(sc, fs, base, es[i])
    {
      var e := es[n];
      if e.id in got {
        assert NamedBefore(es, n, e.id);
        return Err("duplicate recording_id"), [];
      }
      if !TextFound(fs, base, e) { return Err("unreadable file"), []; }
      if !StreamsLoad(sc, fs, base, e) {
        assert !EntryLoads(sc, fs, base, es[n]);
        return Err("bad cpWER stream file"), [];
      }
      TextStep(fs, base, es, n, got);
      got := got[e.id := Fetched(fs, base, e.reference)];
      items := items + [ItemOf(sc, fs, base, e)];
    }
    forall i | 0 <= i < |es| ensures TextFound(fs, base, es[i]) { assert TextObserved(fs, base, es[i], got); }
    return Ok(got), items;
  }

  function DiarInputOf(fs: Files, base: string, e: DiarEntry): DiarInput
    requires EntryFound(fs, base, e)
  {
    DiarInput(e.id, fs[Resolve(base, e.reference)], fs[Resolve(base, e.hypothesis)],
              if e.uem.value.Some? then Some(fs[Resolve(base, e.uem.value.value)]) else None)
  }

  function DiarInputs(fs: Files, base: string, es: seq<DiarEntry>): (xs: seq<DiarInput>)
    requires forall i :: 0 <= i < |es| ==> EntryFound(fs, base, es[i])
    ensures |xs| == |es| && forall i :: 0 <= i < |es| ==> xs[i] == DiarInputOf(fs, base, es[i])
  {
    seq(|es|, i requires 0 <= i < |es| => DiarInputOf(fs, base, es[i]))
  }

  function TextInputOf(fs: Files, base: string, e: TextEntry): TextInput
    requires TextFound(fs, base, e)
  {
    TextInput(e.id, fs[Resolve(base, e.reference)], fs[Resolve(base, e.hypothesis)])
  }

  function TextInputs(fs: Files, base: string, es: seq<TextEntry>): (xs: seq<TextInput>)
    requires forall i :: 0 <= i < |es| ==> TextFound(fs, base, es[i])
    ensures |xs| == |es| && forall i :: 0 <= i < |es| ==> xs[i] == TextInputOf(fs, base, es[i])
  {
    seq(|es|, i requires 0 <= i < |es| => TextInputOf(fs, base, es[i]))
  }

  // ------------------------------------------------------------------ cmd_score

  /** Everything the manifest names is there and loads. */
  ghost predicate Loads(sc: Scorer, fs: Files, base: string, m: Manifest) {
    && EntriesFound(fs, base, m.diarization) && TextsFound(fs, base, m.wer)
    && TextsFound(fs, base, m.cpwer) && AllLoad(sc, fs, base, m.cpwer)
  }

  /** A cpWER entry can be scored and leaves no word unassigned. */
  ghost predicate EntryScores(sc: Scorer, fs: Files, base: string, e: TextEntry)
    requires EntryLoads(sc, fs, base, e)
  {
    var item := ItemOf(sc, fs, base, e);
    ItemFit(sc, item) && Unassigned(item.hypothesis) == 0
  }

  /** No scorer refuses what was loaded. */
  ghost predicate Scores(sc: Scorer, fs: Files, base: string, m: Manifest)
    requires Loads(sc, fs, base, m)
  {
    && (m.diarization != [] ==> sc.diarization(DiarInputs(fs, base, m.diarization)))
    && (m.wer != [] ==> sc.wer(TextInputs(fs, base, m.wer)))
    && forall i :: 0 <= i < |m.cpwer| ==> EntryScores(sc, fs, base, m.cpwer[i])
  }

  /** The manifest's block, if it has one, binds the bytes that were read. */
  ghost predicate Binds(fs: Files, base: string, m: Manifest) {
    m.block.Some? ==> forall obs :: Observes(fs, base, m, obs) ==> Acceptable(m.block.value, obs)
  }

  ghost predicate Accepted(sc: Scorer, fs: Files, base: string, m: Manifest) {
    && (m.diarization != [] || m.wer != [])
    && Loads(sc, fs, base, m) && Scores(sc, fs, base, m) && Binds(fs, base, m)
  }

  /** `b` has every entry of `a`. */
  predicate Extends<V(==)>(a: map<string, V>, b: map<string, V>) { forall id :: id in a ==> id in b && b[id] == a[id] }

  lemma ExtendBothWays<V>(a: map<string, V>, b: map<string, V>)
    requires Extends(a, b) && Extends(b, a)
    ensures a == b
  {
  }

  lemma DiarOnce(fs: Files, base: string, m: Manifest, a: Observed, b: Observed)
    requires Observes(fs, base, m, a) && Observes(fs, base, m, b)
    ensures Extends(a.reference, b.reference) && Extends(a.uem, b.uem)
  {
    forall id | id in a.reference
      ensures id in b.reference && b.reference[id] == a.reference[id] && b.uem[id] == a.uem[id]
    {
      var i :| 0 <= i < |m.diarization| && m.diarization[i].id == id;
      assert DiarObserved(fs, base, m.diarization[i], a) && DiarObserved(fs, base, m.diarization[i], b);
    }
  }

  lemma TextOnce(fs: Files, base: string, es: seq<TextEntry>, a: map<string, Observation>, b: map<string, Observation>)
    requires forall i :: 0 <= i < |es| ==> TextObserved(fs, base, es[i], a) && TextObserved(fs, base, es[i], b)
    requires forall id :: id in a ==> Named(es, id)
    ensures Extends(a, b)
  {
    forall id | id in a ensures id in b && b[id] == a[id] {
      assert Named(es, id);
      var i :| 0 <= i < |es| && es[i].id == id;
    }
  }

  /** Reading is deterministic: a manifest's files give one observation. */
  lemma ObservedOnce(fs: Files, base: string, m: Manifest, a: Observed, b: Observed)
    requires Observes(fs, base, m, a) && Observes(fs, base, m, b)
    ensures a == b
  {
    DiarOnce(fs, base, m, a, b);
    DiarOnce(fs, base, m, b, a);
    TextsOnce(fs, base, m.wer, a.wer, b.wer);
    TextsOnce(fs, base, m.cpwer, a.cpwer, b.cpwer);
    ExtendBothWays(a.reference, b.reference);
    ExtendBothWays(a.uem, b.uem);
  }

  lemma TextsOnce(fs: Files, base: string, es: seq<TextEntry>, a: map<string, Observation>, b: map<string, Observation>)
    requires forall i :: 0 <= i < |es| ==> TextObserved(fs, base, es[i], a) && TextObserved(fs, base, es[i], b)
    requires (forall id :: id in a ==> Named(es, id)) && forall id :: id in b ==> Named(es, id)
    ensures a == b
  {
    TextOnce(fs, base, es, a, b);
    TextOnce(fs, base, es, b, a);
    ExtendBothWays(a, b);
  }

  lemma BindsByAny(fs: Files, base: string, m: Manifest, obs: Observed)
    requires Observes(fs, base, m, obs)
    ensures Binds(fs, base, m) <==> (m.block.Some? ==> Acceptable(m.block.value, obs))
  {
    forall other | Observes(fs, base, m, other) ensures other == obs { ObservedOnce(fs, base, m, other, obs); }
  }

  /** The loads of `cmd_score`. */
  method LoadObserved(sc: Scorer, fs: Files, base: string, m: Manifest)
    returns (r: Result<Observed, string>, items: seq<CpwerItem>)
    ensures r.Ok? <==> Loads(sc, fs, base, m)
    ensures r.Ok? ==> Observes(fs, base, m, r.value)
    ensures r.Ok? ==>
      |items| == |m.cpwer| && forall i :: 0 <= i < |items| ==> items[i] == ItemOf(sc, fs, base, m.cpwer[i])
  {
    var diar := LoadDiarItems(fs, base, m.diarization);
    if diar.Err? { return Err(diar.error), []; }
    var wer := LoadTexts(fs, base, m.wer);
    if wer.Err? { return Err(wer.error), []; }
    var cpwer, read := LoadCpwer(sc, fs, base, m.cpwer);
    if cpwer.Err? { return Err(cpwer.error), []; }
    var obs := diar.value.(wer := wer.value, cpwer := cpwer.value);
    AllObserved(fs, base, m, diar.value, wer.value, cpwer.value);
    return Ok(obs), read;
  }

  lemma AllObserved(fs: Files, base: string, m: Manifest, diar: Observed, wer: map<string, Observation>,
                    cpwer: map<string, Observation>)
    requires DiarsRead(fs, base, m.diarization, |m.diarization|, diar)
    requires forall i :: 0 <= i < |m.wer| ==> TextObserved(fs, base, m.wer[i], wer)
    requires forall id :: id in wer ==> Named(m.wer, id)
    requires TextsRead(fs, base, m.cpwer, |m.cpwer|, cpwer)
    ensures Observes(fs, base, m, diar.(wer := wer, cpwer := cpwer))
  {
    var obs := diar.(wer := wer, cpwer := cpwer);
    forall i | 0 <= i < |m.diarization| ensures DiarObserved(fs, base, m.diarization[i], obs) {
      assert DiarObserved(fs, base, m.diarization[i], diar);
    }
    forall id | id in obs.reference ensures exists i :: 0 <= i < |m.diarization| && m.diarization[i].id == id {
      assert DiarNamed(m.diarization, |m.diarization|, id);
    }
    forall id | id in cpwer ensures Named(m.cpwer, id) { assert NamedBefore(m.cpwer, |m.cpwer|, id); }
  }

  lemma {:induction false} TextsReadable(fs: Files, base: string, es: seq<TextEntry>, n: nat)
    returns (got: map<string, Observation>)
    requires n <= |es| && TextsFound(fs, base, es)
    ensures TextsRead(fs, base, es, n, got)
  {
    if n == 0 {
      got := map[];
    } else {
      got := TextsReadable(fs, base, es, n - 1);
      assert !NamedBefore(es, n - 1, es[n - 1].id);
      TextStep(fs, base, es, n - 1, got);
      got := WithText(fs, base, es[n - 1], got);
    }
  }

  lemma {:induction false} DiarsReadable(fs: Files, base: string, es: seq<DiarEntry>, n: nat) returns (obs: Observed)
    requires n <= |es| && EntriesFound(fs, base, es)
    ensures DiarsRead(fs, base, es, n, obs)
  {
    if n == 0 {
      obs := Observed(map[], map[], map[], map[]);
    } else {
      obs := DiarsReadable(fs, base, es, n - 1);
      assert !DiarNamed(es, n - 1, es[n - 1].id);
      DiarStep(fs, base, es, n - 1, obs);
      obs := WithDiar(fs, base, es[n - 1], obs);
    }
  }

  /** Whatever can be read is observed. */
  lemma SomeObserved(fs: Files, base: string, m: Manifest) returns (obs: Observed)
    requires EntriesFound(fs, base, m.diarization) && TextsFound(fs, base, m.wer) && TextsFound(fs, base, m.cpwer)
    ensures Observes(fs, base, m, obs)
  {
    var diar := DiarsReadable(fs, base, m.diarization, |m.diarization|);
    var wer := TextsReadable(fs, base, m.wer, |m.wer|);
    var cpwer := TextsReadable(fs, base, m.cpwer, |m.cpwer|);
    forall id | id in wer ensures Named(m.wer, id) { assert NamedBefore(m.wer, |m.wer|, id); }
    AllObserved(fs, base, m, diar, wer, cpwer);
    obs := diar.(wer := wer, cpwer := cpwer);
  }

  lemma ItemsScore(sc: Scorer, fs: Files, base: string, es: seq<TextEntry>, items: seq<CpwerItem>)
    requires AllLoad(sc, fs, base, es)
    requires |items| == |es| && forall i :: 0 <= i < |items| ==> items[i] == ItemOf(sc, fs, base, es[i])
    ensures AllFit(sc, items) && TotalUnassigned(items) == 0
      <==> forall i :: 0 <= i < |es| ==> EntryScores(sc, fs, base, es[i])
  {
    NoneUnassigned(items);
  }

  /** `cmd_score`: the identity it stamps, or none for a manifest without a cohort block. */
  method CmdScore(sc: Scorer, fs: Files, base: string, m: Manifest)
    returns (r: Result<Option<Digest<Descriptor>>, string>)
    ensures r.Ok? <==> Accepted(sc, fs, base, m)
    ensures r.Ok? ==> r.value == if m.block.Some? then Some(CohortHash(m.block.value)) else None
  {
    if m.diarization == [] && m.wer == [] { return Err("no 'diarization' or 'wer' entries"); }
    var obs, items := LoadObserved(sc, fs, base, m);
    if obs.Err? { return Err(obs.error); }
    if m.diarization != [] && !sc.diarization(DiarInputs(fs, base, m.diarization)) { return Err("diarization scorer"); }
    if m.wer != [] && !sc.wer(TextInputs(fs, base, m.wer)) { return Err("WER scorer"); }
    ItemsScore(sc, fs, base, m.cpwer, items);
    if m.cpwer != [] {
      var unassigned := ScoreCpwer(sc, items);
      if unassigned.Err? { return Err(unassigned.error); }
      if unassigned.value != 0 { return Err("unassigned words"); }
    }
    BindsByAny(fs, base, m, obs.value);
    if m.block.None? { return Ok(None); }
    var hash := BindCohort(m.block.value, obs.value);
    r := if hash.Ok? then Ok(Some(hash.value)) else Err(hash.error);
  }
}
