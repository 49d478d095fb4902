/** From the driver's journal to the scorer's verdict: the batch protocol and the bundle, end to end. */
module JournalToScore {
  import opened Common
  import opened Cohort
  import opened Bundle
  import opened ScoreCommand
  import opened RoundTrip
  import Journal = RunJournal
  import Protocol = BatchProtocol
  import Safety = BatchSafety

  function CorpusName(c: Journal.Corpus): string {
    match c
    case Ami => "ami"
    case VoxConverse => "voxconverse"
    case UnknownCorpus(name) => name
  }

  /** The hypotheses `cmd_run` takes from a completed item; the transcript renders are bundled for AMI only. */
  function HypOf(it: Journal.Item): Hyps
    requires it.rttm.Some?
  {
    Hyps(it.rttm.value,
         if it.werText.Some? then it.werText.value else "",
         if it.streams.Some? then it.streams.value else map[])
  }

  function HypsOf(items: Journal.Items): map<string, Hyps> {
    map id | id in items && items[id].rttm.Some? :: HypOf(items[id])
  }

  /** What goes into the bundle for an item is what the item's artifact hashes are of. */
  ghost predicate Vouched(corpus: Journal.Corpus, it: Journal.Item, h: Hyps) {
    && Journal.RttmSha in it.artifacts && it.artifacts[Journal.RttmSha] == Sha256(Journal.TextPayload(h.rttm))
    && (corpus.Ami? ==>
          && Journal.WerTextSha in it.artifacts && Journal.CpwerStreamsSha in it.artifacts
          && it.artifacts[Journal.WerTextSha] == Sha256(Journal.TextPayload(h.werText))
          && it.artifacts[Journal.CpwerStreamsSha] == Sha256(Journal.StreamsPayload(h.streams)))
  }

  /** The bundle written from a journal's items; None for a missing hypothesis or corpus file. */
  function BundleFrom(src: Files, l: Layout, rs: seq<Resolved>, items: Journal.Items): Option<Files> {
    if forall i :: 0 <= i < |rs| ==> rs[i].id in HypsOf(items) then WrittenAll(src, l, rs, HypsOf(items)) else None
  }

  /** The manifest that lies in `o` selects exactly these recordings. */
  ghost predicate Selects(s: Protocol.System, o: Protocol.OutDir, j: Journal.Journal, man: Protocol.Manifest,
                          rs: seq<Resolved>) {
    && Protocol.DiskOf(s, o).journal == Some(j)
    && Protocol.Readable(Protocol.DiskOf(s, o).output) == Some(man)
    && |rs| == |man.ids| && (forall i :: 0 <= i < |rs| ==> rs[i].id == man.ids[i])
    && ResolvedOk(CorpusName(j.corpus), rs)
  }

  /** Every recording a manifest selects has its hypotheses in the journal, vouched for by the recorded hashes. */
  lemma ManifestVouched(s: Protocol.System, o: Protocol.OutDir, j: Journal.Journal, man: Protocol.Manifest,
                        rs: seq<Resolved>, i: nat)
    requires Protocol.Reachable(s) && Selects(s, o, j, man, rs) && i < |rs|
    ensures rs[i].id in HypsOf(j.items) && rs[i].id in man.items && man.items[rs[i].id] == j.items[rs[i].id]
    ensures Vouched(j.corpus, j.items[rs[i].id], HypsOf(j.items)[rs[i].id])
  {
    Safety.ReachableManifest(s, o);
    assert Safety.ManifestTrue(s, o, man);
    assert Safety.CompletedAt(s, o, man.ids[i]);
  }

  lemma AllVouched(s: Protocol.System, o: Protocol.OutDir, j: Journal.Journal, man: Protocol.Manifest,
                   rs: seq<Resolved>)
    requires Protocol.Reachable(s) && Selects(s, o, j, man, rs)
    ensures forall i :: 0 <= i < |rs| ==> rs[i].id in HypsOf(j.items)
  {
    forall i | 0 <= i < |rs| ensures rs[i].id in HypsOf(j.items) { ManifestVouched(s, o, j, man, rs, i); }
  }

  lemma BundlesAll(src: Files, l: Layout, rs: seq<Resolved>, items: Journal.Items)
    requires Distinct(rs) && Injective(l) && NoAlias(l, rs)
    requires forall i :: 0 <= i < |rs| ==> rs[i].id in HypsOf(items)
    ensures BundleFrom(src, l, rs, items).Some? <==> AllCopyable(src, rs)
    ensures BundleFrom(src, l, rs, items).Some? ==>
      Progress(l, rs, |rs|, src, BundleFrom(src, l, rs, items).value, HypsOf(items))
  {
    var hyps := HypsOf(items);
    assert BundleFrom(src, l, rs, items) == WrittenAll(src, l, rs, hyps);
    WholeBundle(src, l, rs, hyps);
  }

  /** Hence writing the bundle from the journal fails exactly when a corpus file is missing. */
  lemma JournalBundles(s: Protocol.System, o: Protocol.OutDir, j: Journal.Journal, man: Protocol.Manifest,
                       rs: seq<Resolved>, src: Files, l: Layout)
    requires Protocol.Reachable(s) && Selects(s, o, j, man, rs) && Injective(l) && NoAlias(l, rs)
    ensures forall i :: 0 <= i < |rs| ==> rs[i].id in HypsOf(j.items)
    ensures BundleFrom(src, l, rs, j.items).Some? <==> AllCopyable(src, rs)
    ensures BundleFrom(src, l, rs, j.items).Some? ==>
      Progress(l, rs, |rs|, src, BundleFrom(src, l, rs, j.items).value, HypsOf(j.items))
  {
    AllVouched(s, o, j, man, rs);
    assert Distinct(rs);
    BundlesAll(src, l, rs, j.items);
  }

  /** The two halves joined. Whatever drivers, crashes and others did: if an out-dir has a readable manifest, the
    * bundle made of its journal's completed items, attested from `src0`, copied from `src1` and moved anywhere, is
    * accepted by `score` exactly when nothing scored changed between the two and the scorers accept the copied
    * references and the hypotheses in the journal. */
  lemma JournalIsScored(sc: Scorer, s: Protocol.System, o: Protocol.OutDir, j: Journal.Journal, man: Protocol.Manifest,
                        envHash: string, rs: seq<Resolved>, src0: Files, src1: Files, l: Layout, moved: Files,
                        base: string, lb: Layout)
    requires Protocol.Reachable(s) && Selects(s, o, j, man, rs) && AllReadable(src0, rs) && AllCopyable(src1, rs)
    requires Injective(l) && NoAlias(l, rs) && Relocates(l, base, lb) && Spells(sc, l)
    requires BundleFrom(src1, l, rs, j.items).Some? ==> Moved(BundleFrom(src1, l, rs, j.items).value, l, moved, lb)
    ensures BundleFrom(src1, l, rs, j.items).Some?
    ensures forall i :: 0 <= i < |rs| ==> rs[i].id in HypsOf(j.items)
    ensures var m := ManifestOf(l, rs, BlockOf(CorpusName(j.corpus), src0, rs, envHash));
      Accepted(sc, moved, base, m) <==>
        && (forall i :: 0 <= i < |rs| ==> Unchanged(src0, src1, rs[i]))
        && ScorersAccept(sc, rs, src1, HypsOf(j.items))
  {
    JournalBundles(s, o, j, man, rs, src1, l);
    var fs := BundleFrom(src1, l, rs, j.items).value;
    RunToScore(sc, CorpusName(j.corpus), envHash, rs, src0, src1, l, fs, HypsOf(j.items), moved, base, lb);
  }

  /** The same from the transcripts, where the items hold what the export made of stored rows: the last condition is
    * that the scorers accept the renders and that every kept word of an AMI recording has a label, of at most 20. */
  lemma JournalOfTranscriptsIsScored(
      sc: Scorer, s: Protocol.System, o: Protocol.OutDir, j: Journal.Journal, man: Protocol.Manifest, envHash: string,
      rs: seq<Resolved>, exports: map<string, Export>, src0: Files, src1: Files, l: Layout, moved: Files,
      base: string, lb: Layout)
    requires Protocol.Reachable(s) && Selects(s, o, j, man, rs) && AllReadable(src0, rs) && AllCopyable(src1, rs)
    requires Injective(l) && NoAlias(l, rs) && Relocates(l, base, lb) && Spells(sc, l)
    requires BundleFrom(src1, l, rs, j.items).Some? ==> Moved(BundleFrom(src1, l, rs, j.items).value, l, moved, lb)
    requires forall i :: 0 <= i < |rs| ==> rs[i].id in exports
    requires forall i :: 0 <= i < |rs| && rs[i].cpwer.Some? && rs[i].id in HypsOf(j.items) ==>
      ExportedAs(exports[rs[i].id], HypsOf(j.items)[rs[i].id])
    ensures forall i :: 0 <= i < |rs| ==> rs[i].id in HypsOf(j.items)
    ensures var m := ManifestOf(l, rs, BlockOf(CorpusName(j.corpus), src0, rs, envHash));
      Accepted(sc, moved, base, m) <==>
        && (forall i :: 0 <= i < |rs| ==> Unchanged(src0, src1, rs[i]))
        && sc.diarization(DiarsScored(rs, src1, HypsOf(j.items)))
        && (TextsScored(rs, src1, HypsOf(j.items)) != [] ==> sc.wer(TextsScored(rs, src1, HypsOf(j.items))))
        && (forall i :: 0 <= i < |rs| ==> TranscriptScores(sc, rs[i], src1, exports[rs[i].id]))
  {
    JournalBundles(s, o, j, man, rs, src1, l);
    var fs := BundleFrom(src1, l, rs, j.items).value;
    TranscriptToScore(sc, CorpusName(j.corpus), envHash, rs, src0, src1, l, fs, HypsOf(j.items), exports,
                      moved, base, lb);
  }
}
