/** What the driver exports of a completed run, from the rows the run has stored. */
module StoredRows {
  import opened Common
  import opened Cropping
  import opened Export = Renders
  import Bundle
  import Driver = BatchConvergence
  import Invocation = BatchInvocation
  import Journal = RunJournal
  import Paths = StagedPaths
  import Protocol = BatchProtocol
  import Repetition = BatchRepetition
  import RoundTrip

  /** A run's turns, by index and as the RTTM they render to, and its transcript segments. */
  datatype Stored = Stored(turns: seq<int>, rttm: string, segments: seq<SegmentRow>)

  /** The transcript passes every guard of the export. */
  ghost predicate TranscriptExports(segments: seq<SegmentRow>, regions: seq<Region>) {
    && Increasing(segments) && (forall i :: 0 <= i < |segments| ==> Exportable(segments[i]))
    && regions != [] && AllWellFormed(ShapedAll(segments))
  }

  function KeysOf(ts: seq<Tagged>): set<string> { set i | 0 <= i < |ts| :: ts[i].key }

  function StreamsOf(ts: seq<Tagged>): Journal.Streams { map key | key in KeysOf(ts) :: StreamOf(ts, key) }

  function TaggedOf(segments: seq<SegmentRow>, regions: seq<Region>): seq<Tagged> {
    TagKept(KeptOf(ShapedAll(segments), regions))
  }

  ghost function TranscriptOf(segments: seq<SegmentRow>, regions: seq<Region>): Option<Journal.Transcript> {
    if !TranscriptExports(segments, regions) then None
    else
      var ts := TaggedOf(segments, regions);
      Some(Journal.Transcript(Join(Texts(ts)), StreamsOf(ts)))
  }

  /** What the export makes of stored rows within the regions of the recording. */
  ghost function RowsOf(st: Stored, regions: seq<Region>): Journal.Rows {
    Journal.Rows(if Ascending(st.turns) then Some(st.rttm) else None, TranscriptOf(st.segments, regions))
  }

  lemma StreamsUnique(ts: seq<Tagged>, s: Streams)
    requires IsStreams(ts, s)
    ensures s.of == StreamsOf(ts)
  {
    forall key ensures HasKey(ts, key) <==> key in KeysOf(ts) {}
    assert s.of.Keys == StreamsOf(ts).Keys;
  }

  /** `_export_completed`, from the guards on turns and segments to the two renders. */
  method ExportCompleted(corpus: Journal.Corpus, st: Stored, regions: seq<Region>)
    returns (e: Result<Journal.Export, string>)
    ensures e.Ok? <==> Ascending(st.turns) && (corpus.Ami? ==> TranscriptExports(st.segments, regions))
    ensures e.Ok? ==> Journal.ExportOf(corpus, RowsOf(st, regions)) == Some(e.value)
    ensures e.Err? ==> Journal.ExportOf(corpus, RowsOf(st, regions)).None?
  {
    var ordered := MonotonicUnique(st.turns);
    if !ordered { return Err("turn index out of order or duplicated"); }
    if !corpus.Ami? { return Ok(Journal.Export(st.rttm, None, None)); }
    var renders := Hypothesis(st.segments, regions);
    if renders.Err? { return Err(renders.error); }
    StreamsUnique(TaggedOf(st.segments, regions), renders.value.streams);
    return Ok(Journal.Export(st.rttm, Some(renders.value.text), Some(renders.value.streams.of)));
  }

  lemma {:induction false} StreamsExist(ts: seq<Tagged>) returns (s: Streams)
    ensures IsStreams(ts, s)
  {
    if ts == [] {
      s := Streams([], map[]);
    } else {
      var last := |ts| - 1;
      s := StreamsExist(ts[..last]);
      StreamsStep(ts[..last], ts[last], s);
      assert ts == ts[..last] + [ts[last]];
      s := Append(s, ts[last]);
    }
  }

  /** The driver's export of an AMI run is an export in the sense of the way from transcripts to the score. */
  lemma ExportIsScored(st: Stored, regions: seq<Region>, e: Journal.Export) returns (t: RoundTrip.Export)
    requires Journal.ExportOf(Journal.Ami, RowsOf(st, regions)) == Some(e)
    ensures t.rows == st.segments && t.regions == regions && e.werText.Some? && e.streams.Some?
    ensures RoundTrip.ExportedAs(t, Bundle.Hyps(e.rttm, e.werText.value, e.streams.value))
  {
    var ts := TaggedOf(st.segments, regions);
    var s := StreamsExist(ts);
    StreamsUnique(ts, s);
    t := RoundTrip.Export(st.segments, regions, Export.Renders(Join(Texts(ts)), s));
  }

  /** The input: the run completed with a segment that has text but no word timing. No invocation ever gets past that
    * recording, under no naming, unless somebody restarts the run. */
  lemma LostTimingStrands(o: Protocol.OutDir, n: Paths.Naming, r: Journal.RecId, st: Stored, regions: seq<Region>,
                          i: nat)
    returns (t: Protocol.System)
    requires Paths.SafeId(r) && i < |st.segments|
    requires var row := st.segments[i]; row.words.None? && row.raw.Some? && Strip(row.raw.value) != ""
    ensures Driver.RunRecorded(t, o, r) && t.runs[0].status.DbCompleted? && t.runs[0].rows == RowsOf(st, regions)
    ensures forall k, other, mode: Invocation.Mode ::
      Repetition.FinishesWithin(k, t, 0, Driver.Single(o, other, r), mode) <==> k > 0 && mode.movers.WithOperators?
  {
    assert !Exportable(st.segments[i]);
    t := Driver.UnexportableRunStrands(o, n, r, RowsOf(st, regions));
  }
}
