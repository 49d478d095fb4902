/** The artifact journal of the batch driver and its pure resume decision (tools/eval_run.py). */
module RunJournal {
  import opened Common

  type RecId = string
  type RunId = nat

  /** Every status the database can hold for a run. */
  datatype DbStatus = DbQueued | DbRunning | DbAwaitingAdjudication | DbPaused | DbCompleted | DbFailed | DbCancelled

  /** A journal status; `Other` stands for a missing or unrecognised string. */
  datatype Status =
    | Submitting | SubmissionUnknown
    | Queued | Running | AwaitingAdjudication | Completed | Failed | Cancelled
    | Other(text: string)

  predicate IsFailure(st: Status) { st.Failed? || st.Cancelled? }

  predicate IsResumable(st: Status) {
    st.Queued? || st.Running? || st.AwaitingAdjudication? || st.Submitting?
  }

  /** `map_db_status`: the identity on the shared vocabulary, None where the source raises (paused). */
  function MapDbStatus(db: DbStatus): Option<Status> {
    match db
    case DbQueued => Some(Queued)
    case DbRunning => Some(Running)
    case DbAwaitingAdjudication => Some(AwaitingAdjudication)
    case DbPaused => None
    case DbCompleted => Some(Completed)
    case DbFailed => Some(Failed)
    case DbCancelled => Some(Cancelled)
  }

  datatype Corpus = Ami | VoxConverse | UnknownCorpus(name: string)

  type Streams = map<string, seq<string>>

  /** What a completed run exports; the two transcript renders exist exactly for AMI. */
  datatype Export = Export(rttm: string, werText: Option<string>, streams: Option<Streams>)

  datatype Transcript = Transcript(text: string, streams: Streams)

  /** What the export makes of a run's stored rows: of its turns, and of its transcript within the UEM of its
    * recording; None where it raises on them. */
  datatype Rows = Rows(rttm: Option<string>, transcript: Option<Transcript>)

  /** `_export_completed`: None where it raises. Only a corpus with a transcript reference reads the transcript. */
  function ExportOf(corpus: Corpus, rows: Rows): (e: Option<Export>)
    ensures e.Some? ==> ExportOk(corpus, e.value)
  {
    if rows.rttm.None? then None
    else if !corpus.Ami? then Some(Export(rows.rttm.value, None, None))
    else if rows.transcript.None? then None
    else Some(Export(rows.rttm.value, Some(rows.transcript.value.text), Some(rows.transcript.value.streams)))
  }

  datatype Payload = TextPayload(text: string) | StreamsPayload(streams: Streams)

  datatype Artifact = RttmSha | WerTextSha | CpwerStreamsSha

  datatype Item = Item(
    status: Status,
    runUuid: Option<RunId>,
    sourcePath: Option<string>,
    batchId: Option<string>,
    artifacts: map<Artifact, Digest<Payload>>,
    rttm: Option<string>,
    werText: Option<string>,
    streams: Option<Streams>)

  const EMPTY_ITEM := Item(Other(""), None, None, None, map[], None, None, None)

  type Items = map<RecId, Item>

  datatype Journal = Journal(corpus: Corpus, cohort: string, items: Items)

  /** The four patches `_drive_one` merges into a journal item. */
  datatype Patch =
    | PatchSubmitting(path: string, batch: string)
    | PatchQueued(run: RunId)
    | PatchStatus(seen: Status)
    | PatchCompleted(exported: Export)

  function ItemOf(items: Items, rec: RecId): Item {
    if rec in items then items[rec] else EMPTY_ITEM
  }

  function ArtifactsOf(e: Export): map<Artifact, Digest<Payload>> {
    map[RttmSha := Sha256(TextPayload(e.rttm))]
    + (if e.werText.Some? then map[WerTextSha := Sha256(TextPayload(e.werText.value))] else map[])
    + (if e.streams.Some? then map[CpwerStreamsSha := Sha256(StreamsPayload(e.streams.value))] else map[])
  }

  /** `item.update(patch)`: keys the patch does not name keep their value. */
  function ApplyPatch(it: Item, p: Patch): Item {
    match p
    case PatchSubmitting(path, batch) =>
      it.(status := Submitting, sourcePath := Some(path), batchId := Some(batch))
    case PatchQueued(run) => it.(status := Queued, runUuid := Some(run))
    case PatchStatus(seen) => it.(status := seen)
    case PatchCompleted(e) =>
      it.(status := Completed, rttm := Some(e.rttm),
          werText := if e.werText.Some? then e.werText else it.werText,
          streams := if e.streams.Some? then e.streams else it.streams,
          artifacts := ArtifactsOf(e))
  }

  function Required(corpus: Corpus): set<Artifact>
    requires !corpus.UnknownCorpus?
  {
    if corpus.Ami? then {RttmSha, WerTextSha, CpwerStreamsSha} else {RttmSha}
  }

  datatype Action = Submit | Poll | SkipDone | Retry | Stop

  datatype Decision = Decision(rec: RecId, action: Action)

  /** The decision `plan_resume` takes for one recording. */
  function Decide(corpus: Corpus, items: Items, rec: RecId, resume: bool, retryFailed: bool): Action
    requires !corpus.UnknownCorpus?
  {
    if rec !in items then Submit
    else
      var it := items[rec];
      if it.status.Completed? then
        if Required(corpus) <= it.artifacts.Keys then SkipDone else Stop
      else if it.status.SubmissionUnknown? then Submit
      else if IsFailure(it.status) then (if retryFailed then Retry else Stop)
      else if IsResumable(it.status) then
        if resume && it.runUuid.Some? then Poll else if resume then Submit else Stop
      else Stop
  }

  /** `plan_resume`: one decision per selected id, in order; an unknown corpus is an error. */
  method PlanResume(journal: Journal, selected: seq<RecId>, resume: bool, retryFailed: bool)
    returns (r: Result<seq<Decision>, string>)
    ensures r.Err? <==> journal.corpus.UnknownCorpus?
    ensures r.Ok? ==> |r.value| == |selected|
    ensures r.Ok? ==> forall i :: 0 <= i < |selected| ==>
      r.value[i] == Decision(selected[i], Decide(journal.corpus, journal.items, selected[i], resume, retryFailed))
  {
    if journal.corpus.UnknownCorpus? {
      return Err("journal corpus has no required-artifact contract");
    }
    var decisions: seq<Decision> := [];
    for n := 0 to |selected|
      invariant |decisions| == n
      invariant forall i :: 0 <= i < n ==>
        decisions[i] == Decision(selected[i], Decide(journal.corpus, journal.items, selected[i], resume, retryFailed))
    {
      var rec := selected[n];
      var action: Action;
      if rec !in journal.items {
        action := Submit;
      } else {
        var item := journal.items[rec];
        if item.status.Completed? {
          action := if Required(journal.corpus) <= item.artifacts.Keys then SkipDone else Stop;
        } else if item.status.SubmissionUnknown? {
          action := Submit;
        } else if IsFailure(item.status) {
          action := if retryFailed then Retry else Stop;
        } else if IsResumable(item.status) {
          action := if resume && item.runUuid.Some? then Poll else if resume then Submit else Stop;
        } else {
          action := Stop;
        }
      }
      decisions := decisions + [Decision(rec, action)];
    }
    r := Ok(decisions);
  }

  /** Each stored artifact hash is the hash of the payload stored beside it, and all required ones exist. */
  ghost predicate CompletedOk(corpus: Corpus, it: Item) {
    && !corpus.UnknownCorpus?
    && Required(corpus) == it.artifacts.Keys
    && it.rttm.Some? && it.artifacts[RttmSha] == Sha256(TextPayload(it.rttm.value))
    && (corpus.Ami? ==>
          && it.werText.Some? && it.artifacts[WerTextSha] == Sha256(TextPayload(it.werText.value))
          && it.streams.Some? && it.artifacts[CpwerStreamsSha] == Sha256(StreamsPayload(it.streams.value)))
  }

  /** `_export_completed` renders the transcript exactly when the corpus has a transcript reference. */
  predicate ExportOk(corpus: Corpus, e: Export) {
    && (e.werText.Some? <==> corpus.Ami?)
    && (e.streams.Some? <==> corpus.Ami?)
  }

  /** Where `plan_resume` cannot stick: a status it recognises, and artifacts if completed. */
  ghost predicate ItemShape(corpus: Corpus, it: Item) {
    && !it.status.Other? && !it.status.SubmissionUnknown?
    && (!it.status.Submitting? ==> it.runUuid.Some?)
    && (it.status.Completed? ==> CompletedOk(corpus, it))
  }

  /** Recordings of `ids` whose journal item is not completed. */
  function Uncompleted(items: Items, ids: seq<RecId>): nat {
    if ids == [] then 0
    else (if ids[0] in items && items[ids[0]].status.Completed? then 0 else 1) + Uncompleted(items, ids[1..])
  }

  /** With resume and retry set, a well-shaped item never yields STOP. */
  lemma DecideNeverStops(corpus: Corpus, items: Items, rec: RecId)
    requires !corpus.UnknownCorpus?
    requires rec in items ==> ItemShape(corpus, items[rec])
    ensures Decide(corpus, items, rec, true, true) != Stop
  {
  }
}
