/** Invocations in a row, each ending anyhow: whether the manifest can be reached at all, and how many it takes.
  *
  * An invocation may end at any statement, by a kill or by one of its own raises; each leaves the journal with more or
  * less recorded, and the next invocation decides from that. Every recording has a cost, the number of invocations
  * that must end on it, or none if no number helps. The invocations share a naming, or each stages under a new root.
  */
module BatchRepetition {
  import opened Common
  import opened RunJournal
  import opened StagedPaths
  import opened BatchProtocol
  import opened BatchInvariant
  import opened BatchSafety
  import opened BatchInvocation

  /** An invocation with `cfg` starts in `s` and ends in `t` without finishing: it is killed or raises at some
    * statement, or records the status it has seen and raises. */
  ghost predicate EndsAnyhow(s: System, d: DriverId, cfg: Config, mode: Mode, t: System) {
    exists m :: Invocation(s, d, cfg, mode, m) && EndsIn(m, d, t)
  }

  ghost predicate EndsIn(m: System, d: DriverId, t: System) {
    Exec(m, Crash(d)) == Some(t) || Exec(m, RecordEnded(d)) == Some(t)
  }

  /** Invocations in a row with these arguments can end with the manifest, by the last of them at the latest. */
  ghost predicate FinishesAlong(cfgs: seq<Config>, s: System, d: DriverId, mode: Mode)
    decreases |cfgs|
  {
    && cfgs != []
    && (CanFinish(s, d, cfgs[0], mode)
        || exists t :: EndsAnyhow(s, d, cfgs[0], mode, t) && FinishesAlong(cfgs[1..], t, d, mode))
  }

  function Again(cfg: Config, n: nat): (cfgs: seq<Config>)
    ensures |cfgs| == n && forall i :: 0 <= i < n ==> cfgs[i] == cfg
  {
    seq(n, _ => cfg)
  }

  /** At most `n` invocations in a row, all with `cfg`, can end with the manifest. */
  ghost predicate FinishesWithin(n: nat, s: System, d: DriverId, cfg: Config, mode: Mode) {
    FinishesAlong(Again(cfg, n), s, d, mode)
  }

  // ------------------------------------------------------------------ costs

  /** What can become of an existing run: completed by its movers and exported, or polled as failed or cancelled, or
    * neither. */
  datatype Outlook = Completes | Dies | Stuck

  function OutlookOf(who: Movers, corpus: Corpus, a: RunRow): Outlook {
    if Completable(who, corpus, a) then Completes
    else if a.status.DbFailed? || a.status.DbCancelled? then Dies
    else Stuck
  }

  /** A staged path: not in the database, with one run that can be completed, or otherwise. */
  datatype PathState = Unknown | Adoptable | Barred

  function PathOutlook(s: System, path: string, who: Movers, corpus: Corpus): PathState {
    if path !in s.media then Unknown
    else if |Sole(s.runs, path)| == 1 && forall u :: u in Sole(s.runs, path) ==> Completable(who, corpus, s.runs[u])
    then Adoptable
    else Barred
  }

  /** The outlook of an item's recorded run. */
  function RecordedOutlook(runs: map<RunId, RunRow>, it: Item, who: Movers, corpus: Corpus): Option<Outlook> {
    if it.runUuid.Some? && it.runUuid.value in runs then Some(OutlookOf(who, corpus, runs[it.runUuid.value])) else None
  }

  /** The cost of a recording that is to be submitted. A run under its path that can be completed is adopted. Under an
    * unknown path the submission costs the invocation, unless `run.id` is readable, and leaves an older recorded run
    * in the item, to be polled next. Where the path bars adoption, only an older recorded run can help, and only if
    * an invocation ends after announcing and before recording another. */
  function SubmitCost(fixed: bool, recorded: Option<Outlook>, path: PathState): Option<nat> {
    match path
    case Adoptable => Some(0)
    case Barred => if recorded == Some(Completes) then Some(1) else None
    case Unknown =>
      if fixed then Some(0)
      else match recorded
        case None => Some(1)
        case Some(Completes) => Some(1)
        case Some(Dies) => Some(2)
        case Some(Stuck) => None
  }

  /** The cost of a recording whose recorded run is to be polled: a dead one costs the invocation and is retried. */
  function PollCost(fixed: bool, polled: Outlook, path: PathState): Option<nat> {
    match polled
    case Completes => Some(0)
    case Stuck => None
    case Dies =>
      var retried := SubmitCost(fixed, Some(Dies), path);
      if retried.Some? then Some(1 + retried.value) else None
  }

  function ActionCost(action: Action, fixed: bool, recorded: Option<Outlook>, path: PathState): Option<nat> {
    match action
    case SkipDone => Some(0)
    case Stop => None
    case Poll => if recorded.Some? then PollCost(fixed, recorded.value, path) else None
    case _ => SubmitCost(fixed, recorded, path)
  }

  /** What staging recording `i` can count on. If every invocation stages under a new root (`anew`), no later one can
    * adopt what this one submits: the path is as good as barred, or, were `run.id` readable, unknown each time. */
  function PathAhead(s: System, cfg: Config, i: nat, mode: Mode, anew: bool): PathState
    requires i < |cfg.ids|
  {
    if !anew then PathOutlook(s, PathAt(cfg, i), mode.movers, cfg.corpus) else if mode.fixed then Unknown else Barred
  }

  function Cost(s: System, cfg: Config, i: nat, mode: Mode, anew: bool): Option<nat>
    requires i < |cfg.ids| && !cfg.corpus.UnknownCorpus?
  {
    ActionCost(ActionAt(s, cfg, i), mode.fixed,
               RecordedOutlook(s.runs, ItemOf(Loaded(s, 0, cfg).items, cfg.ids[i]), mode.movers, cfg.corpus),
               PathAhead(s, cfg, i, mode, anew))
  }

  /** Where each invocation stages under a new root, its paths are unknown when it starts. */
  ghost predicate Opens(s: System, cfg: Config, anew: bool) {
    anew ==> forall i :: 0 <= i < |cfg.ids| ==> PathAt(cfg, i) !in s.media
  }

  function Costs(s: System, cfg: Config, mode: Mode, anew: bool): (cs: seq<Option<nat>>)
    requires !cfg.corpus.UnknownCorpus?
    ensures |cs| == |cfg.ids| && forall i :: 0 <= i < |cs| ==> cs[i] == Cost(s, cfg, i, mode, anew)
  {
    seq(|cfg.ids|, i requires 0 <= i < |cfg.ids| => Cost(s, cfg, i, mode, anew))
  }

  /** The sum, if every recording can be had at all. */
  function Sum(cs: seq<Option<nat>>): Option<nat> {
    if cs == [] then Some(0)
    else
      var rest := Sum(cs[..|cs| - 1]);
      if rest.Some? && cs[|cs| - 1].Some? then Some(rest.value + cs[|cs| - 1].value) else None
  }

  /** `after` is no less than `before`, None counting as infinite. */
  predicate NotLess(before: Option<nat>, after: Option<nat>) {
    after.Some? ==> before.Some? && before.value <= after.value
  }

  /** `after` is less than `before` by one at most. */
  predicate OneLess(before: Option<nat>, after: Option<nat>) {
    after.Some? ==> before.Some? && before.value <= after.value + 1
  }

  lemma {:induction false} SumNotLess(a: seq<Option<nat>>, b: seq<Option<nat>>)
    requires |a| == |b| && forall i :: 0 <= i < |a| ==> NotLess(a[i], b[i])
    ensures NotLess(Sum(a), Sum(b))
  {
    if a != [] { SumNotLess(a[..|a| - 1], b[..|b| - 1]); }
  }

  lemma {:induction false} SumOneLess(a: seq<Option<nat>>, b: seq<Option<nat>>, k: nat)
    requires |a| == |b| && k < |a| && OneLess(a[k], b[k])
    requires forall i :: 0 <= i < |a| && i != k ==> NotLess(a[i], b[i])
    ensures OneLess(Sum(a), Sum(b))
  {
    var last := |a| - 1;
    if k == last { SumNotLess(a[..last], b[..last]); } else { SumOneLess(a[..last], b[..last], k); }
  }

  lemma {:induction false} SumZero(cs: seq<Option<nat>>)
    ensures Sum(cs) == Some(0) <==> forall i :: 0 <= i < |cs| ==> cs[i] == Some(0)
  {
    if cs != [] {
      var last := |cs| - 1;
      SumZero(cs[..last]);
      assert forall i :: 0 <= i < last ==> cs[..last][i] == cs[i];
    }
  }

  lemma {:induction false} SumDrops(a: seq<Option<nat>>, b: seq<Option<nat>>, k: nat)
    requires |a| == |b| && k < |a| && Sum(a).Some? && a[k].Some? && a[k].value > 0 && b[k] == Some(a[k].value - 1)
    requires forall i :: 0 <= i < |a| && i != k ==> b[i] == a[i]
    ensures Sum(a).value > 0 && Sum(b) == Some(Sum(a).value - 1)
  {
    var last := |a| - 1;
    if k == last {
      assert a[..last] == b[..last];
    } else {
      SumDrops(a[..last], b[..last], k);
    }
  }

  lemma {:induction false} FirstPositive(cs: seq<Option<nat>>) returns (k: nat)
    requires Sum(cs).Some? && Sum(cs).value > 0
    ensures k < |cs| && cs[k].Some? && cs[k].value > 0 && forall i :: 0 <= i < k ==> cs[i] == Some(0)
  {
    var last := |cs| - 1;
    if Sum(cs[..last]).value > 0 {
      k := FirstPositive(cs[..last]);
    } else {
      k := last;
      SumZero(cs[..last]);
      assert forall i :: 0 <= i < last ==> cs[..last][i] == cs[i];
    }
  }

  // ------------------------------------------------------------------ outlooks only get worse

  /** What the movers may make of an outlook. */
  predicate WorseRun(a: Option<Outlook>, b: Option<Outlook>) { a == b || (a == Some(Completes) && b.Some?) }

  predicate WorsePath(a: PathState, b: PathState) { a == b || (a.Adoptable? && b.Barred?) }

  lemma CostGrows(action: Action, fixed: bool, r: Option<Outlook>, p: PathState, r': Option<Outlook>, p': PathState)
    requires WorseRun(r, r') && WorsePath(p, p')
    ensures NotLess(ActionCost(action, fixed, r, p), ActionCost(action, fixed, r', p'))
  {
  }

  lemma RunWorsens(s0: System, s: System, it: Item, who: Movers, corpus: Corpus)
    requires NotRevived(s0, s, who, corpus) && (it.runUuid.Some? ==> it.runUuid.value in s0.runs)
    ensures WorseRun(RecordedOutlook(s0.runs, it, who, corpus), RecordedOutlook(s.runs, it, who, corpus))
  {
  }

  lemma PathWorsens(s0: System, s: System, cfg: Config, i: nat, mode: Mode, anew: bool)
    requires NotRevived(s0, s, mode.movers, cfg.corpus) && i < |cfg.ids| && (anew || Same(s0, s, PathAt(cfg, i)))
    ensures WorsePath(PathAhead(s0, cfg, i, mode, anew), PathAhead(s, cfg, i, mode, anew))
  {
  }

  /** A run that is completed or no worse than it was. */
  lemma RunStaysAsGood(s0: System, s: System, it: Item, who: Movers, corpus: Corpus)
    requires NotRevived(s0, s, who, corpus) && Kept(s0, s, who, corpus)
    requires it.runUuid.Some? ==> it.runUuid.value in s0.runs
    ensures RecordedOutlook(s.runs, it, who, corpus) == RecordedOutlook(s0.runs, it, who, corpus)
  {
  }

  lemma PathStaysAsGood(s0: System, s: System, cfg: Config, i: nat, mode: Mode, anew: bool)
    requires NotRevived(s0, s, mode.movers, cfg.corpus) && Kept(s0, s, mode.movers, cfg.corpus)
    requires i < |cfg.ids| && (anew || Same(s0, s, PathAt(cfg, i)))
    ensures PathAhead(s, cfg, i, mode, anew) == PathAhead(s0, cfg, i, mode, anew)
  {
  }

  // ------------------------------------------------------------------ what an end leaves

  /** A batch under `--resume --retry-failed` may start here, and its environment can be verified. */
  ghost predicate Ready(s: System, d: DriverId, cfg: Config) {
    && Inv(s) && ProcOf(s, d).Idle? && ConfigOk(cfg) && DiskOf(s, cfg.out).lock.None? && Loadable(s, cfg)
    && cfg.resume && cfg.retryFailed && Verified(cfg.fpBefore, cfg.fpBefore, cfg.env)
  }

  /** An item's recorded run exists. */
  lemma RecordedExists(s: System, cfg: Config, rec: RecId)
    requires Inv(s)
    ensures var it := ItemOf(Loaded(s, 0, cfg).items, rec); it.runUuid.Some? ==> it.runUuid.value in s.runs
  {
    assert DiskOk(s, cfg.out);
    var j := Loaded(s, 0, cfg);
    if rec in j.items { assert ItemOk(j.corpus, j.items[rec], s.runs); }
  }

  /** A recording costs nothing exactly when one invocation can get past it. */
  lemma CostZero(s: System, cfg: Config, i: nat, mode: Mode, anew: bool)
    requires Inv(s) && i < |cfg.ids| && !cfg.corpus.UnknownCorpus? && Opens(s, cfg, anew)
    ensures Cost(s, cfg, i, mode, anew) == Some(0) <==> Passes(s, cfg, i, mode)
  {
    RecordedExists(s, cfg, cfg.ids[i]);
    var path := PathAt(cfg, i);
    forall u | u in Sole(s.runs, path) ensures path in s.media { assert RunOk(s, u); }
    if path !in s.media { assert Sole(s.runs, path) == {}; }
  }

  lemma AllPassExactly(s: System, cfg: Config, mode: Mode, anew: bool)
    requires Inv(s) && !cfg.corpus.UnknownCorpus? && Opens(s, cfg, anew)
    ensures AllPass(s, cfg, mode) <==> Sum(Costs(s, cfg, mode, anew)) == Some(0)
  {
    SumZero(Costs(s, cfg, mode, anew));
    forall i | 0 <= i < |cfg.ids| ensures Cost(s, cfg, i, mode, anew) == Some(0) <==> Passes(s, cfg, i, mode) {
      CostZero(s, cfg, i, mode, anew);
    }
  }

  lemma KilledStep(m: System, d: DriverId, cfg: Config) returns (t: System)
    requires Inv(m) && !ProcOf(m, d).Idle? && ProcOf(m, d).cfg == cfg
    ensures Exec(m, Crash(d)) == Some(t) && Inv(t) && ProcOf(t, d).Idle? && t.media == m.media && t.runs == m.runs
    ensures DiskOf(t, cfg.out) == DiskOf(m, cfg.out).(lock := None)
    ensures ProcOf(m, d).Working? ==> DiskOf(m, cfg.out).journal == Some(ProcOf(m, d).journal)
  {
    t := Exec(m, Crash(d)).value;
    assert ProcOk(m, d);
    InvStep(m, Crash(d), t);
  }

  lemma AfterCrash(s: System, d: DriverId, cfg: Config, mode: Mode, m: System) returns (t: System)
    requires Ready(s, d, cfg) && On(s, d, cfg, mode, m) && !ProcOf(m, d).Idle?
    ensures Exec(m, Crash(d)) == Some(t) && Ready(t, d, cfg) && t.media == m.media && t.runs == m.runs
    ensures ProcOf(m, d).Locked? ==> Loaded(t, 0, cfg) == Loaded(s, 0, cfg)
    ensures ProcOf(m, d).Working? ==> ProcOf(m, d).cfg == cfg && Loaded(t, 0, cfg) == ProcOf(m, d).journal
  {
    t := KilledStep(m, d, cfg);
    assert ProcOk(m, d);
  }

  lemma AfterRecord(s: System, d: DriverId, cfg: Config, mode: Mode, m: System, t: System)
    requires Ready(s, d, cfg) && On(s, d, cfg, mode, m) && Exec(m, RecordEnded(d)) == Some(t)
    ensures Ready(t, d, cfg) && t.media == m.media && t.runs == m.runs
    ensures At(ProcOf(m, d)) && ProcOf(m, d).pc.Ended? && ProcOf(m, d).cfg == cfg
    ensures var p := ProcOf(m, d); var rec := cfg.ids[p.k];
      Loaded(t, 0, cfg)
      == p.journal.(items := p.journal.items[rec := ApplyPatch(ItemOf(p.journal.items, rec), PatchStatus(p.pc.seen))])
  {
    assert ProcOk(m, d);
    InvStep(m, RecordEnded(d), t);
  }

  /** The database and the journal in `t` are those of the process in `m`. */
  ghost predicate Left(m: System, d: DriverId, cfg: Config, t: System) {
    && ProcOf(m, d).Working? && ProcOf(m, d).cfg == cfg && !cfg.corpus.UnknownCorpus?
    && t.media == m.media && t.runs == m.runs && Loaded(t, 0, cfg).items == ProcOf(m, d).journal.items
  }

  lemma SameActionAt(s: System, t: System, cfg: Config, i: nat)
    requires i < |cfg.ids| && !cfg.corpus.UnknownCorpus?
    requires SameItem(Loaded(s, 0, cfg).items, Loaded(t, 0, cfg).items, cfg.ids[i])
    ensures ActionAt(t, cfg, i) == ActionAt(s, cfg, i)
  {
  }

  /** An untouched recording has not become cheaper. */
  lemma UntouchedNotLess(s: System, cfg: Config, mode: Mode, anew: bool, t: System, i: nat)
    requires Inv(s) && NotRevived(s, t, mode.movers, cfg.corpus) && i < |cfg.ids| && !cfg.corpus.UnknownCorpus?
    requires SameItem(Loaded(s, 0, cfg).items, Loaded(t, 0, cfg).items, cfg.ids[i]) && Same(s, t, PathAt(cfg, i))
    ensures NotLess(Cost(s, cfg, i, mode, anew), Cost(t, cfg, i, mode, anew))
  {
    var it := ItemOf(Loaded(s, 0, cfg).items, cfg.ids[i]);
    SameActionAt(s, t, cfg, i);
    RecordedExists(s, cfg, cfg.ids[i]);
    RunWorsens(s, t, it, mode.movers, cfg.corpus);
    PathWorsens(s, t, cfg, i, mode, anew);
    CostGrows(ActionAt(s, cfg, i), mode.fixed,
              RecordedOutlook(s.runs, it, mode.movers, cfg.corpus), PathAhead(s, cfg, i, mode, anew),
              RecordedOutlook(t.runs, it, mode.movers, cfg.corpus), PathAhead(t, cfg, i, mode, anew));
  }

  lemma SameRuns(s: System, m: System, t: System, who: Movers, corpus: Corpus)
    requires NotRevived(s, m, who, corpus) && t.runs == m.runs
    ensures NotRevived(s, t, who, corpus)
  {
  }

  /** A recording other than the one the process was at. */
  lemma OtherNotLess(s: System, d: DriverId, cfg: Config, mode: Mode, anew: bool, m: System, t: System, i: nat)
    requires Inv(s) && Opens(s, cfg, anew) && Track(s, d, cfg, mode, m) && ProcOf(m, d).Working?
    requires i < |cfg.ids| && i != ProcOf(m, d).k
    requires t.media == m.media && t.runs == m.runs
    requires SameItem(ProcOf(m, d).journal.items, Loaded(t, 0, cfg).items, cfg.ids[i])
    ensures !cfg.corpus.UnknownCorpus? && NotLess(Cost(s, cfg, i, mode, anew), Cost(t, cfg, i, mode, anew))
  {
    if i < ProcOf(m, d).k {
      assert Passes(s, cfg, i, mode);
      CostZero(s, cfg, i, mode, anew);
    } else {
      assert Ahead(s, cfg, m, ProcOf(m, d), i);
      SameRuns(s, m, t, mode.movers, cfg.corpus);
      UntouchedNotLess(s, cfg, mode, anew, t, i);
    }
  }

  // ------------------------------------------------------------------ the recording it ended on

  lemma AnnouncedOneLess(fixed: bool, r: Option<Outlook>, p: PathState, r': Option<Outlook>, p': PathState)
    requires WorseRun(r, r') && (WorsePath(p, p') || p.Unknown?)
    ensures OneLess(SubmitCost(fixed, r, p),
                    ActionCost(if r'.Some? then Poll else Submit, fixed, r', p'))
  {
  }

  /** It had been announced, and no other run was recorded. */
  lemma AnnouncedDeath(s: System, d: DriverId, cfg: Config, mode: Mode, anew: bool, m: System, t: System)
    requires Inv(s) && Inv(m) && NotRevived(s, m, mode.movers, cfg.corpus) && Left(m, d, cfg, t) && At(ProcOf(m, d))
    requires cfg.resume && Awaiting(ProcOf(m, d), PathOf(ProcOf(m, d)))
    requires Submits(s, cfg, ProcOf(m, d).k) && SameRecorded(s, cfg, ProcOf(m, d))
    requires Same(s, m, PathAt(cfg, ProcOf(m, d).k)) || PathAt(cfg, ProcOf(m, d).k) !in s.media
    ensures OneLess(Cost(s, cfg, ProcOf(m, d).k, mode, anew), Cost(t, cfg, ProcOf(m, d).k, mode, anew))
  {
    var k, who := ProcOf(m, d).k, mode.movers;
    var it, jt := ItemOf(Loaded(s, 0, cfg).items, cfg.ids[k]), ItemOf(Loaded(t, 0, cfg).items, cfg.ids[k]);
    RecordedExists(s, cfg, cfg.ids[k]);
    SameRecordedRun(s, d, cfg, m);
    SameRuns(s, m, t, who, cfg.corpus);
    RunWorsens(s, t, it, who, cfg.corpus);
    if anew || Same(s, m, PathAt(cfg, k)) { PathWorsens(s, t, cfg, k, mode, anew); }
    AnnouncedOneLess(mode.fixed,
                     RecordedOutlook(s.runs, it, who, cfg.corpus), PathAhead(s, cfg, k, mode, anew),
                     RecordedOutlook(t.runs, jt, who, cfg.corpus), PathAhead(t, cfg, k, mode, anew));
  }

  lemma SameRecordedRun(s: System, d: DriverId, cfg: Config, m: System)
    requires At(ProcOf(m, d)) && ProcOf(m, d).cfg == cfg && SameRecorded(s, cfg, ProcOf(m, d))
    ensures var rec := cfg.ids[ProcOf(m, d).k];
      ItemOf(ProcOf(m, d).journal.items, rec).runUuid == ItemOf(Loaded(s, 0, cfg).items, rec).runUuid
  {
    var rec := cfg.ids[ProcOf(m, d).k];
    var a, b := ItemOf(ProcOf(m, d).journal.items, rec).runUuid, ItemOf(Loaded(s, 0, cfg).items, rec).runUuid;
    if a.Some? { assert a.value in RecordedRun(ProcOf(m, d).journal.items, rec); }
    if b.Some? { assert b.value in RecordedRun(Loaded(s, 0, cfg).items, rec); }
  }

  /** What holding run `u` says about the cost the recording had: it was polled, adopted, or free. */
  lemma HeldBefore(s: System, cfg: Config, mode: Mode, anew: bool, m: System, k: nat, u: RunId)
    requires Inv(s) && Opens(s, cfg, anew) && k < |cfg.ids| && !cfg.corpus.UnknownCorpus?
    requires Holds(s, cfg, mode, m, k, u)
    ensures
      || Cost(s, cfg, k, mode, anew) == Some(0)
      || (Same(s, m, PathAt(cfg, k)) && ActionAt(s, cfg, k).Poll?
          && ItemOf(Loaded(s, 0, cfg).items, cfg.ids[k]).runUuid == Some(u) && u in s.runs)
      || (Same(s, m, PathAt(cfg, k)) && Submits(s, cfg, k) && Sole(s.runs, PathAt(cfg, k)) == {u} && u in s.runs
          && !Completable(mode.movers, cfg.corpus, s.runs[u]) && PathAt(cfg, k) in s.media)
  {
    RecordedExists(s, cfg, cfg.ids[k]);
    if ActionAt(s, cfg, k).Poll? {
      var it := ItemOf(Loaded(s, 0, cfg).items, cfg.ids[k]);
      assert it.runUuid.value in Awaited(s, cfg, k);
    } else if !Passes(s, cfg, k, mode) {
      AdoptedBefore(s, cfg, mode, m, k, u);
    } else {
      CostZero(s, cfg, k, mode, anew);
    }
  }

  lemma AdoptedBefore(s: System, cfg: Config, mode: Mode, m: System, k: nat, u: RunId)
    requires Inv(s) && k < |cfg.ids| && !cfg.corpus.UnknownCorpus? && Holds(s, cfg, mode, m, k, u)
    requires !ActionAt(s, cfg, k).Poll? && !Passes(s, cfg, k, mode)
    ensures Same(s, m, PathAt(cfg, k)) && Submits(s, cfg, k) && Sole(s.runs, PathAt(cfg, k)) == {u} && u in s.runs
    ensures !Completable(mode.movers, cfg.corpus, s.runs[u]) && PathAt(cfg, k) in s.media
  {
    var path := PathAt(cfg, k);
    assert Awaited(s, cfg, k) == Sole(s.runs, path);
    assert !Live(s, cfg, k, mode.movers);
    var v :| v in Sole(s.runs, path);
    assert v == u && RunOk(s, u);
  }

  lemma PolledOneLess(fixed: bool, r: Outlook, p: PathState, r': Outlook, p': PathState, failure: bool)
    requires WorseRun(Some(r), Some(r')) && WorsePath(p, p') && (failure ==> !r.Stuck?)
    ensures OneLess(PollCost(fixed, r, p), ActionCost(if failure then Retry else Poll, fixed, Some(r'), p'))
  {
  }

  /** It held run `u`, and the item it left has that run recorded: retried if a failure was recorded, polled if not. */
  lemma HoldingDeath(s: System, cfg: Config, mode: Mode, anew: bool, m: System, t: System, k: nat, u: RunId,
                     failure: bool)
    requires Inv(s) && Opens(s, cfg, anew) && k < |cfg.ids| && !cfg.corpus.UnknownCorpus?
    requires NotRevived(s, m, mode.movers, cfg.corpus)
    requires Holds(s, cfg, mode, m, k, u) && t.media == m.media && t.runs == m.runs && u in m.runs
    requires ItemOf(Loaded(t, 0, cfg).items, cfg.ids[k]).runUuid == Some(u)
    requires ActionAt(t, cfg, k) == if failure then Retry else Poll
    requires failure && u in s.runs && !Completable(mode.movers, cfg.corpus, s.runs[u]) ==>
      s.runs[u].status.DbFailed? || s.runs[u].status.DbCancelled?
    ensures OneLess(Cost(s, cfg, k, mode, anew), Cost(t, cfg, k, mode, anew))
  {
    var who := mode.movers;
    HeldBefore(s, cfg, mode, anew, m, k, u);
    if Cost(s, cfg, k, mode, anew) != Some(0) {
      SameRuns(s, m, t, who, cfg.corpus);
      PathWorsens(s, t, cfg, k, mode, anew);
      var r, r' := OutlookOf(who, cfg.corpus, s.runs[u]), OutlookOf(who, cfg.corpus, t.runs[u]);
      assert WorseRun(Some(r), Some(r'));
      if ActionAt(s, cfg, k).Poll? {
        PolledOneLess(mode.fixed, r, PathAhead(s, cfg, k, mode, anew), r', PathAhead(t, cfg, k, mode, anew), failure);
      } else {
        assert u in Sole(s.runs, PathAt(cfg, k));
        assert PathAhead(s, cfg, k, mode, anew).Barred? && !r'.Completes?;
      }
    }
  }

  /** The process died at some statement of recording `k`. */
  lemma DeathOneLess(s: System, d: DriverId, cfg: Config, mode: Mode, anew: bool, m: System, t: System)
    requires Inv(s) && Opens(s, cfg, anew) && Inv(m) && Track(s, d, cfg, mode, m) && Left(m, d, cfg, t)
    requires At(ProcOf(m, d)) && cfg.resume
    ensures OneLess(Cost(s, cfg, ProcOf(m, d).k, mode, anew), Cost(t, cfg, ProcOf(m, d).k, mode, anew))
  {
    var p := ProcOf(m, d);
    assert ProcOk(m, d);
    match p.pc
    case AtLoop => BeforeDeath(s, d, cfg, mode, anew, m, t);
    case Staged => BeforeDeath(s, d, cfg, mode, anew, m, t);
    case Announced => AnnouncedDeath(s, d, cfg, mode, anew, m, t);
    case Conflicted => AnnouncedDeath(s, d, cfg, mode, anew, m, t);
    case Submitted(_) => AnnouncedDeath(s, d, cfg, mode, anew, m, t);
    case HaveRun(_) => AnnouncedDeath(s, d, cfg, mode, anew, m, t);
    case Recorded(u) => HeldDeath(s, d, cfg, mode, anew, m, t, u);
    case Polling(u) => HeldDeath(s, d, cfg, mode, anew, m, t, u);
    case Ended(u, _) => HeldDeath(s, d, cfg, mode, anew, m, t, u);
    case Exported(_, _) => CostZero(s, cfg, p.k, mode, anew);
    case Bundling(_) =>
    case Closing(_) =>
  }

  lemma BeforeDeath(s: System, d: DriverId, cfg: Config, mode: Mode, anew: bool, m: System, t: System)
    requires Inv(s) && NotRevived(s, m, mode.movers, cfg.corpus) && Left(m, d, cfg, t) && At(ProcOf(m, d))
    requires Ahead(s, cfg, m, ProcOf(m, d), ProcOf(m, d).k)
    ensures OneLess(Cost(s, cfg, ProcOf(m, d).k, mode, anew), Cost(t, cfg, ProcOf(m, d).k, mode, anew))
  {
    SameRuns(s, m, t, mode.movers, cfg.corpus);
    UntouchedNotLess(s, cfg, mode, anew, t, ProcOf(m, d).k);
  }

  lemma HeldDeath(s: System, d: DriverId, cfg: Config, mode: Mode, anew: bool, m: System, t: System, u: RunId)
    requires Inv(s) && Opens(s, cfg, anew) && NotRevived(s, m, mode.movers, cfg.corpus) && Left(m, d, cfg, t)
    requires At(ProcOf(m, d)) && cfg.resume
    requires Attached(m, ProcOf(m, d), u) && Resumable(ProcOf(m, d)) && Holds(s, cfg, mode, m, ProcOf(m, d).k, u)
    ensures OneLess(Cost(s, cfg, ProcOf(m, d).k, mode, anew), Cost(t, cfg, ProcOf(m, d).k, mode, anew))
  {
    HoldingDeath(s, cfg, mode, anew, m, t, ProcOf(m, d).k, u, false);
  }

  /** It recorded what it had seen. */
  lemma RecordOneLess(s: System, d: DriverId, cfg: Config, mode: Mode, anew: bool, m: System, t: System)
    requires Inv(s) && Opens(s, cfg, anew) && Inv(m) && Track(s, d, cfg, mode, m)
    requires At(ProcOf(m, d)) && ProcOf(m, d).pc.Ended?
    requires ProcOf(m, d).cfg == cfg && cfg.resume && cfg.retryFailed && t.media == m.media && t.runs == m.runs
    requires var p := ProcOf(m, d); var rec := cfg.ids[p.k];
      Loaded(t, 0, cfg)
      == p.journal.(items := p.journal.items[rec := ApplyPatch(ItemOf(p.journal.items, rec), PatchStatus(p.pc.seen))])
    ensures !cfg.corpus.UnknownCorpus?
    ensures OneLess(Cost(s, cfg, ProcOf(m, d).k, mode, anew), Cost(t, cfg, ProcOf(m, d).k, mode, anew))
  {
    assert ProcOk(m, d);
    var p := ProcOf(m, d);
    HoldingDeath(s, cfg, mode, anew, m, t, p.k, p.pc.run, IsFailure(p.pc.seen));
  }

  // ------------------------------------------------------------------ no end saves more than one

  lemma CrashOneLess(s: System, d: DriverId, cfg: Config, mode: Mode, anew: bool, m: System, t: System)
    requires Ready(s, d, cfg) && Opens(s, cfg, anew) && On(s, d, cfg, mode, m) && Exec(m, Crash(d)) == Some(t)
    ensures Ready(t, d, cfg) && OneLess(Sum(Costs(s, cfg, mode, anew)), Sum(Costs(t, cfg, mode, anew)))
  {
    var u := AfterCrash(s, d, cfg, mode, m);
    var a, b := Costs(s, cfg, mode, anew), Costs(t, cfg, mode, anew);
    if ProcOf(m, d).Locked? {
      forall i | 0 <= i < |cfg.ids| ensures NotLess(a[i], b[i]) { LockedNotLess(s, d, cfg, mode, anew, m, t, i); }
      SumNotLess(a, b);
    } else {
      forall i | 0 <= i < |cfg.ids| && i != ProcOf(m, d).k ensures NotLess(a[i], b[i]) {
        OtherNotLess(s, d, cfg, mode, anew, m, t, i);
      }
      if At(ProcOf(m, d)) {
        DeathOneLess(s, d, cfg, mode, anew, m, t);
        SumOneLess(a, b, ProcOf(m, d).k);
      } else {
        SumNotLess(a, b);
      }
    }
  }

  lemma LockedNotLess(s: System, d: DriverId, cfg: Config, mode: Mode, anew: bool, m: System, t: System, i: nat)
    requires Inv(s) && Track(s, d, cfg, mode, m) && ProcOf(m, d).Locked? && i < |cfg.ids| && !cfg.corpus.UnknownCorpus?
    requires t.media == m.media && t.runs == m.runs && Loaded(t, 0, cfg) == Loaded(s, 0, cfg)
    ensures NotLess(Cost(s, cfg, i, mode, anew), Cost(t, cfg, i, mode, anew))
  {
    SameRuns(s, m, t, mode.movers, cfg.corpus);
    assert Same(s, m, PathAt(cfg, i));
    UntouchedNotLess(s, cfg, mode, anew, t, i);
  }

  lemma RecordedEndOneLess(s: System, d: DriverId, cfg: Config, mode: Mode, anew: bool, m: System, t: System)
    requires Ready(s, d, cfg) && Opens(s, cfg, anew) && On(s, d, cfg, mode, m) && Exec(m, RecordEnded(d)) == Some(t)
    ensures Ready(t, d, cfg) && OneLess(Sum(Costs(s, cfg, mode, anew)), Sum(Costs(t, cfg, mode, anew)))
  {
    AfterRecord(s, d, cfg, mode, m, t);
    var a, b, k := Costs(s, cfg, mode, anew), Costs(t, cfg, mode, anew), ProcOf(m, d).k;
    forall i | 0 <= i < |cfg.ids| && i != k ensures NotLess(a[i], b[i]) {
      assert cfg.ids[i] != cfg.ids[k];
      OtherNotLess(s, d, cfg, mode, anew, m, t, i);
    }
    RecordOneLess(s, d, cfg, mode, anew, m, t);
    SumOneLess(a, b, k);
  }

  /** However an invocation ends, it takes at most one off the sum. */
  lemma EndOneLess(s: System, d: DriverId, cfg: Config, mode: Mode, anew: bool, t: System)
    requires Ready(s, d, cfg) && Opens(s, cfg, anew) && EndsAnyhow(s, d, cfg, mode, t)
    ensures Ready(t, d, cfg) && OneLess(Sum(Costs(s, cfg, mode, anew)), Sum(Costs(t, cfg, mode, anew)))
  {
    var m :| Invocation(s, d, cfg, mode, m) && EndsIn(m, d, t);
    Invoked(s, d, cfg, mode, m);
    if Exec(m, Crash(d)) == Some(t) {
      CrashOneLess(s, d, cfg, mode, anew, m, t);
    } else {
      RecordedEndOneLess(s, d, cfg, mode, anew, m, t);
    }
  }

  // ------------------------------------------------------------------ some end saves one

  /** A recording behind is done and costs nothing. */
  lemma PassedCostsNothing(m: System, d: DriverId, cfg: Config, mode: Mode, anew: bool, t: System, i: nat)
    requires Inv(m) && ProcOf(m, d).Working? && ProcOf(m, d).cfg == cfg && i < ProcOf(m, d).k && i < |cfg.ids|
    requires !cfg.corpus.UnknownCorpus? && SameItem(ProcOf(m, d).journal.items, Loaded(t, 0, cfg).items, cfg.ids[i])
    ensures Cost(t, cfg, i, mode, anew) == Some(0)
  {
    assert ProcOk(m, d) && DiskOk(m, cfg.out);
    var j := ProcOf(m, d).journal;
    assert Done(j.items, cfg.ids[i]);
    assert ItemOk(j.corpus, j.items[cfg.ids[i]], m.runs);
  }

  lemma AheadCostsTheSame(s: System, cfg: Config, mode: Mode, anew: bool, t: System, i: nat)
    requires Inv(s) && NotRevived(s, t, mode.movers, cfg.corpus) && Kept(s, t, mode.movers, cfg.corpus)
    requires i < |cfg.ids| && !cfg.corpus.UnknownCorpus?
    requires SameItem(Loaded(s, 0, cfg).items, Loaded(t, 0, cfg).items, cfg.ids[i]) && Same(s, t, PathAt(cfg, i))
    ensures Cost(t, cfg, i, mode, anew) == Cost(s, cfg, i, mode, anew)
  {
    var it := ItemOf(Loaded(s, 0, cfg).items, cfg.ids[i]);
    SameActionAt(s, t, cfg, i);
    RecordedExists(s, cfg, cfg.ids[i]);
    RunStaysAsGood(s, t, it, mode.movers, cfg.corpus);
    PathStaysAsGood(s, t, cfg, i, mode, anew);
  }

  lemma SameRunsKept(s: System, m: System, t: System, who: Movers, corpus: Corpus)
    requires NotRevived(s, m, who, corpus) && Kept(s, m, who, corpus) && t.runs == m.runs
    ensures NotRevived(s, t, who, corpus) && Kept(s, t, who, corpus)
  {
  }

  lemma OthersCost(s: System, d: DriverId, cfg: Config, mode: Mode, anew: bool, m: System, t: System, i: nat)
    requires Inv(s) && Opens(s, cfg, anew) && Inv(m) && Track(s, d, cfg, mode, m) && Kept(s, m, mode.movers, cfg.corpus)
    requires ProcOf(m, d).Working? && i < |cfg.ids| && i != ProcOf(m, d).k && t.media == m.media && t.runs == m.runs
    requires SameItem(ProcOf(m, d).journal.items, Loaded(t, 0, cfg).items, cfg.ids[i])
    ensures !cfg.corpus.UnknownCorpus? && Cost(t, cfg, i, mode, anew) == Cost(s, cfg, i, mode, anew)
  {
    if i < ProcOf(m, d).k {
      assert Passes(s, cfg, i, mode);
      CostZero(s, cfg, i, mode, anew);
      PassedCostsNothing(m, d, cfg, mode, anew, t, i);
    } else {
      assert Ahead(s, cfg, m, ProcOf(m, d), i);
      SameRunsKept(s, m, t, mode.movers, cfg.corpus);
      AheadCostsTheSame(s, cfg, mode, anew, t, i);
    }
  }

  lemma OnlyOnePatched(before: Items, after: Items, cfg: Config, k: nat)
    requires ConfigOk(cfg) && k < |cfg.ids| && cfg.ids[k] in after && after == before[cfg.ids[k] := after[cfg.ids[k]]]
    ensures forall i :: 0 <= i < |cfg.ids| && i != k ==> SameItem(before, after, cfg.ids[i])
  {
    assert forall i :: 0 <= i < |cfg.ids| && i != k ==> cfg.ids[i] != cfg.ids[k];
  }

  /** One less for the recording the process was at, the same for all others. */
  lemma DropsHere(s: System, d: DriverId, cfg: Config, mode: Mode, anew: bool, m: System, t: System, k: nat)
    requires Inv(s) && Opens(s, cfg, anew) && Inv(m) && Track(s, d, cfg, mode, m) && Kept(s, m, mode.movers, cfg.corpus)
    requires ProcOf(m, d).Working? && ProcOf(m, d).cfg == cfg && ProcOf(m, d).k == k && k < |cfg.ids|
    requires t.media == m.media && t.runs == m.runs && !cfg.corpus.UnknownCorpus?
    requires forall i :: 0 <= i < |cfg.ids| && i != k ==>
      SameItem(ProcOf(m, d).journal.items, Loaded(t, 0, cfg).items, cfg.ids[i])
    requires Sum(Costs(s, cfg, mode, anew)).Some?
    requires Cost(s, cfg, k, mode, anew).Some? && Cost(s, cfg, k, mode, anew).value > 0
    requires Cost(t, cfg, k, mode, anew) == Some(Cost(s, cfg, k, mode, anew).value - 1)
    ensures Sum(Costs(s, cfg, mode, anew)).value > 0
    ensures Sum(Costs(t, cfg, mode, anew)) == Some(Sum(Costs(s, cfg, mode, anew)).value - 1)
  {
    forall i | 0 <= i < |cfg.ids| && i != k ensures Costs(t, cfg, mode, anew)[i] == Costs(s, cfg, mode, anew)[i] {
      OthersCost(s, d, cfg, mode, anew, m, t, i);
    }
    SumDrops(Costs(s, cfg, mode, anew), Costs(t, cfg, mode, anew), k);
  }

  lemma CrashDrops(s: System, d: DriverId, cfg: Config, mode: Mode, anew: bool, m: System) returns (t: System)
    requires Ready(s, d, cfg) && Opens(s, cfg, anew) && Going(s, d, cfg, mode, m)
    requires At(ProcOf(m, d)) && ProcOf(m, d).cfg == cfg
    requires Sum(Costs(s, cfg, mode, anew)).Some? && Cost(s, cfg, ProcOf(m, d).k, mode, anew).Some?
    requires Cost(s, cfg, ProcOf(m, d).k, mode, anew).value > 0
    requires forall t :: Left(m, d, cfg, t) ==>
      Cost(t, cfg, ProcOf(m, d).k, mode, anew) == Some(Cost(s, cfg, ProcOf(m, d).k, mode, anew).value - 1)
    ensures EndsAnyhow(s, d, cfg, mode, t) && Ready(t, d, cfg)
    ensures Sum(Costs(s, cfg, mode, anew)).value > 0
    ensures Sum(Costs(t, cfg, mode, anew)) == Some(Sum(Costs(s, cfg, mode, anew)).value - 1)
  {
    t := AfterCrash(s, d, cfg, mode, m);
    var k := ProcOf(m, d).k;
    assert Left(m, d, cfg, t) && EndsIn(m, d, t);
    DropsHere(s, d, cfg, mode, anew, m, t, k);
  }

  /** It dies submitting under an unknown path. */
  lemma SubmissionCost(s: System, d: DriverId, cfg: Config, mode: Mode, m: System, t: System, u: RunId)
    requires Inv(s) && Inv(m) && NotRevived(s, m, mode.movers, cfg.corpus)
    requires Kept(s, m, mode.movers, cfg.corpus) && Left(m, d, cfg, t)
    requires At(ProcOf(m, d)) && ProcOf(m, d).pc == Submitted(u) && cfg.resume && !mode.fixed
    requires Submits(s, cfg, ProcOf(m, d).k) && SameRecorded(s, cfg, ProcOf(m, d))
    requires PathAt(cfg, ProcOf(m, d).k) !in s.media
    requires Sole(m.runs, PathAt(cfg, ProcOf(m, d).k)) == {u} && u in m.runs && m.runs[u].status.DbQueued?
    requires Cost(s, cfg, ProcOf(m, d).k, mode, false).Some?
    ensures Cost(s, cfg, ProcOf(m, d).k, mode, false).value > 0
    ensures Cost(t, cfg, ProcOf(m, d).k, mode, false) == Some(Cost(s, cfg, ProcOf(m, d).k, mode, false).value - 1)
  {
    var k, who := ProcOf(m, d).k, mode.movers;
    assert ProcOk(m, d);
    var it := ItemOf(Loaded(s, 0, cfg).items, cfg.ids[k]);
    RecordedExists(s, cfg, cfg.ids[k]);
    SameRecordedRun(s, d, cfg, m);
    SameRunsKept(s, m, t, who, cfg.corpus);
    RunStaysAsGood(s, t, it, who, cfg.corpus);
    NowAdoptable(m, t, PathAt(cfg, k), u, who, cfg.corpus);
  }

  lemma NowAdoptable(m: System, t: System, path: string, u: RunId, who: Movers, corpus: Corpus)
    requires Inv(m) && t.media == m.media && t.runs == m.runs
    requires Sole(m.runs, path) == {u} && u in m.runs && m.runs[u].status.DbQueued?
    ensures PathOutlook(t, path, who, corpus).Adoptable?
  {
    assert RunOk(m, u) && u in Sole(m.runs, path);
  }

  /** It dies after announcing, with an older recorded run that can be completed and a path that bars adoption. */
  lemma AnnouncementCost(s: System, d: DriverId, cfg: Config, mode: Mode, anew: bool, m: System, t: System)
    requires Inv(s) && Inv(m) && NotRevived(s, m, mode.movers, cfg.corpus)
    requires Kept(s, m, mode.movers, cfg.corpus) && Left(m, d, cfg, t)
    requires At(ProcOf(m, d)) && ProcOf(m, d).pc.Announced? && cfg.resume
    requires Submits(s, cfg, ProcOf(m, d).k) && SameRecorded(s, cfg, ProcOf(m, d))
    requires PathAhead(s, cfg, ProcOf(m, d).k, mode, anew).Barred?
    requires Cost(s, cfg, ProcOf(m, d).k, mode, anew).Some?
    ensures Cost(s, cfg, ProcOf(m, d).k, mode, anew) == Some(1) && Cost(t, cfg, ProcOf(m, d).k, mode, anew) == Some(0)
  {
    var k, who := ProcOf(m, d).k, mode.movers;
    assert ProcOk(m, d);
    RecordedExists(s, cfg, cfg.ids[k]);
    SameRecordedRun(s, d, cfg, m);
    SameRunsKept(s, m, t, who, cfg.corpus);
    RunStaysAsGood(s, t, ItemOf(Loaded(s, 0, cfg).items, cfg.ids[k]), who, cfg.corpus);
  }

  lemma SaveBySubmitting(s: System, d: DriverId, cfg: Config, mode: Mode, m: System, k: nat) returns (t: System)
    requires Ready(s, d, cfg) && Going(s, d, cfg, mode, m) && k < |cfg.ids| && Stands(m, d, cfg, k, Announced)
    requires Sum(Costs(s, cfg, mode, false)).Some?
    requires Cost(s, cfg, k, mode, false).Some? && Cost(s, cfg, k, mode, false).value > 0
    requires Submits(s, cfg, k) && PathAt(cfg, k) !in s.media && !mode.fixed
    ensures EndsAnyhow(s, d, cfg, mode, t) && Ready(t, d, cfg) && Sum(Costs(s, cfg, mode, false)).value > 0
    ensures Sum(Costs(t, cfg, mode, false)) == Some(Sum(Costs(s, cfg, mode, false)).value - 1)
  {
    var n, u := SubmitFresh(s, d, cfg, mode, m, k);
    SubmissionSaves(s, d, cfg, mode, n, k, u);
    t := CrashDrops(s, d, cfg, mode, false, n);
  }

  lemma SubmissionSaves(s: System, d: DriverId, cfg: Config, mode: Mode, n: System, k: nat, u: RunId)
    requires Inv(s) && Inv(n) && Track(s, d, cfg, mode, n) && Kept(s, n, mode.movers, cfg.corpus)
    requires cfg.resume && !mode.fixed
    requires k < |cfg.ids| && Stands(n, d, cfg, k, Submitted(u)) && Submits(s, cfg, k) && PathAt(cfg, k) !in s.media
    requires Sole(n.runs, PathAt(cfg, k)) == {u} && u in n.runs && n.runs[u].status.DbQueued?
    requires Cost(s, cfg, k, mode, false).Some?
    ensures Cost(s, cfg, k, mode, false).value > 0
    ensures forall t :: Left(n, d, cfg, t) ==>
      Cost(t, cfg, k, mode, false) == Some(Cost(s, cfg, k, mode, false).value - 1)
  {
    forall t | Left(n, d, cfg, t) ensures Cost(t, cfg, k, mode, false) == Some(Cost(s, cfg, k, mode, false).value - 1) {
      SubmissionCost(s, d, cfg, mode, n, t, u);
    }
    assert Cost(s, cfg, k, mode, false) != Some(0);
  }

  lemma SaveByAnnouncing(s: System, d: DriverId, cfg: Config, mode: Mode, anew: bool, m: System, k: nat)
    returns (t: System)
    requires Ready(s, d, cfg) && Opens(s, cfg, anew) && Going(s, d, cfg, mode, m)
    requires k < |cfg.ids| && Stands(m, d, cfg, k, Announced)
    requires Sum(Costs(s, cfg, mode, anew)).Some?
    requires Cost(s, cfg, k, mode, anew).Some? && Cost(s, cfg, k, mode, anew).value > 0
    requires Submits(s, cfg, k) && PathAhead(s, cfg, k, mode, anew).Barred?
    ensures EndsAnyhow(s, d, cfg, mode, t) && Ready(t, d, cfg) && Sum(Costs(s, cfg, mode, anew)).value > 0
    ensures Sum(Costs(t, cfg, mode, anew)) == Some(Sum(Costs(s, cfg, mode, anew)).value - 1)
  {
    forall t | Left(m, d, cfg, t) ensures Cost(t, cfg, k, mode, anew) == Some(Cost(s, cfg, k, mode, anew).value - 1) {
      AnnouncementCost(s, d, cfg, mode, anew, m, t);
    }
    t := CrashDrops(s, d, cfg, mode, anew, m);
  }

  lemma EndedStep(m: System, d: DriverId, cfg: Config, k: nat, u: RunId) returns (n: System)
    requires k < |cfg.ids| && Stands(m, d, cfg, k, Polling(u)) && u in m.runs
    requires m.runs[u].status.DbFailed? || m.runs[u].status.DbCancelled?
    ensures MapDbStatus(m.runs[u].status).Some? && Exec(m, PollEnded(d, false)) == Some(n)
    ensures Stands(n, d, cfg, k, Ended(u, MapDbStatus(m.runs[u].status).value))
    ensures IsFailure(MapDbStatus(m.runs[u].status).value)
  {
    n := Exec(m, PollEnded(d, false)).value;
  }

  /** It polls a dead recorded run and records the failure. */
  lemma SaveByPolling(s: System, d: DriverId, cfg: Config, mode: Mode, anew: bool, m: System, k: nat)
    returns (t: System)
    requires Ready(s, d, cfg) && Opens(s, cfg, anew) && Going(s, d, cfg, mode, m)
    requires k < |cfg.ids| && Stands(m, d, cfg, k, AtLoop)
    requires Sum(Costs(s, cfg, mode, anew)).Some?
    requires Cost(s, cfg, k, mode, anew).Some? && Cost(s, cfg, k, mode, anew).value > 0
    requires ActionAt(s, cfg, k).Poll?
    ensures EndsAnyhow(s, d, cfg, mode, t) && Ready(t, d, cfg) && Sum(Costs(s, cfg, mode, anew)).value > 0
    ensures Sum(Costs(t, cfg, mode, anew)) == Some(Sum(Costs(s, cfg, mode, anew)).value - 1)
  {
    var n, u := AttachOne(s, d, cfg, mode, m, k);
    DeadRecorded(s, cfg, mode, anew, k, u);
    n := SeeItDead(s, d, cfg, mode, n, k, u);
    t := RecordDrops(s, d, cfg, mode, anew, n, k, u);
  }

  lemma DeadRecorded(s: System, cfg: Config, mode: Mode, anew: bool, k: nat, u: RunId)
    requires Inv(s) && k < |cfg.ids| && !cfg.corpus.UnknownCorpus? && ActionAt(s, cfg, k).Poll?
    requires u in Awaited(s, cfg, k) && Cost(s, cfg, k, mode, anew).Some? && Cost(s, cfg, k, mode, anew).value > 0
    ensures u in s.runs && OutlookOf(mode.movers, cfg.corpus, s.runs[u]).Dies?
    ensures RecordedRun(Loaded(s, 0, cfg).items, cfg.ids[k]) == {u}
  {
    RecordedExists(s, cfg, cfg.ids[k]);
  }

  lemma StillDead(s: System, d: DriverId, cfg: Config, mode: Mode, m: System, u: RunId)
    requires Track(s, d, cfg, mode, m) && u in s.runs && OutlookOf(mode.movers, cfg.corpus, s.runs[u]).Dies?
    ensures u in m.runs && (m.runs[u].status.DbFailed? || m.runs[u].status.DbCancelled?)
  {
  }

  lemma SeeItDead(s: System, d: DriverId, cfg: Config, mode: Mode, m: System, k: nat, u: RunId) returns (n: System)
    requires Going(s, d, cfg, mode, m) && ConfigOk(cfg) && k < |cfg.ids| && Stands(m, d, cfg, k, Polling(u))
    requires u in s.runs && OutlookOf(mode.movers, cfg.corpus, s.runs[u]).Dies?
    ensures Going(s, d, cfg, mode, n) && ProcOf(n, d).Working? && ProcOf(n, d).cfg == cfg && ProcOf(n, d).k == k
    ensures ProcOf(n, d).pc.Ended? && ProcOf(n, d).pc.run == u && IsFailure(ProcOf(n, d).pc.seen)
  {
    StillDead(s, d, cfg, mode, m, u);
    var e := EndedStep(m, d, cfg, k, u);
    n := Then(s, d, cfg, mode, m, PollEnded(d, false));
  }

  lemma RecordEnd(m: System, d: DriverId) returns (t: System)
    requires At(ProcOf(m, d)) && ProcOf(m, d).pc.Ended?
    ensures Exec(m, RecordEnded(d)) == Some(t) && EndsIn(m, d, t)
  {
    t := Exec(m, RecordEnded(d)).value;
  }

  lemma RecordDrops(s: System, d: DriverId, cfg: Config, mode: Mode, anew: bool, m: System, k: nat, u: RunId)
    returns (t: System)
    requires Ready(s, d, cfg) && Opens(s, cfg, anew) && Going(s, d, cfg, mode, m) && k < |cfg.ids|
    requires ProcOf(m, d).Working?
    requires ProcOf(m, d).cfg == cfg && ProcOf(m, d).k == k && ProcOf(m, d).pc.Ended? && ProcOf(m, d).pc.run == u
    requires IsFailure(ProcOf(m, d).pc.seen) && u in s.runs && OutlookOf(mode.movers, cfg.corpus, s.runs[u]).Dies?
    requires ActionAt(s, cfg, k).Poll? && RecordedRun(Loaded(s, 0, cfg).items, cfg.ids[k]) == {u}
    requires Sum(Costs(s, cfg, mode, anew)).Some?
    requires Cost(s, cfg, k, mode, anew).Some? && Cost(s, cfg, k, mode, anew).value > 0
    ensures EndsAnyhow(s, d, cfg, mode, t) && Ready(t, d, cfg) && Sum(Costs(s, cfg, mode, anew)).value > 0
    ensures Sum(Costs(t, cfg, mode, anew)) == Some(Sum(Costs(s, cfg, mode, anew)).value - 1)
  {
    t := RecordEnd(m, d);
    AfterRecord(s, d, cfg, mode, m, t);
    RecordedCost(s, d, cfg, mode, anew, m, t, k, u);
    OnlyOnePatched(ProcOf(m, d).journal.items, Loaded(t, 0, cfg).items, cfg, k);
    DropsHere(s, d, cfg, mode, anew, m, t, k);
  }

  lemma RecordedCost(s: System, d: DriverId, cfg: Config, mode: Mode, anew: bool, m: System, t: System, k: nat,
                     u: RunId)
    requires Inv(s) && Inv(m) && Track(s, d, cfg, mode, m) && Kept(s, m, mode.movers, cfg.corpus) && k < |cfg.ids|
    requires ProcOf(m, d).Working? && ProcOf(m, d).cfg == cfg && ProcOf(m, d).k == k && cfg.retryFailed
    requires ProcOf(m, d).pc.Ended? && ProcOf(m, d).pc.run == u && IsFailure(ProcOf(m, d).pc.seen)
    requires u in s.runs && OutlookOf(mode.movers, cfg.corpus, s.runs[u]).Dies?
    requires t.media == m.media && t.runs == m.runs
    requires !cfg.corpus.UnknownCorpus? && ActionAt(s, cfg, k).Poll?
    requires RecordedRun(Loaded(s, 0, cfg).items, cfg.ids[k]) == {u}
    requires Loaded(t, 0, cfg) == ProcOf(m, d).journal.(items := ProcOf(m, d).journal.items[cfg.ids[k] :=
      ApplyPatch(ItemOf(ProcOf(m, d).journal.items, cfg.ids[k]), PatchStatus(ProcOf(m, d).pc.seen))])
    requires Cost(s, cfg, k, mode, anew).Some? && Cost(s, cfg, k, mode, anew).value > 0
    ensures Cost(t, cfg, k, mode, anew) == Some(Cost(s, cfg, k, mode, anew).value - 1)
  {
    assert ProcOk(m, d);
    assert u in RecordedRun(Loaded(s, 0, cfg).items, cfg.ids[k]);
    SameRunsKept(s, m, t, mode.movers, cfg.corpus);
    PathStaysAsGood(s, t, cfg, k, mode, anew);
  }

  /** If the batch can be had and is not free, some invocation can end so that it is one cheaper. */
  lemma SomeEndSaves(s: System, d: DriverId, cfg: Config, mode: Mode, anew: bool) returns (t: System)
    requires Ready(s, d, cfg) && Opens(s, cfg, anew)
    requires Sum(Costs(s, cfg, mode, anew)).Some? && Sum(Costs(s, cfg, mode, anew)).value > 0
    ensures EndsAnyhow(s, d, cfg, mode, t) && Ready(t, d, cfg)
    ensures Sum(Costs(t, cfg, mode, anew)) == Some(Sum(Costs(s, cfg, mode, anew)).value - 1)
  {
    var k := FirstPositive(Costs(s, cfg, mode, anew));
    forall i | 0 <= i < k ensures Passes(s, cfg, i, mode) {
      assert Costs(s, cfg, mode, anew)[i] == Some(0);
      CostZero(s, cfg, i, mode, anew);
    }
    var m := EnterLoop(s, d, cfg, mode);
    m := LoopReaches(s, d, cfg, mode, m, 0, k);
    t := SaveHere(s, d, cfg, mode, anew, m, k);
  }

  lemma SaveHere(s: System, d: DriverId, cfg: Config, mode: Mode, anew: bool, m: System, k: nat)
    returns (t: System)
    requires Ready(s, d, cfg) && Opens(s, cfg, anew) && Going(s, d, cfg, mode, m)
    requires k < |cfg.ids| && Stands(m, d, cfg, k, AtLoop)
    requires Sum(Costs(s, cfg, mode, anew)).Some?
    requires Cost(s, cfg, k, mode, anew).Some? && Cost(s, cfg, k, mode, anew).value > 0
    ensures EndsAnyhow(s, d, cfg, mode, t) && Ready(t, d, cfg) && Sum(Costs(s, cfg, mode, anew)).value > 0
    ensures Sum(Costs(t, cfg, mode, anew)) == Some(Sum(Costs(s, cfg, mode, anew)).value - 1)
  {
    if ActionAt(s, cfg, k).Poll? {
      t := SaveByPolling(s, d, cfg, mode, anew, m, k);
    } else {
      var n := StageToAnnounce(s, d, cfg, mode, m, k);
      if PathAhead(s, cfg, k, mode, anew).Barred? {
        t := SaveByAnnouncing(s, d, cfg, mode, anew, n, k);
      } else {
        t := SaveBySubmitting(s, d, cfg, mode, n, k);
      }
    }
  }

  // ------------------------------------------------------------------ how many invocations

  /** Invocations of one batch: all under the naming of `cfg`, or (`anew`) each under a root no other one uses and
    * under which the database knows nothing of the batch. */
  ghost predicate Series(cfgs: seq<Config>, cfg: Config, s: System, anew: bool) {
    && (forall i :: 0 <= i < |cfgs| ==> cfgs[i] == if anew then cfg.(naming := cfgs[i].naming) else cfg)
    && (anew ==>
          && (forall i, j :: 0 <= i < j < |cfgs| ==> Root(cfgs[i].naming) != Root(cfgs[j].naming))
          && forall i :: 0 <= i < |cfgs| ==> Opens(s, cfgs[i], true))
  }

  /** What is left of a batch does not depend on a new naming. */
  lemma NamingFree(s: System, d: DriverId, cfg: Config, other: Config, mode: Mode, anew: bool)
    requires other == if anew then cfg.(naming := other.naming) else cfg
    ensures Ready(s, d, cfg) <==> Ready(s, d, other)
    ensures !cfg.corpus.UnknownCorpus? ==> Costs(s, other, mode, anew) == Costs(s, cfg, mode, anew)
  {
    if !cfg.corpus.UnknownCorpus? {
      forall i | 0 <= i < |cfg.ids| ensures Cost(s, other, i, mode, anew) == Cost(s, cfg, i, mode, anew) {}
    }
  }

  lemma NewRootUnknown(s: System, t: System, cfg: Config, other: Config)
    requires ConfigOk(cfg) && other == cfg.(naming := other.naming) && Root(cfg.naming) != Root(other.naming)
    requires Opens(s, other, true) && forall path :: path in t.media && path !in s.media ==> InBatch(cfg, path)
    ensures Opens(t, other, true)
  {
    forall i | 0 <= i < |other.ids| ensures PathAt(other, i) !in t.media {
      if PathAt(other, i) in t.media {
        var j :| 0 <= j < |cfg.ids| && PathAt(other, i) == PathAt(cfg, j);
        StagedPathExactly(other.naming, other.ids[i], cfg.naming, cfg.ids[j]);
        assert false;
      }
    }
  }

  lemma SeriesTail(cfgs: seq<Config>, cfg: Config, s: System, anew: bool, t: System)
    requires cfgs != [] && Series(cfgs, cfg, s, anew)
    requires anew ==> forall i :: 0 < i < |cfgs| ==> Opens(t, cfgs[i], true)
    ensures Series(cfgs[1..], cfg, t, anew)
  {
    var tail := cfgs[1..];
    assert forall i :: 0 <= i < |tail| ==> tail[i] == cfgs[i + 1];
  }

  lemma RootUnused(cfgs: seq<Config>, cfg: Config, s: System, t: System, i: nat)
    requires 0 < i < |cfgs| && Series(cfgs, cfg, s, true) && ConfigOk(cfgs[0])
    requires forall path :: path in t.media && path !in s.media ==> InBatch(cfgs[0], path)
    ensures Opens(t, cfgs[i], true)
  {
    NewRootUnknown(s, t, cfgs[0], cfgs[i]);
  }

  lemma MediaOfEnd(s: System, d: DriverId, cfg: Config, mode: Mode, t: System)
    requires Ready(s, d, cfg) && EndsAnyhow(s, d, cfg, mode, t)
    ensures forall path :: path in t.media && path !in s.media ==> InBatch(cfg, path)
  {
    var m :| Invocation(s, d, cfg, mode, m) && EndsIn(m, d, t);
    MediaOfInvocation(s, d, cfg, mode, m);
    EndKeepsMedia(m, d, t);
  }

  lemma EndKeepsMedia(m: System, d: DriverId, t: System)
    requires EndsIn(m, d, t)
    ensures t.media == m.media
  {
  }

  /** After an invocation the rest of the series is one. */
  lemma SeriesGoesOn(cfgs: seq<Config>, cfg: Config, s: System, d: DriverId, mode: Mode, anew: bool, t: System)
    requires cfgs != [] && Series(cfgs, cfg, s, anew) && Ready(s, d, cfgs[0]) && EndsAnyhow(s, d, cfgs[0], mode, t)
    ensures Series(cfgs[1..], cfg, t, anew)
  {
    if anew {
      MediaOfEnd(s, d, cfgs[0], mode, t);
      forall i | 0 < i < |cfgs| ensures Opens(t, cfgs[i], true) { RootUnused(cfgs, cfg, s, t, i); }
    }
    SeriesTail(cfgs, cfg, s, anew, t);
  }

  lemma {:induction false} EnoughInvocations(cfgs: seq<Config>, cfg: Config, s: System, d: DriverId, mode: Mode,
                                             anew: bool)
    requires Ready(s, d, cfg) && Series(cfgs, cfg, s, anew)
    requires Sum(Costs(s, cfg, mode, anew)).Some? && |cfgs| > Sum(Costs(s, cfg, mode, anew)).value
    ensures FinishesAlong(cfgs, s, d, mode)
    decreases |cfgs|
  {
    var first := cfgs[0];
    NamingFree(s, d, cfg, first, mode, anew);
    if Sum(Costs(s, cfg, mode, anew)).value == 0 {
      AllPassExactly(s, first, mode, anew);
      OneInvocationFrom(s, d, first, mode);
    } else {
      var t := SomeEndSaves(s, d, first, mode, anew);
      SeriesGoesOn(cfgs, cfg, s, d, mode, anew, t);
      NamingFree(t, d, cfg, first, mode, anew);
      EnoughInvocations(cfgs[1..], cfg, t, d, mode, anew);
    }
  }

  lemma {:induction false} FewerDoNot(cfgs: seq<Config>, cfg: Config, s: System, d: DriverId, mode: Mode, anew: bool)
    requires Ready(s, d, cfg) && Series(cfgs, cfg, s, anew) && FinishesAlong(cfgs, s, d, mode)
    ensures Sum(Costs(s, cfg, mode, anew)).Some? && |cfgs| > Sum(Costs(s, cfg, mode, anew)).value
    decreases |cfgs|
  {
    var first := cfgs[0];
    NamingFree(s, d, cfg, first, mode, anew);
    if CanFinish(s, d, first, mode) {
      OneInvocationFrom(s, d, first, mode);
      AllPassExactly(s, first, mode, anew);
    } else {
      var t :| EndsAnyhow(s, d, first, mode, t) && FinishesAlong(cfgs[1..], t, d, mode);
      EndOneLess(s, d, first, mode, anew, t);
      SeriesGoesOn(cfgs, cfg, s, d, mode, anew, t);
      NamingFree(t, d, cfg, first, mode, anew);
      FewerDoNot(cfgs[1..], cfg, t, d, mode, anew);
    }
  }

  lemma SeriesNeeded(cfgs: seq<Config>, s: System, d: DriverId, cfg: Config, mode: Mode, anew: bool)
    requires Ready(s, d, cfg) && Series(cfgs, cfg, s, anew)
    ensures FinishesAlong(cfgs, s, d, mode) <==>
      Sum(Costs(s, cfg, mode, anew)).Some? && |cfgs| > Sum(Costs(s, cfg, mode, anew)).value
  {
    if FinishesAlong(cfgs, s, d, mode) { FewerDoNot(cfgs, cfg, s, d, mode, anew); }
    if Sum(Costs(s, cfg, mode, anew)).Some? && |cfgs| > Sum(Costs(s, cfg, mode, anew)).value {
      EnoughInvocations(cfgs, cfg, s, d, mode, anew);
    }
  }

  /** Under one naming, resumed and retried, with only the movers at work and every invocation ending anyhow, `n`
    * invocations in a row can end with the manifest exactly when no recording is beyond help and `n` exceeds the sum
    * of the recordings' costs. */
  lemma InvocationsNeeded(n: nat, s: System, d: DriverId, cfg: Config, mode: Mode)
    requires Reachable(s) && ProcOf(s, d).Idle? && ConfigOk(cfg) && DiskOf(s, cfg.out).lock.None? && Loadable(s, cfg)
    requires cfg.resume && cfg.retryFailed && Verified(cfg.fpBefore, cfg.fpBefore, cfg.env)
    ensures FinishesWithin(n, s, d, cfg, mode) <==>
      Sum(Costs(s, cfg, mode, false)).Some? && n > Sum(Costs(s, cfg, mode, false)).value
  {
    ReachableInv(s);
    SeriesNeeded(Again(cfg, n), s, d, cfg, mode, false);
  }

  /** The same where every invocation stages under a new root, as by default, with a fresh uuid for a batch id. */
  lemma NewRootsNeeded(cfgs: seq<Config>, s: System, d: DriverId, cfg: Config, mode: Mode)
    requires Reachable(s) && ProcOf(s, d).Idle? && ConfigOk(cfg) && DiskOf(s, cfg.out).lock.None? && Loadable(s, cfg)
    requires cfg.resume && cfg.retryFailed && Verified(cfg.fpBefore, cfg.fpBefore, cfg.env)
    requires Series(cfgs, cfg, s, true)
    ensures FinishesAlong(cfgs, s, d, mode) <==>
      Sum(Costs(s, cfg, mode, true)).Some? && |cfgs| > Sum(Costs(s, cfg, mode, true)).value
  {
    ReachableInv(s);
    SeriesNeeded(cfgs, s, d, cfg, mode, true);
  }

  // ------------------------------------------------------------------ a new root every time

  /** Recording `i` is done, or has a recorded run that can be completed. */
  predicate Settled(s: System, cfg: Config, i: nat, who: Movers)
    requires i < |cfg.ids|
  {
    var items := Loaded(s, 0, cfg).items;
    || Done(items, cfg.ids[i])
    || RecordedOutlook(s.runs, ItemOf(items, cfg.ids[i]), who, cfg.corpus) == Some(Completes)
  }

  /** How many of the recordings are recorded failed or cancelled, hence to be retried. */
  function Retries(items: Items, ids: seq<RecId>): nat {
    if ids == [] then 0
    else Retries(items, ids[..|ids| - 1]) + if IsFailure(ItemOf(items, ids[|ids| - 1]).status) then 1 else 0
  }

  lemma SettledCost(s: System, cfg: Config, i: nat, who: Movers)
    requires Inv(s) && i < |cfg.ids| && Loadable(s, cfg) && cfg.resume && cfg.retryFailed && ConfigOk(cfg)
    ensures Cost(s, cfg, i, AsIs(who), true) ==
      if !Settled(s, cfg, i, who) then None
      else if IsFailure(ItemOf(Loaded(s, 0, cfg).items, cfg.ids[i]).status) then Some(1) else Some(0)
  {
    assert DiskOk(s, cfg.out);
    var j := Loaded(s, 0, cfg);
    RecordedExists(s, cfg, cfg.ids[i]);
    if cfg.ids[i] in j.items { assert ItemOk(j.corpus, j.items[cfg.ids[i]], s.runs); }
  }

  lemma {:induction false} SumOfRetries(cs: seq<Option<nat>>, items: Items, ids: seq<RecId>)
    requires |cs| == |ids|
    requires forall i :: 0 <= i < |cs| ==>
      cs[i].None? || cs[i] == Some(if IsFailure(ItemOf(items, ids[i]).status) then 1 else 0)
    ensures Sum(cs).Some? <==> forall i :: 0 <= i < |cs| ==> cs[i].Some?
    ensures Sum(cs).Some? ==> Sum(cs).value == Retries(items, ids)
  {
    if cs != [] {
      var last := |cs| - 1;
      SumOfRetries(cs[..last], items, ids[..last]);
      assert forall i :: 0 <= i < last ==> cs[..last][i] == cs[i];
    }
  }

  /** The default use, as written: with a new root every time, nothing submitted is ever adopted. A series of
    * invocations finishes exactly when every recording is done or has a recorded run that can be completed, and there
    * is one invocation more than there are recordings to be retried. */
  lemma NewRootsFinish(cfgs: seq<Config>, s: System, d: DriverId, cfg: Config, who: Movers)
    requires Reachable(s) && ProcOf(s, d).Idle? && ConfigOk(cfg) && DiskOf(s, cfg.out).lock.None? && Loadable(s, cfg)
    requires cfg.resume && cfg.retryFailed && Verified(cfg.fpBefore, cfg.fpBefore, cfg.env)
    requires Series(cfgs, cfg, s, true)
    ensures FinishesAlong(cfgs, s, d, AsIs(who)) <==>
      && (forall i :: 0 <= i < |cfg.ids| ==> Settled(s, cfg, i, who))
      && |cfgs| > Retries(Loaded(s, 0, cfg).items, cfg.ids)
  {
    ReachableInv(s);
    NewRootsNeeded(cfgs, s, d, cfg, AsIs(who));
    var cs := Costs(s, cfg, AsIs(who), true);
    forall i | 0 <= i < |cfg.ids|
      ensures cs[i].Some? <==> Settled(s, cfg, i, who)
      ensures cs[i].Some? ==>
        cs[i].value == if IsFailure(ItemOf(Loaded(s, 0, cfg).items, cfg.ids[i]).status) then 1 else 0
    {
      SettledCost(s, cfg, i, who);
    }
    SumOfRetries(cs, Loaded(s, 0, cfg).items, cfg.ids);
  }

  // ------------------------------------------------------------------ where an invocation can end

  lemma {:induction false} AloneAsWritten(s: System, steps: seq<Step>, d: DriverId, mode: Mode)
    requires Alone(s, steps, d, mode) && !mode.fixed
    ensures forall i :: 0 <= i < |steps| ==> AsWritten(steps[i])
    decreases |steps|
  {
    if steps != [] {
      AloneAsWritten(Exec(s, steps[0]).value, steps[1..], d, mode);
      forall i | 0 <= i < |steps| ensures AsWritten(steps[i]) {
        if i > 0 { assert steps[i] == steps[1..][i - 1]; }
      }
    }
  }

  lemma WrittenOn(s: System, steps: seq<Step>, t: System)
    requires ReachableAsWritten(s) && Trace(s, steps, t) && forall i :: 0 <= i < |steps| ==> AsWritten(steps[i])
    ensures ReachableAsWritten(t)
  {
    var before :| Trace(INIT, before, s) && forall i :: 0 <= i < |before| ==> AsWritten(before[i]);
    TraceAppend(INIT, before, s, steps, t);
    assert forall i :: 0 <= i < |before + steps| ==> AsWritten((before + steps)[i]);
  }

  lemma OneWrittenStep(s: System, a: Step, t: System)
    requires ReachableAsWritten(s) && Exec(s, a) == Some(t) && AsWritten(a)
    ensures ReachableAsWritten(t)
  {
    OneStep(s, a);
    WrittenOn(s, [a], t);
  }

  /** The code as written gets from a state it can reach only to states it can reach. */
  lemma EndIsReachable(s: System, d: DriverId, cfg: Config, who: Movers, t: System)
    requires ReachableAsWritten(s) && EndsAnyhow(s, d, cfg, AsIs(who), t)
    ensures ReachableAsWritten(t)
  {
    var m :| Invocation(s, d, cfg, AsIs(who), m) && EndsIn(m, d, t);
    InvocationIsReachable(s, d, cfg, who, m);
    if Exec(m, Crash(d)) == Some(t) { OneWrittenStep(m, Crash(d), t); } else { OneWrittenStep(m, RecordEnded(d), t); }
  }

  lemma InvocationIsReachable(s: System, d: DriverId, cfg: Config, who: Movers, m: System)
    requires ReachableAsWritten(s) && Invocation(s, d, cfg, AsIs(who), m)
    ensures ReachableAsWritten(m)
  {
    var b := Exec(s, Start(d, cfg)).value;
    OneWrittenStep(s, Start(d, cfg), b);
    var steps :| Trace(b, steps, m) && Alone(b, steps, d, AsIs(who));
    AloneAsWritten(b, steps, d, AsIs(who));
    WrittenOn(b, steps, m);
  }

  predicate InBatch(cfg: Config, path: string) { exists i :: 0 <= i < |cfg.ids| && path == PathAt(cfg, i) }

  lemma MediaStep(s: System, a: Step, t: System, d: DriverId, cfg: Config, mode: Mode, path: string)
    requires Exec(s, a) == Some(t) && Solo(s, a, d, mode) && path in t.media && path !in s.media
    requires ProcOf(s, d).Working? ==> ProcOf(s, d).cfg == cfg
    ensures InBatch(cfg, path)
  {
    assert a.SubmitNew? && path == PathAt(cfg, ProcOf(s, d).k);
  }

  /** An invocation adds only paths of its own batch to the database. */
  lemma {:induction false} MediaTrace(s0: System, d: DriverId, cfg: Config, mode: Mode, s: System, steps: seq<Step>,
                                      t: System)
    requires Inv(s) && ConfigOk(cfg) && Track(s0, d, cfg, mode, s) && Trace(s, steps, t) && Alone(s, steps, d, mode)
    ensures forall path :: path in t.media && path !in s.media ==> InBatch(cfg, path)
    decreases |steps|
  {
    if steps != [] {
      var m := Exec(s, steps[0]).value;
      InvStep(s, steps[0], m);
      TrackStep(s0, d, cfg, mode, s, steps[0], m);
      MediaTrace(s0, d, cfg, mode, m, steps[1..], t);
      forall path | path in m.media && path !in s.media ensures InBatch(cfg, path) {
        MediaStep(s, steps[0], m, d, cfg, mode, path);
      }
    }
  }

  lemma MediaOfInvocation(s: System, d: DriverId, cfg: Config, mode: Mode, m: System)
    requires Inv(s) && ProcOf(s, d).Idle? && ConfigOk(cfg) && DiskOf(s, cfg.out).lock.None?
    requires Invocation(s, d, cfg, mode, m)
    ensures forall path :: path in m.media && path !in s.media ==> InBatch(cfg, path)
  {
    var b := StartOn(s, d, cfg, mode);
    var steps :| Trace(b, steps, m) && Alone(b, steps, d, mode);
    MediaTrace(s, d, cfg, mode, b, steps, m);
  }
}
