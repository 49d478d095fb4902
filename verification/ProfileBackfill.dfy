/** The review ledger (alembic/versions/0010) and the profile backfill over it (alembic/versions/0041). */
module ProfileBackfill {
  import opened Common
  import opened Sorting
  import opened SpeakerMerge

  type Id = nat

  // ------------------------------------------------------------------ the ledger

  /** `rest` is every other column the candidate trigger compares. */
  datatype Candidate = Candidate(speaker: Option<SpeakerId>, field: string, value: string, rest: string,
                                 supersededBy: Option<Id>)

  datatype Decision = Decision(candidate: Id, accept: bool, operator: string, key: string, createdAt: int)

  datatype Ledger = Ledger(candidates: map<Id, Candidate>, decisions: map<Id, Decision>)

  datatype Statement =
    | InsertCandidate(id: Id, c: Candidate)
    | UpdateCandidate(id: Id, c: Candidate)
    | DeleteCandidate(id: Id)
    | InsertDecision(id: Id, d: Decision)
    | UpdateDecision(id: Id, d: Decision)
    | DeleteDecision(id: Id)

  /** What the triggers, keys and unique constraints admit; anything else leaves the ledger unchanged. */
  function Apply(l: Ledger, s: Statement): Ledger {
    match s
    case InsertCandidate(id, c) =>
      if id !in l.candidates && c.supersededBy.None? then l.(candidates := l.candidates[id := c]) else l
    case UpdateCandidate(id, c) =>
      if id in l.candidates && c.(supersededBy := l.candidates[id].supersededBy) == l.candidates[id]
         && (l.candidates[id].supersededBy.Some? ==> c.supersededBy == l.candidates[id].supersededBy)
      then l.(candidates := l.candidates[id := c]) else l
    case DeleteCandidate(_) => l
    case InsertDecision(id, d) =>
      if id !in l.decisions && d.candidate in l.candidates
         && (forall i :: i in l.decisions ==> l.decisions[i].candidate != d.candidate && l.decisions[i].key != d.key)
      then l.(decisions := l.decisions[id := d]) else l
    case UpdateDecision(_, _) => l
    case DeleteDecision(_) => l
  }

  function ApplyAll(l: Ledger, ss: seq<Statement>): Ledger
    decreases |ss|
  {
    if ss == [] then l else ApplyAll(Apply(l, ss[0]), ss[1..])
  }

  ghost predicate LedgerOk(l: Ledger) {
    && (forall i :: i in l.decisions ==> l.decisions[i].candidate in l.candidates)
    && (forall i, j ::
          i in l.decisions && j in l.decisions && l.decisions[i].candidate == l.decisions[j].candidate ==> i == j)
  }

  /** Nothing decided is lost, reversed or re-worded. */
  ghost predicate Preserves(l: Ledger, m: Ledger) {
    && (forall i :: i in l.decisions ==> i in m.decisions && m.decisions[i] == l.decisions[i])
    && (forall i :: i in l.candidates ==>
          i in m.candidates && m.candidates[i].(supersededBy := l.candidates[i].supersededBy) == l.candidates[i]
          && (l.candidates[i].supersededBy.Some? ==> m.candidates[i].supersededBy == l.candidates[i].supersededBy))
  }

  lemma StatementPreserves(l: Ledger, s: Statement)
    requires LedgerOk(l)
    ensures LedgerOk(Apply(l, s)) && Preserves(l, Apply(l, s))
  {
  }

  /** Under any statements whatever, an accepted value is the value that was accepted, and the one verdict on
    * its candidate stays the only one. */
  lemma {:induction false} VerdictsAreFinal(l: Ledger, ss: seq<Statement>)
    requires LedgerOk(l)
    ensures LedgerOk(ApplyAll(l, ss)) && Preserves(l, ApplyAll(l, ss))
    decreases |ss|
  {
    if ss != [] {
      var m := Apply(l, ss[0]);
      StatementPreserves(l, ss[0]);
      VerdictsAreFinal(m, ss[1..]);
      var n := ApplyAll(l, ss);
      assert forall i :: i in l.candidates ==> i in m.candidates && i in n.candidates;
    }
  }

  // ------------------------------------------------------------------ the backfill query

  /** A row of the join: an accepted decision and its candidate. */
  datatype Accepted = Accepted(decision: Id, createdAt: int, operator: string, candidate: Id,
                               speaker: SpeakerId, field: string, value: string)

  predicate IsProfileField(f: string) { f == "bio" || f == "affiliation" || f == "link" }

  /** The join's row for a decision, if the WHERE clause keeps it. */
  function RowOf(l: Ledger, d: Id): Option<Accepted>
    requires d in l.decisions && l.decisions[d].candidate in l.candidates
  {
    var x := l.decisions[d];
    var c := l.candidates[x.candidate];
    if x.accept && IsProfileField(c.field) && c.speaker.Some?
    then Some(Accepted(d, x.createdAt, x.operator, x.candidate, c.speaker.value, c.field, c.value))
    else None
  }

  /** `rows` is the query's result, in some order. */
  ghost predicate IsJoin(l: Ledger, rows: seq<Accepted>) {
    && LedgerOk(l)
    && (forall i :: 0 <= i < |rows| ==> rows[i].decision in l.decisions && RowOf(l, rows[i].decision) == Some(rows[i]))
    && (forall d :: d in l.decisions && RowOf(l, d).Some? ==> RowOf(l, d).value in rows)
    && (forall i, j :: 0 <= i < j < |rows| ==> rows[i].decision != rows[j].decision)
  }

  /** ORDER BY created_at DESC, decision id DESC. */
  predicate NewerFirst(a: Accepted, b: Accepted) {
    a.createdAt > b.createdAt || (a.createdAt == b.createdAt && a.decision >= b.decision)
  }

  type Key = (SpeakerId, string)

  datatype Profile = Profile(value: Option<string>, candidate: Option<Id>, operator: string, createdAt: int)

  ghost predicate At(ts: Tombstones, a: Accepted, key: Key) {
    IsCanonical(ts, a.speaker, key.0) && a.field == key.1
  }

  /** The accepted decision that wins a (canonical speaker, field): newest by (created_at, id). */
  ghost predicate Wins(ts: Tombstones, rows: seq<Accepted>, key: Key, w: Accepted) {
    && w in rows && At(ts, w, key)
    && forall a :: a in rows && At(ts, a, key) ==> NewerFirst(w, a)
  }

  lemma WinnerUnique(ts: Tombstones, rows: seq<Accepted>, key: Key, v: Accepted, w: Accepted)
    requires Wins(ts, rows, key, v) && Wins(ts, rows, key, w)
    requires forall i, j :: 0 <= i < j < |rows| ==> rows[i].decision != rows[j].decision
    ensures v == w
  {
    assert NewerFirst(v, w) && NewerFirst(w, v);
    var i :| 0 <= i < |rows| && rows[i] == v;
    var j :| 0 <= j < |rows| && rows[j] == w;
    assert i == j;
  }

  function ProfileOf(w: Accepted): Profile { Profile(Some(w.value), Some(w.candidate), w.operator, w.createdAt) }

  ghost predicate Claimed(ts: Tombstones, rows: seq<Accepted>, key: Key) { exists a :: a in rows && At(ts, a, key) }

  /** What a backfill makes of the profile table: existing rows stay, every claimed key gets its winner. */
  ghost predicate Filled(ts: Tombstones, rows: seq<Accepted>, before: map<Key, Profile>, after: map<Key, Profile>) {
    && (forall key :: key in before ==> key in after && after[key] == before[key])
    && (forall key :: Claimed(ts, rows, key) ==> key in after)
    && (forall key :: key in after && key !in before ==>
          exists w :: Wins(ts, rows, key, w) && after[key] == ProfileOf(w))
  }

  /** A second backfill over the same ledger changes nothing. */
  lemma BackfillIdempotent(ts: Tombstones, rows: seq<Accepted>, p: map<Key, Profile>, q: map<Key, Profile>,
                           r: map<Key, Profile>)
    requires Filled(ts, rows, p, q) && Filled(ts, rows, q, r)
    ensures r == q
  {
    forall key, w | Wins(ts, rows, key, w) ensures Claimed(ts, rows, key) {
    }
    assert r.Keys == q.Keys;
  }

  /** The backfill has one possible outcome, in whatever order the join delivers its rows. */
  lemma BackfillDetermined(ts: Tombstones, rows: seq<Accepted>, others: seq<Accepted>,
                           p: map<Key, Profile>, q: map<Key, Profile>, r: map<Key, Profile>)
    requires Permutation(rows, others) && Filled(ts, rows, p, q) && Filled(ts, others, p, r)
    requires forall i, j :: 0 <= i < j < |rows| ==> rows[i].decision != rows[j].decision
    ensures q == r
  {
    FilledPermuted(ts, others, rows, p, r);
    OutcomeWithin(ts, rows, p, q, r);
    OutcomeWithin(ts, rows, p, r, q);
  }

  lemma FilledPermuted(ts: Tombstones, rows: seq<Accepted>, others: seq<Accepted>, p: map<Key, Profile>,
                       q: map<Key, Profile>)
    requires Permutation(others, rows) && Filled(ts, rows, p, q)
    ensures Filled(ts, others, p, q)
  {
    SameElements(others, rows);
    forall key ensures Claimed(ts, others, key) <==> Claimed(ts, rows, key) { }
    forall key, w ensures Wins(ts, others, key, w) <==> Wins(ts, rows, key, w) { }
  }

  lemma OutcomeWithin(ts: Tombstones, rows: seq<Accepted>, p: map<Key, Profile>, q: map<Key, Profile>,
                      r: map<Key, Profile>)
    requires Filled(ts, rows, p, q) && Filled(ts, rows, p, r)
    requires forall i, j :: 0 <= i < j < |rows| ==> rows[i].decision != rows[j].decision
    ensures forall key :: key in q ==> key in r && r[key] == q[key]
  {
    forall key | key in q ensures key in r && r[key] == q[key] {
      if key !in p {
        var v :| Wins(ts, rows, key, v) && q[key] == ProfileOf(v);
        assert Claimed(ts, rows, key);
        var w :| Wins(ts, rows, key, w) && r[key] == ProfileOf(w);
        WinnerUnique(ts, rows, key, v, w);
      }
    }
  }

  /** The stored value is the one that was accepted: whatever happened to the ledger between the verdict and
    * the backfill, a filled key holds its winner's value as it stood when the verdict was recorded. */
  lemma StoredValueIsAcceptedValue(atVerdict: Ledger, ss: seq<Statement>, rows: seq<Accepted>, ts: Tombstones,
                                   before: map<Key, Profile>, after: map<Key, Profile>, key: Key, w: Accepted)
    requires LedgerOk(atVerdict) && IsJoin(ApplyAll(atVerdict, ss), rows) && Filled(ts, rows, before, after)
    requires key in after && key !in before && Wins(ts, rows, key, w) && w.decision in atVerdict.decisions
    ensures atVerdict.decisions[w.decision].candidate in atVerdict.candidates
    ensures after[key].value == Some(atVerdict.candidates[atVerdict.decisions[w.decision].candidate].value)
  {
    VerdictsAreFinal(atVerdict, ss);
    var v :| Wins(ts, rows, key, v) && after[key] == ProfileOf(v);
    WinnerUnique(ts, rows, key, v, w);
    var i :| 0 <= i < |rows| && rows[i] == w;
    var now := ApplyAll(atVerdict, ss);
    assert RowOf(now, w.decision) == Some(w);
    var c := atVerdict.decisions[w.decision].candidate;
    assert now.decisions[w.decision] == atVerdict.decisions[w.decision];
    assert now.candidates[c].value == now.candidates[c].(supersededBy := atVerdict.candidates[c].supersededBy).value;
  }

  lemma NewerFirstIsOrder()
    ensures TotalPreorder(NewerFirst)
  {
  }

  /** Row `i` is the first one at `key`. */
  ghost predicate First(ts: Tombstones, rows: seq<Accepted>, i: nat, key: Key)
    requires i < |rows|
  {
    At(ts, rows[i], key) && forall j :: 0 <= j < i ==> !At(ts, rows[j], key)
  }

  /** `w` is the first of the newest `n` rows at `key`. */
  ghost predicate FirstAmong(ts: Tombstones, rows: seq<Accepted>, n: nat, key: Key, w: Accepted)
    requires n <= |rows|
  {
    exists i :: 0 <= i < n && First(ts, rows, i, key) && w == rows[i]
  }

  /** What the first loop of `_backfill` has collected from the newest `n` rows. */
  ghost predicate Collected(ts: Tombstones, rows: seq<Accepted>, n: nat, winners: map<Key, Accepted>)
    requires n <= |rows|
  {
    && (forall key :: key in winners ==> FirstAmong(ts, rows, n, key, winners[key]))
    && (forall i, key :: 0 <= i < n && At(ts, rows[i], key) ==> key in winners)
  }

  lemma OneKey(ts: Tombstones, a: Accepted, c: SpeakerId, key: Key)
    requires IsCanonical(ts, a.speaker, c)
    ensures At(ts, a, key) <==> key == (c, a.field)
  {
    if At(ts, a, key) { CanonicalUnique(ts, a.speaker, key.0, c); }
  }

  lemma FirstAmongMore(ts: Tombstones, rows: seq<Accepted>, n: nat, key: Key, w: Accepted)
    requires n < |rows| && FirstAmong(ts, rows, n, key, w)
    ensures FirstAmong(ts, rows, n + 1, key, w)
  {
  }

  lemma CollectOne(ts: Tombstones, rows: seq<Accepted>, n: nat, winners: map<Key, Accepted>, c: SpeakerId)
    requires n < |rows| && Collected(ts, rows, n, winners) && IsCanonical(ts, rows[n].speaker, c)
    ensures var key := (c, rows[n].field);
      Collected(ts, rows, n + 1, if key in winners then winners else winners[key := rows[n]])
  {
    var key := (c, rows[n].field);
    var after := if key in winners then winners else winners[key := rows[n]];
    OneKey(ts, rows[n], c, key);
    forall i, k | 0 <= i < n + 1 && At(ts, rows[i], k) ensures k in after {
      if i == n { OneKey(ts, rows[n], c, k); }
    }
    forall k | k in winners ensures FirstAmong(ts, rows, n + 1, k, winners[k]) {
      FirstAmongMore(ts, rows, n, k, winners[k]);
    }
    if key !in winners {
      forall j | 0 <= j < n ensures !At(ts, rows[j], key) {
      }
      assert First(ts, rows, n, key);
      assert FirstAmong(ts, rows, n + 1, key, rows[n]);
    }
  }

  /** Over rows ordered newest first, the first row of a key wins it. */
  lemma FirstWins(ts: Tombstones, rows: seq<Accepted>, sorted: seq<Accepted>, i: nat, key: Key)
    requires Permutation(rows, sorted) && Sorted(NewerFirst, sorted) && i < |sorted| && First(ts, sorted, i, key)
    ensures Wins(ts, rows, key, sorted[i])
  {
    SameElements(rows, sorted);
    forall a | a in rows && At(ts, a, key) ensures NewerFirst(sorted[i], a) {
      var j :| 0 <= j < |sorted| && sorted[j] == a;
      if j > i { assert NewerFirst(sorted[i], sorted[j]); }
    }
  }

  /** `_backfill`: aborts exactly when an accepted claim's speaker chain cycles; otherwise fills the table. */
  method Backfill(ts: Tombstones, rows: seq<Accepted>, profiles: map<Key, Profile>)
    returns (r: Result<map<Key, Profile>, string>)
    ensures r.Err? <==> exists i :: 0 <= i < |rows| && ReachesCycle(ts, rows[i].speaker)
    ensures r.Ok? ==> Filled(ts, rows, profiles, r.value)
  {
    var sorted := Sort(NewerFirst, rows);
    SortPermutes(NewerFirst, rows);
    NewerFirstIsOrder();
    SortSorts(NewerFirst, rows);
    SameElements(rows, sorted);
    var winners := PickWinners(ts, sorted);
    if winners.Err? {
      ghost var i :| 0 <= i < |sorted| && ReachesCycle(ts, sorted[i].speaker);
      assert sorted[i] in rows;
      return Err(winners.error);
    }
    forall i | 0 <= i < |rows| ensures !ReachesCycle(ts, rows[i].speaker) {
      assert rows[i] in sorted;
    }
    var table := InsertWinners(winners.value, profiles);
    WinnersFill(ts, rows, sorted, winners.value, profiles, table);
    return Ok(table);
  }

  /** The first loop: newest first, first wins per (canonical speaker, field). */
  method PickWinners(ts: Tombstones, sorted: seq<Accepted>) returns (r: Result<map<Key, Accepted>, string>)
    ensures r.Err? <==> exists i :: 0 <= i < |sorted| && ReachesCycle(ts, sorted[i].speaker)
    ensures r.Ok? ==> Collected(ts, sorted, |sorted|, r.value)
  {
    var winners: map<Key, Accepted> := map[];
    for n := 0 to |sorted|
      invariant Collected(ts, sorted, n, winners)
      invariant forall i :: 0 <= i < n ==> !ReachesCycle(ts, sorted[i].speaker)
    {
      var row := sorted[n];
      var canonical := Canonicalize(row.speaker, ts);
      if canonical.Err? { return Err(canonical.error); }
      EndsOrCycles(ts, row.speaker, canonical.value);
      CollectOne(ts, sorted, n, winners, canonical.value);
      var key := (canonical.value, row.field);
      if key !in winners { winners := winners[key := row]; }
    }
    return Ok(winners);
  }

  /** INSERT ... ON CONFLICT (speaker_id, field) DO NOTHING, winner by winner. */
  method InsertWinners(winners: map<Key, Accepted>, profiles: map<Key, Profile>) returns (table: map<Key, Profile>)
    ensures table.Keys == profiles.Keys + winners.Keys
    ensures forall key :: key in table ==>
      table[key] == if key in profiles then profiles[key] else ProfileOf(winners[key])
  {
    table := profiles;
    var todo := winners.Keys;
    while todo != {}
      invariant todo <= winners.Keys && table.Keys == profiles.Keys + (winners.Keys - todo)
      invariant forall key :: key in table ==>
        (key in profiles || key in winners)
          && table[key] == if key in profiles then profiles[key] else ProfileOf(winners[key])
      decreases todo
    {
      var key :| key in todo;
      if key !in table { table := table[key := ProfileOf(winners[key])]; }
      todo := todo - {key};
    }
  }

  lemma WinnersFill(ts: Tombstones, rows: seq<Accepted>, sorted: seq<Accepted>, winners: map<Key, Accepted>,
                    profiles: map<Key, Profile>, table: map<Key, Profile>)
    requires Permutation(rows, sorted) && Sorted(NewerFirst, sorted) && Collected(ts, sorted, |sorted|, winners)
    requires table.Keys == profiles.Keys + winners.Keys
    requires forall key :: key in table ==>
      table[key] == if key in profiles then profiles[key] else ProfileOf(winners[key])
    ensures Filled(ts, rows, profiles, table)
  {
    SameElements(rows, sorted);
    forall key | Claimed(ts, rows, key) ensures key in table {
      var a :| a in rows && At(ts, a, key);
      var i :| 0 <= i < |sorted| && sorted[i] == a;
      assert key in winners;
    }
    forall key | key in table && key !in profiles
      ensures exists w :: Wins(ts, rows, key, w) && table[key] == ProfileOf(w)
    {
      assert FirstAmong(ts, sorted, |sorted|, key, winners[key]);
      var i :| 0 <= i < |sorted| && First(ts, sorted, i, key) && winners[key] == sorted[i];
      FirstWins(ts, rows, sorted, i, key);
    }
  }
}
