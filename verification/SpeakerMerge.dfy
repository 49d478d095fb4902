/** Merge tombstones: the chain walk of `_canonicalize` (alembic/versions/0041_speaker_profiles.py). */
module SpeakerMerge {
  import opened Common

  type SpeakerId = nat

  /** `merged_into_id` of every tombstoned speaker. */
  type Tombstones = map<SpeakerId, SpeakerId>

  /** `x` is where `n` tombstones lead from `s`. */
  ghost predicate Leads(ts: Tombstones, s: SpeakerId, n: nat, x: SpeakerId)
    decreases n
  {
    if n == 0 then s == x else s in ts && Leads(ts, ts[s], n - 1, x)
  }

  ghost predicate Reachable(ts: Tombstones, s: SpeakerId, x: SpeakerId) { exists n: nat :: Leads(ts, s, n, x) }

  /** `c` is reachable from `s` and has no outgoing tombstone. */
  ghost predicate IsCanonical(ts: Tombstones, s: SpeakerId, c: SpeakerId) {
    c !in ts && Reachable(ts, s, c)
  }

  /** `s` reaches a speaker that reaches itself. */
  ghost predicate ReachesCycle(ts: Tombstones, s: SpeakerId) {
    exists n: nat, m: nat, x :: m > 0 && Leads(ts, s, n, x) && Leads(ts, x, m, x)
  }

  lemma {:induction false} LeadsOneWay(ts: Tombstones, s: SpeakerId, n: nat, x: SpeakerId, y: SpeakerId)
    requires Leads(ts, s, n, x) && Leads(ts, s, n, y)
    ensures x == y
    decreases n
  {
    if n > 0 { LeadsOneWay(ts, ts[s], n - 1, x, y); }
  }

  lemma {:induction false} LeadsOn(ts: Tombstones, s: SpeakerId, n: nat, x: SpeakerId, m: nat, y: SpeakerId)
    requires Leads(ts, s, n, x) && Leads(ts, x, m, y)
    ensures Leads(ts, s, n + m, y)
    decreases n
  {
    if n > 0 { LeadsOn(ts, ts[s], n - 1, x, m, y); }
  }

  /** A shorter walk along a longer one stops at a tombstone. */
  lemma {:induction false} StopsAtTombstone(ts: Tombstones, s: SpeakerId, n: nat, x: SpeakerId, m: nat, y: SpeakerId)
    requires Leads(ts, s, n, x) && Leads(ts, s, m, y) && n < m
    ensures x in ts
    decreases n
  {
    if n > 0 { StopsAtTombstone(ts, ts[s], n - 1, x, m - 1, y); }
  }

  /** On a cycle the walk never runs out. */
  lemma {:induction false} CycleGoesOn(ts: Tombstones, x: SpeakerId, m: nat, rounds: nat)
    requires m > 0 && Leads(ts, x, m, x)
    ensures Leads(ts, x, m * rounds, x)
    decreases rounds
  {
    if rounds > 0 {
      CycleGoesOn(ts, x, m, rounds - 1);
      LeadsOn(ts, x, m * (rounds - 1), x, m, x);
      assert m * (rounds - 1) + m == m * rounds;
    }
  }

  /** The walk ends or cycles, never both. */
  lemma EndsOrCycles(ts: Tombstones, s: SpeakerId, c: SpeakerId)
    requires IsCanonical(ts, s, c)
    ensures !ReachesCycle(ts, s)
  {
    var n: nat :| Leads(ts, s, n, c);
    forall a: nat, m: nat, x | m > 0 && Leads(ts, s, a, x) && Leads(ts, x, m, x) ensures false {
      CycleGoesOn(ts, x, m, n + 1);
      LeadsOn(ts, s, a, x, m * (n + 1), x);
      assert m * (n + 1) >= n + 1 by { assert m * (n + 1) == (m - 1) * (n + 1) + (n + 1); }
      StopsAtTombstone(ts, s, n, c, a + m * (n + 1), x);
    }
  }

  /** At most one canonical speaker. */
  lemma CanonicalUnique(ts: Tombstones, s: SpeakerId, c: SpeakerId, d: SpeakerId)
    requires IsCanonical(ts, s, c) && IsCanonical(ts, s, d)
    ensures c == d
  {
    var n: nat :| Leads(ts, s, n, c);
    var m: nat :| Leads(ts, s, m, d);
    if n == m { LeadsOneWay(ts, s, n, c, d); }
    else if n < m { StopsAtTombstone(ts, s, n, c, m, d); }
    else { StopsAtTombstone(ts, s, m, d, n, c); }
  }

  /** `_canonicalize`: terminates on every map, raises exactly when the start reaches a cycle, otherwise
    * returns the one reachable speaker without a tombstone. */
  method Canonicalize(start: SpeakerId, ts: Tombstones) returns (r: Result<SpeakerId, string>)
    ensures r.Err? <==> ReachesCycle(ts, start)
    ensures r.Ok? ==> IsCanonical(ts, start, r.value)
  {
    var current := start;
    var visited := {current};
    ghost var steps: nat := 0;
    assert Leads(ts, start, 0, start);
    while current in ts
      invariant current in visited && Leads(ts, start, steps, current)
      invariant forall v :: v in visited ==> Reachable(ts, v, current)
      invariant forall v :: v in visited ==> Reachable(ts, start, v)
      decreases ts.Keys - (visited - {current})
    {
      ghost var prev, seen := current, visited;
      current := ts[current];
      assert Leads(ts, prev, 1, current) by { assert Leads(ts, current, 0, current); }
      if current in visited {
        assert Reachable(ts, current, prev) && Reachable(ts, start, current);
        ghost var k: nat :| Leads(ts, current, k, prev);
        ghost var a: nat :| Leads(ts, start, a, current);
        LeadsOn(ts, current, k, prev, 1, current);
        assert ReachesCycle(ts, start);
        return Err("speaker merge chain contains a cycle");
      }
      LeadsOn(ts, start, steps, prev, 1, current);
      steps := steps + 1;
      visited := visited + {current};
      forall v | v in visited ensures Reachable(ts, v, current) {
        if v in seen {
          assert Reachable(ts, v, prev);
          var k: nat :| Leads(ts, v, k, prev);
          LeadsOn(ts, v, k, prev, 1, current);
        } else {
          assert Leads(ts, v, 0, current);
        }
      }
      assert prev in ts.Keys - (seen - {prev}) && prev !in ts.Keys - (visited - {current});
    }
    EndsOrCycles(ts, start, current);
    return Ok(current);
  }

  // ------------------------------------------------------------------ the walk as a function

  /** The canonical speaker, if the walk ends. */
  ghost function Canonical(ts: Tombstones, s: SpeakerId): (c: Option<SpeakerId>)
    ensures c.Some? ==> IsCanonical(ts, s, c.value)
    ensures c.None? ==> forall x :: !IsCanonical(ts, s, x)
  {
    if x :| IsCanonical(ts, s, x) then Some(x) else None
  }

  lemma CanonicalIs(ts: Tombstones, s: SpeakerId, c: SpeakerId)
    requires IsCanonical(ts, s, c)
    ensures Canonical(ts, s) == Some(c)
  {
    CanonicalUnique(ts, s, c, Canonical(ts, s).value);
  }

  /** One tombstone further, the answer is the same. */
  lemma CanonicalStep(ts: Tombstones, s: SpeakerId)
    ensures Canonical(ts, s) == if s in ts then Canonical(ts, ts[s]) else Some(s)
  {
    if s !in ts {
      assert Leads(ts, s, 0, s);
      CanonicalIs(ts, s, s);
    } else {
      forall c ensures IsCanonical(ts, s, c) <==> IsCanonical(ts, ts[s], c) {
        if IsCanonical(ts, ts[s], c) {
          var n: nat :| Leads(ts, ts[s], n, c);
          assert Leads(ts, s, n + 1, c);
        }
        if IsCanonical(ts, s, c) {
          var n: nat :| Leads(ts, s, n, c);
          assert n > 0 && Leads(ts, ts[s], n - 1, c);
        }
      }
      if Canonical(ts, s).Some? { CanonicalIs(ts, ts[s], Canonical(ts, s).value); }
    }
  }

  /** Canonicalising twice changes nothing. */
  lemma Idempotent(ts: Tombstones, s: SpeakerId)
    ensures Canonical(ts, s).Some? ==> Canonical(ts, Canonical(ts, s).value) == Canonical(ts, s)
  {
    if Canonical(ts, s).Some? { CanonicalStep(ts, Canonical(ts, s).value); }
  }

  /** Every chain that ends replaced by one hop to its end. */
  ghost function Compressed(ts: Tombstones): Tombstones {
    map s | s in ts :: if Canonical(ts, s).Some? then Canonical(ts, s).value else ts[s]
  }

  /** Path compression changes no result, whether the walk ends or cycles. */
  lemma CompressionInvisible(ts: Tombstones, s: SpeakerId)
    ensures Canonical(Compressed(ts), s) == Canonical(ts, s)
  {
    var zs := Compressed(ts);
    CanonicalStep(ts, s);
    CanonicalStep(zs, s);
    if s in ts && Canonical(ts, s).Some? {
      CanonicalStep(zs, Canonical(ts, s).value);
    } else if s in ts {
      forall c, n: nat | c !in zs ensures !Leads(zs, s, n, c) {
        StillCycling(ts, s, n, c);
      }
    }
  }

  lemma {:induction false} StillCycling(ts: Tombstones, s: SpeakerId, n: nat, c: SpeakerId)
    requires s in ts && Canonical(ts, s).None? && c !in ts
    ensures !Leads(Compressed(ts), s, n, c)
    decreases n
  {
    CanonicalStep(ts, s);
    if n > 0 {
      CanonicalStep(ts, ts[s]);
      StillCycling(ts, ts[s], n - 1, c);
    }
  }
}
