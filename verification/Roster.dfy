/** Choosing one enrollment slot per identity: the best candidate, whatever order the reports come in. */
module Roster {
  import opened Common
  import opened Sorting
  import opened TextOrder

  /** One aligned diarization slot; `gold` is None when no speaker dominates it. */
  datatype Slot = Slot(gold: Option<string>, genuine: bool, tag: string, purity: real, duration: real)

  datatype Report = Report(meeting: string, slots: seq<Slot>)

  datatype Candidate = Candidate(name: string, meeting: string, run: string, tag: string, purity: real, duration: real)

  /** Text comparison as one component of a sort key: strictly before, or equal and decided later. */
  predicate Before(a: string, b: string) { a != b && TextLe(a, b) }

  /** The sort key: purest, then longest, then meeting, slot and run. */
  predicate Better(a: Candidate, b: Candidate) {
    a.purity > b.purity || (a.purity == b.purity && (
      a.duration > b.duration || (a.duration == b.duration && (
        Before(a.meeting, b.meeting) || (a.meeting == b.meeting && (
          Before(a.tag, b.tag) || (a.tag == b.tag && TextLe(a.run, b.run))))))))
  }

  lemma BeforeStrict(a: string, b: string)
    ensures a == b || Before(a, b) || Before(b, a)
    ensures !(Before(a, b) && Before(b, a))
  {
    TextTotal(a, b);
  }

  lemma BeforeTransitive(a: string, b: string, c: string)
    requires Before(a, b) && Before(b, c)
    ensures Before(a, c)
  {
    TextTransitive(a, b, c);
    TextTotal(a, b);
  }

  lemma BetterTransitive(a: Candidate, b: Candidate, c: Candidate)
    requires Better(a, b) && Better(b, c)
    ensures Better(a, c)
  {
    if a.purity == c.purity && a.duration == c.duration {
      if Before(a.meeting, b.meeting) && Before(b.meeting, c.meeting) {
        BeforeTransitive(a.meeting, b.meeting, c.meeting);
      }
      BeforeStrict(a.meeting, c.meeting);
      BeforeStrict(a.meeting, b.meeting);
      if a.meeting == b.meeting == c.meeting {
        if Before(a.tag, b.tag) && Before(b.tag, c.tag) { BeforeTransitive(a.tag, b.tag, c.tag); }
        if a.tag == b.tag == c.tag { TextTransitive(a.run, b.run, c.run); }
      }
    }
  }

  lemma BetterOrder()
    ensures TotalPreorder(Better)
    ensures forall a, b :: Better(a, b) && Better(b, a) && a.name == b.name ==> a == b
  {
    forall a: Candidate, b: Candidate
      ensures (Better(a, b) || Better(b, a)) && (Better(a, b) && Better(b, a) && a.name == b.name ==> a == b)
    {
      BeforeStrict(a.meeting, b.meeting);
      BeforeStrict(a.tag, b.tag);
      TextTotal(a.run, b.run);
    }
    forall a: Candidate, b: Candidate, c: Candidate | Better(a, b) && Better(b, c) ensures Better(a, c) {
      BetterTransitive(a, b, c);
    }
  }

  // ------------------------------------------------------------------ collecting

  predicate Eligible(slot: Slot, allowed: set<string>) { slot.genuine && slot.gold.Some? && slot.gold.value in allowed }

  function Allowed(names: map<string, set<string>>, meeting: string): set<string> {
    if meeting in names then names[meeting] else {}
  }

  function OfSlots(meeting: string, run: string, slots: seq<Slot>, allowed: set<string>): seq<Candidate> {
    if slots == [] then []
    else
      var slot := slots[|slots| - 1];
      OfSlots(meeting, run, slots[..|slots| - 1], allowed)
      + (if Eligible(slot, allowed)
         then [Candidate(slot.gold.value, meeting, run, slot.tag, slot.purity, slot.duration)] else [])
  }

  function OfReport(r: Report, names: map<string, set<string>>, runs: map<string, string>): seq<Candidate> {
    if r.meeting in runs then OfSlots(r.meeting, runs[r.meeting], r.slots, Allowed(names, r.meeting)) else []
  }

  function Collect(reports: seq<Report>, names: map<string, set<string>>, runs: map<string, string>): seq<Candidate> {
    if reports == [] then []
    else Collect(reports[..|reports| - 1], names, runs) + OfReport(reports[|reports| - 1], names, runs)
  }

  /** `c` is made of slot `j` of report `i`. */
  predicate MadeOf(reports: seq<Report>, names: map<string, set<string>>, runs: map<string, string>, i: nat, j: nat,
                   c: Candidate) {
    && i < |reports| && j < |reports[i].slots| && reports[i].meeting in runs
    && Eligible(reports[i].slots[j], Allowed(names, reports[i].meeting))
    && var slot := reports[i].slots[j];
       c == Candidate(slot.gold.value, reports[i].meeting, runs[reports[i].meeting], slot.tag, slot.purity,
         slot.duration)
  }

  /** `c` is made of a slot of this report. */
  ghost predicate OfThis(r: Report, names: map<string, set<string>>, runs: map<string, string>, n: nat, c: Candidate) {
    exists j: nat :: j < n && MadeOf([r], names, runs, 0, j, c)
  }

  lemma {:induction false} FromSlots(r: Report, names: map<string, set<string>>, runs: map<string, string>, n: nat,
                                     c: Candidate)
    requires n <= |r.slots| && r.meeting in runs
    ensures c in OfSlots(r.meeting, runs[r.meeting], r.slots[..n], Allowed(names, r.meeting))
      <==> OfThis(r, names, runs, n, c)
  {
    if n > 0 {
      FromSlots(r, names, runs, n - 1, c);
      assert r.slots[..n][..n - 1] == r.slots[..n - 1];
      assert OfThis(r, names, runs, n, c)
        <==> OfThis(r, names, runs, n - 1, c) || MadeOf([r], names, runs, 0, n - 1, c) by {
        if OfThis(r, names, runs, n - 1, c) {
          var j: nat :| j < n - 1 && MadeOf([r], names, runs, 0, j, c);
          assert j < n && MadeOf([r], names, runs, 0, j, c);
        }
      }
    }
  }

  lemma FromReport(r: Report, names: map<string, set<string>>, runs: map<string, string>, c: Candidate)
    ensures c in OfReport(r, names, runs) <==> OfThis(r, names, runs, |r.slots|, c)
  {
    if r.meeting in runs {
      FromSlots(r, names, runs, |r.slots|, c);
      assert r.slots[..|r.slots|] == r.slots;
    }
  }

  lemma SameReport(reports: seq<Report>, others: seq<Report>, names: map<string, set<string>>,
                   runs: map<string, string>, i: nat, k: nat, j: nat, c: Candidate)
    requires i < |reports| && k < |others| && reports[i] == others[k]
    ensures MadeOf(reports, names, runs, i, j, c) <==> MadeOf(others, names, runs, k, j, c)
  {
  }

  ghost predicate Made(reports: seq<Report>, names: map<string, set<string>>, runs: map<string, string>, c: Candidate) {
    exists i: nat, j: nat :: MadeOf(reports, names, runs, i, j, c)
  }

  lemma MadeSplits(reports: seq<Report>, names: map<string, set<string>>, runs: map<string, string>, c: Candidate)
    requires reports != []
    ensures Made(reports, names, runs, c) <==>
      Made(reports[..|reports| - 1], names, runs, c)
        || OfThis(reports[|reports| - 1], names, runs, |reports[|reports| - 1].slots|, c)
  {
    var last := |reports| - 1;
    var p, r := reports[..last], reports[last];
    if Made(reports, names, runs, c) {
      var i: nat, j: nat :| MadeOf(reports, names, runs, i, j, c);
      if i < last {
        SameReport(reports, p, names, runs, i, i, j, c);
      } else {
        SameReport(reports, [r], names, runs, i, 0, j, c);
      }
    }
    if Made(p, names, runs, c) {
      var i: nat, j: nat :| MadeOf(p, names, runs, i, j, c);
      SameReport(reports, p, names, runs, i, i, j, c);
    }
    if OfThis(r, names, runs, |r.slots|, c) {
      var j: nat :| j < |r.slots| && MadeOf([r], names, runs, 0, j, c);
      SameReport(reports, [r], names, runs, last, 0, j, c);
    }
  }

  /** The candidates are exactly the genuine slots whose dominant speaker the meeting enrols. */
  lemma {:induction false} CollectExactly(reports: seq<Report>, names: map<string, set<string>>,
                                          runs: map<string, string>, c: Candidate)
    ensures c in Collect(reports, names, runs) <==> Made(reports, names, runs, c)
  {
    if reports != [] {
      CollectExactly(reports[..|reports| - 1], names, runs, c);
      FromReport(reports[|reports| - 1], names, runs, c);
      MadeSplits(reports, names, runs, c);
    }
  }

  // ------------------------------------------------------------------ selecting

  /** `selected` holds, for every name with a candidate, the one no other candidate of that name beats. */
  ghost predicate BestPerName(cs: seq<Candidate>, selected: map<string, Candidate>) {
    && (forall c :: c in cs ==> c.name in selected && Better(selected[c.name], c))
    && (forall name :: name in selected ==> selected[name] in cs && selected[name].name == name)
  }

  /** There is only one best candidate per name. */
  lemma BestUnique(cs: seq<Candidate>, a: map<string, Candidate>, b: map<string, Candidate>)
    requires BestPerName(cs, a) && BestPerName(cs, b)
    ensures a == b
  {
    BetterOrder();
    forall name ensures name in a <==> name in b {
      if name in a { assert a[name] in cs; }
      if name in b { assert b[name] in cs; }
    }
    forall name | name in a ensures a[name] == b[name] { assert a[name] in cs && b[name] in cs; }
  }

  /** Every report of `a` occurs in `b`, its slots in some order. */
  ghost predicate Covers(a: seq<Report>, b: seq<Report>) {
    forall i :: 0 <= i < |a| ==> CoveredIn(a[i], b)
  }

  ghost predicate CoveredIn(r: Report, b: seq<Report>) {
    exists j :: 0 <= j < |b| && b[j].meeting == r.meeting && Permutation(r.slots, b[j].slots)
  }

  lemma CoveredMade(a: seq<Report>, b: seq<Report>, names: map<string, set<string>>, runs: map<string, string>,
                    c: Candidate)
    requires Covers(a, b) && Made(a, names, runs, c)
    ensures Made(b, names, runs, c)
  {
    var i: nat, j: nat :| MadeOf(a, names, runs, i, j, c);
    assert CoveredIn(a[i], b);
    var k: nat :| k < |b| && b[k].meeting == a[i].meeting && Permutation(a[i].slots, b[k].slots);
    SameElements(a[i].slots, b[k].slots);
    assert a[i].slots[j] in b[k].slots;
    var m: nat :| m < |b[k].slots| && b[k].slots[m] == a[i].slots[j];
    assert MadeOf(b, names, runs, k, m, c);
  }

  /** The selection does not depend on the order of the reports, nor on the order of the slots in them. */
  lemma SelectionIgnoresOrder(reports: seq<Report>, others: seq<Report>, names: map<string, set<string>>,
                              runs: map<string, string>,
                              a: map<string, Candidate>, b: map<string, Candidate>)
    requires Covers(reports, others) && Covers(others, reports)
    requires BestPerName(Collect(reports, names, runs), a) && BestPerName(Collect(others, names, runs), b)
    ensures a == b
  {
    var cs, ds := Collect(reports, names, runs), Collect(others, names, runs);
    forall c ensures c in cs <==> c in ds {
      CollectExactly(reports, names, runs, c);
      CollectExactly(others, names, runs, c);
      if Made(reports, names, runs, c) { CoveredMade(reports, others, names, runs, c); }
      if Made(others, names, runs, c) { CoveredMade(others, reports, names, runs, c); }
    }
    assert BestPerName(cs, b);
    BestUnique(cs, a, b);
  }

  /** `setdefault` over the sorted list. */
  method FirstPerName(sorted: seq<Candidate>) returns (selected: map<string, Candidate>)
    requires Sorted(Better, sorted)
    ensures BestPerName(sorted, selected)
  {
    BetterOrder();
    selected := map[];
    for n := 0 to |sorted|
      invariant BestPerName(sorted[..n], selected)
    {
      var c := sorted[n];
      assert sorted[..n + 1] == sorted[..n] + [c];
      assert Better(c, c);
      if c.name in selected {
        var i :| 0 <= i < n && sorted[..n][i] == selected[c.name];
        assert Better(sorted[i], sorted[n]);
      } else {
        selected := selected[c.name := c];
      }
    }
    assert sorted[..|sorted|] == sorted;
  }

  method CollectCandidates(reports: seq<Report>, names: map<string, set<string>>, runs: map<string, string>)
    returns (cs: seq<Candidate>)
    ensures cs == Collect(reports, names, runs)
  {
    cs := [];
    for m := 0 to |reports|
      invariant cs == Collect(reports[..m], names, runs)
    {
      var r := reports[m];
      assert reports[..m + 1][..m] == reports[..m];
      if r.meeting !in runs { continue; }
      var allowed := Allowed(names, r.meeting);
      ghost var before := cs;
      for n := 0 to |r.slots|
        invariant cs == before + OfSlots(r.meeting, runs[r.meeting], r.slots[..n], allowed)
      {
        var slot := r.slots[n];
        assert r.slots[..n + 1][..n] == r.slots[..n];
        if !slot.genuine || slot.gold.None? || slot.gold.value !in allowed { continue; }
        cs := cs + [Candidate(slot.gold.value, r.meeting, runs[r.meeting], slot.tag, slot.purity, slot.duration)];
      }
      assert r.slots[..|r.slots|] == r.slots;
    }
    assert reports[..|reports|] == reports;
  }

  /** `select_enrollment_candidates`: the best eligible slot of every identity, and the identities left without one. */
  method SelectEnrollmentCandidates(
    reports: seq<Report>, names: map<string, set<string>>, runs: map<string, string>, expected: set<string>)
    returns (selected: map<string, Candidate>, missing: set<string>)
    ensures BestPerName(Collect(reports, names, runs), selected)
    ensures missing == expected - selected.Keys
  {
    var cs := CollectCandidates(reports, names, runs);
    BetterOrder();
    SortSorts(Better, cs);
    SortPermutes(Better, cs);
    SameElements(Sort(Better, cs), cs);
    selected := FirstPerName(Sort(Better, cs));
    missing := expected - selected.Keys;
  }
}
