/** Immutable rows with a write-once pointer to a newer generation: the trigger shared by
  * `run_enrichment_assets` (group = run and kind) and `run_translations` (group = run and language),
  * and the insert-then-supersede writer on top of it. */
module Lineage {
  import opened Common

  type Id = nat

  datatype Group = Group(run: nat, kind: string)

  /** The trigger compares every column but `supersededBy`. `completedAt` is stamped from the clock at each
    * attempt and no replay compares it; `content` is every other column. */
  datatype Row = Row(id: Id, group: Group, generation: int, content: string, completedAt: int, key: Option<string>,
                     supersededBy: Option<Id>)

  type Table = map<Id, Row>

  /** What a statement may try. */
  datatype Statement = InsertRow(row: Row) | UpdateRow(id: Id, row: Row) | DeleteRow(id: Id)

  /** Primary key, unique (group, generation), unique idempotency key, generation check, and the
    * trigger's INSERT branch. */
  predicate AdmitsInsert(t: Table, r: Row) {
    && r.supersededBy.None?
    && r.generation >= 1
    && r.id !in t
    && (forall i :: i in t ==> !(t[i].group == r.group && t[i].generation == r.generation))
    && (forall i :: i in t ==> (t[i].key.Some? ==> t[i].key != r.key))
  }

  /** The trigger's UPDATE branch. */
  predicate AdmitsUpdate(t: Table, id: Id, r: Row)
    requires id in t
  {
    var was := t[id];
    && r.(supersededBy := was.supersededBy) == was
    && (was.supersededBy.Some? ==> r.supersededBy == was.supersededBy)
    && (was.supersededBy.None? && r.supersededBy.Some? ==>
          var n := r.supersededBy.value;
          n in t && t[n].group == was.group && t[n].generation > was.generation)
  }

  /** The table after a statement; a rejected statement changes nothing, and every DELETE of a row is rejected. */
  function Apply(t: Table, s: Statement): Table {
    match s
    case InsertRow(r) => if AdmitsInsert(t, r) then t[r.id := r] else t
    case UpdateRow(id, r) => if id in t && AdmitsUpdate(t, id, r) then t[id := r] else t
    case DeleteRow(id) => t
  }

  function ApplyAll(t: Table, ss: seq<Statement>): Table
    decreases |ss|
  {
    if ss == [] then t else ApplyAll(Apply(t, ss[0]), ss[1..])
  }

  // ------------------------------------------------------------------ invariant

  predicate PointsUp(t: Table, i: Id)
    requires i in t
  {
    t[i].supersededBy.Some? ==>
      var n := t[i].supersededBy.value;
      n in t && t[n].group == t[i].group && t[n].generation > t[i].generation
  }

  ghost predicate Sound(t: Table) {
    && (forall i :: i in t ==> t[i].id == i && PointsUp(t, i))
    && (forall i, j :: i in t && j in t && t[i].group == t[j].group && t[i].generation == t[j].generation ==> i == j)
    && (forall i, j :: i in t && j in t && t[i].key.Some? && t[i].key == t[j].key ==> i == j)
  }

  /** `u` is a later version of `t`: no row lost, no content changed, no pointer moved. */
  ghost predicate Later(t: Table, u: Table) {
    forall i :: i in t ==>
      && i in u
      && u[i].(supersededBy := t[i].supersededBy) == t[i]
      && (t[i].supersededBy.Some? ==> u[i].supersededBy == t[i].supersededBy)
  }

  lemma InsertSound(t: Table, r: Row)
    requires Sound(t) && AdmitsInsert(t, r)
    ensures Sound(t[r.id := r]) && Later(t, t[r.id := r])
  {
    var u := t[r.id := r];
    forall i | i in u ensures u[i].id == i && PointsUp(u, i) {
      if i in t { assert PointsUp(t, i); }
    }
  }

  lemma UpdateSound(t: Table, id: Id, r: Row)
    requires Sound(t) && id in t && AdmitsUpdate(t, id, r)
    ensures Sound(t[id := r]) && Later(t, t[id := r])
  {
    var u := t[id := r];
    forall i | i in u ensures u[i].id == i && PointsUp(u, i) { assert PointsUp(t, i); }
  }

  lemma StatementSound(t: Table, s: Statement)
    requires Sound(t)
    ensures Sound(Apply(t, s)) && Later(t, Apply(t, s))
  {
    match s
    case InsertRow(r) => if AdmitsInsert(t, r) { InsertSound(t, r); }
    case UpdateRow(id, r) => if id in t && AdmitsUpdate(t, id, r) { UpdateSound(t, id, r); }
    case DeleteRow(_) =>
  }

  lemma LaterTransitive(a: Table, b: Table, c: Table)
    requires Later(a, b) && Later(b, c)
    ensures Later(a, c)
  {
  }

  /** Under any statements whatever, rows never disappear, content never changes, a pointer once set stays. */
  lemma {:induction false} HistoryImmutable(t: Table, ss: seq<Statement>)
    requires Sound(t)
    ensures Sound(ApplyAll(t, ss)) && Later(t, ApplyAll(t, ss))
    decreases |ss|
  {
    if ss != [] {
      StatementSound(t, ss[0]);
      HistoryImmutable(Apply(t, ss[0]), ss[1..]);
      LaterTransitive(t, Apply(t, ss[0]), ApplyAll(t, ss));
    }
  }

  // ------------------------------------------------------------------ following the pointers

  /** The rows of `i`'s group that are newer than `i`. */
  ghost function Newer(t: Table, i: Id): set<Id>
    requires i in t
  {
    set j | j in t && t[j].group == t[i].group && t[j].generation > t[i].generation
  }

  lemma PointerShrinks(t: Table, i: Id)
    requires Sound(t) && i in t && t[i].supersededBy.Some?
    ensures t[i].supersededBy.value in t
    ensures Newer(t, t[i].supersededBy.value) < Newer(t, i)
  {
    assert PointsUp(t, i);
    var n := t[i].supersededBy.value;
    assert n in Newer(t, i) && n !in Newer(t, n);
  }

  /** Where following `superseded_by` from row `i` ends. It always ends: every hop leaves fewer newer rows. */
  ghost function Head(t: Table, i: Id): (h: Id)
    requires Sound(t) && i in t
    ensures h in t && t[h].supersededBy.None? && t[h].group == t[i].group && t[h].generation >= t[i].generation
    decreases Newer(t, i)
  {
    if t[i].supersededBy.None? then i
    else
      PointerShrinks(t, i);
      assert PointsUp(t, i);
      Head(t, t[i].supersededBy.value)
  }

  ghost function Hops(t: Table, i: Id): nat
    requires Sound(t) && i in t
    decreases Newer(t, i)
  {
    if t[i].supersededBy.None? then 0
    else
      PointerShrinks(t, i);
      1 + Hops(t, t[i].supersededBy.value)
  }

  /** The head is reached within (newest generation minus own) hops. */
  lemma {:induction false} HopsBounded(t: Table, i: Id)
    requires Sound(t) && i in t
    ensures Hops(t, i) <= t[Head(t, i)].generation - t[i].generation
    ensures t[Head(t, i)].generation > t[i].generation <==> t[i].supersededBy.Some?
    decreases Newer(t, i)
  {
    if t[i].supersededBy.Some? {
      PointerShrinks(t, i);
      assert PointsUp(t, i);
      HopsBounded(t, t[i].supersededBy.value);
    }
  }

  /** `j` is reached from `i` by `n` pointer hops. */
  ghost predicate ReachesIn(t: Table, i: Id, n: nat, j: Id)
    decreases n
  {
    if n == 0 then i == j && i in t
    else i in t && t[i].supersededBy.Some? && ReachesIn(t, t[i].supersededBy.value, n - 1, j)
  }

  /** Supersession edges strictly raise the generation, so no row ever supersedes itself, through any chain. */
  lemma {:induction false} Acyclic(t: Table, i: Id, n: nat, j: Id)
    requires Sound(t) && ReachesIn(t, i, n, j)
    ensures j in t && t[j].group == t[i].group && t[j].generation >= t[i].generation + n
    ensures n > 0 ==> i != j
    decreases n
  {
    if n > 0 {
      assert PointsUp(t, i);
      Acyclic(t, t[i].supersededBy.value, n - 1, j);
    }
  }

  ghost predicate Newest(t: Table, i: Id) {
    i in t && forall j :: j in t && t[j].group == t[i].group ==> t[j].generation <= t[i].generation
  }

  /** The newest row of a group is never superseded, and is the head of its own chain. */
  lemma NewestIsHead(t: Table, i: Id)
    requires Sound(t) && Newest(t, i)
    ensures t[i].supersededBy.None? && Head(t, i) == i
  {
    assert PointsUp(t, i);
  }

  /** The head a fixed row resolves to never goes back to an older generation. */
  lemma {:induction false} HeadNeverOlder(t: Table, u: Table, i: Id)
    requires Sound(t) && Sound(u) && Later(t, u) && i in t
    ensures i in u && u[Head(u, i)].generation >= t[Head(t, i)].generation
    decreases Newer(t, i)
  {
    if t[i].supersededBy.Some? {
      PointerShrinks(t, i);
      HeadNeverOlder(t, u, t[i].supersededBy.value);
    }
  }

  // ------------------------------------------------------------------ the writer

  predicate Current(t: Table, g: Group, i: Id) { i in t && t[i].group == g && t[i].supersededBy.None? }

  /** The group has at most one current row. */
  ghost predicate OneHead(t: Table, g: Group) {
    forall i, j :: Current(t, g, i) && Current(t, g, j) ==> i == j
  }

  ghost predicate OneHeadEach(t: Table) { forall g :: OneHead(t, g) }

  /** With one current row, every row of the group resolves to it, and it is the newest. */
  lemma EveryRowResolvesToTheHead(t: Table, i: Id, j: Id)
    requires Sound(t) && i in t && j in t && t[i].group == t[j].group && OneHead(t, t[i].group)
    ensures Head(t, i) == Head(t, j) && t[j].generation <= t[Head(t, i)].generation
  {
    assert Current(t, t[i].group, Head(t, i)) && Current(t, t[i].group, Head(t, j));
  }

  /** What becomes of an existing row when `r` is recorded. */
  function Stamped(t: Table, r: Row, i: Id): Row
    requires i in t
  {
    if Current(t, r.group, i) then t[i].(supersededBy := Some(r.id)) else t[i]
  }

  /** The table `record_translation` commits when its key is new. */
  function Recorded(t: Table, r: Row): Table { (map i | i in t :: Stamped(t, r, i))[r.id := r] }

  predicate NextGeneration(t: Table, r: Row) {
    && r.generation >= 1
    && (forall i :: i in t && t[i].group == r.group ==> t[i].generation < r.generation)
  }

  /** The writer's step keeps one head per group, moves every row of the group to the new head, and leaves
    * other groups alone. */
  lemma RecordedOneHead(t: Table, r: Row)
    requires Sound(t) && OneHeadEach(t) && AdmitsInsert(t, r) && NextGeneration(t, r)
    ensures Sound(Recorded(t, r)) && Later(t, Recorded(t, r)) && OneHeadEach(Recorded(t, r))
    ensures forall i :: i in Recorded(t, r) && Recorded(t, r)[i].group == r.group ==> Head(Recorded(t, r), i) == r.id
    ensures forall i :: i in t && t[i].group != r.group ==> Recorded(t, r)[i] == t[i]
  {
    var u := Recorded(t, r);
    RecordedSound(t, r);
    forall g ensures OneHead(u, g) {
      assert OneHead(t, g);
      forall i, j | Current(u, g, i) && Current(u, g, j) ensures i == j {
        assert i != r.id ==> Current(t, g, i);
        assert j != r.id ==> Current(t, g, j);
      }
    }
    forall i | i in u && u[i].group == r.group ensures Head(u, i) == r.id {
      assert OneHead(u, r.group) && Current(u, r.group, Head(u, i)) && Current(u, r.group, r.id);
    }
  }

  /** The table while the writer's UPDATE has reached the rows in `done`. */
  function Partly(t: Table, r: Row, done: set<Id>): Table {
    (map i | i in t :: if i in done then Stamped(t, r, i) else t[i])[r.id := r]
  }

  /** The trigger admits each stamp of the writer's UPDATE. */
  lemma StampAdmitted(t: Table, r: Row, done: set<Id>, i: Id)
    requires AdmitsInsert(t, r) && NextGeneration(t, r) && Current(t, r.group, i) && i !in done
    ensures var u := Partly(t, r, done); var x := u[i].(supersededBy := Some(r.id));
      && u[i] == t[i] && AdmitsUpdate(u, i, x) && u[i := x] == Partly(t, r, done + {i})
  {
    var u := Partly(t, r, done);
    assert r.id in u && u[r.id] == r && i != r.id;
    assert u[i := u[i].(supersededBy := Some(r.id))] == Partly(t, r, done + {i});
  }

  lemma PartlyRecorded(t: Table, r: Row, done: set<Id>)
    requires forall i :: Current(t, r.group, i) ==> i in done
    ensures Partly(t, r, done) == Recorded(t, r)
  {
  }

  /** The rows the writer's UPDATE selects. */
  function OlderCurrent(t: Table, r: Row): set<Id> {
    set i | i in t && t[i].group == r.group && t[i].generation < r.generation && t[i].supersededBy.None?
  }

  lemma OlderCurrentIs(t: Table, r: Row)
    requires AdmitsInsert(t, r) && NextGeneration(t, r)
    ensures forall i :: i in OlderCurrent(t[r.id := r], r) <==> Current(t, r.group, i)
    ensures t[r.id := r] == Partly(t, r, {})
  {
  }

  lemma RecordedRows(t: Table, r: Row, i: Id)
    requires AdmitsInsert(t, r)
    ensures i in Recorded(t, r) <==> i in t || i == r.id
    ensures i in t ==> i != r.id && Recorded(t, r)[i] == Stamped(t, r, i)
    ensures Recorded(t, r)[r.id] == r
  {
  }

  lemma RecordedUnique(t: Table, r: Row, i: Id, j: Id)
    requires Sound(t) && AdmitsInsert(t, r) && i in Recorded(t, r) && j in Recorded(t, r)
    ensures var u := Recorded(t, r);
      && (u[i].group == u[j].group && u[i].generation == u[j].generation ==> i == j)
      && (u[i].key.Some? && u[i].key == u[j].key ==> i == j)
  {
    RecordedRows(t, r, i);
    RecordedRows(t, r, j);
  }

  lemma RecordedSound(t: Table, r: Row)
    requires Sound(t) && AdmitsInsert(t, r) && NextGeneration(t, r)
    ensures Sound(Recorded(t, r)) && Later(t, Recorded(t, r))
  {
    var u := Recorded(t, r);
    forall i | i in u ensures u[i].id == i && PointsUp(u, i) {
      RecordedRows(t, r, i);
      if i in t {
        assert PointsUp(t, i);
        if u[i].supersededBy.Some? { RecordedRows(t, r, u[i].supersededBy.value); }
      }
    }
    forall i, j | i in u && j in u
      ensures u[i].group == u[j].group && u[i].generation == u[j].generation ==> i == j
      ensures u[i].key.Some? && u[i].key == u[j].key ==> i == j
    {
      RecordedUnique(t, r, i, j);
    }
    forall i | i in t ensures i in u && u[i] == Stamped(t, r, i) { RecordedRows(t, r, i); }
  }

  predicate KeyKnown(t: Table, key: string) { exists i :: i in t && t[i].key == Some(key) }

  /** `_replay_matches`: the row of this key was written for the same group with the same content. */
  predicate IsReplay(t: Table, i: Id, g: Group, content: string, key: string) {
    i in t && t[i].key == Some(key) && t[i].group == g && t[i].content == content
  }

  datatype Outcome = Written(row: Row) | Replayed(row: Row) | Conflict

  class Lineages {
    var rows: Table

    constructor ()
      ensures rows == map[]
    {
      rows := map[];
    }

    /** The trigger at work on one statement. */
    method Execute(s: Statement) returns (ok: bool)
      modifies this
      ensures rows == Apply(old(rows), s)
      ensures !ok ==> rows == old(rows)
      ensures s.DeleteRow? && s.id in old(rows) ==> !ok
    {
      match s
      case InsertRow(r) =>
        ok := AdmitsInsert(rows, r);
        if ok { rows := rows[r.id := r]; }
      case UpdateRow(id, r) =>
        ok := id in rows && AdmitsUpdate(rows, id, r);
        if ok { rows := rows[id := r]; }
      case DeleteRow(id) =>
        ok := id !in rows;
    }

    /** Generation of the newest row of the group, or zero. */
    method MaxGeneration(g: Group) returns (m: int)
      requires Sound(rows)
      ensures m >= 0
      ensures forall i :: i in rows && rows[i].group == g ==> rows[i].generation <= m
      ensures m > 0 ==> exists i :: i in rows && rows[i].group == g && rows[i].generation == m
    {
      m := 0;
      var todo := rows.Keys;
      while todo != {}
        invariant m >= 0 && todo <= rows.Keys
        invariant forall i :: i in rows && i !in todo && rows[i].group == g ==> rows[i].generation <= m
        invariant m > 0 ==> exists i :: i in rows && rows[i].group == g && rows[i].generation == m
        decreases todo
      {
        var i :| i in todo;
        if rows[i].group == g && rows[i].generation > m { m := rows[i].generation; }
        todo := todo - {i};
      }
    }

    /** `record_translation` under its advisory lock: an identical replay returns the row, another payload under
      * the same key conflicts, a new key inserts the next generation and supersedes every current row. */
    method Record(g: Group, content: string, completedAt: int, key: string, newId: Id) returns (o: Outcome)
      requires Sound(rows) && OneHeadEach(rows) && newId !in rows
      modifies this
      ensures Sound(rows) && OneHeadEach(rows) && Later(old(rows), rows)
      ensures o.Written? <==> !KeyKnown(old(rows), key)
      ensures o.Replayed? <==> exists i :: IsReplay(old(rows), i, g, content, key)
      ensures o.Replayed? ==> o.row.id in rows && rows[o.row.id] == o.row && IsReplay(rows, o.row.id, g, content, key)
      ensures !o.Written? ==> rows == old(rows)
      ensures o.Written? ==> o.row == Row(newId, g, o.row.generation, content, completedAt, Some(key), None)
      ensures o.Written? ==> NextGeneration(old(rows), o.row) && rows == Recorded(old(rows), o.row)
      ensures o.Written? ==> forall i :: i in rows && rows[i].group == g ==> Head(rows, i) == newId
    {
      if i :| i in rows && rows[i].key == Some(key) {
        if rows[i].group == g && rows[i].content == content {
          assert IsReplay(rows, i, g, content, key);
          return Replayed(rows[i]);
        }
        return Conflict;
      }
      var m := MaxGeneration(g);
      var r := Row(newId, g, m + 1, content, completedAt, Some(key), None);
      ghost var before := rows;
      var ok := Execute(InsertRow(r));
      assert ok;
      Supersede(before, r);
      RecordedOneHead(before, r);
      return Written(r);
    }

    /** One row of the writer's UPDATE. */
    method Stamp(ghost before: Table, r: Row, ghost done: set<Id>, i: Id)
      requires AdmitsInsert(before, r) && NextGeneration(before, r) && Current(before, r.group, i) && i !in done
      requires rows == Partly(before, r, done)
      modifies this
      ensures rows == Partly(before, r, done + {i})
    {
      StampAdmitted(before, r, done, i);
      var ok := Execute(UpdateRow(i, rows[i].(supersededBy := Some(r.id))));
    }

    /** UPDATE ... SET superseded_by = r WHERE same group AND older AND superseded_by IS NULL, row by row. */
    method Supersede(ghost before: Table, r: Row)
      requires Sound(before) && AdmitsInsert(before, r) && NextGeneration(before, r) && rows == before[r.id := r]
      modifies this
      ensures rows == Recorded(before, r)
    {
      var todo := OlderCurrent(rows, r);
      ghost var all := todo;
      OlderCurrentIs(before, r);
      assert all - todo == {};
      while todo != {}
        invariant todo <= all && rows == Partly(before, r, all - todo)
        decreases todo
      {
        var i :| i in todo;
        Stamp(before, r, all - todo, i);
        assert all - todo + {i} == all - (todo - {i});
        todo := todo - {i};
      }
      PartlyRecorded(before, r, all - todo);
    }
  }

  ghost predicate HasHead(t: Table, g: Group) { exists i :: Current(t, g, i) }

  /** A statement breaks the one head of a group exactly when it inserts into a group that has one. Updates,
    * whatever they try, and inserts into a group without a current row keep it. */
  lemma StatementKeepsOneHead(t: Table, s: Statement, g: Group)
    requires Sound(t) && OneHead(t, g)
    ensures OneHead(Apply(t, s), g)
      <==> !(s.InsertRow? && AdmitsInsert(t, s.row) && s.row.group == g && HasHead(t, g))
  {
    var u := Apply(t, s);
    match s
    case InsertRow(r) =>
      if AdmitsInsert(t, r) && r.group == g {
        if HasHead(t, g) {
          var i :| Current(t, g, i);
          assert Current(u, g, i) && Current(u, g, r.id) && i != r.id;
        } else {
          forall i | Current(u, g, i) ensures i == r.id { assert i != r.id ==> Current(t, g, i); }
        }
      } else {
        forall i | Current(u, g, i) ensures Current(t, g, i) { }
      }
    case UpdateRow(id, r) => forall i | Current(u, g, i) ensures Current(t, g, i) { }
    case DeleteRow(_) =>
  }

  /** The trigger alone does not keep one head: two plain inserts leave two current rows. */
  lemma TriggerAloneAllowsTwoHeads(g: Group)
    ensures exists ss :: !OneHead(ApplyAll(map[], ss), g)
  {
    var r1, r2 := Row(1, g, 1, "", 0, None, None), Row(2, g, 2, "", 0, None, None);
    var ss := [InsertRow(r1), InsertRow(r2)];
    assert ss[1..] == [InsertRow(r2)] && [InsertRow(r2)][1..] == [];
    var t0: Table := map[];
    var t1 := Apply(t0, ss[0]);
    var t2 := Apply(t1, InsertRow(r2));
    assert ApplyAll(t0, ss) == ApplyAll(t1, [InsertRow(r2)]) == ApplyAll(t2, []) == t2;
    assert Current(t2, g, 1) && Current(t2, g, 2);
    assert !OneHead(ApplyAll(t0, ss), g);
  }
}
