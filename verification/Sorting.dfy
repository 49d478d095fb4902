/** Python's `sorted`: a stable sort by key, and when its result does not depend on the input order. */
module Sorting {
  import opened Common

  ghost predicate TotalPreorder<T(!new)>(le: (T, T) -> bool) {
    && (forall x, y :: le(x, y) || le(y, x))
    && (forall x, y, z :: le(x, y) && le(y, z) ==> le(x, z))
  }

  ghost predicate Sorted<T>(le: (T, T) -> bool, s: seq<T>) {
    forall i, j :: 0 <= i < j < |s| ==> le(s[i], s[j])
  }

  /** Elements of `s` with equal keys are equal. */
  ghost predicate KeysIdentify<T>(le: (T, T) -> bool, s: seq<T>) {
    forall i, j :: 0 <= i < |s| && 0 <= j < |s| && le(s[i], s[j]) && le(s[j], s[i]) ==> s[i] == s[j]
  }

  function Insert<T>(le: (T, T) -> bool, x: T, s: seq<T>): seq<T> {
    if s == [] || le(x, s[0]) then [x] + s else [s[0]] + Insert(le, x, s[1..])
  }

  function Sort<T>(le: (T, T) -> bool, s: seq<T>): seq<T> {
    if s == [] then [] else Insert(le, s[0], Sort(le, s[1..]))
  }

  lemma {:induction false} InsertPermutes<T>(le: (T, T) -> bool, x: T, s: seq<T>)
    ensures multiset(Insert(le, x, s)) == multiset([x]) + multiset(s)
  {
    if !(s == [] || le(x, s[0])) {
      InsertPermutes(le, x, s[1..]);
      assert s == [s[0]] + s[1..];
    }
  }

  lemma {:induction false} SortPermutes<T>(le: (T, T) -> bool, s: seq<T>)
    ensures Permutation(Sort(le, s), s)
  {
    if s != [] {
      SortPermutes(le, s[1..]);
      InsertPermutes(le, s[0], Sort(le, s[1..]));
      assert s == [s[0]] + s[1..];
    }
  }

  lemma {:induction false} InsertSorts<T(!new)>(le: (T, T) -> bool, x: T, s: seq<T>)
    requires TotalPreorder(le) && Sorted(le, s)
    ensures Sorted(le, Insert(le, x, s))
  {
    if s == [] {
    } else if le(x, s[0]) {
      forall i | 0 <= i < |s| ensures le(x, s[i]) {
        if i > 0 { assert le(s[0], s[i]); }
      }
    } else {
      InsertSorts(le, x, s[1..]);
      var r := Insert(le, x, s[1..]);
      InsertPermutes(le, x, s[1..]);
      forall i | 0 <= i < |r| ensures le(s[0], r[i]) {
        assert r[i] in multiset(r);
        assert r[i] == x || r[i] in s[1..];
      }
    }
  }

  lemma {:induction false} SortSorts<T(!new)>(le: (T, T) -> bool, s: seq<T>)
    requires TotalPreorder(le)
    ensures Sorted(le, Sort(le, s))
  {
    if s != [] {
      SortSorts(le, s[1..]);
      InsertSorts(le, s[0], Sort(le, s[1..]));
    }
  }

  lemma SameElements<T>(a: seq<T>, b: seq<T>)
    requires Permutation(a, b)
    ensures |a| == |b| && forall x :: x in a <==> x in b
  {
    forall x ensures x in a <==> x in b {
      assert x in a <==> x in multiset(a);
      assert x in b <==> x in multiset(b);
    }
    assert |multiset(a)| == |a| && |multiset(b)| == |b|;
  }

  lemma KeysIdentifyPermuted<T>(le: (T, T) -> bool, a: seq<T>, b: seq<T>)
    requires Permutation(a, b) && KeysIdentify(le, a)
    ensures KeysIdentify(le, b)
  {
    SameElements(a, b);
    forall i, j | 0 <= i < |b| && 0 <= j < |b| && le(b[i], b[j]) && le(b[j], b[i]) ensures b[i] == b[j] {
      assert b[i] in a && b[j] in a;
    }
  }

  lemma SmallestFirst<T(!new)>(le: (T, T) -> bool, a: seq<T>, b: seq<T>)
    requires TotalPreorder(le) && Sorted(le, a) && Sorted(le, b) && KeysIdentify(le, a)
    requires a != [] && b != [] && a[0] in b && b[0] in a
    ensures a[0] == b[0]
  {
    var i :| 0 <= i < |b| && b[i] == a[0];
    var j :| 0 <= j < |a| && a[j] == b[0];
    assert le(b[0], b[i]) && le(a[0], a[j]);
  }

  lemma TailsPermute<T>(a: seq<T>, b: seq<T>)
    requires Permutation(a, b) && a != [] && b != [] && a[0] == b[0]
    ensures Permutation(a[1..], b[1..])
  {
    assert a == [a[0]] + a[1..] && b == [b[0]] + b[1..];
    assert multiset(a[1..]) == multiset(a) - multiset{a[0]};
    assert multiset(b[1..]) == multiset(b) - multiset{b[0]};
  }

  /** Sorted lists of the same elements are equal when equal keys mean equal elements. */
  lemma {:induction false} SortedUnique<T(!new)>(le: (T, T) -> bool, a: seq<T>, b: seq<T>)
    requires TotalPreorder(le) && Sorted(le, a) && Sorted(le, b) && Permutation(a, b) && KeysIdentify(le, a)
    ensures a == b
  {
    SameElements(a, b);
    if a != [] {
      assert a[0] in b && b[0] in a;
      SmallestFirst(le, a, b);
      TailsPermute(a, b);
      SortedUnique(le, a[1..], b[1..]);
      assert a == [a[0]] + a[1..] && b == [b[0]] + b[1..];
    }
  }

  function Filter<T>(p: T -> bool, s: seq<T>): seq<T> {
    if s == [] then [] else (if p(s[0]) then [s[0]] else []) + Filter(p, s[1..])
  }

  lemma {:induction false} FilterConcat<T>(p: T -> bool, a: seq<T>, b: seq<T>)
    ensures Filter(p, a + b) == Filter(p, a) + Filter(p, b)
  {
    if a == [] {
      assert a + b == b;
    } else {
      FilterConcat(p, a[1..], b);
      assert (a + b)[1..] == a[1..] + b && (a + b)[0] == a[0];
    }
  }

  /** A key class: `p` holds of an element exactly when its key equals some fixed key. */
  ghost predicate KeyClass<T(!new)>(le: (T, T) -> bool, p: T -> bool) {
    && (forall x, y :: p(x) && p(y) ==> le(x, y))
    && (forall x, y :: p(x) && le(x, y) && le(y, x) ==> p(y))
  }

  lemma {:induction false} InsertStable<T(!new)>(le: (T, T) -> bool, p: T -> bool, x: T, s: seq<T>)
    requires TotalPreorder(le) && KeyClass(le, p)
    ensures Filter(p, Insert(le, x, s)) == Filter(p, [x] + s)
  {
    if !(s == [] || le(x, s[0])) {
      InsertStable(le, p, x, s[1..]);
      assert !(p(x) && p(s[0]));
      assert ([x] + s)[1..] == s && ([x] + s[1..])[1..] == s[1..];
    }
  }

  /** Elements with the same key keep their input order. */
  lemma {:induction false} SortStable<T(!new)>(le: (T, T) -> bool, p: T -> bool, s: seq<T>)
    requires TotalPreorder(le) && KeyClass(le, p)
    ensures Filter(p, Sort(le, s)) == Filter(p, s)
  {
    if s != [] {
      SortStable(le, p, s[1..]);
      InsertStable(le, p, s[0], Sort(le, s[1..]));
      var r := Sort(le, s[1..]);
      assert ([s[0]] + r)[1..] == r;
      assert s == [s[0]] + s[1..];
    }
  }

  lemma SwapPermutes<T>(s: seq<T>, i: nat, j: nat)
    requires i < j < |s|
    ensures Permutation(s, s[i := s[j]][j := s[i]])
  {
    var t := s[i := s[j]][j := s[i]];
    assert multiset(t) == multiset(s[i := s[j]]) - multiset{s[j]} + multiset{s[i]};
    assert multiset(s[i := s[j]]) == multiset(s) - multiset{s[i]} + multiset{s[j]};
  }

  /** After the filtered prefix comes the next element that passes. */
  lemma FilterNext<T>(p: T -> bool, pre: seq<T>, rest: seq<T>)
    requires rest != [] && p(rest[0])
    ensures |Filter(p, pre)| < |Filter(p, pre + rest)| && Filter(p, pre + rest)[|Filter(p, pre)|] == rest[0]
  {
    FilterConcat(p, pre, rest);
  }

  /** Swapping two different elements with equal keys changes the sorted result. */
  lemma SwapShows<T(!new)>(le: (T, T) -> bool, s: seq<T>, i: nat, j: nat)
    requires TotalPreorder(le) && i < j < |s| && le(s[i], s[j]) && le(s[j], s[i]) && s[i] != s[j]
    ensures Sort(le, s[i := s[j]][j := s[i]]) != Sort(le, s)
  {
    var t := s[i := s[j]][j := s[i]];
    var p := (x: T) => le(x, s[i]) && le(s[i], x);
    assert Filter(p, s) != Filter(p, t) by {
      FilterNext(p, s[..i], s[i..]);
      FilterNext(p, t[..i], t[i..]);
      assert s[..i] == t[..i] && s[..i] + s[i..] == s && t[..i] + t[i..] == t;
    }
    assert KeyClass(le, p);
    SortStable(le, p, s);
    SortStable(le, p, t);
  }

  /** Sorting forgets the input order exactly when no two different elements share a key. */
  lemma SortForgetsOrder<T(!new)>(le: (T, T) -> bool, s: seq<T>)
    requires TotalPreorder(le)
    ensures (forall t :: Permutation(s, t) ==> Sort(le, t) == Sort(le, s)) <==> KeysIdentify(le, s)
  {
    if KeysIdentify(le, s) {
      forall t | Permutation(s, t) ensures Sort(le, t) == Sort(le, s) {
        SortPermutes(le, s);
        SortPermutes(le, t);
        SortSorts(le, s);
        SortSorts(le, t);
        KeysIdentifyPermuted(le, s, Sort(le, s));
        SortedUnique(le, Sort(le, s), Sort(le, t));
      }
    } else {
      var i, j :| 0 <= i < |s| && 0 <= j < |s| && le(s[i], s[j]) && le(s[j], s[i]) && s[i] != s[j];
      var a, b := if i < j then i else j, if i < j then j else i;
      SwapPermutes(s, a, b);
      SwapShows(le, s, a, b);
    }
  }

  lemma NoDupPermuted<T>(a: seq<T>, b: seq<T>)
    requires Permutation(a, b) && NoDup(a)
    ensures NoDup(b)
  {
    forall i, j | 0 <= i < j < |b| ensures b[i] != b[j] {
      Once(a, b[i]);
      assert b == b[..j] + b[j..];
      assert multiset(b)[b[i]] == multiset(b[..j])[b[i]] + multiset(b[j..])[b[i]];
      assert b[i] in b[..j] && b[j] in b[j..];
      assert multiset(b[..j])[b[i]] >= 1 && multiset(b[j..])[b[j]] >= 1;
    }
  }

  lemma {:induction false} NoDupSameSet<T>(a: seq<T>, b: seq<T>)
    requires NoDup(a) && NoDup(b) && forall x :: x in a <==> x in b
    ensures Permutation(a, b)
  {
    forall x ensures multiset(a)[x] == multiset(b)[x] {
      Once(a, x);
      Once(b, x);
    }
  }

  lemma {:induction false} Once<T>(a: seq<T>, x: T)
    requires NoDup(a)
    ensures multiset(a)[x] == if x in a then 1 else 0
  {
    if a != [] {
      assert NoDup(a[1..]) by {
        forall i, j | 0 <= i < j < |a[1..]| ensures a[1..][i] != a[1..][j] { assert a[i + 1] != a[j + 1]; }
      }
      Once(a[1..], x);
      assert a == [a[0]] + a[1..];
      if x == a[0] {
        forall i | 0 <= i < |a[1..]| ensures a[1..][i] != x { assert a[0] != a[i + 1]; }
      }
    }
  }
}

/** The order of Python strings. */
module TextOrder {

  predicate TextLe(a: string, b: string) {
    a == "" || (b != "" && (a[0] < b[0] || (a[0] == b[0] && TextLe(a[1..], b[1..]))))
  }

  lemma {:induction false} TextTotal(a: string, b: string)
    ensures TextLe(a, b) || TextLe(b, a)
    ensures TextLe(a, b) && TextLe(b, a) ==> a == b
  {
    if a != "" && b != "" && a[0] == b[0] {
      TextTotal(a[1..], b[1..]);
      assert a == [a[0]] + a[1..] && b == [b[0]] + b[1..];
    }
  }

  lemma {:induction false} TextTransitive(a: string, b: string, c: string)
    requires TextLe(a, b) && TextLe(b, c)
    ensures TextLe(a, c)
  {
    if a != "" && b != "" && c != "" && a[0] == b[0] == c[0] {
      TextTransitive(a[1..], b[1..], c[1..]);
    }
  }
}
