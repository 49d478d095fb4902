/** AMI transcripts: the one-pass hypothesis renders and the per-speaker reference. */
module Renders {
  import opened Common
  import opened Sorting
  import opened TextOrder
  import opened Cropping

  // ------------------------------------------------------------------ kept words

  predicate IsSpace(c: char) {
    var n := c as int;
    9 <= n <= 13 || 28 <= n <= 32 || n == 0x85 || n == 0xA0 || n == 0x1680 || 0x2000 <= n <= 0x200A
    || n == 0x2028 || n == 0x2029 || n == 0x202F || n == 0x205F || n == 0x3000
  }

  function Strip(s: string): (t: string)
    ensures t != "" ==> !IsSpace(t[0]) && !IsSpace(t[|t| - 1])
    decreases |s|
  {
    if s == "" then ""
    else if IsSpace(s[0]) then Strip(s[1..])
    else if IsSpace(s[|s| - 1]) then Strip(s[..|s| - 1])
    else s
  }

  /** A stored word object; None is a missing or malformed field. */
  datatype StoredWord = StoredWord(startUs: Option<int>, endUs: Option<int>, token: Option<string>)

  /** `_coerce_word` succeeds. */
  predicate WellFormed(w: StoredWord) {
    w.startUs.Some? && w.endUs.Some? && w.token.Some? && w.startUs.value <= w.endUs.value
  }

  predicate Keeps(w: StoredWord, rs: seq<Region>) {
    WellFormed(w) && InAny(Mid(w.startUs.value, w.endUs.value), rs) && Strip(w.token.value) != ""
  }

  datatype Segment = Segment(index: int, speaker: Option<string>, words: seq<StoredWord>)

  datatype KeptWord = KeptWord(segment: int, word: nat, speaker: Option<string>, text: string)

  /** The kept words among the first `n` of a segment. */
  function KeptOfSegment(s: Segment, rs: seq<Region>, n: nat): seq<KeptWord>
    requires n <= |s.words|
  {
    if n == 0 then []
    else
      var w := s.words[n - 1];
      KeptOfSegment(s, rs, n - 1)
      + (if Keeps(w, rs) then [KeptWord(s.index, n - 1, s.speaker, Strip(w.token.value))] else [])
  }

  function KeptOf(segs: seq<Segment>, rs: seq<Region>): seq<KeptWord> {
    if segs == [] then []
    else var s := segs[|segs| - 1]; KeptOf(segs[..|segs| - 1], rs) + KeptOfSegment(s, rs, |s.words|)
  }

  /** `k` is word `j` of segment `i`, kept: midpoint in a region, text stripped and not empty, the segment's label. */
  predicate KeptAt(segs: seq<Segment>, rs: seq<Region>, i: nat, j: nat, k: KeptWord) {
    && i < |segs| && j < |segs[i].words| && Keeps(segs[i].words[j], rs)
    && k == KeptWord(segs[i].index, j, segs[i].speaker, Strip(segs[i].words[j].token.value))
  }

  ghost predicate KeptSomewhere(segs: seq<Segment>, rs: seq<Region>, k: KeptWord) {
    exists i: nat, j: nat :: KeptAt(segs, rs, i, j, k)
  }

  lemma {:induction false} KeptInSegment(s: Segment, rs: seq<Region>, n: nat, k: KeptWord)
    requires n <= |s.words|
    ensures k in KeptOfSegment(s, rs, n) <==> k.word < n && KeptAt([s], rs, 0, k.word, k)
  {
    if n > 0 { KeptInSegment(s, rs, n - 1, k); }
  }

  /** The kept words are exactly the words the crop rule keeps. */
  lemma {:induction false} KeptExactly(segs: seq<Segment>, rs: seq<Region>, k: KeptWord)
    ensures k in KeptOf(segs, rs) <==> KeptSomewhere(segs, rs, k)
  {
    if segs != [] {
      var last := |segs| - 1;
      var p, s := segs[..last], segs[last];
      KeptExactly(p, rs, k);
      KeptInSegment(s, rs, |s.words|, k);
      if KeptSomewhere(p, rs, k) {
        var i: nat, j: nat :| KeptAt(p, rs, i, j, k);
        assert KeptAt(segs, rs, i, j, k);
      }
      if KeptAt([s], rs, 0, k.word, k) { assert KeptAt(segs, rs, last, k.word, k); }
      if KeptSomewhere(segs, rs, k) {
        var i: nat, j: nat :| KeptAt(segs, rs, i, j, k);
        if i < last { assert KeptAt(p, rs, i, j, k); } else { assert KeptAt([s], rs, 0, k.word, k); }
      }
    }
  }

  predicate AllWellFormed(segs: seq<Segment>) {
    forall i, j :: 0 <= i < |segs| && 0 <= j < |segs[i].words| ==> WellFormed(segs[i].words[j])
  }

  /** `_iter_kept_hyp_words`, materialised: one crop pass in ASR order. */
  method KeptHypWords(segs: seq<Segment>, rs: seq<Region>) returns (r: Result<seq<KeptWord>, string>)
    ensures r.Ok? <==> rs != [] && AllWellFormed(segs)
    ensures r.Ok? ==> r.value == KeptOf(segs, rs)
  {
    if rs == [] { return Err("no UEM regions"); }
    var kept: seq<KeptWord> := [];
    for m := 0 to |segs|
      invariant kept == KeptOf(segs[..m], rs)
      invariant forall i, j :: 0 <= i < m && 0 <= j < |segs[i].words| ==> WellFormed(segs[i].words[j])
    {
      var s := segs[m];
      ghost var before := kept;
      for n := 0 to |s.words|
        invariant kept == before + KeptOfSegment(s, rs, n)
        invariant forall j :: 0 <= j < n ==> WellFormed(s.words[j])
      {
        if !WellFormed(s.words[n]) { return Err("malformed hypothesis word"); }
        if InAny(Mid(s.words[n].startUs.value, s.words[n].endUs.value), rs) {
          var stripped := Strip(s.words[n].token.value);
          if stripped != "" { kept := kept + [KeptWord(s.index, n, s.speaker, stripped)]; }
        }
      }
      assert segs[..m + 1][..m] == segs[..m];
    }
    assert segs[..|segs|] == segs;
    return Ok(kept);
  }

  // ------------------------------------------------------------------ streams

  /** `encode_cpwer_label`. */
  function EncodeLabel(speaker: Option<string>): string {
    match speaker case None => "unassigned:" case Some(l) => "speaker:" + l
  }

  /** The label encoding is injective; no real label can spell the anonymous key. */
  lemma EncodeInjective(a: Option<string>, b: Option<string>)
    ensures EncodeLabel(a) == EncodeLabel(b) <==> a == b
  {
    var p := "speaker:";
    if a.Some? && b.Some? && EncodeLabel(a) == EncodeLabel(b) {
      assert a.value == (p + a.value)[|p|..] && b.value == (p + b.value)[|p|..];
    }
    assert EncodeLabel(a)[0] == (if a.Some? then 's' else 'u');
    assert EncodeLabel(b)[0] == (if b.Some? then 's' else 'u');
  }

  /** A word with the stream it belongs to. */
  datatype Tagged = Tagged(key: string, text: string)

  function Texts(ts: seq<Tagged>): (xs: seq<string>)
    ensures |xs| == |ts| && forall i :: 0 <= i < |ts| ==> xs[i] == ts[i].text
  {
    seq(|ts|, i requires 0 <= i < |ts| => ts[i].text)
  }

  /** The order-preserving filter of the list by one stream key. */
  function StreamOf(ts: seq<Tagged>, key: string): seq<string> {
    if ts == [] then []
    else StreamOf(ts[..|ts| - 1], key) + (if ts[|ts| - 1].key == key then [ts[|ts| - 1].text] else [])
  }

  predicate HasKey(ts: seq<Tagged>, key: string) { exists i :: 0 <= i < |ts| && ts[i].key == key }

  /** A Python dictionary of lists: keys in insertion order, each with its stream. */
  datatype Streams = Streams(order: seq<string>, of: map<string, seq<string>>)

  ghost predicate IsStreams(ts: seq<Tagged>, s: Streams) {
    && NoDup(s.order)
    && (forall key :: key in s.order <==> key in s.of)
    && (forall key :: key in s.of <==> HasKey(ts, key))
    && (forall key :: key in s.of ==> s.of[key] == StreamOf(ts, key))
  }

  lemma {:induction false} AbsentIsEmpty(ts: seq<Tagged>, key: string)
    requires !HasKey(ts, key)
    ensures StreamOf(ts, key) == []
  {
    if ts != [] {
      var p := ts[..|ts| - 1];
      assert forall i :: 0 <= i < |p| ==> p[i] == ts[i];
      AbsentIsEmpty(p, key);
    }
  }

  /** `streams.setdefault(key, []).append(text)`. */
  function Append(s: Streams, t: Tagged): Streams
    requires forall key :: key in s.order <==> key in s.of
  {
    if t.key in s.of then s.(of := s.of[t.key := s.of[t.key] + [t.text]])
    else Streams(s.order + [t.key], s.of[t.key := [t.text]])
  }

  lemma StreamsStep(ts: seq<Tagged>, t: Tagged, s: Streams)
    requires IsStreams(ts, s)
    ensures IsStreams(ts + [t], Append(s, t))
  {
    var us := ts + [t];
    assert us[..|us| - 1] == ts;
    forall key ensures HasKey(us, key) <==> HasKey(ts, key) || key == t.key {
      if HasKey(ts, key) {
        var i :| 0 <= i < |ts| && ts[i].key == key;
        assert us[i].key == key;
      }
      assert us[|ts|].key == t.key;
    }
    AbsentUnlessPresent(ts, t.key);
  }

  lemma AbsentUnlessPresent(ts: seq<Tagged>, key: string)
    ensures HasKey(ts, key) || StreamOf(ts, key) == []
  {
    if !HasKey(ts, key) { AbsentIsEmpty(ts, key); }
  }

  /** The grouping loop of both sides. */
  method GroupStreams(ts: seq<Tagged>) returns (s: Streams)
    ensures IsStreams(ts, s)
  {
    s := Streams([], map[]);
    for n := 0 to |ts|
      invariant IsStreams(ts[..n], s)
    {
      StreamsStep(ts[..n], ts[n], s);
      assert ts[..n + 1] == ts[..n] + [ts[n]];
      s := Append(s, ts[n]);
    }
    assert ts[..|ts|] == ts;
  }

  /** All words of the streams named in `order`, stream after stream. */
  function Flatten(order: seq<string>, ts: seq<Tagged>): seq<string> {
    if order == [] then [] else StreamOf(ts, order[0]) + Flatten(order[1..], ts)
  }

  lemma {:induction false} FlattenEmpty(order: seq<string>)
    ensures Flatten(order, []) == []
  {
    if order != [] { FlattenEmpty(order[1..]); }
  }

  lemma {:induction false} FlattenAppend(order: seq<string>, ts: seq<Tagged>, t: Tagged)
    requires NoDup(order)
    ensures multiset(Flatten(order, ts + [t])) == multiset(Flatten(order, ts))
      + (if t.key in order then multiset{t.text} else multiset{})
  {
    assert (ts + [t])[..|ts|] == ts;
    if order != [] {
      assert NoDup(order[1..]) by { assert forall i :: 0 <= i < |order| - 1 ==> order[1..][i] == order[i + 1]; }
      FlattenAppend(order[1..], ts, t);
      assert t.key in order <==> t.key == order[0] || t.key in order[1..];
      assert t.key == order[0] ==> t.key !in order[1..];
    }
  }

  /** The streams hold exactly the words of the list, each as often: nothing dropped, nothing counted twice. */
  lemma {:induction false} StreamsConserve(order: seq<string>, ts: seq<Tagged>)
    requires NoDup(order) && forall i :: 0 <= i < |ts| ==> ts[i].key in order
    ensures multiset(Flatten(order, ts)) == multiset(Texts(ts))
    ensures |Flatten(order, ts)| == |ts|
  {
    if ts == [] {
      FlattenEmpty(order);
    } else {
      var p, t := ts[..|ts| - 1], ts[|ts| - 1];
      assert ts == p + [t] && Texts(ts) == Texts(p) + [t.text];
      StreamsConserve(order, p);
      FlattenAppend(order, p, t);
    }
    assert |multiset(Flatten(order, ts))| == |Flatten(order, ts)| && |multiset(Texts(ts))| == |Texts(ts)|;
  }

  /** `sum(len(words) for words in streams.values())`. */
  method GroupedTotal(ghost ts: seq<Tagged>, s: Streams) returns (total: nat)
    requires IsStreams(ts, s)
    ensures total == |ts|
  {
    total := 0;
    for n := 0 to |s.order|
      invariant total + |Flatten(s.order[n..], ts)| == |Flatten(s.order, ts)|
    {
      var key := s.order[n];
      assert key in s.order && s.order[n..][1..] == s.order[n + 1..];
      total := total + |s.of[key]|;
    }
    forall i | 0 <= i < |ts| ensures ts[i].key in s.order { assert HasKey(ts, ts[i].key); }
    StreamsConserve(s.order, ts);
  }

  /** How often a key occurs among the first `n` words. */
  function Seen(ts: seq<Tagged>, n: nat, key: string): nat
    requires n <= |ts|
  {
    if n == 0 then 0 else Seen(ts, n - 1, key) + (if ts[n - 1].key == key then 1 else 0)
  }

  lemma {:induction false} SeenIsPosition(ts: seq<Tagged>, n: nat, key: string)
    requires n <= |ts|
    ensures Seen(ts, n, key) == |StreamOf(ts[..n], key)|
    ensures StreamOf(ts[..n], key) <= StreamOf(ts, key)
    decreases |ts|
  {
    if n < |ts| {
      var p := ts[..|ts| - 1];
      SeenIsPosition(p, n, key);
      assert p[..n] == ts[..n];
      SeenLocal(p, ts, n, key);
    } else if n > 0 {
      SeenIsPosition(ts[..n - 1], n - 1, key);
      SeenLocal(ts[..n - 1], ts, n - 1, key);
      assert ts[..n] == ts && ts[..n - 1][..n - 1] == ts[..n - 1];
    }
  }

  lemma {:induction false} SeenLocal(ts: seq<Tagged>, us: seq<Tagged>, n: nat, key: string)
    requires n <= |ts| <= |us| && us[..n] == ts[..n]
    ensures Seen(ts, n, key) == Seen(us, n, key)
  {
    if n > 0 {
      assert us[..n][n - 1] == ts[..n][n - 1] && us[..n][..n - 1] == ts[..n][..n - 1];
      assert us[..n - 1] == us[..n][..n - 1] && ts[..n - 1] == ts[..n][..n - 1];
      SeenLocal(ts, us, n - 1, key);
    }
  }

  /** Word `i` is the next unread word of its stream. */
  ghost predicate Next(ts: seq<Tagged>, s: Streams, i: nat)
    requires i < |ts|
  {
    var key := ts[i].key;
    key in s.of && Seen(ts, i, key) < |s.of[key]| && ts[i].text == s.of[key][Seen(ts, i, key)]
  }

  /** The stream of word `i`'s key, read up to `i`, goes on with word `i`. */
  lemma StreamGoesOn(ts: seq<Tagged>, i: nat)
    requires i < |ts|
    ensures StreamOf(ts[..i + 1], ts[i].key) == StreamOf(ts[..i], ts[i].key) + [ts[i].text]
  {
    assert ts[..i + 1][..i] == ts[..i];
  }

  lemma NextAt(ts: seq<Tagged>, s: Streams, i: nat)
    requires IsStreams(ts, s) && i < |ts|
    ensures Next(ts, s, i)
  {
    var key := ts[i].key;
    assert HasKey(ts, key);
    SeenIsPosition(ts, i, key);
    SeenIsPosition(ts, i + 1, key);
    StreamGoesOn(ts, i);
    assert StreamOf(ts[..i + 1], key) <= s.of[key];
  }

  /** The words in list order are an interleaving of the streams: each word is the next unread word of its
    * stream, and every stream is read to its end. */
  lemma PlainIsInterleaving(ts: seq<Tagged>, s: Streams)
    requires IsStreams(ts, s)
    ensures forall i :: 0 <= i < |ts| ==> Next(ts, s, i)
    ensures forall key :: key in s.of ==> Seen(ts, |ts|, key) == |s.of[key]|
  {
    forall i | 0 <= i < |ts| ensures Next(ts, s, i) { NextAt(ts, s, i); }
    forall key | key in s.of ensures Seen(ts, |ts|, key) == |s.of[key]| {
      SeenIsPosition(ts, |ts|, key);
      assert ts[..|ts|] == ts;
    }
  }

  // ------------------------------------------------------------------ hypothesis renders

  function TagKept(kept: seq<KeptWord>): (ts: seq<Tagged>)
    ensures |ts| == |kept| && forall i :: 0 <= i < |kept| ==>
      ts[i] == Tagged(EncodeLabel(kept[i].speaker), kept[i].text)
  {
    seq(|kept|, i requires 0 <= i < |kept| => Tagged(EncodeLabel(kept[i].speaker), kept[i].text))
  }

  /** The texts of the kept words carrying one diarization label, in list order. */
  function WordsOf(kept: seq<KeptWord>, speaker: Option<string>): seq<string> {
    if kept == [] then []
    else
      var k := kept[|kept| - 1];
      WordsOf(kept[..|kept| - 1], speaker) + (if k.speaker == speaker then [k.text] else [])
  }

  /** Each stream is exactly the order-preserving filter of the kept words by label. */
  lemma {:induction false} StreamIsFilterByLabel(kept: seq<KeptWord>, speaker: Option<string>)
    ensures StreamOf(TagKept(kept), EncodeLabel(speaker)) == WordsOf(kept, speaker)
  {
    if kept != [] {
      var last := |kept| - 1;
      StreamIsFilterByLabel(kept[..last], speaker);
      assert TagKept(kept)[..last] == TagKept(kept[..last]);
      EncodeInjective(kept[last].speaker, speaker);
    }
  }

  /** `" ".join`. */
  function Join(xs: seq<string>): string {
    if xs == [] then "" else if |xs| == 1 then xs[0] else xs[0] + " " + Join(xs[1..])
  }

  datatype Occurrence = Occurrence(segment: int, word: nat)

  function Occ(k: KeptWord): Occurrence { Occurrence(k.segment, k.word) }

  function Count(kept: seq<KeptWord>, o: Occurrence): nat {
    if kept == [] then 0 else Count(kept[..|kept| - 1], o) + (if Occ(kept[|kept| - 1]) == o then 1 else 0)
  }

  ghost predicate Distinct(kept: seq<KeptWord>) {
    forall i, j :: 0 <= i < j < |kept| ==> Occ(kept[i]) != Occ(kept[j])
  }

  lemma {:induction false} CountPositive(kept: seq<KeptWord>, o: Occurrence)
    ensures Count(kept, o) > 0 <==> exists i :: 0 <= i < |kept| && Occ(kept[i]) == o
  {
    if kept != [] {
      var p := kept[..|kept| - 1];
      CountPositive(p, o);
      assert forall i :: 0 <= i < |p| ==> p[i] == kept[i];
      if Occ(kept[|kept| - 1]) != o && exists i :: 0 <= i < |kept| && Occ(kept[i]) == o {
        var i :| 0 <= i < |kept| && Occ(kept[i]) == o;
        assert Occ(p[i]) == o;
      }
    }
  }

  lemma {:induction false} DistinctCountsOnce(kept: seq<KeptWord>, o: Occurrence)
    requires Distinct(kept)
    ensures Count(kept, o) <= 1
  {
    if kept != [] {
      var p, last := kept[..|kept| - 1], |kept| - 1;
      forall i, j | 0 <= i < j < |p| ensures Occ(p[i]) != Occ(p[j]) { assert Occ(kept[i]) != Occ(kept[j]); }
      DistinctCountsOnce(p, o);
      CountPositive(p, o);
      assert forall i :: 0 <= i < last ==> Occ(kept[i]) != Occ(kept[last]);
    }
  }

  lemma {:induction false} RepeatCountsTwice(kept: seq<KeptWord>, i: nat, j: nat)
    requires i < j < |kept| && Occ(kept[i]) == Occ(kept[j])
    ensures Count(kept, Occ(kept[i])) >= 2
  {
    var p := kept[..|kept| - 1];
    if j < |p| {
      RepeatCountsTwice(p, i, j);
    } else {
      CountPositive(p, Occ(kept[i]));
      assert Occ(p[i]) == Occ(kept[i]);
    }
  }

  /** `Counter(...)` and the list of occurrences counted other than once. */
  method NoDuplicates(kept: seq<KeptWord>) returns (ok: bool)
    ensures ok <==> Distinct(kept)
  {
    var counts: map<Occurrence, nat> := map[];
    for n := 0 to |kept|
      invariant forall o :: (if o in counts then counts[o] else 0) == Count(kept[..n], o)
      invariant forall o :: o in counts ==> counts[o] > 0
    {
      var o := Occ(kept[n]);
      assert kept[..n + 1][..n] == kept[..n];
      counts := counts[o := (if o in counts then counts[o] else 0) + 1];
    }
    assert kept[..|kept|] == kept;
    ok := forall o :: o in counts ==> counts[o] == 1;
    if Distinct(kept) {
      forall o | o in counts ensures counts[o] == 1 { DistinctCountsOnce(kept, o); }
    } else {
      ghost var i: nat, j: nat :| i < j < |kept| && Occ(kept[i]) == Occ(kept[j]);
      RepeatCountsTwice(kept, i, j);
      assert counts[Occ(kept[i])] == Count(kept, Occ(kept[i]));
    }
  }

  datatype Renders = Renders(text: string, streams: Streams)

  /** Plain text and streams are made from the same kept words. */
  ghost predicate RendersOf(kept: seq<KeptWord>, r: Renders) {
    && r.text == Join(Texts(TagKept(kept)))
    && IsStreams(TagKept(kept), r.streams)
  }

  /** `ami_hypothesis_renders`. Its conservation error is unreachable: the only failures are a missing
    * region, a malformed word, and two kept words with one occurrence id. */
  method AmiHypothesisRenders(segs: seq<Segment>, rs: seq<Region>) returns (r: Result<Renders, string>)
    ensures r.Ok? <==> rs != [] && AllWellFormed(segs) && Distinct(KeptOf(segs, rs))
    ensures r.Ok? ==> RendersOf(KeptOf(segs, rs), r.value)
  {
    var kept := KeptHypWords(segs, rs);
    if kept.Err? { return Err(kept.error); }
    var unique := NoDuplicates(kept.value);
    if !unique { return Err("duplicate occurrences"); }
    var tagged := TagKept(kept.value);
    var text := Join(Texts(tagged));
    var streams := GroupStreams(tagged);
    var total := GroupedTotal(tagged, streams);
    r := if total != |kept.value| then Err("not an occurrence partition") else Ok(Renders(text, streams));
  }

  // ------------------------------------------------------------------ export shaping

  /** A stored transcript segment: `words` is NULL when timing was lost, `raw` is NULL or the text. */
  datatype SegmentRow = SegmentRow(index: int, speaker: Option<string>, words: Option<seq<StoredWord>>,
                                   raw: Option<string>)

  ghost predicate Increasing(rows: seq<SegmentRow>) {
    forall i, j :: 0 <= i < j < |rows| ==> rows[i].index < rows[j].index
  }

  predicate Exportable(row: SegmentRow) {
    && (row.speaker.Some? ==> Strip(row.speaker.value) != "")
    && (row.words.None? && row.raw.Some? ==> Strip(row.raw.value) == "")
  }

  function Shaped(row: SegmentRow): Segment {
    Segment(row.index, row.speaker, if row.words.Some? then row.words.value else [])
  }

  function ShapedAll(rows: seq<SegmentRow>): (segs: seq<Segment>)
    ensures |segs| == |rows| && forall i :: 0 <= i < |rows| ==> segs[i] == Shaped(rows[i])
  {
    seq(|rows|, i requires 0 <= i < |rows| => Shaped(rows[i]))
  }

  predicate Ascending(indices: seq<int>) { forall i, j :: 0 <= i < j < |indices| ==> indices[i] < indices[j] }

  function Indices(rows: seq<SegmentRow>): (indices: seq<int>)
    ensures |indices| == |rows| && forall i :: 0 <= i < |rows| ==> indices[i] == rows[i].index
    ensures Ascending(indices) <==> Increasing(rows)
  {
    seq(|rows|, i requires 0 <= i < |rows| => rows[i].index)
  }

  /** `assert_monotonic_unique`. */
  method MonotonicUnique(indices: seq<int>) returns (ok: bool)
    ensures ok <==> Ascending(indices)
  {
    var seen: set<int> := {};
    var prev: Option<int> := None;
    for n := 0 to |indices|
      invariant forall i, j :: 0 <= i < j < n ==> indices[i] < indices[j]
      invariant seen == set i | 0 <= i < n :: indices[i]
      invariant prev == if n == 0 then None else Some(indices[n - 1])
    {
      var idx := indices[n];
      if idx in seen || (prev.Some? && idx < prev.value) {
        if idx in seen { var i :| 0 <= i < n && indices[i] == idx; }
        return false;
      }
      seen, prev := seen + {idx}, Some(idx);
      assert n > 0 ==> indices[n - 1] in seen;
    }
    return true;
  }

  /** `segments_to_labeled_words`. */
  method SegmentsToLabeledWords(rows: seq<SegmentRow>) returns (r: Result<seq<Segment>, string>)
    ensures r.Ok? <==> Increasing(rows) && forall i :: 0 <= i < |rows| ==> Exportable(rows[i])
    ensures r.Ok? ==> r.value == ShapedAll(rows)
  {
    var monotonic := MonotonicUnique(Indices(rows));
    if !monotonic { return Err("index out of order or duplicated"); }
    var out: seq<Segment> := [];
    for n := 0 to |rows|
      invariant out == ShapedAll(rows[..n])
      invariant forall i :: 0 <= i < n ==> Exportable(rows[i])
    {
      var row := rows[n];
      if row.speaker.Some? && Strip(row.speaker.value) == "" { return Err("blank diarization label"); }
      if row.words.None? {
        if row.raw.Some? && Strip(row.raw.value) != "" { return Err("word timestamps missing"); }
        out := out + [Segment(row.index, row.speaker, [])];
      } else {
        out := out + [Segment(row.index, row.speaker, row.words.value)];
      }
    }
    assert rows[..|rows|] == rows;
    return Ok(out);
  }

  lemma {:induction false} KeptOfSegmentShape(s: Segment, rs: seq<Region>, n: nat)
    requires n <= |s.words|
    ensures forall i :: 0 <= i < |KeptOfSegment(s, rs, n)| ==>
      KeptOfSegment(s, rs, n)[i].segment == s.index && KeptOfSegment(s, rs, n)[i].word < n
    ensures Distinct(KeptOfSegment(s, rs, n))
  {
    if n > 0 { KeptOfSegmentShape(s, rs, n - 1); }
  }

  predicate IndexOfOne(segs: seq<Segment>, index: int) { exists i :: 0 <= i < |segs| && segs[i].index == index }

  /** Every kept word comes from one of the segments; distinct segment indices give distinct occurrences. */
  lemma {:induction false} KeptDistinct(segs: seq<Segment>, rs: seq<Region>)
    requires forall i, j :: 0 <= i < j < |segs| ==> segs[i].index != segs[j].index
    ensures forall k :: 0 <= k < |KeptOf(segs, rs)| ==> IndexOfOne(segs, KeptOf(segs, rs)[k].segment)
    ensures Distinct(KeptOf(segs, rs))
  {
    if segs != [] {
      var last := |segs| - 1;
      var p, s := segs[..last], segs[last];
      KeptDistinct(p, rs);
      KeptOfSegmentShape(s, rs, |s.words|);
      var a, b := KeptOf(p, rs), KeptOfSegment(s, rs, |s.words|);
      var c: seq<KeptWord> := a + b;
      forall k | 0 <= k < |c| ensures IndexOfOne(segs, c[k].segment) {
        if k < |a| {
          var i :| 0 <= i < |p| && p[i].index == a[k].segment;
          assert segs[i].index == c[k].segment;
        } else {
          assert segs[last].index == c[k].segment;
        }
      }
      forall i, j | 0 <= i < j < |c| ensures Occ(c[i]) != Occ(c[j]) {
        if i < |a| <= j {
          var m :| 0 <= m < |p| && p[m].index == a[i].segment;
          assert segs[m].index != segs[last].index;
        } else if j >= |a| {
          assert Occ(b[i - |a|]) != Occ(b[j - |a|]);
        }
      }
    }
  }

  ghost predicate AsrOrder(kept: seq<KeptWord>) {
    forall i, j :: 0 <= i < j < |kept| ==>
      kept[i].segment < kept[j].segment || (kept[i].segment == kept[j].segment && kept[i].word < kept[j].word)
  }

  lemma {:induction false} SegmentInAsrOrder(s: Segment, rs: seq<Region>, n: nat)
    requires n <= |s.words|
    ensures AsrOrder(KeptOfSegment(s, rs, n))
  {
    if n > 0 {
      SegmentInAsrOrder(s, rs, n - 1);
      KeptOfSegmentShape(s, rs, n - 1);
    }
  }

  /** Over guarded rows the kept words come in segment order and, within a segment, in stored order. With
    * `KeptExactly` this determines the list. */
  lemma {:induction false} KeptInAsrOrder(segs: seq<Segment>, rs: seq<Region>)
    requires forall i, j :: 0 <= i < j < |segs| ==> segs[i].index < segs[j].index
    ensures AsrOrder(KeptOf(segs, rs))
  {
    if segs != [] {
      var last := |segs| - 1;
      var p, s := segs[..last], segs[last];
      KeptInAsrOrder(p, rs);
      KeptDistinct(p, rs);
      SegmentInAsrOrder(s, rs, |s.words|);
      KeptOfSegmentShape(s, rs, |s.words|);
      var a, b := KeptOf(p, rs), KeptOfSegment(s, rs, |s.words|);
      forall i | 0 <= i < |a| ensures a[i].segment < s.index {
        var m :| 0 <= m < |p| && p[m].index == a[i].segment;
        assert segs[m].index < segs[last].index;
      }
    }
  }

  /** The two steps of the export: after the ordering guard, the duplicate check never fires either, so a
    * hypothesis is refused exactly for an unordered or unexportable row, a malformed word or an empty UEM. */
  method Hypothesis(rows: seq<SegmentRow>, rs: seq<Region>) returns (r: Result<Renders, string>)
    ensures r.Ok? <==>
      Increasing(rows) && (forall i :: 0 <= i < |rows| ==> Exportable(rows[i])) && rs != []
        && AllWellFormed(ShapedAll(rows))
    ensures r.Ok? ==> RendersOf(KeptOf(ShapedAll(rows), rs), r.value)
  {
    var labeled := SegmentsToLabeledWords(rows);
    if labeled.Err? { return Err(labeled.error); }
    KeptDistinct(labeled.value, rs);
    r := AmiHypothesisRenders(labeled.value, rs);
  }

  // ------------------------------------------------------------------ reference

  datatype TimedWord = TimedWord(startUs: int, endUs: int, text: string, speaker: string)

  /** The sort key of the merge: start, end, speaker, text. */
  predicate WordLe(a: TimedWord, b: TimedWord) {
    a.startUs < b.startUs || (a.startUs == b.startUs && (
      a.endUs < b.endUs || (a.endUs == b.endUs && (
        (a.speaker != b.speaker && TextLe(a.speaker, b.speaker))
          || (a.speaker == b.speaker && TextLe(a.text, b.text))))))
  }

  lemma WordLeOrder()
    ensures TotalPreorder(WordLe)
    ensures forall a, b :: WordLe(a, b) && WordLe(b, a) ==> a == b
  {
    forall a: TimedWord, b: TimedWord
      ensures (WordLe(a, b) || WordLe(b, a)) && (WordLe(a, b) && WordLe(b, a) ==> a == b)
    {
      TextTotal(a.speaker, b.speaker);
      TextTotal(a.text, b.text);
    }
    forall a: TimedWord, b: TimedWord, c: TimedWord | WordLe(a, b) && WordLe(b, c) ensures WordLe(a, c) {
      if a.startUs == c.startUs && a.endUs == c.endUs {
        TextTotal(a.speaker, b.speaker);
        TextTotal(b.speaker, c.speaker);
        if TextLe(a.speaker, b.speaker) && TextLe(b.speaker, c.speaker) {
          TextTransitive(a.speaker, b.speaker, c.speaker);
        }
        if TextLe(a.text, b.text) && TextLe(b.text, c.text) { TextTransitive(a.text, b.text, c.text); }
      }
    }
  }

  predicate Scored(w: TimedWord, rs: seq<Region>) { InAny(Mid(w.startUs, w.endUs), rs) }

  function Merged(words: seq<TimedWord>, rs: seq<Region>): seq<TimedWord> {
    Sort(WordLe, Filter(w => Scored(w, rs), words))
  }

  function TagWords(words: seq<TimedWord>): (ts: seq<Tagged>)
    ensures |ts| == |words| && forall i :: 0 <= i < |words| ==>
      ts[i] == Tagged(EncodeLabel(Some(words[i].speaker)), words[i].text)
  {
    seq(|words|, i requires 0 <= i < |words| => Tagged(EncodeLabel(Some(words[i].speaker)), words[i].text))
  }

  /** The crop, merge, grouping and conservation check of `build_reference`: the check never fires. */
  method BuildReference(words: seq<TimedWord>, rs: seq<Region>) returns (r: Result<Renders, string>)
    ensures r.Ok?
    ensures r.value.text == Join(Texts(TagWords(Merged(words, rs))))
    ensures IsStreams(TagWords(Merged(words, rs)), r.value.streams)
  {
    var scored := Filter(w => Scored(w, rs), words);
    var merged := Sort(WordLe, scored);
    var tagged := TagWords(merged);
    var streams := GroupStreams(tagged);
    var total := GroupedTotal(tagged, streams);
    r := if total != |merged| then Err("not an occurrence partition") else Ok(Renders(Join(Texts(tagged)), streams));
  }

  lemma {:induction false} FilterCount<T>(p: T -> bool, a: seq<T>, x: T)
    ensures multiset(Filter(p, a))[x] == if p(x) then multiset(a)[x] else 0
  {
    if a != [] {
      FilterCount(p, a[1..], x);
      assert a == [a[0]] + a[1..];
    }
  }

  lemma SameCounts<T>(a: seq<T>, b: seq<T>)
    requires forall x :: multiset(a)[x] == multiset(b)[x]
    ensures Permutation(a, b)
  {
  }

  lemma FilterOfPermuted<T>(p: T -> bool, a: seq<T>, b: seq<T>)
    requires Permutation(a, b)
    ensures Permutation(Filter(p, a), Filter(p, b))
  {
    forall x: T ensures multiset(Filter(p, a))[x] == multiset(Filter(p, b))[x] {
      FilterCount(p, a, x);
      FilterCount(p, b, x);
    }
    SameCounts(Filter(p, a), Filter(p, b));
  }

  /** The merge is deterministic: word files read in any order give the same merged reference, holding
    * exactly the words of the recording whose midpoint is scored. */
  lemma MergeIgnoresLoadOrder(words: seq<TimedWord>, other: seq<TimedWord>, rs: seq<Region>)
    requires Permutation(words, other)
    ensures Merged(words, rs) == Merged(other, rs)
    ensures forall w :: multiset(Merged(words, rs))[w] == if Scored(w, rs) then multiset(words)[w] else 0
  {
    var p := w => Scored(w, rs);
    FilterOfPermuted(p, words, other);
    WordLeOrder();
    SortForgetsOrder(WordLe, Filter(p, words));
    SortPermutes(WordLe, Filter(p, words));
    forall w ensures multiset(Merged(words, rs))[w] == if Scored(w, rs) then multiset(words)[w] else 0 {
      FilterCount(p, words, w);
    }
  }

  function By(speaker: string): TimedWord -> bool { (w: TimedWord) => w.speaker == speaker }

  function WordTexts(words: seq<TimedWord>): (xs: seq<string>)
    ensures |xs| == |words| && forall i :: 0 <= i < |words| ==> xs[i] == words[i].text
  {
    seq(|words|, i requires 0 <= i < |words| => words[i].text)
  }

  lemma {:induction false} StreamOfClass(ts: seq<Tagged>, words: seq<TimedWord>, key: string, p: TimedWord -> bool)
    requires |ts| == |words|
    requires forall i :: 0 <= i < |ts| ==> ts[i].text == words[i].text && (ts[i].key == key <==> p(words[i]))
    ensures StreamOf(ts, key) == WordTexts(Filter(p, words))
  {
    if ts != [] {
      var last := |ts| - 1;
      StreamOfClass(ts[..last], words[..last], key, p);
      assert words == words[..last] + [words[last]];
      FilterConcat(p, words[..last], [words[last]]);
    }
  }

  lemma StreamOfSpeaker(words: seq<TimedWord>, speaker: string)
    ensures StreamOf(TagWords(words), EncodeLabel(Some(speaker))) == WordTexts(Filter(By(speaker), words))
  {
    forall i | 0 <= i < |words|
      ensures EncodeLabel(Some(words[i].speaker)) == EncodeLabel(Some(speaker)) <==> By(speaker)(words[i])
    {
      EncodeInjective(Some(words[i].speaker), Some(speaker));
    }
    StreamOfClass(TagWords(words), words, EncodeLabel(Some(speaker)), By(speaker));
  }

  lemma {:induction false} FilterElements<T>(p: T -> bool, s: seq<T>)
    ensures forall x :: x in Filter(p, s) ==> x in s
  {
    if s != [] { FilterElements(p, s[1..]); }
  }

  lemma FilterKeysIdentify<T(!new)>(le: (T, T) -> bool, p: T -> bool, s: seq<T>)
    requires KeysIdentify(le, s)
    ensures KeysIdentify(le, Filter(p, s))
  {
    FilterElements(p, s);
    var r := Filter(p, s);
    forall i, j | 0 <= i < |r| && 0 <= j < |r| && le(r[i], r[j]) && le(r[j], r[i]) ensures r[i] == r[j] {
      assert r[i] in s && r[j] in s;
    }
  }

  lemma FilterOfSortPermutes<T>(le: (T, T) -> bool, p: T -> bool, s: seq<T>)
    ensures Permutation(Filter(p, Sort(le, s)), Sort(le, Filter(p, s)))
  {
    SortPermutes(le, s);
    FilterOfPermuted(p, Sort(le, s), s);
    SortPermutes(le, Filter(p, s));
  }

  lemma {:induction false} FilterSorted<T(!new)>(le: (T, T) -> bool, p: T -> bool, s: seq<T>)
    requires Sorted(le, s)
    ensures Sorted(le, Filter(p, s))
  {
    if s != [] {
      FilterSorted(le, p, s[1..]);
      FilterElements(p, s[1..]);
      var r := Filter(p, s[1..]);
      forall i | 0 <= i < |r| ensures le(s[0], r[i]) {
        assert r[i] in s[1..];
        var k :| 0 <= k < |s[1..]| && s[1..][k] == r[i];
        assert le(s[0], s[k + 1]);
      }
    }
  }

  lemma {:induction false} FilterCommutes<T>(p: T -> bool, q: T -> bool, s: seq<T>)
    ensures Filter(p, Filter(q, s)) == Filter(q, Filter(p, s))
  {
    if s != [] {
      FilterCommutes(p, q, s[1..]);
      FilterConcat(p, if q(s[0]) then [s[0]] else [], Filter(q, s[1..]));
      FilterConcat(q, if p(s[0]) then [s[0]] else [], Filter(p, s[1..]));
    }
  }

  /** Filtering a sorted list is sorting the filtered list. */
  lemma FilterOfSort<T(!new)>(le: (T, T) -> bool, p: T -> bool, s: seq<T>)
    requires TotalPreorder(le) && KeysIdentify(le, s)
    ensures Filter(p, Sort(le, s)) == Sort(le, Filter(p, s))
  {
    var a, b := Filter(p, Sort(le, s)), Sort(le, Filter(p, s));
    SortSorts(le, s);
    FilterSorted(le, p, Sort(le, s));
    SortSorts(le, Filter(p, s));
    FilterOfSortPermutes(le, p, s);
    SortPermutes(le, s);
    KeysIdentifyPermuted(le, s, Sort(le, s));
    FilterKeysIdentify(le, p, Sort(le, s));
    SortedUnique(le, a, b);
  }

  /** Grouping the merged list gives each speaker the stream a second sort of that speaker's own scored
    * words would give. */
  lemma StreamsNeedNoSecondSort(words: seq<TimedWord>, rs: seq<Region>, speaker: string)
    ensures StreamOf(TagWords(Merged(words, rs)), EncodeLabel(Some(speaker)))
         == WordTexts(Merged(Filter(By(speaker), words), rs))
  {
    WordLeOrder();
    var scored := w => Scored(w, rs);
    StreamOfSpeaker(Merged(words, rs), speaker);
    FilterOfSort(WordLe, By(speaker), Filter(scored, words));
    FilterCommutes(By(speaker), scored, words);
  }
}
