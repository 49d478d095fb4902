/** Midpoint cropping to scored regions, and the two UEM parsers that must agree on those regions. */
module Cropping {
  import opened Common

  // ------------------------------------------------------------------ cropping

  /** A scored interval, in integer microseconds, half open. */
  datatype Region = Region(startUs: int, endUs: int)

  /** Python's `//` floors, as does Dafny's `/` for a positive divisor. */
  function Mid(startUs: int, endUs: int): int { (startUs + endUs) / 2 }

  predicate In(mid: int, r: Region) { r.startUs <= mid < r.endUs }

  predicate InAny(mid: int, rs: seq<Region>) { exists i :: 0 <= i < |rs| && In(mid, rs[i]) }

  /** How many of the regions hold `mid`. */
  function Hits(mid: int, rs: seq<Region>): nat {
    if rs == [] then 0 else (if In(mid, rs[0]) then 1 else 0) + Hits(mid, rs[1..])
  }

  /** How many of the midpoints fall into one region. */
  function CountIn(mids: seq<int>, r: Region): nat {
    if mids == [] then 0 else (if In(mids[0], r) then 1 else 0) + CountIn(mids[1..], r)
  }

  function SumOverRegions(mids: seq<int>, rs: seq<Region>): nat {
    if rs == [] then 0 else CountIn(mids, rs[0]) + SumOverRegions(mids, rs[1..])
  }

  function KeptCount(mids: seq<int>, rs: seq<Region>): nat {
    if mids == [] then 0 else (if InAny(mids[0], rs) then 1 else 0) + KeptCount(mids[1..], rs)
  }

  lemma {:induction false} HitsInAny(mid: int, rs: seq<Region>)
    ensures InAny(mid, rs) <==> Hits(mid, rs) > 0
  {
    if rs != [] {
      HitsInAny(mid, rs[1..]);
      if InAny(mid, rs[1..]) {
        var i :| 0 <= i < |rs[1..]| && In(mid, rs[1..][i]);
        assert In(mid, rs[i + 1]);
      }
      if InAny(mid, rs) && !In(mid, rs[0]) {
        var i :| 0 <= i < |rs| && In(mid, rs[i]);
        assert In(mid, rs[1..][i - 1]);
      }
    }
  }

  lemma {:induction false} SumSplits(mids: seq<int>, rs: seq<Region>)
    requires mids != []
    ensures SumOverRegions(mids, rs) == Hits(mids[0], rs) + SumOverRegions(mids[1..], rs)
  {
    if rs != [] { SumSplits(mids, rs[1..]); }
  }

  lemma {:induction false} NoMids(rs: seq<Region>)
    ensures SumOverRegions([], rs) == 0
  {
    if rs != [] { NoMids(rs[1..]); }
  }

  /** No word is lost, and the regions count the kept words exactly when no word lies in two of them. */
  lemma {:induction false} KeptVersusRegions(mids: seq<int>, rs: seq<Region>)
    ensures KeptCount(mids, rs) <= SumOverRegions(mids, rs)
    ensures KeptCount(mids, rs) == SumOverRegions(mids, rs) <==> forall i :: 0 <= i < |mids| ==> Hits(mids[i], rs) <= 1
  {
    if mids == [] {
      NoMids(rs);
    } else {
      SumSplits(mids, rs);
      HitsInAny(mids[0], rs);
      KeptVersusRegions(mids[1..], rs);
      assert forall i :: 1 <= i < |mids| ==> mids[i] == mids[1..][i - 1];
    }
  }

  ghost predicate Disjoint(rs: seq<Region>) {
    forall i, j, m :: 0 <= i < j < |rs| ==> !(In(m, rs[i]) && In(m, rs[j]))
  }

  lemma {:induction false} DisjointHitsOnce(mid: int, rs: seq<Region>)
    requires Disjoint(rs)
    ensures Hits(mid, rs) <= 1
  {
    if rs != [] {
      assert Disjoint(rs[1..]) by {
        forall i, j, m | 0 <= i < j < |rs[1..]| ensures !(In(m, rs[1..][i]) && In(m, rs[1..][j])) {
          assert !(In(m, rs[i + 1]) && In(m, rs[j + 1]));
        }
      }
      DisjointHitsOnce(mid, rs[1..]);
      HitsInAny(mid, rs[1..]);
      if In(mid, rs[0]) {
        forall i | 0 <= i < |rs[1..]| ensures !In(mid, rs[1..][i]) { assert !(In(mid, rs[0]) && In(mid, rs[i + 1])); }
      }
    }
  }

  /** Against pairwise disjoint regions the kept words are the sum over the regions. */
  lemma DisjointRegionsCountWords(mids: seq<int>, rs: seq<Region>)
    requires Disjoint(rs)
    ensures KeptCount(mids, rs) == SumOverRegions(mids, rs)
  {
    forall i | 0 <= i < |mids| ensures Hits(mids[i], rs) <= 1 { DisjointHitsOnce(mids[i], rs); }
    KeptVersusRegions(mids, rs);
  }

  // ------------------------------------------------------------------ UEM parsing

  /** A UEM line, stripped and split; a blank line has no fields. */
  type Line = seq<string>

  predicate Skipped(line: Line) { line == [] || (|line[0]| >= 2 && line[0][..2] == ";;") }

  predicate Ours(line: Line, id: string) { !Skipped(line) && |line| >= 4 && line[0] == id }

  /** The region of a line; `us` is the decimal-to-microsecond conversion, None where it raises. */
  function RegionOf(line: Line, us: string -> Option<int>): Option<Region>
    requires |line| >= 4
  {
    if us(line[2]).Some? && us(line[3]).Some? then Some(Region(us(line[2]).value, us(line[3]).value)) else None
  }

  /** The regions of our lines in order, up to the first malformed time. */
  function Regions(lines: seq<Line>, id: string, us: string -> Option<int>): Option<seq<Region>> {
    if lines == [] then Some([])
    else
      var before := Regions(lines[..|lines| - 1], id, us);
      var line := lines[|lines| - 1];
      if before.None? then None
      else if !Ours(line, id) then before
      else var r := RegionOf(line, us); if r.None? then None else Some(before.value + [r.value])
  }

  lemma {:induction false} RegionsPrefix(lines: seq<Line>, n: nat, id: string, us: string -> Option<int>)
    requires n <= |lines| && Regions(lines, id, us).Some?
    ensures Regions(lines[..n], id, us).Some? && Regions(lines[..n], id, us).value <= Regions(lines, id, us).value
    decreases |lines|
  {
    if n == |lines| {
      assert lines[..n] == lines;
    } else {
      var p := lines[..|lines| - 1];
      RegionsPrefix(p, n, id, us);
      assert p[..n] == lines[..n];
    }
  }

  predicate LongEnough(lines: seq<Line>) { forall i :: 0 <= i < |lines| ==> Skipped(lines[i]) || |lines[i]| >= 4 }

  predicate Positive(rs: seq<Region>) { forall i :: 0 <= i < |rs| ==> rs[i].startUs < rs[i].endUs }

  /** `parse_uem` of the reference builder: strict about every line. */
  method ParseUem(lines: seq<Line>, id: string, us: string -> Option<int>) returns (r: Result<seq<Region>, string>)
    ensures r.Ok? <==>
      LongEnough(lines) && Regions(lines, id, us).Some? && Regions(lines, id, us).value != []
        && Positive(Regions(lines, id, us).value)
    ensures r.Ok? ==> r.value == Regions(lines, id, us).value
  {
    var out: seq<Region> := [];
    for n := 0 to |lines|
      invariant LongEnough(lines[..n]) && Regions(lines[..n], id, us) == Some(out) && Positive(out)
    {
      var line := lines[n];
      assert lines[..n + 1][..n] == lines[..n];
      if Regions(lines, id, us).Some? { RegionsPrefix(lines, n + 1, id, us); }
      if Skipped(line) { continue; }
      if |line| < 4 { return Err("expected 4 fields"); }
      if line[0] != id { continue; }
      var region := RegionOf(line, us);
      if region.None? { return Err("bad time"); }
      if region.value.endUs <= region.value.startUs {
        assert Regions(lines[..n + 1], id, us) == Some(out + [region.value]);
        assert (out + [region.value])[|out|] == region.value;
        if Regions(lines, id, us).Some? { assert Regions(lines, id, us).value[|out|] == region.value; }
        return Err("non-positive region");
      }
      out := out + [region.value];
    }
    assert lines[..|lines|] == lines;
    if out == [] { return Err("no region for the recording"); }
    return Ok(out);
  }

  /** `_uem_regions_us` of the driver: skips short lines and accepts any region. */
  method UemRegionsUs(lines: seq<Line>, id: string, us: string -> Option<int>) returns (r: Result<seq<Region>, string>)
    ensures r.Ok? <==> Regions(lines, id, us).Some? && Regions(lines, id, us).value != []
    ensures r.Ok? ==> r.value == Regions(lines, id, us).value
  {
    var out: seq<Region> := [];
    for n := 0 to |lines|
      invariant Regions(lines[..n], id, us) == Some(out)
    {
      var line := lines[n];
      assert lines[..n + 1][..n] == lines[..n];
      if Regions(lines, id, us).Some? { RegionsPrefix(lines, n + 1, id, us); }
      if Skipped(line) { continue; }
      if |line| < 4 || line[0] != id { continue; }
      var region := RegionOf(line, us);
      if region.None? { return Err("bad time"); }
      out := out + [region.value];
    }
    assert lines[..|lines|] == lines;
    if out == [] { return Err("UEM has no region"); }
    return Ok(out);
  }

  /** The two conversions agree on the times of every line of the recording. */
  ghost predicate SameTimes(lines: seq<Line>, id: string, us: string -> Option<int>, viaFloat: string -> Option<int>) {
    forall i :: 0 <= i < |lines| && Ours(lines[i], id) ==> RegionOf(lines[i], us) == RegionOf(lines[i], viaFloat)
  }

  /** Two conversions read the same regions exactly when they agree on every line of the recording. */
  lemma {:induction false} SameRegionsExactly(lines: seq<Line>, id: string, us: string -> Option<int>,
                                              viaFloat: string -> Option<int>)
    requires Regions(lines, id, us).Some?
    ensures Regions(lines, id, viaFloat) == Regions(lines, id, us) <==> SameTimes(lines, id, us, viaFloat)
  {
    if lines != [] {
      var last := |lines| - 1;
      var p := lines[..last];
      SameRegionsExactly(p, id, us, viaFloat);
      assert forall i :: 0 <= i < last ==> lines[i] == p[i];
      var a, b := Regions(p, id, us), Regions(p, id, viaFloat);
      if b.Some? && Regions(lines, id, viaFloat) == Regions(lines, id, us) && Ours(lines[last], id) {
        assert |a.value| == |b.value|;
        assert (a.value + [RegionOf(lines[last], us).value])[..|a.value|] == a.value;
        assert (b.value + [RegionOf(lines[last], viaFloat).value])[..|b.value|] == b.value;
      }
    }
  }

  /** Reference and hypothesis are cropped by the same regions. On a UEM the reference builder accepts, the
    * driver reads the same regions exactly when its conversion through `float` agrees with the direct one on
    * the times of the recording; with equal conversions the builder rejects a UEM the driver accepts exactly
    * when some line is short or some region of the recording is not positive. */
  method CropAgreement(lines: seq<Line>, id: string, us: string -> Option<int>, viaFloat: string -> Option<int>)
    returns (reference: Result<seq<Region>, string>, driver: Result<seq<Region>, string>)
    ensures reference.Ok? ==> (driver.Ok? && driver.value == reference.value <==> SameTimes(lines, id, us, viaFloat))
    ensures driver.Ok? && us == viaFloat ==> (reference.Err? <==> !LongEnough(lines) || !Positive(driver.value))
  {
    reference := ParseUem(lines, id, us);
    driver := UemRegionsUs(lines, id, viaFloat);
    if reference.Ok? { SameRegionsExactly(lines, id, us, viaFloat); }
  }
}
