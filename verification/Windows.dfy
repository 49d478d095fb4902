/** Cutting reference transcripts to an audio window, and when two cuts compose. */
module Windows {
  import opened Common

  datatype Stm = Stm(startUs: int, endUs: int, text: string, ignore: bool)

  datatype Word = Word(startUs: int, endUs: int, text: string)

  /** A half-open window of `length` microseconds from `offset`. */
  datatype Window = Window(offset: int, length: int) {
    function End(): int { offset + length }

    /** The window `w`, given relative to this one, in this one's own time. */
    function At(w: Window): Window { Window(offset + w.offset, w.length) }

    predicate Contains(w: Window) { 0 <= w.offset && w.offset + w.length <= length }
  }

  // ------------------------------------------------------------------ STM segments

  function Lo(s: Stm, w: Window): int { if s.startUs > w.offset then s.startUs else w.offset }

  function Hi(s: Stm, w: Window): int { if s.endUs < w.End() then s.endUs else w.End() }

  predicate Crosses(s: Stm, w: Window) { s.startUs < w.offset || s.endUs > w.End() }

  /** One segment cut to a window, rebased; None when they do not overlap. */
  function ClipOne(s: Stm, w: Window): Option<Stm> {
    if Lo(s, w) >= Hi(s, w) then None
    else
      var ignore := s.ignore || Crosses(s, w);
      Some(Stm(Lo(s, w) - w.offset, Hi(s, w) - w.offset, if ignore then "" else s.text, ignore))
  }

  function OneOrNone(s: Option<Stm>): seq<Stm> { if s.Some? then [s.value] else [] }

  function Clip(segs: seq<Stm>, w: Window): seq<Stm> {
    if segs == [] then [] else OneOrNone(ClipOne(segs[0], w)) + Clip(segs[1..], w)
  }

  lemma {:induction false} ClipAppend(segs: seq<Stm>, s: Stm, w: Window)
    ensures Clip(segs + [s], w) == Clip(segs, w) + OneOrNone(ClipOne(s, w))
  {
    if segs != [] {
      assert (segs + [s])[1..] == segs[1..] + [s];
      ClipAppend(segs[1..], s, w);
    }
  }

  lemma ClipStep(segs: seq<Stm>, n: nat, w: Window)
    requires n < |segs|
    ensures Clip(segs[..n + 1], w) == Clip(segs[..n], w) + OneOrNone(ClipOne(segs[n], w))
  {
    assert segs[..n + 1] == segs[..n] + [segs[n]];
    ClipAppend(segs[..n], segs[n], w);
  }

  /** `clip_stm_to_window`. */
  method ClipStmToWindow(segs: seq<Stm>, w: Window) returns (out: seq<Stm>)
    ensures out == Clip(segs, w)
  {
    out := [];
    for n := 0 to |segs|
      invariant out == Clip(segs[..n], w)
    {
      ClipStep(segs, n, w);
      var s := segs[n];
      var lo := if s.startUs > w.offset then s.startUs else w.offset;
      var hi := if s.endUs < w.offset + w.length then s.endUs else w.offset + w.length;
      if lo >= hi { continue; }
      var crosses := s.startUs < w.offset || s.endUs > w.offset + w.length;
      var ignore := s.ignore || crosses;
      out := out + [Stm(lo - w.offset, hi - w.offset, if ignore then "" else s.text, ignore)];
    }
    assert segs[..|segs|] == segs;
  }

  /** Instant `t` lies in segment `s`. */
  predicate At(s: Stm, t: int) { s.startUs <= t < s.endUs }

  ghost predicate Covered(segs: seq<Stm>, t: int) { exists s :: s in segs && At(s, t) }

  /** `c` is a segment of `segs` that lies wholly in the window, moved to window time with its text. */
  predicate Whole(segs: seq<Stm>, w: Window, c: Stm) {
    0 <= c.startUs && c.endUs <= w.length && Stm(c.startUs + w.offset, c.endUs + w.offset, c.text, false) in segs
  }

  lemma {:induction false} ClipOrigin(segs: seq<Stm>, w: Window, c: Stm) returns (s: Stm)
    requires c in Clip(segs, w)
    ensures s in segs && ClipOne(s, w) == Some(c)
  {
    if c in OneOrNone(ClipOne(segs[0], w)) { s := segs[0]; } else { s := ClipOrigin(segs[1..], w, c); }
  }

  lemma {:induction false} ClipImage(segs: seq<Stm>, w: Window, s: Stm)
    requires s in segs && ClipOne(s, w).Some?
    ensures ClipOne(s, w).value in Clip(segs, w)
  {
    if s != segs[0] { ClipImage(segs[1..], w, s); }
  }

  /** Partial audio never carries text: a cut segment that is not masked is a whole, unmasked segment of the
    * input, and every whole, unmasked, non-empty segment is kept; masked ones carry no text. */
  lemma ClipKeepsWholeText(segs: seq<Stm>, w: Window, c: Stm)
    requires c.startUs < c.endUs && !c.ignore
    ensures c in Clip(segs, w) <==> Whole(segs, w, c)
  {
    if c in Clip(segs, w) { var s := ClipOrigin(segs, w, c); }
    if Whole(segs, w, c) { ClipImage(segs, w, Stm(c.startUs + w.offset, c.endUs + w.offset, c.text, false)); }
  }

  /** A mask in the cut is never text, and comes from a mask or from a segment that crosses an edge. */
  lemma ClipMasks(segs: seq<Stm>, w: Window, c: Stm) returns (s: Stm)
    requires c in Clip(segs, w)
    ensures s in segs && c.startUs == Lo(s, w) - w.offset < c.endUs == Hi(s, w) - w.offset
    ensures c.ignore <==> s.ignore || Crosses(s, w)
    ensures c.ignore ==> c.text == ""
  {
    s := ClipOrigin(segs, w, c);
  }

  /** No instant is lost and none invented: in window time, covered means inside the window and covered before. */
  lemma ClipCoverage(segs: seq<Stm>, w: Window, t: int)
    ensures Covered(Clip(segs, w), t) <==> 0 <= t < w.length && Covered(segs, w.offset + t)
  {
    if Covered(Clip(segs, w), t) {
      var c :| c in Clip(segs, w) && At(c, t);
      var s := ClipOrigin(segs, w, c);
      assert At(s, w.offset + t);
    }
    if 0 <= t < w.length && Covered(segs, w.offset + t) {
      var s :| s in segs && At(s, w.offset + t);
      ClipImage(segs, w, s);
      assert At(ClipOne(s, w).value, t);
    }
  }

  lemma ClipOneComposes(s: Stm, outer: Window, inner: Window)
    requires inner.length <= 0 || outer.Contains(inner)
    ensures (if ClipOne(s, outer).None? then None else ClipOne(ClipOne(s, outer).value, inner))
      == ClipOne(s, outer.At(inner))
  {
  }

  lemma {:induction false} ClipTwice(segs: seq<Stm>, outer: Window, inner: Window)
    requires inner.length <= 0 || outer.Contains(inner)
    ensures Clip(Clip(segs, outer), inner) == Clip(segs, outer.At(inner))
  {
    if segs != [] {
      ClipOneComposes(segs[0], outer, inner);
      ClipTwice(segs[1..], outer, inner);
      var head := OneOrNone(ClipOne(segs[0], outer));
      assert head != [] ==> (head + Clip(segs[1..], outer))[1..] == Clip(segs[1..], outer);
      assert head == [] ==> head + Clip(segs[1..], outer) == Clip(segs[1..], outer);
    }
  }

  /** A one-microsecond segment that the inner window holds and the outer one does not. */
  lemma ClipTwiceFails(outer: Window, inner: Window) returns (segs: seq<Stm>)
    requires inner.length > 0 && !outer.Contains(inner)
    ensures Clip(Clip(segs, outer), inner) != Clip(segs, outer.At(inner))
  {
    var t := outer.offset + (if inner.offset < 0 then inner.offset else inner.offset + inner.length - 1);
    var s := Stm(t, t + 1, "", true);
    segs := [s];
    assert ClipOne(s, outer).None? && ClipOne(s, outer.At(inner)).Some?;
    assert Clip(segs, outer) == [] && |Clip(segs, outer.At(inner))| == 1;
  }

  /** Cutting to a window and then to a window of that cut is cutting once, for every transcript, exactly
    * when the inner window lies inside the outer one (or is empty). */
  lemma ClipComposes(outer: Window, inner: Window)
    ensures (forall segs :: Clip(Clip(segs, outer), inner) == Clip(segs, outer.At(inner)))
       <==> inner.length <= 0 || outer.Contains(inner)
  {
    if inner.length <= 0 || outer.Contains(inner) {
      forall segs ensures Clip(Clip(segs, outer), inner) == Clip(segs, outer.At(inner)) {
        ClipTwice(segs, outer, inner);
      }
    } else {
      var segs := ClipTwiceFails(outer, inner);
    }
  }

  // ------------------------------------------------------------------ words

  predicate Inside(x: Word, w: Window) { x.startUs >= w.offset && x.endUs <= w.End() }

  /** `words_in_window`. */
  function WordsInWindow(words: seq<Word>, w: Window): seq<Word> {
    if words == [] then []
    else
      var x := words[0];
      (if Inside(x, w) then [Word(x.startUs - w.offset, x.endUs - w.offset, x.text)] else [])
      + WordsInWindow(words[1..], w)
  }

  lemma {:induction false} WordsTwice(words: seq<Word>, outer: Window, inner: Window)
    requires outer.Contains(inner)
    ensures WordsInWindow(WordsInWindow(words, outer), inner) == WordsInWindow(words, outer.At(inner))
  {
    if words != [] {
      var x, rest := words[0], WordsInWindow(words[1..], outer);
      WordsTwice(words[1..], outer, inner);
      if Inside(x, outer) {
        assert ([Word(x.startUs - outer.offset, x.endUs - outer.offset, x.text)] + rest)[1..] == rest;
      } else {
        assert [] + rest == rest;
      }
    }
  }

  /** The same law for fully contained words. The parser keeps words whose end precedes their start, and for
    * those even an empty inner window must lie inside the outer one. */
  lemma WordsCompose(outer: Window, inner: Window)
    ensures (forall words :: WordsInWindow(WordsInWindow(words, outer), inner) == WordsInWindow(words, outer.At(inner)))
       <==> outer.Contains(inner)
  {
    if outer.Contains(inner) {
      forall words ensures WordsInWindow(WordsInWindow(words, outer), inner) == WordsInWindow(words, outer.At(inner)) {
        WordsTwice(words, outer, inner);
      }
    } else {
      var o := outer.offset;
      var x := Word(o + inner.offset, o + inner.offset + inner.length, "");
      assert Inside(x, outer.At(inner)) && !Inside(x, outer);
      assert WordsInWindow([x], outer) == [] && |WordsInWindow([x], outer.At(inner))| == 1;
      assert WordsInWindow(WordsInWindow([x], outer), inner) != WordsInWindow([x], outer.At(inner));
    }
  }

  /** Words never straddle an edge: exactly the contained words survive, in order, with their own spans. */
  lemma {:induction false} WordsAreContained(words: seq<Word>, w: Window, c: Word)
    ensures c in WordsInWindow(words, w) <==>
      Word(c.startUs + w.offset, c.endUs + w.offset, c.text) in words && 0 <= c.startUs && c.endUs <= w.length
  {
    if words != [] {
      WordsAreContained(words[1..], w, c);
      var x := Word(c.startUs + w.offset, c.endUs + w.offset, c.text);
      assert x in words <==> x == words[0] || x in words[1..];
    }
  }
}
