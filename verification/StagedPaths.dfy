/** Staged audio paths (`_staged_source_path`) and filename-safe recording ids (`_SAFE_ID`). */
module StagedPaths {

  /** What one `run` invocation fixes about its staged paths. */
  datatype Naming = Naming(subdir: string, batch: string)

  predicate IsAlnum(c: char) { 'a' <= c <= 'z' || 'A' <= c <= 'Z' || '0' <= c <= '9' }

  predicate IsSafeChar(c: char) { IsAlnum(c) || c == '.' || c == '_' || c == '-' }

  /** A full match of `[A-Za-z0-9][A-Za-z0-9._-]*`. */
  predicate IsSafeToken(s: string) {
    |s| > 0 && IsAlnum(s[0]) && forall i :: 0 <= i < |s| ==> IsSafeChar(s[i])
  }

  /** `_SAFE_ID.match`: the pattern's `$` also matches just before one trailing newline. */
  predicate SafeId(s: string) {
    IsSafeToken(s) || (|s| > 0 && s[|s| - 1] == '\n' && IsSafeToken(s[..|s| - 1]))
  }

  function StripLeft(s: string): (t: string)
    ensures t != "" ==> t[0] != '/'
  {
    if |s| > 0 && s[0] == '/' then StripLeft(s[1..]) else s
  }

  function StripRight(s: string): (t: string)
    ensures t <= s
    ensures t != "" ==> t[|t| - 1] != '/'
  {
    if |s| > 0 && s[|s| - 1] == '/' then StripRight(s[..|s| - 1]) else s
  }

  /** `media_subdir.strip('/')`. */
  function Strip(subdir: string): string { StripRight(StripLeft(subdir)) }

  /** The directory all staged files of one naming share. */
  function Root(n: Naming): string { Strip(n.subdir) + "/" + n.batch }

  function StagedPath(n: Naming, rec: string): string { Root(n) + "/" + rec + ".wav" }

  lemma SafeIdHasNoSlash(s: string)
    requires SafeId(s)
    ensures '/' !in s
  {
    if !IsSafeToken(s) {
      assert s == s[..|s| - 1] + ['\n'];
      assert '/' !in s[..|s| - 1];
    }
  }

  /** A string splits at its last slash in one way only. */
  lemma LastSlashUnique(a: string, x: string, b: string, y: string)
    requires '/' !in x && '/' !in y
    requires a + "/" + x == b + "/" + y
    ensures a == b && x == y
  {
    var s := a + "/" + x;
    LastSlashAt(a, x);
    LastSlashAt(b, y);
    assert |a| == |b|;
    assert a == s[..|a|] && b == s[..|b|];
    assert x == s[|a| + 1..] && y == s[|b| + 1..];
  }

  lemma LastSlashAt(a: string, x: string)
    requires '/' !in x
    ensures (a + "/" + x)[|a|] == '/'
    ensures forall k :: |a| < k < |a + "/" + x| ==> (a + "/" + x)[k] != '/'
  {
    forall k | |a| < k < |a + "/" + x| ensures (a + "/" + x)[k] != '/' {
      assert (a + "/" + x)[k] == x[k - |a| - 1];
    }
  }

  lemma CancelSuffix(x: string, y: string, suffix: string)
    requires x + suffix == y + suffix
    ensures x == y
  {
    assert |x| == |y|;
    assert x == (x + suffix)[..|x|] && y == (y + suffix)[..|y|];
  }

  lemma CancelPrefix(prefix: string, x: string, y: string)
    requires prefix + x == prefix + y
    ensures x == y
  {
    assert x == (prefix + x)[|prefix|..] && y == (prefix + y)[|prefix|..];
  }

  /** Two staged paths are equal exactly when they name the same recording under the same root. */
  lemma StagedPathExactly(n1: Naming, r1: string, n2: Naming, r2: string)
    requires SafeId(r1) && SafeId(r2)
    ensures StagedPath(n1, r1) == StagedPath(n2, r2) <==> r1 == r2 && Root(n1) == Root(n2)
  {
    if StagedPath(n1, r1) == StagedPath(n2, r2) {
      var h1, h2 := Root(n1), Root(n2);
      assert (h1 + "/" + r1) + ".wav" == (h2 + "/" + r2) + ".wav";
      CancelSuffix(h1 + "/" + r1, h2 + "/" + r2, ".wav");
      SafeIdHasNoSlash(r1);
      SafeIdHasNoSlash(r2);
      LastSlashUnique(h1, r1, h2, r2);
    }
  }

  /** For one media subdirectory, a staged path names its batch and recording uniquely. */
  lemma StagedPathInjective(subdir: string, b1: string, r1: string, b2: string, r2: string)
    requires SafeId(r1) && SafeId(r2)
    ensures StagedPath(Naming(subdir, b1), r1) == StagedPath(Naming(subdir, b2), r2) <==> b1 == b2 && r1 == r2
  {
    StagedPathExactly(Naming(subdir, b1), r1, Naming(subdir, b2), r2);
    if Root(Naming(subdir, b1)) == Root(Naming(subdir, b2)) { CancelPrefix(Strip(subdir) + "/", b1, b2); }
  }

  /** What a caller can check: when neither batch id holds a slash, a staged path names the stripped
    * subdirectory, the batch and the recording uniquely. */
  lemma PlainBatchesInjective(n1: Naming, r1: string, n2: Naming, r2: string)
    requires SafeId(r1) && SafeId(r2) && '/' !in n1.batch && '/' !in n2.batch
    ensures StagedPath(n1, r1) == StagedPath(n2, r2)
      <==> Strip(n1.subdir) == Strip(n2.subdir) && n1.batch == n2.batch && r1 == r2
  {
    StagedPathExactly(n1, r1, n2, r2);
    if Root(n1) == Root(n2) { LastSlashUnique(Strip(n1.subdir), n1.batch, Strip(n2.subdir), n2.batch); }
  }

  /** Across subdirectories the same staged path can name two batches: the batch id is not checked for slashes. */
  lemma StagedPathCollidesAcrossSubdirs(subdir: string, batch: string, rec: string)
    requires Strip(subdir) == subdir && subdir != ""
    ensures Naming(subdir, "x/" + batch) != Naming(subdir + "/x", batch)
    ensures StagedPath(Naming(subdir, "x/" + batch), rec) == StagedPath(Naming(subdir + "/x", batch), rec)
  {
    assert subdir[0] != '/';
    var wide := subdir + "/x";
    assert StripLeft(wide) == wide && StripRight(wide) == wide;
    assert subdir + "/" + ("x/" + batch) == wide + "/" + batch;
  }
}
