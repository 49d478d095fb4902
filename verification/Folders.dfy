/** The folder-relation backfill: deepest-ancestor resolution on component boundaries, and when moving from the
  * pack mapping to folder membership keeps every item's domain pack. */
module Folders {
  import opened Common

  // ------------------------------------------------------------------ paths

  datatype Root = Relative | Slash | DoubleSlash

  /** A `PurePosixPath`: its root and its names; empty names and `.` are dropped. */
  datatype Path = Path(root: Root, names: seq<string>)

  predicate Named(name: string) { name != "" && name != "." }

  /** The names of `text` after the unfinished name `name`. */
  function Names(text: string, name: string): seq<string>
    decreases |text|
  {
    if text == "" then (if Named(name) then [name] else [])
    else if text[0] == '/' then (if Named(name) then [name] else []) + Names(text[1..], "")
    else Names(text[1..], name + [text[0]])
  }

  /** Two leading slashes are kept; one, or three and more, mean the root. */
  function RootOf(text: string): Root {
    if text == "" || text[0] != '/' then Relative
    else if |text| >= 2 && text[1] == '/' && (|text| == 2 || text[2] != '/') then DoubleSlash
    else Slash
  }

  function Parse(text: string): Path { Path(RootOf(text), Names(text, "")) }

  /** `len(path.parts)`. */
  function Depth(p: Path): nat { |p.names| + (if p.root == Relative then 0 else 1) }

  /** `src == folder or folder in src.parents`. */
  predicate Holds(folder: string, source: string) {
    Parse(folder).root == Parse(source).root && Parse(folder).names <= Parse(source).names
  }

  /** Two ancestors of one path at the same depth are the same path, and otherwise the deeper lies in the other. */
  lemma AncestorsAreAChain(a: string, b: string, source: string)
    requires Holds(a, source) && Holds(b, source)
    ensures Depth(Parse(a)) <= Depth(Parse(b)) <==> Holds(a, b)
    ensures Depth(Parse(a)) == Depth(Parse(b)) <==> Parse(a) == Parse(b)
  {
    var s := Parse(source).names;
    var m, n := |Parse(a).names|, |Parse(b).names|;
    assert Parse(a).names == s[..m] && Parse(b).names == s[..n];
    if m <= n { assert s[..n][..m] == s[..m]; }
  }

  lemma HoldsTransitive(a: string, b: string, c: string)
    requires Holds(a, b) && Holds(b, c)
    ensures Holds(a, c)
  {
  }

  // ------------------------------------------------------------------ component boundaries

  /** The plain spelling of a relative path: its names between single slashes. */
  function Spell(names: seq<string>): string {
    if names == [] then "" else if |names| == 1 then names[0] else names[0] + "/" + Spell(names[1..])
  }

  /** A relative path as the settings store it: no empty or `.` names, no slash at either end. */
  predicate Plain(text: string) { RootOf(text) == Relative && text == Spell(Names(text, "")) }

  lemma {:induction false} NamesSkip(name: string, rest: string, seen: string)
    requires '/' !in name
    ensures Names(name + rest, seen) == Names(rest, seen + name)
  {
    if name == "" {
      assert name + rest == rest && seen + name == seen;
    } else {
      assert (name + rest)[1..] == name[1..] + rest;
      NamesSkip(name[1..], rest, seen + [name[0]]);
      assert seen + [name[0]] + name[1..] == seen + name;
    }
  }

  lemma {:induction false} NamesHaveNoSlash(text: string, name: string)
    requires '/' !in name
    ensures forall n :: n in Names(text, name) ==> Named(n) && '/' !in n
  {
    if text != "" {
      if text[0] == '/' { NamesHaveNoSlash(text[1..], ""); } else { NamesHaveNoSlash(text[1..], name + [text[0]]); }
    }
  }

  /** One name, then a slash. */
  lemma NamesCut(name: string, rest: string)
    requires Named(name) && '/' !in name
    ensures Names(name + ("/" + rest), "") == [name] + Names(rest, "")
  {
    NamesSkip(name, "/" + rest, "");
    assert "" + name == name && ("/" + rest)[1..] == rest;
  }

  /** Reading a spelled path followed by anything reads its names and then the rest. */
  lemma {:induction false} NamesOfSpelled(names: seq<string>, rest: string)
    requires names != [] && forall n :: n in names ==> Named(n) && '/' !in n
    ensures Names(Spell(names) + ("/" + rest), "") == names + Names(rest, "")
  {
    if |names| == 1 {
      NamesCut(names[0], rest);
    } else {
      var more := Spell(names[1..]) + ("/" + rest);
      assert Spell(names) + ("/" + rest) == names[0] + ("/" + more);
      NamesCut(names[0], more);
      NamesOfSpelled(names[1..], rest);
      assert names == [names[0]] + names[1..];
    }
  }

  lemma {:induction false} SpellJoin(a: seq<string>, b: seq<string>)
    requires a != [] && b != []
    ensures Spell(a + b) == Spell(a) + "/" + Spell(b)
  {
    assert (a + b)[1..] == a[1..] + b;
    if |a| > 1 { SpellJoin(a[1..], b); }
  }

  /** `audio/pod` holds `audio/pod` and everything under `audio/pod/`, never `audio/podcasts`: for plain paths,
    * holding is being equal or starting with the folder and a slash. */
  lemma ComponentBoundary(folder: string, source: string)
    requires Plain(folder) && Plain(source) && folder != ""
    ensures Holds(folder, source) <==> source == folder || folder + "/" <= source
  {
    var a, s := Names(folder, ""), Names(source, "");
    NamesHaveNoSlash(folder, "");
    if Holds(folder, source) && s != a {
      assert s == a + s[|a|..];
      SpellJoin(a, s[|a|..]);
    }
    if folder + "/" <= source {
      var rest := source[|folder| + 1..];
      assert source == folder + ("/" + rest);
      NamesOfSpelled(a, rest);
      assert RootOf(source) == Relative;
    }
  }

  // ------------------------------------------------------------------ deepest ancestor

  /** The first of the deepest among the first folders that hold `source`. */
  function Deepest(source: string, folders: seq<string>): Option<string> {
    if folders == [] then None
    else
      var best := Deepest(source, folders[..|folders| - 1]);
      var last := folders[|folders| - 1];
      if Holds(last, source) && (best.None? || Depth(Parse(last)) > Depth(Parse(best.value))) then Some(last) else best
  }

  /** `_deepest_ancestor`. */
  method DeepestAncestor(source: string, folders: seq<string>) returns (best: Option<string>)
    ensures best == Deepest(source, folders)
  {
    best := None;
    var bestDepth: int := -1;
    for n := 0 to |folders|
      invariant best == Deepest(source, folders[..n])
      invariant bestDepth == if best.Some? then Depth(Parse(best.value)) else -1
    {
      assert folders[..n + 1][..n] == folders[..n];
      if Holds(folders[n], source) {
        var depth := Depth(Parse(folders[n]));
        if depth > bestDepth { best, bestDepth := Some(folders[n]), depth; }
      }
    }
    assert folders[..|folders|] == folders;
  }

  /** `best` is the first spelling of its path in the list. */
  ghost predicate FirstSpelling(folders: seq<string>, best: string) {
    exists i :: 0 <= i < |folders| && FirstAt(folders, best, i)
  }

  ghost predicate FirstAt(folders: seq<string>, best: string, i: nat)
    requires i < |folders|
  {
    folders[i] == best && forall j :: 0 <= j < i ==> Parse(folders[j]) != Parse(best)
  }

  ghost predicate IsDeepest(source: string, folders: seq<string>, best: string) {
    && best in folders && Holds(best, source)
    && (forall f :: f in folders && Holds(f, source) ==> Holds(f, best))
    && FirstSpelling(folders, best)
  }

  lemma DeeperLast(source: string, p: seq<string>, last: string)
    requires Holds(last, source) && forall f :: f in p && Holds(f, source) ==> Depth(Parse(f)) < Depth(Parse(last))
    ensures IsDeepest(source, p + [last], last)
  {
    forall f | f in p + [last] && Holds(f, source) ensures Holds(f, last) { AncestorsAreAChain(f, last, source); }
    assert FirstAt(p + [last], last, |p|);
  }

  lemma StillDeepest(source: string, p: seq<string>, last: string, best: string)
    requires IsDeepest(source, p, best) && (Holds(last, source) ==> Depth(Parse(last)) <= Depth(Parse(best)))
    ensures IsDeepest(source, p + [last], best)
  {
    if Holds(last, source) { AncestorsAreAChain(last, best, source); }
    var i: nat :| i < |p| && FirstAt(p, best, i);
    assert forall j :: 0 <= j <= i ==> (p + [last])[j] == p[j];
    assert FirstAt(p + [last], best, i);
  }

  /** A folder is found exactly when one holds the source; it is the longest such path, and among several
    * spellings of that path the one listed first. */
  lemma {:induction false} DeepestIsLongestPrefix(source: string, folders: seq<string>)
    ensures Deepest(source, folders).None? <==> forall f :: f in folders ==> !Holds(f, source)
    ensures Deepest(source, folders).Some? ==> IsDeepest(source, folders, Deepest(source, folders).value)
  {
    if folders != [] {
      var p, last := folders[..|folders| - 1], folders[|folders| - 1];
      DeepestIsLongestPrefix(source, p);
      assert folders == p + [last];
      assert forall f :: f in folders <==> f in p || f == last;
      var was, now := Deepest(source, p), Deepest(source, folders);
      if now == was {
        if was.Some? { StillDeepest(source, p, last, was.value); }
      } else {
        forall f | f in p && Holds(f, source) ensures Depth(Parse(f)) < Depth(Parse(last)) {
          AncestorsAreAChain(f, was.value, source);
        }
        DeeperLast(source, p, last);
      }
    }
  }

  /** Sources held by the same folders resolve to the same folder. */
  lemma {:induction false} DeepestDependsOnHolders(a: string, b: string, folders: seq<string>)
    requires forall f :: f in folders ==> (Holds(f, a) <==> Holds(f, b))
    ensures Deepest(a, folders) == Deepest(b, folders)
  {
    if folders != [] { DeepestDependsOnHolders(a, b, folders[..|folders| - 1]); }
  }

  // ------------------------------------------------------------------ old and new packs

  /** The legacy settings: registered folders, and the pack of each mapped folder (keys in stored order). */
  datatype Settings = Settings(folders: seq<string>, mapped: seq<string>, packs: map<string, string>)

  /** A dictionary's keys are its keys. */
  ghost predicate WellFormed(s: Settings) { forall f :: f in s.mapped <==> f in s.packs }

  function Get(packs: map<string, string>, folder: string): Option<string> {
    if folder in packs then Some(packs[folder]) else None
  }

  function PackOf(packs: map<string, string>, folder: Option<string>): Option<string> {
    if folder.None? then None else Get(packs, folder.value)
  }

  /** `_folder_pack_name`: the pack of the deepest mapped ancestor. */
  function OldPack(source: string, s: Settings): Option<string> { PackOf(s.packs, Deepest(source, s.mapped)) }

  /** The pack of the deepest registered ancestor. */
  function NewPack(source: string, s: Settings): Option<string> { PackOf(s.packs, Deepest(source, s.folders)) }

  predicate Agrees(source: string, s: Settings) { OldPack(source, s) == NewPack(source, s) }

  /** No registered folder lies in another. */
  ghost predicate Flat(s: Settings) {
    forall a, b :: a in s.folders && b in s.folders && Holds(a, b) ==> a == b
  }

  /** Flat registrations covering every mapped folder never change a pack. */
  lemma FlatNeverAborts(source: string, s: Settings)
    requires WellFormed(s) && Flat(s) && forall f :: f in s.mapped ==> f in s.folders
    ensures Agrees(source, s)
  {
    DeepestIsLongestPrefix(source, s.folders);
    DeepestIsLongestPrefix(source, s.mapped);
    var mapped, folder := Deepest(source, s.mapped), Deepest(source, s.folders);
    if mapped.Some? {
      assert mapped.value in s.folders && Holds(mapped.value, folder.value);
    } else if folder.Some? {
      assert folder.value !in s.mapped;
    }
  }

  /** Whether any media item at all could change its pack is decided by the registered and mapped folders
    * alone: no source disagrees exactly when none of those folders, taken as a source, does. */
  lemma PreflightExactly(s: Settings)
    ensures (forall source :: Agrees(source, s)) <==> forall f :: f in s.folders + s.mapped ==> Agrees(f, s)
  {
    if forall f :: f in s.folders + s.mapped ==> Agrees(f, s) {
      forall source ensures Agrees(source, s) { AgreesLikeItsFolder(source, s); }
    }
  }

  lemma AgreesLikeItsFolder(source: string, s: Settings)
    requires forall f :: f in s.folders + s.mapped ==> Agrees(f, s)
    ensures Agrees(source, s)
  {
    var all := s.folders + s.mapped;
    DeepestIsLongestPrefix(source, all);
    DeepestIsLongestPrefix(source, s.folders);
    DeepestIsLongestPrefix(source, s.mapped);
    if Deepest(source, all).Some? {
      var q := Deepest(source, all).value;
      forall f | f in all ensures Holds(f, source) <==> Holds(f, q) {
        if Holds(f, q) { HoldsTransitive(f, q, source); }
      }
      DeepestDependsOnHolders(source, q, s.folders);
      DeepestDependsOnHolders(source, q, s.mapped);
    }
  }

  // ------------------------------------------------------------------ the backfill

  /** `uuid5` of a folder path, an injective name. */
  datatype FolderId = FolderId(path: string)

  datatype Media = Media(source: string, current: Option<string>, folder: Option<FolderId>)

  datatype FolderRow = FolderRow(id: FolderId, pack: Option<string>)

  type Items = map<nat, Media>

  type FolderTable = map<string, FolderRow>

  function LocatedOne(m: Media): Media { if m.current.None? then m.(current := Some(m.source)) else m }

  function Located(items: Items): Items { map id | id in items :: LocatedOne(items[id]) }

  function AssignedOne(m: Media, s: Settings): Media {
    var folder := Deepest(m.source, s.folders);
    if Agrees(m.source, s) && folder.Some? then m.(folder := Some(FolderId(folder.value))) else m
  }

  function Assigned(items: Items, s: Settings): Items { map id | id in items :: AssignedOne(items[id], s) }

  function RowOf(path: string, s: Settings): FolderRow { FolderRow(FolderId(path), Get(s.packs, path)) }

  function Registered(t: FolderTable, s: Settings): FolderTable {
    map path | path in t.Keys + (set f | f in s.folders) :: if path in t then t[path] else RowOf(path, s)
  }

  predicate AllAgree(items: Items, s: Settings) { forall id :: id in items ==> Agrees(items[id].source, s) }

  class Database {
    var items: Items
    var folders: FolderTable

    /** `INSERT ... ON CONFLICT (path) DO NOTHING` for every registered folder. */
    method Register(s: Settings)
      modifies this`folders
      ensures folders == Registered(old(folders), s)
    {
      for n := 0 to |s.folders|
        invariant folders == Registered(old(folders), s.(folders := s.folders[..n]))
      {
        var path := s.folders[n];
        if path !in folders { folders := folders[path := RowOf(path, s)]; }
        assert s.folders[..n + 1] == s.folders[..n] + [path];
      }
      assert s.(folders := s.folders[..|s.folders|]) == s;
    }

    /** The assignment loop, over the rows in any order. */
    method Assign(s: Settings) returns (mismatches: seq<string>)
      modifies this`items
      ensures items == Assigned(old(items), s)
      ensures mismatches == [] <==> AllAgree(old(items), s)
    {
      mismatches := [];
      var todo := items.Keys;
      while todo != {}
        invariant todo <= old(items).Keys == items.Keys
        invariant forall id :: id in todo ==> items[id] == old(items)[id]
        invariant forall id :: id in items && id !in todo ==> items[id] == AssignedOne(old(items)[id], s)
        invariant mismatches == [] <==> forall id :: id in old(items) && id !in todo ==>
          Agrees(old(items)[id].source, s)
        decreases |todo|
      {
        var id :| id in todo;
        todo := todo - {id};
        var media := items[id];
        var folder := DeepestAncestor(media.source, s.folders);
        var mapped := DeepestAncestor(media.source, s.mapped);
        var oldPack := PackOf(s.packs, mapped);
        var newPack := PackOf(s.packs, folder);
        if oldPack != newPack {
          mismatches := mismatches + [media.source];
        } else if folder.Some? {
          items := items[id := media.(folder := Some(FolderId(folder.value)))];
        }
      }
    }

    /** `_backfill`. With a registered folder it succeeds exactly when every item keeps its pack; with none it
      * stops after the location column. */
    method Backfill(s: Settings) returns (r: Result<(), seq<string>>)
      modifies this
      ensures s.folders == [] ==> r.Ok? && folders == old(folders) && items == Located(old(items))
      ensures s.folders != [] ==>
        && (r.Ok? <==> AllAgree(old(items), s))
        && folders == Registered(old(folders), s)
        && items == Assigned(Located(old(items)), s)
    {
      items := map id | id in items ::
        if items[id].current.None? then items[id].(current := Some(items[id].source)) else items[id];
      assert items == Located(old(items));
      if s.folders == [] { return Ok(()); }
      Register(s);
      var mismatches := Assign(s);
      assert AllAgree(Located(old(items)), s) <==> AllAgree(old(items), s) by {
        assert forall id :: id in old(items) ==> Located(old(items))[id].source == old(items)[id].source;
      }
      r := if mismatches != [] then Err(mismatches) else Ok(());
    }
  }

  // ------------------------------------------------------------------ after the backfill

  /** The pack an item has through its folder row. */
  ghost predicate HasPack(m: Media, t: FolderTable, pack: Option<string>) {
    if m.folder.None? then pack == None
    else exists path :: path in t && t[path].id == m.folder.value && t[path].pack == pack
  }

  /** Folder rows left by this migration, if any. */
  predicate OwnRows(t: FolderTable, s: Settings) { forall path :: path in t ==> t[path] == RowOf(path, s) }

  /** After a successful backfill every item has, through the new relation, exactly the pack the old
    * resolution gives it. */
  lemma PacksPreserved(items: Items, t: FolderTable, s: Settings, id: nat, pack: Option<string>)
    requires s.folders != [] && AllAgree(items, s) && OwnRows(t, s)
    requires id in items && items[id].folder.None?
    ensures HasPack(Assigned(Located(items), s)[id], Registered(t, s), pack) <==> pack == OldPack(items[id].source, s)
  {
    var source := items[id].source;
    assert Agrees(source, s);
    DeepestIsLongestPrefix(source, s.folders);
    var folder := Deepest(source, s.folders);
    if folder.Some? {
      var path := folder.value;
      assert path in Registered(t, s) && Registered(t, s)[path] == RowOf(path, s);
    }
  }

  /** Running the backfill again changes nothing and meets the same verdict. */
  lemma BackfillTwice(items: Items, t: FolderTable, s: Settings)
    ensures Assigned(Located(Assigned(Located(items), s)), s) == Assigned(Located(items), s)
    ensures Registered(Registered(t, s), s) == Registered(t, s)
    ensures AllAgree(Assigned(Located(items), s), s) <==> AllAgree(items, s)
  {
    var after := Assigned(Located(items), s);
    assert forall id :: id in items ==> after[id].source == items[id].source && after[id].current.Some?;
    assert Located(after) == after;
  }

  /** A nested registration the backfill refuses: only the parent is mapped, and an item lies in the child. */
  lemma NestedAborts()
    ensures !Agrees("a/b/c", Settings(["a", "a/b"], ["a"], map["a" := "p"]))
  {
    var s := Settings(["a", "a/b"], ["a"], map["a" := "p"]);
    assert Names("", "a") == ["a"];
  }
}
