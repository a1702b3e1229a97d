/** The directory printer (coursera/hw1/main.go) with the file system
    replaced by a tree whose children come in the order the directory read
    lists them. */
module DirTree {
  import opened Decimal

  /** What os.FileInfo tells the printer about an entry. */
  datatype FileStat = FileStat(name: string, isDir: bool, size: int)

  /** An entry and, for a directory, its entries in listing order. */
  datatype Tree = Node(stat: FileStat, children: seq<Tree>)

  /** An entry to print, with the drawing that goes in front of it. */
  datatype FileInfo = FileInfo(prefix: string, file: FileStat)

  const Corner: string := "└"
  const Tee: string := "├"
  const Bar: string := "│"
  const Dashes: string := "───"

  // ---------------------------------------------------------------------
  // Formatting one entry

  /** getPrefix: the last sibling gets a corner, every other one a tee. */
  function GetPrefix(currentIndex: int, length: int): (symbol: string)
    ensures symbol == Corner <==> currentIndex == length - 1
    ensures symbol == Corner || symbol == Tee
  {
    if currentIndex == length - 1 then Corner else Tee
  }

  /** formatFileSize: "(empty)" for zero bytes, "(<n>b)" otherwise. */
  function FormatFileSize(size: int): (r: string)
    ensures r == "(empty)" <==> size == 0
    ensures size != 0 ==> r == "(" + Itoa(size) + "b)"
  {
    if size == 0 then "(empty)"
    else
      var r := "(" + Itoa(size) + "b)";
      assert r[|r| - 2] == 'b' && "(empty)"[5] == 'y';
      r
  }

  /** Reads a size back from its label. */
  function LabelSize(text: string): int {
    if text == "(empty)" || |text| < 3 then 0 else Atoi(text[1..|text| - 2])
  }

  /** The size label says which size it was made from. */
  lemma FormatFileSizeRoundTrip(size: int)
    ensures LabelSize(FormatFileSize(size)) == size
  {
    if size != 0 {
      var text := FormatFileSize(size);
      assert text[1..|text| - 2] == Itoa(size);
      ItoaRoundTrip(size);
    }
  }

  /** formatFileName: a directory shows its name, a file its name and its
      size label after a space. */
  function FormatFileName(f: FileStat): (r: string)
    ensures |r| >= |f.name| && r[..|f.name|] == f.name
    ensures f.isDir <==> r == f.name
    ensures !f.isDir ==> r[|f.name|..] == " " + FormatFileSize(f.size)
  {
    if f.isDir then f.name else f.name + " " + FormatFileSize(f.size)
  }

  // ---------------------------------------------------------------------
  // Dropping files

  /** The directories among the entries, in their order. */
  function Directories(values: seq<Tree>): (r: seq<Tree>)
    ensures forall i | 0 <= i < |r| :: r[i] in values && r[i].stat.isDir
    ensures forall x | x in values && x.stat.isDir :: x in r
  {
    if values == [] then []
    else if values[0].stat.isDir then [values[0]] + Directories(values[1..])
    else Directories(values[1..])
  }

  /** Filtering keeps the relative order: the directories of a + b are
      those of a followed by those of b. */
  lemma {:induction false} DirectoriesAppend(a: seq<Tree>, b: seq<Tree>)
    ensures Directories(a + b) == Directories(a) + Directories(b)
  {
    if a == [] {
      assert a + b == b;
    } else {
      assert (a + b)[0] == a[0] && (a + b)[1..] == a[1..] + b;
      DirectoriesAppend(a[1..], b);
      if a[0].stat.isDir {
        assert Directories(a + b) == [a[0]] + Directories(a[1..] + b);
      } else {
        assert Directories(a + b) == Directories(a[1..] + b);
      }
    }
  }

  /** A list of directories only is kept whole. */
  lemma {:induction false} DirectoriesKeepsDirectories(values: seq<Tree>)
    requires forall i | 0 <= i < |values| :: values[i].stat.isDir
    ensures Directories(values) == values
  {
    if values != [] {
      DirectoriesKeepsDirectories(values[1..]);
    }
  }

  /** filterDirectories: the loop that appends each directory to `ret`. */
  method FilterDirectories(values: seq<Tree>) returns (ret: seq<Tree>)
    ensures ret == Directories(values)
  {
    ret := [];
    for i := 0 to |values|
      invariant ret == Directories(values[..i])
    {
      DirectoriesAppend(values[..i], [values[i]]);
      assert values[..i + 1] == values[..i] + [values[i]];
      if values[i].stat.isDir {
        ret := ret + [values[i]];
      }
    }
    assert values[..|values|] == values;
  }

  // ---------------------------------------------------------------------
  // Flattening the tree

  /** The entries of a directory that are listed. */
  function Visible(dir: Tree, printFiles: bool): (r: seq<Tree>)
    ensures forall i | 0 <= i < |r| :: r[i] in dir.children
  {
    if printFiles then dir.children else Directories(dir.children)
  }

  /** The indent for the entries of the directory at position idx of n
      siblings: a bar continues the line down unless it is the last one. */
  function ChildPrefix(prefix: string, idx: int, n: int): string {
    prefix + (if idx != n - 1 then Bar else "") + "\t"
  }

  /** getFileInfoList: the listed entries of dir, each followed by the
      entries below it. */
  function Listing(dir: Tree, printFiles: bool, prefix: string): seq<FileInfo>
    decreases dir, 1
  {
    Level(dir, 0, printFiles, prefix)
  }

  /** The entries from position idx on of the listed entries of dir. */
  function Level(dir: Tree, idx: nat, printFiles: bool, prefix: string): seq<FileInfo>
    requires idx <= |Visible(dir, printFiles)|
    decreases dir, 0, |Visible(dir, printFiles)| - idx
  {
    var files := Visible(dir, printFiles);
    if idx == |files| then []
    else
      var file := files[idx];
      [FileInfo(prefix + GetPrefix(idx, |files|), file.stat)]
      + (if file.stat.isDir then Listing(file, printFiles, ChildPrefix(prefix, idx, |files|)) else [])
      + Level(dir, idx + 1, printFiles, prefix)
  }

  /** The entry at position idx, with its drawing. */
  function EntryAt(dir: Tree, idx: nat, printFiles: bool, prefix: string): FileInfo
    requires idx < |Visible(dir, printFiles)|
  {
    var files := Visible(dir, printFiles);
    FileInfo(prefix + GetPrefix(idx, |files|), files[idx].stat)
  }

  /** The entries below the entry at position idx: none for a file. */
  function BelowAt(dir: Tree, idx: nat, printFiles: bool, prefix: string): seq<FileInfo>
    requires idx < |Visible(dir, printFiles)|
  {
    var files := Visible(dir, printFiles);
    if files[idx].stat.isDir then Listing(files[idx], printFiles, ChildPrefix(prefix, idx, |files|)) else []
  }

  lemma LevelStep(dir: Tree, idx: nat, printFiles: bool, prefix: string)
    requires idx < |Visible(dir, printFiles)|
    ensures Level(dir, idx, printFiles, prefix)
         == [EntryAt(dir, idx, printFiles, prefix)] + BelowAt(dir, idx, printFiles, prefix)
            + Level(dir, idx + 1, printFiles, prefix)
  {
  }

  /** One turn of the loop of getFileInfoList: appending the entry at idx
      and what lies below it moves the rest of the level on by one. */
  lemma LevelAdvance(dir: Tree, idx: nat, printFiles: bool, prefix: string,
                     s: seq<FileInfo>, entry: FileInfo, nested: seq<FileInfo>)
    requires idx < |Visible(dir, printFiles)|
    requires entry == FileInfo(prefix + GetPrefix(idx, |Visible(dir, printFiles)|), Visible(dir, printFiles)[idx].stat)
    requires nested == if Visible(dir, printFiles)[idx].stat.isDir
                       then Listing(Visible(dir, printFiles)[idx], printFiles, ChildPrefix(prefix, idx, |Visible(dir, printFiles)|))
                       else []
    ensures (s + [entry] + nested) + Level(dir, idx + 1, printFiles, prefix) == s + Level(dir, idx, printFiles, prefix)
  {
    LevelStep(dir, idx, printFiles, prefix);
    var rest := Level(dir, idx + 1, printFiles, prefix);
    assert s + ([entry] + nested + rest) == (s + [entry] + nested) + rest;
  }

  /** The method getFileInfoList: a loop over the listed entries that
      appends each one and, for a directory, what the recursive call
      returns. */
  method GetFileInfoList(dir: Tree, printFiles: bool, prefix: string) returns (s: seq<FileInfo>)
    ensures s == Listing(dir, printFiles, prefix)
    decreases dir
  {
    var files := dir.children;
    if !printFiles {
      files := FilterDirectories(files);
    }
    assert files == Visible(dir, printFiles);
    s := [];
    for idx := 0 to |files|
      invariant s + Level(dir, idx, printFiles, prefix) == Listing(dir, printFiles, prefix)
    {
      var file := files[idx];
      var entry := FileInfo(prefix + GetPrefix(idx, |files|), file.stat);
      var nested: seq<FileInfo> := [];
      if file.stat.isDir {
        var directorySymbol := "";
        if idx != |files| - 1 {
          directorySymbol := directorySymbol + Bar;
        }
        assert directorySymbol == if idx != |files| - 1 then Bar else "";
        nested := GetFileInfoList(file, printFiles, prefix + directorySymbol + "\t");
      }
      LevelAdvance(dir, idx, printFiles, prefix, s, entry, nested);
      s := s + [entry] + nested;
    }
    assert Level(dir, |files|, printFiles, prefix) == [];
  }

  // ---------------------------------------------------------------------
  // What the flattening promises

  /** Without -f no file appears in the listing, at any depth. */
  lemma {:induction false} NoFilesWithoutFlag(dir: Tree, prefix: string)
    ensures forall e | e in Listing(dir, false, prefix) :: e.file.isDir
    decreases dir, 1
  {
    NoFilesInLevel(dir, 0, prefix);
  }

  lemma {:induction false} NoFilesInLevel(dir: Tree, idx: nat, prefix: string)
    requires idx <= |Visible(dir, false)|
    ensures forall e | e in Level(dir, idx, false, prefix) :: e.file.isDir
    decreases dir, 0, |Visible(dir, false)| - idx
  {
    var files := Visible(dir, false);
    if idx < |files| {
      var file := files[idx];
      if file.stat.isDir {
        NoFilesWithoutFlag(file, ChildPrefix(prefix, idx, |files|));
      }
      NoFilesInLevel(dir, idx + 1, prefix);
    }
  }

  /** The entries of a tree in pre-order, without drawing: each listed
      entry, then (for a directory) the entries below it. */
  function PreOrder(trees: seq<Tree>, printFiles: bool): seq<FileStat>
    decreases trees
  {
    if trees == [] then []
    else
      var t := trees[0];
      (if printFiles || t.stat.isDir then [t.stat] else [])
      + (if t.stat.isDir then PreOrder(t.children, printFiles) else [])
      + PreOrder(trees[1..], printFiles)
  }

  /** The entries a listing names. */
  function Stats(entries: seq<FileInfo>): seq<FileStat> {
    seq(|entries|, i requires 0 <= i < |entries| => entries[i].file)
  }

  /** PreOrder of a list of entries with the files left out, when files
      are not listed. */
  lemma {:induction false} PreOrderSkipsFiles(trees: seq<Tree>)
    ensures PreOrder(trees, false) == PreOrder(Directories(trees), false)
    decreases trees
  {
    if trees != [] {
      PreOrderSkipsFiles(trees[1..]);
      if trees[0].stat.isDir {
        var ds := Directories(trees);
        assert ds[0] == trees[0] && ds[1..] == Directories(trees[1..]);
      }
    }
  }

  /** The listing names exactly the listed entries in pre-order: each
      entry is followed by the entries below it, before its next sibling. */
  lemma {:induction false} ListingIsPreOrder(dir: Tree, printFiles: bool, prefix: string)
    ensures Stats(Listing(dir, printFiles, prefix)) == PreOrder(dir.children, printFiles)
    decreases dir, 1
  {
    LevelIsPreOrder(dir, 0, printFiles, prefix);
    if !printFiles {
      PreOrderSkipsFiles(dir.children);
    }
    assert Visible(dir, printFiles)[0..] == Visible(dir, printFiles);
  }

  lemma PreOrderStep(files: seq<Tree>, idx: nat, printFiles: bool)
    requires idx < |files|
    requires printFiles || files[idx].stat.isDir
    ensures PreOrder(files[idx..], printFiles)
         == [files[idx].stat]
            + (if files[idx].stat.isDir then PreOrder(files[idx].children, printFiles) else [])
            + PreOrder(files[idx + 1..], printFiles)
  {
    assert files[idx..][0] == files[idx] && files[idx..][1..] == files[idx + 1..];
  }

  /** Stats of one entry, the entries below it and the rest of the level,
      given what each part names. */
  lemma StatsStep(head: FileInfo, below: seq<FileInfo>, rest: seq<FileInfo>, sub: seq<FileStat>, tail: seq<FileStat>)
    requires Stats(below) == sub && Stats(rest) == tail
    ensures Stats([head] + below + rest) == [head.file] + sub + tail
  {
    var all := [head] + below + rest;
    assert forall i | 0 <= i < |all| :: Stats(all)[i] == ([head.file] + sub + tail)[i] by {
      forall i | 0 <= i < |all| ensures Stats(all)[i] == ([head.file] + sub + tail)[i] {
        if i == 0 {
        } else if i < 1 + |below| {
          assert all[i] == below[i - 1];
          assert Stats(below)[i - 1] == below[i - 1].file;
        } else {
          assert all[i] == rest[i - 1 - |below|];
          assert Stats(rest)[i - 1 - |below|] == rest[i - 1 - |below|].file;
        }
      }
    }
  }

  lemma {:induction false} LevelIsPreOrder(dir: Tree, idx: nat, printFiles: bool, prefix: string)
    requires idx <= |Visible(dir, printFiles)|
    ensures Stats(Level(dir, idx, printFiles, prefix)) == PreOrder(Visible(dir, printFiles)[idx..], printFiles)
    decreases dir, 0, |Visible(dir, printFiles)| - idx, 1
  {
    if idx < |Visible(dir, printFiles)| {
      LevelIsPreOrder(dir, idx + 1, printFiles, prefix);
      LevelIsPreOrderStep(dir, idx, printFiles, prefix);
    }
  }

  /** The entry at idx and the entries below it come first in both the
      level and the pre-order; the rest of the level is given. */
  lemma {:induction false} LevelIsPreOrderStep(dir: Tree, idx: nat, printFiles: bool, prefix: string)
    requires idx < |Visible(dir, printFiles)|
    requires Stats(Level(dir, idx + 1, printFiles, prefix)) == PreOrder(Visible(dir, printFiles)[idx + 1..], printFiles)
    ensures Stats(Level(dir, idx, printFiles, prefix)) == PreOrder(Visible(dir, printFiles)[idx..], printFiles)
    decreases dir, 0, |Visible(dir, printFiles)| - idx, 0
  {
    var files := Visible(dir, printFiles);
    var file := files[idx];
    var sub := if file.stat.isDir then PreOrder(file.children, printFiles) else [];
    if file.stat.isDir {
      ListingIsPreOrder(file, printFiles, ChildPrefix(prefix, idx, |files|));
    }
    LevelStep(dir, idx, printFiles, prefix);
    VisibleIsListed(dir, idx, printFiles);
    PreOrderStep(files, idx, printFiles);
    StatsStep(EntryAt(dir, idx, printFiles, prefix), BelowAt(dir, idx, printFiles, prefix),
              Level(dir, idx + 1, printFiles, prefix), sub, PreOrder(files[idx + 1..], printFiles));
  }

  /** Every entry of Visible is one that PreOrder lists. */
  lemma VisibleIsListed(dir: Tree, idx: nat, printFiles: bool)
    requires idx < |Visible(dir, printFiles)|
    ensures printFiles || Visible(dir, printFiles)[idx].stat.isDir
  {
    if !printFiles {
      assert Visible(dir, printFiles)[idx] in Directories(dir.children);
    }
  }

  // ---------------------------------------------------------------------
  // Where each entry sits, and the drawing that place calls for

  /** An entry's place among its listed siblings: its index and how many
      siblings are listed. */
  datatype Pos = Pos(idx: nat, count: nat)

  /** The indentation one ancestor contributes: a bar continues that
      ancestor's line down unless it is the last of its siblings. */
  function Unit(p: Pos): string {
    if p.idx != p.count - 1 then "│\t" else "\t"
  }

  /** One unit per ancestor, outermost first. */
  function Indent(ancestors: seq<Pos>): string {
    if ancestors == [] then "" else Unit(ancestors[0]) + Indent(ancestors[1..])
  }

  /** The drawing of the entry at the end of a path: the indentation of its
      ancestors, then a corner or a tee for its own place. */
  function Drawing(path: seq<Pos>): string
    requires path != []
  {
    var last := path[|path| - 1];
    Indent(path[..|path| - 1]) + GetPrefix(last.idx, last.count)
  }

  /** path leads from dir down to an entry: each step names a listed entry
      by its place, and every step but the last enters a directory. */
  ghost predicate ValidPath(dir: Tree, printFiles: bool, path: seq<Pos>)
    decreases |path|
  {
    var files := Visible(dir, printFiles);
    && path != []
    && path[0].count == |files|
    && path[0].idx < |files|
    && (|path| > 1 ==> files[path[0].idx].stat.isDir && ValidPath(files[path[0].idx], printFiles, path[1..]))
  }

  /** The entry a valid path leads to. */
  function Resolve(dir: Tree, printFiles: bool, path: seq<Pos>): Tree
    requires ValidPath(dir, printFiles, path)
    decreases |path|
  {
    var t := Visible(dir, printFiles)[path[0].idx];
    if |path| == 1 then t else Resolve(t, printFiles, path[1..])
  }

  /** Each path with p put in front. */
  function Under(p: Pos, paths: seq<seq<Pos>>): (r: seq<seq<Pos>>)
    ensures |r| == |paths| && forall i | 0 <= i < |paths| :: r[i] == [p] + paths[i]
  {
    seq(|paths|, i requires 0 <= i < |paths| => [p] + paths[i])
  }

  /** The paths to the listed entries below dir, in pre-order. */
  function Paths(dir: Tree, printFiles: bool): seq<seq<Pos>>
    decreases dir, 1
  {
    PathsFrom(dir, 0, printFiles)
  }

  function PathsFrom(dir: Tree, idx: nat, printFiles: bool): seq<seq<Pos>>
    requires idx <= |Visible(dir, printFiles)|
    decreases dir, 0, |Visible(dir, printFiles)| - idx
  {
    var files := Visible(dir, printFiles);
    if idx == |files| then []
    else
      var here := Pos(idx, |files|);
      [[here]]
      + (if files[idx].stat.isDir then Under(here, Paths(files[idx], printFiles)) else [])
      + PathsFrom(dir, idx + 1, printFiles)
  }

  /** entries[i] is the entry paths[i] leads to, drawn as prefix followed
      by the drawing of that path. */
  ghost predicate DrawnAs(entries: seq<FileInfo>, paths: seq<seq<Pos>>, dir: Tree, printFiles: bool, prefix: string) {
    && |entries| == |paths|
    && forall i | 0 <= i < |entries| ::
         && ValidPath(dir, printFiles, paths[i])
         && entries[i].prefix == prefix + Drawing(paths[i])
         && entries[i].file == Resolve(dir, printFiles, paths[i]).stat
  }

  /** The prefix rule of the listing: the i-th entry is the entry at the
      i-th path in pre-order, and its prefix is the prefix passed in, then
      "│\t" for every ancestor that is not the last of its siblings and
      "\t" for every one that is, then "└" for a last sibling or "├". */
  lemma {:induction false} ListingDrawing(dir: Tree, printFiles: bool, prefix: string)
    ensures DrawnAs(Listing(dir, printFiles, prefix), Paths(dir, printFiles), dir, printFiles, prefix)
    decreases dir, 1
  {
    LevelDrawing(dir, 0, printFiles, prefix);
  }

  lemma {:induction false} LevelDrawing(dir: Tree, idx: nat, printFiles: bool, prefix: string)
    requires idx <= |Visible(dir, printFiles)|
    ensures DrawnAs(Level(dir, idx, printFiles, prefix), PathsFrom(dir, idx, printFiles), dir, printFiles, prefix)
    decreases dir, 0, |Visible(dir, printFiles)| - idx, 1
  {
    if idx < |Visible(dir, printFiles)| {
      LevelDrawing(dir, idx + 1, printFiles, prefix);
      LevelDrawingStep(dir, idx, printFiles, prefix);
    }
  }

  lemma {:induction false} LevelDrawingStep(dir: Tree, idx: nat, printFiles: bool, prefix: string)
    requires idx < |Visible(dir, printFiles)|
    requires DrawnAs(Level(dir, idx + 1, printFiles, prefix), PathsFrom(dir, idx + 1, printFiles), dir, printFiles, prefix)
    ensures DrawnAs(Level(dir, idx, printFiles, prefix), PathsFrom(dir, idx, printFiles), dir, printFiles, prefix)
    decreases dir, 0, |Visible(dir, printFiles)| - idx, 0
  {
    var files := Visible(dir, printFiles);
    var here := Pos(idx, |files|);
    var below := BelowAt(dir, idx, printFiles, prefix);
    var belowPaths := if files[idx].stat.isDir then Under(here, Paths(files[idx], printFiles)) else [];
    HeadDrawing(dir, idx, printFiles, prefix);
    if files[idx].stat.isDir {
      var child := ChildPrefix(prefix, idx, |files|);
      ListingDrawing(files[idx], printFiles, child);
      ChildDrawing(dir, idx, printFiles, prefix, Listing(files[idx], printFiles, child), Paths(files[idx], printFiles));
    }
    assert DrawnAs(below, belowPaths, dir, printFiles, prefix);
    LevelStep(dir, idx, printFiles, prefix);
    PathsFromStep(dir, idx, printFiles);
    DrawnAsAppend([EntryAt(dir, idx, printFiles, prefix)], [[here]], below, belowPaths, dir, printFiles, prefix);
    DrawnAsAppend([EntryAt(dir, idx, printFiles, prefix)] + below, [[here]] + belowPaths,
                  Level(dir, idx + 1, printFiles, prefix), PathsFrom(dir, idx + 1, printFiles), dir, printFiles, prefix);
  }

  lemma PathsFromStep(dir: Tree, idx: nat, printFiles: bool)
    requires idx < |Visible(dir, printFiles)|
    ensures PathsFrom(dir, idx, printFiles)
         == [[Pos(idx, |Visible(dir, printFiles)|)]]
            + (if Visible(dir, printFiles)[idx].stat.isDir
               then Under(Pos(idx, |Visible(dir, printFiles)|), Paths(Visible(dir, printFiles)[idx], printFiles))
               else [])
            + PathsFrom(dir, idx + 1, printFiles)
  {
  }

  /** The entry at idx is reached by the one-step path to it. */
  lemma HeadDrawing(dir: Tree, idx: nat, printFiles: bool, prefix: string)
    requires idx < |Visible(dir, printFiles)|
    ensures DrawnAs([EntryAt(dir, idx, printFiles, prefix)], [[Pos(idx, |Visible(dir, printFiles)|)]], dir, printFiles, prefix)
  {
    var path := [Pos(idx, |Visible(dir, printFiles)|)];
    assert path[..0] == [];
    assert ValidPath(dir, printFiles, path);
  }

  /** Entries drawn under a subdirectory's prefix, seen from its parent:
      every path gains the subdirectory's place in front, and the
      subdirectory's prefix is the parent's followed by that place's unit. */
  lemma ChildDrawing(dir: Tree, idx: nat, printFiles: bool, prefix: string, entries: seq<FileInfo>, paths: seq<seq<Pos>>)
    requires idx < |Visible(dir, printFiles)|
    requires Visible(dir, printFiles)[idx].stat.isDir
    requires DrawnAs(entries, paths, Visible(dir, printFiles)[idx], printFiles,
                     ChildPrefix(prefix, idx, |Visible(dir, printFiles)|))
    ensures DrawnAs(entries, Under(Pos(idx, |Visible(dir, printFiles)|), paths), dir, printFiles, prefix)
  {
    var here := Pos(idx, |Visible(dir, printFiles)|);
    var under := Under(here, paths);
    forall i | 0 <= i < |entries|
      ensures ValidPath(dir, printFiles, under[i])
      ensures entries[i].prefix == prefix + Drawing(under[i])
      ensures entries[i].file == Resolve(dir, printFiles, under[i]).stat
    {
      StepDown(dir, printFiles, here, paths[i]);
      PrefixUnder(prefix, here, paths[i]);
    }
  }

  /** The prefix of an entry drawn under a subdirectory, seen from the
      parent: the parent's prefix and the drawing of the longer path. */
  lemma PrefixUnder(prefix: string, here: Pos, p: seq<Pos>)
    requires p != []
    ensures ChildPrefix(prefix, here.idx, here.count) + Drawing(p) == prefix + Drawing([here] + p)
  {
    DrawingUnder(here, p);
    assert ChildPrefix(prefix, here.idx, here.count) == prefix + Unit(here);
  }

  /** A valid path in a listed subdirectory, with that subdirectory's place
      put in front, is a valid path from the parent to the same entry. */
  lemma StepDown(dir: Tree, printFiles: bool, here: Pos, p: seq<Pos>)
    requires here.count == |Visible(dir, printFiles)| && here.idx < here.count
    requires Visible(dir, printFiles)[here.idx].stat.isDir
    requires ValidPath(Visible(dir, printFiles)[here.idx], printFiles, p)
    ensures ValidPath(dir, printFiles, [here] + p)
    ensures Resolve(dir, printFiles, [here] + p) == Resolve(Visible(dir, printFiles)[here.idx], printFiles, p)
  {
    var q := [here] + p;
    assert q[0] == here && q[1..] == p && |q| > 1;
  }

  /** A path one step longer draws one more unit in front. */
  lemma DrawingUnder(here: Pos, p: seq<Pos>)
    requires p != []
    ensures Drawing([here] + p) == Unit(here) + Drawing(p)
  {
    var q := [here] + p;
    assert q[..|q| - 1] == [here] + p[..|p| - 1];
    assert q[|q| - 1] == p[|p| - 1];
    var r := [here] + p[..|p| - 1];
    assert r[0] == here && r[1..] == p[..|p| - 1];
  }

  lemma DrawnAsAppend(a: seq<FileInfo>, pa: seq<seq<Pos>>, b: seq<FileInfo>, pb: seq<seq<Pos>>,
                      dir: Tree, printFiles: bool, prefix: string)
    requires DrawnAs(a, pa, dir, printFiles, prefix) && DrawnAs(b, pb, dir, printFiles, prefix)
    ensures DrawnAs(a + b, pa + pb, dir, printFiles, prefix)
  {
    var ab, pab := a + b, pa + pb;
    forall i | 0 <= i < |ab|
      ensures ValidPath(dir, printFiles, pab[i])
      ensures ab[i].prefix == prefix + Drawing(pab[i])
      ensures ab[i].file == Resolve(dir, printFiles, pab[i]).stat
    {
      if i < |a| {
        assert ab[i] == a[i] && pab[i] == pa[i];
      } else {
        assert ab[i] == b[i - |a|] && pab[i] == pb[i - |a|];
      }
    }
  }

  // ---------------------------------------------------------------------
  // The drawing in front of each entry

  /** The indentation an entry inherits from the levels above it: per
      level, a tab, after a bar when that level's entry has siblings below
      it. */
  predicate IsIndent(s: string)
    decreases |s|
  {
    || s == []
    || (s[0] == '\t' && IsIndent(s[1..]))
    || (|s| >= 2 && s[0] == Bar[0] && s[1] == '\t' && IsIndent(s[2..]))
  }

  /** p is drawn below `prefix`: prefix, an indentation, and a corner or
      a tee. */
  predicate IsDrawnBelow(p: string, prefix: string) {
    && |p| > |prefix|
    && p[..|prefix|] == prefix
    && IsIndent(p[|prefix|..|p| - 1])
    && (p[|p| - 1] == Corner[0] || p[|p| - 1] == Tee[0])
  }

  /** An entry drawn below the prefix of a subdirectory is drawn below
      the prefix of its parent too. */
  lemma DrawnBelowChild(p: string, prefix: string, idx: int, n: int)
    requires IsDrawnBelow(p, ChildPrefix(prefix, idx, n))
    ensures IsDrawnBelow(p, prefix)
  {
    var child := ChildPrefix(prefix, idx, n);
    var inner := p[|child|..|p| - 1];
    var outer := p[|prefix|..|p| - 1];
    var mid := child[|prefix|..];
    assert p[..|prefix|] == child[..|prefix|] == prefix;
    assert p[|prefix|..|child|] == mid by {
      assert p[..|child|] == child;
    }
    assert outer == mid + inner;
    if idx != n - 1 {
      assert mid == [Bar[0], '\t'];
      assert outer[2..] == inner;
    } else {
      assert mid == ['\t'];
      assert outer[1..] == inner;
    }
  }

  /** Every entry of a listing is drawn as the prefix it was given, one
      "\t" or "│\t" per level above it, then a corner or a tee. */
  lemma {:induction false} ListingIsDrawn(dir: Tree, printFiles: bool, prefix: string)
    ensures forall e | e in Listing(dir, printFiles, prefix) :: IsDrawnBelow(e.prefix, prefix)
    decreases dir, 1
  {
    LevelIsDrawn(dir, 0, printFiles, prefix);
  }

  lemma {:induction false} LevelIsDrawn(dir: Tree, idx: nat, printFiles: bool, prefix: string)
    requires idx <= |Visible(dir, printFiles)|
    ensures forall e | e in Level(dir, idx, printFiles, prefix) :: IsDrawnBelow(e.prefix, prefix)
    decreases dir, 0, |Visible(dir, printFiles)| - idx
  {
    var files := Visible(dir, printFiles);
    if idx < |files| {
      var entry := EntryAt(dir, idx, printFiles, prefix);
      LevelStep(dir, idx, printFiles, prefix);
      var mark := GetPrefix(idx, |files|);
      assert entry.prefix[..|prefix|] == prefix;
      assert entry.prefix[|prefix|..|entry.prefix| - 1] == [];
      if files[idx].stat.isDir {
        var child := ChildPrefix(prefix, idx, |files|);
        ListingIsDrawn(files[idx], printFiles, child);
        forall e | e in Listing(files[idx], printFiles, child) ensures IsDrawnBelow(e.prefix, prefix) {
          DrawnBelowChild(e.prefix, prefix, idx, |files|);
        }
      }
      LevelIsDrawn(dir, idx + 1, printFiles, prefix);
    }
  }

  // ---------------------------------------------------------------------
  // Printing

  /** The line printed for an entry. */
  function Line(e: FileInfo): string {
    e.prefix + Dashes + FormatFileName(e.file)
  }

  /** printFormatedOutput: one line per entry, in listing order. */
  method PrintFormatedOutput(s: seq<FileInfo>) returns (lines: seq<string>)
    ensures |lines| == |s|
    ensures forall i | 0 <= i < |s| :: lines[i] == s[i].prefix + Dashes + FormatFileName(s[i].file)
  {
    lines := [];
    for i := 0 to |s|
      invariant |lines| == i
      invariant forall j | 0 <= j < i :: lines[j] == Line(s[j])
    {
      lines := lines + [s[i].prefix + Dashes + FormatFileName(s[i].file)];
    }
  }

  /** dirTree without the file system and standard output: the lines
      printed for the tree under root. */
  method DirTreeLines(root: Tree, printFiles: bool) returns (lines: seq<string>)
    ensures |lines| == |Listing(root, printFiles, "")| == |PreOrder(root.children, printFiles)|
    ensures forall i | 0 <= i < |lines| :: lines[i] == Line(Listing(root, printFiles, "")[i])
    ensures |lines| == |Paths(root, printFiles)|
    ensures forall i | 0 <= i < |lines| ::
              && ValidPath(root, printFiles, Paths(root, printFiles)[i])
              && lines[i] == Drawing(Paths(root, printFiles)[i]) + Dashes
                             + FormatFileName(Resolve(root, printFiles, Paths(root, printFiles)[i]).stat)
  {
    var slice := GetFileInfoList(root, printFiles, "");
    ListingIsPreOrder(root, printFiles, "");
    lines := PrintFormatedOutput(slice);
    LinesFollowPaths(root, printFiles, lines);
  }

  /** Lines printed from the listing are the drawings of the paths. */
  lemma LinesFollowPaths(root: Tree, printFiles: bool, lines: seq<string>)
    requires |lines| == |Listing(root, printFiles, "")|
    requires forall i | 0 <= i < |lines| :: lines[i] == Line(Listing(root, printFiles, "")[i])
    ensures |lines| == |Paths(root, printFiles)|
    ensures forall i | 0 <= i < |lines| ::
              && ValidPath(root, printFiles, Paths(root, printFiles)[i])
              && lines[i] == Drawing(Paths(root, printFiles)[i]) + Dashes
                             + FormatFileName(Resolve(root, printFiles, Paths(root, printFiles)[i]).stat)
  {
    ListingDrawing(root, printFiles, "");
    var entries, paths := Listing(root, printFiles, ""), Paths(root, printFiles);
    forall i | 0 <= i < |lines|
      ensures ValidPath(root, printFiles, paths[i])
      ensures lines[i] == Drawing(paths[i]) + Dashes + FormatFileName(Resolve(root, printFiles, paths[i]).stat)
    {
      LineAtTop(entries[i], Drawing(paths[i]));
    }
  }

  /** An entry drawn with no prefix in front prints its drawing first. */
  lemma LineAtTop(e: FileInfo, drawing: string)
    requires e.prefix == "" + drawing
    ensures Line(e) == drawing + Dashes + FormatFileName(e.file)
  {
    assert e.prefix == drawing;
  }

  /** Without -f every printed line is a drawing, the dashes and a
      directory name: no line carries a size. */
  lemma LinesWithoutFlag(root: Tree, e: FileInfo)
    requires e in Listing(root, false, "")
    ensures Line(e) == e.prefix + Dashes + e.file.name
    ensures IsDrawnBelow(e.prefix, "")
  {
    NoFilesWithoutFlag(root, "");
    ListingIsDrawn(root, false, "");
  }
}
