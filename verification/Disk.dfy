/**
 Disk accounting. The configured directories may contain each other; usage is measured over the
 outermost ones only, so that no file is counted twice.
 */
module Disk {
  import opened Sorting

  /** The parts of a resolved path. */
  type Path = seq<string>

  datatype Node = Link | File(size: nat) | Folder(entries: Entries)
  datatype Entries = Empty | Entry(name: string, node: Node, rest: Entries)

  // ---------- sizes ----------

  /** `_size`: a link counts nothing, a file its size, a directory the sum of its entries. */
  function Size(node: Node): nat {
    match node
    case Link => 0
    case File(size) => size
    case Folder(entries) => SizeAll(entries)
  }

  function SizeAll(entries: Entries): nat {
    match entries
    case Empty => 0
    case Entry(_, node, rest) => Size(node) + SizeAll(rest)
  }

  function Names(entries: Entries): set<string> {
    match entries
    case Empty => {}
    case Entry(name, _, rest) => {name} + Names(rest)
  }

  /** No directory has two entries of the same name. */
  predicate Named(node: Node) {
    node.Folder? ==> NamedAll(node.entries)
  }

  predicate NamedAll(entries: Entries) {
    entries.Entry? ==> entries.name !in Names(entries.rest) && Named(entries.node) && NamedAll(entries.rest)
  }

  /** What is found at a path; nothing behind a link. */
  function Lookup(node: Node, path: Path): Node
    decreases node
  {
    if path == [] then node
    else if node.Folder? then LookupAll(node.entries, path)
    else Link
  }

  function LookupAll(entries: Entries, path: Path): Node
    requires path != []
    decreases entries
  {
    match entries
    case Empty => Link
    case Entry(name, node, rest) => if name == path[0] then Lookup(node, path[1..]) else LookupAll(rest, path)
  }

  // ---------- files by path ----------

  type Files = map<Path, nat>

  function Below(name: string, files: Files): (r: Files)
    ensures forall p :: p in r <==> p != [] && p[0] == name && p[1..] in files
    ensures forall p <- r :: r[p] == files[p[1..]]
  {
    var keys := set p <- files :: [name] + p;
    assert forall p <- files :: ([name] + p)[1..] == p;
    assert forall q: Path :: q != [] && q[0] == name ==> q == [name] + q[1..];
    assert forall q: Path :: q != [] && q[0] == name && q[1..] in files ==> q in keys;
    map p <- keys :: files[p[1..]]
  }

  /** Every regular file below a node, by its path. */
  function FilesOf(node: Node): Files {
    match node
    case Link => map[]
    case File(size) => map[[] := size]
    case Folder(entries) => FilesOfAll(entries)
  }

  function FilesOfAll(entries: Entries): Files {
    match entries
    case Empty => map[]
    case Entry(name, node, rest) => Below(name, FilesOf(node)) + FilesOfAll(rest)
  }

  ghost function Total(files: Files): nat {
    if files == map[] then 0
    else
      var p :| p in files;
      files[p] + Total(files - {p})
  }

  lemma {:induction false} TotalRemove(files: Files, path: Path)
    requires path in files
    ensures Total(files) == files[path] + Total(files - {path})
    decreases |files|
  {
    var p :| p in files && Total(files) == files[p] + Total(files - {p});
    if p != path {
      TotalRemove(files - {p}, path);
      TotalRemove(files - {path}, p);
      assert files - {p} - {path} == files - {path} - {p};
    }
  }

  lemma {:induction false} TotalUnion(a: Files, b: Files)
    requires a.Keys !! b.Keys
    ensures Total(a + b) == Total(a) + Total(b)
    decreases |a|
  {
    if a == map[] {
      assert a + b == b;
    } else {
      hide Total;
      var p :| p in a;
      TotalRemove(a, p);
      UnionRemove(a, b, p);
      TotalRemove(a + b, p);
      TotalUnion(a - {p}, b);
    }
  }

  lemma UnionRemove(a: Files, b: Files, p: Path)
    requires a.Keys !! b.Keys && p in a
    ensures (a + b) - {p} == (a - {p}) + b
    ensures p in a + b && (a + b)[p] == a[p]
    ensures (a - {p}).Keys !! b.Keys && |a - {p}| < |a|
  {
    assert p !in b.Keys;
  }

  lemma {:induction false} TotalBelow(name: string, files: Files)
    ensures Total(Below(name, files)) == Total(files)
    decreases |files|
  {
    if files == map[] {
      assert Below(name, files) == map[];
    } else {
      var p :| p in files;
      assert ([name] + p)[1..] == p;
      TotalRemove(files, p);
      TotalRemove(Below(name, files), [name] + p);
      BelowRemove(name, files, p);
      TotalBelow(name, files - {p});
    }
  }

  lemma BelowRemove(name: string, files: Files, p: Path)
    ensures Below(name, files) - {[name] + p} == Below(name, files - {p})
  {
    forall q ensures q in Below(name, files) - {[name] + p} <==> q in Below(name, files - {p}) {
      if q != [] && q[0] == name {
        assert q == [name] + q[1..];
      }
    }
  }

  lemma {:induction false} NamesOfFiles(entries: Entries)
    ensures forall p <- FilesOfAll(entries) :: p != [] && p[0] in Names(entries)
  {
    if entries.Entry? {
      NamesOfFiles(entries.rest);
    }
  }

  /** The recursive measure is the total size of the files below. */
  lemma {:induction false} SizeIsTotal(node: Node)
    requires Named(node)
    ensures Size(node) == Total(FilesOf(node))
  {
    match node {
      case Link =>
      case File(size) => assert FilesOf(node) - {[]} == map[];
      case Folder(entries) => SizeAllIsTotal(entries);
    }
  }

  lemma {:induction false} SizeAllIsTotal(entries: Entries)
    requires NamedAll(entries)
    ensures SizeAll(entries) == Total(FilesOfAll(entries))
  {
    if entries.Entry? {
      SizeIsTotal(entries.node);
      SizeAllIsTotal(entries.rest);
      NamesOfFiles(entries.rest);
      TotalBelow(entries.name, FilesOf(entries.node));
      TotalUnion(Below(entries.name, FilesOf(entries.node)), FilesOfAll(entries.rest));
    }
  }

  // ---------- the files under a path ----------

  /** `is_relative_to`. */
  predicate IsUnder(path: Path, root: Path) {
    root <= path
  }

  function Under(files: Files, root: Path): Files {
    map p <- files | IsUnder(p, root) :: files[p]
  }

  /** What is found at a path holds exactly the files under it. */
  lemma {:induction false} LookupHoldsFiles(node: Node, root: Path, p: Path)
    requires Named(node)
    ensures Named(Lookup(node, root))
    ensures root + p in FilesOf(node) <==> p in FilesOf(Lookup(node, root))
    ensures p in FilesOf(Lookup(node, root)) ==> FilesOf(node)[root + p] == FilesOf(Lookup(node, root))[p]
    decreases node
  {
    if root == [] {
      assert root + p == p;
    } else if node.Folder? {
      LookupAllHoldsFiles(node.entries, root, p);
    }
  }

  lemma {:induction false} LookupAllHoldsFiles(entries: Entries, root: Path, p: Path)
    requires NamedAll(entries) && root != []
    ensures Named(LookupAll(entries, root))
    ensures root + p in FilesOfAll(entries) <==> p in FilesOf(LookupAll(entries, root))
    ensures p in FilesOf(LookupAll(entries, root)) ==>
              FilesOfAll(entries)[root + p] == FilesOf(LookupAll(entries, root))[p]
    decreases entries
  {
    if entries.Entry? {
      NamesOfFiles(entries.rest);
      assert (root + p)[0] == root[0] && (root + p)[1..] == root[1..] + p;
      if entries.name == root[0] {
        LookupHoldsFiles(entries.node, root[1..], p);
      } else {
        LookupAllHoldsFiles(entries.rest, root, p);
      }
    }
  }

  /** Stripping a common root from the paths keeps the total. */
  lemma {:induction false} TotalStripped(files: Files, stripped: Files, root: Path)
    requires forall p :: p in stripped <==> root + p in files
    requires forall p <- stripped :: stripped[p] == files[root + p]
    requires forall q <- files :: IsUnder(q, root)
    ensures Total(files) == Total(stripped)
    decreases |stripped|
  {
    if stripped == map[] {
      forall q ensures q !in files {
        if root <= q {
          assert q == root + q[|root|..];
          assert q[|root|..] !in stripped;
        }
      }
      assert files == map[];
    } else {
      var p :| p in stripped;
      TotalRemove(stripped, p);
      TotalRemove(files, root + p);
      forall q ensures q in stripped - {p} <==> root + q in files - {root + p} {
        assert (root + q)[|root|..] == q && (root + p)[|root|..] == p;
      }
      TotalStripped(files - {root + p}, stripped - {p}, root);
    }
  }

  lemma SizeUnder(disk: Node, root: Path)
    requires Named(disk)
    ensures Size(Lookup(disk, root)) == Total(Under(FilesOf(disk), root))
  {
    var files, found := Under(FilesOf(disk), root), FilesOf(Lookup(disk, root));
    LookupHoldsFiles(disk, root, []);
    SizeIsTotal(Lookup(disk, root));
    forall p ensures p in found <==> root + p in files
      ensures p in found ==> found[p] == files[root + p]
    {
      LookupHoldsFiles(disk, root, p);
    }
    TotalStripped(files, found, root);
  }

  // ---------- distinct roots ----------

  ghost predicate NonNested(roots: seq<Path>) {
    forall i, j :: 0 <= i < |roots| && 0 <= j < |roots| && i != j ==> !IsUnder(roots[j], roots[i])
  }

  predicate Covered(roots: seq<Path>, path: Path) {
    exists r <- roots :: IsUnder(path, r)
  }

  function ByDepth(): (Path, Path) -> bool {
    (a: Path, b: Path) => |a| < |b|
  }

  /** `_distinct_roots`: pairwise non-nested, taken from the configured paths, and covering them all. */
  method DistinctRoots(paths: seq<Path>) returns (roots: seq<Path>)
    ensures NonNested(roots)
    ensures forall r <- roots :: r in paths
    ensures forall p <- paths :: Covered(roots, p)
  {
    var ordered := Sort(ByDepth(), paths);
    InsertAllSorts(ByDepth(), [], paths);
    roots := [];
    var i := 0;
    while i < |ordered|
      invariant 0 <= i <= |ordered|
      invariant NonNested(roots)
      invariant forall r <- roots :: r in ordered[..i]
      invariant forall p <- ordered[..i] :: Covered(roots, p)
    {
      hide Covered, NonNested;
      var path := ordered[i];
      EarlierIsShallower(ordered, i);
      assert ordered[..i + 1] == ordered[..i] + [path];
      if !Covered(roots, path) {
        ghost var before := roots;
        roots := roots + [path];
        DeeperIsOutside(before, path);
        forall p <- ordered[..i + 1] ensures Covered(roots, p) {
          CoveredByMore(before, path, p);
        }
      }
      i := i + 1;
    }
    assert ordered[..i] == ordered;
  }

  lemma EarlierIsShallower(ordered: seq<Path>, i: nat)
    requires Sorted(ByDepth(), ordered) && i < |ordered|
    ensures forall p <- ordered[..i] :: |p| <= |ordered[i]|
  {
    forall p <- ordered[..i] ensures |p| <= |ordered[i]| {
      var j :| 0 <= j < i && ordered[j] == p;
      assert !ByDepth()(ordered[i], ordered[j]);
    }
  }

  lemma DeeperIsNotAbove(shallow: Path, deep: Path)
    requires |shallow| <= |deep| && !IsUnder(deep, shallow)
    ensures !IsUnder(shallow, deep)
  {
    assert |shallow| == |deep| && deep <= shallow ==> shallow == deep;
  }

  lemma DeeperIsOutside(roots: seq<Path>, path: Path)
    requires NonNested(roots) && !Covered(roots, path)
    requires forall r <- roots :: |r| <= |path|
    ensures NonNested(roots + [path])
  {
    var all := roots + [path];
    forall i, j | 0 <= i < |all| && 0 <= j < |all| && i != j ensures !IsUnder(all[j], all[i]) {
      if j == |roots| {
        assert all[i] in roots;
      } else if i == |roots| {
        assert all[j] in roots;
        DeeperIsNotAbove(all[j], path);
      }
    }
  }

  lemma CoveredByMore(roots: seq<Path>, path: Path, p: Path)
    ensures Covered(roots, p) || p == path ==> Covered(roots + [path], p)
  {
    if Covered(roots, p) {
      var r :| r in roots && IsUnder(p, r);
      assert r in roots + [path];
    } else if p == path {
      assert path in roots + [path];
    }
  }

  // ---------- every file once ----------

  /** The files under any of the configured paths. */
  function Union(files: Files, paths: seq<Path>): Files {
    map p <- files | Covered(paths, p) :: files[p]
  }

  /** `sum(_size(path) for path in self.roots)`. */
  function Usage(disk: Node, roots: seq<Path>): nat {
    if roots == [] then 0 else Size(Lookup(disk, roots[0])) + Usage(disk, roots[1..])
  }

  lemma {:induction false} UsageIsUnion(disk: Node, roots: seq<Path>)
    requires Named(disk) && NonNested(roots)
    ensures Usage(disk, roots) == Total(Union(FilesOf(disk), roots))
  {
    var files := FilesOf(disk);
    if roots == [] {
      assert Union(files, roots) == map[];
    } else {
      var root, rest := roots[0], roots[1..];
      SizeUnder(disk, root);
      UsageIsUnion(disk, rest);
      UnionSplits(files, root, rest);
      hide Under, Union;
      assert roots == [root] + rest;
      TotalUnion(Under(files, root), Union(files, rest));
    }
  }

  /** A file under the first root is under none of the others. */
  lemma UnionSplits(files: Files, root: Path, rest: seq<Path>)
    requires NonNested([root] + rest)
    ensures Under(files, root).Keys !! Union(files, rest).Keys
    ensures Union(files, [root] + rest) == Under(files, root) + Union(files, rest)
  {
    var roots := [root] + rest;
    forall p ensures Covered(roots, p) <==> IsUnder(p, root) || Covered(rest, p) {
      if Covered(rest, p) {
        var r :| r in rest && IsUnder(p, r);
        assert r in roots;
      }
      assert root in roots;
    }
    forall p | IsUnder(p, root) ensures !Covered(rest, p) {
      forall r <- rest ensures !IsUnder(p, r) {
        var i :| 0 <= i < |rest| && rest[i] == r;
        assert roots[i + 1] == r && roots[0] == root;
        Comparable(r, root, p);
      }
    }
  }

  /** Two prefixes of one path are nested. */
  lemma Comparable(a: Path, b: Path, p: Path)
    requires IsUnder(p, b)
    ensures IsUnder(p, a) ==> IsUnder(b, a) || IsUnder(a, b)
  {
  }

  lemma SameCover(paths: seq<Path>, roots: seq<Path>, p: Path)
    requires (forall r <- roots :: r in paths) && (forall q <- paths :: Covered(roots, q))
    ensures Covered(roots, p) <==> Covered(paths, p)
  {
    if Covered(paths, p) {
      var q :| q in paths && IsUnder(p, q);
      var r :| r in roots && IsUnder(q, r);
      assert IsUnder(p, r);
    }
  }

  /**
   The measured usage is the total size of the union of the configured directories, every file once,
   however they overlap.
   */
  lemma EveryFileIsCountedOnce(disk: Node, paths: seq<Path>, roots: seq<Path>)
    requires Named(disk) && NonNested(roots)
    requires (forall r <- roots :: r in paths) && (forall p <- paths :: Covered(roots, p))
    ensures Usage(disk, roots) == Total(Union(FilesOf(disk), paths))
  {
    UsageIsUnion(disk, roots);
    SameUnion(FilesOf(disk), paths, roots);
  }

  lemma SameUnion(files: Files, paths: seq<Path>, roots: seq<Path>)
    requires (forall r <- roots :: r in paths) && (forall p <- paths :: Covered(roots, p))
    ensures Union(files, roots) == Union(files, paths)
  {
    hide Covered;
    forall p <- files ensures Covered(roots, p) <==> Covered(paths, p) {
      SameCover(paths, roots, p);
    }
  }
}
