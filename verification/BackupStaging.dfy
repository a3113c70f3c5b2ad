/**
  Staging a backup: copying the sources into one tree, which has what the archive's round trip
  needs. The round trip at the end is that of a staged tree all of which is archived.
 */
module BackupStaging {
  import opened Prelude
  import opened BackupPaths
  import opened BackupDisk
  import opened BackupManifest
  import opened BackupPermissions
  import opened Extraction
  import opened BackupRestore
  import opened BackupArchive

  /** mayList, maySearch and mayRead: what the process may do with the entry where it stands. */
  datatype SourceNode =
    | SourceDir(mode: nat, mayList: bool, maySearch: bool)
    | SourceFile(data: Bytes, mode: nat, mayRead: bool)
    | Symlink
    | Special

  type SourceTree = map<Path, SourceNode>

  /** A directory to back up: its absolute path, and what is below it. */
  datatype DirectorySource = DirectorySource(name: string, root: Path, tree: SourceTree)

  /** A database to back up: its absolute path, and the image the online backup writes. */
  datatype DatabaseSource = DatabaseSource(name: string, file: Path, image: Bytes)

  ghost predicate IsSourceTree(t: SourceTree) {
    && [] in t && t[[]].SourceDir?
    && (forall p, q :: p in t && Above(q, p) ==> q in t && t[q].SourceDir?)
    && (forall p :: p in t ==> FileNames(p))
  }

  // ---- What is copied ------------------------------------------------------------------------------

  const SUFFIXES: set<string> := {"", "-wal", "-shm", "-journal"}

  function WithSuffix(p: Path, suffix: string): Path {
    if p == [] then [suffix] else p[..|p| - 1] + [p[|p| - 1] + suffix]
  }

  /** A database and the side files SQLite keeps beside it. */
  function SideFiles(file: Path): set<Path> {
    set suffix | suffix in SUFFIXES :: WithSuffix(file, suffix)
  }

  ghost function ExcludedFiles(databases: seq<DatabaseSource>, n: nat): set<Path>
    requires n <= |databases|
  {
    if n == 0 then {} else ExcludedFiles(databases, n - 1) + SideFiles(databases[n - 1].file)
  }

  method CollectExcluded(databases: seq<DatabaseSource>) returns (excluded: set<Path>)
    ensures excluded == ExcludedFiles(databases, |databases|)
  {
    excluded := {};
    for n := 0 to |databases|
      invariant excluded == ExcludedFiles(databases, n)
    {
      excluded := excluded + SideFiles(databases[n].file);
    }
  }

  lemma {:induction false} ExcludedIff(databases: seq<DatabaseSource>, n: nat, p: Path)
    requires n <= |databases|
    ensures p in ExcludedFiles(databases, n) <==> exists i :: 0 <= i < n && p in SideFiles(databases[i].file)
  {
    if n > 0 {
      ExcludedIff(databases, n - 1, p);
    }
  }

  /** os.walk comes to p: it passes over a directory it may not list, without an error. */
  predicate Reached(t: SourceTree, p: Path) {
    p in t && forall q :: q in Ancestors(p) ==> q in t && t[q].SourceDir? && t[q].mayList
  }

  ghost function ReachedPaths(t: SourceTree): set<Path> {
    set p | p in t && Reached(t, p)
  }

  predicate Copied(d: DirectorySource, excluded: set<Path>, p: Path) {
    Reached(d.tree, p) && (d.tree[p].SourceDir? || (d.tree[p].SourceFile? && d.root + p !in excluded))
  }

  function NodeOf(n: SourceNode): Node
    requires n.SourceDir? || n.SourceFile?
  {
    if n.SourceDir? then Dir(n.mode) else File(n.data, n.mode)
  }

  /** The copy of a directory source, with the modes of the source. */
  ghost function CopiedTree(d: DirectorySource, excluded: set<Path>): Tree {
    map p | p in d.tree && Copied(d, excluded, p) :: NodeOf(d.tree[p])
  }

  /** lstat on p works: the directory p is in may be searched. */
  predicate CanLook(t: SourceTree, p: Path) {
    p == [] || (var up := p[..|p| - 1]; up in t && t[up].SourceDir? && t[up].maySearch)
  }

  /** Neither a link nor a special entry; it can be looked at, and read if it is to be copied. */
  predicate CanCopy(d: DirectorySource, excluded: set<Path>, p: Path)
    requires p in d.tree
  {
    && CanLook(d.tree, p)
    && (d.tree[p].SourceDir? || (d.tree[p].SourceFile? && (d.root + p in excluded || d.tree[p].mayRead)))
  }

  /** Nothing that the walk comes to stops the copying. */
  ghost predicate Copyable(d: DirectorySource, excluded: set<Path>) {
    forall p :: p in ReachedPaths(d.tree) ==> CanCopy(d, excluded, p)
  }

  predicate IsChild(t: SourceTree, at: Path, p: Path) {
    p in t && |p| == |at| + 1 && p[..|at|] == at
  }

  /** An order os.walk(topdown=True) may visit the directories in. */
  ghost predicate TopDownWalk(t: SourceTree, walk: seq<Path>) {
    && (forall p :: p in walk <==> Reached(t, p) && t[p].SourceDir? && t[p].mayList)
    && (forall i, j :: 0 <= i < j < |walk| ==> walk[i] != walk[j] && !Above(walk[j], walk[i]))
  }

  ghost predicate WalkFor(d: DirectorySource, walk: seq<Path>) {
    IsSourceTree(d.tree) && TopDownWalk(d.tree, walk)
  }

  // ---- Copying a directory ------------------------------------------------------------------------

  function FreshNode(n: SourceNode): Node
    requires n.SourceDir? || n.SourceFile?
  {
    if n.SourceDir? then Dir(UMASK_MODE) else NodeOf(n)
  }

  /** The copy so far, of the paths seen; directories still have the mode mkdir gave them. */
  ghost function Stage(d: DirectorySource, excluded: set<Path>, seen: set<Path>): Tree {
    map p | p in seen && Copied(d, excluded, p) :: FreshNode(d.tree[p])
  }

  ghost predicate ClosedUpwards(d: DirectorySource, seen: set<Path>) {
    forall p :: p in seen ==> AllAboveIn(d, seen, p)
  }

  ghost predicate AllAboveIn(d: DirectorySource, seen: set<Path>, p: Path) {
    forall q :: Above(q, p) ==> q in seen && q in d.tree && d.tree[q].SourceDir? && d.tree[q].mayList
  }

  /** One entry for each directory seen. */
  ghost predicate ModesSeen(entries: seq<ModeEntry>, d: DirectorySource, seen: set<Path>) {
    && (forall i :: 0 <= i < |entries| ==> IsEntrySeen(entries[i], d, seen))
    && (forall p :: p in seen && p in d.tree && d.tree[p].SourceDir? ==> exists i :: 0 <= i < |entries| && entries[i].path == p)
    && DistinctPaths(entries)
  }

  ghost predicate IsEntrySeen(e: ModeEntry, d: DirectorySource, seen: set<Path>) {
    && e.path in seen && e.path in d.tree && d.tree[e.path].SourceDir?
    && e == ModeEntry(e.path, d.tree[e.path].mode, true)
  }

  lemma {:induction false} StageGrows(d: DirectorySource, excluded: set<Path>, seen: set<Path>, p: Path)
    requires p in d.tree && p !in seen && ClosedUpwards(d, seen) && AllAboveIn(d, seen, p)
    ensures ClosedUpwards(d, seen + {p})
    ensures var t := Stage(d, excluded, seen);
      && CanCreate(t, p) && WithParents(t, p) == t
      && Stage(d, excluded, seen + {p}) ==
           if Copied(d, excluded, p) then t[p := FreshNode(d.tree[p])] else t
  {
    var t := Stage(d, excluded, seen);
    forall q ensures q in WithParents(t, p) <==> q in t {
      ParentsAre(t, p, q);
    }
  }

  /** One child of a visited directory. */
  method CopyChild(d: DirectorySource, excluded: set<Path>, p: Path, disk: Disk, ghost seen: set<Path>,
                   entries: seq<ModeEntry>)
    returns (ok: bool, entries': seq<ModeEntry>)
    requires p in d.tree && p !in seen && AllAboveIn(d, seen, p) && CopyingSeen(disk.tree, entries, d, excluded, seen)
    modifies disk`tree
    ensures ok <==> CanCopy(d, excluded, p)
    ensures ok ==> CopyingSeen(disk.tree, entries', d, excluded, seen + {p})
  {
    StageGrows(d, excluded, seen, p);
    entries' := entries;
    ok := CanLook(d.tree, p);
    if !ok {
      return;
    }
    match d.tree[p]
    case SourceDir(mode, _, _) =>
      var made := disk.MakeDirectory(p);
      entries' := entries + [ModeEntry(p, mode, true)];
      EntriesGrow(d, seen, p, entries);
    case SourceFile(data, mode, mayRead) =>
      if d.root + p !in excluded {
        ok := mayRead;
        if ok {
          var made := disk.CreateWith(p, data, mode);
        }
      }
    case Symlink => ok := false;
    case Special => ok := false;
  }

  lemma {:induction false} EntriesGrow(d: DirectorySource, seen: set<Path>, p: Path, entries: seq<ModeEntry>)
    requires p in d.tree && p !in seen && d.tree[p].SourceDir? && ModesSeen(entries, d, seen)
    ensures ModesSeen(entries + [ModeEntry(p, d.tree[p].mode, true)], d, seen + {p})
  {
    var grown := entries + [ModeEntry(p, d.tree[p].mode, true)];
    assert grown[|entries|].path == p;
    forall q | q in seen && q in d.tree && d.tree[q].SourceDir? ensures exists i :: 0 <= i < |grown| && grown[i].path == q {
      var i :| 0 <= i < |entries| && entries[i].path == q;
      assert grown[i].path == q;
    }
    assert forall i :: 0 <= i < |entries| ==> IsEntrySeen(entries[i], d, seen);
  }

  ghost predicate AllCopyable(d: DirectorySource, excluded: set<Path>, paths: set<Path>) {
    forall p :: p in paths ==> p in d.tree && CanCopy(d, excluded, p)
  }

  lemma {:induction false} AllCopyableOfBoth(d: DirectorySource, excluded: set<Path>, a: set<Path>, b: set<Path>)
    ensures AllCopyable(d, excluded, a + b) <==> AllCopyable(d, excluded, a) && AllCopyable(d, excluded, b)
  {
    if AllCopyable(d, excluded, a + b) {
      forall p | p in a || p in b ensures p in d.tree && CanCopy(d, excluded, p) {
        assert p in a + b;
      }
    }
  }

  /** The loop's state: the stage and the modes to set are those of the paths seen. */
  ghost predicate CopyingSeen(t: Tree, entries: seq<ModeEntry>, d: DirectorySource, excluded: set<Path>,
        seen: set<Path>) {
    && t == Stage(d, excluded, seen) && ModesSeen(entries, d, seen)
    && ClosedUpwards(d, seen) && AllCopyable(d, excluded, seen)
  }

  method CopyChildren(d: DirectorySource, excluded: set<Path>, at: Path, children: set<Path>, disk: Disk,
                      ghost seen: set<Path>, entries: seq<ModeEntry>)
    returns (ok: bool, entries': seq<ModeEntry>)
    requires at in seen && at in d.tree && d.tree[at].SourceDir? && d.tree[at].mayList
    requires CopyingSeen(disk.tree, entries, d, excluded, seen)
    requires forall p :: p in children ==> IsChild(d.tree, at, p) && p !in seen
    modifies disk`tree
    ensures ok <==> AllCopyable(d, excluded, children)
    ensures ok ==> CopyingSeen(disk.tree, entries', d, excluded, seen + children)
  {
    var left := children;
    ghost var now := seen;
    ok, entries' := true, entries;
    while left != {}
      invariant ok && left <= children && now == seen + (children - left)
      invariant CopyingSeen(disk.tree, entries', d, excluded, now)
      decreases left
    {
      var p :| p in left;
      AboveAChild(d, now, at, p);
      ok, entries' := CopyChild(d, excluded, p, disk, now, entries');
      if !ok {
        assert !AllCopyable(d, excluded, children);
        return;
      }
      now := now + {p};
      left := left - {p};
    }
    assert now == seen + children;
  }

  lemma {:induction false} AboveAChild(d: DirectorySource, seen: set<Path>, at: Path, p: Path)
    requires ClosedUpwards(d, seen) && at in seen && at in d.tree && d.tree[at].SourceDir? && d.tree[at].mayList
    requires IsChild(d.tree, at, p)
    ensures AllAboveIn(d, seen, p)
  {
    forall q | Above(q, p) ensures q in seen && q in d.tree && d.tree[q].SourceDir? && d.tree[q].mayList {
      assert AllAboveIn(d, seen, at);
      if |q| == |at| {
        assert q == at;
      } else {
        assert at[..|q|] == p[..|at|][..|q|] == q;
        assert Above(q, at);
      }
    }
  }

  /** Seen after n directories of the walk: the root and everything directly below those. */
  ghost predicate SeenAfter(d: DirectorySource, walk: seq<Path>, n: nat, seen: set<Path>)
    requires n <= |walk|
  {
    forall p :: p in seen <==> p in d.tree && (p == [] || ParentVisited(walk, n, p))
  }

  ghost predicate ParentVisited(walk: seq<Path>, n: nat, p: Path)
    requires n <= |walk|
  {
    p != [] && exists i :: 0 <= i < n && walk[i] == p[..|p| - 1]
  }

  lemma {:induction false} VisitedInTime(d: DirectorySource, walk: seq<Path>, n: nat, seen: set<Path>, p: Path)
    requires IsSourceTree(d.tree) && TopDownWalk(d.tree, walk) && n < |walk| && SeenAfter(d, walk, n, seen)
    ensures walk[n] in seen && d.tree[walk[n]].SourceDir? && d.tree[walk[n]].mayList
    ensures IsChild(d.tree, walk[n], p) ==> p !in seen
  {
    var at := walk[n];
    assert at in walk;
    if at != [] {
      var up := at[..|at| - 1];
      assert Above(up, at) && up in walk;
      var j :| 0 <= j < |walk| && walk[j] == up;
      assert j < n;
    }
    if IsChild(d.tree, at, p) {
      assert p[..|p| - 1] == at;
    }
  }

  lemma {:induction false} SeenGrows(d: DirectorySource, walk: seq<Path>, n: nat, seen: set<Path>, children: set<Path>)
    requires n < |walk| && SeenAfter(d, walk, n, seen)
    requires forall p :: p in children <==> IsChild(d.tree, walk[n], p)
    ensures SeenAfter(d, walk, n + 1, seen + children)
  {
    forall p ensures p in seen + children <==> p in d.tree && (p == [] || ParentVisited(walk, n + 1, p)) {
      if p != [] {
        assert IsChild(d.tree, walk[n], p) <==> p in d.tree && p[..|p| - 1] == walk[n];
        assert ParentVisited(walk, n + 1, p) <==> ParentVisited(walk, n, p) || p[..|p| - 1] == walk[n];
      }
    }
  }

  lemma {:induction false} EverythingIsSeen(d: DirectorySource, walk: seq<Path>, seen: set<Path>)
    requires IsSourceTree(d.tree) && TopDownWalk(d.tree, walk) && SeenAfter(d, walk, |walk|, seen)
    ensures seen == ReachedPaths(d.tree)
  {
    forall p ensures p in seen <==> p in ReachedPaths(d.tree) {
      if p != [] {
        ParentIsWalked(d.tree, walk, p);
      }
    }
  }

  lemma {:induction false} ParentIsWalked(t: SourceTree, walk: seq<Path>, p: Path)
    requires TopDownWalk(t, walk) && p != []
    ensures p in t && ParentVisited(walk, |walk|, p) <==> Reached(t, p)
  {
    var up := p[..|p| - 1];
    assert Above(up, p);
    assert ParentVisited(walk, |walk|, p) <==> up in walk;
    forall q ensures Above(q, p) <==> q == up || Above(q, up) {
      if Above(q, p) && q != up { assert up[..|q|] == p[..|q|]; }
      if Above(q, up) { AboveIsTransitive(q, up, p); }
    }
  }

  ghost function Children(t: SourceTree, at: Path): set<Path> {
    set p | p in t && IsChild(t, at, p)
  }

  /** One directory of the walk: the directories in it, then everything else in it. */
  method VisitDirectory(d: DirectorySource, excluded: set<Path>, walk: seq<Path>, n: nat, disk: Disk,
                        ghost seen: set<Path>, entries: seq<ModeEntry>)
    returns (ok: bool, entries': seq<ModeEntry>)
    requires WalkFor(d, walk) && n < |walk| && SeenAfter(d, walk, n, seen)
    requires CopyingSeen(disk.tree, entries, d, excluded, seen)
    modifies disk`tree
    ensures ok <==> AllCopyable(d, excluded, Children(d.tree, walk[n]))
    ensures ok ==> CopyingSeen(disk.tree, entries', d, excluded, seen + Children(d.tree, walk[n]))
    ensures SeenAfter(d, walk, n + 1, seen + Children(d.tree, walk[n]))
  {
    var at := walk[n];
    var directories := set p | p in d.tree && IsChild(d.tree, at, p) && d.tree[p].SourceDir?;
    var others := set p | p in d.tree && IsChild(d.tree, at, p) && !d.tree[p].SourceDir?;
    assert directories + others == Children(d.tree, at);
    VisitedInTime(d, walk, n, seen, at);
    forall p | IsChild(d.tree, at, p) ensures p !in seen {
      VisitedInTime(d, walk, n, seen, p);
    }
    SeenGrows(d, walk, n, seen, Children(d.tree, at));
    AllCopyableOfBoth(d, excluded, directories, others);
    ok, entries' := CopyChildren(d, excluded, at, directories, disk, seen, entries);
    if !ok {
      return;
    }
    ok, entries' := CopyChildren(d, excluded, at, others, disk, seen + directories, entries');
    assert (seen + directories) + others == seen + Children(d.tree, at);
  }

  /**
    _copy_directory_stable: refused exactly when the walk comes to a link, a special entry or one it
    may not look at or read; otherwise the copy is what the walk comes to, without the excluded
    files, whatever order it took.
   */
  method CopyDirectory(d: DirectorySource, excluded: set<Path>, walk: seq<Path>) returns (copy: Option<Tree>)
    requires WalkFor(d, walk)
    ensures copy.Some? <==> Copyable(d, excluded)
    ensures copy.Some? ==> copy.value == CopiedTree(d, excluded)
  {
    var disk := new Disk(0);
    var entries := [ModeEntry([], d.tree[[]].mode, true)];
    ghost var seen: set<Path> := {[]};
    var n := 0;
    assert entries[0].path == [];
    assert ClosedUpwards(d, seen);
    assert disk.tree == Stage(d, excluded, seen);
    while n < |walk|
      invariant 0 <= n <= |walk| && SeenAfter(d, walk, n, seen) && fresh(disk)
      invariant CopyingSeen(disk.tree, entries, d, excluded, seen)
    {
      var ok;
      ok, entries := VisitDirectory(d, excluded, walk, n, disk, seen, entries);
      if !ok {
        return None;
      }
      seen := seen + Children(d.tree, walk[n]);
      n := n + 1;
    }
    EverythingIsSeen(d, walk, seen);
    StageIsOpen(d, excluded, entries);
    var order := ApplyModes(disk, entries);
    CopyHasSourceModes(d, excluded, entries);
    copy := Some(disk.tree);
  }

  lemma {:induction false} StageAt(d: DirectorySource, excluded: set<Path>, p: Path)
    ensures var t := Stage(d, excluded, ReachedPaths(d.tree));
      && (p in t <==> Copied(d, excluded, p)) && (p in t ==> t[p] == FreshNode(d.tree[p]))
  {
  }

  lemma {:induction false} StageIsUntouched(d: DirectorySource, excluded: set<Path>)
    requires IsSourceTree(d.tree)
    ensures var t := Stage(d, excluded, ReachedPaths(d.tree)); Untouched(t) && ParentsAreDirectories(t)
  {
    var t := Stage(d, excluded, ReachedPaths(d.tree));
    assert OwnerMaySearch(UMASK_MODE);
    forall p | p in t && t[p].Dir? ensures OwnerMaySearch(t[p].mode) { StageAt(d, excluded, p); }
    forall p, q | p in t && q in t && Above(q, p) ensures t[q].Dir? {
      StageAt(d, excluded, p);
      StageAt(d, excluded, q);
      assert p in d.tree && d.tree[q].SourceDir?;
    }
  }

  lemma {:induction false} StageIsOpen(d: DirectorySource, excluded: set<Path>, entries: seq<ModeEntry>)
    requires IsSourceTree(d.tree) && ModesSeen(entries, d, ReachedPaths(d.tree))
    ensures var t := Stage(d, excluded, ReachedPaths(d.tree)); Describe(entries, t) && Untouched(t) && ParentsAreDirectories(t)
  {
    var t := Stage(d, excluded, ReachedPaths(d.tree));
    StageIsUntouched(d, excluded);
    forall i | 0 <= i < |entries| ensures entries[i].path in t && entries[i].isDirectory == t[entries[i].path].Dir? {
      assert IsEntrySeen(entries[i], d, ReachedPaths(d.tree));
      StageAt(d, excluded, entries[i].path);
    }
  }

  lemma {:induction false} CopyHasSourceModes(d: DirectorySource, excluded: set<Path>, entries: seq<ModeEntry>)
    requires ModesSeen(entries, d, ReachedPaths(d.tree))
    ensures WithModes(Stage(d, excluded, ReachedPaths(d.tree)), entries, |entries|) == CopiedTree(d, excluded)
  {
    forall p | p in d.tree && Copied(d, excluded, p)
      ensures HasMode(entries, |entries|, p) <==> d.tree[p].SourceDir?
      ensures HasMode(entries, |entries|, p) ==> ModeFor(entries, |entries|, p) == d.tree[p].mode
    {
      assert forall i :: 0 <= i < |entries| ==> IsEntrySeen(entries[i], d, ReachedPaths(d.tree));
    }
  }

  // ---- The staging tree ---------------------------------------------------------------------------

  predicate LabelChar(c: char) {
    'A' <= c <= 'Z' || 'a' <= c <= 'z' || '0' <= c <= '9' || c == '.' || c == '_' || c == '-'
  }

  predicate IsLabel(name: string) {
    && 1 <= |name| <= 64 && name[0] != '.' && name[0] != '_' && name[0] != '-'
    && forall i :: 0 <= i < |name| ==> LabelChar(name[i])
  }

  function DatabaseName(b: DatabaseSource): string {
    b.name + ".sqlite3"
  }

  function DatabaseNames(databases: seq<DatabaseSource>): seq<string> {
    seq(|databases|, i requires 0 <= i < |databases| => DatabaseName(databases[i]))
  }

  function DirectoryNames(directories: seq<DirectorySource>): seq<string> {
    seq(|directories|, i requires 0 <= i < |directories| => directories[i].name)
  }

  ghost predicate GoodLabels(databases: seq<DatabaseSource>, directories: seq<DirectorySource>) {
    && (forall i :: 0 <= i < |databases| ==> IsLabel(databases[i].name))
    && (forall i :: 0 <= i < |directories| ==> IsLabel(directories[i].name))
    && (forall i, j :: 0 <= i < j < |databases| ==> databases[i].name != databases[j].name)
    && (forall i, j :: 0 <= i < j < |directories| ==> directories[i].name != directories[j].name)
  }

  ghost predicate CopyableUpTo(directories: seq<DirectorySource>, excluded: set<Path>, n: nat)
    requires n <= |directories|
  {
    n == 0 || (CopyableUpTo(directories, excluded, n - 1) && Copyable(directories[n - 1], excluded))
  }

  lemma {:induction false} AllHaveToBeCopyable(directories: seq<DirectorySource>, excluded: set<Path>, i: nat, n: nat)
    requires i < n <= |directories|
    ensures CopyableUpTo(directories, excluded, n) ==> Copyable(directories[i], excluded)
  {
    if i < n - 1 {
      AllHaveToBeCopyable(directories, excluded, i, n - 1);
    }
  }

  /** Everything staging requires of its sources. */
  ghost predicate Stageable(databases: seq<DatabaseSource>, directories: seq<DirectorySource>, c: Codec) {
    && GoodLabels(databases, directories)
    && (databases != [] || directories != [])
    && (forall i :: 0 <= i < |databases| ==> c.quickCheck(databases[i].image))
    && CopyableUpTo(directories, ExcludedFiles(databases, |databases|), |directories|)
  }

  predicate InFrame(p: Path) {
    p == [] || p == PAYLOAD || p == DATABASES || p == DIRECTORIES
  }

  const FRAME: Tree := map[
    [] := Dir(UMASK_MODE), PAYLOAD := Dir(UMASK_MODE),
    DATABASES := Dir(UMASK_MODE), DIRECTORIES := Dir(UMASK_MODE)]

  /** t with u put at head. */
  function Graft(t: Tree, head: Path, u: Tree): Tree {
    t + map p | p in (set q | q in u :: head + q) :: u[p[|head|..]]
  }

  lemma {:induction false} GraftAt(t: Tree, head: Path, u: Tree, p: Path)
    ensures p in Graft(t, head, u) <==> p in t || (head <= p && p[|head|..] in u)
    ensures p in Graft(t, head, u) ==>
              Graft(t, head, u)[p] == if head <= p && p[|head|..] in u then u[p[|head|..]] else t[p]
  {
    if head <= p {
      assert p == head + p[|head|..];
    }
  }

  ghost function WithDatabases(databases: seq<DatabaseSource>, n: nat): Tree
    requires n <= |databases|
  {
    if n == 0 then FRAME
    else WithDatabases(databases, n - 1)[DATABASES + [DatabaseName(databases[n - 1])] := File(databases[n - 1].image, PRIVATE_FILE_MODE)]
  }

  ghost function WithDirectories(t: Tree, directories: seq<DirectorySource>, excluded: set<Path>, n: nat): Tree
    requires n <= |directories|
  {
    if n == 0 then t
    else Graft(WithDirectories(t, directories, excluded, n - 1), DIRECTORIES + [directories[n - 1].name],
               CopiedTree(directories[n - 1], excluded))
  }

  ghost function StagedPayloadOf(databases: seq<DatabaseSource>, directories: seq<DirectorySource>): Tree {
    WithDirectories(WithDatabases(databases, |databases|), directories, ExcludedFiles(databases, |databases|), |directories|)
  }

  function Below(head: Path, names: seq<string>): seq<string> {
    seq(|names|, i requires 0 <= i < |names| => Join(head + [names[i]]))
  }

  ghost function ManifestOf(databases: seq<DatabaseSource>, directories: seq<DirectorySource>, c: Codec): Manifest {
    var s := StagedPayloadOf(databases, directories);
    Manifest(RowsOf(s, c, SortedListing(PayloadPaths(s))),
             Below(DATABASES, DatabaseNames(databases)), Below(DIRECTORIES, DirectoryNames(directories)))
  }

  /** The staging directory just before the archive is written. */
  ghost function StagedSources(databases: seq<DatabaseSource>, directories: seq<DirectorySource>, c: Codec): Tree {
    StagedPayloadOf(databases, directories)
      [MANIFEST := File(c.encode(ManifestOf(databases, directories, c)), PRIVATE_FILE_MODE)]
  }

  method StageDatabases(databases: seq<DatabaseSource>, c: Codec) returns (staging: Option<Tree>)
    ensures staging.Some? <==> forall i :: 0 <= i < |databases| ==> c.quickCheck(databases[i].image)
    ensures staging.Some? ==> staging.value == WithDatabases(databases, |databases|)
  {
    var tree := FRAME;
    for n := 0 to |databases|
      invariant tree == WithDatabases(databases, n)
      invariant forall i :: 0 <= i < n ==> c.quickCheck(databases[i].image)
    {
      if !c.quickCheck(databases[n].image) {
        return None;
      }
      tree := tree[DATABASES + [DatabaseName(databases[n])] := File(databases[n].image, PRIVATE_FILE_MODE)];
    }
    staging := Some(tree);
  }

  method StageDirectory(staging: Tree, d: DirectorySource, excluded: set<Path>, walk: seq<Path>)
    returns (grown: Option<Tree>)
    requires WalkFor(d, walk)
    ensures grown.Some? <==> Copyable(d, excluded)
    ensures grown.Some? ==> grown.value == Graft(staging, DIRECTORIES + [d.name], CopiedTree(d, excluded))
  {
    var copy := CopyDirectory(d, excluded, walk);
    if copy.None? {
      return None;
    }
    grown := Some(Graft(staging, DIRECTORIES + [d.name], copy.value));
  }

  method StageDirectories(start: Tree, directories: seq<DirectorySource>, excluded: set<Path>, walks: seq<seq<Path>>)
    returns (staging: Option<Tree>)
    requires WalksFor(directories, walks)
    ensures staging.Some? <==> CopyableUpTo(directories, excluded, |directories|)
    ensures staging.Some? ==> staging.value == WithDirectories(start, directories, excluded, |directories|)
  {
    var tree := start;
    for n := 0 to |directories|
      invariant tree == WithDirectories(start, directories, excluded, n)
      invariant CopyableUpTo(directories, excluded, n)
    {
      var grown := StageDirectory(tree, directories[n], excluded, walks[n]);
      if grown.None? {
        AllHaveToBeCopyable(directories, excluded, n, |directories|);
        return None;
      }
      tree := grown.value;
    }
    staging := Some(tree);
  }

  ghost predicate WalksFor(directories: seq<DirectorySource>, walks: seq<seq<Path>>) {
    && |walks| == |directories|
    && forall i :: 0 <= i < |directories| ==> WalkFor(directories[i], walks[i])
  }

  method LabelsAreGood(databases: seq<DatabaseSource>, directories: seq<DirectorySource>) returns (good: bool)
    ensures good <==> GoodLabels(databases, directories)
  {
    good := (forall i :: 0 <= i < |databases| ==> IsLabel(databases[i].name))
         && (forall i :: 0 <= i < |directories| ==> IsLabel(directories[i].name))
         && (forall i, j :: 0 <= i < j < |databases| ==> databases[i].name != databases[j].name)
         && (forall i, j :: 0 <= i < j < |directories| ==> directories[i].name != directories[j].name);
  }

  // ---- The staging tree is one a restore can read back ------------------------------------------------

  ghost predicate SourcesOk(databases: seq<DatabaseSource>, directories: seq<DirectorySource>) {
    GoodLabels(databases, directories) && forall i :: 0 <= i < |directories| ==> IsSourceTree(directories[i].tree)
  }

  ghost predicate IsDatabasePath(databases: seq<DatabaseSource>, n: nat, i: int, p: Path)
    requires n <= |databases|
  {
    0 <= i < n && p == DATABASES + [DatabaseName(databases[i])]
  }

  ghost predicate IsDirectoryPath(directories: seq<DirectorySource>, excluded: set<Path>, n: nat, i: int, p: Path)
    requires n <= |directories|
  {
    0 <= i < n && |p| >= 3 && p[..2] == DIRECTORIES && p[2] == directories[i].name && Copied(directories[i], excluded, p[3..])
  }

  lemma {:induction false} DatabasesAt(databases: seq<DatabaseSource>, n: nat, p: Path)
    requires n <= |databases|
    ensures p in WithDatabases(databases, n) <==> InFrame(p) || exists i :: IsDatabasePath(databases, n, i, p)
    ensures InFrame(p) ==> WithDatabases(databases, n)[p] == Dir(UMASK_MODE)
  {
    if n > 0 {
      DatabasesAt(databases, n - 1, p);
      assert IsDatabasePath(databases, n, n - 1, p) <==> p == DATABASES + [DatabaseName(databases[n - 1])];
      var m := n - 1;
      if i :| IsDatabasePath(databases, m, i, p) { assert IsDatabasePath(databases, n, i, p); }
      if i :| IsDatabasePath(databases, n, i, p) && i < n - 1 { assert IsDatabasePath(databases, n - 1, i, p); }
    }
  }

  lemma {:induction false} DatabaseImage(databases: seq<DatabaseSource>, n: nat, i: nat)
    requires i < n <= |databases| && forall j, k :: 0 <= j < k < |databases| ==> databases[j].name != databases[k].name
    ensures var p := DATABASES + [DatabaseName(databases[i])];
            p in WithDatabases(databases, n) && WithDatabases(databases, n)[p] == File(databases[i].image, PRIVATE_FILE_MODE)
  {
    if i < n - 1 {
      DatabaseImage(databases, n - 1, i);
      SuffixIsInjective(databases[i].name, databases[n - 1].name);
      assert (DATABASES + [DatabaseName(databases[i])])[2] != (DATABASES + [DatabaseName(databases[n - 1])])[2];
    }
  }

  lemma {:induction false} SuffixIsInjective(a: string, b: string)
    ensures a + ".sqlite3" == b + ".sqlite3" ==> a == b
  {
    if a + ".sqlite3" == b + ".sqlite3" {
      assert (a + ".sqlite3")[..|a|] == a && (b + ".sqlite3")[..|b|] == b;
    }
  }

  lemma {:induction false} DirectoriesAt(t: Tree, directories: seq<DirectorySource>, excluded: set<Path>, n: nat,
        p: Path)
    requires n <= |directories|
    ensures p in WithDirectories(t, directories, excluded, n) <==>
              p in t || exists i :: IsDirectoryPath(directories, excluded, n, i, p)
  {
    if n > 0 {
      var d := directories[n - 1];
      DirectoriesAt(t, directories, excluded, n - 1, p);
      GraftAt(WithDirectories(t, directories, excluded, n - 1), DIRECTORIES + [d.name], CopiedTree(d, excluded), p);
      DirectoryHead(d.name, p);
      assert IsDirectoryPath(directories, excluded, n, n - 1, p) <==>
               DIRECTORIES + [d.name] <= p && p[3..] in CopiedTree(d, excluded);
      var m := n - 1;
      if i :| IsDirectoryPath(directories, excluded, m, i, p) { assert IsDirectoryPath(directories, excluded, n, i, p); }
      if i :| IsDirectoryPath(directories, excluded, n, i, p) && i < n - 1 { assert IsDirectoryPath(directories, excluded, n - 1, i, p); }
    }
  }

  lemma {:induction false} DirectoryHead(name: string, p: Path)
    ensures DIRECTORIES + [name] <= p <==> |p| >= 3 && p[..2] == DIRECTORIES && p[2] == name
  {
    if |p| >= 3 && p[..2] == DIRECTORIES && p[2] == name {
      assert p[..3] == p[..2] + [p[2]];
    }
  }

  lemma {:induction false} DirectoryNode(t: Tree, directories: seq<DirectorySource>, excluded: set<Path>, n: nat,
        i: nat, p: Path)
    requires i < n <= |directories| && IsDirectoryPath(directories, excluded, n, i, p)
    requires forall j, k :: 0 <= j < k < |directories| ==> directories[j].name != directories[k].name
    ensures p in WithDirectories(t, directories, excluded, n)
    ensures WithDirectories(t, directories, excluded, n)[p] == NodeOf(directories[i].tree[p[3..]])
  {
    var d := directories[n - 1];
    GraftAt(WithDirectories(t, directories, excluded, n - 1), DIRECTORIES + [d.name], CopiedTree(d, excluded), p);
    DirectoryHead(d.name, p);
    if i < n - 1 {
      DirectoryNode(t, directories, excluded, n - 1, i, p);
    }
  }

  lemma {:induction false} OutsideDirectories(t: Tree, directories: seq<DirectorySource>, excluded: set<Path>,
        n: nat, p: Path)
    requires n <= |directories| && p in t && (|p| < 3 || p[..2] != DIRECTORIES)
    ensures p in WithDirectories(t, directories, excluded, n) && WithDirectories(t, directories, excluded, n)[p] == t[p]
  {
    if n > 0 {
      var d := directories[n - 1];
      OutsideDirectories(t, directories, excluded, n - 1, p);
      GraftAt(WithDirectories(t, directories, excluded, n - 1), DIRECTORIES + [d.name], CopiedTree(d, excluded), p);
      DirectoryHead(d.name, p);
    }
  }

  ghost predicate SomeDatabase(databases: seq<DatabaseSource>, p: Path) {
    exists i :: IsDatabasePath(databases, |databases|, i, p)
  }

  ghost predicate SomeCopied(databases: seq<DatabaseSource>, directories: seq<DirectorySource>, p: Path) {
    var excluded := ExcludedFiles(databases, |databases|);
    exists i :: IsDirectoryPath(directories, excluded, |directories|, i, p)
  }

  /** Frame, databases and copied directories, and nothing else. */
  lemma {:induction false} StagedAt(databases: seq<DatabaseSource>, directories: seq<DirectorySource>, p: Path)
    ensures p in StagedPayloadOf(databases, directories) <==>
              InFrame(p) || SomeDatabase(databases, p) || SomeCopied(databases, directories, p)
    ensures InFrame(p) ==> StagedPayloadOf(databases, directories)[p] == Dir(UMASK_MODE)
  {
    var base, excluded := WithDatabases(databases, |databases|), ExcludedFiles(databases, |databases|);
    DatabasesAt(databases, |databases|, p);
    DirectoriesAt(base, directories, excluded, |directories|, p);
    if InFrame(p) {
      OutsideDirectories(base, directories, excluded, |directories|, p);
    }
  }

  lemma {:induction false} StagedDatabase(databases: seq<DatabaseSource>, directories: seq<DirectorySource>, i: nat)
    requires GoodLabels(databases, directories) && i < |databases|
    ensures var p := DATABASES + [DatabaseName(databases[i])];
      && p in StagedPayloadOf(databases, directories)
      && StagedPayloadOf(databases, directories)[p] == File(databases[i].image, PRIVATE_FILE_MODE)
  {
    var base, excluded := WithDatabases(databases, |databases|), ExcludedFiles(databases, |databases|);
    var p := DATABASES + [DatabaseName(databases[i])];
    DatabaseImage(databases, |databases|, i);
    assert p[..2][1] == "sqlite" && DIRECTORIES[1] == "directories";
    OutsideDirectories(base, directories, excluded, |directories|, p);
  }

  lemma {:induction false} NoDatabaseThere(databases: seq<DatabaseSource>, p: Path)
    requires |p| >= 3 && p[..2] == DIRECTORIES
    ensures !InFrame(p) && !SomeDatabase(databases, p)
  {
    forall i ensures !IsDatabasePath(databases, |databases|, i, p) {
      assert p[..2][1] == "directories" && (DATABASES + [""])[1] == "sqlite";
    }
  }

  lemma {:induction false} CopiedThereIff(databases: seq<DatabaseSource>, directories: seq<DirectorySource>,
        i: nat, p: Path)
    requires GoodLabels(databases, directories) && i < |directories|
    requires |p| >= 3 && p[..2] == DIRECTORIES && p[2] == directories[i].name
    ensures SomeCopied(databases, directories, p) <==> Copied(directories[i], ExcludedFiles(databases, |databases|), p[3..])
  {
    var excluded := ExcludedFiles(databases, |databases|);
    forall j | IsDirectoryPath(directories, excluded, |directories|, j, p) ensures i == j {}
    assert Copied(directories[i], excluded, p[3..]) <==> IsDirectoryPath(directories, excluded, |directories|, i, p);
  }

  lemma {:induction false} StagedCopyIff(databases: seq<DatabaseSource>, directories: seq<DirectorySource>, i: nat,
        p: Path)
    requires GoodLabels(databases, directories) && i < |directories|
    requires |p| >= 3 && p[..2] == DIRECTORIES && p[2] == directories[i].name
    ensures p in StagedPayloadOf(databases, directories) <==>
              Copied(directories[i], ExcludedFiles(databases, |databases|), p[3..])
  {
    StagedAt(databases, directories, p);
    NoDatabaseThere(databases, p);
    CopiedThereIff(databases, directories, i, p);
    assert p in StagedPayloadOf(databases, directories) <==> SomeCopied(databases, directories, p);
  }

  lemma {:induction false} StagedCopy(databases: seq<DatabaseSource>, directories: seq<DirectorySource>, i: nat,
        p: Path)
    requires GoodLabels(databases, directories) && i < |directories|
    requires |p| >= 3 && p[..2] == DIRECTORIES && p[2] == directories[i].name
    requires Copied(directories[i], ExcludedFiles(databases, |databases|), p[3..])
    ensures p in StagedPayloadOf(databases, directories)
    ensures StagedPayloadOf(databases, directories)[p] == NodeOf(directories[i].tree[p[3..]])
  {
    DirectoryNode(WithDatabases(databases, |databases|), directories, ExcludedFiles(databases, |databases|), |directories|, i, p);
  }

  // ---- It is a staged tree ---------------------------------------------------------------------------

  lemma {:induction false} CopyHasParents(d: DirectorySource, excluded: set<Path>, q: Path, p: Path)
    requires IsSourceTree(d.tree) && Copied(d, excluded, p) && (Above(q, p) || q == p)
    ensures Copied(d, excluded, q) && (q != p ==> d.tree[q].SourceDir?)
  {
  }

  lemma {:induction false} LabelsAreLegal(name: string)
    requires IsLabel(name)
    ensures LegalPart(name) && LegalPart(name + ".sqlite3")
  {
    assert forall c :: c in name ==> LabelChar(c);
    assert LabelChar('.') && forall c :: c in ".sqlite3" ==> LabelChar(c);
  }

  /** Where an entry below the frame lies. */
  predicate BelowFrame(p: Path) {
    |p| >= 3 && (p[..2] == DATABASES || p[..2] == DIRECTORIES)
  }

  lemma {:induction false} FrameIsClosed(p: Path, q: Path)
    requires (InFrame(p) || BelowFrame(p)) && Above(q, p) && |q| <= 2
    ensures InFrame(q)
  {
    if |p| >= 2 {
      assert q == p[..2][..|q|];
    }
    assert DATABASES[..1] == PAYLOAD && DIRECTORIES[..1] == PAYLOAD;
  }

  lemma {:induction false} StagedIsInOrBelow(databases: seq<DatabaseSource>, directories: seq<DirectorySource>, p: Path)
    requires p in StagedPayloadOf(databases, directories)
    ensures InFrame(p) || BelowFrame(p)
    ensures |p| > 3 ==> SomeCopied(databases, directories, p)
  {
    StagedAt(databases, directories, p);
    if SomeDatabase(databases, p) {
      assert |p| == 3 && p[..2] == DATABASES;
    }
  }

  lemma {:induction false} StagedParents(databases: seq<DatabaseSource>, directories: seq<DirectorySource>,
        p: Path, q: Path)
    requires SourcesOk(databases, directories) && p in StagedPayloadOf(databases, directories) && Above(q, p)
    ensures q in StagedPayloadOf(databases, directories) && StagedPayloadOf(databases, directories)[q].Dir?
  {
    StagedIsInOrBelow(databases, directories, p);
    if |q| <= 2 {
      FrameIsClosed(p, q);
      StagedAt(databases, directories, q);
    } else {
      var excluded := ExcludedFiles(databases, |databases|);
      var i :| IsDirectoryPath(directories, excluded, |directories|, i, p);
      AboveInCopy(q, p);
      CopyHasParents(directories[i], excluded, q[3..], p[3..]);
      StagedCopy(databases, directories, i, q);
    }
  }

  lemma {:induction false} AboveInCopy(q: Path, p: Path)
    requires Above(q, p) && |q| >= 3
    ensures q[2] == p[2] && q[..2] == p[..2] && Above(q[3..], p[3..])
  {
    assert q[3..] == p[3..][..|q| - 3];
  }

  lemma {:induction false} DatabaseNamesAreLegal(b: DatabaseSource)
    requires IsLabel(b.name)
    ensures var p := DATABASES + [DatabaseName(b)]; FileNames(p) && LegalPath(p)
  {
    LabelsAreLegal(b.name);
    assert LegalPart(DATABASES[0]) && LegalPart(DATABASES[1]);
  }

  lemma {:induction false} CopiedNames(d: DirectorySource, excluded: set<Path>, p: Path)
    requires IsSourceTree(d.tree) && IsLabel(d.name)
    requires |p| >= 3 && p[..2] == DIRECTORIES && p[2] == d.name && Copied(d, excluded, p[3..])
    ensures FileNames(p)
    ensures LegalPath(p) <==> p[3..] == [] || LegalPath(p[3..])
  {
    LabelsAreLegal(d.name);
    NamesOfCopy(p, d.tree);
  }

  lemma {:induction false} SomeCopiedNames(databases: seq<DatabaseSource>, directories: seq<DirectorySource>, p: Path)
    requires SourcesOk(databases, directories) && SomeCopied(databases, directories, p)
    ensures FileNames(p)
  {
    var excluded := ExcludedFiles(databases, |databases|);
    var i :| IsDirectoryPath(directories, excluded, |directories|, i, p);
    CopiedNames(directories[i], excluded, p);
  }

  lemma {:induction false} SomeDatabaseNames(databases: seq<DatabaseSource>, p: Path)
    requires (forall i :: 0 <= i < |databases| ==> IsLabel(databases[i].name)) && SomeDatabase(databases, p)
    ensures FileNames(p) && LegalPath(p)
  {
    var i :| IsDatabasePath(databases, |databases|, i, p);
    DatabaseNamesAreLegal(databases[i]);
  }

  lemma {:induction false} FrameNames(p: Path)
    requires InFrame(p)
    ensures FileNames(p) && (p == [] || LegalPath(p))
  {
    assert LegalPart("payload") && LegalPart("sqlite") && LegalPart("directories");
  }

  lemma {:induction false} StagedNames(databases: seq<DatabaseSource>, directories: seq<DirectorySource>, p: Path)
    requires SourcesOk(databases, directories) && p in StagedPayloadOf(databases, directories)
    ensures FileNames(p)
  {
    StagedAt(databases, directories, p);
    if SomeDatabase(databases, p) {
      SomeDatabaseNames(databases, p);
    } else if SomeCopied(databases, directories, p) {
      SomeCopiedNames(databases, directories, p);
    } else {
      FrameNames(p);
    }
  }

  lemma {:induction false} NamesOfCopy(p: Path, t: SourceTree)
    requires |p| >= 3 && p[..2] == DIRECTORIES && LegalPart(p[2]) && IsSourceTree(t) && p[3..] in t
    ensures FileNames(p)
    ensures LegalPath(p) <==> p[3..] == [] || LegalPath(p[3..])
  {
    var q := p[3..];
    assert FileNames(q);
    assert p[0] == p[..2][0] && p[1] == p[..2][1];
    assert LegalPart(p[0]) && LegalPart(p[1]);
    assert forall k :: 3 <= k < |p| ==> p[k] == q[k - 3];
    assert forall k :: 0 <= k < |q| ==> q[k] == p[k + 3];
  }

  lemma {:induction false} RowsAgree(s: Tree, t: Tree, c: Codec, listing: seq<Path>)
    requires forall p :: p in listing ==> p in s && p in t && s[p] == t[p]
    ensures RowsOf(s, c, listing) == RowsOf(t, c, listing)
  {
    if listing != [] {
      RowsAgree(s, t, c, listing[..|listing| - 1]);
    }
  }

  lemma {:induction false} StagedTop(databases: seq<DatabaseSource>, directories: seq<DirectorySource>, p: Path)
    requires |p| == 1
    ensures p in StagedPayloadOf(databases, directories) <==> p == PAYLOAD
  {
    StagedAt(databases, directories, p);
  }

  lemma {:induction false} StagedPayloadIsATree(databases: seq<DatabaseSource>, directories: seq<DirectorySource>)
    requires SourcesOk(databases, directories)
    ensures FileSystemTree(StagedPayloadOf(databases, directories)) && NothingBelow(StagedPayloadOf(databases, directories), MANIFEST)
  {
    StagedAt(databases, directories, []);
    forall p | p in StagedPayloadOf(databases, directories) ensures FileNames(p) {
      StagedNames(databases, directories, p);
    }
    forall p, q | p in StagedPayloadOf(databases, directories) && Above(q, p)
      ensures q in StagedPayloadOf(databases, directories) && StagedPayloadOf(databases, directories)[q].Dir? && q != MANIFEST
    {
      StagedParents(databases, directories, p, q);
      if q == MANIFEST {
        StagedTop(databases, directories, q);
      }
    }
  }

  ghost predicate NothingBelow(t: Tree, p: Path) {
    forall q :: q in t ==> !Above(p, q)
  }

  lemma {:induction false} ManifestFits(s: Tree, manifest: Node)
    requires FileSystemTree(s) && NothingBelow(s, MANIFEST)
    ensures FileSystemTree(s[MANIFEST := manifest])
  {
    assert FileName("manifest.json");
  }

  lemma {:induction false} StagedSourcesAreATree(databases: seq<DatabaseSource>, directories: seq<DirectorySource>,
        c: Codec)
    requires SourcesOk(databases, directories)
    ensures FileSystemTree(StagedSources(databases, directories, c))
  {
    StagedPayloadIsATree(databases, directories);
    ManifestFits(StagedPayloadOf(databases, directories), StagedSources(databases, directories, c)[MANIFEST]);
  }

  lemma {:induction false} StagedManifest(databases: seq<DatabaseSource>, directories: seq<DirectorySource>, c: Codec)
    ensures var t := StagedSources(databases, directories, c);
      ManifestOf(databases, directories, c).files == RowsOf(t, c, SortedListing(PayloadPaths(t)))
  {
    var s, t := StagedPayloadOf(databases, directories), StagedSources(databases, directories, c);
    assert PayloadPaths(s) == PayloadPaths(t);
    RowsAgree(s, t, c, SortedListing(PayloadPaths(s)));
  }

  lemma {:induction false} TopOfTree(s: Tree, t: Tree, manifest: Node)
    requires t == s[MANIFEST := manifest]
    requires forall p :: p in s && |p| == 1 ==> p == PAYLOAD
    requires PAYLOAD in s
    ensures (set p | p in t && |p| == 1) == {MANIFEST, PAYLOAD}
  {
  }

  lemma {:induction false} StagingTop(databases: seq<DatabaseSource>, directories: seq<DirectorySource>, c: Codec)
    ensures var t := StagedSources(databases, directories, c);
      && (set p | p in t && |p| == 1) == {MANIFEST, PAYLOAD}
      && t[MANIFEST].File? && t[PAYLOAD].Dir?
  {
    var s, t := StagedPayloadOf(databases, directories), StagedSources(databases, directories, c);
    forall p | p in s && |p| == 1 ensures p == PAYLOAD {
      StagedTop(databases, directories, p);
    }
    StagedAt(databases, directories, PAYLOAD);
    TopOfTree(s, t, t[MANIFEST]);
    assert PAYLOAD[0] == "payload" && MANIFEST[0] == "manifest.json";
  }

  lemma {:induction false} StagingNames(databases: seq<DatabaseSource>, directories: seq<DirectorySource>)
    requires GoodLabels(databases, directories)
    ensures NamesBelow(DATABASES, Below(DATABASES, DatabaseNames(databases)), DatabaseNames(databases))
    ensures NamesBelow(DIRECTORIES, Below(DIRECTORIES, DirectoryNames(directories)), DirectoryNames(directories))
  {
    forall i, j | 0 <= i < j < |databases| ensures DatabaseNames(databases)[i] != DatabaseNames(databases)[j] {
      SuffixIsInjective(databases[i].name, databases[j].name);
    }
  }

  lemma {:induction false} StagedDatabaseIs(databases: seq<DatabaseSource>, directories: seq<DirectorySource>,
        c: Codec, n: string)
    requires SourcesOk(databases, directories) && Stageable(databases, directories, c) && n in DatabaseNames(databases)
    ensures DatabaseStaged(StagedSources(databases, directories, c), c, n)
  {
    var i :| 0 <= i < |databases| && n == DatabaseName(databases[i]);
    StagedDatabase(databases, directories, i);
  }

  lemma {:induction false} StagedRootIs(databases: seq<DatabaseSource>, directories: seq<DirectorySource>,
        c: Codec, n: string)
    requires SourcesOk(databases, directories) && n in DirectoryNames(directories)
    ensures RootStaged(StagedSources(databases, directories, c), n)
  {
    var i :| 0 <= i < |directories| && n == directories[i].name;
    StagedRoot(databases, directories, i);
  }

  /** What create_backup stages is what the archive's round trip is about. */
  lemma {:induction false} SourcesAreStaged(databases: seq<DatabaseSource>, directories: seq<DirectorySource>, c: Codec)
    requires SourcesOk(databases, directories) && Stageable(databases, directories, c)
    ensures Staged(StagedSources(databases, directories, c), ManifestOf(databases, directories, c), c,
                   DatabaseNames(databases), DirectoryNames(directories))
  {
    var t := StagedSources(databases, directories, c);
    StagedSourcesAreATree(databases, directories, c);
    StagedManifest(databases, directories, c);
    StagingTop(databases, directories, c);
    StagingNames(databases, directories);
    forall n | n in DatabaseNames(databases) ensures DatabaseStaged(t, c, n) {
      StagedDatabaseIs(databases, directories, c, n);
    }
    forall n | n in DirectoryNames(directories) ensures RootStaged(t, n) {
      StagedRootIs(databases, directories, c, n);
    }
  }

  lemma {:induction false} StagedRoot(databases: seq<DatabaseSource>, directories: seq<DirectorySource>, i: nat)
    requires GoodLabels(databases, directories) && i < |directories| && IsSourceTree(directories[i].tree)
    ensures var p := DIRECTORIES + [directories[i].name];
            p in StagedPayloadOf(databases, directories) && StagedPayloadOf(databases, directories)[p].Dir?
  {
    var p := DIRECTORIES + [directories[i].name];
    assert p[..2] == DIRECTORIES && p[3..] == [];
    StagedCopy(databases, directories, i, p);
  }

  // ---- The round trip --------------------------------------------------------------------------------

  /** No name that is copied contains a backslash. */
  ghost predicate LegalNames(databases: seq<DatabaseSource>, directories: seq<DirectorySource>) {
    forall i, q :: 0 <= i < |directories| && Copied(directories[i], ExcludedFiles(databases, |databases|), q) ==>
      q == [] || LegalPath(q)
  }

  lemma {:induction false} CopyIsLegalIff(databases: seq<DatabaseSource>, directories: seq<DirectorySource>,
        i: nat, q: Path)
    requires SourcesOk(databases, directories) && i < |directories|
    requires Copied(directories[i], ExcludedFiles(databases, |databases|), q)
    ensures var p := DIRECTORIES + [directories[i].name] + q;
      p in StagedPayloadOf(databases, directories) && (LegalPath(p) <==> q == [] || LegalPath(q))
  {
    var p := DIRECTORIES + [directories[i].name] + q;
    assert p[..2] == DIRECTORIES && p[3..] == q;
    StagedCopy(databases, directories, i, p);
    CopiedNames(directories[i], ExcludedFiles(databases, |databases|), p);
  }

  lemma {:induction false} StagedIsLegal(databases: seq<DatabaseSource>, directories: seq<DirectorySource>, p: Path)
    requires SourcesOk(databases, directories) && LegalNames(databases, directories)
    requires p in StagedPayloadOf(databases, directories) && p != []
    ensures LegalPath(p)
  {
    StagedAt(databases, directories, p);
    if SomeDatabase(databases, p) {
      SomeDatabaseNames(databases, p);
    } else if SomeCopied(databases, directories, p) {
      var excluded := ExcludedFiles(databases, |databases|);
      var i :| IsDirectoryPath(directories, excluded, |directories|, i, p);
      CopiedNames(directories[i], excluded, p);
    } else {
      FrameNames(p);
    }
  }

  lemma {:induction false} StagingIsLegal(databases: seq<DatabaseSource>, directories: seq<DirectorySource>, c: Codec)
    requires SourcesOk(databases, directories) && LegalNames(databases, directories)
    ensures AllLegal(StagedSources(databases, directories, c))
  {
    assert LegalPart("manifest.json");
    forall p | p in StagedPayloadOf(databases, directories) && p != [] ensures LegalPath(p) {
      StagedIsLegal(databases, directories, p);
    }
  }

  lemma {:induction false} StagingIsIllegal(databases: seq<DatabaseSource>, directories: seq<DirectorySource>, c: Codec)
    requires SourcesOk(databases, directories) && !LegalNames(databases, directories)
    ensures !AllLegal(StagedSources(databases, directories, c))
  {
    var i, q :| 0 <= i < |directories| && Copied(directories[i], ExcludedFiles(databases, |databases|), q)
                && q != [] && !LegalPath(q);
    CopyIsLegalIff(databases, directories, i, q);
  }

  lemma {:induction false} StagingIsLegalIff(databases: seq<DatabaseSource>, directories: seq<DirectorySource>,
        c: Codec)
    requires SourcesOk(databases, directories)
    ensures AllLegal(StagedSources(databases, directories, c)) <==> LegalNames(databases, directories)
  {
    if LegalNames(databases, directories) {
      StagingIsLegal(databases, directories, c);
    } else {
      StagingIsIllegal(databases, directories, c);
    }
  }

  /** Path q of a source, in the restored tree u: there if it was copied, and then the same. */
  ghost predicate RestoresCopy(u: Tree, d: DirectorySource, excluded: set<Path>, q: Path) {
    var p := ["directories", d.name] + q;
    && (p in u <==> Copied(d, excluded, q))
    && (p in u ==> u[p] == WithMode(NodeOf(d.tree[q]), PermissionBits(NodeOf(d.tree[q]).mode)))
  }

  ghost predicate RestoresDatabase(u: Tree, b: DatabaseSource) {
    var p := ["sqlite", DatabaseName(b)];
    p in u && u[p] == File(b.image, PRIVATE_FILE_MODE)
  }

  ghost predicate Accounted(databases: seq<DatabaseSource>, directories: seq<DirectorySource>, p: Path) {
    || p == [] || p == ["sqlite"] || p == ["directories"]
    || (exists i :: 0 <= i < |databases| && p == ["sqlite", DatabaseName(databases[i])])
    || (exists i :: 0 <= i < |directories| && ["directories", directories[i].name] <= p)
  }

  /** The restored tree holds every source as it was, the excluded files apart, and nothing more. */
  ghost predicate RestoresCopies(u: Tree, databases: seq<DatabaseSource>, directories: seq<DirectorySource>) {
    && (forall i, q :: 0 <= i < |directories| ==> RestoresCopy(u, directories[i], ExcludedFiles(databases, |databases|), q))
    && (forall i :: 0 <= i < |databases| ==> RestoresDatabase(u, databases[i]))
    && (forall p :: p in u ==> Accounted(databases, directories, p))
  }

  /** The restored tree u, looked up in the staged payload s at path p. */
  ghost predicate AgreesAt(u: Tree, s: Tree, p: Path) {
    && (p in u <==> PAYLOAD + p in s)
    && (p in u && p != [] ==> u[p] == WithMode(s[PAYLOAD + p], PermissionBits(s[PAYLOAD + p].mode)))
  }

  lemma {:induction false} ExpectedAgrees(databases: seq<DatabaseSource>, directories: seq<DirectorySource>,
        c: Codec, p: Path)
    ensures AgreesAt(ExpectedTarget(StagedSources(databases, directories, c)), StagedPayloadOf(databases, directories), p)
  {
    assert (PAYLOAD + p)[0] == "payload" && MANIFEST[0] == "manifest.json";
  }

  lemma {:induction false} StagedEntry(databases: seq<DatabaseSource>, directories: seq<DirectorySource>, i: nat,
        q: Path, p: Path)
    requires SourcesOk(databases, directories) && i < |directories|
    requires p == PAYLOAD + (["directories", directories[i].name] + q)
    ensures p in StagedPayloadOf(databases, directories) <==> Copied(directories[i], ExcludedFiles(databases, |databases|), q)
    ensures p in StagedPayloadOf(databases, directories) ==>
              StagedPayloadOf(databases, directories)[p] == NodeOf(directories[i].tree[q])
  {
    assert p[..2] == DIRECTORIES && p[3..] == q;
    StagedCopyIff(databases, directories, i, p);
    if Copied(directories[i], ExcludedFiles(databases, |databases|), q) {
      StagedCopy(databases, directories, i, p);
    }
  }

  lemma {:induction false} EntryIsRestored(databases: seq<DatabaseSource>, directories: seq<DirectorySource>,
        u: Tree, i: nat, q: Path)
    requires SourcesOk(databases, directories) && i < |directories|
    requires AgreesAt(u, StagedPayloadOf(databases, directories), ["directories", directories[i].name] + q)
    ensures RestoresCopy(u, directories[i], ExcludedFiles(databases, |databases|), q)
  {
    StagedEntry(databases, directories, i, q, PAYLOAD + (["directories", directories[i].name] + q));
  }

  lemma {:induction false} StagedDatabaseEntry(databases: seq<DatabaseSource>, directories: seq<DirectorySource>,
        i: nat, p: Path)
    requires SourcesOk(databases, directories) && i < |databases|
    requires p == PAYLOAD + ["sqlite", DatabaseName(databases[i])]
    ensures p in StagedPayloadOf(databases, directories)
    ensures StagedPayloadOf(databases, directories)[p] == File(databases[i].image, PRIVATE_FILE_MODE)
  {
    StagedDatabase(databases, directories, i);
    assert p == DATABASES + [DatabaseName(databases[i])];
  }

  lemma {:induction false} RestoredAsStaged(u: Tree, s: Tree, b: DatabaseSource)
    requires AgreesAt(u, s, ["sqlite", DatabaseName(b)])
    requires var p := PAYLOAD + ["sqlite", DatabaseName(b)]; p in s && s[p] == File(b.image, PRIVATE_FILE_MODE)
    ensures RestoresDatabase(u, b)
  {
    assert PermissionBits(PRIVATE_FILE_MODE) == PRIVATE_FILE_MODE;
  }

  lemma {:induction false} DatabaseIsRestored(databases: seq<DatabaseSource>, directories: seq<DirectorySource>,
        u: Tree, i: nat)
    requires SourcesOk(databases, directories) && i < |databases|
    requires AgreesAt(u, StagedPayloadOf(databases, directories), ["sqlite", DatabaseName(databases[i])])
    ensures RestoresDatabase(u, databases[i])
  {
    StagedDatabaseEntry(databases, directories, i, PAYLOAD + ["sqlite", DatabaseName(databases[i])]);
    RestoredAsStaged(u, StagedPayloadOf(databases, directories), databases[i]);
  }

  lemma {:induction false} RestoredIsAccounted(databases: seq<DatabaseSource>, directories: seq<DirectorySource>,
        u: Tree, p: Path)
    requires p in u && AgreesAt(u, StagedPayloadOf(databases, directories), p)
    ensures Accounted(databases, directories, p)
  {
    StagedAt(databases, directories, PAYLOAD + p);
    StagedIsAccounted(databases, directories, p);
  }

  lemma {:induction false} StagedIsAccounted(databases: seq<DatabaseSource>, directories: seq<DirectorySource>, p: Path)
    requires InFrame(PAYLOAD + p) || SomeDatabase(databases, PAYLOAD + p) || SomeCopied(databases, directories, PAYLOAD + p)
    ensures Accounted(databases, directories, p)
  {
    var full := PAYLOAD + p;
    assert full[1..] == p;
    if SomeDatabase(databases, full) {
      var i :| IsDatabasePath(databases, |databases|, i, full);
      assert (DATABASES + [DatabaseName(databases[i])])[1..] == ["sqlite", DatabaseName(databases[i])];
    } else if SomeCopied(databases, directories, full) {
      var excluded := ExcludedFiles(databases, |databases|);
      var i :| IsDirectoryPath(directories, excluded, |directories|, i, full);
      assert p[0] == full[..2][1] && p[1] == full[2];
      assert p[..2] == ["directories", directories[i].name];
    }
  }

  /**
    A staged tree, archived, can be restored exactly when none of the names copied has a backslash,
    the archive is within the limits and the manifest is not too long; the restored tree is then
    every source as it was.
   */
  lemma {:induction false} StagedRoundTrip(databases: seq<DatabaseSource>, directories: seq<DirectorySource>,
        c: Codec, limits: Limits)
    requires Stageable(databases, directories, c) && SourcesOk(databases, directories) && Lawful(c)
    requires limits.maxBytes > 0 && limits.maxMembers > 0
    ensures var s := StagedSources(databases, directories, c);
      && (Restorable(ArchiveOf(s), limits, c) <==>
            && LegalNames(databases, directories) && WithinLimits(s, limits)
            && |c.encode(ManifestOf(databases, directories, c))| <= MAX_MANIFEST_BYTES)
      && (LegalNames(databases, directories) ==> RestoresCopies(RestoredTree(ArchiveOf(s)), databases, directories))
  {
    var s := StagedSources(databases, directories, c);
    SourcesAreStaged(databases, directories, c);
    ArchiveRoundTrip(s, ManifestOf(databases, directories, c), c, DatabaseNames(databases), DirectoryNames(directories), limits);
    StagingIsLegalIff(databases, directories, c);
    ExpectedRestoresCopies(databases, directories, c);
  }

  lemma {:induction false} ExpectedRestoresCopies(databases: seq<DatabaseSource>,
        directories: seq<DirectorySource>, c: Codec)
    requires SourcesOk(databases, directories)
    ensures RestoresCopies(ExpectedTarget(StagedSources(databases, directories, c)), databases, directories)
  {
    var u := ExpectedTarget(StagedSources(databases, directories, c));
    forall i, q | 0 <= i < |directories|
      ensures RestoresCopy(u, directories[i], ExcludedFiles(databases, |databases|), q)
    {
      ExpectedAgrees(databases, directories, c, ["directories", directories[i].name] + q);
      EntryIsRestored(databases, directories, u, i, q);
    }
    forall i | 0 <= i < |databases| ensures RestoresDatabase(u, databases[i]) {
      ExpectedAgrees(databases, directories, c, ["sqlite", DatabaseName(databases[i])]);
      DatabaseIsRestored(databases, directories, u, i);
    }
    forall p | p in u ensures Accounted(databases, directories, p) {
      ExpectedAgrees(databases, directories, c, p);
      RestoredIsAccounted(databases, directories, u, p);
    }
  }
}
