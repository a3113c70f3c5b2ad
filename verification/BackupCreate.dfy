/**
  Creating a backup, and the round trip from the sources to the restored target. Entries are lost
  without an error in two places: the walk over the sources passes over directories it may not list,
  and so does the search that reads the staged copy back, which has the modes of the sources.
 */
module BackupCreate {
  import opened Prelude
  import opened BackupPaths
  import opened BackupDisk
  import opened BackupManifest
  import opened BackupPermissions
  import opened Extraction
  import opened BackupRestore
  import opened BackupArchive
  import opened BackupStaging

  datatype CreateError = BadLabel | NoSource | DamagedDatabase | NotCopyable | NotReadable

  predicate OwnerMayRead(mode: nat) {
    mode / 256 % 2 == 1
  }

  predicate MayRead(mode: nat, asRoot: bool) {
    asRoot || OwnerMayRead(mode)
  }

  predicate MaySearch(mode: nat, asRoot: bool) {
    asRoot || OwnerMaySearch(mode)
  }

  // ---- What rglob finds in a tree ----------------------------------------------------------------------

  /** rglob passes over a directory that may not be listed, without an error. */
  predicate IsFound(s: Tree, asRoot: bool, p: Path) {
    p in s && forall q :: q in Ancestors(p) ==> q in s && MayRead(s[q].mode, asRoot)
  }

  function Found(s: Tree, asRoot: bool): Tree {
    map p | p in s && IsFound(s, asRoot, p) :: s[p]
  }

  /** What is found can be looked at, and files can be read; anything else raises. */
  predicate CanOpen(s: Tree, asRoot: bool, p: Path)
    requires p in s
  {
    && (s[p].File? ==> MayRead(s[p].mode, asRoot))
    && forall q :: q in Ancestors(p) && q in s ==> MaySearch(s[q].mode, asRoot)
  }

  predicate CanOpenAll(s: Tree, asRoot: bool) {
    forall p :: p in s && IsFound(s, asRoot, p) ==> CanOpen(s, asRoot, p)
  }

  // ---- The same, of the sources ------------------------------------------------------------------------

  predicate IsListed(t: SourceTree, asRoot: bool, p: Path) {
    p in t && forall q :: q in Ancestors(p) ==> q in t && t[q].SourceDir? && MayRead(t[q].mode, asRoot)
  }

  /** A source as far as its copy is found again. */
  function Listed(d: DirectorySource, asRoot: bool): DirectorySource {
    d.(tree := map p | p in d.tree && IsListed(d.tree, asRoot, p) :: d.tree[p])
  }

  function AllListed(directories: seq<DirectorySource>, asRoot: bool): (listed: seq<DirectorySource>)
    ensures |listed| == |directories|
    ensures forall i :: 0 <= i < |directories| ==> listed[i] == Listed(directories[i], asRoot)
  {
    seq(|directories|, i requires 0 <= i < |directories| => Listed(directories[i], asRoot))
  }

  ghost predicate Opens(t: SourceTree, asRoot: bool, p: Path)
    requires p in t
  {
    && (t[p].SourceFile? ==> MayRead(t[p].mode, asRoot))
    && forall q :: Above(q, p) && q in t && t[q].SourceDir? ==> MaySearch(t[q].mode, asRoot)
  }

  /** Whatever is copied and found again can be opened. */
  ghost predicate ReadsBack(databases: seq<DatabaseSource>, directories: seq<DirectorySource>, asRoot: bool) {
    forall i, q :: 0 <= i < |directories| && Copied(directories[i], ExcludedFiles(databases, |databases|), q) ==>
      IsListed(directories[i].tree, asRoot, q) ==> Opens(directories[i].tree, asRoot, q)
  }

  lemma {:induction false} ListedIff(d: DirectorySource, asRoot: bool, p: Path)
    ensures Reached(Listed(d, asRoot).tree, p) <==> Reached(d.tree, p) && IsListed(d.tree, asRoot, p)
  {
    if IsListed(d.tree, asRoot, p) {
      forall q | q in Ancestors(p) && q in d.tree ensures IsListed(d.tree, asRoot, q) {
        forall r | r in Ancestors(q) ensures r in Ancestors(p) { AboveIsTransitive(r, q, p); }
      }
    }
  }

  lemma {:induction false} ListedIsATree(d: DirectorySource, asRoot: bool)
    requires IsSourceTree(d.tree)
    ensures IsSourceTree(Listed(d, asRoot).tree)
  {
    var t := Listed(d, asRoot).tree;
    assert IsListed(d.tree, asRoot, []);
    forall p, q | p in t && Above(q, p) ensures q in t && t[q].SourceDir? {
      assert q in Ancestors(p);
      forall r | r in Ancestors(q) ensures r in Ancestors(p) { AboveIsTransitive(r, q, p); }
    }
  }

  lemma {:induction false} ListedIsCopyable(d: DirectorySource, excluded: set<Path>, asRoot: bool)
    requires IsSourceTree(d.tree) && Copyable(d, excluded)
    ensures Copyable(Listed(d, asRoot), excluded)
  {
    var t := Listed(d, asRoot);
    ListedIsATree(d, asRoot);
    forall p | p in ReachedPaths(t.tree) ensures CanCopy(t, excluded, p) {
      ListedIff(d, asRoot, p);
      assert p in ReachedPaths(d.tree) && CanCopy(d, excluded, p);
      if p != [] { assert Above(p[..|p| - 1], p); }
    }
  }

  lemma {:induction false} ListedAreCopyable(directories: seq<DirectorySource>, excluded: set<Path>, asRoot: bool, n: nat)
    requires n <= |directories| && CopyableUpTo(directories, excluded, n)
    requires forall i :: 0 <= i < |directories| ==> IsSourceTree(directories[i].tree)
    ensures CopyableUpTo(AllListed(directories, asRoot), excluded, n)
  {
    if n > 0 {
      ListedAreCopyable(directories, excluded, asRoot, n - 1);
      ListedIsCopyable(directories[n - 1], excluded, asRoot);
    }
  }

  lemma {:induction false} ListedIsStageable(databases: seq<DatabaseSource>, directories: seq<DirectorySource>,
        c: Codec, asRoot: bool)
    requires SourcesOk(databases, directories) && Stageable(databases, directories, c)
    ensures SourcesOk(databases, AllListed(directories, asRoot)) && Stageable(databases, AllListed(directories, asRoot), c)
  {
    var listed := AllListed(directories, asRoot);
    ListedAreCopyable(directories, ExcludedFiles(databases, |databases|), asRoot, |directories|);
    forall i | 0 <= i < |listed| ensures IsSourceTree(listed[i].tree) { ListedIsATree(directories[i], asRoot); }
  }

  lemma {:induction false} CopiedIfListed(d: DirectorySource, excluded: set<Path>, asRoot: bool, q: Path)
    ensures Copied(Listed(d, asRoot), excluded, q) <==> Copied(d, excluded, q) && IsListed(d.tree, asRoot, q)
  {
    ListedIff(d, asRoot, q);
  }

  // ---- The copy is found as its source says --------------------------------------------------------------

  lemma {:induction false} FrameIsStaged(databases: seq<DatabaseSource>, directories: seq<DirectorySource>, q: Path)
    requires InFrame(q)
    ensures q in StagedPayloadOf(databases, directories) && StagedPayloadOf(databases, directories)[q] == Dir(UMASK_MODE)
  {
    StagedAt(databases, directories, q);
  }

  lemma {:induction false} FoundBelowFrame(s: Tree, asRoot: bool, p: Path)
    requires p in s && forall q :: q in Ancestors(p) ==> q in s && s[q] == Dir(UMASK_MODE)
    ensures IsFound(s, asRoot, p)
  {
    assert OwnerMayRead(UMASK_MODE);
  }

  lemma {:induction false} FrameIsFound(databases: seq<DatabaseSource>, directories: seq<DirectorySource>,
        asRoot: bool, p: Path)
    requires GoodLabels(databases, directories) && (InFrame(p) || SomeDatabase(databases, p))
    ensures IsFound(StagedPayloadOf(databases, directories), asRoot, p)
  {
    var s := StagedPayloadOf(databases, directories);
    StagedAt(databases, directories, p);
    forall q | q in Ancestors(p) ensures q in s && s[q] == Dir(UMASK_MODE) {
      AboveIsInFrame(databases, q, p);
      FrameIsStaged(databases, directories, q);
    }
    FoundBelowFrame(s, asRoot, p);
  }

  lemma {:induction false} AboveIsInFrame(databases: seq<DatabaseSource>, q: Path, p: Path)
    requires Above(q, p) && (InFrame(p) || SomeDatabase(databases, p))
    ensures InFrame(q)
  {
    if SomeDatabase(databases, p) {
      var i :| IsDatabasePath(databases, |databases|, i, p);
      assert p[..2] == DATABASES;
    }
    assert q == p[..|q|];
    if |q| == 1 { assert q == [p[0]]; }
  }

  /** The paths above the copy of q in a source: the frame, and the copies of what is above q. */
  lemma {:induction false} AboveACopy(head: Path, q: Path, a: Path)
    requires |head| == 3 && head[..2] == DIRECTORIES && Above(a, head + q)
    ensures InFrame(a) || (|a| >= 3 && a == head + a[3..] && Above(a[3..], q))
  {
    var p := head + q;
    assert a == p[..|a|];
    if |a| >= 3 {
      assert a[..3] == head && a[3..] == q[..|a| - 3];
    } else {
      assert a == head[..|a|];
      if |a| == 1 { assert a == [head[..2][0]]; }
    }
  }

  lemma {:induction false} CopyIsStaged(databases: seq<DatabaseSource>, directories: seq<DirectorySource>, i: nat,
        q: Path)
    requires GoodLabels(databases, directories) && i < |directories|
    requires Copied(directories[i], ExcludedFiles(databases, |databases|), q)
    ensures var s, p := StagedPayloadOf(databases, directories), DIRECTORIES + [directories[i].name] + q;
            p in s && s[p] == NodeOf(directories[i].tree[q])
  {
    var p := DIRECTORIES + [directories[i].name] + q;
    assert p[..2] == DIRECTORIES && p[3..] == q;
    StagedCopy(databases, directories, i, p);
  }

  lemma {:induction false} AboveBelowHead(head: Path, a: Path, q: Path)
    requires Above(a, q)
    ensures Above(head + a, head + q)
  {
    assert (head + q)[..|head + a|] == head + q[..|a|];
  }

  /** How the copy s of t below head looks at q and above it. */
  ghost predicate CopyAbove(s: Tree, t: SourceTree, head: Path, q: Path) {
    && q in t && head + q in s && (t[q].SourceDir? || t[q].SourceFile?) && s[head + q] == NodeOf(t[q])
    && (forall a :: Above(a, q) ==> DirectoryCopied(s, t, head, q, a))
    && (forall a :: Above(a, head + q) ==> FrameOrCopy(s, head, q, a))
  }

  ghost predicate DirectoryCopied(s: Tree, t: SourceTree, head: Path, q: Path, a: Path) {
    Above(head + a, head + q) && a in t && t[a].SourceDir? && head + a in s && s[head + a] == NodeOf(t[a])
  }

  ghost predicate FrameOrCopy(s: Tree, head: Path, q: Path, a: Path) {
    (a in s && s[a] == Dir(UMASK_MODE)) || (|a| >= 3 && Above(a[3..], q) && a == head + a[3..])
  }

  lemma {:induction false} CopyAboveHolds(databases: seq<DatabaseSource>, directories: seq<DirectorySource>, i: nat,
        q: Path)
    requires SourcesOk(databases, directories) && i < |directories|
    requires Copied(directories[i], ExcludedFiles(databases, |databases|), q)
    ensures CopyAbove(StagedPayloadOf(databases, directories), directories[i].tree, DIRECTORIES + [directories[i].name], q)
  {
    var s, d, head := StagedPayloadOf(databases, directories), directories[i], DIRECTORIES + [directories[i].name];
    CopyIsStaged(databases, directories, i, q);
    forall a | Above(a, q) ensures DirectoryCopied(s, d.tree, head, q, a) {
      CopyHasParents(d, ExcludedFiles(databases, |databases|), a, q);
      CopyIsStaged(databases, directories, i, a);
      AboveBelowHead(head, a, q);
    }
    forall a | Above(a, head + q) ensures FrameOrCopy(s, head, q, a) {
      assert head[..2] == DIRECTORIES;
      AboveACopy(head, q, a);
      if InFrame(a) { FrameIsStaged(databases, directories, a); }
    }
  }

  lemma {:induction false} CopyIsFoundIff(databases: seq<DatabaseSource>, directories: seq<DirectorySource>,
        asRoot: bool, i: nat, q: Path)
    requires SourcesOk(databases, directories) && i < |directories|
    requires Copied(directories[i], ExcludedFiles(databases, |databases|), q)
    ensures var s, p := StagedPayloadOf(databases, directories), DIRECTORIES + [directories[i].name] + q;
      && p in s && s[p] == NodeOf(directories[i].tree[q])
      && (IsFound(s, asRoot, p) <==> IsListed(directories[i].tree, asRoot, q))
      && (CanOpen(s, asRoot, p) <==> Opens(directories[i].tree, asRoot, q))
  {
    var s, t, head := StagedPayloadOf(databases, directories), directories[i].tree, DIRECTORIES + [directories[i].name];
    CopyAboveHolds(databases, directories, i, q);
    assert |head| == 3;
    FoundIff(s, t, head, asRoot, q);
    OpensIff(s, t, head, asRoot, q);
  }

  lemma {:induction false} FoundIff(s: Tree, t: SourceTree, head: Path, asRoot: bool, q: Path)
    requires CopyAbove(s, t, head, q)
    ensures IsFound(s, asRoot, head + q) <==> IsListed(t, asRoot, q)
  {
    assert OwnerMayRead(UMASK_MODE);
    if IsFound(s, asRoot, head + q) {
      forall a | Above(a, q) ensures a in t && t[a].SourceDir? && MayRead(t[a].mode, asRoot) {
        assert DirectoryCopied(s, t, head, q, a) && head + a in Ancestors(head + q);
      }
    }
    if IsListed(t, asRoot, q) {
      forall a | Above(a, head + q) ensures a in s && MayRead(s[a].mode, asRoot) {
        assert FrameOrCopy(s, head, q, a);
        if |a| >= 3 && Above(a[3..], q) && a == head + a[3..] {
          assert DirectoryCopied(s, t, head, q, a[3..]) && a[3..] in Ancestors(q);
        }
      }
    }
  }

  lemma {:induction false} OpensIff(s: Tree, t: SourceTree, head: Path, asRoot: bool, q: Path)
    requires CopyAbove(s, t, head, q)
    ensures CanOpen(s, asRoot, head + q) <==> Opens(t, asRoot, q)
  {
    assert OwnerMaySearch(UMASK_MODE);
    if CanOpen(s, asRoot, head + q) {
      forall a | Above(a, q) ensures a in t && t[a].SourceDir? && MaySearch(t[a].mode, asRoot) {
        assert DirectoryCopied(s, t, head, q, a) && head + a in Ancestors(head + q);
      }
    }
    if Opens(t, asRoot, q) {
      forall a | Above(a, head + q) && a in s ensures MaySearch(s[a].mode, asRoot) {
        assert FrameOrCopy(s, head, q, a);
        if |a| >= 3 && Above(a[3..], q) && a == head + a[3..] {
          assert DirectoryCopied(s, t, head, q, a[3..]);
        }
      }
    }
  }

  lemma {:induction false} DatabaseIsStaged(databases: seq<DatabaseSource>, directories: seq<DirectorySource>, p: Path)
    requires GoodLabels(databases, directories) && SomeDatabase(databases, p)
    ensures p in StagedPayloadOf(databases, directories)
    ensures exists i :: 0 <= i < |databases| && p == DATABASES + [DatabaseName(databases[i])]
              && StagedPayloadOf(databases, directories)[p] == File(databases[i].image, PRIVATE_FILE_MODE)
  {
    var i :| IsDatabasePath(databases, |databases|, i, p);
    StagedDatabase(databases, directories, i);
  }

  lemma {:induction false} SameDatabaseStaged(databases: seq<DatabaseSource>, directories: seq<DirectorySource>,
        others: seq<DirectorySource>, p: Path)
    requires GoodLabels(databases, directories) && GoodLabels(databases, others) && SomeDatabase(databases, p)
    ensures p in StagedPayloadOf(databases, directories) && p in StagedPayloadOf(databases, others)
    ensures StagedPayloadOf(databases, directories)[p] == StagedPayloadOf(databases, others)[p]
  {
    var i :| IsDatabasePath(databases, |databases|, i, p);
    StagedDatabase(databases, directories, i);
    StagedDatabase(databases, others, i);
  }

  /** Path p in the staged sources as found again, and in the staging of the sources as listed. */
  ghost predicate SameAt(s: Tree, t: Tree, p: Path) {
    (p in s <==> p in t) && (p in s && p in t ==> s[p] == t[p])
  }

  lemma {:induction false} FoundCopyAt(databases: seq<DatabaseSource>, directories: seq<DirectorySource>,
        asRoot: bool, i: nat, p: Path)
    requires SourcesOk(databases, directories) && SourcesOk(databases, AllListed(directories, asRoot)) && i < |directories|
    requires |p| >= 3 && p[..2] == DIRECTORIES && p[2] == directories[i].name
    requires Copied(directories[i], ExcludedFiles(databases, |databases|), p[3..])
    ensures SameAt(Found(StagedPayloadOf(databases, directories), asRoot),
                   StagedPayloadOf(databases, AllListed(directories, asRoot)), p)
  {
    var listed := AllListed(directories, asRoot);
    assert p == DIRECTORIES + [directories[i].name] + p[3..];
    CopyIsFoundIff(databases, directories, asRoot, i, p[3..]);
    CopiedIfListed(directories[i], ExcludedFiles(databases, |databases|), asRoot, p[3..]);
    StagedCopyIff(databases, listed, i, p);
    if Copied(listed[i], ExcludedFiles(databases, |databases|), p[3..]) {
      StagedCopy(databases, listed, i, p);
    }
  }

  lemma {:induction false} FoundAt(databases: seq<DatabaseSource>, directories: seq<DirectorySource>, asRoot: bool,
        p: Path)
    requires SourcesOk(databases, directories) && SourcesOk(databases, AllListed(directories, asRoot))
    ensures SameAt(Found(StagedPayloadOf(databases, directories), asRoot),
                   StagedPayloadOf(databases, AllListed(directories, asRoot)), p)
  {
    var listed, excluded := AllListed(directories, asRoot), ExcludedFiles(databases, |databases|);
    StagedAt(databases, directories, p);
    StagedAt(databases, listed, p);
    if SomeCopied(databases, directories, p) {
      var i :| IsDirectoryPath(directories, excluded, |directories|, i, p);
      FoundCopyAt(databases, directories, asRoot, i, p);
    } else if InFrame(p) || SomeDatabase(databases, p) {
      FrameIsFound(databases, directories, asRoot, p);
      if !InFrame(p) { SameDatabaseStaged(databases, directories, listed, p); }
    } else if SomeCopied(databases, listed, p) {
      var i :| IsDirectoryPath(listed, excluded, |listed|, i, p);
      CopiedIfListed(directories[i], excluded, asRoot, p[3..]);
      assert IsDirectoryPath(directories, excluded, |directories|, i, p);
      assert false;
    }
  }

  lemma {:induction false} TreesAgree(s: Tree, t: Tree)
    requires forall p :: SameAt(s, t, p)
    ensures s == t
  {
    forall p ensures (p in s <==> p in t) && (p in s ==> s[p] == t[p]) {
      assert SameAt(s, t, p);
    }
    assert s.Keys == t.Keys;
  }

  /** What is found of the staged sources is the staging of what is listed of the sources. */
  lemma {:induction false} FoundIsStaged(databases: seq<DatabaseSource>, directories: seq<DirectorySource>, asRoot: bool)
    requires SourcesOk(databases, directories) && SourcesOk(databases, AllListed(directories, asRoot))
    ensures Found(StagedPayloadOf(databases, directories), asRoot)
         == StagedPayloadOf(databases, AllListed(directories, asRoot))
  {
    forall p ensures SameAt(Found(StagedPayloadOf(databases, directories), asRoot),
                            StagedPayloadOf(databases, AllListed(directories, asRoot)), p)
    {
      FoundAt(databases, directories, asRoot, p);
    }
    TreesAgree(Found(StagedPayloadOf(databases, directories), asRoot),
               StagedPayloadOf(databases, AllListed(directories, asRoot)));
  }

  lemma {:induction false} OpensBelowFrame(s: Tree, asRoot: bool, p: Path)
    requires p in s && (s[p].File? ==> s[p].mode == PRIVATE_FILE_MODE)
    requires forall q :: q in Ancestors(p) && q in s ==> s[q] == Dir(UMASK_MODE)
    ensures CanOpen(s, asRoot, p)
  {
    assert OwnerMaySearch(UMASK_MODE) && OwnerMayRead(PRIVATE_FILE_MODE);
  }

  lemma {:induction false} FrameOpens(databases: seq<DatabaseSource>, directories: seq<DirectorySource>, asRoot: bool,
        p: Path)
    requires GoodLabels(databases, directories) && (InFrame(p) || SomeDatabase(databases, p))
    ensures p in StagedPayloadOf(databases, directories) && CanOpen(StagedPayloadOf(databases, directories), asRoot, p)
  {
    var s := StagedPayloadOf(databases, directories);
    forall q | q in Ancestors(p) && q in s ensures s[q] == Dir(UMASK_MODE) {
      AboveIsInFrame(databases, q, p);
      FrameIsStaged(databases, directories, q);
    }
    if InFrame(p) {
      StagedAt(databases, directories, p);
    } else {
      DatabaseIsStaged(databases, directories, p);
    }
    OpensBelowFrame(s, asRoot, p);
  }

  lemma {:induction false} CopyOpens(databases: seq<DatabaseSource>, directories: seq<DirectorySource>,
        asRoot: bool, i: nat, q: Path, p: Path)
    requires SourcesOk(databases, directories) && i < |directories|
    requires Copied(directories[i], ExcludedFiles(databases, |databases|), q)
    requires IsListed(directories[i].tree, asRoot, q) ==> Opens(directories[i].tree, asRoot, q)
    requires p == DIRECTORIES + [directories[i].name] + q
    ensures var s := StagedPayloadOf(databases, directories);
            p in s && (IsFound(s, asRoot, p) ==> CanOpen(s, asRoot, p))
  {
    CopyIsFoundIff(databases, directories, asRoot, i, q);
  }

  lemma {:induction false} CopiedPath(databases: seq<DatabaseSource>, directories: seq<DirectorySource>, p: Path)
    returns (i: nat, q: Path)
    requires SomeCopied(databases, directories, p)
    ensures i < |directories| && p == DIRECTORIES + [directories[i].name] + q
    ensures Copied(directories[i], ExcludedFiles(databases, |databases|), q)
  {
    i :| IsDirectoryPath(directories, ExcludedFiles(databases, |databases|), |directories|, i, p);
    q := p[3..];
  }

  lemma {:induction false} StagedOpens(databases: seq<DatabaseSource>, directories: seq<DirectorySource>, asRoot: bool,
        p: Path)
    requires SourcesOk(databases, directories) && ReadsBack(databases, directories, asRoot)
    ensures var s := StagedPayloadOf(databases, directories);
            p in s && IsFound(s, asRoot, p) ==> CanOpen(s, asRoot, p)
  {
    StagedAt(databases, directories, p);
    if SomeCopied(databases, directories, p) {
      var i, q := CopiedPath(databases, directories, p);
      CopyOpens(databases, directories, asRoot, i, q, p);
    } else if InFrame(p) || SomeDatabase(databases, p) {
      FrameOpens(databases, directories, asRoot, p);
    }
  }

  /** The staged sources can be read back exactly when their sources say so. */
  lemma {:induction false} CanOpenAllIff(databases: seq<DatabaseSource>, directories: seq<DirectorySource>, asRoot: bool)
    requires SourcesOk(databases, directories)
    ensures CanOpenAll(StagedPayloadOf(databases, directories), asRoot) <==> ReadsBack(databases, directories, asRoot)
  {
    if CanOpenAll(StagedPayloadOf(databases, directories), asRoot) {
      forall i, q | 0 <= i < |directories| && Copied(directories[i], ExcludedFiles(databases, |databases|), q)
        ensures IsListed(directories[i].tree, asRoot, q) ==> Opens(directories[i].tree, asRoot, q)
      {
        CopyIsFoundIff(databases, directories, asRoot, i, q);
      }
    }
    if ReadsBack(databases, directories, asRoot) {
      forall p | p in StagedPayloadOf(databases, directories) && IsFound(StagedPayloadOf(databases, directories), asRoot, p)
        ensures CanOpen(StagedPayloadOf(databases, directories), asRoot, p)
      {
        StagedOpens(databases, directories, asRoot, p);
      }
    }
  }

  // ---- create_backup -------------------------------------------------------------------------------------

  /** Exactly when a backup is created. */
  ghost predicate Creatable(databases: seq<DatabaseSource>, directories: seq<DirectorySource>, c: Codec, asRoot: bool) {
    Stageable(databases, directories, c) && ReadsBack(databases, directories, asRoot)
  }

  /** The manifest and the archive of what is found of a staged payload. */
  method DescribeAndArchive(databases: seq<DatabaseSource>, directories: seq<DirectorySource>, c: Codec, payload: Tree)
    returns (members: seq<Member>)
    requires payload == StagedPayloadOf(databases, directories)
    ensures members == ArchiveOf(StagedSources(databases, directories, c))
  {
    var listing := SortPaths(set p | p in payload && Above(PAYLOAD, p));
    var rows := ArchiveRows(payload, c, listing);
    var manifest := Manifest(rows, Below(DATABASES, DatabaseNames(databases)), Below(DIRECTORIES, DirectoryNames(directories)));
    assert manifest == ManifestOf(databases, directories, c);
    var staging := payload[MANIFEST := File(c.encode(manifest), PRIVATE_FILE_MODE)];
    var everything := SortPaths(staging.Keys - {[]});
    members := WriteTar(staging, everything);
  }

  /** create_backup, up to publishing the archive, by root or by another user. */
  method CreateBackup(databases: seq<DatabaseSource>, directories: seq<DirectorySource>, walks: seq<seq<Path>>,
        c: Codec, asRoot: bool)
    returns (r: Result<seq<Member>, CreateError>)
    requires WalksFor(directories, walks)
    ensures r.Ok? <==> Creatable(databases, directories, c, asRoot)
    ensures r.Ok? ==> r.value == ArchiveOf(StagedSources(databases, AllListed(directories, asRoot), c))
  {
    var labelsOk := LabelsAreGood(databases, directories);
    if !labelsOk {
      return Err(BadLabel);
    }
    if databases == [] && directories == [] {
      return Err(NoSource);
    }
    var excluded := CollectExcluded(databases);
    var staged := StageDatabases(databases, c);
    if staged.None? {
      return Err(DamagedDatabase);
    }
    var payload := StageDirectories(staged.value, directories, excluded, walks);
    if payload.None? {
      return Err(NotCopyable);
    }
    CanOpenAllIff(databases, directories, asRoot);
    if !CanOpenAll(payload.value, asRoot) {
      return Err(NotReadable);
    }
    ListedIsStageable(databases, directories, c, asRoot);
    FoundIsStaged(databases, directories, asRoot);
    var members := DescribeAndArchive(databases, AllListed(directories, asRoot), c, Found(payload.value, asRoot));
    r := Ok(members);
  }

  // ---- The round trip ------------------------------------------------------------------------------------

  /** Path q is to be backed up: an entry of the source, no excluded file. */
  predicate Belongs(d: DirectorySource, excluded: set<Path>, q: Path) {
    q in d.tree && (d.tree[q].SourceFile? ==> d.root + q !in excluded)
  }

  /** Path q of a source, in the restored tree u: there if it belongs there, and then the same. */
  ghost predicate RestoresEntry(u: Tree, d: DirectorySource, excluded: set<Path>, q: Path) {
    var p := ["directories", d.name] + q;
    && (p in u <==> Belongs(d, excluded, q))
    && (p in u ==> (d.tree[q].SourceDir? || d.tree[q].SourceFile?)
                   && u[p] == WithMode(NodeOf(d.tree[q]), PermissionBits(NodeOf(d.tree[q]).mode)))
  }

  /** The restored tree holds every source as it is, the excluded files apart, and nothing more. */
  ghost predicate RestoresSources(u: Tree, databases: seq<DatabaseSource>, directories: seq<DirectorySource>) {
    && (forall i, q :: 0 <= i < |directories| ==> RestoresEntry(u, directories[i], ExcludedFiles(databases, |databases|), q))
    && (forall i :: 0 <= i < |databases| ==> RestoresDatabase(u, databases[i]))
    && (forall p :: p in u ==> Accounted(databases, directories, p))
  }

  /** Nothing lies in a directory that may not be listed, where it stands or in the copy. */
  ghost predicate NothingHidden(databases: seq<DatabaseSource>, directories: seq<DirectorySource>, asRoot: bool) {
    forall i, q :: 0 <= i < |directories| && Belongs(directories[i], ExcludedFiles(databases, |databases|), q) ==>
      Reached(directories[i].tree, q) && IsListed(directories[i].tree, asRoot, q)
  }

  /**
    The round trip. A fresh backup can be restored exactly when none of the names found has a
    backslash, the archive is within the limits and the manifest is not too long. The restored tree
    is then every source as far as it was found, and every source as it is exactly when nothing lies
    in a directory that could not be listed, where it stands or in the copy.
   */
  lemma {:induction false} BackupRoundTrip(databases: seq<DatabaseSource>, directories: seq<DirectorySource>,
        c: Codec, limits: Limits, asRoot: bool)
    requires Creatable(databases, directories, c, asRoot) && SourcesOk(databases, directories) && Lawful(c)
    requires limits.maxBytes > 0 && limits.maxMembers > 0
    ensures var listed := AllListed(directories, asRoot);
      var s := StagedSources(databases, listed, c);
      var u := RestoredTree(ArchiveOf(s));
      && (Restorable(ArchiveOf(s), limits, c) <==>
            && LegalNames(databases, listed) && WithinLimits(s, limits)
            && |c.encode(ManifestOf(databases, listed, c))| <= MAX_MANIFEST_BYTES)
      && (LegalNames(databases, listed) ==>
            && RestoresCopies(u, databases, listed)
            && (RestoresSources(u, databases, directories) <==> NothingHidden(databases, directories, asRoot)))
  {
    var listed := AllListed(directories, asRoot);
    ListedIsStageable(databases, directories, c, asRoot);
    StagedRoundTrip(databases, listed, c, limits);
    var u := RestoredTree(ArchiveOf(StagedSources(databases, listed, c)));
    if LegalNames(databases, listed) {
      RestoresAllIff(u, databases, directories, asRoot);
    }
  }

  lemma {:induction false} RestoresOneIff(u: Tree, d: DirectorySource, excluded: set<Path>, asRoot: bool, q: Path)
    requires Copyable(d, excluded) && RestoresCopy(u, Listed(d, asRoot), excluded, q)
    ensures RestoresEntry(u, d, excluded, q) <==>
              (Belongs(d, excluded, q) ==> Reached(d.tree, q) && IsListed(d.tree, asRoot, q))
  {
    CopiedIfListed(d, excluded, asRoot, q);
    if Reached(d.tree, q) {
      assert q in ReachedPaths(d.tree) && CanCopy(d, excluded, q);
    }
  }

  lemma {:induction false} RestoresAllIff(u: Tree, databases: seq<DatabaseSource>, directories: seq<DirectorySource>,
        asRoot: bool)
    requires CopyableUpTo(directories, ExcludedFiles(databases, |databases|), |directories|)
    requires RestoresCopies(u, databases, AllListed(directories, asRoot))
    ensures RestoresSources(u, databases, directories) <==> NothingHidden(databases, directories, asRoot)
  {
    var listed, excluded := AllListed(directories, asRoot), ExcludedFiles(databases, |databases|);
    forall i, q | 0 <= i < |directories|
      ensures RestoresEntry(u, directories[i], excluded, q) <==>
                (Belongs(directories[i], excluded, q) ==>
                   Reached(directories[i].tree, q) && IsListed(directories[i].tree, asRoot, q))
    {
      AllHaveToBeCopyable(directories, excluded, i, |directories|);
      assert RestoresCopy(u, listed[i], excluded, q);
      RestoresOneIff(u, directories[i], excluded, asRoot, q);
    }
    SameAccount(databases, directories, asRoot, u);
  }

  lemma {:induction false} SameAccount(databases: seq<DatabaseSource>, directories: seq<DirectorySource>, asRoot: bool,
        u: Tree)
    requires forall p :: p in u ==> Accounted(databases, AllListed(directories, asRoot), p)
    ensures forall p :: p in u ==> Accounted(databases, directories, p)
  {
    var listed := AllListed(directories, asRoot);
    forall p | p in u ensures Accounted(databases, directories, p) {
      assert Accounted(databases, listed, p);
      if i :| 0 <= i < |listed| && ["directories", listed[i].name] <= p {
        assert directories[i].name == listed[i].name;
      }
    }
  }

  // ---- Both ways of losing a file ------------------------------------------------------------------------

  /** A source with one directory in it, and one file in that. */
  function TwoLevels(inner: SourceNode, file: SourceNode): DirectorySource {
    DirectorySource("data", ["srv"],
                    map[[] := SourceDir(UMASK_MODE, true, true), ["inner"] := inner, ["inner", "notes"] := file])
  }

  /** A directory that only its group may list: the process is of the group, and owns the copy. */
  const GROUP_ONLY: DirectorySource :=
    TwoLevels(SourceDir(0x38, true, true), SourceFile([], UMASK_MODE, true))

  /** A directory of another user that nobody else may list. */
  const OWNER_ONLY: DirectorySource :=
    TwoLevels(SourceDir(0x1c0, false, false), SourceFile([], PRIVATE_FILE_MODE, false))

  lemma {:induction false} AboveNotes(q: Path)
    ensures Above(q, ["inner"]) <==> q == []
    ensures Above(q, ["inner", "notes"]) <==> q == [] || q == ["inner"]
  {
    assert ["inner"][..0] == [] && ["inner", "notes"][..0] == [] && ["inner", "notes"][..1] == ["inner"];
  }

  lemma {:induction false} TwoLevelsIsATree(inner: SourceNode, file: SourceNode)
    requires inner.SourceDir? && file.SourceFile?
    ensures SourcesOk([], [TwoLevels(inner, file)])
  {
    var t := TwoLevels(inner, file).tree;
    assert IsLabel("data");
    forall p, q | p in t && Above(q, p) ensures q in t && t[q].SourceDir? { AboveNotes(q); }
  }

  /** What the walk comes to in such a source, and what is found of the copy. */
  lemma {:induction false} TwoLevelsReached(inner: SourceNode, file: SourceNode, asRoot: bool)
    requires inner.SourceDir? && file.SourceFile?
    ensures var t := TwoLevels(inner, file).tree;
      && Reached(t, []) && Reached(t, ["inner"]) && (Reached(t, ["inner", "notes"]) <==> inner.mayList)
      && IsListed(t, asRoot, []) && IsListed(t, asRoot, ["inner"])
      && (IsListed(t, asRoot, ["inner", "notes"]) <==> MayRead(inner.mode, asRoot))
  {
    var t := TwoLevels(inner, file).tree;
    assert OwnerMayRead(UMASK_MODE);
    forall q ensures (q in Ancestors(["inner"]) <==> q == [])
                  && (q in Ancestors(["inner", "notes"]) <==> q == [] || q == ["inner"])
    {
      AboveNotes(q);
    }
  }

  /** Such a source is backed up if the walk or the search passes over what is in it. */
  lemma {:induction false} TwoLevelsCreatable(inner: SourceNode, file: SourceNode, c: Codec, asRoot: bool)
    requires inner.SourceDir? && file.SourceFile? && (inner.mayList ==> inner.maySearch && file.mayRead)
    requires !inner.mayList || !MayRead(inner.mode, asRoot)
    ensures Creatable([], [TwoLevels(inner, file)], c, asRoot)
    ensures !NothingHidden([], [TwoLevels(inner, file)], asRoot)
  {
    var d, dirs := TwoLevels(inner, file), [TwoLevels(inner, file)];
    TwoLevelsIsATree(inner, file);
    TwoLevelsReached(inner, file, asRoot);
    assert OwnerMaySearch(UMASK_MODE);
    forall p | p in ReachedPaths(d.tree) ensures CanCopy(d, {}, p) {
      assert ["inner"][..0] == [] && ["inner", "notes"][..1] == ["inner"];
    }
    assert CopyableUpTo(dirs, {}, 0) && Copyable(dirs[0], {});
    forall q | Copied(d, {}, q) && IsListed(d.tree, asRoot, q) ensures Opens(d.tree, asRoot, q) {
      assert q == [] || q == ["inner"];
      forall a | Above(a, q) ensures a == [] { AboveNotes(a); }
    }
    assert Belongs(dirs[0], ExcludedFiles([], 0), ["inner", "notes"]);
  }

  /** Either source is backed up without an error, and without the file; of the first, root loses nothing. */
  lemma {:induction false} BackupCanLoseFiles(c: Codec)
    ensures Creatable([], [GROUP_ONLY], c, false) && SourcesOk([], [GROUP_ONLY])
    ensures !NothingHidden([], [GROUP_ONLY], false) && NothingHidden([], [GROUP_ONLY], true)
    ensures Creatable([], [OWNER_ONLY], c, false) && SourcesOk([], [OWNER_ONLY])
    ensures !NothingHidden([], [OWNER_ONLY], false)
  {
    var group, shared := SourceDir(0x38, true, true), SourceFile([], UMASK_MODE, true);
    var owner, private := SourceDir(0x1c0, false, false), SourceFile([], PRIVATE_FILE_MODE, false);
    assert !OwnerMayRead(0x38);
    TwoLevelsIsATree(group, shared);
    TwoLevelsIsATree(owner, private);
    TwoLevelsReached(group, shared, true);
    TwoLevelsCreatable(group, shared, c, false);
    TwoLevelsCreatable(owner, private, c, false);
  }
}
