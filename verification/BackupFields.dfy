/** What a backup takes and what a restore gives back, stated on the sources' own fields. */
module BackupFields {
  import opened Prelude
  import opened BackupPaths
  import opened BackupDisk
  import opened BackupManifest
  import opened BackupPermissions
  import opened Extraction
  import opened BackupRestore
  import opened BackupArchive
  import opened BackupStaging
  import opened BackupCreate

  // ---- The files of the databases ----------------------------------------------------------------------

  /** p stands beside the database file, under its name or that name with "-wal", "-shm" or "-journal". */
  predicate IsDatabaseFile(p: Path, file: Path) {
    && p != [] && file != [] && p[..|p| - 1] == file[..|file| - 1]
    && var name, database := p[|p| - 1], file[|file| - 1];
       name == database || name == database + "-wal" || name == database + "-shm" || name == database + "-journal"
  }

  ghost predicate IsDatabaseFileOf(p: Path, databases: seq<DatabaseSource>) {
    exists i :: 0 <= i < |databases| && IsDatabaseFile(p, databases[i].file)
  }

  lemma {:induction false} SideFileIs(p: Path, file: Path)
    requires file != []
    ensures p in SideFiles(file) <==> IsDatabaseFile(p, file)
  {
    var front, l := file[..|file| - 1], file[|file| - 1];
    assert l + "" == l;
    assert p in SideFiles(file) <==>
      p == front + [l] || p == front + [l + "-wal"] || p == front + [l + "-shm"] || p == front + [l + "-journal"] by {
      assert WithSuffix(file, "") == front + [l];
      assert "" in SUFFIXES && "-wal" in SUFFIXES && "-shm" in SUFFIXES && "-journal" in SUFFIXES;
    }
    if p != [] { assert p == p[..|p| - 1] + [p[|p| - 1]]; }
  }

  /** Which files are left out of the directories: the databases and the files SQLite keeps beside them. */
  lemma {:induction false} ExcludedIs(databases: seq<DatabaseSource>, p: Path)
    requires forall i :: 0 <= i < |databases| ==> databases[i].file != []
    ensures p in ExcludedFiles(databases, |databases|) <==> IsDatabaseFileOf(p, databases)
  {
    ExcludedIff(databases, |databases|, p);
    forall i | 0 <= i < |databases| ensures p in SideFiles(databases[i].file) <==> IsDatabaseFile(p, databases[i].file) {
      SideFileIs(p, databases[i].file);
    }
  }

  ghost predicate AreFiles(databases: seq<DatabaseSource>) {
    forall i :: 0 <= i < |databases| ==> databases[i].file != []
  }

  // ---- What is found -----------------------------------------------------------------------------------

  /** Every directory q lies in may be listed where it stands. */
  ghost predicate WalkedTo(t: SourceTree, q: Path) {
    forall k :: 0 <= k < |q| ==> q[..k] in t && t[q[..k]].SourceDir? && t[q[..k]].mayList
  }

  /** And by its owner, or the process is root: then also in the copy. */
  ghost predicate FoundBelow(t: SourceTree, asRoot: bool, q: Path) {
    WalkedTo(t, q) && forall k :: 0 <= k < |q| ==> asRoot || t[q[..k]].mode / 256 % 2 == 1
  }

  lemma {:induction false} PrefixesAre(q: Path, a: Path)
    ensures a in Ancestors(q) <==> exists k :: 0 <= k < |q| && q[..k] == a
  {
    if Above(a, q) { assert q[..|a|] == a; }
  }

  lemma {:induction false} ReachedIs(t: SourceTree, q: Path)
    ensures Reached(t, q) <==> q in t && WalkedTo(t, q)
  {
    if Reached(t, q) {
      forall k | 0 <= k < |q| ensures q[..k] in t && t[q[..k]].SourceDir? && t[q[..k]].mayList { PrefixesAre(q, q[..k]); }
    }
    if WalkedTo(t, q) {
      forall a | a in Ancestors(q) ensures a in t && t[a].SourceDir? && t[a].mayList {
        PrefixesAre(q, a);
        assert q[..|a|] == a;
      }
    }
  }

  lemma {:induction false} ListedIs(t: SourceTree, asRoot: bool, q: Path)
    requires WalkedTo(t, q)
    ensures IsListed(t, asRoot, q) <==> q in t && FoundBelow(t, asRoot, q)
  {
    if IsListed(t, asRoot, q) {
      forall k | 0 <= k < |q| ensures asRoot || t[q[..k]].mode / 256 % 2 == 1 {
        PrefixesAre(q, q[..k]);
        assert MayRead(t[q[..k]].mode, asRoot);
      }
    }
    if q in t && FoundBelow(t, asRoot, q) {
      forall a | a in Ancestors(q) ensures a in t && t[a].SourceDir? && MayRead(t[a].mode, asRoot) {
        PrefixesAre(q, a);
        assert q[..|a|] == a;
      }
    }
  }

  /** An entry that is to be found in the restored tree: no database file, and below directories that could be listed. */
  ghost predicate ComesBack(d: DirectorySource, databases: seq<DatabaseSource>, asRoot: bool, q: Path) {
    q in d.tree && FoundBelow(d.tree, asRoot, q) && (d.tree[q].SourceFile? ==> !IsDatabaseFileOf(d.root + q, databases))
  }

  lemma {:induction false} ComesBackIff(d: DirectorySource, databases: seq<DatabaseSource>, asRoot: bool, q: Path)
    requires AreFiles(databases) && Copyable(d, ExcludedFiles(databases, |databases|))
    ensures Copied(Listed(d, asRoot), ExcludedFiles(databases, |databases|), q) <==> ComesBack(d, databases, asRoot, q)
  {
    var excluded := ExcludedFiles(databases, |databases|);
    CopiedIfListed(d, excluded, asRoot, q);
    ReachedIs(d.tree, q);
    ExcludedIs(databases, d.root + q);
    if WalkedTo(d.tree, q) {
      ListedIs(d.tree, asRoot, q);
      if q in d.tree {
        assert q in ReachedPaths(d.tree) && CanCopy(d, excluded, q);
      }
    }
  }

  // ---- The restored tree -------------------------------------------------------------------------------

  ghost function Restored(databases: seq<DatabaseSource>, directories: seq<DirectorySource>, c: Codec, asRoot: bool): Tree {
    RestoredTree(ArchiveOf(StagedSources(databases, AllListed(directories, asRoot), c)))
  }

  /** An entry of a source in the restored tree: whether it is there, and as what. */
  ghost predicate RestoredAs(u: Tree, d: DirectorySource, databases: seq<DatabaseSource>, asRoot: bool, q: Path) {
    var p := ["directories", d.name] + q;
    && (p in u <==> ComesBack(d, databases, asRoot, q))
    && (p in u ==> match d.tree[q]
                   case SourceDir(mode, _, _) => u[p] == Dir(mode % 512)
                   case SourceFile(data, mode, _) => u[p] == File(data, mode % 512)
                   case _ => false)
  }

  /**
    The round trip, entry by entry: every file of a source comes back byte for byte with its
    permission bits, unless it is a file of one of the databases or lies in a directory that could not
    be listed; every database comes back as the image that was taken of it; and nothing else is there.
   */
  lemma {:induction false} RestoredIs(databases: seq<DatabaseSource>, directories: seq<DirectorySource>, c: Codec,
        limits: Limits, asRoot: bool)
    requires Creatable(databases, directories, c, asRoot) && SourcesOk(databases, directories) && Lawful(c) && AreFiles(databases)
    requires limits.maxBytes > 0 && limits.maxMembers > 0
    requires Restorable(ArchiveOf(StagedSources(databases, AllListed(directories, asRoot), c)), limits, c)
    ensures var u := Restored(databases, directories, c, asRoot);
      && (forall i, q :: 0 <= i < |directories| ==> RestoredAs(u, directories[i], databases, asRoot, q))
      && (forall i :: 0 <= i < |databases| ==>
            var p := ["sqlite", databases[i].name + ".sqlite3"]; p in u && u[p] == File(databases[i].image, 0x180))
      && (forall p :: p in u ==> Accounted(databases, directories, p))
  {
    var u, listed := Restored(databases, directories, c, asRoot), AllListed(directories, asRoot);
    BackupRoundTrip(databases, directories, c, limits, asRoot);
    assert RestoresCopies(u, databases, listed);
    forall i, q | 0 <= i < |directories| ensures RestoredAs(u, directories[i], databases, asRoot, q) {
      assert RestoresCopy(u, listed[i], ExcludedFiles(databases, |databases|), q);
      AllHaveToBeCopyable(directories, ExcludedFiles(databases, |databases|), i, |directories|);
      EntryIs(u, directories[i], databases, asRoot, q);
    }
    forall i | 0 <= i < |databases|
      ensures var p := ["sqlite", databases[i].name + ".sqlite3"]; p in u && u[p] == File(databases[i].image, 0x180)
    {
      assert RestoresDatabase(u, databases[i]);
    }
    SameAccount(databases, directories, asRoot, u);
  }

  lemma {:induction false} EntryIs(u: Tree, d: DirectorySource, databases: seq<DatabaseSource>, asRoot: bool, q: Path)
    requires AreFiles(databases) && Copyable(d, ExcludedFiles(databases, |databases|))
    requires RestoresCopy(u, Listed(d, asRoot), ExcludedFiles(databases, |databases|), q)
    ensures RestoredAs(u, d, databases, asRoot, q)
  {
    ComesBackIff(d, databases, asRoot, q);
    CopiedIfListed(d, ExcludedFiles(databases, |databases|), asRoot, q);
  }

  // ---- When a backup is created ------------------------------------------------------------------------

  predicate IsAlphanumeric(c: char) {
    48 <= c as int <= 57 || 65 <= c as int <= 90 || 97 <= c as int <= 122
  }

  predicate GoodName(name: string) {
    && name != "" && |name| <= 64 && IsAlphanumeric(name[0])
    && forall i :: 0 <= i < |name| ==> IsAlphanumeric(name[i]) || name[i] in {'.', '_', '-'}
  }

  lemma {:induction false} LabelIs(name: string)
    ensures IsLabel(name) <==> GoodName(name)
  {
    forall i | 0 <= i < |name| ensures LabelChar(name[i]) <==> IsAlphanumeric(name[i]) || name[i] in {'.', '_', '-'} {}
  }

  /** The copying accepts the entry: neither link nor special, and nothing about it is forbidden to the process. */
  ghost predicate Accepted(d: DirectorySource, databases: seq<DatabaseSource>, q: Path) {
    && q in d.tree
    && (q != [] ==> q[..|q| - 1] in d.tree && d.tree[q[..|q| - 1]].SourceDir? && d.tree[q[..|q| - 1]].maySearch)
    && match d.tree[q]
       case SourceDir(_, _, _) => true
       case SourceFile(_, _, mayRead) => mayRead || IsDatabaseFileOf(d.root + q, databases)
       case _ => false
  }

  ghost predicate AllAccepted(d: DirectorySource, databases: seq<DatabaseSource>) {
    forall q :: q in d.tree && WalkedTo(d.tree, q) ==> Accepted(d, databases, q)
  }

  /** The copy of the entry can be opened: by its owner, or the process is root. */
  ghost predicate OpensAgain(t: SourceTree, asRoot: bool, q: Path)
    requires q in t
  {
    && (t[q].SourceFile? ==> asRoot || t[q].mode / 256 % 2 == 1)
    && forall k :: 0 <= k < |q| && q[..k] in t && t[q[..k]].SourceDir? ==> asRoot || t[q[..k]].mode / 64 % 2 == 1
  }

  ghost predicate AllOpenAgain(d: DirectorySource, databases: seq<DatabaseSource>, asRoot: bool) {
    forall q :: ComesBack(d, databases, asRoot, q) ==> OpensAgain(d.tree, asRoot, q)
  }

  lemma {:induction false} AcceptedIs(d: DirectorySource, databases: seq<DatabaseSource>, q: Path)
    requires AreFiles(databases) && q in d.tree
    ensures CanCopy(d, ExcludedFiles(databases, |databases|), q) <==> Accepted(d, databases, q)
  {
    ExcludedIs(databases, d.root + q);
  }

  lemma {:induction false} CopyableIs(d: DirectorySource, databases: seq<DatabaseSource>)
    requires AreFiles(databases)
    ensures Copyable(d, ExcludedFiles(databases, |databases|)) <==> AllAccepted(d, databases)
  {
    forall q | q in d.tree
      ensures q in ReachedPaths(d.tree) <==> WalkedTo(d.tree, q)
      ensures CanCopy(d, ExcludedFiles(databases, |databases|), q) <==> Accepted(d, databases, q)
    {
      ReachedIs(d.tree, q);
      AcceptedIs(d, databases, q);
    }
  }

  lemma {:induction false} OpensIs(t: SourceTree, asRoot: bool, q: Path)
    requires q in t
    ensures Opens(t, asRoot, q) <==> OpensAgain(t, asRoot, q)
  {
    if Opens(t, asRoot, q) {
      forall k | 0 <= k < |q| && q[..k] in t && t[q[..k]].SourceDir? ensures asRoot || t[q[..k]].mode / 64 % 2 == 1 {
        assert Above(q[..k], q) && MaySearch(t[q[..k]].mode, asRoot);
      }
    }
    if OpensAgain(t, asRoot, q) {
      forall a | Above(a, q) && a in t && t[a].SourceDir? ensures MaySearch(t[a].mode, asRoot) { assert q[..|a|] == a; }
    }
  }

  lemma {:induction false} CopyableUpToIs(databases: seq<DatabaseSource>, directories: seq<DirectorySource>, n: nat)
    requires AreFiles(databases) && n <= |directories|
    ensures CopyableUpTo(directories, ExcludedFiles(databases, |databases|), n) <==>
              forall i :: 0 <= i < n ==> AllAccepted(directories[i], databases)
  {
    if n > 0 {
      CopyableUpToIs(databases, directories, n - 1);
      CopyableIs(directories[n - 1], databases);
    }
  }

  lemma {:induction false} ReadsBackIs(databases: seq<DatabaseSource>, directories: seq<DirectorySource>, asRoot: bool)
    requires AreFiles(databases) && forall i :: 0 <= i < |directories| ==> AllAccepted(directories[i], databases)
    ensures ReadsBack(databases, directories, asRoot) <==>
              forall i :: 0 <= i < |directories| ==> AllOpenAgain(directories[i], databases, asRoot)
  {
    forall i, q | 0 <= i < |directories|
      ensures Copied(directories[i], ExcludedFiles(databases, |databases|), q) && IsListed(directories[i].tree, asRoot, q)
         <==> ComesBack(directories[i], databases, asRoot, q)
      ensures q in directories[i].tree ==> (Opens(directories[i].tree, asRoot, q) <==> OpensAgain(directories[i].tree, asRoot, q))
    {
      CopyableIs(directories[i], databases);
      ComesBackIff(directories[i], databases, asRoot, q);
      CopiedIfListed(directories[i], ExcludedFiles(databases, |databases|), asRoot, q);
      if q in directories[i].tree { OpensIs(directories[i].tree, asRoot, q); }
    }
    if ReadsBack(databases, directories, asRoot) {
      forall i | 0 <= i < |directories| ensures AllOpenAgain(directories[i], databases, asRoot) {
        forall q | ComesBack(directories[i], databases, asRoot, q) ensures OpensAgain(directories[i].tree, asRoot, q) {
          assert Copied(directories[i], ExcludedFiles(databases, |databases|), q);
        }
      }
    }
  }

  ghost predicate NamesAreGood(databases: seq<DatabaseSource>, directories: seq<DirectorySource>) {
    && (forall i :: 0 <= i < |databases| ==> GoodName(databases[i].name))
    && (forall i :: 0 <= i < |directories| ==> GoodName(directories[i].name))
    && (forall i, j :: 0 <= i < j < |databases| ==> databases[i].name != databases[j].name)
    && (forall i, j :: 0 <= i < j < |directories| ==> directories[i].name != directories[j].name)
  }

  lemma {:induction false} LabelsAre(databases: seq<DatabaseSource>, directories: seq<DirectorySource>)
    ensures GoodLabels(databases, directories) <==> NamesAreGood(databases, directories)
  {
    forall name: string ensures IsLabel(name) <==> GoodName(name) { LabelIs(name); }
  }

  /** When a backup is created. */
  lemma {:induction false} CreatableIs(databases: seq<DatabaseSource>, directories: seq<DirectorySource>, c: Codec, asRoot: bool)
    requires AreFiles(databases)
    ensures Creatable(databases, directories, c, asRoot) <==>
              && NamesAreGood(databases, directories) && |databases| + |directories| > 0
              && (forall i :: 0 <= i < |databases| ==> c.quickCheck(databases[i].image))
              && (forall i :: 0 <= i < |directories| ==> AllAccepted(directories[i], databases))
              && (forall i :: 0 <= i < |directories| ==> AllOpenAgain(directories[i], databases, asRoot))
  {
    LabelsAre(databases, directories);
    CopyableUpToIs(databases, directories, |directories|);
    if forall i :: 0 <= i < |directories| ==> AllAccepted(directories[i], databases) {
      ReadsBackIs(databases, directories, asRoot);
    }
  }
}
