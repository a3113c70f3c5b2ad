/**
  Setting the archived modes on a staged tree. A mode is set through a path, so every directory
  above it must still be searchable: the order of the calls is what makes that hold whatever the
  archived modes are.
 */
module BackupPermissions {
  import opened BackupPaths
  import opened BackupDisk

  /** What an archived mode comes down to on restore: its permission bits. */
  function PermissionBits(mode: nat): nat {
    mode % 512
  }

  predicate OwnerMaySearch(mode: nat) {
    mode / 64 % 2 == 1
  }

  /** Every directory above p can be passed through. */
  ghost predicate Reachable(t: Tree, p: Path) {
    forall q :: q in t && Above(q, p) ==> t[q].Dir? && OwnerMaySearch(t[q].mode)
  }

  datatype ModeEntry = ModeEntry(path: Path, mode: nat, isDirectory: bool)

  /** The sort key: files before directories, then the deepest first. */
  predicate NotAfter(a: ModeEntry, b: ModeEntry) {
    (!a.isDirectory && b.isDirectory) || (a.isDirectory == b.isDirectory && |a.path| >= |b.path|)
  }

  ghost predicate SortedForChmod(s: seq<ModeEntry>) {
    forall i, j :: 0 <= i < j < |s| ==> NotAfter(s[i], s[j])
  }

  function InsertEntry(e: ModeEntry, s: seq<ModeEntry>): seq<ModeEntry> {
    if s == [] || NotAfter(e, s[0]) then [e] + s else [s[0]] + InsertEntry(e, s[1..])
  }

  /** sorted(entries, key=...) keeps the order of entries with equal keys. */
  function SortForChmod(s: seq<ModeEntry>): seq<ModeEntry> {
    if s == [] then [] else InsertEntry(s[0], SortForChmod(s[1..]))
  }

  ghost predicate DistinctPaths(s: seq<ModeEntry>) {
    forall i, j :: 0 <= i < j < |s| ==> s[i].path != s[j].path
  }

  lemma {:induction false} InsertKeepsSorted(e: ModeEntry, s: seq<ModeEntry>)
    requires SortedForChmod(s)
    ensures SortedForChmod(InsertEntry(e, s))
    ensures forall x :: x in InsertEntry(e, s) <==> x == e || x in s
  {
    if s != [] && !NotAfter(e, s[0]) {
      var t := InsertEntry(e, s[1..]);
      InsertKeepsSorted(e, s[1..]);
      assert forall x :: x in s <==> x == s[0] || x in s[1..];
      assert forall x :: x in t ==> NotAfter(s[0], x);
    }
  }

  lemma {:induction false} InsertKeepsDistinct(e: ModeEntry, s: seq<ModeEntry>)
    requires SortedForChmod(s) && DistinctPaths(s) && forall x :: x in s ==> x.path != e.path
    ensures DistinctPaths(InsertEntry(e, s))
  {
    if s != [] && !NotAfter(e, s[0]) {
      InsertKeepsDistinct(e, s[1..]);
      InsertKeepsSorted(e, s[1..]);
      assert s[0].path != e.path;
      assert forall x :: x in InsertEntry(e, s[1..]) ==> x.path != s[0].path;
    }
  }

  lemma {:induction false} SortIsSorted(s: seq<ModeEntry>)
    ensures SortedForChmod(SortForChmod(s))
    ensures forall x :: x in SortForChmod(s) <==> x in s
    ensures DistinctPaths(s) ==> DistinctPaths(SortForChmod(s))
  {
    if s != [] {
      var t := SortForChmod(s[1..]);
      SortIsSorted(s[1..]);
      InsertKeepsSorted(s[0], t);
      if DistinctPaths(s) {
        InsertKeepsDistinct(s[0], t);
      }
    }
  }

  /** Whatever comes after a directory in this order does not lie beneath it. */
  lemma {:induction false} NothingBeneathIsLater(s: seq<ModeEntry>, i: nat, j: nat)
    requires SortedForChmod(s) && i < j < |s| && s[i].isDirectory
    ensures !Above(s[i].path, s[j].path)
  {
    assert NotAfter(s[i], s[j]);
  }

  // ---- Applying the modes ----------------------------------------------------------------------------

  /** The entries name distinct paths of the tree, with their kinds. */
  ghost predicate Describe(s: seq<ModeEntry>, t: Tree) {
    && (forall i :: 0 <= i < |s| ==> s[i].path in t && s[i].isDirectory == t[s[i].path].Dir?)
    && DistinctPaths(s)
  }

  /** No directory is closed yet. */
  ghost predicate Untouched(t: Tree) {
    forall p :: p in t && t[p].Dir? ==> OwnerMaySearch(t[p].mode)
  }

  ghost predicate ParentsAreDirectories(t: Tree) {
    forall p, q :: p in t && q in t && Above(q, p) ==> t[q].Dir?
  }

  /** t with the modes of the first n entries. */
  ghost function WithModes(t: Tree, s: seq<ModeEntry>, n: nat): Tree
    requires n <= |s|
  {
    map p | p in t :: WithMode(t[p], if HasMode(s, n, p) then ModeFor(s, n, p) else t[p].mode)
  }

  ghost predicate HasMode(s: seq<ModeEntry>, n: nat, p: Path)
    requires n <= |s|
  {
    exists i :: 0 <= i < n && s[i].path == p
  }

  ghost function ModeFor(s: seq<ModeEntry>, n: nat, p: Path): nat
    requires n <= |s| && HasMode(s, n, p)
  {
    var i :| 0 <= i < n && s[i].path == p;
    s[i].mode
  }

  /** chmod(p): refused unless p can be reached. */
  method Chmod(disk: Disk, p: Path, mode: nat)
    requires p in disk.tree && Reachable(disk.tree, p)
    modifies disk`tree
    ensures disk.tree == old(disk.tree)[p := WithMode(old(disk.tree)[p], mode)]
  {
    disk.ChangeMode(p, mode);
  }

  /**
    Sets every mode in sorted order. No call is refused, however restrictive the modes are: at
    each one every directory above the path still has the mode it was staged with.
   */
  method ApplyModes(disk: Disk, entries: seq<ModeEntry>) returns (order: seq<ModeEntry>)
    requires Describe(entries, disk.tree) && Untouched(disk.tree) && ParentsAreDirectories(disk.tree)
    modifies disk`tree
    ensures order == SortForChmod(entries)
    ensures disk.tree == WithModes(old(disk.tree), entries, |entries|)
  {
    ghost var t := disk.tree;
    order := SortForChmod(entries);
    ReadyToApply(entries, t);
    var n := 0;
    while n < |order|
      invariant 0 <= n <= |order| && disk.tree == WithModes(t, order, n)
    {
      StillReachable(t, order, n);
      Chmod(disk, order[n].path, order[n].mode);
      WithModesStep(t, order, n);
      n := n + 1;
    }
    SortGivesSameModes(t, entries);
  }

  lemma {:induction false} SortDescribes(entries: seq<ModeEntry>, t: Tree)
    requires Describe(entries, t)
    ensures Describe(SortForChmod(entries), t)
    ensures forall e :: e in SortForChmod(entries) <==> e in entries
  {
    var order := SortForChmod(entries);
    SortIsSorted(entries);
    forall i | 0 <= i < |order| ensures order[i].path in t && order[i].isDirectory == t[order[i].path].Dir? {
      assert order[i] in entries;
    }
  }

  lemma {:induction false} ReadyToApply(entries: seq<ModeEntry>, t: Tree)
    requires Describe(entries, t)
    ensures var order := SortForChmod(entries);
            SortedForChmod(order) && Describe(order, t) && WithModes(t, order, 0) == t
  {
    SortIsSorted(entries);
    SortDescribes(entries, t);
  }

  lemma {:induction false} StillReachable(t: Tree, s: seq<ModeEntry>, n: nat)
    requires n < |s| && SortedForChmod(s) && Describe(s, t) && Untouched(t) && ParentsAreDirectories(t)
    ensures Reachable(WithModes(t, s, n), s[n].path)
  {
    forall q | q in t && Above(q, s[n].path) ensures t[q].Dir? && !HasMode(s, n, q) {
      assert s[n].path in t;
      if i :| 0 <= i < n && s[i].path == q {
        NothingBeneathIsLater(s, i, n);
      }
    }
  }

  lemma {:induction false} WithModesStep(t: Tree, s: seq<ModeEntry>, n: nat)
    requires n < |s| && Describe(s, t)
    ensures var u := WithModes(t, s, n);
            s[n].path in u && WithModes(t, s, n + 1) == u[s[n].path := WithMode(u[s[n].path], s[n].mode)]
  {
    forall p | p in t
      ensures HasMode(s, n + 1, p) <==> p == s[n].path || HasMode(s, n, p)
      ensures HasMode(s, n + 1, p) && p == s[n].path ==> ModeFor(s, n + 1, p) == s[n].mode
      ensures HasMode(s, n, p) && p != s[n].path ==> ModeFor(s, n + 1, p) == ModeFor(s, n, p)
    {
      if p == s[n].path { assert HasMode(s, n + 1, p); }
      if i :| 0 <= i < n && s[i].path == p { assert HasMode(s, n + 1, p); }
    }
  }

  lemma {:induction false} SortGivesSameModes(t: Tree, entries: seq<ModeEntry>)
    requires Describe(entries, t)
    ensures WithModes(t, SortForChmod(entries), |SortForChmod(entries)|) == WithModes(t, entries, |entries|)
  {
    var order := SortForChmod(entries);
    SortDescribes(entries, t);
    forall p | p in t
      ensures HasMode(order, |order|, p) <==> HasMode(entries, |entries|, p)
      ensures HasMode(order, |order|, p) ==> ModeFor(order, |order|, p) == ModeFor(entries, |entries|, p)
    {
      if i :| 0 <= i < |order| && order[i].path == p {
        assert order[i] in entries;
        var j :| 0 <= j < |entries| && entries[j] == order[i];
      }
      if j :| 0 <= j < |entries| && entries[j].path == p {
        assert entries[j] in order;
      }
    }
  }
}
