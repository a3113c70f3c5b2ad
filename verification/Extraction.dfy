/** Extracting an untrusted tar archive below a fresh directory. */
module Extraction {
  import opened Prelude
  import opened BackupPaths
  import opened BackupDisk

  datatype Kind = Directory | Regular | Unsupported

  /** One archive member; data is what the archive still holds for it, possibly less than size. */
  datatype Member = Member(name: string, kind: Kind, size: int, mode: nat, data: Bytes)

  datatype Limits = Limits(maxBytes: int, maxMembers: int)

  datatype ExtractError =
    | TooManyMembers | UnsafeName | DuplicateMember | UnsupportedType
    | InvalidSize | TooLarge | CannotCreate | Truncated

  const CHUNK: nat := 1024 * 1024

  // ---- Placing entries in a tree --------------------------------------------------------------------

  /** A path and what is to stand there. */
  datatype Entry = Entry(path: Path, node: Node)

  /** Entry i does not clash with an earlier entry or with a directory made for one. */
  ghost predicate Fits(es: seq<Entry>, i: nat)
    requires i < |es|
  {
    forall j :: 0 <= j < i ==>
      && es[i].path != es[j].path
      && !Above(es[i].path, es[j].path)
      && (Above(es[j].path, es[i].path) ==> es[j].node.Dir?)
  }

  /** The tree after creating the first n entries, with the directories missing above them. */
  ghost function Placed(es: seq<Entry>, n: nat): Tree
    requires n <= |es|
  {
    if n == 0 then map[[] := Dir(UMASK_MODE)]
    else WithParents(Placed(es, n - 1), es[n - 1].path)[es[n - 1].path := es[n - 1].node]
  }

  ghost predicate AllFit(es: seq<Entry>, n: nat)
    requires n <= |es|
  {
    forall i :: 0 <= i < n ==> es[i].path != [] && Fits(es, i)
  }

  ghost predicate Covers(es: seq<Entry>, i: int, p: Path) {
    0 <= i < |es| && (p == es[i].path || Above(p, es[i].path))
  }

  /** Nothing but the entries and the directories above them. */
  lemma {:induction false} PlacedPaths(es: seq<Entry>, n: nat, p: Path)
    requires n <= |es|
    ensures p in Placed(es, n) <==> p == [] || exists i :: i < n && Covers(es, i, p)
  {
    if n > 0 {
      PlacedPaths(es, n - 1, p);
      ParentsAre(Placed(es, n - 1), es[n - 1].path, p);
      assert p == es[n - 1].path || Above(p, es[n - 1].path) <==> Covers(es, n - 1, p);
    }
  }

  lemma {:induction false} EntriesDiffer(es: seq<Entry>, n: nat, i: nat, j: nat)
    requires i < j < n <= |es| && AllFit(es, n)
    ensures es[i].path != es[j].path
  {
    assert Fits(es, j);
  }

  lemma {:induction false} CreationKeeps(t: Tree, e: Entry, p: Path)
    requires p in t && p != e.path
    ensures var u := WithParents(t, e.path)[e.path := e.node]; p in u && u[p] == t[p]
  {
    ParentsAre(t, e.path, p);
  }

  lemma {:induction false} PlacedStays(es: seq<Entry>, n: nat, i: nat)
    requires i < n <= |es| && forall j :: i < j < n ==> es[j].path != es[i].path
    ensures es[i].path in Placed(es, n) && Placed(es, n)[es[i].path] == es[i].node
  {
    if i < n - 1 {
      PlacedStays(es, n - 1, i);
      CreationKeeps(Placed(es, n - 1), es[n - 1], es[i].path);
    }
  }

  /** No entry is overwritten. */
  lemma {:induction false} PlacedEntry(es: seq<Entry>, n: nat, i: nat)
    requires i < n <= |es| && AllFit(es, n)
    ensures es[i].path in Placed(es, n) && Placed(es, n)[es[i].path] == es[i].node
  {
    forall j | i < j < n ensures es[j].path != es[i].path {
      EntriesDiffer(es, n, i, j);
    }
    PlacedStays(es, n, i);
  }

  /** Whatever is no entry was made as a directory above one. */
  lemma {:induction false} PlacedParent(es: seq<Entry>, n: nat, p: Path)
    requires n <= |es| && p in Placed(es, n) && forall i :: 0 <= i < n ==> es[i].path != p
    ensures Placed(es, n)[p] == Dir(UMASK_MODE)
  {
    if n > 0 {
      assert es[n - 1].path != p;
      ParentsAre(Placed(es, n - 1), es[n - 1].path, p);
      if p in Placed(es, n - 1) {
        PlacedParent(es, n - 1, p);
      }
    }
  }

  /** One more entry can be created exactly when it fits. */
  lemma {:induction false} CreatableIffFits(es: seq<Entry>, n: nat)
    requires n < |es| && AllFit(es, n) && es[n].path != []
    ensures CanCreate(Placed(es, n), es[n].path) <==> Fits(es, n)
  {
    var t, p := Placed(es, n), es[n].path;
    if CanCreate(t, p) {
      forall j | 0 <= j < n
        ensures p != es[j].path && !Above(p, es[j].path) && (Above(es[j].path, p) ==> es[j].node.Dir?)
      {
        PlacedEntry(es, n, j);
        if Above(p, es[j].path) {
          assert Covers(es, j, p);
          PlacedPaths(es, n, p);
        }
      }
    }
    if Fits(es, n) {
      PlacedPaths(es, n, p);
      forall q | q in t && Above(q, p) ensures t[q].Dir? {
        if i: int :| 0 <= i < n && es[i].path == q {
          PlacedEntry(es, n, i);
        } else {
          PlacedParent(es, n, q);
        }
      }
    }
  }

  // ---- What an archive must be like ---------------------------------------------------------------

  function EntryOf(m: Member): Entry {
    var name := SafeMemberName(m.name);
    Entry(if name.Some? then name.value else [],
          if m.kind.Directory? then Dir(PRIVATE_DIR_MODE)
          else File(if 0 <= m.size <= |m.data| then m.data[..m.size] else m.data, PRIVATE_FILE_MODE))
  }

  ghost function Entries(ms: seq<Member>): seq<Entry> {
    seq(|ms|, i requires 0 <= i < |ms| => EntryOf(ms[i]))
  }

  function SizeSum(ms: seq<Member>, n: nat): int
    requires n <= |ms|
  {
    if n == 0 then 0 else SizeSum(ms, n - 1) + ms[n - 1].size
  }

  ghost predicate MemberOk(ms: seq<Member>, i: nat, limits: Limits)
    requires i < |ms|
  {
    && i < limits.maxMembers
    && SafeMemberName(ms[i].name).Some?
    && !ms[i].kind.Unsupported?
    && ms[i].size >= 0
    && SizeSum(ms, i + 1) <= limits.maxBytes
    && Fits(Entries(ms), i)
    && (ms[i].kind.Regular? ==> |ms[i].data| >= ms[i].size)
  }

  ghost predicate ExtractableUpTo(ms: seq<Member>, n: nat, limits: Limits)
    requires n <= |ms|
  {
    n == 0 || (ExtractableUpTo(ms, n - 1, limits) && MemberOk(ms, n - 1, limits))
  }

  lemma {:induction false} ExtractableIffAllOk(ms: seq<Member>, n: nat, limits: Limits)
    requires n <= |ms|
    ensures ExtractableUpTo(ms, n, limits) <==> forall i :: 0 <= i < n ==> MemberOk(ms, i, limits)
  {
    if n > 0 {
      ExtractableIffAllOk(ms, n - 1, limits);
    }
  }

  lemma {:induction false} OneBadMemberIsFatal(ms: seq<Member>, i: nat, n: nat, limits: Limits)
    requires i < n <= |ms| && !MemberOk(ms, i, limits)
    ensures !ExtractableUpTo(ms, n, limits)
  {
    if i < n - 1 {
      OneBadMemberIsFatal(ms, i, n - 1, limits);
    }
  }

  ghost predicate Extractable(ms: seq<Member>, limits: Limits) {
    ExtractableUpTo(ms, |ms|, limits)
  }

  ghost function ArchivedModes(ms: seq<Member>, n: nat): map<Path, nat>
    requires n <= |ms|
  {
    if n == 0 then map[] else ArchivedModes(ms, n - 1)[EntryOf(ms[n - 1]).path := ms[n - 1].mode]
  }

  lemma {:induction false} ExtractableFits(ms: seq<Member>, n: nat, limits: Limits)
    requires n <= |ms| && ExtractableUpTo(ms, n, limits)
    ensures AllFit(Entries(ms), n)
  {
    var es := Entries(ms);
    ExtractableIffAllOk(ms, n, limits);
    forall i | 0 <= i < n ensures es[i].path != [] && Fits(es, i) {
      assert MemberOk(ms, i, limits);
      SafeNameIff(ms[i].name, es[i].path);
    }
  }

  // ---- Extraction ------------------------------------------------------------------------------------

  /** Copies one member in chunks; a read may return fewer bytes than it was asked for. */
  method CopyMember(m: Member, target: Path, disk: Disk) returns (ok: bool)
    requires m.size >= 0 && target in disk.tree && disk.tree[target] == File([], UMASK_MODE)
    requires disk.written + m.size <= disk.budget
    modifies disk
    ensures ok <==> |m.data| >= m.size
    ensures disk.tree == old(disk.tree)[target := File(if ok then m.data[..m.size] else m.data, UMASK_MODE)]
    ensures disk.written == old(disk.written) + (if ok then m.size else |m.data|)
  {
    var remaining, offset := m.size, 0;
    while remaining > 0
      invariant 0 <= remaining && 0 <= offset <= |m.data| && offset + remaining == m.size
      invariant disk.tree == old(disk.tree)[target := File(m.data[..offset], UMASK_MODE)]
      invariant disk.written == old(disk.written) + offset
    {
      if offset == |m.data| {
        assert m.data[..offset] == m.data;
        return false;
      }
      var most := if remaining < CHUNK then remaining else CHUNK;
      var len: int :| 1 <= len <= most && len <= |m.data| - offset;
      disk.Append(target, m.data[offset..offset + len]);
      assert m.data[..offset] + m.data[offset..offset + len] == m.data[..offset + len];
      remaining, offset := remaining - len, offset + len;
    }
    ok := true;
  }

  /**
    Extraction succeeds exactly on the archives every member of which is in order, and then the
    directory holds exactly those members. Otherwise it stops at the first member out of order,
    with all earlier members in place. The disk's own contract bounds the bytes at every write.
   */
  method SafeExtract(ms: seq<Member>, limits: Limits, disk: Disk)
    returns (problem: Option<ExtractError>, modes: map<Path, nat>, processed: nat)
    requires limits.maxBytes > 0 && limits.maxMembers > 0
    requires disk.tree == map[[] := Dir(UMASK_MODE)] && disk.written == 0 && disk.budget == limits.maxBytes
    modifies disk
    ensures problem.None? <==> Extractable(ms, limits)
    ensures problem.None? ==> processed == |ms|
    ensures problem.Some? ==> processed < |ms| && !MemberOk(ms, processed, limits)
    ensures processed <= |ms| && processed <= limits.maxMembers && ExtractableUpTo(ms, processed, limits)
    ensures modes == ArchivedModes(ms, processed)
    ensures Leaves(ms, processed, problem == Some(Truncated), Placed(Entries(ms), processed), disk.tree)
    ensures disk.written <= limits.maxBytes
  {
    problem, modes, processed := None, map[], 0;
    var seen: set<Path> := {};
    var totalBytes := 0;
    NothingYet(ms, limits);
    while processed < |ms|
      invariant problem.None? && processed <= |ms| && processed <= limits.maxMembers
      invariant InProgress(ms, processed, limits, seen, totalBytes, modes)
      invariant disk.tree == Placed(Entries(ms), processed) && disk.written <= totalBytes
    {
      problem, seen, totalBytes, modes := ExtractNext(ms, processed, limits, seen, totalBytes, modes, disk);
      if problem.Some? {
        OneBadMemberIsFatal(ms, processed, |ms|, limits);
        return;
      }
      processed := processed + 1;
    }
  }

  lemma {:induction false} NothingYet(ms: seq<Member>, limits: Limits)
    requires limits.maxBytes > 0
    ensures InProgress(ms, 0, limits, {}, 0, map[]) && Placed(Entries(ms), 0) == map[[] := Dir(UMASK_MODE)]
  {
  }

  ghost predicate Keeps(t: Tree, u: Tree) {
    forall p :: p in t ==> p in u && u[p] == t[p]
  }

  /** What a truncated member leaves: all there was of it, in a file with the mode it was created with. */
  function PartlyWritten(t: Tree, p: Path, data: Bytes): Tree {
    WithParents(t, p)[p := File(data, UMASK_MODE)]
  }

  /** The directory once extraction stops at member n, out of the tree t of those before it. */
  ghost predicate Leaves(ms: seq<Member>, n: nat, truncated: bool, t: Tree, u: Tree) {
    if truncated then n < |ms| && Keeps(t, u) && u == PartlyWritten(t, Entries(ms)[n].path, ms[n].data) else u == t
  }

  /** The loop's variables after n members in order. */
  ghost predicate InProgress(ms: seq<Member>, n: nat, limits: Limits,
                             seen: set<Path>, totalBytes: int, modes: map<Path, nat>)
    requires n <= |ms|
  {
    && ExtractableUpTo(ms, n, limits)
    && seen == PathsUpTo(Entries(ms), n)
    && totalBytes == SizeSum(ms, n)
    && 0 <= totalBytes <= limits.maxBytes
    && modes == ArchivedModes(ms, n)
  }

  /** One round of the loop: the checks in their order, then the member itself. */
  method ExtractNext(ms: seq<Member>, index: nat, limits: Limits, seen: set<Path>, totalBytes: int,
                     modes: map<Path, nat>, disk: Disk)
    returns (problem: Option<ExtractError>, seen': set<Path>, totalBytes': int, modes': map<Path, nat>)
    requires index < |ms| && InProgress(ms, index, limits, seen, totalBytes, modes)
    requires disk.tree == Placed(Entries(ms), index)
    requires disk.written <= totalBytes && disk.budget == limits.maxBytes
    modifies disk
    ensures problem.None? <==> MemberOk(ms, index, limits)
    ensures problem.None? ==> InProgress(ms, index + 1, limits, seen', totalBytes', modes') && index + 1 <= limits.maxMembers
    ensures problem.None? ==> disk.tree == Placed(Entries(ms), index + 1) && disk.written <= totalBytes'
    ensures problem.Some? ==> modes' == modes && disk.written <= disk.budget
    ensures problem.Some? ==> Leaves(ms, index, problem == Some(Truncated), old(disk.tree), disk.tree)
  {
    var member := ms[index];
    seen', totalBytes', modes' := seen, totalBytes, modes;
    var admitted := AdmitMember(member, index + 1, seen, totalBytes, limits);
    if admitted.Err? {
      RefusedIsNotOk(ms, index, limits);
      problem := Some(admitted.error);
      return;
    }
    var key := admitted.value;
    AdmittedIsOkIff(ms, index, limits);
    problem := ExtractMember(member, key, disk);
    if problem.None? {
      seen', totalBytes', modes' := seen + {key}, totalBytes + member.size, modes[key := member.mode];
    }
  }

  ghost function PathsUpTo(es: seq<Entry>, n: nat): set<Path>
    requires n <= |es|
  {
    if n == 0 then {} else PathsUpTo(es, n - 1) + {es[n - 1].path}
  }

  lemma {:induction false} PathsUpToHasAll(es: seq<Entry>, n: nat, p: Path)
    requires n <= |es|
    ensures p in PathsUpTo(es, n) <==> exists i :: 0 <= i < n && es[i].path == p
  {
    if n > 0 {
      PathsUpToHasAll(es, n - 1, p);
    }
  }

  predicate Admits(m: Member, number: nat, seen: set<Path>, totalBytes: int, limits: Limits) {
    && number <= limits.maxMembers
    && SafeMemberName(m.name).Some?
    && SafeMemberName(m.name).value !in seen
    && !m.kind.Unsupported?
    && m.size >= 0
    && totalBytes + m.size <= limits.maxBytes
  }

  /** The checks made before a member touches the disk, in their order. */
  method AdmitMember(m: Member, number: nat, seen: set<Path>, totalBytes: int, limits: Limits)
    returns (r: Result<Path, ExtractError>)
    ensures r.Ok? <==> Admits(m, number, seen, totalBytes, limits)
    ensures r.Ok? ==> SafeMemberName(m.name) == Some(r.value)
    ensures r.Err? ==> !r.error.Truncated?
  {
    if number > limits.maxMembers {
      return Err(TooManyMembers);
    }
    var relative := SafeMemberName(m.name);
    if relative.None? {
      return Err(UnsafeName);
    }
    if relative.value in seen {
      return Err(DuplicateMember);
    }
    if m.kind.Unsupported? {
      return Err(UnsupportedType);
    }
    if m.size < 0 {
      return Err(InvalidSize);
    }
    if totalBytes + m.size > limits.maxBytes {
      return Err(TooLarge);
    }
    r := Ok(relative.value);
  }

  /** An admitted member is in order exactly when it can be created and its bytes are all there. */
  lemma {:induction false} AdmittedIsOkIff(ms: seq<Member>, n: nat, limits: Limits)
    requires n < |ms| && ExtractableUpTo(ms, n, limits)
    requires Admits(ms[n], n + 1, PathsUpTo(Entries(ms), n), SizeSum(ms, n), limits)
    ensures CanCreate(Placed(Entries(ms), n), Entries(ms)[n].path) && (ms[n].kind.Regular? ==> |ms[n].data| >= ms[n].size)
       <==> MemberOk(ms, n, limits)
  {
    ExtractableFits(ms, n, limits);
    SafeNameIff(ms[n].name, Entries(ms)[n].path);
    CreatableIffFits(Entries(ms), n);
  }

  lemma {:induction false} RefusedIsNotOk(ms: seq<Member>, n: nat, limits: Limits)
    requires n < |ms| && !Admits(ms[n], n + 1, PathsUpTo(Entries(ms), n), SizeSum(ms, n), limits)
    ensures !MemberOk(ms, n, limits)
  {
    PathsUpToHasAll(Entries(ms), n, Entries(ms)[n].path);
  }

  /** Creates one member below the destination. */
  method ExtractMember(m: Member, key: Path, disk: Disk) returns (problem: Option<ExtractError>)
    requires !m.kind.Unsupported? && m.size >= 0 && SafeMemberName(m.name) == Some(key)
    requires disk.written + m.size <= disk.budget
    modifies disk
    ensures problem.None? <==> CanCreate(old(disk.tree), key) && (m.kind.Regular? ==> |m.data| >= m.size)
    ensures problem.None? ==> disk.tree == WithParents(old(disk.tree), key)[key := EntryOf(m).node]
    ensures problem.Some? && !problem.value.Truncated? ==> disk.tree == old(disk.tree)
    ensures problem == Some(Truncated) ==> disk.tree == PartlyWritten(old(disk.tree), key, m.data)
    ensures problem.Some? ==> Keeps(old(disk.tree), disk.tree)
    ensures disk.written <= old(disk.written) + m.size
  {
    if m.kind.Directory? {
      var made := disk.MakeDirectory(key);
      if !made {
        return Some(CannotCreate);
      }
      disk.ChangeMode(key, PRIVATE_DIR_MODE);
    } else {
      var made := disk.CreateExclusive(key);
      if !made {
        return Some(CannotCreate);
      }
      var copied := CopyMember(m, key, disk);
      if !copied {
        return Some(Truncated);
      }
      disk.ChangeMode(key, PRIVATE_FILE_MODE);
    }
    problem := None;
  }
}
