/**
  Writing a staged tree as an archive, and the round trip: what a restore makes of that archive.
 */
module BackupArchive {
  import opened Prelude
  import opened BackupPaths
  import opened BackupDisk
  import opened BackupManifest
  import opened BackupPermissions
  import opened Extraction
  import opened BackupRestore

  // ---- Manifest rows and archive members ------------------------------------------------------------

  function RowFor(s: Tree, c: Codec, p: Path): Row
    requires p in s && s[p].File?
  {
    Row(Join(p), |s[p].data|, c.sha256(s[p].data))
  }

  /** One row for each file of the listing, in its order. */
  function RowsOf(s: Tree, c: Codec, listing: seq<Path>): seq<Row>
    requires forall p :: p in listing ==> p in s
  {
    if listing == [] then []
    else
      var n := |listing| - 1;
      var before := RowsOf(s, c, listing[..n]);
      if s[listing[n]].File? then before + [RowFor(s, c, listing[n])] else before
  }

  function MemberFor(s: Tree, p: Path): Member
    requires p in s
  {
    match s[p]
    case Dir(mode) => Member(Join(p), Directory, 0, mode, [])
    case File(data, mode) => Member(Join(p), Regular, |data|, mode, data)
  }

  function MembersOf(s: Tree, listing: seq<Path>): seq<Member>
    requires forall p :: p in listing ==> p in s
  {
    seq(|listing|, i requires 0 <= i < |listing| => MemberFor(s, listing[i]))
  }

  method ArchiveRows(s: Tree, c: Codec, listing: seq<Path>) returns (rows: seq<Row>)
    requires forall p :: p in listing ==> p in s
    ensures rows == RowsOf(s, c, listing)
  {
    rows := [];
    var n := 0;
    while n < |listing|
      invariant 0 <= n <= |listing| && rows == RowsOf(s, c, listing[..n])
    {
      assert listing[n] in listing;
      assert listing[..n + 1][..n] == listing[..n];
      if s[listing[n]].File? {
        rows := rows + [Row(Join(listing[n]), |s[listing[n]].data|, c.sha256(s[listing[n]].data))];
      }
      n := n + 1;
    }
    assert listing[..n] == listing;
  }

  method WriteTar(s: Tree, listing: seq<Path>) returns (members: seq<Member>)
    requires forall p :: p in listing ==> p in s
    ensures members == MembersOf(s, listing)
  {
    members := [];
    for n := 0 to |listing|
      invariant members == MembersOf(s, listing)[..n]
    {
      assert listing[n] in listing;
      members := members + [MemberFor(s, listing[n])];
    }
  }

  /** Every file of the listing has its row, and every row its file. */
  lemma {:induction false} RowsAreTheFiles(s: Tree, c: Codec, listing: seq<Path>)
    requires forall p :: p in listing ==> p in s
    ensures forall p :: p in listing && s[p].File? ==> RowFor(s, c, p) in RowsOf(s, c, listing)
    ensures forall row :: row in RowsOf(s, c, listing) ==>
              exists p :: p in listing && s[p].File? && row == RowFor(s, c, p)
  {
    if listing != [] {
      var n := |listing| - 1;
      RowsAreTheFiles(s, c, listing[..n]);
      assert listing == listing[..n] + [listing[n]];
    }
  }

  lemma {:induction false} RowsAreDistinct(s: Tree, c: Codec, listing: seq<Path>)
    requires forall p :: p in listing ==> p in s && LegalPath(p)
    requires forall i, j :: 0 <= i < j < |listing| ==> listing[i] != listing[j]
    ensures DistinctRows(RowsOf(s, c, listing))
  {
    if listing != [] {
      var n := |listing| - 1;
      var before := RowsOf(s, c, listing[..n]);
      RowsAreDistinct(s, c, listing[..n]);
      RowsAreTheFiles(s, c, listing[..n]);
      forall i | 0 <= i < |before| ensures before[i].path != Join(listing[n]) {
        assert before[i] in before;
        var p :| p in listing[..n] && s[p].File? && before[i] == RowFor(s, c, p);
        if Join(p) == Join(listing[n]) {
          JoinIsInjective(p, listing[n]);
        }
      }
    }
  }

  ghost predicate DistinctRows(rows: seq<Row>) {
    forall i, j :: 0 <= i < j < |rows| ==> rows[i].path != rows[j].path
  }

  // ---- A staged tree ------------------------------------------------------------------------------

  ghost predicate Rooted(s: Tree) {
    [] in s && s[[]].Dir?
  }

  ghost predicate HasParents(s: Tree) {
    forall p, q :: p in s && Above(q, p) ==> q in s && s[q].Dir?
  }

  ghost predicate FileNames(p: Path) {
    forall i :: 0 <= i < |p| ==> FileName(p[i])
  }

  ghost predicate FileSystemTree(s: Tree) {
    Rooted(s) && HasParents(s) && forall p :: p in s ==> FileNames(p)
  }

  ghost function PayloadPaths(s: Tree): set<Path> {
    set p | p in s && Above(PAYLOAD, p)
  }

  const DATABASES: Path := ["payload", "sqlite"]
  const DIRECTORIES: Path := ["payload", "directories"]

  /** values names, without repeats, entries directly below head. */
  ghost predicate NamesBelow(head: Path, values: seq<string>, names: seq<string>) {
    && |values| == |names|
    && (forall i :: 0 <= i < |values| ==> values[i] == Join(head + [names[i]]))
    && NoRepeats(names)
  }

  /** What create_backup has in its staging directory when it writes the archive. */
  ghost predicate Staged(s: Tree, m: Manifest, c: Codec, databases: seq<string>, roots: seq<string>) {
    && FileSystemTree(s)
    && (set p | p in s && |p| == 1) == {MANIFEST, PAYLOAD}
    && s[MANIFEST].File? && s[PAYLOAD].Dir?
    && s[MANIFEST].data == c.encode(m)
    && m.files == RowsOf(s, c, SortedListing(PayloadPaths(s)))
    && NamesBelow(DATABASES, m.sqliteFiles, databases) && NamesBelow(DIRECTORIES, m.directoryRoots, roots)
    && (forall n :: n in databases ==> DatabaseStaged(s, c, n))
    && (forall n :: n in roots ==> RootStaged(s, n))
  }

  ghost predicate DatabaseStaged(s: Tree, c: Codec, n: string) {
    DATABASES + [n] in s && s[DATABASES + [n]].File? && c.quickCheck(s[DATABASES + [n]].data)
  }

  ghost predicate RootStaged(s: Tree, n: string) {
    DIRECTORIES + [n] in s && s[DIRECTORIES + [n]].Dir?
  }

  ghost function Listing(s: Tree): seq<Path> {
    SortedListing(s.Keys - {[]})
  }

  ghost function ArchiveOf(s: Tree): seq<Member> {
    MembersOf(s, Listing(s))
  }

  /** No name in the tree contains a backslash. */
  ghost predicate AllLegal(s: Tree) {
    forall p :: p in s && p != [] ==> LegalPath(p)
  }

  ghost predicate WithinLimits(s: Tree, limits: Limits) {
    && |Listing(s)| <= limits.maxMembers
    && SizeSum(ArchiveOf(s), |ArchiveOf(s)|) <= limits.maxBytes
  }

  // ---- Extracting it again -------------------------------------------------------------------------

  function PrivateNode(n: Node): Node {
    match n
    case Dir(_) => Dir(PRIVATE_DIR_MODE)
    case File(data, _) => File(data, PRIVATE_FILE_MODE)
  }

  ghost function Private(s: Tree): Tree {
    map p | p in s :: if p == [] then Dir(UMASK_MODE) else PrivateNode(s[p])
  }

  /** Entry i of the archive stands for path i of the listing. */
  ghost predicate EntryAt(es: seq<Entry>, l: seq<Path>, s: Tree, i: int) {
    0 <= i < |es| && i < |l| && l[i] in s && l[i] != [] && es[i] == Entry(l[i], PrivateNode(s[l[i]]))
  }

  ghost predicate EntriesFor(es: seq<Entry>, l: seq<Path>, s: Tree) {
    |es| == |l| && forall i :: 0 <= i < |l| ==> EntryAt(es, l, s, i)
  }

  /** A member is accepted exactly when its path has no backslash. */
  lemma {:induction false} NameOfMember(s: Tree, p: Path)
    requires p in s && p != [] && FileNames(p)
    ensures SafeMemberName(MemberFor(s, p).name) == if LegalPath(p) then Some(p) else None
  {
    SafeNameOfJoin(p);
  }

  lemma {:induction false} EntryOfMember(s: Tree, p: Path)
    requires p in s && LegalPath(p)
    ensures EntryOf(MemberFor(s, p)) == Entry(p, PrivateNode(s[p]))
  {
    NameOfMember(s, p);
    if s[p].File? {
      assert s[p].data[..|s[p].data|] == s[p].data;
    }
  }

  lemma {:induction false} ArchiveEntries(s: Tree)
    requires AllLegal(s)
    ensures EntriesFor(Entries(ArchiveOf(s)), Listing(s), s)
  {
    var l := Listing(s);
    forall i | 0 <= i < |l| ensures EntryAt(Entries(ArchiveOf(s)), l, s, i) {
      assert l[i] in l;
      EntryOfMember(s, l[i]);
    }
  }

  lemma {:induction false} SizesAdd(s: Tree, listing: seq<Path>, i: nat, n: nat)
    requires (forall p :: p in listing ==> p in s) && i <= n <= |listing|
    ensures SizeSum(MembersOf(s, listing), i) <= SizeSum(MembersOf(s, listing), n)
  {
    if i < n {
      SizesAdd(s, listing, i, n - 1);
    }
  }

  /** Top-down order is what lets every directory be created before anything beneath it. */
  lemma {:induction false} EntriesFit(es: seq<Entry>, l: seq<Path>, s: Tree, i: nat)
    requires EntriesFor(es, l, s) && HasParents(s) && Ascending(l) && i < |l|
    ensures Fits(es, i)
  {
    assert EntryAt(es, l, s, i);
    forall j | 0 <= j < i
      ensures es[i].path != es[j].path && !Above(es[i].path, es[j].path)
      ensures Above(es[j].path, es[i].path) ==> es[j].node.Dir?
    {
      assert EntryAt(es, l, s, j);
      ListingIsTopDown(l, j, i);
    }
  }

  lemma {:induction false} EntriesAllFit(es: seq<Entry>, l: seq<Path>, s: Tree)
    requires EntriesFor(es, l, s) && HasParents(s) && Ascending(l)
    ensures AllFit(es, |es|)
  {
    forall i | 0 <= i < |es| ensures es[i].path != [] && Fits(es, i) {
      assert EntryAt(es, l, s, i);
      EntriesFit(es, l, s, i);
    }
  }

  lemma {:induction false} MemberIsSound(s: Tree, p: Path)
    requires p in s && LegalPath(p)
    ensures var m := MemberFor(s, p);
      && SafeMemberName(m.name).Some? && !m.kind.Unsupported? && m.size >= 0
      && (m.kind.Regular? ==> |m.data| >= m.size)
  {
    NameOfMember(s, p);
  }

  lemma {:induction false} SizeIsOk(s: Tree, limits: Limits, i: nat)
    requires WithinLimits(s, limits) && i < |Listing(s)|
    ensures i < limits.maxMembers && SizeSum(ArchiveOf(s), i + 1) <= limits.maxBytes
  {
    SizesAdd(s, Listing(s), i + 1, |Listing(s)|);
  }

  lemma {:induction false} ArchiveEntryFits(s: Tree, i: nat)
    requires HasParents(s) && AllLegal(s) && i < |Listing(s)|
    ensures Fits(Entries(ArchiveOf(s)), i)
  {
    ArchiveEntries(s);
    EntriesFit(Entries(ArchiveOf(s)), Listing(s), s, i);
  }

  lemma {:induction false} ArchiveMemberOk(s: Tree, limits: Limits, i: nat)
    requires HasParents(s) && AllLegal(s) && WithinLimits(s, limits) && i < |Listing(s)|
    ensures MemberOk(ArchiveOf(s), i, limits)
  {
    assert Listing(s)[i] in Listing(s);
    MemberIsSound(s, Listing(s)[i]);
    SizeIsOk(s, limits, i);
    ArchiveEntryFits(s, i);
  }

  lemma {:induction false} ArchiveIsExtractable(s: Tree, limits: Limits)
    requires HasParents(s) && AllLegal(s) && WithinLimits(s, limits)
    ensures Extractable(ArchiveOf(s), limits)
  {
    var ms := ArchiveOf(s);
    forall i | 0 <= i < |ms| ensures MemberOk(ms, i, limits) {
      ArchiveMemberOk(s, limits, i);
    }
    ExtractableIffAllOk(ms, |ms|, limits);
  }

  lemma {:induction false} BackslashIsFatal(s: Tree, limits: Limits, p: Path)
    requires FileNames(p) && p in s && p != [] && !LegalPath(p)
    ensures !Extractable(ArchiveOf(s), limits)
  {
    var l, ms := Listing(s), ArchiveOf(s);
    assert p in l;
    var i :| 0 <= i < |l| && l[i] == p;
    NameOfMember(s, p);
    OneBadMemberIsFatal(ms, i, |ms|, limits);
  }

  lemma {:induction false} ArchiveExtractableIff(s: Tree, limits: Limits)
    requires FileSystemTree(s) && Listing(s) != []
    ensures Extractable(ArchiveOf(s), limits) <==> AllLegal(s) && WithinLimits(s, limits)
  {
    if AllLegal(s) && WithinLimits(s, limits) {
      ArchiveIsExtractable(s, limits);
    } else if !AllLegal(s) {
      var p :| p in s && p != [] && !LegalPath(p);
      BackslashIsFatal(s, limits, p);
    } else {
      var ms := ArchiveOf(s);
      assert !MemberOk(ms, |ms| - 1, limits);
      OneBadMemberIsFatal(ms, |ms| - 1, |ms|, limits);
    }
  }

  lemma {:induction false} PlacedIsPrivate(es: seq<Entry>, l: seq<Path>, s: Tree, p: Path)
    requires EntriesFor(es, l, s) && HasParents(s) && Rooted(s) && Ascending(l)
    requires forall q :: q in l <==> q in s && q != []
    ensures p in Placed(es, |es|) <==> p in s
    ensures p in s ==> Placed(es, |es|)[p] == Private(s)[p]
  {
    var n := |es|;
    EntriesAllFit(es, l, s);
    PlacedPaths(es, n, p);
    if i: int :| 0 <= i < |l| && l[i] == p {
      assert EntryAt(es, l, s, i) && Covers(es, i, p);
      PlacedEntry(es, n, i);
    } else if p == [] {
      assert forall i :: 0 <= i < n ==> EntryAt(es, l, s, i);
      PlacedParent(es, n, p);
    } else {
      forall i: int | 0 <= i < n ensures !Covers(es, i, p) {
        assert EntryAt(es, l, s, i);
      }
    }
  }

  lemma {:induction false} ArchiveExtractsToStaging(s: Tree)
    requires FileSystemTree(s) && AllLegal(s)
    ensures Extracted(ArchiveOf(s)) == Private(s)
  {
    var l, es := Listing(s), Entries(ArchiveOf(s));
    ArchiveEntries(s);
    forall p
      ensures p in Placed(es, |es|) <==> p in s
      ensures p in s ==> Placed(es, |es|)[p] == Private(s)[p]
    {
      PlacedIsPrivate(es, l, s, p);
    }
  }

  /** The modes of the first n members, under the paths of the listing. */
  ghost function ListedModes(ms: seq<Member>, l: seq<Path>, n: nat): map<Path, nat>
    requires |ms| == |l| && n <= |l|
  {
    if n == 0 then map[] else ListedModes(ms, l, n - 1)[l[n - 1] := ms[n - 1].mode]
  }

  lemma {:induction false} ModesAreListed(ms: seq<Member>, l: seq<Path>, n: nat)
    requires |ms| == |l| && n <= |l|
    requires forall k :: 0 <= k < |l| ==> EntryOf(ms[k]).path == l[k]
    ensures ArchivedModes(ms, n) == ListedModes(ms, l, n)
  {
    if n > 0 { ModesAreListed(ms, l, n - 1); }
  }

  lemma {:induction false} ModesAreTheirs(ms: seq<Member>, l: seq<Path>, n: nat, i: nat)
    requires |ms| == |l| && i < n <= |l| && Ascending(l)
    ensures l[i] in ListedModes(ms, l, n) && ListedModes(ms, l, n)[l[i]] == ms[i].mode
  {
    if i < n - 1 {
      ModesAreTheirs(ms, l, n - 1, i);
      ListingIsTopDown(l, i, n - 1);
    }
  }

  lemma {:induction false} ModeOfPath(s: Tree, p: Path)
    requires AllLegal(s) && p in s && p != []
    ensures var modes := ArchivedModes(ArchiveOf(s), |ArchiveOf(s)|); p in modes && modes[p] == s[p].mode
  {
    var l, ms := Listing(s), ArchiveOf(s);
    assert p in l;
    var i :| 0 <= i < |l| && l[i] == p;
    forall k | 0 <= k < |l| ensures EntryOf(ms[k]).path == l[k] {
      assert l[k] in l;
      EntryOfMember(s, l[k]);
    }
    ModesAreListed(ms, l, |l|);
    ModesAreTheirs(ms, l, |l|, i);
  }

  // ---- Verifying it again ---------------------------------------------------------------------------

  lemma {:induction false} RowOfFile(s: Tree, c: Codec, p: Path)
    requires HasParents(s) && LegalPath(p) && p in PayloadPaths(s) && s[p].File? && Lawful(c)
    ensures RowOk(Private(s), c, RowFor(s, c, p)) && PathOfRow(RowFor(s, c, p)) == p
    ensures p in PayloadFiles(Private(s))
  {
    assert p == PAYLOAD + p[1..];
    ManifestPathOfJoin(PAYLOAD, p[1..]);
  }

  lemma {:induction false} StagedRowsAreOk(s: Tree, c: Codec)
    requires HasParents(s) && AllLegal(s) && Lawful(c)
    ensures RowsOk(Private(s), c, RowsOf(s, c, SortedListing(PayloadPaths(s))))
  {
    var l, t := SortedListing(PayloadPaths(s)), Private(s);
    var rows := RowsOf(s, c, l);
    RowsAreTheFiles(s, c, l);
    forall i, j | 0 <= i < j < |l| ensures l[i] != l[j] { ListingIsTopDown(l, i, j); }
    RowsAreDistinct(s, c, l);
    forall i | 0 <= i < |rows| ensures RowOk(t, c, rows[i]) && PathOfRow(rows[i]) in PayloadFiles(t) {
      assert rows[i] in rows;
      var p :| p in l && s[p].File? && rows[i] == RowFor(s, c, p);
      RowOfFile(s, c, p);
    }
    forall p | p in PayloadFiles(t) ensures p in set i | 0 <= i < |rows| :: PathOfRow(rows[i]) {
      assert p in l && RowFor(s, c, p) in rows;
      RowOfFile(s, c, p);
    }
  }

  lemma {:induction false} NamedBelow(s: Tree, head: Path, n: string)
    requires AllLegal(s) && head + [n] in s && head != []
    ensures ManifestPath(Join(head + [n]), Join(head) + "/") == Some(head + [n])
  {
    ManifestPathOfJoin(head, [n]);
  }

  lemma {:induction false} NamesAreDistinct(head: Path, values: seq<string>, names: seq<string>)
    requires NamesBelow(head, values, names) && head != []
    ensures NoRepeats(values)
  {
    forall i, j | 0 <= i < j < |values| ensures values[i] != values[j] {
      JoinStartsWithHead(head, [names[i]]);
      JoinStartsWithHead(head, [names[j]]);
      var front := |Join(head) + "/"|;
      assert values[i][front..] == names[i] && values[j][front..] == names[j];
    }
  }

  lemma {:induction false} DatabaseIsOk(s: Tree, c: Codec, n: string)
    requires AllLegal(s) && DatabaseStaged(s, c, n)
    ensures DatabaseOk(Private(s), c, Join(DATABASES + [n]))
  {
    NamedBelow(s, DATABASES, n);
    assert Join(DATABASES) == "payload/sqlite";
  }

  lemma {:induction false} RootIsOk(s: Tree, n: string)
    requires AllLegal(s) && RootStaged(s, n)
    ensures RootOk(Private(s), Join(DIRECTORIES + [n]))
  {
    NamedBelow(s, DIRECTORIES, n);
    assert Join(DIRECTORIES) == "payload/directories";
  }

  lemma {:induction false} StagedIsDescribed(s: Tree, m: Manifest, c: Codec, databases: seq<string>, roots: seq<string>)
    requires Staged(s, m, c, databases, roots) && AllLegal(s) && Lawful(c)
    ensures Describes(m, Private(s), c)
  {
    StagedRowsAreOk(s, c);
    NamesAreDistinct(DATABASES, m.sqliteFiles, databases);
    NamesAreDistinct(DIRECTORIES, m.directoryRoots, roots);
    forall i | 0 <= i < |m.sqliteFiles| ensures DatabaseOk(Private(s), c, m.sqliteFiles[i]) {
      assert databases[i] in databases;
      DatabaseIsOk(s, c, databases[i]);
    }
    forall i | 0 <= i < |m.directoryRoots| ensures RootOk(Private(s), m.directoryRoots[i]) {
      assert roots[i] in roots;
      RootIsOk(s, roots[i]);
    }
  }

  lemma {:induction false} StagedIsVerifiedIff(s: Tree, m: Manifest, c: Codec, databases: seq<string>,
        roots: seq<string>)
    requires Staged(s, m, c, databases, roots) && AllLegal(s) && Lawful(c)
    ensures Verified(Private(s), c) <==> |c.encode(m)| <= MAX_MANIFEST_BYTES
  {
    var t := Private(s);
    assert (set p | p in t && |p| == 1) == (set p | p in s && |p| == 1);
    assert MANIFEST in (set p | p in s && |p| == 1) && PAYLOAD in (set p | p in s && |p| == 1);
    assert t[MANIFEST].data == c.encode(m);
    assert c.decode(t[MANIFEST].data) == Some(m);
    StagedIsDescribed(s, m, c, databases, roots);
  }

  // ---- The round trip ------------------------------------------------------------------------------

  /** The staged payload with the permission bits of its modes. */
  ghost function ExpectedTarget(s: Tree): Tree {
    map q | q in PayloadTree(s) ::
      if q == [] then Dir(PRIVATE_DIR_MODE) else WithMode(s[PAYLOAD + q], PermissionBits(s[PAYLOAD + q].mode))
  }

  lemma {:induction false} RestoredNode(s: Tree, q: Path)
    requires AllLegal(s) && PAYLOAD + q in s && PAYLOAD in s && s[PAYLOAD].Dir?
    ensures StagedPayload(Private(s), ArchivedModes(ArchiveOf(s), |ArchiveOf(s)|))[q] == ExpectedTarget(s)[q]
  {
    assert PAYLOAD + [] == PAYLOAD;
    ModeOfPath(s, PAYLOAD + q);
  }

  lemma {:induction false} RestoredIsExpected(s: Tree)
    requires FileSystemTree(s) && AllLegal(s) && PAYLOAD in s && s[PAYLOAD].Dir?
    ensures RestoredTree(ArchiveOf(s)) == ExpectedTarget(s)
  {
    ArchiveExtractsToStaging(s);
    forall q | PAYLOAD + q in s
      ensures RestoredTree(ArchiveOf(s))[q] == ExpectedTarget(s)[q]
    {
      RestoredNode(s, q);
    }
  }

  /**
    An archive of a staged tree can be restored exactly when none of its names has a backslash and
    it is within the limits, and then the restored tree is the staged payload itself.
   */
  lemma {:induction false} ArchiveRoundTrip(s: Tree, m: Manifest, c: Codec, databases: seq<string>,
        roots: seq<string>, limits: Limits)
    requires Staged(s, m, c, databases, roots) && Lawful(c)
    requires limits.maxBytes > 0 && limits.maxMembers > 0
    ensures Restorable(ArchiveOf(s), limits, c) <==>
              AllLegal(s) && WithinLimits(s, limits) && |c.encode(m)| <= MAX_MANIFEST_BYTES
    ensures AllLegal(s) ==> RestoredTree(ArchiveOf(s)) == ExpectedTarget(s)
  {
    assert MANIFEST in (set p | p in s && |p| == 1) && PAYLOAD in (set p | p in s && |p| == 1);
    assert MANIFEST in Listing(s);
    ArchiveExtractableIff(s, limits);
    if AllLegal(s) {
      ArchiveExtractsToStaging(s);
      StagedIsVerifiedIff(s, m, c, databases, roots);
      RestoredIsExpected(s);
    }
  }
}
