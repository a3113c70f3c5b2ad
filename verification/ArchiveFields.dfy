/** What a restore accepts of an archive, stated on its members and on the extracted tree. */
module ArchiveFields {
  import opened Prelude
  import opened BackupPaths
  import opened BackupDisk
  import opened BackupManifest
  import opened Extraction
  import opened BackupRestore

  function Slashes(k: nat): string {
    seq(k, (i: nat) => '/')
  }

  lemma {:induction false} EndsInSlash(s: string, k: nat)
    ensures k > 0 ==> s + Slashes(k) != "" && (s + Slashes(k))[|s| + k - 1] == '/'
    ensures k == 0 ==> s + Slashes(k) == s
  {
  }

  lemma {:induction false} StrippedIs(name: string, s: string)
    requires s == "" || s[|s| - 1] != '/'
    ensures StripSlashes(name) == s <==> exists k: nat :: name == s + Slashes(k)
  {
    if name != "" && name[|name| - 1] == '/' {
      var front := name[..|name| - 1];
      StrippedIs(front, s);
      if k: nat :| front == s + Slashes(k) {
        assert name == s + Slashes(k + 1);
      }
      if k: nat :| name == s + Slashes(k) {
        assert k > 0;
        assert front == s + Slashes(k - 1);
      }
    } else {
      if name == s { assert name == s + Slashes(0); }
      if k: nat :| name == s + Slashes(k) {
        EndsInSlash(s, k);
        assert name == s;
      }
    }
  }

  /** A member name stands for path p exactly if it is p joined by slashes, with any slashes appended. */
  lemma {:induction false} SafeNameIs(name: string, p: Path)
    ensures SafeMemberName(name) == Some(p) <==> LegalPath(p) && exists k: nat :: name == Join(p) + Slashes(k)
  {
    SafeNameIff(name, p);
    if LegalPath(p) {
      JoinEndsInPart(p);
      StrippedIs(name, Join(p));
    }
  }

  // ---- Extraction ------------------------------------------------------------------------------------

  /** Member i, named p, is a directory or a file of a size that is all there. */
  ghost predicate GoodMember(m: Member, p: Path) {
    && LegalPath(p) && (exists k: nat :: m.name == Join(p) + Slashes(k))
    && ((m.kind == Directory && m.size >= 0) || (m.kind == Regular && 0 <= m.size <= |m.data|))
  }

  /** Neither of two entries is the other, or lies below it if it is a file, or above it and came later. */
  ghost predicate Compatible(first: Path, firstKind: Kind, second: Path) {
    first != second && !Above(second, first) && (Above(first, second) ==> firstKind == Directory)
  }

  /** What an archive has to be like to be extracted: its members, named ps, one by one and in pairs. */
  ghost predicate GoodArchive(ms: seq<Member>, ps: seq<Path>, limits: Limits) {
    && |ms| == |ps| && |ms| <= limits.maxMembers
    && (forall i :: 0 <= i < |ms| ==> GoodMember(ms[i], ps[i]))
    && (forall i, j :: 0 <= i < j < |ms| ==> Compatible(ps[i], ms[i].kind, ps[j]))
    && (forall n :: 0 <= n <= |ms| ==> SizeSum(ms, n) <= limits.maxBytes)
  }

  lemma {:induction false} SizesAre(ms: seq<Member>, n: nat)
    requires n < |ms|
    ensures SizeSum(ms, 0) == 0 && SizeSum(ms, n + 1) == SizeSum(ms, n) + ms[n].size
  {
  }

  ghost function PathsOf(ms: seq<Member>): seq<Path> {
    seq(|ms|, i requires 0 <= i < |ms| => Entries(ms)[i].path)
  }

  lemma {:induction false} OkIsGood(ms: seq<Member>, i: nat, limits: Limits)
    requires i < |ms| && MemberOk(ms, i, limits)
    ensures GoodMember(ms[i], PathsOf(ms)[i]) && SizeSum(ms, i + 1) <= limits.maxBytes
    ensures forall j :: 0 <= j < i ==> Compatible(PathsOf(ms)[j], ms[j].kind, PathsOf(ms)[i])
                                       || (ms[j].kind == Unsupported)
  {
    var p := PathsOf(ms)[i];
    SafeNameIs(ms[i].name, p);
    var es := Entries(ms);
    forall j | 0 <= j < i && ms[j].kind != Unsupported ensures Compatible(PathsOf(ms)[j], ms[j].kind, p) {
      assert es[j] == EntryOf(ms[j]) && es[i] == EntryOf(ms[i]);
    }
  }

  lemma {:induction false} GoodIsOk(ms: seq<Member>, ps: seq<Path>, i: nat, limits: Limits)
    requires GoodArchive(ms, ps, limits) && i < |ms|
    ensures MemberOk(ms, i, limits)
  {
    var es := Entries(ms);
    forall j | 0 <= j <= i ensures es[j].path == ps[j] && (es[j].node.Dir? <==> ms[j].kind == Directory) {
      assert GoodMember(ms[j], ps[j]);
      SafeNameIs(ms[j].name, ps[j]);
      assert es[j] == EntryOf(ms[j]);
    }
    assert GoodMember(ms[i], ps[i]);
    SafeNameIs(ms[i].name, ps[i]);
    assert SizeSum(ms, i + 1) <= limits.maxBytes;
    forall j | 0 <= j < i ensures Compatible(ps[j], ms[j].kind, ps[i]) {}
  }

  /** The archives that are extracted. */
  lemma {:induction false} ExtractableIs(ms: seq<Member>, limits: Limits)
    requires limits.maxBytes > 0 && limits.maxMembers > 0
    ensures Extractable(ms, limits) <==> exists ps :: GoodArchive(ms, ps, limits)
  {
    ExtractableIffAllOk(ms, |ms|, limits);
    if Extractable(ms, limits) {
      var ps := PathsOf(ms);
      forall i | 0 <= i < |ms| ensures GoodMember(ms[i], ps[i]) && SizeSum(ms, i + 1) <= limits.maxBytes
                                       && forall j :: 0 <= j < i ==> Compatible(ps[j], ms[j].kind, ps[i]) {
        OkIsGood(ms, i, limits);
        forall j | 0 <= j < i ensures ms[j].kind != Unsupported { assert MemberOk(ms, j, limits); }
      }
      forall n | 0 <= n <= |ms| ensures SizeSum(ms, n) <= limits.maxBytes {
        if n > 0 { assert SizeSum(ms, (n - 1) + 1) <= limits.maxBytes; }
      }
      if ms != [] { assert MemberOk(ms, |ms| - 1, limits); }
      assert GoodArchive(ms, ps, limits);
    }
    if ps :| GoodArchive(ms, ps, limits) {
      forall i | 0 <= i < |ms| ensures MemberOk(ms, i, limits) { GoodIsOk(ms, ps, i, limits); }
    }
  }

  // ---- Verification ----------------------------------------------------------------------------------

  /** A path recorded in a manifest: joined by slashes, nothing else, and below the prefix. */
  lemma {:induction false} ManifestPathIs(value: string, prefix: string, p: Path)
    ensures ManifestPath(value, prefix) == Some(p) <==> LegalPath(p) && value == Join(p) && prefix <= value
  {
    SafeNameIs(value, p);
    if value == Join(p) { assert value == Join(p) + Slashes(0); }
  }

  ghost predicate IsFileAt(t: Tree, value: string, prefix: string, p: Path) {
    LegalPath(p) && value == Join(p) && prefix <= value && p in t && t[p].File?
  }

  ghost predicate IsDirectoryAt(t: Tree, value: string, prefix: string, p: Path) {
    LegalPath(p) && value == Join(p) && prefix <= value && p in t && t[p].Dir?
  }

  ghost predicate GoodRow(t: Tree, c: Codec, row: Row, p: Path) {
    && IsFileAt(t, row.path, "payload/", p)
    && row.size == |t[p].data| && row.digest == c.sha256(t[p].data)
    && |row.digest| == 64 && forall i :: 0 <= i < 64 ==> row.digest[i] in {'0', '1', '2', '3', '4', '5', '6', '7', '8', '9',
                                                                        'a', 'b', 'c', 'd', 'e', 'f'}
  }

  lemma {:induction false} RowIs(t: Tree, c: Codec, row: Row)
    ensures RowOk(t, c, row) <==> exists p :: GoodRow(t, c, row, p)
  {
    if RowOk(t, c, row) {
      var p := ManifestPath(row.path, "payload/").value;
      ManifestPathIs(row.path, "payload/", p);
      assert GoodRow(t, c, row, p);
    }
    if p :| GoodRow(t, c, row, p) { ManifestPathIs(row.path, "payload/", p); }
  }

  ghost predicate GoodDatabase(t: Tree, c: Codec, value: string) {
    exists p :: IsFileAt(t, value, "payload/sqlite/", p) && Above(["payload"], p) && c.quickCheck(t[p].data)
  }

  lemma {:induction false} DatabaseIs(t: Tree, c: Codec, value: string)
    ensures DatabaseOk(t, c, value) <==> GoodDatabase(t, c, value)
  {
    if DatabaseOk(t, c, value) {
      var p := ManifestPath(value, "payload/sqlite/").value;
      ManifestPathIs(value, "payload/sqlite/", p);
      assert IsFileAt(t, value, "payload/sqlite/", p) && Above(["payload"], p) && c.quickCheck(t[p].data);
    }
    if p :| IsFileAt(t, value, "payload/sqlite/", p) && Above(["payload"], p) && c.quickCheck(t[p].data) {
      ManifestPathIs(value, "payload/sqlite/", p);
    }
  }

  ghost predicate GoodRoot(t: Tree, value: string) {
    exists p :: IsDirectoryAt(t, value, "payload/directories/", p)
  }

  lemma {:induction false} RootIs(t: Tree, value: string)
    ensures RootOk(t, value) <==> GoodRoot(t, value)
  {
    if RootOk(t, value) {
      var p := ManifestPath(value, "payload/directories/").value;
      ManifestPathIs(value, "payload/directories/", p);
      assert IsDirectoryAt(t, value, "payload/directories/", p);
    }
    if p :| IsDirectoryAt(t, value, "payload/directories/", p) { ManifestPathIs(value, "payload/directories/", p); }
  }

  ghost predicate TopIs(t: Tree) {
    && (forall p :: p in t && |p| == 1 ==> p == ["manifest.json"] || p == ["payload"])
    && ["manifest.json"] in t && t[["manifest.json"]].File? && |t[["manifest.json"]].data| <= 16777216
    && ["payload"] in t && t[["payload"]].Dir?
  }

  ghost predicate DescribesFile(t: Tree, c: Codec, row: Row) {
    exists p :: GoodRow(t, c, row, p) && Above(["payload"], p)
  }

  /** The files below payload are those of the rows, no path twice. */
  ghost predicate RowsCover(t: Tree, c: Codec, rows: seq<Row>) {
    && (forall i :: 0 <= i < |rows| ==> DescribesFile(t, c, rows[i]))
    && (forall i, j :: 0 <= i < j < |rows| ==> rows[i].path != rows[j].path)
    && (forall p :: p in t && Above(["payload"], p) && t[p].File? ==> exists i :: 0 <= i < |rows| && GoodRow(t, c, rows[i], p))
  }

  lemma {:induction false} RowPathIs(t: Tree, c: Codec, row: Row, p: Path)
    requires RowOk(t, c, row)
    ensures GoodRow(t, c, row, p) <==> PathOfRow(row) == p
  {
    var q := ManifestPath(row.path, "payload/").value;
    ManifestPathIs(row.path, "payload/", q);
    ManifestPathIs(row.path, "payload/", p);
    RowIs(t, c, row);
  }

  lemma {:induction false} DescribesIff(t: Tree, c: Codec, row: Row)
    ensures DescribesFile(t, c, row) <==> RowOk(t, c, row) && PathOfRow(row) in PayloadFiles(t)
  {
    if p :| GoodRow(t, c, row, p) && Above(["payload"], p) {
      RowIs(t, c, row);
      RowPathIs(t, c, row, p);
    }
    if RowOk(t, c, row) && PathOfRow(row) in PayloadFiles(t) {
      RowPathIs(t, c, row, PathOfRow(row));
    }
  }

  ghost predicate IsRowPath(rows: seq<Row>, p: Path) {
    exists i :: 0 <= i < |rows| && PathOfRow(rows[i]) == p
  }

  lemma {:induction false} FilesAreRowPathsIff(t: Tree, rows: seq<Row>)
    ensures PayloadFiles(t) == (set i | 0 <= i < |rows| :: PathOfRow(rows[i])) <==>
              forall p :: p in PayloadFiles(t) <==> IsRowPath(rows, p)
  {
    var paths := set i | 0 <= i < |rows| :: PathOfRow(rows[i]);
    assert forall p :: p in paths <==> IsRowPath(rows, p);
  }

  lemma {:induction false} RowsOkCover(t: Tree, c: Codec, rows: seq<Row>)
    requires RowsOk(t, c, rows)
    ensures RowsCover(t, c, rows)
  {
    FilesAreRowPathsIff(t, rows);
    forall i | 0 <= i < |rows| ensures DescribesFile(t, c, rows[i]) {
      assert IsRowPath(rows, PathOfRow(rows[i]));
      DescribesIff(t, c, rows[i]);
    }
    forall p | p in t && Above(["payload"], p) && t[p].File? ensures exists i :: 0 <= i < |rows| && GoodRow(t, c, rows[i], p) {
      assert p in PayloadFiles(t) && IsRowPath(rows, p);
      var i :| 0 <= i < |rows| && PathOfRow(rows[i]) == p;
      RowPathIs(t, c, rows[i], p);
    }
  }

  lemma {:induction false} FileHasRow(t: Tree, c: Codec, rows: seq<Row>, p: Path)
    requires RowsCover(t, c, rows) && p in PayloadFiles(t)
    ensures IsRowPath(rows, p)
  {
    var i :| 0 <= i < |rows| && GoodRow(t, c, rows[i], p);
    RowIs(t, c, rows[i]);
    RowPathIs(t, c, rows[i], p);
  }

  lemma {:induction false} RowsTogether(t: Tree, c: Codec, rows: seq<Row>)
    requires forall i :: 0 <= i < |rows| ==> RowOk(t, c, rows[i]) && PathOfRow(rows[i]) in PayloadFiles(t)
    requires forall i, j :: 0 <= i < j < |rows| ==> rows[i].path != rows[j].path
    requires forall p :: p in PayloadFiles(t) ==> IsRowPath(rows, p)
    ensures RowsOk(t, c, rows)
  {
    FilesAreRowPathsIff(t, rows);
  }

  lemma {:induction false} CoveringIsOk(t: Tree, c: Codec, rows: seq<Row>)
    requires RowsCover(t, c, rows)
    ensures RowsOk(t, c, rows)
  {
    forall i | 0 <= i < |rows| ensures RowOk(t, c, rows[i]) && PathOfRow(rows[i]) in PayloadFiles(t) {
      DescribesIff(t, c, rows[i]);
    }
    forall p | p in PayloadFiles(t) ensures IsRowPath(rows, p) { FileHasRow(t, c, rows, p); }
    RowsTogether(t, c, rows);
  }

  lemma {:induction false} RowsAre(t: Tree, c: Codec, rows: seq<Row>)
    ensures RowsOk(t, c, rows) <==> RowsCover(t, c, rows)
  {
    if RowsOk(t, c, rows) { RowsOkCover(t, c, rows); }
    if RowsCover(t, c, rows) { CoveringIsOk(t, c, rows); }
  }

  ghost predicate AllDifferent(values: seq<string>) {
    forall i, j :: 0 <= i < j < |values| ==> values[i] != values[j]
  }

  ghost predicate DatabasesAre(t: Tree, c: Codec, values: seq<string>) {
    AllDifferent(values) && forall i :: 0 <= i < |values| ==> GoodDatabase(t, c, values[i])
  }

  ghost predicate RootsAre(t: Tree, values: seq<string>) {
    AllDifferent(values) && forall i :: 0 <= i < |values| ==> GoodRoot(t, values[i])
  }

  lemma {:induction false} DatabasesIff(t: Tree, c: Codec, values: seq<string>)
    ensures (forall i :: 0 <= i < |values| ==> DatabaseOk(t, c, values[i])) && NoRepeats(values) <==> DatabasesAre(t, c, values)
  {
    forall i | 0 <= i < |values| ensures DatabaseOk(t, c, values[i]) <==> GoodDatabase(t, c, values[i]) {
      DatabaseIs(t, c, values[i]);
    }
  }

  lemma {:induction false} RootsIff(t: Tree, values: seq<string>)
    ensures (forall i :: 0 <= i < |values| ==> RootOk(t, values[i])) && NoRepeats(values) <==> RootsAre(t, values)
  {
    forall i | 0 <= i < |values| ensures RootOk(t, values[i]) <==> GoodRoot(t, values[i]) {
      RootIs(t, values[i]);
    }
  }

  lemma {:induction false} TopLevelIs(t: Tree)
    ensures TopLevelOk(t) <==> TopIs(t)
  {
    var top := set p | p in t && |p| == 1;
    assert forall p :: p in top <==> p in t && |p| == 1;
    if TopLevelOk(t) {
      assert MANIFEST in top && PAYLOAD in top;
      forall p | p in t && |p| == 1 ensures p == ["manifest.json"] || p == ["payload"] { assert p in top; }
    }
    if TopIs(t) {
      assert top == {MANIFEST, PAYLOAD};
    }
  }

  /** The trees that pass verification. */
  lemma {:induction false} VerifiedIs(t: Tree, c: Codec)
    ensures Verified(t, c) <==>
              && TopIs(t) && c.decode(t[["manifest.json"]].data).Some?
              && var m := c.decode(t[["manifest.json"]].data).value;
                 RowsCover(t, c, m.files) && DatabasesAre(t, c, m.sqliteFiles) && RootsAre(t, m.directoryRoots)
  {
    TopLevelIs(t);
    if TopIs(t) && c.decode(t[["manifest.json"]].data).Some? {
      var m := c.decode(t[MANIFEST].data).value;
      RowsAre(t, c, m.files);
      DatabasesIff(t, c, m.sqliteFiles);
      RootsIff(t, m.directoryRoots);
    }
  }
}
