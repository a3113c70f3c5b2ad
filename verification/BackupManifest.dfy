/** The manifest of a backup: what is recorded, and what a restore checks before it goes on. */
module BackupManifest {
  import opened Prelude
  import opened BackupPaths
  import opened BackupDisk

  datatype Row = Row(path: string, size: int, digest: string)

  datatype Manifest = Manifest(files: seq<Row>, sqliteFiles: seq<string>, directoryRoots: seq<string>)

  /**
    The library calls the backup relies on: SHA-256, JSON both ways, and PRAGMA quick_check.
    Reading a manifest includes the checks of its format name and schema version.
   */
  datatype Codec = Codec(
    sha256: Bytes -> string,
    encode: Manifest -> Bytes,
    decode: Bytes -> Option<Manifest>,
    quickCheck: Bytes -> bool)

  const MAX_MANIFEST_BYTES: nat := 16 * 1024 * 1024
  const MANIFEST: Path := ["manifest.json"]
  const PAYLOAD: Path := ["payload"]

  ghost predicate Lawful(c: Codec) {
    && (forall m :: c.decode(c.encode(m)) == Some(m))
    && (forall b :: HexDigest(c.sha256(b)))
  }

  predicate HexDigest(s: string) {
    |s| == 64 && forall i :: 0 <= i < |s| ==> '0' <= s[i] <= '9' || 'a' <= s[i] <= 'f'
  }

  /** _manifest_relative_path */
  function ManifestPath(value: string, prefix: string): Option<Path> {
    var relative := SafeMemberName(value);
    if relative.None? || Join(relative.value) != value || !(prefix <= value) then None else relative
  }

  lemma {:induction false} ManifestPathOfJoin(head: Path, rest: Path)
    requires rest != [] && LegalPath(head + rest) && head != []
    ensures ManifestPath(Join(head + rest), Join(head) + "/") == Some(head + rest)
  {
    SafeNameOfJoin(head + rest);
    JoinStartsWithHead(head, rest);
  }

  lemma {:induction false} JoinStartsWithHead(head: Path, rest: Path)
    requires head != [] && rest != []
    ensures Join(head + rest) == Join(head) + "/" + Join(rest)
  {
    assert (head + rest)[1..] == head[1..] + rest;
    if |head| > 1 {
      JoinStartsWithHead(head[1..], rest);
    } else {
      assert head[1..] + rest == rest;
    }
  }

  // ---- What a restore requires of the extracted tree ----------------------------------------------

  ghost predicate TopLevelOk(t: Tree) {
    && (set p | p in t && |p| == 1) == {MANIFEST, PAYLOAD}
    && t[MANIFEST].File? && t[PAYLOAD].Dir?
    && |t[MANIFEST].data| <= MAX_MANIFEST_BYTES
  }

  ghost function PayloadFiles(t: Tree): set<Path> {
    set p | p in t && Above(PAYLOAD, p) && t[p].File?
  }

  ghost predicate RowOk(t: Tree, c: Codec, row: Row) {
    var p := ManifestPath(row.path, "payload/");
    && p.Some? && row.size >= 0 && HexDigest(row.digest)
    && p.value in t && t[p.value].File?
    && |t[p.value].data| == row.size && c.sha256(t[p.value].data) == row.digest
  }

  ghost predicate RowsOk(t: Tree, c: Codec, rows: seq<Row>) {
    && (forall i :: 0 <= i < |rows| ==> RowOk(t, c, rows[i]))
    && (forall i, j :: 0 <= i < j < |rows| ==> rows[i].path != rows[j].path)
    && PayloadFiles(t) == set i | 0 <= i < |rows| :: PathOfRow(rows[i])
  }

  function PathOfRow(row: Row): Path {
    var p := ManifestPath(row.path, "payload/");
    if p.Some? then p.value else []
  }

  ghost predicate DatabaseOk(t: Tree, c: Codec, value: string) {
    var p := ManifestPath(value, "payload/sqlite/");
    p.Some? && p.value in PayloadFiles(t) && c.quickCheck(t[p.value].data)
  }

  ghost predicate RootOk(t: Tree, value: string) {
    var p := ManifestPath(value, "payload/directories/");
    p.Some? && p.value in t && t[p.value].Dir?
  }

  ghost predicate NoRepeats(values: seq<string>) {
    forall i, j :: 0 <= i < j < |values| ==> values[i] != values[j]
  }

  ghost predicate Describes(m: Manifest, t: Tree, c: Codec) {
    && RowsOk(t, c, m.files)
    && (forall i :: 0 <= i < |m.sqliteFiles| ==> DatabaseOk(t, c, m.sqliteFiles[i])) && NoRepeats(m.sqliteFiles)
    && (forall i :: 0 <= i < |m.directoryRoots| ==> RootOk(t, m.directoryRoots[i])) && NoRepeats(m.directoryRoots)
  }

  ghost predicate Verified(t: Tree, c: Codec) {
    && TopLevelOk(t)
    && c.decode(t[MANIFEST].data).Some?
    && Describes(c.decode(t[MANIFEST].data).value, t, c)
  }

  /**
    What verification is for: two verified trees with the same manifest bytes have the same payload
    files with the same sizes and digests, and so the same bytes, file by file, unless the two
    versions of that file are a collision of SHA-256.
   */
  lemma {:induction false} VerifiedPayloadIsTheRecordedOne(t: Tree, u: Tree, c: Codec, p: Path)
    requires Verified(t, c) && Verified(u, c) && t[MANIFEST] == u[MANIFEST]
    ensures PayloadFiles(t) == PayloadFiles(u)
    ensures p in PayloadFiles(t) ==> c.sha256(t[p].data) == c.sha256(u[p].data) && |t[p].data| == |u[p].data|
    ensures p in PayloadFiles(t) ==> t[p].data == u[p].data || IsCollision(c, t[p].data, u[p].data)
  {
    var rows := c.decode(t[MANIFEST].data).value.files;
    if p in PayloadFiles(t) {
      var i :| 0 <= i < |rows| && PathOfRow(rows[i]) == p;
      assert RowOk(t, c, rows[i]) && RowOk(u, c, rows[i]);
    }
  }

  /** Two different contents of one length and one digest. */
  predicate IsCollision(c: Codec, x: Bytes, y: Bytes) {
    x != y && |x| == |y| && c.sha256(x) == c.sha256(y)
  }

  // ---- The checks, in the program's order -----------------------------------------------------------

  datatype ManifestError = BadLayout | BadManifest | BadRow | BadFileSet | BadContent | BadDatabase | BadRoot

  method LoadAndVerifyManifest(t: Tree, c: Codec) returns (r: Result<Manifest, ManifestError>)
    ensures r.Ok? <==> Verified(t, c)
    ensures r.Ok? ==> c.decode(t[MANIFEST].data) == Some(r.value)
  {
    if (set p | p in t && |p| == 1) != {MANIFEST, PAYLOAD} {
      return Err(BadLayout);
    }
    assert MANIFEST in (set p | p in t && |p| == 1) && PAYLOAD in (set p | p in t && |p| == 1);
    if !t[MANIFEST].File? || !t[PAYLOAD].Dir? || |t[MANIFEST].data| > MAX_MANIFEST_BYTES {
      return Err(BadLayout);
    }
    var decoded := c.decode(t[MANIFEST].data);
    if decoded.None? {
      return Err(BadManifest);
    }
    var problem := CheckRows(t, c, decoded.value.files);
    if problem.Some? {
      return Err(problem.value);
    }
    var databasesOk := CheckDatabases(t, c, decoded.value.sqliteFiles);
    if !databasesOk {
      return Err(BadDatabase);
    }
    var rootsOk := CheckRoots(t, decoded.value.directoryRoots);
    if !rootsOk {
      return Err(BadRoot);
    }
    r := Ok(decoded.value);
  }

  predicate RowIsFormal(row: Row) {
    ManifestPath(row.path, "payload/").Some? && row.size >= 0 && HexDigest(row.digest)
  }

  function RowPaths(rows: seq<Row>, n: nat): set<Path>
    requires n <= |rows|
  {
    if n == 0 then {} else RowPaths(rows, n - 1) + {PathOfRow(rows[n - 1])}
  }

  /** The first n rows are well formed and none is for the path of an earlier one. */
  predicate GoodUpTo(rows: seq<Row>, n: nat)
    requires n <= |rows|
  {
    n == 0 || (GoodUpTo(rows, n - 1) && RowIsNew(rows, n - 1))
  }

  predicate RowIsNew(rows: seq<Row>, n: nat)
    requires n < |rows|
  {
    RowIsFormal(rows[n]) && PathOfRow(rows[n]) !in RowPaths(rows, n)
  }

  /** The first loop: the recorded paths, if every row is well formed and no path repeats. */
  method ReadRows(rows: seq<Row>) returns (expected: Option<set<Path>>)
    ensures expected.Some? <==> GoodUpTo(rows, |rows|)
    ensures expected.Some? ==> expected.value == RowPaths(rows, |rows|)
  {
    var paths: set<Path> := {};
    var k := 0;
    while k < |rows|
      invariant 0 <= k <= |rows| && GoodUpTo(rows, k) && paths == RowPaths(rows, k)
    {
      var p := ManifestPath(rows[k].path, "payload/");
      if p.None? || rows[k].size < 0 || !HexDigest(rows[k].digest) || p.value in paths {
        OneBadRowIsFatal(rows, k, |rows|);
        return None;
      }
      paths := paths + {p.value};
      k := k + 1;
    }
    expected := Some(paths);
  }

  lemma {:induction false} OneBadRowIsFatal(rows: seq<Row>, k: nat, n: nat)
    requires k < n <= |rows| && !RowIsNew(rows, k)
    ensures !GoodUpTo(rows, n)
  {
    if k < n - 1 { OneBadRowIsFatal(rows, k, n - 1); }
  }

  lemma {:induction false} RowPathsHas(rows: seq<Row>, n: nat, p: Path)
    requires n <= |rows|
    ensures p in RowPaths(rows, n) <==> exists i :: 0 <= i < n && PathOfRow(rows[i]) == p
  {
    if n > 0 { RowPathsHas(rows, n - 1, p); }
  }

  /** Well-formed rows are for the same path exactly when they are recorded under the same name. */
  lemma {:induction false} SamePathIff(a: Row, b: Row)
    requires RowIsFormal(a) && RowIsFormal(b)
    ensures PathOfRow(a) == PathOfRow(b) <==> a.path == b.path
  {
  }

  lemma {:induction false} NewIff(rows: seq<Row>, n: nat)
    requires n < |rows| && forall i :: 0 <= i < n ==> RowIsFormal(rows[i])
    ensures RowIsNew(rows, n) <==> RowIsFormal(rows[n]) && forall i :: 0 <= i < n ==> rows[i].path != rows[n].path
  {
    if RowIsFormal(rows[n]) {
      RowPathsHas(rows, n, PathOfRow(rows[n]));
      forall i | 0 <= i < n ensures PathOfRow(rows[i]) == PathOfRow(rows[n]) <==> rows[i].path == rows[n].path {
        SamePathIff(rows[i], rows[n]);
      }
    }
  }

  predicate AllFormal(rows: seq<Row>, n: nat)
    requires n <= |rows|
  {
    forall i :: 0 <= i < n ==> RowIsFormal(rows[i])
  }

  predicate NoNameTwice(rows: seq<Row>, n: nat)
    requires n <= |rows|
  {
    forall i, j :: 0 <= i < j < n ==> rows[i].path != rows[j].path
  }

  lemma {:induction false} OneNameMore(rows: seq<Row>, n: nat)
    requires n < |rows|
    ensures NoNameTwice(rows, n + 1) <==> NoNameTwice(rows, n) && forall i :: 0 <= i < n ==> rows[i].path != rows[n].path
    ensures AllFormal(rows, n + 1) <==> AllFormal(rows, n) && RowIsFormal(rows[n])
  {
  }

  lemma {:induction false} GoodIff(rows: seq<Row>, n: nat)
    requires n <= |rows|
    ensures GoodUpTo(rows, n) <==> AllFormal(rows, n) && NoNameTwice(rows, n)
  {
    if n > 0 {
      GoodIff(rows, n - 1);
      OneNameMore(rows, n - 1);
      if AllFormal(rows, n - 1) {
        NewIff(rows, n - 1);
      }
    }
  }

  /** The second loop: sizes and digests. */
  method CompareContents(t: Tree, c: Codec, rows: seq<Row>) returns (same: bool)
    requires forall i :: 0 <= i < |rows| ==> RowIsFormal(rows[i]) && PathOfRow(rows[i]) in PayloadFiles(t)
    ensures same <==> forall i :: 0 <= i < |rows| ==> RowOk(t, c, rows[i])
  {
    var k := 0;
    while k < |rows|
      invariant 0 <= k <= |rows|
      invariant forall i :: 0 <= i < k ==> RowOk(t, c, rows[i])
    {
      var p := PathOfRow(rows[k]);
      assert RowIsFormal(rows[k]);
      if |t[p].data| != rows[k].size || c.sha256(t[p].data) != rows[k].digest {
        assert !RowOk(t, c, rows[k]);
        return false;
      }
      k := k + 1;
    }
    same := true;
  }

  method CheckRows(t: Tree, c: Codec, rows: seq<Row>) returns (problem: Option<ManifestError>)
    ensures problem.None? <==> RowsOk(t, c, rows)
  {
    RowsOkIff(t, c, rows);
    var expected := ReadRows(rows);
    if expected.None? {
      return Some(BadRow);
    }
    if (set p | p in t && Above(PAYLOAD, p) && t[p].File?) != expected.value {
      return Some(BadFileSet);
    }
    RowsAreFiles(t, rows);
    var same := CompareContents(t, c, rows);
    problem := if same then None else Some(BadContent);
  }

  lemma {:induction false} RowsAreFiles(t: Tree, rows: seq<Row>)
    requires GoodUpTo(rows, |rows|) && PayloadFiles(t) == RowPaths(rows, |rows|)
    ensures forall i :: 0 <= i < |rows| ==> RowIsFormal(rows[i]) && PathOfRow(rows[i]) in PayloadFiles(t)
  {
    GoodIff(rows, |rows|);
    forall i | 0 <= i < |rows| ensures PathOfRow(rows[i]) in PayloadFiles(t) {
      RowPathsHas(rows, |rows|, PathOfRow(rows[i]));
    }
  }

  lemma {:induction false} RowsOkIff(t: Tree, c: Codec, rows: seq<Row>)
    ensures RowsOk(t, c, rows) <==>
              && GoodUpTo(rows, |rows|) && PayloadFiles(t) == RowPaths(rows, |rows|)
              && forall i :: 0 <= i < |rows| ==> RowOk(t, c, rows[i])
  {
    GoodIff(rows, |rows|);
    assert forall i :: 0 <= i < |rows| && RowOk(t, c, rows[i]) ==> RowIsFormal(rows[i]);
    RowPathsAreAll(rows);
  }

  lemma {:induction false} RowPathsAreAll(rows: seq<Row>)
    ensures RowPaths(rows, |rows|) == set i | 0 <= i < |rows| :: PathOfRow(rows[i])
  {
    forall p ensures p in RowPaths(rows, |rows|) <==> exists i :: 0 <= i < |rows| && PathOfRow(rows[i]) == p {
      RowPathsHas(rows, |rows|, p);
    }
  }

  method CheckDatabases(t: Tree, c: Codec, values: seq<string>) returns (ok: bool)
    ensures ok <==> (forall i :: 0 <= i < |values| ==> DatabaseOk(t, c, values[i])) && NoRepeats(values)
  {
    var files := set p | p in t && Above(PAYLOAD, p) && t[p].File?;
    var k := 0;
    while k < |values|
      invariant 0 <= k <= |values|
      invariant forall i :: 0 <= i < k ==> DatabaseOk(t, c, values[i])
      invariant forall i, j :: 0 <= i < j < k ==> values[i] != values[j]
    {
      var p := ManifestPath(values[k], "payload/sqlite/");
      if p.None? || p.value !in files || !c.quickCheck(t[p.value].data) {
        assert !DatabaseOk(t, c, values[k]);
        return false;
      }
      if values[k] in values[..k] {
        return false;
      }
      k := k + 1;
    }
    ok := true;
  }

  method CheckRoots(t: Tree, values: seq<string>) returns (ok: bool)
    ensures ok <==> (forall i :: 0 <= i < |values| ==> RootOk(t, values[i])) && NoRepeats(values)
  {
    var k := 0;
    while k < |values|
      invariant 0 <= k <= |values|
      invariant forall i :: 0 <= i < k ==> RootOk(t, values[i])
      invariant forall i, j :: 0 <= i < j < k ==> values[i] != values[j]
    {
      var p := ManifestPath(values[k], "payload/directories/");
      if p.None? || p.value !in t || !t[p.value].Dir? {
        assert !RootOk(t, values[k]);
        return false;
      }
      if values[k] in values[..k] {
        return false;
      }
      k := k + 1;
    }
    ok := true;
  }
}
