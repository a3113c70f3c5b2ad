/** Path names of the runtime backup: splitting, joining, the member-name check and the order. */
module BackupPaths {
  import opened Prelude

  /** A path relative to some root, as its parts; the root itself is []. */
  type Path = seq<string>

  predicate Above(p: Path, q: Path) {
    |p| < |q| && q[..|p|] == p
  }

  lemma {:induction false} AboveIsTransitive(p: Path, q: Path, r: Path)
    requires Above(p, q) && Above(q, r)
    ensures Above(p, r)
  {
    assert r[..|p|] == r[..|q|][..|p|];
  }

  // ---- Names ---------------------------------------------------------------------------------------

  /** A name a POSIX file system can hold. */
  predicate FileName(part: string) {
    part != "" && part != "." && part != ".." && '/' !in part && '\0' !in part
  }

  /** A name the restore accepts: a file name without a backslash. */
  predicate LegalPart(part: string) {
    FileName(part) && '\\' !in part
  }

  predicate LegalPath(p: Path) {
    p != [] && forall i :: 0 <= i < |p| ==> LegalPart(p[i])
  }

  function Split(s: string): (parts: seq<string>)
    ensures parts != []
  {
    if s == "" then [""]
    else
      var rest := Split(s[1..]);
      if s[0] == '/' then [""] + rest else [[s[0]] + rest[0]] + rest[1..]
  }

  function Join(parts: seq<string>): string {
    if parts == [] then ""
    else if |parts| == 1 then parts[0]
    else parts[0] + "/" + Join(parts[1..])
  }

  function StripSlashes(s: string): string {
    if s != "" && s[|s| - 1] == '/' then StripSlashes(s[..|s| - 1]) else s
  }

  /** _safe_member_name */
  function SafeMemberName(name: string): Option<Path> {
    var normalized := StripSlashes(name);
    if normalized == "" || name[0] == '/' || '\\' in name || '\0' in name then None
    else
      var parts := Split(normalized);
      if "" in parts || "." in parts || ".." in parts then None else Some(parts)
  }

  lemma {:induction false} JoinInvertsSplit(s: string)
    ensures Join(Split(s)) == s
    ensures forall p :: p in Split(s) ==> '/' !in p && forall c :: c in p ==> c in s
  {
    if s != "" {
      var rest := Split(s[1..]);
      JoinInvertsSplit(s[1..]);
      if s[0] == '/' {
        assert ([""] + rest)[1..] == rest;
      } else {
        var parts := [[s[0]] + rest[0]] + rest[1..];
        assert parts[1..] == rest[1..];
        assert s == [s[0]] + s[1..];
        assert rest[0] in rest;
        forall p | p in parts ensures '/' !in p && forall c :: c in p ==> c in s {
          assert p == parts[0] || p in rest;
        }
      }
    }
  }

  lemma {:induction false} SplitInvertsJoin(parts: seq<string>)
    requires parts != [] && forall p :: p in parts ==> '/' !in p
    ensures Split(Join(parts)) == parts
  {
    if |parts| == 1 {
      SplitOnePart(parts[0]);
    } else {
      SplitInvertsJoin(parts[1..]);
      SplitAtSlash(parts[0], Join(parts[1..]));
    }
  }

  lemma {:induction false} SplitOnePart(s: string)
    requires '/' !in s
    ensures Split(s) == [s]
  {
    if s != "" {
      SplitOnePart(s[1..]);
      assert s == [s[0]] + s[1..];
    }
  }

  lemma {:induction false} SplitAtSlash(a: string, b: string)
    requires '/' !in a
    ensures Split(a + "/" + b) == [a] + Split(b)
  {
    if a == "" {
      assert (a + "/" + b)[1..] == b;
    } else {
      assert (a + "/" + b)[1..] == a[1..] + "/" + b;
      SplitAtSlash(a[1..], b);
      assert a == [a[0]] + a[1..];
    }
  }

  lemma {:induction false} StripKeepsOthers(s: string)
    ensures StripSlashes(s) <= s
    ensures forall c :: c != '/' ==> (c in s <==> c in StripSlashes(s))
  {
    if s != "" && s[|s| - 1] == '/' {
      StripKeepsOthers(s[..|s| - 1]);
      assert s == s[..|s| - 1] + ['/'];
    }
  }

  lemma {:induction false} JoinHasParts(parts: seq<string>, c: char)
    requires c != '/'
    ensures c in Join(parts) <==> exists i :: 0 <= i < |parts| && c in parts[i]
  {
    if |parts| > 1 {
      JoinHasParts(parts[1..], c);
      assert forall i :: 0 < i < |parts| ==> parts[i] == parts[1..][i - 1];
      assert c in Join(parts) <==> c in parts[0] || c in Join(parts[1..]);
      if c in Join(parts[1..]) {
        var i :| 0 <= i < |parts[1..]| && c in parts[1..][i];
        assert c in parts[i + 1];
      }
    }
  }

  lemma {:induction false} JoinEndsInPart(p: Path)
    requires LegalPath(p)
    ensures Join(p) != "" && Join(p)[0] != '/' && Join(p)[|Join(p)| - 1] != '/'
  {
    assert LegalPart(p[0]) && p[0][0] in p[0];
    if |p| == 1 {
      assert p[0][|p[0]| - 1] in p[0];
    } else {
      assert LegalPath(p[1..]);
      JoinEndsInPart(p[1..]);
    }
  }

  /**
    What the member-name check accepts: exactly the legal relative paths, each under its joined
    name and under that name with slashes appended. So "a" and "a/" are one key, and no accepted
    path is absolute, empty, or leads upwards.
   */
  lemma {:induction false} SafeNameIff(name: string, p: Path)
    ensures SafeMemberName(name) == Some(p) <==> LegalPath(p) && StripSlashes(name) == Join(p)
  {
    var n := StripSlashes(name);
    StripKeepsOthers(name);
    if LegalPath(p) && n == Join(p) {
      JoinEndsInPart(p);
      SplitInvertsJoin(p);
      JoinHasParts(p, '\\');
      JoinHasParts(p, '\0');
    }
    if SafeMemberName(name) == Some(p) {
      JoinInvertsSplit(n);
      forall i | 0 <= i < |p| ensures LegalPart(p[i]) { assert p[i] in p; }
    }
  }

  lemma {:induction false} SafeNameOfJoin(p: Path)
    requires p != [] && forall i :: 0 <= i < |p| ==> FileName(p[i])
    ensures SafeMemberName(Join(p)) == if LegalPath(p) then Some(p) else None
  {
    if LegalPath(p) {
      JoinEndsInPart(p);
      SafeNameIff(Join(p), p);
    } else {
      var i :| 0 <= i < |p| && '\\' in p[i];
      JoinHasParts(p, '\\');
    }
  }

  lemma {:induction false} JoinIsInjective(p: Path, q: Path)
    requires LegalPath(p) && LegalPath(q) && Join(p) == Join(q)
    ensures p == q
  {
    SplitInvertsJoin(p);
    SplitInvertsJoin(q);
  }

  // ---- The order of sorted() -------------------------------------------------------------------------

  predicate NameLess(a: string, b: string) {
    if b == "" then false
    else if a == "" then true
    else a[0] < b[0] || (a[0] == b[0] && NameLess(a[1..], b[1..]))
  }

  /** Part by part, as paths compare. */
  predicate PathLess(p: Path, q: Path) {
    if q == [] then false
    else if p == [] then true
    else NameLess(p[0], q[0]) || (p[0] == q[0] && PathLess(p[1..], q[1..]))
  }

  lemma {:induction false} NameLessIsTotal(a: string, b: string)
    ensures !(NameLess(a, b) && NameLess(b, a))
    ensures NameLess(a, b) || NameLess(b, a) || a == b
    ensures NameLess(a, b) || NameLess(b, a) ==> a != b
  {
    if a != "" && b != "" {
      NameLessIsTotal(a[1..], b[1..]);
      assert a == [a[0]] + a[1..] && b == [b[0]] + b[1..];
    }
  }

  lemma {:induction false} NameLessIsTransitive(a: string, b: string, c: string)
    requires NameLess(a, b) && NameLess(b, c)
    ensures NameLess(a, c)
  {
    if a != "" && a[0] == b[0] == c[0] {
      NameLessIsTransitive(a[1..], b[1..], c[1..]);
    }
  }

  lemma {:induction false} PathLessIsTotal(p: Path, q: Path)
    ensures !(PathLess(p, q) && PathLess(q, p))
    ensures PathLess(p, q) || PathLess(q, p) || p == q
    ensures PathLess(p, q) || PathLess(q, p) ==> p != q
  {
    if p != [] && q != [] {
      NameLessIsTotal(p[0], q[0]);
      PathLessIsTotal(p[1..], q[1..]);
      assert p == [p[0]] + p[1..] && q == [q[0]] + q[1..];
    }
  }

  lemma {:induction false} PathLessIsTransitive(p: Path, q: Path, r: Path)
    requires PathLess(p, q) && PathLess(q, r)
    ensures PathLess(p, r)
  {
    if p != [] {
      NameLessIsTotal(p[0], q[0]);
      NameLessIsTotal(q[0], r[0]);
      if NameLess(p[0], q[0]) && NameLess(q[0], r[0]) {
        NameLessIsTransitive(p[0], q[0], r[0]);
      } else if p[0] == q[0] == r[0] {
        PathLessIsTransitive(p[1..], q[1..], r[1..]);
      }
    }
  }

  lemma {:induction false} PrefixIsLess(p: Path, q: Path)
    requires Above(p, q)
    ensures PathLess(p, q)
  {
    if p != [] {
      assert p[0] == q[0] && q[1..][..|p| - 1] == p[1..];
      PrefixIsLess(p[1..], q[1..]);
    }
  }

  ghost predicate Ascending(s: seq<Path>) {
    forall i, j :: 0 <= i < j < |s| ==> PathLess(s[i], s[j])
  }

  function Insert(p: Path, s: seq<Path>): (t: seq<Path>)
    requires Ascending(s) && p !in s
    ensures Ascending(t) && |t| == |s| + 1
    ensures forall q :: q in t <==> q == p || q in s
  {
    if s == [] then [p]
    else
      PathLessIsTotal(p, s[0]);
      if PathLess(p, s[0]) then
        assert forall i :: 0 < i < |s| && PathLess(s[0], s[i]) ==> PathLess(p, s[i]) by {
          forall i | 0 < i < |s| && PathLess(s[0], s[i]) ensures PathLess(p, s[i]) { PathLessIsTransitive(p, s[0], s[i]); }
        }
        [p] + s
      else
        var t := Insert(p, s[1..]);
        assert forall i :: 0 <= i < |t| ==> t[i] in t;
        [s[0]] + t
  }

  /** sorted(root.rglob("*")) over the paths of a tree. */
  ghost function SortedListing(paths: set<Path>): (listing: seq<Path>)
    ensures Ascending(listing) && |listing| == |paths|
    ensures forall p :: p in listing <==> p in paths
  {
    if paths == {} then []
    else
      var p :| p in paths;
      Insert(p, SortedListing(paths - {p}))
  }

  lemma {:induction false} AscendingIsUnique(s: seq<Path>, t: seq<Path>)
    requires Ascending(s) && Ascending(t) && forall p :: p in s <==> p in t
    ensures s == t
  {
    assert s != [] ==> s[0] in s;
    assert t != [] ==> t[0] in t;
    if s != [] && t != [] {
      HeadIsLeast(s, t[0]);
      HeadIsLeast(t, s[0]);
      PathLessIsTotal(s[0], t[0]);
      forall p ensures p in s[1..] <==> p in t[1..] {
        TailHasTheRest(s, p);
        TailHasTheRest(t, p);
      }
      AscendingIsUnique(s[1..], t[1..]);
    }
  }

  lemma {:induction false} HeadIsLeast(s: seq<Path>, p: Path)
    requires Ascending(s) && p in s
    ensures p == s[0] || PathLess(s[0], p)
  {
  }

  lemma {:induction false} TailHasTheRest(s: seq<Path>, p: Path)
    requires Ascending(s) && s != []
    ensures p in s[1..] <==> p in s && p != s[0]
  {
    PathLessIsTotal(s[0], s[0]);
    assert s == [s[0]] + s[1..];
    if p in s[1..] {
      var i :| 1 <= i < |s| && s[i] == p;
      PathLessIsTotal(s[0], p);
    }
  }

  method SortPaths(paths: set<Path>) returns (listing: seq<Path>)
    ensures listing == SortedListing(paths)
  {
    listing := [];
    var left := paths;
    while left != {}
      invariant left <= paths && Ascending(listing)
      invariant forall p :: p in listing <==> p in paths && p !in left
      decreases left
    {
      var p :| p in left;
      listing := Insert(p, listing);
      left := left - {p};
    }
    AscendingIsUnique(listing, SortedListing(paths));
  }

  /** A sorted listing names every directory before anything beneath it, and nothing twice. */
  lemma {:induction false} ListingIsTopDown(listing: seq<Path>, i: nat, j: nat)
    requires Ascending(listing) && i < j < |listing|
    ensures listing[i] != listing[j] && !Above(listing[j], listing[i])
  {
    PathLessIsTotal(listing[i], listing[j]);
    if Above(listing[j], listing[i]) {
      PrefixIsLess(listing[j], listing[i]);
    }
  }
}
