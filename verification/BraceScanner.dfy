/**
  The depth-counting scanner that rescues JSON objects from a malformed model response. Parsing
  and validating one candidate is the parameter `accept`. The scanner counts braces only, so a
  brace inside a string literal counts too, as it does in the program.
 */
module BraceScanner {
  import opened Prelude

  function Step(c: char): int {
    if c == '{' then 1 else if c == '}' then -1 else 0
  }

  /** The running brace depth in front of each position and at the end; it may be negative. */
  function Depths(text: string): (d: seq<int>)
    ensures |d| == |text| + 1 && d[0] == 0
    ensures forall i :: 0 <= i < |text| ==> d[i + 1] == d[i] + Step(text[i])
  {
    if text == "" then [0]
    else
      var before := Depths(text[..|text| - 1]);
      before + [before[|text| - 1] + Step(text[|text| - 1])]
  }

  /** From i the depth leaves zero upwards and is back at zero for the first time at j. */
  ghost predicate Returns(d: seq<int>, i: int, j: int) {
    0 <= i < j < |d| && d[i] == 0 == d[j] && forall k :: i < k < j ==> d[k] > 0
  }

  /** text[i..j] opens at depth zero and closes at the first return to depth zero. */
  ghost predicate TopLevelBlock(text: string, i: int, j: int) {
    0 <= i < |text| && text[i] == '{' && Returns(Depths(text), i, j)
  }

  type Span = (nat, nat)

  ghost predicate ClosesAt(text: string, n: nat) {
    exists i: nat :: TopLevelBlock(text, i, n)
  }

  /** The top-level blocks that end by n, in the order of their ends. */
  ghost function BlocksUpTo(text: string, n: nat): seq<Span>
    requires n <= |text|
  {
    if n == 0 then []
    else if ClosesAt(text, n) then
      var i: nat :| TopLevelBlock(text, i, n);
      BlocksUpTo(text, n - 1) + [(i, n)]
    else BlocksUpTo(text, n - 1)
  }

  ghost function TopLevelBlocks(text: string): seq<Span> {
    BlocksUpTo(text, |text|)
  }

  /** The spans are exactly the top-level blocks, disjoint and in text order. */
  lemma {:induction false} BlocksAreExact(text: string, n: nat)
    requires n <= |text|
    ensures var spans := BlocksUpTo(text, n);
            && (forall i: nat, j: nat :: (i, j) in spans <==> TopLevelBlock(text, i, j) && j <= n)
            && (forall a :: 0 <= a < |spans| ==> spans[a].0 < spans[a].1 <= n)
            && (forall a, b :: 0 <= a < b < |spans| ==> spans[a].1 <= spans[b].0)
  {
    if n > 0 {
      BlocksAreExact(text, n - 1);
      var before, spans := BlocksUpTo(text, n - 1), BlocksUpTo(text, n);
      if ClosesAt(text, n) {
        var i := spans[|before|].0;
        forall j: nat | TopLevelBlock(text, j, n) ensures j == i { BlockStartIsUnique(text, i, j, n); }
        forall a | 0 <= a < |before| ensures before[a].1 <= i {
          assert (before[a].0, before[a].1) in before;
          BlocksAreDisjoint(text, before[a].0, before[a].1, i, n);
        }
      }
    }
  }

  lemma {:induction false} BlockStartIsUnique(text: string, i: nat, j: nat, n: nat)
    requires TopLevelBlock(text, i, n) && TopLevelBlock(text, j, n)
    ensures i == j
  {
  }

  lemma {:induction false} BlocksAreDisjoint(text: string, i: nat, j: nat, p: nat, q: nat)
    requires TopLevelBlock(text, i, j) && TopLevelBlock(text, p, q) && j < q
    ensures j <= p
  {
  }

  function Cut(text: string, spans: seq<Span>): seq<string>
    requires forall a :: 0 <= a < |spans| ==> spans[a].0 <= spans[a].1 <= |text|
  {
    seq(|spans|, a requires 0 <= a < |spans| => text[spans[a].0..spans[a].1])
  }

  function Accepted<T>(candidates: seq<string>, accept: string -> Option<T>): seq<T> {
    if candidates == [] then []
    else
      var rest := Accepted(candidates[..|candidates| - 1], accept);
      match accept(candidates[|candidates| - 1])
      case Some(obj) => rest + [obj]
      case None => rest
  }

  /** The scanner's start position: the last '{' at depth zero, while its block is still open. */
  ghost predicate IsOpenStart(text: string, i: nat, startPos: int)
    requires i <= |text|
  {
    && (startPos != -1 ==>
          && 0 <= startPos < i && text[startPos] == '{' && Depths(text)[startPos] == 0
          && forall k :: startPos < k <= i ==> Depths(text)[k] > 0)
    && (Depths(text)[i] > 0 ==> startPos != -1)
  }

  /** The start position after reading text[i]. */
  function NextStart(text: string, i: nat, depth: int, startPos: int): int
    requires i < |text|
  {
    if text[i] == '{' && depth == 0 then i
    else if text[i] == '}' && depth == 1 then -1
    else startPos
  }

  lemma {:induction false} OpenStartStep(text: string, i: nat, startPos: int)
    requires i < |text| && IsOpenStart(text, i, startPos)
    ensures IsOpenStart(text, i + 1, NextStart(text, i, Depths(text)[i], startPos))
  {
    var d := Depths(text);
    assert d[i + 1] == d[i] + Step(text[i]);
  }

  /** On every text, whatever its braces do, the candidates are exactly the top-level blocks. */
  method RescueIndividualObjects<T>(text: string, accept: string -> Option<T>) returns (rescued: seq<T>)
    ensures BlocksFit(text, |text|)
    ensures rescued == Accepted(Cut(text, TopLevelBlocks(text)), accept)
  {
    rescued := [];
    var depth, startPos := 0, -1;
    var i := 0;
    while i < |text|
      invariant 0 <= i <= |text| && depth == Depths(text)[i]
      invariant IsOpenStart(text, i, startPos)
      invariant BlocksFit(text, i) && rescued == Accepted(Cut(text, BlocksUpTo(text, i)), accept)
    {
      BlockEndingHere(text, i, startPos);
      OpenStartStep(text, i, startPos);
      AcceptOneMore(text, i, startPos, accept);
      assert Depths(text)[i + 1] == depth + Step(text[i]);
      if text[i] == '{' {
        if depth == 0 {
          startPos := i;
        }
        depth := depth + 1;
      } else if text[i] == '}' {
        depth := depth - 1;
        if depth == 0 && startPos != -1 {
          var parsed := accept(text[startPos..i + 1]);
          if parsed.Some? {
            rescued := rescued + [parsed.value];
          }
          startPos := -1;
        }
      }
      i := i + 1;
    }
  }

  ghost predicate BlocksFit(text: string, n: nat)
    requires n <= |text|
  {
    var spans := BlocksUpTo(text, n);
    forall a :: 0 <= a < |spans| ==> spans[a].0 <= spans[a].1 <= |text|
  }

  predicate BlockCloses(text: string, i: nat, startPos: int)
    requires i < |text|
  {
    text[i] == '}' && Depths(text)[i] == 1 && startPos != -1
  }

  lemma {:induction false} AcceptOneMore<T>(text: string, i: nat, startPos: int, accept: string -> Option<T>)
    requires i < |text| && BlocksFit(text, i)
    requires BlockCloses(text, i, startPos) ==>
      0 <= startPos <= i && BlocksUpTo(text, i + 1) == BlocksUpTo(text, i) + [(startPos as nat, i + 1)]
    requires !BlockCloses(text, i, startPos) ==> BlocksUpTo(text, i + 1) == BlocksUpTo(text, i)
    ensures BlocksFit(text, i + 1)
    ensures var before := Accepted(Cut(text, BlocksUpTo(text, i)), accept);
            Accepted(Cut(text, BlocksUpTo(text, i + 1)), accept)
              == if BlockCloses(text, i, startPos) && accept(text[startPos..i + 1]).Some?
                 then before + [accept(text[startPos..i + 1]).value] else before
  {
    if BlockCloses(text, i, startPos) {
      var a, b := Cut(text, BlocksUpTo(text, i)), Cut(text, BlocksUpTo(text, i + 1));
      assert b == a + [text[startPos..i + 1]];
      assert b[..|b| - 1] == a;
    }
  }

  /** A block ends right after position i exactly when the scanner sees an open one return to zero. */
  lemma {:induction false} BlockEndingHere(text: string, i: nat, startPos: int)
    requires i < |text| && IsOpenStart(text, i, startPos)
    ensures BlocksUpTo(text, i + 1) ==
              if BlockCloses(text, i, startPos)
              then BlocksUpTo(text, i) + [(startPos as nat, i + 1)] else BlocksUpTo(text, i)
  {
    var n := i + 1;
    forall p: nat | TopLevelBlock(text, p, n)
      ensures text[i] == '}' && Depths(text)[i] == 1 && startPos == p
    {
      assert Depths(text)[p + 1] == 1;
    }
    if BlockCloses(text, i, startPos) {
      assert TopLevelBlock(text, startPos, n);
    }
  }

  // ---- Round trip ----------------------------------------------------------------------------------

  /** One balanced object: it opens with its first character and closes only with its last. */
  ghost predicate BalancedObject(o: string) {
    TopLevelBlock(o, 0, |o|)
  }

  predicate BraceFree(s: string) {
    forall k :: 0 <= k < |s| ==> s[k] != '{' && s[k] != '}'
  }

  /** separators[0] objects[0] separators[1] objects[1] ... separators[n] */
  function Joined(objects: seq<string>, separators: seq<string>): string
    requires |separators| == |objects| + 1
  {
    if objects == [] then separators[0]
    else separators[0] + objects[0] + Joined(objects[1..], separators[1..])
  }

  /** Behind a prefix that returns to depth zero, depths start again from zero. */
  lemma {:induction false} DepthsOfConcat(a: string, b: string)
    requires Depths(a)[|a|] == 0
    ensures Depths(a + b) == Depths(a) + Depths(b)[1..]
  {
    if b == "" {
      assert a + b == a;
    } else {
      var n := |b| - 1;
      assert (a + b)[..|a + b| - 1] == a + b[..n];
      DepthsOfConcat(a, b[..n]);
    }
  }

  lemma {:induction false} BraceFreeIsFlat(s: string)
    requires BraceFree(s)
    ensures forall i :: 0 <= i <= |s| ==> Depths(s)[i] == 0
  {
    if s != "" {
      BraceFreeIsFlat(s[..|s| - 1]);
    }
  }

  function Shift(spans: seq<Span>, n: nat): seq<Span> {
    seq(|spans|, a requires 0 <= a < |spans| => (spans[a].0 + n, spans[a].1 + n))
  }

  lemma {:induction false} DepthsOfThree(sep: string, o: string, rest: string)
    requires BraceFree(sep) && Depths(o)[|o|] == 0
    ensures Depths(sep + o + rest) == Depths(sep) + Depths(o)[1..] + Depths(rest)[1..]
    ensures forall i :: 0 <= i <= |sep| ==> Depths(sep)[i] == 0
  {
    BraceFreeIsFlat(sep);
    DepthsOfConcat(sep, o);
    DepthsOfConcat(sep + o, rest);
  }

  lemma {:induction false} MovedReturn(d: seq<int>, e: seq<int>, n: nat, i: nat, j: nat)
    requires |d| == |e| + n && forall k :: 0 <= k < |e| ==> d[k + n] == e[k]
    ensures Returns(d, i + n, j + n) <==> Returns(e, i, j)
  {
    if Returns(d, i + n, j + n) {
      forall k | i < k < j ensures e[k] > 0 { assert d[k + n] == e[k]; }
    }
    if Returns(e, i, j) {
      forall k | i + n < k < j + n ensures d[k] > 0 { assert d[(k - n) + n] == e[k - n]; }
    }
  }

  /** Behind the first object the blocks are those of the rest, moved. */
  lemma {:induction false} MovedBlock(sep: string, o: string, rest: string, i: nat, j: nat)
    requires BraceFree(sep) && BalancedObject(o)
    ensures TopLevelBlock(sep + o + rest, i + |sep + o|, j + |sep + o|) <==> TopLevelBlock(rest, i, j)
  {
    DepthsOfThree(sep, o, rest);
    MovedReturn(Depths(sep + o + rest), Depths(rest), |sep + o|, i, j);
  }

  /** The only block that starts before the rest is the first object. */
  lemma {:induction false} FirstBlock(sep: string, o: string, rest: string, i: nat, j: nat)
    requires BraceFree(sep) && BalancedObject(o) && i < |sep + o|
    ensures TopLevelBlock(sep + o + rest, i, j) <==> i == |sep| && j == |sep + o|
  {
    var text, n := sep + o + rest, |sep + o|;
    DepthsOfThree(sep, o, rest);
    var d := Depths(text);
    forall k | |sep| < k < n ensures d[k] > 0 { assert d[k] == Depths(o)[k - |sep|]; }
    assert d[n] == 0 && d[|sep|] == 0;
    if i < |sep| {
      assert text[i] == sep[i];
    } else {
      assert text[i] == o[i - |sep|];
    }
  }

  /** Where the blocks of sep + o + rest are. */
  lemma {:induction false} PrependBlock(sep: string, o: string, rest: string, k: nat)
    requires BraceFree(sep) && BalancedObject(o) && k <= |rest|
    ensures BlocksUpTo(sep + o + rest, |sep + o| + k)
         == [(|sep|, |sep + o|)] + Shift(BlocksUpTo(rest, k), |sep + o|)
  {
    var text, n := sep + o + rest, |sep + o|;
    var m := n + k;
    if k == 0 {
      NoBlockInside(sep, o, rest, n - 1);
      FirstBlock(sep, o, rest, |sep|, n);
      forall i: nat | TopLevelBlock(text, i, n) ensures i == |sep| { BlockStartIsUnique(text, |sep|, i, n); }
      assert Shift(BlocksUpTo(rest, 0), n) == [];
    } else {
      PrependBlock(sep, o, rest, k - 1);
      assert m - 1 == n + (k - 1);
      BlocksMove(sep, o, rest, k, m);
      ShiftOneMore(text, rest, n, k, m, [(|sep|, n)]);
    }
  }

  lemma {:induction false} BlocksMove(sep: string, o: string, rest: string, k: nat, m: nat)
    requires BraceFree(sep) && BalancedObject(o) && 0 < k <= |rest| && m == |sep + o| + k
    ensures forall i: nat :: TopLevelBlock(sep + o + rest, i, m) ==>
              |sep + o| <= i && TopLevelBlock(rest, i - |sep + o|, k)
    ensures forall i: nat :: TopLevelBlock(rest, i, k) ==> TopLevelBlock(sep + o + rest, i + |sep + o|, m)
  {
    var n := |sep + o|;
    forall i: nat | TopLevelBlock(sep + o + rest, i, m) ensures n <= i && TopLevelBlock(rest, i - n, k) {
      if i < n { FirstBlock(sep, o, rest, i, m); }
      else { MovedBlock(sep, o, rest, i - n, k); }
    }
    forall i: nat | TopLevelBlock(rest, i, k) ensures TopLevelBlock(sep + o + rest, i + n, m) {
      MovedBlock(sep, o, rest, i, k);
    }
  }

  lemma {:induction false} ShiftOneMore(text: string, rest: string, n: nat, k: nat, m: nat, head: seq<Span>)
    requires 0 < k <= |rest| && m == n + k <= |text|
    requires forall i: nat :: TopLevelBlock(text, i, m) ==> n <= i && TopLevelBlock(rest, i - n, k)
    requires forall i: nat :: TopLevelBlock(rest, i, k) ==> TopLevelBlock(text, i + n, m)
    requires BlocksUpTo(text, m - 1) == head + Shift(BlocksUpTo(rest, k - 1), n)
    ensures BlocksUpTo(text, m) == head + Shift(BlocksUpTo(rest, k), n)
  {
    if ClosesAt(rest, k) {
      var i := BlockClosingAt(rest, k);
      var j := BlockClosingAt(text, m) by { assert TopLevelBlock(text, i + n, m); }
      BlockStartIsUnique(text, i + n, j, m);
      ShiftAppend(BlocksUpTo(rest, k - 1), (i, k), n);
    }
  }

  lemma {:induction false} BlockClosingAt(text: string, n: nat) returns (i: nat)
    requires 0 < n <= |text| && ClosesAt(text, n)
    ensures TopLevelBlock(text, i, n) && BlocksUpTo(text, n) == BlocksUpTo(text, n - 1) + [(i, n)]
  {
    i := BlocksUpTo(text, n)[|BlocksUpTo(text, n - 1)|].0;
  }

  lemma {:induction false} ShiftAppend(spans: seq<Span>, s: Span, n: nat)
    ensures Shift(spans + [s], n) == Shift(spans, n) + [(s.0 + n, s.1 + n)]
  {
  }

  lemma {:induction false} NoBlockInside(sep: string, o: string, rest: string, k: nat)
    requires BraceFree(sep) && BalancedObject(o) && k < |sep + o|
    ensures BlocksUpTo(sep + o + rest, k) == []
  {
    if k > 0 {
      NoBlockInside(sep, o, rest, k - 1);
      forall i: nat | TopLevelBlock(sep + o + rest, i, k) ensures false {
        FirstBlock(sep, o, rest, i, k);
      }
    }
  }

  lemma {:induction false} FlatTextHasNoBlock(s: string, k: nat)
    requires BraceFree(s) && k <= |s|
    ensures BlocksUpTo(s, k) == []
  {
    if k > 0 {
      FlatTextHasNoBlock(s, k - 1);
    }
  }

  /** Scanning balanced objects between brace-free separators returns precisely those objects. */
  lemma {:induction false} ScanInvertsJoin(objects: seq<string>, separators: seq<string>)
    requires |separators| == |objects| + 1
    requires forall o :: o in objects ==> BalancedObject(o)
    requires forall s :: s in separators ==> BraceFree(s)
    ensures var text := Joined(objects, separators);
            BlocksFit(text, |text|) && Cut(text, TopLevelBlocks(text)) == objects
  {
    var text := Joined(objects, separators);
    if objects == [] {
      FlatTextHasNoBlock(separators[0], |separators[0]|);
    } else {
      var sep, o, rest := separators[0], objects[0], Joined(objects[1..], separators[1..]);
      ScanInvertsJoin(objects[1..], separators[1..]);
      PrependBlock(sep, o, rest, |rest|);
      CutPrepended(sep, o, rest, TopLevelBlocks(rest));
      assert objects == [o] + objects[1..];
    }
  }

  lemma {:induction false} CutPrepended(sep: string, o: string, rest: string, tail: seq<Span>)
    requires forall a :: 0 <= a < |tail| ==> tail[a].0 <= tail[a].1 <= |rest|
    ensures Cut(sep + o + rest, [(|sep|, |sep + o|)] + Shift(tail, |sep + o|)) == [o] + Cut(rest, tail)
  {
    var text, n := sep + o + rest, |sep + o|;
    var spans := [(|sep|, n)] + Shift(tail, n);
    assert text[|sep|..n] == o;
    forall a | 0 < a < |spans| ensures Cut(text, spans)[a] == Cut(rest, tail)[a - 1] {
      assert spans[a] == (tail[a - 1].0 + n, tail[a - 1].1 + n);
      assert text[tail[a - 1].0 + n..tail[a - 1].1 + n] == rest[tail[a - 1].0..tail[a - 1].1];
    }
  }
}
