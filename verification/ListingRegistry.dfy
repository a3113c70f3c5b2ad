/** The registry of listings recommended so far, and the write-back of one turn of a conversation. */
module ListingRegistry {
  import opened Prelude

  // ---- Identity of a listing -------------------------------------------------------------------------

  /** White space of ASCII: the characters 9 to 13 and 28 to 32. */
  predicate IsSpace(c: char) {
    9 <= c as int <= 13 || 28 <= c as int <= 32
  }

  function StripLeft(s: string): string {
    if s != "" && IsSpace(s[0]) then StripLeft(s[1..]) else s
  }

  function StripRight(s: string): string {
    if s != "" && IsSpace(s[|s| - 1]) then StripRight(s[..|s| - 1]) else s
  }

  function Strip(s: string): string {
    StripRight(StripLeft(s))
  }

  function LowerChar(c: char): char {
    if 'A' <= c <= 'Z' then c - 'A' + 'a' else c
  }

  function Lower(s: string): string {
    seq(|s|, i requires 0 <= i < |s| => LowerChar(s[i]))
  }

  predicate IsBlank(c: char) {
    c in {' ', '\t', '\n', '\r', '\U{b}', '\U{c}', '\U{1c}', '\U{1d}', '\U{1e}', '\U{1f}'}
  }

  predicate Blank(s: string) {
    forall i :: 0 <= i < |s| ==> IsBlank(s[i])
  }

  lemma {:induction false} LeftIs(s: string) returns (front: string)
    ensures s == front + StripLeft(s) && Blank(front)
    ensures StripLeft(s) != "" ==> !IsBlank(StripLeft(s)[0])
  {
    if s != "" && IsSpace(s[0]) {
      var rest := LeftIs(s[1..]);
      front := [s[0]] + rest;
    } else {
      front := "";
    }
  }

  lemma {:induction false} RightIs(s: string) returns (back: string)
    ensures s == StripRight(s) + back && Blank(back)
    ensures StripRight(s) != "" ==> !IsBlank(StripRight(s)[|StripRight(s)| - 1]) && StripRight(s)[0] == s[0]
  {
    if s != "" && IsSpace(s[|s| - 1]) {
      var rest := RightIs(s[..|s| - 1]);
      back := rest + [s[|s| - 1]];
    } else {
      back := "";
    }
  }

  /** Stripping takes white space off both ends, all of it and nothing else. */
  lemma {:induction false} StripIs(s: string) returns (front: string, back: string)
    ensures s == front + Strip(s) + back && Blank(front) && Blank(back)
    ensures Strip(s) != "" ==> !IsBlank(Strip(s)[0]) && !IsBlank(Strip(s)[|Strip(s)| - 1])
  {
    front := LeftIs(s);
    back := RightIs(StripLeft(s));
    assert s == front + (Strip(s) + back) == front + Strip(s) + back;
  }

  function WithoutSlashes(s: string): string {
    if s != "" && s[|s| - 1] == '/' then WithoutSlashes(s[..|s| - 1]) else s
  }

  function Digits(s: string): string {
    if s == "" then ""
    else if '0' <= s[0] <= '9' then [s[0]] + Digits(s[1..])
    else Digits(s[1..])
  }

  function OrEmpty(s: Option<string>): string {
    if s.Some? then s.value else ""
  }

  datatype ListingKey = ByUrl(url: string) | ByAddress(address: string, price: string)

  /** _registry_entry_key: the url if there is one, else the address with the digits of the price. */
  function KeyFor(url: Option<string>, address: Option<string>, price: Option<string>): Option<ListingKey> {
    var u := WithoutSlashes(Lower(Strip(OrEmpty(url))));
    if u != "" then Some(ByUrl(u))
    else
      var a := Lower(Strip(OrEmpty(address)));
      if a != "" then Some(ByAddress(a, Digits(OrEmpty(price)))) else None
  }

  lemma {:induction false} NoSlashIs(s: string) returns (k: nat)
    ensures s == WithoutSlashes(s) + seq(k, (i: nat) => '/')
    ensures WithoutSlashes(s) != "" ==> WithoutSlashes(s)[|WithoutSlashes(s)| - 1] != '/'
  {
    k := 0;
    if s != "" && s[|s| - 1] == '/' {
      var n := NoSlashIs(s[..|s| - 1]);
      k := n + 1;
    }
  }

  lemma {:induction false} DigitsAre(s: string, c: char)
    ensures Digits("") == ""
    ensures Digits(s + [c]) == Digits(s) + if c in {'0', '1', '2', '3', '4', '5', '6', '7', '8', '9'} then [c] else []
  {
    if s == "" {
      assert ([] + [c])[1..] == [];
    } else {
      assert (s + [c])[1..] == s[1..] + [c];
      DigitsAre(s[1..], c);
    }
  }

  const CAPITALS: string := "ABCDEFGHIJKLMNOPQRSTUVWXYZ"
  const LETTERS: string := "abcdefghijklmnopqrstuvwxyz"

  /** Letter by letter: capital number i becomes letter number i, and nothing else changes. */
  lemma {:induction false} LowerIs(s: string, k: nat)
    requires k < |s|
    ensures |Lower(s)| == |s|
    ensures forall i :: 0 <= i < 26 && s[k] == CAPITALS[i] ==> Lower(s)[k] == LETTERS[i]
    ensures (forall i :: 0 <= i < 26 ==> s[k] != CAPITALS[i]) ==> Lower(s)[k] == s[k]
  {
    if 'A' <= s[k] <= 'Z' {
      assert s[k] == CAPITALS[(s[k] - 'A') as int];
    }
  }

  /** The key, case by case: u and a are the url and the address, stripped and in lower case. */
  lemma {:induction false} KeyIs(url: Option<string>, address: Option<string>, price: Option<string>)
    ensures var u := WithoutSlashes(Lower(Strip(if url.Some? then url.value else "")));
      var a := Lower(Strip(if address.Some? then address.value else ""));
      && (u != "" ==> KeyFor(url, address, price) == Some(ByUrl(u)))
      && (u == "" && a != "" ==>
            KeyFor(url, address, price) == Some(ByAddress(a, Digits(if price.Some? then price.value else ""))))
      && (u == "" && a == "" ==> KeyFor(url, address, price) == None)
  {
  }

  /** A trailing slash does not make another listing. */
  lemma {:induction false} TrailingSlashIsTheSame(u: string, address: Option<string>, price: Option<string>)
    requires u == "" || (!IsSpace(u[0]) && !IsSpace(u[|u| - 1]))
    ensures KeyFor(Some(u + "/"), address, price) == KeyFor(Some(u), address, price)
  {
    var t := u + "/";
    assert StripLeft(t) == t && StripRight(t) == t && StripLeft(u) == u && StripRight(u) == u;
    assert Lower(t)[|t| - 1] == '/' && Lower(t)[..|t| - 1] == Lower(u);
  }

  // ---- The registry ----------------------------------------------------------------------------------

  /** What an entry keeps of a recommendation besides its identity. */
  datatype Details = Details(area: string, travelTime: string, availableFrom: string, location: string)

  datatype Entry = Entry(index: Option<int>, url: Option<string>, address: Option<string>, price: Option<string>, details: Details)

  datatype Recommendation = Recommendation(
    url: Option<string>, address: Option<string>, price: Option<string>, status: string, details: Details)

  const MAX_ENTRIES: int := 200

  function EntryKey(e: Entry): Option<ListingKey> {
    KeyFor(e.url, e.address, e.price)
  }

  function RecKey(r: Recommendation): Option<ListingKey> {
    KeyFor(r.url, r.address, r.price)
  }

  function EntryFor(r: Recommendation, index: int): Entry {
    Entry(Some(index), Some(OrEmpty(r.url)), Some(OrEmpty(r.address)), r.price, r.details)
  }

  predicate Unverified(r: Recommendation) {
    r.status == "excluded" || r.status == "unknown"
  }

  function KeysOf(registry: seq<Entry>): set<ListingKey> {
    set i | 0 <= i < |registry| && EntryKey(registry[i]).Some? :: EntryKey(registry[i]).value
  }

  function MaxIndex(registry: seq<Entry>): (m: int)
    ensures m >= 0
    ensures forall i :: 0 <= i < |registry| && registry[i].index.Some? ==> registry[i].index.value <= m
  {
    if registry == [] then 0
    else
      var m := MaxIndex(registry[..|registry| - 1]);
      var last := registry[|registry| - 1].index;
      assert forall i :: 0 <= i < |registry| - 1 ==> registry[..|registry| - 1][i] == registry[i];
      if last.Some? && last.value > m then last.value else m
  }

  predicate IsNew(registry: seq<Entry>, r: Recommendation) {
    !Unverified(r) && RecKey(r).Some? && RecKey(r).value !in KeysOf(registry)
  }

  /** One recommendation: appended with the next index if it is new and there is room. */
  function AddOne(registry: seq<Entry>, r: Recommendation, maxItems: int): seq<Entry> {
    if IsNew(registry, r) && |registry| < maxItems then registry + [EntryFor(r, MaxIndex(registry) + 1)] else registry
  }

  function Merge(registry: seq<Entry>, recs: seq<Recommendation>, maxItems: int): seq<Entry>
    decreases |recs|
  {
    if recs == [] then registry else Merge(AddOne(registry, recs[0], maxItems), recs[1..], maxItems)
  }

  lemma {:induction false} StoredKeyIsTheSame(r: Recommendation, index: int)
    ensures EntryKey(EntryFor(r, index)) == RecKey(r)
  {
  }

  lemma {:induction false} KeysGrow(registry: seq<Entry>, e: Entry)
    ensures KeysOf(registry + [e]) == KeysOf(registry) + (if EntryKey(e).Some? then {EntryKey(e).value} else {})
  {
    var grown := registry + [e];
    forall k | k in KeysOf(registry) ensures k in KeysOf(grown) {
      var i :| 0 <= i < |registry| && EntryKey(registry[i]) == Some(k);
      assert grown[i] == registry[i];
    }
    assert grown[|registry|] == e;
  }

  lemma {:induction false} MaxIndexGrows(registry: seq<Entry>, e: Entry)
    ensures MaxIndex(registry + [e]) ==
              if e.index.Some? && e.index.value > MaxIndex(registry) then e.index.value else MaxIndex(registry)
  {
    assert (registry + [e])[..|registry|] == registry;
  }

  /** A full registry takes nothing more: why the loop may stop there. */
  lemma {:induction false} FullStaysFull(registry: seq<Entry>, recs: seq<Recommendation>, maxItems: int)
    requires |registry| >= maxItems
    ensures Merge(registry, recs, maxItems) == registry
    decreases |recs|
  {
    if recs != [] { FullStaysFull(registry, recs[1..], maxItems); }
  }

  lemma {:induction false} MergeStep(registry: seq<Entry>, recs: seq<Recommendation>, n: nat, maxItems: int)
    requires n < |recs|
    ensures Merge(registry, recs[..n + 1], maxItems) == AddOne(Merge(registry, recs[..n], maxItems), recs[n], maxItems)
    decreases n
  {
    if n == 0 {
      assert recs[..1] == [recs[0]];
      assert recs[..1][1..] == [];
    } else {
      MergeStep(AddOne(registry, recs[0], maxItems), recs[1..], n - 1, maxItems);
      assert recs[..n + 1][1..] == recs[1..][..n] && recs[..n][1..] == recs[1..][..n - 1];
    }
  }

  /** The keys seen and the highest index, over the entries already there. */
  method ScanExisting(existing: seq<Entry>) returns (seen: set<ListingKey>, maxIndex: int)
    ensures seen == KeysOf(existing) && maxIndex == MaxIndex(existing)
  {
    seen, maxIndex := {}, 0;
    for n := 0 to |existing|
      invariant seen == KeysOf(existing[..n]) && maxIndex == MaxIndex(existing[..n])
    {
      assert existing[..n + 1] == existing[..n] + [existing[n]];
      KeysGrow(existing[..n], existing[n]);
      MaxIndexGrows(existing[..n], existing[n]);
      var key := EntryKey(existing[n]);
      if key.Some? {
        seen := seen + {key.value};
      }
      if existing[n].index.Some? && existing[n].index.value > maxIndex {
        maxIndex := existing[n].index.value;
      }
    }
    assert existing[..|existing|] == existing;
  }

  /** One round of the second loop; `full` is its break. */
  method ConsiderOne(registry: seq<Entry>, seen: set<ListingKey>, maxIndex: int, rec: Recommendation, maxItems: int)
    returns (full: bool, registry': seq<Entry>, seen': set<ListingKey>, maxIndex': int)
    requires seen == KeysOf(registry) && maxIndex == MaxIndex(registry)
    ensures registry' == AddOne(registry, rec, maxItems)
    ensures seen' == KeysOf(registry') && maxIndex' == MaxIndex(registry')
    ensures full ==> |registry'| >= maxItems
  {
    full, registry', seen', maxIndex' := false, registry, seen, maxIndex;
    var key := RecKey(rec);
    if Unverified(rec) || key.None? || key.value in seen {
      return;
    }
    if |registry| >= maxItems {
      full := true;
      return;
    }
    maxIndex' := maxIndex + 1;
    var entry := EntryFor(rec, maxIndex');
    StoredKeyIsTheSame(rec, maxIndex');
    KeysGrow(registry, entry);
    MaxIndexGrows(registry, entry);
    registry' := registry + [entry];
    seen' := seen + {key.value};
  }

  /** _merge_recommended_registry */
  method MergeRecommendedRegistry(existing: seq<Entry>, recs: seq<Recommendation>, maxItems: int)
    returns (registry: seq<Entry>)
    ensures registry == Merge(existing, recs, maxItems)
  {
    registry := existing;
    var seen, maxIndex := ScanExisting(existing);
    var n, full := 0, false;
    assert recs[..0] == [];
    while n < |recs| && !full
      invariant 0 <= n <= |recs|
      invariant registry == Merge(existing, recs[..n], maxItems)
      invariant seen == KeysOf(registry) && maxIndex == MaxIndex(registry)
      invariant full ==> |registry| >= maxItems
      decreases |recs| - n, !full
    {
      MergeStep(existing, recs, n, maxItems);
      full, registry, seen, maxIndex := ConsiderOne(registry, seen, maxIndex, recs[n], maxItems);
      n := n + 1;
    }
    MergeSplits(existing, recs[..n], recs[n..], maxItems);
    assert recs[..n] + recs[n..] == recs;
    if full {
      FullStaysFull(registry, recs[n..], maxItems);
    } else {
      assert recs[..n] == recs;
    }
  }

  // ---- What the merge guarantees -----------------------------------------------------------------------

  /** Merging is incremental: two batches one after the other are one batch. */
  lemma {:induction false} MergeSplits(registry: seq<Entry>, first: seq<Recommendation>,
        second: seq<Recommendation>, maxItems: int)
    ensures Merge(Merge(registry, first, maxItems), second, maxItems) == Merge(registry, first + second, maxItems)
    decreases |first|
  {
    if first == [] {
      assert first + second == second;
    } else {
      assert (first + second)[1..] == first[1..] + second;
      MergeSplits(AddOne(registry, first[0], maxItems), first[1..], second, maxItems);
    }
  }

  /** Everything already registered stays as it was, at the front. */
  lemma {:induction false} ExistingIsPrefix(registry: seq<Entry>, recs: seq<Recommendation>, maxItems: int)
    ensures registry <= Merge(registry, recs, maxItems)
    ensures Merge(registry, recs, maxItems) == registry || |Merge(registry, recs, maxItems)| <= maxItems
    decreases |recs|
  {
    if recs != [] { ExistingIsPrefix(AddOne(registry, recs[0], maxItems), recs[1..], maxItems); }
  }

  /** Entry i was appended: it has a key of its own and an index above everything before it. */
  ghost predicate FreshAt(registry: seq<Entry>, i: nat)
    requires i < |registry|
  {
    && registry[i].index.Some? && EntryKey(registry[i]).Some?
    && forall j :: 0 <= j < i ==>
         && (registry[j].index.Some? ==> registry[j].index.value < registry[i].index.value)
         && EntryKey(registry[j]) != EntryKey(registry[i])
  }

  lemma {:induction false} KeyIsIn(registry: seq<Entry>, j: nat)
    requires j < |registry|
    ensures EntryKey(registry[j]).Some? ==> EntryKey(registry[j]).value in KeysOf(registry)
  {
  }

  lemma {:induction false} AddOneIsFresh(registry: seq<Entry>, r: Recommendation, maxItems: int)
    ensures var grown := AddOne(registry, r, maxItems);
            |grown| > |registry| ==> |grown| == |registry| + 1 && FreshAt(grown, |registry|)
  {
    var grown := AddOne(registry, r, maxItems);
    if |grown| > |registry| {
      StoredKeyIsTheSame(r, MaxIndex(registry) + 1);
      forall j | 0 <= j < |registry| ensures EntryKey(registry[j]) != RecKey(r) {
        KeyIsIn(registry, j);
      }
    }
  }

  lemma {:induction false} FreshInLonger(a: seq<Entry>, b: seq<Entry>, i: nat)
    requires a <= b && i < |a| && FreshAt(a, i)
    ensures FreshAt(b, i)
  {
    assert forall j :: 0 <= j <= i ==> b[j] == a[j];
  }

  /** New indices are above all earlier ones and new keys clash with nothing. */
  lemma {:induction false} AppendedAreFresh(registry: seq<Entry>, recs: seq<Recommendation>, maxItems: int, i: nat)
    requires |registry| <= i < |Merge(registry, recs, maxItems)|
    ensures FreshAt(Merge(registry, recs, maxItems), i)
    decreases |recs|
  {
    if recs != [] {
      var grown := AddOne(registry, recs[0], maxItems);
      if i < |grown| {
        AddOneIsFresh(registry, recs[0], maxItems);
        ExistingIsPrefix(grown, recs[1..], maxItems);
        FreshInLonger(grown, Merge(grown, recs[1..], maxItems), i);
      } else {
        AppendedAreFresh(grown, recs[1..], maxItems, i);
      }
    }
  }

  lemma {:induction false} KeysSurvive(a: seq<Entry>, b: seq<Entry>, k: ListingKey)
    requires a <= b && k in KeysOf(a)
    ensures k in KeysOf(b)
  {
    var i :| 0 <= i < |a| && EntryKey(a[i]) == Some(k);
    assert b[i] == a[i];
  }

  /** Entry e is what is kept of a recommendation with that index. */
  predicate Keeps(e: Entry, r: Recommendation) {
    && e.index.Some? && e.price == r.price && e.details == r.details
    && e.url == Some(if r.url.Some? then r.url.value else "") && e.address == Some(if r.address.Some? then r.address.value else "")
  }

  lemma {:induction false} AddOneKeeps(registry: seq<Entry>, r: Recommendation, maxItems: int)
    ensures var grown := AddOne(registry, r, maxItems);
      && registry <= grown && |grown| <= |registry| + 1
      && (|grown| > |registry| ==> Keeps(grown[|registry|], r) && r.status != "excluded" && r.status != "unknown")
  {
  }

  /** Entry i of t is kept of recommendation n, neither excluded nor unknown, and was what it added. */
  ghost predicate AddedBy(registry: seq<Entry>, recs: seq<Recommendation>, maxItems: int, t: seq<Entry>, i: nat, n: nat) {
    && n < |recs| && i < |t| && Keeps(t[i], recs[n]) && recs[n].status != "excluded" && recs[n].status != "unknown"
    && Merge(registry, recs[..n], maxItems) == t[..i] && Merge(registry, recs[..n + 1], maxItems) == t[..i + 1]
  }

  lemma {:induction false} AddedEarlier(registry: seq<Entry>, recs: seq<Recommendation>, k: nat, maxItems: int,
        before: seq<Entry>, t: seq<Entry>, i: nat, n: nat)
    requires k <= |recs| && before <= t && AddedBy(registry, recs[..k], maxItems, before, i, n)
    ensures AddedBy(registry, recs, maxItems, t, i, n)
  {
    assert recs[..k][..n] == recs[..n] && recs[..k][..n + 1] == recs[..n + 1];
    assert t[..i] == before[..i] && t[..i + 1] == before[..i + 1];
  }

  /** Every new entry is kept of one of the recommendations. */
  lemma {:induction false} AppendedIsRecommended(registry: seq<Entry>, recs: seq<Recommendation>, maxItems: int, i: nat)
      returns (n: nat)
    requires |registry| <= i < |Merge(registry, recs, maxItems)|
    ensures AddedBy(registry, recs, maxItems, Merge(registry, recs, maxItems), i, n)
    decreases |recs|
  {
    var last := |recs| - 1;
    var before, t := Merge(registry, recs[..last], maxItems), Merge(registry, recs, maxItems);
    MergeStep(registry, recs, last, maxItems);
    assert recs[..last + 1] == recs;
    AddOneKeeps(before, recs[last], maxItems);
    if i < |before| {
      n := AppendedIsRecommended(registry, recs[..last], maxItems, i);
      AddedEarlier(registry, recs, last, maxItems, before, t, i, n);
    } else {
      n := last;
      assert t[..i] == before && t[..i + 1] == t;
    }
  }

  /** Nothing verified is lost while there is room. */
  lemma {:induction false} RecommendedIsRegistered(registry: seq<Entry>, recs: seq<Recommendation>, maxItems: int,
        n: nat)
    requires n < |recs| && !Unverified(recs[n]) && RecKey(recs[n]).Some?
    ensures RecKey(recs[n]).value in KeysOf(Merge(registry, recs, maxItems)) || |Merge(registry, recs, maxItems)| >= maxItems
    decreases |recs|
  {
    var grown := AddOne(registry, recs[0], maxItems);
    if n == 0 {
      ExistingIsPrefix(grown, recs[1..], maxItems);
      if IsNew(registry, recs[0]) && |registry| < maxItems {
        StoredKeyIsTheSame(recs[0], MaxIndex(registry) + 1);
        KeysGrow(registry, EntryFor(recs[0], MaxIndex(registry) + 1));
      }
      if RecKey(recs[0]).value in KeysOf(grown) {
        KeysSurvive(grown, Merge(grown, recs[1..], maxItems), RecKey(recs[0]).value);
      }
    } else {
      RecommendedIsRegistered(grown, recs[1..], maxItems, n - 1);
    }
  }

  lemma {:induction false} NothingNewToMerge(registry: seq<Entry>, recs: seq<Recommendation>, maxItems: int)
    requires forall n :: 0 <= n < |recs| ==> !IsNew(registry, recs[n]) || |registry| >= maxItems
    ensures Merge(registry, recs, maxItems) == registry
    decreases |recs|
  {
    if recs != [] {
      assert forall n :: 0 <= n < |recs| - 1 ==> recs[1..][n] == recs[n + 1];
      NothingNewToMerge(registry, recs[1..], maxItems);
    }
  }

  /** Merging the same recommendations again changes nothing. */
  lemma {:induction false} MergeIsIdempotent(registry: seq<Entry>, recs: seq<Recommendation>, maxItems: int)
    ensures Merge(Merge(registry, recs, maxItems), recs, maxItems) == Merge(registry, recs, maxItems)
  {
    var merged := Merge(registry, recs, maxItems);
    forall n | 0 <= n < |recs| ensures !IsNew(merged, recs[n]) || |merged| >= maxItems {
      if !Unverified(recs[n]) && RecKey(recs[n]).Some? {
        RecommendedIsRegistered(registry, recs, maxItems, n);
      }
    }
    NothingNewToMerge(merged, recs, maxItems);
  }

  // ---- Writing a turn back -----------------------------------------------------------------------------

  datatype Turn = Turn(user: string, assistant: string)

  const MAX_HISTORY_LENGTH: nat := 10
  const ASSISTANT_LIMIT: nat := 500

  function Clip(s: string): string {
    if |s| > ASSISTANT_LIMIT then s[..ASSISTANT_LIMIT] else s
  }

  /** One turn as it is submitted: what was said and what was recommended. */
  datatype Submission = Submission(user: string, assistant: string, recs: seq<Recommendation>)

  function TurnOf(s: Submission): Turn {
    Turn(s.user, Clip(s.assistant))
  }

  class Session {
    var history: seq<Turn>
    var lastResults: seq<Recommendation>
    var registry: seq<Entry>

    constructor ()
      ensures history == [] && lastResults == [] && registry == []
    {
      history, lastResults, registry := [], [], [];
    }

    /** _write_back_turn, under the turn lock. The turns that fall out go to the rolling summary. */
    method WriteBackTurn(s: Submission) returns (dropped: seq<Turn>)
      modifies this
      ensures dropped + history == old(history) + [Turn(s.user, if |s.assistant| > 500 then s.assistant[..500] else s.assistant)]
      ensures dropped == [] || |history| == 10
      ensures |history| <= 10
      ensures registry == Merge(old(registry), s.recs, 200)
      ensures lastResults == if s.recs != [] then s.recs else old(lastResults)
    {
      dropped := [];
      history := history + [TurnOf(s)];
      if |history| > MAX_HISTORY_LENGTH {
        var cut := |history| - MAX_HISTORY_LENGTH;
        dropped := history[..cut];
        history := history[cut..];
      }
      if s.recs != [] {
        lastResults := s.recs;
        registry := MergeRecommendedRegistry(registry, s.recs, MAX_ENTRIES);
      }
    }

    /** A whole conversation of turns, one after the other. */
    method WriteBackAll(turns: seq<Submission>) returns (dropped: seq<Turn>)
      requires |history| <= MAX_HISTORY_LENGTH
      modifies this
      ensures dropped + history == old(history) + AllTurns(turns)
      ensures |history| <= MAX_HISTORY_LENGTH
      ensures registry == Merge(old(registry), AllRecs(turns), MAX_ENTRIES)
    {
      dropped := [];
      for n := 0 to |turns|
        invariant dropped + history == old(history) + AllTurns(turns[..n]) && |history| <= MAX_HISTORY_LENGTH
        invariant registry == Merge(old(registry), AllRecs(turns[..n]), MAX_ENTRIES)
      {
        OneMoreTurn(turns, n);
        MergeSplits(old(registry), AllRecs(turns[..n]), turns[n].recs, MAX_ENTRIES);
        ghost var before, h := dropped, history;
        var more := WriteBackTurn(turns[n]);
        Regroup(before, more, history, h, TurnOf(turns[n]), old(history), AllTurns(turns[..n]));
        dropped := dropped + more;
      }
      assert turns[..|turns|] == turns;
    }
  }

  function AllTurns(turns: seq<Submission>): seq<Turn> {
    if turns == [] then [] else AllTurns(turns[..|turns| - 1]) + [TurnOf(turns[|turns| - 1])]
  }

  function AllRecs(turns: seq<Submission>): seq<Recommendation> {
    if turns == [] then [] else AllRecs(turns[..|turns| - 1]) + turns[|turns| - 1].recs
  }

  lemma {:induction false} OneMoreTurn(turns: seq<Submission>, n: nat)
    requires n < |turns|
    ensures AllTurns(turns[..n + 1]) == AllTurns(turns[..n]) + [TurnOf(turns[n])]
    ensures AllRecs(turns[..n + 1]) == AllRecs(turns[..n]) + turns[n].recs
  {
    assert turns[..n + 1][..n] == turns[..n];
  }

  lemma {:induction false} Regroup(dropped: seq<Turn>, more: seq<Turn>, history: seq<Turn>, before: seq<Turn>, t: Turn,
                                   first: seq<Turn>, turns: seq<Turn>)
    requires more + history == before + [t] && dropped + before == first + turns
    ensures (dropped + more) + history == first + (turns + [t])
  {
    assert (dropped + more) + history == dropped + (more + history);
    assert dropped + (before + [t]) == (dropped + before) + [t];
  }
}
