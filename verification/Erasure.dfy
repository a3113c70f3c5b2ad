/** The privacy erasure of one user, over stores that may fail in any way at any step. */
module Erasure {
  /** What the stores hold for the user, and whether the erasure fence is up. */
  datatype Stores = Stores(
    memory: set<string>, threads: set<string>, conversations: set<string>, favorites: set<string>,
    credentials: set<string>, slices: set<string>, fence: bool, signedIn: bool)

  /** A deletion leaves behind whatever it likes of what was there, and may raise besides. */
  datatype Deletion = Deletion(leaves: set<string>, raises: bool)

  /**
    Everything that can go wrong in one attempt; running: a turn of the user is in progress;
    released: the fence is taken down again.
   */
  datatype Attempt = Attempt(
    running: bool, checkpointing: bool, listing: bool,
    memory: Deletion, threadsLeft: set<string>, threadRaises: set<string>, relational: Deletion, favoritesLeft: set<string>,
    retained: bool, credentials: Deletion, slices: Deletion, released: bool)

  datatype Response = Busy | Partial | Complete | Crashed

  predicate Works(d: Deletion, before: set<string>) {
    !d.raises && before * d.leaves == {}
  }

  /** _delete_checkpoint_thread for each of the ids reports success. */
  predicate ThreadsWork(threads: set<string>, ids: set<string>, a: Attempt) {
    a.checkpointing ==> forall c :: c in ids ==> c !in a.threadRaises && (c in threads ==> c !in a.threadsLeft)
  }

  function ThreadsAfter(threads: set<string>, ids: set<string>, a: Attempt): set<string> {
    if a.checkpointing then threads - (ids - a.threadsLeft) else threads
  }

  predicate RelationalWorks(s: Stores, a: Attempt) {
    Works(a.relational, s.conversations) && s.favorites * a.favoritesLeft == {}
  }

  /** The stores after one attempt, and what the caller is told. */
  function Attempted(s: Stores, a: Attempt): (Stores, Response) {
    if a.running || s.fence then (s, Busy)
    else
      var (t, r) := Erased(s, a);
      if a.released then (t, r) else (t.(fence := true), Crashed)
  }

  /** The part of it that the fence protects. */
  function Erased(s: Stores, a: Attempt): (Stores, Response) {
    if a.listing then (s, Crashed)
    else
      var memoryOk := Works(a.memory, s.memory);
      var threadsOk := ThreadsWork(s.threads, s.conversations, a);
      var s1 := s.(memory := s.memory * a.memory.leaves, threads := ThreadsAfter(s.threads, s.conversations, a));
      if !memoryOk || !threadsOk then (s1, if a.retained then Crashed else Partial)
      else
        var s2 := s1.(conversations := s.conversations * a.relational.leaves, favorites := s.favorites * a.favoritesLeft);
        if !RelationalWorks(s, a) then (s2, Partial)
        else
          var s3 := s2.(credentials := s.credentials * a.credentials.leaves);
          if !Works(a.credentials, s.credentials) then (s3, Partial)
          else
            var s4 := s3.(slices := s.slices * a.slices.leaves);
            if a.slices.raises then (s4, Crashed)
            else if s4.slices != {} then (s4, Partial)
            else (s4.(signedIn := false), Complete)
  }

  /** The requests that delete something of a user. */
  datatype Event =
    | Erase(attempt: Attempt)
    | DeleteOne(conversation: string, attempt: Attempt)
    | ClearOne(conversation: string, attempt: Attempt)
    | ClearAll(attempt: Attempt)

  /** What the deletions of conversations answer; a slice that raises is an uncaught error. */
  datatype Reply = NotFound | Done | Failed

  function After(s: Stores, e: Event): Stores {
    match e
    case Erase(a) => Attempted(s, a).0
    case DeleteOne(c, a) =>
      if c !in s.conversations then s else ThreadCleared(s.(conversations := s.conversations - {c}), c, a)
    case ClearOne(c, a) =>
      if c !in s.conversations then s else ThreadCleared(s, c, a)
    case ClearAll(a) =>
      s.(conversations := {}, slices := s.slices * a.slices.leaves, threads := ThreadsAfter(s.threads, s.conversations, a))
  }

  /** The slice of a conversation is dropped, then its thread; if the slice raises, the thread stays. */
  function ThreadCleared(s: Stores, c: string, a: Attempt): Stores {
    var t := s.(slices := s.slices - ({c} - a.slices.leaves));
    if a.slices.raises then t else t.(threads := ThreadsAfter(s.threads, {c}, a))
  }

  class UserStores {
    var memory: set<string>
    var threads: set<string>
    var conversations: set<string>
    var favorites: set<string>
    var credentials: set<string>
    var slices: set<string>
    var fence: bool
    var signedIn: bool

    constructor (s: Stores)
      ensures View() == s
    {
      memory, threads, conversations, favorites := s.memory, s.threads, s.conversations, s.favorites;
      credentials, slices, fence, signedIn := s.credentials, s.slices, s.fence, s.signedIn;
    }

    function View(): Stores
      reads this
    {
      Stores(memory, threads, conversations, favorites, credentials, slices, fence, signedIn)
    }

    /** _delete_checkpoint_thread, for one conversation; whether it reports success. */
    method DeleteThread(conversation: string, a: Attempt) returns (ok: bool)
      modifies this`threads
      ensures threads == if a.checkpointing && conversation !in a.threadsLeft then old(threads) - {conversation} else old(threads)
      ensures ok <==> a.checkpointing ==> conversation !in a.threadRaises && conversation !in threads
    {
      if !a.checkpointing {
        return true;
      }
      if conversation !in a.threadsLeft {
        threads := threads - {conversation};
      }
      ok := conversation !in a.threadRaises && conversation !in threads;
    }

    method DeleteThreads(ids: set<string>, a: Attempt) returns (ok: bool)
      modifies this`threads
      ensures threads == ThreadsAfter(old(threads), ids, a)
      ensures ok <==> ThreadsWork(old(threads), ids, a)
    {
      var left := ids;
      ghost var before := threads;
      ok := true;
      while left != {}
        invariant left <= ids
        invariant threads == if a.checkpointing then before - ((ids - left) - a.threadsLeft) else before
        invariant ok <==> (a.checkpointing ==> forall c :: c in ids - left ==>
                             c !in a.threadRaises && (c in before ==> c !in a.threadsLeft))
        decreases left
      {
        var c :| c in left;
        left := left - {c};
        var deleted := DeleteThread(c, a);
        ok := ok && deleted;
      }
    }

    /** The slice and then the thread of one conversation; what became of the thread is not looked at. */
    method ClearThread(conversation: string, a: Attempt) returns (ok: bool)
      modifies this`slices, this`threads
      ensures View() == ThreadCleared(old(View()), conversation, a)
      ensures ok <==> !a.slices.raises
    {
      if conversation !in a.slices.leaves {
        slices := slices - {conversation};
      }
      ok := !a.slices.raises;
      if ok {
        var _ := DeleteThread(conversation, a);
      }
    }

    /** delete_conversation: the row goes first. */
    method DeleteConversation(conversation: string, a: Attempt) returns (r: Reply)
      modifies this
      ensures View() == After(old(View()), DeleteOne(conversation, a))
      ensures r.NotFound? <==> conversation !in old(conversations)
      ensures r.Failed? <==> conversation in old(conversations) && a.slices.raises
    {
      if conversation !in conversations {
        return NotFound;
      }
      conversations := conversations - {conversation};
      var ok := ClearThread(conversation, a);
      r := if ok then Done else Failed;
    }

    /** clear_history with a conversation: its row stays. */
    method ClearConversation(conversation: string, a: Attempt) returns (r: Reply)
      modifies this
      ensures View() == After(old(View()), ClearOne(conversation, a))
      ensures r.NotFound? <==> conversation !in old(conversations)
      ensures r.Failed? <==> conversation in old(conversations) && a.slices.raises
    {
      if conversation !in conversations {
        return NotFound;
      }
      var ok := ClearThread(conversation, a);
      r := if ok then Done else Failed;
    }

    /** clear_history without a conversation: every row first, then the threads, then the slices. */
    method ClearHistory(a: Attempt) returns (r: Reply)
      modifies this
      ensures View() == After(old(View()), ClearAll(a))
      ensures r == if a.slices.raises then Failed else Done
    {
      var ids := conversations;
      conversations := {};
      var _ := DeleteThreads(ids, a);
      slices := slices * a.slices.leaves;
      r := if a.slices.raises then Failed else Done;
    }

    /** forget_me */
    method ForgetMe(a: Attempt) returns (r: Response)
      modifies this
      ensures (View(), r) == Attempted(old(View()), a)
      ensures fence <==> old(fence) || (!a.running && !a.released)
    {
      if a.running || fence {
        return Busy;
      }
      fence := true;
      r := EraseLayers(a);
      if !a.released {
        return Crashed;
      }
      fence := false;
    }

    /** The try block of forget_me; its finally clause is above. */
    method EraseLayers(a: Attempt) returns (r: Response)
      requires fence
      modifies this
      ensures fence && (View(), r) == Erased(old(View()), a)
    {
      if a.listing {
        return Crashed;
      }
      var memoryOk := !a.memory.raises && memory * a.memory.leaves == {};
      memory := memory * a.memory.leaves;
      var checkpointsOk := DeleteThreads(conversations, a);
      if !memoryOk || !checkpointsOk {
        return if a.retained then Crashed else Partial;
      }
      var relationalOk := !a.relational.raises && conversations * a.relational.leaves == {} && favorites * a.favoritesLeft == {};
      conversations, favorites := conversations * a.relational.leaves, favorites * a.favoritesLeft;
      if !relationalOk {
        return Partial;
      }
      var credentialsOk := !a.credentials.raises && credentials * a.credentials.leaves == {};
      credentials := credentials * a.credentials.leaves;
      if !credentialsOk {
        return Partial;
      }
      slices := slices * a.slices.leaves;
      if a.slices.raises {
        return Crashed;
      }
      if slices != {} {
        return Partial;
      }
      signedIn := false;
      r := Complete;
    }
  }

  // ---- What one attempt keeps --------------------------------------------------------------------------

  /** The checkpoint threads of conversations that are not listed any more. */
  function Orphans(s: Stores): set<string> {
    s.threads - s.conversations
  }

  ghost predicate Empty(s: Stores) {
    s.memory == {} && s.conversations == {} && s.favorites == {} && s.credentials == {} && s.slices == {}
  }

  /** Layers are emptied in order, and nothing ever comes back. */
  ghost predicate InOrder(s: Stores, t: Stores) {
    && t.memory <= s.memory && t.threads <= s.threads && t.conversations <= s.conversations
    && t.favorites <= s.favorites && t.credentials <= s.credentials && t.slices <= s.slices
    && (t.conversations != s.conversations || t.favorites != s.favorites ==> t.memory == {})
    && (t.credentials != s.credentials ==> t.memory == {} && t.conversations == {} && t.favorites == {})
    && (t.slices != s.slices ==> t.memory == {} && t.conversations == {} && t.favorites == {} && t.credentials == {})
    && (t.signedIn != s.signedIn ==> Empty(t))
  }

  /**
    What goes, layer by layer, in an attempt that is admitted and gets its list of conversations:
    memory and threads whatever becomes of the other; rows and favorites once both are gone;
    credentials once those are; slices once the credentials are.
   */
  lemma {:induction false} WhatGoes(s: Stores, a: Attempt)
    requires !a.running && !s.fence && !a.listing
    ensures var t := Attempted(s, a).0;
      var first := !a.memory.raises && s.memory * a.memory.leaves == {}
        && (a.checkpointing ==> s.conversations * a.threadRaises == {} && s.threads * s.conversations * a.threadsLeft == {});
      var second := first && !a.relational.raises && s.conversations * a.relational.leaves == {}
        && s.favorites * a.favoritesLeft == {};
      var third := second && !a.credentials.raises && s.credentials * a.credentials.leaves == {};
      && t.memory == s.memory * a.memory.leaves
      && t.threads == (if a.checkpointing then s.threads - (s.conversations - a.threadsLeft) else s.threads)
      && t.conversations == (if first then s.conversations * a.relational.leaves else s.conversations)
      && t.favorites == (if first then s.favorites * a.favoritesLeft else s.favorites)
      && t.credentials == (if second then s.credentials * a.credentials.leaves else s.credentials)
      && t.slices == (if third then s.slices * a.slices.leaves else s.slices)
      && (t.signedIn <==> s.signedIn && !(third && !a.slices.raises && s.slices * a.slices.leaves == {}))
      && (t.fence <==> !a.released)
  {
    FirstLayersIff(s, a);
  }

  lemma {:induction false} FirstLayersIff(s: Stores, a: Attempt)
    ensures ThreadsWork(s.threads, s.conversations, a) <==>
              (a.checkpointing ==> s.conversations * a.threadRaises == {} && s.threads * s.conversations * a.threadsLeft == {})
  {
    if a.checkpointing && ThreadsWork(s.threads, s.conversations, a) {
      assert forall c :: c !in s.conversations * a.threadRaises && c !in s.threads * s.conversations * a.threadsLeft;
    }
    if s.conversations * a.threadRaises == {} && s.threads * s.conversations * a.threadsLeft == {} {
      forall c | c in s.conversations ensures c !in a.threadRaises && (c in s.threads ==> c !in a.threadsLeft) {
        assert c !in s.conversations * a.threadRaises && c !in s.threads * s.conversations * a.threadsLeft;
      }
    }
  }

  /** What the caller is told: a failed deletion is partial, a call that raises outside the layers' guards is a crash. */
  lemma {:induction false} WhatIsAnswered(s: Stores, a: Attempt)
    ensures var (t, r) := Attempted(s, a);
      var admitted := !a.running && !s.fence;
      var first := !a.memory.raises && t.memory == {} && (a.checkpointing ==>
        s.conversations * a.threadRaises == {} && t.threads * s.conversations == {});
      var third := first && !a.relational.raises && t.conversations == {} && t.favorites == {}
        && !a.credentials.raises && t.credentials == {};
      && (r == Busy <==> !admitted) && (r == Busy ==> t == s)
      && (r == Crashed <==>
            admitted && (!a.released || a.listing || (!first && a.retained) || (third && a.slices.raises)))
      && (r == Complete <==> admitted && a.released && !a.listing && third && !a.slices.raises && t.slices == {})
  {
    if !a.running && !s.fence && !a.listing {
      WhatGoes(s, a);
      FirstLayersIff(s, a);
      if a.checkpointing { ThreadsGone(s, a); }
    }
  }

  lemma {:induction false} ThreadsGone(s: Stores, a: Attempt)
    requires a.checkpointing
    ensures ThreadsAfter(s.threads, s.conversations, a) * s.conversations == {} <==> s.threads * s.conversations * a.threadsLeft == {}
  {
    assert ThreadsAfter(s.threads, s.conversations, a) * s.conversations == s.threads * s.conversations * a.threadsLeft;
  }

  /** Told "forgotten" exactly when no layer fails. */
  ghost predicate FailureFree(s: Stores, a: Attempt) {
    && !a.running && !s.fence && !a.listing && a.released
    && Works(a.memory, s.memory) && ThreadsWork(s.threads, s.conversations, a) && RelationalWorks(s, a)
    && Works(a.credentials, s.credentials) && Works(a.slices, s.slices)
  }

  lemma {:induction false} CompleteIffFailureFree(s: Stores, a: Attempt)
    ensures Attempted(s, a).1 == Complete <==> FailureFree(s, a)
  {
  }

  lemma {:induction false} NoOrphansIff(s: Stores)
    ensures Orphans(s) == {} <==> s.threads <= s.conversations
  {
    if Orphans(s) == {} {
      forall c | c in s.threads ensures c in s.conversations {
        assert c !in Orphans(s);
      }
    }
  }

  /**
    Told "forgotten" only when every layer is empty but the threads. Of those exactly the orphans
    stay, and with checkpointing off all of them, as orphans.
   */
  lemma {:induction false} CompleteMeansEmpty(s: Stores, a: Attempt)
    requires Attempted(s, a).1 == Complete
    ensures var t := Attempted(s, a).0;
      && Empty(t) && t.threads == (if a.checkpointing then Orphans(s) else s.threads)
      && Orphans(t) == t.threads
      && (t.threads == {} <==> s.threads == {} || (a.checkpointing && s.threads <= s.conversations))
  {
    var t := Attempted(s, a).0;
    assert Empty(t);
    NoOrphansIff(s);
    if a.checkpointing {
      assert ThreadsWork(s.threads, s.conversations, a);
      assert t.threads == Orphans(s);
    }
  }

  /** The orphans after an event are those before and the threads that outlive their conversation. */
  lemma {:induction false} OrphansAfter(s: Stores, e: Event)
    ensures var t := After(s, e);
      Orphans(t) == Orphans(s) + t.threads * (s.conversations - t.conversations)
  {
  }

  /** No event removes an orphan, and which events make one. */
  lemma {:induction false} MakesOrphanIff(s: Stores, e: Event)
    ensures var t := After(s, e);
      && Orphans(s) <= Orphans(t)
      && (Orphans(t) != Orphans(s) <==>
            match e
            case Erase(a) => !a.checkpointing && s.threads * (s.conversations - t.conversations) != {}
            case DeleteOne(c, a) =>
              c in s.conversations && c in s.threads && (a.checkpointing && !a.slices.raises ==> c in a.threadsLeft)
            case ClearOne(_, _) => false
            case ClearAll(a) =>
              s.threads * s.conversations * (if a.checkpointing then a.threadsLeft else s.threads) != {})
  {
    OrphansAfter(s, e);
    var t := After(s, e);
    match e {
      case Erase(a) =>
        if a.checkpointing && t.conversations != s.conversations {
          assert ThreadsWork(s.threads, s.conversations, a);
          assert t.threads * s.conversations == {};
        }
      case DeleteOne(c, a) =>
        if c in s.conversations { assert s.conversations - t.conversations == {c}; }
      case ClearOne(_, _) =>
        assert s.conversations - t.conversations == {};
      case ClearAll(a) =>
        assert s.conversations - t.conversations == s.conversations;
        assert t.threads * s.conversations
            == s.threads * s.conversations * (if a.checkpointing then a.threadsLeft else s.threads);
    }
    if Orphans(t) == Orphans(s) {
      assert forall c :: c in t.threads * (s.conversations - t.conversations) ==> c in Orphans(t);
      assert t.threads * (s.conversations - t.conversations) == {};
    }
  }

  // ---- Any number of requests --------------------------------------------------------------------------

  function History(s: Stores, events: seq<Event>): Stores {
    if events == [] then s else After(History(s, events[..|events| - 1]), events[|events| - 1])
  }

  /** Over any attempts, however they failed: layers go in order and nothing comes back. */
  lemma {:induction false} AttemptsAreInOrder(s: Stores, events: seq<Event>)
    requires forall i :: 0 <= i < |events| ==> events[i].Erase?
    ensures InOrder(s, History(s, events))
    decreases |events|
  {
    if events != [] {
      AttemptsAreInOrder(s, events[..|events| - 1]);
      var before := History(s, events[..|events| - 1]);
      AttemptIsInOrder(before, events[|events| - 1].attempt);
    }
  }

  lemma {:induction false} AttemptIsInOrder(s: Stores, a: Attempt)
    ensures InOrder(s, Attempted(s, a).0)
  {
  }

  /** Over any requests: orphans stay for good; only erasures with checkpointing on make none. */
  lemma {:induction false} OrphansStay(s: Stores, events: seq<Event>)
    ensures var t := History(s, events);
      && Orphans(s) <= Orphans(t)
      && ((forall i :: 0 <= i < |events| ==> events[i].Erase? && events[i].attempt.checkpointing) ==>
            Orphans(t) == Orphans(s))
    decreases |events|
  {
    if events != [] {
      OrphansStay(s, events[..|events| - 1]);
      MakesOrphanIff(History(s, events[..|events| - 1]), events[|events| - 1]);
    }
  }

  /** An attempt in which every deletion works. */
  const CLEAN: Attempt := Attempt(false, true, false, Deletion({}, false), {}, {}, Deletion({}, false), {},
                                  false, Deletion({}, false), Deletion({}, false), true)

  predicate LeavesFence(e: Event) {
    e.Erase? && !e.attempt.running && !e.attempt.released
  }

  /** The fence is up exactly if it was, or if one attempt did not take its own down: nothing else ever does. */
  lemma {:induction false} FenceIsUpIff(s: Stores, events: seq<Event>)
    ensures History(s, events).fence <==> s.fence || exists i :: 0 <= i < |events| && LeavesFence(events[i])
    decreases |events|
  {
    if events != [] {
      var front, last := events[..|events| - 1], events[|events| - 1];
      FenceIsUpIff(s, front);
      assert events == front + [last];
      var before := History(s, front);
      assert After(before, last).fence <==> before.fence || LeavesFence(last);
    }
  }

  /**
    After any requests, however they failed, one attempt without failures completes exactly if no
    attempt has left its fence up, and leaves nothing but the orphans; else it is refused, and so is
    every other.
   */
  lemma {:induction false} OneCleanAttemptCompletes(s: Stores, events: seq<Event>)
    ensures var now := History(s, events);
      var (t, r) := Attempted(now, CLEAN);
      && (r == Complete <==> !s.fence && forall i :: 0 <= i < |events| ==> !LeavesFence(events[i]))
      && (r == Complete ==> Empty(t) && t.threads == Orphans(now) && Orphans(s) <= t.threads)
      && (r != Complete ==> forall a :: Attempted(now, a) == (now, Busy))
      && (r == Complete && (forall i :: 0 <= i < |events| ==> events[i].Erase? && events[i].attempt.checkpointing) ==>
            (t.threads == {} <==> s.threads <= s.conversations))
  {
    var now := History(s, events);
    FenceIsUpIff(s, events);
    OrphansStay(s, events);
    NoOrphansIff(s);
    CompleteIffFailureFree(now, CLEAN);
    if !now.fence { CompleteMeansEmpty(now, CLEAN); }
  }

  /** A deletion of a thread that fails. */
  const THREAD_STAYS: Attempt := CLEAN.(threadsLeft := {"flat"})

  /** One conversation is deleted while its thread is not; the erasure says "forgotten" and the thread is there. */
  lemma {:induction false} ForgottenThreadStays(s: Stores)
    requires !s.fence && "flat" in s.conversations && s.threads == {"flat"}
    ensures var (t, r) := Attempted(History(s, [DeleteOne("flat", THREAD_STAYS)]), CLEAN);
            Orphans(s) == {} && r == Complete && t.threads == {"flat"}
  {
    var events := [DeleteOne("flat", THREAD_STAYS)];
    FenceIsUpIff(s, events);
    OneCleanAttemptCompletes(s, events);
    assert events[..0] == [] && History(s, []) == s;
    assert History(s, events) == After(s, events[0]);
    assert ThreadsAfter(s.threads, {"flat"}, THREAD_STAYS) == {"flat"};
  }
}
