/**
  Restoring an archive: extract, verify, stage beside the target, and swap by renames. Every
  file-system call that can fail has its own fault switch, so a statement about all faults covers
  a failure at any point.
 */
module BackupRestore {
  import opened Prelude
  import opened BackupPaths
  import opened BackupDisk
  import opened BackupManifest
  import opened BackupPermissions
  import opened Extraction

  datatype RestoreError = ArchiveRefused | TargetRefused | InstallFailed | CleanupFailed

  /** What one name in the target's parent directory stands for. */
  datatype Sibling = Folder(tree: Tree) | NoFolder

  datatype Faults = Faults(
    makeStage: bool, chmodStage: bool, copy: bool, applyModes: bool, moveAway: bool,
    install: bool, rollback: bool, removeEmpty: bool, syncParent: bool, removeStage: bool)

  predicate IsNonempty(s: Sibling) {
    s.Folder? && exists p :: p in s.tree && p != []
  }

  /** _validate_restore_target refuses these. */
  predicate Refuses(entries: map<string, Sibling>, target: string, overwrite: bool) {
    target in entries && (entries[target].NoFolder? || (IsNonempty(entries[target]) && !overwrite))
  }

  /** The staged tree: the extracted payload with the archived permissions. */
  ghost function StagedPayload(t: Tree, modes: map<Path, nat>): Tree {
    map p | p in PayloadTree(t) ::
      WithMode(t[PAYLOAD + p],
               if p != [] && PAYLOAD + p in modes then PermissionBits(modes[PAYLOAD + p]) else t[PAYLOAD + p].mode)
  }

  /** The subtree at payload. */
  function PayloadTree(t: Tree): (u: Tree)
    ensures forall q :: q in u <==> PAYLOAD + q in t
    ensures forall q :: q in u ==> u[q] == t[PAYLOAD + q]
  {
    var below := set p | p in t && |p| >= 1 && p[0] == "payload" :: p[1..];
    assert forall q :: q in below ==> PAYLOAD + q in t by {
      forall q | q in below ensures PAYLOAD + q in t {
        var p :| p in t && |p| >= 1 && p[0] == "payload" && q == p[1..];
        assert p == PAYLOAD + q;
      }
    }
    assert forall q :: PAYLOAD + q in t ==> (PAYLOAD + q)[1..] == q && q in below;
    map q | q in below :: t[PAYLOAD + q]
  }

  class Parent {
    var entries: map<string, Sibling>

    constructor (entries: map<string, Sibling>)
      ensures this.entries == entries
    {
      this.entries := entries;
    }

    method Rename(from: string, to: string)
      requires from in entries && to !in entries
      modifies this
      ensures entries == (old(entries) - {from})[to := old(entries)[from]]
    {
      entries := (entries - {from})[to := entries[from]];
    }

    /**
      _restore_payload. `arrived` is what another process puts at the target while the payload is
      being staged; the target is looked at again before it is moved away. LastLook is what the
      last look at it found.
     */
    method RestorePayload(payload: Tree, target: string, overwrite: bool, arrived: Option<Sibling>,
                          stage: string, previous: string, f: Faults)
      returns (r: Result<Option<string>, RestoreError>)
      requires stage !in entries && previous !in entries
      requires target != stage && target != previous && stage != previous
      modifies this
      ensures Refuses(old(entries), target, overwrite) ==> r.Err? && entries == old(entries)
      ensures var seen := LastLook(old(entries), target, overwrite, arrived, f);
        && (r.Ok? <==> SecondLook(f) && !Refuses(old(entries), target, overwrite) && !Refuses(seen, target, overwrite)
                       && (target in seen ==> !f.moveAway) && !f.install && !f.syncParent)
        && NothingLost(seen, entries, target, previous)
        && (Refuses(seen, target, overwrite) ==> target in entries && entries[target] == seen[target])
        && (r.Ok? ==> Swapped(seen, entries, payload, target, previous, r.value, f) && stage !in entries)
        && (target in seen && target !in entries <==>
              target in seen && !Refuses(seen, target, overwrite) && SecondLook(f) && !f.moveAway && f.install && f.rollback)
      ensures OthersUntouched(old(entries), entries, {target, stage, previous})
    {
      if Refuses(entries, target, overwrite) {
        return Err(TargetRefused);
      }
      if f.makeStage {
        return Err(InstallFailed);
      }
      entries := entries[stage := Folder(map[[] := Dir(PRIVATE_DIR_MODE)])];
      if f.chmodStage {
        return Err(InstallFailed);
      }
      r := StageAndSwap(payload, target, overwrite, arrived, stage, previous, f);
      if stage in entries {
        if f.removeStage {
          return Err(CleanupFailed);
        }
        entries := entries - {stage};
      }
    }

    /** The body of the try block; its finally clause is above. */
    method StageAndSwap(payload: Tree, target: string, overwrite: bool, arrived: Option<Sibling>,
                        stage: string, previous: string, f: Faults)
      returns (r: Result<Option<string>, RestoreError>)
      requires stage in entries && previous !in entries
      requires target != stage && target != previous && stage != previous
      modifies this
      ensures var seen := if f.copy || f.applyModes then old(entries) else Seen(old(entries), target, arrived);
        && (r.Ok? <==> !f.copy && !f.applyModes && !Refuses(seen, target, overwrite)
                       && (target in seen ==> !f.moveAway) && !f.install && !f.syncParent)
        && NothingLost(seen, entries, target, previous)
        && (Refuses(seen, target, overwrite) ==> target in entries && entries[target] == seen[target])
        && (r.Ok? ==> Swapped(seen, entries, payload, target, previous, r.value, f) && stage !in entries)
        && (target in seen && target !in entries <==>
              target in seen && !Refuses(seen, target, overwrite) && !f.copy && !f.applyModes
              && !f.moveAway && f.install && f.rollback)
      ensures OthersUntouched(old(entries), entries, {target, stage, previous})
    {
      if f.copy || f.applyModes {
        return Err(InstallFailed);
      }
      entries := entries[stage := Folder(payload)];
      if arrived.Some? {
        entries := entries[target := arrived.value];
      }
      if Refuses(entries, target, overwrite) {
        return Err(TargetRefused);
      }
      var wasNonempty := target in entries && IsNonempty(entries[target]);
      var moved: Option<string> := None;
      if target in entries {
        if f.moveAway {
          return Err(InstallFailed);
        }
        Rename(target, previous);
        moved := Some(previous);
      }
      if f.install {
        if moved.Some? && !f.rollback {
          Rename(previous, target);
        }
        return Err(InstallFailed);
      }
      Rename(stage, target);
      if moved.Some? && !wasNonempty && !f.removeEmpty {
        entries := entries - {previous};
        moved := None;
      }
      if f.syncParent {
        return Err(InstallFailed);
      }
      r := Ok(moved);
    }
  }

  /** What the second look at the target finds. */
  function Seen(entries: map<string, Sibling>, target: string, arrived: Option<Sibling>): map<string, Sibling> {
    if arrived.Some? then entries[target := arrived.value] else entries
  }

  predicate SecondLook(f: Faults) {
    !f.makeStage && !f.chmodStage && !f.copy && !f.applyModes
  }

  function LastLook(entries: map<string, Sibling>, target: string, overwrite: bool,
                    arrived: Option<Sibling>, f: Faults): map<string, Sibling> {
    if Refuses(entries, target, overwrite) || !SecondLook(f) then entries else Seen(entries, target, arrived)
  }

  /** A non-empty tree that stood at the target stands there still, or under the previous name. */
  ghost predicate NothingLost(seen: map<string, Sibling>, entries: map<string, Sibling>, target: string,
        previous: string) {
    target in seen && IsNonempty(seen[target]) ==>
      || (target in entries && entries[target] == seen[target])
      || (previous in entries && entries[previous] == seen[target])
  }

  /** The payload is in place, and the name returned is exactly where the old tree went. */
  ghost predicate Swapped(seen: map<string, Sibling>, entries: map<string, Sibling>, payload: Tree,
                          target: string, previous: string, returned: Option<string>, f: Faults) {
    && target in entries && entries[target] == Folder(payload)
    && returned == (if previous in entries then Some(previous) else None)
    && (previous in entries <==> target in seen && (IsNonempty(seen[target]) || f.removeEmpty))
    && (previous in entries ==> entries[previous] == seen[target])
  }

  ghost predicate OthersUntouched(before: map<string, Sibling>, after: map<string, Sibling>, names: set<string>) {
    forall n :: n !in names ==> (n in after <==> n in before) && (n in before ==> after[n] == before[n])
  }

  // ---- The modes the archive asks for -----------------------------------------------------------------

  ghost predicate IsModeEntry(e: ModeEntry, modes: map<Path, nat>, t: Tree) {
    e.path != [] && PAYLOAD + e.path in modes && e.path in t
    && e == ModeEntry(e.path, PermissionBits(modes[PAYLOAD + e.path]), t[e.path].Dir?)
  }

  /** The list _apply_archived_modes sorts: one entry for every archived path below payload. */
  method CollectModes(modes: map<Path, nat>, t: Tree) returns (entries: seq<ModeEntry>)
    ensures forall i :: 0 <= i < |entries| ==> IsModeEntry(entries[i], modes, t)
    ensures forall p :: p != [] && PAYLOAD + p in modes && p in t ==> exists i :: 0 <= i < |entries| && entries[i].path == p
    ensures DistinctPaths(entries)
  {
    entries := [];
    var left := modes.Keys;
    while left != {}
      invariant left <= modes.Keys
      invariant forall i :: 0 <= i < |entries| ==> IsModeEntry(entries[i], modes, t) && PAYLOAD + entries[i].path !in left
      invariant forall p :: p != [] && PAYLOAD + p in modes.Keys - left && p in t ==>
                  exists i :: 0 <= i < |entries| && entries[i].path == p
      invariant DistinctPaths(entries)
      decreases left
    {
      var key :| key in left;
      left := left - {key};
      if |key| > 1 && key[0] == "payload" && key[1..] in t {
        var p := key[1..];
        assert PAYLOAD + p == key;
        ghost var before := entries;
        entries := entries + [ModeEntry(p, PermissionBits(modes[key]), t[p].Dir?)];
        assert forall i :: 0 <= i < |before| ==> entries[i] == before[i];
        assert entries[|before|].path == p;
      } else {
        assert forall p :: p != [] && PAYLOAD + p == key ==> p == key[1..] && |key| > 1;
      }
    }
  }

  // ---- The whole restore ---------------------------------------------------------------------------

  ghost function Extracted(ms: seq<Member>): Tree {
    Placed(Entries(ms), |ms|)
  }

  /** Everything a restore requires of an archive. */
  ghost predicate Restorable(ms: seq<Member>, limits: Limits, c: Codec) {
    limits.maxBytes > 0 && limits.maxMembers > 0 && Extractable(ms, limits) && Verified(Extracted(ms), c)
  }

  ghost function RestoredTree(ms: seq<Member>): Tree {
    StagedPayload(Extracted(ms), ArchivedModes(ms, |ms|))
  }

  lemma {:induction false} ExtractedParentsAreDirectories(es: seq<Entry>, n: nat, p: Path, q: Path)
    requires n <= |es| && AllFit(es, n)
    requires p in Placed(es, n) && q in Placed(es, n) && Above(q, p)
    ensures Placed(es, n)[q].Dir?
  {
    PlacedPaths(es, n, p);
    var i :| i < n && Covers(es, i, p);
    if p != es[i].path {
      AboveIsTransitive(q, p, es[i].path);
    }
    if j: int :| 0 <= j < n && es[j].path == q {
      assert Fits(es, j) && Fits(es, i);
      PlacedEntry(es, n, j);
    } else {
      PlacedParent(es, n, q);
    }
  }

  lemma {:induction false} ExtractedDirectoryIsOpen(ms: seq<Member>, n: nat, p: Path)
    requires n <= |ms| && AllFit(Entries(ms), n) && p in Placed(Entries(ms), n) && Placed(Entries(ms), n)[p].Dir?
    ensures OwnerMaySearch(Placed(Entries(ms), n)[p].mode)
  {
    var es := Entries(ms);
    if j: int :| 0 <= j < n && es[j].path == p {
      PlacedEntry(es, n, j);
    } else {
      PlacedParent(es, n, p);
    }
  }

  lemma {:induction false} ExtractedDirectoriesAreOpen(ms: seq<Member>, limits: Limits)
    requires Extractable(ms, limits)
    ensures Untouched(Extracted(ms)) && ParentsAreDirectories(Extracted(ms))
  {
    var es, n := Entries(ms), |ms|;
    ExtractableFits(ms, n, limits);
    forall p | p in Extracted(ms) && Extracted(ms)[p].Dir? ensures OwnerMaySearch(Extracted(ms)[p].mode) {
      ExtractedDirectoryIsOpen(ms, n, p);
    }
    forall p, q | p in Extracted(ms) && q in Extracted(ms) && Above(q, p) ensures Extracted(ms)[q].Dir? {
      ExtractedParentsAreDirectories(es, n, p, q);
    }
  }

  lemma {:induction false} PayloadStaysOpen(t: Tree)
    requires Untouched(t) && ParentsAreDirectories(t)
    ensures Untouched(PayloadTree(t)) && ParentsAreDirectories(PayloadTree(t))
  {
    var u := PayloadTree(t);
    forall p, q | p in u && q in u && Above(q, p) ensures u[q].Dir? {
      assert (PAYLOAD + p)[..1 + |q|] == PAYLOAD + q;
    }
  }

  lemma {:induction false} CollectedModesStage(t: Tree, modes: map<Path, nat>, entries: seq<ModeEntry>)
    requires forall i :: 0 <= i < |entries| ==> IsModeEntry(entries[i], modes, PayloadTree(t))
    requires forall p :: p != [] && PAYLOAD + p in modes && p in PayloadTree(t) ==>
               exists i :: 0 <= i < |entries| && entries[i].path == p
    ensures WithModes(PayloadTree(t), entries, |entries|) == StagedPayload(t, modes)
  {
    var u, n := PayloadTree(t), |entries|;
    forall p | p in u
      ensures HasMode(entries, n, p) <==> p != [] && PAYLOAD + p in modes
      ensures HasMode(entries, n, p) ==> ModeFor(entries, n, p) == PermissionBits(modes[PAYLOAD + p])
    {
    }
  }

  /** Extraction and verification, in the private directory beside the target. */
  method VerifyArchive(ms: seq<Member>, limits: Limits, c: Codec) returns (staged: Option<Tree>)
    ensures staged.Some? <==> Restorable(ms, limits, c)
    ensures staged.Some? ==> staged.value == RestoredTree(ms)
  {
    if limits.maxBytes <= 0 || limits.maxMembers <= 0 {
      return None;
    }
    var extracted := new Disk(limits.maxBytes);
    var problem, modes, n := SafeExtract(ms, limits, extracted);
    if problem.Some? {
      return None;
    }
    var manifest := LoadAndVerifyManifest(extracted.tree, c);
    if manifest.Err? {
      return None;
    }
    var stage := new Disk(0);
    stage.tree := PayloadTree(extracted.tree);
    var entries := CollectModes(modes, stage.tree);
    ExtractedDirectoriesAreOpen(ms, limits);
    PayloadStaysOpen(extracted.tree);
    var order := ApplyModes(stage, entries);
    CollectedModesStage(extracted.tree, modes, entries);
    staged := Some(stage.tree);
  }

  /**
    restore_backup. An archive that is refused changes nothing beside the target; an archive that is
    accepted ends, unless a call of the swap fails, as exactly the payload it holds.
   */
  method RestoreBackup(ms: seq<Member>, limits: Limits, c: Codec, parent: Parent, target: string, overwrite: bool,
                       arrived: Option<Sibling>, stage: string, previous: string, f: Faults)
    returns (r: Result<Option<string>, RestoreError>)
    requires stage !in parent.entries && previous !in parent.entries
    requires target != stage && target != previous && stage != previous
    modifies parent
    ensures !Restorable(ms, limits, c) || Refuses(old(parent.entries), target, overwrite) ==>
              r.Err? && parent.entries == old(parent.entries)
    ensures var seen := LastLook(old(parent.entries), target, overwrite, arrived, f);
      Restorable(ms, limits, c) ==>
        && NothingLost(seen, parent.entries, target, previous)
        && (r.Ok? <==> SecondLook(f) && !Refuses(old(parent.entries), target, overwrite) && !Refuses(seen, target, overwrite)
                       && (target in seen ==> !f.moveAway) && !f.install && !f.syncParent)
        && (r.Ok? ==> Swapped(seen, parent.entries, RestoredTree(ms), target, previous, r.value, f))
  {
    if Refuses(parent.entries, target, overwrite) {
      return Err(TargetRefused);
    }
    var staged := VerifyArchive(ms, limits, c);
    if staged.None? {
      return Err(ArchiveRefused);
    }
    r := parent.RestorePayload(staged.value, target, overwrite, arrived, stage, previous, f);
  }
}
