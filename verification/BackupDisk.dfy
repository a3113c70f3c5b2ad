/** A file tree and the file-system calls the backup makes on it. */
module BackupDisk {
  import opened BackupPaths

  type byte = b: int | 0 <= b < 256
  type Bytes = seq<byte>

  datatype Node = Dir(mode: nat) | File(data: Bytes, mode: nat)

  /** The root is the empty path. */
  type Tree = map<Path, Node>

  /** What mkdir gives a directory under the usual umask. */
  const UMASK_MODE: nat := 0x1ed
  const PRIVATE_DIR_MODE: nat := 0x1c0
  const PRIVATE_FILE_MODE: nat := 0x180

  function Ancestors(p: Path): (above: set<Path>)
    ensures forall q :: q in above <==> Above(q, p)
  {
    var above := set k | 0 <= k < |p| :: p[..k];
    assert forall q :: Above(q, p) ==> q == p[..|q|] && q in above;
    above
  }

  /** p is free and nothing above it is a file. */
  predicate CanCreate(t: Tree, p: Path) {
    p !in t && forall q :: q in Ancestors(p) && q in t ==> t[q].Dir?
  }

  function WithParents(t: Tree, p: Path): Tree {
    t + map q | q in Ancestors(p) && q !in t :: Dir(UMASK_MODE)
  }

  lemma {:induction false} ParentsAre(t: Tree, p: Path, q: Path)
    ensures q in WithParents(t, p) <==> q in t || Above(q, p)
    ensures q in t ==> WithParents(t, p)[q] == t[q]
    ensures q in WithParents(t, p) && q !in t ==> WithParents(t, p)[q] == Dir(UMASK_MODE)
  {
  }

  class Disk {
    var tree: Tree
    ghost var written: nat
    ghost const budget: nat

    constructor (ghost budget: nat)
      ensures tree == map[[] := Dir(UMASK_MODE)] && written == 0 && this.budget == budget
    {
      tree := map[[] := Dir(UMASK_MODE)];
      written := 0;
      this.budget := budget;
    }

    /** mkdir(parents=True, exist_ok=False) */
    method MakeDirectory(p: Path) returns (ok: bool)
      modifies this`tree
      ensures ok <==> CanCreate(old(tree), p)
      ensures tree == if ok then WithParents(old(tree), p)[p := Dir(UMASK_MODE)] else old(tree)
    {
      ok := CanCreate(tree, p);
      if ok {
        tree := WithParents(tree, p)[p := Dir(UMASK_MODE)];
      }
    }

    /** parent.mkdir(parents=True, exist_ok=True) and open(p, "xb") */
    method CreateExclusive(p: Path) returns (ok: bool)
      modifies this`tree
      ensures ok <==> CanCreate(old(tree), p)
      ensures tree == if ok then WithParents(old(tree), p)[p := File([], UMASK_MODE)] else old(tree)
    {
      ok := CanCreate(tree, p);
      if ok {
        tree := WithParents(tree, p)[p := File([], UMASK_MODE)];
      }
    }

    /** Every write has to fit what is left of the budget. */
    method Append(p: Path, chunk: Bytes)
      requires p in tree && tree[p].File?
      requires written + |chunk| <= budget
      modifies this
      ensures tree == old(tree)[p := File(old(tree)[p].data + chunk, old(tree)[p].mode)]
      ensures written == old(written) + |chunk|
    {
      tree := tree[p := File(tree[p].data + chunk, tree[p].mode)];
      written := written + |chunk|;
    }

    /** Creates p exclusively, writes all of data, then sets the mode. */
    method CreateWith(p: Path, data: Bytes, mode: nat) returns (ok: bool)
      modifies this`tree
      ensures ok <==> CanCreate(old(tree), p)
      ensures tree == if ok then WithParents(old(tree), p)[p := File(data, mode)] else old(tree)
    {
      ok := CanCreate(tree, p);
      if ok {
        tree := WithParents(tree, p)[p := File(data, mode)];
      }
    }

    method ChangeMode(p: Path, mode: nat)
      requires p in tree
      modifies this`tree
      ensures tree == old(tree)[p := WithMode(old(tree)[p], mode)]
    {
      tree := tree[p := WithMode(tree[p], mode)];
    }
  }

  function WithMode(n: Node, mode: nat): Node {
    match n
    case Dir(_) => Dir(mode)
    case File(data, _) => File(data, mode)
  }
}
