/** The directory tree below the data root, and the single changes the gateway makes to it. */
module FileTree {

  /** A path component.  The name of a temporary link is derived from the digest of the target
      it is for, so a temporary of one target is never one of another. */
  datatype Name = Plain(text: string) | Temporary(target: seq<Name>)

  /** Relative to the data root, which is the empty path. */
  type Path = seq<Name>

  /** What a stat tells: the inode, and a stamp standing for size, times and link count.  The
      stamp of a directory changes, to any value, whenever its entries do. */
  datatype Entry = Dir(inode: nat, stamp: nat) | File(inode: nat, version: nat)

  type Tree = map<Path, Entry>

  function Parent(p: Path): Path
    requires p != []
  {
    p[..|p| - 1]
  }

  predicate IsDir(tree: Tree, p: Path) {
    p in tree && tree[p].Dir?
  }

  ghost predicate WellFormed(tree: Tree) {
    IsDir(tree, []) && forall p :: p in tree && p != [] ==> IsDir(tree, Parent(p))
  }

  /** The same file, or the same directory whatever its entries. */
  predicate SameEntry(a: Entry, b: Entry) {
    if a.Dir? then b.Dir? && a.inode == b.inode else a == b
  }

  ghost predicate Keeps(tree: Tree, original: Tree) {
    forall p :: p in original ==> p in tree && SameEntry(tree[p], original[p])
  }

  /** The same tree, up to the stamps of directories. */
  ghost predicate SameTree(a: Tree, b: Tree) {
    a.Keys == b.Keys && Keeps(a, b)
  }

  function Stamped(tree: Tree, p: Path, stamp: nat): Tree {
    if IsDir(tree, p) then tree[p := Dir(tree[p].inode, stamp)] else tree
  }

  /** A new entry, and its parent's new stamp. */
  function WithEntry(tree: Tree, p: Path, e: Entry, stamp: nat): Tree
    requires p != []
  {
    Stamped(tree, Parent(p), stamp)[p := e]
  }

  function WithoutEntry(tree: Tree, p: Path, stamp: nat): Tree
    requires p != []
  {
    Stamped(tree - {p}, Parent(p), stamp)
  }

  lemma {:induction false} AncestorsAreDirs(tree: Tree, p: Path, n: nat)
    requires WellFormed(tree) && p in tree && n < |p|
    ensures IsDir(tree, p[..n])
    decreases |p|
  {
    if n < |p| - 1 {
      assert Parent(p)[..n] == p[..n];
      AncestorsAreDirs(tree, Parent(p), n);
    } else {
      assert p[..n] == Parent(p);
    }
  }

  lemma AddedEntry(tree: Tree, p: Path, e: Entry, stamp: nat)
    requires WellFormed(tree) && p != [] && IsDir(tree, Parent(p)) && p !in tree
    ensures WellFormed(WithEntry(tree, p, e, stamp))
    ensures WithEntry(tree, p, e, stamp).Keys == tree.Keys + {p}
    ensures forall q :: q in tree ==> SameEntry(WithEntry(tree, p, e, stamp)[q], tree[q])
    ensures WithEntry(tree, p, e, stamp)[p] == e
  {
  }

  /** Removing a leaf. */
  lemma RemovedEntry(tree: Tree, p: Path, stamp: nat)
    requires WellFormed(tree) && p != [] && p in tree
    requires forall q :: q in tree && q != [] ==> Parent(q) != p
    ensures WellFormed(WithoutEntry(tree, p, stamp))
    ensures WithoutEntry(tree, p, stamp).Keys == tree.Keys - {p}
    ensures forall q :: q in tree && q != p ==> SameEntry(WithoutEntry(tree, p, stamp)[q], tree[q])
  {
  }

  /** A name cannot contain the path it is part of. */
  lemma NotItsOwnTemporary(target: Path, i: nat)
    requires i < |target|
    ensures target[i] != Temporary(target)
  {
    assert Temporary(target) decreases to target;
    assert target decreases to target[i];
  }
}
