/**
 What a file tree shows (src/web_interface/file_tree/file_tree.py): at the path of a file the data of the first file
 with that path, and directories everywhere else.
 */
module FileTreeData {
  import opened Basics
  import opened FileTree

  /** The node at the end of the path says that it has children. */
  function FlagAt(t: Tree, p: TreePath): bool
    requires HasPath(t, p)
    decreases |p|
  {
    if p == [] then t.hasChildren else FlagAt(t.children[p[0]], p[1..])
  }

  /** There is nothing below the end of the path. */
  ghost predicate IsLeaf(t: Tree, p: TreePath) {
    forall k :: !HasPath(t, p + [k])
  }

  lemma LeafBelow(t: Tree, p: TreePath)
    requires IsLeaf(t, p) && p != [] && p[0] in t.children
    ensures IsLeaf(t.children[p[0]], p[1..])
  {
    forall k
      ensures !HasPath(t.children[p[0]], p[1..] + [k])
    {
      ConcatTail(p, [k]);
      assert !HasPath(t, p + [k]);
    }
  }

  lemma LeafHasNoChildren(t: Tree)
    requires IsLeaf(t, [])
    ensures t.children == map[]
  {
    forall k
      ensures k !in t.children
    {
      PathBelow(t, k, []);
      assert [] + [k] == [k] + [];
      assert !HasPath(t, [] + [k]);
    }
  }

  /** Merging a node in which the path leads to a leaf keeps what is said there. */
  lemma {:induction false} MergeFlag(c: Tree, n: Tree, p: TreePath)
    requires (HasPath(c, p) || HasPath(n, p)) && IsLeaf(n, p)
    ensures HasPath(Merge(c, n), p)
    ensures FlagAt(Merge(c, n), p) == if HasPath(c, p) then FlagAt(c, p) else FlagAt(n, p)
    decreases |p|
  {
    MergePaths(c, n, p);
    if p == [] {
      LeafHasNoChildren(n);
    } else if p[0] in c.children && p[0] in n.children {
      LeafBelow(n, p);
      MergeFlag(c.children[p[0]], n.children[p[0]], p[1..]);
    }
  }

  lemma AddFlag(t: Tree, n: Tree, p: TreePath)
    requires p != [] && (HasPath(t, p) || IsBranch(n, p)) && (p[0] == n.id ==> IsLeaf(n, p[1..]))
    ensures HasPath(Add(t, n), p)
    ensures FlagAt(Add(t, n), p) == if HasPath(t, p) then FlagAt(t, p) else FlagAt(n, p[1..])
  {
    AddPaths(t, n, p);
    if p[0] == n.id && n.id in t.children {
      MergeFlag(t.children[n.id], n, p[1..]);
    }
  }

  ghost predicate LeafOfAll(nodes: seq<Tree>, p: TreePath)
    requires p != []
  {
    forall n :: n in nodes && p[0] == n.id ==> IsLeaf(n, p[1..])
  }

  lemma {:induction false} AddAllFlag(t: Tree, nodes: seq<Tree>, p: TreePath, i: nat)
    requires p != [] && i < |nodes| && !HasPath(t, p) && IsBranch(nodes[i], p) && LeafOfAll(nodes, p)
    requires forall j :: 0 <= j < i ==> !IsBranch(nodes[j], p)
    ensures HasPath(AddAll(t, nodes), p) && FlagAt(AddAll(t, nodes), p) == FlagAt(nodes[i], p[1..])
    decreases nodes
  {
    AddPaths(t, nodes[0], p);
    assert forall n :: n in nodes[1..] ==> n in nodes;
    if i == 0 {
      AddFlag(t, nodes[0], p);
      KeepsFlag(Add(t, nodes[0]), nodes[1..], p);
    } else {
      AddAllFlag(Add(t, nodes[0]), nodes[1..], p, i - 1);
    }
  }

  lemma {:induction false} KeepsFlag(t: Tree, nodes: seq<Tree>, p: TreePath)
    requires p != [] && HasPath(t, p) && LeafOfAll(nodes, p)
    ensures HasPath(AddAll(t, nodes), p) && FlagAt(AddAll(t, nodes), p) == FlagAt(t, p)
    decreases nodes
  {
    if nodes != [] {
      AddFlag(t, nodes[0], p);
      assert forall n :: n in nodes[1..] ==> n in nodes;
      KeepsFlag(Add(t, nodes[0]), nodes[1..], p);
    }
  }

  // ----- The node for one file -----

  /** The node for a virtual path shows the file at its end, and directories on the way. */
  lemma {:induction false} CreatedShows(file: FileData, elements: seq<string>, p: TreePath)
    requires p != [] && p <= PathOf(file, elements)
    ensures IsBranch(Created(file, elements), p)
    ensures var node := Created(file, elements);
            if p == PathOf(file, elements) then
              DataAt(node, p[1..]) == file.data && FlagAt(node, p[1..]) == file.hasIncludedFiles
            else DataAt(node, p[1..]) == DIRECTORY && FlagAt(node, p[1..])
    decreases |elements|
  {
    var path := PathOf(file, elements);
    CreatedPaths(file, elements, p);
    if |elements| > 1 {
      var inner, outer := Created(file, elements[1..]), Node(Id(elements[0], true), DIRECTORY, false, map[]);
      assert path == [path[0]] + path[1..] && p[1..] <= path[1..];
      if |p| > 1 {
        CreatedShows(file, elements[1..], p[1..]);
        assert Add(outer, inner).children[p[1]] == inner;
      }
      assert p == path <==> p[1..] == path[1..];
    }
  }

  /** The path of a file ends where no path of a file goes on. */
  lemma {:induction false} FilesAreLeaves(file: FileData, elements: seq<string>, other: FileData, others: seq<string>)
    requires PathOf(file, elements) <= PathOf(other, others)
    ensures PathOf(file, elements) == PathOf(other, others)
    decreases |elements|
  {
    var a, b := PathOf(file, elements), PathOf(other, others);
    assert a[0] == b[0];
    if |elements| > 1 && |others| > 1 {
      assert a == [a[0]] + PathOf(file, elements[1..]) && b == [b[0]] + PathOf(other, others[1..]);
      assert a[1..] <= b[1..];
      FilesAreLeaves(file, elements[1..], other, others[1..]);
    }
  }

  lemma LeafInAll(files: seq<Occurrence>, i: nat)
    requires i < |files|
    ensures PathOf(files[i].0, files[i].1) != [] && LeafOfAll(Nodes(files), PathOf(files[i].0, files[i].1))
  {
    var p := PathOf(files[i].0, files[i].1);
    forall n, k | n in Nodes(files) && p[0] == n.id
      ensures !HasPath(n, p[1..] + [k])
    {
      var j :| 0 <= j < |files| && n == Created(files[j].0, files[j].1);
      CreatedPaths(files[j].0, files[j].1, p + [k]);
      ConcatTail(p, [k]);
      if p + [k] <= PathOf(files[j].0, files[j].1) {
        assert p <= PathOf(files[j].0, files[j].1);
        FilesAreLeaves(files[i].0, files[i].1, files[j].0, files[j].1);
      }
    }
  }

  // ----- The tree of a level -----

  /** The first file with the path. */
  function FirstWith(files: seq<Occurrence>, p: TreePath): (j: nat)
    requires exists i :: 0 <= i < |files| && PathOf(files[i].0, files[i].1) == p
    ensures j < |files| && PathOf(files[j].0, files[j].1) == p
    ensures forall i :: 0 <= i < j ==> PathOf(files[i].0, files[i].1) != p
  {
    if PathOf(files[0].0, files[0].1) == p then 0
    else
      assert exists i :: 0 <= i < |files[1..]| && PathOf(files[1..][i].0, files[1..][i].1) == p by {
        var i :| 0 <= i < |files| && PathOf(files[i].0, files[i].1) == p;
        assert files[1..][i - 1] == files[i];
      }
      FirstWith(files[1..], p) + 1
  }

  /** At the path of a file the tree shows the data of the first file with that path, and whether it includes files. */
  lemma TreeShowsFiles(files: seq<Occurrence>, i: nat)
    requires i < |files|
    ensures var p, tree := PathOf(files[i].0, files[i].1), AddAll(EMPTY_ROOT, Nodes(files));
            var first := files[FirstWith(files, p)].0;
            HasPath(tree, p) && DataAt(tree, p) == first.data && FlagAt(tree, p) == first.hasIncludedFiles
  {
    var p := PathOf(files[i].0, files[i].1);
    var j := FirstWith(files, p);
    LeafInAll(files, i);
    NotBefore(files, i, j);
    CreatedShows(files[j].0, files[j].1, p);
    AddAllData(EMPTY_ROOT, Nodes(files), p, j);
    AddAllFlag(EMPTY_ROOT, Nodes(files), p, j);
  }

  lemma NotBefore(files: seq<Occurrence>, i: nat, j: nat)
    requires i < |files| && j < |files|
    requires forall l :: 0 <= l < j ==> PathOf(files[l].0, files[l].1) != PathOf(files[i].0, files[i].1)
    ensures forall l :: 0 <= l < j ==> !IsBranch(Nodes(files)[l], PathOf(files[i].0, files[i].1))
  {
    forall l | 0 <= l < j
      ensures !IsBranch(Nodes(files)[l], PathOf(files[i].0, files[i].1))
    {
      CreatedPaths(files[l].0, files[l].1, PathOf(files[i].0, files[i].1));
      if PathOf(files[i].0, files[i].1) <= PathOf(files[l].0, files[l].1) {
        FilesAreLeaves(files[i].0, files[i].1, files[l].0, files[l].1);
      }
    }
  }

  /** A path that leads on to a file, and is not the path of one itself, shows a directory. */
  lemma TreeShowsDirectories(files: seq<Occurrence>, p: TreePath)
    requires p != [] && HasPath(AddAll(EMPTY_ROOT, Nodes(files)), p)
    requires forall i :: 0 <= i < |files| ==> PathOf(files[i].0, files[i].1) != p
    ensures DataAt(AddAll(EMPTY_ROOT, Nodes(files)), p) == DIRECTORY
  {
    TreeIsUnionOfPaths(files, p);
    var i :| 0 <= i < |files| && p <= PathOf(files[i].0, files[i].1);
    var j := FirstThrough(files, p, i);
    CreatedShows(files[j].0, files[j].1, p);
    AddAllData(EMPTY_ROOT, Nodes(files), p, j);
  }

  lemma {:induction false} FirstThrough(files: seq<Occurrence>, p: TreePath, i: nat) returns (j: nat)
    requires i < |files| && p <= PathOf(files[i].0, files[i].1)
    ensures j < |files| && p <= PathOf(files[j].0, files[j].1) && IsBranch(Nodes(files)[j], p)
    ensures forall l :: 0 <= l < j ==> !IsBranch(Nodes(files)[l], p)
    decreases i
  {
    j := i;
    CreatedPaths(files[i].0, files[i].1, p);
    if l :| 0 <= l < i && IsBranch(Nodes(files)[l], p) {
      CreatedPaths(files[l].0, files[l].1, p);
      j := FirstThrough(files, p, l);
    }
  }
}
