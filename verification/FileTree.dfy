/**
 File trees as values (src/web_interface/file_tree): what a tree contains, what adding a node to it
 does, and why the result depends only on the set of paths that were added.
 */
module FileTree {
  import opened Basics

  /** Files and directories may have the same name, so both parts identify a node among its siblings. */
  datatype Id = Id(name: string, virtual: bool)

  /** What is shown for a file; directories have no identifier. */
  datatype Data = Data(uid: Option<Uid>, size: nat, mime: string)

  datatype Tree = Node(id: Id, data: Data, hasChildren: bool, children: map<Id, Tree>)

  type TreePath = seq<Id>

  /** Children are stored under their own identifiers, so no two siblings have the same one. */
  predicate WellFormed(t: Tree) {
    forall k :: k in t.children ==> t.children[k].id == k && WellFormed(t.children[k])
  }

  /** The tree has a node at the end of the path. */
  predicate HasPath(t: Tree, p: TreePath)
    decreases |p|
  {
    p == [] || (p[0] in t.children && HasPath(t.children[p[0]], p[1..]))
  }

  function DataAt(t: Tree, p: TreePath): Data
    requires HasPath(t, p)
    decreases |p|
  {
    if p == [] then t.data else DataAt(t.children[p[0]], p[1..])
  }

  /** `n` as a child of a node: its paths begin with its identifier. */
  predicate IsBranch(n: Tree, p: TreePath) {
    p == [] || (p[0] == n.id && HasPath(n, p[1..]))
  }

  // ----- Adding nodes -----

  /** The children of `n` become children of `c`, and are merged with those that `c` has already. */
  function Merge(c: Tree, n: Tree): Tree {
    var both := map k | k in n.children :: if k in c.children then Merge(c.children[k], n.children[k]) else n.children[k];
    Node(c.id, c.data, c.hasChildren || !(n.children.Keys <= c.children.Keys), c.children + both)
  }

  function Add(t: Tree, n: Tree): Tree {
    if n.id in t.children then t.(children := t.children[n.id := Merge(t.children[n.id], n)])
    else t.(hasChildren := true, children := t.children[n.id := n])
  }

  function AddAll(t: Tree, nodes: seq<Tree>): Tree
    decreases nodes
  {
    if nodes == [] then t else AddAll(Add(t, nodes[0]), nodes[1..])
  }

  lemma {:induction false} MergeWellFormed(c: Tree, n: Tree)
    requires WellFormed(c) && WellFormed(n)
    ensures WellFormed(Merge(c, n))
    decreases n
  {
    forall k | k in c.children && k in n.children
      ensures WellFormed(Merge(c.children[k], n.children[k]))
    {
      MergeWellFormed(c.children[k], n.children[k]);
    }
  }

  lemma AddWellFormed(t: Tree, n: Tree)
    requires WellFormed(t) && WellFormed(n)
    ensures WellFormed(Add(t, n))
  {
    if n.id in t.children {
      MergeWellFormed(t.children[n.id], n);
    }
  }

  lemma {:induction false} MergePaths(c: Tree, n: Tree, p: TreePath)
    ensures HasPath(Merge(c, n), p) <==> HasPath(c, p) || HasPath(n, p)
    decreases |p|
  {
    if p != [] && p[0] in c.children && p[0] in n.children {
      MergePaths(c.children[p[0]], n.children[p[0]], p[1..]);
    }
  }

  /** A path of both nodes keeps the data of the node that was there first. */
  lemma {:induction false} MergeData(c: Tree, n: Tree, p: TreePath)
    requires HasPath(c, p) || HasPath(n, p)
    ensures HasPath(Merge(c, n), p)
    ensures DataAt(Merge(c, n), p) == if HasPath(c, p) then DataAt(c, p) else DataAt(n, p)
    decreases |p|
  {
    MergePaths(c, n, p);
    if p != [] && p[0] in c.children && p[0] in n.children {
      MergeData(c.children[p[0]], n.children[p[0]], p[1..]);
    }
  }

  lemma AddPaths(t: Tree, n: Tree, p: TreePath)
    ensures HasPath(Add(t, n), p) <==> HasPath(t, p) || IsBranch(n, p)
  {
    if p != [] && p[0] == n.id && n.id in t.children {
      MergePaths(t.children[n.id], n, p[1..]);
    }
  }

  lemma AddData(t: Tree, n: Tree, p: TreePath)
    requires p != [] && (HasPath(t, p) || IsBranch(n, p))
    ensures HasPath(Add(t, n), p)
    ensures DataAt(Add(t, n), p) == if HasPath(t, p) then DataAt(t, p) else DataAt(n, p[1..])
  {
    AddPaths(t, n, p);
    if p[0] == n.id && n.id in t.children {
      MergeData(t.children[n.id], n, p[1..]);
    }
  }

  /** The paths of a tree are exactly those of the nodes that were added to it. */
  lemma {:induction false} AddAllPaths(t: Tree, nodes: seq<Tree>, p: TreePath)
    ensures HasPath(AddAll(t, nodes), p) <==> HasPath(t, p) || exists n :: n in nodes && IsBranch(n, p)
    decreases nodes
  {
    if nodes != [] {
      AddPaths(t, nodes[0], p);
      AddAllPaths(Add(t, nodes[0]), nodes[1..], p);
      assert forall n :: n in nodes <==> n == nodes[0] || n in nodes[1..];
    }
  }

  /** The first node with a path decides the data shown for it. */
  lemma {:induction false} AddAllData(t: Tree, nodes: seq<Tree>, p: TreePath, i: nat)
    requires p != [] && i < |nodes| && !HasPath(t, p) && IsBranch(nodes[i], p)
    requires forall j :: 0 <= j < i ==> !IsBranch(nodes[j], p)
    ensures HasPath(AddAll(t, nodes), p) && DataAt(AddAll(t, nodes), p) == DataAt(nodes[i], p[1..])
    decreases nodes
  {
    AddPaths(t, nodes[0], p);
    if i == 0 {
      AddData(t, nodes[0], p);
      KeepsData(Add(t, nodes[0]), nodes[1..], p);
    } else {
      AddAllData(Add(t, nodes[0]), nodes[1..], p, i - 1);
    }
  }

  lemma {:induction false} KeepsData(t: Tree, nodes: seq<Tree>, p: TreePath)
    requires p != [] && HasPath(t, p)
    ensures HasPath(AddAll(t, nodes), p) && DataAt(AddAll(t, nodes), p) == DataAt(t, p)
    decreases nodes
  {
    if nodes != [] {
      AddData(t, nodes[0], p);
      KeepsData(Add(t, nodes[0]), nodes[1..], p);
    }
  }

  /** A node that is known to have children says so. */
  predicate FlagsOk(t: Tree) {
    && (t.children != map[] ==> t.hasChildren)
    && forall k :: k in t.children ==> FlagsOk(t.children[k])
  }

  lemma {:induction false} MergeKeepsFlags(c: Tree, n: Tree)
    requires FlagsOk(c) && FlagsOk(n)
    ensures FlagsOk(Merge(c, n))
    decreases n
  {
    forall k | k in n.children && k in c.children
      ensures FlagsOk(Merge(c.children[k], n.children[k]))
    {
      MergeKeepsFlags(c.children[k], n.children[k]);
    }
    if c.children == map[] && n.children != map[] {
      var k :| k in n.children;
      assert k !in c.children.Keys;
    }
  }

  lemma AddKeepsFlags(t: Tree, n: Tree)
    requires FlagsOk(t) && FlagsOk(n)
    ensures FlagsOk(Add(t, n))
  {
    if n.id in t.children {
      MergeKeepsFlags(t.children[n.id], n);
    }
  }

  // ----- A tree is determined by its paths -----

  /** A tree without the data. */
  datatype Shape = Shape(children: map<Id, Shape>)

  function ShapeOf(t: Tree): Shape {
    Shape(map k | k in t.children :: ShapeOf(t.children[k]))
  }

  lemma PathBelow(t: Tree, k: Id, p: TreePath)
    ensures HasPath(t, [k] + p) <==> k in t.children && HasPath(t.children[k], p)
  {
    assert ([k] + p)[1..] == p;
  }

  lemma {:induction false} ShapeFromPaths(a: Tree, b: Tree)
    requires forall p :: HasPath(a, p) <==> HasPath(b, p)
    ensures ShapeOf(a) == ShapeOf(b)
    decreases a
  {
    forall k
      ensures k in a.children <==> k in b.children
    {
      PathBelow(a, k, []);
      PathBelow(b, k, []);
      assert HasPath(a, [k] + []) <==> HasPath(b, [k] + []);
    }
    forall k | k in a.children
      ensures ShapeOf(a.children[k]) == ShapeOf(b.children[k])
    {
      forall p
        ensures HasPath(a.children[k], p) <==> HasPath(b.children[k], p)
      {
        PathBelow(a, k, p);
        PathBelow(b, k, p);
        assert HasPath(a, [k] + p) <==> HasPath(b, [k] + p);
      }
      ShapeFromPaths(a.children[k], b.children[k]);
    }
  }

  /** The same nodes in any other order, and however often, give a tree of the same shape. */
  lemma OrderDoesNotMatter(t: Tree, nodes: seq<Tree>, others: seq<Tree>)
    requires forall n :: n in nodes <==> n in others
    ensures ShapeOf(AddAll(t, nodes)) == ShapeOf(AddAll(t, others))
  {
    forall p
      ensures HasPath(AddAll(t, nodes), p) <==> HasPath(AddAll(t, others), p)
    {
      AddAllPaths(t, nodes, p);
      AddAllPaths(t, others, p);
    }
    ShapeFromPaths(AddAll(t, nodes), AddAll(t, others));
  }

  // ----- Nodes for the files of a firmware -----

  /** A file whose node is created: `name` is shown if a virtual path has no file name. */
  datatype FileData = FileData(name: string, data: Data, hasIncludedFiles: bool)

  const DIRECTORY := Data(None, 0, "")

  /** The node for the parts of a virtual path after its containers: directories around the file. */
  function Created(file: FileData, elements: seq<string>): Tree
    decreases |elements|
  {
    if |elements| > 1 then
      Add(Node(Id(elements[0], true), DIRECTORY, false, map[]), Created(file, elements[1..]))
    else
      Node(Id(if elements == [] then file.name else elements[0], false), file.data, file.hasIncludedFiles, map[])
  }

  /** The path that a node is created for. */
  function PathOf(file: FileData, elements: seq<string>): TreePath
    decreases |elements|
  {
    if |elements| > 1 then [Id(elements[0], true)] + PathOf(file, elements[1..])
    else [Id(if elements == [] then file.name else elements[0], false)]
  }

  lemma {:induction false} CreatedPaths(file: FileData, elements: seq<string>, p: TreePath)
    ensures IsBranch(Created(file, elements), p) <==> p <= PathOf(file, elements)
    decreases |elements|
  {
    var node, path := Created(file, elements), PathOf(file, elements);
    if |elements| > 1 && p != [] && p[0] == node.id {
      var inner := Created(file, elements[1..]);
      AddPaths(Node(Id(elements[0], true), DIRECTORY, false, map[]), inner, p[1..]);
      CreatedPaths(file, elements[1..], p[1..]);
      assert p == [p[0]] + p[1..] && path == [path[0]] + path[1..];
    } else if p != [] && p[0] == path[0] && |p| > 1 {
      assert !HasPath(node, p[1..]);
    }
  }

  lemma {:induction false} CreatedIsOk(file: FileData, elements: seq<string>)
    ensures WellFormed(Created(file, elements)) && FlagsOk(Created(file, elements))
    decreases |elements|
  {
    if |elements| > 1 {
      CreatedIsOk(file, elements[1..]);
    }
  }

  /** A file and the parts of one of its virtual paths. */
  type Occurrence = (FileData, seq<string>)

  function Nodes(files: seq<Occurrence>): seq<Tree> {
    seq(|files|, i requires 0 <= i < |files| => Created(files[i].0, files[i].1))
  }

  const EMPTY_ROOT := Node(Id("", false), Data(None, 0, ""), false, map[])

  /** The tree of a level: a root without children to which the nodes of all files were added. */
  lemma TreeIsUnionOfPaths(files: seq<Occurrence>, p: TreePath)
    ensures HasPath(AddAll(EMPTY_ROOT, Nodes(files)), p)
       <==> p == [] || exists i :: 0 <= i < |files| && p <= PathOf(files[i].0, files[i].1)
  {
    AddAllPaths(EMPTY_ROOT, Nodes(files), p);
    forall i | 0 <= i < |files|
      ensures IsBranch(Nodes(files)[i], p) <==> p <= PathOf(files[i].0, files[i].1)
    {
      CreatedPaths(files[i].0, files[i].1, p);
    }
  }

  lemma {:induction false} AddAllOk(t: Tree, nodes: seq<Tree>)
    requires WellFormed(t) && FlagsOk(t)
    requires forall n :: n in nodes ==> WellFormed(n) && FlagsOk(n)
    ensures WellFormed(AddAll(t, nodes)) && FlagsOk(AddAll(t, nodes))
    decreases nodes
  {
    if nodes != [] {
      AddWellFormed(t, nodes[0]);
      AddKeepsFlags(t, nodes[0]);
      AddAllOk(Add(t, nodes[0]), nodes[1..]);
    }
  }

  /** No two siblings have the same identifier, and nodes with children are marked as such. */
  lemma TreeIsOk(files: seq<Occurrence>)
    ensures WellFormed(AddAll(EMPTY_ROOT, Nodes(files))) && FlagsOk(AddAll(EMPTY_ROOT, Nodes(files)))
  {
    forall i | 0 <= i < |files|
      ensures WellFormed(Nodes(files)[i]) && FlagsOk(Nodes(files)[i])
    {
      CreatedIsOk(files[i].0, files[i].1);
    }
    AddAllOk(EMPTY_ROOT, Nodes(files));
  }
}
