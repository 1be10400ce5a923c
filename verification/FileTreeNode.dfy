/**
 File tree nodes as objects (src/web_interface/file_tree/file_tree_node.py): adding a node changes the
 tree in place, and the children of a merged node become children of the node they are merged into.
 */
module FileTreeNodes {
  import opened Basics
  import opened FileTree

  class FileTreeNode {
    const id: Id
    const data: Data
    var hasChildren: bool
    var children: map<Id, FileTreeNode>
    ghost var Repr: set<object>
    /** The tree below this node, as a value. */
    ghost var tree: Tree

    ghost predicate Valid()
      reads this, Repr
      decreases Repr, 0
    {
      && this in Repr
      && tree.id == id && tree.data == data && tree.hasChildren == hasChildren
      && tree.children.Keys == children.Keys && NodesOk(children, tree.children, Repr - {this})
    }

    constructor (id: Id, data: Data, hasChildren: bool)
      ensures Valid() && Repr == {this} && tree == Node(id, data, hasChildren, map[])
    {
      this.id, this.data, this.hasChildren, children := id, data, hasChildren, map[];
      Repr, tree := {this}, Node(id, data, hasChildren, map[]);
    }

    method AddChildNode(node: FileTreeNode)
      requires Valid() && node.Valid() && Repr !! node.Repr
      modifies Repr, node.Repr
      ensures Valid() && tree == Add(old(tree), old(node.tree))
      ensures Repr <= old(Repr) + old(node.Repr)
      decreases node.tree, 2
    {
      if node.id in children {
        MergeNode(node);
      } else {
        ghost var after := Add(tree, node.tree);
        OneMoreNode(children, tree.children, Repr - {this}, node.id, node, after.children);
        hasChildren := true;
        children := children[node.id := node];
        assert Repr - {this} + node.Repr == Repr + node.Repr - {this};
        Repr := Repr + node.Repr;
        tree := after;
      }
    }

    /** Merges a node with the child that has the same identifier. */
    method MergeNode(node: FileTreeNode)
      requires Valid() && node.Valid() && Repr !! node.Repr && node.id in children
      modifies Repr, node.Repr
      ensures Valid() && tree == Add(old(tree), old(node.tree))
      ensures Repr <= old(Repr) + old(node.Repr)
      decreases node.tree, 1
    {
      var current := children[node.id];
      assert NodeOk(node.id, current, tree.children[node.id], Repr - {this});
      ghost var after, others := Add(tree, node.tree), Repr - {this} - current.Repr;
      WithoutNode(children, tree.children, Repr - {this}, node.id);
      current.MergeChildren(node);
      ChildChanged(node.id, others, after);
    }

    /** Keeps track of a child that has changed. */
    ghost method ChildChanged(k: Id, others: set<object>, after: Tree)
      requires k in children && children[k].Valid() && children[k].id == k && children[k].Repr !! others
      requires this !in others + children[k].Repr && NodesOk(children - {k}, tree.children, others)
      requires tree.id == id && tree.data == data && after == tree.(hasChildren := hasChildren, children := after.children)
      requires after.children == tree.children[k := children[k].tree] && after.children.Keys == children.Keys
      modifies this`Repr, this`tree
      ensures Valid() && tree == after && Repr == others + children[k].Repr + {this}
    {
      ChangedNode(children, tree.children, others, k, children[k], after.children);
      Repr := others + children[k].Repr + {this};
      tree := after;
      assert Repr - {this} == others + children[k].Repr;
    }

    /** The loop of `merge_node`: takes over the children of a node, one after the other. */
    method MergeChildren(node: FileTreeNode)
      requires Valid() && node.Valid() && Repr !! node.Repr
      modifies Repr, node.Repr
      ensures Valid() && tree == Merge(old(tree), old(node.tree))
      ensures Repr <= old(Repr) + old(node.Repr)
      decreases node.tree, 0
    {
      var rest := node.children;
      ghost var before, merged, left := tree, node.tree, node.Repr - {node};
      OnlyNone(before, merged);
      assert merged.children.Keys - rest.Keys == {};
      while rest != map[]
        invariant rest.Keys <= merged.children.Keys && NodesOk(rest, merged.children, left)
        invariant Valid() && Repr <= old(Repr) + old(node.Repr)
        invariant left !! Repr && left <= old(node.Repr)
        invariant tree == Merge(before, Only(merged, merged.children.Keys - rest.Keys))
        decreases rest.Keys
      {
        var k :| k in rest;
        var child := rest[k];
        assert NodeOk(k, child, merged.children[k], left) && child.Valid();
        AddOneMore(before, merged, merged.children.Keys - rest.Keys, k);
        WithoutNode(rest, merged.children, left, k);
        ghost var next := left - child.Repr;
        assert next !! Repr + child.Repr;
        if k in children {
          MergeNode(child);
        } else {
          AddChildNode(child);
        }
        assert merged.children.Keys - (rest - {k}).Keys == merged.children.Keys - rest.Keys + {k};
        rest, left := rest - {k}, next;
      }
      OnlyAll(merged, merged.children.Keys - rest.Keys);
    }
  }

  ghost predicate NodeOk(k: Id, node: FileTreeNode, t: Tree, all: set<object>)
    reads all
    decreases all, 1
  {
    node in all && node.Repr <= all && node.Valid() && node.id == k && node.tree == t
  }

  ghost predicate Apart(a: FileTreeNode, b: FileTreeNode, all: set<object>)
    reads all
  {
    a in all && b in all ==> a.Repr !! b.Repr
  }

  /** Valid nodes for the given trees, whose objects are disjoint and among `all`. */
  ghost predicate NodesOk(nodes: map<Id, FileTreeNode>, trees: map<Id, Tree>, all: set<object>)
    reads all
    decreases all, 2
  {
    && (forall k :: k in nodes ==> k in trees && NodeOk(k, nodes[k], trees[k], all))
    && (forall j, k :: j in nodes && k in nodes && j != k ==> Apart(nodes[j], nodes[k], all))
  }

  lemma WithoutNode(nodes: map<Id, FileTreeNode>, trees: map<Id, Tree>, all: set<object>, k: Id)
    requires NodesOk(nodes, trees, all) && k in nodes
    ensures nodes[k] in all && NodesOk(nodes - {k}, trees, all - nodes[k].Repr)
  {
    assert NodeOk(k, nodes[k], trees[k], all);
    forall j | j in nodes && j != k
      ensures NodeOk(j, nodes[j], trees[j], all - nodes[k].Repr)
    {
      assert NodeOk(j, nodes[j], trees[j], all);
      assert nodes[j].Valid() && Apart(nodes[j], nodes[k], all);
    }
  }

  lemma OneMoreNode(nodes: map<Id, FileTreeNode>, trees: map<Id, Tree>, all: set<object>,
                    k: Id, node: FileTreeNode, newTrees: map<Id, Tree>)
    requires NodesOk(nodes, trees, all) && k !in nodes && node.Valid() && node.id == k && node.Repr !! all
    requires k in newTrees && newTrees[k] == node.tree
    requires forall j :: j in nodes ==> j in newTrees && newTrees[j] == trees[j]
    ensures NodesOk(nodes[k := node], newTrees, all + node.Repr)
  {
    assert node in node.Repr;
    forall j | j in nodes
      ensures NodeOk(j, nodes[j], newTrees[j], all + node.Repr) && nodes[j].Repr !! node.Repr
    {
      assert NodeOk(j, nodes[j], trees[j], all);
    }
    assert NodeOk(k, node, newTrees[k], all + node.Repr);
    forall i, j | i in nodes && j in nodes && i != j
      ensures Apart(nodes[i], nodes[j], all + node.Repr)
    {
      assert NodeOk(i, nodes[i], trees[i], all) && NodeOk(j, nodes[j], trees[j], all);
      assert Apart(nodes[i], nodes[j], all);
    }
  }

  /** One of the nodes has changed, within objects that no other node uses. */
  lemma ChangedNode(nodes: map<Id, FileTreeNode>, trees: map<Id, Tree>, others: set<object>,
                    k: Id, node: FileTreeNode, newTrees: map<Id, Tree>)
    requires k in nodes && nodes[k] == node && NodesOk(nodes - {k}, trees, others)
    requires node.Valid() && node.id == k && node.Repr !! others
    requires k in newTrees && newTrees[k] == node.tree
    requires forall j :: j in nodes && j != k ==> j in newTrees && j in trees && newTrees[j] == trees[j]
    ensures NodesOk(nodes, newTrees, others + node.Repr)
  {
    assert (nodes - {k})[k := node] == nodes;
    OneMoreNode(nodes - {k}, trees, others, k, node, newTrees);
  }

  /** A node with some of its children. */
  ghost function Only(n: Tree, ids: set<Id>): Tree {
    n.(children := map k | k in n.children && k in ids :: n.children[k])
  }

  lemma OnlyNone(c: Tree, n: Tree)
    ensures Merge(c, Only(n, {})) == c
  {
    assert Merge(c, Only(n, {})).children == c.children;
  }

  lemma OnlyAll(n: Tree, ids: set<Id>)
    requires ids == n.children.Keys
    ensures Only(n, ids) == n
  {
    assert Only(n, ids).children == n.children;
  }

  lemma MergedChild(c: Tree, n: Tree, ids: set<Id>, j: Id)
    ensures var merged := Merge(c, Only(n, ids)).children;
            if j in n.children && j in ids then
              j in merged && merged[j] == if j in c.children then Merge(c.children[j], n.children[j]) else n.children[j]
            else (j in merged <==> j in c.children) && (j in merged ==> merged[j] == c.children[j])
  {
  }

  lemma MergedFlag(c: Tree, n: Tree, ids: set<Id>)
    requires ids <= n.children.Keys
    ensures Merge(c, Only(n, ids)).hasChildren == (c.hasChildren || !(ids <= c.children.Keys))
  {
    assert Only(n, ids).children.Keys == ids;
  }

  /** The children can be merged one after the other, in any order. */
  lemma AddOneMore(c: Tree, n: Tree, ids: set<Id>, k: Id)
    requires n.children.Keys >= ids + {k} && k !in ids && n.children[k].id == k
    ensures Add(Merge(c, Only(n, ids)), n.children[k]) == Merge(c, Only(n, ids + {k}))
  {
    var x, y := Merge(c, Only(n, ids)), Merge(c, Only(n, ids + {k}));
    var z := Add(x, n.children[k]);
    forall j
      ensures (j in z.children <==> j in y.children) && (j in z.children ==> z.children[j] == y.children[j])
    {
      MergedChild(c, n, ids, j);
      MergedChild(c, n, ids + {k}, j);
      MergedChild(c, n, ids, k);
    }
    assert z.children == y.children;
    MergedFlag(c, n, ids);
    MergedFlag(c, n, ids + {k});
    MergedChild(c, n, ids, k);
  }

  /** The node for a virtual path: directories are created around the file, from the outside in. */
  method CreateNode(file: FileData, elements: seq<string>) returns (node: FileTreeNode)
    ensures node.Valid() && fresh(node.Repr) && node.tree == Created(file, elements)
    decreases |elements|
  {
    if |elements| > 1 {
      node := new FileTreeNode(Id(elements[0], true), DIRECTORY, false);
      var rest := CreateNode(file, elements[1..]);
      node.AddChildNode(rest);
    } else {
      node := new FileTreeNode(Id(if elements == [] then file.name else elements[0], false), file.data, file.hasIncludedFiles);
    }
  }

  /** All nodes of a level are added to one root (src/web_interface/components/ajax_routes.py). */
  method GenerateFileTree(files: seq<Occurrence>) returns (root: FileTreeNode)
    ensures root.Valid() && fresh(root.Repr) && root.tree == AddAll(EMPTY_ROOT, Nodes(files))
  {
    root := new FileTreeNode(EMPTY_ROOT.id, EMPTY_ROOT.data, false);
    var rest := files;
    while rest != []
      invariant root.Valid() && fresh(root.Repr)
      invariant AddAll(root.tree, Nodes(rest)) == AddAll(EMPTY_ROOT, Nodes(files))
      decreases rest
    {
      NodesTail(rest);
      var node := CreateNode(rest[0].0, rest[0].1);
      root.AddChildNode(node);
      rest := rest[1..];
    }
  }

  lemma NodesTail(files: seq<Occurrence>)
    requires files != []
    ensures Nodes(files)[0] == Created(files[0].0, files[0].1) && Nodes(files)[1..] == Nodes(files[1..])
  {
  }
}
