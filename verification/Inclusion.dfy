/** Reachability along inclusions, for the graph arguments about the database. */
module Inclusion {
  import opened Basics

  /** Pairs of a file and a file it includes. */
  type Edges = set<(Uid, Uid)>

  ghost predicate Walk(edges: Edges, path: seq<Uid>) {
    path != [] && forall i :: 0 < i < |path| ==> (path[i - 1], path[i]) in edges
  }

  ghost predicate Reaches(edges: Edges, a: Uid, b: Uid) {
    exists path :: Walk(edges, path) && path[0] == a && path[|path| - 1] == b
  }

  /** `depth` grows along every edge and stays below `bound`, so there is no cycle. */
  ghost predicate Layered(edges: Edges, depth: map<Uid, nat>, bound: nat) {
    forall e :: e in edges ==> e.0 in depth && e.1 in depth && depth[e.0] < depth[e.1] <= bound
  }

  lemma ReachesItself(edges: Edges, a: Uid)
    ensures Reaches(edges, a, a)
  {
    assert Walk(edges, [a]);
  }

  lemma ReachesFirst(edges: Edges, a: Uid, c: Uid, b: Uid)
    requires (a, c) in edges && Reaches(edges, c, b)
    ensures Reaches(edges, a, b)
  {
    var path :| Walk(edges, path) && path[0] == c && path[|path| - 1] == b;
    var longer := [a] + path;
    assert Walk(edges, longer) && longer[|longer| - 1] == b;
  }

  lemma ReachesLast(edges: Edges, a: Uid, p: Uid, b: Uid)
    requires Reaches(edges, a, p) && (p, b) in edges
    ensures Reaches(edges, a, b)
  {
    var path :| Walk(edges, path) && path[0] == a && path[|path| - 1] == p;
    var longer := path + [b];
    assert Walk(edges, longer) && longer[0] == a && longer[|longer| - 1] == b;
  }

  lemma FirstEdge(edges: Edges, a: Uid, b: Uid) returns (c: Uid)
    requires Reaches(edges, a, b) && a != b
    ensures (a, c) in edges && Reaches(edges, c, b)
  {
    var path :| Walk(edges, path) && path[0] == a && path[|path| - 1] == b;
    c := path[1];
    assert Walk(edges, path[1..]);
  }

  lemma LastEdge(edges: Edges, a: Uid, b: Uid) returns (p: Uid)
    requires Reaches(edges, a, b) && a != b
    ensures Reaches(edges, a, p) && (p, b) in edges
  {
    var path :| Walk(edges, path) && path[0] == a && path[|path| - 1] == b;
    p := path[|path| - 2];
    assert Walk(edges, path[..|path| - 1]);
  }

  lemma ReachesMore(edges: Edges, more: Edges, a: Uid, b: Uid)
    requires edges <= more && Reaches(edges, a, b)
    ensures Reaches(more, a, b)
  {
    var path :| Walk(edges, path) && path[0] == a && path[|path| - 1] == b;
    assert Walk(more, path);
  }

  lemma {:induction false} ReachesAlong(edges: Edges, path: seq<Uid>, c: Uid)
    requires Walk(edges, path) && Reaches(edges, path[|path| - 1], c)
    ensures Reaches(edges, path[0], c)
    decreases |path|
  {
    if |path| > 1 {
      assert Walk(edges, path[1..]);
      ReachesAlong(edges, path[1..], c);
      ReachesFirst(edges, path[0], path[1], c);
    }
  }

  lemma ReachesTransitive(edges: Edges, a: Uid, b: Uid, c: Uid)
    requires Reaches(edges, a, b) && Reaches(edges, b, c)
    ensures Reaches(edges, a, c)
  {
    var path :| Walk(edges, path) && path[0] == a && path[|path| - 1] == b;
    ReachesAlong(edges, path, c);
  }

  lemma {:induction false} WalkDescends(edges: Edges, depth: map<Uid, nat>, bound: nat, path: seq<Uid>)
    requires Layered(edges, depth, bound) && Walk(edges, path) && |path| > 1
    ensures path[0] in depth && path[|path| - 1] in depth && depth[path[0]] < depth[path[|path| - 1]]
    decreases |path|
  {
    assert (path[0], path[1]) in edges;
    if |path| > 2 {
      assert Walk(edges, path[1..]);
      WalkDescends(edges, depth, bound, path[1..]);
    }
  }

  /** Without cycles, nothing leads back from the end of an edge to its start. */
  lemma NoWayBack(edges: Edges, depth: map<Uid, nat>, bound: nat, a: Uid, b: Uid)
    requires Layered(edges, depth, bound) && (a, b) in edges
    ensures a != b && !Reaches(edges, b, a)
  {
    if Reaches(edges, b, a) {
      var path :| Walk(edges, path) && path[0] == b && path[|path| - 1] == a;
      if |path| > 1 {
        WalkDescends(edges, depth, bound, path);
      }
    }
  }

  function Without(edges: Edges, root: Uid): Edges {
    set e | e in edges && e.0 != root && e.1 != root
  }

  /** What does not lead to `root` can be reached without it. */
  lemma {:induction false} ReachesAround(edges: Edges, root: Uid, path: seq<Uid>)
    requires Walk(edges, path) && !Reaches(edges, path[0], root)
    ensures Walk(Without(edges, root), path)
    decreases |path|
  {
    ReachesItself(edges, root);
    if |path| > 1 {
      var rest := path[1..];
      assert Walk(edges, rest);
      if Reaches(edges, rest[0], root) {
        ReachesFirst(edges, path[0], rest[0], root);
      }
      ReachesAround(edges, root, rest);
      forall i | 0 < i < |path|
        ensures (path[i - 1], path[i]) in Without(edges, root)
      {
        if i == 1 {
          assert path[0] != root && path[1] != root;
        } else {
          assert (rest[i - 2], rest[i - 1]) in Without(edges, root);
        }
      }
    }
  }
}
