/**
 Deletion as garbage collection: the binaries that `delete_firmware` erases against the entries that
 disappear from the database.
 */
module DeletionAgreement {
  import opened Basics
  import opened Inclusion
  import opened FirmwareDeletion

  /** The virtual file paths of each file name exactly the firmware that reaches it. */
  ghost predicate RootsMatch(db: Db) {
    forall u, f :: u in db.entries ==>
      (f in db.entries[u].virtualFilePaths <==> IsFirmware(db, f) && Reaches(db.included, f, u))
  }

  ghost predicate NoOrphans(db: Db) {
    forall u :: u in db.entries ==> !Orphan(db, u)
  }

  /** The state of the database between deletions. */
  ghost predicate Sound(db: Db, depth: map<Uid, nat>, bound: nat) {
    Acyclic(db, depth, bound) && RootsMatch(db) && NoOrphans(db)
  }

  ghost predicate ReachedByOther(db: Db, root: Uid, u: Uid) {
    exists f :: f != root && IsFirmware(db, f) && Reaches(db.included, f, u)
  }

  /** The entries that disappear, the deleted root excepted. */
  ghost function Removed(db: Db, root: Uid): set<Uid> {
    db.entries.Keys - AfterDeletion(db, root).entries.Keys - {root}
  }

  /** Collected are the files below the root that no other firmware reaches. */
  lemma CollectedAre(db: Db, root: Uid, depth: map<Uid, nat>, bound: nat)
    requires Sound(db, depth, bound) && IsFirmware(db, root)
    ensures Collected(db, root) ==
            set u | u in db.entries && u != root && Reaches(db.included, root, u) && !ReachedByOther(db, root, u)
  {
    forall u | u in db.entries
      ensures u in Collected(db, root) <==> u != root && Reaches(db.included, root, u) && !ReachedByOther(db, root, u)
    {
      RootsTell(db, root, u);
      if u != root && Reaches(db.included, root, u) {
        var c := FirstEdge(db.included, root, u);
        assert c in Children(db, root);
      }
      if u in BelowChildren(db, root) {
        var c :| c in Children(db, root) && Reaches(db.included, c, u);
        ReachesFirst(db.included, root, c, u);
        NoWayBack(db.included, depth, bound, root, c);
      }
    }
  }

  lemma RootsTell(db: Db, root: Uid, u: Uid)
    requires RootsMatch(db) && u in db.entries
    ensures HasOtherRoot(db.entries[u], root) <==> ReachedByOther(db, root, u)
  {
    if ReachedByOther(db, root, u) {
      var f :| f != root && IsFirmware(db, f) && Reaches(db.included, f, u);
      assert f in db.entries[u].virtualFilePaths.Keys - {root};
    }
    if HasOtherRoot(db.entries[u], root) {
      var f :| f in db.entries[u].virtualFilePaths.Keys - {root};
      assert f in db.entries[u].virtualFilePaths;
      assert IsFirmware(db, f) && Reaches(db.included, f, u);
    }
  }

  /** The entries that stay are those a remaining firmware reaches without passing through the root. */
  lemma StayingAre(db: Db, root: Uid)
    requires WellFormed(db)
    ensures AfterDeletion(db, root).entries.Keys ==
            set u | u in db.entries && u != root && ReachedAvoiding(db, root, u)
  {
    var cut := WithoutRoot(db, root);
    forall u | u in db.entries && u != root
      ensures ReachedByFirmware(cut, u) <==> ReachedAvoiding(db, root, u)
    {
      assert forall f :: IsFirmware(cut, f) <==> f != root && IsFirmware(db, f);
    }
  }

  ghost predicate ReachedAvoiding(db: Db, root: Uid, u: Uid) {
    exists f :: f != root && IsFirmware(db, f) && Reaches(Inclusion.Without(db.included, root), f, u)
  }

  lemma AvoidingReaches(db: Db, root: Uid, u: Uid)
    requires ReachedAvoiding(db, root, u)
    ensures ReachedByOther(db, root, u)
  {
    var f :| f != root && IsFirmware(db, f) && Reaches(Inclusion.Without(db.included, root), f, u);
    ReachesMore(Inclusion.Without(db.included, root), db.included, f, u);
  }

  /** A binary is only erased if its database entry goes away as well. */
  lemma ErasedMeansRemoved(db: Db, root: Uid, depth: map<Uid, nat>, bound: nat)
    requires Sound(db, depth, bound) && IsFirmware(db, root)
    ensures Collected(db, root) <= Removed(db, root)
  {
    CollectedAre(db, root, depth, bound);
    StayingAre(db, root);
    forall u | u in Collected(db, root)
      ensures !ReachedAvoiding(db, root, u)
    {
      if ReachedAvoiding(db, root, u) {
        AvoidingReaches(db, root, u);
      }
    }
  }

  /** Each non-firmware file directly inside the root is also directly inside another file. */
  ghost predicate ChildrenHeldElsewhere(db: Db, root: Uid) {
    forall c :: (root, c) in db.included && !IsFirmware(db, c) ==> exists p :: p != root && (p, c) in db.included
  }

  /**
   The erased binaries are exactly those whose entries disappear if and only if the deleted
   firmware is not itself contained in another file, or each of its direct non-firmware files has
   another parent as well.
   */
  lemma DeletionAgreesIff(db: Db, root: Uid, depth: map<Uid, nat>, bound: nat)
    requires Sound(db, depth, bound) && IsFirmware(db, root)
    ensures Collected(db, root) == Removed(db, root) <==> !HasParent(db, root) || ChildrenHeldElsewhere(db, root)
  {
    ErasedMeansRemoved(db, root, depth, bound);
    if !HasParent(db, root) {
      RootWithoutParentAgrees(db, root, depth, bound);
    } else if ChildrenHeldElsewhere(db, root) {
      NothingIsRemoved(db, root, depth, bound);
    } else {
      OnlyChildIsLost(db, root, depth, bound);
    }
  }

  lemma RootWithoutParentAgrees(db: Db, root: Uid, depth: map<Uid, nat>, bound: nat)
    requires Sound(db, depth, bound) && IsFirmware(db, root) && !HasParent(db, root)
    ensures Collected(db, root) == Removed(db, root)
  {
    CollectedAre(db, root, depth, bound);
    StayingAre(db, root);
    forall u | u in db.entries && u != root
      ensures u in Collected(db, root) <==> !ReachedAvoiding(db, root, u)
    {
      NobodyReachesRoot(db, root, u);
      NoOrphanMeansReached(db, depth, bound, u);
    }
  }

  /** A firmware that is contained in nothing lies on no way from elsewhere. */
  lemma NobodyReachesRoot(db: Db, root: Uid, u: Uid)
    requires !HasParent(db, root)
    ensures ReachedAvoiding(db, root, u) <==> ReachedByOther(db, root, u)
  {
    if ReachedByOther(db, root, u) {
      var f :| f != root && IsFirmware(db, f) && Reaches(db.included, f, u);
      if Reaches(db.included, f, root) {
        var p := LastEdge(db.included, f, root);
      }
      var path :| Walk(db.included, path) && path[0] == f && path[|path| - 1] == u;
      ReachesAround(db.included, root, path);
      assert Reaches(Inclusion.Without(db.included, root), f, u);
    }
    if ReachedAvoiding(db, root, u) {
      AvoidingReaches(db, root, u);
    }
  }

  /** A firmware with a parent is reached by another firmware, and so is all it contains. */
  lemma OtherFirmwareAbove(db: Db, root: Uid, u: Uid, depth: map<Uid, nat>, bound: nat)
    requires Sound(db, depth, bound) && IsFirmware(db, root) && HasParent(db, root)
    requires Reaches(db.included, root, u)
    ensures ReachedByOther(db, root, u)
  {
    var p :| (p, root) in db.included;
    NoOrphanMeansReached(db, depth, bound, p);
    var f :| IsFirmware(db, f) && Reaches(db.included, f, p);
    ReachesLast(db.included, f, p, root);
    NoWayBack(db.included, depth, bound, p, root);
    ReachesTransitive(db.included, f, root, u);
  }

  lemma NothingIsRemoved(db: Db, root: Uid, depth: map<Uid, nat>, bound: nat)
    requires Sound(db, depth, bound) && IsFirmware(db, root)
    requires HasParent(db, root) && ChildrenHeldElsewhere(db, root)
    ensures Removed(db, root) == {} && Collected(db, root) == {}
  {
    CutStaysReached(db, root, depth, bound);
    assert Removed(db, root) == {};
    CollectedAre(db, root, depth, bound);
    forall u | u in db.entries && Reaches(db.included, root, u)
      ensures ReachedByOther(db, root, u)
    {
      OtherFirmwareAbove(db, root, u, depth, bound);
    }
  }

  lemma CutIsAcyclic(db: Db, root: Uid, depth: map<Uid, nat>, bound: nat)
    requires Acyclic(db, depth, bound)
    ensures Acyclic(WithoutRoot(db, root), depth, bound)
  {
  }

  lemma CutStaysReached(db: Db, root: Uid, depth: map<Uid, nat>, bound: nat)
    requires Sound(db, depth, bound) && IsFirmware(db, root)
    requires HasParent(db, root) && ChildrenHeldElsewhere(db, root)
    ensures Live(WithoutRoot(db, root)) == WithoutRoot(db, root).entries.Keys
  {
    CutIsAcyclic(db, root, depth, bound);
    NoOrphansInCut(db, root);
    AllAreLive(WithoutRoot(db, root), depth, bound);
  }

  lemma AllAreLive(db: Db, depth: map<Uid, nat>, bound: nat)
    requires Acyclic(db, depth, bound) && NoOrphans(db)
    ensures Live(db) == db.entries.Keys
  {
    forall u | u in db.entries
      ensures ReachedByFirmware(db, u)
    {
      NoOrphanMeansReached(db, depth, bound, u);
    }
  }

  lemma NoOrphansInCut(db: Db, root: Uid)
    requires WellFormed(db) && NoOrphans(db) && ChildrenHeldElsewhere(db, root)
    ensures NoOrphans(WithoutRoot(db, root))
  {
    var cut := WithoutRoot(db, root);
    forall u | u in cut.entries
      ensures !Orphan(cut, u)
    {
      assert !Orphan(db, u);
      if !IsFirmware(db, u) {
        var e :| e in db.included && e.1 == u;
        if e.0 == root {
          assert e == (root, u);
          var p :| p != root && (p, u) in db.included;
          assert (p, u) in cut.included;
        } else {
          assert e in cut.included;
        }
      }
    }
  }

  /** A file held by the root alone disappears although another firmware contained it through the root. */
  lemma OnlyChildIsLost(db: Db, root: Uid, depth: map<Uid, nat>, bound: nat)
    requires Sound(db, depth, bound) && IsFirmware(db, root)
    requires HasParent(db, root) && !ChildrenHeldElsewhere(db, root)
    ensures exists c :: c in Removed(db, root) && c !in Collected(db, root)
  {
    var c :| (root, c) in db.included && !IsFirmware(db, c) && !exists p :: p != root && (p, c) in db.included;
    ChildIsLost(db, root, c, depth, bound);
  }

  lemma ChildIsLost(db: Db, root: Uid, c: Uid, depth: map<Uid, nat>, bound: nat)
    requires Sound(db, depth, bound) && IsFirmware(db, root) && HasParent(db, root)
    requires (root, c) in db.included && !IsFirmware(db, c) && forall p :: (p, c) in db.included ==> p == root
    ensures c in Removed(db, root) && c !in Collected(db, root)
  {
    ReachesItself(db.included, c);
    ReachesFirst(db.included, root, c, c);
    OtherFirmwareAbove(db, root, c, depth, bound);
    CollectedAre(db, root, depth, bound);
    StayingAre(db, root);
    if ReachedAvoiding(db, root, c) {
      var f :| f != root && IsFirmware(db, f) && Reaches(Inclusion.Without(db.included, root), f, c);
      var p := LastEdge(Inclusion.Without(db.included, root), f, c);
    }
    NoWayBack(db.included, depth, bound, root, c);
  }

  /** A firmware 0 that contains a firmware 1 with a single file 2. */
  function Nested(): (db: Db) {
    Db(map[0 := Entry(true, map[0 := []]), 1 := Entry(true, map[0 := [], 1 := []]), 2 := Entry(false, map[0 := [], 1 := []])],
       {(0, 1), (1, 2)})
  }

  lemma {:induction false} NestedWalks(path: seq<Uid>)
    requires Walk(Nested().included, path)
    ensures path[|path| - 1] == path[0] || (path[0] == 0 && path[|path| - 1] in {1, 2}) || (path[0] == 1 && path[|path| - 1] == 2)
    decreases |path|
  {
    if |path| > 1 {
      assert (path[0], path[1]) in Nested().included;
      assert Walk(Nested().included, path[1..]);
      NestedWalks(path[1..]);
    }
  }

  lemma NestedReaches(a: Uid, b: Uid)
    ensures Reaches(Nested().included, a, b) <==> a == b || (a == 0 && b in {1, 2}) || (a == 1 && b == 2)
  {
    if Reaches(Nested().included, a, b) {
      var path :| Walk(Nested().included, path) && path[0] == a && path[|path| - 1] == b;
      NestedWalks(path);
    }
    assert Walk(Nested().included, [a]) && Walk(Nested().included, [0, 1]);
    assert Walk(Nested().included, [1, 2]) && Walk(Nested().included, [0, 1, 2]);
    assert forall path: seq<Uid> {:trigger Walk(Nested().included, path)} ::
        Walk(Nested().included, path) && path[0] == a && path[|path| - 1] == b ==> Reaches(Nested().included, a, b);
  }

  lemma NestedIsSound() returns (depth: map<Uid, nat>, bound: nat)
    ensures Sound(Nested(), depth, bound)
  {
    depth, bound := map[0 := 0, 1 := 1, 2 := 2], 2;
    NestedRoots();
    var db := Nested();
    assert (0, 1) in db.included && (1, 2) in db.included;
    assert forall u :: u in db.entries ==> u == 0 || u == 1 || u == 2;
  }

  lemma NestedRoots()
    ensures RootsMatch(Nested())
  {
    forall u, f | u in Nested().entries
      ensures f in Nested().entries[u].virtualFilePaths <==> IsFirmware(Nested(), f) && Reaches(Nested().included, f, u)
    {
      NestedReaches(f, u);
    }
  }

  /** When firmware 1 is deleted, the entry of file 2 goes away, but its binary is not erased. */
  lemma DeletedInsideAnother() returns (depth: map<Uid, nat>, bound: nat)
    ensures Sound(Nested(), depth, bound) && IsFirmware(Nested(), 1)
    ensures 2 in Removed(Nested(), 1) && 2 !in Collected(Nested(), 1)
  {
    depth, bound := NestedIsSound();
    var db := Nested();
    assert (0, 1) in db.included && (1, 2) in db.included;
    ChildIsLost(db, 1, 2, depth, bound);
  }

  /**
   Deleting a firmware that is contained in no other file leaves the database sound: no entry
   without parents, and virtual file paths that name exactly the firmware reaching each file.
   */
  lemma DeletionKeepsSound(db: Db, root: Uid, depth: map<Uid, nat>, bound: nat)
    requires Sound(db, depth, bound) && IsFirmware(db, root) && !HasParent(db, root)
    ensures Sound(AfterDeletion(db, root), depth, bound)
  {
    AfterIsAcyclic(db, root, depth, bound);
    NoOrphansAfter(db, root, depth, bound);
    RootsMatchAfter(db, root);
  }

  lemma NoOrphansAfter(db: Db, root: Uid, depth: map<Uid, nat>, bound: nat)
    requires Sound(db, depth, bound) && IsFirmware(db, root)
    ensures NoOrphans(AfterDeletion(db, root))
  {
    forall u | u in AfterDeletion(db, root).entries
      ensures !Orphan(AfterDeletion(db, root), u)
    {
      StayingHasParent(db, root, u, depth, bound);
    }
  }

  lemma RootsMatchAfter(db: Db, root: Uid)
    requires WellFormed(db) && RootsMatch(db) && IsFirmware(db, root) && !HasParent(db, root)
    ensures RootsMatch(AfterDeletion(db, root))
  {
    var after := AfterDeletion(db, root);
    forall u, f | u in after.entries
      ensures f in after.entries[u].virtualFilePaths <==> IsFirmware(after, f) && Reaches(after.included, f, u)
    {
      RootsOfStaying(db, root, u, f);
    }
  }

  lemma AfterIsAcyclic(db: Db, root: Uid, depth: map<Uid, nat>, bound: nat)
    requires Acyclic(db, depth, bound)
    ensures Acyclic(AfterDeletion(db, root), depth, bound)
  {
    CutIsAcyclic(db, root, depth, bound);
  }

  /** A file that is reached without the deleted root has a parent that is. */
  lemma ParentOfReached(db: Db, root: Uid, f: Uid, u: Uid) returns (p: Uid)
    requires f != root && IsFirmware(db, f) && !IsFirmware(db, u) && Reaches(Inclusion.Without(db.included, root), f, u)
    ensures ReachedAvoiding(db, root, p) && (p, u) in Inclusion.Without(db.included, root)
  {
    p := LastEdge(Inclusion.Without(db.included, root), f, u);
  }

  lemma EdgeStays(db: Db, root: Uid, p: Uid, u: Uid)
    requires (p, u) in Inclusion.Without(db.included, root)
    requires p in AfterDeletion(db, root).entries && u in AfterDeletion(db, root).entries
    ensures (p, u) in AfterDeletion(db, root).included
  {
  }

  lemma StayingHasParent(db: Db, root: Uid, u: Uid, depth: map<Uid, nat>, bound: nat)
    requires Sound(db, depth, bound) && IsFirmware(db, root) && u in AfterDeletion(db, root).entries
    ensures !Orphan(AfterDeletion(db, root), u)
  {
    StayingAre(db, root);
    assert AfterDeletion(db, root).entries[u].isFirmware == db.entries[u].isFirmware;
    if !IsFirmware(db, u) {
      var f :| f != root && IsFirmware(db, f) && Reaches(Inclusion.Without(db.included, root), f, u);
      var p := ParentOfReached(db, root, f, u);
      EdgeStays(db, root, p, u);
    }
  }

  lemma RootsOfStaying(db: Db, root: Uid, u: Uid, f: Uid)
    requires WellFormed(db) && RootsMatch(db) && IsFirmware(db, root) && !HasParent(db, root)
    requires u in AfterDeletion(db, root).entries
    ensures var after := AfterDeletion(db, root);
            f in after.entries[u].virtualFilePaths <==> IsFirmware(after, f) && Reaches(after.included, f, u)
  {
    var after, e := AfterDeletion(db, root), db.entries[u];
    StayingAre(db, root);
    var g :| g != root && IsFirmware(db, g) && Reaches(Inclusion.Without(db.included, root), g, u);
    ReachesMore(Inclusion.Without(db.included, root), db.included, g, u);
    assert g in e.virtualFilePaths.Keys - {root};
    PathsOfStaying(db, root, u);
    if f != root && IsFirmware(db, f) && Reaches(db.included, f, u) {
      StillReached(db, root, f, u);
    }
    if IsFirmware(after, f) && Reaches(after.included, f, u) {
      ReachesMore(after.included, db.included, f, u);
    }
  }

  /** Whatever stays has lost its paths in the deleted root. */
  lemma PathsOfStaying(db: Db, root: Uid, u: Uid)
    requires WellFormed(db) && RootsMatch(db) && IsFirmware(db, root) && u in AfterDeletion(db, root).entries
    requires HasOtherRoot(db.entries[u], root)
    ensures AfterDeletion(db, root).entries[u].virtualFilePaths.Keys == db.entries[u].virtualFilePaths.Keys - {root}
  {
    if Reaches(db.included, root, u) {
      var c := FirstEdge(db.included, root, u);
      assert c in Children(db, root);
      assert u in BelowChildren(db, root);
    } else {
      assert root !in db.entries[u].virtualFilePaths;
      assert StripRoot(db.entries[u], root).virtualFilePaths.Keys == db.entries[u].virtualFilePaths.Keys - {root};
    }
  }

  /** Whatever stays is unchanged, but for the paths in the deleted root. */
  lemma StayingIsUnchanged(db: Db, root: Uid, u: Uid, f: Uid)
    requires u in AfterDeletion(db, root).entries && f != root
    ensures u in db.entries && AfterDeletion(db, root).entries[u].isFirmware == db.entries[u].isFirmware
    ensures var before, after := db.entries[u].virtualFilePaths, AfterDeletion(db, root).entries[u].virtualFilePaths;
            (f in after <==> f in before) && (f in after ==> after[f] == before[f])
    ensures forall e :: e in AfterDeletion(db, root).included <==>
              e in db.included && e.0 in AfterDeletion(db, root).entries && e.1 in AfterDeletion(db, root).entries
  {
  }

  /** A firmware that reaches a file reaches it through entries that all stay. */
  lemma StillReached(db: Db, root: Uid, f: Uid, u: Uid)
    requires WellFormed(db) && !HasParent(db, root)
    requires f != root && IsFirmware(db, f) && Reaches(db.included, f, u)
    ensures IsFirmware(AfterDeletion(db, root), f) && Reaches(AfterDeletion(db, root).included, f, u)
  {
    var cut, after := Inclusion.Without(db.included, root), AfterDeletion(db, root);
    StayingAre(db, root);
    if Reaches(db.included, f, root) {
      var p := LastEdge(db.included, f, root);
    }
    var path :| Walk(db.included, path) && path[0] == f && path[|path| - 1] == u;
    ReachesAround(db.included, root, path);
    forall i | 0 <= i < |path|
      ensures path[i] in after.entries
    {
      assert Walk(cut, path[..i + 1]);
      assert Reaches(cut, f, path[i]);
      if i > 0 {
        assert (path[i - 1], path[i]) in cut;
      }
      assert path[i] in db.entries && path[i] != root;
    }
    assert Walk(after.included, path);
  }

  /**
   The whole deletion on the class: erased binaries and removed entries coincide, and soundness
   holds again for the next deletion.
   */
  method DeleteAndCheck(database: Database, uid: Uid, ghost depth: map<Uid, nat>, ghost bound: nat)
    returns (erased: set<Uid>)
    requires Sound(database.View(), depth, bound)
    requires IsFirmware(database.View(), uid) && !HasParent(database.View(), uid)
    modifies database
    ensures erased == old(database.entries).Keys - database.entries.Keys
    ensures Sound(database.View(), depth, bound)
  {
    ghost var db := database.View();
    DeletionKeepsSound(db, uid, depth, bound);
    RootWithoutParentAgrees(db, uid, depth, bound);
    StayingAre(db, uid);
    erased := database.DeleteFirmware(uid, true, depth, bound);
  }
}
