/**
 Deleting a firmware (src/storage/db_interface_admin.py) and the cascade that removes files without
 parents (src/storage/schema.py). The first decides from virtual file paths which binaries are
 erased, the second from the inclusion relation which entries disappear.
 */
module FirmwareDeletion {
  import opened Basics
  import opened Inclusion

  /** The keys of `virtualFilePaths` are the firmware a file was found in. */
  datatype Entry = Entry(isFirmware: bool, virtualFilePaths: map<Uid, seq<string>>)

  datatype Db = Db(entries: map<Uid, Entry>, included: Edges)

  ghost predicate WellFormed(db: Db) {
    forall e :: e in db.included ==> e.0 in db.entries && e.1 in db.entries
  }

  ghost predicate Acyclic(db: Db, depth: map<Uid, nat>, bound: nat) {
    && WellFormed(db) && Layered(db.included, depth, bound)
    && forall u :: u in db.entries ==> u in depth && depth[u] <= bound
  }

  predicate IsFirmware(db: Db, u: Uid) {
    u in db.entries && db.entries[u].isFirmware
  }

  /** The file and everything it includes, directly or not. */
  ghost function Below(db: Db, a: Uid): set<Uid> {
    set u | u in db.entries && Reaches(db.included, a, u)
  }

  // ----- Virtual path entries -----

  predicate HasOtherRoot(e: Entry, root: Uid) {
    e.virtualFilePaths.Keys - {root} != {}
  }

  function StripRoot(e: Entry, root: Uid): Entry {
    if HasOtherRoot(e, root) then e.(virtualFilePaths := e.virtualFilePaths - {root}) else e
  }

  function Stripping(root: Uid): Entry -> Entry {
    (e: Entry) => StripRoot(e, root)
  }

  /** The entries after the visited files have lost their paths in `root`. */
  function Stripped(entries: map<Uid, Entry>, root: Uid, visited: set<Uid>): map<Uid, Entry> {
    Over(entries, Stripping(root), visited)
  }

  /** The visited files that are in no firmware but `root`. */
  function OnlyInRoot(entries: map<Uid, Entry>, root: Uid, visited: set<Uid>): set<Uid> {
    set u | u in visited && u in entries && !HasOtherRoot(entries[u], root)
  }

  /** Visiting files again, or in several rounds, makes no difference. */
  lemma StrippedTwice(entries: map<Uid, Entry>, root: Uid, a: set<Uid>, b: set<Uid>)
    ensures Stripped(Stripped(entries, root, a), root, b) == Stripped(entries, root, a + b)
    ensures OnlyInRoot(Stripped(entries, root, a), root, b) == OnlyInRoot(entries, root, b)
    ensures OnlyInRoot(entries, root, a + b) == OnlyInRoot(entries, root, a) + OnlyInRoot(entries, root, b)
  {
    forall e: Entry
      ensures StripRoot(StripRoot(e, root), root) == StripRoot(e, root)
      ensures HasOtherRoot(StripRoot(e, root), root) == HasOtherRoot(e, root)
    {
      StripTwice(e, root);
    }
  }

  lemma StripTwice(e: Entry, root: Uid)
    ensures StripRoot(StripRoot(e, root), root) == StripRoot(e, root)
    ensures HasOtherRoot(StripRoot(e, root), root) == HasOtherRoot(e, root)
  {
    var m := e.virtualFilePaths;
    assert (m - {root}).Keys - {root} == m.Keys - {root};
    assert m - {root} - {root} == m - {root};
  }

  // ----- The cascade -----

  ghost predicate HasParent(db: Db, u: Uid) {
    exists p :: (p, u) in db.included
  }

  predicate Orphan(db: Db, u: Uid) {
    u in db.entries && !db.entries[u].isFirmware && forall e :: e in db.included ==> e.1 != u
  }

  function Deleted(db: Db, u: Uid): Db {
    Db(db.entries - {u}, Inclusion.Without(db.included, u))
  }

  /** The files that some firmware reaches. */
  ghost function Live(db: Db): set<Uid> {
    set u | u in db.entries && ReachedByFirmware(db, u)
  }

  ghost predicate ReachedByFirmware(db: Db, u: Uid) {
    exists f :: IsFirmware(db, f) && Reaches(db.included, f, u)
  }

  /** Deleting an orphan leaves every file that a firmware reaches, reached by the same firmware. */
  lemma OrphanIsNotNeeded(db: Db, o: Uid, u: Uid)
    requires WellFormed(db) && Orphan(db, o)
    ensures ReachedByFirmware(Deleted(db, o), u) <==> ReachedByFirmware(db, u)
    ensures ReachedByFirmware(db, u) ==> u != o
  {
    var db' := Deleted(db, o);
    forall f | IsFirmware(db, f)
      ensures !Reaches(db.included, f, o)
    {
      if Reaches(db.included, f, o) {
        var p := LastEdge(db.included, f, o);
      }
    }
    if ReachedByFirmware(db, u) {
      var f :| IsFirmware(db, f) && Reaches(db.included, f, u);
      var path :| Walk(db.included, path) && path[0] == f && path[|path| - 1] == u;
      ReachesAround(db.included, o, path);
      assert IsFirmware(db', f) && Reaches(db'.included, f, u);
    }
    if ReachedByFirmware(db', u) {
      var f :| IsFirmware(db', f) && Reaches(db'.included, f, u);
      ReachesMore(db'.included, db.included, f, u);
      assert IsFirmware(db, f) && Reaches(db.included, f, u);
    }
  }

  /** Without orphans, going up from parent to parent ends at a firmware. */
  lemma {:induction false} NoOrphanMeansReached(db: Db, depth: map<Uid, nat>, bound: nat, u: Uid)
    requires Acyclic(db, depth, bound) && u in db.entries
    requires forall v :: v in db.entries ==> !Orphan(db, v)
    ensures ReachedByFirmware(db, u)
    decreases depth[u]
  {
    if db.entries[u].isFirmware {
      ReachesItself(db.included, u);
      assert IsFirmware(db, u);
    } else {
      assert !Orphan(db, u);
      var e :| e in db.included && e.1 == u;
      NoOrphanMeansReached(db, depth, bound, e.0);
      var f :| IsFirmware(db, f) && Reaches(db.included, f, e.0);
      assert e == (e.0, u);
      ReachesLast(db.included, f, e.0, u);
    }
  }

  // ----- The database -----

  class Database {
    var entries: map<Uid, Entry>
    var included: Edges

    function View(): Db
      reads this
    {
      Db(entries, included)
    }

    /** `get_included_uids` */
    function IncludedUids(u: Uid): (r: set<Uid>)
      reads this
      ensures forall c :: c in r <==> (u, c) in included
    {
      set e | e in included && e.0 == u :: e.1
    }

    /**
     Visits a file and everything below it, some of it possibly many times: files that are also in
     other firmware lose their paths in `root`, the others are returned for deletion.
     */
    method RemoveVirtualPathEntries(root: Uid, fo: Uid, ghost depth: map<Uid, nat>, ghost bound: nat)
      returns (uidsToDelete: set<Uid>)
      requires Acyclic(View(), depth, bound)
      requires fo in depth && depth[fo] <= bound
      modifies this`entries
      ensures entries == Stripped(old(entries), root, Below(old(View()), fo))
      ensures uidsToDelete == OnlyInRoot(old(entries), root, Below(old(View()), fo))
      decreases bound - depth[fo]
    {
      ghost var db := View();
      if fo !in entries {
        MissingHasNothingBelow(db, fo);
        assert Stripped(entries, root, {}) == entries;
        return {};
      }
      uidsToDelete := RemoveBelow(root, fo, depth, bound);
      StrippedTwice(db.entries, root, BelowChildren(db, fo), {fo});
      SplitBelow(db, fo);
      assert HasOtherRoot(entries[fo], root) == HasOtherRoot(db.entries[fo], root) by {
        StripTwice(db.entries[fo], root);
      }
      if HasOtherRoot(entries[fo], root) {
        assert entries[fo := StripRoot(entries[fo], root)] == Stripped(entries, root, {fo});
        entries := entries[fo := entries[fo].(virtualFilePaths := entries[fo].virtualFilePaths - {root})];
      } else {
        assert entries == Stripped(entries, root, {fo});
        uidsToDelete := uidsToDelete + {fo};
      }
      assert OnlyInRoot(db.entries, root, {fo}) == if HasOtherRoot(db.entries[fo], root) then {} else {fo};
    }

    /** The loop over the files that `fo` includes. */
    method RemoveBelow(root: Uid, fo: Uid, ghost depth: map<Uid, nat>, ghost bound: nat)
      returns (uidsToDelete: set<Uid>)
      requires Acyclic(View(), depth, bound)
      requires fo in depth && depth[fo] <= bound
      modifies this`entries
      ensures entries == Stripped(old(entries), root, BelowChildren(old(View()), fo))
      ensures uidsToDelete == OnlyInRoot(old(entries), root, BelowChildren(old(View()), fo))
      decreases bound - depth[fo], 0
    {
      ghost var db := View();
      var todo := IncludedUids(fo);
      ghost var visited := {};
      uidsToDelete := {};
      assert Stripped(entries, root, {}) == entries;
      while todo != {}
        invariant todo <= IncludedUids(fo)
        invariant visited == set u | u in db.entries && ReachedFromOneOf(db, IncludedUids(fo) - todo, u)
        invariant entries == Stripped(db.entries, root, visited)
        invariant uidsToDelete == OnlyInRoot(db.entries, root, visited)
        decreases todo
      {
        var child :| child in todo;
        assert (fo, child) in included;
        SameShape(db, View());
        var more := RemoveVirtualPathEntries(root, child, depth, bound);
        StrippedTwice(db.entries, root, visited, Below(db, child));
        assert IncludedUids(fo) - (todo - {child}) == (IncludedUids(fo) - todo) + {child};
        uidsToDelete, todo := uidsToDelete + more, todo - {child};
        visited := visited + Below(db, child);
      }
      assert IncludedUids(fo) - {} == IncludedUids(fo);
    }

    /** Deletes one entry with its relations, then every entry that is left without parents. */
    method DeleteObject(uid: Uid, ghost depth: map<Uid, nat>, ghost bound: nat)
      requires Acyclic(View(), depth, bound)
      modifies this
      ensures uid !in old(entries) ==> View() == old(View())
      ensures uid in old(entries) ==> View() == Cascaded(Deleted(old(View()), uid))
    {
      if uid !in entries {
        return;
      }
      entries := entries - {uid};
      included := set e | e in included && e.0 != uid && e.1 != uid;
      DeleteFileOrphans(depth, bound);
    }

    /** The cascade: as long as there is an orphan, in any order, it is deleted with its relations. */
    method DeleteFileOrphans(ghost depth: map<Uid, nat>, ghost bound: nat)
      requires Acyclic(View(), depth, bound)
      modifies this
      ensures View() == Cascaded(old(View()))
    {
      ghost var db := View();
      AllOfIt(db);
      var orphans := set u | u in entries && Orphan(View(), u);
      while orphans != {}
        invariant Acyclic(View(), depth, bound)
        invariant orphans == set u | u in entries && Orphan(View(), u)
        invariant View() == Restricted(db, entries.Keys) && entries.Keys <= db.entries.Keys
        invariant forall u :: ReachedByFirmware(View(), u) <==> ReachedByFirmware(db, u)
        decreases |entries|
      {
        var item :| item in orphans;
        forall u
          ensures ReachedByFirmware(Deleted(View(), item), u) <==> ReachedByFirmware(View(), u)
        {
          OrphanIsNotNeeded(View(), item, u);
        }
        RestrictedFurther(db, entries.Keys, item);
        entries := entries - {item};
        included := set e | e in included && e.0 != item && e.1 != item;
        orphans := set u | u in entries && Orphan(View(), u);
      }
      assert forall v :: v in entries && Orphan(View(), v) ==> v in orphans;
      CascadeIsOver(db, View(), depth, bound);
    }

    /**
     `delete_firmware`: returns the binaries to be erased. Nothing happens if there is no such firmware.
     */
    method DeleteFirmware(uid: Uid, deleteRootFile: bool, ghost depth: map<Uid, nat>, ghost bound: nat)
      returns (uidsToDelete: set<Uid>)
      requires Acyclic(View(), depth, bound)
      modifies this
      ensures !IsFirmware(old(View()), uid) ==> View() == old(View()) && uidsToDelete == {}
      ensures IsFirmware(old(View()), uid) ==>
                && uidsToDelete == Collected(old(View()), uid) + (if deleteRootFile then {uid} else {})
                && View() == AfterDeletion(old(View()), uid)
    {
      if uid !in entries || !entries[uid].isFirmware {
        return {};
      }
      ghost var db := View();
      uidsToDelete := RemoveBelow(uid, uid, depth, bound);
      SameShape(db, View());
      DeleteObject(uid, depth, bound);
      if deleteRootFile {
        uidsToDelete := uidsToDelete + {uid};
      }
    }
  }

  /** The part of the database that has only the entries in `keep`. */
  function Restricted(db: Db, keep: set<Uid>): Db {
    Db(map u | u in db.entries && u in keep :: db.entries[u], set e | e in db.included && e.0 in keep && e.1 in keep)
  }

  /** The cascade keeps exactly what some firmware reaches. */
  ghost function Cascaded(db: Db): Db {
    Restricted(db, Live(db))
  }

  ghost predicate ReachedFromOneOf(db: Db, from: set<Uid>, u: Uid) {
    exists c :: c in from && Reaches(db.included, c, u)
  }

  function Children(db: Db, u: Uid): (r: set<Uid>)
    ensures forall c :: c in r <==> (u, c) in db.included
  {
    set e | e in db.included && e.0 == u :: e.1
  }

  ghost function BelowChildren(db: Db, u: Uid): set<Uid> {
    set d | d in db.entries && ReachedFromOneOf(db, Children(db, u), d)
  }

  /** The binaries that `delete_firmware` collects below the deleted root. */
  ghost function Collected(db: Db, root: Uid): set<Uid> {
    OnlyInRoot(db.entries, root, BelowChildren(db, root))
  }

  /** The database without `root`, before the cascade. */
  ghost function WithoutRoot(db: Db, root: Uid): Db {
    Deleted(db.(entries := Stripped(db.entries, root, BelowChildren(db, root))), root)
  }

  ghost function AfterDeletion(db: Db, root: Uid): Db {
    Cascaded(WithoutRoot(db, root))
  }

  /** When no orphan is left, what remains is what some firmware reached at the start. */
  lemma CascadeIsOver(db: Db, rest: Db, depth: map<Uid, nat>, bound: nat)
    requires Acyclic(rest, depth, bound) && rest.entries.Keys <= db.entries.Keys
    requires forall v :: v in rest.entries ==> !Orphan(rest, v)
    requires forall u :: ReachedByFirmware(rest, u) <==> ReachedByFirmware(db, u)
    ensures rest.entries.Keys == Live(db)
  {
    forall u | u in db.entries
      ensures u in rest.entries <==> ReachedByFirmware(db, u)
    {
      if u in rest.entries {
        NoOrphanMeansReached(rest, depth, bound, u);
      } else if ReachedByFirmware(rest, u) {
        OnlyEntriesAreReached(rest, u);
      }
    }
  }

  lemma SameShape(db: Db, other: Db)
    requires db.included == other.included && db.entries.Keys == other.entries.Keys
    ensures forall u :: Below(db, u) == Below(other, u) && BelowChildren(db, u) == BelowChildren(other, u)
    ensures WellFormed(db) == WellFormed(other)
  {
  }

  lemma AllOfIt(db: Db)
    requires WellFormed(db)
    ensures Restricted(db, db.entries.Keys) == db
  {
    assert Restricted(db, db.entries.Keys).entries == db.entries;
  }

  lemma RestrictedFurther(db: Db, keep: set<Uid>, u: Uid)
    ensures Deleted(Restricted(db, keep), u) == Restricted(db, keep - {u})
  {
    assert Deleted(Restricted(db, keep), u).entries == Restricted(db, keep - {u}).entries;
  }

  lemma OnlyEntriesAreReached(db: Db, u: Uid)
    requires WellFormed(db) && ReachedByFirmware(db, u)
    ensures u in db.entries
  {
    var f :| IsFirmware(db, f) && Reaches(db.included, f, u);
    if f != u {
      var p := LastEdge(db.included, f, u);
    }
  }

  lemma MissingHasNothingBelow(db: Db, u: Uid)
    requires WellFormed(db) && u !in db.entries
    ensures Below(db, u) == {}
  {
    forall d | d in db.entries
      ensures !Reaches(db.included, u, d)
    {
      if Reaches(db.included, u, d) {
        var c := FirstEdge(db.included, u, d);
      }
    }
  }

  /** What is below a file is the file itself and what is below its children. */
  lemma SplitBelow(db: Db, u: Uid)
    requires u in db.entries
    ensures Below(db, u) == BelowChildren(db, u) + {u}
  {
    ReachesItself(db.included, u);
    forall d | d in Below(db, u) && d != u
      ensures d in BelowChildren(db, u)
    {
      var c := FirstEdge(db.included, u, d);
      assert c in Children(db, u);
    }
    forall d | d in BelowChildren(db, u)
      ensures d in Below(db, u)
    {
      var c :| c in Children(db, u) && Reaches(db.included, c, d);
      ReachesFirst(db.included, u, c, d);
    }
  }
}
