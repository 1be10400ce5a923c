/**
 Turning the files an extractor wrote into child objects (src/unpacker/unpack.py, src/objects/file.py).
 */
module Unpacker {
  import opened Basics
  import opened AnalysisRun
  import Locks = UnpackingLocks

  /** A file below the extraction directory; `path` is its virtual path in the firmware. */
  datatype Extracted = Extracted(uid: Uid, path: string, empty: bool)

  /** An extracted file that is not in the object list yet gets an entry; a repeated one adds a path. */
  datatype Found = Found(uid: Uid, paths: seq<string>)

  function PathsOf(items: seq<Extracted>, uid: Uid): seq<string> {
    if items == [] then []
    else
      var last := |items| - 1;
      PathsOf(items[..last], uid) + (if items[last].uid == uid && !items[last].empty then [items[last].path] else [])
  }

  ghost predicate HasFile(items: seq<Extracted>, uid: Uid) {
    exists i :: 0 <= i < |items| && items[i].uid == uid && !items[i].empty
  }

  function Uids(objects: seq<FileObject>): seq<Uid> {
    seq(|objects|, i requires 0 <= i < |objects| => objects[i].uid)
  }

  /** `add_included_file`: what a child takes over from the file it was found in. */
  function ChildOf(parent: FileObject, uid: Uid): FileObject {
    FileObject(uid, parent.root, false, parent.depth + 1, {}, parent.scheduled, map[], None, [])
  }

  /** The children of `parent`: distinct files other than itself, none at the depth limit. */
  ghost predicate IsExtraction(maxDepth: nat, parent: FileObject, children: seq<FileObject>) {
    && NoDup(Uids(children)) && parent.uid !in Uids(children)
    && (forall i :: 0 <= i < |children| ==> children[i] == ChildOf(parent, children[i].uid))
    && (parent.depth >= maxDepth ==> children == [])
  }

  lemma PathsOfNewFile(items: seq<Extracted>, uid: Uid)
    ensures HasFile(items, uid) <==> PathsOf(items, uid) != []
  {
    if items != [] {
      var last := |items| - 1;
      PathsOfNewFile(items[..last], uid);
      if HasFile(items[..last], uid) {
        var i :| 0 <= i < last && items[..last][i].uid == uid && !items[..last][i].empty;
        assert items[i] == items[..last][i];
      }
      if HasFile(items, uid) && !(items[last].uid == uid && !items[last].empty) {
        var i :| 0 <= i < |items| && items[i].uid == uid && !items[i].empty;
        assert items[..last][i] == items[i];
      }
    }
  }

  /** File number `i` is a non-empty one with this identifier. */
  predicate IsHit(items: seq<Extracted>, uid: Uid, i: nat) {
    i < |items| && items[i].uid == uid && !items[i].empty
  }

  /** All such files among the first `n`, in order. */
  function Hits(items: seq<Extracted>, uid: Uid, n: nat): seq<nat> {
    if n == 0 then [] else Hits(items, uid, n - 1) + (if IsHit(items, uid, n - 1) then [n - 1] else [])
  }

  lemma {:induction false} HitsAre(items: seq<Extracted>, uid: Uid, n: nat)
    ensures forall i: nat :: i in Hits(items, uid, n) <==> i < n && IsHit(items, uid, i)
    ensures forall j, k :: 0 <= j < k < |Hits(items, uid, n)| ==> Hits(items, uid, n)[j] < Hits(items, uid, n)[k]
  {
    if n > 0 {
      HitsAre(items, uid, n - 1);
      var before := Hits(items, uid, n - 1);
      assert forall k :: 0 <= k < |before| ==> before[k] in before;
    }
  }

  function PathsAt(items: seq<Extracted>, at: seq<nat>): seq<string> {
    seq(|at|, k requires 0 <= k < |at| => if at[k] < |items| then items[at[k]].path else "")
  }

  lemma PathsAtSnoc(items: seq<Extracted>, at: seq<nat>, n: nat)
    requires n < |items|
    ensures PathsAt(items, at + [n]) == PathsAt(items, at) + [items[n].path]
  {
  }

  lemma NextPaths(items: seq<Extracted>, uid: Uid, n: nat)
    requires n < |items|
    ensures PathsOf(items[..n + 1], uid)
         == if IsHit(items, uid, n) then PathsOf(items[..n], uid) + [items[n].path] else PathsOf(items[..n], uid)
  {
    assert items[..n + 1][..n] == items[..n];
  }

  lemma {:induction false} FirstPaths(items: seq<Extracted>, uid: Uid, n: nat)
    requires n <= |items|
    ensures PathsOf(items[..n], uid) == PathsAt(items, Hits(items, uid, n))
    decreases n
  {
    if n > 0 {
      FirstPaths(items, uid, n - 1);
      NextPaths(items, uid, n - 1);
      if IsHit(items, uid, n - 1) {
        PathsAtSnoc(items, Hits(items, uid, n - 1), n - 1);
      }
    }
  }

  /** The paths are those of all such files, each once and in order. */
  lemma PathsInOrder(items: seq<Extracted>, uid: Uid) returns (at: seq<nat>)
    ensures forall i: nat :: i in at <==> IsHit(items, uid, i)
    ensures forall j, k :: 0 <= j < k < |at| ==> at[j] < at[k]
    ensures PathsOf(items, uid) == PathsAt(items, at)
  {
    at := Hits(items, uid, |items|);
    HitsAre(items, uid, |items|);
    FirstPaths(items, uid, |items|);
    assert items[..|items|] == items;
  }

  /** The dictionary after some of the files. */
  ghost predicate HoldsPaths(files: map<Uid, seq<string>>, items: seq<Extracted>) {
    && (forall uid :: uid in files <==> PathsOf(items, uid) != [])
    && (forall uid :: uid in files ==> files[uid] == PathsOf(items, uid))
  }

  function Listed(files: map<Uid, seq<string>>, item: Extracted): map<Uid, seq<string>> {
    if item.empty then files else files[item.uid := (if item.uid in files then files[item.uid] else []) + [item.path]]
  }

  lemma OneMoreFile(files: map<Uid, seq<string>>, items: seq<Extracted>, i: nat)
    requires i < |items| && HoldsPaths(files, items[..i])
    ensures HoldsPaths(Listed(files, items[i]), items[..i + 1])
  {
    var files' := Listed(files, items[i]);
    forall uid
      ensures uid in files' <==> PathsOf(items[..i + 1], uid) != []
      ensures uid in files' ==> files'[uid] == PathsOf(items[..i + 1], uid)
    {
      NextPaths(items, uid, i);
    }
  }

  /**
   The loop that fills the dictionary of extracted files: one entry per distinct non-empty file, in
   the order of first appearance, with all its paths in order. Each of them is locked and stored.
   */
  method GenerateAndStoreFileObjects(items: seq<Extracted>, locks: Locks.UnpackingLockManager, storage: Locks.FSOrganizer)
    returns (files: map<Uid, seq<string>>, order: seq<Uid>)
    modifies locks, storage
    ensures locks.unpackingLocks.Keys == old(locks.unpackingLocks.Keys) + files.Keys
    ensures storage.files == old(storage.files) + files.Keys
    ensures NoDup(order) && ToSet(order) == files.Keys
    ensures forall uid :: uid in files <==> HasFile(items, uid)
    ensures forall uid :: uid in files ==> files[uid] == PathsOf(items, uid)
  {
    files, order := map[], [];
    for i := 0 to |items|
      invariant NoDup(order) && ToSet(order) == files.Keys
      invariant HoldsPaths(files, items[..i])
      invariant locks.unpackingLocks.Keys == old(locks.unpackingLocks.Keys) + files.Keys
      invariant storage.files == old(storage.files) + files.Keys
    {
      files, order := GenerateNext(items, i, files, order, locks, storage);
    }
    assert items[..|items|] == items;
    HoldsFiles(files, items);
  }

  lemma HoldsFiles(files: map<Uid, seq<string>>, items: seq<Extracted>)
    requires HoldsPaths(files, items)
    ensures forall uid :: uid in files <==> HasFile(items, uid)
  {
    forall uid
      ensures uid in files <==> HasFile(items, uid)
    {
      PathsOfNewFile(items, uid);
    }
  }

  function NewFile(item: Extracted, files: map<Uid, seq<string>>): set<Uid> {
    if item.empty || item.uid in files then {} else {item.uid}
  }

  /** One iteration: the dictionary holds the paths of one more file. */
  method GenerateNext(items: seq<Extracted>, i: nat, files: map<Uid, seq<string>>, order: seq<Uid>,
                      locks: Locks.UnpackingLockManager, storage: Locks.FSOrganizer)
    returns (files': map<Uid, seq<string>>, order': seq<Uid>)
    requires i < |items| && HoldsPaths(files, items[..i]) && NoDup(order) && ToSet(order) == files.Keys
    modifies locks, storage
    ensures HoldsPaths(files', items[..i + 1]) && NoDup(order') && ToSet(order') == files'.Keys && files.Keys <= files'.Keys
    ensures locks.unpackingLocks.Keys == old(locks.unpackingLocks.Keys) + (files'.Keys - files.Keys)
    ensures storage.files == old(storage.files) + (files'.Keys - files.Keys)
  {
    OneMoreFile(files, items, i);
    files', order' := GenerateAndStore(items[i], files, order, locks, storage);
    assert files'.Keys - files.Keys == NewFile(items[i], files);
  }

  /** One extracted file: a new one is locked, stored and listed, a repeated one adds its path. */
  method GenerateAndStore(item: Extracted, files: map<Uid, seq<string>>, order: seq<Uid>,
                          locks: Locks.UnpackingLockManager, storage: Locks.FSOrganizer)
    returns (files': map<Uid, seq<string>>, order': seq<Uid>)
    requires NoDup(order) && ToSet(order) == files.Keys
    modifies locks, storage
    ensures files' == Listed(files, item)
    ensures NoDup(order') && ToSet(order') == files'.Keys && order <= order'
    ensures files'.Keys == files.Keys + NewFile(item, files)
    ensures locks.unpackingLocks.Keys == old(locks.unpackingLocks.Keys) + NewFile(item, files)
    ensures storage.files == old(storage.files) + NewFile(item, files)
  {
    files', order' := files, order;
    if item.empty {
      return;
    }
    if item.uid in files {
      files' := files[item.uid := files[item.uid] + [item.path]];
    } else {
      AppendNew(order, item.uid);
      assert [] + [item.path] == [item.path];
      locks.SetUnpackingLock(item.uid);
      storage.StoreFile(item.uid);
      files', order' := files[item.uid := [item.path]], order + [item.uid];
    }
  }

  /** `remove_duplicates`: a file that reappears in its own extraction is dropped. */
  method RemoveDuplicates(order: seq<Uid>, parent: Uid) returns (r: seq<Uid>)
    requires NoDup(order)
    ensures NoDup(r) && ToSet(r) == ToSet(order) - {parent}
  {
    if parent in order {
      RemoveFirstFromNoDup(order, parent);
      r := RemoveFirst(order, parent);
    } else {
      r := order;
    }
  }

  /** The children are added to the object they were found in, one after the other. */
  method AddIncludedFiles(fo: FileObject, uids: seq<Uid>) returns (fo': FileObject, children: seq<FileObject>)
    ensures Uids(children) == uids && forall i :: 0 <= i < |uids| ==> children[i] == ChildOf(fo, uids[i])
    ensures fo' == fo.(included := fo.included + ToSet(uids))
  {
    fo', children := fo, [];
    assert fo.included + ToSet(uids[..0]) == fo.included;
    for i := 0 to |uids|
      invariant |children| == i && forall j :: 0 <= j < i ==> children[j] == ChildOf(fo, uids[j])
      invariant fo' == fo.(included := fo.included + ToSet(uids[..i]))
    {
      children := children + [ChildOf(fo, uids[i])];
      fo' := fo'.(included := fo'.included + {uids[i]});
      assert ToSet(uids[..i + 1]) == ToSet(uids[..i]) + {uids[i]};
    }
    assert uids[..|uids|] == uids;
  }

  /**
   `unpack`: nothing is extracted at the depth limit or when the extractor fails (`None`);
   otherwise there is one child per distinct non-empty file, which the object then includes.
   */
  method Unpack(maxDepth: nat, fo: FileObject, extraction: Option<seq<Extracted>>,
                locks: Locks.UnpackingLockManager, storage: Locks.FSOrganizer)
    returns (fo': FileObject, children: seq<FileObject>)
    modifies locks, storage
    ensures forall c :: c in Uids(children) ==> c in locks.unpackingLocks && c in storage.files
    ensures locks.unpackingLocks.Keys - old(locks.unpackingLocks.Keys) <= ToSet(Uids(children)) + {fo.uid}
    ensures storage.files - old(storage.files) <= ToSet(Uids(children)) + {fo.uid}
    ensures old(locks.unpackingLocks.Keys) <= locks.unpackingLocks.Keys && old(storage.files) <= storage.files
    ensures IsExtraction(maxDepth, fo, children)
    ensures fo' == fo.(included := fo.included + ToSet(Uids(children)))
    ensures fo.depth < maxDepth && extraction.Some? ==>
              forall uid :: uid in Uids(children) <==> uid != fo.uid && HasFile(extraction.value, uid)
    ensures extraction.None? ==> children == []
  {
    fo', children := fo, [];
    if fo.depth >= maxDepth || extraction.None? {
      assert fo.included + ToSet(Uids([])) == fo.included;
      return;
    }
    var files, order := GenerateAndStoreFileObjects(extraction.value, locks, storage);
    var uids := RemoveDuplicates(order, fo.uid);
    fo', children := AddIncludedFiles(fo, uids);
    assert forall uid :: uid in uids <==> uid in ToSet(uids);
  }
}
