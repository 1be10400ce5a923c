/**
 The lock that keeps extracted files on disk until they are in the database
 (src/storage/unpacking_locks.py, src/intercom/back_end_binding.py).

 Extraction, database and file deletion run in different processes; each lock operation, each file
 operation, each database transaction and each check of the file deletion is one step.
 */
module UnpackingLocks {
  import opened Basics

  class UnpackingLockManager {
    var unpackingLocks: map<Uid, int>

    constructor ()
      ensures unpackingLocks == map[]
    {
      unpackingLocks := map[];
    }

    method SetUnpackingLock(uid: Uid)
      modifies this
      ensures unpackingLocks.Keys == old(unpackingLocks).Keys + {uid}
    {
      unpackingLocks := unpackingLocks[uid := 1];
    }

    predicate UnpackingLockIsSet(uid: Uid)
      reads this
    {
      uid in unpackingLocks
    }

    /** Releasing a lock that is not set does nothing. */
    method ReleaseUnpackingLock(uid: Uid)
      modifies this
      ensures unpackingLocks.Keys == old(unpackingLocks).Keys - {uid}
    {
      if uid in unpackingLocks {
        unpackingLocks := unpackingLocks - {uid};
      }
    }
  }

  /** The files in the storage directory. */
  class FSOrganizer {
    var files: set<Uid>

    method StoreFile(uid: Uid)
      modifies this
      ensures files == old(files) + {uid}
    {
      files := files + {uid};
    }

    method DeleteFile(uid: Uid)
      modifies this
      ensures files == old(files) - {uid}
    {
      files := files - {uid};
    }
  }

  class InterComBackEndDeleteFile {
    const fsOrganizer: FSOrganizer
    const unpackingLocks: UnpackingLockManager

    constructor (fs: FSOrganizer, locks: UnpackingLockManager)
      ensures fsOrganizer == fs && unpackingLocks == locks
    {
      fsOrganizer, unpackingLocks := fs, locks;
    }

    /** `db` holds the entries that exist. */
    predicate EntryWasRemovedFromDb(db: set<Uid>, uid: Uid)
      reads unpackingLocks
    {
      uid !in db && !unpackingLocks.UnpackingLockIsSet(uid)
    }

    /** Deletes the files of a task that are neither in the database nor being unpacked. */
    method PostProcessing(task: seq<Uid>, db: set<Uid>)
      modifies fsOrganizer
      ensures fsOrganizer.files
           == AfterTask(old(fsOrganizer.files), db, unpackingLocks.unpackingLocks.Keys, task)
    {
      var rest := task;
      while rest != []
        invariant AfterTask(fsOrganizer.files, db, unpackingLocks.unpackingLocks.Keys, rest)
               == AfterTask(old(fsOrganizer.files), db, unpackingLocks.unpackingLocks.Keys, task)
        decreases rest
      {
        if EntryWasRemovedFromDb(db, rest[0]) {
          fsOrganizer.DeleteFile(rest[0]);
        }
        rest := rest[1..];
      }
    }
  }

  // ----- The protocol -----

  /** `Locked`: the lock is set; `Stored`: the file is written; `Inserted`: the entry exists, the lock is still set. */
  datatype Stage = Locked | Stored | Inserted | InAnalysis

  datatype Object = Object(uid: Uid, stage: Stage)

  datatype State = State(disk: set<Uid>, locked: set<Uid>, db: set<Uid>, tasks: seq<Uid>, objects: seq<Object>)

  /** Objects and tasks are addressed by their positions, so any of them can be next. */
  datatype Step =
    | SetLock(uid: Uid)
    | Store(i: nat)
    | Insert(i: nat)
    | Release(i: nat)
    | Drop(i: nat)
    | DeleteEntry(uid: Uid)
    | RequestDeletion(uid: Uid)
    | RunDeletion(i: nat)

  /**
   Each analysis round of an object begins with `add_object`, which inserts the entry again if it is
   gone, and a release of the lock.
   */
  predicate Enabled(s: State, step: Step) {
    match step
    case Store(i) => i < |s.objects| && s.objects[i].stage == Locked
    case Insert(i) => i < |s.objects| && s.objects[i].stage != Locked
    case Release(i) => i < |s.objects| && (s.objects[i].stage == Inserted || s.objects[i].stage == InAnalysis)
    case Drop(i) => i < |s.objects|
    case RunDeletion(i) => i < |s.tasks|
    case _ => true
  }

  function Moved(s: State, i: nat, stage: Stage): State
    requires i < |s.objects|
  {
    s.(objects := s.objects[i := Object(s.objects[i].uid, stage)])
  }

  function Deletes(s: State, uid: Uid): set<Uid> {
    if uid !in s.db && uid !in s.locked then {uid} else {}
  }

  function After(s: State, step: Step): State
    requires Enabled(s, step)
  {
    match step
    case SetLock(u) => s.(locked := s.locked + {u}, objects := s.objects + [Object(u, Locked)])
    case Store(i) => Moved(s, i, Stored).(disk := s.disk + {s.objects[i].uid})
    case Insert(i) =>
      Moved(s, i, if s.objects[i].stage == InAnalysis then InAnalysis else Inserted).(db := s.db + {s.objects[i].uid})
    case Release(i) => Moved(s, i, InAnalysis).(locked := s.locked - {s.objects[i].uid})
    case Drop(i) => s.(objects := s.objects[..i] + s.objects[i + 1..])
    case DeleteEntry(u) => s.(db := s.db - {u})
    case RequestDeletion(u) => s.(tasks := s.tasks + [u])
    case RunDeletion(i) => s.(tasks := s.tasks[..i] + s.tasks[i + 1..], disk := s.disk - Deletes(s, s.tasks[i]))
  }

  predicate IsRun(s: State, steps: seq<Step>)
    decreases |steps|
  {
    steps != [] ==> Enabled(s, steps[0]) && IsRun(After(s, steps[0]), steps[1..])
  }

  function EndOf(s: State, steps: seq<Step>): State
    requires IsRun(s, steps)
    decreases |steps|
  {
    if steps == [] then s else EndOf(After(s, steps[0]), steps[1..])
  }

  // ----- What the protocol is for -----

  predicate IsGuarded(o: Object) {
    o.stage != InAnalysis
  }

  /** A file that is in the database, or extracted and locked, is on disk. */
  predicate Safe(s: State, u: Uid) {
    && (u in s.db ==> u in s.disk)
    && forall i :: 0 <= i < |s.objects| && s.objects[i].uid == u && s.objects[i].stage in {Stored, Inserted} && u in s.locked
         ==> u in s.disk
  }

  predicate Inv(s: State, u: Uid) {
    && (u in s.db ==> u in s.disk)
    && forall i :: 0 <= i < |s.objects| && s.objects[i].uid == u && IsGuarded(s.objects[i])
         ==> u in s.locked && (s.objects[i].stage != Locked ==> u in s.disk)
  }

  /** The step leaves no other object without the lock it relies on, and inserts no entry without a file. */
  predicate Harmless(s: State, step: Step, u: Uid)
    requires Enabled(s, step)
  {
    match step
    case Release(i) =>
      s.objects[i].uid == u ==>
        forall j :: 0 <= j < |s.objects| && j != i && s.objects[j].uid == u ==> !IsGuarded(s.objects[j])
    case Insert(i) => s.objects[i].uid == u ==> u in s.disk
    case _ => true
  }

  /** These are exactly the steps that keep the invariant. */
  lemma StepKeepsInvIff(s: State, step: Step, u: Uid)
    requires Inv(s, u) && Enabled(s, step)
    ensures Inv(After(s, step), u) <==> Harmless(s, step, u)
  {
    var s' := After(s, step);
    match step
    case Release(i) =>
      if s.objects[i].uid == u && !Harmless(s, step, u) {
        var j :| 0 <= j < |s.objects| && j != i && s.objects[j].uid == u && IsGuarded(s.objects[j]);
        assert s'.objects[j] == s.objects[j];
      }
    case Drop(i) =>
      forall j | 0 <= j < |s'.objects|
        ensures s'.objects[j] == s.objects[if j < i then j else j + 1]
      {
      }
    case _ =>
  }

  /**
   What the processes can see before a step: no other object of the file still relies on the lock that
   is released, and an analysis round finds the entry it updates.
   */
  predicate Careful(s: State, step: Step, u: Uid)
    requires Enabled(s, step)
  {
    match step
    case Release(i) =>
      s.objects[i].uid == u ==>
        forall j :: 0 <= j < |s.objects| && j != i && s.objects[j].uid == u ==> !IsGuarded(s.objects[j])
    case Insert(i) => s.objects[i] == Object(u, InAnalysis) ==> u in s.db
    case _ => true
  }

  predicate IsCarefulRun(s: State, steps: seq<Step>, u: Uid)
    requires IsRun(s, steps)
    decreases |steps|
  {
    steps != [] ==> Careful(s, steps[0], u) && IsCarefulRun(After(s, steps[0]), steps[1..], u)
  }

  lemma {:induction false} CarefulRunIsSafe(s: State, steps: seq<Step>, u: Uid)
    requires Inv(s, u) && IsRun(s, steps) && IsCarefulRun(s, steps, u)
    ensures Inv(EndOf(s, steps), u) && Safe(EndOf(s, steps), u)
    decreases |steps|
  {
    if steps != [] {
      assert Harmless(s, steps[0], u);
      StepKeepsInvIff(s, steps[0], u);
      CarefulRunIsSafe(After(s, steps[0]), steps[1..], u);
    }
  }

  // ----- Kinds of runs -----

  predicate AtMostOne(s: State, u: Uid) {
    forall i, j :: 0 <= i < |s.objects| && 0 <= j < |s.objects| && s.objects[i].uid == u == s.objects[j].uid ==> i == j
  }

  /** The file is extracted only while no other object for it is on its way. */
  predicate OneAtATime(s: State, steps: seq<Step>, u: Uid)
    requires IsRun(s, steps)
    decreases |steps|
  {
    AtMostOne(s, u) && (steps != [] ==> OneAtATime(After(s, steps[0]), steps[1..], u))
  }

  predicate Reinserts(s: State, step: Step, u: Uid)
    requires Enabled(s, step)
  {
    step.Insert? && s.objects[step.i] == Object(u, InAnalysis) && u !in s.db
  }

  /** An entry that was deleted is not inserted again by a later analysis round. */
  predicate NoReinsertion(s: State, steps: seq<Step>, u: Uid)
    requires IsRun(s, steps)
    decreases |steps|
  {
    steps != [] ==> !Reinserts(s, steps[0], u) && NoReinsertion(After(s, steps[0]), steps[1..], u)
  }

  // ----- The states from which a needed file is never lost -----

  ghost predicate StaysSafe(s: State, u: Uid) {
    forall steps :: IsRun(s, steps) && IsCarefulRun(s, steps, u) ==> Safe(EndOf(s, steps), u)
  }

  /** A step in front of a run. */
  lemma Prepend(s: State, step: Step, more: seq<Step>, u: Uid) returns (steps: seq<Step>)
    requires Enabled(s, step) && IsRun(After(s, step), more)
    ensures IsRun(s, steps) && EndOf(s, steps) == EndOf(After(s, step), more)
    ensures IsCarefulRun(s, steps, u) <==> Careful(s, step, u) && IsCarefulRun(After(s, step), more, u)
    ensures OneAtATime(s, steps, u) <==> AtMostOne(s, u) && OneAtATime(After(s, step), more, u)
    ensures NoReinsertion(s, steps, u) <==> !Reinserts(s, step, u) && NoReinsertion(After(s, step), more, u)
  {
    steps := [step] + more;
    assert steps[1..] == more;
  }

  /** An object that was extracted but not inserted, and whose file is gone, becomes an entry without a file. */
  lemma InsertLoses(s: State, i: nat, u: Uid) returns (steps: seq<Step>)
    requires i < |s.objects| && s.objects[i].uid == u && u !in s.disk
    requires s.objects[i].stage == Stored || s.objects[i].stage == Inserted
    ensures IsRun(s, steps) && IsCarefulRun(s, steps, u) && !Safe(EndOf(s, steps), u)
  {
    steps := Prepend(s, Insert(i), [], u);
  }

  /** A file without entry and lock is deleted by the next task that names it. */
  lemma DeletionLoses(s: State, u: Uid, i: nat) returns (steps: seq<Step>)
    requires u !in s.locked && i < |s.objects| && s.objects[i].uid == u
    requires s.objects[i].stage == Stored || s.objects[i].stage == Inserted
    ensures IsRun(s, steps) && IsCarefulRun(s, steps, u) && !Safe(EndOf(s, steps), u)
  {
    var a := After(s, DeleteEntry(u));
    var b := After(a, RequestDeletion(u));
    var last := RunDeletion(|s.tasks|);
    steps := InsertLoses(After(b, last), i, u);
    steps := Prepend(b, last, steps, u);
    steps := Prepend(a, RequestDeletion(u), steps, u);
    steps := Prepend(s, DeleteEntry(u), steps, u);
  }

  /** An object that lost its lock can lose its file. */
  lemma UnlockedLoses(s: State, u: Uid, i: nat) returns (steps: seq<Step>)
    requires u !in s.locked && i < |s.objects| && s.objects[i].uid == u && IsGuarded(s.objects[i])
    ensures IsRun(s, steps) && IsCarefulRun(s, steps, u) && !Safe(EndOf(s, steps), u)
  {
    if s.objects[i].stage == Locked {
      steps := DeletionLoses(After(s, Store(i)), u, i);
      steps := Prepend(s, Store(i), steps, u);
    } else {
      steps := DeletionLoses(s, u, i);
    }
  }

  /**
   The invariant is exactly what makes a file safe for good: from a state that satisfies it, every
   careful run keeps the file as long as it is needed; from any other state, some careful run loses it.
   */
  lemma StaysSafeIff(s: State, u: Uid)
    ensures StaysSafe(s, u) <==> Inv(s, u)
  {
    if Inv(s, u) {
      forall steps | IsRun(s, steps) && IsCarefulRun(s, steps, u)
        ensures Safe(EndOf(s, steps), u)
      {
        CarefulRunIsSafe(s, steps, u);
      }
    } else {
      var steps: seq<Step> := [];
      if u !in s.db || u in s.disk {
        var i :| 0 <= i < |s.objects| && s.objects[i].uid == u && IsGuarded(s.objects[i])
          && !(u in s.locked && (s.objects[i].stage != Locked ==> u in s.disk));
        if u !in s.locked {
          steps := UnlockedLoses(s, u, i);
        } else {
          steps := InsertLoses(s, i, u);
        }
      }
      assert IsRun(s, steps) && IsCarefulRun(s, steps, u);
    }
  }

  /** So a step leaves a file safe for good exactly if it is harmless. */
  lemma StepStaysSafeIff(s: State, step: Step, u: Uid)
    requires StaysSafe(s, u) && Enabled(s, step)
    ensures StaysSafe(After(s, step), u) <==> Harmless(s, step, u)
  {
    StaysSafeIff(s, u);
    StaysSafeIff(After(s, step), u);
    StepKeepsInvIff(s, step, u);
  }

  // ----- One object per file -----

  /** With one object per file at a time, and without reinsertion, a run is careful. */
  lemma {:induction false} OneObjectIsCareful(s: State, steps: seq<Step>, u: Uid)
    requires IsRun(s, steps) && OneAtATime(s, steps, u) && NoReinsertion(s, steps, u)
    ensures IsCarefulRun(s, steps, u)
    decreases |steps|
  {
    if steps != [] {
      OneObjectIsCareful(After(s, steps[0]), steps[1..], u);
    }
  }

  /** So files that are needed stay on disk. */
  lemma OneObjectIsSafe(s: State, steps: seq<Step>, u: Uid)
    requires Inv(s, u) && IsRun(s, steps) && OneAtATime(s, steps, u) && NoReinsertion(s, steps, u)
    ensures Safe(EndOf(s, steps), u)
  {
    OneObjectIsCareful(s, steps, u);
    CarefulRunIsSafe(s, steps, u);
  }

  // ----- Runs that lose a file -----

  const START := State({}, {}, {}, [], [])

  /** One object was extracted and is in analysis. */
  function Analysed(u: Uid): State {
    State({u}, {}, {u}, [], [Object(u, InAnalysis)])
  }

  /** The way there, in front of a run. */
  lemma AfterExtraction(u: Uid, more: seq<Step>) returns (steps: seq<Step>)
    requires IsRun(Analysed(u), more)
    ensures IsRun(START, steps) && EndOf(START, steps) == EndOf(Analysed(u), more)
    ensures OneAtATime(Analysed(u), more, u) ==> OneAtATime(START, steps, u)
    ensures NoReinsertion(Analysed(u), more, u) ==> NoReinsertion(START, steps, u)
  {
    var a := After(START, SetLock(u));
    assert a == State({}, {u}, {}, [], [Object(u, Locked)]);
    var b := After(a, Store(0));
    assert b == State({u}, {u}, {}, [], [Object(u, Stored)]);
    var c := After(b, Insert(0));
    assert c == State({u}, {u}, {u}, [], [Object(u, Inserted)]);
    assert After(c, Release(0)) == Analysed(u);
    steps := Prepend(c, Release(0), more, u);
    steps := Prepend(b, Insert(0), steps, u);
    steps := Prepend(a, Store(0), steps, u);
    steps := Prepend(START, SetLock(u), steps, u);
  }

  /**
   While one object of a file is in analysis, the same file is extracted again: the next round of the
   first object removes the lock of the second, whose file is then deleted before its entry is inserted.
   */
  lemma LockOfAnotherObject(u: Uid) returns (steps: seq<Step>)
    ensures IsRun(START, steps) && NoReinsertion(START, steps, u) && !Safe(EndOf(START, steps), u)
  {
    var s := Analysed(u);
    var t := After(s, SetLock(u));
    var v := After(t, Store(1));
    var w := After(v, Release(0));
    assert w == State({u}, {}, {u}, [], [Object(u, InAnalysis), Object(u, Stored)]);
    steps := DeletedThenInserted(w, 1, u);
    steps := Prepend(v, Release(0), steps, u);
    steps := Prepend(t, Store(1), steps, u);
    steps := Prepend(s, SetLock(u), steps, u);
    steps := AfterExtraction(u, steps);
  }

  /** An object that is still in analysis when its entry and its file are deleted inserts the entry again. */
  lemma EntryWithoutFile(u: Uid) returns (steps: seq<Step>)
    ensures IsRun(START, steps) && OneAtATime(START, steps, u) && !Safe(EndOf(START, steps), u)
  {
    steps := DeletedThenInserted(Analysed(u), 0, u);
    steps := AfterExtraction(u, steps);
  }

  /** An unlocked file is deleted with its entry, and then an object of it inserts the entry. */
  lemma DeletedThenInserted(s: State, i: nat, u: Uid) returns (steps: seq<Step>)
    requires s.tasks == [] && s.locked == {} && i < |s.objects| && s.objects[i].uid == u && s.objects[i].stage != Locked
    ensures IsRun(s, steps) && !Safe(EndOf(s, steps), u)
    ensures s.objects[i].stage == Stored ==> NoReinsertion(s, steps, u)
    ensures AtMostOne(s, u) ==> OneAtATime(s, steps, u)
  {
    var x := After(s, DeleteEntry(u));
    var y := After(x, RequestDeletion(u));
    var z := After(y, RunDeletion(0));
    assert y.tasks == [u] && u !in z.disk;
    steps := Prepend(z, Insert(i), [], u);
    steps := Prepend(y, RunDeletion(0), steps, u);
    steps := Prepend(x, RequestDeletion(u), steps, u);
    steps := Prepend(s, DeleteEntry(u), steps, u);
  }

  // ----- A deletion task as a sequence of steps -----

  function AfterTask(disk: set<Uid>, db: set<Uid>, locked: set<Uid>, task: seq<Uid>): set<Uid>
    decreases task
  {
    if task == [] then disk
    else AfterTask(if task[0] !in db && task[0] !in locked then disk - {task[0]} else disk, db, locked, task[1..])
  }

  /** Exactly the files of the task that nothing needs are gone. */
  lemma {:induction false} TaskDeletes(disk: set<Uid>, db: set<Uid>, locked: set<Uid>, task: seq<Uid>)
    ensures forall u :: u in AfterTask(disk, db, locked, task) <==>
              u in disk && (u in task ==> u in db || u in locked)
    decreases task
  {
    if task != [] {
      TaskDeletes(if task[0] !in db && task[0] !in locked then disk - {task[0]} else disk, db, locked, task[1..]);
      assert task == [task[0]] + task[1..];
    }
  }
}
