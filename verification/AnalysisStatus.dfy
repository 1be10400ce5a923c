/**
 The progress table of running analyses (src/scheduler/analysis_status.py).

 The class `AnalysisStatus` keeps lists and counters exactly as the source does and changes them
 under a lock, so each of its methods is one atomic step. `Progress` is the same entry with the
 two lists read as sets; `AddTo` and `RemoveFrom` say what one report does to the whole table.
 */
module Status {
  import opened Basics

  /** What the status table reads of a firmware or file object. */
  datatype Report = Report(uid: Uid, isFirmware: bool, parentFirmware: set<Uid>, included: set<Uid>)

  datatype Progress = Progress(
    toUnpack: set<Uid>,
    toAnalyze: set<Uid>,
    unpacked: nat,
    analyzed: nat,
    total: nat)

  /** `finished` maps a firmware to the total number of files reported when it finished. */
  datatype Table = Table(running: map<Uid, Progress>, finished: map<Uid, nat>)

  // ----- What one report does to one entry -----

  function Started(root: Uid, included: set<Uid>): Progress {
    Progress(included, {root}, 1, 0, 1 + |included|)
  }

  function WithFile(p: Progress, uid: Uid, included: set<Uid>): Progress {
    var found := included - (p.toUnpack + p.toAnalyze);
    var pending := p.toUnpack + found;
    if uid in pending then
      Progress(pending - {uid}, p.toAnalyze + {uid}, p.unpacked + 1, p.analyzed, p.total + |found|)
    else
      p.(toUnpack := pending, total := p.total + |found|)
  }

  function WithoutFile(p: Progress, uid: Uid): Progress {
    if uid in p.toAnalyze then p.(toAnalyze := p.toAnalyze - {uid}, analyzed := p.analyzed + 1) else p
  }

  function UpdateStarted(root: Uid, included: set<Uid>): Progress {
    Progress({}, {root} + included, |included| + 1, 0, |included| + 1)
  }

  predicate Done(p: Progress) {
    p.toUnpack == {} && p.toAnalyze == {}
  }

  // ----- What one report does to the table -----

  function Parents(t: Table, fo: Report): set<Uid> {
    t.running.Keys * (if fo.isFirmware then {fo.uid} else fo.parentFirmware)
  }

  function Booking(fo: Report): Progress -> Progress {
    (p: Progress) => WithFile(p, fo.uid, fo.included)
  }

  function Striking(fo: Report): Progress -> Progress {
    (p: Progress) => WithoutFile(p, fo.uid)
  }

  function AddTo(t: Table, fo: Report): Table {
    if fo.isFirmware then
      t.(running := t.running[fo.uid := Started(fo.uid, fo.included)])
    else
      Booked(t, fo, Parents(t, fo))
  }

  /** Books file `fo` on the entries in `parents`. */
  function Booked(t: Table, fo: Report, parents: set<Uid>): Table {
    t.(running := Over(t.running, Booking(fo), parents))
  }

  predicate Completes(p: Progress, uid: Uid) {
    uid in p.toAnalyze && Done(WithoutFile(p, uid))
  }

  /** Those of the firmware in `parents` that analysing file `fo` completes. */
  function Completed(t: Table, fo: Report, parents: set<Uid>): set<Uid> {
    set r | r in parents && r in t.running && Completes(t.running[r], fo.uid)
  }

  function Totals(running: map<Uid, Progress>, keys: set<Uid>): map<Uid, nat> {
    map r | r in keys && r in running :: running[r].total
  }

  /** Strikes file `fo` off the entries in `parents`; an entry this completes becomes a finished one. */
  function Struck(t: Table, fo: Report, parents: set<Uid>): Table {
    var done := Completed(t, fo, parents);
    Table(Over(t.running, Striking(fo), parents) - done, t.finished + Totals(t.running, done))
  }

  function RemoveFrom(t: Table, fo: Report): Table {
    Struck(t, fo, Parents(t, fo))
  }

  function UpdateIn(t: Table, root: Uid, included: set<Uid>): Table {
    t.(running := t.running[root := UpdateStarted(root, included)])
  }

  // ----- Accounting: counters and lists agree in every reachable table -----

  ghost predicate Consistent(p: Progress) {
    && p.toUnpack !! p.toAnalyze
    && p.total == |p.toUnpack| + p.unpacked
    && p.unpacked == |p.toAnalyze| + p.analyzed
  }

  ghost predicate Open(p: Progress) {
    Consistent(p) && !Done(p)
  }

  ghost predicate TableConsistent(t: Table) {
    forall r {:trigger Open(t.running[r])} :: r in t.running ==> Open(t.running[r])
  }

  /** The three counters are ordered, and they coincide exactly for an entry that is done. */
  lemma CountersOrdered(p: Progress)
    requires Consistent(p)
    ensures p.analyzed <= p.unpacked <= p.total
    ensures Done(p) <==> p.analyzed == p.unpacked == p.total
  {
    assert p.toUnpack == {} <==> |p.toUnpack| == 0;
    assert p.toAnalyze == {} <==> |p.toAnalyze| == 0;
  }

  lemma WithFileConsistent(p: Progress, uid: Uid, included: set<Uid>)
    requires Open(p)
    ensures Open(WithFile(p, uid, included))
  {
    var found := included - (p.toUnpack + p.toAnalyze);
    var q := WithFile(p, uid, included);
    assert |p.toUnpack + found| == |p.toUnpack| + |found|;
    if uid in p.toUnpack + found {
      assert uid !in p.toAnalyze;
      assert uid in q.toAnalyze;
    } else if p.toUnpack != {} {
      assert p.toUnpack <= q.toUnpack;
      var x :| x in p.toUnpack;
      assert x in q.toUnpack;
    } else {
      assert q.toAnalyze == p.toAnalyze;
    }
  }

  lemma StartedConsistent(root: Uid, included: set<Uid>)
    requires root !in included
    ensures Open(Started(root, included)) && Open(UpdateStarted(root, included))
  {
    assert root in Started(root, included).toAnalyze;
    assert root in UpdateStarted(root, included).toAnalyze;
  }

  /** Adding any report keeps every entry consistent and unfinished. */
  lemma AddKeepsConsistent(t: Table, fo: Report)
    requires TableConsistent(t)
    requires fo.isFirmware ==> fo.uid !in fo.included
    ensures TableConsistent(AddTo(t, fo))
    ensures AddTo(t, fo).finished == t.finished
  {
    if fo.isFirmware {
      StartedConsistent(fo.uid, fo.included);
    } else {
      forall r | r in t.running
        ensures Open(AddTo(t, fo).running[r])
      {
        assert Open(t.running[r]);
        WithFileConsistent(t.running[r], fo.uid, fo.included);
      }
    }
  }

  /**
   Removing any report keeps every entry consistent; an entry leaves the running table exactly
   when its three counters have met, and the total it is recorded with is that common value.
   */
  lemma RemoveKeepsConsistent(t: Table, fo: Report)
    requires TableConsistent(t)
    ensures TableConsistent(RemoveFrom(t, fo))
    ensures forall r :: r in t.running && r !in RemoveFrom(t, fo).running ==>
              var p := WithoutFile(t.running[r], fo.uid);
              && r in Parents(t, fo) && p.analyzed == p.unpacked == p.total
              && r in RemoveFrom(t, fo).finished && RemoveFrom(t, fo).finished[r] == p.total
    ensures forall r :: r in RemoveFrom(t, fo).running ==>
              var p := RemoveFrom(t, fo).running[r];
              r in t.running && !(p.analyzed == p.unpacked == p.total)
  {
    forall r | r in t.running
      ensures Consistent(WithoutFile(t.running[r], fo.uid))
      ensures var p := WithoutFile(t.running[r], fo.uid); Done(p) <==> p.analyzed == p.unpacked == p.total
      ensures fo.uid !in t.running[r].toAnalyze ==> !Done(WithoutFile(t.running[r], fo.uid))
    {
      assert Open(t.running[r]);
      CountersOrdered(WithoutFile(t.running[r], fo.uid));
    }
    forall r | r in RemoveFrom(t, fo).running
      ensures Open(RemoveFrom(t, fo).running[r])
    {
      assert Open(t.running[r]);
    }
  }

  /** Updating a firmware together with its known children starts a consistent entry. */
  lemma UpdateKeepsConsistent(t: Table, root: Uid, included: set<Uid>)
    requires TableConsistent(t) && root !in included
    ensures TableConsistent(UpdateIn(t, root, included))
  {
    StartedConsistent(root, included);
  }

  // ----- The shared dictionary itself -----

  datatype Entry = Entry(
    filesToUnpack: seq<Uid>,
    filesToAnalyze: seq<Uid>,
    unpackedFilesCount: nat,
    analyzedFilesCount: nat,
    totalFilesCount: nat)

  function Abs(e: Entry): Progress {
    Progress(ToSet(e.filesToUnpack), ToSet(e.filesToAnalyze),
             e.unpackedFilesCount, e.analyzedFilesCount, e.totalFilesCount)
  }

  function AbsAll(entries: map<Uid, Entry>): map<Uid, Progress> {
    map r | r in entries :: Abs(entries[r])
  }

  lemma AbsAllUpdate(entries: map<Uid, Entry>, k: Uid, e: Entry)
    ensures AbsAll(entries[k := e]) == AbsAll(entries)[k := Abs(e)]
  {
    assert AbsAll(entries[k := e]).Keys == AbsAll(entries).Keys + {k};
  }

  lemma AbsAllRemove(entries: map<Uid, Entry>, k: Uid)
    ensures AbsAll(entries - {k}) == AbsAll(entries) - {k}
  {
    assert AbsAll(entries - {k}).Keys == AbsAll(entries).Keys - {k};
  }

  /** Booking file `fo` on the entry of firmware `r` alone. */
  function BookedOn(t: Table, fo: Report, r: Uid): Table
    requires r in t.running
  {
    t.(running := t.running[r := WithFile(t.running[r], fo.uid, fo.included)])
  }

  lemma BookedNone(t: Table, fo: Report)
    ensures Booked(t, fo, {}) == t
  {
    OverNone(t.running, Booking(fo));
  }

  /** Booking on the firmware one after the other is the same as booking on all at once. */
  lemma BookedOne(t: Table, fo: Report, handled: set<Uid>, r: Uid)
    requires r in t.running && r !in handled
    ensures Booked(BookedOn(t, fo, r), fo, handled) == Booked(t, fo, handled + {r})
  {
    OverUpdated(t.running, Booking(fo), handled, r);
  }

  /** Striking file `fo` off the entry of firmware `r` alone. */
  function StruckOff(t: Table, fo: Report, r: Uid): Table
    requires r in t.running
  {
    var p := t.running[r];
    if fo.uid !in p.toAnalyze then t
    else if Completes(p, fo.uid) then Table(t.running - {r}, t.finished[r := p.total])
    else t.(running := t.running[r := WithoutFile(p, fo.uid)])
  }

  lemma StruckNone(t: Table, fo: Report)
    ensures Struck(t, fo, {}) == t
  {
    OverNone(t.running, Striking(fo));
    assert Completed(t, fo, {}) == {};
    assert t.running - {} == t.running;
    assert Totals(t.running, {}) == map[];
    assert t.finished + map[] == t.finished;
  }

  /** Books file `fo` on one firmware after the other, in the given order. */
  ghost function BookedAlong(t: Table, fo: Report, order: seq<Uid>): Table
    decreases |order|
  {
    if order == [] || order[0] !in t.running then t
    else BookedAlong(BookedOn(t, fo, order[0]), fo, order[1..])
  }

  lemma {:induction false} BookedInOrder(t: Table, fo: Report, order: seq<Uid>)
    requires NoDup(order) && ToSet(order) <= t.running.Keys
    ensures BookedAlong(t, fo, order) == Booked(t, fo, ToSet(order))
    decreases |order|
  {
    if order == [] {
      BookedNone(t, fo);
    } else {
      SplitHead(order);
      BookedInOrder(BookedOn(t, fo, order[0]), fo, order[1..]);
      BookedOne(t, fo, ToSet(order[1..]), order[0]);
    }
  }

  /** Strikes file `fo` off one firmware after the other, in the given order. */
  ghost function StruckAlong(t: Table, fo: Report, order: seq<Uid>): Table
    decreases |order|
  {
    if order == [] || order[0] !in t.running then t
    else StruckAlong(StruckOff(t, fo, order[0]), fo, order[1..])
  }

  lemma {:induction false} StruckInOrder(t: Table, fo: Report, order: seq<Uid>)
    requires NoDup(order) && ToSet(order) <= t.running.Keys
    ensures StruckAlong(t, fo, order) == Struck(t, fo, ToSet(order))
    decreases |order|
  {
    if order == [] {
      StruckNone(t, fo);
    } else {
      SplitHead(order);
      StruckInOrder(StruckOff(t, fo, order[0]), fo, order[1..]);
      StruckOne(t, fo, ToSet(order[1..]), order[0]);
    }
  }

  /** Striking off one firmware first and the others afterwards is the same as striking off all at once. */
  lemma StruckOne(t: Table, fo: Report, others: set<Uid>, r: Uid)
    requires r in t.running && r !in others
    ensures Struck(StruckOff(t, fo, r), fo, others) == Struck(t, fo, others + {r})
  {
    var f, m, p, done := Striking(fo), t.running, t.running[r], Completed(t, fo, others);
    assert f(p) == WithoutFile(p, fo.uid);
    if fo.uid !in p.toAnalyze {
      assert Over(m, f, others + {r}) == Over(m, f, others);
      assert Completed(t, fo, others + {r}) == done;
    } else if Completes(p, fo.uid) {
      assert Completed(StruckOff(t, fo, r), fo, others) == done;
      assert Completed(t, fo, others + {r}) == done + {r};
      assert Over(m - {r}, f, others) - done == Over(m, f, others + {r}) - (done + {r});
      TotalsOne(t, done, r);
    } else {
      OverUpdated(m, f, others, r);
      assert Completed(StruckOff(t, fo, r), fo, others) == done;
      assert Completed(t, fo, others + {r}) == done;
      assert Totals(m[r := f(p)], done) == Totals(m, done);
    }
  }

  lemma TotalsOne(t: Table, keys: set<Uid>, r: Uid)
    requires r in t.running && r !in keys
    ensures t.finished[r := t.running[r].total] + Totals(t.running - {r}, keys) == t.finished + Totals(t.running, keys + {r})
  {
    assert Totals(t.running, keys + {r}) == Totals(t.running, keys)[r := t.running[r].total];
    assert Totals(t.running - {r}, keys) == Totals(t.running, keys);
  }

  ghost predicate EntryValid(e: Entry) {
    NoDup(e.filesToUnpack) && NoDup(e.filesToAnalyze) && Consistent(Abs(e))
  }

  lemma StartThenUpdate(t: Table, fo: Report, included: set<Uid>)
    requires fo.isFirmware
    ensures fo.uid in AddTo(t, fo).running && AddTo(t, fo).running[fo.uid].analyzed == 0
    ensures AddTo(t, fo).(running := AddTo(t, fo).running[fo.uid := UpdateStarted(fo.uid, included)])
            == UpdateIn(t, fo.uid, included)
  {
  }

  class AnalysisStatus {
    var currentlyRunning: map<Uid, Entry>
    var recentlyFinished: map<Uid, nat>

    ghost predicate Valid()
      reads this
    {
      forall r {:trigger EntryValid(currentlyRunning[r])} :: r in currentlyRunning ==> EntryValid(currentlyRunning[r])
    }

    ghost function View(): Table
      reads this
    {
      Table(AbsAll(currentlyRunning), recentlyFinished)
    }

    constructor ()
      ensures Valid() && View() == Table(map[], map[])
    {
      currentlyRunning, recentlyFinished := map[], map[];
    }

    /** A firmware starts a new entry; any other file is booked on every running firmware it belongs to. */
    method AddToCurrentAnalyses(fo: Report)
      requires Valid()
      requires fo.isFirmware ==> fo.uid !in fo.included
      modifies this
      ensures Valid() && View() == AddTo(old(View()), fo)
    {
      if fo.isFirmware {
        var included := SetToList(fo.included);
        NoDupSize(included);
        var e := Entry(included, [fo.uid], 1, 0, 1 + |included|);
        assert Abs(e) == Started(fo.uid, fo.included);
        StartedConsistent(fo.uid, fo.included);
        AbsAllUpdate(currentlyRunning, fo.uid, e);
        currentlyRunning := currentlyRunning[fo.uid := e];
      } else {
        UpdateCurrentAnalysis(fo);
      }
    }

    /** The loop over the running firmware a file belongs to. */
    method UpdateCurrentAnalysis(fo: Report)
      requires Valid() && !fo.isFirmware
      modifies this
      ensures Valid() && View() == AddTo(old(View()), fo)
    {
      var parents := SetToList(currentlyRunning.Keys * fo.parentFirmware);
      BookedInOrder(View(), fo, parents);
      ghost var goal := BookedAlong(View(), fo, parents);
      while parents != []
        invariant Valid() && NoDup(parents) && ToSet(parents) <= View().running.Keys
        invariant BookedAlong(View(), fo, parents) == goal
        decreases |parents|
      {
        SplitHead(parents);
        BookParent(parents[0], fo);
        parents := parents[1..];
      }
    }

    /** One iteration: book the file on the entry of one firmware. */
    method BookParent(parent: Uid, fo: Report)
      requires Valid() && parent in View().running
      modifies this
      ensures Valid() && View() == BookedOn(old(View()), fo, parent)
    {
      var e := BookFile(currentlyRunning[parent], fo);
      AbsAllUpdate(currentlyRunning, parent, e);
      currentlyRunning := currentlyRunning[parent := e];
    }

    /** Newly found files are queued for unpacking, the file itself moves on to analysis. */
    static method BookFile(e: Entry, fo: Report) returns (e': Entry)
      requires EntryValid(e)
      ensures EntryValid(e')
      ensures Abs(e') == WithFile(Abs(e), fo.uid, fo.included)
    {
      var newFiles := fo.included - (ToSet(e.filesToUnpack) + ToSet(e.filesToAnalyze));
      var pending := SetToList(ToSet(e.filesToUnpack) + newFiles);
      e' := e.(totalFilesCount := e.totalFilesCount + |newFiles|, filesToUnpack := pending);
      if fo.uid in pending {
        RemoveFirstFromNoDup(pending, fo.uid);
        assert fo.uid in ToSet(e.filesToUnpack) + newFiles && fo.uid !in ToSet(e.filesToAnalyze);
        AppendNew(e.filesToAnalyze, fo.uid);
        e' := e'.(filesToUnpack := RemoveFirst(pending, fo.uid),
                  filesToAnalyze := e.filesToAnalyze + [fo.uid],
                  unpackedFilesCount := e.unpackedFilesCount + 1);
      }
      WithFileCounts(Abs(e), fo.uid, fo.included);
    }

    static lemma WithFileCounts(p: Progress, uid: Uid, included: set<Uid>)
      requires Consistent(p)
      ensures Consistent(WithFile(p, uid, included))
    {
      var found := included - (p.toUnpack + p.toAnalyze);
      UnionSize(p.toUnpack, found);
      SingleSizes(p.toUnpack + found, uid);
      SingleSizes(p.toAnalyze, uid);
    }

    /** Strikes a fully analysed file off every running firmware; an entry with both lists empty is finished. */
    method RemoveFromCurrentAnalyses(fo: Report)
      requires Valid()
      modifies this
      ensures Valid() && View() == RemoveFrom(old(View()), fo)
    {
      var parents := SetToList(currentlyRunning.Keys * (if fo.isFirmware then {fo.uid} else fo.parentFirmware));
      assert ToSet(parents) == Parents(View(), fo);
      StruckInOrder(View(), fo, parents);
      StrikeAll(fo, parents);
    }

    /** The loop over the running firmware a file belongs to. */
    method StrikeAll(fo: Report, parents: seq<Uid>)
      requires Valid() && NoDup(parents) && ToSet(parents) <= View().running.Keys
      modifies this
      ensures Valid() && View() == StruckAlong(old(View()), fo, parents)
    {
      var rest := parents;
      ghost var goal := StruckAlong(View(), fo, parents);
      while rest != []
        invariant Valid() && NoDup(rest) && ToSet(rest) <= View().running.Keys
        invariant StruckAlong(View(), fo, rest) == goal
        decreases |rest|
      {
        SplitHead(rest);
        StrikeFile(rest[0], fo);
        rest := rest[1..];
      }
    }

    /** One iteration: strike the file off the entry of one firmware. */
    method StrikeFile(parent: Uid, fo: Report)
      requires Valid() && parent in View().running
      modifies this
      ensures Valid() && View() == StruckOff(old(View()), fo, parent)
    {
      var e := currentlyRunning[parent];
      if fo.uid in e.filesToAnalyze {
        var rest := SetToList(ToSet(e.filesToAnalyze) - {fo.uid});
        e := e.(filesToAnalyze := rest, analyzedFilesCount := e.analyzedFilesCount + 1);
        assert Abs(e) == WithoutFile(View().running[parent], fo.uid);
        assert EntryValid(currentlyRunning[parent]);
        NonemptyList(e.filesToUnpack);
        NonemptyList(e.filesToAnalyze);
        if |e.filesToUnpack| == |e.filesToAnalyze| == 0 {
          AbsAllRemove(currentlyRunning, parent);
          recentlyFinished := recentlyFinished[parent := e.totalFilesCount];
          currentlyRunning := currentlyRunning - {parent};
        } else {
          AbsAllUpdate(currentlyRunning, parent, e);
          currentlyRunning := currentlyRunning[parent := e];
        }
      }
    }

    static lemma NonemptyList(xs: seq<Uid>)
      ensures ToSet(xs) == {} <==> |xs| == 0
    {
      if |xs| > 0 {
        assert xs[0] in ToSet(xs);
      }
    }

    /** Booking a firmware whose files are all known already: everything counts as unpacked. */
    method AddUpdateToCurrentAnalyses(fo: Report, includedFiles: seq<Uid>)
      requires Valid()
      requires fo.isFirmware && fo.uid !in fo.included
      requires NoDup(includedFiles) && fo.uid !in includedFiles
      modifies this
      ensures Valid() && View() == UpdateIn(old(View()), fo.uid, ToSet(includedFiles))
    {
      AddToCurrentAnalyses(fo);
      StartThenUpdate(old(View()), fo, ToSet(includedFiles));
      assert fo.uid in View().running;
      var e := currentlyRunning[fo.uid];
      e := e.(filesToUnpack := [],
              unpackedFilesCount := |includedFiles| + 1,
              totalFilesCount := |includedFiles| + 1,
              filesToAnalyze := [fo.uid] + includedFiles);
      NoDupSize(includedFiles);
      StartedConsistent(fo.uid, ToSet(includedFiles));
      assert Abs(e) == UpdateStarted(fo.uid, ToSet(includedFiles));
      AbsAllUpdate(currentlyRunning, fo.uid, e);
      currentlyRunning := currentlyRunning[fo.uid := e];
    }
  }
}
