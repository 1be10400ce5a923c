/**
 What a finished firmware guarantees, over every sequence of status reports.

 The reports arrive from many processes in any order, for any mix of uploads and updates, with
 duplicate files. `Run` folds them into the status table and records, per running firmware, which inclusions
 were reported for it, which files were reported unpacked and which were struck off as analysed.
 The record is never consulted by the table itself.
 */
module StatusHistory {
  import opened Basics
  import opened Status

  /** Of an update, `fo.included` are all the files that the database knows to be in the firmware. */
  datatype Op = Add(fo: Report) | Remove(fo: Report) | Update(fo: Report)

  datatype Record = Record(inclusions: set<(Uid, Uid)>, unpacked: set<Uid>, analyzed: set<Uid>)

  /** `records` belong to running firmware, `closed` holds the record of each firmware when it finished. */
  datatype Tracked = Tracked(table: Table, records: map<Uid, Record>, closed: map<Uid, Record>)

  const EMPTY := Tracked(Table(map[], map[]), map[], map[])

  function InclusionsOf(fo: Report): set<(Uid, Uid)> {
    set v | v in fo.included :: (fo.uid, v)
  }

  function Unpacked(h: Record, fo: Report): Record {
    h.(inclusions := h.inclusions + InclusionsOf(fo), unpacked := h.unpacked + {fo.uid})
  }

  function Analyzed(h: Record, p: Progress, uid: Uid): Record {
    if uid in p.toAnalyze then h.(analyzed := h.analyzed + {uid}) else h
  }

  ghost predicate Matching(s: Tracked) {
    s.table.running.Keys == s.records.Keys && s.table.finished.Keys == s.closed.Keys
  }

  function Apply(s: Tracked, op: Op): Tracked
    requires Matching(s)
  {
    var t, fo := s.table, op.fo;
    match op
    case Add(_) =>
      Tracked(AddTo(t, fo),
              if fo.isFirmware then s.records[fo.uid := Record(InclusionsOf(fo), {fo.uid}, {})]
              else map r | r in s.records :: if r in Parents(t, fo) then Unpacked(s.records[r], fo) else s.records[r],
              s.closed)
    case Update(_) =>
      Tracked(UpdateIn(t, fo.uid, fo.included),
              s.records[fo.uid := Record(InclusionsOf(fo), {fo.uid} + fo.included, {})], s.closed)
    case Remove(_) =>
      var done := Completed(t, fo, Parents(t, fo));
      var after := map r | r in s.records ::
        if r in Parents(t, fo) then Analyzed(s.records[r], t.running[r], fo.uid) else s.records[r];
      Tracked(RemoveFrom(t, fo), after - done, s.closed + map r | r in done :: after[r])
  }

  lemma ApplyMatches(s: Tracked, op: Op)
    requires Matching(s)
    ensures Matching(Apply(s, op))
  {
    var s', t, fo := Apply(s, op), s.table, op.fo;
    if op.Remove? {
      var done := Completed(t, fo, Parents(t, fo));
      assert RemoveFrom(t, fo).running.Keys == t.running.Keys - done;
      assert RemoveFrom(t, fo).finished.Keys == t.finished.Keys + done;
      assert s'.records.Keys == s.records.Keys - done;
      assert s'.closed.Keys == s.closed.Keys + done;
    } else {
      assert s'.table.running.Keys == s'.records.Keys;
    }
  }

  /** The table and record after any sequence of reports. */
  ghost function Run(ops: seq<Op>): (s: Tracked)
    ensures Matching(s)
  {
    if ops == [] then EMPTY
    else
      var s := Run(ops[..|ops| - 1]);
      ApplyMatches(s, ops[|ops| - 1]);
      Apply(s, ops[|ops| - 1])
  }

  /** A firmware is never reported as containing itself directly: its own uid is dropped on extraction. */
  ghost predicate Proper(op: Op) {
    op.fo.isFirmware || op.Update? ==> op.fo.uid !in op.fo.included
  }

  // ----- The invariant -----

  /**
   Everything reported as included is still waiting, in analysis, or already analysed; and only
   unpacked files are in analysis or analysed.
   */
  ghost predicate Traced(root: Uid, p: Progress, h: Record) {
    && root in p.toAnalyze + h.analyzed
    && p.toAnalyze + h.analyzed <= h.unpacked
    && forall e :: e in h.inclusions ==> e.0 in h.unpacked && e.1 in p.toUnpack + p.toAnalyze + h.analyzed
  }

  ghost predicate AllAnalyzed(root: Uid, h: Record) {
    && root in h.analyzed && h.analyzed <= h.unpacked
    && forall e :: e in h.inclusions ==> e.1 in h.analyzed
  }

  ghost predicate Inv(s: Tracked) {
    && Matching(s) && TableConsistent(s.table)
    && (forall r {:trigger Traced(r, s.table.running[r], s.records[r])} :: r in s.records ==> Traced(r, s.table.running[r], s.records[r]))
    && (forall r {:trigger AllAnalyzed(r, s.closed[r])} :: r in s.closed ==> AllAnalyzed(r, s.closed[r]))
  }

  lemma UnpackedKeepsTraced(root: Uid, p: Progress, h: Record, fo: Report)
    requires Traced(root, p, h) && Open(p)
    ensures Traced(root, WithFile(p, fo.uid, fo.included), Unpacked(h, fo))
  {
  }

  lemma AnalyzedKeepsTraced(root: Uid, p: Progress, h: Record, uid: Uid)
    requires Traced(root, p, h)
    ensures Traced(root, WithoutFile(p, uid), Analyzed(h, p, uid))
    ensures Completes(p, uid) ==> AllAnalyzed(root, Analyzed(h, p, uid))
  {
  }

  lemma StartIsTraced(fo: Report)
    ensures Traced(fo.uid, Started(fo.uid, fo.included), Record(InclusionsOf(fo), {fo.uid}, {}))
    ensures Traced(fo.uid, UpdateStarted(fo.uid, fo.included), Record(InclusionsOf(fo), {fo.uid} + fo.included, {}))
  {
  }

  lemma AddKeepsInv(s: Tracked, op: Op)
    requires Inv(s) && Proper(op) && op.Add?
    ensures Inv(Apply(s, op))
  {
    var s', t, fo := Apply(s, op), s.table, op.fo;
    ApplyMatches(s, op);
    AddKeepsConsistent(t, fo);
    forall r | r in s'.records
      ensures Traced(r, s'.table.running[r], s'.records[r])
    {
      if fo.isFirmware && r == fo.uid {
        StartIsTraced(fo);
      } else {
        assert Traced(r, t.running[r], s.records[r]) && Open(t.running[r]);
        UnpackedKeepsTraced(r, t.running[r], s.records[r], fo);
      }
    }
  }

  lemma UpdateKeepsInv(s: Tracked, op: Op)
    requires Inv(s) && Proper(op) && op.Update?
    ensures Inv(Apply(s, op))
  {
    var s', t, fo := Apply(s, op), s.table, op.fo;
    ApplyMatches(s, op);
    UpdateKeepsConsistent(t, fo.uid, fo.included);
    forall r | r in s'.records
      ensures Traced(r, s'.table.running[r], s'.records[r])
    {
      if r == fo.uid {
        StartIsTraced(fo);
      } else {
        assert Traced(r, t.running[r], s.records[r]);
      }
    }
  }

  lemma RemoveKeepsInv(s: Tracked, op: Op)
    requires Inv(s) && op.Remove?
    ensures Inv(Apply(s, op))
  {
    var s', t, fo := Apply(s, op), s.table, op.fo;
    ApplyMatches(s, op);
    RemoveKeepsConsistent(t, fo);
    forall r | r in s'.records
      ensures Traced(r, s'.table.running[r], s'.records[r])
    {
      assert Traced(r, t.running[r], s.records[r]);
      AnalyzedKeepsTraced(r, t.running[r], s.records[r], fo.uid);
    }
    forall r | r in s'.closed
      ensures AllAnalyzed(r, s'.closed[r])
    {
      if r in Completed(t, fo, Parents(t, fo)) {
        assert Traced(r, t.running[r], s.records[r]);
        AnalyzedKeepsTraced(r, t.running[r], s.records[r], fo.uid);
      } else {
        assert AllAnalyzed(r, s.closed[r]);
      }
    }
  }

  lemma {:induction false} RunKeepsInv(ops: seq<Op>)
    requires forall i :: 0 <= i < |ops| ==> Proper(ops[i])
    ensures Inv(Run(ops))
  {
    if ops != [] {
      var last := |ops| - 1;
      RunKeepsInv(ops[..last]);
      match ops[last]
      case Add(_) => AddKeepsInv(Run(ops[..last]), ops[last]);
      case Remove(_) => RemoveKeepsInv(Run(ops[..last]), ops[last]);
      case Update(_) => UpdateKeepsInv(Run(ops[..last]), ops[last]);
    }
  }

  // ----- The theorem -----

  ghost predicate Concerns(fo: Report, root: Uid, v: Uid) {
    fo.uid == v && (if fo.isFirmware then v == root else root in fo.parentFirmware)
  }

  /** The file was reported after extraction, or an update named it as known to be unpacked. */
  ghost predicate TellsUnpacked(op: Op, root: Uid, v: Uid) {
    || (op.Add? && Concerns(op.fo, root, v))
    || (op.Update? && op.fo.uid == root && (v == root || v in op.fo.included))
  }

  /** The file was reported to include another one, or an update reported that of the firmware. */
  ghost predicate TellsIncluded(op: Op, root: Uid, u: Uid, v: Uid) {
    v in op.fo.included && ((op.Add? && Concerns(op.fo, root, u)) || (op.Update? && op.fo.uid == root == u))
  }

  /** Between operation `s` and before operation `f`. */
  ghost predicate ReportedIncluded(ops: seq<Op>, s: nat, f: nat, root: Uid, u: Uid, v: Uid) {
    exists i :: s <= i < f <= |ops| && TellsIncluded(ops[i], root, u, v)
  }

  ghost predicate ReportedUnpacked(ops: seq<Op>, s: nat, f: nat, root: Uid, v: Uid) {
    exists i :: s <= i < f <= |ops| && TellsUnpacked(ops[i], root, v)
  }

  ghost predicate ReportedAnalyzed(ops: seq<Op>, s: nat, f: nat, root: Uid, v: Uid) {
    exists i :: s <= i < f <= |ops| && ops[i].Remove? && Concerns(ops[i].fo, root, v)
  }

  /** `path` leads from `root` to `v` along inclusions reported in that time. */
  ghost predicate Leads(ops: seq<Op>, s: nat, f: nat, root: Uid, path: seq<Uid>, v: Uid) {
    && path != [] && path[0] == root && path[|path| - 1] == v
    && forall i :: 0 < i < |path| ==> ReportedIncluded(ops, s, f, root, path[i - 1], path[i])
  }

  /** The operation starts firmware `root`, possibly again. */
  predicate Starts(op: Op, root: Uid) {
    op.fo.uid == root && (op.Update? || (op.Add? && op.fo.isFirmware))
  }

  predicate IsStart(ops: seq<Op>, s: nat, root: Uid) {
    s < |ops| && Starts(ops[s], root)
  }

  predicate IsLastStart(ops: seq<Op>, s: nat, root: Uid) {
    IsStart(ops, s, root) && forall i :: s < i < |ops| ==> !Starts(ops[i], root)
  }

  /** The operation before `f` moves the firmware to the finished ones. */
  ghost predicate IsFinish(ops: seq<Op>, f: nat, root: Uid) {
    0 < f <= |ops| && root in Run(ops[..f - 1]).table.running && root !in Run(ops[..f]).table.running
  }

  /** The record holds what was reported between `s` and `f`, and all inclusions that were. */
  ghost predicate Founded(ops: seq<Op>, s: nat, f: nat, root: Uid, h: Record) {
    && (forall v :: v in h.unpacked ==> ReportedUnpacked(ops, s, f, root, v))
    && (forall v :: v in h.analyzed ==> ReportedAnalyzed(ops, s, f, root, v))
    && (forall u: Uid, v: Uid :: (u, v) in h.inclusions <==> ReportedIncluded(ops, s, f, root, u, v))
  }

  lemma FoundedLater(ops: seq<Op>, op: Op, s: nat, f: nat, root: Uid, h: Record)
    requires Founded(ops, s, f, root, h) && f <= |ops|
    ensures Founded(ops + [op], s, f, root, h)
  {
    var longer := ops + [op];
    assert forall i :: 0 <= i < |ops| ==> longer[i] == ops[i];
    forall v | v in h.unpacked
      ensures ReportedUnpacked(longer, s, f, root, v)
    {
      assert ReportedUnpacked(ops, s, f, root, v);
    }
    forall v | v in h.analyzed
      ensures ReportedAnalyzed(longer, s, f, root, v)
    {
      assert ReportedAnalyzed(ops, s, f, root, v);
    }
    forall u: Uid, v: Uid
      ensures (u, v) in h.inclusions <==> ReportedIncluded(longer, s, f, root, u, v)
    {
      assert ReportedIncluded(ops, s, f, root, u, v) <==> ReportedIncluded(longer, s, f, root, u, v);
    }
  }

  /** One more report in that time. */
  lemma ReportedMore(ops: seq<Op>, op: Op, s: nat, root: Uid, u: Uid, v: Uid)
    requires s <= |ops|
    ensures ReportedUnpacked(ops + [op], s, |ops| + 1, root, v) <==> ReportedUnpacked(ops, s, |ops|, root, v) || TellsUnpacked(op, root, v)
    ensures ReportedAnalyzed(ops + [op], s, |ops| + 1, root, v)
       <==> ReportedAnalyzed(ops, s, |ops|, root, v) || (op.Remove? && Concerns(op.fo, root, v))
    ensures ReportedIncluded(ops + [op], s, |ops| + 1, root, u, v)
       <==> ReportedIncluded(ops, s, |ops|, root, u, v) || TellsIncluded(op, root, u, v)
  {
    var longer := ops + [op];
    assert longer[|ops|] == op && forall i :: 0 <= i < |ops| ==> longer[i] == ops[i];
  }

  /** The record after one more operation, from the one before or from the start. */
  ghost predicate Grows(op: Op, root: Uid, before: Record, after: Record) {
    && (forall v :: v in after.unpacked ==> v in before.unpacked || TellsUnpacked(op, root, v))
    && (forall v :: v in after.analyzed ==> v in before.analyzed || (op.Remove? && Concerns(op.fo, root, v)))
    && (forall u: Uid, v: Uid :: (u, v) in after.inclusions <==> (u, v) in before.inclusions || TellsIncluded(op, root, u, v))
  }

  lemma GrowsFounded(ops: seq<Op>, op: Op, s: nat, root: Uid, before: Record, after: Record)
    requires s <= |ops| && Founded(ops, s, |ops|, root, before) && Grows(op, root, before, after)
    ensures Founded(ops + [op], s, |ops| + 1, root, after)
  {
    forall v | v in after.unpacked || v in after.analyzed
      ensures v in after.unpacked ==> ReportedUnpacked(ops + [op], s, |ops| + 1, root, v)
      ensures v in after.analyzed ==> ReportedAnalyzed(ops + [op], s, |ops| + 1, root, v)
    {
      ReportedMore(ops, op, s, root, v, v);
    }
    forall u: Uid, v: Uid
      ensures (u, v) in after.inclusions <==> ReportedIncluded(ops + [op], s, |ops| + 1, root, u, v)
    {
      ReportedMore(ops, op, s, root, u, v);
    }
  }

  const NO_RECORD := Record({}, {}, {})

  /** A start begins a new record; any other operation adds to that of a running firmware what it reports. */
  lemma RunningGrows(t: Tracked, op: Op, root: Uid)
    requires Matching(t)
    ensures Starts(op, root) ==> root in Apply(t, op).records && Grows(op, root, NO_RECORD, Apply(t, op).records[root])
    ensures !Starts(op, root) && root in Apply(t, op).records ==>
              root in t.records && Grows(op, root, t.records[root], Apply(t, op).records[root])
  {
  }

  /** The record of a firmware that finishes is closed, and others stay as they are. */
  lemma ClosedGrows(t: Tracked, op: Op, root: Uid)
    requires Matching(t)
    ensures root in t.records && root !in Apply(t, op).records ==>
              root in Apply(t, op).closed && !Starts(op, root) && Grows(op, root, t.records[root], Apply(t, op).closed[root])
    ensures root in Apply(t, op).closed && !(root in t.records && root !in Apply(t, op).records) ==>
              root in t.closed && Apply(t, op).closed[root] == t.closed[root]
  {
  }

  lemma LastStartLonger(ops: seq<Op>, op: Op, s: nat, root: Uid)
    requires IsLastStart(ops, s, root) && !Starts(op, root)
    ensures IsLastStart(ops + [op], s, root)
  {
    assert forall i :: 0 <= i < |ops| ==> (ops + [op])[i] == ops[i];
  }

  ghost predicate RunningOk(ops: seq<Op>, s: nat, root: Uid) {
    root in Run(ops).records ==> IsLastStart(ops, s, root) && Founded(ops, s, |ops|, root, Run(ops).records[root])
  }

  ghost predicate ClosedOk(ops: seq<Op>, s: nat, f: nat, root: Uid) {
    root in Run(ops).closed ==>
      && IsStart(ops, s, root) && s < f && IsFinish(ops, f, root) && Founded(ops, s, f, root, Run(ops).closed[root])
      && (root !in Run(ops).records ==> IsLastStart(ops, s, root))
  }

  lemma RunLonger(ops: seq<Op>, op: Op)
    ensures Run(ops + [op]) == Apply(Run(ops), op)
  {
    assert (ops + [op])[..|ops|] == ops;
  }

  lemma RunningIsFounded(ops: seq<Op>, op: Op, s: nat, root: Uid) returns (s': nat)
    requires RunningOk(ops, s, root)
    ensures RunningOk(ops + [op], s', root)
  {
    RunLonger(ops, op);
    RunningGrows(Run(ops), op, root);
    s' := s;
    if Starts(op, root) {
      s' := |ops|;
      assert (ops + [op])[|ops|] == op;
      GrowsFounded(ops, op, s', root, NO_RECORD, Run(ops + [op]).records[root]);
    } else if root in Run(ops + [op]).records {
      LastStartLonger(ops, op, s, root);
      GrowsFounded(ops, op, s, root, Run(ops).records[root], Run(ops + [op]).records[root]);
    }
  }

  /** The firmware has just finished; `s` is where its record starts. */
  lemma JustClosed(ops: seq<Op>, op: Op, s: nat, root: Uid)
    requires RunningOk(ops, s, root) && root in Run(ops).records && root !in Run(ops + [op]).records
    ensures ClosedOk(ops + [op], s, |ops| + 1, root)
  {
    RunLonger(ops, op);
    ClosedGrows(Run(ops), op, root);
    LastStartLonger(ops, op, s, root);
    GrowsFounded(ops, op, s, root, Run(ops).records[root], Run(ops + [op]).closed[root]);
    assert (ops + [op])[..|ops| + 1] == ops + [op] && (ops + [op])[..|ops|] == ops;
  }

  /** It finished before. */
  lemma StillClosed(ops: seq<Op>, op: Op, s: nat, f: nat, root: Uid)
    requires ClosedOk(ops, s, f, root) && root in Run(ops).closed
    requires !(root in Run(ops).records && root !in Run(ops + [op]).records)
    ensures ClosedOk(ops + [op], s, f, root)
  {
    RunLonger(ops, op);
    ClosedGrows(Run(ops), op, root);
    FoundedLater(ops, op, s, f, root, Run(ops).closed[root]);
    FinishLonger(ops, op, f, root);
    if root !in Run(ops + [op]).records {
      RunningGrows(Run(ops), op, root);
      LastStartLonger(ops, op, s, root);
    }
  }

  lemma FinishLonger(ops: seq<Op>, op: Op, f: nat, root: Uid)
    requires IsFinish(ops, f, root)
    ensures IsFinish(ops + [op], f, root)
  {
    assert (ops + [op])[..f] == ops[..f] && (ops + [op])[..f - 1] == ops[..f - 1];
  }

  /** `s` is where the running record starts, and `t` and `f` are where the one of an earlier run starts and ends. */
  lemma ClosedIsFounded(ops: seq<Op>, op: Op, s: nat, t: nat, f: nat, root: Uid) returns (t': nat, f': nat)
    requires RunningOk(ops, s, root) && ClosedOk(ops, t, f, root)
    ensures ClosedOk(ops + [op], t', f', root)
  {
    t', f' := t, f;
    if root in Run(ops).records && root !in Run(ops + [op]).records {
      t', f' := s, |ops| + 1;
      JustClosed(ops, op, s, root);
    } else if root in Run(ops).closed {
      StillClosed(ops, op, t, f, root);
    } else {
      RunLonger(ops, op);
      ClosedGrows(Run(ops), op, root);
    }
  }

  /**
   The record of a running firmware holds what was reported since its last start. The record of a finished one
   holds what was reported from one of its starts, which is the last one unless it is running again, until it finished.
   */
  lemma {:induction false} RecordIsFounded(ops: seq<Op>, root: Uid) returns (s: nat, t: nat, f: nat)
    ensures RunningOk(ops, s, root) && ClosedOk(ops, t, f, root)
  {
    s, t, f := 0, 0, 0;
    if ops != [] {
      var before, op := ops[..|ops| - 1], ops[|ops| - 1];
      assert ops == before + [op];
      var s0, t0, f0 := RecordIsFounded(before, root);
      s := RunningIsFounded(before, op, s0, root);
      t, f := ClosedIsFounded(before, op, s0, t0, f0, root);
    }
  }

  /**
   When a firmware has moved to the finished ones, it did so with an operation `f - 1` after one of its starts `s`,
   the last one unless it is running again. Every file that can be reached from it through inclusions
   reported in between was in that time reported unpacked and struck off as analysed, whatever the order
   of the reports and however often a file occurred.
   */
  lemma FinishedMeansAllAnalyzed(ops: seq<Op>, root: Uid) returns (s: nat, f: nat)
    requires forall i :: 0 <= i < |ops| ==> Proper(ops[i])
    requires root in Run(ops).table.finished
    ensures IsStart(ops, s, root) && s < f && IsFinish(ops, f, root)
    ensures root !in Run(ops).table.running ==> IsLastStart(ops, s, root)
    ensures forall path, v :: Leads(ops, s, f, root, path, v) ==>
              ReportedUnpacked(ops, s, f, root, v) && ReportedAnalyzed(ops, s, f, root, v)
  {
    RunKeepsInv(ops);
    var r;
    r, s, f := RecordIsFounded(ops, root);
    var h := Run(ops).closed[root];
    assert AllAnalyzed(root, h);
    forall path, v | Leads(ops, s, f, root, path, v)
      ensures v in h.analyzed
    {
      if |path| > 1 {
        assert ReportedIncluded(ops, s, f, root, path[|path| - 2], v);
        assert (path[|path| - 2], v) in h.inclusions;
      }
    }
  }
}
