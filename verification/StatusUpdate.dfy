/**
 The update of a firmware whose files are all known (src/scheduler/analysis_status.py): it has finished as soon as
 the firmware and each of the files were struck off, and not before.
 */
module StatusUpdate {
  import opened Basics
  import opened Status
  import opened StatusHistory

  /** The operation starts firmware `root`, or registers a file of it. */
  ghost predicate Registers(op: Op, root: Uid) {
    Starts(op, root) || (op.Add? && !op.fo.isFirmware && root in op.fo.parentFirmware)
  }

  /** What an operation strikes off firmware `root`. */
  function StruckBy(op: Op, root: Uid): set<Uid> {
    if op.Remove? && (if op.fo.isFirmware then op.fo.uid == root else root in op.fo.parentFirmware) then {op.fo.uid} else {}
  }

  function StruckByAll(ops: seq<Op>, root: Uid): set<Uid> {
    if ops == [] then {} else StruckByAll(ops[..|ops| - 1], root) + StruckBy(ops[|ops| - 1], root)
  }

  /** Of a firmware with these files, `struck` are struck off: those left are in analysis, and it has finished if none is. */
  ghost predicate IsProgress(t: Table, root: Uid, files: set<Uid>, struck: set<Uid>) {
    var left := files - struck;
    if left == {} then root !in t.running && root in t.finished && t.finished[root] == |files|
    else root in t.running && t.running[root] == Progress({}, left, |files|, |files| - |left|, |files|)
  }

  lemma UpdateIsProgress(t: Table, fo: Report)
    requires fo.uid !in fo.included
    ensures IsProgress(UpdateIn(t, fo.uid, fo.included), fo.uid, {fo.uid} + fo.included, {})
  {
    var files := {fo.uid} + fo.included;
    assert fo.uid in files && files - {} == files;
    UnionSize({fo.uid}, fo.included);
  }

  lemma StrikeIsProgress(t: Table, fo: Report, root: Uid, files: set<Uid>, struck: set<Uid>)
    requires IsProgress(t, root, files, struck)
    ensures IsProgress(RemoveFrom(t, fo), root, files, struck + StruckBy(Remove(fo), root))
  {
    var left, hit := files - struck, StruckBy(Remove(fo), root);
    var left' := files - (struck + hit);
    if hit == {} || fo.uid !in left {
      assert left' == left;
    } else {
      assert left' == left - {fo.uid};
      SubsetSize(left, files);
      SingleSizes(left, fo.uid);
    }
  }

  lemma OpIsProgress(s: Tracked, op: Op, root: Uid, files: set<Uid>, struck: set<Uid>)
    requires Matching(s) && IsProgress(s.table, root, files, struck) && !Registers(op, root)
    ensures IsProgress(Apply(s, op).table, root, files, struck + StruckBy(op, root))
  {
    if op.Remove? {
      StrikeIsProgress(s.table, op.fo, root, files, struck);
    } else {
      assert struck + {} == struck;
    }
  }

  /**
   After an update of a firmware with known files, whatever happened before and whatever is reported about other
   firmware: the firmware is running while any of these files was not struck off, with exactly those left in analysis
   and none to unpack, and it has finished with all files counted once each of them was, in any order.
   */
  lemma {:induction false} UpdateFinishesIff(before: seq<Op>, fo: Report, later: seq<Op>)
    requires fo.uid !in fo.included
    requires forall i :: 0 <= i < |later| ==> !Registers(later[i], fo.uid)
    ensures IsProgress(Run(before + [Update(fo)] + later).table, fo.uid, {fo.uid} + fo.included, StruckByAll(later, fo.uid))
    decreases |later|
  {
    if later == [] {
      assert before + [Update(fo)] + later == before + [Update(fo)];
      RunLonger(before, Update(fo));
      UpdateIsProgress(Run(before).table, fo);
    } else {
      var last := |later| - 1;
      UpdateFinishesIff(before, fo, later[..last]);
      assert before + [Update(fo)] + later == (before + [Update(fo)] + later[..last]) + [later[last]];
      RunLonger(before + [Update(fo)] + later[..last], later[last]);
      OpIsProgress(Run(before + [Update(fo)] + later[..last]), later[last], fo.uid, {fo.uid} + fo.included,
                   StruckByAll(later[..last], fo.uid));
    }
  }
}
