/**
 A search and the count of its matches (src/web_interface/components/database_routes.py). Both queries are built
 from the same dictionary, one after the other, and building a query changes it.
 */
module QueryCount {
  import opened Basics
  import opened QueryConversion
  import opened QueryMeaning

  ghost predicate SameCount(ops: Operators, db: Db, s: Statement, t: Statement)
    requires StatementOk(s) && StatementOk(t)
  {
    DbOk(db) ==> |Found(ops, db, s)| == |Found(ops, db, t)|
  }

  /** Whatever the database holds and the operators mean. */
  ghost predicate AlwaysSameCount(s: Statement, t: Statement)
    requires StatementOk(s) && StatementOk(t)
  {
    forall ops: Operators, db: Db :: SameCount(ops, db, s, t)
  }

  ghost predicate AllStable(c: Conditions) {
    forall k :: k in c ==> IsStable(k, c[k])
  }

  lemma StableFilters(c: Conditions)
    requires AllStable(c) && Convertible(c)
    ensures forall k :: k in KnownKeys(c) ==> FilterFor(k, Left(c)[k]) == FilterFor(k, c[k])
  {
    forall k | k in KnownKeys(c)
      ensures FilterFor(k, Left(c)[k]) == FilterFor(k, c[k])
    {
      SecondFilter(k, c[k]);
    }
  }

  lemma LeftKeys(c: Conditions)
    ensures KnownKeys(Left(c)) == KnownKeys(c) && AnalysisKeys(Left(c)) == AnalysisKeys(c)
    ensures FirmwareKeys(Left(c)) == FirmwareKeys(c) && FileKeys(Left(c)) == FileKeys(c)
  {
  }

  lemma StableSelect(q: Select, c: Conditions, either: bool)
    requires Convertible(c) && Convertible(Left(c)) && IsSelectFor(q, Left(c), false, either) && AllStable(c)
    ensures IsSelectFor(q, c, false, either)
  {
    StableFilters(c);
    LeftKeys(c);
  }

  lemma StableIsSame(t: Statement, d: SearchDict, parents: bool, inverted: bool)
    requires IsStatementFor(t, LeftDict(d), parents, inverted) && AllStable(Effective(d))
    ensures IsStatementFor(t, d, parents, inverted)
  {
    EffectiveLeft(d);
    LeftIsConvertible(d);
    if d != EMPTY {
      StableSelect(t.query, Effective(d), d.disjunction.Some?);
    }
  }

  /** What a search finds if no file is selected. */
  function FoundNothing(db: Db, s: Statement): set<Uid> {
    if s.Parents? && s.inverted then db.firmware.Keys else {}
  }

  lemma TwoPluginsFindNothing(ops: Operators, db: Db, s: Statement, d: SearchDict, parents: bool, inverted: bool)
    requires DbOk(db) && IsStatementFor(s, d, parents, inverted) && d.disjunction.None? && !OnePlugin(Effective(d))
    ensures StatementOk(s) && Found(ops, db, s) == FoundNothing(db, s)
  {
    StatementIsOk(s, d, parents, inverted);
    forall uid
      ensures !Selected(ops, db, s.query, uid)
    {
      if uid in db.files {
        AndSearchFinds(ops, db, s.query, Effective(d), uid);
      }
    }
    assert forall fw :: !InSubquery(ops, db, s.query, fw);
  }

  lemma LeftOfTwoPlugins(d: SearchDict)
    requires d.disjunction.None? && !OnePlugin(Effective(d))
    ensures LeftDict(d).disjunction.None? && !OnePlugin(Effective(LeftDict(d)))
  {
    EffectiveLeft(d);
    LeftKeys(Effective(d));
  }

  // ----- A database on which a search and its count differ -----

  /** What the columns of one firmware with one analysis hold. */
  type Cells = map<Key, Scalar>

  function At(cells: Cells, k: Key): Option<Scalar> {
    if k in cells then Some(cells[k]) else None
  }

  function LoneDb(file: Row, firmware: Row, plugin: string, analysis: Row): (db: Db)
    ensures DbOk(db)
  {
    Db(map[0 := file], map[0 := firmware], map[(0, plugin) := analysis], map[0 := {}])
  }

  ghost predicate Shows(db: Db, cells: Cells, plugin: string) {
    exists file, firmware, analysis ::
      && db == LoneDb(file, firmware, plugin, analysis)
      && (forall column :: Cell(file, column) == At(cells, FileKey(column)))
      && (forall column :: Cell(firmware, column) == At(cells, FirmwareKey(column)))
      && (forall subkey :: Cell(analysis, subkey) == At(cells, AnalysisKey(plugin, subkey)))
  }

  lemma FileRow(cells: Cells) returns (row: Row)
    ensures forall column :: Cell(row, column) == At(cells, FileKey(column))
  {
    row := map k | k in cells && k.FileKey? :: k.column := cells[k];
  }

  lemma FirmwareRow(cells: Cells) returns (row: Row)
    ensures forall column :: Cell(row, column) == At(cells, FirmwareKey(column))
  {
    row := map k | k in cells && k.FirmwareKey? :: k.column := cells[k];
  }

  lemma AnalysisRow(cells: Cells, plugin: string) returns (row: Row)
    ensures forall subkey :: Cell(row, subkey) == At(cells, AnalysisKey(plugin, subkey))
  {
    row := map k | k in cells && k.AnalysisKey? && k.plugin == plugin :: k.subkey := cells[k];
  }

  lemma Showing(cells: Cells, plugin: string) returns (db: Db)
    ensures Shows(db, cells, plugin)
  {
    var file := FileRow(cells);
    var firmware := FirmwareRow(cells);
    var analysis := AnalysisRow(cells, plugin);
    db := LoneDb(file, firmware, plugin, analysis);
  }

  lemma LoneHolds(ops: Operators, db: Db, cells: Cells, plugin: string, k: Key, f: Filter)
    requires Shows(db, cells, plugin) && Known(k)
    ensures Holds(ops, db, 0, k, f) <==> (k.AnalysisKey? ==> k.plugin == plugin) && Eval(ops, f, At(cells, k)) == Yes
  {
  }

  ghost predicate IsLone(db: Db) {
    && db.files.Keys == db.firmware.Keys == db.roots.Keys == {0}
    && db.roots[0] == {}
  }

  lemma ShowsLone(db: Db, cells: Cells, plugin: string)
    requires Shows(db, cells, plugin)
    ensures DbOk(db) && IsLone(db) && HasAnalysis(db, 0)
  {
    assert (0, plugin) in db.analyses;
  }

  lemma LoneCounts(ops: Operators, db: Db, s: Statement, t: Statement)
    requires DbOk(db) && IsLone(db)
    requires StatementOk(s) && StatementOk(t) && !s.AllFirmware? && !t.AllFirmware?
    requires s.Parents? == t.Parents? && (s.Parents? ==> s.inverted == t.inverted)
    requires Selected(ops, db, s.query, 0) != Selected(ops, db, t.query, 0)
    ensures !SameCount(ops, db, s, t)
  {
    LoneFound(ops, db, s);
    LoneFound(ops, db, t);
  }

  lemma LoneFound(ops: Operators, db: Db, s: Statement)
    requires DbOk(db) && IsLone(db) && StatementOk(s) && !s.AllFirmware?
    ensures Found(ops, db, s) == if Selected(ops, db, s.query, 0) != (s.Parents? && s.inverted) then {0} else {}
  {
    assert forall uid :: Belongs(db, 0, uid) <==> uid == 0;
    assert InSubquery(ops, db, s.query, 0) <==> Selected(ops, db, s.query, 0);
  }

  /** The filters for an unstable condition differ in what they compare with. */
  lemma UnstableFilters(k: Key, value: Value)
    requires Known(k) && !IsStable(k, value)
    ensures FilterFor(k, value).Ok? && FilterFor(k, LeftValue(k, value)).Ok?
    ensures FilterFor(k, value).value.Operator? && FilterFor(k, LeftValue(k, value)).value.Operator?
    ensures FilterFor(k, value).value.argument != FilterFor(k, LeftValue(k, value)).value.argument
  {
    var o := value.options;
    DecidesRewritten(o);
    DecidesRewritten(Rewrite(o));
    LookupRewritten(o, Decides(o).value);
    LookupRewritten(Rewrite(o), Decides(o).value);
  }

  function Meeting(f: Filter): Option<Scalar> {
    if f.EqualTo? then f.value else Some(Json("y"))
  }

  /** Only the cell of `k` holds an "x" for an operator. */
  ghost function MeetingCells(c: Conditions, k: Key): (cells: Cells)
    requires Convertible(c) && k in KnownKeys(c)
    ensures forall j :: j in KnownKeys(c) ==> At(cells, j) == if j == k then Some(Json("x")) else Meeting(FilterFor(j, c[j]).value)
  {
    map j | j in KnownKeys(c) && (j == k || Meeting(FilterFor(j, c[j]).value).Some?)
      :: if j == k then Json("x") else Meeting(FilterFor(j, c[j]).value).value
  }

  /** Operators that are true but for one cell and one argument. */
  function Rejecting(cell: Scalar, argument: Option<Scalar>): Operators {
    (name, x, a) => if x == cell && a == argument then No else Yes
  }

  lemma AllMeet(db: Db, c: Conditions, k: Key, argument: Option<Scalar>)
    requires Convertible(c) && k in KnownKeys(c) && k.AnalysisKey? && OnePlugin(c)
    requires Shows(db, MeetingCells(c, k), k.plugin)
    requires FilterFor(k, c[k]).value.Operator? && FilterFor(k, c[k]).value.argument != argument
    ensures AllHold(Rejecting(Json("x"), argument), db, 0, c)
  {
    forall j | j in KnownKeys(c)
      ensures HoldsFor(Rejecting(Json("x"), argument), db, 0, c, j)
    {
      assert j.AnalysisKey? ==> j in AnalysisKeys(c) && k in AnalysisKeys(c);
      LoneHolds(Rejecting(Json("x"), argument), db, MeetingCells(c, k), k.plugin, j, FilterFor(j, c[j]).value);
    }
  }

  /** In a conjunction: the cells meet every condition, and the operators reject one comparison of the second query. */
  lemma ConjunctionDiffers(p: Select, q: Select, d: SearchDict, k: Key) returns (ops: Operators, db: Db)
    requires IsSearchFor(p, d) && IsSearchFor(q, LeftDict(d)) && d.disjunction.None? && OnePlugin(Effective(d))
    requires k in Effective(d) && !IsStable(k, Effective(d)[k]) && AllKnown(p.filters) && AllKnown(q.filters)
    ensures DbOk(db) && IsLone(db) && Selected(ops, db, p, 0) && !Selected(ops, db, q, 0)
  {
    EffectiveLeft(d);
    var c, left := Effective(d), Left(Effective(d));
    UnstableFilters(k, c[k]);
    assert k in KnownKeys(c) && k in KnownKeys(left);
    var rejected := FilterFor(k, left[k]).value.argument;
    ops := Rejecting(Json("x"), rejected);
    db := Showing(MeetingCells(c, k), k.plugin);
    ShowsLone(db, MeetingCells(c, k), k.plugin);
    AllMeet(db, c, k, rejected);
    AndSearchFinds(ops, db, p, c, 0);
    LoneHolds(ops, db, MeetingCells(c, k), k.plugin, k, FilterFor(k, left[k]).value);
    assert !HoldsFor(ops, db, 0, left, k);
    AndSearchFinds(ops, db, q, left, 0);
  }

  function Depth(v: Scalar): nat {
    if v.Dumps? then Depth(v.of) + 1 else 0
  }

  lemma {:induction false} FreshScalar(values: set<Scalar>) returns (v: Scalar)
    ensures forall w :: w in values ==> Depth(w) < Depth(v)
  {
    v := Json("");
    if values != {} {
      var w :| w in values;
      v := FreshScalar(values - {w});
      v := Dumps(if Depth(w) < Depth(v) then v else w);
    }
  }

  function Asked(f: Filter): Scalar {
    if f.EqualTo? && f.value.Some? then f.value.value else Json("")
  }

  /** A value that no condition asks for. */
  lemma UnaskedScalar(c: Conditions) returns (v: Scalar)
    requires Convertible(c)
    ensures forall k :: k in KnownKeys(c) ==> FilterFor(k, c[k]).value != EqualTo(Some(v))
  {
    var values := set k | k in KnownKeys(c) :: Asked(FilterFor(k, c[k]).value);
    v := FreshScalar(values);
    forall k | k in KnownKeys(c)
      ensures FilterFor(k, c[k]).value != EqualTo(Some(v))
    {
      assert Asked(FilterFor(k, c[k]).value) in values;
    }
  }

  /** Operators that are true of one cell and one argument. */
  function Accepting(cell: Scalar, argument: Option<Scalar>): Operators {
    (name, x, a) => if x == cell && a == argument then Yes else No
  }

  /** Only the cell of `k` holds what the operators accept. */
  function SparseCells(c: Conditions, k: Key, other: Scalar): (cells: Cells)
    ensures forall j :: j in KnownKeys(c) ==> At(cells, j) == Some(if j == k then Dumps(other) else other)
  {
    map j | j in KnownKeys(c) :: if j == k then Dumps(other) else other
  }

  lemma NoneHolds(db: Db, cells: Cells, c: Conditions, k: Key, other: Scalar, argument: Option<Scalar>)
    requires Convertible(c) && k in KnownKeys(c) && k.AnalysisKey? && cells == SparseCells(c, k, other)
    requires Shows(db, cells, k.plugin)
    requires forall j :: j in KnownKeys(c) ==> FilterFor(j, c[j]).value != EqualTo(Some(other))
    requires FilterFor(k, c[k]).value.Operator? && FilterFor(k, c[k]).value.argument != argument
    ensures !SomeHolds(Accepting(Dumps(other), argument), db, 0, c)
  {
    var ops := Accepting(Dumps(other), argument);
    forall j | j in KnownKeys(c)
      ensures !HoldsFor(ops, db, 0, c, j)
    {
      LoneHolds(ops, db, cells, k.plugin, j, FilterFor(j, c[j]).value);
      NotAccepted(FilterFor(j, c[j]).value, other, argument, j == k);
    }
  }

  lemma NotAccepted(f: Filter, other: Scalar, argument: Option<Scalar>, same: bool)
    requires f != EqualTo(Some(other)) && (same ==> f.Operator? && f.argument != argument)
    ensures Eval(Accepting(Dumps(other), argument), f, Some(if same then Dumps(other) else other)) != Yes
  {
    assert Depth(Dumps(other)) != Depth(other);
  }

  /** In a disjunction: the operators accept one comparison of the first query, and the cells meet nothing else. */
  lemma DisjunctionDiffers(p: Select, q: Select, d: SearchDict, k: Key) returns (ops: Operators, db: Db)
    requires IsSearchFor(p, d) && IsSearchFor(q, LeftDict(d)) && d.disjunction.Some?
    requires k in Effective(d) && !IsStable(k, Effective(d)[k]) && AllKnown(p.filters) && AllKnown(q.filters)
    ensures DbOk(db) && IsLone(db) && Selected(ops, db, p, 0) && !Selected(ops, db, q, 0)
  {
    EffectiveLeft(d);
    var c, left := Effective(d), Left(Effective(d));
    UnstableFilters(k, c[k]);
    var other := UnaskedScalar(left);
    var accepted := FilterFor(k, c[k]).value.argument;
    ops := Accepting(Dumps(other), accepted);
    var cells := SparseCells(left, k, other);
    db := Showing(cells, k.plugin);
    ShowsLone(db, cells, k.plugin);
    assert k in KnownKeys(c) && k in KnownKeys(left);
    FirstFinds(ops, db, cells, p, c, k);
    NoneHolds(db, cells, left, k, other, accepted);
    OrSearchFinds(ops, db, q, left, 0);
  }

  lemma FirstFinds(ops: Operators, db: Db, cells: Cells, p: Select, c: Conditions, k: Key)
    requires Convertible(c) && IsSelectFor(p, c, false, true) && k in KnownKeys(c) && k.AnalysisKey?
    requires Shows(db, cells, k.plugin) && Eval(ops, FilterFor(k, c[k]).value, At(cells, k)) == Yes
    ensures DbOk(db) && AllKnown(p.filters) && Selected(ops, db, p, 0)
  {
    ShowsLone(db, cells, k.plugin);
    LoneHolds(ops, db, cells, k.plugin, k, FilterFor(k, c[k]).value);
    assert HoldsFor(ops, db, 0, c, k);
    OrSearchFinds(ops, db, p, c, 0);
  }

  lemma UnstableDiffers(s: Statement, t: Statement, d: SearchDict, parents: bool, inverted: bool, k: Key)
    returns (ops: Operators, db: Db)
    requires IsStatementFor(s, d, parents, inverted) && IsStatementFor(t, LeftDict(d), parents, inverted)
    requires StatementOk(s) && StatementOk(t)
    requires k in Effective(d) && !IsStable(k, Effective(d)[k]) && (d.disjunction.Some? || OnePlugin(Effective(d)))
    ensures !SameCount(ops, db, s, t)
  {
    EffectiveLeft(d);
    if d.disjunction.Some? {
      ops, db := DisjunctionDiffers(s.query, t.query, d, k);
    } else {
      ops, db := ConjunctionDiffers(s.query, t.query, d, k);
    }
    LoneCounts(ops, db, s, t);
  }

  /**
   A search and the query that counts its matches, built one after the other from the same dictionary, always
   agree exactly if the first build changed no option that a filter compares with, or if nothing can be found.
   */
  lemma CountAgreesIff(s: Statement, t: Statement, d: SearchDict, parents: bool, inverted: bool)
    requires IsStatementFor(s, d, parents, inverted) && IsStatementFor(t, LeftDict(d), parents, inverted)
    ensures StatementOk(s) && StatementOk(t)
    ensures AlwaysSameCount(s, t)
       <==> AllStable(Effective(d)) || (d.disjunction.None? && !OnePlugin(Effective(d)))
  {
    StatementIsOk(s, d, parents, inverted);
    StatementIsOk(t, LeftDict(d), parents, inverted);
    if AllStable(Effective(d)) {
      forall ops: Operators, db: Db
        ensures SameCount(ops, db, s, t)
      {
        if DbOk(db) {
          StableIsSame(t, d, parents, inverted);
          FoundSame(ops, db, s, t, d, parents, inverted);
        }
      }
    } else if d.disjunction.None? && !OnePlugin(Effective(d)) {
      forall ops: Operators, db: Db
        ensures SameCount(ops, db, s, t)
      {
        if DbOk(db) {
          TwoPluginsFindNothing(ops, db, s, d, parents, inverted);
          LeftOfTwoPlugins(d);
          TwoPluginsFindNothing(ops, db, t, LeftDict(d), parents, inverted);
        }
      }
    } else {
      var k :| k in Effective(d) && !IsStable(k, Effective(d)[k]);
      var ops, db := UnstableDiffers(s, t, d, parents, inverted, k);
      assert !SameCount(ops, db, s, t);
    }
  }

  const LIST_KEY := AnalysisKey("plugin", "list")

  /** The search for files of which the list of a plugin holds an "a". */
  const LIST_SEARCH := SearchDict(None, map[LIST_KEY := Options([("$contains", Json("a"))])])

  /**
   Such a file is found, but the count, for which the text was serialised twice, is 0: a list that holds
   the one value does not hold the other.
   */
  lemma FoundButNotCounted(ops: Operators, db: Db, list: Scalar, s: Statement, t: Statement)
    requires IsStatementFor(s, LIST_SEARCH, false, false) && IsStatementFor(t, LeftDict(LIST_SEARCH), false, false)
    requires ops("$contains", list, Some(Dumps(Json("a")))) == Yes
    requires ops("$contains", list, Some(Dumps(Dumps(Json("a"))))) != Yes
    requires Shows(db, map[LIST_KEY := list], "plugin")
    ensures DbOk(db) && StatementOk(s) && StatementOk(t) && Found(ops, db, s) == {0} && Found(ops, db, t) == {}
  {
    var cells, d := map[LIST_KEY := list], LIST_SEARCH;
    StatementIsOk(s, d, false, false);
    StatementIsOk(t, LeftDict(d), false, false);
    EffectiveLeft(d);
    ShowsLone(db, cells, "plugin");
    var c, left := Effective(d), Left(Effective(d));
    ListFilters(c, left);
    LoneHolds(ops, db, cells, "plugin", LIST_KEY, Operator("$contains", Some(Dumps(Json("a")))));
    LoneHolds(ops, db, cells, "plugin", LIST_KEY, Operator("$contains", Some(Dumps(Dumps(Json("a"))))));
    assert HoldsFor(ops, db, 0, c, LIST_KEY) && !HoldsFor(ops, db, 0, left, LIST_KEY);
    AndSearchFinds(ops, db, s.query, c, 0);
    AndSearchFinds(ops, db, t.query, left, 0);
    LoneFound(ops, db, s);
    LoneFound(ops, db, t);
  }

  lemma ListFilters(c: Conditions, left: Conditions)
    requires c == Effective(LIST_SEARCH) && left == Left(c)
    ensures KnownKeys(c) == KnownKeys(left) == {LIST_KEY} && OnePlugin(c)
    ensures FilterFor(LIST_KEY, c[LIST_KEY]) == Ok(Operator("$contains", Some(Dumps(Json("a")))))
    ensures FilterFor(LIST_KEY, left[LIST_KEY]) == Ok(Operator("$contains", Some(Dumps(Dumps(Json("a"))))))
  {
    assert c == LIST_SEARCH.conditions;
    var o := [("$contains", Json("a"))];
    DecidesRewritten(o);
    DecidesRewritten(Rewrite(o));
    LookupRewritten(o, "$contains");
    LookupRewritten(Rewrite(o), "$contains");
  }
}
