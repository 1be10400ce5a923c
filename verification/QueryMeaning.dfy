/**
 What the queries of module QueryConversion select: the joins and the three-valued WHERE clause against
 the plain meaning of a search dictionary.
 */
module QueryMeaning {
  import opened Basics
  import opened QueryConversion

  // ----- The SQL side -----

  /** A row of the joined tables; what is not joined, or not found by an outer join, is all NULL. */
  datatype Joined = Joined(file: Row, firmware: Row, plugin: string, analysis: Row)

  ghost predicate IsJoined(db: Db, q: Select, uid: Uid, j: Joined)
    requires DbOk(db)
  {
    && uid in db.files && (q.fwOnly || q.firmware == Inner ==> uid in db.firmware)
    && j.file == (if q.fwOnly && !q.files then map[] else db.files[uid])
    && j.firmware == (if uid in db.firmware && (q.fwOnly || q.firmware != NoJoin) then db.firmware[uid] else map[])
    && (if q.analyses then (uid, j.plugin) in db.analyses && j.analysis == db.analyses[(uid, j.plugin)]
        else j.plugin == "" && j.analysis == map[])
  }

  /** The identifiers in the base table. */
  function Candidates(db: Db, q: Select): set<Uid> {
    if q.fwOnly then db.firmware.Keys else db.files.Keys
  }

  function TermTruth(ops: Operators, t: Term, j: Joined): Truth
    requires Known(t.0)
  {
    match t.0
    case FileKey(c) => Eval(ops, t.1, Cell(j.file, c))
    case FirmwareKey(c) => Eval(ops, t.1, Cell(j.firmware, c))
    case AnalysisKey(plugin, subkey) => And3(Eval(ops, t.1, Cell(j.analysis, subkey)), Bool(j.plugin == plugin))
  }

  predicate AllKnown(filters: seq<Term>) {
    forall t :: t in filters ==> Known(t.0)
  }

  function Conjunction(ops: Operators, filters: seq<Term>, j: Joined): Truth
    requires AllKnown(filters)
  {
    if filters == [] then Yes else And3(TermTruth(ops, filters[0], j), Conjunction(ops, filters[1..], j))
  }

  function Disjunction(ops: Operators, filters: seq<Term>, j: Joined): Truth
    requires AllKnown(filters)
  {
    if filters == [] then No else Or3(TermTruth(ops, filters[0], j), Disjunction(ops, filters[1..], j))
  }

  /** The WHERE clause; an empty `or_()` is no clause at all. */
  function Where(ops: Operators, q: Select, j: Joined): Truth
    requires AllKnown(q.filters)
  {
    if q.filters == [] then Yes
    else if q.either then Disjunction(ops, q.filters, j)
    else Conjunction(ops, q.filters, j)
  }

  /** The entry with this identifier is in the result. */
  ghost predicate Selected(ops: Operators, db: Db, q: Select, uid: Uid)
    requires DbOk(db) && AllKnown(q.filters)
  {
    exists j :: IsJoined(db, q, uid, j) && Where(ops, q, j) == Yes
  }

  lemma {:induction false} ConjunctionIff(ops: Operators, filters: seq<Term>, j: Joined)
    requires AllKnown(filters)
    ensures Conjunction(ops, filters, j) == Yes <==> forall t :: t in filters ==> TermTruth(ops, t, j) == Yes
  {
    if filters != [] {
      ConjunctionIff(ops, filters[1..], j);
      assert filters == [filters[0]] + filters[1..];
    }
  }

  lemma {:induction false} DisjunctionIff(ops: Operators, filters: seq<Term>, j: Joined)
    requires AllKnown(filters)
    ensures Disjunction(ops, filters, j) == Yes <==> exists t :: t in filters && TermTruth(ops, t, j) == Yes
  {
    if filters != [] {
      DisjunctionIff(ops, filters[1..], j);
      assert filters == [filters[0]] + filters[1..];
    }
  }

  // ----- The plain meaning -----

  /** The condition is true of the file, of its firmware entry, or of one of its analyses. */
  predicate Holds(ops: Operators, db: Db, uid: Uid, k: Key, f: Filter)
    requires Known(k)
  {
    match k
    case FileKey(c) => uid in db.files && Eval(ops, f, Cell(db.files[uid], c)) == Yes
    case FirmwareKey(c) => uid in db.firmware && Eval(ops, f, Cell(db.firmware[uid], c)) == Yes
    case AnalysisKey(plugin, subkey) =>
      (uid, plugin) in db.analyses && Eval(ops, f, Cell(db.analyses[(uid, plugin)], subkey)) == Yes
  }

  ghost predicate HoldsFor(ops: Operators, db: Db, uid: Uid, c: Conditions, k: Key)
    requires Convertible(c)
  {
    k in c && Known(k) && Holds(ops, db, uid, k, FilterFor(k, c[k]).value)
  }

  ghost predicate SomeHolds(ops: Operators, db: Db, uid: Uid, c: Conditions)
    requires Convertible(c)
  {
    exists k :: HoldsFor(ops, db, uid, c, k)
  }

  ghost predicate AllHold(ops: Operators, db: Db, uid: Uid, c: Conditions)
    requires Convertible(c)
  {
    forall k :: k in KnownKeys(c) ==> HoldsFor(ops, db, uid, c, k)
  }

  /** A condition that asks for a firmware without a value. */
  predicate IsNullKey(c: Conditions, k: Key) {
    k in c && k.FirmwareKey? && FilterFor(k, c[k]) == Ok(EqualTo(None))
  }

  ghost predicate AsksForNull(c: Conditions) {
    exists k :: IsNullKey(c, k)
  }

  ghost predicate OnePlugin(c: Conditions) {
    forall k, l :: k in AnalysisKeys(c) && l in AnalysisKeys(c) ==> k.plugin == l.plugin
  }

  // ----- One filter -----

  /** On a joined row, a filter says what the condition says, except about a firmware that is not there. */
  lemma FilterHolds(ops: Operators, db: Db, q: Select, c: Conditions, uid: Uid, j: Joined, k: Key)
    requires DbOk(db) && Convertible(c) && IsSelectFor(q, c, q.fwOnly, q.either) && IsJoined(db, q, uid, j)
    requires k in KnownKeys(c)
    ensures TermTruth(ops, (k, FilterFor(k, c[k]).value), j) == Yes
       <==> if k.AnalysisKey? then HoldsFor(ops, db, uid, c, k) && k.plugin == j.plugin
            else HoldsFor(ops, db, uid, c, k) || (uid !in db.firmware && IsNullKey(c, k))
  {
    if k.AnalysisKey? {
      assert k in AnalysisKeys(c);
    } else if k.FileKey? {
      assert k in FileKeys(c);
    } else {
      assert k in FirmwareKeys(c);
    }
  }

  lemma TermOf(q: Select, c: Conditions, t: Term)
    requires Convertible(c) && IsSelectFor(q, c, q.fwOnly, q.either)
    ensures t in q.filters <==> t.0 in KnownKeys(c) && t.1 == FilterFor(t.0, c[t.0]).value
  {
  }

  lemma KeysAreKnown(q: Select, c: Conditions)
    requires IsSelectFor(q, c, q.fwOnly, q.either)
    ensures AllKnown(q.filters) && (q.filters == [] <==> KnownKeys(c) == {})
  {
    if q.filters != [] {
      assert q.filters[0] in q.filters && q.filters[0].0 in KnownKeys(c);
    }
  }

  // ----- Searches with "$or" -----

  /** The row that shows the file with the given analysis. */
  ghost function RowOf(db: Db, q: Select, uid: Uid, plugin: string): Joined
    requires DbOk(db) && uid in db.files && (q.analyses ==> (uid, plugin) in db.analyses)
  {
    Joined(if q.fwOnly && !q.files then map[] else db.files[uid],
           if uid in db.firmware && (q.fwOnly || q.firmware != NoJoin) then db.firmware[uid] else map[],
           if q.analyses then plugin else "",
           if q.analyses then db.analyses[(uid, plugin)] else map[])
  }

  ghost predicate HasAnalysis(db: Db, uid: Uid) {
    exists plugin :: (uid, plugin) in db.analyses
  }

  /**
   A disjunction finds the files of which some condition is true. It also finds every file that is not a
   firmware if a firmware column is compared with None, and no file without analyses if an analysis key
   is present.
   */
  lemma OrSearchFinds(ops: Operators, db: Db, q: Select, c: Conditions, uid: Uid)
    requires DbOk(db) && Convertible(c) && IsSelectFor(q, c, q.fwOnly, true) && KnownKeys(c) != {}
    requires uid in Candidates(db, q)
    ensures AllKnown(q.filters)
    ensures Selected(ops, db, q, uid)
       <==> (SomeHolds(ops, db, uid, c) || (uid !in db.firmware && AsksForNull(c)))
            && (AnalysisKeys(c) == {} || HasAnalysis(db, uid))
  {
    KeysAreKnown(q, c);
    if Selected(ops, db, q, uid) {
      var j :| IsJoined(db, q, uid, j) && Where(ops, q, j) == Yes;
      OrSound(ops, db, q, c, uid, j);
    }
    if (SomeHolds(ops, db, uid, c) || (uid !in db.firmware && AsksForNull(c)))
       && (AnalysisKeys(c) == {} || HasAnalysis(db, uid)) {
      OrComplete(ops, db, q, c, uid);
    }
  }

  lemma OrSound(ops: Operators, db: Db, q: Select, c: Conditions, uid: Uid, j: Joined)
    requires DbOk(db) && Convertible(c) && IsSelectFor(q, c, q.fwOnly, true) && KnownKeys(c) != {}
    requires AllKnown(q.filters) && IsJoined(db, q, uid, j) && Where(ops, q, j) == Yes
    ensures SomeHolds(ops, db, uid, c) || (uid !in db.firmware && AsksForNull(c))
    ensures AnalysisKeys(c) == {} || HasAnalysis(db, uid)
  {
    KeysAreKnown(q, c);
    DisjunctionIff(ops, q.filters, j);
    var t :| t in q.filters && TermTruth(ops, t, j) == Yes;
    TermOf(q, c, t);
    FilterHolds(ops, db, q, c, uid, j, t.0);
    if Holds(ops, db, uid, t.0, t.1) {
      assert HoldsFor(ops, db, uid, c, t.0);
    }
  }

  lemma OrComplete(ops: Operators, db: Db, q: Select, c: Conditions, uid: Uid)
    requires DbOk(db) && Convertible(c) && IsSelectFor(q, c, q.fwOnly, true) && AllKnown(q.filters)
    requires uid in Candidates(db, q)
    requires SomeHolds(ops, db, uid, c) || (uid !in db.firmware && AsksForNull(c))
    requires AnalysisKeys(c) == {} || HasAnalysis(db, uid)
    ensures Selected(ops, db, q, uid)
  {
    var k, plugin := IdKey, "";
    if SomeHolds(ops, db, uid, c) {
      k :| HoldsFor(ops, db, uid, c, k);
    } else {
      k :| IsNullKey(c, k);
    }
    if k.AnalysisKey? {
      plugin := k.plugin;
    } else if AnalysisKeys(c) != {} {
      plugin :| (uid, plugin) in db.analyses;
    }
    assert k.AnalysisKey? ==> k in AnalysisKeys(c);
    var j := RowOf(db, q, uid, plugin);
    assert IsJoined(db, q, uid, j);
    var t := (k, FilterFor(k, c[k]).value);
    TermOf(q, c, t);
    FilterHolds(ops, db, q, c, uid, j, k);
    DisjunctionIff(ops, q.filters, j);
  }

  // ----- Searches without "$or" -----

  /**
   A conjunction finds the files of which all conditions are true, provided that all analysis keys are
   about the same plugin: they are checked on one joined row, which shows one analysis.
   */
  lemma AndSearchFinds(ops: Operators, db: Db, q: Select, c: Conditions, uid: Uid)
    requires DbOk(db) && Convertible(c) && IsSelectFor(q, c, q.fwOnly, false) && uid in Candidates(db, q)
    ensures AllKnown(q.filters)
    ensures Selected(ops, db, q, uid) <==> AllHold(ops, db, uid, c) && OnePlugin(c)
  {
    KeysAreKnown(q, c);
    if Selected(ops, db, q, uid) {
      var j :| IsJoined(db, q, uid, j) && Where(ops, q, j) == Yes;
      AndSound(ops, db, q, c, uid, j);
    }
    if AllHold(ops, db, uid, c) && OnePlugin(c) {
      AndComplete(ops, db, q, c, uid);
    }
  }

  lemma AndSound(ops: Operators, db: Db, q: Select, c: Conditions, uid: Uid, j: Joined)
    requires DbOk(db) && Convertible(c) && IsSelectFor(q, c, q.fwOnly, false)
    requires AllKnown(q.filters) && IsJoined(db, q, uid, j) && Where(ops, q, j) == Yes
    ensures AllHold(ops, db, uid, c) && OnePlugin(c)
  {
    ConjunctionIff(ops, q.filters, j);
    forall k | k in KnownKeys(c)
      ensures HoldsFor(ops, db, uid, c, k) && (k.AnalysisKey? ==> k.plugin == j.plugin)
    {
      var t := (k, FilterFor(k, c[k]).value);
      TermOf(q, c, t);
      assert TermTruth(ops, t, j) == Yes;
      FilterHolds(ops, db, q, c, uid, j, k);
      assert k.FirmwareKey? ==> k in FirmwareKeys(c);
    }
    assert AnalysisKeys(c) <= KnownKeys(c);
  }

  lemma AndComplete(ops: Operators, db: Db, q: Select, c: Conditions, uid: Uid)
    requires DbOk(db) && Convertible(c) && IsSelectFor(q, c, q.fwOnly, false) && AllKnown(q.filters)
    requires uid in Candidates(db, q)
    requires AllHold(ops, db, uid, c) && OnePlugin(c)
    ensures Selected(ops, db, q, uid)
  {
    var plugin := "";
    if AnalysisKeys(c) != {} {
      var k :| k in AnalysisKeys(c);
      assert k in KnownKeys(c) && HoldsFor(ops, db, uid, c, k);
      plugin := k.plugin;
    }
    if FirmwareKeys(c) != {} {
      var k :| k in FirmwareKeys(c);
      assert k in KnownKeys(c) && HoldsFor(ops, db, uid, c, k);
    }
    var j := RowOf(db, q, uid, plugin);
    assert IsJoined(db, q, uid, j);
    forall t | t in q.filters
      ensures TermTruth(ops, t, j) == Yes
    {
      TermOf(q, c, t);
      assert HoldsFor(ops, db, uid, c, t.0);
      assert t.0.AnalysisKey? ==> t.0 in AnalysisKeys(c);
      FilterHolds(ops, db, q, c, uid, j, t.0);
    }
    ConjunctionIff(ops, q.filters, j);
  }

  /** A search for keys that no table has restricts nothing, with or without "$or". */
  lemma UnknownKeysFindAll(ops: Operators, db: Db, q: Select, c: Conditions, uid: Uid)
    requires DbOk(db) && Convertible(c) && IsSelectFor(q, c, q.fwOnly, q.either) && KnownKeys(c) == {}
    ensures AllKnown(q.filters) && (Selected(ops, db, q, uid) <==> uid in Candidates(db, q))
  {
    KeysAreKnown(q, c);
    assert AnalysisKeys(c) <= KnownKeys(c) && FirmwareKeys(c) <= KnownKeys(c) && FileKeys(c) <= KnownKeys(c);
    if uid in Candidates(db, q) {
      assert IsJoined(db, q, uid, RowOf(db, q, uid, ""));
    }
  }

  // ----- Whole searches -----

  /** What `build_generic_search_query` returns. */
  datatype Statement = AllFirmware | Parents(query: Select, inverted: bool) | Files(query: Select)

  ghost predicate IsSearchFor(q: Select, d: SearchDict) {
    Convertible(Effective(d)) && IsSelectFor(q, Effective(d), false, d.disjunction.Some?)
  }

  ghost predicate IsStatementFor(s: Statement, d: SearchDict, parents: bool, inverted: bool) {
    match s
    case AllFirmware => d == EMPTY
    case Parents(q, i) => d != EMPTY && parents && i == inverted && IsSearchFor(q, d)
    case Files(q) => d != EMPTY && !parents && IsSearchFor(q, d)
  }

  method QueryParentFirmware(d: SearchDict, inverted: bool) returns (r: Result<Statement>, left: SearchDict)
    ensures r.Ok? <==> Convertible(Effective(d))
    ensures r.Ok? ==> r.value.Parents? && r.value.inverted == inverted && IsSearchFor(r.value.query, d)
    ensures r.Ok? ==> left == LeftDict(d)
  {
    var q;
    q, left := BuildQueryFromDict(d, false, false);
    r := if q.Ok? then Ok(Parents(q.value, inverted)) else QueryConversionException;
  }

  method BuildGenericSearchQuery(d: SearchDict, parents: bool, inverted: bool) returns (r: Result<Statement>, left: SearchDict)
    ensures r.Ok? <==> Convertible(Effective(d))
    ensures r.Ok? ==> IsStatementFor(r.value, d, parents, inverted) && left == LeftDict(d)
  {
    if d == EMPTY {
      EffectiveLeft(d);
      r, left := Ok(AllFirmware), d;
    } else if parents {
      r, left := QueryParentFirmware(d, inverted);
    } else {
      var q;
      q, left := BuildQueryFromDict(d, false, false);
      r := if q.Ok? then Ok(Files(q.value)) else QueryConversionException;
    }
  }

  /** The statement whose rows `get_number_of_total_matches` counts (src/storage/db_interface_frontend.py). */
  method TotalMatchesQuery(d: SearchDict, parents: bool, inverted: bool) returns (r: Result<Statement>, left: SearchDict)
    ensures r.Ok? <==> Convertible(Effective(d))
    ensures r.Ok? ==> IsStatementFor(r.value, d, parents, inverted) && left == LeftDict(d)
  {
    if d == EMPTY {
      EffectiveLeft(d);
      return Ok(AllFirmware), d;
    }
    if !parents {
      var q;
      q, left := BuildQueryFromDict(d, false, false);
      return if q.Ok? then Ok(Files(q.value)) else QueryConversionException, left;
    }
    r, left := QueryParentFirmware(d, inverted);
  }

  /**
   The queries of `browse_database` (src/web_interface/components/database_routes.py): the matches are counted
   with the dictionary that the search has left behind.
   */
  method BrowseDatabase(d: SearchDict, parents: bool, inverted: bool) returns (list: Result<Statement>, total: Result<Statement>)
    ensures list.Ok? <==> Convertible(Effective(d))
    ensures total.Ok? <==> list.Ok?
    ensures list.Ok? ==> IsStatementFor(list.value, d, parents, inverted)
    ensures list.Ok? ==> IsStatementFor(total.value, LeftDict(d), parents, inverted)
  {
    var left;
    list, left := BuildGenericSearchQuery(d, parents, inverted);
    if list.QueryConversionException? {
      return list, list;
    }
    LeftIsConvertible(d);
    total, left := TotalMatchesQuery(left, parents, inverted);
  }

  lemma LeftIsConvertible(d: SearchDict)
    ensures Convertible(Effective(LeftDict(d))) <==> Convertible(Effective(d))
  {
    EffectiveLeft(d);
    var c := Effective(d);
    forall k | k in c && Known(k)
      ensures FilterFor(k, Left(c)[k]).Ok? <==> FilterFor(k, c[k]).Ok?
    {
      SecondFilter(k, c[k]);
    }
  }

  ghost predicate Belongs(db: Db, fw: Uid, uid: Uid)
    requires DbOk(db)
  {
    uid in db.files && (fw in db.roots[uid] || uid == fw)
  }

  /** The subquery of `query_parent_firmware` yields this identifier. */
  ghost predicate InSubquery(ops: Operators, db: Db, q: Select, fw: Uid)
    requires DbOk(db) && AllKnown(q.filters)
  {
    exists uid :: Belongs(db, fw, uid) && Selected(ops, db, q, uid)
  }

  ghost predicate StatementOk(s: Statement) {
    s.AllFirmware? || AllKnown(s.query.filters)
  }

  ghost function Found(ops: Operators, db: Db, s: Statement): set<Uid>
    requires DbOk(db) && StatementOk(s)
  {
    match s
    case AllFirmware => db.firmware.Keys
    case Parents(q, inverted) => set fw | fw in db.firmware && (InSubquery(ops, db, q, fw) != inverted)
    case Files(q) => set uid | uid in db.files && Selected(ops, db, q, uid)
  }

  /** A search for parent firmware finds those that a file belongs to which the search for files finds, or the others. */
  lemma ParentsOfFound(ops: Operators, db: Db, q: Select, inverted: bool, fw: Uid)
    requires DbOk(db) && AllKnown(q.filters) && fw in db.firmware
    ensures fw in Found(ops, db, Parents(q, inverted))
       <==> ((exists uid :: uid in Found(ops, db, Files(q)) && Belongs(db, fw, uid)) <==> !inverted)
  {
    if uid :| Belongs(db, fw, uid) && Selected(ops, db, q, uid) {
      assert uid in Found(ops, db, Files(q));
    }
  }

  lemma StatementIsOk(s: Statement, d: SearchDict, parents: bool, inverted: bool)
    requires IsStatementFor(s, d, parents, inverted)
    ensures StatementOk(s)
  {
    if !s.AllFirmware? {
      KeysAreKnown(s.query, Effective(d));
    }
  }

  /** The result does not depend on the order in which filters were added. */
  lemma SelectedSame(ops: Operators, db: Db, p: Select, q: Select, d: SearchDict, uid: Uid)
    requires DbOk(db) && IsSearchFor(p, d) && IsSearchFor(q, d)
    ensures AllKnown(p.filters) && AllKnown(q.filters)
    ensures Selected(ops, db, p, uid) <==> Selected(ops, db, q, uid)
  {
    var c := Effective(d);
    KeysAreKnown(p, c);
    KeysAreKnown(q, c);
    if uid in db.files {
      if KnownKeys(c) == {} {
        UnknownKeysFindAll(ops, db, p, c, uid);
        UnknownKeysFindAll(ops, db, q, c, uid);
      } else if d.disjunction.Some? {
        OrSearchFinds(ops, db, p, c, uid);
        OrSearchFinds(ops, db, q, c, uid);
      } else {
        AndSearchFinds(ops, db, p, c, uid);
        AndSearchFinds(ops, db, q, c, uid);
      }
    }
  }

  /** Two statements for the same dictionary find the same. */
  lemma FoundSame(ops: Operators, db: Db, s: Statement, t: Statement, d: SearchDict, parents: bool, inverted: bool)
    requires DbOk(db) && IsStatementFor(s, d, parents, inverted) && IsStatementFor(t, d, parents, inverted)
    ensures StatementOk(s) && StatementOk(t) && Found(ops, db, s) == Found(ops, db, t)
  {
    StatementIsOk(s, d, parents, inverted);
    StatementIsOk(t, d, parents, inverted);
    if d != EMPTY {
      forall uid
        ensures Selected(ops, db, s.query, uid) <==> Selected(ops, db, t.query, uid)
      {
        SelectedSame(ops, db, s.query, t.query, d, uid);
      }
      assert forall fw :: InSubquery(ops, db, s.query, fw) <==> InSubquery(ops, db, t.query, fw);
      assert Found(ops, db, s) == Found(ops, db, t);
    }
  }

  /** A firmware is found if it or a file that belongs to it is; inverted, it is the other way around. */
  lemma InvertedPartitionsIff(ops: Operators, db: Db, s: Statement, t: Statement, d: SearchDict)
    requires DbOk(db) && IsStatementFor(s, d, true, false) && IsStatementFor(t, d, true, true)
    ensures StatementOk(s) && StatementOk(t)
    ensures Found(ops, db, s) + Found(ops, db, t) == db.firmware.Keys
    ensures Found(ops, db, s) !! Found(ops, db, t) <==> d != EMPTY || db.firmware == map[]
    ensures d != EMPTY ==> |Found(ops, db, s)| + |Found(ops, db, t)| == |db.firmware.Keys|
  {
    StatementIsOk(s, d, true, false);
    StatementIsOk(t, d, true, true);
    if d != EMPTY {
      forall uid
        ensures Selected(ops, db, s.query, uid) <==> Selected(ops, db, t.query, uid)
      {
        SelectedSame(ops, db, s.query, t.query, d, uid);
      }
      assert forall fw :: InSubquery(ops, db, s.query, fw) <==> InSubquery(ops, db, t.query, fw);
      PartitionSizes(Found(ops, db, s), Found(ops, db, t), db.firmware.Keys);
    } else if db.firmware != map[] {
      var fw :| fw in db.firmware;
      assert fw in Found(ops, db, s) && fw in Found(ops, db, t);
    }
  }

  lemma PartitionSizes<T>(a: set<T>, b: set<T>, all: set<T>)
    requires forall x :: x in all <==> x in a || x in b
    requires forall x :: x in a ==> x !in b
    ensures |a| + |b| == |all| && a !! b && a + b == all
  {
    assert a + b == all;
  }
}
