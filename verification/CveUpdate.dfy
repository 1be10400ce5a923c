/**
 The incremental update of the CVE tables (src/plugins/analysis/cve_lookup/internal/setup_repository.py).
 CVEs with affected products are stored in the feed table, all others in the summary table. SQL tables
 are sequences of rows; the statements are those of database_interface.py.
 */
module CveUpdate {
  import opened Basics
  import opened Strings

  /** The year is stored beside the identifier it is taken from. */
  datatype Row = Row(id: string, year: string, fields: seq<string>)

  type Table = seq<Row>

  const FEED_FIELDS := 18
  const SUMMARY_FIELDS := 3

  function Ids(rows: seq<Row>): set<string> {
    set r | r in rows :: r.id
  }

  function Years(rows: seq<Row>): set<string> {
    set r | r in rows :: r.year
  }

  // ----- What the statements do -----

  /** `DELETE FROM t WHERE cve_id IN (SELECT cve_id FROM other)` */
  function DeleteOutdated(t: Table, other: Table): Table {
    if t == [] then []
    else (if t[0].id in Ids(other) then [] else [t[0]]) + DeleteOutdated(t[1..], other)
  }

  /** `SELECT * FROM t AS new WHERE new.year IN (SELECT distinct(year) FROM other)` */
  function ExtractRelevant(t: Table, other: Table): seq<Row> {
    if t == [] then []
    else (if t[0].year in Years(other) then [t[0]] else []) + ExtractRelevant(t[1..], other)
  }

  /** The rows that an insertion adds: each one once, and none with a wrong number of fields. */
  function Insertable(rows: seq<Row>, fields: nat): set<Row> {
    set r | r in rows && |r.fields| == fields
  }

  lemma {:induction false} DeletedCount(t: Table, other: Table, r: Row)
    ensures multiset(DeleteOutdated(t, other))[r] == if r.id in Ids(other) then 0 else multiset(t)[r]
  {
    if t != [] {
      DeletedCount(t[1..], other, r);
      assert t == [t[0]] + t[1..];
    }
  }

  lemma {:induction false} RelevantRows(t: Table, other: Table, r: Row)
    ensures r in ExtractRelevant(t, other) <==> r in t && r.year in Years(other)
  {
    if t != [] {
      RelevantRows(t[1..], other, r);
      assert t == [t[0]] + t[1..];
    }
  }

  lemma {:induction false} ListedOnce(rows: seq<Row>)
    requires NoDup(rows)
    ensures multiset(rows) == multiset(ToSet(rows))
  {
    if rows != [] {
      SplitHead(rows);
      ListedOnce(rows[1..]);
      assert rows == [rows[0]] + rows[1..];
    }
  }

  // ----- Rows from entries -----

  /** A CVE with one list of fields per affected product; a wrong CPE leads to a wrong number of fields. */
  datatype CveEntry = CveEntry(id: string, products: seq<seq<string>>)

  datatype CveSummaryEntry = CveSummaryEntry(id: string, fields: seq<string>)

  predicate HasYear(id: string) {
    |Split(id, '-')| > 1
  }

  function YearOf(id: string): string
    requires HasYear(id)
  {
    Split(id, '-')[1]
  }

  function RowsOf(id: string, products: seq<seq<string>>): seq<Row>
    requires HasYear(id)
  {
    seq(|products|, i requires 0 <= i < |products| => Row(id, YearOf(id), products[i]))
  }

  ghost predicate YearsOk(rows: seq<Row>) {
    forall r :: r in rows ==> HasYear(r.id) && r.year == YearOf(r.id)
  }

  ghost predicate IsRowOf(id: string, fields: seq<string>, r: Row) {
    r.id == id && r.fields == fields && HasYear(id) && r.year == YearOf(id)
  }

  /** A row for one of the affected products of a CVE. */
  ghost predicate IsFeedRow(cves: seq<CveEntry>, r: Row) {
    exists i, j :: 0 <= i < |cves| && 0 <= j < |cves[i].products| && IsRowOf(cves[i].id, cves[i].products[j], r)
  }

  ghost predicate IsSummaryRow(summaries: seq<CveSummaryEntry>, r: Row) {
    exists i :: 0 <= i < |summaries| && IsRowOf(summaries[i].id, summaries[i].fields, r)
  }

  method SetupCveFeedsTable(cves: seq<CveEntry>) returns (rows: seq<Row>)
    requires forall e :: e in cves ==> HasYear(e.id)
    ensures forall r :: r in rows <==> IsFeedRow(cves, r)
  {
    rows := [];
    for i := 0 to |cves|
      invariant forall r :: r in rows <==> IsFeedRow(cves[..i], r)
    {
      var more := RowsOf(cves[i].id, cves[i].products);
      forall r
        ensures r in rows + more <==> IsFeedRow(cves[..i + 1], r)
      {
        OneMoreEntry(cves, i, r);
        if j :| 0 <= j < |cves[i].products| && IsRowOf(cves[i].id, cves[i].products[j], r) {
          assert more[j] == r;
        }
      }
      rows := rows + more;
    }
    assert cves[..|cves|] == cves;
  }

  lemma OneMoreEntry(cves: seq<CveEntry>, i: nat, r: Row)
    requires i < |cves|
    ensures IsFeedRow(cves[..i + 1], r)
       <==> IsFeedRow(cves[..i], r)
            || exists j :: 0 <= j < |cves[i].products| && IsRowOf(cves[i].id, cves[i].products[j], r)
  {
    if IsFeedRow(cves[..i], r) {
      var k, j :| 0 <= k < i && 0 <= j < |cves[..i][k].products| && IsRowOf(cves[..i][k].id, cves[..i][k].products[j], r);
      assert cves[..i + 1][k] == cves[k];
    }
    if j :| 0 <= j < |cves[i].products| && IsRowOf(cves[i].id, cves[i].products[j], r) {
      assert cves[..i + 1][i] == cves[i];
    }
    if IsFeedRow(cves[..i + 1], r) {
      var k, j :| 0 <= k < i + 1 && 0 <= j < |cves[..i + 1][k].products|
                  && IsRowOf(cves[..i + 1][k].id, cves[..i + 1][k].products[j], r);
      assert k < i ==> cves[..i][k] == cves[k];
    }
  }

  function SetupCveSummaryTable(summaries: seq<CveSummaryEntry>): (rows: seq<Row>)
    requires forall e :: e in summaries ==> HasYear(e.id)
    ensures forall r :: r in rows <==> IsSummaryRow(summaries, r)
  {
    var rows := seq(|summaries|, i requires 0 <= i < |summaries| =>
                                   Row(summaries[i].id, YearOf(summaries[i].id), summaries[i].fields));
    assert forall i :: 0 <= i < |summaries| ==> IsRowOf(summaries[i].id, summaries[i].fields, rows[i]);
    rows
  }

  // ----- The update -----

  /** The feed table after rows of `feeds` replaced the older ones; years that it does not have are left out. */
  ghost predicate FeedsUpdated(cve: Table, feeds: Table, cve': Table) {
    multiset(cve') == multiset(DeleteOutdated(cve, feeds)) + multiset(Insertable(ExtractRelevant(feeds, cve), FEED_FIELDS))
  }

  ghost predicate SummariesUpdated(cve: Table, summary: Table, feeds: Table, summaries: Table, summary': Table) {
    multiset(summary') == multiset(DeleteOutdated(DeleteOutdated(summary, summaries), feeds))
                        + multiset(Insertable(ExtractRelevant(summaries, cve), SUMMARY_FIELDS))
  }

  function TableOf(t: Option<Table>): Table {
    if t.Some? then t.value else []
  }

  class CveDatabase {
    var cveTable: Option<Table>
    var summaryTable: Option<Table>
    var tempFeeds: Option<Table>
    var tempSum: Option<Table>

    /** The temporary tables may be there, if an update was interrupted. */
    ghost predicate Valid()
      reads this
    {
      IsFilled(TableOf(tempFeeds), FEED_FIELDS) && IsFilled(TableOf(tempSum), SUMMARY_FIELDS)
    }

    /** `insert_rows` */
    method Inserted(t: Table, rows: seq<Row>, fields: nat) returns (t': Table)
      ensures multiset(t') == multiset(t) + multiset(Insertable(rows, fields))
    {
      var list := SetToList(Insertable(rows, fields));
      ListedOnce(list);
      t' := t + list;
    }

    /** A table that exists already, from an update that was interrupted, is filled up. */
    method InitCveFeedsTable(rows: seq<Row>)
      modifies this`tempFeeds
      ensures tempFeeds.Some?
      ensures multiset(tempFeeds.value) == multiset(TableOf(old(tempFeeds))) + multiset(Insertable(rows, FEED_FIELDS))
    {
      var t := Inserted(TableOf(tempFeeds), rows, FEED_FIELDS);
      tempFeeds := Some(t);
    }

    method InitCveSummariesTable(rows: seq<Row>)
      modifies this`tempSum
      ensures tempSum.Some?
      ensures multiset(tempSum.value) == multiset(TableOf(old(tempSum))) + multiset(Insertable(rows, SUMMARY_FIELDS))
    {
      var t := Inserted(TableOf(tempSum), rows, SUMMARY_FIELDS);
      tempSum := Some(t);
    }

    method UpdateCveFeeds()
      requires cveTable.Some? && tempFeeds.Some?
      modifies this`cveTable
      ensures cveTable.Some? && FeedsUpdated(old(cveTable.value), tempFeeds.value, cveTable.value)
    {
      var feeds := ExtractRelevant(tempFeeds.value, cveTable.value);
      cveTable := Some(DeleteOutdated(cveTable.value, tempFeeds.value));
      var t := Inserted(cveTable.value, feeds, FEED_FIELDS);
      cveTable := Some(t);
    }

    method UpdateCveSummaries()
      requires cveTable.Some? && tempFeeds.Some? && tempSum.Some?
      modifies this`cveTable, this`summaryTable
      ensures cveTable == Some(DeleteOutdated(old(cveTable.value), tempSum.value)) && summaryTable.Some?
      ensures SummariesUpdated(old(cveTable.value), TableOf(old(summaryTable)), tempFeeds.value, tempSum.value, summaryTable.value)
    {
      var summaries := ExtractRelevant(tempSum.value, cveTable.value);
      if summaryTable.Some? {
        summaryTable := Some(DeleteOutdated(summaryTable.value, tempSum.value));
        summaryTable := Some(DeleteOutdated(summaryTable.value, tempFeeds.value));
      } else {
        summaryTable := Some([]);
      }
      cveTable := Some(DeleteOutdated(cveTable.value, tempSum.value));
      var t := Inserted(summaryTable.value, summaries, SUMMARY_FIELDS);
      summaryTable := Some(t);
    }

    /** Fails if no CVEs were imported before. Summaries are only touched if the update holds any. */
    method UpdateCveRepository(cves: seq<CveEntry>, summaries: seq<CveSummaryEntry>) returns (ok: bool, ghost u: Update)
      requires Valid()
      requires forall e :: e in cves ==> HasYear(e.id)
      requires forall e :: e in summaries ==> HasYear(e.id)
      modifies this
      ensures Valid() && ok == old(cveTable.Some?)
      ensures tempFeeds == if ok then None else old(tempFeeds)
      ensures tempSum == if ok && summaries != [] then None else old(tempSum)
      ensures !ok ==> cveTable == old(cveTable) && summaryTable == old(summaryTable)
      ensures ok ==> cveTable.Some? && IsUpdate(u)
      ensures ok ==> IsFor(u, cves, summaries, old(TableOf(tempFeeds)), old(TableOf(tempSum)))
      ensures ok ==> u.cve == old(TableOf(cveTable)) && u.summary == old(TableOf(summaryTable))
      ensures ok ==> u.cveAfter == cveTable.value && u.summaryAfter == TableOf(summaryTable)
    {
      u := Update([], [], [], [], false, [], [], []);
      if cveTable.None? {
        return false, u;
      }
      ghost var cve, summary := cveTable.value, TableOf(summaryTable);
      StoreFeeds(cves);
      ghost var feeds, sums, middle := tempFeeds.value, [], cveTable.value;
      if summaries != [] {
        sums := StoreSummaries(summaries);
      }
      tempFeeds := None;
      ok, u := true, Update(cve, summary, feeds, sums, summaries != [], middle, cveTable.value, TableOf(summaryTable));
    }

    method StoreFeeds(cves: seq<CveEntry>)
      requires Valid() && cveTable.Some? && forall e :: e in cves ==> HasYear(e.id)
      modifies this`tempFeeds, this`cveTable
      ensures Valid() && tempFeeds.Some? && cveTable.Some?
      ensures FeedsUpdated(old(cveTable.value), tempFeeds.value, cveTable.value)
      ensures forall r :: r in tempFeeds.value
                     <==> r in old(TableOf(tempFeeds)) || (IsFeedRow(cves, r) && |r.fields| == FEED_FIELDS)
    {
      var rows := SetupCveFeedsTable(cves);
      InitCveFeedsTable(rows);
      SameRows(tempFeeds.value, old(TableOf(tempFeeds)), Insertable(rows, FEED_FIELDS));
      UpdateCveFeeds();
    }

    method StoreSummaries(summaries: seq<CveSummaryEntry>) returns (ghost sums: Table)
      requires Valid() && tempFeeds.Some? && cveTable.Some? && forall e :: e in summaries ==> HasYear(e.id)
      modifies this`tempSum, this`cveTable, this`summaryTable
      ensures Valid() && tempSum == None && summaryTable.Some? && cveTable == Some(DeleteOutdated(old(cveTable.value), sums))
      ensures SummariesUpdated(old(cveTable.value), old(TableOf(summaryTable)), tempFeeds.value, sums, summaryTable.value)
      ensures IsFilled(sums, SUMMARY_FIELDS)
      ensures forall r :: r in sums
                     <==> r in old(TableOf(tempSum)) || (IsSummaryRow(summaries, r) && |r.fields| == SUMMARY_FIELDS)
    {
      var rows := SetupCveSummaryTable(summaries);
      InitCveSummariesTable(rows);
      sums := tempSum.value;
      SameRows(sums, old(TableOf(tempSum)), Insertable(rows, SUMMARY_FIELDS));
      UpdateCveSummaries();
      tempSum := None;
    }
  }

  // ----- What an update achieves -----

  /** The tables before and after an update, and the rows it brings. `middle` is the feed table in between. */
  datatype Update = Update(cve: Table, summary: Table, feeds: Table, sums: Table, ran: bool,
                           middle: Table, cveAfter: Table, summaryAfter: Table)

  ghost predicate IsUpdate(u: Update) {
    && YearsOk(u.feeds) && YearsOk(u.sums)
    && FeedsUpdated(u.cve, u.feeds, u.middle)
    && (if u.ran then
          u.cveAfter == DeleteOutdated(u.middle, u.sums)
          && SummariesUpdated(u.middle, u.summary, u.feeds, u.sums, u.summaryAfter)
        else u.sums == [] && u.cveAfter == u.middle && u.summaryAfter == u.summary)
    && (forall r :: r in u.feeds ==> |r.fields| == FEED_FIELDS)
    && (forall r :: r in u.sums ==> |r.fields| == SUMMARY_FIELDS)
  }

  /** The rows are those of the downloaded entries, and those left behind by an update that was interrupted. */
  ghost predicate IsFor(u: Update, cves: seq<CveEntry>, summaries: seq<CveSummaryEntry>, oldFeeds: Table, oldSums: Table) {
    && u.ran == (summaries != [])
    && (forall r :: r in u.feeds <==> r in oldFeeds || (IsFeedRow(cves, r) && |r.fields| == FEED_FIELDS))
    && (u.ran ==> forall r :: r in u.sums <==> r in oldSums || (IsSummaryRow(summaries, r) && |r.fields| == SUMMARY_FIELDS))
  }

  /** A table that was filled from entries. */
  ghost predicate IsFilled(t: Table, fields: nat) {
    YearsOk(t) && forall r :: r in t ==> |r.fields| == fields
  }

  lemma SameRows(t: Table, before: Table, rows: set<Row>)
    requires multiset(t) == multiset(before) + multiset(rows)
    ensures forall r :: r in t <==> r in before || r in rows
  {
    forall r
      ensures r in t <==> r in before || r in rows
    {
      assert r in multiset(t) <==> r in multiset(before) || r in multiset(rows);
    }
  }

  lemma InsertedCount(t: Table, other: Table, fields: nat, r: Row)
    requires forall x :: x in t ==> |x.fields| == fields
    ensures multiset(Insertable(ExtractRelevant(t, other), fields))[r] == if r in t && r.year in Years(other) then 1 else 0
  {
    RelevantRows(t, other, r);
  }

  /** The rows of the feed table before the summaries are handled. */
  lemma FeedCount(u: Update, r: Row)
    requires IsUpdate(u)
    ensures multiset(u.middle)[r]
         == if r.id !in Ids(u.feeds) then multiset(u.cve)[r] else if r in u.feeds && r.year in Years(u.cve) then 1 else 0
  {
    DeletedCount(u.cve, u.feeds, r);
    InsertedCount(u.feeds, u.cve, FEED_FIELDS, r);
  }

  lemma CveCount(u: Update, r: Row)
    requires IsUpdate(u)
    ensures multiset(u.cveAfter)[r] == if r.id in Ids(u.sums) then 0 else multiset(u.middle)[r]
  {
    DeletedCount(u.middle, u.sums, r);
  }

  lemma SummaryCount(u: Update, r: Row)
    requires IsUpdate(u) && u.ran
    ensures multiset(u.summaryAfter)[r]
         == if r.id in Ids(u.sums) then (if r in u.sums && r.year in Years(u.middle) then 1 else 0)
            else if r.id in Ids(u.feeds) then 0
            else multiset(u.summary)[r]
  {
    DeletedCount(DeleteOutdated(u.summary, u.sums), u.feeds, r);
    DeletedCount(u.summary, u.sums, r);
    InsertedCount(u.sums, u.middle, SUMMARY_FIELDS, r);
  }

  lemma SameYear(a: Table, b: Table, r: Row, q: Row)
    requires YearsOk(a) && YearsOk(b) && r in a && q in b && r.id == q.id
    ensures r.year == q.year
  {
  }

  /** Replacing the rows of the feed table neither adds a year nor removes one. */
  lemma YearsKept(u: Update)
    requires IsUpdate(u) && YearsOk(u.cve)
    ensures Years(u.middle) == Years(u.cve) && Ids(u.cve) <= Ids(u.middle)
  {
    forall r | r in u.middle
      ensures r.year in Years(u.cve)
    {
      FeedCount(u, r);
    }
    forall r | r in u.cve
      ensures r.year in Years(u.middle) && r.id in Ids(u.middle)
    {
      if r.id in Ids(u.feeds) {
        var q :| q in u.feeds && q.id == r.id;
        SameYear(u.cve, u.feeds, r, q);
        FeedCount(u, q);
        assert q in u.middle;
      } else {
        FeedCount(u, r);
        assert r in u.middle;
      }
    }
  }

  /** The rows of updated entries are in step with their years again. */
  lemma YearsStayOk(u: Update)
    requires IsUpdate(u) && YearsOk(u.cve) && YearsOk(u.summary)
    ensures YearsOk(u.cveAfter) && YearsOk(u.summaryAfter)
  {
    forall r | r in u.cveAfter
      ensures HasYear(r.id) && r.year == YearOf(r.id)
    {
      CveCount(u, r);
      FeedCount(u, r);
    }
    forall r | r in u.summaryAfter
      ensures HasYear(r.id) && r.year == YearOf(r.id)
    {
      if u.ran {
        SummaryCount(u, r);
      }
    }
  }

  /** The entries of an update that reach the feed table. */
  function Relevant(u: Update): set<string> {
    set r | r in u.feeds && r.year in Years(u.cve) :: r.id
  }

  /** No identifier is in both tables, unless the update holds no summaries and moves a summary to the feeds. */
  lemma DisjointIff(u: Update)
    requires IsUpdate(u) && Ids(u.cve) !! Ids(u.summary)
    ensures Ids(u.cveAfter) !! Ids(u.summaryAfter) <==> u.ran || Relevant(u) !! Ids(u.summary)
  {
    if u.ran {
      forall r, q | r in u.cveAfter && q in u.summaryAfter
        ensures r.id != q.id
      {
        CveCount(u, r);
        FeedCount(u, r);
        SummaryCount(u, q);
        assert r in u.cve ==> r.id in Ids(u.cve);
        assert q in u.summary ==> q.id in Ids(u.summary);
      }
    } else {
      DisjointWithoutSummaries(u);
    }
  }

  lemma DisjointWithoutSummaries(u: Update)
    requires IsUpdate(u) && Ids(u.cve) !! Ids(u.summary) && !u.ran
    ensures Ids(u.cveAfter) !! Ids(u.summaryAfter) <==> Relevant(u) !! Ids(u.summary)
  {
    forall r | r in u.cveAfter
      ensures r.id in Ids(u.cve) || r.id in Relevant(u)
    {
      FeedCount(u, r);
      if r.id !in Ids(u.feeds) {
        assert r in u.cve;
      }
    }
    forall r | r in u.feeds && r.year in Years(u.cve)
      ensures r.id in Ids(u.cveAfter)
    {
      FeedCount(u, r);
      assert r in u.cveAfter;
    }
  }

  /** The CVE of 2019 with a number, such as CVE-2019-1. */
  function CveOf2019(number: string): string {
    "CVE-2019" + "-" + number
  }

  function RowOf2019(number: string, fields: nat): Row {
    Row(CveOf2019(number), "2019", seq(fields, _ => ""))
  }

  lemma YearIs2019(number: string)
    requires '-' !in number
    ensures HasYear(CveOf2019(number)) && YearOf(CveOf2019(number)) == "2019"
  {
    SplitLast("CVE-2019", number, '-');
    SplitLast("CVE", "2019", '-');
    SplitWord("CVE", '-');
    assert "CVE-2019" == "CVE" + "-" + "2019";
  }

  lemma NumbersDiffer(m: string, n: string)
    requires m != n
    ensures CveOf2019(m) != CveOf2019(n)
  {
    assert CveOf2019(m)[9..] == m && CveOf2019(n)[9..] == n;
  }

  /**
   An update without summaries: the CVE with number `n` was stored as a summary, now its products are known, and a
   feed row of the same year is stored already. The identifier ends in both tables.
   */
  lemma SummaryBecomesFeed(m: string, n: string) returns (u: Update)
    requires m != n && '-' !in m && '-' !in n
    ensures IsUpdate(u) && YearsOk(u.cve) && YearsOk(u.summary) && u.sums == []
    ensures Ids(u.cve) == {CveOf2019(m)} && Ids(u.summary) == Ids(u.feeds) == {CveOf2019(n)}
    ensures CveOf2019(n) in Ids(u.cveAfter) && CveOf2019(n) in Ids(u.summaryAfter)
  {
    YearIs2019(m);
    YearIs2019(n);
    NumbersDiffer(m, n);
    u := MovedToFeeds(RowOf2019(m, FEED_FIELDS), RowOf2019(n, FEED_FIELDS), RowOf2019(n, SUMMARY_FIELDS));
  }

  lemma MovedToFeeds(x: Row, y: Row, s: Row) returns (u: Update)
    requires YearsOk([x]) && YearsOk([y]) && YearsOk([s]) && x.id != y.id && y.id == s.id && x.year == y.year
    requires |y.fields| == FEED_FIELDS
    ensures IsUpdate(u) && YearsOk(u.cve) && YearsOk(u.summary) && u.sums == []
    ensures Ids(u.cve) == {x.id} && Ids(u.summary) == Ids(u.feeds) == {y.id}
    ensures y.id in Ids(u.cveAfter) && y.id in Ids(u.summaryAfter)
  {
    u := Update([x], [s], [y], [], false, [x, y], [x, y], [s]);
    OneFeedAdded(x, y);
    assert x in u.cve && s in u.summary && y in u.feeds && y in u.cveAfter && s in u.summaryAfter;
  }

  lemma OneFeedAdded(x: Row, y: Row)
    requires x.id != y.id && x.year == y.year && |y.fields| == FEED_FIELDS
    ensures FeedsUpdated([x], [y], [x, y])
  {
    assert [x][1..] == [] && [y][1..] == [] && x in [x] && y in [y];
    assert ExtractRelevant([y], [x]) == [y] && DeleteOutdated([x], [y]) == [x];
    assert Insertable([y], FEED_FIELDS) == {y};
    assert [x, y] == [x] + [y];
  }

  /** An identifier that the update does not mention keeps its rows. */
  lemma OthersKeepTheirRows(u: Update, r: Row)
    requires IsUpdate(u) && r.id !in Ids(u.feeds) && r.id !in Ids(u.sums)
    ensures multiset(u.cveAfter)[r] == multiset(u.cve)[r] && multiset(u.summaryAfter)[r] == multiset(u.summary)[r]
  {
    CveCount(u, r);
    FeedCount(u, r);
    if u.ran {
      SummaryCount(u, r);
    }
  }

  /** An updated identifier of a known year has exactly the new rows, each of them once. */
  lemma UpdatedRowsAreNew(u: Update, id: string, r: Row)
    requires IsUpdate(u) && YearsOk(u.cve) && r.id == id && HasYear(id) && YearOf(id) in Years(u.cve)
    ensures id in Ids(u.feeds) && id !in Ids(u.sums) ==>
              multiset(u.cveAfter)[r] == (if r in u.feeds then 1 else 0) && (u.ran ==> multiset(u.summaryAfter)[r] == 0)
    ensures id in Ids(u.sums) ==>
              multiset(u.summaryAfter)[r] == (if r in u.sums then 1 else 0) && multiset(u.cveAfter)[r] == 0
  {
    YearsKept(u);
    CveCount(u, r);
    FeedCount(u, r);
    if u.ran {
      SummaryCount(u, r);
    }
  }

  /** The stored summaries that the update mentions, although the feed table has no CVE of their year. */
  function AtRisk(u: Update): set<string> {
    set r | r in u.summary && r.year !in Years(u.cve) && (r.id in Ids(u.feeds) || r.id in Ids(u.sums)) :: r.id
  }

  /** Exactly the summaries at risk are lost; without summaries in the update nothing is. */
  lemma NothingDisappearsIff(u: Update)
    requires IsUpdate(u) && YearsOk(u.cve) && YearsOk(u.summary)
    ensures Ids(u.cve) + Ids(u.summary) <= Ids(u.cveAfter) + Ids(u.summaryAfter) <==> !u.ran || AtRisk(u) == {}
  {
    YearsKept(u);
    forall r | r in u.cve
      ensures r.id in Ids(u.cveAfter) + Ids(u.summaryAfter)
    {
      KnownIdStays(u, r);
    }
    if u.ran {
      forall r | r in u.summary
        ensures r.id in Ids(u.cveAfter) + Ids(u.summaryAfter) <==> r.id !in AtRisk(u)
      {
        SummaryStaysIff(u, r);
      }
      if AtRisk(u) != {} {
        var id :| id in AtRisk(u);
        assert id in Ids(u.summary);
      }
    }
  }

  lemma SameYearHere(t: Table, q: Row, r: Row)
    requires YearsOk(t) && q in t && q.id == r.id && HasYear(r.id) && r.year == YearOf(r.id)
    ensures q.year == r.year
  {
  }

  lemma NewSummaryIsStored(u: Update, q: Row)
    requires IsUpdate(u) && u.ran && q in u.sums && q.year in Years(u.middle)
    ensures q.id in Ids(u.summaryAfter)
  {
    assert q.id in Ids(u.sums);
    SummaryCount(u, q);
    assert q in u.summaryAfter;
  }

  lemma NewFeedIsStored(u: Update, q: Row)
    requires IsUpdate(u) && q in u.feeds && q.id !in Ids(u.sums) && q.year in Years(u.cve)
    ensures q.id in Ids(u.cveAfter)
  {
    assert q.id in Ids(u.feeds);
    FeedCount(u, q);
    CveCount(u, q);
    assert q in u.cveAfter;
  }

  /** An identifier whose year is known stays in one of the tables. */
  lemma KnownIdStays(u: Update, r: Row)
    requires IsUpdate(u) && YearsOk(u.cve) && r.year in Years(u.cve) && HasYear(r.id) && r.year == YearOf(r.id)
    requires r in u.cve || (u.ran && r in u.summary)
    ensures r.id in Ids(u.cveAfter) + Ids(u.summaryAfter)
  {
    YearsKept(u);
    if r.id in Ids(u.sums) {
      var q :| q in u.sums && q.id == r.id;
      SameYearHere(u.sums, q, r);
      NewSummaryIsStored(u, q);
    } else if r.id in Ids(u.feeds) {
      var q :| q in u.feeds && q.id == r.id;
      SameYearHere(u.feeds, q, r);
      NewFeedIsStored(u, q);
    } else {
      OthersKeepTheirRows(u, r);
      assert r in u.cveAfter || r in u.summaryAfter;
    }
  }

  lemma SummaryStaysIff(u: Update, r: Row)
    requires IsUpdate(u) && YearsOk(u.cve) && YearsOk(u.summary) && u.ran && r in u.summary
    ensures r.id in Ids(u.cveAfter) + Ids(u.summaryAfter) <==> r.id !in AtRisk(u)
  {
    if r.id in AtRisk(u) {
      var s :| s in u.summary && s.year !in Years(u.cve) && s.id == r.id;
      forall q: Row | q.id == r.id
        ensures q !in u.cveAfter && q !in u.summaryAfter
      {
        UnknownYearIsLost(u, s, q);
      }
    } else if r.year in Years(u.cve) {
      KnownIdStays(u, r);
    } else {
      OthersKeepTheirRows(u, r);
      assert r in u.summaryAfter;
    }
  }

  lemma UnknownYearIsLost(u: Update, s: Row, q: Row)
    requires IsUpdate(u) && YearsOk(u.cve) && YearsOk(u.summary) && u.ran && s in u.summary && s.year !in Years(u.cve)
    requires s.id in Ids(u.feeds) || s.id in Ids(u.sums)
    requires q.id == s.id
    ensures q !in u.cveAfter && q !in u.summaryAfter
  {
    YearsKept(u);
    SummaryCount(u, q);
    CveCount(u, q);
    FeedCount(u, q);
    if q in u.cve {
      SameYear(u.cve, u.summary, q, s);
    }
  }

  /** If all summaries are of known years, nothing disappears. */
  lemma KnownYearsAreEnough(u: Update)
    requires IsUpdate(u) && YearsOk(u.cve) && YearsOk(u.summary) && Years(u.summary) <= Years(u.cve)
    ensures Ids(u.cve) + Ids(u.summary) <= Ids(u.cveAfter) + Ids(u.summaryAfter)
  {
    NothingDisappearsIff(u);
  }

  /**
   That all summaries are of known years does not survive an update: when the only CVE of a year becomes
   a summary, the next update that mentions it loses it.
   */
  lemma TwoUpdatesLoseASummary(id: string, a: seq<string>, b: seq<string>, c: seq<string>) returns (u: Update, v: Update)
    requires HasYear(id) && |a| == FEED_FIELDS && |b| == |c| == SUMMARY_FIELDS
    ensures IsUpdate(u) && YearsOk(u.cve) && u.summary == [] && id in Ids(u.cve)
    ensures IsUpdate(v) && v.cve == u.cveAfter && v.summary == u.summaryAfter && id in Ids(v.sums)
    ensures id !in Ids(v.cveAfter) + Ids(v.summaryAfter)
  {
    var x, y, z := Row(id, YearOf(id), a), Row(id, YearOf(id), b), Row(id, YearOf(id), c);
    u := BecomesSummary(x, y);
    v := LosesSummary(y, z);
    assert x in u.cve && z in v.sums;
  }

  lemma BecomesSummary(x: Row, y: Row) returns (u: Update)
    requires x.id == y.id && HasYear(x.id) && x.year == y.year == YearOf(x.id)
    requires |x.fields| == FEED_FIELDS && |y.fields| == SUMMARY_FIELDS
    ensures u.cve == [x] && u.summary == [] && u.cveAfter == [] && u.summaryAfter == [y] && IsUpdate(u)
  {
    u := Update([x], [], [], [y], true, [x], [], [y]);
    SingleRow(x, y);
    assert Insertable([], FEED_FIELDS) == {} && Insertable([y], SUMMARY_FIELDS) == {y};
  }

  lemma LosesSummary(y: Row, z: Row) returns (v: Update)
    requires y.id == z.id && HasYear(z.id) && z.year == YearOf(z.id) && |z.fields| == SUMMARY_FIELDS
    ensures v.cve == [] && v.summary == [y] && v.sums == [z] && v.cveAfter == [] && v.summaryAfter == [] && IsUpdate(v)
  {
    v := Update([], [y], [], [z], true, [], [], []);
    SingleRow(y, z);
    assert Insertable([], FEED_FIELDS) == {} && Insertable([], SUMMARY_FIELDS) == {};
  }

  lemma SingleRow(x: Row, y: Row)
    ensures DeleteOutdated([x], []) == [x] && DeleteOutdated([], [y]) == []
    ensures x.id == y.id ==> DeleteOutdated([x], [y]) == []
    ensures ExtractRelevant([], [x]) == [] && ExtractRelevant([y], []) == []
    ensures x.year == y.year ==> ExtractRelevant([y], [x]) == [y]
  {
    assert [x][1..] == [] && [y][1..] == [] && x in [x] && y in [y];
  }
}
