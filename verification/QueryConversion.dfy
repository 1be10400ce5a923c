/**
 Search dictionaries and the SQL queries that are built from them (src/storage/query_conversion.py).
 Rows are maps from columns to values, where a missing column is NULL; the SQL operators are a
 parameter and may yield NULL.
 */
module QueryConversion {
  import opened Basics

  // ----- Values of a database -----

  /** A JSON value: `Dumps` is its serialisation, which is a text of its own, and `Object` a dictionary. */
  datatype Scalar = Json(text: string) | Dumps(of: Scalar) | Object(entries: Entries)

  /** A dictionary in the order of insertion. */
  type Entries = seq<(string, Scalar)>

  const JSON_NULL := Json("null")

  type Row = map<string, Scalar>

  function Cell(row: Row, column: string): Option<Scalar> {
    if column in row then Some(row[column]) else None
  }

  /** Every firmware has a file entry with the same identifier; a file has at most one analysis per plugin. */
  datatype Db = Db(files: map<Uid, Row>, firmware: map<Uid, Row>, analyses: map<(Uid, string), Row>, roots: map<Uid, set<Uid>>)

  ghost predicate DbOk(db: Db) {
    db.firmware.Keys <= db.files.Keys && db.roots.Keys == db.files.Keys
  }

  /** Three-valued logic. */
  datatype Truth = Yes | No | Null

  function Bool(b: bool): Truth {
    if b then Yes else No
  }

  function And3(a: Truth, b: Truth): Truth {
    if a == No || b == No then No else if a == Null || b == Null then Null else Yes
  }

  function Or3(a: Truth, b: Truth): Truth {
    if a == Yes || b == Yes then Yes else if a == Null || b == Null then Null else No
  }

  /** Operator, value of the column, argument. */
  type Operators = (string, Scalar, Option<Scalar>) -> Truth

  // ----- Search dictionaries -----

  /** A key, classified by the table that has a column of that name. */
  datatype Key =
    | IdKey
    | FileKey(column: string)
    | FirmwareKey(column: string)
    | AnalysisKey(plugin: string, subkey: string)
    | OtherKey(name: string)

  datatype Value = Plain(value: Option<Scalar>) | Options(options: Entries)

  type Conditions = map<Key, Value>

  datatype SearchDict = SearchDict(disjunction: Option<SearchDict>, conditions: Conditions)

  const EMPTY := SearchDict(None, map[])

  datatype Result<T> = Ok(value: T) | QueryConversionException

  // ----- Filters -----

  /** Comparison with Python's None becomes IS NULL; all other operators yield NULL on NULL. */
  datatype Filter = EqualTo(value: Option<Scalar>) | Operator(name: string, argument: Option<Scalar>)

  function Eval(ops: Operators, f: Filter, cell: Option<Scalar>): Truth {
    match f
    case EqualTo(None) => Bool(cell.None?)
    case EqualTo(Some(v)) => if cell.None? then Null else Bool(cell.value == v)
    case Operator(name, argument) => if cell.None? then Null else ops(name, cell.value, argument)
  }

  function Lookup(o: Entries, name: string): Option<Scalar> {
    if o == [] then None else if o[0].0 == name then Some(o[0].1) else Lookup(o[1..], name)
  }

  predicate Has(o: Entries, name: string) {
    Lookup(o, name).Some?
  }

  /** The first supported option decides. */
  function Decides(o: Entries): (r: Option<string>)
    ensures r.Some? ==> Has(o, r.value)
  {
    if Has(o, "$exists") then Some("$exists")
    else if Has(o, "$regex") then Some("$regex")
    else if Has(o, "$like") then Some("$like")
    else if Has(o, "$in") then Some("$in")
    else if Has(o, "$lt") then Some("$lt")
    else if Has(o, "$gt") then Some("$gt")
    else if Has(o, "$contains") then Some("$contains")
    else None
  }

  /** What the deciding option compares with; "$exists" asks for the key, whatever its value. */
  function OptionFilter(key: string, o: Entries): Result<Filter> {
    match Decides(o)
    case None => QueryConversionException
    case Some(name) => Ok(Operator(name, if name == "$exists" then Some(Json(key)) else Lookup(o, name)))
  }

  /** `_dict_key_to_filter` */
  function FilterOf(key: string, value: Value): Result<Filter> {
    match value
    case Plain(v) => Ok(EqualTo(v))
    case Options(o) => OptionFilter(key, o)
  }

  /** `_get_array_filter` */
  function ArrayFilterOf(key: string, value: Value): Result<Filter> {
    match value
    case Plain(v) => Ok(Operator("$contains", v))
    case Options(o) =>
      if Has(o, "$regex") then OptionFilter(key, o)
      else if Has(o, "$contains") then Ok(Operator("$contains", Lookup(o, "$contains")))
      else if Has(o, "$overlap") then Ok(Operator("$overlap", Lookup(o, "$overlap")))
      else QueryConversionException
  }

  /** Columns and relationships of an analysis entry; any other key is a path into its result. */
  const METADATA := {"uid", "plugin", "plugin_version", "system_version", "analysis_date", "summary", "tags",
                     "result", "file_object", "metadata", "registry"}

  /** A metadata column is compared with whatever value was given, which never fails. */
  function MetadataFilterOf(subkey: string, value: Value): Result<Filter> {
    if subkey == "summary" then ArrayFilterOf(subkey, value)
    else match value
      case Plain(v) => Ok(EqualTo(v))
      case Options(o) => Ok(EqualTo(Some(Object(o))))
  }

  predicate EndsRewriting(name: string) {
    name == "$in" || name == "$like"
  }

  /** The loop of `_add_json_filter`, which changes the options in place until it meets "$in" or "$like". */
  function Rewrite(o: Entries): (r: Entries)
    ensures |r| == |o|
  {
    if o == [] || EndsRewriting(o[0].0) then o else [(o[0].0, Dumps(o[0].1))] + Rewrite(o[1..])
  }

  /** "$in" and "$like" compare with the column as text. */
  function OnText(f: Filter): Filter {
    if f.Operator? then Operator("->> " + f.name, f.argument) else f
  }

  /** `_add_json_filter`: the filter is built from the rewritten options; a missing value is JSON's null. */
  function JsonFilterOf(subkey: string, value: Value): Result<Filter> {
    match value
    case Plain(v) => Ok(EqualTo(if v.None? then Some(JSON_NULL) else v))
    case Options(o) =>
      match OptionFilter(subkey, Rewrite(o))
      case QueryConversionException => QueryConversionException
      case Ok(f) => Ok(if Has(o, "$in") || Has(o, "$like") then OnText(f) else f)
  }

  predicate IsJsonKey(k: Key) {
    k.AnalysisKey? && k.subkey !in METADATA
  }

  function FilterFor(k: Key, value: Value): Result<Filter>
    requires Known(k)
  {
    match k
    case FileKey(c) => FilterOf(c, value)
    case FirmwareKey(c) => if c == "firmware_tags" then ArrayFilterOf(c, value) else FilterOf(c, value)
    case AnalysisKey(_, subkey) =>
      if subkey in METADATA then MetadataFilterOf(subkey, value) else JsonFilterOf(subkey, value)
  }

  /** What a condition has become once its filter was built. */
  function LeftValue(k: Key, value: Value): Value {
    if IsJsonKey(k) && value.Options? then Options(Rewrite(value.options)) else value
  }

  function LeftFor(c: Conditions, keys: set<Key>): Conditions {
    map k | k in c :: if k in keys then LeftValue(k, c[k]) else c[k]
  }

  /** Keys that belong to no table are ignored. */
  predicate Known(k: Key) {
    !k.IdKey? && !k.OtherKey?
  }

  // ----- Building a query -----

  datatype Join = NoJoin | Inner | Outer

  type Term = (Key, Filter)

  /** What is joined to the base table, and the filters, of which all or (`either`) at least one must hold. */
  datatype Select = Select(fwOnly: bool, analyses: bool, firmware: Join, files: bool, filters: seq<Term>, either: bool)

  function Renamed(c: Conditions): Conditions {
    if IdKey in c then (c - {IdKey})[FileKey("uid") := c[IdKey]] else c
  }

  /** The conditions that a dictionary stands for: "$or" hides everything beside it. */
  function Effective(d: SearchDict): Conditions {
    if d.disjunction.Some? then Effective(d.disjunction.value) else Renamed(d.conditions)
  }

  /** The conditions once all filters were built. */
  function Left(c: Conditions): Conditions {
    LeftFor(c, AnalysisKeys(c))
  }

  /** The dictionary that a build leaves behind. */
  function LeftDict(d: SearchDict): SearchDict {
    if d.disjunction.Some? then SearchDict(Some(LeftDict(d.disjunction.value)), d.conditions)
    else SearchDict(None, Left(Renamed(d.conditions)))
  }

  lemma {:induction false} EffectiveLeft(d: SearchDict)
    ensures Effective(LeftDict(d)) == Left(Effective(d)) && (LeftDict(d) == EMPTY <==> d == EMPTY)
  {
    if d.disjunction.Some? {
      EffectiveLeft(d.disjunction.value);
    } else {
      assert IdKey !in Renamed(d.conditions);
      assert LeftDict(d).conditions.Keys == Renamed(d.conditions).Keys;
      assert d.conditions != map[] ==> Renamed(d.conditions).Keys != {} by {
        if k :| k in d.conditions {
          assert (if k == IdKey then FileKey("uid") else k) in Renamed(d.conditions);
        }
      }
    }
  }

  ghost predicate Convertible(c: Conditions) {
    forall k :: k in c && Known(k) ==> FilterFor(k, c[k]).Ok?
  }

  ghost predicate AllOk(c: Conditions, keys: set<Key>) {
    forall k :: k in keys ==> k in c && Known(k) && FilterFor(k, c[k]).Ok?
  }

  /** The filters for some of the conditions. */
  ghost predicate FiltersFor(filters: seq<Term>, c: Conditions, keys: set<Key>) {
    && AllOk(c, keys)
    && (forall t :: t in filters ==> t.0 in keys && FilterFor(t.0, c[t.0]).value == t.1)
    && (forall k :: k in keys ==> (k, FilterFor(k, c[k]).value) in filters)
  }

  function KnownKeys(c: Conditions): set<Key> {
    set k | k in c && Known(k)
  }

  function AnalysisKeys(c: Conditions): set<Key> {
    set k | k in c && k.AnalysisKey?
  }

  function FirmwareKeys(c: Conditions): set<Key> {
    set k | k in c && k.FirmwareKey?
  }

  function FileKeys(c: Conditions): set<Key> {
    set k | k in c && k.FileKey?
  }

  ghost predicate IsSelectFor(q: Select, c: Conditions, fwOnly: bool, either: bool) {
    && q.fwOnly == fwOnly && q.either == either
    && q.analyses == (AnalysisKeys(c) != {})
    && q.firmware == (if fwOnly || FirmwareKeys(c) == {} then NoJoin else if either then Outer else Inner)
    && q.files == (fwOnly && FileKeys(c) != {})
    && FiltersFor(q.filters, c, KnownKeys(c))
  }

  lemma ConvertibleParts(c: Conditions)
    ensures KnownKeys(c) == AnalysisKeys(c) + FirmwareKeys(c) + FileKeys(c)
    ensures Convertible(c) <==> AllOk(c, AnalysisKeys(c)) && AllOk(c, FirmwareKeys(c)) && AllOk(c, FileKeys(c))
  {
    if AllOk(c, AnalysisKeys(c)) && AllOk(c, FirmwareKeys(c)) && AllOk(c, FileKeys(c)) {
      forall k | k in c && Known(k)
        ensures FilterFor(k, c[k]).Ok?
      {
        assert k in AnalysisKeys(c) || k in FirmwareKeys(c) || k in FileKeys(c);
      }
    }
  }

  /** The second result is what the dictionary has become. */
  method BuildQueryFromDict(d: SearchDict, fwOnly: bool, either: bool) returns (r: Result<Select>, left: SearchDict)
    ensures r.Ok? <==> Convertible(Effective(d))
    ensures r.Ok? ==> IsSelectFor(r.value, Effective(d), fwOnly, either || d.disjunction.Some?) && left == LeftDict(d)
    decreases d
  {
    if d.disjunction.Some? {
      var inner;
      r, inner := BuildQueryFromDict(d.disjunction.value, fwOnly, true);
      left := SearchDict(Some(inner), d.conditions);
    } else {
      var c := d.conditions;
      if IdKey in c {
        c := (c - {IdKey})[FileKey("uid") := c[IdKey]];
      }
      r, c := BuildFromConditions(c, fwOnly, either);
      left := SearchDict(None, c);
    }
  }

  /** The part of `build_query_from_dict` after the special keys were replaced. */
  method BuildFromConditions(c: Conditions, fwOnly: bool, either: bool) returns (r: Result<Select>, left: Conditions)
    ensures r.Ok? <==> Convertible(c)
    ensures r.Ok? ==> IsSelectFor(r.value, c, fwOnly, either) && left == Left(c)
  {
    ConvertibleParts(c);
    var filters, analyses, files, firmware := Ok([]), false, false, NoJoin;
    left := c;
    if AnalysisKeys(c) != {} {
      analyses := true;
      filters, left := AddFilters(c, AnalysisKeys(c), [], {});
    }
    if filters.Ok? && FirmwareKeys(c) != {} {
      if !fwOnly {
        firmware := if either then Outer else Inner;
      }
      var same;
      filters, same := AddFilters(c, FirmwareKeys(c), filters.value, AnalysisKeys(c));
    }
    if filters.Ok? && FileKeys(c) != {} {
      files := fwOnly;
      var same;
      filters, same := AddFilters(c, FileKeys(c), filters.value, AnalysisKeys(c) + FirmwareKeys(c));
    }
    r := if filters.Ok? then Ok(Select(fwOnly, analyses, firmware, files, filters.value, either)) else QueryConversionException;
  }

  /** Appends the filters for some more conditions and changes these; `had` are those that were converted before. */
  method AddFilters(c: Conditions, keys: set<Key>, filters: seq<Term>, ghost had: set<Key>)
    returns (r: Result<seq<Term>>, left: Conditions)
    requires FiltersFor(filters, c, had) && forall k :: k in keys ==> k in c && Known(k)
    ensures r.Ok? <==> AllOk(c, keys)
    ensures r.Ok? ==> FiltersFor(r.value, c, had + keys) && left == LeftFor(c, keys)
  {
    var all, rest := filters, keys;
    left := c;
    while rest != {}
      invariant rest <= keys && FiltersFor(all, c, had + (keys - rest))
      invariant left == LeftFor(c, keys - rest)
      decreases rest
    {
      var k :| k in rest;
      var filter := FilterFor(k, left[k]);
      if filter.QueryConversionException? {
        return QueryConversionException, left;
      }
      left := left[k := LeftValue(k, left[k])];
      OneMoreFilter(all, c, had + (keys - rest), k);
      assert had + (keys - (rest - {k})) == had + (keys - rest) + {k};
      all, rest := all + [(k, filter.value)], rest - {k};
    }
    assert keys - rest == keys;
    r := Ok(all);
  }

  lemma OneMoreFilter(filters: seq<Term>, c: Conditions, keys: set<Key>, k: Key)
    requires FiltersFor(filters, c, keys) && k in c && Known(k) && FilterFor(k, c[k]).Ok?
    ensures FiltersFor(filters + [(k, FilterFor(k, c[k]).value)], c, keys + {k})
  {
  }

  // ----- Building again from what is left -----

  /** The option of this name stands before every option that ends the rewriting. */
  predicate IsRewritten(o: Entries, name: string) {
    o != [] && !EndsRewriting(o[0].0) && (o[0].0 == name || IsRewritten(o[1..], name))
  }

  lemma {:induction false} LookupRewritten(o: Entries, name: string)
    ensures Lookup(Rewrite(o), name) == if IsRewritten(o, name) && Has(o, name) then Some(Dumps(Lookup(o, name).value)) else Lookup(o, name)
    ensures IsRewritten(Rewrite(o), name) == IsRewritten(o, name)
  {
    if o != [] && !EndsRewriting(o[0].0) {
      var r := [(o[0].0, Dumps(o[0].1))] + Rewrite(o[1..]);
      assert r[1..] == Rewrite(o[1..]);
      LookupRewritten(o[1..], name);
    }
  }

  lemma DecidesRewritten(o: Entries)
    ensures Decides(Rewrite(o)) == Decides(o)
    ensures forall name :: Has(Rewrite(o), name) <==> Has(o, name)
  {
    forall name
      ensures Has(Rewrite(o), name) <==> Has(o, name)
    {
      LookupRewritten(o, name);
    }
  }

  /** Line 187 does not touch what the filter for this condition compares with. */
  predicate IsStable(k: Key, value: Value) {
    IsJsonKey(k) && value.Options? && Decides(value.options).Some? ==>
      Decides(value.options) == Some("$exists") || !IsRewritten(value.options, Decides(value.options).value)
  }

  /** A filter can be built from what is left of a condition, and it is the same one exactly if nothing was touched. */
  lemma SecondFilter(k: Key, value: Value)
    requires Known(k)
    ensures FilterFor(k, LeftValue(k, value)).Ok? <==> FilterFor(k, value).Ok?
    ensures FilterFor(k, value).Ok? ==> (FilterFor(k, LeftValue(k, value)) == FilterFor(k, value) <==> IsStable(k, value))
  {
    if IsJsonKey(k) && value.Options? {
      var o := value.options;
      DecidesRewritten(o);
      DecidesRewritten(Rewrite(o));
      if Decides(o).Some? {
        LookupRewritten(o, Decides(o).value);
        LookupRewritten(Rewrite(o), Decides(o).value);
      }
    }
  }
}
