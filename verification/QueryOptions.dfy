/**
 What the options of a search mean (src/storage/query_conversion.py), in terms of relations between the value of a
 column and the value that is searched for.
 */
module QueryOptions {
  import opened Basics
  import opened QueryConversion
  import opened QueryMeaning

  /** What the database can say of a column and a value, and the text of a JSON value. */
  datatype Relations = Relations(
    hasKey: (Scalar, Scalar) -> bool,
    matches: (Scalar, Scalar) -> bool,
    resembles: (Scalar, Scalar) -> bool,
    isIn: (Scalar, Scalar) -> bool,
    isLess: (Scalar, Scalar) -> bool,
    contains: (Scalar, Scalar) -> bool,
    overlaps: (Scalar, Scalar) -> bool,
    text: Scalar -> Scalar)

  /** The operators compare the column (left) with the argument (right). */
  ghost predicate IsStandard(ops: Operators, r: Relations) {
    forall x, a :: IsStandardFor(ops, r, x, a)
  }

  predicate IsStandardFor(ops: Operators, r: Relations, x: Scalar, a: Scalar) {
    && ops("$exists", x, Some(a)) == Bool(r.hasKey(x, a))
    && ops("$regex", x, Some(a)) == Bool(r.matches(x, a))
    && ops("$like", x, Some(a)) == Bool(r.resembles(x, a))
    && ops("$in", x, Some(a)) == Bool(r.isIn(x, a))
    && ops("$lt", x, Some(a)) == Bool(r.isLess(x, a))
    && ops("$gt", x, Some(a)) == Bool(r.isLess(a, x))
    && ops("$contains", x, Some(a)) == Bool(r.contains(x, a))
    && ops("$overlap", x, Some(a)) == Bool(r.overlaps(x, a))
    && ops("->> $in", x, Some(a)) == Bool(r.isIn(r.text(x), a))
    && ops("->> $like", x, Some(a)) == Bool(r.resembles(r.text(x), a))
  }

  /** Options from the one that is looked at first to the last one. */
  const PRIORITY := ["$exists", "$regex", "$like", "$in", "$lt", "$gt", "$contains"]

  /** Of the options in `o`, number `i` is looked at first. */
  ghost predicate ComesFirst(o: Entries, i: nat) {
    i < |PRIORITY| && Has(o, PRIORITY[i]) && forall j :: 0 <= j < i ==> !Has(o, PRIORITY[j])
  }

  /** What is true of a column value if option number `i` has the given value. */
  ghost predicate Meets(r: Relations, key: string, i: nat, cell: Scalar, a: Scalar) {
    match i
    case 0 => r.hasKey(cell, Json(key))
    case 1 => r.matches(cell, a)
    case 2 => r.resembles(cell, a)
    case 3 => r.isIn(cell, a)
    case 4 => r.isLess(cell, a)
    case 5 => r.isLess(a, cell)
    case 6 => r.contains(cell, a)
    case _ => false
  }

  lemma FirstDecides(o: Entries, i: nat)
    requires ComesFirst(o, i)
    ensures Decides(o) == Some(PRIORITY[i])
  {
    assert forall j :: 0 <= j < i ==> !Has(o, PRIORITY[j]);
    assert PRIORITY[0] == "$exists" && PRIORITY[1] == "$regex" && PRIORITY[2] == "$like" && PRIORITY[3] == "$in";
    assert PRIORITY[4] == "$lt" && PRIORITY[5] == "$gt" && PRIORITY[6] == "$contains";
  }

  /** A condition on a column is true exactly if there is a value that meets the option that is looked at first. */
  lemma ColumnOptionMeans(ops: Operators, r: Relations, key: string, o: Entries, i: nat, cell: Option<Scalar>)
    requires IsStandard(ops, r) && ComesFirst(o, i)
    ensures FilterOf(key, Options(o)).Ok?
    ensures Eval(ops, FilterOf(key, Options(o)).value, cell) == Yes
       <==> cell.Some? && Meets(r, key, i, cell.value, Lookup(o, PRIORITY[i]).value)
  {
    FirstDecides(o, i);
    if cell.Some? {
      assert IsStandardFor(ops, r, cell.value, if i == 0 then Json(key) else Lookup(o, PRIORITY[i]).value);
      OperatorMeans(ops, r, key, i, cell.value, Lookup(o, PRIORITY[i]).value);
    }
  }

  lemma OperatorMeans(ops: Operators, r: Relations, key: string, i: nat, cell: Scalar, a: Scalar)
    requires IsStandardFor(ops, r, cell, if i == 0 then Json(key) else a) && i < |PRIORITY|
    ensures ops(PRIORITY[i], cell, Some(if i == 0 then Json(key) else a)) == Bool(Meets(r, key, i, cell, a))
  {
  }

  /** The search fails exactly if none of these options is there. */
  lemma NoOptionFails(key: string, o: Entries)
    ensures FilterOf(key, Options(o)).Ok? <==> exists i: nat :: i < |PRIORITY| && Has(o, PRIORITY[i])
  {
    assert PRIORITY[0] == "$exists" && PRIORITY[1] == "$regex" && PRIORITY[2] == "$like" && PRIORITY[3] == "$in";
    assert PRIORITY[4] == "$lt" && PRIORITY[5] == "$gt" && PRIORITY[6] == "$contains";
  }

  /** A value without options is compared for equality; None stands for a column without a value. */
  lemma PlainMeans(ops: Operators, key: string, v: Option<Scalar>, cell: Option<Scalar>)
    ensures FilterOf(key, Plain(v)).Ok? && (Eval(ops, FilterOf(key, Plain(v)).value, cell) == Yes <==> cell == v)
  {
  }

  lemma LookupSingle(option: string, a: Scalar, name: string)
    ensures Lookup([(option, a)], name) == if name == option then Some(a) else None
  {
    assert [(option, a)][1..] == [];
  }

  /** An array is searched for a value, for one value of a list, or with a regular expression, which comes first. */
  lemma ArrayMeans(ops: Operators, r: Relations, key: string, value: Value, cell: Scalar, a: Scalar)
    requires IsStandard(ops, r)
    ensures value == Plain(Some(a)) || value == Options([("$contains", a)]) ==>
              && ArrayFilterOf(key, value).Ok?
              && (Eval(ops, ArrayFilterOf(key, value).value, Some(cell)) == Yes <==> r.contains(cell, a))
    ensures value == Options([("$overlap", a)]) ==>
              && ArrayFilterOf(key, value).Ok?
              && (Eval(ops, ArrayFilterOf(key, value).value, Some(cell)) == Yes <==> r.overlaps(cell, a))
    ensures value.Options? && Lookup(value.options, "$regex") == Some(a) && !Has(value.options, "$exists") ==>
              && ArrayFilterOf(key, value).Ok?
              && (Eval(ops, ArrayFilterOf(key, value).value, Some(cell)) == Yes <==> r.matches(cell, a))
  {
    assert IsStandardFor(ops, r, cell, a);
    forall name
      ensures Lookup([("$contains", a)], name) == if name == "$contains" then Some(a) else None
      ensures Lookup([("$overlap", a)], name) == if name == "$overlap" then Some(a) else None
    {
      LookupSingle("$contains", a, name);
      LookupSingle("$overlap", a, name);
    }
  }

  /**
   A condition with one option on a JSON value: "$in" and "$like" compare its text with the value, and all others but
   "$exists" compare it with the serialised value.
   */
  lemma JsonOptionMeans(ops: Operators, r: Relations, subkey: string, i: nat, cell: Scalar, a: Scalar)
    requires IsStandard(ops, r) && i < |PRIORITY|
    ensures JsonFilterOf(subkey, Options([(PRIORITY[i], a)])).Ok?
    ensures Eval(ops, JsonFilterOf(subkey, Options([(PRIORITY[i], a)])).value, Some(cell)) == Yes
       <==> if PRIORITY[i] == "$in" || PRIORITY[i] == "$like" then Meets(r, subkey, i, r.text(cell), a)
            else Meets(r, subkey, i, cell, Dumps(a))
  {
    var o := [(PRIORITY[i], a)];
    assert o[1..] == [];
    var left := if PRIORITY[i] == "$in" || PRIORITY[i] == "$like" then a else Dumps(a);
    SingleOption(i, left);
    assert Rewrite(o) == [(PRIORITY[i], left)];
    assert IsStandardFor(ops, r, cell, if i == 0 then Json(subkey) else left);
    if PRIORITY[i] == "$in" || PRIORITY[i] == "$like" {
      assert IsStandardFor(ops, r, cell, a);
      assert "->> " + "$in" == "->> $in" && "->> " + "$like" == "->> $like";
      assert PRIORITY[2] == "$like" && PRIORITY[3] == "$in";
      PriorityIsNoDup(if PRIORITY[i] == "$in" then 3 else 2);
      PriorityIsNoDup(i);
    } else {
      OperatorMeans(ops, r, subkey, i, cell, left);
    }
  }

  lemma SingleOption(i: nat, a: Scalar)
    requires i < |PRIORITY|
    ensures Decides([(PRIORITY[i], a)]) == Some(PRIORITY[i]) && Lookup([(PRIORITY[i], a)], PRIORITY[i]) == Some(a)
    ensures Has([(PRIORITY[i], a)], "$in") <==> PRIORITY[i] == "$in"
    ensures Has([(PRIORITY[i], a)], "$like") <==> PRIORITY[i] == "$like"
  {
    var o := [(PRIORITY[i], a)];
    forall name
      ensures Lookup(o, name) == if name == PRIORITY[i] then Some(a) else None
    {
      LookupSingle(PRIORITY[i], a, name);
    }
    PriorityIsNoDup(i);
    FirstDecides(o, i);
  }

  lemma PriorityIsNoDup(i: nat)
    requires i < |PRIORITY|
    ensures forall j :: 0 <= j < i ==> PRIORITY[j] != PRIORITY[i]
  {
    assert PRIORITY[0] == "$exists" && PRIORITY[1] == "$regex" && PRIORITY[2] == "$like" && PRIORITY[3] == "$in";
    assert PRIORITY[4] == "$lt" && PRIORITY[5] == "$gt" && PRIORITY[6] == "$contains";
    assert "$exists"[1] == 'e' && "$regex"[1] == 'r' && "$like"[2] == 'i' && "$in"[1] == 'i';
    assert "$lt"[2] == 't' && "$gt"[1] == 'g' && "$contains"[1] == 'c' && "$like"[1] == 'l' && "$lt"[1] == 'l';
  }

  /** Columns that hold arrays. */
  predicate IsArrayKey(k: Key) {
    k == FirmwareKey("firmware_tags") || (k.AnalysisKey? && k.subkey == "summary")
  }

  /** A value is looked for in arrays, and compared for equality with everything else. */
  lemma ValueMeans(ops: Operators, r: Relations, k: Key, a: Scalar, cell: Option<Scalar>)
    requires IsStandard(ops, r) && Known(k)
    ensures FilterFor(k, Plain(Some(a))).Ok?
    ensures Eval(ops, FilterFor(k, Plain(Some(a))).value, cell) == Yes
       <==> if IsArrayKey(k) then cell.Some? && r.contains(cell.value, a) else cell == Some(a)
  {
    if cell.Some? {
      assert IsStandardFor(ops, r, cell.value, a);
    }
  }

  /** None stands for JSON's null in a result, and for a column without a value elsewhere. */
  lemma NoneMeans(ops: Operators, k: Key, cell: Option<Scalar>)
    requires Known(k) && !IsArrayKey(k)
    ensures FilterFor(k, Plain(None)).Ok?
    ensures Eval(ops, FilterFor(k, Plain(None)).value, cell) == Yes <==> cell == if IsJsonKey(k) then Some(JSON_NULL) else None
  {
  }

  /** Options for a metadata column of an analysis that is not an array are a value like any other. */
  lemma MetadataOptionsMean(ops: Operators, k: Key, o: Entries, cell: Option<Scalar>)
    requires k.AnalysisKey? && !IsJsonKey(k) && !IsArrayKey(k)
    ensures FilterFor(k, Options(o)).Ok?
    ensures Eval(ops, FilterFor(k, Options(o)).value, cell) == Yes <==> cell == Some(Object(o))
  {
  }

  /** "_id" stands for the identifier of a file, and hides a condition on the identifier itself. */
  lemma IdIsUid(d: SearchDict)
    requires d.disjunction.None? && IdKey in d.conditions
    ensures FileKey("uid") in Effective(d) && Effective(d)[FileKey("uid")] == d.conditions[IdKey] && IdKey !in Effective(d)
    ensures forall k :: k != IdKey && k != FileKey("uid") ==>
              (k in Effective(d) <==> k in d.conditions) && (k in d.conditions ==> Effective(d)[k] == d.conditions[k])
  {
  }

  /** A search for files by one column finds those whose value meets the option that is looked at first. */
  lemma ColumnSearchFinds(ops: Operators, r: Relations, db: Db, q: Select, column: string, o: Entries, i: nat, uid: Uid)
    requires DbOk(db) && IsStandard(ops, r) && ComesFirst(o, i) && uid in db.files
    requires Convertible(map[FileKey(column) := Options(o)])
    requires IsSelectFor(q, map[FileKey(column) := Options(o)], false, false)
    ensures AllKnown(q.filters)
    ensures Selected(ops, db, q, uid)
       <==> column in db.files[uid] && Meets(r, column, i, db.files[uid][column], Lookup(o, PRIORITY[i]).value)
  {
    var c: Conditions, k := map[FileKey(column) := Options(o)], FileKey(column);
    AndSearchFinds(ops, db, q, c, uid);
    ColumnOptionMeans(ops, r, column, o, i, Cell(db.files[uid], column));
    assert KnownKeys(c) == {k} && AnalysisKeys(c) == {};
    assert AllHold(ops, db, uid, c) <==> HoldsFor(ops, db, uid, c, k);
  }
}
