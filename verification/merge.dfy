/**
 * `merge_and_save` of core/cpc_data_collector.py: every listed declaration that did
 * not fail is joined with its rows, one flat record per row, in listing order.
 */
module Merge {
  import opened Wrappers
  import opened Values
  import opened Collector
  import opened Normalize

  /** `{item['id'] for item in failed_items}`: hashing every failed id. */
  function FailedKeys(failed: seq<FailedItem>): (r: Result<set<Key>, Exc>)
    ensures r.Ok? <==> forall i :: 0 <= i < |failed| ==> ToKey(failed[i].id).Ok?
    ensures r.Ok? ==> forall k :: k in r.value <==> exists i :: 0 <= i < |failed| && ToKey(failed[i].id) == Ok(k)
    decreases |failed|
  {
    if |failed| == 0 then Ok({})
    else
      var k :- ToKey(failed[0].id);
      var rest :- FailedKeys(failed[1..]);
      var r := {k} + rest;
      assert forall k' :: k' in r <==> exists i :: 0 <= i < |failed| && ToKey(failed[i].id) == Ok(k') by {
        forall k' | k' in rest ensures exists i :: 0 <= i < |failed| && ToKey(failed[i].id) == Ok(k') {
          var j :| 0 <= j < |failed[1..]| && ToKey(failed[1..][j].id) == Ok(k');
          assert failed[j + 1] == failed[1..][j];
        }
        forall k' | exists i :: 0 <= i < |failed| && ToKey(failed[i].id) == Ok(k') ensures k' in r {
          var i :| 0 <= i < |failed| && ToKey(failed[i].id) == Ok(k');
          if i > 0 {
            assert failed[1..][i - 1] == failed[i];
          }
        }
      }
      Ok(r)
  }

  /** `values[i] if i < len(values) else None`. */
  function ValueAt(values: seq<Value>, i: nat): Value {
    if i < |values| then values[i] else Null
  }

  /** The key of the header at position `i` when no later header has the same key:
      that header's assignment is the one left standing. */
  ghost predicate LastWith(hs: seq<Value>, i: nat, k: Key) {
    i < |hs| && ToKey(hs[i]) == Ok(k) && forall j :: i < j < |hs| ==> ToKey(hs[j]) != Ok(k)
  }

  /** `for i, h in enumerate(headers): record[h] = values[i] if i < len(values) else None`. */
  function FillRow(rec: seq<(Key, Value)>, hs: seq<Value>, values: seq<Value>): (r: Result<seq<(Key, Value)>, Exc>)
    ensures r.Ok? <==> forall i :: 0 <= i < |hs| ==> ToKey(hs[i]).Ok?
    decreases |hs|
  {
    if |hs| == 0 then Ok(rec)
    else
      var n := |hs| - 1;
      assert forall i :: 0 <= i < n ==> hs[..n][i] == hs[i];
      var prev :- FillRow(rec, hs[..n], values);
      var k :- ToKey(hs[n]);
      Ok(Store(prev, k, ValueAt(values, n)))
  }

  /** Keys no header hashes to keep the declaration's value. */
  lemma {:induction false} FillRowKeeps(rec: seq<(Key, Value)>, hs: seq<Value>, values: seq<Value>, k: Key)
    requires FillRow(rec, hs, values).Ok?
    requires forall i :: 0 <= i < |hs| ==> ToKey(hs[i]) != Ok(k)
    ensures Lookup(FillRow(rec, hs, values).value, k) == Lookup(rec, k)
    decreases |hs|
  {
    if |hs| > 0 {
      var n := |hs| - 1;
      assert forall i :: 0 <= i < n ==> hs[..n][i] == hs[i];
      FillRowKeeps(rec, hs[..n], values, k);
    }
  }

  /** The last header with a given key decides that key's value: a later header with
      an equal key overwrites an earlier one. */
  lemma {:induction false} FillRowLastWins(rec: seq<(Key, Value)>, hs: seq<Value>, values: seq<Value>, i: nat, k: Key)
    requires FillRow(rec, hs, values).Ok?
    requires LastWith(hs, i, k)
    ensures Lookup(FillRow(rec, hs, values).value, k) == Some(ValueAt(values, i))
    decreases |hs|
  {
    var n := |hs| - 1;
    FillRowStep(rec, hs, values);
    if i < n {
      assert ToKey(hs[n]) != Ok(k);
      assert LastWith(hs[..n], i, k);
      FillRowLastWins(rec, hs[..n], values, i, k);
    }
  }

  /** One step of the header loop: the last header is stored over the record built
      from the others. */
  lemma FillRowStep(rec: seq<(Key, Value)>, hs: seq<Value>, values: seq<Value>)
    requires |hs| > 0 && FillRow(rec, hs, values).Ok?
    ensures FillRow(rec, hs[..|hs| - 1], values).Ok? && ToKey(hs[|hs| - 1]).Ok?
    ensures FillRow(rec, hs, values).value
            == Store(FillRow(rec, hs[..|hs| - 1], values).value, ToKey(hs[|hs| - 1]).value, ValueAt(values, |hs| - 1))
    ensures forall j :: 0 <= j < |hs| - 1 ==> hs[..|hs| - 1][j] == hs[j]
  {
  }

  /** The declaration's own keys stay first, in their order, and no key is doubled. */
  lemma {:induction false} FillRowShape(rec: seq<(Key, Value)>, hs: seq<Value>, values: seq<Value>)
    requires FillRow(rec, hs, values).Ok?
    ensures var r := FillRow(rec, hs, values).value;
            |r| >= |rec| && forall j :: 0 <= j < |rec| ==> r[j].0 == rec[j].0
    ensures DistinctKeys(rec) ==> DistinctKeys(FillRow(rec, hs, values).value)
    decreases |hs|
  {
    if |hs| > 0 {
      var n := |hs| - 1;
      assert forall j :: 0 <= j < n ==> hs[..n][j] == hs[j];
      FillRowShape(rec, hs[..n], values);
    }
  }

  /** One record for one row: the declaration's fields, then every effective header
      with its value; the collection's headers win over the row's own ones. */
  function RowRecord(person: seq<(Key, Value)>, headers: seq<Value>, row: Value): (r: Result<Value, Exc>)
    ensures r.Ok? ==> r.value.Obj?
    ensures ExtractRowValues(row).Ok? && |headers| > 0 ==>
              r == (var f := FillRow(person, headers, ExtractRowValues(row).value.1);
                    if f.Ok? then Ok(Obj(f.value)) else Err(f.error))
    ensures ExtractRowValues(row).Ok? && |headers| == 0 ==>
              r == (var f := FillRow(person, ExtractRowValues(row).value.0, ExtractRowValues(row).value.1);
                    if f.Ok? then Ok(Obj(f.value)) else Err(f.error))
    ensures ExtractRowValues(row).Err? ==> r.Err?
  {
    var (rowHeaders, values) :- ExtractRowValues(row);
    var eff := if |headers| > 0 then headers else rowHeaders;
    var rec :- FillRow(person, eff, values);
    Ok(Obj(rec))
  }

  /** A list row in a section without headers keys each of its items by its synthetic
      column name `col_<i+1>`, over any declaration field of that name. */
  lemma ListRowRecord(person: seq<(Key, Value)>, row: Value, i: nat)
    requires row.List? && i < |row.items|
    ensures RowRecord(person, [], row).Ok?
    ensures Lookup(RowRecord(person, [], row).value.fields, KStr(ColName(i + 1))) == Some(row.items[i])
  {
    var n := |row.items|;
    var hs := ColNames(n);
    ColNamesDistinct(n);
    assert forall j :: 0 <= j < n ==> ToKey(hs[j]) == Ok(KStr(ColName(j + 1)));
    forall j | i < j < n ensures ToKey(hs[j]) != Ok(KStr(ColName(i + 1))) {
      ColNameInjective(i + 1, j + 1);
    }
    assert LastWith(hs, i, KStr(ColName(i + 1)));
    FillRowLastWins(person, hs, row.items, i, KStr(ColName(i + 1)));
  }

  /** `for row in rows`: one record per row, in row order. */
  function RowRecords(person: seq<(Key, Value)>, headers: seq<Value>, rows: seq<Value>): (r: Result<seq<Value>, Exc>)
    ensures r.Ok? <==> forall i :: 0 <= i < |rows| ==> RowRecord(person, headers, rows[i]).Ok?
    ensures r.Ok? ==> |r.value| == |rows| && forall i :: 0 <= i < |rows| ==> r.value[i] == RowRecord(person, headers, rows[i]).value
  {
    MapAll(rows, row => RowRecord(person, headers, row))
  }

  /** A loop that turns every element into one value and stops at the first error. */
  function MapAll<T>(xs: seq<T>, f: T -> Result<Value, Exc>): (r: Result<seq<Value>, Exc>)
    ensures r.Ok? <==> forall i :: 0 <= i < |xs| ==> f(xs[i]).Ok?
    ensures r.Ok? ==> |r.value| == |xs| && forall i :: 0 <= i < |xs| ==> r.value[i] == f(xs[i]).value
    decreases |xs|
  {
    if |xs| == 0 then Ok([])
    else
      var x :- f(xs[0]);
      var rest :- MapAll(xs[1..], f);
      Ok([x] + rest)
  }

  /** `person["id"]` hashed, as the membership test and the row lookups use it. */
  function DeclKey(person: Value): (r: Result<Key, Exc>)
    ensures r.Ok? <==> HasKey(person, "id") && ToKey(Lookup(person.fields, KStr("id")).value).Ok?
    ensures r.Ok? ==> r == ToKey(Lookup(person.fields, KStr("id")).value)
  {
    var id :- Subscript(person, Str("id"));
    ToKey(id)
  }

  /** The records of the declaration with fields `fields` and id key `k`: none when
      the id failed, one with every header set to `None` when it has no rows, else one
      per row. */
  function DeclRecords(fields: seq<(Key, Value)>, k: Key, failed: set<Key>, rowsById: seq<(Key, Value)>,
                       headersById: seq<(Key, seq<Value>)>): (r: Result<seq<Value>, Exc>)
    ensures k in failed ==> r == Ok([])
    ensures r.Ok? ==> |r.value| == RowCount(k, failed, rowsById)
  {
    if k in failed then Ok([])
    else
      var rows := Lookup(rowsById, k).GetOr(List([]));
      var headers := Lookup(headersById, k).GetOr([]);
      if !Truthy(rows) then
        var rec :- FillRow(fields, headers, []);
        Ok([Obj(rec)])
      else
        var items :- Iter(rows);
        RowRecords(fields, headers, items)
  }

  /** How many records the declaration with id key `k` contributes, independent of
      their contents. */
  function RowCount(k: Key, failed: set<Key>, rowsById: seq<(Key, Value)>): nat {
    if k in failed then 0
    else
      var rows := Lookup(rowsById, k).GetOr(List([]));
      if !Truthy(rows) then 1
      else match Iter(rows) case Ok(items) => |items| case Err(_) => 0
  }

  /** One iteration of the loop over `declaration_list`. */
  function MergeDeclaration(person: Value, failed: set<Key>, rowsById: seq<(Key, Value)>,
                            headersById: seq<(Key, seq<Value>)>): (r: Result<seq<Value>, Exc>)
    ensures r.Ok? ==> DeclKey(person).Ok?
    ensures r.Ok? ==> |r.value| == RecordCount(person, failed, rowsById)
  {
    var k :- DeclKey(person);
    DeclRecords(person.fields, k, failed, rowsById, headersById)
  }

  /** Records per declaration: none when its id cannot be read. */
  function RecordCount(person: Value, failed: set<Key>, rowsById: seq<(Key, Value)>): nat {
    match DeclKey(person)
    case Ok(k) => RowCount(k, failed, rowsById)
    case Err(_) => 0
  }

  /** Every record of a declaration starts with the declaration's own keys, in order. */
  lemma RecordsKeepDeclaration(fields: seq<(Key, Value)>, k: Key, failed: set<Key>,
                               rowsById: seq<(Key, Value)>, headersById: seq<(Key, seq<Value>)>, x: Value)
    requires DeclRecords(fields, k, failed, rowsById, headersById).Ok?
    requires x in DeclRecords(fields, k, failed, rowsById, headersById).value
    ensures x.Obj? && |x.fields| >= |fields|
    ensures forall j :: 0 <= j < |fields| ==> x.fields[j].0 == fields[j].0
  {
    var recs := DeclRecords(fields, k, failed, rowsById, headersById).value;
    var rows := Lookup(rowsById, k).GetOr(List([]));
    var headers := Lookup(headersById, k).GetOr([]);
    if !Truthy(rows) {
      FillRowShape(fields, headers, []);
    } else {
      var items := Iter(rows).value;
      var i :| 0 <= i < |items| && recs[i] == x;
      var (rowHeaders, values) := ExtractRowValues(items[i]).value;
      var eff := if |headers| > 0 then headers else rowHeaders;
      assert x == Obj(FillRow(fields, eff, values).value);
      FillRowShape(fields, eff, values);
    }
  }

  /** A declaration that did not fail and has no rows still gives exactly one record,
      carrying its own fields and `None` under every header of its id. */
  lemma EmptyRowsGiveOneRecord(fields: seq<(Key, Value)>, k: Key, failed: set<Key>,
                               rowsById: seq<(Key, Value)>, headersById: seq<(Key, seq<Value>)>)
    requires k !in failed && !Truthy(Lookup(rowsById, k).GetOr(List([])))
    requires DeclRecords(fields, k, failed, rowsById, headersById).Ok?
    ensures |DeclRecords(fields, k, failed, rowsById, headersById).value| == 1
    ensures var x := DeclRecords(fields, k, failed, rowsById, headersById).value[0];
            var hs := Lookup(headersById, k).GetOr([]);
            && x.Obj?
            && (forall i, k' :: LastWith(hs, i, k') ==> Lookup(x.fields, k') == Some(Null))
            && (forall k' :: (forall i :: 0 <= i < |hs| ==> ToKey(hs[i]) != Ok(k')) ==>
                  Lookup(x.fields, k') == Lookup(fields, k'))
  {
    var hs := Lookup(headersById, k).GetOr([]);
    forall i, k' | LastWith(hs, i, k') ensures Lookup(FillRow(fields, hs, []).value, k') == Some(Null) {
      FillRowLastWins(fields, hs, [], i, k');
    }
    forall k' | forall i :: 0 <= i < |hs| ==> ToKey(hs[i]) != Ok(k')
      ensures Lookup(FillRow(fields, hs, []).value, k') == Lookup(fields, k')
    {
      FillRowKeeps(fields, hs, [], k');
    }
  }

  /** `for x in xs: out.extend(f(x))`, stopping at the first exception. */
  function FlatMap<T>(xs: seq<T>, f: T -> Result<seq<Value>, Exc>): (r: Result<seq<Value>, Exc>)
    ensures r.Ok? <==> forall i :: 0 <= i < |xs| ==> f(xs[i]).Ok?
    decreases |xs|
  {
    if |xs| == 0 then Ok([])
    else
      var first :- f(xs[0]);
      var rest :- FlatMap(xs[1..], f);
      assert forall i :: 1 <= i < |xs| ==> xs[1..][i - 1] == xs[i];
      Ok(first + rest)
  }

  /** `sum(count(x) for x in xs)`. */
  function Sum<T>(xs: seq<T>, count: T -> nat): nat
    decreases |xs|
  {
    if |xs| == 0 then 0 else count(xs[0]) + Sum(xs[1..], count)
  }

  /** FlatMap over a concatenation is the concatenation of the two FlatMaps: the output
      keeps the input order. */
  lemma {:induction false} FlatMapAppend<T>(a: seq<T>, b: seq<T>, f: T -> Result<seq<Value>, Exc>)
    requires FlatMap(a, f).Ok? && FlatMap(b, f).Ok?
    ensures FlatMap(a + b, f) == Ok(FlatMap(a, f).value + FlatMap(b, f).value)
    decreases |a|
  {
    if |a| == 0 {
      assert a + b == b;
      assert FlatMap(a, f).value == [];
      assert [] + FlatMap(b, f).value == FlatMap(b, f).value;
    } else {
      assert (a + b)[1..] == a[1..] + b;
      assert (a + b)[0] == a[0];
      assert forall i :: 1 <= i < |a| ==> a[1..][i - 1] == a[i];
      FlatMapAppend(a[1..], b, f);
      var first := f(a[0]).value;
      var ra := FlatMap(a[1..], f).value;
      var rb := FlatMap(b, f).value;
      assert FlatMap(a, f).value == first + ra;
      assert FlatMap(a + b, f) == Ok(first + (ra + rb));
      assert first + (ra + rb) == (first + ra) + rb;
    }
  }

  /** When every item's output has the expected size, so has the whole FlatMap. */
  lemma {:induction false} FlatMapCount<T>(xs: seq<T>, f: T -> Result<seq<Value>, Exc>, count: T -> nat)
    requires FlatMap(xs, f).Ok?
    requires forall i :: 0 <= i < |xs| ==> |f(xs[i]).value| == count(xs[i])
    ensures |FlatMap(xs, f).value| == Sum(xs, count)
    decreases |xs|
  {
    if |xs| > 0 {
      assert forall i :: 1 <= i < |xs| ==> xs[1..][i - 1] == xs[i];
      FlatMapCount(xs[1..], f, count);
    }
  }

  /** The records of all declarations, in listing order. */
  function MergeAll(decls: seq<Value>, failed: set<Key>, rowsById: seq<(Key, Value)>,
                    headersById: seq<(Key, seq<Value>)>): (r: Result<seq<Value>, Exc>)
    ensures r.Ok? <==> forall i :: 0 <= i < |decls| ==> MergeDeclaration(decls[i], failed, rowsById, headersById).Ok?
  {
    FlatMap(decls, person => MergeDeclaration(person, failed, rowsById, headersById))
  }

  /** Merging a concatenation of listings concatenates their records. */
  lemma MergeAllAppend(a: seq<Value>, b: seq<Value>, failed: set<Key>,
                       rowsById: seq<(Key, Value)>, headersById: seq<(Key, seq<Value>)>)
    requires MergeAll(a, failed, rowsById, headersById).Ok? && MergeAll(b, failed, rowsById, headersById).Ok?
    ensures MergeAll(a + b, failed, rowsById, headersById)
            == Ok(MergeAll(a, failed, rowsById, headersById).value + MergeAll(b, failed, rowsById, headersById).value)
  {
    FlatMapAppend(a, b, person => MergeDeclaration(person, failed, rowsById, headersById));
  }

  /** The number of merged records is the sum of the per-declaration counts: nothing
      for a failed id, one for a declaration without rows, one per row otherwise. */
  lemma MergeAllCount(decls: seq<Value>, failed: set<Key>,
                      rowsById: seq<(Key, Value)>, headersById: seq<(Key, seq<Value>)>)
    requires MergeAll(decls, failed, rowsById, headersById).Ok?
    ensures |MergeAll(decls, failed, rowsById, headersById).value| == Sum(decls, person => RecordCount(person, failed, rowsById))
  {
    FlatMapCount(decls, person => MergeDeclaration(person, failed, rowsById, headersById),
                 person => RecordCount(person, failed, rowsById));
  }

  /** `merge_and_save`: the merged records become `final_data`; the failure list is
      returned as it stands. */
  function MergeAndSave(c: Collector): (r: Result<(Collector, seq<Value>, seq<FailedItem>), Exc>)
    ensures r.Ok? ==> r.value.0 == c.(finalData := r.value.1) && r.value.2 == c.failedItems
    ensures r.Ok? <==> FailedKeys(c.failedItems).Ok?
                       && MergeAll(c.declarationList, FailedKeys(c.failedItems).value, c.rowsById, c.headersById).Ok?
    ensures r.Ok? ==> r.value.1 == MergeAll(c.declarationList, FailedKeys(c.failedItems).value, c.rowsById, c.headersById).value
  {
    var failed :- FailedKeys(c.failedItems);
    var records :- MergeAll(c.declarationList, failed, c.rowsById, c.headersById);
    Ok((c.(finalData := records), records, c.failedItems))
  }

  /** Filling headers `A`, `B` from `[10, 20]` into `{id: 1}` appends both columns. */
  lemma FillRowExample()
    ensures FillRow([(KStr("id"), Int(1))], [Str("A"), Str("B")], [Int(10), Int(20)])
            == Ok([(KStr("id"), Int(1)), (KStr("A"), Int(10)), (KStr("B"), Int(20))])
  {
    var p1 := [(KStr("id"), Int(1))];
    var hs := [Str("A"), Str("B")];
    var vs := [Int(10), Int(20)];
    var mid := [(KStr("id"), Int(1)), (KStr("A"), Int(10))];
    assert hs[..1] == [Str("A")];
    assert hs[..1][..0] == [];
    assert FillRow(p1, [], vs) == Ok(p1);
    assert Lookup(p1, KStr("A")) == None;
    assert Store(p1, KStr("A"), Int(10)) == mid;
    assert FillRow(p1, hs[..1], vs) == Ok(mid);
    assert Lookup(mid, KStr("B")) == None;
    assert ValueAt(vs, 1) == Int(20);
    assert hs[..|hs| - 1] == hs[..1];
    assert Store(mid, KStr("B"), Int(20)) == mid + [(KStr("B"), Int(20))];
    assert FillRow(p1, hs, vs) == Ok(Store(mid, KStr("B"), Int(20)));
    assert mid + [(KStr("B"), Int(20))] == [(KStr("id"), Int(1)), (KStr("A"), Int(10)), (KStr("B"), Int(20))];
  }

  /** In the three-declaration scenario of `MergeExample` (ids 1, 2, 3, id 2 failed), the
      one table row `[10, 20]` of id 1 under headers A, B fills declaration `{id: 1}`. */
  lemma FirstRowRecords()
    ensures RowRecords([(KStr("id"), Int(1))], [Str("A"), Str("B")], [List([Int(10), Int(20)])])
            == Ok([Obj([(KStr("id"), Int(1)), (KStr("A"), Int(10)), (KStr("B"), Int(20))])])
  {
    var p1 := [(KStr("id"), Int(1))];
    var hs := [Str("A"), Str("B")];
    var r1 := Obj([(KStr("id"), Int(1)), (KStr("A"), Int(10)), (KStr("B"), Int(20))]);
    var rows1 := [List([Int(10), Int(20)])];
    FillRowExample();
    assert ExtractRowValues(rows1[0]).value.1 == [Int(10), Int(20)];
    assert RowRecord(p1, hs, rows1[0]) == Ok(r1);
    assert rows1[1..] == [];
    assert RowRecords(p1, hs, rows1[1..]) == Ok([]);
    assert [r1] + [] == [r1];
  }

  /** In the scenario of `MergeExample`, declaration `{id: 1}` gives the record of its
      one table row. */
  lemma FirstDeclarationExample(rowsById: seq<(Key, Value)>, headersById: seq<(Key, seq<Value>)>)
    requires rowsById == [(KInt(1), List([List([Int(10), Int(20)])])), (KInt(3), List([]))]
    requires headersById == [(KInt(1), [Str("A"), Str("B")]), (KInt(3), [])]
    ensures MergeDeclaration(Obj([(KStr("id"), Int(1))]), {KInt(2)}, rowsById, headersById)
            == Ok([Obj([(KStr("id"), Int(1)), (KStr("A"), Int(10)), (KStr("B"), Int(20))])])
  {
    var p1 := Obj([(KStr("id"), Int(1))]);
    var hs := [Str("A"), Str("B")];
    var rows1 := [List([Int(10), Int(20)])];
    assert Find(rowsById, KInt(1)) == Some(0);
    assert Find(headersById, KInt(1)) == Some(0);
    DeclRecordsWithRows(p1.fields, KInt(1), {KInt(2)}, rowsById, headersById, rows1);
    FirstRowRecords();
    assert DeclKey(p1) == Ok(KInt(1));
  }

  /** A declaration that did not fail and has a non-empty list of rows gives the
      records of those rows. */
  lemma DeclRecordsWithRows(fields: seq<(Key, Value)>, k: Key, failed: set<Key>, rowsById: seq<(Key, Value)>,
                            headersById: seq<(Key, seq<Value>)>, items: seq<Value>)
    requires k !in failed && Lookup(rowsById, k) == Some(List(items)) && |items| > 0
    ensures DeclRecords(fields, k, failed, rowsById, headersById)
            == RowRecords(fields, Lookup(headersById, k).GetOr([]), items)
  {
  }

  /** In the scenario of `MergeExample`, declaration `{id: 3}` has an empty row list and
      gives itself as its one record. */
  lemma ThirdDeclarationExample(rowsById: seq<(Key, Value)>, headersById: seq<(Key, seq<Value>)>)
    requires rowsById == [(KInt(1), List([List([Int(10), Int(20)])])), (KInt(3), List([]))]
    requires headersById == [(KInt(1), [Str("A"), Str("B")]), (KInt(3), [])]
    ensures MergeDeclaration(Obj([(KStr("id"), Int(3))]), {KInt(2)}, rowsById, headersById)
            == Ok([Obj([(KStr("id"), Int(3))])])
  {
    var p3 := Obj([(KStr("id"), Int(3))]);
    assert rowsById[1].0 == KInt(3) && Find(rowsById, KInt(3)) == Some(1);
    assert headersById[1].0 == KInt(3) && Find(headersById, KInt(3)) == Some(1);
    assert Lookup(rowsById, KInt(3)) == Some(List([]));
    assert Lookup(headersById, KInt(3)) == Some([]);
    assert DeclKey(p3) == Ok(KInt(3));
  }

  /** A one-declaration listing gives exactly that declaration's records. */
  lemma MergeAllSingle(person: Value, failed: set<Key>, rowsById: seq<(Key, Value)>,
                       headersById: seq<(Key, seq<Value>)>)
    requires MergeDeclaration(person, failed, rowsById, headersById).Ok?
    ensures MergeAll([person], failed, rowsById, headersById) == MergeDeclaration(person, failed, rowsById, headersById)
  {
    var recs := MergeDeclaration(person, failed, rowsById, headersById).value;
    var f := p => MergeDeclaration(p, failed, rowsById, headersById);
    assert MergeAll([person], failed, rowsById, headersById) == FlatMap([person], f);
    assert f(person) == Ok(recs);
    assert [person][1..] == [];
    assert FlatMap([person][1..], f) == Ok([]);
    assert recs + [] == recs;
  }

  /** Three listed declarations, the second failed, the first with one table row under
      headers `A`, `B`, the third with no rows: two records come out, in listing order. */
  lemma MergeExample(decls: seq<Value>, rowsById: seq<(Key, Value)>, headersById: seq<(Key, seq<Value>)>)
    requires decls == [Obj([(KStr("id"), Int(1))]), Obj([(KStr("id"), Int(2))]), Obj([(KStr("id"), Int(3))])]
    requires rowsById == [(KInt(1), List([List([Int(10), Int(20)])])), (KInt(3), List([]))]
    requires headersById == [(KInt(1), [Str("A"), Str("B")]), (KInt(3), [])]
    ensures MergeAll(decls, {KInt(2)}, rowsById, headersById)
            == Ok([Obj([(KStr("id"), Int(1)), (KStr("A"), Int(10)), (KStr("B"), Int(20))]), decls[2]])
  {
    var r1 := Obj([(KStr("id"), Int(1)), (KStr("A"), Int(10)), (KStr("B"), Int(20))]);
    FirstDeclarationExample(rowsById, headersById);
    FailedDeclarationExample(rowsById, headersById);
    ThirdDeclarationExample(rowsById, headersById);
    MergeAllThree(decls[0], decls[1], decls[2], {KInt(2)}, rowsById, headersById);
    assert [decls[0], decls[1], decls[2]] == decls;
    assert [r1] + [] + [decls[2]] == [r1, decls[2]];
  }

  /** In the scenario of `MergeExample`, declaration `{id: 2}`, whose id failed, gives no
      record, whatever the row and header collections hold. */
  lemma FailedDeclarationExample(rowsById: seq<(Key, Value)>, headersById: seq<(Key, seq<Value>)>)
    ensures MergeDeclaration(Obj([(KStr("id"), Int(2))]), {KInt(2)}, rowsById, headersById) == Ok([])
  {
    assert DeclKey(Obj([(KStr("id"), Int(2))])) == Ok(KInt(2));
  }

  /** A three-declaration listing gives the records of each declaration in turn. */
  lemma MergeAllThree(a: Value, b: Value, c: Value, failed: set<Key>, rowsById: seq<(Key, Value)>,
                      headersById: seq<(Key, seq<Value>)>)
    requires MergeDeclaration(a, failed, rowsById, headersById).Ok?
    requires MergeDeclaration(b, failed, rowsById, headersById).Ok?
    requires MergeDeclaration(c, failed, rowsById, headersById).Ok?
    ensures MergeAll([a, b, c], failed, rowsById, headersById)
            == Ok(MergeDeclaration(a, failed, rowsById, headersById).value
                  + MergeDeclaration(b, failed, rowsById, headersById).value
                  + MergeDeclaration(c, failed, rowsById, headersById).value)
  {
    MergeAllSingle(a, failed, rowsById, headersById);
    MergeAllSingle(b, failed, rowsById, headersById);
    MergeAllSingle(c, failed, rowsById, headersById);
    MergeAllAppend([a], [b], failed, rowsById, headersById);
    MergeAllAppend([a, b], [c], failed, rowsById, headersById);
    assert [a] + [b] == [a, b];
    assert [a, b] + [c] == [a, b, c];
  }

}
