/**
 * Shape normalisation of core/cpc_data_collector.py: `get_values` turns every fetched
 * section into a header list and a row collection, `_extract_row_values` turns one
 * row into header/value pairs.
 */
module Normalize {
  import opened Wrappers
  import opened Values
  import opened Collector

  /** A dict carrying `"rows"`: the tabular shape. */
  predicate Tabular(v: Value) {
    HasKey(v, "rows")
  }

  /** The header names and rows of a tabular dict: the `name` of every header item
      (`headerItems` defaults to `[]`) and the value under `"rows"`. */
  function Table(v: Value): (r: Result<(seq<Value>, Value), Exc>)
    requires Tabular(v)
    ensures r.Ok? ==> r.value.1 == Lookup(v.fields, KStr("rows")).value
    ensures !HasKey(v, "headerItems") ==> r == Ok(([], Lookup(v.fields, KStr("rows")).value))
    ensures HasKey(v, "headerItems") && Lookup(v.fields, KStr("headerItems")).value.List? ==>
              var items := Lookup(v.fields, KStr("headerItems")).value.items;
              (r.Ok? <==> Column(items, "name").Ok?) && (r.Ok? ==> r.value.0 == Column(items, "name").value)
  {
    var items :- Iter(Lookup(v.fields, KStr("headerItems")).GetOr(List([])));
    var names :- Column(items, "name");
    Ok((names, Lookup(v.fields, KStr("rows")).value))
  }

  /** The `value` of a cell, `None` when absent; only dicts have one. */
  function CellValue(cell: Value): Result<Value, Exc> {
    Get(cell, "value", Null)
  }

  /** The loop over `section["cells"]`: it never breaks, so every tabular cell value
      replaces the pair found so far. */
  function ScanCells(cells: seq<Value>, acc: (seq<Value>, Value)): Result<(seq<Value>, Value), Exc>
    decreases |cells|
  {
    if |cells| == 0 then Ok(acc)
    else
      var v :- CellValue(cells[0]);
      var acc' :- if Tabular(v) then Table(v) else Ok(acc);
      ScanCells(cells[1..], acc')
  }

  /** Cell `i` holds a tabular value whose table is `t`. */
  ghost predicate TableAt(cells: seq<Value>, i: int, t: (seq<Value>, Value)) {
    0 <= i < |cells| && CellValue(cells[i]).Ok? && Tabular(CellValue(cells[i]).value)
    && Table(CellValue(cells[i]).value) == Ok(t)
  }

  /** Cell `i` has no readable value, or a tabular value whose headers cannot be read. */
  ghost predicate FailsAt(cells: seq<Value>, i: int) {
    0 <= i < |cells| && (CellValue(cells[i]).Err?
                         || (Tabular(CellValue(cells[i]).value) && Table(CellValue(cells[i]).value).Err?))
  }

  /** The scan yields the pair it started with or the table of one tabular cell value. */
  lemma {:induction false} ScanCellsOrigin(cells: seq<Value>, acc: (seq<Value>, Value))
    requires ScanCells(cells, acc).Ok?
    ensures ScanCells(cells, acc).value == acc || exists i :: TableAt(cells, i, ScanCells(cells, acc).value)
    decreases |cells|
  {
    if |cells| > 0 {
      var v := CellValue(cells[0]).value;
      var acc' := if Tabular(v) then Table(v).value else acc;
      assert ScanCells(cells, acc) == ScanCells(cells[1..], acc');
      ScanCellsOrigin(cells[1..], acc');
      var t := ScanCells(cells, acc).value;
      if t != acc' {
        var i :| TableAt(cells[1..], i, t);
        assert cells[1..][i] == cells[i + 1];
        assert TableAt(cells, i + 1, t);
      } else if t != acc {
        assert TableAt(cells, 0, t);
      }
    }
  }

  /** A failing scan fails at one cell. */
  lemma {:induction false} ScanCellsFailure(cells: seq<Value>, acc: (seq<Value>, Value))
    requires ScanCells(cells, acc).Err?
    ensures exists i :: FailsAt(cells, i)
    decreases |cells|
  {
    if FailsAt(cells, 0) {
    } else {
      var v := CellValue(cells[0]).value;
      var acc' := if Tabular(v) then Table(v).value else acc;
      assert ScanCells(cells, acc) == ScanCells(cells[1..], acc');
      ScanCellsFailure(cells[1..], acc');
      var i :| FailsAt(cells[1..], i);
      assert cells[1..][i] == cells[i + 1];
      assert FailsAt(cells, i + 1);
    }
  }

  /** Cells that are dicts without a tabular value leave the pair unchanged. */
  lemma {:induction false} ScanCellsNoTable(cells: seq<Value>, acc: (seq<Value>, Value))
    requires forall i :: 0 <= i < |cells| ==> cells[i].Obj? && !Tabular(CellValue(cells[i]).value)
    ensures ScanCells(cells, acc) == Ok(acc)
    decreases |cells|
  {
    if |cells| > 0 {
      ScanCellsNoTable(cells[1..], acc);
    }
  }

  /** When every cell is a dict and every tabular cell value has readable headers,
      the LAST tabular cell decides the result, whatever came before it. */
  lemma {:induction false} ScanCellsLastWins(cells: seq<Value>, acc: (seq<Value>, Value), j: nat)
    requires j < |cells|
    requires forall i :: 0 <= i < |cells| ==> cells[i].Obj?
    requires forall i :: 0 <= i < |cells| && Tabular(CellValue(cells[i]).value) ==> Table(CellValue(cells[i]).value).Ok?
    requires Tabular(CellValue(cells[j]).value)
    requires forall i :: j < i < |cells| ==> !Tabular(CellValue(cells[i]).value)
    ensures ScanCells(cells, acc) == Table(CellValue(cells[j]).value)
    decreases |cells|
  {
    var v := CellValue(cells[0]).value;
    var acc' := if Tabular(v) then Table(v).value else acc;
    if j == 0 {
      ScanCellsNoTable(cells[1..], acc');
    } else {
      ScanCellsLastWins(cells[1..], acc', j - 1);
    }
  }

  /** Normalisation of one section (the body of the `get_values` loop). */
  function Normalize(section: Value): (r: Result<(seq<Value>, Value), Exc>)
    ensures Tabular(section) ==> r == Table(section)
    ensures section.List? ==> r == Ok(([], section))
    ensures !section.Obj? && !section.List? ==> r == Ok(([], List([])))
    ensures section.Obj? && !Tabular(section) && !HasKey(section, "cells") ==> r == Ok(([], List([])))
    ensures r.Err? ==> section.Obj?
  {
    if Tabular(section) then Table(section)
    else if HasKey(section, "cells") then
      var cells :- Iter(Lookup(section.fields, KStr("cells")).value);
      ScanCells(cells, ([], List([])))
    else if section.List? then Ok(([], section))
    else Ok(([], List([])))
  }

  /** A section wrapping two tables in its cells yields the second one. */
  lemma CellsSecondTableWins(t1: Value, t2: Value)
    requires Tabular(t1) && Tabular(t2) && Table(t1).Ok? && Table(t2).Ok?
    ensures var c1 := Obj([(KStr("value"), t1)]);
            var c2 := Obj([(KStr("value"), t2)]);
            Normalize(Obj([(KStr("cells"), List([c1, c2]))])) == Table(t2)
  {
    var c1 := Obj([(KStr("value"), t1)]);
    var c2 := Obj([(KStr("value"), t2)]);
    var s := Obj([(KStr("cells"), List([c1, c2]))]);
    assert !Tabular(s);
    assert CellValue(c1) == Ok(t1);
    assert CellValue(c2) == Ok(t2);
    ScanCellsLastWins([c1, c2], ([], List([])), 1);
  }

  /** The `get_values` loop over `rows_by_id`, for any per-section step `f`: every
      section is replaced by the rows `f` finds and the headers are stored under the
      same id. */
  function MapEntries(entries: seq<(Key, Value)>, headers: seq<(Key, seq<Value>)>,
                      f: Value -> Result<(seq<Value>, Value), Exc>)
    : (r: Result<(seq<(Key, Value)>, seq<(Key, seq<Value>)>), Exc>)
    ensures r.Ok? <==> forall i :: 0 <= i < |entries| ==> f(entries[i].1).Ok?
    ensures r.Ok? ==> |r.value.0| == |entries|
    ensures r.Ok? ==> forall i :: 0 <= i < |entries| ==>
              r.value.0[i] == (entries[i].0, f(entries[i].1).value.1)
    ensures r.Ok? && DistinctKeys(entries) ==> forall i :: 0 <= i < |entries| ==>
              Lookup(r.value.1, entries[i].0) == Some(f(entries[i].1).value.0)
    ensures r.Ok? ==> forall k :: (forall i :: 0 <= i < |entries| ==> entries[i].0 != k) ==>
              Lookup(r.value.1, k) == Lookup(headers, k)
    decreases |entries|
  {
    if |entries| == 0 then Ok(([], headers))
    else
      var (h, rows) :- f(entries[0].1);
      var headers' := Store(headers, entries[0].0, h);
      var rest :- MapEntries(entries[1..], headers', f);
      var r := ([(entries[0].0, rows)] + rest.0, rest.1);
      assert DistinctKeys(entries) ==> DistinctKeys(entries[1..]);
      assert DistinctKeys(entries) ==> Lookup(r.1, entries[0].0) == Some(h) by {
        if DistinctKeys(entries) {
          assert forall i :: 0 <= i < |entries[1..]| ==> entries[1..][i].0 != entries[0].0;
        }
      }
      assert forall k :: (forall i :: 0 <= i < |entries| ==> entries[i].0 != k) ==> Lookup(r.1, k) == Lookup(headers, k) by {
        forall k | forall i :: 0 <= i < |entries| ==> entries[i].0 != k
          ensures Lookup(r.1, k) == Lookup(headers, k)
        {
          assert entries[0].0 != k;
          assert forall i :: 0 <= i < |entries[1..]| ==> entries[1..][i].0 != k;
        }
      }
      Ok(r)
  }

  /** The `get_values` loop with section normalisation as its step. */
  function NormalizeEntries(entries: seq<(Key, Value)>, headers: seq<(Key, seq<Value>)>)
    : (r: Result<(seq<(Key, Value)>, seq<(Key, seq<Value>)>), Exc>)
    ensures r.Ok? <==> forall i :: 0 <= i < |entries| ==> Normalize(entries[i].1).Ok?
    ensures r.Ok? ==> |r.value.0| == |entries|
    ensures r.Ok? ==> forall i :: 0 <= i < |entries| ==>
              r.value.0[i] == (entries[i].0, Normalize(entries[i].1).value.1)
    ensures r.Ok? && DistinctKeys(entries) ==> forall i :: 0 <= i < |entries| ==>
              Lookup(r.value.1, entries[i].0) == Some(Normalize(entries[i].1).value.0)
    ensures r.Ok? ==> forall k :: (forall i :: 0 <= i < |entries| ==> entries[i].0 != k) ==>
              Lookup(r.value.1, k) == Lookup(headers, k)
  {
    MapEntries(entries, headers, Normalize)
  }

  /** `get_values`: sections become row collections, headers are recorded per id. */
  function GetValues(c: Collector): (r: Result<Collector, Exc>)
    ensures r.Ok? ==> r.value == c.(rowsById := r.value.rowsById, headersById := r.value.headersById)
    ensures r.Ok? <==> forall i :: 0 <= i < |c.rowsById| ==> Normalize(c.rowsById[i].1).Ok?
  {
    var (rows, headers) :- NormalizeEntries(c.rowsById, c.headersById);
    Ok(c.(rowsById := rows, headersById := headers))
  }

  /** Sections that are already lists are a fixed point of the `get_values` loop. */
  lemma NormalizeEntriesListStable(entries: seq<(Key, Value)>, headers: seq<(Key, seq<Value>)>)
    requires forall i :: 0 <= i < |entries| ==> entries[i].1.List?
    ensures NormalizeEntries(entries, headers).Ok?
    ensures NormalizeEntries(entries, headers).value.0 == entries
    ensures DistinctKeys(entries) ==> forall i :: 0 <= i < |entries| ==>
              Lookup(NormalizeEntries(entries, headers).value.1, entries[i].0) == Some([])
  {
    assert forall i :: 0 <= i < |entries| ==> Normalize(entries[i].1) == Ok(([], entries[i].1));
  }

  /** Rows that are already lists are a fixed point of `get_values`: a second pass over
      its own output keeps every row list and records empty headers for it. */
  lemma GetValuesListFixpoint(c: Collector)
    requires forall i :: 0 <= i < |c.rowsById| ==> c.rowsById[i].1.List?
    ensures GetValues(c).Ok?
    ensures GetValues(c).value.rowsById == c.rowsById
    ensures DistinctKeys(c.rowsById) ==> forall i :: 0 <= i < |c.rowsById| ==>
              Lookup(GetValues(c).value.headersById, c.rowsById[i].0) == Some([])
  {
    NormalizeEntriesListStable(c.rowsById, c.headersById);
  }

  /** `[f"col_{i + 1}" for i in range(n)]`. */
  function ColNames(n: nat): (r: seq<Value>)
    ensures |r| == n && forall i :: 0 <= i < n ==> r[i] == Str(ColName(i + 1))
  {
    seq(n, i requires 0 <= i < n => Str(ColName(i + 1)))
  }

  /** Synthetic headers are pairwise distinct, so no synthetic column overwrites another. */
  lemma ColNamesDistinct(n: nat)
    ensures forall i, j :: 0 <= i < j < n ==> ColNames(n)[i] != ColNames(n)[j]
  {
    forall i, j | 0 <= i < j < n ensures ColNames(n)[i] != ColNames(n)[j] {
      ColNameInjective(i + 1, j + 1);
    }
  }

  /** Header and value of every cell of a cell row, counting positions from `from`:
      the title when it is truthy, else `col_<position>`. */
  function CellPairs(cells: seq<Value>, from: nat): (r: Result<(seq<Value>, seq<Value>), Exc>)
    ensures r.Ok? <==> forall i :: 0 <= i < |cells| ==> cells[i].Obj?
    ensures r.Ok? ==> |r.value.0| == |cells| && |r.value.1| == |cells|
    ensures r.Ok? ==> forall i :: 0 <= i < |cells| ==>
              && r.value.1[i] == CellValue(cells[i]).value
              && var t := Get(cells[i], "title", Null).value;
                 r.value.0[i] == (if Truthy(t) then t else Str(ColName(from + i + 1)))
    decreases |cells|
  {
    if |cells| == 0 then Ok(([], []))
    else if !cells[0].Obj? then Err(AttributeError)
    else
      var v := Lookup(cells[0].fields, KStr("value")).GetOr(Null);
      var t := Lookup(cells[0].fields, KStr("title")).GetOr(Null);
      var (hs, vs) :- CellPairs(cells[1..], from + 1);
      Ok(([if Truthy(t) then t else Str(ColName(from + 1))] + hs, [v] + vs))
  }

  /** `_extract_row_values`: list rows get synthetic headers, cell rows get titles and
      values, anything else gives nothing. Headers and values always pair up. */
  function ExtractRowValues(row: Value): (r: Result<(seq<Value>, seq<Value>), Exc>)
    ensures r.Ok? ==> |r.value.0| == |r.value.1|
    ensures row.List? ==> r == Ok((ColNames(|row.items|), row.items))
    ensures !row.List? && !HasKey(row, "cells") ==> r == Ok(([], []))
    ensures HasKey(row, "cells") ==>
              var cells := Iter(Lookup(row.fields, KStr("cells")).value);
              (cells.Ok? ==> r == CellPairs(cells.value, 0)) && (cells.Err? ==> r.Err?)
  {
    if row.List? then Ok((ColNames(|row.items|), row.items))
    else if HasKey(row, "cells") then
      var cells :- Iter(Lookup(row.fields, KStr("cells")).value);
      CellPairs(cells, 0)
    else Ok(([], []))
  }
}
