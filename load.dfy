/**
 * Loading: the loop that turns the rows the CSV reader produced into ledger records. Opening and
 * reading the file is not part of this model; the rows arrive as a parameter.
 */
module Load {
  import opened Wrappers
  import opened Transactions

  /** A row as the CSV reader hands it over: column name to text. */
  type Row = map<string, string>

  /** The columns of the backing file, as a set. */
  const FieldSet: set<string> := set f | f in FieldNames

  /** `float(row.get('Amount', 0))`: a row without an Amount column converts 0, which succeeds. */
  function RowAmount(row: Row, parse: AmountParser): (a: Option<real>)
    ensures "Amount" !in row ==> a == Some(0.0)
    ensures "Amount" in row ==> a == parse(row["Amount"])
  {
    if "Amount" in row then parse(row["Amount"]) else Some(0.0)
  }

  /**
   * The row after `row.setdefault(key, 'N/A')` for every column: the missing columns appear with
   * the placeholder and every column the row already had keeps its text.
   */
  function WithDefaults(row: Row): (r: Row)
    ensures r.Keys == row.Keys + FieldSet
    ensures forall k :: k in row ==> r[k] == row[k]
    ensures forall k :: k in r && k !in row ==> r[k] == Missing
  {
    map k | k in row.Keys + FieldSet :: if k in row then row[k] else Missing
  }

  /** The setdefault loop itself, one column after the other. */
  method FillDefaults(row: Row) returns (r: Row)
    ensures r == WithDefaults(row)
  {
    r := row;
    for i := 0 to |FieldNames|
      invariant r.Keys == row.Keys + (set j | 0 <= j < i :: FieldNames[j])
      invariant forall k :: k in r ==> r[k] == if k in row then row[k] else Missing
    {
      var key := FieldNames[i];
      if key !in r {
        r := r[key := Missing];
      }
    }
    assert (set j | 0 <= j < |FieldNames| :: FieldNames[j]) == FieldSet;
  }

  /** The record a row with every column present becomes, given its converted amount. */
  function Record(filled: Row, amount: real): (t: Transaction)
    requires FieldSet <= filled.Keys
    ensures t.date == filled["Date"] && t.description == filled["Description"] && t.kind == filled["Type"]
    ensures t.category == Some(filled["Category"]) && t.amount == amount
  {
    assert "Date" in FieldSet && "Description" in FieldSet && "Type" in FieldSet && "Category" in FieldSet;
    Transaction(filled["Date"], filled["Description"], filled["Type"], Some(filled["Category"]), amount)
  }

  /** The record a kept row becomes: its text columns after defaulting, and the converted amount. */
  function Loaded(row: Row, amount: real): (t: Transaction)
    ensures t.category.Some? && t.amount == amount
    ensures t.date == (if "Date" in row then row["Date"] else Missing)
    ensures t.description == (if "Description" in row then row["Description"] else Missing)
    ensures t.kind == (if "Type" in row then row["Type"] else Missing)
    ensures t.category.value == (if "Category" in row then row["Category"] else Missing)
  {
    Record(WithDefaults(row), amount)
  }

  /** The records loading produces from rows, read from the first row to the last. */
  function Coerce(rows: seq<Row>, parse: AmountParser): (ts: seq<Transaction>)
    ensures |ts| <= |rows|
    ensures forall t :: t in ts ==> t.category.Some?
  {
    if rows == [] then []
    else
      var last := rows[|rows| - 1];
      var kept := Coerce(rows[..|rows| - 1], parse);
      match RowAmount(last, parse)
      case None => kept
      case Some(a) => kept + [Loaded(last, a)]
  }

  /** The positions of the rows whose amount converts, in increasing order. */
  function KeptIndices(rows: seq<Row>, parse: AmountParser): seq<nat>
  {
    if rows == [] then []
    else
      var n := |rows| - 1;
      KeptIndices(rows[..n], parse) + if RowAmount(rows[n], parse).Some? then [n] else []
  }

  /** Each record of ts is built from the row idx names for it, and that row's amount converts. */
  ghost predicate BuiltFrom(rows: seq<Row>, parse: AmountParser, ts: seq<Transaction>, idx: seq<nat>)
  {
    && |idx| == |ts|
    && forall k :: 0 <= k < |idx| ==>
         idx[k] < |rows| && RowAmount(rows[idx[k]], parse).Some?
         && ts[k] == Loaded(rows[idx[k]], RowAmount(rows[idx[k]], parse).value)
  }

  ghost predicate StrictlyIncreasing(idx: seq<nat>)
  {
    forall k, l :: 0 <= k < l < |idx| ==> idx[k] < idx[l]
  }

  /** No row whose amount converts is left out. */
  ghost predicate Covers(rows: seq<Row>, parse: AmountParser, idx: seq<nat>)
  {
    forall i :: 0 <= i < |rows| && RowAmount(rows[i], parse).Some? ==> i in idx
  }

  /**
   * Loading keeps exactly the rows whose amount converts, in their original order, and drops the
   * rest: the records correspond one to one, in increasing row position, to the converting rows.
   */
  lemma {:induction false} CoerceKeepsExactly(rows: seq<Row>, parse: AmountParser)
    ensures BuiltFrom(rows, parse, Coerce(rows, parse), KeptIndices(rows, parse))
    ensures StrictlyIncreasing(KeptIndices(rows, parse))
    ensures Covers(rows, parse, KeptIndices(rows, parse))
  {
    KeptIndicesOrdered(rows, parse);
    KeptIndicesCover(rows, parse);
    CoerceBuiltFrom(rows, parse);
  }

  lemma {:induction false} KeptIndicesOrdered(rows: seq<Row>, parse: AmountParser)
    ensures forall k :: 0 <= k < |KeptIndices(rows, parse)| ==> KeptIndices(rows, parse)[k] < |rows|
    ensures StrictlyIncreasing(KeptIndices(rows, parse))
  {
    if rows != [] {
      KeptIndicesOrdered(rows[..|rows| - 1], parse);
    }
  }

  lemma {:induction false} KeptIndicesCover(rows: seq<Row>, parse: AmountParser)
    ensures Covers(rows, parse, KeptIndices(rows, parse))
  {
    if rows != [] {
      var n := |rows| - 1;
      var init := rows[..n];
      KeptIndicesCover(init, parse);
      forall i | 0 <= i < |rows| && RowAmount(rows[i], parse).Some?
        ensures i in KeptIndices(rows, parse)
      {
        if i < n {
          assert init[i] == rows[i];
        }
      }
    }
  }

  lemma {:induction false} CoerceBuiltFrom(rows: seq<Row>, parse: AmountParser)
    ensures BuiltFrom(rows, parse, Coerce(rows, parse), KeptIndices(rows, parse))
  {
    if rows != [] {
      var n := |rows| - 1;
      var init := rows[..n];
      CoerceBuiltFrom(init, parse);
      KeptIndicesOrdered(init, parse);
      var ts0, idx0 := Coerce(init, parse), KeptIndices(init, parse);
      var ts, idx := Coerce(rows, parse), KeptIndices(rows, parse);
      var a := RowAmount(rows[n], parse);
      var newTs := if a.Some? then [Loaded(rows[n], a.value)] else [];
      var newIdx := if a.Some? then [n] else [];
      assert ts == ts0 + newTs;
      assert idx == idx0 + newIdx;
      forall k | 0 <= k < |idx0|
        ensures idx[k] < |rows| && RowAmount(rows[idx[k]], parse).Some?
        ensures ts[k] == Loaded(rows[idx[k]], RowAmount(rows[idx[k]], parse).value)
      {
        assert ts[k] == ts0[k] && idx[k] == idx0[k];
        assert init[idx0[k]] == rows[idx0[k]];
      }
    }
  }

  /**
   * The row loop of the loader: a row whose amount does not convert is skipped and counted, never
   * raised; every other row gets its missing columns defaulted and is appended.
   */
  method LoadRows(rows: seq<Row>, parse: AmountParser) returns (ts: seq<Transaction>, skipped: nat)
    ensures ts == Coerce(rows, parse)
    ensures skipped + |ts| == |rows|
    ensures WellFormed(ts)
  {
    ts, skipped := [], 0;
    for i := 0 to |rows|
      invariant ts == Coerce(rows[..i], parse)
      invariant skipped + |ts| == i
    {
      assert rows[..i + 1][..i] == rows[..i];
      var row := rows[i];
      var amount := RowAmount(row, parse);
      if amount.None? {
        skipped := skipped + 1;
        continue;
      }
      var filled := FillDefaults(row);
      ts := ts + [Record(filled, amount.value)];
    }
    assert rows[..|rows|] == rows;
  }
}
