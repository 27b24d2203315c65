/** The read-only views over the ledger: the Type filter of the listing and the balance. */
module Views {
  import opened Wrappers
  import opened Text
  import opened Transactions

  /**
   * The records whose Type, lower-cased, equals name lower-cased (keep == true), or the records
   * whose Type does not (keep == false), in the order of ts.
   */
  function Select(ts: seq<Transaction>, name: string, keep: bool): (r: seq<Transaction>)
    ensures |r| <= |ts|
    ensures forall t :: multiset(r)[t] == if IsType(t, name) == keep then multiset(ts)[t] else 0
  {
    if ts == [] then []
    else
      assert ts == [ts[0]] + ts[1..];
      (if IsType(ts[0], name) == keep then [ts[0]] else []) + Select(ts[1..], name, keep)
  }

  /** Selecting commutes with concatenation, so the relative order of the kept records is that of ts. */
  lemma {:induction false} SelectAppend(a: seq<Transaction>, b: seq<Transaction>, name: string, keep: bool)
    ensures Select(a + b, name, keep) == Select(a, name, keep) + Select(b, name, keep)
  {
    if a == [] {
      assert a + b == b;
      assert Select(a, name, keep) == [];
    } else {
      var head := if IsType(a[0], name) == keep then [a[0]] else [];
      assert (a + b)[0] == a[0];
      assert (a + b)[1..] == a[1..] + b;
      SelectAppend(a[1..], b, name, keep);
      calc {
        Select(a + b, name, keep);
        head + Select(a[1..] + b, name, keep);
        head + (Select(a[1..], name, keep) + Select(b, name, keep));
        (head + Select(a[1..], name, keep)) + Select(b, name, keep);
        Select(a, name, keep) + Select(b, name, keep);
      }
    }
  }

  /** Python's truthiness of the optional filter: None and the empty string mean "no filter". */
  predicate Active(filter: Option<string>)
  {
    filter.Some? && filter.value != ""
  }

  /** The list comprehension behind the view options. */
  function FilterByType(ts: seq<Transaction>, filter: Option<string>): (r: seq<Transaction>)
    ensures !Active(filter) ==> r == ts
    ensures Active(filter) ==>
      forall t :: multiset(r)[t] == if IsType(t, filter.value) then multiset(ts)[t] else 0
  {
    if Active(filter) then Select(ts, filter.value, true) else ts
  }

  /**
   * What the listing shows: nothing to list, nothing matching the filter, the records to print,
   * or records of which one has no Category, so printing stops with an uncaught KeyError there.
   */
  datatype Listing =
    | NoTransactions
    | NoMatches(shownFilter: string)
    | Rows(records: seq<Transaction>)
    | Unprintable(records: seq<Transaction>)

  /**
   * The listing: an empty ledger, then an active filter that matches nothing (reported with the
   * lower-cased filter), otherwise the filtered records, which print only if each has a Category.
   */
  function Show(ts: seq<Transaction>, filter: Option<string>): (v: Listing)
    ensures v == NoTransactions <==> ts == []
    ensures v.NoMatches? <==> ts != [] && Active(filter) && forall t :: t in ts ==> !IsType(t, filter.value)
    ensures v.NoMatches? ==> v.shownFilter == Lower(filter.value)
    ensures v.Rows? || v.Unprintable? ==> v.records != [] && v.records == FilterByType(ts, filter)
    ensures v.Rows? ==> !HasUncategorized(v.records)
    ensures v.Unprintable? ==> HasUncategorized(v.records)
  {
    if ts == [] then NoTransactions
    else
      var shown := FilterByType(ts, filter);
      if Active(filter) && shown == [] then
        assert forall t :: t in ts ==> !IsType(t, filter.value) by {
          forall t | t in ts ensures !IsType(t, filter.value) {
            assert multiset(shown)[t] == 0;
          }
        }
        NoMatches(Lower(filter.value))
      else
        assert Active(filter) ==> exists t :: t in ts && IsType(t, filter.value) by {
          if Active(filter) {
            var t := shown[0];
            assert multiset(shown)[t] > 0;
          }
        }
        if HasUncategorized(shown) then Unprintable(shown) else Rows(shown)
  }

  /** The sum of the amounts of ts. */
  function Total(ts: seq<Transaction>): real
  {
    if ts == [] then 0.0 else ts[0].amount + Total(ts[1..])
  }

  /** What one record adds to the balance: its amount for income, minus its amount for any other Type. */
  function Signed(t: Transaction): real
  {
    if IsIncome(t) then t.amount else -t.amount
  }

  /**
   * The balance, summed from the first record to the last: the income total minus the total of
   * every record that is not income, whatever its Type (expense, a misspelt type or "N/A").
   */
  function Balance(ts: seq<Transaction>): (r: real)
    ensures r == Total(Select(ts, "income", true)) - Total(Select(ts, "income", false))
  {
    if ts == [] then 0.0
    else
      var t, rest := ts[0], Balance(ts[1..]);
      var inc, other := Select(ts[1..], "income", true), Select(ts[1..], "income", false);
      assert IsType(t, "income") == IsIncome(t) by {
        LowerIdempotent("income");
        LowerIncome();
      }
      assert IsIncome(t) ==> Select(ts, "income", true) == [t] + inc && Select(ts, "income", false) == other;
      assert !IsIncome(t) ==> Select(ts, "income", true) == inc && Select(ts, "income", false) == [t] + other;
      assert ([t] + inc)[1..] == inc && ([t] + other)[1..] == other;
      Signed(t) + rest
  }

  /** Balance of a ledger grown at the end: the old balance plus what the new records contribute. */
  lemma {:induction false} BalanceAppend(a: seq<Transaction>, b: seq<Transaction>)
    ensures Balance(a + b) == Balance(a) + Balance(b)
  {
    if a == [] {
      assert a + b == b;
    } else {
      assert (a + b)[0] == a[0];
      assert (a + b)[1..] == a[1..] + b;
      BalanceAppend(a[1..], b);
    }
  }

  /** Appending one record moves the balance by that record's signed amount. */
  lemma BalanceAppendOne(ts: seq<Transaction>, t: Transaction)
    ensures Balance(ts + [t]) == Balance(ts) + Signed(t)
  {
    BalanceAppend(ts, [t]);
    assert [t][1..] == [];
  }
}
