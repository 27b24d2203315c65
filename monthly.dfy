/**
 * The monthly expense summary: expense amounts totalled per "YYYY-MM - Category" key, in an
 * insertion-ordered dictionary.
 */
module Monthly {
  import opened Text
  import opened Transactions

  /** The dictionary as its (key, total) pairs, in insertion order. */
  type Summary = seq<(string, real)>

  /** The keys of the dictionary, in insertion order. */
  function Keys(m: Summary): (ks: seq<string>)
    ensures |ks| == |m|
    ensures forall i :: 0 <= i < |m| ==> ks[i] == m[i].0
  {
    if m == [] then [] else [m[0].0] + Keys(m[1..])
  }

  /** `monthly.get(key, 0)`: the total stored under k, or 0 when k is not a key. */
  function Lookup(m: Summary, k: string): (total: real)
    ensures k !in Keys(m) ==> total == 0.0
    ensures k in Keys(m) ==> exists i :: 0 <= i < |m| && m[i] == (k, total) && k !in Keys(m)[..i]
  {
    if m == [] then 0.0 else if m[0].0 == k then m[0].1 else Lookup(m[1..], k)
  }

  /**
   * `monthly[key] = monthly.get(key, 0) + amount`: a known key keeps its place and grows by the
   * amount, a new key goes at the end, and every other total stays as it was.
   */
  function Bump(m: Summary, k: string, amount: real): (r: Summary)
    ensures Keys(r) == if k in Keys(m) then Keys(m) else Keys(m) + [k]
    ensures forall j :: Lookup(r, j) == Lookup(m, j) + if j == k then amount else 0.0
  {
    if m == [] then [(k, amount)]
    else if m[0].0 == k then
      var r := [(k, m[0].1 + amount)] + m[1..];
      assert r[1..] == m[1..];
      assert Keys(r) == Keys(m);
      r
    else
      var rest := Bump(m[1..], k, amount);
      var r := [m[0]] + rest;
      assert r[1..] == rest;
      assert k in Keys(m) <==> k in Keys(m[1..]);
      r
  }

  /**
   * The summary key of a record: the first seven characters of its Date (all of them when the
   * Date is shorter), then " - ", then its Category.
   */
  function MonthKey(t: Transaction): (key: string)
    requires t.category.Some?
    ensures var m := if |t.date| < 7 then |t.date| else 7;
      && |key| == m + 3 + |t.category.value|
      && key[..m] == t.date[..m]
      && key[m..m + 3] == " - "
      && key[m + 3..] == t.category.value
  {
    Prefix(t.date, 7) + " - " + t.category.value
  }

  lemma PrefixCategoriesPresent(ts: seq<Transaction>, n: nat)
    requires n <= |ts| && CategoriesPresent(ts)
    ensures CategoriesPresent(ts[..n])
  {
    forall t | t in ts[..n] ensures t in ts {
      var i :| 0 <= i < n && ts[..n][i] == t;
      assert ts[i] == t;
    }
  }

  /** The summary after the loop has seen ts, record by record. */
  function Summarize(ts: seq<Transaction>): (m: Summary)
    requires CategoriesPresent(ts)
    ensures |m| <= |ts|
    ensures NoDuplicates(Keys(m))
  {
    if ts == [] then []
    else
      var n := |ts| - 1;
      PrefixCategoriesPresent(ts, n);
      var m := Summarize(ts[..n]);
      if IsExpense(ts[n]) then Bump(m, MonthKey(ts[n]), ts[n].amount) else m
  }

  /** The keys of the expense records, one per expense record, in ledger order. */
  function ExpenseKeys(ts: seq<Transaction>): seq<string>
    requires CategoriesPresent(ts)
  {
    if ts == [] then []
    else
      var n := |ts| - 1;
      PrefixCategoriesPresent(ts, n);
      ExpenseKeys(ts[..n]) + if IsExpense(ts[n]) then [MonthKey(ts[n])] else []
  }

  /** The sum of the amounts of the expense records whose key is k. */
  function ExpenseTotal(ts: seq<Transaction>, k: string): real
    requires CategoriesPresent(ts)
  {
    if ts == [] then 0.0
    else
      var n := |ts| - 1;
      PrefixCategoriesPresent(ts, n);
      ExpenseTotal(ts[..n], k) + if IsExpense(ts[n]) && MonthKey(ts[n]) == k then ts[n].amount else 0.0
  }

  /** s with every repeated element dropped, each element kept at its first occurrence. */
  function FirstOccurrences(s: seq<string>): seq<string>
  {
    if s == [] then []
    else
      var d := FirstOccurrences(s[..|s| - 1]);
      if s[|s| - 1] in d then d else d + [s[|s| - 1]]
  }

  predicate NoDuplicates(s: seq<string>)
  {
    forall i, j :: 0 <= i < j < |s| ==> s[i] != s[j]
  }

  /** The position of the first occurrence of x in s. */
  function FirstIndex(s: seq<string>, x: string): (i: nat)
    requires x in s
    ensures i < |s| && s[i] == x
    ensures forall j :: 0 <= j < i ==> s[j] != x
  {
    if s[0] == x then 0 else 1 + FirstIndex(s[1..], x)
  }

  lemma FirstIndexAppend(s: seq<string>, y: string, x: string)
    requires x in s
    ensures FirstIndex(s + [y], x) == FirstIndex(s, x)
  {
    var i, i' := FirstIndex(s, x), FirstIndex(s + [y], x);
    assert (s + [y])[i] == x;
    assert i' <= i;
    assert s[i'] == (s + [y])[i'];
  }

  /**
   * FirstOccurrences keeps each element of s exactly once, and lists them in the order of their
   * first occurrence in s.
   */
  lemma {:induction false} FirstOccurrencesSpec(s: seq<string>)
    ensures forall x :: x in FirstOccurrences(s) <==> x in s
    ensures NoDuplicates(FirstOccurrences(s))
    ensures forall i, j :: 0 <= i < j < |FirstOccurrences(s)| ==>
      FirstIndex(s, FirstOccurrences(s)[i]) < FirstIndex(s, FirstOccurrences(s)[j])
  {
    if s != [] {
      var n := |s| - 1;
      var init, y := s[..n], s[n];
      assert s == init + [y];
      FirstOccurrencesSpec(init);
      var d := FirstOccurrences(init);
      forall x | x in init ensures FirstIndex(s, x) == FirstIndex(init, x) {
        FirstIndexAppend(init, y, x);
      }
      if y !in d {
        assert FirstIndex(s, y) == n;
      }
    }
  }

  /** The summary holds, for each key, the total of the expense records sharing that key. */
  lemma {:induction false} SummarizeTotals(ts: seq<Transaction>, k: string)
    requires CategoriesPresent(ts)
    ensures Lookup(Summarize(ts), k) == ExpenseTotal(ts, k)
  {
    if ts != [] {
      PrefixCategoriesPresent(ts, |ts| - 1);
      SummarizeTotals(ts[..|ts| - 1], k);
    }
  }

  /** The summary's keys are the expense keys in first-occurrence order. */
  lemma {:induction false} SummarizeKeys(ts: seq<Transaction>)
    requires CategoriesPresent(ts)
    ensures Keys(Summarize(ts)) == FirstOccurrences(ExpenseKeys(ts))
  {
    if ts != [] {
      var n := |ts| - 1;
      PrefixCategoriesPresent(ts, n);
      SummarizeKeys(ts[..n]);
      var ks := ExpenseKeys(ts[..n]);
      var m := Summarize(ts[..n]);
      if IsExpense(ts[n]) {
        var k := MonthKey(ts[n]);
        assert Summarize(ts) == Bump(m, k, ts[n].amount);
        assert ExpenseKeys(ts) == ks + [k];
        assert (ks + [k])[..|ks|] == ks;
        assert FirstOccurrences(ks + [k]) == if k in FirstOccurrences(ks) then FirstOccurrences(ks) else FirstOccurrences(ks) + [k];
      } else {
        assert Summarize(ts) == m;
        assert ExpenseKeys(ts) == ks + [];
        assert ks + [] == ks;
      }
    }
  }

  /**
   * The aggregation loop: for each expense record, add its amount under its month-and-category
   * key. The result lists each expense key once, in first-occurrence order, with the total of the
   * amounts under it; every other key totals 0.
   */
  method MonthlyExpenses(ts: seq<Transaction>) returns (monthly: Summary)
    requires CategoriesPresent(ts)
    ensures monthly == Summarize(ts)
    ensures Keys(monthly) == FirstOccurrences(ExpenseKeys(ts))
    ensures NoDuplicates(Keys(monthly))
    ensures forall k :: k in Keys(monthly) <==> k in ExpenseKeys(ts)
    ensures forall k :: Lookup(monthly, k) == ExpenseTotal(ts, k)
  {
    monthly := [];
    for i := 0 to |ts|
      invariant CategoriesPresent(ts[..i])
      invariant monthly == Summarize(ts[..i])
    {
      PrefixCategoriesPresent(ts, i + 1);
      assert ts[..i + 1][..i] == ts[..i];
      var t := ts[i];
      if IsExpense(t) {
        monthly := Bump(monthly, MonthKey(t), t.amount);
      }
    }
    assert ts[..|ts|] == ts;
    SummarizeKeys(ts);
    FirstOccurrencesSpec(ExpenseKeys(ts));
    forall k ensures Lookup(monthly, k) == ExpenseTotal(ts, k) {
      SummarizeTotals(ts, k);
    }
  }
}
