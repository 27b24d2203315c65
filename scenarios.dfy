/** Concrete ledgers worked through the views: the balance, the monthly summary and the filter. */
module Scenarios {
  import opened Wrappers
  import opened Text
  import opened Transactions
  import opened Views
  import opened Monthly

  /** An income of 100, an expense of 30 and a transfer of 10 leave a balance of 60. */
  lemma BalanceChargesUnknownTypes()
    ensures Balance([
      Transaction("2024-01-01", "Sale", "Income", None, 100.0),
      Transaction("2024-01-02", "Stock", "Expense", Some("Supplies"), 30.0),
      Transaction("2024-01-03", "Move", "Transfer", Some("Bank"), 10.0)]) == 60.0
  {
    LowerIncome();
    LowerExpense();
    var r := Lower("Transfer");
    assert r[0] == 't';
  }

  /** Two January rent payments share one key, "2024-01 - Rent", totalling 700. */
  lemma RentSharesOneKey()
    ensures Summarize([
      Transaction("2024-01-05", "Rent", "Expense", Some("Rent"), 500.0),
      Transaction("2024-01-20", "Rent", "Expense", Some("Rent"), 200.0)]) == [("2024-01 - Rent", 700.0)]
  {
    LowerExpense();
    var ts := [
      Transaction("2024-01-05", "Rent", "Expense", Some("Rent"), 500.0),
      Transaction("2024-01-20", "Rent", "Expense", Some("Rent"), 200.0)];
    assert ts[..1] == [ts[0]];
    assert [ts[0]][..0] == [];
    assert MonthKey(ts[0]) == "2024-01 - Rent";
    assert MonthKey(ts[1]) == "2024-01 - Rent";
  }

  /** Asking for income on a ledger of expenses reports that nothing matched, rather than listing nothing. */
  lemma NoIncomeAmongExpenses()
    ensures Show([Transaction("2024-02-01", "Power", "Expense", Some("Utilities"), 40.0)], Some("Income"))
      == NoMatches("income")
  {
    LowerIncome();
    LowerExpense();
  }

  /** Listing a ledger that holds an income record added in the session, which has no Category, fails at that record. */
  lemma IncomeRecordStopsListing()
    ensures Show([
      Transaction("2024-03-01", "Rent", "Expense", Some("Rent"), 500.0),
      Transaction("2024-03-02", "Sale", "Income", None, 80.0)], None).Unprintable?
  {
    var ts := [
      Transaction("2024-03-01", "Rent", "Expense", Some("Rent"), 500.0),
      Transaction("2024-03-02", "Sale", "Income", None, 80.0)];
    assert ts[1] in ts && ts[1].category.None?;
  }
}
