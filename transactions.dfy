/** The transaction record and the facts about its Type column shared by every operation. */
module Transactions {
  import opened Wrappers
  import opened Text

  /**
   * One ledger row. `kind` holds the Type column (Income, Expense or anything else a user typed);
   * `category` is None for the records the income constructor builds, which carry no Category key.
   */
  datatype Transaction = Transaction(
    date: string,
    description: string,
    kind: string,
    category: Option<string>,
    amount: real)

  /** The number conversion the ledger applies to an amount answer; None stands for a ValueError. */
  type AmountParser = string -> Option<real>

  /** The column order of the backing file. */
  const FieldNames: seq<string> := ["Date", "Description", "Type", "Category", "Amount"]

  /** The value `setdefault` gives a column that a loaded row lacks. */
  const Missing: string := "N/A"

  /** `t['Type'].lower() == name.lower()`. */
  predicate IsType(t: Transaction, name: string)
  {
    Lower(t.kind) == Lower(name)
  }

  predicate IsIncome(t: Transaction)
  {
    Lower(t.kind) == "income"
  }

  predicate IsExpense(t: Transaction)
  {
    Lower(t.kind) == "expense"
  }

  /** Every record the monthly summary looks at has a Category to key it by. */
  predicate CategoriesPresent(ts: seq<Transaction>)
  {
    forall t :: t in ts && IsExpense(t) ==> t.category.Some?
  }

  /** Some record of ts has no Category, so printing it in the listing fails. */
  predicate HasUncategorized(ts: seq<Transaction>)
  {
    exists t :: t in ts && t.category.None?
  }

  /**
   * The shape every record of a live session has: only the income constructor leaves out the
   * Category, and it always writes the Type "Income".
   */
  predicate WellFormed(ts: seq<Transaction>)
  {
    forall t :: t in ts ==> t.category.Some? || t.kind == "Income"
  }

  lemma LowerIncome()
    ensures Lower("Income") == "income"
  {
    var r := Lower("Income");
    assert forall i :: 0 <= i < 6 ==> r[i] == "income"[i];
  }

  lemma LowerExpense()
    ensures Lower("Expense") == "expense"
  {
    var r := Lower("Expense");
    assert forall i :: 0 <= i < 7 ==> r[i] == "expense"[i];
  }

  /** A record without a Category is never an expense, so well-formed records can be summarised by month. */
  lemma WellFormedCategoriesPresent(ts: seq<Transaction>)
    requires WellFormed(ts)
    ensures CategoriesPresent(ts)
  {
    forall t | t in ts && IsExpense(t)
      ensures t.category.Some?
    {
      LowerIncome();
    }
  }
}
