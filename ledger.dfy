/**
 * The session's ledger: the list of records the menu actions append to and edit in place. Every
 * answer the user types and the current date are parameters of the operations.
 */
module LedgerStore {
  import opened Wrappers
  import opened Text
  import opened Transactions
  import opened Views

  /** How an edit ended, one case per message the editor can end with. */
  datatype UpdateOutcome =
    | NothingToUpdate                // the ledger is empty; no question is asked
    | ListingFailed                  // listing the ledger before the question fails on a record without a Category
    | InvalidInput                   // the position answer is not an integer
    | InvalidPosition                // the position is outside 1 .. number of records
    | Updated(amountRejected: bool)  // the record was edited; a non-blank amount that did not convert was ignored

  class Ledger {
    var records: seq<Transaction>

    ghost predicate Valid()
      reads this
    {
      WellFormed(records)
    }

    /** The ledger a session starts with: the records loading produced. */
    constructor (loaded: seq<Transaction>)
      requires WellFormed(loaded)
      ensures Valid() && records == loaded
    {
      records := loaded;
    }

    /**
     * Appends an income record when the amount converts: a blank date becomes today, the Type is
     * "Income" and there is no Category. A bad amount leaves the ledger as it was. An added record
     * raises the balance by its amount.
     */
    method AddIncome(dateAnswer: string, description: string, amountAnswer: string, today: string, parse: AmountParser)
      returns (added: bool)
      requires Valid()
      modifies this
      ensures Valid()
      ensures added <==> parse(amountAnswer).Some?
      ensures !added ==> records == old(records)
      ensures added ==> |records| == |old(records)| + 1 && records[..|old(records)|] == old(records)
      ensures added ==> records[|old(records)|] == Transaction(
        if dateAnswer == "" then today else dateAnswer, description, "Income", None, parse(amountAnswer).value)
      ensures added ==> Balance(records) == Balance(old(records)) + parse(amountAnswer).value
    {
      var date := OrElse(dateAnswer, today);
      var amount := parse(amountAnswer);
      if amount.None? {
        return false;
      }
      var t := Transaction(date, description, "Income", None, amount.value);
      BalanceAppendOne(records, t);
      LowerIncome();
      assert Signed(t) == amount.value;
      records := records + [t];
      added := true;
      assert records[..|old(records)|] == old(records);
    }

    /**
     * Appends an expense record when the amount converts: a blank date becomes today, a blank
     * category becomes "Expense" and the Type is "Expense". A bad amount leaves the ledger as it
     * was. An added record lowers the balance by its amount.
     */
    method AddExpense(dateAnswer: string, description: string, categoryAnswer: string, amountAnswer: string,
                      today: string, parse: AmountParser)
      returns (added: bool)
      requires Valid()
      modifies this
      ensures Valid()
      ensures added <==> parse(amountAnswer).Some?
      ensures !added ==> records == old(records)
      ensures added ==> |records| == |old(records)| + 1 && records[..|old(records)|] == old(records)
      ensures added ==> records[|old(records)|] == Transaction(
        if dateAnswer == "" then today else dateAnswer, description, "Expense",
        Some(if categoryAnswer == "" then "Expense" else categoryAnswer), parse(amountAnswer).value)
      ensures added ==> Balance(records) == Balance(old(records)) - parse(amountAnswer).value
    {
      var date := OrElse(dateAnswer, today);
      var category := OrElse(categoryAnswer, "Expense");
      var amount := parse(amountAnswer);
      if amount.None? {
        return false;
      }
      var t := Transaction(date, description, "Expense", Some(category), amount.value);
      BalanceAppendOne(records, t);
      LowerExpense();
      assert Signed(t) == -t.amount;
      records := records + [t];
      added := true;
      assert records[..|old(records)|] == old(records);
    }

    /**
     * Appends a payroll record when the salary converts: dated today, described as
     * "Payroll - " followed by the employee, Type "Expense", Category "Payroll". A bad salary leaves
     * the ledger as it was.
     */
    method AddPayroll(employee: string, salaryAnswer: string, today: string, parse: AmountParser)
      returns (added: bool)
      requires Valid()
      modifies this
      ensures Valid()
      ensures added <==> parse(salaryAnswer).Some?
      ensures !added ==> records == old(records)
      ensures added ==> |records| == |old(records)| + 1 && records[..|old(records)|] == old(records)
      ensures added ==> records[|old(records)|] == Transaction(
        today, "Payroll - " + employee, "Expense", Some("Payroll"), parse(salaryAnswer).value)
      ensures added ==> Balance(records) == Balance(old(records)) - parse(salaryAnswer).value
    {
      var salary := parse(salaryAnswer);
      if salary.None? {
        return false;
      }
      var t := Transaction(today, "Payroll - " + employee, "Expense", Some("Payroll"), salary.value);
      BalanceAppendOne(records, t);
      LowerExpense();
      assert Signed(t) == -t.amount;
      records := records + [t];
      added := true;
      assert records[..|old(records)|] == old(records);
    }

    /**
     * Edits the record at a 1-based position in place, after listing the whole ledger. The listing
     * fails, before any question, when some record has no Category; the ledger is then unchanged.
     * Otherwise each blank answer keeps the old Description, Type or Category; a blank amount keeps
     * the old Amount, and so does one that does not convert. Every other record, and the number of
     * records, stay as they were.
     */
    method Update(position: Option<int>, descriptionAnswer: string, typeAnswer: string, categoryAnswer: string,
                  amountAnswer: string, parse: AmountParser)
      returns (outcome: UpdateOutcome)
      requires Valid()
      modifies this
      ensures Valid()
      ensures outcome == NothingToUpdate <==> old(records) == []
      ensures outcome == ListingFailed <==> old(records) != [] && HasUncategorized(old(records))
      ensures outcome == ListingFailed <==> Show(old(records), None).Unprintable?
      ensures outcome == InvalidInput <==>
        old(records) != [] && !HasUncategorized(old(records)) && position.None?
      ensures outcome == InvalidPosition <==>
        old(records) != [] && !HasUncategorized(old(records)) && position.Some?
        && !(1 <= position.value <= |old(records)|)
      ensures !outcome.Updated? ==> records == old(records)
      ensures outcome.Updated? ==>
        position.Some? && 1 <= position.value <= |old(records)| && |records| == |old(records)|
        && forall j :: 0 <= j < |records| && j != position.value - 1 ==> records[j] == old(records)[j]
      ensures outcome.Updated? ==>
        var before := old(records)[position.value - 1];
        var after := records[position.value - 1];
        && after.date == before.date
        && after.description == (if descriptionAnswer == "" then before.description else descriptionAnswer)
        && after.kind == (if typeAnswer == "" then before.kind else typeAnswer)
        && before.category.Some?
        && after.category == Some(if categoryAnswer == "" then before.category.value else categoryAnswer)
        && after.amount == (if amountAnswer != "" && parse(amountAnswer).Some? then parse(amountAnswer).value else before.amount)
        && outcome.amountRejected == (amountAnswer != "" && parse(amountAnswer).None?)
      ensures outcome.Updated? && descriptionAnswer == typeAnswer == categoryAnswer == amountAnswer == "" ==>
        records == old(records)
    {
      if records == [] {
        return NothingToUpdate;
      }
      if Show(records, None).Unprintable? {
        return ListingFailed;
      }
      if position.None? {
        return InvalidInput;
      }
      var index := position.value - 1;
      if !(0 <= index < |records|) {
        return InvalidPosition;
      }
      var t := records[index];
      assert t in old(records);
      t := t.(description := OrElse(descriptionAnswer, t.description));
      records := records[index := t];
      t := t.(kind := OrElse(typeAnswer, t.kind));
      records := records[index := t];
      t := t.(category := Some(OrElse(categoryAnswer, t.category.value)));
      records := records[index := t];
      var rejected := false;
      if amountAnswer != "" {
        var amount := parse(amountAnswer);
        if amount.Some? {
          t := t.(amount := amount.value);
          records := records[index := t];
        } else {
          rejected := true;
        }
      }
      outcome := Updated(rejected);
    }
  }
}
