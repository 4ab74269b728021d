/**
 * The expense store and its operations: adding an expense (the amount
 * prompt loop, then the append) and the three views over the store.
 */
module Tracker {
  import opened Wrappers
  import opened Expenses
  import opened AmountInput

  /** One numbered line of the full listing, counted from 1. */
  datatype Entry = Entry(number: nat, expense: Expense)

  /** What an operation of the store reports to the user, without the text formatting. */
  datatype Report =
    | ExpenseAdded(rejections: seq<Rejection>)
    | AmountNotGiven(rejections: seq<Rejection>)
    | NoExpensesRecorded
    | AllExpenses(entries: seq<Entry>)
    | NoExpensesToCalculate
    | TotalSpent(total: real)
    | NoExpensesToSummarize
    | SpentByCategory(categories: seq<string>, totals: map<string, real>)

  /** The full listing: every record in insertion order, numbered from 1. */
  function Listing(s: seq<Expense>): (r: Report) {
    if s == [] then NoExpensesRecorded
    else AllExpenses(seq(|s|, i requires 0 <= i < |s| => Entry(i + 1, s[i])))
  }

  /** The grand total, or the "nothing to calculate" report on an empty store. */
  function TotalReport(s: seq<Expense>): (r: Report) {
    if s == [] then NoExpensesToCalculate else TotalSpent(SumAmounts(s))
  }

  /** The per-category totals, or the "nothing to summarize" report on an empty store. */
  function CategoryReport(s: seq<Expense>): (r: Report) {
    if s == [] then NoExpensesToSummarize else SpentByCategory(CategoryKeys(s), CategoryTotals(s))
  }

  /** The outcome of add_expense on the store `s` reading the amount lines `lines`. */
  function AddOutcome(s: seq<Expense>, lines: seq<Token>, category: string, description: string): (r: (seq<Expense>, Report)) {
    var scan := ScanAmount(lines);
    match scan.amount
    case Some(amount) => (s + [Expense(amount, category, description)], ExpenseAdded(scan.rejections))
    case None => (s, AmountNotGiven(scan.rejections))
  }

  /** The in-memory list of expenses; it only ever grows, one record per successful add. */
  class Ledger {
    var records: seq<Expense>

    ghost predicate Valid()
      reads this
    {
      AllPositive(records)
    }

    /** The store starts empty. */
    constructor ()
      ensures Valid() && records == []
    {
      records := [];
    }

    /** Builds the record and appends it; earlier records stay as they were. */
    method Add(amount: real, category: string, description: string)
      requires Valid()
      requires amount > 0.0
      modifies this
      ensures Valid()
      ensures records == old(records) + [Expense(amount, category, description)]
    {
      records := records + [Expense(amount, category, description)];
    }

    /**
     * Reads amounts until one is above zero, then records it with the
     * category and description typed next. A stream that ends before a
     * valid amount adds nothing.
     */
    method AddExpense(lines: seq<Token>, category: string, description: string) returns (r: Report)
      requires Valid()
      modifies this
      ensures Valid()
      ensures (records, r) == AddOutcome(old(records), lines, category, description)
    {
      var amount, rejections, _ := ReadAmount(lines);
      ScanAmountMeaning(lines);
      match amount
      case Some(a) =>
        Add(a, category, description);
        r := ExpenseAdded(rejections);
      case None =>
        r := AmountNotGiven(rejections);
    }

    /** Lists every record, numbered from 1, in the order they were added. */
    method ViewAll() returns (r: Report)
      ensures records == [] <==> r == NoExpensesRecorded
      ensures records != [] ==>
                && r.AllExpenses?
                && |r.entries| == |records|
                && forall i :: 0 <= i < |records| ==> r.entries[i] == Entry(i + 1, records[i])
      ensures r == Listing(records)
    {
      if |records| == 0 {
        return NoExpensesRecorded;
      }
      var entries: seq<Entry> := [];
      for i := 0 to |records|
        invariant |entries| == i
        invariant forall k :: 0 <= k < i ==> entries[k] == Entry(k + 1, records[k])
      {
        entries := entries + [Entry(i + 1, records[i])];
      }
      r := AllExpenses(entries);
    }

    /** Adds up the amounts of all records; an empty store has nothing to calculate. */
    method ViewTotal() returns (r: Report)
      ensures records == [] ==> r == NoExpensesToCalculate
      ensures records != [] ==> r == TotalSpent(SumAmounts(records))
    {
      if |records| == 0 {
        return NoExpensesToCalculate;
      }
      var total := 0.0;
      for i := 0 to |records|
        invariant total == SumAmounts(records[..i])
      {
        assert records[..i + 1][..i] == records[..i];
        total := total + records[i].amount;
      }
      assert records[..|records|] == records;
      r := TotalSpent(total);
    }

    /**
     * Groups the records by exact category, summing each group's amounts;
     * the categories come out in the order they were first seen.
     */
    method ViewTotalByCategory() returns (r: Report)
      ensures records == [] ==> r == NoExpensesToSummarize
      ensures records != [] ==> r == SpentByCategory(CategoryKeys(records), CategoryTotals(records))
    {
      if |records| == 0 {
        return NoExpensesToSummarize;
      }
      var rs := records;
      var keys: seq<string> := [];
      var totals: map<string, real> := map[];
      for i := 0 to |rs|
        invariant keys == CategoryKeys(rs[..i])
        invariant totals == CategoryTotals(rs[..i])
      {
        ghost var before := totals;
        var cat, amt := rs[i].category, rs[i].amount;
        if cat !in totals {
          keys := keys + [cat];
          totals := totals[cat := 0.0];
        }
        totals := totals[cat := totals[cat] + amt];
        assert keys == CategoryKeys(rs[..i + 1]) && totals == CategoryTotals(rs[..i + 1]) by {
          GroupingStep(rs, i);
          assert totals == before[cat := (if cat in before then before[cat] else 0.0) + amt];
        }
      }
      assert rs[..|rs|] == rs;
      r := SpentByCategory(keys, totals);
    }
  }
}
