/** Worked sessions and stores, whose outcomes are proved from the model's definitions. */
module Scenarios {
  import opened Wrappers
  import opened Expenses
  import opened AmountInput
  import opened Tracker
  import opened Menu

  /** Two food expenses and one transport expense: total 59.75, food 19.75, transport 40.00. */
  lemma ScenarioLunchCoffeeBus()
    ensures var s := [Expense(12.5, "Food", "Lunch"), Expense(7.25, "Food", "Coffee"), Expense(40.0, "Transport", "")];
            && SumAmounts(s) == 59.75
            && CategoryKeys(s) == ["Food", "Transport"]
            && CategoryTotals(s) == map["Food" := 19.75, "Transport" := 40.0]
  {
    var a, b, c := Expense(12.5, "Food", "Lunch"), Expense(7.25, "Food", "Coffee"), Expense(40.0, "Transport", "");
    var s := [a, b, c];
    assert s[..2] == [a, b] && [a, b][..1] == [a] && [a][..0] == [];
    assert SumAmounts([a]) == 12.5;
    assert SumAmounts([a, b]) == 19.75;
    assert "Food" != "Transport";
    assert CategoryKeys([a]) == ["Food"];
    assert CategoryKeys([a, b]) == ["Food"];
    assert CategoryTotals([a]) == map["Food" := 12.5];
    assert CategoryTotals([a, b]) == map["Food" := 19.75];
  }

  /** Categories differing in case or trailing blank are kept apart. */
  lemma ScenarioExactCategories()
    ensures CategoryKeys([Expense(1.0, "Food", ""), Expense(2.0, "food", ""), Expense(3.0, "Food ", "")]) == ["Food", "food", "Food "]
  {
    var a, b, c := Expense(1.0, "Food", ""), Expense(2.0, "food", ""), Expense(3.0, "Food ", "");
    assert [a, b, c][..2] == [a, b] && [a, b][..1] == [a] && [a][..0] == [];
    assert "Food" != "food" && "Food" != "Food " && "food" != "Food ";
    assert CategoryKeys([a]) == ["Food"];
    assert CategoryKeys([a, b]) == ["Food", "food"];
  }

  /** The amount prompt refuses "abc", 0 and -5, each with its reason, and accepts 15. */
  lemma ScenarioRetryAmount()
    ensures ScanAmount([NotANumber, Number(0.0), Number(-5.0), Number(15.0)])
         == Scan(Some(15.0), [NotNumeric, NotPositive, NotPositive], 4)
  {
    var lines := [NotANumber, Number(0.0), Number(-5.0), Number(15.0)];
    assert lines[1..] == [Number(0.0), Number(-5.0), Number(15.0)];
    assert lines[1..][1..] == [Number(-5.0), Number(15.0)];
    assert lines[1..][1..][1..] == [Number(15.0)];
  }

  /** The add pass records 15 in the empty store and reports the three refusals. */
  lemma ScenarioRetryAddPass()
    ensures Step([], Turn("1", [NotANumber, Number(0.0), Number(-5.0), Number(15.0)], "Misc", ""))
         == Pass([Expense(15.0, "Misc", "")], Shown(ExpenseAdded([NotNumeric, NotPositive, NotPositive])), Running)
  {
    ScenarioRetryAmount();
  }

  /** The total view over the one record shows 15. */
  lemma ScenarioRetryTotalPass()
    ensures Step([Expense(15.0, "Misc", "")], Turn("3", [], "", ""))
         == Pass([Expense(15.0, "Misc", "")], Shown(TotalSpent(15.0)), Running)
  {
    var e := Expense(15.0, "Misc", "");
    assert [e][..0] == [];
  }

  /** After the total view, "5" says goodbye and ends the session. */
  lemma ScenarioRetryTail()
    ensures Session([Expense(15.0, "Misc", "")], [Turn("3", [], "", ""), Turn("5", [], "", "")])
         == Outcome([Expense(15.0, "Misc", "")], [Shown(TotalSpent(15.0)), Goodbye], Exited, 2)
  {
    var e := Expense(15.0, "Misc", "");
    var total, exit := Turn("3", [], "", ""), Turn("5", [], "", "");
    ScenarioRetryTotalPass();
    assert Session([e], [exit]) == Outcome([e], [Goodbye], Exited, 1);
    assert [total, exit][1..] == [exit];
  }

  /**
   * An add that needs three tries records 15 as the only record; the total
   * view then shows 15 and "5" ends the session.
   */
  lemma ScenarioRetryThenAdd()
    ensures var r := Session([], [Turn("1", [NotANumber, Number(0.0), Number(-5.0), Number(15.0)], "Misc", ""),
                                  Turn("3", [], "", ""), Turn("5", [], "", "")]);
            && r.records == [Expense(15.0, "Misc", "")]
            && r.screens == [Shown(ExpenseAdded([NotNumeric, NotPositive, NotPositive])), Shown(TotalSpent(15.0)), Goodbye]
            && r.status == Exited
  {
    var add := Turn("1", [NotANumber, Number(0.0), Number(-5.0), Number(15.0)], "Misc", "");
    var total, exit := Turn("3", [], "", ""), Turn("5", [], "", "");
    ScenarioRetryAddPass();
    ScenarioRetryTail();
    assert [add, total, exit][1..] == [total, exit];
  }
}
