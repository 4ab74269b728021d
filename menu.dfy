/**
 * The menu loop of main: each pass reads a choice and dispatches on it;
 * "1" adds an expense, "2" to "4" show the views, "5" ends the loop and
 * any other string is refused.
 */
module Menu {
  import opened Wrappers
  import opened Expenses
  import opened AmountInput
  import opened Tracker

  /**
   * The lines a user types during one pass of the menu: the choice, then,
   * for choice "1" only, the amount lines, the category and the description.
   */
  datatype Turn = Turn(choice: string, amountLines: seq<Token>, category: string, description: string)

  /** Whether the loop goes on, was left with "5", or ran out of input. */
  datatype Status = Running | Exited | InputEnded

  /** What one pass shows. */
  datatype Screen = Shown(report: Report) | Goodbye | InvalidOption

  /** The store, the screen and the status after one pass. */
  datatype Pass = Pass(records: seq<Expense>, screen: Screen, status: Status)

  /** A pass that ends the loop: "5", or an add whose input ends before a valid amount. */
  predicate EndsLoop(turn: Turn) {
    turn.choice == "5" || (turn.choice == "1" && ScanAmount(turn.amountLines).amount.None?)
  }

  /** One pass of the menu over the store `records`. */
  function Step(records: seq<Expense>, turn: Turn): (p: Pass)
    ensures p.status == Exited <==> turn.choice == "5"
    ensures p.status == InputEnded <==> turn.choice == "1" && ScanAmount(turn.amountLines).amount.None?
    ensures p.status == Running <==> !EndsLoop(turn)
    ensures p.records != records ==> turn.choice == "1" && p.status == Running
    ensures records <= p.records && |p.records| <= |records| + 1
    ensures AllPositive(records) ==> AllPositive(p.records)
  {
    if turn.choice == "1" then
      ScanAmountMeaning(turn.amountLines);
      var added := AddOutcome(records, turn.amountLines, turn.category, turn.description);
      Pass(added.0, Shown(added.1), if added.1.AmountNotGiven? then InputEnded else Running)
    else if turn.choice == "2" then Pass(records, Shown(Listing(records)), Running)
    else if turn.choice == "3" then Pass(records, Shown(TotalReport(records)), Running)
    else if turn.choice == "4" then Pass(records, Shown(CategoryReport(records)), Running)
    else if turn.choice == "5" then Pass(records, Goodbye, Exited)
    else Pass(records, InvalidOption, Running)
  }

  /** The store, the screens shown, the final status and the number of passes of a whole session. */
  datatype Outcome = Outcome(records: seq<Expense>, screens: seq<Screen>, status: Status, passes: nat)

  /**
   * A session: passes run one after another until one ends the loop, or
   * until no input is left at the menu prompt.
   */
  function Session(records: seq<Expense>, turns: seq<Turn>): (r: Outcome)
    ensures r.status != Running
    ensures r.passes <= |turns| && |r.screens| == r.passes
    decreases |turns|
  {
    if turns == [] then Outcome(records, [], InputEnded, 0)
    else
      var p := Step(records, turns[0]);
      if p.status != Running then Outcome(p.records, [p.screen], p.status, 1)
      else
        var rest := Session(p.records, turns[1..]);
        Outcome(rest.records, [p.screen] + rest.screens, rest.status, rest.passes + 1)
  }

  /** How many turns of `turns` add a record. */
  function NumberAdded(turns: seq<Turn>): (n: nat) {
    if turns == [] then 0
    else (if turns[0].choice == "1" && ScanAmount(turns[0].amountLines).amount.Some? then 1 else 0)
         + NumberAdded(turns[1..])
  }

  /**
   * Over a whole session the store only grows by appending, keeps every
   * amount above zero, and gains one record per successful add.
   */
  lemma {:induction false} SessionOnlyAppends(records: seq<Expense>, turns: seq<Turn>)
    ensures var r := Session(records, turns);
            && records <= r.records
            && (AllPositive(records) ==> AllPositive(r.records))
            && |r.records| == |records| + NumberAdded(turns[..r.passes])
    decreases |turns|
  {
    if turns != [] {
      var p := Step(records, turns[0]);
      var r := Session(records, turns);
      assert turns[..1] == [turns[0]];
      assert [turns[0]][1..] == [];
      if p.status == Running {
        SessionOnlyAppends(p.records, turns[1..]);
        var rest := Session(p.records, turns[1..]);
        assert turns[..r.passes][1..] == turns[1..][..rest.passes];
      }
    }
  }

  /**
   * A session stops at the first pass that ends the loop, and it ends with
   * Exited exactly when that pass was choice "5".
   */
  lemma {:induction false} SessionStopsAtFirstEnd(records: seq<Expense>, turns: seq<Turn>)
    ensures var r := Session(records, turns);
            && (forall j :: 0 <= j < r.passes - 1 ==> !EndsLoop(turns[j]))
            && (r.passes == |turns| || EndsLoop(turns[r.passes - 1]))
            && (r.status == Exited <==> 1 <= r.passes && turns[r.passes - 1].choice == "5")
    decreases |turns|
  {
    if turns != [] {
      var p := Step(records, turns[0]);
      if p.status == Running {
        SessionStopsAtFirstEnd(p.records, turns[1..]);
      }
    }
  }

  /** One pass of the loop, on the store held by `ledger`. */
  method Dispatch(ledger: Ledger, turn: Turn) returns (screen: Screen, status: Status)
    requires ledger.Valid()
    modifies ledger
    ensures ledger.Valid()
    ensures Pass(ledger.records, screen, status) == Step(old(ledger.records), turn)
  {
    status := Running;
    if turn.choice == "1" {
      var report := ledger.AddExpense(turn.amountLines, turn.category, turn.description);
      screen := Shown(report);
      if report.AmountNotGiven? {
        status := InputEnded;
      }
    } else if turn.choice == "2" {
      var report := ledger.ViewAll();
      screen := Shown(report);
    } else if turn.choice == "3" {
      var report := ledger.ViewTotal();
      screen := Shown(report);
    } else if turn.choice == "4" {
      var report := ledger.ViewTotalByCategory();
      screen := Shown(report);
    } else if turn.choice == "5" {
      screen, status := Goodbye, Exited;
    } else {
      screen := InvalidOption;
    }
  }

  /** The loop of main: passes run until one ends it or the input runs out. */
  method RunMenu(ledger: Ledger, turns: seq<Turn>) returns (screens: seq<Screen>, status: Status, passes: nat)
    requires ledger.Valid()
    modifies ledger
    ensures ledger.Valid()
    ensures Outcome(ledger.records, screens, status, passes) == Session(old(ledger.records), turns)
  {
    ghost var start := ledger.records;
    screens, passes := [], 0;
    while passes < |turns|
      invariant passes <= |turns|
      invariant ledger.Valid()
      invariant var rest := Session(ledger.records, turns[passes..]);
                Session(start, turns) ==
                  Outcome(rest.records, screens + rest.screens, rest.status, passes + rest.passes)
    {
      ghost var here := turns[passes..];
      assert here[0] == turns[passes] && here[1..] == turns[passes + 1..];
      var screen, st := Dispatch(ledger, turns[passes]);
      if st != Running {
        return screens + [screen], st, passes + 1;
      }
      ghost var next := Session(ledger.records, turns[passes + 1..]);
      assert screens + ([screen] + next.screens) == (screens + [screen]) + next.screens;
      screens, passes := screens + [screen], passes + 1;
    }
    assert turns[passes..] == [];
    status := InputEnded;
  }
}
