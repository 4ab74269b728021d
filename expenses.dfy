/**
 * The expense records of the tracker and the aggregates it computes over
 * them: the grand total and the per-category totals, whose keys are kept
 * in the order in which each category is first seen.
 */
module Expenses {

  /** One entry of the store: what add_expense puts in the list. */
  datatype Expense = Expense(amount: real, category: string, description: string)

  /** The store invariant: every recorded amount is strictly positive. */
  predicate AllPositive(s: seq<Expense>) {
    forall i :: 0 <= i < |s| ==> s[i].amount > 0.0
  }

  /** The sum of the amounts of `s`, adding the records from first to last. */
  function SumAmounts(s: seq<Expense>): (total: real) {
    if s == [] then 0.0 else SumAmounts(s[..|s| - 1]) + s[|s| - 1].amount
  }

  lemma {:induction false} SumAmountsAppend(a: seq<Expense>, b: seq<Expense>)
    ensures SumAmounts(a + b) == SumAmounts(a) + SumAmounts(b)
    decreases |b|
  {
    if b == [] {
      assert a + b == a;
    } else {
      var b' := b[..|b| - 1];
      assert (a + b)[..|a + b| - 1] == a + b';
      SumAmountsAppend(a, b');
    }
  }

  /** Taking a record out of a store takes its amount out of the total. */
  lemma SumAmountsSplit(b1: seq<Expense>, x: Expense, b2: seq<Expense>)
    ensures SumAmounts(b1 + [x] + b2) == SumAmounts(b1 + b2) + x.amount
  {
    SumAmountsAppend(b1 + [x], b2);
    SumAmountsAppend(b1, b2);
    SumAmountsSnoc(b1, x);
  }

  lemma MultisetRemove(b: seq<Expense>, k: nat)
    requires k < |b|
    ensures multiset(b[..k] + b[k + 1..]) == multiset(b) - multiset{b[k]}
  {
    var b1, b2 := b[..k], b[k + 1..];
    assert b == b1 + [b[k]] + b2;
  }

  lemma PermutationRemoveLast(a: seq<Expense>, b: seq<Expense>, k: nat)
    requires multiset(a) == multiset(b) && a != [] && k < |b| && b[k] == a[|a| - 1]
    ensures multiset(a[..|a| - 1]) == multiset(b[..k] + b[k + 1..])
  {
    assert a == a[..|a| - 1] + [a[|a| - 1]];
    MultisetRemove(b, k);
  }

  /** The total does not depend on the order of the records. */
  lemma {:induction false} SumAmountsPermutation(a: seq<Expense>, b: seq<Expense>)
    requires multiset(a) == multiset(b)
    ensures SumAmounts(a) == SumAmounts(b)
    decreases |a|
  {
    if a != [] {
      var a', x := a[..|a| - 1], a[|a| - 1];
      assert x in multiset(b) by {
        assert x in a;
      }
      var k :| 0 <= k < |b| && b[k] == x;
      PermutationRemoveLast(a, b, k);
      SumAmountsPermutation(a', b[..k] + b[k + 1..]);
      assert SumAmounts(b) == SumAmounts(b[..k] + b[k + 1..]) + x.amount by {
        assert b == b[..k] + [x] + b[k + 1..];
        SumAmountsSplit(b[..k], x, b[k + 1..]);
      }
    }
  }

  /** A store that keeps the invariant has a total that is zero only when it is empty. */
  lemma {:induction false} SumAmountsPositive(s: seq<Expense>)
    requires AllPositive(s)
    ensures s != [] ==> SumAmounts(s) > 0.0
    ensures s == [] ==> SumAmounts(s) == 0.0
    decreases |s|
  {
    if s != [] {
      SumAmountsPositive(s[..|s| - 1]);
    }
  }

  /** The records of `s` whose category is exactly `c`, in store order. */
  function OfCategory(s: seq<Expense>, c: string): (group: seq<Expense>) {
    if s == [] then []
    else
      var rest := OfCategory(s[..|s| - 1], c);
      if s[|s| - 1].category == c then rest + [s[|s| - 1]] else rest
  }

  /**
   * The group of `c` matches categories exactly (no case folding, no
   * trimming): it holds each record of category `c` as often as it occurs
   * in `s`, and no other record.
   */
  lemma {:induction false} OfCategoryIsExactGroup(s: seq<Expense>, c: string)
    ensures forall e :: multiset(OfCategory(s, c))[e] == if e.category == c then multiset(s)[e] else 0
    decreases |s|
  {
    if s != [] {
      var init := s[..|s| - 1];
      assert s == init + [s[|s| - 1]];
      OfCategoryIsExactGroup(init, c);
    }
  }

  /**
   * The distinct categories of `s`, each listed where it first appears;
   * the keys of the source's category dictionary.
   */
  function CategoryKeys(s: seq<Expense>): (keys: seq<string>) {
    if s == [] then []
    else
      var keys := CategoryKeys(s[..|s| - 1]);
      var c := s[|s| - 1].category;
      if c in keys then keys else keys + [c]
  }

  /** No key is listed twice. */
  predicate NoDuplicates(keys: seq<string>) {
    forall i, j :: 0 <= i < j < |keys| ==> keys[i] != keys[j]
  }

  /** A string is a key exactly when some record has that category. */
  lemma {:induction false} CategoryKeysAreCategories(s: seq<Expense>)
    ensures forall c :: c in CategoryKeys(s) <==> exists i :: 0 <= i < |s| && s[i].category == c
    decreases |s|
  {
    if s != [] {
      var init := s[..|s| - 1];
      CategoryKeysAreCategories(init);
      assert forall i :: 0 <= i < |init| ==> init[i] == s[i];
    }
  }

  /** Each category is listed once: the keys are those of a dictionary. */
  lemma {:induction false} CategoryKeysAreDistinct(s: seq<Expense>)
    ensures NoDuplicates(CategoryKeys(s))
    decreases |s|
  {
    if s != [] {
      CategoryKeysAreDistinct(s[..|s| - 1]);
    }
  }

  /** The position in `s` of the first record of category `c`. */
  function FirstIndex(s: seq<Expense>, c: string): (p: nat)
    requires c in CategoryKeys(s)
    ensures p < |s| && s[p].category == c
    ensures forall q :: 0 <= q < p ==> s[q].category != c
  {
    var init := s[..|s| - 1];
    CategoryKeysAreCategories(s);
    CategoryKeysAreCategories(init);
    assert forall i :: 0 <= i < |init| ==> init[i] == s[i];
    if c in CategoryKeys(init) then FirstIndex(init, c) else |s| - 1
  }

  /**
   * What one pass of the source's grouping loop does to the totals built so
   * far: a category not seen before starts at zero, then the record's amount
   * is added to its category.
   */
  function Bumped(t: map<string, real>, e: Expense): (t': map<string, real>) {
    t[e.category := (if e.category in t then t[e.category] else 0.0) + e.amount]
  }

  /** The per-category totals, grouped record by record. */
  function CategoryTotals(s: seq<Expense>): (totals: map<string, real>) {
    if s == [] then map[] else Bumped(CategoryTotals(s[..|s| - 1]), s[|s| - 1])
  }

  /**
   * The sum of `totals` over `keys`, as summing the dictionary's values
   * (a key the dictionary lacks adds nothing).
   */
  function SumOfTotals(keys: seq<string>, totals: map<string, real>): (sum: real) {
    if keys == [] then 0.0
    else
      var k := keys[|keys| - 1];
      SumOfTotals(keys[..|keys| - 1], totals) + (if k in totals then totals[k] else 0.0)
  }

  lemma {:induction false} OfCategoryAbsent(s: seq<Expense>, c: string)
    requires c !in CategoryKeys(s)
    ensures OfCategory(s, c) == []
    decreases |s|
  {
    if s != [] {
      OfCategoryAbsent(s[..|s| - 1], c);
    }
  }

  lemma SumAmountsSnoc(s: seq<Expense>, e: Expense)
    ensures SumAmounts(s + [e]) == SumAmounts(s) + e.amount
  {
    assert (s + [e])[..|s|] == s;
  }

  lemma OfCategorySnoc(s: seq<Expense>, e: Expense, c: string)
    ensures OfCategory(s + [e], c) == if e.category == c then OfCategory(s, c) + [e] else OfCategory(s, c)
  {
    assert (s + [e])[..|s|] == s;
  }

  /**
   * The dictionary has a key exactly for each category of the store, and
   * each key's total is the sum of the amounts of exactly the records of
   * that category.
   */
  lemma {:induction false} CategoryTotalsAreCategorySums(s: seq<Expense>)
    ensures forall c :: c in CategoryTotals(s) <==> c in CategoryKeys(s)
    ensures forall c :: c in CategoryTotals(s) ==> CategoryTotals(s)[c] == SumAmounts(OfCategory(s, c))
    decreases |s|
  {
    if s != [] {
      var init, e := s[..|s| - 1], s[|s| - 1];
      assert s == init + [e];
      CategoryTotalsAreCategorySums(init);
      forall c
        ensures c in CategoryTotals(s) <==> c in CategoryKeys(s)
        ensures c in CategoryTotals(s) ==> CategoryTotals(s)[c] == SumAmounts(OfCategory(s, c))
      {
        CategoryTotalSnoc(init, e, c);
      }
    }
  }

  /** One more record keeps the key of `c` and its total in step with the group of `c`. */
  lemma CategoryTotalSnoc(s: seq<Expense>, e: Expense, c: string)
    requires c in CategoryTotals(s) <==> c in CategoryKeys(s)
    requires c in CategoryTotals(s) ==> CategoryTotals(s)[c] == SumAmounts(OfCategory(s, c))
    ensures c in CategoryTotals(s + [e]) <==> c in CategoryKeys(s + [e])
    ensures c in CategoryTotals(s + [e]) ==> CategoryTotals(s + [e])[c] == SumAmounts(OfCategory(s + [e], c))
  {
    StoreSnoc(s, e);
    OfCategorySnoc(s, e, c);
    if c == e.category {
      SumAmountsSnoc(OfCategory(s, c), e);
      if c !in CategoryKeys(s) {
        OfCategoryAbsent(s, c);
      }
    }
  }

  /** One pass of the grouping loop, over the record at position `i`. */
  lemma GroupingStep(s: seq<Expense>, i: nat)
    requires i < |s|
    ensures s[i].category in CategoryTotals(s[..i]) <==> s[i].category in CategoryKeys(s[..i])
    ensures CategoryKeys(s[..i + 1])
         == if s[i].category in CategoryKeys(s[..i]) then CategoryKeys(s[..i]) else CategoryKeys(s[..i]) + [s[i].category]
    ensures CategoryTotals(s[..i + 1]) == Bumped(CategoryTotals(s[..i]), s[i])
  {
    assert s[..i + 1][..i] == s[..i];
    CategoryTotalsAreCategorySums(s[..i]);
  }

  /**
   * Summed over all keys, the per-category totals give the grand total:
   * the categories partition the store.
   */
  lemma {:induction false} CategoryTotalsSumToTotal(s: seq<Expense>)
    ensures SumOfTotals(CategoryKeys(s), CategoryTotals(s)) == SumAmounts(s)
    decreases |s|
  {
    if s != [] {
      var init, e := s[..|s| - 1], s[|s| - 1];
      assert s == init + [e];
      CategoryTotalsSumToTotal(init);
      if e.category in CategoryKeys(init) {
        PartitionSeenCategory(init, e);
      } else {
        PartitionNewCategory(init, e);
      }
    }
  }

  lemma StoreSnoc(s: seq<Expense>, e: Expense)
    ensures CategoryKeys(s + [e])
         == if e.category in CategoryKeys(s) then CategoryKeys(s) else CategoryKeys(s) + [e.category]
    ensures CategoryTotals(s + [e]) == Bumped(CategoryTotals(s), e)
  {
    assert (s + [e])[..|s|] == s;
  }

  /** The partition is kept by a record whose category is already a key. */
  lemma PartitionSeenCategory(s: seq<Expense>, e: Expense)
    requires e.category in CategoryKeys(s)
    requires SumOfTotals(CategoryKeys(s), CategoryTotals(s)) == SumAmounts(s)
    ensures SumOfTotals(CategoryKeys(s + [e]), CategoryTotals(s + [e])) == SumAmounts(s + [e])
  {
    var k0, t0, t1 := CategoryKeys(s), CategoryTotals(s), CategoryTotals(s + [e]);
    assert CategoryKeys(s + [e]) == k0 && t1 == Bumped(t0, e) && SumAmounts(s + [e]) == SumAmounts(s) + e.amount by {
      StoreSnoc(s, e);
      SumAmountsSnoc(s, e);
    }
    assert SumOfTotals(k0, t1) == SumOfTotals(k0, t0) + e.amount by {
      CategoryKeysAreDistinct(s);
      assert forall k :: k in k0 ==> k in t0 by {
        CategoryTotalsAreCategorySums(s);
      }
      SumOfTotalsBump(k0, t0, t1, e.category, e.amount);
    }
  }

  /** The partition is kept by a record of a category not seen before. */
  lemma PartitionNewCategory(s: seq<Expense>, e: Expense)
    requires e.category !in CategoryKeys(s)
    requires SumOfTotals(CategoryKeys(s), CategoryTotals(s)) == SumAmounts(s)
    ensures SumOfTotals(CategoryKeys(s + [e]), CategoryTotals(s + [e])) == SumAmounts(s + [e])
  {
    var k0, t0, t1 := CategoryKeys(s), CategoryTotals(s), CategoryTotals(s + [e]);
    var k1 := k0 + [e.category];
    assert CategoryKeys(s + [e]) == k1 && t1 == Bumped(t0, e) && SumAmounts(s + [e]) == SumAmounts(s) + e.amount by {
      StoreSnoc(s, e);
      SumAmountsSnoc(s, e);
    }
    assert e.category !in t0 && forall k :: k in k0 ==> k in t0 by {
      CategoryTotalsAreCategorySums(s);
    }
    assert SumOfTotals(k0, t1) == SumOfTotals(k0, t0) by {
      CategoryKeysAreDistinct(s);
      SumOfTotalsBump(k0, t0, t1, e.category, e.amount);
    }
    assert k1[..|k1| - 1] == k0;
  }

  /** Raising one key's value by `a` raises the sum over distinct keys by `a` when that key is there. */
  lemma {:induction false} SumOfTotalsBump(keys: seq<string>, t0: map<string, real>, t1: map<string, real>, c: string, a: real)
    requires NoDuplicates(keys)
    requires forall k :: k in keys ==> k in t0 && k in t1 && t1[k] == t0[k] + (if k == c then a else 0.0)
    ensures SumOfTotals(keys, t1) == SumOfTotals(keys, t0) + (if c in keys then a else 0.0)
    decreases |keys|
  {
    if keys != [] {
      var init := keys[..|keys| - 1];
      assert keys == init + [keys[|keys| - 1]];
      SumOfTotalsBump(init, t0, t1, c, a);
    }
  }

  /** The keys come out in the order in which their categories first appear in the store. */
  lemma {:induction false} CategoryKeysFirstSeenOrder(s: seq<Expense>)
    ensures forall i, j :: 0 <= i < j < |CategoryKeys(s)| ==>
              FirstIndex(s, CategoryKeys(s)[i]) < FirstIndex(s, CategoryKeys(s)[j])
    decreases |s|
  {
    if s != [] {
      var init := s[..|s| - 1];
      CategoryKeysFirstSeenOrder(init);
      var k0, k := CategoryKeys(init), CategoryKeys(s);
      forall i, j | 0 <= i < j < |k| ensures FirstIndex(s, k[i]) < FirstIndex(s, k[j]) {
        assert k[i] == k0[i];
        if j < |k0| {
          assert k[j] == k0[j];
        }
      }
    }
  }
}
