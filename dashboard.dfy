/**
 * The dashboard's aggregates: the four totals computed by one pass over the
 * list, the expense-and-tax breakdown by category, and the three-bar series.
 */
module Dashboard {
  import opened Types

  // ---------------------------------------------------------------------
  // Specification: sums over a list, defined on its last element so that
  // they follow a left-to-right pass.
  // ---------------------------------------------------------------------

  /** The amount a record contributes to the bucket of tag `k`. */
  function Share(t: Transaction, k: TransactionType): real
  {
    if t.txType == k then t.amount else 0.0
  }

  /** Sum of the amounts of the records tagged `k`. */
  function TypeTotal(ts: seq<Transaction>, k: TransactionType): real
  {
    if ts == [] then 0.0 else TypeTotal(ts[..|ts| - 1], k) + Share(ts[|ts| - 1], k)
  }

  /** Sum of all amounts, whatever the tag. */
  function AmountTotal(ts: seq<Transaction>): real
  {
    if ts == [] then 0.0 else AmountTotal(ts[..|ts| - 1]) + ts[|ts| - 1].amount
  }

  /** How a record moves the balance: up by its amount for income, down otherwise. */
  function Signed(t: Transaction): real
  {
    if t.txType == INCOME then t.amount else -t.amount
  }

  /** The running balance after the whole list. */
  function Balance(ts: seq<Transaction>): real
  {
    if ts == [] then 0.0 else Balance(ts[..|ts| - 1]) + Signed(ts[|ts| - 1])
  }

  lemma LastOfAppend(ts: seq<Transaction>, t: Transaction)
    ensures (ts + [t])[..|ts + [t]| - 1] == ts && (ts + [t])[|ts + [t]| - 1] == t
  {
  }

  /** Folding one more record adds its amount to exactly the bucket of its tag. */
  lemma TypeTotalSnoc(ts: seq<Transaction>, t: Transaction, k: TransactionType)
    ensures TypeTotal(ts + [t], k) == TypeTotal(ts, k) + (if t.txType == k then t.amount else 0.0)
  {
    LastOfAppend(ts, t);
  }

  /** Folding one more record moves the balance by +amount for income and -amount otherwise. */
  lemma BalanceSnoc(ts: seq<Transaction>, t: Transaction)
    ensures Balance(ts + [t]) == Balance(ts) + (if t.txType == INCOME then t.amount else -t.amount)
  {
    LastOfAppend(ts, t);
  }

  /** The balance identity: balance = income - expense - tax, for every list. */
  lemma {:induction false} BalanceIdentity(ts: seq<Transaction>)
    ensures Balance(ts) == TypeTotal(ts, INCOME) - TypeTotal(ts, EXPENSE) - TypeTotal(ts, TAX)
  {
    if ts != [] {
      BalanceIdentity(ts[..|ts| - 1]);
    }
  }

  /** Every record lands in exactly one bucket: the buckets together hold every amount once. */
  lemma {:induction false} BucketsPartition(ts: seq<Transaction>)
    ensures TypeTotal(ts, INCOME) + TypeTotal(ts, EXPENSE) + TypeTotal(ts, TAX) == AmountTotal(ts)
  {
    if ts != [] {
      BucketsPartition(ts[..|ts| - 1]);
    }
  }

  /** Totals of a concatenation add up; this is what a batch import does to the dashboard. */
  lemma {:induction false} TypeTotalAppend(a: seq<Transaction>, b: seq<Transaction>, k: TransactionType)
    ensures TypeTotal(a + b, k) == TypeTotal(a, k) + TypeTotal(b, k)
  {
    if b == [] {
      assert a + b == a;
    } else {
      var b' := b[..|b| - 1];
      assert a + b == (a + b') + [b[|b| - 1]];
      LastOfAppend(a + b', b[|b| - 1]);
      LastOfAppend(b', b[|b| - 1]);
      TypeTotalAppend(a, b', k);
    }
  }

  /** The four figures the dashboard shows for a list. */
  function Totals(ts: seq<Transaction>): DashboardStats
  {
    DashboardStats(TypeTotal(ts, INCOME), TypeTotal(ts, EXPENSE), TypeTotal(ts, TAX), Balance(ts))
  }

  // ---------------------------------------------------------------------
  // The `stats` reduce: one pass, mutating the four accumulator fields.
  // ---------------------------------------------------------------------

  /**
   * Each bucket is the sum of the amounts of its tag, the balance is the
   * running signed sum, and balance = income - expense - tax. On the empty
   * list all four are zero.
   */
  method ComputeStats(ts: seq<Transaction>) returns (s: DashboardStats)
    ensures s.totalIncome == TypeTotal(ts, INCOME)
    ensures s.totalExpense == TypeTotal(ts, EXPENSE)
    ensures s.totalTax == TypeTotal(ts, TAX)
    ensures s.balance == Balance(ts)
    ensures s.balance == s.totalIncome - s.totalExpense - s.totalTax
    ensures ts == [] ==> s == DashboardStats(0.0, 0.0, 0.0, 0.0)
  {
    var income, expense, tax, balance := 0.0, 0.0, 0.0, 0.0;
    var i := 0;
    while i < |ts|
      invariant 0 <= i <= |ts|
      invariant income == TypeTotal(ts[..i], INCOME)
      invariant expense == TypeTotal(ts[..i], EXPENSE)
      invariant tax == TypeTotal(ts[..i], TAX)
      invariant balance == Balance(ts[..i])
      invariant balance == income - expense - tax
    {
      var curr := ts[i];
      LastOfAppend(ts[..i], curr);
      assert ts[..i + 1] == ts[..i] + [curr];
      if curr.txType == INCOME {
        income := income + curr.amount;
        balance := balance + curr.amount;
      } else if curr.txType == EXPENSE {
        expense := expense + curr.amount;
        balance := balance - curr.amount;
      } else {
        tax := tax + curr.amount;
        balance := balance - curr.amount;
      }
      i := i + 1;
    }
    assert ts[..i] == ts;
    s := DashboardStats(income, expense, tax, balance);
  }

  // ---------------------------------------------------------------------
  // The category breakdown (`pieData`).
  // ---------------------------------------------------------------------

  /** Only expense and tax records feed the breakdown. */
  predicate Spent(t: Transaction)
  {
    t.txType == EXPENSE || t.txType == TAX
  }

  /** Sum of the amounts of expense/tax records whose category is exactly `c`. */
  function CategoryTotal(ts: seq<Transaction>, c: string): real
  {
    if ts == [] then 0.0
    else CategoryTotal(ts[..|ts| - 1], c) + (if Spent(ts[|ts| - 1]) && ts[|ts| - 1].category == c then ts[|ts| - 1].amount else 0.0)
  }

  /** The categories of the expense/tax records. */
  function SpentCategories(ts: seq<Transaction>): set<string>
  {
    set i | 0 <= i < |ts| && Spent(ts[i]) :: ts[i].category
  }

  /** One chart slice: a category name and its total. */
  datatype Slice = Slice(name: string, value: real)

  predicate DistinctNames(entries: seq<Slice>)
  {
    forall i, j :: 0 <= i < j < |entries| ==> entries[i].name != entries[j].name
  }

  function Names(entries: seq<Slice>): set<string>
  {
    set i | 0 <= i < |entries| :: entries[i].name
  }

  /**
   * What the breakdown promises, in any entry order: one entry per category
   * of an expense/tax record, no name twice, each carrying that category's total.
   */
  predicate IsBreakdown(ts: seq<Transaction>, entries: seq<Slice>)
  {
    && DistinctNames(entries)
    && Names(entries) == SpentCategories(ts)
    && forall i :: 0 <= i < |entries| ==> entries[i].value == CategoryTotal(ts, entries[i].name)
  }

  /**
   * Fills a category dictionary with one pass over the expense/tax records,
   * then lists its entries. The entry order is whatever the dictionary yields.
   */
  method PieData(ts: seq<Transaction>) returns (entries: seq<Slice>)
    ensures IsBreakdown(ts, entries)
  {
    var categories: map<string, real> := map[];
    var i := 0;
    while i < |ts|
      invariant 0 <= i <= |ts|
      invariant categories.Keys == SpentCategories(ts[..i])
      invariant forall c :: c in categories ==> categories[c] == CategoryTotal(ts[..i], c)
    {
      var t := ts[i];
      assert ts[..i + 1] == ts[..i] + [t];
      LastOfAppend(ts[..i], t);
      assert forall c :: CategoryTotal(ts[..i + 1], c) == CategoryTotal(ts[..i], c) + (if Spent(t) && t.category == c then t.amount else 0.0);
      assert forall c :: c !in SpentCategories(ts[..i]) ==> CategoryTotal(ts[..i], c) == 0.0 by {
        forall c | c !in SpentCategories(ts[..i]) ensures CategoryTotal(ts[..i], c) == 0.0 {
          AbsentCategoryTotal(ts[..i], c);
        }
      }
      if Spent(t) {
        var before := if t.category in categories then categories[t.category] else 0.0;
        categories := categories[t.category := before + t.amount];
      }
      assert SpentCategories(ts[..i + 1]) == SpentCategories(ts[..i]) + (if Spent(t) then {t.category} else {});
      i := i + 1;
    }
    assert ts[..i] == ts;
    entries := [];
    var rest := categories.Keys;
    while rest != {}
      invariant rest <= categories.Keys
      invariant Names(entries) == categories.Keys - rest
      invariant DistinctNames(entries)
      invariant forall j :: 0 <= j < |entries| ==> entries[j].name in categories && entries[j].value == categories[entries[j].name]
      decreases rest
    {
      var name :| name in rest;
      var entries' := entries + [Slice(name, categories[name])];
      assert Names(entries') == Names(entries) + {name} by {
        assert forall j :: 0 <= j < |entries| ==> entries'[j] == entries[j];
        assert entries'[|entries|].name == name;
      }
      entries := entries';
      rest := rest - {name};
    }
  }

  /** A category no expense/tax record carries totals zero. */
  lemma {:induction false} AbsentCategoryTotal(ts: seq<Transaction>, c: string)
    requires c !in SpentCategories(ts)
    ensures CategoryTotal(ts, c) == 0.0
  {
    if ts != [] {
      var init := ts[..|ts| - 1];
      assert SpentCategories(init) <= SpentCategories(ts) by {
        forall x | x in SpentCategories(init) ensures x in SpentCategories(ts) {
          var j :| 0 <= j < |init| && Spent(init[j]) && init[j].category == x;
          assert ts[j] == init[j];
        }
      }
      AbsentCategoryTotal(init, c);
      assert !(Spent(ts[|ts| - 1]) && ts[|ts| - 1].category == c);
    }
  }

  lemma NamesNonEmpty(entries: seq<Slice>)
    ensures entries != [] ==> Names(entries) != {}
  {
    if entries != [] {
      assert entries[0].name in Names(entries);
    }
  }

  /** Income records never reach the breakdown: a list of only income yields no entries. */
  lemma IncomeOnlyBreakdown(ts: seq<Transaction>, entries: seq<Slice>)
    requires forall i :: 0 <= i < |ts| ==> ts[i].txType == INCOME
    requires IsBreakdown(ts, entries)
    ensures entries == []
  {
    assert SpentCategories(ts) == {};
    NamesNonEmpty(entries);
  }

  /** Sum of the values of a list of slices. */
  function SliceTotal(entries: seq<Slice>): real
  {
    if entries == [] then 0.0 else SliceTotal(entries[..|entries| - 1]) + entries[|entries| - 1].value
  }

  /** Sum over a list of names of each name's category total. */
  function TotalOverNames(ts: seq<Transaction>, names: seq<string>): real
  {
    if names == [] then 0.0 else TotalOverNames(ts, names[..|names| - 1]) + CategoryTotal(ts, names[|names| - 1])
  }

  /** The breakdown values sum to expense + tax. */
  lemma BreakdownTotal(ts: seq<Transaction>, entries: seq<Slice>)
    requires IsBreakdown(ts, entries)
    ensures SliceTotal(entries) == TypeTotal(ts, EXPENSE) + TypeTotal(ts, TAX)
  {
    var names := seq(|entries|, i requires 0 <= i < |entries| => entries[i].name);
    SliceTotalIsTotalOverNames(ts, entries, names);
    assert forall i, j :: 0 <= i < j < |names| ==> names[i] != names[j];
    forall c | c in SpentCategories(ts) ensures c in names {
      assert c in Names(entries);
      var i :| 0 <= i < |entries| && entries[i].name == c;
      assert names[i] == c;
    }
    TotalOverDistinctNames(ts, names);
  }

  lemma {:induction false} SliceTotalIsTotalOverNames(ts: seq<Transaction>, entries: seq<Slice>, names: seq<string>)
    requires |names| == |entries|
    requires forall i :: 0 <= i < |entries| ==> names[i] == entries[i].name
    requires forall i :: 0 <= i < |entries| ==> entries[i].value == CategoryTotal(ts, entries[i].name)
    ensures SliceTotal(entries) == TotalOverNames(ts, names)
  {
    if entries != [] {
      SliceTotalIsTotalOverNames(ts, entries[..|entries| - 1], names[..|names| - 1]);
    }
  }

  /** The amount a single record adds, through a list of names, to the name-indexed totals. */
  function Hits(t: Transaction, names: seq<string>): real
  {
    if names == [] then 0.0
    else Hits(t, names[..|names| - 1]) + (if Spent(t) && t.category == names[|names| - 1] then t.amount else 0.0)
  }

  /** Summing category totals over names is the same as summing, record by record, the hits. */
  lemma {:induction false} TotalOverNamesSnoc(ts: seq<Transaction>, t: Transaction, names: seq<string>)
    ensures TotalOverNames(ts + [t], names) == TotalOverNames(ts, names) + Hits(t, names)
  {
    if names != [] {
      TotalOverNamesSnoc(ts, t, names[..|names| - 1]);
      LastOfAppend(ts, t);
    }
  }

  /** A spent record hits a duplicate-free name list once if its category is listed, else never. */
  lemma {:induction false} HitsOnce(t: Transaction, names: seq<string>)
    requires forall i, j :: 0 <= i < j < |names| ==> names[i] != names[j]
    ensures Hits(t, names) == if Spent(t) && t.category in names then t.amount else 0.0
  {
    if names != [] {
      var init := names[..|names| - 1];
      HitsOnce(t, init);
      assert t.category in names <==> t.category in init || t.category == names[|names| - 1];
      assert forall i :: 0 <= i < |init| ==> init[i] == names[i] != names[|names| - 1];
    }
  }

  lemma {:induction false} TotalOverDistinctNames(ts: seq<Transaction>, names: seq<string>)
    requires forall i, j :: 0 <= i < j < |names| ==> names[i] != names[j]
    requires forall c :: c in SpentCategories(ts) ==> c in names
    ensures TotalOverNames(ts, names) == TypeTotal(ts, EXPENSE) + TypeTotal(ts, TAX)
  {
    if ts == [] {
      TotalOverNamesOfEmpty(names);
    } else {
      var init, t := ts[..|ts| - 1], ts[|ts| - 1];
      assert ts == init + [t];
      forall c | c in SpentCategories(init) ensures c in names {
        var j :| 0 <= j < |init| && Spent(init[j]) && init[j].category == c;
        assert ts[j] == init[j];
      }
      TotalOverDistinctNames(init, names);
      TotalOverNamesSnoc(init, t, names);
      HitsOnce(t, names);
      if Spent(t) {
        assert t.category in SpentCategories(ts) by { assert ts[|ts| - 1] == t; }
      }
    }
  }

  lemma {:induction false} TotalOverNamesOfEmpty(names: seq<string>)
    ensures TotalOverNames([], names) == 0.0
  {
    if names != [] {
      TotalOverNamesOfEmpty(names[..|names| - 1]);
    }
  }

  // ---------------------------------------------------------------------
  // The bar series.
  // ---------------------------------------------------------------------

  datatype Bar = Bar(name: string, amount: real)

  /** Exactly three bars, in the order income, expense, tax. */
  function BarData(s: DashboardStats): (r: seq<Bar>)
    ensures |r| == 3
    ensures r[0].amount == s.totalIncome && r[1].amount == s.totalExpense && r[2].amount == s.totalTax
    ensures s.balance == s.totalIncome - s.totalExpense - s.totalTax ==> r[0].amount - r[1].amount - r[2].amount == s.balance
  {
    [Bar("Receitas", s.totalIncome), Bar("Despesas", s.totalExpense), Bar("Impostos", s.totalTax)]
  }

  /**
   * The bars drawn for a list carry its income, expense and tax totals under
   * the names Receitas, Despesas and Impostos, and the first bar minus the
   * other two is the balance shown on the dashboard.
   */
  lemma BarDataOfList(ts: seq<Transaction>)
    ensures var bars := BarData(Totals(ts));
      && bars[0] == Bar("Receitas", TypeTotal(ts, INCOME))
      && bars[1] == Bar("Despesas", TypeTotal(ts, EXPENSE))
      && bars[2] == Bar("Impostos", TypeTotal(ts, TAX))
      && bars[0].amount - bars[1].amount - bars[2].amount == Totals(ts).balance
  {
    BalanceIdentity(ts);
  }
}
