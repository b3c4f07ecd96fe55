/** The reports screen: revenue and expense series per timeframe with their
    totals, and the transaction log with its search, type filter and the
    income and expense sums under the filtered list. Every dataset is a
    constant; amounts are whole currency units. */
module Reports {
  import opened Seqs
  import opened Text

  /** One point of the revenue chart. */
  datatype ChartPoint = ChartPoint(date: string, revenue: int, expense: int)

  const ThisMonth: seq<ChartPoint> := [
    ChartPoint("Week 1", 15000, 4000),
    ChartPoint("Week 2", 18000, 4500),
    ChartPoint("Week 3", 12000, 3800),
    ChartPoint("Week 4", 20000, 5000)
  ]

  const ThisYear: seq<ChartPoint> := [
    ChartPoint("Jan", 45000, 12000),
    ChartPoint("Feb", 52000, 12500),
    ChartPoint("Mar", 48000, 11800),
    ChartPoint("Apr", 61000, 13000),
    ChartPoint("May", 55000, 12200),
    ChartPoint("Jun", 75000, 15000)
  ]

  const Today: seq<ChartPoint> := [
    ChartPoint("08 AM", 1200, 200),
    ChartPoint("12 PM", 4500, 800),
    ChartPoint("04 PM", 3200, 500),
    ChartPoint("08 PM", 5600, 1200)
  ]

  /** The series of each named timeframe. */
  const RevenueData: map<string, seq<ChartPoint>> :=
    map["This Month" := ThisMonth, "This Year" := ThisYear, "Today" := Today]

  /** `REVENUE_DATA[timeframe] || REVENUE_DATA['This Month']`. */
  function ChartData(timeframe: string): (d: seq<ChartPoint>)
    ensures timeframe in RevenueData ==> d == RevenueData[timeframe]
    ensures timeframe !in RevenueData ==> d == ThisMonth
    ensures d != []
  {
    if timeframe in RevenueData then RevenueData[timeframe] else RevenueData["This Month"]
  }

  function Revenue(p: ChartPoint): int { p.revenue }
  function Expense(p: ChartPoint): int { p.expense }
  function PointProfit(p: ChartPoint): int { p.revenue - p.expense }

  datatype Totals = Totals(revenue: int, expenses: int, profit: int)

  /** `totals`: revenue and expenses summed over the series, and their difference. */
  function TotalsOf(data: seq<ChartPoint>): (t: Totals)
    ensures t.revenue == Sum(data, Revenue) && t.expenses == Sum(data, Expense)
    ensures t.profit == t.revenue - t.expenses
    ensures t.profit == Sum(data, PointProfit)
  {
    ProfitIsSumOfMargins(data);
    var revenue := Sum(data, Revenue);
    var expenses := Sum(data, Expense);
    Totals(revenue, expenses, revenue - expenses)
  }

  /** The profit is also the sum of the per-point margins. */
  lemma {:induction false} ProfitIsSumOfMargins(data: seq<ChartPoint>)
    ensures Sum(data, Revenue) - Sum(data, Expense) == Sum(data, PointProfit)
    decreases |data|
  {
    if data != [] {
      ProfitIsSumOfMargins(data[1..]);
    }
  }

  /** Totals of two stretches of a series add up. */
  lemma TotalsAppend(a: seq<ChartPoint>, b: seq<ChartPoint>)
    ensures TotalsOf(a + b).revenue == TotalsOf(a).revenue + TotalsOf(b).revenue
    ensures TotalsOf(a + b).expenses == TotalsOf(a).expenses + TotalsOf(b).expenses
    ensures TotalsOf(a + b).profit == TotalsOf(a).profit + TotalsOf(b).profit
  {
    SumAppend(a, b, Revenue);
    SumAppend(a, b, Expense);
  }

  /** This month: 65000 in, 17300 out, 47700 profit. */
  lemma ThisMonthTotals()
    ensures TotalsOf(ChartData("This Month")) == Totals(65000, 17300, 47700)
  {
  }

  /** This year: 336000 in, 76500 out, 259500 profit. */
  lemma ThisYearTotals()
    ensures TotalsOf(ChartData("This Year")) == Totals(336000, 76500, 259500)
  {
  }

  /** Today: 14500 in, 2700 out, 11800 profit. */
  lemma TodayTotals()
    ensures TotalsOf(ChartData("Today")) == Totals(14500, 2700, 11800)
  {
  }

  /** A timeframe without its own series reports this month's figures. */
  lemma UnknownTimeframeTotals(timeframe: string)
    requires timeframe != "This Month" && timeframe != "This Year" && timeframe != "Today"
    ensures TotalsOf(ChartData(timeframe)) == Totals(65000, 17300, 47700)
  {
    ThisMonthTotals();
  }

  datatype TxnType = Income | Expenditure

  datatype Transaction = Transaction(id: string, client: string, amount: int, date: string, kind: TxnType, payMethod: string)

  const TransactionLogs: seq<Transaction> := [
    Transaction("TXN-9901", "উত্তরা কর্পোরেশন", 5000, "2024-06-21", Income, "bKash"),
    Transaction("TXN-9902", "মিরপুর টাওয়ার্স", 3200, "2024-06-20", Income, "Cash"),
    Transaction("TXN-9903", "অফিস বিদ্যুৎ বিল", 1500, "2024-06-19", Expenditure, "Bank"),
    Transaction("TXN-9904", "এবিসি গ্রুপ", 4500, "2024-06-18", Income, "Nagad"),
    Transaction("TXN-9905", "লাইনম্যান স্যালারি", 12000, "2024-06-15", Expenditure, "Cash"),
    Transaction("TXN-9906", "সাভার আইটি", 8000, "2024-06-14", Income, "Bank"),
    Transaction("TXN-9907", "ইন্টারনেট ব্যান্ডউইথ", 25000, "2024-06-10", Expenditure, "Bank")
  ]

  /** `txnTypeFilter`: `All`, `Income` or `Expense`. */
  datatype TxnFilter = AllTxns | OnlyKind(kind: TxnType)

  /** The party (case-insensitive) or the transaction id contains the query, and the type matches. */
  predicate TxnMatches(filter: TxnFilter, query: string, t: Transaction)
  {
    && (Contains(Lower(t.client), Lower(query)) || Contains(t.id, query))
    && (filter.AllTxns? || t.kind == filter.kind)
  }

  function TxnMatcher(filter: TxnFilter, query: string): Transaction -> bool
  {
    t => TxnMatches(filter, query, t)
  }

  /** `filteredTxns`: the matching transactions in log order; an unfiltered empty search keeps them all. */
  function FilteredTxns(txns: seq<Transaction>, filter: TxnFilter, query: string): (r: seq<Transaction>)
    ensures IsSubseq(r, txns)
    ensures forall t :: t in r <==> t in txns && TxnMatches(filter, query, t)
    ensures filter == AllTxns && query == "" ==> r == txns
  {
    assert query == "" ==> forall k :: 0 <= k < |txns| ==> Contains(txns[k].id, query);
    Filter(txns, TxnMatcher(filter, query))
  }

  function TxnAmount(t: Transaction): int { t.amount }

  function IsIncome(): Transaction -> bool
  {
    (t: Transaction) => t.kind == Income
  }

  function IsExpenditure(): Transaction -> bool
  {
    (t: Transaction) => t.kind == Expenditure
  }

  /** "Total filtered income": the Income amounts of a list. */
  function IncomeSum(txns: seq<Transaction>): (r: int)
    ensures (forall i :: 0 <= i < |txns| ==> txns[i].kind == Income) ==> r == Sum(txns, TxnAmount)
    ensures (forall i :: 0 <= i < |txns| ==> txns[i].kind != Income) ==> r == 0
  {
    Sum(Filter(txns, IsIncome()), TxnAmount)
  }

  /** "Total filtered expense": the Expense amounts of a list. */
  function ExpenseSum(txns: seq<Transaction>): (r: int)
    ensures (forall i :: 0 <= i < |txns| ==> txns[i].kind == Expenditure) ==> r == Sum(txns, TxnAmount)
    ensures (forall i :: 0 <= i < |txns| ==> txns[i].kind != Expenditure) ==> r == 0
  {
    Sum(Filter(txns, IsExpenditure()), TxnAmount)
  }

  /** Every transaction is income or expense, so the two sums make up the whole. */
  lemma IncomeExpenseSplit(txns: seq<Transaction>)
    ensures IncomeSum(txns) + ExpenseSum(txns) == Sum(txns, TxnAmount)
  {
    SumSplit(txns, IsIncome(), IsExpenditure(), TxnAmount);
  }

  /** Under the Income filter the expense sum is 0 and the income sum is the whole list's. */
  lemma IncomeFilterNoExpense(txns: seq<Transaction>, query: string)
    ensures ExpenseSum(FilteredTxns(txns, OnlyKind(Income), query)) == 0
    ensures IncomeSum(FilteredTxns(txns, OnlyKind(Income), query)) == Sum(FilteredTxns(txns, OnlyKind(Income), query), TxnAmount)
  {
    var r := FilteredTxns(txns, OnlyKind(Income), query);
    assert forall i :: 0 <= i < |r| ==> r[i] in r;
  }

  /** Under the Expense filter the income sum is 0. */
  lemma ExpenseFilterNoIncome(txns: seq<Transaction>, query: string)
    ensures IncomeSum(FilteredTxns(txns, OnlyKind(Expenditure), query)) == 0
    ensures ExpenseSum(FilteredTxns(txns, OnlyKind(Expenditure), query)) == Sum(FilteredTxns(txns, OnlyKind(Expenditure), query), TxnAmount)
  {
    var r := FilteredTxns(txns, OnlyKind(Expenditure), query);
    assert forall i :: 0 <= i < |r| ==> r[i] in r;
  }

  /** One step of the income sum: the head counts when it is income. */
  lemma IncomeSumCons(x: Transaction, s: seq<Transaction>)
    ensures IncomeSum([x] + s) == (if x.kind == Income then x.amount else 0) + IncomeSum(s)
  {
    FilterCons(x, s, IsIncome());
    if x.kind == Income {
      assert ([x] + Filter(s, IsIncome()))[1..] == Filter(s, IsIncome());
    }
  }

  /** One step of the expense sum: the head counts when it is an expense. */
  lemma ExpenseSumCons(x: Transaction, s: seq<Transaction>)
    ensures ExpenseSum([x] + s) == (if x.kind == Expenditure then x.amount else 0) + ExpenseSum(s)
  {
    FilterCons(x, s, IsExpenditure());
    if x.kind == Expenditure {
      assert ([x] + Filter(s, IsExpenditure()))[1..] == Filter(s, IsExpenditure());
    }
  }

  /** The income of the whole log: 5000 + 3200 + 4500 + 8000. */
  lemma LogIncome()
    ensures IncomeSum(TransactionLogs) == 20700
  {
    var t := TransactionLogs;
    var s6 := [t[6]];
    var s5 := [t[5]] + s6;
    var s4 := [t[4]] + s5;
    var s3 := [t[3]] + s4;
    var s2 := [t[2]] + s3;
    var s1 := [t[1]] + s2;
    assert t == [t[0]] + s1;
    assert s6 == [t[6]] + [];
    IncomeSumCons(t[6], []);
    IncomeSumCons(t[5], s6);
    IncomeSumCons(t[4], s5);
    IncomeSumCons(t[3], s4);
    IncomeSumCons(t[2], s3);
    IncomeSumCons(t[1], s2);
    IncomeSumCons(t[0], s1);
  }

  /** The expense of the whole log: 1500 + 12000 + 25000. */
  lemma LogExpense()
    ensures ExpenseSum(TransactionLogs) == 38500
  {
    var t := TransactionLogs;
    var s6 := [t[6]];
    var s5 := [t[5]] + s6;
    var s4 := [t[4]] + s5;
    var s3 := [t[3]] + s4;
    var s2 := [t[2]] + s3;
    var s1 := [t[1]] + s2;
    assert t == [t[0]] + s1;
    assert s6 == [t[6]] + [];
    ExpenseSumCons(t[6], []);
    ExpenseSumCons(t[5], s6);
    ExpenseSumCons(t[4], s5);
    ExpenseSumCons(t[3], s4);
    ExpenseSumCons(t[2], s3);
    ExpenseSumCons(t[1], s2);
    ExpenseSumCons(t[0], s1);
  }

  /** With no search and no filter, the log shows 20700 of income and 38500 of expense. */
  lemma FullLogSums()
    ensures IncomeSum(FilteredTxns(TransactionLogs, AllTxns, "")) == 20700
    ensures ExpenseSum(FilteredTxns(TransactionLogs, AllTxns, "")) == 38500
  {
    LogIncome();
    LogExpense();
  }
}
