/**
 The monthly fold shared by the dashboard (app/page.tsx) and the annual
 report (app/relatorios/page.tsx). Fetched sales (with their items and
 those items' cost prices) and expenses are turned into twelve buckets,
 January to December. Each bucket holds revenue, cost, expense, profit and
 gross margin, and the page totals are taken over the buckets. The two pages
 differ in one point only: the dashboard keeps the records of the selected
 year, while the report looks at the month alone. Money is in integer cents;
 margins are percentages as `real`.
 */
module Reporting {
  import opened Domain
  import opened Seqs

  /** The bucket labels, in the order the pages show them. */
  const MonthLabels: seq<string> := ["Jan", "Fev", "Mar", "Abr", "Mai", "Jun", "Jul", "Ago", "Set", "Out", "Nov", "Dez"]

  /** A sold item as the report query returns it; `costPrice` is the joined
      product's `preco_custo`, absent when the join found nothing. */
  datatype CostedItem = CostedItem(quantity: int, unitPrice: int, costPrice: Option<int>)

  /** A sale as the report query returns it: its total, its date and its
      items. */
  datatype DatedSale = DatedSale(id: string, total: int, date: Date, items: seq<CostedItem>)

  function SaleDate(sale: DatedSale): Date { sale.date }
  function SaleTotal(sale: DatedSale): int { sale.total }
  function ExpenseDate(expense: Expense): Date { expense.date }

  /** The cost of one sold item: quantity times cost price, with a missing
      cost price counted as 0. */
  function ItemCost(item: CostedItem): (c: int)
    ensures item.costPrice.None? ==> c == 0
    ensures item.costPrice.Some? ==> c == item.quantity * item.costPrice.value
  {
    item.quantity * (match item.costPrice case Some(price) => price case None => 0)
  }

  /** The cost of the goods of one sale: the sum of its items' costs, 0 for
      a sale without items. With no negative item cost it is at least every
      item's cost. */
  function SaleCost(sale: DatedSale): (c: int)
    ensures |sale.items| == 0 ==> c == 0
    ensures (forall k :: 0 <= k < |sale.items| ==> ItemCost(sale.items[k]) >= 0) ==>
              c >= 0 && forall k :: 0 <= k < |sale.items| ==> ItemCost(sale.items[k]) <= c
  {
    SumByBounds(sale.items, ItemCost);
    SumBy(sale.items, ItemCost)
  }

  /** The per-item loop adds up: one more item raises the sale's cost by
      exactly that item's cost, so an item without a cost price adds
      nothing. */
  lemma SaleCostAddItem(sale: DatedSale, item: CostedItem)
    ensures SaleCost(sale.(items := sale.items + [item])) == SaleCost(sale) + ItemCost(item)
    ensures item.costPrice.None? ==> SaleCost(sale.(items := sale.items + [item])) == SaleCost(sale)
  {
    SumByAppend(sale.items, [item], ItemCost);
    assert [item][1..] == [];
  }

  /** Which records a bucket takes. The dashboard takes only the selected
      year; the report takes every year. */
  datatype Scope = InYear(year: int) | AnyYear

  predicate InScope(d: Date, scope: Scope)
  {
    scope.InYear? ==> d.year == scope.year
  }

  /** The date falls in bucket `month` under `scope`. */
  predicate InBucket(d: Date, month: int, scope: Scope)
  {
    InScope(d, scope) && d.month == month
  }

  /** The sum of `f` over the records of bucket `month`: filter the records
      on their date, then add up. */
  function MonthSum<T(==,!new)>(xs: seq<T>, date: T -> Date, f: T -> int, month: int, scope: Scope): int
  {
    SumBy(Filter(xs, (x: T) => InBucket(date(x), month, scope)), f)
  }

  /** The sum of `f` over every record in scope, month ignored. */
  function ScopeSum<T(==,!new)>(xs: seq<T>, date: T -> Date, f: T -> int, scope: Scope): int
  {
    SumBy(Filter(xs, (x: T) => InScope(date(x), scope)), f)
  }

  /** One more record changes a bucket's sum by that record's value if it
      falls in the bucket, and leaves the sum unchanged otherwise. */
  lemma MonthSumAppend<T(!new)>(xs: seq<T>, x: T, date: T -> Date, f: T -> int, month: int, scope: Scope)
    ensures MonthSum(xs + [x], date, f, month, scope)
            == MonthSum(xs, date, f, month, scope) + (if InBucket(date(x), month, scope) then f(x) else 0)
  {
    var keep := (y: T) => InBucket(date(y), month, scope);
    SumByFilterAppend(xs, [x], keep, f);
    assert [x][1..] == [];
  }

  /** The bucket sums of months `month` to 12, added up. */
  function MonthsFrom<T(==,!new)>(xs: seq<T>, date: T -> Date, f: T -> int, month: int, scope: Scope): int
    decreases 13 - month
  {
    if month > 12 then 0 else MonthSum(xs, date, f, month, scope) + MonthsFrom(xs, date, f, month + 1, scope)
  }

  /** Splitting off the first record: it adds its value to the months from
      `month` on exactly when it is in scope and its month is one of them. */
  lemma {:induction false} MonthsFromCons<T(!new)>(x: T, rest: seq<T>, date: T -> Date, f: T -> int, month: int, scope: Scope)
    requires 1 <= month
    ensures MonthsFrom([x] + rest, date, f, month, scope)
            == (if InScope(date(x), scope) && date(x).month >= month then f(x) else 0)
               + MonthsFrom(rest, date, f, month, scope)
    decreases 13 - month
  {
    if month <= 12 {
      var keep := (y: T) => InBucket(date(y), month, scope);
      SumByFilterAppend([x], rest, keep, f);
      assert [x][1..] == [];
      MonthsFromCons(x, rest, date, f, month + 1, scope);
    }
  }

  /** The twelve buckets split the records in scope: adding up every
      month's sum counts each record in scope exactly once. */
  lemma {:induction false} MonthsPartitionScope<T(!new)>(xs: seq<T>, date: T -> Date, f: T -> int, scope: Scope)
    ensures MonthsFrom(xs, date, f, 1, scope) == ScopeSum(xs, date, f, scope)
    decreases |xs|
  {
    if |xs| == 0 {
      MonthsFromEmpty(date, f, 1, scope);
    } else {
      assert xs == [xs[0]] + xs[1..];
      MonthsFromCons(xs[0], xs[1..], date, f, 1, scope);
      MonthsPartitionScope(xs[1..], date, f, scope);
      SumByFilterAppend([xs[0]], xs[1..], (y: T) => InScope(date(y), scope), f);
      assert [xs[0]][1..] == [];
    }
  }

  /** With no records every month sums to 0. */
  lemma {:induction false} MonthsFromEmpty<T(!new)>(date: T -> Date, f: T -> int, month: int, scope: Scope)
    ensures MonthsFrom([], date, f, month, scope) == 0
    decreases 13 - month
  {
    if month <= 12 {
      MonthsFromEmpty(date, f, month + 1, scope);
    }
  }

  /** `(base / revenue) * 100` when revenue is positive, otherwise exactly 0. */
  function Margin(revenue: int, base: int): (m: real)
    ensures revenue > 0 ==> m * revenue as real == base as real * 100.0
    ensures revenue <= 0 ==> m == 0.0
  {
    if revenue > 0 then (base as real / revenue as real) * 100.0 else 0.0
  }

  /** A positive-revenue margin never exceeds 100 when the cost is not
      negative, and is negative exactly when the cost exceeds the revenue. */
  lemma MarginBounds(revenue: int, cost: int)
    requires revenue > 0
    ensures cost >= 0 ==> Margin(revenue, revenue - cost) <= 100.0
    ensures Margin(revenue, revenue - cost) < 0.0 <==> cost > revenue
  {
    var m := Margin(revenue, revenue - cost);
    assert m * revenue as real == (revenue - cost) as real * 100.0;
  }

  /** One month of the fold. */
  datatype Bucket = Bucket(monthName: string, revenue: int, cost: int, expense: int, profit: int, grossMargin: real)

  function BucketRevenue(b: Bucket): int { b.revenue }
  function BucketCost(b: Bucket): int { b.cost }
  function BucketExpense(b: Bucket): int { b.expense }
  function BucketProfit(b: Bucket): int { b.profit }

  /** The bucket of month `month`. */
  function MonthBucket(sales: seq<DatedSale>, expenses: seq<Expense>, month: MonthNumber, scope: Scope): (b: Bucket)
    ensures b.monthName == MonthLabels[month - 1]
    ensures b.revenue == MonthSum(sales, SaleDate, SaleTotal, month, scope)
    ensures b.cost == MonthSum(sales, SaleDate, SaleCost, month, scope)
    ensures b.expense == MonthSum(expenses, ExpenseDate, ExpenseAmount, month, scope)
    ensures b.profit == b.revenue - b.cost - b.expense
    ensures b.grossMargin == Margin(b.revenue, b.revenue - b.cost)
  {
    var revenue := MonthSum(sales, SaleDate, SaleTotal, month, scope);
    var cost := MonthSum(sales, SaleDate, SaleCost, month, scope);
    var expense := MonthSum(expenses, ExpenseDate, ExpenseAmount, month, scope);
    Bucket(MonthLabels[month - 1], revenue, cost, expense, revenue - cost - expense, Margin(revenue, revenue - cost))
  }

  /** The fold: twelve buckets in January-to-December order. Bucket `i`
      takes the sales and expenses dated in month `i + 1` (and in the
      selected year, under `InYear`). Its profit is revenue minus cost minus
      expense, and its margin is 0 unless the revenue is positive. */
  function MonthlyBuckets(sales: seq<DatedSale>, expenses: seq<Expense>, scope: Scope): (bs: seq<Bucket>)
    ensures |bs| == 12
    ensures forall i :: 0 <= i < 12 ==> bs[i].monthName == MonthLabels[i]
    ensures forall i :: 0 <= i < 12 ==>
              && bs[i].revenue == MonthSum(sales, SaleDate, SaleTotal, i + 1, scope)
              && bs[i].cost == MonthSum(sales, SaleDate, SaleCost, i + 1, scope)
              && bs[i].expense == MonthSum(expenses, ExpenseDate, ExpenseAmount, i + 1, scope)
    ensures forall i :: 0 <= i < 12 ==> bs[i].profit == bs[i].revenue - bs[i].cost - bs[i].expense
    ensures forall i :: 0 <= i < 12 ==> bs[i].grossMargin == Margin(bs[i].revenue, bs[i].revenue - bs[i].cost)
  {
    seq(12, i requires 0 <= i < 12 => MonthBucket(sales, expenses, i + 1, scope))
  }

  /** The dashboard's fold, for the selected year. */
  function DashboardBuckets(sales: seq<DatedSale>, expenses: seq<Expense>, year: int): seq<Bucket>
  {
    MonthlyBuckets(sales, expenses, InYear(year))
  }

  /** The annual report's fold, which looks at the month only. */
  function ReportBuckets(sales: seq<DatedSale>, expenses: seq<Expense>): seq<Bucket>
  {
    MonthlyBuckets(sales, expenses, AnyYear)
  }

  /** One more sale raises a bucket's revenue and cost by the sale's total
      and cost when its date falls in the bucket, and leaves the bucket as it
      was otherwise. */
  lemma BucketAddSale(sales: seq<DatedSale>, expenses: seq<Expense>, s: DatedSale, month: MonthNumber, scope: Scope)
    ensures var before := MonthBucket(sales, expenses, month, scope);
            var after := MonthBucket(sales + [s], expenses, month, scope);
            if InBucket(s.date, month, scope)
            then after.revenue == before.revenue + s.total && after.cost == before.cost + SaleCost(s)
                 && after.expense == before.expense
            else after == before
  {
    MonthSumAppend(sales, s, SaleDate, SaleTotal, month, scope);
    MonthSumAppend(sales, s, SaleDate, SaleCost, month, scope);
  }

  /** One more expense raises a bucket's expense by its amount when its date
      falls in the bucket, and leaves the bucket as it was otherwise. */
  lemma BucketAddExpense(sales: seq<DatedSale>, expenses: seq<Expense>, e: Expense, month: MonthNumber, scope: Scope)
    ensures var before := MonthBucket(sales, expenses, month, scope);
            var after := MonthBucket(sales, expenses + [e], month, scope);
            if InBucket(e.date, month, scope)
            then after.expense == before.expense + e.amount && after.revenue == before.revenue
                 && after.cost == before.cost
            else after == before
  {
    MonthSumAppend(expenses, e, ExpenseDate, ExpenseAmount, month, scope);
  }

  /** A sale reaches bucket `i` of the dashboard only when its year is the
      selected one and its month is `i + 1`; any other sale leaves every
      bucket as it was. */
  lemma DashboardSaleContribution(sales: seq<DatedSale>, expenses: seq<Expense>, year: int, s: DatedSale, i: int)
    requires 0 <= i < 12
    ensures var before := DashboardBuckets(sales, expenses, year)[i];
            var after := DashboardBuckets(sales + [s], expenses, year)[i];
            if s.date.year == year && s.date.month == i + 1
            then after.revenue == before.revenue + s.total && after.cost == before.cost + SaleCost(s)
            else after == before
  {
    assert DashboardBuckets(sales, expenses, year)[i] == MonthBucket(sales, expenses, i + 1, InYear(year));
    assert DashboardBuckets(sales + [s], expenses, year)[i] == MonthBucket(sales + [s], expenses, i + 1, InYear(year));
    BucketAddSale(sales, expenses, s, i + 1, InYear(year));
  }

  /** The same for an expense on the dashboard. */
  lemma DashboardExpenseContribution(sales: seq<DatedSale>, expenses: seq<Expense>, year: int, e: Expense, i: int)
    requires 0 <= i < 12
    ensures var before := DashboardBuckets(sales, expenses, year)[i];
            var after := DashboardBuckets(sales, expenses + [e], year)[i];
            if e.date.year == year && e.date.month == i + 1
            then after.expense == before.expense + e.amount
            else after == before
  {
    assert DashboardBuckets(sales, expenses, year)[i] == MonthBucket(sales, expenses, i + 1, InYear(year));
    assert DashboardBuckets(sales, expenses + [e], year)[i] == MonthBucket(sales, expenses + [e], i + 1, InYear(year));
    BucketAddExpense(sales, expenses, e, i + 1, InYear(year));
  }

  /** The report buckets by month alone: a sale lands in the bucket of its
      month, whatever its year. */
  lemma ReportSaleContribution(sales: seq<DatedSale>, expenses: seq<Expense>, s: DatedSale, i: int)
    requires 0 <= i < 12
    ensures var before := ReportBuckets(sales, expenses)[i];
            var after := ReportBuckets(sales + [s], expenses)[i];
            if s.date.month == i + 1
            then after.revenue == before.revenue + s.total && after.cost == before.cost + SaleCost(s)
            else after == before
  {
    assert ReportBuckets(sales, expenses)[i] == MonthBucket(sales, expenses, i + 1, AnyYear);
    assert ReportBuckets(sales + [s], expenses)[i] == MonthBucket(sales + [s], expenses, i + 1, AnyYear);
    BucketAddSale(sales, expenses, s, i + 1, AnyYear);
  }

  /** The page totals over the buckets. */
  datatype Summary = Summary(revenue: int, cost: int, expense: int, profit: int, grossMargin: real, netMargin: real)

  /** `totalVendas`, `totalCustos`, `totalDespesas`, `lucroTotal` and the two
      margins, taken over the buckets. */
  function Summarize(bs: seq<Bucket>): (s: Summary)
    ensures s.revenue == SumBy(bs, BucketRevenue) && s.cost == SumBy(bs, BucketCost)
            && s.expense == SumBy(bs, BucketExpense)
    ensures s.profit == s.revenue - s.cost - s.expense
    ensures s.revenue <= 0 ==> s.grossMargin == 0.0 && s.netMargin == 0.0
    ensures s.revenue > 0 ==> s.grossMargin * s.revenue as real == (s.revenue - s.cost) as real * 100.0
    ensures s.revenue > 0 ==> s.netMargin * s.revenue as real == s.profit as real * 100.0
  {
    var revenue := SumBy(bs, BucketRevenue);
    var cost := SumBy(bs, BucketCost);
    var expense := SumBy(bs, BucketExpense);
    var profit := revenue - cost - expense;
    Summary(revenue, cost, expense, profit, Margin(revenue, revenue - cost), Margin(revenue, profit))
  }

  /** The total profit is also the sum of the buckets' profits. */
  lemma {:induction false} ProfitTotalIsSumOfProfits(bs: seq<Bucket>)
    requires forall i :: 0 <= i < |bs| ==> bs[i].profit == bs[i].revenue - bs[i].cost - bs[i].expense
    ensures Summarize(bs).profit == SumBy(bs, BucketProfit)
    decreases |bs|
  {
    if |bs| > 0 {
      ProfitTotalIsSumOfProfits(bs[1..]);
    }
  }

  /** Adding up one column of the buckets is adding up the month sums. */
  lemma {:induction false} ColumnSum<T(!new)>(bs: seq<Bucket>, column: Bucket -> int, offset: int,
                                                  xs: seq<T>, date: T -> Date, f: T -> int, scope: Scope)
    requires 0 <= offset <= 12 && |bs| == 12 - offset
    requires forall i :: 0 <= i < |bs| ==> column(bs[i]) == MonthSum(xs, date, f, offset + i + 1, scope)
    ensures SumBy(bs, column) == MonthsFrom(xs, date, f, offset + 1, scope)
    decreases |bs|
  {
    if |bs| > 0 {
      ColumnSum(bs[1..], column, offset + 1, xs, date, f, scope);
    }
  }

  /** The totals over the twelve buckets count every sale and expense in
      scope exactly once. */
  lemma TotalsCountScope(sales: seq<DatedSale>, expenses: seq<Expense>, scope: Scope)
    ensures var s := Summarize(MonthlyBuckets(sales, expenses, scope));
            && s.revenue == ScopeSum(sales, SaleDate, SaleTotal, scope)
            && s.cost == ScopeSum(sales, SaleDate, SaleCost, scope)
            && s.expense == ScopeSum(expenses, ExpenseDate, ExpenseAmount, scope)
  {
    var bs := MonthlyBuckets(sales, expenses, scope);
    ColumnSum(bs, BucketRevenue, 0, sales, SaleDate, SaleTotal, scope);
    ColumnSum(bs, BucketCost, 0, sales, SaleDate, SaleCost, scope);
    ColumnSum(bs, BucketExpense, 0, expenses, ExpenseDate, ExpenseAmount, scope);
    MonthsPartitionScope(sales, SaleDate, SaleTotal, scope);
    MonthsPartitionScope(sales, SaleDate, SaleCost, scope);
    MonthsPartitionScope(expenses, ExpenseDate, ExpenseAmount, scope);
  }

  /** Without a year, every record is in scope. */
  lemma ScopeSumAnyYear<T(!new)>(xs: seq<T>, date: T -> Date, f: T -> int)
    ensures ScopeSum(xs, date, f, AnyYear) == SumBy(xs, f)
  {
    FilterKeepsAll(xs, (x: T) => InScope(date(x), AnyYear));
  }

  /** The records dated in `year`, in their original order. */
  function OfYear<T(==,!new)>(xs: seq<T>, date: T -> Date, year: int): seq<T>
  {
    Filter(xs, (x: T) => date(x).year == year)
  }

  /** With a year, the records in scope are those dated in that year. */
  lemma ScopeSumInYear<T(!new)>(xs: seq<T>, date: T -> Date, f: T -> int, year: int)
    ensures ScopeSum(xs, date, f, InYear(year)) == SumBy(OfYear(xs, date, year), f)
  {
    FilterSame(xs, (x: T) => InScope(date(x), InYear(year)), (x: T) => date(x).year == year);
  }

  /** The annual report's totals are the sums over everything fetched:
      every sale and every expense lands in exactly one bucket. */
  lemma ReportTotalsCountEverything(sales: seq<DatedSale>, expenses: seq<Expense>)
    ensures var s := Summarize(ReportBuckets(sales, expenses));
            && s.revenue == SumBy(sales, SaleTotal)
            && s.cost == SumBy(sales, SaleCost)
            && s.expense == SumBy(expenses, ExpenseAmount)
            && s.profit == SumBy(sales, SaleTotal) - SumBy(sales, SaleCost) - SumBy(expenses, ExpenseAmount)
  {
    TotalsCountScope(sales, expenses, AnyYear);
    ScopeSumAnyYear(sales, SaleDate, SaleTotal);
    ScopeSumAnyYear(sales, SaleDate, SaleCost);
    ScopeSumAnyYear(expenses, ExpenseDate, ExpenseAmount);
  }

  /** The dashboard's totals are the sums over the fetched records of the
      selected year. */
  lemma DashboardTotalsCountYear(sales: seq<DatedSale>, expenses: seq<Expense>, year: int)
    ensures var s := Summarize(DashboardBuckets(sales, expenses, year));
            && s.revenue == SumBy(OfYear(sales, SaleDate, year), SaleTotal)
            && s.cost == SumBy(OfYear(sales, SaleDate, year), SaleCost)
            && s.expense == SumBy(OfYear(expenses, ExpenseDate, year), ExpenseAmount)
  {
    TotalsCountScope(sales, expenses, InYear(year));
    ScopeSumInYear(sales, SaleDate, SaleTotal, year);
    ScopeSumInYear(sales, SaleDate, SaleCost, year);
    ScopeSumInYear(expenses, ExpenseDate, ExpenseAmount, year);
  }

  /** With no sales and no expenses every bucket is zero with a zero margin,
      not a division by zero. */
  lemma NoRecordsGiveZeroBuckets(scope: Scope)
    ensures forall i :: 0 <= i < 12 ==>
              MonthlyBuckets([], [], scope)[i] == Bucket(MonthLabels[i], 0, 0, 0, 0, 0.0)
  {
  }

  function ProductStock(p: Product): int { p.stock }

  /** The dashboard's stock card: the sum of every product's stock, 0 for no
      products; with no negative stock it is at least any single product's
      stock. */
  function TotalStock(products: seq<Product>): (total: int)
    ensures |products| == 0 ==> total == 0
    ensures (forall k :: 0 <= k < |products| ==> products[k].stock >= 0) ==>
              total >= 0 && forall k :: 0 <= k < |products| ==> products[k].stock <= total
  {
    SumByBounds(products, ProductStock);
    SumBy(products, ProductStock)
  }

  /** The stock card adds up: one more product raises it by exactly that
      product's stock, and two lists together give the sum of their cards. */
  lemma TotalStockAppend(products: seq<Product>, more: seq<Product>, p: Product)
    ensures TotalStock(products + [p]) == TotalStock(products) + p.stock
    ensures TotalStock(products + more) == TotalStock(products) + TotalStock(more)
  {
    SumByAppend(products, [p], ProductStock);
    assert [p][1..] == [];
    SumByAppend(products, more, ProductStock);
  }
}
