/** The monthly report (src/components/Reports.js): the month's sales and
    expenses summed, a per-product table kept in a dictionary and ranked by
    revenue into a top ten, the revenue of each day of the month in an array,
    the fixed figures shown to guests, and logout. Dates are calendar days in
    local time, given as inputs; `today` stands for `new Date()`. */
module Reports {
  import opened JsText
  import opened Storage
  import opened Auth
  import opened Routing

  datatype CalendarDay = CalendarDay(year: int, month: int, day: int)   // month 1..12

  predicate IsLeapYear(y: int) {
    (y % 4 == 0 && y % 100 != 0) || y % 400 == 0
  }

  /** `new Date(year, month + 1, 0).getDate()`: the length of the month. */
  function DaysInMonth(year: int, month: int): (n: int)
    requires 1 <= month <= 12
    ensures 28 <= n <= 31
    ensures month == 2 ==> (n == 29 <==> IsLeapYear(year))
  {
    if month == 2 then (if IsLeapYear(year) then 29 else 28)
    else if month == 4 || month == 6 || month == 9 || month == 11 then 30
    else 31
  }

  /** A day that exists in the calendar. */
  type Day = d: CalendarDay | 1 <= d.month <= 12 && 1 <= d.day <= DaysInMonth(d.year, d.month)
    witness CalendarDay(2000, 1, 1)

  /** Whether a record's date (None when it does not parse) is in today's month. */
  predicate InMonth(date: Option<Day>, today: Day) {
    date.Some? && date.value.year == today.year && date.value.month == today.month
  }

  /** One line of a recorded sale. */
  datatype SoldItem = SoldItem(
    productId: string, productName: string, quantity: Option<int>,
    sellingPrice: Option<real>, costPrice: Option<real>)

  /** A recorded sale; absent numbers count as 0. */
  datatype ReportSale = ReportSale(
    date: Option<Day>, totalRevenue: Option<real>, totalProfit: Option<real>, products: Option<seq<SoldItem>>)

  datatype ReportExpense = ReportExpense(date: Option<Day>, amount: Option<real>)

  /** `x || 0`. */
  function Qty(it: SoldItem): int {
    it.quantity.GetOr(0)
  }

  function Amount(price: real, quantity: int): real {
    price * quantity as real
  }

  function ItemsOf(s: ReportSale): seq<SoldItem> {
    s.products.GetOr([])
  }

  /** `sales.filter(...)`: the sales of today's month, in order. */
  function MonthlySales(sales: seq<ReportSale>, today: Day): (r: seq<ReportSale>)
    ensures |r| <= |sales|
    ensures |sales| == 1 ==> r == if InMonth(sales[0].date, today) then sales else []
  {
    if sales == [] then []
    else MonthlySales(sales[..|sales| - 1], today) + (if InMonth(sales[|sales| - 1].date, today) then [sales[|sales| - 1]] else [])
  }

  /** The filter keeps exactly the sales dated in today's month. */
  lemma {:induction false} MonthlySalesSpec(sales: seq<ReportSale>, today: Day)
    ensures forall s :: s in MonthlySales(sales, today) <==> s in sales && InMonth(s.date, today)
    decreases |sales|
  {
    if sales != [] {
      var init, last := sales[..|sales| - 1], sales[|sales| - 1];
      MonthlySalesSpec(init, today);
      assert sales == init + [last];
    }
  }

  /** Filtering a concatenation filters each part, keeping the order. */
  lemma {:induction false} MonthlySalesAppend(a: seq<ReportSale>, b: seq<ReportSale>, today: Day)
    ensures MonthlySales(a + b, today) == MonthlySales(a, today) + MonthlySales(b, today)
    decreases |b|
  {
    if b == [] {
      assert a + b == a;
    } else {
      assert (a + b)[..|a + b| - 1] == a + b[..|b| - 1];
      MonthlySalesAppend(a, b[..|b| - 1], today);
    }
  }

  function MonthlyExpenses(expenses: seq<ReportExpense>, today: Day): (r: seq<ReportExpense>)
    ensures |r| <= |expenses|
    ensures |expenses| == 1 ==> r == if InMonth(expenses[0].date, today) then expenses else []
  {
    if expenses == [] then []
    else
      var last := expenses[|expenses| - 1];
      MonthlyExpenses(expenses[..|expenses| - 1], today) + (if InMonth(last.date, today) then [last] else [])
  }

  /** The filter keeps exactly the expenses dated in today's month. */
  lemma {:induction false} MonthlyExpensesSpec(expenses: seq<ReportExpense>, today: Day)
    ensures forall e :: e in MonthlyExpenses(expenses, today) <==> e in expenses && InMonth(e.date, today)
    decreases |expenses|
  {
    if expenses != [] {
      var init, last := expenses[..|expenses| - 1], expenses[|expenses| - 1];
      MonthlyExpensesSpec(init, today);
      assert expenses == init + [last];
    }
  }

  /** Filtering a concatenation filters each part, keeping the order. */
  lemma {:induction false} MonthlyExpensesAppend(a: seq<ReportExpense>, b: seq<ReportExpense>, today: Day)
    ensures MonthlyExpenses(a + b, today) == MonthlyExpenses(a, today) + MonthlyExpenses(b, today)
    decreases |b|
  {
    if b == [] {
      assert a + b == a;
    } else {
      assert (a + b)[..|a + b| - 1] == a + b[..|b| - 1];
      MonthlyExpensesAppend(a, b[..|b| - 1], today);
    }
  }

  /** Σ `totalRevenue || 0`. */
  function SalesRevenue(sales: seq<ReportSale>): real {
    if sales == [] then 0.0 else SalesRevenue(sales[..|sales| - 1]) + sales[|sales| - 1].totalRevenue.GetOr(0.0)
  }

  /** Σ `totalProfit || 0`. */
  function SalesProfit(sales: seq<ReportSale>): real {
    if sales == [] then 0.0 else SalesProfit(sales[..|sales| - 1]) + sales[|sales| - 1].totalProfit.GetOr(0.0)
  }

  /** Σ costPrice·quantity over some lines. */
  function ItemsCost(items: seq<SoldItem>): real {
    if items == [] then 0.0
    else
      var it := items[|items| - 1];
      ItemsCost(items[..|items| - 1]) + Amount(it.costPrice.GetOr(0.0), Qty(it))
  }

  /** The cost of the goods sold. */
  function Cogs(sales: seq<ReportSale>): real {
    if sales == [] then 0.0 else Cogs(sales[..|sales| - 1]) + ItemsCost(ItemsOf(sales[|sales| - 1]))
  }

  /** Σ `amount || 0` (the `reduce`). */
  function ExpensesTotal(expenses: seq<ReportExpense>): real {
    if expenses == [] then 0.0 else ExpensesTotal(expenses[..|expenses| - 1]) + expenses[|expenses| - 1].amount.GetOr(0.0)
  }

  /** An entry of `productSalesMap`. */
  datatype ProductSummary = ProductSummary(id: string, name: string, quantity: int, revenue: real)

  /** `productSalesMap` with the order in which its keys were first set
      (the order `Object.values` lists them in). */
  datatype Tally = Tally(entries: map<string, ProductSummary>, order: seq<string>)

  const EmptyTally := Tally(map[], [])

  /** One line counted into the dictionary: a new product gets an entry named
      after the line, then the line's quantity and revenue are added. */
  function AddItem(t: Tally, it: SoldItem): Tally {
    var id := it.productId;
    var known := id in t.entries;
    var entry := if known then t.entries[id] else ProductSummary(id, it.productName, 0, 0.0);
    var updated := entry.(quantity := entry.quantity + Qty(it),
                          revenue := entry.revenue + Amount(it.sellingPrice.GetOr(0.0), Qty(it)));
    Tally(t.entries[id := updated], if known then t.order else t.order + [id])
  }

  function AddItems(t: Tally, items: seq<SoldItem>): Tally {
    if items == [] then t else AddItem(AddItems(t, items[..|items| - 1]), items[|items| - 1])
  }

  /** The dictionary after the month's sales. */
  function TallySales(sales: seq<ReportSale>): Tally {
    if sales == [] then EmptyTally else AddItems(TallySales(sales[..|sales| - 1]), ItemsOf(sales[|sales| - 1]))
  }

  /** Each key is listed once, every key is listed, and every entry carries its key. */
  predicate WellFormed(t: Tally) {
    && (forall i :: 0 <= i < |t.order| ==> t.order[i] in t.entries)
    && (forall k :: k in t.entries ==> k in t.order && t.entries[k].id == k)
    && (forall i, j :: 0 <= i < j < |t.order| ==> t.order[i] != t.order[j])
  }

  lemma {:induction false} AddItemsWellFormed(t: Tally, items: seq<SoldItem>)
    requires WellFormed(t)
    ensures WellFormed(AddItems(t, items))
    decreases |items|
  {
    if items != [] {
      AddItemsWellFormed(t, items[..|items| - 1]);
    }
  }

  lemma {:induction false} TallyWellFormed(sales: seq<ReportSale>)
    ensures WellFormed(TallySales(sales))
    decreases |sales|
  {
    if sales != [] {
      TallyWellFormed(sales[..|sales| - 1]);
      AddItemsWellFormed(TallySales(sales[..|sales| - 1]), ItemsOf(sales[|sales| - 1]));
    }
  }

  /** A product's quantity in the dictionary, 0 when it has no entry. */
  function QuantityIn(t: Tally, id: string): int {
    if id in t.entries then t.entries[id].quantity else 0
  }

  function RevenueIn(t: Tally, id: string): real {
    if id in t.entries then t.entries[id].revenue else 0.0
  }

  /** Σ quantity over the lines of one product. */
  function ItemsQty(items: seq<SoldItem>, id: string): int {
    if items == [] then 0
    else ItemsQty(items[..|items| - 1], id) + (if items[|items| - 1].productId == id then Qty(items[|items| - 1]) else 0)
  }

  /** Σ sellingPrice·quantity over the lines of one product. */
  function ItemsRevenue(items: seq<SoldItem>, id: string): real {
    if items == [] then 0.0
    else
      var it := items[|items| - 1];
      ItemsRevenue(items[..|items| - 1], id) + (if it.productId == id then Amount(it.sellingPrice.GetOr(0.0), Qty(it)) else 0.0)
  }

  function SalesQty(sales: seq<ReportSale>, id: string): int {
    if sales == [] then 0 else SalesQty(sales[..|sales| - 1], id) + ItemsQty(ItemsOf(sales[|sales| - 1]), id)
  }

  function SalesItemsRevenue(sales: seq<ReportSale>, id: string): real {
    if sales == [] then 0.0 else SalesItemsRevenue(sales[..|sales| - 1], id) + ItemsRevenue(ItemsOf(sales[|sales| - 1]), id)
  }

  lemma {:induction false} AddItemsTotals(t: Tally, items: seq<SoldItem>, id: string)
    ensures QuantityIn(AddItems(t, items), id) == QuantityIn(t, id) + ItemsQty(items, id)
    ensures RevenueIn(AddItems(t, items), id) == RevenueIn(t, id) + ItemsRevenue(items, id)
    decreases |items|
  {
    if items != [] {
      AddItemsTotals(t, items[..|items| - 1], id);
    }
  }

  /** Each product's entry holds the sum of its quantities and of its line
      revenues over the given sales; a product never sold has no entry. */
  lemma {:induction false} TallyTotals(sales: seq<ReportSale>, id: string)
    ensures QuantityIn(TallySales(sales), id) == SalesQty(sales, id)
    ensures RevenueIn(TallySales(sales), id) == SalesItemsRevenue(sales, id)
    decreases |sales|
  {
    if sales != [] {
      TallyTotals(sales[..|sales| - 1], id);
      AddItemsTotals(TallySales(sales[..|sales| - 1]), ItemsOf(sales[|sales| - 1]), id);
    }
  }

  /** `Object.values(productSalesMap)`. */
  function Values(t: Tally): (r: seq<ProductSummary>)
    requires WellFormed(t)
    ensures |r| == |t.order| && |r| == |t.entries|
    ensures forall i :: 0 <= i < |r| ==> r[i] == t.entries[t.order[i]]
  {
    DistinctKeysCount(t);
    seq(|t.order|, i requires 0 <= i < |t.order| => t.entries[t.order[i]])
  }

  lemma DistinctKeysCount(t: Tally)
    requires WellFormed(t)
    ensures |t.order| == |t.entries|
  {
    var s := set i | 0 <= i < |t.order| :: t.order[i];
    assert s == t.entries.Keys;
    DistinctCard(t.order);
  }

  /** A list without repeats has as many distinct elements as entries. */
  lemma {:induction false} DistinctCard(xs: seq<string>)
    requires forall i, j :: 0 <= i < j < |xs| ==> xs[i] != xs[j]
    ensures |set i | 0 <= i < |xs| :: xs[i]| == |xs|
  {
    if xs != [] {
      var init := xs[..|xs| - 1];
      DistinctCard(init);
      var a := set i | 0 <= i < |init| :: init[i];
      var b := set i | 0 <= i < |xs| :: xs[i];
      assert b == a + {xs[|xs| - 1]};
      assert xs[|xs| - 1] !in a;
    }
  }

  predicate Descending(s: seq<ProductSummary>) {
    forall i, j :: 0 <= i < j < |s| ==> s[i].revenue >= s[j].revenue
  }

  /** How many leading elements have at least `x`'s revenue. */
  function InsertAt(x: ProductSummary, s: seq<ProductSummary>): (k: nat)
    ensures k <= |s|
    ensures forall i :: 0 <= i < k ==> s[i].revenue >= x.revenue
    ensures k < |s| ==> s[k].revenue < x.revenue
  {
    if s == [] || s[0].revenue < x.revenue then 0 else 1 + InsertAt(x, s[1..])
  }

  /** `x` placed after every leading element with at least its revenue. */
  function Insert(x: ProductSummary, s: seq<ProductSummary>): (r: seq<ProductSummary>)
    ensures multiset(r) == multiset(s) + multiset{x}
  {
    var k := InsertAt(x, s);
    assert s == s[..k] + s[k..];
    s[..k] + [x] + s[k..]
  }

  /** Where each element of `Insert(x, s)` comes from. */
  lemma InsertIndex(x: ProductSummary, s: seq<ProductSummary>, i: nat)
    requires i <= |s|
    ensures |Insert(x, s)| == |s| + 1
    ensures i < InsertAt(x, s) ==> Insert(x, s)[i] == s[i]
    ensures i == InsertAt(x, s) ==> Insert(x, s)[i] == x
    ensures i > InsertAt(x, s) ==> Insert(x, s)[i] == s[i - 1]
  {
  }

  lemma InsertDescending(x: ProductSummary, s: seq<ProductSummary>)
    requires Descending(s)
    ensures Descending(Insert(x, s))
  {
    var k := InsertAt(x, s);
    var r := Insert(x, s);
    InsertIndex(x, s, 0);
    forall i, j | 0 <= i < j < |r|
      ensures r[i].revenue >= r[j].revenue
    {
      InsertIndex(x, s, i);
      InsertIndex(x, s, j);
      if i < k && j > k {
        assert s[i].revenue >= s[j - 1].revenue;
      } else if i == k && j > k {
        assert x.revenue > s[k].revenue >= s[j - 1].revenue;
      }
    }
  }

  /** `.sort((a, b) => b.revenue - a.revenue)`: a stable sort, highest revenue first. */
  function SortByRevenue(xs: seq<ProductSummary>): (r: seq<ProductSummary>)
    ensures multiset(r) == multiset(xs)
  {
    if xs == [] then []
    else
      var init := xs[..|xs| - 1];
      assert xs == init + [xs[|xs| - 1]];
      Insert(xs[|xs| - 1], SortByRevenue(init))
  }

  /** The sort leaves every product in the list, highest revenue first. */
  lemma {:induction false} SortByRevenueSpec(xs: seq<ProductSummary>)
    ensures |SortByRevenue(xs)| == |xs|
    ensures Descending(SortByRevenue(xs))
    decreases |xs|
  {
    var r := SortByRevenue(xs);
    assert |multiset(r)| == |multiset(xs)|;
    if xs != [] {
      SortByRevenueSpec(xs[..|xs| - 1]);
      InsertDescending(xs[|xs| - 1], SortByRevenue(xs[..|xs| - 1]));
    }
  }

  /** `.slice(0, 10)`. */
  function Take(s: seq<ProductSummary>, n: nat): (r: seq<ProductSummary>)
    ensures |r| == if |s| <= n then |s| else n
    ensures r == s[..|r|]
  {
    if |s| <= n then s else s[..n]
  }

  /** The entries ranked by revenue, at most ten. */
  function Top(t: Tally): seq<ProductSummary>
    requires WellFormed(t)
  {
    Take(SortByRevenue(Values(t)), 10)
  }

  /** The report's top products for some sales. */
  function TopProducts(sales: seq<ReportSale>): seq<ProductSummary> {
    TallyWellFormed(sales);
    Top(TallySales(sales))
  }

  /** The first elements of a descending list are descending and outrank the rest. */
  lemma TakeOfDescending(s: seq<ProductSummary>, n: nat)
    requires Descending(s)
    ensures Descending(Take(s, n))
    ensures forall i, j :: 0 <= i < |Take(s, n)| <= j < |s| ==> s[i].revenue >= s[j].revenue
  {
  }

  /** Every ranked product is an entry of the dictionary. */
  lemma TopMembers(t: Tally)
    requires WellFormed(t)
    ensures forall p :: p in Top(t) ==> p.id in t.entries && t.entries[p.id] == p
  {
    var values := Values(t);
    var sorted := SortByRevenue(values);
    forall p | p in Take(sorted, 10)
      ensures p.id in t.entries && t.entries[p.id] == p
    {
      assert p in multiset(sorted);
      assert p in multiset(values);
      var i :| 0 <= i < |values| && values[i] == p;
      assert t.entries[t.order[i]] == p;
    }
  }

  /** In a descending list, what the first ten keep outranks what they leave out. */
  lemma KeptOutranksDropped(sorted: seq<ProductSummary>, p: ProductSummary, q: ProductSummary)
    requires Descending(sorted)
    requires p in Take(sorted, 10) && q in sorted && q !in Take(sorted, 10)
    ensures p.revenue >= q.revenue
  {
    var top := Take(sorted, 10);
    var a :| 0 <= a < |top| && top[a] == p;
    var j :| 0 <= j < |sorted| && sorted[j] == q;
    assert sorted[a] == p;
    if j < |top| {
      assert top[j] == q;
    }
  }

  /** No entry left out of the ranking earned more than one kept. */
  lemma TopOutranks(t: Tally)
    requires WellFormed(t)
    ensures forall p, q :: p in Top(t) && q in t.entries.Values && q !in Top(t) ==> p.revenue >= q.revenue
  {
    var values := Values(t);
    var sorted := SortByRevenue(values);
    SortByRevenueSpec(values);
    forall p, q | p in Top(t) && q in t.entries.Values && q !in Top(t)
      ensures p.revenue >= q.revenue
    {
      var k :| k in t.entries && t.entries[k] == q;
      var i :| 0 <= i < |t.order| && t.order[i] == k;
      assert values[i] == q;
      assert q in multiset(values);
      assert q in multiset(sorted);
      KeptOutranksDropped(sorted, p, q);
    }
  }

  /** At most ten products (all of them when there are no more), highest
      revenue first, each an entry of the dictionary, and no entry left out that
      earned more than one kept. */
  lemma TopSpec(t: Tally)
    requires WellFormed(t)
    ensures |Top(t)| <= 10
    ensures |t.entries| <= 10 ==> |Top(t)| == |t.entries|
    ensures Descending(Top(t))
    ensures forall p :: p in Top(t) ==> p.id in t.entries && t.entries[p.id] == p
    ensures forall p, q :: p in Top(t) && q in t.entries.Values && q !in Top(t) ==> p.revenue >= q.revenue
  {
    SortByRevenueSpec(Values(t));
    TakeOfDescending(SortByRevenue(Values(t)), 10);
    TopMembers(t);
    TopOutranks(t);
  }

  /** TopSpec for the top products of some sales. */
  lemma TopProductsSpec(sales: seq<ReportSale>)
    ensures WellFormed(TallySales(sales)) && TopProducts(sales) == Top(TallySales(sales))
  {
    TallyWellFormed(sales);
  }

  /** Σ over a series. */
  function Sum(s: seq<real>): real {
    if s == [] then 0.0 else Sum(s[..|s| - 1]) + s[|s| - 1]
  }

  lemma {:induction false} SumAdd(s: seq<real>, k: nat, v: real)
    requires k < |s|
    ensures Sum(s[k := s[k] + v]) == Sum(s) + v
    decreases |s|
  {
    var t := s[k := s[k] + v];
    assert t[..|t| - 1] == if k == |s| - 1 then s[..|s| - 1] else s[..|s| - 1][k := s[k] + v];
    if k < |s| - 1 {
      SumAdd(s[..|s| - 1], k, v);
    }
  }

  /** The daily series: day `d` of today's month at index `d - 1`, starting at zeros. */
  function Buckets(sales: seq<ReportSale>, today: Day): (r: seq<real>)
    ensures |r| == DaysInMonth(today.year, today.month)
  {
    if sales == [] then seq(DaysInMonth(today.year, today.month), _ => 0.0)
    else
      var b := Buckets(sales[..|sales| - 1], today);
      var s := sales[|sales| - 1];
      if InMonth(s.date, today) then b[s.date.value.day - 1 := b[s.date.value.day - 1] + s.totalRevenue.GetOr(0.0)]
      else b
  }

  /** The revenue of the sales dated on day `d` of today's month. */
  function DayRevenue(sales: seq<ReportSale>, today: Day, d: int): real {
    if sales == [] then 0.0
    else
      var s := sales[|sales| - 1];
      DayRevenue(sales[..|sales| - 1], today, d)
        + (if InMonth(s.date, today) && s.date.value.day == d then s.totalRevenue.GetOr(0.0) else 0.0)
  }

  /** Each bar of the chart is the revenue of its own day. */
  lemma {:induction false} BucketsByDay(sales: seq<ReportSale>, today: Day, d: int)
    requires 1 <= d <= DaysInMonth(today.year, today.month)
    ensures Buckets(sales, today)[d - 1] == DayRevenue(sales, today, d)
    decreases |sales|
  {
    if sales != [] {
      BucketsByDay(sales[..|sales| - 1], today, d);
    }
  }

  /** The days of the chart add up to the month's revenue. */
  lemma {:induction false} BucketsTotal(sales: seq<ReportSale>, today: Day)
    ensures Sum(Buckets(sales, today)) == SalesRevenue(MonthlySales(sales, today))
    decreases |sales|
  {
    if sales == [] {
      ZerosSum(DaysInMonth(today.year, today.month));
    } else {
      var init, s := sales[..|sales| - 1], sales[|sales| - 1];
      BucketsTotal(init, today);
      if InMonth(s.date, today) {
        SumAdd(Buckets(init, today), s.date.value.day - 1, s.totalRevenue.GetOr(0.0));
        var m := MonthlySales(sales, today);
        assert m[..|m| - 1] == MonthlySales(init, today);
      } else {
        assert MonthlySales(sales, today) == MonthlySales(init, today);
      }
    }
  }

  lemma {:induction false} ZerosSum(n: nat)
    ensures Sum(seq(n, _ => 0.0)) == 0.0
  {
    if n > 0 {
      assert seq(n, _ => 0.0)[..n - 1] == seq(n - 1, _ => 0.0);
      ZerosSum(n - 1);
    }
  }

  /** Sales outside today's month leave the chart as it is. */
  lemma OtherMonthsIgnored(sales: seq<ReportSale>, s: ReportSale, today: Day)
    requires !InMonth(s.date, today)
    ensures Buckets(sales + [s], today) == Buckets(sales, today)
  {
    assert (sales + [s])[..|sales + [s]| - 1] == sales;
  }

  /** `generateDailySalesChart(sales)`: a zero-filled array of the month's
      length, each sale of the month adding its revenue at its day. */
  method DailySales(sales: seq<ReportSale>, today: Day) returns (dailySales: seq<real>)
    ensures dailySales == Buckets(sales, today)
  {
    var daysInMonth := DaysInMonth(today.year, today.month);
    var a := new real[daysInMonth](_ => 0.0);
    assert a[..] == Buckets(sales[..0], today);
    for i := 0 to |sales|
      invariant a[..] == Buckets(sales[..i], today)
    {
      assert sales[..i + 1][..i] == sales[..i];
      var sale := sales[i];
      if InMonth(sale.date, today) {
        var day := sale.date.value.day - 1;
        a[day] := a[day] + sale.totalRevenue.GetOr(0.0);
      }
    }
    assert sales[..|sales|] == sales;
    dailySales := a[..];
  }

  /** An `amount` as the server returns it: a number, or the text the expense
      form posted. Whole numbers suffice to show how the two are added. */
  datatype JsAmount = Number(n: int) | Text(s: string)

  /** `expense.amount || 0`: the empty text is falsy. */
  function OrZero(a: JsAmount): JsAmount {
    if a == Text("") then Number(0) else a
  }

  function TextOf(a: JsAmount): string {
    match a
    case Number(n) => IntToString(n)
    case Text(s) => s
  }

  /** JavaScript `+`: two numbers add; with a text on either side the texts concatenate. */
  function JsPlus(a: JsAmount, b: JsAmount): JsAmount {
    if a.Number? && b.Number? then Number(a.n + b.n) else Text(TextOf(a) + TextOf(b))
  }

  /** The expenses `reduce` as written: `sum + (expense.amount || 0)` from 0,
      with no conversion of the amount. */
  function ReduceAsWritten(amounts: seq<JsAmount>): JsAmount {
    if amounts == [] then Number(0)
    else JsPlus(ReduceAsWritten(amounts[..|amounts| - 1]), OrZero(amounts[|amounts| - 1]))
  }

  /** As written, amounts that come as numbers add up. */
  lemma {:induction false} ReduceAsWrittenOfNumbers(values: seq<int>)
    ensures ReduceAsWritten(seq(|values|, i requires 0 <= i < |values| => Number(values[i]))) == Number(SumInts(values))
    decreases |values|
  {
    if values != [] {
      var n := |values| - 1;
      ReduceAsWrittenOfNumbers(values[..n]);
      var xs := seq(|values|, i requires 0 <= i < |values| => Number(values[i]));
      assert xs[..n] == seq(n, i requires 0 <= i < n => Number(values[..n][i]));
    }
  }

  /** As written, two amounts sent as the texts "12" and "30" give the text
      "01230", which `profit - totalExpenses` then reads as 1230 instead of 42. */
  lemma TextAmountsConcatenate()
    ensures ReduceAsWritten([Text("12"), Text("30")]) == Text("01230")
    ensures ParseInt("01230") == Some(1230) && 1230 != 12 + 30
  {
    var amounts := [Text("12"), Text("30")];
    assert amounts[..1] == [Text("12")];
    ReduceTwelve();
    assert "012" + "30" == "01230";
    DigitsOf01230();
  }

  lemma ReduceTwelve()
    ensures ReduceAsWritten([Text("12")]) == Text("012")
  {
    assert [Text("12")][..0] == [];
    assert IntToString(0) == "0";
    assert "0" + "12" == "012";
  }

  lemma DigitsOf01230()
    ensures ParseInt("01230") == Some(1230)
  {
    var text := "01230";
    assert !IsSpace(text[0]) && text[0] != '-' && text[0] != '+';
    assert TrimStart(text) == text;
    assert AllDigits(text);
    LeadingDigitsOfDigits(text);
    ValueOf01230();
  }

  lemma ValueOf01230()
    ensures DigitsValue("01230") == 1230
  {
    assert "01230"[..4] == "0123" && "0123"[..3] == "012" && "012"[..2] == "01" && "01"[..1] == "0";
    assert DigitsValue("0") == 0;
    assert DigitsValue("01") == 1;
    assert DigitsValue("012") == 12;
    assert DigitsValue("0123") == 123;
  }

  /** The amount read as a number first, as the expenses screen does
      (`parseFloat(expense.amount || 0)`), for whole amounts; None when a text
      is not a number. */
  function AmountNumber(a: JsAmount): Option<int> {
    match OrZero(a)
    case Number(n) => Some(n)
    case Text(s) => ParseInt(s)
  }

  /** The expenses `reduce` with each amount read as a number first. */
  function ReduceCorrected(amounts: seq<JsAmount>): Option<int> {
    if amounts == [] then Some(0)
    else
      var rest, last := ReduceCorrected(amounts[..|amounts| - 1]), AmountNumber(amounts[|amounts| - 1]);
      if rest.Some? && last.Some? then Some(rest.value + last.value) else None
  }

  /** Read first, the amounts add up to their sum whether each came as a
      number or as its text. */
  lemma {:induction false} ReduceCorrectedSums(values: seq<int>, amounts: seq<JsAmount>)
    requires |amounts| == |values|
    requires forall i :: 0 <= i < |values| ==> amounts[i] == Number(values[i]) || amounts[i] == Text(IntToString(values[i]))
    ensures ReduceCorrected(amounts) == Some(SumInts(values))
    decreases |values|
  {
    if values != [] {
      var n := |values| - 1;
      ReduceCorrectedSums(values[..n], amounts[..n]);
      AmountNumberOfValue(values[n], amounts[n]);
    }
  }

  lemma AmountNumberOfValue(v: int, a: JsAmount)
    requires a == Number(v) || a == Text(IntToString(v))
    ensures AmountNumber(a) == Some(v)
  {
    if a != Number(v) {
      ParseIntOfIntToString(v);
      IntToStringParts(v);
      assert a != Text("");
    }
  }

  /** The figures a report shows. */
  datatype Report = Report(
    totalSales: int, revenue: real, profit: real, expenses: real, netProfit: real,
    topProducts: seq<ProductSummary>, productsCount: int)

  /** Counting one more line of `items` extends both running figures by that line. */
  lemma PrefixStep(t: Tally, items: seq<SoldItem>, j: nat)
    requires j < |items|
    ensures ItemsCost(items[..j + 1]) == ItemsCost(items[..j]) + Amount(items[j].costPrice.GetOr(0.0), Qty(items[j]))
    ensures AddItems(t, items[..j + 1]) == AddItem(AddItems(t, items[..j]), items[j])
  {
    assert items[..j + 1][..j] == items[..j];
  }

  /** The inner loop of `fetchMonthlySummary` over one sale's lines: the cost of
      the goods sold grows, and each line is added to the product dictionary. */
  method TallyItems(items: seq<SoldItem>, entries: map<string, ProductSummary>, order: seq<string>, cogs: real)
    returns (entries': map<string, ProductSummary>, order': seq<string>, cogs': real)
    ensures cogs' == cogs + ItemsCost(items)
    ensures Tally(entries', order') == AddItems(Tally(entries, order), items)
  {
    entries', order', cogs' := entries, order, cogs;
    for j := 0 to |items|
      invariant cogs' == cogs + ItemsCost(items[..j])
      invariant Tally(entries', order') == AddItems(Tally(entries, order), items[..j])
    {
      PrefixStep(Tally(entries, order), items, j);
      var product := items[j];
      cogs' := cogs' + Amount(product.costPrice.GetOr(0.0), Qty(product));
      var productId := product.productId;
      if productId !in entries' {
        entries' := entries'[productId := ProductSummary(productId, product.productName, 0, 0.0)];
        order' := order' + [productId];
      }
      var entry := entries'[productId];
      entries' := entries'[productId := entry.(
        quantity := entry.quantity + Qty(product),
        revenue := entry.revenue + Amount(product.sellingPrice.GetOr(0.0), Qty(product)))];
    }
    assert items[..|items|] == items;
  }

  /** The figures of the monthly report for the fetched lists. The reported
      `expenses` add the cost of the goods sold to the month's expenses;
      `netProfit` subtracts only the expenses. */
  predicate IsMonthlySummary(report: Report, sales: seq<ReportSale>, productsCount: nat, expenses: seq<ReportExpense>, today: Day) {
    var monthlySales, monthlyExpenses := MonthlySales(sales, today), MonthlyExpenses(expenses, today);
    && report.totalSales == |monthlySales|
    && report.revenue == SalesRevenue(monthlySales)
    && report.profit == SalesProfit(monthlySales)
    && report.expenses == ExpensesTotal(monthlyExpenses) + Cogs(monthlySales)
    && report.netProfit == report.profit - ExpensesTotal(monthlyExpenses)
    && report.topProducts == TopProducts(monthlySales)
    && report.productsCount == productsCount
  }

  /** `fetchMonthlySummary` once the three lists are in: sums over the month's
      sales, the product dictionary filled line by line, the month's expenses,
      and the ranking. */
  method MonthlySummary(sales: seq<ReportSale>, productsCount: nat, expenses: seq<ReportExpense>, today: Day)
    returns (report: Report)
    ensures IsMonthlySummary(report, sales, productsCount, expenses, today)
  {
    var monthlySales := MonthlySales(sales, today);
    var totalSales := |monthlySales|;
    var revenue, profit, costOfGoodsSold := 0.0, 0.0, 0.0;
    var productSalesMap: map<string, ProductSummary> := map[];
    var order: seq<string> := [];
    for i := 0 to |monthlySales|
      invariant revenue == SalesRevenue(monthlySales[..i])
      invariant profit == SalesProfit(monthlySales[..i])
      invariant costOfGoodsSold == Cogs(monthlySales[..i])
      invariant Tally(productSalesMap, order) == TallySales(monthlySales[..i])
    {
      assert monthlySales[..i + 1][..i] == monthlySales[..i];
      var sale := monthlySales[i];
      revenue := revenue + sale.totalRevenue.GetOr(0.0);
      profit := profit + sale.totalProfit.GetOr(0.0);
      var items := ItemsOf(sale);
      productSalesMap, order, costOfGoodsSold := TallyItems(items, productSalesMap, order, costOfGoodsSold);
    }
    assert monthlySales[..|monthlySales|] == monthlySales;
    var monthlyExpenses := MonthlyExpenses(expenses, today);
    var totalExpenses := ExpensesTotal(monthlyExpenses);
    var topProducts := TopProducts(monthlySales);
    var netProfit := profit - totalExpenses;
    report := Report(totalSales, revenue, profit, totalExpenses + costOfGoodsSold, netProfit, topProducts, productsCount);
  }

  /** The figures shown to guests. */
  const GuestReport := Report(42, 84200.0, 27800.0, 31600.0, -3800.0,
    [ProductSummary("demo-1", "Carbon Fiber Sneaker", 48, 6192.0),
     ProductSummary("demo-2", "Everyday Tote", 92, 5336.0),
     ProductSummary("demo-3", "Minimal Watch", 35, 6965.0)],
    128)

  /** The guest chart's seven points (days 1, 5, 10, 15, 20, 25 and 30). */
  const GuestDailySales: seq<real> := [2800.0, 4200.0, 3900.0, 5200.0, 6100.0, 4800.0, 7300.0]

  const LoadFailedMessage := "Failed to load report data. Please make sure you are logged in and the backend is running."

  /** The three lists the summary loads, or the failure's message. */
  datatype FetchAnswer =
    | Fetched(sales: seq<ReportSale>, productsCount: nat, expenses: seq<ReportExpense>)
    | FetchFailed(message: Option<string>)

  class ReportsPage {
    var reportData: Option<Report>
    var dailySales: Option<seq<real>>
    var loading: bool
    var error: Option<string>
    var isGuest: bool

    constructor ()
      ensures reportData.None? && dailySales.None? && loading && error.None? && !isGuest
    {
      reportData := None;
      dailySales := None;
      loading := true;
      error := None;
      isGuest := false;
    }

    /** The mount effect: guests get the fixed figures and nothing is loaded;
        otherwise the summary and the chart are computed from what is loaded. */
    method Mount(ls: LocalStorage, answer: FetchAnswer, today: Day)
      modifies this
      ensures isGuest == IsGuestMode(ls.entries) && !loading
      ensures isGuest ==> reportData == Some(GuestReport) && dailySales == Some(GuestDailySales) && error.None?
      ensures !isGuest && answer.Fetched? ==>
        && reportData.Some? && IsMonthlySummary(reportData.value, answer.sales, answer.productsCount, answer.expenses, today)
        && dailySales == Some(Buckets(answer.sales, today)) && error.None?
      ensures !isGuest && answer.FetchFailed? ==>
        reportData == old(reportData) && dailySales == old(dailySales)
        && error == Some(OrDefault(answer.message, LoadFailedMessage))
    {
      var guest := IsGuestMode(ls.entries);
      isGuest := guest;
      if guest {
        reportData := Some(GuestReport);
        dailySales := Some(GuestDailySales);
        error := None;
        loading := false;
        return;
      }
      loading := true;
      match answer {
        case Fetched(sales, productsCount, expenses) =>
          var report := MonthlySummary(sales, productsCount, expenses, today);
          reportData := Some(report);
          var chart := DailySales(sales, today);
          dailySales := Some(chart);
          error := None;
        case FetchFailed(message) =>
          error := Some(OrDefault(message, LoadFailedMessage));
      }
      loading := false;
    }

    /** `handleLogout`: a guest only drops the guest flag and goes home; a
        signed-in user is signed out and sent to login. */
    method HandleLogout(ls: LocalStorage) returns (nav: Nav)
      modifies ls
      ensures isGuest ==> ls.entries == old(ls.entries) - {GuestModeKey} && nav == Nav(Home, false)
      ensures !isGuest ==> ls.entries == SignedOut(old(ls.entries)) && nav == Nav(Login(None), false)
    {
      if isGuest {
        ls.RemoveItem(GuestModeKey);
        return Nav(Home, false);
      }
      ClearUserData(ls);
      ls.RemoveItem(TokenKey);
      nav := Nav(Login(None), false);
    }
  }
}
