/** The monthly sales line chart of the dashboard: twelve buckets, one per
    calendar month of one fixed year, each summing the order totals of the
    carts dated in that month. */
module SalesChart {
  import opened Wrappers
  import opened Entities
  import opened Lookup
  import opened Api

  /** The only year the chart reports on. */
  const ReportYear: int := 2020

  const MonthNames: seq<string> :=
    ["Jan", "Feb", "Mar", "Apr", "May", "Jun", "Jul", "Aug", "Sep", "Oct", "Nov", "Dec"]

  /** One point of the line chart. */
  datatype MonthSales = MonthSales(name: string, sales: Cents)

  /** What one cart adds to the bucket of month `m`. */
  function Contribution(c: Cart, pm: map<int, Product>, m: int): Cents
  {
    if c.date.year == ReportYear && c.date.month == m then Total(c.products, pm) else 0
  }

  /** The bucket of month `m` after all carts. */
  function MonthTotal(carts: seq<Cart>, pm: map<int, Product>, m: int): Cents
  {
    if carts == [] then 0
    else MonthTotal(carts[..|carts| - 1], pm, m) + Contribution(carts[|carts| - 1], pm, m)
  }

  /** The sum of the order totals of the carts dated in the report year. */
  function YearTotal(carts: seq<Cart>, pm: map<int, Product>): Cents
  {
    if carts == [] then 0
    else
      var c := carts[|carts| - 1];
      YearTotal(carts[..|carts| - 1], pm) + (if c.date.year == ReportYear then Total(c.products, pm) else 0)
  }

  /** The first `n` buckets added up. */
  function SumMonths(carts: seq<Cart>, pm: map<int, Product>, n: nat): Cents
  {
    if n == 0 then 0 else SumMonths(carts, pm, n - 1) + MonthTotal(carts, pm, n - 1)
  }

  lemma {:induction false} MonthTotalAppend(a: seq<Cart>, b: seq<Cart>, pm: map<int, Product>, m: int)
    ensures MonthTotal(a + b, pm, m) == MonthTotal(a, pm, m) + MonthTotal(b, pm, m)
  {
    if b == [] {
      assert a + b == a;
    } else {
      var n := |b| - 1;
      assert (a + b)[..|a + b| - 1] == a + b[..n];
      MonthTotalAppend(a, b[..n], pm, m);
    }
  }

  /** A cart adds its order total to the bucket of its own month when it is
      dated in the report year, and changes no bucket otherwise. */
  lemma CartAddsToItsMonth(a: seq<Cart>, c: Cart, b: seq<Cart>, pm: map<int, Product>, m: Month)
    ensures MonthTotal(a + [c] + b, pm, m) ==
      MonthTotal(a + b, pm, m) + (if c.date == Date(ReportYear, m) then Total(c.products, pm) else 0)
  {
    MonthTotalAppend(a + [c], b, pm, m);
    MonthTotalAppend(a, [c], pm, m);
    MonthTotalAppend(a, b, pm, m);
    assert [c][..0] == [];
  }

  lemma {:induction false} SumMonthsSnoc(carts: seq<Cart>, c: Cart, pm: map<int, Product>, n: nat)
    ensures SumMonths(carts + [c], pm, n) ==
      SumMonths(carts, pm, n) + (if c.date.year == ReportYear && c.date.month < n then Total(c.products, pm) else 0)
  {
    if n > 0 {
      SumMonthsSnoc(carts, c, pm, n - 1);
      assert (carts + [c])[..|carts|] == carts;
    }
  }

  /** The twelve buckets together hold the totals of the carts of the
      report year. */
  lemma {:induction false} MonthsSumToYear(carts: seq<Cart>, pm: map<int, Product>)
    ensures SumMonths(carts, pm, 12) == YearTotal(carts, pm)
  {
    if carts != [] {
      var n := |carts| - 1;
      MonthsSumToYear(carts[..n], pm);
      var c := carts[n];
      assert carts == carts[..n] + [c];
      SumMonthsSnoc(carts[..n], c, pm, 12);
      assert c.date.month < 12;
      assert YearTotal(carts, pm) == YearTotal(carts[..n], pm) + (if c.date.year == ReportYear then Total(c.products, pm) else 0);
    } else {
      SumMonthsEmpty(pm, 12);
    }
  }

  lemma {:induction false} SumMonthsEmpty(pm: map<int, Product>, n: nat)
    ensures SumMonths([], pm, n) == 0
  {
    if n > 0 {
      SumMonthsEmpty(pm, n - 1);
    }
  }

  predicate CartQuantitiesNonNegative(carts: seq<Cart>)
  {
    forall i :: 0 <= i < |carts| ==> QuantitiesNonNegative(carts[i].products)
  }

  /** No bucket goes negative when prices and quantities do not. */
  lemma {:induction false} MonthTotalNonNegative(carts: seq<Cart>, pm: map<int, Product>, m: int)
    requires PricesNonNegative(pm) && CartQuantitiesNonNegative(carts)
    ensures MonthTotal(carts, pm, m) >= 0
  {
    if carts != [] {
      var n := |carts| - 1;
      assert CartQuantitiesNonNegative(carts[..n]) by {
        forall i | 0 <= i < n ensures QuantitiesNonNegative(carts[..n][i].products) {
          assert carts[..n][i] == carts[i];
        }
      }
      MonthTotalNonNegative(carts[..n], pm, m);
      TotalNonNegative(carts[n].products, pm);
    }
  }

  /** A month in which no cart of the report year is dated stays 0. */
  lemma {:induction false} EmptyMonthIsZero(carts: seq<Cart>, pm: map<int, Product>, m: Month)
    requires forall i :: 0 <= i < |carts| ==> carts[i].date != Date(ReportYear, m)
    ensures MonthTotal(carts, pm, m) == 0
  {
    if carts != [] {
      var n := |carts| - 1;
      assert forall i :: 0 <= i < n ==> carts[..n][i] == carts[i];
      EmptyMonthIsZero(carts[..n], pm, m);
    }
  }

  /** The data effect of the chart: index the products, add each cart of
      the report year to the bucket of its month in a fixed array of twelve,
      then pair the buckets with the month names. */
  method MonthlySales(carts: seq<Cart>, products: seq<Product>) returns (data: seq<MonthSales>)
    ensures |data| == 12
    ensures forall m :: 0 <= m < 12 ==>
      data[m] == MonthSales(MonthNames[m], MonthTotal(carts, IndexBy(products, ProductId), m))
  {
    var productMap := BuildMap(Keyed(products, ProductId));
    var monthlySales := new Cents[12](_ => 0);
    var i := 0;
    while i < |carts|
      invariant 0 <= i <= |carts|
      invariant forall m :: 0 <= m < 12 ==> monthlySales[m] == MonthTotal(carts[..i], productMap, m)
    {
      var cart := carts[i];
      assert carts[..i + 1][..i] == carts[..i];
      if cart.date.year == ReportYear {
        var month := cart.date.month;
        var totalSales := Total(cart.products, productMap);
        monthlySales[month] := monthlySales[month] + totalSales;
      }
      i := i + 1;
    }
    assert carts[..i] == carts;
    var totals := monthlySales[..];
    data := seq(12, k requires 0 <= k < 12 => MonthSales(MonthNames[k], totals[k]));
  }

  /** The chart component's state: the points shown and the loading flag. */
  class OverviewChart {
    var salesData: seq<MonthSales>
    var loading: bool

    constructor ()
      ensures salesData == [] && loading
    {
      salesData := [];
      loading := true;
    }

    /** `fetchSalesData`: with both responses the data becomes the twelve
        monthly points; when a request fails the data is kept. Either way
        the loading flag ends false. */
    method FetchSalesData(carts: Result<seq<Cart>>, products: Result<seq<Product>>)
      modifies this
      ensures !loading
      ensures carts.Ok? && products.Ok? ==>
        |salesData| == 12 &&
        forall m :: 0 <= m < 12 ==>
          salesData[m] == MonthSales(MonthNames[m], MonthTotal(carts.value, IndexBy(products.value, ProductId), m))
      ensures !(carts.Ok? && products.Ok?) ==> salesData == old(salesData)
    {
      if carts.Ok? && products.Ok? {
        salesData := MonthlySales(carts.value, products.value);
      }
      loading := false;
    }
  }
}
