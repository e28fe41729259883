/** The category pie chart of the dashboard: every resolved cart line adds
    `price * quantity` to the bucket of its product's category, then the
    buckets are labelled with a capitalised first letter and sorted by
    value, largest first. */
module CategoryChart {
  import opened Wrappers
  import opened Entities
  import opened Lookup
  import opened Api

  /** One resolved cart line: its product's raw category and its amount. */
  datatype Sale = Sale(category: string, amount: Cents)

  /** One own property of the `categorySales` object. */
  datatype Entry = Entry(key: string, value: Cents)

  /** One slice of the chart. */
  datatype CategoryTotal = CategoryTotal(name: string, value: Cents)

  /** `product.price * item.quantity`. */
  function Amount(p: Product, l: Line): Cents
  {
    p.price * l.quantity
  }

  /** The sales of the lines of one cart whose product resolves, in order;
      a line whose product id is not in the table yields nothing. */
  function LineSales(lines: seq<Line>, pm: map<int, Product>): seq<Sale>
  {
    if lines == [] then []
    else
      var l := lines[|lines| - 1];
      LineSales(lines[..|lines| - 1], pm) +
        (if l.productId in pm then [Sale(pm[l.productId].category, Amount(pm[l.productId], l))] else [])
  }

  /** The sales of all carts, cart after cart. */
  function CartSales(carts: seq<Cart>, pm: map<int, Product>): seq<Sale>
  {
    if carts == [] then [] else CartSales(carts[..|carts| - 1], pm) + LineSales(carts[|carts| - 1].products, pm)
  }

  function SumAmounts(s: seq<Sale>): Cents
  {
    if s == [] then 0 else SumAmounts(s[..|s| - 1]) + s[|s| - 1].amount
  }

  /** The amount of the sales of one category. */
  function SumFor(s: seq<Sale>, k: string): Cents
  {
    if s == [] then 0
    else SumFor(s[..|s| - 1], k) + (if s[|s| - 1].category == k then s[|s| - 1].amount else 0)
  }

  /** The position of key `k` in the ordered dictionary, if any. */
  function KeyIndex(d: seq<Entry>, k: string): (r: Option<nat>)
    ensures r.Some? ==> r.value < |d|
  {
    if d == [] then None
    else if d[0].key == k then Some(0)
    else match KeyIndex(d[1..], k)
      case None => None
      case Some(i) => Some(i + 1)
  }

  /** `categorySales[k]`, absent as `undefined`. */
  function Read(d: seq<Entry>, k: string): Option<Cents>
  {
    match KeyIndex(d, k)
    case None => None
    case Some(i) => Some(d[i].value)
  }

  /** `categorySales[k] = v`: an existing property keeps its place, a new
      one goes last (the object's insertion order). */
  function Put(d: seq<Entry>, k: string, v: Cents): seq<Entry>
  {
    match KeyIndex(d, k)
    case None => d + [Entry(k, v)]
    case Some(i) => d[i := Entry(k, v)]
  }

  /** `categorySales[category] = (categorySales[category] || 0) + amount`. */
  function Credit(d: seq<Entry>, x: Sale): seq<Entry>
  {
    Put(d, x.category, Read(d, x.category).GetOr(0) + x.amount)
  }

  /** The `categorySales` object after crediting every sale in order. */
  function Tally(s: seq<Sale>): seq<Entry>
  {
    if s == [] then [] else Credit(Tally(s[..|s| - 1]), s[|s| - 1])
  }

  predicate DistinctKeys(d: seq<Entry>)
  {
    forall i, j :: 0 <= i < j < |d| ==> d[i].key != d[j].key
  }

  function SumValues(d: seq<Entry>): Cents
  {
    if d == [] then 0 else SumValues(d[..|d| - 1]) + d[|d| - 1].value
  }

  /** `KeyIndex` finds the first property with the key, and finds none
      exactly when no property has it. */
  lemma {:induction false} KeyIndexSpec(d: seq<Entry>, k: string)
    ensures KeyIndex(d, k).Some? ==>
      d[KeyIndex(d, k).value].key == k && (forall j :: 0 <= j < KeyIndex(d, k).value ==> d[j].key != k)
    ensures KeyIndex(d, k).None? <==> forall j :: 0 <= j < |d| ==> d[j].key != k
  {
    if d != [] && d[0].key != k {
      KeyIndexSpec(d[1..], k);
      assert forall j :: 1 <= j < |d| ==> d[j] == d[1..][j - 1];
    }
  }

  lemma {:induction false} KeyIndexFirst(d: seq<Entry>, k: string, j: nat)
    requires j < |d| && d[j].key == k
    requires forall l :: 0 <= l < j ==> d[l].key != k
    ensures KeyIndex(d, k) == Some(j)
  {
    if j > 0 {
      assert d[1..][j - 1] == d[j];
      assert forall l :: 0 <= l < j - 1 ==> d[1..][l] == d[l + 1];
      KeyIndexFirst(d[1..], k, j - 1);
    }
  }

  lemma ReadPut(d: seq<Entry>, k: string, v: Cents, k': string)
    ensures Read(Put(d, k, v), k') == if k' == k then Some(v) else Read(d, k')
  {
    var d' := Put(d, k, v);
    KeyIndexSpec(d, k);
    KeyIndexSpec(d, k');
    KeyIndexSpec(d', k');
    assert forall l :: 0 <= l < |d| ==> d'[l].key == d[l].key;
    if k' == k {
      match KeyIndex(d, k)
      case None => KeyIndexFirst(d', k, |d|);
      case Some(i) => KeyIndexFirst(d', k, i);
    } else {
      match KeyIndex(d, k')
      case None =>
        assert forall l :: 0 <= l < |d'| ==> d'[l].key != k';
      case Some(j) =>
        KeyIndexFirst(d', k', j);
    }
  }

  lemma PutDistinct(d: seq<Entry>, k: string, v: Cents)
    requires DistinctKeys(d)
    ensures DistinctKeys(Put(d, k, v))
    ensures |Put(d, k, v)| == if Read(d, k).Some? then |d| else |d| + 1
  {
    KeyIndexSpec(d, k);
  }

  lemma {:induction false} SumValuesUpdate(d: seq<Entry>, i: nat, e: Entry)
    requires i < |d|
    ensures SumValues(d[i := e]) == SumValues(d) - d[i].value + e.value
  {
    var n := |d| - 1;
    if i < n {
      assert d[i := e][..n] == d[..n][i := e];
      SumValuesUpdate(d[..n], i, e);
    } else {
      assert d[i := e][..n] == d[..n];
    }
  }

  lemma SumValuesPut(d: seq<Entry>, k: string, v: Cents)
    ensures SumValues(Put(d, k, v)) == SumValues(d) - Read(d, k).GetOr(0) + v
  {
    match KeyIndex(d, k)
    case None =>
      assert (d + [Entry(k, v)])[..|d|] == d;
    case Some(i) =>
      SumValuesUpdate(d, i, Entry(k, v));
  }

  /** The buckets have distinct raw keys. */
  lemma {:induction false} TallyDistinct(s: seq<Sale>)
    ensures DistinctKeys(Tally(s))
  {
    if s != [] {
      TallyDistinct(s[..|s| - 1]);
      PutDistinct(Tally(s[..|s| - 1]), s[|s| - 1].category, Read(Tally(s[..|s| - 1]), s[|s| - 1].category).GetOr(0) + s[|s| - 1].amount);
    }
  }

  predicate HasCategory(s: seq<Sale>, k: string)
  {
    exists j :: 0 <= j < |s| && s[j].category == k
  }

  lemma HasCategoryAppend(a: seq<Sale>, b: seq<Sale>, k: string)
    ensures HasCategory(a + b, k) <==> HasCategory(a, k) || HasCategory(b, k)
  {
    if HasCategory(a + b, k) {
      var j :| 0 <= j < |a + b| && (a + b)[j].category == k;
      if j >= |a| { assert b[j - |a|] == (a + b)[j]; }
    }
    if HasCategory(a, k) {
      var j :| 0 <= j < |a| && a[j].category == k;
      assert (a + b)[j] == a[j];
    }
    if HasCategory(b, k) {
      var j :| 0 <= j < |b| && b[j].category == k;
      assert (a + b)[|a| + j] == b[j];
    }
  }

  /** A bucket exists exactly for the categories some sale carries. */
  lemma {:induction false} TallyKeys(s: seq<Sale>, k: string)
    ensures Read(Tally(s), k).Some? <==> HasCategory(s, k)
  {
    if s != [] {
      var n := |s| - 1;
      var p := s[..n];
      var d := Tally(p);
      assert s == p + [s[n]];
      TallyKeys(p, k);
      ReadPut(d, s[n].category, Read(d, s[n].category).GetOr(0) + s[n].amount, k);
      HasCategoryAppend(p, [s[n]], k);
    }
  }

  /** Each bucket holds the sum of the amounts of its category's sales. */
  lemma {:induction false} TallyValue(s: seq<Sale>, k: string)
    ensures Read(Tally(s), k).GetOr(0) == SumFor(s, k)
  {
    if s != [] {
      var n := |s| - 1;
      var p := s[..n];
      var d := Tally(p);
      TallyValue(p, k);
      TallyValue(p, s[n].category);
      ReadPut(d, s[n].category, Read(d, s[n].category).GetOr(0) + s[n].amount, k);
    }
  }

  /** The buckets together hold the amount of all sales. */
  lemma {:induction false} TallySum(s: seq<Sale>)
    ensures SumValues(Tally(s)) == SumAmounts(s)
  {
    if s != [] {
      var n := |s| - 1;
      var d := Tally(s[..n]);
      TallySum(s[..n]);
      SumValuesPut(d, s[n].category, Read(d, s[n].category).GetOr(0) + s[n].amount);
    }
  }

  lemma {:induction false} SumAmountsAppend(a: seq<Sale>, b: seq<Sale>)
    ensures SumAmounts(a + b) == SumAmounts(a) + SumAmounts(b)
  {
    if b == [] {
      assert a + b == a;
    } else {
      assert (a + b)[..|a + b| - 1] == a + b[..|b| - 1];
      SumAmountsAppend(a, b[..|b| - 1]);
    }
  }

  /** The resolved sales of a cart amount to the order total the order
      service computes for it (unresolved lines count 0 in both). */
  lemma {:induction false} LineSalesMatchTotal(lines: seq<Line>, pm: map<int, Product>)
    ensures SumAmounts(LineSales(lines, pm)) == Total(lines, pm)
  {
    if lines != [] {
      var n := |lines| - 1;
      var l := lines[n];
      LineSalesMatchTotal(lines[..n], pm);
      SumAmountsAppend(LineSales(lines[..n], pm),
        if l.productId in pm then [Sale(pm[l.productId].category, Amount(pm[l.productId], l))] else []);
      assert SumAmounts([]) == 0;
    }
  }

  /** The sum of the order totals of the carts. */
  function TotalOfCarts(carts: seq<Cart>, pm: map<int, Product>): Cents
  {
    if carts == [] then 0 else TotalOfCarts(carts[..|carts| - 1], pm) + Total(carts[|carts| - 1].products, pm)
  }

  lemma {:induction false} CartSalesMatchTotals(carts: seq<Cart>, pm: map<int, Product>)
    ensures SumAmounts(CartSales(carts, pm)) == TotalOfCarts(carts, pm)
  {
    if carts != [] {
      var n := |carts| - 1;
      CartSalesMatchTotals(carts[..n], pm);
      SumAmountsAppend(CartSales(carts[..n], pm), LineSales(carts[n].products, pm));
      LineSalesMatchTotal(carts[n].products, pm);
    }
  }

  /** Some line of the carts resolves to a product of category `k`. */
  predicate Resolves(carts: seq<Cart>, pm: map<int, Product>, k: string)
  {
    exists i, j :: 0 <= i < |carts| && 0 <= j < |carts[i].products| &&
      carts[i].products[j].productId in pm && pm[carts[i].products[j].productId].category == k
  }

  lemma {:induction false} LineSalesCategories(lines: seq<Line>, pm: map<int, Product>, k: string)
    ensures HasCategory(LineSales(lines, pm), k) <==>
      exists j :: 0 <= j < |lines| && lines[j].productId in pm && pm[lines[j].productId].category == k
  {
    if lines != [] {
      var n := |lines| - 1;
      var l := lines[n];
      var tail := if l.productId in pm then [Sale(pm[l.productId].category, Amount(pm[l.productId], l))] else [];
      LineSalesCategories(lines[..n], pm, k);
      HasCategoryAppend(LineSales(lines[..n], pm), tail, k);
      if exists j :: 0 <= j < |lines| && lines[j].productId in pm && pm[lines[j].productId].category == k {
        var j :| 0 <= j < |lines| && lines[j].productId in pm && pm[lines[j].productId].category == k;
        if j < n {
          assert lines[..n][j] == lines[j];
        } else {
          assert tail[0].category == k;
        }
      }
      if exists j :: 0 <= j < n && lines[..n][j].productId in pm && pm[lines[..n][j].productId].category == k {
        var j :| 0 <= j < n && lines[..n][j].productId in pm && pm[lines[..n][j].productId].category == k;
        assert lines[j] == lines[..n][j];
      }
    }
  }

  /** A sale of category `k` exists exactly when some line of some cart
      resolves to a product of that category. */
  lemma {:induction false} CartSalesCategories(carts: seq<Cart>, pm: map<int, Product>, k: string)
    ensures HasCategory(CartSales(carts, pm), k) <==> Resolves(carts, pm, k)
  {
    if carts != [] {
      var n := |carts| - 1;
      var p := carts[..n];
      CartSalesCategories(p, pm, k);
      LineSalesCategories(carts[n].products, pm, k);
      HasCategoryAppend(CartSales(p, pm), LineSales(carts[n].products, pm), k);
      if Resolves(carts, pm, k) {
        var i, j :| 0 <= i < |carts| && 0 <= j < |carts[i].products| &&
          carts[i].products[j].productId in pm && pm[carts[i].products[j].productId].category == k;
        if i < n { assert p[i] == carts[i]; }
      }
      if Resolves(p, pm, k) {
        var i, j :| 0 <= i < |p| && 0 <= j < |p[i].products| &&
          p[i].products[j].productId in pm && pm[p[i].products[j].productId].category == k;
        assert carts[i] == p[i];
      }
    }
  }

  /** The buckets of a dashboard load: one per distinct raw category with
      at least one resolved line and no other, holding that category's
      `price * quantity` sum, and all together the sum of the order totals. */
  lemma BucketsOfCarts(carts: seq<Cart>, pm: map<int, Product>, k: string)
    ensures DistinctKeys(Tally(CartSales(carts, pm)))
    ensures Read(Tally(CartSales(carts, pm)), k).Some? <==> Resolves(carts, pm, k)
    ensures Read(Tally(CartSales(carts, pm)), k).GetOr(0) == SumFor(CartSales(carts, pm), k)
    ensures SumValues(Tally(CartSales(carts, pm))) == TotalOfCarts(carts, pm)
  {
    var s := CartSales(carts, pm);
    TallyDistinct(s);
    TallyKeys(s, k);
    TallyValue(s, k);
    CartSalesCategories(carts, pm, k);
    TallySum(s);
    CartSalesMatchTotals(carts, pm);
  }

  /** `c.toUpperCase()` on ASCII letters. */
  function Upper(c: char): char
  {
    if 'a' <= c <= 'z' then (c as int - 32) as char else c
  }

  /** `name.charAt(0).toUpperCase() + name.slice(1)`. */
  function Capitalize(s: string): (r: string)
    ensures |r| == |s|
  {
    if s == [] then [] else [Upper(s[0])] + s[1..]
  }

  /** Only the first character can change, and it becomes upper case. */
  lemma CapitalizeFirstOnly(s: string)
    ensures forall i :: 1 <= i < |s| ==> Capitalize(s)[i] == s[i]
    ensures |s| > 0 ==> !('a' <= Capitalize(s)[0] <= 'z') &&
                        (Capitalize(s)[0] == s[0] || Capitalize(s)[0] as int == s[0] as int - 32)
  {
  }

  /** `Object.entries(categorySales).map(([name, value]) => ...)`. */
  function Label(d: seq<Entry>): (r: seq<CategoryTotal>)
    ensures |r| == |d|
    ensures forall i :: 0 <= i < |d| ==> r[i] == CategoryTotal(Capitalize(d[i].key), d[i].value)
  {
    seq(|d|, i requires 0 <= i < |d| => CategoryTotal(Capitalize(d[i].key), d[i].value))
  }

  function SumTotals(s: seq<CategoryTotal>): Cents
  {
    if s == [] then 0 else s[0].value + SumTotals(s[1..])
  }

  lemma {:induction false} LabelSum(d: seq<Entry>)
    ensures SumTotals(Label(d)) == SumValues(d)
  {
    if d != [] {
      var n := |d| - 1;
      assert Label(d) == Label(d[..n]) + [Label(d)[n]];
      LabelSum(d[..n]);
      SumTotalsAppend(Label(d[..n]), [Label(d)[n]]);
    }
  }

  lemma {:induction false} SumTotalsAppend(a: seq<CategoryTotal>, b: seq<CategoryTotal>)
    ensures SumTotals(a + b) == SumTotals(a) + SumTotals(b)
  {
    if a != [] {
      assert (a + b)[1..] == a[1..] + b;
      SumTotalsAppend(a[1..], b);
    } else {
      assert a + b == b;
    }
  }

  predicate SortedDesc(s: seq<CategoryTotal>)
  {
    forall i, j :: 0 <= i < j < |s| ==> s[i].value >= s[j].value
  }

  /** Insert `x` after every element whose value is at least its own. */
  function InsertDesc(x: CategoryTotal, s: seq<CategoryTotal>): (r: seq<CategoryTotal>)
    ensures |r| == |s| + 1
    ensures multiset(r) == multiset(s) + multiset{x}
    ensures SumTotals(r) == SumTotals(s) + x.value
  {
    if s == [] then [x]
    else if s[0].value >= x.value then
      assert s == [s[0]] + s[1..];
      [s[0]] + InsertDesc(x, s[1..])
    else
      [x] + s
  }

  /** Inserting keeps every value under a common bound. */
  lemma {:induction false} InsertDescBounded(x: CategoryTotal, s: seq<CategoryTotal>, b: Cents)
    requires x.value <= b && forall i :: 0 <= i < |s| ==> s[i].value <= b
    ensures forall i :: 0 <= i < |InsertDesc(x, s)| ==> InsertDesc(x, s)[i].value <= b
  {
    if s != [] && s[0].value >= x.value {
      InsertDescBounded(x, s[1..], b);
    }
  }

  lemma {:induction false} InsertDescSorted(x: CategoryTotal, s: seq<CategoryTotal>)
    requires SortedDesc(s)
    ensures SortedDesc(InsertDesc(x, s))
  {
    if s != [] && s[0].value >= x.value {
      InsertDescSorted(x, s[1..]);
      InsertDescBounded(x, s[1..], s[0].value);
    }
  }

  /** `.sort((a, b) => b.value - a.value)`: a stable sort, largest value first. */
  function SortDesc(s: seq<CategoryTotal>): (r: seq<CategoryTotal>)
    ensures SortedDesc(r)
    ensures multiset(r) == multiset(s)
    ensures |r| == |s|
    ensures SumTotals(r) == SumTotals(s)
  {
    if s == [] then []
    else
      var n := |s| - 1;
      assert s == s[..n] + [s[n]];
      SumTotalsAppend(s[..n], [s[n]]);
      InsertDescSorted(s[n], SortDesc(s[..n]));
      InsertDesc(s[n], SortDesc(s[..n]))
  }

  /** The chart data of the dashboard, as a function of the fetched carts
      and the product table. */
  function Chart(carts: seq<Cart>, pm: map<int, Product>): seq<CategoryTotal>
  {
    SortDesc(Label(Tally(CartSales(carts, pm))))
  }

  lemma TallySnoc(a: seq<Sale>, x: Sale)
    ensures Tally(a + [x]) == Credit(Tally(a), x)
  {
    assert (a + [x])[..|a|] == a;
  }

  lemma LineSalesSnoc(lines: seq<Line>, j: nat, pm: map<int, Product>)
    requires j < |lines|
    ensures LineSales(lines[..j + 1], pm) == LineSales(lines[..j], pm) +
      (if lines[j].productId in pm then [Sale(pm[lines[j].productId].category, Amount(pm[lines[j].productId], lines[j]))] else [])
  {
    assert lines[..j + 1][..j] == lines[..j];
  }

  lemma CartSalesSnoc(carts: seq<Cart>, i: nat, pm: map<int, Product>)
    requires i < |carts|
    ensures CartSales(carts[..i + 1], pm) == CartSales(carts[..i], pm) + LineSales(carts[i].products, pm)
  {
    assert carts[..i + 1][..i] == carts[..i];
  }

  /** Crediting one more line of a cart: a resolved line credits its sale,
      an unresolved one leaves the object as it was. */
  lemma CreditLineStep(prior: seq<Sale>, lines: seq<Line>, j: nat, pm: map<int, Product>)
    requires j < |lines|
    ensures Tally(prior + LineSales(lines[..j + 1], pm)) ==
      if lines[j].productId in pm
      then Credit(Tally(prior + LineSales(lines[..j], pm)),
                  Sale(pm[lines[j].productId].category, Amount(pm[lines[j].productId], lines[j])))
      else Tally(prior + LineSales(lines[..j], pm))
  {
    LineSalesSnoc(lines, j, pm);
    var a := prior + LineSales(lines[..j], pm);
    if lines[j].productId in pm {
      var x := Sale(pm[lines[j].productId].category, Amount(pm[lines[j].productId], lines[j]));
      assert prior + LineSales(lines[..j + 1], pm) == a + [x];
      TallySnoc(a, x);
    } else {
      assert prior + LineSales(lines[..j + 1], pm) == a;
    }
  }

  /** The inner `forEach` over one cart's lines: each line whose product
      resolves credits `price * quantity` to its category's property. */
  method CreditLines(categorySales: seq<Entry>, lines: seq<Line>, productMap: map<int, Product>, ghost prior: seq<Sale>)
    returns (updated: seq<Entry>)
    requires categorySales == Tally(prior)
    ensures updated == Tally(prior + LineSales(lines, productMap))
  {
    updated := categorySales;
    var j := 0;
    assert prior + LineSales(lines[..0], productMap) == prior;
    while j < |lines|
      invariant 0 <= j <= |lines|
      invariant updated == Tally(prior + LineSales(lines[..j], productMap))
    {
      var item := lines[j];
      CreditLineStep(prior, lines, j, productMap);
      if item.productId in productMap {
        var product := productMap[item.productId];
        var saleAmount := Amount(product, item);
        updated := Credit(updated, Sale(product.category, saleAmount));
      }
      j := j + 1;
    }
    assert lines[..j] == lines;
  }

  /** The data effect of the category chart: index the products, credit
      every resolved line of every cart to its category's property, then
      label and sort the properties. */
  method CategoryDistribution(carts: seq<Cart>, products: seq<Product>) returns (data: seq<CategoryTotal>)
    ensures data == Chart(carts, IndexBy(products, ProductId))
    ensures SortedDesc(data)
    ensures multiset(data) == multiset(Label(Tally(CartSales(carts, IndexBy(products, ProductId)))))
    ensures SumTotals(data) == TotalOfCarts(carts, IndexBy(products, ProductId))
  {
    var productMap := BuildMap(Keyed(products, ProductId));
    var categorySales: seq<Entry> := [];
    var i := 0;
    while i < |carts|
      invariant 0 <= i <= |carts|
      invariant categorySales == Tally(CartSales(carts[..i], productMap))
    {
      CartSalesSnoc(carts, i, productMap);
      categorySales := CreditLines(categorySales, carts[i].products, productMap, CartSales(carts[..i], productMap));
      i := i + 1;
    }
    assert carts[..i] == carts;
    var entries := Label(categorySales);
    BucketsOfCarts(carts, productMap, "");
    LabelSum(categorySales);
    data := SortDesc(entries);
  }

  /** A cart with one "electronics" line worth 10 and one "Electronics"
      line worth 30. */
  const CaseCart: Cart := Cart(1, 1, Date(2020, 0), [Line(1, 1), Line(2, 3)])
  const CasePrices: map<int, Product> :=
    map[1 := Product(1, "a", 10, "", "electronics", ""), 2 := Product(2, "b", 10, "", "Electronics", "")]

  lemma CaseSales()
    ensures CartSales([CaseCart], CasePrices) == [Sale("electronics", 10), Sale("Electronics", 30)]
  {
    assert [CaseCart][..0] == [];
    assert CaseCart.products[..1] == [Line(1, 1)];
    assert [Line(1, 1)][..0] == [];
  }

  lemma CaseTally()
    ensures Tally([Sale("electronics", 10), Sale("Electronics", 30)]) ==
      [Entry("electronics", 10), Entry("Electronics", 30)]
  {
    var sales := [Sale("electronics", 10), Sale("Electronics", 30)];
    assert sales[..1] == [Sale("electronics", 10)];
    assert [Sale("electronics", 10)][..0] == [];
    var d1 := [Entry("electronics", 10)];
    assert Tally([Sale("electronics", 10)]) == d1;
    assert KeyIndex(d1, "Electronics") == None;
  }

  lemma CaseLabelSort()
    ensures SortDesc(Label([Entry("electronics", 10), Entry("Electronics", 30)])) ==
      [CategoryTotal("Electronics", 30), CategoryTotal("Electronics", 10)]
  {
    var d := [Entry("electronics", 10), Entry("Electronics", 30)];
    assert Capitalize("electronics") == "Electronics";
    assert Capitalize("Electronics") == "Electronics";
    var labelled := [CategoryTotal("Electronics", 10), CategoryTotal("Electronics", 30)];
    assert Label(d) == labelled;
    assert labelled[..1] == [CategoryTotal("Electronics", 10)];
    assert [CategoryTotal("Electronics", 10)][..0] == [];
    assert SortDesc([CategoryTotal("Electronics", 10)]) == [CategoryTotal("Electronics", 10)];
  }

  /** A category some line resolves to has its slice in the chart: the
      capitalised category with that category's sales. */
  lemma ChartHas(carts: seq<Cart>, pm: map<int, Product>, k: string)
    requires Resolves(carts, pm, k)
    ensures CategoryTotal(Capitalize(k), SumFor(CartSales(carts, pm), k)) in Chart(carts, pm)
  {
    var d := Tally(CartSales(carts, pm));
    BucketsOfCarts(carts, pm, k);
    KeyIndexSpec(d, k);
    var i := KeyIndex(d, k).value;
    var t := CategoryTotal(Capitalize(k), SumFor(CartSales(carts, pm), k));
    assert Label(d)[i] == t;
    assert t in multiset(Label(d));
  }

  /** Every slice of the chart is the capitalised name and the sales of a
      category some line resolves to. */
  lemma ChartOnly(carts: seq<Cart>, pm: map<int, Product>, t: CategoryTotal)
    requires t in Chart(carts, pm)
    ensures exists k :: Resolves(carts, pm, k) && t == CategoryTotal(Capitalize(k), SumFor(CartSales(carts, pm), k))
  {
    var d := Tally(CartSales(carts, pm));
    assert t in multiset(Chart(carts, pm));
    assert t in multiset(Label(d));
    var i :| 0 <= i < |Label(d)| && Label(d)[i] == t;
    var k := d[i].key;
    BucketsOfCarts(carts, pm, k);
    KeyIndexSpec(d, k);
    assert KeyIndex(d, k) == Some(i);
  }

  /** The chart has one slice per bucket; each category some line resolves
      to contributes the slice of its capitalised name and its sales, and
      no other slice appears. */
  lemma ChartSlices(carts: seq<Cart>, pm: map<int, Product>)
    ensures |Chart(carts, pm)| == |Tally(CartSales(carts, pm))|
    ensures forall k :: Resolves(carts, pm, k) ==>
      CategoryTotal(Capitalize(k), SumFor(CartSales(carts, pm), k)) in Chart(carts, pm)
    ensures forall t :: t in Chart(carts, pm) ==>
      exists k :: Resolves(carts, pm, k) && t == CategoryTotal(Capitalize(k), SumFor(CartSales(carts, pm), k))
  {
    forall k | Resolves(carts, pm, k)
      ensures CategoryTotal(Capitalize(k), SumFor(CartSales(carts, pm), k)) in Chart(carts, pm)
    {
      ChartHas(carts, pm, k);
    }
    forall t | t in Chart(carts, pm)
      ensures exists k :: Resolves(carts, pm, k) && t == CategoryTotal(Capitalize(k), SumFor(CartSales(carts, pm), k))
    {
      ChartOnly(carts, pm, t);
    }
  }

  /** Capitalising after bucketing: two raw categories that differ only in
      the case of their first letter give two slices with the same label. */
  lemma CaseVariantsStaySeparate()
    ensures Chart([CaseCart], CasePrices) == [CategoryTotal("Electronics", 30), CategoryTotal("Electronics", 10)]
  {
    CaseSales();
    CaseTally();
    CaseLabelSort();
  }

  /** The chart component's state: the slices shown and the loading flag. */
  class DistributionChart {
    var categoryData: seq<CategoryTotal>
    var loading: bool

    constructor ()
      ensures categoryData == [] && loading
    {
      categoryData := [];
      loading := true;
    }

    /** `fetchCategoryData`: with both responses the data becomes the chart
        of the carts; when a request fails the data is kept. Either way the
        loading flag ends false. */
    method FetchCategoryData(carts: Result<seq<Cart>>, products: Result<seq<Product>>)
      modifies this
      ensures !loading
      ensures carts.Ok? && products.Ok? ==> categoryData == Chart(carts.value, IndexBy(products.value, ProductId))
      ensures !(carts.Ok? && products.Ok?) ==> categoryData == old(categoryData)
    {
      if carts.Ok? && products.Ok? {
        categoryData := CategoryDistribution(carts.value, products.value);
      }
      loading := false;
    }
  }
}
