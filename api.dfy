/** The order service of the dashboard: joining carts with their users and
    products, pricing them, generating ids for locally created orders, and
    routing delete and lookup by the length of an order id's decimal text.
    Every response of the remote store is a parameter. */
module Api {
  import opened Wrappers
  import opened Entities
  import opened Lookup
  import opened Decimal

  /** The browser-store key under which the order list is kept. */
  const OrdersKey: string := "orders"

  /** Ids whose decimal text is longer than this are local ones. */
  const RemoteIdDigits: nat := 6

  function Get<V>(m: map<int, V>, k: int): (r: Option<V>)
    ensures r.Some? <==> k in m
    ensures r.Some? ==> r.value == m[k]
  {
    if k in m then Some(m[k]) else None
  }

  /** `productMap[id]?.price || 0`: an unresolved product is priced 0. */
  function PriceOf(pm: map<int, Product>, id: int): Cents
  {
    if id in pm then pm[id].price else 0
  }

  /** `lines.reduce((sum, l) => sum + PriceOf(l.productId) * l.quantity, 0)`. */
  function Total(lines: seq<Line>, pm: map<int, Product>): Cents
  {
    if lines == [] then 0
    else Total(lines[..|lines| - 1], pm) + PriceOf(pm, lines[|lines| - 1].productId) * lines[|lines| - 1].quantity
  }

  lemma {:induction false} TotalAppend(a: seq<Line>, b: seq<Line>, pm: map<int, Product>)
    ensures Total(a + b, pm) == Total(a, pm) + Total(b, pm)
  {
    if b == [] {
      assert a + b == a;
    } else {
      var b' := b[..|b| - 1];
      assert (a + b)[..|a + b| - 1] == a + b';
      assert (a + b)[|a + b| - 1] == b[|b| - 1];
      TotalAppend(a, b', pm);
    }
  }

  /** A line whose product does not resolve contributes nothing: dropping it
      leaves the total as it was. */
  lemma TotalIgnoresUnresolved(a: seq<Line>, l: Line, b: seq<Line>, pm: map<int, Product>)
    requires l.productId !in pm
    ensures Total(a + [l] + b, pm) == Total(a + b, pm)
  {
    TotalAppend(a + [l], b, pm);
    TotalAppend(a, [l], pm);
    TotalAppend(a, b, pm);
    assert [l][..0] == [];
  }

  predicate PricesNonNegative(pm: map<int, Product>)
  {
    forall id :: id in pm ==> pm[id].price >= 0
  }

  predicate QuantitiesNonNegative(lines: seq<Line>)
  {
    forall i :: 0 <= i < |lines| ==> lines[i].quantity >= 0
  }

  /** The total never goes negative when prices and quantities do not. */
  lemma {:induction false} TotalNonNegative(lines: seq<Line>, pm: map<int, Product>)
    requires PricesNonNegative(pm) && QuantitiesNonNegative(lines)
    ensures Total(lines, pm) >= 0
  {
    if lines != [] {
      var l := lines[|lines| - 1];
      TotalNonNegative(lines[..|lines| - 1], pm);
      assert PriceOf(pm, l.productId) >= 0 && l.quantity >= 0;
      assert PriceOf(pm, l.productId) * l.quantity >= 0;
    }
  }

  /** Each raw line with `details: productMap[productId]` added. */
  function DetailLines(lines: seq<Line>, pm: map<int, Product>): (r: seq<OrderLine>)
    ensures |r| == |lines|
  {
    seq(|lines|, i requires 0 <= i < |lines| =>
      OrderLine(lines[i].productId, lines[i].quantity, Get(pm, lines[i].productId)))
  }

  /** `{...cart, user, totalPrice, products: DetailLines}`. */
  function Join(c: Cart, user: Option<User>, pm: map<int, Product>): Order
  {
    Order(c.id, c.userId, c.date, user, Total(c.products, pm), DetailLines(c.products, pm))
  }

  /** One cart of `fetchOrders`, its user looked up in the user table. */
  function Enrich(c: Cart, um: map<int, User>, pm: map<int, Product>): Order
  {
    Join(c, Get(um, c.userId), pm)
  }

  /** `carts.map(Enrich)`. */
  function EnrichAll(carts: seq<Cart>, um: map<int, User>, pm: map<int, Product>): (r: seq<Order>)
    ensures |r| == |carts|
  {
    seq(|carts|, i requires 0 <= i < |carts| => Enrich(carts[i], um, pm))
  }

  /** The raw lines of an enriched order, `details` dropped. */
  function StripLines(ls: seq<OrderLine>): (r: seq<Line>)
    ensures |r| == |ls|
  {
    seq(|ls|, i requires 0 <= i < |ls| => Line(ls[i].productId, ls[i].quantity))
  }

  /** The cart an enriched order was built from. */
  function Strip(o: Order): Cart
  {
    Cart(o.id, o.userId, o.date, StripLines(o.products))
  }

  /** The total as recomputed from an order's own resolved lines. */
  function DetailTotal(ls: seq<OrderLine>): Cents
  {
    if ls == [] then 0
    else
      var l := ls[|ls| - 1];
      DetailTotal(ls[..|ls| - 1]) + (if l.details.Some? then l.details.value.price else 0) * l.quantity
  }

  /** The data-model invariant of an order: its total is the sum over its
      lines of the snapshot price times the quantity. */
  predicate TotalConsistent(o: Order)
  {
    o.totalPrice == DetailTotal(o.products)
  }

  lemma {:induction false} DetailTotalMatches(lines: seq<Line>, pm: map<int, Product>)
    ensures DetailTotal(DetailLines(lines, pm)) == Total(lines, pm)
  {
    if lines != [] {
      var n := |lines| - 1;
      assert DetailLines(lines, pm)[..n] == DetailLines(lines[..n], pm);
      DetailTotalMatches(lines[..n], pm);
    }
  }

  /** A joined order loses nothing of its cart, carries the user it was
      given, snapshots each line's product from the table, and satisfies
      the total invariant. */
  lemma JoinSound(c: Cart, user: Option<User>, pm: map<int, Product>)
    ensures Strip(Join(c, user, pm)) == c
    ensures Join(c, user, pm).user == user
    ensures TotalConsistent(Join(c, user, pm))
    ensures forall i :: 0 <= i < |c.products| ==>
      Join(c, user, pm).products[i].details == Get(pm, c.products[i].productId)
  {
    DetailTotalMatches(c.products, pm);
    assert StripLines(DetailLines(c.products, pm)) == c.products;
  }

  /** `fetchOrders` keeps the carts' length and order; each order is its
      cart enriched with `userMap[userId]`, possibly absent. */
  lemma EnrichAllSound(carts: seq<Cart>, um: map<int, User>, pm: map<int, Product>)
    ensures |EnrichAll(carts, um, pm)| == |carts|
    ensures forall i :: 0 <= i < |carts| ==>
      var o := EnrichAll(carts, um, pm)[i];
      Strip(o) == carts[i] && TotalConsistent(o) && o.user == Get(um, carts[i].userId)
  {
    forall i | 0 <= i < |carts|
      ensures var o := EnrichAll(carts, um, pm)[i];
              Strip(o) == carts[i] && TotalConsistent(o) && o.user == Get(um, carts[i].userId)
    {
      JoinSound(carts[i], Get(um, carts[i].userId), pm);
    }
  }

  /** `fetchOrders`: fetch carts, users and products (any failure fails the
      whole batch), index users and products by id, enrich every cart. */
  method FetchOrders(carts: Result<seq<Cart>>, users: Result<seq<User>>, products: Result<seq<Product>>)
    returns (r: Result<seq<Order>>)
    ensures r.Ok? <==> carts.Ok? && users.Ok? && products.Ok?
    ensures r.Ok? ==>
      r.value == EnrichAll(carts.value, IndexBy(users.value, UserId), IndexBy(products.value, ProductId))
    ensures r.Ok? ==> (|r.value| == |carts.value| &&
      forall i :: 0 <= i < |r.value| ==> Strip(r.value[i]) == carts.value[i] && TotalConsistent(r.value[i]))
  {
    if carts.Err? {
      return Err(carts.error);
    }
    if users.Err? {
      return Err(users.error);
    }
    if products.Err? {
      return Err(products.error);
    }
    var productMap := BuildMap(Keyed(products.value, ProductId));
    var userMap := BuildMap(Keyed(users.value, UserId));
    EnrichAllSound(carts.value, userMap, productMap);
    r := Ok(EnrichAll(carts.value, userMap, productMap));
  }

  /** `productDetails.reduce((acc, response, index) =>
      acc[lines[index].productId] = response.data)`: the i-th response is
      filed under the i-th line's product id. */
  function LineKeyed(lines: seq<Line>, details: seq<Product>): seq<(int, Product)>
    requires |details| == |lines|
  {
    seq(|lines|, i requires 0 <= i < |lines| => (lines[i].productId, details[i]))
  }

  /** Every line's product id is a key of the table built from the
      per-line responses, so every line of such an order is resolved; the
      id maps to the response of the last line that names it. */
  lemma LineKeyedCovers(lines: seq<Line>, details: seq<Product>)
    requires |details| == |lines|
    ensures forall i :: 0 <= i < |lines| ==> lines[i].productId in Assoc(LineKeyed(lines, details))
    ensures forall i :: 0 <= i < |lines| && (forall j :: i < j < |lines| ==> lines[j].productId != lines[i].productId) ==>
      Assoc(LineKeyed(lines, details))[lines[i].productId] == details[i]
  {
    var kvs := LineKeyed(lines, details);
    forall i | 0 <= i < |lines| ensures lines[i].productId in Assoc(kvs) {
      AssocLastWins(kvs, lines[i].productId);
      assert kvs[i].0 == lines[i].productId;
    }
    forall i | 0 <= i < |lines| && (forall j :: i < j < |lines| ==> lines[j].productId != lines[i].productId)
      ensures Assoc(kvs)[lines[i].productId] == details[i]
    {
      var k := lines[i].productId;
      AssocLastWins(kvs, k);
      assert kvs[i].0 == k;
      var m :| 0 <= m < |kvs| && kvs[m].0 == k && Assoc(kvs)[k] == kvs[m].1 &&
               forall j :: m < j < |kvs| ==> kvs[j].0 != k;
      assert kvs[m] == (lines[m].productId, details[m]);
    }
  }

  /** The id `createOrder` assigns, as written: the last nine characters of
      `Date.now()`'s text, then the random number in 1..999 padded to three
      digits, read back by `parseInt`. */
  function GeneratedIdText(now: nat, rnd: nat): (s: string)
    requires 1 <= rnd <= 999
    ensures AllDigits(s)
  {
    var t := TakeLast(ToDecimal(now), 9);
    var u := PadStart(ToDecimal(rnd), 3);
    assert AllDigits(t);
    assert AllDigits(u);
    ParseAppend(t, u);
    t + u
  }

  function GeneratedId(now: nat, rnd: nat): nat
    requires 1 <= rnd <= 999
  {
    ParseDigits(GeneratedIdText(now, rnd))
  }

  /** The generated id is `(now mod 10^9) * 1000 + rnd`, so its last three
      digits are the random part (never 000) and it stays below 10^12. */
  lemma GeneratedIdValue(now: nat, rnd: nat)
    requires 1 <= rnd <= 999
    ensures GeneratedId(now, rnd) == (now % Pow10(9)) * 1000 + rnd
    ensures GeneratedId(now, rnd) % 1000 == rnd
    ensures GeneratedId(now, rnd) < Pow10(12)
  {
    var t := TakeLast(ToDecimal(now), 9);
    var u := PadStart(ToDecimal(rnd), 3);
    var c := now % Pow10(9);
    RandomPart(rnd);
    ClockPart(now);
    ParseAppend(t, u);
    Pow10Values();
    assert GeneratedIdText(now, rnd) == t + u;
    assert GeneratedId(now, rnd) == c * 1000 + rnd;
    ModOfSplit(c, rnd, 1000);
    assert c < Pow10(9);
    assert c * 1000 + rnd < Pow10(9) * 1000 by {
      MulLess(c, Pow10(9) - 1, 1000);
    }
  }

  lemma MulLess(a: nat, b: nat, m: nat)
    requires a <= b
    ensures a * m <= b * m
  {
  }

  lemma Pow10Values()
    ensures Pow10(3) == 1000 && Pow10(6) == 1000000 && Pow10(12) == Pow10(9) * 1000
  {
    assert Pow10(12) == Pow10(9) * Pow10(3) by {
      calc {
        Pow10(12);
        10 * Pow10(11);
        10 * (10 * Pow10(10));
        10 * (10 * (10 * Pow10(9)));
      }
    }
  }

  /** The padded random part has three digits and reads back as `rnd`. */
  lemma RandomPart(rnd: nat)
    requires 1 <= rnd <= 999
    ensures |PadStart(ToDecimal(rnd), 3)| == 3
    ensures AllDigits(PadStart(ToDecimal(rnd), 3))
    ensures ParseDigits(PadStart(ToDecimal(rnd), 3)) == rnd
  {
    ParseToDecimal(rnd);
    DecimalLength(rnd, 3);
    Pow10Values();
    PadStartParse(ToDecimal(rnd), 3);
  }

  lemma ModSmall(a: nat, m: nat)
    requires a < m
    ensures a % m == a
  {
  }

  /** The last nine characters of the clock's text read back as the clock
      modulo 10^9. */
  lemma ClockPart(now: nat)
    ensures AllDigits(TakeLast(ToDecimal(now), 9))
    ensures ParseDigits(TakeLast(ToDecimal(now), 9)) == now % Pow10(9)
  {
    var d := ToDecimal(now);
    ParseToDecimal(now);
    if |d| < 9 {
      DecimalLength(now, 9);
      ModSmall(now, Pow10(9));
      assert TakeLast(d, 9) == d;
    } else {
      ParseSuffix(d, 9);
      assert TakeLast(d, 9) == d[|d| - 9..];
    }
  }

  /** `orderId.toString().length > 6`: the digit-count test that sends an
      order to the local store instead of the remote one. */
  predicate IsLocalId(orderId: nat)
  {
    |ToDecimal(orderId)| > RemoteIdDigits
  }

  lemma LocalIdThreshold(orderId: nat)
    ensures IsLocalId(orderId) <==> orderId >= 1000000
  {
    DecimalLength(orderId, 6);
    assert Pow10(6) == 1000000;
  }

  /** A generated id counts as local exactly when the clock part is at
      least 1000; a clock part below that yields an id of at most six
      digits, which delete and lookup would send to the remote store. */
  lemma GeneratedIdLocality(now: nat, rnd: nat)
    requires 1 <= rnd <= 999
    ensures IsLocalId(GeneratedId(now, rnd)) <==> now % Pow10(9) >= 1000
  {
    GeneratedIdValue(now, rnd);
    LocalIdThreshold(GeneratedId(now, rnd));
  }

  /** Which store a call used, and what it returned. */
  datatype Dispatch<+T> = Dispatch(remoteCalled: bool, result: Result<T>)

  /** `deleteOrder`: a remote delete for ids of at most six digits, nothing
      for longer ones; on success the id itself is returned. */
  function DeleteOrder(orderId: nat, remoteDelete: Outcome): (d: Dispatch<nat>)
    ensures d.remoteCalled <==> orderId < 1000000
    ensures d.result.Ok? ==> d.result.value == orderId
    ensures d.result.Err? <==> d.remoteCalled && remoteDelete.Fail?
  {
    LocalIdThreshold(orderId);
    if !IsLocalId(orderId) then
      Dispatch(true, if remoteDelete.Fail? then Err(remoteDelete.error) else Ok(orderId))
    else
      Dispatch(false, Ok(orderId))
  }

  /** The position of the order found by `orders.find(o => o.id === id)`:
      the first one with the id. */
  function FindIndex(orders: seq<Order>, id: int): (r: Option<nat>)
    ensures r.Some? ==> r.value < |orders| && orders[r.value].id == id &&
                        forall j :: 0 <= j < r.value ==> orders[j].id != id
    ensures r.None? <==> forall j :: 0 <= j < |orders| ==> orders[j].id != id
  {
    if orders == [] then None
    else if orders[0].id == id then Some(0)
    else match FindIndex(orders[1..], id)
      case None => None
      case Some(k) => Some(k + 1)
  }

  /** `orders.find(o => o.id === id)`: the first order with that id. */
  function FindById(orders: seq<Order>, id: int): Option<Order>
  {
    match FindIndex(orders, id)
    case None => None
    case Some(k) => Some(orders[k])
  }

  /** The local branch of `fetchOrderById`. */
  function FromLocalStorage(storage: map<string, seq<Order>>, orderId: nat): (r: Result<Order>)
    ensures r.Ok? <==> (OrdersKey in storage &&
      exists i :: 0 <= i < |storage[OrdersKey]| && storage[OrdersKey][i].id == orderId)
    ensures r.Ok? ==> (r.value.id == orderId &&
      exists i :: 0 <= i < |storage[OrdersKey]| && storage[OrdersKey][i] == r.value &&
                  forall j :: 0 <= j < i ==> storage[OrdersKey][j].id != orderId)
  {
    if OrdersKey in storage then
      match FindById(storage[OrdersKey], orderId)
      case Some(o) => Ok(o)
      case None => Err(NotFoundInLocalStorage)
    else Err(NotFoundInLocalStorage)
  }

  /** `fetchOrderById`: ids longer than six digits are looked up in the
      browser store only; shorter ones are fetched, with the user and each
      line's product, and joined as in `fetchOrders`. */
  method FetchOrderById(orderId: nat, storage: map<string, seq<Order>>,
                        cart: Result<Cart>, user: Result<User>, details: Result<seq<Product>>)
    returns (d: Dispatch<Order>)
    requires cart.Ok? && details.Ok? ==> |details.value| == |cart.value.products|
    ensures d.remoteCalled <==> orderId < 1000000
    ensures !d.remoteCalled ==> d.result == FromLocalStorage(storage, orderId)
    ensures d.remoteCalled ==> (d.result.Ok? <==> cart.Ok? && user.Ok? && details.Ok?)
    ensures d.remoteCalled && d.result.Ok? ==>
      d.result.value == Join(cart.value, Some(user.value), Assoc(LineKeyed(cart.value.products, details.value))) &&
      TotalConsistent(d.result.value) && Strip(d.result.value) == cart.value &&
      forall i :: 0 <= i < |d.result.value.products| ==> d.result.value.products[i].details.Some?
  {
    LocalIdThreshold(orderId);
    if IsLocalId(orderId) {
      return Dispatch(false, FromLocalStorage(storage, orderId));
    }
    if cart.Err? {
      return Dispatch(true, Err(cart.error));
    }
    if user.Err? {
      return Dispatch(true, Err(user.error));
    }
    if details.Err? {
      return Dispatch(true, Err(details.error));
    }
    var productMap := BuildMap(LineKeyed(cart.value.products, details.value));
    LineKeyedCovers(cart.value.products, details.value);
    JoinSound(cart.value, Some(user.value), productMap);
    d := Dispatch(true, Ok(Join(cart.value, Some(user.value), productMap)));
  }

  /** The validated order form as `createOrder` receives it. */
  datatype OrderDraft = OrderDraft(userId: int, date: Date, products: seq<Line>)

  /** The order `createOrder` returns once every request has succeeded:
      the posted cart's response with the generated id, the fetched user,
      the computed total, the resolved lines and the draft's date. */
  function CreatedOrder(draft: OrderDraft, now: nat, rnd: nat, user: User, details: seq<Product>, posted: Cart): Order
    requires 1 <= rnd <= 999
    requires |details| == |draft.products|
  {
    var pm := Assoc(LineKeyed(draft.products, details));
    Order(GeneratedId(now, rnd), posted.userId, draft.date, Some(user),
          Total(draft.products, pm), DetailLines(draft.products, pm))
  }

  /** `createOrder`: generate the id, fetch the user and each line's
      product, price the lines, post the cart, and return the post's
      response with the id, user, total, resolved lines and date replaced. */
  method CreateOrder(draft: OrderDraft, now: nat, rnd: nat,
                     user: Result<User>, details: Result<seq<Product>>, posted: Result<Cart>)
    returns (r: Result<Order>)
    requires 1 <= rnd <= 999
    requires details.Ok? ==> |details.value| == |draft.products|
    ensures r.Ok? <==> user.Ok? && details.Ok? && posted.Ok?
    ensures r.Ok? ==> r.value == CreatedOrder(draft, now, rnd, user.value, details.value, posted.value)
    ensures r.Ok? ==> r.value.id == (now % Pow10(9)) * 1000 + rnd && r.value.id % 1000 == rnd
    ensures r.Ok? ==> (TotalConsistent(r.value) && StripLines(r.value.products) == draft.products &&
      forall i :: 0 <= i < |r.value.products| ==> r.value.products[i].details.Some?)
  {
    var uniqueId := GeneratedId(now, rnd);
    GeneratedIdValue(now, rnd);
    if user.Err? {
      return Err(user.error);
    }
    if details.Err? {
      return Err(details.error);
    }
    var productMap := BuildMap(LineKeyed(draft.products, details.value));
    var totalPrice := Total(draft.products, productMap);
    if posted.Err? {
      return Err(posted.error);
    }
    var c := Cart(uniqueId, posted.value.userId, draft.date, draft.products);
    LineKeyedCovers(draft.products, details.value);
    JoinSound(c, Some(user.value), productMap);
    r := Ok(Order(uniqueId, posted.value.userId, draft.date, Some(user.value),
                  totalPrice, DetailLines(draft.products, productMap)));
  }
}
