/** The new-order form: a customer, a list of product lines that never
    becomes empty, and a submit that creates the order through the order
    service and hands it to the orders provider. */
module NewOrder {
  import opened Wrappers
  import opened Entities
  import opened Api
  import opened OrderContext

  /** One product line of the form; an unselected product or an emptied
      quantity field is `None`. */
  datatype FormLine = FormLine(productId: Option<int>, quantity: Option<int>)

  /** The form's values; an unselected customer is `None`. */
  datatype OrderValues = OrderValues(userId: Option<int>, products: seq<FormLine>, date: Date)

  /** The line the form starts with and "Add Product" appends. */
  const BlankLine: FormLine := FormLine(None, Some(1))

  function InitialValues(today: Date): OrderValues
  {
    OrderValues(None, [BlankLine], today)
  }

  const CustomerRequired: string := "Customer is required"
  const ProductRequired: string := "Product is required"
  const QuantityRequired: string := "Quantity is required"
  const QuantityTooLow: string := "Quantity must be at least 1"
  const QuantityTooHigh: string := "Quantity cannot exceed 100"
  const LinesRequired: string := "At least one product is required"

  const CreatedMessage: string := "Order created successfully!"
  const FailedMessage: string := "Failed to create order. Please try again."

  /** The messages `OrderSchema` reports for one line. */
  function LineErrors(l: FormLine): seq<string>
  {
    (if l.productId.None? then [ProductRequired] else []) +
    (match l.quantity
     case None => [QuantityRequired]
     case Some(q) => if q < 1 then [QuantityTooLow] else if q > 100 then [QuantityTooHigh] else [])
  }

  /** The messages of all lines, line after line. */
  function LinesErrors(ls: seq<FormLine>): seq<string>
  {
    if ls == [] then [] else LineErrors(ls[0]) + LinesErrors(ls[1..])
  }

  /** `OrderSchema`: every message the form's values give rise to; the
      form can be submitted when there is none. */
  function OrderErrors(v: OrderValues): seq<string>
  {
    (if v.userId.None? then [CustomerRequired] else []) +
    (if |v.products| < 1 then [LinesRequired] else []) +
    LinesErrors(v.products)
  }

  predicate LineComplete(l: FormLine)
  {
    l.productId.Some? && l.quantity.Some? && 1 <= l.quantity.value <= 100
  }

  lemma {:induction false} LinesErrorsIff(ls: seq<FormLine>)
    ensures LinesErrors(ls) == [] <==> forall i :: 0 <= i < |ls| ==> LineComplete(ls[i])
  {
    if ls != [] {
      LinesErrorsIff(ls[1..]);
      if forall i :: 0 <= i < |ls| ==> LineComplete(ls[i]) {
        assert forall i :: 0 <= i < |ls[1..]| ==> ls[1..][i] == ls[i + 1];
      } else if LineComplete(ls[0]) {
        var i :| 0 <= i < |ls| && !LineComplete(ls[i]);
        assert ls[1..][i - 1] == ls[i];
      }
    }
  }

  /** A form passes the schema exactly when a customer is selected, there
      is at least one line, and every line has a product and a quantity
      from 1 to 100. */
  lemma OrderErrorsIff(v: OrderValues)
    ensures OrderErrors(v) == [] <==>
      v.userId.Some? && |v.products| >= 1 &&
      forall i :: 0 <= i < |v.products| ==> LineComplete(v.products[i])
  {
    LinesErrorsIff(v.products);
  }

  /** The form as it opens reports exactly a missing customer and a missing
      product. */
  lemma InitialValuesErrors(today: Date)
    ensures OrderErrors(InitialValues(today)) == [CustomerRequired, ProductRequired]
  {
    assert [BlankLine][1..] == [];
    assert LineErrors(BlankLine) == [ProductRequired];
    assert LinesErrors([BlankLine]) == LineErrors(BlankLine) + LinesErrors([]);
  }

  /** The values as `createOrder` reads them, once the schema has passed. */
  function DraftOf(v: OrderValues): OrderDraft
    requires OrderErrors(v) == []
  {
    OrderErrorsIff(v);
    OrderDraft(v.userId.value, v.date,
      seq(|v.products|, i requires 0 <= i < |v.products| =>
        Line(v.products[i].productId.value, v.products[i].quantity.value)))
  }

  class OrderForm {
    /** The values the form opened with, which `resetForm()` restores. */
    const initial: OrderValues
    var values: OrderValues

    /** The line list is not empty. */
    predicate HasLine()
      reads this
    {
      |values.products| >= 1
    }

    constructor (today: Date)
      ensures initial == InitialValues(today) && values == initial && HasLine()
    {
      initial := InitialValues(today);
      values := InitialValues(today);
    }

    method SelectCustomer(userId: Option<int>)
      modifies this
      ensures values == old(values).(userId := userId)
    {
      values := values.(userId := userId);
    }

    method SelectProduct(i: nat, productId: Option<int>)
      requires i < |values.products|
      modifies this
      ensures values == old(values).(products := old(values).products[i := old(values).products[i].(productId := productId)])
    {
      values := values.(products := values.products[i := values.products[i].(productId := productId)]);
    }

    method SetQuantity(i: nat, quantity: Option<int>)
      requires i < |values.products|
      modifies this
      ensures values == old(values).(products := old(values).products[i := old(values).products[i].(quantity := quantity)])
    {
      values := values.(products := values.products[i := values.products[i].(quantity := quantity)]);
    }

    /** "Add Product": append a blank line. */
    method PushLine()
      modifies this
      ensures values == old(values).(products := old(values).products + [BlankLine])
      ensures HasLine()
    {
      values := values.(products := values.products + [BlankLine]);
    }

    /** "Remove": offered only while there is more than one line, so the
        list never becomes empty. */
    method RemoveLine(i: nat)
      requires |values.products| > 1 && i < |values.products|
      modifies this
      ensures values == old(values).(products := old(values).products[..i] + old(values).products[i + 1..])
      ensures HasLine()
    {
      values := values.(products := values.products[..i] + values.products[i + 1..]);
    }

    /** `handleSubmit`, reached only when the schema passes: the order is
        created from the values; on success it is handed to the provider's
        `addOrder` once and the form is reset to the values it opened with,
        on failure the provider and the form stay as they were. The message
        is the alert shown. */
    method HandleSubmit(now: nat, rnd: nat, user: Result<User>, details: Result<seq<Product>>,
                        posted: Result<Cart>, provider: OrderProvider)
      returns (message: Option<string>)
      requires 1 <= rnd <= 999
      requires details.Ok? ==> |details.value| == |values.products|
      modifies this, provider
      ensures OrderErrors(old(values)) != [] ==>
        values == old(values) && message == None &&
        provider.orders == old(provider.orders) && provider.storage == old(provider.storage)
      ensures OrderErrors(old(values)) == [] && user.Ok? && details.Ok? && posted.Ok? ==>
        provider.orders == old(provider.orders) + [CreatedOrder(DraftOf(old(values)), now, rnd, user.value, details.value, posted.value)] &&
        provider.storage == old(provider.storage)[OrdersKey := provider.orders] && provider.Synced() &&
        values == initial && message == Some(CreatedMessage)
      ensures OrderErrors(old(values)) == [] && !(user.Ok? && details.Ok? && posted.Ok?) ==>
        values == old(values) && message == Some(FailedMessage) &&
        provider.orders == old(provider.orders) && provider.storage == old(provider.storage)
      ensures provider.loading == old(provider.loading) && provider.selectedOrder == old(provider.selectedOrder)
    {
      if OrderErrors(values) != [] {
        return None;
      }
      var draft := DraftOf(values);
      var newOrder := CreateOrder(draft, now, rnd, user, details, posted);
      if newOrder.Err? {
        return Some(FailedMessage);
      }
      provider.AddOrder(newOrder.value);
      values := initial;
      message := Some(CreatedMessage);
    }
  }
}
