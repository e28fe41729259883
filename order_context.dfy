/** The orders provider: the order list shared by the order pages, loaded
    cache-first from the browser store, and kept in the store after every
    change. */
module OrderContext {
  import opened Wrappers
  import opened Entities
  import opened Lookup
  import opened Api

  class OrderProvider {
    var orders: seq<Order>
    var loading: bool
    var selectedOrder: Option<Order>
    /** The browser store, as far as the order list is concerned. */
    var storage: map<string, seq<Order>>

    /** The store holds exactly the list in memory. */
    predicate Synced()
      reads this
    {
      OrdersKey in storage && storage[OrdersKey] == orders
    }

    constructor (initialStorage: map<string, seq<Order>>)
      ensures orders == [] && loading && selectedOrder == None && storage == initialStorage
    {
      orders := [];
      loading := true;
      selectedOrder := None;
      storage := initialStorage;
    }

    /** `loadOrders`: a cached list is taken as it is, without any request;
        otherwise the orders are fetched and, when that succeeds, become
        both the state and the cached value. A failed fetch changes nothing
        but the loading flag, which ends false in every case. */
    method LoadOrders(carts: Result<seq<Cart>>, users: Result<seq<User>>, products: Result<seq<Product>>)
      returns (fetched: bool)
      modifies this
      ensures !loading && selectedOrder == old(selectedOrder)
      ensures fetched <==> OrdersKey !in old(storage)
      ensures !fetched ==> orders == old(storage)[OrdersKey] && storage == old(storage)
      ensures fetched && carts.Ok? && users.Ok? && products.Ok? ==>
        orders == EnrichAll(carts.value, IndexBy(users.value, UserId), IndexBy(products.value, ProductId)) &&
        storage == old(storage)[OrdersKey := orders]
      ensures fetched && !(carts.Ok? && users.Ok? && products.Ok?) ==>
        orders == old(orders) && storage == old(storage)
      ensures !fetched || (carts.Ok? && users.Ok? && products.Ok?) ==> Synced()
    {
      fetched := OrdersKey !in storage;
      if !fetched {
        orders := storage[OrdersKey];
      } else {
        var fetchedOrders := FetchOrders(carts, users, products);
        if fetchedOrders.Ok? {
          orders := fetchedOrders.value;
          storage := storage[OrdersKey := fetchedOrders.value];
        }
      }
      loading := false;
    }

    /** `addOrder`: append the order and write the new list to the store. */
    method AddOrder(newOrder: Order)
      modifies this
      ensures orders == old(orders) + [newOrder]
      ensures storage == old(storage)[OrdersKey := orders]
      ensures loading == old(loading) && selectedOrder == old(selectedOrder)
      ensures Synced()
    {
      var updatedOrders := orders + [newOrder];
      orders := updatedOrders;
      storage := storage[OrdersKey := updatedOrders];
    }

    /** `removeOrder`: when the delete succeeds, drop every order with that
        id, keep the rest in order, write the list to the store and report
        true; when it fails, change nothing and report false. */
    method RemoveOrder(orderId: nat, remoteDelete: Outcome) returns (removed: bool)
      modifies this
      ensures removed <==> !(orderId < 1000000 && remoteDelete.Fail?)
      ensures removed ==> orders == RemoveKey(old(orders), OrderId, orderId) &&
                          storage == old(storage)[OrdersKey := orders] && Synced()
      ensures !removed ==> orders == old(orders) && storage == old(storage)
      ensures loading == old(loading) && selectedOrder == old(selectedOrder)
    {
      var d := DeleteOrder(orderId, remoteDelete);
      if d.result.Err? {
        return false;
      }
      var updatedOrders := RemoveKey(orders, OrderId, orderId);
      orders := updatedOrders;
      storage := storage[OrdersKey := updatedOrders];
      removed := true;
    }

    /** `selectOrder`: only the selection changes. */
    method SelectOrder(order: Option<Order>)
      modifies this
      ensures selectedOrder == order
      ensures orders == old(orders) && loading == old(loading) && storage == old(storage)
    {
      selectedOrder := order;
    }
  }

  /** An order appended under an id no earlier order carries is what the
      local branch of the order lookup returns for that id. */
  lemma AddedOrderIsFound(storage: map<string, seq<Order>>, orders: seq<Order>, o: Order)
    requires o.id >= 0
    requires forall i :: 0 <= i < |orders| ==> orders[i].id != o.id
    ensures FromLocalStorage(storage[OrdersKey := orders + [o]], o.id) == Ok(o)
  {
    var s := storage[OrdersKey := orders + [o]];
    var all := orders + [o];
    assert all[|orders|] == o;
    var r := FromLocalStorage(s, o.id);
    assert r.Ok?;
    var i :| 0 <= i < |all| && all[i] == r.value && forall j :: 0 <= j < i ==> all[j].id != o.id;
    assert i == |orders|;
  }

  /** After a removal the local branch of the order lookup no longer finds
      the removed id. */
  lemma RemovedOrderIsGone(storage: map<string, seq<Order>>, orders: seq<Order>, orderId: nat)
    ensures FromLocalStorage(storage[OrdersKey := RemoveKey(orders, OrderId, orderId)], orderId).Err?
  {
    var rest := RemoveKey(orders, OrderId, orderId);
    assert forall i :: 0 <= i < |rest| ==> OrderId(rest[i]) != orderId;
  }
}
