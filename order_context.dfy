/**
 * The orders provider (src/context/OrderContext.tsx): it loads the signed-in
 * user's orders and, after the matching remote write succeeds, cancels (a map
 * over the list) or deletes (a filter of the list) an order locally.  The
 * remote reads and writes are outcome parameters.
 */
module OrderContext {
  import opened Domain
  import Seqs

  const LoadFailed := "Failed to load orders. Please try again later."
  const CancelFailed := "Failed to cancel order. Please try again."
  const DeleteFailed := "Failed to delete order. Please try again."

  /** The orders after cancelling `id`: those with that id become cancelled, nothing else changes. */
  function CancelOrders(orders: seq<Order>, id: string): (r: seq<Order>)
    ensures |r| == |orders|
    ensures forall i :: 0 <= i < |orders| && orders[i].id == id ==> r[i] == orders[i].(status := Cancelled)
    ensures forall i :: 0 <= i < |orders| && orders[i].id != id ==> r[i] == orders[i]
  {
    if orders == [] then []
    else
      var head := if orders[0].id == id then orders[0].(status := Cancelled) else orders[0];
      [head] + CancelOrders(orders[1..], id)
  }

  /** Cancelling the same id twice is cancelling it once. */
  lemma CancelIdempotent(orders: seq<Order>, id: string)
    ensures CancelOrders(CancelOrders(orders, id), id) == CancelOrders(orders, id)
  {
  }

  /** Cancelling two ids gives the same list in either order. */
  lemma CancelCommutes(orders: seq<Order>, id1: string, id2: string)
    ensures CancelOrders(CancelOrders(orders, id1), id2) == CancelOrders(CancelOrders(orders, id2), id1)
  {
  }

  function OtherOrder(id: string): Order -> bool
  {
    (o: Order) => o.id != id
  }

  /** The orders after deleting `id`: every order with another id, in order. */
  function DeleteOrders(orders: seq<Order>, id: string): (r: seq<Order>)
    ensures forall i :: 0 <= i < |r| ==> r[i].id != id
    ensures forall o :: o in r <==> o in orders && o.id != id
    ensures Seqs.IsSubsequence(r, orders)
    ensures forall o: Order :: o.id != id ==> multiset(r)[o] == multiset(orders)[o]
  {
    Seqs.FilterCounts(OtherOrder(id), orders);
    Seqs.Filter(OtherOrder(id), orders)
  }

  /** Deleting an order that was cancelled first leaves the same list as deleting it outright. */
  lemma {:induction false} DeleteAfterCancel(orders: seq<Order>, id: string)
    ensures DeleteOrders(CancelOrders(orders, id), id) == DeleteOrders(orders, id)
  {
    if orders != [] {
      DeleteAfterCancel(orders[1..], id);
      assert CancelOrders(orders, id)[1..] == CancelOrders(orders[1..], id);
    }
  }

  class OrdersProvider {
    /** The signed-in user's id, if any. */
    var user: Option<string>
    var orders: seq<Order>
    var loading: bool
    var error: Option<string>

    constructor (user: Option<string>)
      ensures this.user == user && orders == [] && loading && error == None
    {
      this.user := user;
      orders, loading, error := [], true, None;
    }

    /** `fetchOrders`; `result` is the user's orders, or `None` when the query failed. */
    method FetchOrders(result: Option<seq<Order>>)
      modifies this`orders, this`loading, this`error
      ensures user.None? ==> orders == old(orders) && loading == old(loading) && error == old(error)
      ensures user.Some? && result.Some? ==> orders == result.value && error == None && !loading
      ensures user.Some? && result.None? ==> orders == old(orders) && error == Some(LoadFailed) && !loading
    {
      if user.None? {
        return;
      }
      loading := true;
      if result.Some? {
        orders := result.value;
        error := None;
      } else {
        error := Some(LoadFailed);
      }
      loading := false;
    }

    /** `handleCancelOrder`; `writeOk` is the outcome of the status update. */
    method CancelOrder(id: string, writeOk: bool)
      modifies this`orders, this`error
      ensures writeOk ==> orders == CancelOrders(old(orders), id) && error == old(error)
      ensures !writeOk ==> orders == old(orders) && error == Some(CancelFailed)
    {
      if writeOk {
        orders := CancelOrders(orders, id);
      } else {
        error := Some(CancelFailed);
      }
    }

    /** `handleDeleteOrder`; `writeOk` is the outcome of the remote delete. */
    method DeleteOrder(id: string, writeOk: bool)
      modifies this`orders, this`error
      ensures writeOk ==> orders == DeleteOrders(old(orders), id) && error == old(error)
      ensures !writeOk ==> orders == old(orders) && error == Some(DeleteFailed)
    {
      if writeOk {
        orders := DeleteOrders(orders, id);
      } else {
        error := Some(DeleteFailed);
      }
    }
  }
}
