/**
 * The order history on the profile page (src/pages/protected/Profile.tsx):
 * four tabs, each listing the orders it selects and counting them, a cancel
 * button on pending orders and a short heading per order.
 */
module Profile {
  import opened Domain
  import Seqs
  import Text
  import OrderContext

  /** The tabs: every order, or the orders of one status. */
  datatype OrderTab = AllOrders | StatusTab(status: OrderStatus)

  function OrderTabTest(tab: OrderTab): Order -> bool
  {
    (o: Order) => tab.AllOrders? || o.status == tab.status
  }

  /** The provider's list, with a missing list read as empty. */
  function OrderList(orders: Option<seq<Order>>): seq<Order>
  {
    if orders.Some? then orders.value else []
  }

  /** `filteredOrders` for a tab; its length is the count on that tab's button. */
  function FilteredOrders(orders: Option<seq<Order>>, tab: OrderTab): (r: seq<Order>)
    ensures orders.None? ==> r == []
    ensures Seqs.IsSubsequence(r, OrderList(orders))
    ensures tab.StatusTab? ==> forall o :: o in r <==> o in OrderList(orders) && o.status == tab.status
    ensures tab.StatusTab? ==>
      forall o :: multiset(r)[o] == if o.status == tab.status then multiset(OrderList(orders))[o] else 0
  {
    Seqs.FilterCounts(OrderTabTest(tab), OrderList(orders));
    Seqs.Filter(OrderTabTest(tab), OrderList(orders))
  }

  /** The "all" tab lists every order in order. */
  lemma AllTabShowsEverything(orders: Option<seq<Order>>)
    ensures FilteredOrders(orders, AllOrders) == OrderList(orders)
  {
    Seqs.FilterKeepsAll(OrderTabTest(AllOrders), OrderList(orders));
  }

  /** The three status counts add up to the "all" count. */
  lemma CountsAddUp(orders: Option<seq<Order>>)
    ensures |FilteredOrders(orders, AllOrders)| ==
      |FilteredOrders(orders, StatusTab(Pending))| + |FilteredOrders(orders, StatusTab(Completed))|
      + |FilteredOrders(orders, StatusTab(Cancelled))|
  {
    AllTabShowsEverything(orders);
    StatusCountsAddUp(OrderList(orders));
  }

  lemma {:induction false} StatusCountsAddUp(s: seq<Order>)
    ensures |s| ==
      |Seqs.Filter(OrderTabTest(StatusTab(Pending)), s)| + |Seqs.Filter(OrderTabTest(StatusTab(Completed)), s)|
      + |Seqs.Filter(OrderTabTest(StatusTab(Cancelled)), s)|
  {
    if s != [] {
      StatusCountsAddUp(s[1..]);
    }
  }

  /** The cancel button shows exactly on pending orders. */
  function ShowCancelButton(order: Order): (shown: bool)
    ensures shown <==> order.status != Completed && order.status != Cancelled
  {
    order.status == Pending
  }

  /** After a successful cancel, no order with that id offers the cancel button. */
  lemma CancelledHidesButton(orders: seq<Order>, id: string)
    ensures forall o :: o in OrderContext.CancelOrders(orders, id) && o.id == id ==> !ShowCancelButton(o)
  {
    var r := OrderContext.CancelOrders(orders, id);
    forall o | o in r && o.id == id
      ensures !ShowCancelButton(o)
    {
      var i :| 0 <= i < |r| && r[i] == o;
      assert orders[i].id == id;
    }
  }

  /** The heading: "Order #" and the id's first eight characters, upper-cased. */
  function OrderHeading(id: string): (h: string)
    ensures var n := if |id| < 8 then |id| else 8;
      |h| == 7 + n && h[..7] == "Order #" && forall i :: 0 <= i < n ==> h[7 + i] == Text.UpperChar(id[i])
  {
    var n := if |id| < 8 then |id| else 8;
    "Order #" + Text.Upper(id[..n])
  }
}
