/**
 * The customer dashboard (src/Pages/DashboardPage.js): days since an
 * order, the refund button's decision chain, the status labels, the
 * requests of an order cancellation, and the newest-first ordering of
 * orders and wishlist.
 */
module Dashboard {
  import opened Common
  import opened Sorting

  /** An item of a placed order; `status` is its delivery status. */
  datatype OrderLine = OrderLine(
    product_id: ProductId,
    name: string,
    price: Money,
    quantity: int,
    status: Option<string>,
    refund_processing: Option<string>)

  /** An order of `order_history`; `created_at` in milliseconds since the epoch. */
  datatype Order = Order(order_number: string, created_at: int, total_price: Money, items: seq<OrderLine>)

  /** An entry of the wishlist; `added_on` in milliseconds since the epoch. */
  datatype WishlistEntry = WishlistEntry(product_id: ProductId, name: string, price: Money, added_on: int)

  // ---------------------------------------------------------------------
  // Days since the order

  const MillisPerDay: int := 1000 * 60 * 60 * 24

  /** `Math.floor((now - created_at) / (1000 * 60 * 60 * 24))`, with both
      instants in milliseconds. */
  function DaysSinceOrder(now: int, createdAt: int): (days: int)
    ensures days * MillisPerDay <= now - createdAt < (days + 1) * MillisPerDay
  {
    (now - createdAt) / MillisPerDay
  }

  /** The floor is the only whole number with that property. */
  lemma DaysSinceOrderUnique(now: int, createdAt: int, d: int)
    requires d * MillisPerDay <= now - createdAt < (d + 1) * MillisPerDay
    ensures d == DaysSinceOrder(now, createdAt)
  {
  }

  /** Later instants never give fewer days. */
  lemma DaysSinceOrderMonotone(now1: int, now2: int, createdAt: int)
    requires now1 <= now2
    ensures DaysSinceOrder(now1, createdAt) <= DaysSinceOrder(now2, createdAt)
  {
  }

  // ---------------------------------------------------------------------
  // Refund button

  datatype RefundButton = RefundButton(disabled: bool, message: string)

  /** The refund statuses that disable the button, whatever the delivery status. */
  predicate RefundSettledOrPending(item: OrderLine)
  {
    item.refund_processing == Some("Processing") || item.refund_processing == Some("Denied")
    || item.refund_processing == Some("Rejected") || item.refund_processing == Some("Complete")
  }

  /** `refundButtonState`: expired, then processing, then denied or
      rejected, then refunded, then delivered, else the button is live. */
  function RefundButtonState(daysSinceOrder: int, item: OrderLine): (b: RefundButton)
    ensures !b.disabled <==>
              daysSinceOrder <= 30 && !RefundSettledOrPending(item) && item.status != Some("Complete")
    ensures !b.disabled <==> b.message == "Request Refund"
    ensures daysSinceOrder > 30 ==> b.message == "Refund Expired"
  {
    if daysSinceOrder > 30 then RefundButton(true, "Refund Expired")
    else if item.refund_processing == Some("Processing") then RefundButton(true, "Refund Processing")
    else if item.refund_processing == Some("Denied") || item.refund_processing == Some("Rejected")
    then RefundButton(true, "Refund Denied")
    else if item.refund_processing == Some("Complete") then RefundButton(true, "Refund Complete")
    else if item.status == Some("Complete") then RefundButton(true, "Delivered")
    else RefundButton(false, "Request Refund")
  }

  /** Past 30 days the button is the same for every item. */
  lemma ExpiryOverridesEverything(daysSinceOrder: int, a: OrderLine, b: OrderLine)
    requires daysSinceOrder > 30
    ensures RefundButtonState(daysSinceOrder, a) == RefundButtonState(daysSinceOrder, b)
  {
  }

  /** The refund status is checked before the delivery status: when it
      settles the button, the delivery status makes no difference. */
  lemma RefundStatusBeforeDelivery(daysSinceOrder: int, item: OrderLine, status: Option<string>)
    requires RefundSettledOrPending(item)
    ensures RefundButtonState(daysSinceOrder, item.(status := status)) == RefundButtonState(daysSinceOrder, item)
  {
  }

  /** A delivered item with no refund under way shows "Delivered" within 30 days. */
  lemma DeliveredItem(daysSinceOrder: int, item: OrderLine)
    requires daysSinceOrder <= 30 && !RefundSettledOrPending(item) && item.status == Some("Complete")
    ensures RefundButtonState(daysSinceOrder, item) == RefundButton(true, "Delivered")
  {
  }

  // ---------------------------------------------------------------------
  // Status labels

  /** `value || fallback` on a string field. */
  function OrDefault(value: Option<string>, fallback: string): (shown: string)
    ensures value.Some? && value.value != "" ==> shown == value.value
    ensures value.None? || value.value == "" ==> shown == fallback
  {
    if value.Some? && value.value != "" then value.value else fallback
  }

  /** The delivery status column: "Pending" when the item has none. */
  function DeliveryStatusLabel(item: OrderLine): (shown: string)
    ensures shown != ""
    ensures shown == "Pending" <==> item.status.None? || item.status.value in {"", "Pending"}
  {
    OrDefault(item.status, "Pending")
  }

  /** The refund status column: "N/A" when the item has none. */
  function RefundStatusLabel(item: OrderLine): (shown: string)
    ensures shown != ""
    ensures shown == "N/A" <==> item.refund_processing.None? || item.refund_processing.value in {"", "N/A"}
  {
    OrDefault(item.refund_processing, "N/A")
  }

  // ---------------------------------------------------------------------
  // Cancelling an order

  datatype CancelRequest =
    | IncreaseStock(product_id: ProductId, quantity: int)        // PATCH /products/stock/increase/:id
    | DecreasePopularity(product_id: ProductId, quantity: int)   // PATCH /products/popularity/decrease/:id
    | RemoveOrder(order_number: string)                          // DELETE /orders/remove/:number

  /** `!item.refund_processing || item.refund_processing !== "Complete"`: the item was not refunded. */
  predicate NeedsRestock(item: OrderLine)
  {
    item.refund_processing.None? || item.refund_processing.value != "Complete"
  }

  function RestockRequestsFor(item: OrderLine): seq<CancelRequest>
  {
    if NeedsRestock(item) then [IncreaseStock(item.product_id, item.quantity), DecreasePopularity(item.product_id, item.quantity)]
    else []
  }

  /** The requests of the restock loop. */
  function RestockRequests(items: seq<OrderLine>): seq<CancelRequest>
  {
    if items == [] then [] else RestockRequests(items[..|items| - 1]) + RestockRequestsFor(items[|items| - 1])
  }

  /** The items that were not refunded, in order. */
  function Unrefunded(items: seq<OrderLine>): (r: seq<OrderLine>)
    ensures forall x :: x in r <==> x in items && x.refund_processing != Some("Complete")
  {
    if items == [] then []
    else
      var last := items[|items| - 1];
      assert forall x :: x in items <==> x in items[..|items| - 1] || x == last by {
        assert items == items[..|items| - 1] + [last];
      }
      Unrefunded(items[..|items| - 1]) + (if NeedsRestock(last) then [last] else [])
  }

  /** Restock and popularity requests go out exactly for the items not
      refunded, in item order, each for the item's quantity. */
  lemma {:induction false} RestockRequestsAreUnrefunded(items: seq<OrderLine>)
    ensures |RestockRequests(items)| == 2 * |Unrefunded(items)|
    ensures forall k :: 0 <= k < |Unrefunded(items)| ==>
              RestockRequests(items)[2 * k] == IncreaseStock(Unrefunded(items)[k].product_id, Unrefunded(items)[k].quantity)
              && RestockRequests(items)[2 * k + 1] == DecreasePopularity(Unrefunded(items)[k].product_id, Unrefunded(items)[k].quantity)
  {
    if items != [] {
      var prefix, last := items[..|items| - 1], items[|items| - 1];
      RestockRequestsAreUnrefunded(prefix);
      RestockPairsExtend(RestockRequests(prefix), Unrefunded(prefix), last);
    }
  }

  /** `requests` holds, pair by pair, the two requests of each item of `restocked`. */
  predicate RestockPairs(requests: seq<CancelRequest>, restocked: seq<OrderLine>)
  {
    |requests| == 2 * |restocked|
    && forall k :: 0 <= k < |restocked| ==>
         requests[2 * k] == IncreaseStock(restocked[k].product_id, restocked[k].quantity)
         && requests[2 * k + 1] == DecreasePopularity(restocked[k].product_id, restocked[k].quantity)
  }

  /** One more item keeps the pairing. */
  lemma RestockPairsExtend(requests: seq<CancelRequest>, restocked: seq<OrderLine>, item: OrderLine)
    requires RestockPairs(requests, restocked)
    ensures RestockPairs(requests + RestockRequestsFor(item),
                         restocked + (if NeedsRestock(item) then [item] else []))
  {
    if NeedsRestock(item) {
      var r, u := requests + RestockRequestsFor(item), restocked + [item];
      forall k | 0 <= k < |u|
        ensures r[2 * k] == IncreaseStock(u[k].product_id, u[k].quantity)
        ensures r[2 * k + 1] == DecreasePopularity(u[k].product_id, u[k].quantity)
      {
        if k < |restocked| {
          assert u[k] == restocked[k] && r[2 * k] == requests[2 * k] && r[2 * k + 1] == requests[2 * k + 1];
        }
      }
    } else {
      assert requests + RestockRequestsFor(item) == requests;
      assert restocked + [] == restocked;
    }
  }

  /** A refunded item is never restocked. */
  lemma {:induction false} RefundedItemNotRestocked(items: seq<OrderLine>, req: CancelRequest)
    requires req in RestockRequests(items)
    ensures !req.RemoveOrder?
    ensures exists x :: x in items && x.product_id == req.product_id && x.refund_processing != Some("Complete")
  {
    var prefix := items[..|items| - 1];
    var last := items[|items| - 1];
    assert last in items;
    if req in RestockRequests(prefix) {
      RefundedItemNotRestocked(prefix, req);
      forall x | x in prefix ensures x in items {
        assert items == prefix + [last];
      }
    }
  }

  lemma {:induction false} RestockRequestsAppend(a: seq<OrderLine>, b: seq<OrderLine>)
    ensures RestockRequests(a + b) == RestockRequests(a) + RestockRequests(b)
    decreases |b|
  {
    if b == [] {
      assert a + b == a;
    } else {
      assert (a + b)[..|a + b| - 1] == a + b[..|b| - 1];
      RestockRequestsAppend(a, b[..|b| - 1]);
    }
  }

  lemma RestockRequestsStep(items: seq<OrderLine>, i: nat)
    requires i < |items|
    ensures RestockRequests(items[..i + 1]) == RestockRequests(items[..i]) + RestockRequestsFor(items[i])
    ensures RestockRequests(items[..i]) + RestockRequestsFor(items[i]) <= RestockRequests(items)
  {
    PrefixStep(items, i);
    RestockRequestsSnoc(items[..i], items[i]);
    RestockRequestsPrefix(items[..i + 1], items[i + 1..]);
  }

  /** One more item adds its own requests at the end. */
  lemma RestockRequestsSnoc(pre: seq<OrderLine>, item: OrderLine)
    ensures RestockRequests(pre + [item]) == RestockRequests(pre) + RestockRequestsFor(item)
  {
    assert (pre + [item])[..|pre|] == pre;
  }

  /** The requests of a prefix begin the requests of the whole list. */
  lemma RestockRequestsPrefix(pre: seq<OrderLine>, post: seq<OrderLine>)
    ensures RestockRequests(pre) <= RestockRequests(pre + post)
  {
    RestockRequestsAppend(pre, post);
    PrefixOfAppend(RestockRequests(pre), RestockRequests(post));
  }

  /** Everything `handleCancelOrder` would send if every request succeeded. */
  function CancelPlan(order: Order): seq<CancelRequest>
  {
    RestockRequests(order.items) + [RemoveOrder(order.order_number)]
  }

  /** The loop body for one item, after `sent` went out; `failAt` is the
      position of the first request the backend rejects. */
  method SendItemRequests(sent: seq<CancelRequest>, item: OrderLine, failAt: Option<nat>)
    returns (after: seq<CancelRequest>, ok: bool)
    requires failAt.None? || failAt.value >= |sent|
    ensures ok <==> failAt.None? || failAt.value >= |sent + RestockRequestsFor(item)|
    ensures ok ==> after == sent + RestockRequestsFor(item)
    ensures !ok ==> after <= sent + RestockRequestsFor(item) && |after| == failAt.value + 1
  {
    after := sent;
    if item.refund_processing.None? || item.refund_processing.value != "Complete" {
      after := after + [IncreaseStock(item.product_id, item.quantity)];
      if failAt == Some(|after| - 1) {
        return after, false;
      }
      after := after + [DecreasePopularity(item.product_id, item.quantity)];
      if failAt == Some(|after| - 1) {
        return after, false;
      }
    }
    ok := true;
  }

  /** The restock loop of `handleCancelOrder`, stopping at the first rejected request. */
  method SendRestockRequests(items: seq<OrderLine>, failAt: Option<nat>) returns (sent: seq<CancelRequest>, ok: bool)
    ensures ok <==> failAt.None? || failAt.value >= |RestockRequests(items)|
    ensures ok ==> sent == RestockRequests(items)
    ensures !ok ==> sent == RestockRequests(items)[..failAt.value + 1]
  {
    sent := [];
    var i := 0;
    while i < |items|
      invariant 0 <= i <= |items|
      invariant sent == RestockRequests(items[..i])
      invariant failAt.None? || failAt.value >= |sent|
    {
      RestockRequestsStep(items, i);
      var itemOk;
      sent, itemOk := SendItemRequests(sent, items[i], failAt);
      if !itemOk {
        assert sent <= RestockRequests(items);
        return sent, false;
      }
      i := i + 1;
    }
    assert items[..i] == items;
    ok := true;
  }

  const CancelledAlert := "Order canceled successfully."
  const CancelFailedAlert := "Failed to cancel order."

  // ---------------------------------------------------------------------
  // Ordering

  /** `(a, b) => b.created_at - a.created_at`, read as "a may stay before b". */
  function NewestOrderFirst(): (before: (Order, Order) -> bool)
    ensures forall a, b :: before(a, b) <==> a.created_at >= b.created_at
  {
    (a: Order, b: Order) => b.created_at - a.created_at <= 0
  }

  /** `(a, b) => b.added_on - a.added_on`. */
  function NewestEntryFirst(): (before: (WishlistEntry, WishlistEntry) -> bool)
    ensures forall a, b :: before(a, b) <==> a.added_on >= b.added_on
  {
    (a: WishlistEntry, b: WishlistEntry) => b.added_on - a.added_on <= 0
  }

  /** Sorting with a comparator that compares a key in reverse lists the largest keys first. */
  lemma SortedByKeyDescending<T>(s: seq<T>, le: (T, T) -> bool, key: T -> int, i: nat, j: nat)
    requires forall a, b {:trigger le(a, b)} :: le(a, b) <==> key(b) - key(a) <= 0
    requires i < j < |SortBy(s, le)|
    ensures key(SortBy(s, le)[i]) >= key(SortBy(s, le)[j])
  {
    assert TotalOn(le, s) by {
      forall x, y | 0 <= x < |s| && 0 <= y < |s| ensures le(s[x], s[y]) || le(s[y], s[x]) {
      }
    }
    SortBySorted(s, le);
    forall a, b, c | le(a, b) && le(b, c) ensures le(a, c) {
    }
    var r := SortBy(s, le);
    SortedPairwise(r, le, i, j);
    KeyOrdered(le, key, r[i], r[j]);
  }

  lemma KeyOrdered<T>(le: (T, T) -> bool, key: T -> int, x: T, y: T)
    requires forall a, b {:trigger le(a, b)} :: le(a, b) <==> key(b) - key(a) <= 0
    requires le(x, y)
    ensures key(x) >= key(y)
  {
  }

  /** The orders are shown newest first. */
  lemma OrdersNewestFirst(orders: seq<Order>, i: nat, j: nat)
    requires i < j < |orders|
    ensures SortBy(orders, NewestOrderFirst())[i].created_at >= SortBy(orders, NewestOrderFirst())[j].created_at
  {
    SortedByKeyDescending(orders, NewestOrderFirst(), (o: Order) => o.created_at, i, j);
  }

  /** The wishlist is shown newest first. */
  lemma WishlistNewestFirst(wishlist: seq<WishlistEntry>, i: nat, j: nat)
    requires i < j < |wishlist|
    ensures SortBy(wishlist, NewestEntryFirst())[i].added_on >= SortBy(wishlist, NewestEntryFirst())[j].added_on
  {
    SortedByKeyDescending(wishlist, NewestEntryFirst(), (w: WishlistEntry) => w.added_on, i, j);
  }

  class Page {
    var orders: seq<Order>
    var wishlist: seq<WishlistEntry>

    constructor ()
      ensures orders == [] && wishlist == []
    {
      orders := [];
      wishlist := [];
    }

    /** `fetchData`: orders, then the wishlist, each sorted newest first. A
        failed request stops the rest. */
    method FetchData(ordersResponse: Response<seq<Order>>, wishlistResponse: Response<seq<WishlistEntry>>)
      modifies this
      ensures ordersResponse.Ok? ==> orders == SortBy(ordersResponse.value, NewestOrderFirst())
      ensures ordersResponse.Err? ==> orders == old(orders)
      ensures ordersResponse.Ok? && wishlistResponse.Ok? ==>
                wishlist == SortBy(wishlistResponse.value, NewestEntryFirst())
      ensures !(ordersResponse.Ok? && wishlistResponse.Ok?) ==> wishlist == old(wishlist)
    {
      if ordersResponse.Err? {
        return;
      }
      orders := SortBy(ordersResponse.value, NewestOrderFirst());
      if wishlistResponse.Err? {
        return;
      }
      wishlist := SortBy(wishlistResponse.value, NewestEntryFirst());
    }

    /** `handleCancelOrder`: restock the items not refunded, delete the
        order, then show the refetched history as the backend sends it (it is
        not sorted again). `failAt` is the position of the first request the
        backend rejects; `refetched` is the answer to the refetch. */
    method HandleCancelOrder(order: Order, failAt: Option<nat>, refetched: Response<seq<Order>>)
      returns (sent: seq<CancelRequest>, alerts: seq<string>)
      modifies this`orders
      ensures sent == (if failAt.Some? && failAt.value < |CancelPlan(order)|
                       then CancelPlan(order)[..failAt.value + 1] else CancelPlan(order))
      ensures failAt.Some? && failAt.value < |CancelPlan(order)| ==>
                alerts == [CancelFailedAlert] && orders == old(orders)
      ensures !(failAt.Some? && failAt.value < |CancelPlan(order)|) && refetched.Ok? ==>
                alerts == [CancelledAlert] && orders == refetched.value
      ensures !(failAt.Some? && failAt.value < |CancelPlan(order)|) && refetched.Err? ==>
                alerts == [CancelledAlert, CancelFailedAlert] && orders == old(orders)
    {
      alerts := [];
      var ok;
      sent, ok := SendRestockRequests(order.items, failAt);
      if !ok {
        alerts := [CancelFailedAlert];
        return;
      }
      sent := sent + [RemoveOrder(order.order_number)];
      if failAt == Some(|sent| - 1) {
        alerts := [CancelFailedAlert];
        return;
      }
      alerts := [CancelledAlert];
      match refetched
      case Ok(history) =>
        orders := history;
      case Err(_) =>
        alerts := alerts + [CancelFailedAlert];
    }
  }
}
