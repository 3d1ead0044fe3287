/** Projecting stored orders for display: the progress bar and status line
    of the single-order view and of the order history, the history's
    newest-first order, and the bill both views recompute from the items. */
module OrderStatus {
  import opened Wrappers
  import opened CartModel
  import opened Pricing
  import opened Checkout

  /** A progress value, already parsed from the stored text, clamped to
      the range 0 to 100. */
  function Progress(p: int): (r: int)
    ensures 0 <= r <= 100
    ensures 0 <= p <= 100 ==> r == p
    ensures p < 0 ==> r == 0
    ensures p > 100 ==> r == 100
  {
    if p < 0 then 0 else if p > 100 then 100 else p
  }

  /** One order card of the history list. */
  datatype StatusView = StatusView(isInProgress: bool, progress: int, message: string)

  /** The status of an order in the history list. */
  function HistoryStatus(pendingStatus: int, dineIn: bool): (v: StatusView)
    ensures 0 <= v.progress <= 100
    ensures v.isInProgress <==> pendingStatus < 100
    ensures v.isInProgress ==> v.progress == Progress(pendingStatus)
    ensures v.isInProgress ==> v.message == (if dineIn then "Cooking in Progress" else "Packing Your Order")
    ensures !v.isInProgress ==>
              v.progress == 100 && v.message == (if dineIn then "Delivered to Table" else "Order Delivered")
  {
    var progress := Progress(pendingStatus);
    if progress < 100 then
      StatusView(true, progress, if dineIn then "Cooking in Progress" else "Packing Your Order")
    else
      StatusView(false, 100, if dineIn then "Delivered to Table" else "Order Delivered")
  }

  /** The fields of the live order document the single-order view reads. */
  datatype LiveOrder = LiveOrder(dineIn: bool, pendingStatus: int)

  /** The progress bar of the single-order view: 0 until the first snapshot
      arrives, then the latest snapshot's clamped progress. */
  function DetailProgress(latest: Option<LiveOrder>): (r: int)
    ensures 0 <= r <= 100
    ensures latest.None? ==> r == 0
    ensures latest.Some? ==> r == Progress(latest.value.pendingStatus)
  {
    if latest.None? then 0 else Progress(latest.value.pendingStatus)
  }

  /** The status line of the single-order view. */
  function DetailMessage(latest: Option<LiveOrder>): (m: string)
    ensures latest.None? ==> m == "Preparing..."
    ensures latest.Some? && latest.value.dineIn ==>
              m == (if latest.value.pendingStatus < 100 then "Cooking in Progress" else "Ready to Serve")
    ensures latest.Some? && !latest.value.dineIn ==>
              m == (if latest.value.pendingStatus < 100 then "Packing Your Order" else "Order Packed")
  {
    if latest.None? then "Preparing..."
    else
      var progress := DetailProgress(latest);
      if latest.value.dineIn then
        (if progress < 100 then "Cooking in Progress" else "Ready to Serve")
      else
        (if progress < 100 then "Packing Your Order" else "Order Packed")
  }

  /** The two views agree on whether an order is still being prepared, and
      on its progress while it is. */
  lemma ViewsAgreeOnProgress(o: LiveOrder)
    ensures HistoryStatus(o.pendingStatus, o.dineIn).isInProgress <==> DetailProgress(Some(o)) < 100
    ensures HistoryStatus(o.pendingStatus, o.dineIn).isInProgress ==>
              HistoryStatus(o.pendingStatus, o.dineIn).progress == DetailProgress(Some(o))
    ensures HistoryStatus(o.pendingStatus, o.dineIn).isInProgress ==>
              HistoryStatus(o.pendingStatus, o.dineIn).message == DetailMessage(Some(o))
  {
  }

  /** A new dine-in order (progress seed 25) shows 25% and "Cooking in
      Progress"; a progress of 150 shows as 100. */
  lemma ExampleProgress()
    ensures HistoryStatus(25, true) == StatusView(true, 25, "Cooking in Progress")
    ensures DetailMessage(Some(LiveOrder(true, 25))) == "Cooking in Progress"
    ensures DetailProgress(Some(LiveOrder(false, 150))) == 100
  {
  }

  /** The bill the history and the single-order views print under an order:
      every stored item counts, the surcharges are added and no discount is
      subtracted. */
  datatype OrderBill = OrderBill(itemTotal: real, gst: real, serviceCharge: real, grandTotal: real)

  function BillOf(items: seq<CartLine>): (b: OrderBill)
    ensures b.itemTotal == Subtotal(items)
    ensures b.gst == b.itemTotal / 10.0 && b.serviceCharge == b.itemTotal / 20.0
    ensures b.grandTotal == b.itemTotal * 1.15
  {
    var itemTotal := Subtotal(items);
    var gst := itemTotal * GstRate;
    var serviceCharge := itemTotal * ServiceRate;
    OrderBill(itemTotal, gst, serviceCharge, itemTotal + gst + serviceCharge)
  }

  /** Newest first: timestamps never increase along the list. */
  predicate NewestFirst(orders: seq<Order>) {
    forall i, j :: 0 <= i < j < |orders| ==> orders[i].timestamp >= orders[j].timestamp
  }

  /** Every order of the list is no newer than `t`. */
  predicate NoNewerThan(t: int, orders: seq<Order>) {
    forall j :: 0 <= j < |orders| ==> orders[j].timestamp <= t
  }

  /** Putting an order no older than all of a newest-first list in front of
      it keeps the list newest first. */
  lemma PrependNewest(o: Order, sorted: seq<Order>)
    requires NewestFirst(sorted) && NoNewerThan(o.timestamp, sorted)
    ensures NewestFirst([o] + sorted)
  {
    var r := [o] + sorted;
    forall i, j | 0 <= i < j < |r|
      ensures r[i].timestamp >= r[j].timestamp
    {
      assert r[j] == sorted[j - 1];
      if i > 0 {
        assert r[i] == sorted[i - 1];
      }
    }
  }

  /** A bound on two lists' orders bounds every list made of the same orders. */
  lemma NoNewerThanPermutation(t: int, a: seq<Order>, b: seq<Order>)
    requires NoNewerThan(t, a)
    requires multiset(b) <= multiset(a)
    ensures NoNewerThan(t, b)
  {
    forall j | 0 <= j < |b|
      ensures b[j].timestamp <= t
    {
      assert b[j] in multiset(b);
      assert b[j] in multiset(a);
      var k :| 0 <= k < |a| && a[k] == b[j];
    }
  }

  /** Inserting one order into a newest-first list. */
  function InsertByTimestamp(o: Order, sorted: seq<Order>): (r: seq<Order>)
    requires NewestFirst(sorted)
    ensures NewestFirst(r)
    ensures multiset(r) == multiset(sorted) + multiset{o}
  {
    if |sorted| == 0 then [o]
    else if o.timestamp >= sorted[0].timestamp then
      PrependNewest(o, sorted);
      [o] + sorted
    else
      var head := sorted[0];
      var tail := sorted[1..];
      assert sorted == [head] + tail;
      var rest := InsertByTimestamp(o, tail);
      assert NoNewerThan(head.timestamp, tail + [o]);
      assert multiset(rest) == multiset(tail + [o]);
      NoNewerThanPermutation(head.timestamp, tail + [o], rest);
      PrependNewest(head, rest);
      [head] + rest
  }

  /** The history list: the fetched orders, newest first. */
  function SortNewestFirst(orders: seq<Order>): (r: seq<Order>)
    ensures NewestFirst(r)
    ensures multiset(r) == multiset(orders)
  {
    if |orders| == 0 then []
    else
      assert orders == [orders[0]] + orders[1..];
      InsertByTimestamp(orders[0], SortNewestFirst(orders[1..]))
  }
}
