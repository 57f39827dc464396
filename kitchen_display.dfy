/** The kitchen screen (Store/KitchenDisplay.tsx): it shows the stored orders
    that are still being worked on, one column per status in storage order,
    and moves them through the kitchen statuses. It also computes a list
    sorted urgent first, then by status, then oldest first, which no column
    renders. */
module KitchenDisplay {
  import opened Common
  import opened PosCart

  /** An order on the kitchen screen: a stored order plus the optional
      'urgent' priority (orders placed at the POS carry none). */
  datatype KitchenOrder = KitchenOrder(order: Order, urgent: bool)

  /** The statuses the kitchen screen keeps: preparing, cooking and ready. */
  predicate IsActive(k: KitchenOrder) {
    k.order.status == Preparing || k.order.status == Cooking || k.order.status == Ready
  }

  function Active(): KitchenOrder -> bool {
    k => IsActive(k)
  }

  /** The stored orders as the screen reads them back: no priority. */
  function FromStored(stored: seq<Order>): (r: seq<KitchenOrder>)
    ensures |r| == |stored|
    ensures forall i :: 0 <= i < |r| ==> r[i].order == stored[i] && !r[i].urgent
  {
    seq(|stored|, i requires 0 <= i < |stored| => KitchenOrder(stored[i], false))
  }

  /** getOrdersFromStorage: the active stored orders, or the active sample
      orders when storage holds none. */
  function LoadOrders(stored: seq<Order>, samples: seq<KitchenOrder>): (r: seq<KitchenOrder>)
    ensures forall i :: 0 <= i < |r| ==> IsActive(r[i])
    ensures stored != [] ==> forall i :: 0 <= i < |r| ==> r[i].order in stored && !r[i].urgent
    ensures stored != [] ==>
              forall j :: 0 <= j < |stored| && IsActive(KitchenOrder(stored[j], false)) ==>
                KitchenOrder(stored[j], false) in r
    ensures stored == [] ==> forall i :: 0 <= i < |r| ==> r[i] in samples
    ensures stored == [] ==> forall j :: 0 <= j < |samples| && IsActive(samples[j]) ==> samples[j] in r
  {
    if stored != [] then
      var all := FromStored(stored);
      var r := Filter(all, Active());
      assert forall j :: 0 <= j < |stored| ==> all[j] == KitchenOrder(stored[j], false);
      forall i | 0 <= i < |r| ensures r[i].order in stored && !r[i].urgent {
        var j :| 0 <= j < |all| && all[j] == r[i];
        assert r[i].order == stored[j];
      }
      r
    else Filter(samples, Active())
  }

  // ---------------------------------------------------------------------------
  // Status changes
  // ---------------------------------------------------------------------------

  /** `order.id === orderId ? { ...order, status } : order` on a stored order. */
  function WithStatus(o: Order, id: string, status: OrderStatus): Order {
    if o.id == id then o.(status := status) else o
  }

  /** The map over the stored list. */
  function SetStoredStatus(stored: seq<Order>, id: string, status: OrderStatus): (r: seq<Order>)
    ensures |r| == |stored|
    ensures forall i :: 0 <= i < |r| ==> r[i] == WithStatus(stored[i], id, status)
  {
    seq(|stored|, i requires 0 <= i < |stored| => WithStatus(stored[i], id, status))
  }

  /** The map over the screen's list. */
  function SetStatus(orders: seq<KitchenOrder>, id: string, status: OrderStatus): (r: seq<KitchenOrder>)
    ensures |r| == |orders|
    ensures forall i :: 0 <= i < |r| ==> r[i] == orders[i].(order := WithStatus(orders[i].order, id, status))
  {
    seq(|orders|, i requires 0 <= i < |orders| => orders[i].(order := WithStatus(orders[i].order, id, status)))
  }

  /** Only the orders with the given id change, and for them only the status. */
  lemma SetStatusOnlyThatOrder(orders: seq<KitchenOrder>, id: string, status: OrderStatus)
    ensures forall i :: 0 <= i < |orders| && orders[i].order.id != id ==> SetStatus(orders, id, status)[i] == orders[i]
    ensures forall i :: 0 <= i < |orders| && orders[i].order.id == id ==>
              && SetStatus(orders, id, status)[i].order.status == status
              && SetStatus(orders, id, status)[i].order.(status := orders[i].order.status) == orders[i].order
              && SetStatus(orders, id, status)[i].urgent == orders[i].urgent
  {
  }

  /** Setting a status twice is the same as setting it once. */
  lemma SetStatusIdempotent(orders: seq<KitchenOrder>, id: string, status: OrderStatus)
    ensures SetStatus(SetStatus(orders, id, status), id, status) == SetStatus(orders, id, status)
  {
  }

  predicate KitchenIdIsNot(k: KitchenOrder, id: string) {
    k.order.id != id
  }

  function IdIsNot(id: string): KitchenOrder -> bool {
    k => KitchenIdIsNot(k, id)
  }

  /** `prevOrders.filter(order => order.id !== orderId)`. */
  function WithoutOrder(orders: seq<KitchenOrder>, id: string): (r: seq<KitchenOrder>)
    ensures forall i :: 0 <= i < |r| ==> r[i].order.id != id && r[i] in orders
    ensures forall i :: 0 <= i < |orders| && orders[i].order.id != id ==> orders[i] in r
  {
    Filter(orders, IdIsNot(id))
  }

  /** An id that is not on the screen: removing it changes nothing. */
  lemma WithoutAbsentOrder(orders: seq<KitchenOrder>, id: string)
    requires forall i :: 0 <= i < |orders| ==> orders[i].order.id != id
    ensures WithoutOrder(orders, id) == orders
  {
    FilterAll(orders, IdIsNot(id));
  }

  // ---------------------------------------------------------------------------
  // Elapsed time and the kitchen order
  // ---------------------------------------------------------------------------

  /** getElapsedTime: whole minutes since the order, `Math.floor(ms / 1000 / 60)`
      (Dafny's division by a positive divisor rounds down like Math.floor). */
  function ElapsedMinutes(now: int, orderTime: int): (m: int)
    ensures m * 60000 <= now - orderTime < (m + 1) * 60000
  {
    (now - orderTime) / 60000
  }

  /** The status ranks of the comparator: cooking 0, preparing 1, ready 2, anything else 3. */
  function StatusRank(s: OrderStatus): (r: nat)
    ensures r <= 3 && (r == 3 <==> s == Completed)
  {
    match s
    case Cooking => 0
    case Preparing => 1
    case Ready => 2
    case Completed => 3
  }

  /** The sortedOrders comparator as an order: `a` may come before `b`. */
  predicate KitchenLeq(a: KitchenOrder, b: KitchenOrder) {
    if a.urgent != b.urgent then a.urgent
    else if StatusRank(a.order.status) != StatusRank(b.order.status) then
      StatusRank(a.order.status) < StatusRank(b.order.status)
    else a.order.orderTime <= b.order.orderTime
  }

  lemma KitchenLeqIsTotalPreorder()
    ensures TotalPreorder(KitchenLeq)
  {
  }

  /** sortedOrders: `[...orders].sort(comparator)`. The screen computes it
      but its three columns filter `orders` itself, so the order shown is the
      storage order. */
  function SortedOrders(orders: seq<KitchenOrder>): (r: seq<KitchenOrder>)
    ensures multiset(r) == multiset(orders) && |r| == |orders|
  {
    KitchenLeqIsTotalPreorder();
    SortBy(orders, KitchenLeq)
  }

  /** In the sorted list every urgent order comes before every other one; with
      the same urgency, cooking, then preparing, then ready, then the rest; with
      the same urgency and status, the older order first. */
  lemma SortedOrdersOrder(orders: seq<KitchenOrder>, i: nat, j: nat)
    requires i < j < |SortedOrders(orders)|
    ensures var s := SortedOrders(orders);
      && (s[j].urgent ==> s[i].urgent)
      && (s[i].urgent == s[j].urgent ==> StatusRank(s[i].order.status) <= StatusRank(s[j].order.status))
      && (s[i].urgent == s[j].urgent && s[i].order.status == s[j].order.status ==>
            s[i].order.orderTime <= s[j].order.orderTime)
  {
    KitchenLeqIsTotalPreorder();
    assert SortedBy(SortedOrders(orders), KitchenLeq);
  }

  // ---------------------------------------------------------------------------
  // Status counts
  // ---------------------------------------------------------------------------

  predicate HasStatus(k: KitchenOrder, s: OrderStatus) {
    k.order.status == s
  }

  function StatusIs(s: OrderStatus): KitchenOrder -> bool {
    k => HasStatus(k, s)
  }

  /** preparingCount, cookingCount, readyCount. */
  function StatusCount(orders: seq<KitchenOrder>, s: OrderStatus): (n: nat)
    ensures n <= |orders|
  {
    Count(orders, StatusIs(s))
  }

  /** The three counts and the completed ones add up to the whole list. */
  lemma {:induction false} StatusCountsAddUp(orders: seq<KitchenOrder>)
    ensures StatusCount(orders, Preparing) + StatusCount(orders, Cooking) + StatusCount(orders, Ready)
            + StatusCount(orders, Completed) == |orders|
  {
    if orders != [] {
      StatusCountsAddUp(orders[1..]);
    }
  }

  /** On a loaded list nothing is completed, so the three counts cover it. */
  lemma LoadedCountsCoverAll(stored: seq<Order>, samples: seq<KitchenOrder>)
    ensures var r := LoadOrders(stored, samples);
      StatusCount(r, Preparing) + StatusCount(r, Cooking) + StatusCount(r, Ready) == |r|
  {
    var r := LoadOrders(stored, samples);
    StatusCountsAddUp(r);
    NoneCounted(r, Completed);
  }

  lemma {:induction false} NoneCounted(orders: seq<KitchenOrder>, s: OrderStatus)
    requires forall i :: 0 <= i < |orders| ==> orders[i].order.status != s
    ensures StatusCount(orders, s) == 0
  {
    if orders != [] {
      NoneCounted(orders[1..], s);
    }
  }

  // ---------------------------------------------------------------------------
  // The screen
  // ---------------------------------------------------------------------------

  class KitchenDisplay {
    /** The orders on the screen. */
    var orders: seq<KitchenOrder>
    /** The shared 'allOrders' list in browser storage. */
    var stored: seq<Order>
    var soundEnabled: bool

    constructor (stored: seq<Order>, samples: seq<KitchenOrder>)
      ensures this.stored == stored && orders == LoadOrders(stored, samples) && soundEnabled
    {
      this.stored := stored;
      orders := LoadOrders(stored, samples);
      soundEnabled := true;
    }

    /** The storage listener, focus handler and polling timers: reload from storage. */
    method Refresh(samples: seq<KitchenOrder>)
      modifies this`orders
      ensures orders == LoadOrders(stored, samples)
    {
      orders := LoadOrders(stored, samples);
    }

    /** updateOrderStatus: the status changes on the screen and in storage. A
        completed order stays until RemoveAfterDelay runs. Returns whether the
        'ready' notification is shown. */
    method UpdateOrderStatus(id: string, status: OrderStatus) returns (notify: bool)
      modifies this`orders, this`stored
      ensures orders == SetStatus(old(orders), id, status)
      ensures stored == SetStoredStatus(old(stored), id, status)
      ensures notify <==> soundEnabled && status == Ready
    {
      orders := SetStatus(orders, id, status);
      stored := SetStoredStatus(stored, id, status);
      notify := soundEnabled && status == Ready;
    }

    /** The two-second timer set by updateOrderStatus for a completed order. */
    method RemoveAfterDelay(id: string)
      modifies this`orders
      ensures orders == WithoutOrder(old(orders), id)
    {
      orders := WithoutOrder(orders, id);
    }

    /** completeOrder (pickup): completed in storage, gone from the screen at once. */
    method CompleteOrder(id: string)
      modifies this`orders, this`stored
      ensures stored == SetStoredStatus(old(stored), id, Completed)
      ensures orders == WithoutOrder(old(orders), id)
    {
      stored := SetStoredStatus(stored, id, Completed);
      orders := WithoutOrder(orders, id);
    }
  }

  /** After completeOrder the stored order with that id is completed and the
      screen no longer shows it; every other stored order is unchanged. */
  lemma CompleteOrderEffect(orders: seq<KitchenOrder>, stored: seq<Order>, id: string)
    ensures forall i :: 0 <= i < |stored| && stored[i].id == id ==>
              SetStoredStatus(stored, id, Completed)[i].status == Completed
    ensures forall i :: 0 <= i < |stored| && stored[i].id != id ==>
              SetStoredStatus(stored, id, Completed)[i] == stored[i]
    ensures forall i :: 0 <= i < |WithoutOrder(orders, id)| ==> WithoutOrder(orders, id)[i].order.id != id
  {
  }
}
