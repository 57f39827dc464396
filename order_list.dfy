/** The order history screen (Store/OrderList.tsx): the search, status,
    payment, order-type and date filters, the id-descending order, the
    per-status tab counts, status changes and cancellation. */
module OrderList {
  import opened Common
  import opened PosCart

  /** An order as this screen handles it. The status is kept as the string the
      screen stores: 'pending', 'preparing', 'cooking', 'ready', 'completed',
      'cancelled', or whatever the status selector passes. */
  datatype ListedOrder = ListedOrder(
    id: string,
    items: seq<OrderItem>,
    status: string,
    paymentMethod: string,
    orderType: string,
    orderTime: int,
    customer: Option<string>,
    customerPhone: Option<string>,
    cancelReason: Option<string>)

  function StatusName(s: OrderStatus): string {
    match s
    case Preparing => "preparing"
    case Cooking => "cooking"
    case Ready => "ready"
    case Completed => "completed"
  }

  function OrderTypeName(t: OrderType): string {
    match t
    case Visit => "방문"
    case Takeout => "포장"
    case Delivery => "배달"
  }

  /** A stored POS order read back by this screen. */
  function FromStored(o: Order): ListedOrder {
    ListedOrder(o.id, o.items, StatusName(o.status), o.paymentMethod, OrderTypeName(o.orderType),
                o.orderTime, o.customer, None, None)
  }

  /** getOrdersFromStorage: the stored orders, or the sample orders when storage holds none. */
  function LoadOrders(stored: seq<Order>, samples: seq<ListedOrder>): (r: seq<ListedOrder>)
    ensures stored != [] ==> |r| == |stored| && forall i :: 0 <= i < |r| ==> r[i] == FromStored(stored[i])
    ensures stored == [] ==> r == samples
  {
    if stored != [] then seq(|stored|, i requires 0 <= i < |stored| => FromStored(stored[i])) else samples
  }

  /** What the screen shows after reading storage (at start, every second, on
      focus and on a storage event): the loaded orders, larger ids first. */
  function Reloaded(stored: seq<Order>, samples: seq<ListedOrder>): (r: seq<ListedOrder>)
    ensures multiset(r) == multiset(LoadOrders(stored, samples))
    ensures SortedBy(r, IdDescending)
  {
    IdDescendingIsTotal();
    SortBy(LoadOrders(stored, samples), IdDescending)
  }

  /** The statuses a POS order can be stored with. */
  predicate IsPosStatus(s: string) {
    s == "preparing" || s == "cooking" || s == "ready" || s == "completed"
  }

  /** The screen never writes storage, and a stored POS order is only ever
      preparing, cooking, ready or completed: once storage holds orders, a
      reload shows no other status and no cancel reason, so a status change
      to 'pending' or 'cancelled' and a cancellation made on this screen last
      at most until the next reload, a second later. */
  lemma ReloadDropsCancellation(stored: seq<Order>, samples: seq<ListedOrder>)
    requires stored != []
    ensures forall o :: o in Reloaded(stored, samples) ==> IsPosStatus(o.status) && o.cancelReason.None?
  {
    var loaded := LoadOrders(stored, samples);
    var r := Reloaded(stored, samples);
    LoadedFromPos(stored, samples);
    forall o | o in r ensures o in loaded {
      assert o in multiset(r);
    }
  }

  lemma LoadedFromPos(stored: seq<Order>, samples: seq<ListedOrder>)
    requires stored != []
    ensures forall o :: o in LoadOrders(stored, samples) ==> IsPosStatus(o.status) && o.cancelReason.None?
  {
    var loaded := LoadOrders(stored, samples);
    forall i | 0 <= i < |loaded| ensures IsPosStatus(loaded[i].status) && loaded[i].cancelReason.None? {
      assert loaded[i] == FromStored(stored[i]);
    }
  }

  // ---------------------------------------------------------------------------
  // The filter pipeline
  // ---------------------------------------------------------------------------

  /** The filter inputs of the screen. */
  datatype Criteria = Criteria(
    searchTerm: string,
    statusFilter: string,
    paymentFilter: string,
    orderTypeFilter: string,
    dateFilter: string)

  /** Some item's name contains the term, ignoring case. */
  predicate SomeItemMatches(o: ListedOrder, term: string) {
    exists i :: 0 <= i < |o.items| && MatchesTerm(o.items[i].name, term)
  }

  /** The search: id, customer or an item name case-insensitively, or the
      phone number as typed; an empty term keeps everything. */
  predicate MatchesSearch(o: ListedOrder, term: string) {
    term == ""
    || MatchesTerm(o.id, term)
    || (o.customer.Some? && MatchesTerm(o.customer.value, term))
    || (o.customerPhone.Some? && Includes(o.customerPhone.value, term))
    || SomeItemMatches(o, term)
  }

  /** A select filter: 'all' keeps everything, any other value keeps equal values. */
  predicate MatchesSelect(value: string, filter: string) {
    filter == "all" || value == filter
  }

  const DayMs: int := 24 * 60 * 60 * 1000

  /** The earliest order time the date filter keeps, from the start of today:
      today, 7 days before it, 30 days before it; other values keep everything. */
  function DateFrom(dateFilter: string, todayStart: int): (r: Option<int>)
    ensures r.Some? ==> r.value <= todayStart
    ensures r.None? <==> dateFilter != "today" && dateFilter != "week" && dateFilter != "month"
  {
    if dateFilter == "today" then Some(todayStart)
    else if dateFilter == "week" then Some(todayStart - 7 * DayMs)
    else if dateFilter == "month" then Some(todayStart - 30 * DayMs)
    else None
  }

  predicate MatchesDate(o: ListedOrder, dateFilter: string, todayStart: int) {
    DateFrom(dateFilter, todayStart).None? || o.orderTime >= DateFrom(dateFilter, todayStart).value
  }

  /** Everything the filter effect asks of one order. */
  predicate Matches(o: ListedOrder, c: Criteria, todayStart: int) {
    && MatchesSearch(o, c.searchTerm)
    && MatchesSelect(o.status, c.statusFilter)
    && MatchesSelect(o.paymentMethod, c.paymentFilter)
    && MatchesSelect(o.orderType, c.orderTypeFilter)
    && MatchesDate(o, c.dateFilter, todayStart)
  }

  function AllFilters(c: Criteria, todayStart: int): ListedOrder -> bool { (o: ListedOrder) => Matches(o, c, todayStart) }

  /** `(a, b) => b.id.localeCompare(a.id)`: larger ids first. */
  predicate IdDescending(a: ListedOrder, b: ListedOrder) {
    LexLeq(b.id, a.id)
  }

  lemma IdDescendingIsTotal()
    ensures TotalPreorder(IdDescending)
  {
    forall a: ListedOrder, b: ListedOrder ensures IdDescending(a, b) || IdDescending(b, a) {
      LexLeqTotal(a.id, b.id);
    }
    forall a: ListedOrder, b: ListedOrder, c: ListedOrder | IdDescending(a, b) && IdDescending(b, c)
      ensures IdDescending(a, c)
    {
      LexLeqTransitive(c.id, b.id, a.id);
    }
  }

  /** The list the filter effect produces: the matching orders, larger ids first. */
  function FilteredOrders(orders: seq<ListedOrder>, c: Criteria, todayStart: int): (r: seq<ListedOrder>)
    ensures SortedBy(r, IdDescending)
    ensures multiset(r) <= multiset(orders)
    ensures |r| == Count(orders, AllFilters(c, todayStart))
  {
    IdDescendingIsTotal();
    SortBy(Filter(orders, AllFilters(c, todayStart)), IdDescending)
  }

  /** The filtered list holds exactly the matching orders, each as many times as
      in the full list, ordered by id from largest to smallest. */
  lemma FilteredOrdersMeaning(orders: seq<ListedOrder>, c: Criteria, todayStart: int)
    ensures var r := FilteredOrders(orders, c, todayStart);
      && (forall i :: 0 <= i < |r| ==> r[i] in orders && Matches(r[i], c, todayStart))
      && (forall i :: 0 <= i < |orders| && Matches(orders[i], c, todayStart) ==> orders[i] in r)
      && multiset(r) <= multiset(orders)
      && (forall i, j :: 0 <= i < j < |r| ==> LexLeq(r[j].id, r[i].id))
  {
    IdDescendingIsTotal();
    var f := Filter(orders, AllFilters(c, todayStart));
    var r := FilteredOrders(orders, c, todayStart);
    assert multiset(r) == multiset(f);
    forall i | 0 <= i < |r| ensures r[i] in orders && Matches(r[i], c, todayStart) {
      assert r[i] in multiset(f);
      var k :| 0 <= k < |f| && f[k] == r[i];
    }
    forall i | 0 <= i < |orders| && Matches(orders[i], c, todayStart) ensures orders[i] in r {
      assert orders[i] in f;
      assert orders[i] in multiset(r);
    }
  }

  /** With an empty search and every filter off, nothing is dropped. */
  lemma NoFilterKeepsAll(orders: seq<ListedOrder>, todayStart: int)
    ensures var c := Criteria("", "all", "all", "all", "");
      multiset(FilteredOrders(orders, c, todayStart)) == multiset(orders)
  {
    var c := Criteria("", "all", "all", "all", "");
    FilterAll(orders, AllFilters(c, todayStart));
    IdDescendingIsTotal();
  }

  /** The filter the effect applies at step `k` (1 search, 2 status, 3 payment,
      4 order type, 5 date); an inactive step keeps everything. */
  predicate PassesStep(o: ListedOrder, c: Criteria, todayStart: int, k: nat) {
    if k == 1 then MatchesSearch(o, c.searchTerm)
    else if k == 2 then MatchesSelect(o.status, c.statusFilter)
    else if k == 3 then MatchesSelect(o.paymentMethod, c.paymentFilter)
    else if k == 4 then MatchesSelect(o.orderType, c.orderTypeFilter)
    else if k == 5 then MatchesDate(o, c.dateFilter, todayStart)
    else true
  }

  /** The first `k` steps all pass. */
  predicate PassesUpTo(o: ListedOrder, c: Criteria, todayStart: int, k: nat) {
    forall j :: 1 <= j <= k ==> PassesStep(o, c, todayStart, j)
  }

  function Step(c: Criteria, todayStart: int, k: nat): ListedOrder -> bool {
    (o: ListedOrder) => PassesStep(o, c, todayStart, k)
  }

  function UpTo(c: Criteria, todayStart: int, k: nat): ListedOrder -> bool {
    (o: ListedOrder) => PassesUpTo(o, c, todayStart, k)
  }

  /** Applying step `k` to what passed the first `k - 1` steps. */
  lemma StageStep(orders: seq<ListedOrder>, c: Criteria, todayStart: int, k: nat)
    requires 1 <= k
    ensures Filter(Filter(orders, UpTo(c, todayStart, k - 1)), Step(c, todayStart, k))
            == Filter(orders, UpTo(c, todayStart, k))
  {
    forall i | 0 <= i < |orders|
      ensures PassesUpTo(orders[i], c, todayStart, k)
              <==> PassesUpTo(orders[i], c, todayStart, k - 1) && PassesStep(orders[i], c, todayStart, k)
    {
    }
    FilterFilter(orders, UpTo(c, todayStart, k - 1), Step(c, todayStart, k), UpTo(c, todayStart, k));
  }

  /** The five steps together ask what Matches asks. */
  lemma StagesAreMatches(orders: seq<ListedOrder>, c: Criteria, todayStart: int)
    ensures Filter(orders, UpTo(c, todayStart, 5)) == Filter(orders, AllFilters(c, todayStart))
    ensures Filter(orders, UpTo(c, todayStart, 0)) == orders
  {
    forall i | 0 <= i < |orders|
      ensures PassesUpTo(orders[i], c, todayStart, 5) == Matches(orders[i], c, todayStart)
    {
      var o := orders[i];
      assert (&& PassesStep(o, c, todayStart, 1) && PassesStep(o, c, todayStart, 2)
              && PassesStep(o, c, todayStart, 3) && PassesStep(o, c, todayStart, 4)
              && PassesStep(o, c, todayStart, 5)) ==> PassesUpTo(o, c, todayStart, 5);
    }
    SameFilter(orders, UpTo(c, todayStart, 5), AllFilters(c, todayStart));
    FilterAll(orders, UpTo(c, todayStart, 0));
  }

  /** An inactive step keeps everything. */
  lemma InactiveStep(s: seq<ListedOrder>, c: Criteria, todayStart: int, k: nat)
    requires k == 1 ==> c.searchTerm == ""
    requires k == 2 ==> c.statusFilter == "all"
    requires k == 3 ==> c.paymentFilter == "all"
    requires k == 4 ==> c.orderTypeFilter == "all"
    requires k == 5 ==> DateFrom(c.dateFilter, todayStart).None?
    ensures Filter(s, Step(c, todayStart, k)) == s
  {
    FilterAll(s, Step(c, todayStart, k));
  }

  /** The filter effect as the source runs it: one filter per active criterion,
      applied one after another, then the sort. */
  method RunFilters(orders: seq<ListedOrder>, c: Criteria, todayStart: int) returns (filtered: seq<ListedOrder>)
    ensures filtered == FilteredOrders(orders, c, todayStart)
  {
    StagesAreMatches(orders, c, todayStart);
    filtered := orders;
    if c.searchTerm != "" {
      filtered := Filter(filtered, Step(c, todayStart, 1));
    } else {
      InactiveStep(filtered, c, todayStart, 1);
    }
    StageStep(orders, c, todayStart, 1);
    if c.statusFilter != "all" {
      filtered := Filter(filtered, Step(c, todayStart, 2));
    } else {
      InactiveStep(filtered, c, todayStart, 2);
    }
    StageStep(orders, c, todayStart, 2);
    if c.paymentFilter != "all" {
      filtered := Filter(filtered, Step(c, todayStart, 3));
    } else {
      InactiveStep(filtered, c, todayStart, 3);
    }
    StageStep(orders, c, todayStart, 3);
    if c.orderTypeFilter != "all" {
      filtered := Filter(filtered, Step(c, todayStart, 4));
    } else {
      InactiveStep(filtered, c, todayStart, 4);
    }
    StageStep(orders, c, todayStart, 4);
    var from := DateFrom(c.dateFilter, todayStart);
    if from.Some? {
      filtered := Filter(filtered, Step(c, todayStart, 5));
    } else {
      InactiveStep(filtered, c, todayStart, 5);
    }
    StageStep(orders, c, todayStart, 5);
    IdDescendingIsTotal();
    filtered := SortBy(filtered, IdDescending);
  }

  /** Two predicates that agree on every element filter alike. */
  lemma {:induction false} SameFilter(s: seq<ListedOrder>, p: ListedOrder -> bool, q: ListedOrder -> bool)
    requires forall i :: 0 <= i < |s| ==> p(s[i]) == q(s[i])
    ensures Filter(s, p) == Filter(s, q)
  {
    if s != [] {
      SameFilter(s[1..], p, q);
    }
  }

  // ---------------------------------------------------------------------------
  // Counts, status changes and labels
  // ---------------------------------------------------------------------------

  predicate HasStatus(o: ListedOrder, status: string) {
    o.status == status
  }

  function StatusIs(status: string): ListedOrder -> bool {
    o => HasStatus(o, status)
  }

  /** getOrderCountByStatus: every order for 'all', else those with that status. */
  function CountByStatus(orders: seq<ListedOrder>, status: string): (n: nat)
    ensures n <= |orders|
    ensures status == "all" ==> n == |orders|
  {
    if status == "all" then |orders| else Count(orders, StatusIs(status))
  }

  /** The six tabs after 'all' add up to it when every status is one of the six. */
  lemma TabCountsAddUp(orders: seq<ListedOrder>)
    requires forall i :: 0 <= i < |orders| ==> orders[i].status in KnownStatuses
    ensures CountByStatus(orders, "pending") + CountByStatus(orders, "preparing")
            + CountByStatus(orders, "cooking") + CountByStatus(orders, "ready")
            + CountByStatus(orders, "completed") + CountByStatus(orders, "cancelled")
            == CountByStatus(orders, "all")
  {
    KnownCountsAddUp(orders);
  }

  lemma {:induction false} KnownCountsAddUp(orders: seq<ListedOrder>)
    requires forall i :: 0 <= i < |orders| ==> orders[i].status in KnownStatuses
    ensures Count(orders, StatusIs("pending")) + Count(orders, StatusIs("preparing"))
            + Count(orders, StatusIs("cooking")) + Count(orders, StatusIs("ready"))
            + Count(orders, StatusIs("completed")) + Count(orders, StatusIs("cancelled"))
            == |orders|
  {
    if orders != [] {
      KnownCountsAddUp(orders[1..]);
    }
  }

  const KnownStatuses: seq<string> := ["pending", "preparing", "cooking", "ready", "completed", "cancelled"]

  /** `order.id === orderId ? { ...order, status } : order`, over the list. */
  function SetStatus(orders: seq<ListedOrder>, id: string, status: string): (r: seq<ListedOrder>)
    ensures |r| == |orders|
    ensures forall i :: 0 <= i < |r| ==>
              r[i] == if orders[i].id == id then orders[i].(status := status) else orders[i]
  {
    seq(|orders|, i requires 0 <= i < |orders| => if orders[i].id == id then orders[i].(status := status) else orders[i])
  }

  /** cancelOrder over the list: status 'cancelled' and the reason, for that id only. */
  function Cancel(orders: seq<ListedOrder>, id: string, reason: string): (r: seq<ListedOrder>)
    ensures |r| == |orders|
    ensures forall i :: 0 <= i < |r| ==>
              r[i] == if orders[i].id == id then orders[i].(status := "cancelled", cancelReason := Some(reason))
                      else orders[i]
  {
    seq(|orders|, i requires 0 <= i < |orders| =>
      if orders[i].id == id then orders[i].(status := "cancelled", cancelReason := Some(reason)) else orders[i])
  }

  /** A status change moves the matching orders between tabs and leaves the
      total and every other order alone. */
  lemma {:induction false} SetStatusCounts(orders: seq<ListedOrder>, id: string, status: string)
    requires status != "all"
    ensures CountByStatus(SetStatus(orders, id, status), status)
            == CountByStatus(orders, status) + Count(orders, MovesTo(id, status))
    ensures CountByStatus(SetStatus(orders, id, status), "all") == |orders|
  {
    if orders != [] {
      SetStatusCounts(orders[1..], id, status);
      assert SetStatus(orders, id, status)[1..] == SetStatus(orders[1..], id, status);
    }
  }

  predicate Moves(o: ListedOrder, id: string, status: string) {
    o.id == id && o.status != status
  }

  function MovesTo(id: string, status: string): ListedOrder -> bool {
    o => Moves(o, id, status)
  }

  /** Cancelling twice is cancelling once with the later reason. */
  lemma CancelTwice(orders: seq<ListedOrder>, id: string, first: string, second: string)
    ensures Cancel(Cancel(orders, id, first), id, second) == Cancel(orders, id, second)
  {
  }

  /** getStatusText. */
  function StatusText(status: string): (t: string)
    ensures status !in KnownStatuses ==> t == "알수없음"
    ensures t == "완료" <==> status == "ready"
  {
    if status == "pending" then "주문접수"
    else if status == "preparing" then "준비중"
    else if status == "cooking" then "조리중"
    else if status == "ready" then "완료"
    else if status == "completed" then "픽업완료"
    else if status == "cancelled" then "취소"
    else "알수없음"
  }

  /** The six known statuses have six different labels, none of them '알수없음'. */
  lemma StatusTextDistinct()
    ensures forall i, j :: 0 <= i < j < |KnownStatuses| ==>
              StatusText(KnownStatuses[i]) != StatusText(KnownStatuses[j])
    ensures forall i :: 0 <= i < |KnownStatuses| ==> StatusText(KnownStatuses[i]) != "알수없음"
  {
  }

  // ---------------------------------------------------------------------------
  // The screen
  // ---------------------------------------------------------------------------

  class OrderList {
    var orders: seq<ListedOrder>
    var filteredOrders: seq<ListedOrder>
    var criteria: Criteria
    /** The sample orders shown while storage holds none. */
    const samples: seq<ListedOrder>

    /** The initial state: the loaded orders sorted by id descending, shown
        unfiltered until the filter effect runs; the date filter starts at 'today'. */
    constructor (stored: seq<Order>, samples: seq<ListedOrder>)
      ensures this.samples == samples
      ensures criteria == Criteria("", "all", "all", "all", "today")
      ensures orders == Reloaded(stored, samples) && filteredOrders == orders
    {
      this.samples := samples;
      orders := Reloaded(stored, samples);
      filteredOrders := orders;
      criteria := Criteria("", "all", "all", "all", "today");
    }

    /** The storage listener, the focus listener and the one-second interval:
        the list is replaced by what storage (written by the POS screens) now
        holds, whatever this screen changed in it before. */
    method Reload(stored: seq<Order>)
      modifies this`orders
      ensures orders == Reloaded(stored, samples)
    {
      orders := Reloaded(stored, samples);
    }

    method SetCriteria(c: Criteria)
      modifies this`criteria
      ensures criteria == c
    {
      criteria := c;
    }

    /** The filter effect, run whenever the orders or a filter change. */
    method Refilter(todayStart: int)
      modifies this`filteredOrders
      ensures filteredOrders == FilteredOrders(orders, criteria, todayStart)
    {
      filteredOrders := RunFilters(orders, criteria, todayStart);
    }

    method UpdateOrderStatus(id: string, status: string)
      modifies this`orders
      ensures orders == SetStatus(old(orders), id, status)
    {
      orders := SetStatus(orders, id, status);
    }

    method CancelOrder(id: string, reason: string)
      modifies this`orders
      ensures orders == Cancel(old(orders), id, reason)
    {
      orders := Cancel(orders, id, reason);
    }
  }
}
