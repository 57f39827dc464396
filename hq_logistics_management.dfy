/** Head office's purchasing and suppliers (HQ/LogisticsManagement.tsx):
    placing purchase orders, registering suppliers, deleting either, the
    order search and the statistics cards. */
module HqLogistics {
  import opened Common

  datatype OrderItem = OrderItem(name: string, quantity: int, unit: string, price: int)

  datatype Order = Order(
    id: nat,
    orderNumber: string,
    store: string,
    supplier: string,
    items: seq<OrderItem>,
    totalAmount: int,
    orderDate: string,
    expectedDate: string,
    deliveryDate: Option<string>,
    status: string,
    urgency: string,
    approver: string)

  datatype Supplier = Supplier(
    id: nat,
    name: string,
    category: string,
    contact: string,
    phone: string,
    email: string,
    address: string,
    rating: real,
    totalOrders: int,
    totalAmount: int,
    status: string,
    contractDate: string,
    paymentTerms: string)

  /** The purchase order form. */
  datatype OrderForm = OrderForm(store: string, supplier: string, expectedDate: string, urgency: string)

  /** The supplier form. */
  datatype SupplierForm = SupplierForm(
    name: string,
    category: string,
    contact: string,
    phone: string,
    email: string,
    address: string,
    paymentTerms: string)

  // ---------------------------------------------------------------------------
  // Placing an order
  // ---------------------------------------------------------------------------

  /** 'PO-2024-' followed by the sequence number padded to three digits. */
  function OrderNumber(n: nat): (r: string)
    ensures |r| >= 11 && r[..8] == "PO-2024-"
  {
    "PO-2024-" + PadStart(NatToString(n), 3, '0')
  }

  /** The sequence number reads back out of the order number, so different
      numbers give different order numbers. */
  lemma OrderNumberReadsBack(n: nat)
    ensures AllDigits(OrderNumber(n)[8..]) && DigitsValue(OrderNumber(n)[8..]) == n
  {
    PaddedReadsBack(n, 3);
    assert OrderNumber(n)[8..] == PadStart(NatToString(n), 3, '0');
  }

  lemma OrderNumberInjective(a: nat, b: nat)
    ensures OrderNumber(a) == OrderNumber(b) ==> a == b
  {
    OrderNumberReadsBack(a);
    OrderNumberReadsBack(b);
  }

  function Placed(id: nat, number: string, f: OrderForm, today: string): Order {
    Order(id, number, f.store, f.supplier, [], 0, today, f.expectedDate, None, "발주완료", f.urgency, "관리자")
  }

  /** handleAddOrder as written: id and sequence number are the count plus one. */
  function NewOrderAsWritten(orders: seq<Order>, f: OrderForm, today: string): (o: Order)
    ensures o.id == |orders| + 1 && o.orderNumber == OrderNumber(|orders| + 1)
  {
    Placed(|orders| + 1, OrderNumber(|orders| + 1), f, today)
  }

  predicate OrderIdIsNot(o: Order, id: int) {
    o.id != id
  }

  function OrderIdIsNotTest(id: int): Order -> bool {
    o => OrderIdIsNot(o, id)
  }

  /** confirmDelete on the orders tab. */
  function DeletedOrders(orders: seq<Order>, id: int): (r: seq<Order>)
    ensures forall o :: o in r <==> o in orders && o.id != id
  {
    Filter(orders, OrderIdIsNotTest(id))
  }

  /** With orders 1 and 2, deleting 1 and placing another repeats id 2 and
      order number PO-2024-002. */
  lemma LengthNumberRepeats(a: Order, b: Order, f: OrderForm, today: string)
    requires a.id == 1 && b.id == 2 && b.orderNumber == OrderNumber(2)
    ensures var after := DeletedOrders([a, b], 1) + [NewOrderAsWritten(DeletedOrders([a, b], 1), f, today)];
            |after| == 2 && after[0].id == after[1].id && after[0].orderNumber == after[1].orderNumber
  {
    DeletedFirstOfTwo(a, b);
  }

  lemma DeletedFirstOfTwo(a: Order, b: Order)
    requires a.id == 1 && b.id == 2
    ensures DeletedOrders([a, b], 1) == [b]
  {
    FilterRemovesOne([a, b], 0, OrderIdIsNotTest(1));
    assert [a, b][..0] + [a, b][1..] == [b];
  }

  function OrderIds(orders: seq<Order>): (r: seq<int>)
    ensures |r| == |orders| && forall i :: 0 <= i < |r| ==> r[i] == orders[i].id
  {
    seq(|orders|, i requires 0 <= i < |orders| => orders[i].id)
  }

  /** An order's number carries its id. */
  predicate Numbered(orders: seq<Order>) {
    forall i :: 0 <= i < |orders| ==> orders[i].orderNumber == OrderNumber(orders[i].id)
  }

  predicate OrderIdsDistinct(orders: seq<Order>) {
    forall i, j :: 0 <= i < j < |orders| ==> orders[i].id != orders[j].id
  }

  /** handleAddOrder with the id one more than the largest and the order
      number made from it: placed, no lines yet, nothing delivered. */
  function NewOrder(orders: seq<Order>, f: OrderForm, today: string): (o: Order)
    ensures forall i :: 0 <= i < |orders| ==> orders[i].id < o.id
    ensures o.orderNumber == OrderNumber(o.id)
    ensures o.status == "발주완료" && o.items == [] && o.totalAmount == 0 && o.deliveryDate.None?
    ensures o.approver == "관리자" && o.orderDate == today
    ensures o.store == f.store && o.supplier == f.supplier && o.urgency == f.urgency
  {
    var id := NextId(OrderIds(orders));
    Placed(id, OrderNumber(id), f, today)
  }

  /** Numbered orders with distinct ids have distinct order numbers. */
  lemma DistinctIdsGiveDistinctNumbers(orders: seq<Order>)
    requires OrderIdsDistinct(orders) && Numbered(orders)
    ensures forall i, j :: 0 <= i < j < |orders| ==> orders[i].orderNumber != orders[j].orderNumber
  {
    forall i, j | 0 <= i < j < |orders|
      ensures orders[i].orderNumber != orders[j].orderNumber
    {
      OrderNumberInjective(orders[i].id, orders[j].id);
    }
  }

  /** Placing an order keeps ids distinct and every number made from its id. */
  lemma NewOrderKeepsIdsDistinct(orders: seq<Order>, f: OrderForm, today: string)
    requires OrderIdsDistinct(orders) && Numbered(orders)
    ensures OrderIdsDistinct(orders + [NewOrder(orders, f, today)])
    ensures Numbered(orders + [NewOrder(orders, f, today)])
  {
    var o := NewOrder(orders, f, today);
    AppendAboveKeepsDistinct(orders, o);
    AppendNumberedKeepsNumbered(orders, o);
  }

  lemma AppendAboveKeepsDistinct(orders: seq<Order>, o: Order)
    requires OrderIdsDistinct(orders)
    requires forall i :: 0 <= i < |orders| ==> orders[i].id < o.id
    ensures OrderIdsDistinct(orders + [o])
  {
    var r := orders + [o];
    forall i, j | 0 <= i < j < |r| ensures r[i].id != r[j].id {
      assert r[i] == orders[i];
      if j < |orders| {
        assert r[j] == orders[j];
      }
    }
  }

  lemma AppendNumberedKeepsNumbered(orders: seq<Order>, o: Order)
    requires Numbered(orders) && o.orderNumber == OrderNumber(o.id)
    ensures Numbered(orders + [o])
  {
    var r := orders + [o];
    forall i | 0 <= i < |r| ensures r[i].orderNumber == OrderNumber(r[i].id) {
      if i < |orders| {
        assert r[i] == orders[i];
      }
    }
  }

  /** Placing an order keeps order numbers distinct. */
  lemma NewOrderKeepsNumbersDistinct(orders: seq<Order>, f: OrderForm, today: string)
    requires OrderIdsDistinct(orders) && Numbered(orders)
    ensures var r := orders + [NewOrder(orders, f, today)];
            forall i, j :: 0 <= i < j < |r| ==> r[i].orderNumber != r[j].orderNumber
  {
    NewOrderKeepsIdsDistinct(orders, f, today);
    DistinctIdsGiveDistinctNumbers(orders + [NewOrder(orders, f, today)]);
  }

  // ---------------------------------------------------------------------------
  // Registering a supplier
  // ---------------------------------------------------------------------------

  function Contracted(id: nat, f: SupplierForm, today: string): Supplier {
    Supplier(id, f.name, f.category, f.contact, f.phone, f.email, f.address, 0.0, 0, 0, "활성", today, f.paymentTerms)
  }

  function SupplierIds(suppliers: seq<Supplier>): (r: seq<int>)
    ensures |r| == |suppliers| && forall i :: 0 <= i < |r| ==> r[i] == suppliers[i].id
  {
    seq(|suppliers|, i requires 0 <= i < |suppliers| => suppliers[i].id)
  }

  /** handleAddSupplier as written: the id is the count plus one. */
  function NewSupplierAsWritten(suppliers: seq<Supplier>, f: SupplierForm, today: string): (s: Supplier)
    ensures s.id == |suppliers| + 1
  {
    Contracted(|suppliers| + 1, f, today)
  }

  /** handleAddSupplier with a fresh id: unrated, no orders yet, active. */
  function NewSupplier(suppliers: seq<Supplier>, f: SupplierForm, today: string): (s: Supplier)
    ensures forall i :: 0 <= i < |suppliers| ==> suppliers[i].id < s.id
    ensures s.rating == 0.0 && s.totalOrders == 0 && s.totalAmount == 0 && s.status == "활성"
    ensures s.contractDate == today && s.name == f.name && s.paymentTerms == f.paymentTerms
  {
    Contracted(NextId(SupplierIds(suppliers)), f, today)
  }

  predicate SupplierIdIsNot(s: Supplier, id: int) {
    s.id != id
  }

  function SupplierIdIsNotTest(id: int): Supplier -> bool {
    s => SupplierIdIsNot(s, id)
  }

  /** confirmDelete on the suppliers tab. */
  function DeletedSuppliers(suppliers: seq<Supplier>, id: int): (r: seq<Supplier>)
    ensures forall s :: s in r <==> s in suppliers && s.id != id
  {
    Filter(suppliers, SupplierIdIsNotTest(id))
  }

  /** With suppliers 1 and 2, deleting 1 and registering another gives two
      suppliers with id 2. */
  lemma SupplierIdCollides(a: Supplier, b: Supplier, f: SupplierForm, today: string)
    requires a.id == 1 && b.id == 2
    ensures var after := DeletedSuppliers([a, b], 1) + [NewSupplierAsWritten(DeletedSuppliers([a, b], 1), f, today)];
            |after| == 2 && after[0].id == after[1].id == 2
  {
    DeletedFirstSupplierOfTwo(a, b);
  }

  lemma DeletedFirstSupplierOfTwo(a: Supplier, b: Supplier)
    requires a.id == 1 && b.id == 2
    ensures DeletedSuppliers([a, b], 1) == [b]
  {
    FilterRemovesOne([a, b], 0, SupplierIdIsNotTest(1));
    assert [a, b][..0] + [a, b][1..] == [b];
  }

  predicate SupplierIdsDistinct(suppliers: seq<Supplier>) {
    forall i, j :: 0 <= i < j < |suppliers| ==> suppliers[i].id != suppliers[j].id
  }

  /** The corrected id keeps supplier ids distinct whatever was deleted before. */
  lemma AddSupplierKeepsIdsDistinct(suppliers: seq<Supplier>, f: SupplierForm, today: string)
    requires SupplierIdsDistinct(suppliers)
    ensures SupplierIdsDistinct(suppliers + [NewSupplier(suppliers, f, today)])
  {
    var s := NewSupplier(suppliers, f, today);
    var r := suppliers + [s];
    assert r[|suppliers|] == s;
    assert forall i :: 0 <= i < |suppliers| ==> r[i] == suppliers[i];
  }

  // ---------------------------------------------------------------------------
  // Search and statistics
  // ---------------------------------------------------------------------------

  predicate Shown(o: Order, term: string, status: string) {
    (MatchesTerm(o.orderNumber, term) || MatchesTerm(o.store, term) || MatchesTerm(o.supplier, term))
    && (status == "all" || o.status == status)
  }

  function ShownBy(term: string, status: string): Order -> bool {
    o => Shown(o, term, status)
  }

  /** filteredOrders. */
  function FilteredOrders(orders: seq<Order>, term: string, status: string): (r: seq<Order>)
    ensures multiset(r) <= multiset(orders)
    ensures forall o :: o in r <==> o in orders && Shown(o, term, status)
  {
    Filter(orders, ShownBy(term, status))
  }

  function PendingTest(): Order -> bool {
    (o: Order) => o.status == "발주완료"
  }

  function AmountOf(): Order -> int {
    (o: Order) => o.totalAmount
  }

  datatype Stats = Stats(totalOrders: nat, pendingOrders: nat, totalAmount: int, avgOrderValue: real)

  /** The cards; `totalAmount / totalOrders || 0` turns the empty list's NaN into 0. */
  function StatsOf(orders: seq<Order>): (s: Stats)
    ensures s.totalOrders == |orders| && s.pendingOrders <= s.totalOrders
    ensures s.totalAmount == Sum(orders, AmountOf())
    ensures orders == [] ==> s.avgOrderValue == 0.0
    ensures orders != [] ==> s.avgOrderValue * |orders| as real == s.totalAmount as real
  {
    var total := Sum(orders, AmountOf());
    Stats(|orders|, Count(orders, PendingTest()), total,
          if orders == [] then 0.0 else total as real / |orders| as real)
  }

  /** A new order is pending and worth nothing yet: one more pending order,
      the same total. */
  lemma AddOrderStats(orders: seq<Order>, f: OrderForm, today: string)
    ensures var after := StatsOf(orders + [NewOrder(orders, f, today)]);
            after.pendingOrders == StatsOf(orders).pendingOrders + 1
            && after.totalAmount == StatsOf(orders).totalAmount
  {
    var o := NewOrder(orders, f, today);
    CountAppend(orders, [o], PendingTest());
    assert (orders + [o])[..|orders|] == orders;
  }

  // ---------------------------------------------------------------------------
  // The screen
  // ---------------------------------------------------------------------------

  datatype Tab = OrdersTab | SuppliersTab

  class HqLogistics {
    var orders: seq<Order>
    var suppliers: seq<Supplier>
    var activeTab: Tab
    var selected: Option<int>

    constructor (initialOrders: seq<Order>, initialSuppliers: seq<Supplier>)
      ensures orders == initialOrders && suppliers == initialSuppliers
      ensures activeTab == OrdersTab && selected.None?
    {
      orders := initialOrders;
      suppliers := initialSuppliers;
      activeTab := OrdersTab;
      selected := None;
    }

    method AddOrder(f: OrderForm, today: string)
      modifies this`orders
      ensures orders == old(orders) + [NewOrder(old(orders), f, today)]
    {
      orders := orders + [NewOrder(orders, f, today)];
    }

    method AddSupplier(f: SupplierForm, today: string)
      modifies this`suppliers
      ensures suppliers == old(suppliers) + [NewSupplier(old(suppliers), f, today)]
    {
      suppliers := suppliers + [NewSupplier(suppliers, f, today)];
    }

    /** handleDeleteOrder / handleDeleteSupplier: select the row and its tab. */
    method AskDelete(id: int, tab: Tab)
      modifies this`selected, this`activeTab
      ensures selected == Some(id) && activeTab == tab
    {
      selected := Some(id);
      activeTab := tab;
    }

    /** confirmDelete: the active tab decides which list loses the row. */
    method ConfirmDelete()
      requires selected.Some?
      modifies this`orders, this`suppliers, this`selected
      ensures activeTab == OrdersTab ==> orders == DeletedOrders(old(orders), old(selected).value) && suppliers == old(suppliers)
      ensures activeTab == SuppliersTab ==> suppliers == DeletedSuppliers(old(suppliers), old(selected).value) && orders == old(orders)
      ensures selected.None?
    {
      if activeTab == OrdersTab {
        orders := DeletedOrders(orders, selected.value);
      } else {
        suppliers := DeletedSuppliers(suppliers, selected.value);
      }
      selected := None;
    }
  }
}
