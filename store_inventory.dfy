/** The store's stock screen (Store/InventoryManagement.tsx): the stock status
    rule, restocking, stock adjustment, minimum-stock edits, registering an
    item, selecting items for a bulk order, the purchase cart and its
    submission. */
module StoreInventory {
  import opened Common

  datatype StockStatus = Out | Critical | Low | Sufficient

  datatype Item = Item(
    id: int,
    name: string,
    category: string,
    currentStock: int,
    minStock: int,
    maxStock: int,
    unit: string,
    unitPrice: int,
    lastRestocked: string,
    expiryDate: string,
    supplier: string,
    status: StockStatus,
    weeklyUsage: int,
    location: string)

  // ---------------------------------------------------------------------------
  // Stock status
  // ---------------------------------------------------------------------------

  /** getStockStatus: none left is 'out'; at most half the minimum is
      'critical'; at most the minimum is 'low'; above it 'sufficient'.
      `stock <= min * 0.5` is written `2 * stock <= min`. */
  function StockStatusOf(currentStock: int, minStock: int): (s: StockStatus)
    ensures s == Out <==> currentStock == 0
    ensures s == Sufficient ==> currentStock > minStock
    ensures currentStock > 0 ==> (s == Sufficient <==> currentStock > minStock)
    ensures s == Critical ==> 2 * currentStock <= minStock
    ensures s == Low ==> 2 * currentStock > minStock && currentStock <= minStock
  {
    if currentStock == 0 then Out
    else if 2 * currentStock <= minStock then Critical
    else if currentStock <= minStock then Low
    else Sufficient
  }

  /** The rule handleUpdateMinStock applies to the item it edits. */
  function MinStockRuleStatus(currentStock: int, newMinStock: int): StockStatus {
    if currentStock <= newMinStock then
      (if currentStock == 0 then Out else if 2 * currentStock <= newMinStock then Critical else Low)
    else Sufficient
  }

  /** For every minimum the save button lets through (not negative), the
      minimum-stock edit classifies exactly as getStockStatus does. */
  lemma MinStockRuleAgrees(currentStock: int, newMinStock: int)
    requires newMinStock >= 0
    ensures MinStockRuleStatus(currentStock, newMinStock) == StockStatusOf(currentStock, newMinStock)
  {
  }

  /** With a negative minimum the two rules part: no stock reads 'sufficient'
      to the edit and 'out' to getStockStatus. */
  lemma MinStockRuleNegative()
    ensures MinStockRuleStatus(0, -1) == Sufficient && StockStatusOf(0, -1) == Out
  {
  }

  /** How bad a status is: out, critical, low, sufficient. */
  function Severity(s: StockStatus): nat {
    match s
    case Out => 0
    case Critical => 1
    case Low => 2
    case Sufficient => 3
  }

  /** More stock never gives a worse status. */
  lemma StatusMonotone(a: int, b: int, minStock: int)
    requires 0 <= a <= b
    ensures Severity(StockStatusOf(a, minStock)) <= Severity(StockStatusOf(b, minStock))
  {
  }

  // ---------------------------------------------------------------------------
  // Changes to one item
  // ---------------------------------------------------------------------------

  /** Restock: the quantity is added, the date recorded, and the status set to
      'sufficient' whatever the new stock is. */
  function Restocked(items: seq<Item>, id: int, quantity: int, today: string): (r: seq<Item>)
    ensures |r| == |items|
    ensures forall i :: 0 <= i < |r| ==>
              r[i] == if items[i].id == id
                      then items[i].(currentStock := items[i].currentStock + quantity,
                                     lastRestocked := today, status := Sufficient)
                      else items[i]
  {
    seq(|items|, i requires 0 <= i < |items| =>
      if items[i].id == id
      then items[i].(currentStock := items[i].currentStock + quantity, lastRestocked := today, status := Sufficient)
      else items[i])
  }

  /** Adjust: the stock becomes the counted value, 'low' at or under the minimum. */
  function Adjusted(items: seq<Item>, id: int, newStock: int): (r: seq<Item>)
    ensures |r| == |items|
    ensures forall i :: 0 <= i < |r| ==>
              r[i] == if items[i].id == id
                      then items[i].(currentStock := newStock,
                                     status := if newStock <= items[i].minStock then Low else Sufficient)
                      else items[i]
  {
    seq(|items|, i requires 0 <= i < |items| =>
      if items[i].id == id
      then items[i].(currentStock := newStock, status := if newStock <= items[i].minStock then Low else Sufficient)
      else items[i])
  }

  /** handleUpdateMinStock over the list. */
  function WithMinStock(items: seq<Item>, id: int, newMinStock: int): (r: seq<Item>)
    ensures |r| == |items|
    ensures forall i :: 0 <= i < |r| ==>
              r[i] == if items[i].id == id
                      then items[i].(minStock := newMinStock,
                                     status := MinStockRuleStatus(items[i].currentStock, newMinStock))
                      else items[i]
  {
    seq(|items|, i requires 0 <= i < |items| =>
      if items[i].id == id
      then items[i].(minStock := newMinStock, status := MinStockRuleStatus(items[i].currentStock, newMinStock))
      else items[i])
  }

  /** An adjusted item's status is 'low' or 'sufficient' and never 'out' or
      'critical', even at zero stock, where getStockStatus says 'out'. */
  lemma AdjustNeverOut(items: seq<Item>, id: int, newStock: int, i: nat)
    requires i < |items| && items[i].id == id
    ensures Adjusted(items, id, newStock)[i].status == (if newStock <= items[i].minStock then Low else Sufficient)
    ensures newStock == 0 ==> StockStatusOf(newStock, items[i].minStock) == Out
                              && Adjusted(items, id, newStock)[i].status != Out
  {
  }

  /** A valid minimum edit leaves every edited item classified by getStockStatus. */
  lemma MinStockEditConsistent(items: seq<Item>, id: int, newMinStock: int)
    requires newMinStock >= 0
    ensures forall i :: 0 <= i < |items| && items[i].id == id ==>
              WithMinStock(items, id, newMinStock)[i].status
              == StockStatusOf(items[i].currentStock, newMinStock)
  {
    forall i | 0 <= i < |items| && items[i].id == id
      ensures WithMinStock(items, id, newMinStock)[i].status == StockStatusOf(items[i].currentStock, newMinStock)
    {
      MinStockRuleAgrees(items[i].currentStock, newMinStock);
    }
  }

  // ---------------------------------------------------------------------------
  // Registering an item
  // ---------------------------------------------------------------------------

  /** The register form after parsing: None stands for a blank or non-numeric field. */
  datatype RegisterInput = RegisterInput(
    itemName: string,
    category: string,
    initialStock: Option<int>,
    minStock: int,
    maxStock: int,
    unit: string,
    unitPrice: int,
    expiryDate: string,
    supplier: string,
    weeklyUsage: Option<int>,
    location: string)

  /** `parseInt(x) || 0`. */
  function OrZero(v: Option<int>): int {
    if v.None? then 0 else v.value
  }

  /** The item the register form adds: the next id, '직접구매' when no supplier
      is given, and 'low' exactly when a given initial stock is at most the
      minimum (a blank initial stock compares false and gives 'sufficient'). */
  function NewItem(id: int, d: RegisterInput, today: string): (it: Item)
    ensures it.id == id && it.currentStock == OrZero(d.initialStock)
    ensures it.supplier == (if d.supplier == "" then "직접구매" else d.supplier)
    ensures it.status == Low <==> d.initialStock.Some? && d.initialStock.value <= d.minStock
    ensures it.status == Low || it.status == Sufficient
  {
    Item(id, d.itemName, d.category, OrZero(d.initialStock), d.minStock, d.maxStock, d.unit, d.unitPrice,
         today, d.expiryDate, OrElse(d.supplier, "직접구매"),
         if d.initialStock.Some? && d.initialStock.value <= d.minStock then Low else Sufficient,
         OrZero(d.weeklyUsage), d.location)
  }

  function ItemIds(items: seq<Item>): (r: seq<int>)
    ensures |r| == |items| && forall i :: 0 <= i < |r| ==> r[i] == items[i].id
  {
    seq(|items|, i requires 0 <= i < |items| => items[i].id)
  }

  /** The registered item's id, `Math.max(...ids) + 1`, is above every id in a
      non-empty list, so it is new. */
  lemma RegisteredIdIsFresh(items: seq<Item>)
    requires items != []
    ensures JsMaxPlusOne(ItemIds(items)).Finite?
    ensures forall i :: 0 <= i < |items| ==> items[i].id < JsMaxPlusOne(ItemIds(items)).n
  {
    NextIdMatchesSource(ItemIds(items));
  }

  // ---------------------------------------------------------------------------
  // Bulk orders and the purchase cart
  // ---------------------------------------------------------------------------

  /** A cart line: the item with the quantity to order and its price. */
  datatype CartLine = CartLine(item: Item, orderQuantity: int, totalPrice: int)

  /** The quantity a bulk order proposes: enough to refill to the maximum, and
      never less than the minimum stock. */
  function BulkQuantity(it: Item): (q: int)
    ensures q >= it.maxStock - it.currentStock && q >= it.minStock
    ensures q == it.maxStock - it.currentStock || q == it.minStock
  {
    if it.maxStock - it.currentStock >= it.minStock then it.maxStock - it.currentStock else it.minStock
  }

  function BulkLine(it: Item): CartLine {
    CartLine(it, BulkQuantity(it), BulkQuantity(it) * it.unitPrice)
  }

  predicate Selected(it: Item, selected: seq<int>) {
    it.id in selected
  }

  function IsSelected(selected: seq<int>): Item -> bool {
    it => Selected(it, selected)
  }

  /** `lines.every(l => l.totalPrice === l.orderQuantity * l.item.unitPrice)`. */
  predicate Priced(cart: seq<CartLine>) {
    forall i :: 0 <= i < |cart| ==> cart[i].totalPrice == cart[i].orderQuantity * cart[i].item.unitPrice
  }

  /** handleBulkOrder's cart: one line per selected item, in inventory order. */
  function BulkCart(items: seq<Item>, selected: seq<int>): (cart: seq<CartLine>)
    ensures Priced(cart)
    ensures |cart| == |Filter(items, IsSelected(selected))|
    ensures forall i :: 0 <= i < |cart| ==> cart[i].item == Filter(items, IsSelected(selected))[i]
    ensures forall i :: 0 <= i < |cart| ==> cart[i].item in items && cart[i].item.id in selected
    ensures forall i :: 0 <= i < |cart| ==>
              cart[i].orderQuantity == BulkQuantity(cart[i].item)
              && cart[i].item.currentStock + cart[i].orderQuantity >= cart[i].item.maxStock
  {
    var chosen := Filter(items, IsSelected(selected));
    seq(|chosen|, i requires 0 <= i < |chosen| => BulkLine(chosen[i]))
  }

  /** Every selected inventory item gets a line of the bulk cart. */
  lemma BulkCartCoversSelection(items: seq<Item>, selected: seq<int>, it: Item)
    requires it in items && it.id in selected
    ensures exists i :: 0 <= i < |BulkCart(items, selected)| && BulkCart(items, selected)[i].item == it
  {
    var chosen := Filter(items, IsSelected(selected));
    assert IsSelected(selected)(it);
    assert it in chosen;
    var i :| 0 <= i < |chosen| && chosen[i] == it;
    assert BulkCart(items, selected)[i].item == it;
  }

  /** The cart's quantity edit: the parsed value (`parseInt || 0`) is taken
      only when it is not negative, and the line price follows it. */
  function WithQuantity(cart: seq<CartLine>, id: int, quantity: int): (r: seq<CartLine>)
    ensures |r| == |cart|
    ensures forall i :: 0 <= i < |r| ==>
              r[i] == if cart[i].item.id == id
                      then cart[i].(orderQuantity := quantity, totalPrice := quantity * cart[i].item.unitPrice)
                      else cart[i]
  {
    seq(|cart|, i requires 0 <= i < |cart| =>
      if cart[i].item.id == id
      then cart[i].(orderQuantity := quantity, totalPrice := quantity * cart[i].item.unitPrice)
      else cart[i])
  }

  lemma WithQuantityKeepsPriced(cart: seq<CartLine>, id: int, quantity: int)
    requires Priced(cart)
    ensures Priced(WithQuantity(cart, id, quantity))
  {
  }

  /** Removing a cart line drops every line of that item. */
  predicate LineIdIsNot(l: CartLine, id: int) {
    l.item.id != id
  }

  function LineIsNot(id: int): CartLine -> bool {
    l => LineIdIsNot(l, id)
  }

  function IdIsNot(id: int): int -> bool {
    x => x != id
  }

  /** Removing lines keeps every remaining line priced. */
  lemma RemoveLineKeepsPriced(cart: seq<CartLine>, id: int)
    requires Priced(cart)
    ensures Priced(Filter(cart, LineIsNot(id)))
    ensures forall i :: 0 <= i < |Filter(cart, LineIsNot(id))| ==> Filter(cart, LineIsNot(id))[i].item.id != id
  {
  }

  function LineAmount(l: CartLine): int {
    l.totalPrice
  }

  function LineQuantity(l: CartLine): int {
    l.orderQuantity
  }

  function LineCost(l: CartLine): int {
    l.orderQuantity * l.item.unitPrice
  }

  /** In a priced cart the footer's total amount is the sum of quantity times
      unit price. */
  lemma PricedTotal(cart: seq<CartLine>)
    requires Priced(cart)
    ensures Sum(cart, LineAmount) == Sum(cart, LineCost)
  {
    SumSame(cart, LineAmount, LineCost);
  }

  // ---------------------------------------------------------------------------
  // Purchase orders
  // ---------------------------------------------------------------------------

  /** A purchase order's id: the 'PO-…' codes of the sample and quick orders,
      or the number the cart submission computes. */
  datatype PoId = Code(code: string) | Numeric(n: JsNumber)

  /** An order line; the quick order's single line carries no line total. */
  datatype PoLine = PoLine(name: string, quantity: int, unit: string, unitPrice: int, totalPrice: Option<int>)

  /** A purchase order; the quick order has no order number, priority or notes
      (empty here). */
  datatype PurchaseOrder = PurchaseOrder(
    id: PoId,
    orderNumber: string,
    lines: seq<PoLine>,
    supplier: string,
    orderDate: string,
    expectedDate: string,
    status: string,
    total: int,
    priority: string,
    notes: string)

  /** The quick order form ('order' modal). */
  datatype QuickOrderInput = QuickOrderInput(
    itemName: string, quantity: int, unit: string, unitPrice: int, supplier: string, expectedDate: string)

  /** `PO-${String(Date.now()).slice(-3)}`. */
  function QuickOrderId(now: nat): PoId {
    Code("PO-" + LastThree(NatToString(now)))
  }

  /** The quick order: one line, status 'pending', total quantity × unit price. */
  function QuickOrder(now: nat, d: QuickOrderInput, today: string): (o: PurchaseOrder)
    ensures o.id == QuickOrderId(now) && o.status == "pending"
    ensures o.lines == [PoLine(d.itemName, d.quantity, d.unit, d.unitPrice, None)]
    ensures o.total == o.lines[0].quantity * o.lines[0].unitPrice
  {
    PurchaseOrder(QuickOrderId(now), "", [PoLine(d.itemName, d.quantity, d.unit, d.unitPrice, None)],
                  d.supplier, today, d.expectedDate, "pending", d.quantity * d.unitPrice, "", "")
  }

  /** Two quick orders placed 1000 ms apart get the same id. */
  lemma QuickOrderIdRepeats(now: nat)
    requires now >= 100
    ensures QuickOrderId(now) == QuickOrderId(now + 1000)
  {
    LastThreeRepeats(now);
  }

  /** `Number(o.id)`: a 'PO-…' code is not a number. */
  function IdAsNumber(id: PoId): JsNumber {
    match id
    case Code(_) => NotANumber
    case Numeric(n) => n
  }

  /** Math.max of two numbers: NaN wins, -Infinity loses. */
  function JsMax(a: JsNumber, b: JsNumber): JsNumber {
    if a.NotANumber? || b.NotANumber? then NotANumber
    else if a.NegativeInfinity? then b
    else if b.NegativeInfinity? then a
    else Finite(if a.n >= b.n then a.n else b.n)
  }

  /** `Math.max(...orders.map(o => o.id))`. */
  function MaxOrderId(orders: seq<PurchaseOrder>): JsNumber {
    if orders == [] then NegativeInfinity else JsMax(IdAsNumber(orders[0].id), MaxOrderId(orders[1..]))
  }

  /** `+ 1`: infinities and NaN stay what they are. */
  function PlusOne(x: JsNumber): JsNumber {
    if x.Finite? then Finite(x.n + 1) else x
  }

  /** The id the cart submission gives its order, as written. */
  function CartOrderIdAsWritten(orders: seq<PurchaseOrder>): JsNumber {
    PlusOne(MaxOrderId(orders))
  }

  /** One id that is not a number makes the submitted id NaN. */
  lemma {:induction false} NonNumericIdGivesNaN(orders: seq<PurchaseOrder>, k: nat)
    requires k < |orders| && IdAsNumber(orders[k].id).NotANumber?
    ensures CartOrderIdAsWritten(orders) == NotANumber
  {
    if k > 0 {
      NonNumericIdGivesNaN(orders[1..], k - 1);
    }
  }

  /** The order list starts with the 'PO-001' and 'PO-002' samples, so the first
      cart submission gets the id NaN, and so does every later one: the new
      order's own id is NaN. */
  lemma CartOrderIdIsNaN(rest: seq<PurchaseOrder>, o: PurchaseOrder, next: PurchaseOrder)
    requires o.id == Code("PO-001")
    ensures CartOrderIdAsWritten([o] + rest) == NotANumber
    ensures next.id == Numeric(CartOrderIdAsWritten([o] + rest)) ==>
              CartOrderIdAsWritten([next] + ([o] + rest)) == NotANumber
  {
    NonNumericIdGivesNaN([o] + rest, 0);
    NonNumericIdGivesNaN([next] + ([o] + rest), 1);
  }

  /** The finite numeric ids among the orders. */
  function NumericIds(orders: seq<PurchaseOrder>): (r: seq<int>)
    ensures forall i :: 0 <= i < |orders| && IdAsNumber(orders[i].id).Finite? ==> IdAsNumber(orders[i].id).n in r
  {
    if orders == [] then []
    else
      var x := IdAsNumber(orders[0].id);
      (if x.Finite? then [x.n] else []) + NumericIds(orders[1..])
  }

  /** The id the cart submission evidently means: one more than the largest
      numeric id (1 when there is none), which no order has. */
  function CartOrderId(orders: seq<PurchaseOrder>): (r: int)
    ensures forall i :: 0 <= i < |orders| ==> orders[i].id != Numeric(Finite(r))
  {
    NextId(NumericIds(orders))
  }

  /** On orders whose ids are all numbers the two ids agree. */
  lemma {:induction false} CartOrderIdAgrees(orders: seq<PurchaseOrder>)
    requires orders != []
    requires forall i :: 0 <= i < |orders| ==> IdAsNumber(orders[i].id).Finite?
    ensures CartOrderIdAsWritten(orders) == Finite(CartOrderId(orders))
  {
    MaxAgrees(orders);
  }

  lemma {:induction false} MaxAgrees(orders: seq<PurchaseOrder>)
    requires orders != []
    requires forall i :: 0 <= i < |orders| ==> IdAsNumber(orders[i].id).Finite?
    ensures NumericIds(orders) != [] && MaxOrderId(orders) == Finite(MaxOf(NumericIds(orders)))
  {
    var x := IdAsNumber(orders[0].id);
    var tail := orders[1..];
    assert NumericIds(orders) == [x.n] + NumericIds(tail);
    if tail == [] {
      assert NumericIds(orders) == [x.n];
    } else {
      MaxAgrees(tail);
      assert NumericIds(orders)[1..] == NumericIds(tail);
    }
  }

  /** The cart submission form. */
  datatype CartForm = CartForm(supplier: string, expectedDate: string, priority: string, notes: string)

  /** Why OrderCartContent refuses to submit. */
  datatype SubmitError = MissingSupplierOrDate | BadQuantity

  function SubmitCheck(form: CartForm, cart: seq<CartLine>): (r: Option<SubmitError>)
    ensures r == None <==> form.supplier != "" && form.expectedDate != ""
                           && forall i :: 0 <= i < |cart| ==> cart[i].orderQuantity > 0
    ensures r == Some(BadQuantity) ==> exists i :: 0 <= i < |cart| && cart[i].orderQuantity <= 0
  {
    if form.supplier == "" || form.expectedDate == "" then Some(MissingSupplierOrDate)
    else if exists i :: 0 <= i < |cart| && cart[i].orderQuantity <= 0 then Some(BadQuantity)
    else None
  }

  /** `ORD` + year + two-digit month + two-digit day + the three-digit sequence
      number `orders.length + 1`. */
  function CartOrderNumber(year: nat, month: nat, day: nat, count: nat): (r: string)
    ensures |r| >= 3 + 3 && r[..3] == "ORD"
    ensures var p := PadStart(NatToString(count + 1), 3, '0'); |p| <= |r| && r[|r| - |p|..] == p
  {
    "ORD" + DateStamp(year, month, day) + PadStart(NatToString(count + 1), 3, '0')
  }

  /** The sequence part of the order number reads back as the new order's
      position, padded to three digits while there are fewer than 1000 orders. */
  lemma SequenceNumberRoundTrip(count: nat)
    requires count + 1 < 1000
    ensures |PadStart(NatToString(count + 1), 3, '0')| == 3
    ensures AllDigits(PadStart(NatToString(count + 1), 3, '0'))
    ensures DigitsValue(PadStart(NatToString(count + 1), 3, '0')) == count + 1
  {
    var s := NatToString(count + 1);
    assert |s| <= 3 by { SmallNatLength(count + 1); }
    DigitsValueOfNatToString(count + 1);
    DigitsValueLeadingZeros(3 - |s|, s);
  }

  lemma SmallNatLength(n: nat)
    requires n < 1000
    ensures |NatToString(n)| <= 3
  {
    if n >= 10 {
      assert |NatToString(n)| == |NatToString(n / 10)| + 1;
      if n / 10 >= 10 {
        assert |NatToString(n / 10)| == |NatToString(n / 100)| + 1 by { assert n / 10 / 10 == n / 100; }
      }
    }
  }

  function PoLineOf(l: CartLine): PoLine {
    PoLine(l.item.name, l.orderQuantity, l.item.unit, l.item.unitPrice, Some(l.totalPrice))
  }

  /** The order the cart submission prepends, corrected: the numeric id of
      CartOrderId, the cart's sum under the total the order table shows, and
      today as the order date the table shows. */
  function CartOrder(orders: seq<PurchaseOrder>, cart: seq<CartLine>, form: CartForm,
                     year: nat, month: nat, day: nat, today: string): (o: PurchaseOrder)
    ensures o.id == Numeric(Finite(CartOrderId(orders))) && o.status == "pending"
    ensures |o.lines| == |cart| && forall i :: 0 <= i < |cart| ==> o.lines[i] == PoLineOf(cart[i])
    ensures o.total == Sum(cart, LineAmount)
    ensures o.supplier == form.supplier && o.expectedDate == form.expectedDate
  {
    PurchaseOrder(Numeric(Finite(CartOrderId(orders))), CartOrderNumber(year, month, day, |orders|),
                  seq(|cart|, i requires 0 <= i < |cart| => PoLineOf(cart[i])),
                  form.supplier, today, form.expectedDate, "pending", Sum(cart, LineAmount),
                  form.priority, form.notes)
  }

  /** The cart order as onSubmitOrder writes it, seen through the fields the
      order table reads (`total` shown as `value || 0`, `orderDate` shown as a
      date). The object puts the sum under `totalAmount` and today under
      `requestDate` and has neither `total` nor `orderDate`, so the table
      shows ₩0 and an invalid date; an absent date is "" here. The id is the
      corrected one, to keep this finding apart from CartOrderIdIsNaN. */
  function CartOrderAsWritten(orders: seq<PurchaseOrder>, cart: seq<CartLine>, form: CartForm,
                              year: nat, month: nat, day: nat, today: string): (o: PurchaseOrder)
    ensures o.total == 0 && o.orderDate == ""
    ensures o.id == Numeric(Finite(CartOrderId(orders))) && o.status == "pending"
    ensures |o.lines| == |cart| && forall i :: 0 <= i < |cart| ==> o.lines[i] == PoLineOf(cart[i])
    ensures o.supplier == form.supplier && o.expectedDate == form.expectedDate
  {
    PurchaseOrder(Numeric(Finite(CartOrderId(orders))), CartOrderNumber(year, month, day, |orders|),
                  seq(|cart|, i requires 0 <= i < |cart| => PoLineOf(cart[i])),
                  form.supplier, "", form.expectedDate, "pending", 0,
                  form.priority, form.notes)
  }

  /** A cart whose lines all cost something has a positive sum, which the
      order as written shows as ₩0 and the corrected order shows in full. */
  lemma CartOrderTotalLost(orders: seq<PurchaseOrder>, cart: seq<CartLine>, form: CartForm,
                           year: nat, month: nat, day: nat, today: string)
    requires cart != [] && forall i :: 0 <= i < |cart| ==> cart[i].totalPrice > 0
    ensures CartOrderAsWritten(orders, cart, form, year, month, day, today).total == 0
    ensures CartOrder(orders, cart, form, year, month, day, today).total > 0
  {
    PositiveLinesPositiveSum(cart);
  }

  lemma {:induction false} PositiveLinesPositiveSum(cart: seq<CartLine>)
    requires cart != [] && forall i :: 0 <= i < |cart| ==> cart[i].totalPrice > 0
    ensures Sum(cart, LineAmount) > 0
    decreases |cart|
  {
    var pre := cart[..|cart| - 1];
    if pre != [] {
      PositiveLinesPositiveSum(pre);
    }
  }

  // ---------------------------------------------------------------------------
  // Statistics
  // ---------------------------------------------------------------------------

  predicate HasStatus(it: Item, s: StockStatus) {
    it.status == s
  }

  function StatusIs(s: StockStatus): Item -> bool {
    it => HasStatus(it, s)
  }

  /** lowStockItems: 'low', 'critical' or 'out'. */
  predicate NeedsStock(it: Item) {
    it.status != Sufficient
  }

  /** The four filter counts add up to the item count, and the low-stock card
      counts every item that is not 'sufficient'. */
  lemma {:induction false} StatusCountsAddUp(items: seq<Item>)
    ensures Count(items, StatusIs(Out)) + Count(items, StatusIs(Critical)) + Count(items, StatusIs(Low))
            + Count(items, StatusIs(Sufficient)) == |items|
    ensures Count(items, NeedsStock) == |items| - Count(items, StatusIs(Sufficient))
  {
    if items != [] {
      StatusCountsAddUp(items[1..]);
    }
  }

  function StockValue(it: Item): int {
    it.currentStock * it.unitPrice
  }

  lemma RestockedValue(it: Item, quantity: int, today: string)
    ensures StockValue(it.(currentStock := it.currentStock + quantity, lastRestocked := today, status := Sufficient))
            == StockValue(it) + quantity * it.unitPrice
  {
    var a, p := it.currentStock, it.unitPrice;
    assert (a + quantity) * p == a * p + quantity * p;
  }

  /** Restocking one item raises the stock value by the quantity times its price. */
  lemma RestockValue(items: seq<Item>, k: nat, quantity: int, today: string)
    requires k < |items|
    requires forall j :: 0 <= j < |items| && j != k ==> items[j].id != items[k].id
    ensures Sum(Restocked(items, items[k].id, quantity, today), StockValue)
            == Sum(items, StockValue) + quantity * items[k].unitPrice
  {
    var r := Restocked(items, items[k].id, quantity, today);
    var it := items[k];
    var v := it.(currentStock := it.currentStock + quantity, lastRestocked := today, status := Sufficient);
    forall j | 0 <= j < |r|
      ensures r[j] == items[k := v][j]
    {
    }
    assert r == items[k := v];
    SumUpdate(items, k, v, StockValue);
    RestockedValue(it, quantity, today);
    var before := Sum(items, StockValue);
    assert Sum(r, StockValue) == before - StockValue(it) + StockValue(v);
  }

  // ---------------------------------------------------------------------------
  // The screen
  // ---------------------------------------------------------------------------

  class StoreInventory {
    var inventory: seq<Item>
    var orders: seq<PurchaseOrder>
    var selected: seq<int>
    var cart: seq<CartLine>

    /** The item list is never empty (it starts from the sample stock and the
        screen only adds), and every cart line is priced. */
    ghost predicate Valid()
      reads this
    {
      inventory != [] && Priced(cart)
    }

    constructor (items: seq<Item>, initialOrders: seq<PurchaseOrder>)
      requires items != []
      ensures Valid()
      ensures inventory == items && orders == initialOrders && selected == [] && cart == []
    {
      inventory := items;
      orders := initialOrders;
      selected := [];
      cart := [];
    }

    /** handleSaveMinStock then handleUpdateMinStock: a blank or negative
        minimum is refused. */
    method SaveMinStock(id: int, value: Option<int>) returns (saved: bool)
      requires Valid()
      modifies this`inventory
      ensures Valid()
      ensures saved <==> value.Some? && value.value >= 0
      ensures saved ==> inventory == WithMinStock(old(inventory), id, value.value)
      ensures saved ==> forall i :: 0 <= i < |inventory| && old(inventory)[i].id == id ==>
                          inventory[i].status == StockStatusOf(inventory[i].currentStock, inventory[i].minStock)
      ensures !saved ==> inventory == old(inventory)
    {
      if value.None? || value.value < 0 {
        return false;
      }
      inventory := WithMinStock(inventory, id, value.value);
      MinStockEditConsistent(old(inventory), id, value.value);
      saved := true;
    }

    method Restock(id: int, quantity: int, today: string)
      requires Valid()
      modifies this`inventory
      ensures Valid()
      ensures inventory == Restocked(old(inventory), id, quantity, today)
    {
      inventory := Restocked(inventory, id, quantity, today);
    }

    method Adjust(id: int, newStock: int)
      requires Valid()
      modifies this`inventory
      ensures Valid()
      ensures inventory == Adjusted(old(inventory), id, newStock)
    {
      inventory := Adjusted(inventory, id, newStock);
    }

    /** The quick order goes to the front of the order list. */
    method PlaceQuickOrder(now: nat, d: QuickOrderInput, today: string)
      modifies this`orders
      ensures orders == [QuickOrder(now, d, today)] + old(orders)
    {
      orders := [QuickOrder(now, d, today)] + orders;
    }

    /** Register: the new item goes last with an id above every other. */
    method Register(d: RegisterInput, today: string)
      requires Valid()
      modifies this`inventory
      ensures Valid()
      ensures inventory == old(inventory) + [NewItem(NextId(ItemIds(old(inventory))), d, today)]
      ensures forall i :: 0 <= i < |old(inventory)| ==> old(inventory)[i].id != inventory[|inventory| - 1].id
    {
      var id := NextId(ItemIds(inventory));
      inventory := inventory + [NewItem(id, d, today)];
    }

    method SelectItem(id: int, checked: bool)
      modifies this`selected
      ensures checked ==> selected == old(selected) + [id]
      ensures !checked ==> selected == Filter(old(selected), IdIsNot(id)) && id !in selected
    {
      if checked {
        selected := selected + [id];
      } else {
        selected := Filter(selected, IdIsNot(id));
      }
    }

    method SelectAll(checked: bool)
      modifies this`selected
      ensures selected == if checked then ItemIds(inventory) else []
    {
      selected := if checked then ItemIds(inventory) else [];
    }

    /** handleBulkOrder: refused with nothing selected, otherwise the cart is
        rebuilt from the selected items. */
    method BulkOrder() returns (cartOpen: bool)
      requires Valid()
      modifies this`cart
      ensures Valid()
      ensures cartOpen <==> selected != []
      ensures cartOpen ==> cart == BulkCart(inventory, selected)
      ensures !cartOpen ==> cart == old(cart)
    {
      if selected == [] {
        return false;
      }
      cart := BulkCart(inventory, selected);
      cartOpen := true;
    }

    /** handleQuantityChange: `parseInt(v) || 0`, applied when not negative. */
    method UpdateCartQuantity(id: int, parsed: Option<int>)
      requires Valid()
      modifies this`cart
      ensures Valid()
      ensures OrZero(parsed) >= 0 ==> cart == WithQuantity(old(cart), id, OrZero(parsed))
      ensures OrZero(parsed) < 0 ==> cart == old(cart)
    {
      var q := OrZero(parsed);
      if q >= 0 {
        WithQuantityKeepsPriced(cart, id, q);
        cart := WithQuantity(cart, id, q);
      }
    }

    /** Removing a cart line also deselects the item. */
    method RemoveCartLine(id: int)
      requires Valid()
      modifies this`cart, this`selected
      ensures Valid()
      ensures cart == Filter(old(cart), LineIsNot(id)) && selected == Filter(old(selected), IdIsNot(id))
      ensures id !in selected && forall i :: 0 <= i < |cart| ==> cart[i].item.id != id
    {
      RemoveLineKeepsPriced(cart, id);
      cart := Filter(cart, LineIsNot(id));
      selected := Filter(selected, IdIsNot(id));
    }

    /** OrderCartContent.handleSubmit and onSubmitOrder: on success the order
        goes to the front and the selection and cart are emptied. */
    method SubmitCart(form: CartForm, year: nat, month: nat, day: nat, today: string)
      returns (error: Option<SubmitError>)
      requires Valid()
      modifies this`orders, this`selected, this`cart
      ensures Valid()
      ensures error == SubmitCheck(form, old(cart))
      ensures error.None? ==> orders == [CartOrder(old(orders), old(cart), form, year, month, day, today)] + old(orders)
                              && selected == [] && cart == []
      ensures error.Some? ==> orders == old(orders) && selected == old(selected) && cart == old(cart)
    {
      error := SubmitCheck(form, cart);
      if error.None? {
        var o := CartOrder(orders, cart, form, year, month, day, today);
        orders := [o] + orders;
        selected := [];
        cart := [];
      }
    }
  }
}
