/** The POS screen (Store/OrderSystem.tsx): cart handlers, discounts and
    payment, where a new order takes the next sequential order number after
    every order already stored or shown. */
module OrderSystem {
  import opened Common
  import opened PosCart

  /** `s.replace(c, '')` with a one-character pattern: the first occurrence is removed. */
  function RemoveFirst(s: string, c: char): (r: string)
    ensures c !in s ==> r == s
    ensures c in s ==> |r| == |s| - 1
    ensures |s| > 0 && s[0] == c ==> r == s[1..]
  {
    if s == [] then []
    else if s[0] == c then s[1..]
    else [s[0]] + RemoveFirst(s[1..], c)
  }

  /** `parseInt(id.replace('#', ''))`; None stands for NaN. */
  function OrderNumber(id: string): Option<nat> {
    ParseLeadingInt(RemoveFirst(id, '#'))
  }

  /** `#${String(n).padStart(4, '0')}`. */
  function FormatOrderId(n: nat): string {
    "#" + PadStart(NatToString(n), 4, '0')
  }

  lemma AllDigitsLeading(s: string)
    requires AllDigits(s)
    ensures LeadingDigits(s) == s
  {
  }

  /** Reading the number back out of a generated id gives the number. */
  lemma OrderIdRoundTrip(n: nat)
    ensures OrderNumber(FormatOrderId(n)) == Some(n)
  {
    var digits := NatToString(n);
    var padded := PadStart(digits, 4, '0');
    var k := if |digits| >= 4 then 0 else 4 - |digits|;
    assert padded == seq(k, _ => '0') + digits;
    DigitsValueLeadingZeros(k, digits);
    DigitsValueOfNatToString(n);
    assert RemoveFirst(FormatOrderId(n), '#') == padded;
    AllDigitsLeading(padded);
  }

  /** The largest order number among the orders; 0 when none parses. */
  function MaxOrderNumber(orders: seq<Order>): (m: nat)
    ensures forall i :: 0 <= i < |orders| && OrderNumber(orders[i].id).Some? ==>
              OrderNumber(orders[i].id).value <= m
    ensures m == 0 || exists i :: 0 <= i < |orders| && OrderNumber(orders[i].id) == Some(m)
  {
    if orders == [] then 0
    else
      var pre := orders[..|orders| - 1];
      assert forall i :: 0 <= i < |pre| ==> pre[i] == orders[i];
      var m := MaxOrderNumber(pre);
      match OrderNumber(orders[|orders| - 1].id)
      case Some(n) =>
        var r := if n > m then n else m;
        MaxOrderNumberStep(orders, m, r);
        r
      case None =>
        MaxOrderNumberStep(orders, m, m);
        m
  }

  /** A bound on all but the last number that also bounds the last one bounds them all. */
  lemma MaxOrderNumberStep(orders: seq<Order>, m: nat, r: nat)
    requires orders != [] && m <= r
    requires forall i :: 0 <= i < |orders| - 1 && OrderNumber(orders[i].id).Some? ==>
               OrderNumber(orders[i].id).value <= m
    requires OrderNumber(orders[|orders| - 1].id).Some? ==> OrderNumber(orders[|orders| - 1].id).value <= r
    ensures forall i :: 0 <= i < |orders| && OrderNumber(orders[i].id).Some? ==>
              OrderNumber(orders[i].id).value <= r
  {
  }

  /** The forEach in processPayment that keeps the largest number seen. */
  method ScanMaxOrderNumber(orders: seq<Order>) returns (m: nat)
    ensures m == MaxOrderNumber(orders)
  {
    m := 0;
    var i := 0;
    while i < |orders|
      invariant 0 <= i <= |orders|
      invariant m == MaxOrderNumber(orders[..i])
    {
      assert orders[..i + 1][..i] == orders[..i];
      var n := OrderNumber(orders[i].id);
      if n.Some? && n.value > m {
        m := n.value;
      }
      i := i + 1;
    }
    assert orders[..i] == orders;
  }

  lemma NextNumberRoundTrip(m: nat)
    ensures OrderNumber(FormatOrderId(m + 1)) == Some(m + 1)
  {
    OrderIdRoundTrip(m + 1);
  }

  /** The id numbered one above a bound on every parsed number is none of the ids. */
  lemma NextIdAbove(orders: seq<Order>, m: nat, next: string)
    requires next == FormatOrderId(m + 1)
    requires forall i :: 0 <= i < |orders| && OrderNumber(orders[i].id).Some? ==> OrderNumber(orders[i].id).value <= m
    ensures OrderNumber(next) == Some(m + 1)
    ensures forall i :: 0 <= i < |orders| ==> orders[i].id != next
  {
    NextNumberRoundTrip(m);
  }

  /** The scan followed by the formatting, as processPayment does them. */
  method ComputeNextOrderId(orders: seq<Order>) returns (id: string)
    ensures id == NextOrderId(orders)
  {
    var maxNumber := ScanMaxOrderNumber(orders);
    id := FormatOrderId(maxNumber + 1);
  }

  /** The id processPayment gives the next order: one above the largest number. */
  function NextOrderId(orders: seq<Order>): string {
    FormatOrderId(MaxOrderNumber(orders) + 1)
  }

  /** The next id is new: its number exceeds every existing number, so it
      differs from every existing id, and reading it back gives that number. */
  lemma NextOrderIdIsFresh(orders: seq<Order>)
    ensures OrderNumber(NextOrderId(orders)).Some?
    ensures forall i :: 0 <= i < |orders| && OrderNumber(orders[i].id).Some? ==>
              OrderNumber(orders[i].id).value < OrderNumber(NextOrderId(orders)).value
    ensures forall i :: 0 <= i < |orders| ==> orders[i].id != NextOrderId(orders)
  {
    var m := MaxOrderNumber(orders);
    var next := NextOrderId(orders);
    NextIdAbove(orders, m, next);
  }

  /** The order object processPayment builds. */
  function NewOrder(id: string, cart: seq<OrderItem>, discount: int, discountType: DiscountType,
                    customerName: string, paymentMethod: string, orderType: OrderType, now: int): Order
  {
    var subtotal := Subtotal(cart);
    var total := Total(subtotal, discount, discountType);
    Order(id, cart, total, subtotal, subtotal as real - total, Preparing, now,
          if customerName == "" then None else Some(customerName), paymentMethod, orderType)
  }

  /** What the new order records: the id, the cart's lines, 'preparing', the
      subtotal before and the total after the discount, and the name if any. */
  lemma NewOrderFields(id: string, cart: seq<OrderItem>, discount: int, discountType: DiscountType,
                       customerName: string, paymentMethod: string, orderType: OrderType, now: int)
    ensures var o := NewOrder(id, cart, discount, discountType, customerName, paymentMethod, orderType, now);
            && o.id == id && o.items == cart && o.status == Preparing
            && o.originalTotal == Subtotal(cart)
            && o.total == Total(Subtotal(cart), discount, discountType)
            && o.discount == o.originalTotal as real - o.total
            && (o.customer.None? <==> customerName == "")
  {
  }

  /** One line of what processPayment hands to the order context's addOrder:
      the cart line without its image. */
  datatype ContextItem = ContextItem(id: int, name: string, price: int, quantity: int)

  /** The order processPayment hands to addOrder, which the daily closing's
      payment totals are drawn from. */
  datatype ContextOrder = ContextOrder(items: seq<ContextItem>, totalAmount: real, orderType: string,
                                       paymentMethod: string, status: string)

  /** The screen's order type as the context names it (orderTypeMapping). */
  function OrderTypeKey(t: OrderType): (r: string)
    ensures r == "visit" <==> t == Visit
    ensures r == "takeout" <==> t == Takeout
    ensures r == "delivery" <==> t == Delivery
  {
    match t
    case Visit => "visit"
    case Takeout => "takeout"
    case Delivery => "delivery"
  }

  /** `paymentMethodMapping[method] || 'cash'`: the three payment buttons map
      to their keys, anything else counts as cash. */
  function PaymentKey(button: string): (r: string)
    ensures r == "card" <==> button == "카드"
    ensures r == "voucher" <==> button == "상품권"
    ensures r == "cash" <==> button != "카드" && button != "상품권"
  {
    if button == "현금" then "cash"
    else if button == "카드" then "card"
    else if button == "상품권" then "voucher"
    else "cash"
  }

  function ContextItems(cart: seq<OrderItem>): (r: seq<ContextItem>)
    ensures |r| == |cart|
    ensures forall i :: 0 <= i < |cart| ==>
              r[i] == ContextItem(cart[i].id, cart[i].name, cart[i].price, cart[i].quantity)
  {
    if cart == [] then []
    else [ContextItem(cart[0].id, cart[0].name, cart[0].price, cart[0].quantity)] + ContextItems(cart[1..])
  }

  /** The addOrder argument built from the placed order: the lines, the total,
      the mapped order type and payment method, and status 'preparing'. */
  function ToContext(o: Order): ContextOrder {
    ContextOrder(ContextItems(o.items), o.total, OrderTypeKey(o.orderType), PaymentKey(o.paymentMethod), "preparing")
  }

  /** What the context receives for a payment: every cart line with its id,
      name, price and quantity, the discounted total, the order type's key,
      and 'card' for card payments, 'voucher' for vouchers and 'cash' for the
      rest, so the daily closing counts each payment under its own method. */
  lemma HandedToContext(id: string, cart: seq<OrderItem>, discount: int, discountType: DiscountType,
                        customerName: string, paymentMethod: string, orderType: OrderType, now: int)
    ensures var c := ToContext(NewOrder(id, cart, discount, discountType, customerName, paymentMethod, orderType, now));
            && |c.items| == |cart|
            && (forall i :: 0 <= i < |cart| ==>
                  && c.items[i].id == cart[i].id && c.items[i].name == cart[i].name
                  && c.items[i].price == cart[i].price && c.items[i].quantity == cart[i].quantity)
            && c.totalAmount == Total(Subtotal(cart), discount, discountType)
            && (c.orderType == "visit" <==> orderType == Visit)
            && (c.paymentMethod == "card" <==> paymentMethod == "카드")
            && (c.paymentMethod == "voucher" <==> paymentMethod == "상품권")
            && (c.paymentMethod == "cash" <==> paymentMethod != "카드" && paymentMethod != "상품권")
            && c.status == "preparing"
  {
  }

  /** `JSON.parse(localStorage.getItem('allOrders') || '[]')`: absent storage reads as empty. */
  function StoredOrEmpty(stored: Option<seq<Order>>): seq<Order> {
    if stored.Some? then stored.value else []
  }

  class OrderSystem {
    var cart: seq<OrderItem>
    /** The orders this screen shows, newest first. */
    var orders: seq<Order>
    /** The shared 'allOrders' list in browser storage, None while it is absent. */
    var storedOrders: Option<seq<Order>>
    /** The orders handed to the order context's addOrder, in the order of payment. */
    var contextOrders: seq<ContextOrder>
    var discount: int
    var discountType: DiscountType
    var customerName: string
    var orderType: OrderType
    var paymentMethod: string

    ghost predicate Valid()
      reads this
    {
      WellFormed(cart)
    }

    /** The first render: the sample orders are shown, and storage holds
        whatever it held before the screen opened. */
    constructor (samples: seq<Order>, stored: Option<seq<Order>>)
      ensures Valid()
      ensures cart == [] && orders == samples && storedOrders == stored && contextOrders == []
      ensures discount == 0 && discountType == Amount && customerName == "" && orderType == Visit
    {
      cart := [];
      orders := samples;
      storedOrders := stored;
      contextOrders := [];
      discount := 0;
      discountType := Amount;
      customerName := "";
      orderType := Visit;
      paymentMethod := "";
    }

    /** The mount effect: absent storage is initialised with the shown
        orders; stored orders, when there are any, replace the shown ones;
        an empty stored list leaves both as they are. */
    method Mount()
      modifies this`orders, this`storedOrders
      ensures old(storedOrders).None? ==> storedOrders == Some(old(orders)) && orders == old(orders)
      ensures old(storedOrders).Some? ==> storedOrders == old(storedOrders)
      ensures old(storedOrders).Some? && old(storedOrders).value != [] ==> orders == old(storedOrders).value
      ensures old(storedOrders) == Some([]) ==> orders == old(orders)
    {
      if storedOrders.None? {
        storedOrders := Some(orders);
      } else if storedOrders.value != [] {
        orders := storedOrders.value;
      }
    }

    method SetOrderType(t: OrderType)
      modifies this`orderType
      ensures orderType == t
    {
      orderType := t;
    }

    /** The customer-name input. */
    method SetCustomerName(name: string)
      modifies this`customerName
      ensures customerName == name
    {
      customerName := name;
    }

    /** The "할인 금액(원)" and "할인율(%)" buttons: only the kind changes; the
        discount already applied keeps its number (see PercentOverHundredNegative). */
    method SetDiscountType(kind: DiscountType)
      modifies this`discountType
      ensures discountType == kind && discount == old(discount)
    {
      discountType := kind;
    }

    method AddToCart(item: MenuItem)
      requires Valid()
      modifies this`cart
      ensures Valid()
      ensures cart == AddLine(old(cart), item)
    {
      if item.available {
        AddLineEffect(cart, item);
      }
      cart := AddLine(cart, item);
    }

    /** The "+" button of cart line `i`, as intended: one more unit of that
        line. (As written it hands the line to addToCart, which refuses it;
        see PlusAsWrittenRefused.) */
    method PlusButton(i: nat)
      requires Valid() && i < |cart|
      modifies this`cart
      ensures Valid()
      ensures cart == old(cart)[i := old(cart)[i].(quantity := old(cart)[i].quantity + 1)]
      ensures Subtotal(cart) == Subtotal(old(cart)) + old(cart)[i].price
    {
      PlusOneEffect(cart, i);
      cart := PlusOne(cart, i);
    }

    method RemoveFromCart(id: int)
      requires Valid()
      modifies this`cart
      ensures Valid()
      ensures cart == RemoveLine(old(cart), id)
    {
      RemoveLineEffect(cart, id);
      cart := RemoveLine(cart, id);
    }

    method ClearCart()
      modifies this`cart, this`discount
      ensures Valid() && cart == [] && discount == 0
    {
      cart := [];
      discount := 0;
    }

    method ApplyDiscount(amount: int, kind: DiscountType)
      modifies this`discount, this`discountType
      ensures discount == amount && discountType == kind
    {
      discount := amount;
      discountType := kind;
    }

    method RemoveDiscount()
      modifies this`discount
      ensures discount == 0
    {
      discount := 0;
    }

    /** The custom-discount button: the typed value (None for NaN) goes through the guard. */
    method ApplyCustomDiscount(value: Option<int>) returns (outcome: CustomDiscountOutcome)
      modifies this`discount
      ensures outcome == CustomDiscountGuard(value, discountType)
      ensures outcome.ApplyValue? ==> discount == outcome.value
      ensures !outcome.ApplyValue? ==> discount == old(discount)
    {
      outcome := CustomDiscountGuard(value, discountType);
      if outcome.ApplyValue? {
        discount := outcome.value;
      }
    }

    /** The three places a paid order goes: first in the shown list, first in
        storage (absent storage reading as empty), and to the order context. */
    method Record(order: Order)
      modifies this`orders, this`storedOrders, this`contextOrders
      ensures orders == [order] + old(orders)
      ensures storedOrders == Some([order] + StoredOrEmpty(old(storedOrders)))
      ensures contextOrders == old(contextOrders) + [ToContext(order)]
    {
      orders := [order] + orders;
      storedOrders := Some([order] + StoredOrEmpty(storedOrders));
      contextOrders := contextOrders + [ToContext(order)];
    }

    /** processPayment: nothing happens for an empty cart. Otherwise the order
        numbered one above every stored or shown order is put first in the
        shown list and in the stored list (absent storage reading as empty),
        handed to the order context, the chosen payment method is recorded,
        and the cart, customer name and discount are reset. */
    method ProcessPayment(paymentMethod: string, now: int) returns (placed: Option<Order>)
      requires Valid()
      modifies this`cart, this`orders, this`storedOrders, this`contextOrders, this`customerName,
               this`discount, this`paymentMethod
      ensures Valid()
      ensures old(cart) == [] ==>
                && placed.None? && cart == old(cart) && orders == old(orders)
                && storedOrders == old(storedOrders) && contextOrders == old(contextOrders)
                && discount == old(discount) && customerName == old(customerName)
                && this.paymentMethod == old(this.paymentMethod)
      ensures old(cart) != [] ==> this.paymentMethod == paymentMethod
      ensures old(cart) != [] ==>
                && placed == Some(NewOrder(NextOrderId(StoredOrEmpty(old(storedOrders)) + old(orders)), old(cart),
                                           old(discount), old(discountType), old(customerName), paymentMethod,
                                           old(orderType), now))
                && orders == [placed.value] + old(orders)
                && storedOrders == Some([placed.value] + StoredOrEmpty(old(storedOrders)))
                && contextOrders == old(contextOrders) + [ToContext(placed.value)]
                && cart == [] && customerName == "" && discount == 0
    {
      if cart == [] {
        return None;
      }
      var id := ComputeNextOrderId(StoredOrEmpty(storedOrders) + orders);
      var order := NewOrder(id, cart, discount, discountType, customerName, paymentMethod, orderType, now);
      Record(order);
      this.paymentMethod := paymentMethod;
      cart := [];
      customerName := "";
      discount := 0;
      placed := Some(order);
    }
  }
}
