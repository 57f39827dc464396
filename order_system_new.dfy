/** The second POS screen (Store/OrderSystemNew.tsx): the same cart, four
    preset discounts, and payment where the order id is the last three digits
    of the payment timestamp. */
module OrderSystemNew {
  import opened Common
  import opened PosCart

  /** The preset discount buttons: 1,000 won, 10%, 5,000 won, 20%. */
  const Presets: seq<(int, DiscountType)> := [(1000, Amount), (10, Percent), (5000, Amount), (20, Percent)]

  /** Every preset would also pass the custom-discount guard. */
  lemma PresetsPassGuard()
    ensures forall i :: 0 <= i < |Presets| ==>
              CustomDiscountGuard(Some(Presets[i].0), Presets[i].1) == ApplyValue(Presets[i].0)
  {
  }

  /** `#${String(Date.now()).slice(-3)}`. */
  function TimestampOrderId(now: nat): string {
    "#" + LastThree(NatToString(now))
  }

  /** Two payments 1000 ms apart get the same order id: the id is not unique. */
  lemma TimestampIdRepeats(now: nat)
    requires now >= 100
    ensures TimestampOrderId(now) == TimestampOrderId(now + 1000)
  {
    LastThreeRepeats(now);
  }

  /** The order object processPayment builds. */
  function NewOrder(now: nat, cart: seq<OrderItem>, discount: int, discountType: DiscountType,
                    customerName: string, paymentMethod: string, orderType: OrderType): (o: Order)
    ensures o.id == TimestampOrderId(now) && o.items == cart && o.status == Preparing
    ensures o.originalTotal == Subtotal(cart)
    ensures o.total == Total(Subtotal(cart), discount, discountType)
    ensures o.discount == o.originalTotal as real - o.total
  {
    var subtotal := Subtotal(cart);
    var total := Total(subtotal, discount, discountType);
    Order(TimestampOrderId(now), cart, total, subtotal, subtotal as real - total, Preparing, now,
          if customerName == "" then None else Some(customerName), paymentMethod, orderType)
  }

  class OrderSystemNew {
    var cart: seq<OrderItem>
    var orders: seq<Order>
    var discount: int
    var discountType: DiscountType
    var customerName: string
    var orderType: OrderType
    var paymentMethod: string

    ghost predicate Valid()
      reads this
    {
      WellFormed(cart)
    }

    constructor (initialOrders: seq<Order>)
      ensures Valid() && cart == [] && orders == initialOrders
      ensures discount == 0 && discountType == Amount && customerName == "" && orderType == Visit
    {
      cart := [];
      orders := initialOrders;
      discount := 0;
      discountType := Amount;
      customerName := "";
      orderType := Visit;
      paymentMethod := "";
    }

    /** The 방문 / 포장 / 배달 buttons. */
    method SetOrderType(t: OrderType)
      modifies this`orderType
      ensures orderType == t
    {
      orderType := t;
    }

    /** The customer-name input. */
    method SetCustomerName(name: string)
      modifies this`customerName
      ensures customerName == name
    {
      customerName := name;
    }

    method AddToCart(item: MenuItem)
      requires Valid()
      modifies this`cart
      ensures Valid()
      ensures cart == AddLine(old(cart), item)
    {
      if item.available {
        AddLineEffect(cart, item);
      }
      cart := AddLine(cart, item);
    }

    /** The "+" button of cart line `i`, as intended: one more unit of that
        line. (As written it hands the line to addToCart, which refuses it;
        see PlusAsWrittenRefused.) */
    method PlusButton(i: nat)
      requires Valid() && i < |cart|
      modifies this`cart
      ensures Valid()
      ensures cart == old(cart)[i := old(cart)[i].(quantity := old(cart)[i].quantity + 1)]
      ensures Subtotal(cart) == Subtotal(old(cart)) + old(cart)[i].price
    {
      PlusOneEffect(cart, i);
      cart := PlusOne(cart, i);
    }

    /** A "recently ordered" card, as intended: the entry's item is added when
        the menu (`available`) sells it. (As written the entry has no
        `available` field and is refused; see RecentCardAsWrittenRefused.) */
    method ClickRecent(e: TallyEntry, available: bool)
      requires Valid()
      modifies this`cart
      ensures Valid()
      ensures cart == AddLine(old(cart), EntryAsMenuItem(e, available))
      ensures !available ==> cart == old(cart)
      ensures available ==> LineIndex(cart, e.item.id).Some?
    {
      RecentCardEffect(cart, e, available);
      cart := AddLine(cart, EntryAsMenuItem(e, available));
    }

    method RemoveFromCart(id: int)
      requires Valid()
      modifies this`cart
      ensures Valid()
      ensures cart == RemoveLine(old(cart), id)
    {
      RemoveLineEffect(cart, id);
      cart := RemoveLine(cart, id);
    }

    method ClearCart()
      modifies this`cart, this`discount
      ensures Valid() && cart == [] && discount == 0
    {
      cart := [];
      discount := 0;
    }

    /** A preset button: applyDiscount with that preset's value and kind. */
    method ApplyPreset(k: nat)
      requires k < |Presets|
      modifies this`discount, this`discountType
      ensures discount == Presets[k].0 && discountType == Presets[k].1
    {
      discount := Presets[k].0;
      discountType := Presets[k].1;
    }

    method RemoveDiscount()
      modifies this`discount
      ensures discount == 0
    {
      discount := 0;
    }

    /** processPayment: nothing happens for an empty cart; otherwise the new
        order, numbered from the timestamp, is put first and the cart,
        customer name and discount are reset. */
    method ProcessPayment(paymentMethod: string, now: nat) returns (placed: Option<Order>)
      requires Valid()
      modifies this`cart, this`orders, this`customerName, this`discount, this`paymentMethod
      ensures Valid()
      ensures old(cart) == [] ==>
                && placed.None? && cart == old(cart) && orders == old(orders)
                && discount == old(discount) && customerName == old(customerName)
                && this.paymentMethod == old(this.paymentMethod)
      ensures old(cart) != [] ==> this.paymentMethod == paymentMethod
      ensures old(cart) != [] ==>
                && placed == Some(NewOrder(now, old(cart), old(discount), old(discountType), old(customerName),
                                           paymentMethod, old(orderType)))
                && orders == [placed.value] + old(orders)
                && cart == [] && customerName == "" && discount == 0
    {
      if cart == [] {
        return None;
      }
      var order := NewOrder(now, cart, discount, discountType, customerName, paymentMethod, orderType);
      Record(order);
      ResetAfterPayment(paymentMethod);
      placed := Some(order);
    }

    /** A paid order goes first in the list. */
    method Record(order: Order)
      modifies this`orders
      ensures orders == [order] + old(orders)
    {
      orders := [order] + orders;
    }

    /** After a payment the method is recorded and the cart, customer name
        and discount are reset. */
    method ResetAfterPayment(paymentMethod: string)
      modifies this`cart, this`customerName, this`discount, this`paymentMethod
      ensures Valid() && cart == [] && customerName == "" && discount == 0
      ensures this.paymentMethod == paymentMethod
    {
      this.paymentMethod := paymentMethod;
      cart := [];
      customerName := "";
      discount := 0;
    }
  }
}
