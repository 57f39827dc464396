/** The point-of-sale cart shared by both order screens (Store/OrderSystem.tsx
    and Store/OrderSystemNew.tsx carry the same cart code): adding and removing
    menu items, the subtotal, the discounted total, the custom-discount guard,
    and the "recently ordered" tally over the latest orders. */
module PosCart {
  import opened Common

  /** A sellable menu entry as the POS grid shows it. */
  datatype MenuItem = MenuItem(id: int, name: string, price: int, image: string, available: bool)

  /** One cart line, also stored inside an order. */
  datatype OrderItem = OrderItem(id: int, name: string, price: int, quantity: int, image: string)

  datatype DiscountType = Amount | Percent

  datatype OrderStatus = Preparing | Cooking | Ready | Completed

  /** '방문' (eat in), '포장' (take out), '배달' (delivery). */
  datatype OrderType = Visit | Takeout | Delivery

  /** A paid order. Totals are reals: a percent discount can leave a fraction. */
  datatype Order = Order(
    id: string,
    items: seq<OrderItem>,
    total: real,
    originalTotal: int,
    discount: real,
    status: OrderStatus,
    orderTime: int,
    customer: Option<string>,
    paymentMethod: string,
    orderType: OrderType)

  // ---------------------------------------------------------------------------
  // Cart lines
  // ---------------------------------------------------------------------------

  predicate IdsUnique(cart: seq<OrderItem>) {
    forall i, j :: 0 <= i < j < |cart| ==> cart[i].id != cart[j].id
  }

  /** What adding and removing keep true: one line per item, each with quantity at least 1. */
  predicate WellFormed(cart: seq<OrderItem>) {
    IdsUnique(cart) && forall i :: 0 <= i < |cart| ==> cart[i].quantity >= 1
  }

  predicate HasId(l: OrderItem, id: int) {
    l.id == id
  }

  function IdIs(id: int): OrderItem -> bool {
    l => HasId(l, id)
  }

  function IdIsNot(id: int): OrderItem -> bool {
    l => !HasId(l, id)
  }

  /** `cart.find(line => line.id === id)`, as a position. */
  function LineIndex(cart: seq<OrderItem>, id: int): Option<nat> {
    FirstIndex(cart, IdIs(id))
  }

  /** `cart.map(line => line.id === id ? {...line, quantity: line.quantity + delta} : line)`. */
  function ShiftQuantity(cart: seq<OrderItem>, id: int, delta: int): (r: seq<OrderItem>)
    ensures |r| == |cart|
  {
    seq(|cart|, k requires 0 <= k < |cart| =>
      if cart[k].id == id then cart[k].(quantity := cart[k].quantity + delta) else cart[k])
  }

  /** addToCart: an unavailable item leaves the cart alone; an item already in
      the cart gets one more; any other item is appended with quantity 1. */
  function AddLine(cart: seq<OrderItem>, item: MenuItem): seq<OrderItem> {
    if !item.available then cart
    else if LineIndex(cart, item.id).Some? then ShiftQuantity(cart, item.id, 1)
    else cart + [OrderItem(item.id, item.name, item.price, 1, item.image)]
  }

  /** removeFromCart: a line with quantity above 1 loses one; otherwise every
      line with that id is dropped. */
  function RemoveLine(cart: seq<OrderItem>, id: int): seq<OrderItem> {
    match LineIndex(cart, id)
    case Some(i) =>
      if cart[i].quantity > 1 then ShiftQuantity(cart, id, -1) else Filter(cart, IdIsNot(id))
    case None => Filter(cart, IdIsNot(id))
  }

  function LineAmount(l: OrderItem): int {
    l.price * l.quantity
  }

  /** calculateSubtotal: the sum of price × quantity over the cart. */
  function Subtotal(cart: seq<OrderItem>): int {
    Sum(cart, LineAmount)
  }

  /** With one line per id, shifting the quantities of `id` changes only its line. */
  lemma ShiftQuantityAt(cart: seq<OrderItem>, id: int, delta: int, i: nat)
    requires IdsUnique(cart) && i < |cart| && cart[i].id == id
    ensures ShiftQuantity(cart, id, delta) == cart[i := cart[i].(quantity := cart[i].quantity + delta)]
  {
  }

  /** Shifting quantities keeps one line per id; a non-negative shift keeps quantities positive. */
  lemma ShiftQuantityWellFormed(cart: seq<OrderItem>, id: int, delta: int, i: nat)
    requires WellFormed(cart) && i < |cart| && cart[i].id == id && cart[i].quantity + delta >= 1
    ensures WellFormed(ShiftQuantity(cart, id, delta))
  {
    ShiftQuantityAt(cart, id, delta, i);
  }

  /** The unit price added: the existing line's price, or the item's for a new line. */
  function AddedPrice(cart: seq<OrderItem>, item: MenuItem): int {
    match LineIndex(cart, item.id)
    case Some(i) => cart[i].price
    case None => item.price
  }

  /** Adding an available item raises the subtotal by its price and keeps the cart well formed. */
  lemma AddLineEffect(cart: seq<OrderItem>, item: MenuItem)
    requires WellFormed(cart) && item.available
    ensures WellFormed(AddLine(cart, item))
    ensures Subtotal(AddLine(cart, item)) == Subtotal(cart) + AddedPrice(cart, item)
    ensures |AddLine(cart, item)| == |cart| + (if LineIndex(cart, item.id).Some? then 0 else 1)
    ensures LineIndex(AddLine(cart, item), item.id).Some?
  {
    var found := LineIndex(cart, item.id);
    if found.Some? {
      AddOneUnit(cart, item, found.value);
    } else {
      AddNewLine(cart, item);
    }
  }

  /** The quantity shift by `delta` changes the line's amount by `delta` prices. */
  lemma LineAmountShift(l: OrderItem, delta: int)
    ensures LineAmount(l.(quantity := l.quantity + delta)) == LineAmount(l) + delta * l.price
  {
    assert l.price * (l.quantity + delta) == l.price * l.quantity + delta * l.price;
  }

  lemma AddOneUnit(cart: seq<OrderItem>, item: MenuItem, i: nat)
    requires WellFormed(cart) && item.available && LineIndex(cart, item.id) == Some(i)
    ensures AddLine(cart, item) == cart[i := cart[i].(quantity := cart[i].quantity + 1)]
    ensures WellFormed(AddLine(cart, item))
    ensures Subtotal(AddLine(cart, item)) == Subtotal(cart) + cart[i].price
    ensures LineIndex(AddLine(cart, item), item.id).Some?
  {
    ShiftQuantityWellFormed(cart, item.id, 1, i);
    ShiftQuantityAt(cart, item.id, 1, i);
    SumUpdate(cart, i, cart[i].(quantity := cart[i].quantity + 1), LineAmount);
    LineAmountShift(cart[i], 1);
    var r := AddLine(cart, item);
    assert IdIs(item.id)(r[i]);
  }

  lemma AddNewLine(cart: seq<OrderItem>, item: MenuItem)
    requires WellFormed(cart) && item.available && LineIndex(cart, item.id).None?
    ensures AddLine(cart, item) == cart + [OrderItem(item.id, item.name, item.price, 1, item.image)]
    ensures WellFormed(AddLine(cart, item))
    ensures Subtotal(AddLine(cart, item)) == Subtotal(cart) + item.price
    ensures LineIndex(AddLine(cart, item), item.id).Some?
  {
    var line := OrderItem(item.id, item.name, item.price, 1, item.image);
    var r := cart + [line];
    SumAppend(cart, [line], LineAmount);
    SumSingle(line, LineAmount);
    forall k | 0 <= k < |cart| ensures r[k].id != item.id {
      assert r[k] == cart[k] && !IdIs(item.id)(cart[k]);
    }
    assert IdIs(item.id)(r[|cart|]);
  }

  /** Deleting one line keeps the cart well formed. */
  lemma RemoveAtWellFormed(cart: seq<OrderItem>, i: nat)
    requires WellFormed(cart) && i < |cart|
    ensures WellFormed(cart[..i] + cart[i + 1..])
  {
    var r := cart[..i] + cart[i + 1..];
    assert forall a :: 0 <= a < |r| ==> r[a] == cart[if a < i then a else a + 1];
  }

  /** Dropping the single line of an id keeps the cart well formed and lowers the subtotal by that line. */
  lemma DropLineEffect(cart: seq<OrderItem>, id: int, i: nat)
    requires WellFormed(cart) && i < |cart| && cart[i].id == id
    ensures Filter(cart, IdIsNot(id)) == cart[..i] + cart[i + 1..]
    ensures WellFormed(cart[..i] + cart[i + 1..])
    ensures Subtotal(cart[..i] + cart[i + 1..]) == Subtotal(cart) - LineAmount(cart[i])
  {
    var p := IdIsNot(id);
    forall j | 0 <= j < |cart| && j != i ensures p(cart[j]) {
      assert cart[j].id != cart[i].id;
    }
    FilterRemovesOne(cart, i, p);
    SumRemove(cart, i, LineAmount);
    RemoveAtWellFormed(cart, i);
  }

  /** Removing a line lowers the subtotal by one unit of it; removing an absent id changes nothing. */
  lemma RemoveLineEffect(cart: seq<OrderItem>, id: int)
    requires WellFormed(cart)
    ensures WellFormed(RemoveLine(cart, id))
    ensures LineIndex(cart, id).None? ==> RemoveLine(cart, id) == cart
    ensures LineIndex(cart, id).Some? ==>
              Subtotal(RemoveLine(cart, id)) == Subtotal(cart) - cart[LineIndex(cart, id).value].price
  {
    var found := LineIndex(cart, id);
    if found.Some? {
      var i := found.value;
      if cart[i].quantity > 1 {
        RemoveOneUnit(cart, id, i);
      } else {
        RemoveLastUnit(cart, id, i);
      }
    } else {
      RemoveAbsent(cart, id);
    }
  }

  lemma RemoveOneUnit(cart: seq<OrderItem>, id: int, i: nat)
    requires WellFormed(cart) && LineIndex(cart, id) == Some(i) && cart[i].quantity > 1
    ensures RemoveLine(cart, id) == cart[i := cart[i].(quantity := cart[i].quantity - 1)]
    ensures WellFormed(RemoveLine(cart, id))
    ensures Subtotal(RemoveLine(cart, id)) == Subtotal(cart) - cart[i].price
  {
    ShiftQuantityWellFormed(cart, id, -1, i);
    ShiftQuantityAt(cart, id, -1, i);
    SumUpdate(cart, i, cart[i].(quantity := cart[i].quantity - 1), LineAmount);
    LineAmountShift(cart[i], -1);
  }

  lemma RemoveLastUnit(cart: seq<OrderItem>, id: int, i: nat)
    requires WellFormed(cart) && LineIndex(cart, id) == Some(i) && cart[i].quantity <= 1
    ensures RemoveLine(cart, id) == cart[..i] + cart[i + 1..]
    ensures WellFormed(RemoveLine(cart, id))
    ensures Subtotal(RemoveLine(cart, id)) == Subtotal(cart) - cart[i].price
  {
    assert IdIs(id)(cart[i]);
    DropLineEffect(cart, id, i);
    LineAmountShift(cart[i].(quantity := 0), 1);
  }

  lemma RemoveAbsent(cart: seq<OrderItem>, id: int)
    requires LineIndex(cart, id).None?
    ensures RemoveLine(cart, id) == cart
  {
    forall j | 0 <= j < |cart| ensures IdIsNot(id)(cart[j]) {
      assert !IdIs(id)(cart[j]);
    }
    FilterAll(cart, IdIsNot(id));
  }

  /** Removing right after adding an available item gives back the cart. */
  lemma RemoveUndoesAdd(cart: seq<OrderItem>, item: MenuItem)
    requires WellFormed(cart) && item.available
    ensures RemoveLine(AddLine(cart, item), item.id) == cart
  {
    var p := IdIs(item.id);
    match LineIndex(cart, item.id)
    case Some(i) =>
      ShiftQuantityAt(cart, item.id, 1, i);
      var c := AddLine(cart, item);
      forall j | 0 <= j < i ensures !p(c[j]) {
        assert c[j] == cart[j];
      }
      FirstIndexIs(c, p, i);
      ShiftQuantityAt(c, item.id, -1, i);
      assert c[i := c[i].(quantity := c[i].quantity - 1)] == cart;
    case None =>
      var line := OrderItem(item.id, item.name, item.price, 1, item.image);
      var c := cart + [line];
      forall j | 0 <= j < |cart| ensures !p(c[j]) {
        assert c[j] == cart[j];
      }
      FirstIndexIs(c, p, |cart|);
      FilterAppend(cart, [line], IdIsNot(item.id));
      FilterAll(cart, IdIsNot(item.id));
      assert Filter([line], IdIsNot(item.id)) == [] by { assert [line][1..] == []; }
  }

  // ---------------------------------------------------------------------------
  // Objects other than menu items handed to addToCart
  // ---------------------------------------------------------------------------

  /** What the cart's "+" button hands to addToCart: the cart line itself. A
      line is built without an `available` field, so `!item.available` holds. */
  function LineAsClicked(l: OrderItem): (m: MenuItem)
    ensures m.id == l.id && m.price == l.price && !m.available
  {
    MenuItem(l.id, l.name, l.price, l.image, false)
  }

  /** What a "recently ordered" card hands to addToCart: the tally entry
      `{...line, count}`, again without an `available` field. */
  function EntryAsClicked(e: TallyEntry): (m: MenuItem)
    ensures m.id == e.item.id && m.price == e.item.price && !m.available
  {
    MenuItem(e.item.id, e.item.name, e.item.price, e.item.image, false)
  }

  /** As written, "+" on a line of a non-empty cart is refused as sold out: the
      cart stays as it is instead of gaining one unit. */
  lemma PlusAsWrittenRefused(cart: seq<OrderItem>, i: nat)
    requires WellFormed(cart) && i < |cart|
    ensures AddLine(cart, LineAsClicked(cart[i])) == cart
    ensures AddLine(cart, LineAsClicked(cart[i])) != PlusOne(cart, i)
    ensures Subtotal(AddLine(cart, LineAsClicked(cart[i]))) == Subtotal(cart)
  {
    ShiftQuantityAt(cart, cart[i].id, 1, i);
    assert PlusOne(cart, i)[i].quantity != cart[i].quantity;
  }

  /** As written, a "recently ordered" card never adds anything. */
  lemma RecentCardAsWrittenRefused(cart: seq<OrderItem>, e: TallyEntry)
    ensures AddLine(cart, EntryAsClicked(e)) == cart
    ensures |AddLine(cart, EntryAsClicked(e))| == |cart|
  {
  }

  /** The "+" button as intended: one more unit of line `i`. */
  function PlusOne(cart: seq<OrderItem>, i: nat): (r: seq<OrderItem>)
    requires i < |cart|
    ensures |r| == |cart|
  {
    ShiftQuantity(cart, cart[i].id, 1)
  }

  /** The intended "+" raises only line `i`, by one unit, keeps the cart well
      formed, adds that line's price to the subtotal, and "−" undoes it. */
  lemma PlusOneEffect(cart: seq<OrderItem>, i: nat)
    requires WellFormed(cart) && i < |cart|
    ensures PlusOne(cart, i) == cart[i := cart[i].(quantity := cart[i].quantity + 1)]
    ensures WellFormed(PlusOne(cart, i))
    ensures Subtotal(PlusOne(cart, i)) == Subtotal(cart) + cart[i].price
    ensures RemoveLine(PlusOne(cart, i), cart[i].id) == cart
  {
    var item := MenuItem(cart[i].id, cart[i].name, cart[i].price, cart[i].image, true);
    forall j | 0 <= j < i ensures !IdIs(item.id)(cart[j]) {
      assert cart[j].id != cart[i].id;
    }
    FirstIndexIs(cart, IdIs(item.id), i);
    AddOneUnit(cart, item, i);
    ShiftQuantityAt(cart, item.id, 1, i);
    RemoveUndoesAdd(cart, item);
  }

  /** A "recently ordered" card as intended: the tally entry as a menu item,
      with the availability the menu currently shows for that id. */
  function EntryAsMenuItem(e: TallyEntry, available: bool): (m: MenuItem)
    ensures m.id == e.item.id && m.name == e.item.name && m.price == e.item.price
    ensures m.available == available
  {
    MenuItem(e.item.id, e.item.name, e.item.price, e.item.image, available)
  }

  /** The intended card adds one unit of the entry's item when the menu sells
      it, at the price the entry carries for a new line, and nothing otherwise. */
  lemma RecentCardEffect(cart: seq<OrderItem>, e: TallyEntry, available: bool)
    requires WellFormed(cart)
    ensures WellFormed(AddLine(cart, EntryAsMenuItem(e, available)))
    ensures !available ==> AddLine(cart, EntryAsMenuItem(e, available)) == cart
    ensures available ==>
              Subtotal(AddLine(cart, EntryAsMenuItem(e, available)))
                == Subtotal(cart) + AddedPrice(cart, EntryAsMenuItem(e, available))
    ensures available ==> LineIndex(AddLine(cart, EntryAsMenuItem(e, available)), e.item.id).Some?
    ensures available && LineIndex(cart, e.item.id).None? ==>
              AddLine(cart, EntryAsMenuItem(e, available))
                == cart + [OrderItem(e.item.id, e.item.name, e.item.price, 1, e.item.image)]
  {
    if available {
      AddLineEffect(cart, EntryAsMenuItem(e, available));
    }
  }

  // ---------------------------------------------------------------------------
  // Discounts
  // ---------------------------------------------------------------------------

  /** calculateTotal: a percent discount takes subtotal·d/100 off, an amount
      discount takes d off; neither is clamped at 0. */
  function Total(subtotal: int, discount: int, discountType: DiscountType): (r: real)
    ensures discountType == Percent && discount == 100 ==> r == 0.0
    ensures discountType == Amount ==> r == (subtotal - discount) as real
    ensures discount == 0 ==> r == subtotal as real
  {
    if discountType == Percent then
      HundredPercent(subtotal as real, discount);
      subtotal as real - (subtotal as real * discount as real / 100.0)
    else subtotal as real - discount as real
  }

  lemma HundredPercent(s: real, discount: int)
    ensures discount == 100 ==> s * discount as real / 100.0 == s
    ensures discount == 0 ==> s * discount as real / 100.0 == 0.0
  {
  }

  /** A percent discount between 0 and 100 keeps the total between 0 and the subtotal. */
  lemma PercentTotalInRange(subtotal: int, discount: int)
    requires 0 <= subtotal && 0 <= discount <= 100
    ensures 0.0 <= Total(subtotal, discount, Percent) <= subtotal as real
  {
    var s, d := subtotal as real, discount as real;
    NonNegativeProduct(s, d);
    NonNegativeProduct(s, 100.0 - d);
    assert s * d + s * (100.0 - d) == s * 100.0;
  }

  lemma NonNegativeProduct(x: real, y: real)
    requires 0.0 <= x && 0.0 <= y
    ensures 0.0 <= x * y
  {
  }

  /** An amount discount larger than the subtotal gives a negative total. */
  lemma AmountDiscountNotClamped()
    ensures Total(1000, 5000, Amount) < 0.0
  {
  }

  /** A percent discount above 100 makes any positive subtotal negative. The
      kind buttons change only the kind, so an amount of 5000 already applied
      becomes 5000% when "할인율(%)" is pressed, past the guard below. */
  lemma PercentOverHundredNegative(subtotal: int, discount: int)
    requires 0 < subtotal && 100 < discount
    ensures Total(subtotal, discount, Percent) < 0.0
  {
    var s, d := subtotal as real, discount as real;
    PositiveProduct(s, d - 100.0);
    assert s * d - s * 100.0 == s * (d - 100.0);
  }

  lemma PositiveProduct(x: real, y: real)
    requires 0.0 < x && 0.0 < y
    ensures 0.0 < x * y
  {
  }

  /** What the custom-discount button does with the parsed input. */
  datatype CustomDiscountOutcome = ApplyValue(value: int) | RejectOverHundred | Ignore

  /** The custom-discount guard: a parsed value (None stands for NaN) is applied
      only when it is positive and, for a percent discount, at most 100. */
  function CustomDiscountGuard(value: Option<int>, discountType: DiscountType): (r: CustomDiscountOutcome)
    ensures r.ApplyValue? <==>
              value.Some? && value.value > 0 && (discountType == Percent ==> value.value <= 100)
    ensures r.ApplyValue? ==> r.value == value.value
    ensures r == RejectOverHundred <==> value.Some? && discountType == Percent && value.value > 100
  {
    match value
    case None => Ignore
    case Some(v) =>
      if v > 0 then (if discountType == Percent && v > 100 then RejectOverHundred else ApplyValue(v))
      else Ignore
  }

  /** Any discount the guard lets through keeps a percent total within [0, subtotal]. */
  lemma GuardedPercentTotalInRange(subtotal: int, value: Option<int>)
    requires subtotal >= 0
    requires CustomDiscountGuard(value, Percent).ApplyValue?
    ensures 0.0 <= Total(subtotal, CustomDiscountGuard(value, Percent).value, Percent) <= subtotal as real
  {
    PercentTotalInRange(subtotal, value.value);
  }

  // ---------------------------------------------------------------------------
  // Recently ordered items
  // ---------------------------------------------------------------------------

  /** An accumulated item: the first line seen for an id and its summed quantity. */
  datatype TallyEntry = TallyEntry(item: OrderItem, count: int)

  function Quantity(l: OrderItem): int {
    l.quantity
  }

  /** The summed quantity of id `id` over `items`. */
  function QuantityOf(items: seq<OrderItem>, id: int): int {
    Sum(items, QuantityIfId(id))
  }

  function QuantityIfId(id: int): OrderItem -> int {
    (l: OrderItem) => if l.id == id then l.quantity else 0
  }

  predicate EntryHasId(e: TallyEntry, id: int) {
    e.item.id == id
  }

  function EntryIdIs(id: int): TallyEntry -> bool {
    e => EntryHasId(e, id)
  }

  /** One reduce step: add to the entry for the item's id, or append a new entry. */
  function TallyStep(acc: seq<TallyEntry>, l: OrderItem): seq<TallyEntry> {
    match FirstIndex(acc, EntryIdIs(l.id))
    case Some(i) => acc[i := acc[i].(count := acc[i].count + l.quantity)]
    case None => acc + [TallyEntry(l, l.quantity)]
  }

  /** The reduce over the items, left to right: one entry per item seen, each
      holding the first line of that item and the item's summed quantity. */
  function Tally(items: seq<OrderItem>): (r: seq<TallyEntry>)
    ensures TallyCorrect(r, items)
    decreases |items|
  {
    if items == [] then []
    else
      var pre := items[..|items| - 1];
      assert items == pre + [items[|items| - 1]];
      TallyStepCorrect(Tally(pre), pre, items[|items| - 1]);
      TallyStep(Tally(pre), items[|items| - 1])
  }

  predicate TallyCorrect(acc: seq<TallyEntry>, items: seq<OrderItem>) {
    && (forall i, j :: 0 <= i < j < |acc| ==> acc[i].item.id != acc[j].item.id)
    && (forall i :: 0 <= i < |acc| ==> acc[i].count == QuantityOf(items, acc[i].item.id))
    && (forall i :: 0 <= i < |acc| ==> acc[i].item in items)
    && (forall k :: 0 <= k < |items| ==> items[k].id in EntryIds(acc))
  }

  function EntryIds(acc: seq<TallyEntry>): set<int> {
    set j | 0 <= j < |acc| :: acc[j].item.id
  }

  lemma QuantityOfSnoc(items: seq<OrderItem>, l: OrderItem, id: int)
    ensures QuantityOf(items + [l], id) == QuantityOf(items, id) + (if l.id == id then l.quantity else 0)
  {
    assert (items + [l])[..|items|] == items;
  }

  /** An id that occurs nowhere has quantity 0. */
  lemma {:induction false} QuantityOfAbsent(items: seq<OrderItem>, id: int)
    requires forall k :: 0 <= k < |items| ==> items[k].id != id
    ensures QuantityOf(items, id) == 0
    decreases |items|
  {
    if items != [] {
      var pre := items[..|items| - 1];
      assert items == pre + [items[|items| - 1]];
      QuantityOfAbsent(pre, id);
      QuantityOfSnoc(pre, items[|items| - 1], id);
    }
  }

  /** One step adds the next item to its entry, or appends an entry for a new id. */
  lemma TallyStepCorrect(acc: seq<TallyEntry>, pre: seq<OrderItem>, l: OrderItem)
    requires TallyCorrect(acc, pre)
    ensures TallyCorrect(TallyStep(acc, l), pre + [l])
  {
    var found := FirstIndex(acc, EntryIdIs(l.id));
    if found.Some? {
      var i := found.value;
      assert EntryIdIs(l.id)(acc[i]);
      assert TallyStep(acc, l) == acc[i := acc[i].(count := acc[i].count + l.quantity)];
      TallyStepFound(acc, pre, l, i);
    } else {
      forall j | 0 <= j < |acc| ensures acc[j].item.id != l.id {
        assert !EntryIdIs(l.id)(acc[j]);
      }
      assert TallyStep(acc, l) == acc + [TallyEntry(l, l.quantity)];
      TallyStepNew(acc, pre, l);
    }
  }

  lemma TallyStepFound(acc: seq<TallyEntry>, pre: seq<OrderItem>, l: OrderItem, i: nat)
    requires TallyCorrect(acc, pre)
    requires i < |acc| && acc[i].item.id == l.id
    ensures TallyCorrect(acc[i := acc[i].(count := acc[i].count + l.quantity)], pre + [l])
  {
    var items := pre + [l];
    var r := acc[i := acc[i].(count := acc[i].count + l.quantity)];
    forall j | 0 <= j < |r| ensures r[j].count == QuantityOf(items, r[j].item.id) {
      QuantityOfSnoc(pre, l, r[j].item.id);
    }
    forall j | 0 <= j < |r| ensures r[j].item in items {
      assert r[j].item == acc[j].item;
    }
    assert EntryIds(r) == EntryIds(acc) by {
      assert forall j :: 0 <= j < |r| ==> r[j].item.id == acc[j].item.id;
    }
    forall k | 0 <= k < |items| ensures items[k].id in EntryIds(r) {
      if k < |pre| {
        assert items[k] == pre[k];
      } else {
        assert r[i].item.id == items[k].id;
      }
    }
  }

  lemma TallyStepNew(acc: seq<TallyEntry>, pre: seq<OrderItem>, l: OrderItem)
    requires TallyCorrect(acc, pre)
    requires forall j :: 0 <= j < |acc| ==> acc[j].item.id != l.id
    ensures TallyCorrect(acc + [TallyEntry(l, l.quantity)], pre + [l])
  {
    var r := acc + [TallyEntry(l, l.quantity)];
    assert l.id !in EntryIds(acc);
    forall k | 0 <= k < |pre| ensures pre[k].id != l.id {
      assert pre[k].id in EntryIds(acc);
    }
    NewEntryCounts(acc, pre, l);
    NewEntryIds(acc, l);
    var items := pre + [l];
    forall j | 0 <= j < |r| ensures r[j].item in items {
      if j < |acc| {
        assert r[j] == acc[j];
      }
    }
    forall k | 0 <= k < |items| ensures items[k].id in EntryIds(r) {
      if k < |pre| {
        assert items[k] == pre[k];
      }
    }
  }

  lemma NewEntryCounts(acc: seq<TallyEntry>, pre: seq<OrderItem>, l: OrderItem)
    requires forall j :: 0 <= j < |acc| ==> acc[j].count == QuantityOf(pre, acc[j].item.id)
    requires forall j :: 0 <= j < |acc| ==> acc[j].item.id != l.id
    requires forall k :: 0 <= k < |pre| ==> pre[k].id != l.id
    ensures var r := acc + [TallyEntry(l, l.quantity)];
            forall j :: 0 <= j < |r| ==> r[j].count == QuantityOf(pre + [l], r[j].item.id)
  {
    var r := acc + [TallyEntry(l, l.quantity)];
    QuantityOfAbsent(pre, l.id);
    forall j | 0 <= j < |r| ensures r[j].count == QuantityOf(pre + [l], r[j].item.id) {
      QuantityOfSnoc(pre, l, r[j].item.id);
      if j < |acc| {
        assert r[j] == acc[j];
      }
    }
  }

  lemma NewEntryIds(acc: seq<TallyEntry>, l: OrderItem)
    requires forall j :: 0 <= j < |acc| ==> acc[j].item.id != l.id
    ensures var r := acc + [TallyEntry(l, l.quantity)];
            && EntryIds(r) == EntryIds(acc) + {l.id}
            && ((forall i, j :: 0 <= i < j < |acc| ==> acc[i].item.id != acc[j].item.id) ==>
                (forall i, j :: 0 <= i < j < |r| ==> r[i].item.id != r[j].item.id))
  {
    var r := acc + [TallyEntry(l, l.quantity)];
    assert forall j :: 0 <= j < |acc| ==> r[j] == acc[j];
    assert r[|acc|].item.id == l.id;
  }

  /** The items of the latest five orders, in order (`slice(0, 5).flatMap(o => o.items)`). */
  function RecentLines(orders: seq<Order>): (r: seq<OrderItem>)
    ensures forall l :: l in r ==> exists k :: 0 <= k < |orders| && k < 5 && l in orders[k].items
    ensures forall k, l :: 0 <= k < |orders| && k < 5 && l in orders[k].items ==> l in r
  {
    if orders == [] then []
    else
      var n := if |orders| < 5 then |orders| else 5;
      FlattenItems(orders[..n])
  }

  function FlattenItems(orders: seq<Order>): (r: seq<OrderItem>)
    ensures forall l :: l in r ==> exists k :: 0 <= k < |orders| && l in orders[k].items
    ensures forall k, l :: 0 <= k < |orders| && l in orders[k].items ==> l in r
  {
    if orders == [] then []
    else
      var rest := FlattenItems(orders[1..]);
      assert forall k :: 1 <= k < |orders| ==> orders[k] == orders[1..][k - 1];
      orders[0].items + rest
  }

  /** `(a, b) => b.count - a.count`: larger counts first. */
  predicate CountDescending(a: TallyEntry, b: TallyEntry) {
    a.count >= b.count
  }

  lemma CountDescendingIsTotal()
    ensures TotalPreorder(CountDescending)
  {
  }

  /** The sort by count, largest first, and the cut to six entries. */
  function TopSix(t: seq<TallyEntry>): (r: seq<TallyEntry>)
    ensures |r| <= 6
  {
    CountDescendingIsTotal();
    var sorted := SortBy(t, CountDescending);
    if |sorted| <= 6 then sorted else sorted[..6]
  }

  /** getRecentOrderItems, as the result the expression denotes. */
  function RecentItems(orders: seq<Order>): (r: seq<TallyEntry>)
    ensures |r| <= 6
  {
    TopSix(Tally(RecentLines(orders)))
  }

  /** At most six entries, one per id, each with the summed quantity of that id
      over the latest five orders, largest counts first. */
  lemma RecentItemsMeaning(orders: seq<Order>)
    ensures |RecentItems(orders)| <= 6
    ensures SortedBy(RecentItems(orders), CountDescending)
    ensures forall i :: 0 <= i < |RecentItems(orders)| ==>
              RecentItems(orders)[i].count == QuantityOf(RecentLines(orders), RecentItems(orders)[i].item.id)
              && RecentItems(orders)[i].item in RecentLines(orders)
    ensures forall i, j :: 0 <= i < j < |RecentItems(orders)| ==>
              RecentItems(orders)[i].item.id != RecentItems(orders)[j].item.id
    ensures |RecentItems(orders)| == if |Tally(RecentLines(orders))| < 6 then |Tally(RecentLines(orders))| else 6
    ensures forall e :: e in RecentItems(orders) ==> e in Tally(RecentLines(orders))
    ensures forall e, i :: e in Tally(RecentLines(orders)) && e !in RecentItems(orders) && 0 <= i < |RecentItems(orders)| ==>
              e.count <= RecentItems(orders)[i].count
  {
    var lines := RecentLines(orders);
    var t := Tally(lines);
    CountDescendingIsTotal();
    var sorted := SortBy(t, CountDescending);
    ReorderedTallyCorrect(t, sorted, lines);
    var r := RecentItems(orders);
    assert r == if |sorted| <= 6 then sorted else sorted[..6];
    PrefixOfSortedTally(sorted, r, lines);
    TopEntriesKept(t, sorted, r);
  }

  /** The first entries of a count-descending reordering keep the largest
      counts: whatever is cut off counts no more than anything kept. */
  lemma TopEntriesKept(t: seq<TallyEntry>, s: seq<TallyEntry>, r: seq<TallyEntry>)
    requires SortedBy(s, CountDescending) && multiset(s) == multiset(t)
    requires |r| <= |s| && r == s[..|r|]
    ensures forall e :: e in r ==> e in t
    ensures forall e, i :: e in t && e !in r && 0 <= i < |r| ==> e.count <= r[i].count
  {
    forall e | e in r ensures e in t {
      assert e in multiset(s);
    }
    forall e, i | e in t && e !in r && 0 <= i < |r| ensures e.count <= r[i].count {
      assert e in multiset(s);
      var k :| 0 <= k < |s| && s[k] == e;
      assert r[i] == s[i];
    }
  }

  /** A reordering of a correct tally has the same entries, so the same counts and distinct ids. */
  lemma ReorderedTallyCorrect(t: seq<TallyEntry>, s: seq<TallyEntry>, lines: seq<OrderItem>)
    requires TallyCorrect(t, lines) && multiset(s) == multiset(t)
    ensures forall i :: 0 <= i < |s| ==> s[i].count == QuantityOf(lines, s[i].item.id) && s[i].item in lines
    ensures forall i, j :: 0 <= i < j < |s| ==> s[i].item.id != s[j].item.id
  {
    forall i | 0 <= i < |s| ensures s[i].count == QuantityOf(lines, s[i].item.id) && s[i].item in lines {
      assert s[i] in multiset(t);
      var k :| 0 <= k < |t| && t[k] == s[i];
    }
    PermutationKeepsIdsDistinct(t, s);
  }

  lemma PrefixOfSortedTally(s: seq<TallyEntry>, r: seq<TallyEntry>, lines: seq<OrderItem>)
    requires SortedBy(s, CountDescending) && |r| <= |s| && r == s[..|r|]
    requires forall i :: 0 <= i < |s| ==> s[i].count == QuantityOf(lines, s[i].item.id) && s[i].item in lines
    requires forall i, j :: 0 <= i < j < |s| ==> s[i].item.id != s[j].item.id
    ensures SortedBy(r, CountDescending)
    ensures forall i :: 0 <= i < |r| ==> r[i].count == QuantityOf(lines, r[i].item.id) && r[i].item in lines
    ensures forall i, j :: 0 <= i < j < |r| ==> r[i].item.id != r[j].item.id
  {
    assert forall i :: 0 <= i < |r| ==> r[i] == s[i];
  }

  /** Reordering entries with distinct ids keeps the ids distinct. */
  lemma PermutationKeepsIdsDistinct(t: seq<TallyEntry>, s: seq<TallyEntry>)
    requires multiset(s) == multiset(t)
    requires forall a, b :: 0 <= a < b < |t| ==> t[a].item.id != t[b].item.id
    ensures forall i, j :: 0 <= i < j < |s| ==> s[i].item.id != s[j].item.id
  {
    PermutationDistinct(t, s);
    forall i, j | 0 <= i < j < |s| ensures s[i].item.id != s[j].item.id {
      assert s[i] in multiset(t) && s[j] in multiset(t);
      var a :| 0 <= a < |t| && t[a] == s[i];
      var b :| 0 <= b < |t| && t[b] == s[j];
      assert a != b;
    }
  }

  /** One more line is one more reduce step. */
  lemma TallyExtend(lines: seq<OrderItem>, k: nat)
    requires k < |lines|
    ensures Tally(lines[..k + 1]) == TallyStep(Tally(lines[..k]), lines[k])
  {
    var items := lines[..k + 1];
    assert items[..|items| - 1] == lines[..k];
  }

  /** getRecentOrderItems as the source runs it: a loop that accumulates the
      counts, then the sort and the cut to six. */
  method RecentOrderItems(orders: seq<Order>) returns (r: seq<TallyEntry>)
    ensures r == RecentItems(orders)
  {
    var lines := RecentLines(orders);
    var acc: seq<TallyEntry> := [];
    var k := 0;
    while k < |lines|
      invariant 0 <= k <= |lines|
      invariant acc == Tally(lines[..k])
    {
      TallyExtend(lines, k);
      acc := TallyStep(acc, lines[k]);
      k := k + 1;
    }
    assert lines[..k] == lines;
    r := TopSix(acc);
  }
}
