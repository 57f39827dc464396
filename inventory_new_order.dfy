/** The new purchase order screen (Store/InventoryNewOrder.tsx): a cart of
    order lines typed in or picked from suggestions, its totals, and the
    submission that builds the order and clears the screen. */
module InventoryNewOrder {
  import opened Common

  /** A cart line; its id is the millisecond timestamp of the add. */
  datatype Line = Line(id: int, name: string, category: string, quantity: int, unit: string,
                       unitPrice: int, totalPrice: int)

  /** The add-item form. */
  datatype Draft = Draft(name: string, category: string, quantity: int, unit: string, unitPrice: int)

  /** An autocomplete entry. */
  datatype Suggestion = Suggestion(name: string, category: string, unit: string, unitPrice: int)

  datatype OrderForm = OrderForm(supplier: string, expectedDate: string, priority: string, notes: string)

  /** The blank add-item form: quantity 1, unit 'kg', no price. */
  const EmptyDraft: Draft := Draft("", "", 1, "kg", 0)

  const EmptyForm: OrderForm := OrderForm("", "", "normal", "")

  /** Every line's total is its quantity times its unit price, and both are positive. */
  predicate GoodLines(cart: seq<Line>) {
    forall i :: 0 <= i < |cart| ==>
      cart[i].quantity > 0 && cart[i].unitPrice > 0 && cart[i].totalPrice == cart[i].quantity * cart[i].unitPrice
  }

  function Cost(l: Line): int {
    l.quantity * l.unitPrice
  }

  function Quantity(l: Line): int {
    l.quantity
  }

  function LineTotal(l: Line): int {
    l.totalPrice
  }

  /** totalAmount: the sum of quantity times unit price. */
  function TotalAmount(cart: seq<Line>): int {
    Sum(cart, Cost)
  }

  /** totalItems: the sum of the quantities. */
  function TotalItems(cart: seq<Line>): int {
    Sum(cart, Quantity)
  }

  /** With good lines the totals agree with the line totals shown, and a
      non-empty cart has a positive amount and a positive item count. */
  lemma {:induction false} GoodLinesTotals(cart: seq<Line>)
    requires GoodLines(cart)
    ensures TotalAmount(cart) == Sum(cart, LineTotal)
    ensures cart != [] ==> TotalAmount(cart) > 0 && TotalItems(cart) >= |cart|
    ensures cart == [] ==> TotalAmount(cart) == 0 && TotalItems(cart) == 0
  {
    SumSame(cart, Cost, LineTotal);
    if cart != [] {
      var init := cart[..|cart| - 1];
      assert GoodLines(init);
      GoodLinesTotals(init);
      var l := cart[|cart| - 1];
      assert Cost(l) > 0 by { PositiveProduct(l.quantity, l.unitPrice); }
    }
  }

  lemma PositiveProduct(a: int, b: int)
    requires a > 0 && b > 0
    ensures a * b > 0
  {
  }

  /** The line handleAddItem appends. */
  function NewLine(now: int, d: Draft): (l: Line)
    ensures l.id == now && l.totalPrice == l.quantity * l.unitPrice
    ensures l.name == d.name && l.quantity == d.quantity && l.unitPrice == d.unitPrice
  {
    Line(now, d.name, d.category, d.quantity, d.unit, d.unitPrice, d.quantity * d.unitPrice)
  }

  /** handleAddItem's guard: a name, a positive quantity and a positive price. */
  predicate CanAdd(d: Draft) {
    d.name != "" && d.quantity > 0 && d.unitPrice > 0
  }

  /** Adding a line adds its cost to the total. */
  lemma AddLineTotal(cart: seq<Line>, l: Line)
    ensures TotalAmount(cart + [l]) == TotalAmount(cart) + l.quantity * l.unitPrice
    ensures TotalItems(cart + [l]) == TotalItems(cart) + l.quantity
  {
    assert (cart + [l])[..|cart|] == cart;
  }

  /** handleUpdateQuantity's map. */
  function WithQuantity(cart: seq<Line>, id: int, q: int): (r: seq<Line>)
    ensures |r| == |cart|
    ensures forall i :: 0 <= i < |r| ==>
              r[i] == if cart[i].id == id then cart[i].(quantity := q, totalPrice := q * cart[i].unitPrice) else cart[i]
  {
    seq(|cart|, i requires 0 <= i < |cart| =>
      if cart[i].id == id then cart[i].(quantity := q, totalPrice := q * cart[i].unitPrice) else cart[i])
  }

  /** A positive quantity keeps every line good. */
  lemma WithQuantityKeepsGood(cart: seq<Line>, id: int, q: int)
    requires GoodLines(cart) && q > 0
    ensures GoodLines(WithQuantity(cart, id, q))
  {
  }

  /** With one line of that id, the total moves by the change in its cost. */
  lemma WithQuantityTotal(cart: seq<Line>, k: nat, q: int)
    requires k < |cart|
    requires forall j :: 0 <= j < |cart| && j != k ==> cart[j].id != cart[k].id
    ensures TotalAmount(WithQuantity(cart, cart[k].id, q))
            == TotalAmount(cart) - Cost(cart[k]) + q * cart[k].unitPrice
  {
    var l := cart[k];
    var v := l.(quantity := q, totalPrice := q * l.unitPrice);
    var r := WithQuantity(cart, l.id, q);
    forall j | 0 <= j < |r|
      ensures r[j] == cart[k := v][j]
    {
    }
    assert r == cart[k := v];
    SumUpdate(cart, k, v, Cost);
  }

  predicate LineIdIsNot(l: Line, id: int) {
    l.id != id
  }

  function IdIsNot(id: int): Line -> bool {
    l => LineIdIsNot(l, id)
  }

  /** Removing keeps good lines good. */
  lemma RemoveKeepsGood(cart: seq<Line>, id: int)
    requires GoodLines(cart)
    ensures GoodLines(Filter(cart, IdIsNot(id)))
  {
  }

  /** handleItemSelect: the suggestion's name, category, unit and price; the
      quantity typed so far stays. */
  function WithSuggestion(d: Draft, s: Suggestion): (r: Draft)
    ensures r.quantity == d.quantity
    ensures r.name == s.name && r.category == s.category && r.unit == s.unit && r.unitPrice == s.unitPrice
  {
    d.(name := s.name, category := s.category, unit := s.unit, unitPrice := s.unitPrice)
  }

  /** A suggestion with a name and a price, picked into a draft with a
      positive quantity, passes the add guard. */
  lemma SuggestionCanBeAdded(d: Draft, s: Suggestion)
    requires s.name != "" && s.unitPrice > 0 && d.quantity > 0
    ensures CanAdd(WithSuggestion(d, s))
  {
  }

  /** The order the submission builds. */
  datatype OrderData = OrderData(form: OrderForm, items: seq<Line>, totalAmount: int, orderNumber: string,
                                 requestDate: string, status: string)

  datatype SubmitError = MissingSupplierOrDate | EmptyCart

  /** `ORD` + date + the last three digits of the timestamp. */
  function OrderNumber(year: nat, month: nat, day: nat, now: nat): (r: string)
    ensures |r| > 3 && r[..3] == "ORD" && AllDigits(r[3..])
  {
    var stamp, tail := DateStamp(year, month, day), LastThree(NatToString(now));
    LastThreeOfDigits(NatToString(now));
    AllDigitsAppend(stamp, tail);
    PrefixSplit("ORD", stamp + tail);
    "ORD" + (stamp + tail)
  }

  /** handleSubmitOrder: the supplier and date are checked first, then the cart. */
  function SubmitOrder(form: OrderForm, cart: seq<Line>, year: nat, month: nat, day: nat, now: nat,
                       today: string): (r: Result<OrderData, SubmitError>)
    ensures r.Err? <==> form.supplier == "" || form.expectedDate == "" || cart == []
    ensures r.Err? && (form.supplier == "" || form.expectedDate == "") ==> r.error == MissingSupplierOrDate
    ensures r.Ok? ==> r.value.items == cart && r.value.totalAmount == TotalAmount(cart)
                      && r.value.status == "pending" && r.value.form == form
  {
    if form.supplier == "" || form.expectedDate == "" then Err(MissingSupplierOrDate)
    else if cart == [] then Err(EmptyCart)
    else Ok(OrderData(form, cart, TotalAmount(cart), OrderNumber(year, month, day, now), today, "pending"))
  }

  /** Every order the screen can submit has a positive total. */
  lemma SubmittedTotalPositive(form: OrderForm, cart: seq<Line>, year: nat, month: nat, day: nat, now: nat,
                               today: string)
    requires GoodLines(cart)
    requires SubmitOrder(form, cart, year, month, day, now, today).Ok?
    ensures SubmitOrder(form, cart, year, month, day, now, today).value.totalAmount > 0
  {
    GoodLinesTotals(cart);
  }

  class InventoryNewOrder {
    var form: OrderForm
    var cart: seq<Line>
    var draft: Draft
    var isAddingItem: bool

    ghost predicate Valid()
      reads this
    {
      GoodLines(cart)
    }

    constructor ()
      ensures Valid() && form == EmptyForm && cart == [] && draft == EmptyDraft && !isAddingItem
    {
      form := EmptyForm;
      cart := [];
      draft := EmptyDraft;
      isAddingItem := false;
    }

    method SetForm(f: OrderForm)
      modifies this`form
      ensures form == f
    {
      form := f;
    }

    method SetDraft(d: Draft)
      modifies this`draft
      ensures draft == d
    {
      draft := d;
    }

    /** handleAddItem: refused unless the draft passes the guard; on success the
        line goes last and the form is reset and closed. */
    method AddItem(now: int) returns (added: bool)
      requires Valid()
      modifies this`cart, this`draft, this`isAddingItem
      ensures Valid()
      ensures added <==> CanAdd(old(draft))
      ensures added ==> cart == old(cart) + [NewLine(now, old(draft))] && draft == EmptyDraft && !isAddingItem
      ensures !added ==> cart == old(cart) && draft == old(draft) && isAddingItem == old(isAddingItem)
    {
      if !CanAdd(draft) {
        return false;
      }
      cart := cart + [NewLine(now, draft)];
      draft := EmptyDraft;
      isAddingItem := false;
      added := true;
    }

    /** handleUpdateQuantity: ignored unless the quantity is positive. */
    method UpdateQuantity(id: int, q: int)
      requires Valid()
      modifies this`cart
      ensures Valid()
      ensures q > 0 ==> cart == WithQuantity(old(cart), id, q)
      ensures q <= 0 ==> cart == old(cart)
    {
      if q <= 0 {
        return;
      }
      WithQuantityKeepsGood(cart, id, q);
      cart := WithQuantity(cart, id, q);
    }

    method RemoveItem(id: int)
      requires Valid()
      modifies this`cart
      ensures Valid()
      ensures cart == Filter(old(cart), IdIsNot(id))
    {
      RemoveKeepsGood(cart, id);
      cart := Filter(cart, IdIsNot(id));
    }

    method SelectSuggestion(s: Suggestion)
      modifies this`draft
      ensures draft == WithSuggestion(old(draft), s)
    {
      draft := WithSuggestion(draft, s);
    }

    /** handleSubmitOrder: on success the form is reset and the cart emptied;
        on refusal nothing changes. */
    method Submit(year: nat, month: nat, day: nat, now: nat, today: string)
      returns (r: Result<OrderData, SubmitError>)
      requires Valid()
      modifies this`form, this`cart
      ensures Valid()
      ensures r == SubmitOrder(old(form), old(cart), year, month, day, now, today)
      ensures r.Ok? ==> form == EmptyForm && cart == [] && r.value.totalAmount > 0
      ensures r.Err? ==> form == old(form) && cart == old(cart)
    {
      r := SubmitOrder(form, cart, year, month, day, now, today);
      if r.Ok? {
        SubmittedTotalPositive(form, cart, year, month, day, now, today);
        form := EmptyForm;
        cart := [];
      }
    }
  }
}
