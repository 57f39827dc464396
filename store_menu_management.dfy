/** A store's menu board (Store/MenuManagement.tsx): search and category
    filters, switching a menu on and off, sold-out and restock, and adding a
    menu with its allergen list. */
module StoreMenu {
  import opened Common

  datatype Menu = Menu(
    id: int,
    name: string,
    category: string,
    price: int,
    description: string,
    ingredients: string,
    calories: nat,
    allergens: seq<string>,
    isAvailable: bool,
    soldOut: bool,
    todaySales: nat,
    stockLevel: string,
    lastOrdered: Option<string>,
    image: string)

  /** A menu is on sale when it is switched on and not sold out. */
  predicate OnSale(m: Menu) {
    m.isAvailable && !m.soldOut
  }

  // ---------------------------------------------------------------------------
  // Filters
  // ---------------------------------------------------------------------------

  /** filteredMenus' test: the search looks at the name and the category; the
      category select also offers 'all', 'available' and 'soldout'. */
  predicate Shown(m: Menu, term: string, selected: string) {
    (term == "" || MatchesTerm(m.name, term) || MatchesTerm(m.category, term))
    && (selected == "all" || m.category == selected
        || (selected == "available" && OnSale(m))
        || (selected == "soldout" && m.soldOut))
  }

  function ShownBy(term: string, selected: string): Menu -> bool {
    m => Shown(m, term, selected)
  }

  function FilteredMenus(menus: seq<Menu>, term: string, selected: string): (r: seq<Menu>)
    ensures multiset(r) <= multiset(menus)
    ensures forall m :: m in r <==> m in menus && Shown(m, term, selected)
  {
    Filter(menus, ShownBy(term, selected))
  }

  /** An empty search on 'all' lists every menu. */
  lemma EmptySearchShowsAll(menus: seq<Menu>)
    ensures FilteredMenus(menus, "", "all") == menus
  {
    FilterAll(menus, ShownBy("", "all"));
  }

  /** The four real categories of the add form. */
  const Categories: seq<string> := ["세트", "토스트", "사이드", "음료"]

  predicate Categorised(menus: seq<Menu>) {
    forall i :: 0 <= i < |menus| ==> menus[i].category in Categories
  }

  function OnSaleTest(): Menu -> bool {
    m => OnSale(m)
  }

  function SoldOutTest(): Menu -> bool {
    (m: Menu) => m.soldOut
  }

  /** The 'available' tab lists the menus on sale and the 'soldout' tab the
      sold-out ones, so each tab shows as many menus as its badge counts. */
  lemma TabsMatchCounts(menus: seq<Menu>)
    requires Categorised(menus)
    ensures FilteredMenus(menus, "", "available") == Filter(menus, OnSaleTest())
    ensures FilteredMenus(menus, "", "soldout") == Filter(menus, SoldOutTest())
    ensures |FilteredMenus(menus, "", "available")| == Count(menus, OnSaleTest())
    ensures |FilteredMenus(menus, "", "soldout")| == Count(menus, SoldOutTest())
  {
    FilterSame(menus, ShownBy("", "available"), OnSaleTest());
    FilterSame(menus, ShownBy("", "soldout"), SoldOutTest());
  }

  // ---------------------------------------------------------------------------
  // Switching, sold-out and restock
  // ---------------------------------------------------------------------------

  /** handleToggleAvailability: the menus with that id take the switch's value. */
  function SetAvailable(menus: seq<Menu>, id: int, on: bool): (r: seq<Menu>)
    ensures |r| == |menus|
    ensures forall i :: 0 <= i < |r| ==>
              r[i] == if menus[i].id == id then menus[i].(isAvailable := on) else menus[i]
  {
    seq(|menus|, i requires 0 <= i < |menus| =>
      if menus[i].id == id then menus[i].(isAvailable := on) else menus[i])
  }

  /** handleSoldOut, once confirmed. */
  function MarkSoldOut(menus: seq<Menu>, id: int): (r: seq<Menu>)
    ensures |r| == |menus|
    ensures forall i :: 0 <= i < |r| ==>
              r[i] == if menus[i].id == id then menus[i].(soldOut := true) else menus[i]
  {
    seq(|menus|, i requires 0 <= i < |menus| =>
      if menus[i].id == id then menus[i].(soldOut := true) else menus[i])
  }

  /** handleRestock. */
  function Restock(menus: seq<Menu>, id: int): (r: seq<Menu>)
    ensures |r| == |menus|
    ensures forall i :: 0 <= i < |r| ==>
              r[i] == if menus[i].id == id then menus[i].(soldOut := false, stockLevel := "sufficient") else menus[i]
  {
    seq(|menus|, i requires 0 <= i < |menus| =>
      if menus[i].id == id then menus[i].(soldOut := false, stockLevel := "sufficient") else menus[i])
  }

  /** The last switch wins, and switching a menu to the value it already has
      changes nothing. */
  lemma SwitchLastWins(menus: seq<Menu>, id: int, a: bool, b: bool)
    ensures SetAvailable(SetAvailable(menus, id, a), id, b) == SetAvailable(menus, id, b)
    ensures (forall i :: 0 <= i < |menus| && menus[i].id == id ==> menus[i].isAvailable == a)
            ==> SetAvailable(menus, id, a) == menus
  {
  }

  /** A sold-out menu is off sale and on the 'soldout' tab; the other menus
      keep their place on the tabs. */
  lemma SoldOutLeavesSale(menus: seq<Menu>, id: int)
    ensures forall i :: 0 <= i < |menus| && menus[i].id == id ==>
              !OnSale(MarkSoldOut(menus, id)[i]) && Shown(MarkSoldOut(menus, id)[i], "", "soldout")
    ensures forall i :: 0 <= i < |menus| && menus[i].id != id ==> MarkSoldOut(menus, id)[i] == menus[i]
  {
  }

  /** Restocking after a sold-out is restocking: the sold-out mark leaves no trace. */
  lemma RestockUndoesSoldOut(menus: seq<Menu>, id: int)
    ensures Restock(MarkSoldOut(menus, id), id) == Restock(menus, id)
    ensures forall i :: 0 <= i < |menus| && menus[i].id == id ==>
              (OnSale(Restock(menus, id)[i]) <==> menus[i].isAvailable)
  {
  }

  // ---------------------------------------------------------------------------
  // Adding a menu
  // ---------------------------------------------------------------------------

  /** What the parser keeps: a non-empty, trimmed piece without a comma. */
  predicate Allergen(a: string) {
    a != [] && Trimmed(a) && ',' !in a
  }

  /** The allergen field: split on ',', each piece trimmed, empty pieces
      dropped; an absent or empty field gives no allergens. */
  function ParseAllergens(input: Option<string>): (r: seq<string>)
    ensures forall i :: 0 <= i < |r| ==> Allergen(r[i])
    ensures input.None? || input.value == "" ==> r == []
  {
    if input.None? || input.value == "" then [] else Pieces(input.value)
  }

  function Pieces(text: string): (r: seq<string>)
    ensures forall i :: 0 <= i < |r| ==> Allergen(r[i])
  {
    Filter(TrimAll(Split(text, ',')), NonEmpty())
  }

  function TrimAll(pieces: seq<string>): (r: seq<string>)
    ensures |r| == |pieces| && forall i :: 0 <= i < |r| ==> r[i] == Trim(pieces[i])
  {
    seq(|pieces|, i requires 0 <= i < |pieces| => Trim(pieces[i]))
  }

  function NonEmpty(): string -> bool {
    s => s != []
  }

  lemma TrimAllTrimmed(pieces: seq<string>)
    requires forall i :: 0 <= i < |pieces| ==> Trimmed(pieces[i])
    ensures TrimAll(pieces) == pieces
  {
  }

  lemma JoinStartsWithFirst(parts: seq<string>, sep: string)
    requires parts != []
    ensures |Join(parts, sep)| >= |parts[0]|
  {
  }

  /** Splitting the comma-joined allergens gives each of them back. */
  lemma PiecesOfJoin(allergens: seq<string>)
    requires allergens != []
    requires forall i :: 0 <= i < |allergens| ==> Allergen(allergens[i])
    ensures Pieces(Join(allergens, ",")) == allergens
  {
    SplitJoin(allergens, ',');
    assert [','] == ",";
    TrimAllTrimmed(allergens);
    FilterAll(allergens, NonEmpty());
  }

  /** Allergens written back with commas are read back as they were. */
  lemma AllergensRoundTrip(allergens: seq<string>)
    requires allergens != []
    requires forall i :: 0 <= i < |allergens| ==> Allergen(allergens[i])
    ensures ParseAllergens(Some(Join(allergens, ","))) == allergens
  {
    JoinStartsWithFirst(allergens, ",");
    PiecesOfJoin(allergens);
  }

  /** What the quick-add form submits. */
  datatype MenuForm = MenuForm(name: string, category: string, price: int, description: string, allergens: Option<string>)

  /** handleSubmit's new menu: one more than the largest id, on sale, nothing sold. */
  function NewMenu(menus: seq<Menu>, f: MenuForm): (m: Menu)
    requires menus != []
    ensures forall i :: 0 <= i < |menus| ==> menus[i].id < m.id
    ensures OnSale(m) && m.todaySales == 0 && m.stockLevel == "sufficient"
    ensures m.name == f.name && m.category == f.category && m.price == f.price
    ensures m.allergens == ParseAllergens(f.allergens)
  {
    Menu(NextId(Ids(menus)), f.name, f.category, f.price, f.description, "", 0, ParseAllergens(f.allergens),
         true, false, 0, "sufficient", None, "\U{1F37D}\U{FE0F}")
  }

  function Ids(menus: seq<Menu>): (r: seq<int>)
    ensures |r| == |menus| && forall i :: 0 <= i < |r| ==> r[i] == menus[i].id
  {
    seq(|menus|, i requires 0 <= i < |menus| => menus[i].id)
  }

  /** The new id is what `Math.max(...ids) + 1` gives. */
  lemma NewMenuIdMatchesSource(menus: seq<Menu>, f: MenuForm)
    requires menus != []
    ensures JsMaxPlusOne(Ids(menus)) == Finite(NewMenu(menus, f).id)
  {
    NextIdMatchesSource(Ids(menus));
  }

  /** Ids stay distinct when a menu is added. */
  lemma AddKeepsIdsDistinct(menus: seq<Menu>, f: MenuForm)
    requires menus != []
    requires forall i, j :: 0 <= i < j < |menus| ==> menus[i].id != menus[j].id
    ensures var r := menus + [NewMenu(menus, f)];
            forall i, j :: 0 <= i < j < |r| ==> r[i].id != r[j].id
  {
  }

  // ---------------------------------------------------------------------------
  // The screen
  // ---------------------------------------------------------------------------

  /** The menu board; it starts from the menus synchronised from head office
      and never deletes one, so it is never empty. */
  class StoreMenu {
    var menus: seq<Menu>

    ghost predicate Valid()
      reads this
    {
      menus != []
    }

    constructor (initial: seq<Menu>)
      requires initial != []
      ensures Valid() && menus == initial
    {
      menus := initial;
    }

    method ToggleAvailability(id: int, on: bool)
      requires Valid()
      modifies this`menus
      ensures Valid() && menus == SetAvailable(old(menus), id, on)
    {
      menus := SetAvailable(menus, id, on);
    }

    method ConfirmSoldOut(id: int)
      requires Valid()
      modifies this`menus
      ensures Valid() && menus == MarkSoldOut(old(menus), id)
    {
      menus := MarkSoldOut(menus, id);
    }

    method RestockMenu(id: int)
      requires Valid()
      modifies this`menus
      ensures Valid() && menus == Restock(old(menus), id)
    {
      menus := Restock(menus, id);
    }

    /** handleSubmit: the new menu goes last. */
    method Add(f: MenuForm)
      requires Valid()
      modifies this`menus
      ensures Valid() && menus == old(menus) + [NewMenu(old(menus), f)]
    {
      menus := menus + [NewMenu(menus, f)];
    }
  }
}
