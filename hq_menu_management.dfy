/** Head office's menu catalogue (HQ/MenuManagement.tsx): registering,
    editing and deleting menus, the revenue and cost totals and the best
    seller. */
module HqMenu {
  import opened Common

  datatype Menu = Menu(
    id: int,
    name: string,
    category: string,
    price: int,
    cost: int,
    description: string,
    ingredients: string,
    allergens: string,
    calories: int,
    status: string,
    popularity: int,
    monthlySales: int,
    image: string)

  /** What the menu form submits; an empty image means no file was chosen. */
  datatype MenuForm = MenuForm(
    name: string,
    category: string,
    price: int,
    cost: int,
    description: string,
    ingredients: string,
    allergens: string,
    calories: int,
    image: string)

  function Ids(menus: seq<Menu>): (r: seq<int>)
    ensures |r| == |menus| && forall i :: 0 <= i < |r| ==> r[i] == menus[i].id
  {
    seq(|menus|, i requires 0 <= i < |menus| => menus[i].id)
  }

  predicate IdsDistinct(menus: seq<Menu>) {
    forall i, j :: 0 <= i < j < |menus| ==> menus[i].id != menus[j].id
  }

  // ---------------------------------------------------------------------------
  // Editing, registering, deleting
  // ---------------------------------------------------------------------------

  /** `{ ...menu, ...data, image: data.image || menu.image }`. */
  function Merge(m: Menu, f: MenuForm): (r: Menu)
    ensures r.id == m.id && r.status == m.status && r.popularity == m.popularity && r.monthlySales == m.monthlySales
    ensures r.price == f.price && r.cost == f.cost && r.name == f.name
    ensures r.image == (if f.image == "" then m.image else f.image)
  {
    m.(name := f.name, category := f.category, price := f.price, cost := f.cost, description := f.description,
       ingredients := f.ingredients, allergens := f.allergens, calories := f.calories,
       image := if f.image == "" then m.image else f.image)
  }

  /** handleSubmit while editing: only the menu being edited changes. */
  function Edited(menus: seq<Menu>, editingId: int, f: MenuForm): (r: seq<Menu>)
    ensures |r| == |menus| && Ids(r) == Ids(menus)
    ensures forall i :: 0 <= i < |r| && menus[i].id != editingId ==> r[i] == menus[i]
    ensures forall i :: 0 <= i < |r| && menus[i].id == editingId ==> r[i] == Merge(menus[i], f)
  {
    seq(|menus|, i requires 0 <= i < |menus| =>
      if menus[i].id == editingId then Merge(menus[i], f) else menus[i])
  }

  /** An edit without a new image keeps the picture. */
  lemma EditWithoutImageKeepsIt(menus: seq<Menu>, editingId: int, f: MenuForm)
    requires f.image == ""
    ensures forall i :: 0 <= i < |menus| ==> Edited(menus, editingId, f)[i].image == menus[i].image
  {
  }

  /** handleSubmit while adding: one more than the largest id (1 for an empty
      list), 'preparing', nothing sold yet. */
  function NewMenu(menus: seq<Menu>, f: MenuForm): (m: Menu)
    ensures forall i :: 0 <= i < |menus| ==> menus[i].id < m.id
    ensures menus != [] ==> JsMaxPlusOne(Ids(menus)) == Finite(m.id)
    ensures m.status == "preparing" && m.popularity == 0 && m.monthlySales == 0 && m.image == "\U{1F37D}\U{FE0F}"
    ensures m.name == f.name && m.price == f.price && m.cost == f.cost
  {
    var id := NextId(Ids(menus));
    assert menus != [] ==> JsMaxPlusOne(Ids(menus)) == Finite(id) by {
      if menus != [] {
        NextIdMatchesSource(Ids(menus));
      }
    }
    Menu(id, f.name, f.category, f.price, f.cost, f.description, f.ingredients, f.allergens, f.calories,
         "preparing", 0, 0, "\U{1F37D}\U{FE0F}")
  }

  predicate MenuIdIsNot(m: Menu, id: int) {
    m.id != id
  }

  function IdIsNot(id: int): Menu -> bool {
    m => MenuIdIsNot(m, id)
  }

  /** handleDelete, once confirmed. */
  function Deleted(menus: seq<Menu>, id: int): (r: seq<Menu>)
    ensures forall m :: m in r <==> m in menus && m.id != id
  {
    Filter(menus, IdIsNot(id))
  }

  // ---------------------------------------------------------------------------
  // Totals and the best seller
  // ---------------------------------------------------------------------------

  function Revenue(m: Menu): int {
    m.price * m.monthlySales
  }

  function CostOf(m: Menu): int {
    m.cost * m.monthlySales
  }

  function RevenueOf(): Menu -> int {
    m => Revenue(m)
  }

  function CostsOf(): Menu -> int {
    m => CostOf(m)
  }

  function TotalRevenue(menus: seq<Menu>): int {
    Sum(menus, RevenueOf())
  }

  function TotalCost(menus: seq<Menu>): int {
    Sum(menus, CostsOf())
  }

  function MarginOf(): Menu -> int {
    (m: Menu) => (m.price - m.cost) * m.monthlySales
  }

  /** Revenue minus cost is the sum of every menu's margin times its sales. */
  lemma {:induction false} TotalMargin(menus: seq<Menu>)
    ensures TotalRevenue(menus) - TotalCost(menus) == Sum(menus, MarginOf())
  {
    if menus != [] {
      var last := menus[|menus| - 1];
      TotalMargin(menus[..|menus| - 1]);
      MarginOfLast(last);
    }
  }

  lemma MarginOfLast(m: Menu)
    ensures MarginOf()(m) == Revenue(m) - CostOf(m)
  {
    assert (m.price - m.cost) * m.monthlySales == m.price * m.monthlySales - m.cost * m.monthlySales;
  }

  /** A new menu has sold nothing, so registering it leaves both totals alone. */
  lemma AddKeepsTotals(menus: seq<Menu>, f: MenuForm)
    ensures TotalRevenue(menus + [NewMenu(menus, f)]) == TotalRevenue(menus)
    ensures TotalCost(menus + [NewMenu(menus, f)]) == TotalCost(menus)
  {
    var m := NewMenu(menus, f);
    assert (menus + [m])[..|menus|] == menus;
  }

  /** Deleting a menu takes its revenue out of the total. */
  lemma DeleteLowersRevenue(menus: seq<Menu>, k: nat)
    requires IdsDistinct(menus) && k < |menus|
    ensures TotalRevenue(Deleted(menus, menus[k].id)) == TotalRevenue(menus) - Revenue(menus[k])
  {
    FilterRemovesOne(menus, k, IdIsNot(menus[k].id));
    SumRemove(menus, k, RevenueOf());
  }

  /** topSellingMenu: the reduce keeps the earlier menu unless a later one sold
      strictly more, so it finds the first of the best sellers. */
  function TopSellingIndex(menus: seq<Menu>): (r: nat)
    requires menus != []
    ensures r < |menus|
    ensures forall j :: 0 <= j < |menus| ==> menus[j].monthlySales <= menus[r].monthlySales
    ensures forall j :: 0 <= j < r ==> menus[j].monthlySales < menus[r].monthlySales
  {
    if |menus| == 1 then 0
    else
      var best := TopSellingIndex(menus[..|menus| - 1]);
      if menus[|menus| - 1].monthlySales > menus[best].monthlySales then |menus| - 1 else best
  }

  /** With no menus the card shows nothing. */
  function TopSellingMenu(menus: seq<Menu>): (r: Option<Menu>)
    ensures r.None? <==> menus == []
    ensures r.Some? ==> r.value in menus && forall j :: 0 <= j < |menus| ==> menus[j].monthlySales <= r.value.monthlySales
  {
    if menus == [] then None else Some(menus[TopSellingIndex(menus)])
  }

  /** The status filter counts. */
  function StatusIs(status: string): Menu -> bool {
    (m: Menu) => m.status == status
  }

  /** A new menu appears under 'preparing' and nowhere else. */
  lemma AddCountsPreparing(menus: seq<Menu>, f: MenuForm, status: string)
    ensures Count(menus + [NewMenu(menus, f)], StatusIs(status))
            == Count(menus, StatusIs(status)) + (if status == "preparing" then 1 else 0)
  {
    CountAppend(menus, [NewMenu(menus, f)], StatusIs(status));
  }

  // ---------------------------------------------------------------------------
  // The screen
  // ---------------------------------------------------------------------------

  class HqMenu {
    var menus: seq<Menu>
    var editing: Option<int>

    constructor (initial: seq<Menu>)
      ensures menus == initial && editing.None?
    {
      menus := initial;
      editing := None;
    }

    method OpenAdd()
      modifies this`editing
      ensures editing.None?
    {
      editing := None;
    }

    method OpenEdit(id: int)
      modifies this`editing
      ensures editing == Some(id)
    {
      editing := Some(id);
    }

    method Submit(f: MenuForm)
      modifies this`menus
      ensures editing.Some? ==> menus == Edited(old(menus), editing.value, f)
      ensures editing.None? ==> menus == old(menus) + [NewMenu(old(menus), f)]
    {
      if editing.Some? {
        menus := Edited(menus, editing.value, f);
      } else {
        menus := menus + [NewMenu(menus, f)];
      }
    }

    method Delete(id: int)
      modifies this`menus
      ensures menus == Deleted(old(menus), id)
    {
      menus := Deleted(menus, id);
    }
  }
}
