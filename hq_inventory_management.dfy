/** Head office's material stock (HQ/InventoryManagement.tsx): registering,
    editing and deleting materials, and the statistics cards. */
module HqInventory {
  import opened Common

  datatype Material = Material(
    id: int,
    name: string,
    category: string,
    code: string,
    totalStock: int,
    distributedStock: int,
    warehouseStock: int,
    minStock: int,
    maxStock: int,
    unit: string,
    unitPrice: int,
    lastRestocked: string,
    expiryDate: Option<string>,
    supplier: string,
    status: string,
    weeklyUsage: int,
    storesUsingCount: int)

  /** What the material form submits (number fields taken as parsed). */
  datatype MaterialForm = MaterialForm(
    name: string,
    code: string,
    category: string,
    supplier: string,
    unitPrice: int,
    unit: string,
    minStock: int,
    maxStock: int,
    expiryDate: Option<string>)

  datatype SupplierOrder = SupplierOrder(
    id: string,
    supplier: string,
    items: seq<string>,
    orderDate: string,
    expectedDate: string,
    status: string,
    total: int,
    urgency: string)

  function Ids(inventory: seq<Material>): (r: seq<int>)
    ensures |r| == |inventory| && forall i :: 0 <= i < |r| ==> r[i] == inventory[i].id
  {
    seq(|inventory|, i requires 0 <= i < |inventory| => inventory[i].id)
  }

  predicate IdsDistinct(inventory: seq<Material>) {
    forall i, j :: 0 <= i < j < |inventory| ==> inventory[i].id != inventory[j].id
  }

  // ---------------------------------------------------------------------------
  // Editing
  // ---------------------------------------------------------------------------

  /** `{ ...item, ...data }`: the form's fields replace the item's; stock,
      status and usage stay. An expiry date the form leaves out stays too. */
  function Merge(m: Material, f: MaterialForm): (r: Material)
    ensures r.id == m.id && r.totalStock == m.totalStock && r.status == m.status
    ensures r.distributedStock == m.distributedStock && r.warehouseStock == m.warehouseStock
    ensures r.name == f.name && r.code == f.code && r.unitPrice == f.unitPrice
    ensures r.expiryDate == if f.expiryDate.Some? then f.expiryDate else m.expiryDate
  {
    m.(name := f.name, code := f.code, category := f.category, supplier := f.supplier, unitPrice := f.unitPrice,
       unit := f.unit, minStock := f.minStock, maxStock := f.maxStock,
       expiryDate := if f.expiryDate.Some? then f.expiryDate else m.expiryDate)
  }

  /** handleSubmit in edit mode: only the selected material changes. */
  function Edited(inventory: seq<Material>, selectedId: int, f: MaterialForm): (r: seq<Material>)
    ensures |r| == |inventory| && Ids(r) == Ids(inventory)
    ensures forall i :: 0 <= i < |r| && inventory[i].id != selectedId ==> r[i] == inventory[i]
    ensures forall i :: 0 <= i < |r| && inventory[i].id == selectedId ==> r[i] == Merge(inventory[i], f)
  {
    seq(|inventory|, i requires 0 <= i < |inventory| =>
      if inventory[i].id == selectedId then Merge(inventory[i], f) else inventory[i])
  }

  // ---------------------------------------------------------------------------
  // Deleting
  // ---------------------------------------------------------------------------

  predicate MaterialIdIsNot(m: Material, id: int) {
    m.id != id
  }

  function IdIsNot(id: int): Material -> bool {
    m => MaterialIdIsNot(m, id)
  }

  /** handleDelete, once confirmed. */
  function Deleted(inventory: seq<Material>, id: int): (r: seq<Material>)
    ensures forall m :: m in r <==> m in inventory && m.id != id
  {
    Filter(inventory, IdIsNot(id))
  }

  // ---------------------------------------------------------------------------
  // Registering
  // ---------------------------------------------------------------------------

  /** The id as the source computes it: `Math.max(...ids) + 1`. */
  function NewIdAsWritten(inventory: seq<Material>): JsNumber {
    JsMaxPlusOne(Ids(inventory))
  }

  /** Once every material is deleted, the next registration gets -Infinity. */
  lemma NewIdAfterDeletingAll(m: Material)
    ensures Deleted([m], m.id) == []
    ensures NewIdAsWritten(Deleted([m], m.id)) == NegativeInfinity
  {
  }

  /** handleSubmit in add mode, with the id one more than the largest (1 for
      an empty list): no stock anywhere, so 'out'. */
  function NewMaterial(inventory: seq<Material>, f: MaterialForm, today: string): (m: Material)
    ensures forall i :: 0 <= i < |inventory| ==> inventory[i].id < m.id
    ensures inventory != [] ==> NewIdAsWritten(inventory) == Finite(m.id)
    ensures m.totalStock == 0 && m.distributedStock == 0 && m.warehouseStock == 0
    ensures m.status == "out" && m.weeklyUsage == 0 && m.storesUsingCount == 0 && m.lastRestocked == today
    ensures m.name == f.name && m.code == f.code && m.unitPrice == f.unitPrice
  {
    var id := NextId(Ids(inventory));
    assert inventory != [] ==> JsMaxPlusOne(Ids(inventory)) == Finite(id) by {
      if inventory != [] {
        NextIdMatchesSource(Ids(inventory));
      }
    }
    Material(id, f.name, f.category, f.code, 0, 0, 0, f.minStock, f.maxStock, f.unit,
             f.unitPrice, today, f.expiryDate, f.supplier, "out", 0, 0)
  }

  /** Registering keeps the ids distinct. */
  lemma AddKeepsIdsDistinct(inventory: seq<Material>, f: MaterialForm, today: string)
    requires IdsDistinct(inventory)
    ensures IdsDistinct(inventory + [NewMaterial(inventory, f, today)])
  {
  }

  // ---------------------------------------------------------------------------
  // Statistics
  // ---------------------------------------------------------------------------

  predicate NeedsStock(m: Material) {
    m.status == "low" || m.status == "critical" || m.status == "out"
  }

  function NeedsStockTest(): Material -> bool {
    m => NeedsStock(m)
  }

  function Value(m: Material): int {
    m.totalStock * m.unitPrice
  }

  function ValueOf(): Material -> int {
    m => Value(m)
  }

  function UrgentTest(): SupplierOrder -> bool {
    (o: SupplierOrder) => o.urgency == "high"
  }

  datatype Stats = Stats(totalItems: nat, lowStockItems: nat, totalValue: int, urgentOrders: nat)

  /** The four cards: materials, those short of stock, stock value, urgent orders. */
  function StatsOf(inventory: seq<Material>, orders: seq<SupplierOrder>): (s: Stats)
    ensures s.totalItems == |inventory| && s.lowStockItems <= s.totalItems && s.urgentOrders <= |orders|
    ensures s.lowStockItems == |Filter(inventory, NeedsStockTest())|
    ensures (forall i :: 0 <= i < |inventory| ==> inventory[i].totalStock >= 0 && inventory[i].unitPrice >= 0)
            ==> s.totalValue >= 0
  {
    ValueNonNegative(inventory);
    Stats(|inventory|, Count(inventory, NeedsStockTest()), Sum(inventory, ValueOf()), Count(orders, UrgentTest()))
  }

  lemma {:induction false} ValueNonNegative(inventory: seq<Material>)
    ensures (forall i :: 0 <= i < |inventory| ==> inventory[i].totalStock >= 0 && inventory[i].unitPrice >= 0)
            ==> Sum(inventory, ValueOf()) >= 0
  {
    if inventory != [] {
      ValueNonNegative(inventory[..|inventory| - 1]);
    }
  }

  /** A new material is short of stock and adds nothing to the stock value. */
  lemma AddStats(inventory: seq<Material>, orders: seq<SupplierOrder>, f: MaterialForm, today: string)
    ensures var after := StatsOf(inventory + [NewMaterial(inventory, f, today)], orders);
            after.lowStockItems == StatsOf(inventory, orders).lowStockItems + 1
            && after.totalValue == StatsOf(inventory, orders).totalValue
  {
    var m := NewMaterial(inventory, f, today);
    AppendEmptyMaterial(inventory, m);
  }

  lemma AppendEmptyMaterial(inventory: seq<Material>, m: Material)
    requires m.status == "out" && m.totalStock == 0
    ensures Count(inventory + [m], NeedsStockTest()) == Count(inventory, NeedsStockTest()) + 1
    ensures Sum(inventory + [m], ValueOf()) == Sum(inventory, ValueOf())
  {
    CountAppend(inventory, [m], NeedsStockTest());
    assert [m][1..] == [];
    SumAppend(inventory, [m], ValueOf());
    SumSingle(m, ValueOf());
  }

  /** Deleting a material drops exactly it from the list and its value from the total. */
  lemma DeleteStats(inventory: seq<Material>, orders: seq<SupplierOrder>, k: nat)
    requires IdsDistinct(inventory) && k < |inventory|
    ensures Deleted(inventory, inventory[k].id) == inventory[..k] + inventory[k + 1..]
    ensures StatsOf(Deleted(inventory, inventory[k].id), orders).totalValue
            == StatsOf(inventory, orders).totalValue - Value(inventory[k])
    ensures StatsOf(Deleted(inventory, inventory[k].id), orders).totalItems + 1 == |inventory|
  {
    FilterRemovesOne(inventory, k, IdIsNot(inventory[k].id));
    SumRemove(inventory, k, ValueOf());
  }

  /** Editing changes no stock, so the value changes only through the unit price. */
  lemma EditStats(inventory: seq<Material>, orders: seq<SupplierOrder>, k: nat, f: MaterialForm)
    requires IdsDistinct(inventory) && k < |inventory|
    ensures StatsOf(Edited(inventory, inventory[k].id, f), orders).totalValue
            == StatsOf(inventory, orders).totalValue - Value(inventory[k]) + inventory[k].totalStock * f.unitPrice
    ensures StatsOf(Edited(inventory, inventory[k].id, f), orders).lowStockItems == StatsOf(inventory, orders).lowStockItems
  {
    var m := Merge(inventory[k], f);
    assert Edited(inventory, inventory[k].id, f) == inventory[k := m];
    SumUpdate(inventory, k, m, ValueOf());
    CountUpdate(inventory, k, m, NeedsStockTest());
  }

  // ---------------------------------------------------------------------------
  // The screen
  // ---------------------------------------------------------------------------

  datatype Mode = Add | Edit(selectedId: int)

  class HqInventory {
    var inventory: seq<Material>
    var orders: seq<SupplierOrder>
    var mode: Mode

    constructor (materials: seq<Material>, supplierOrders: seq<SupplierOrder>)
      ensures inventory == materials && orders == supplierOrders && mode == Add
    {
      inventory := materials;
      orders := supplierOrders;
      mode := Add;
    }

    method OpenAdd()
      modifies this`mode
      ensures mode == Add
    {
      mode := Add;
    }

    method OpenEdit(id: int)
      modifies this`mode
      ensures mode == Edit(id)
    {
      mode := Edit(id);
    }

    /** handleSubmit: edit mode merges into the selected material, add mode appends. */
    method Submit(f: MaterialForm, today: string)
      modifies this`inventory
      ensures mode.Edit? ==> inventory == Edited(old(inventory), mode.selectedId, f)
      ensures mode.Add? ==> inventory == old(inventory) + [NewMaterial(old(inventory), f, today)]
    {
      if mode.Edit? {
        inventory := Edited(inventory, mode.selectedId, f);
      } else {
        inventory := inventory + [NewMaterial(inventory, f, today)];
      }
    }

    method Delete(id: int)
      modifies this`inventory
      ensures inventory == Deleted(old(inventory), id)
    {
      inventory := Deleted(inventory, id);
    }
  }
}
