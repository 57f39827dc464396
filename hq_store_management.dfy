/** Head office's franchise store register (HQ/StoreManagement.tsx):
    registering, editing and deleting stores, and the status filter counts. */
module HqStores {
  import opened Common

  datatype Store = Store(
    id: int,
    name: string,
    owner: string,
    phone: string,
    email: string,
    address: string,
    openDate: string,
    monthlyRevenue: int,
    status: string,
    region: string,
    contractType: string,
    deposit: Option<int>)

  /** What the store form submits; the deposit field is optional. */
  datatype StoreForm = StoreForm(
    name: string,
    owner: string,
    phone: string,
    email: string,
    address: string,
    region: string,
    contractType: string,
    openDate: string,
    deposit: Option<int>)

  function Ids(stores: seq<Store>): (r: seq<int>)
    ensures |r| == |stores| && forall i :: 0 <= i < |r| ==> r[i] == stores[i].id
  {
    seq(|stores|, i requires 0 <= i < |stores| => stores[i].id)
  }

  predicate IdsDistinct(stores: seq<Store>) {
    forall i, j :: 0 <= i < j < |stores| ==> stores[i].id != stores[j].id
  }

  // ---------------------------------------------------------------------------
  // Editing, registering, deleting
  // ---------------------------------------------------------------------------

  /** `{ ...store, ...data, monthlyRevenue: 0 }`: an edit also clears the
      month's revenue; the status stays. */
  function Merge(s: Store, f: StoreForm): (r: Store)
    ensures r.id == s.id && r.status == s.status && r.monthlyRevenue == 0
    ensures r.name == f.name && r.owner == f.owner && r.openDate == f.openDate
    ensures r.deposit == if f.deposit.Some? then f.deposit else s.deposit
  {
    s.(name := f.name, owner := f.owner, phone := f.phone, email := f.email, address := f.address,
       region := f.region, contractType := f.contractType, openDate := f.openDate,
       deposit := if f.deposit.Some? then f.deposit else s.deposit, monthlyRevenue := 0)
  }

  /** handleSubmit while editing: only the store being edited changes. */
  function Edited(stores: seq<Store>, editingId: int, f: StoreForm): (r: seq<Store>)
    ensures |r| == |stores| && Ids(r) == Ids(stores)
    ensures forall i :: 0 <= i < |r| && stores[i].id != editingId ==> r[i] == stores[i]
    ensures forall i :: 0 <= i < |r| && stores[i].id == editingId ==> r[i] == Merge(stores[i], f)
  {
    seq(|stores|, i requires 0 <= i < |stores| =>
      if stores[i].id == editingId then Merge(stores[i], f) else stores[i])
  }

  /** handleSubmit while adding: a new store is being prepared and has no revenue. */
  function NewStore(stores: seq<Store>, f: StoreForm): (s: Store)
    ensures forall i :: 0 <= i < |stores| ==> stores[i].id < s.id
    ensures stores != [] ==> JsMaxPlusOne(Ids(stores)) == Finite(s.id)
    ensures s.status == "preparing" && s.monthlyRevenue == 0
    ensures s.name == f.name && s.owner == f.owner && s.deposit == f.deposit
  {
    var id := NextId(Ids(stores));
    assert stores != [] ==> JsMaxPlusOne(Ids(stores)) == Finite(id) by {
      if stores != [] {
        NextIdMatchesSource(Ids(stores));
      }
    }
    Store(id, f.name, f.owner, f.phone, f.email, f.address, f.openDate, 0, "preparing", f.region,
          f.contractType, f.deposit)
  }

  predicate StoreIdIsNot(s: Store, id: int) {
    s.id != id
  }

  function IdIsNot(id: int): Store -> bool {
    s => StoreIdIsNot(s, id)
  }

  /** handleDelete, once confirmed. */
  function Deleted(stores: seq<Store>, id: int): (r: seq<Store>)
    ensures forall s :: s in r <==> s in stores && s.id != id
  {
    Filter(stores, IdIsNot(id))
  }

  /** Registering, editing and deleting keep ids distinct. */
  lemma ChangesKeepIdsDistinct(stores: seq<Store>, f: StoreForm, id: int, editingId: int)
    requires IdsDistinct(stores)
    ensures IdsDistinct(stores + [NewStore(stores, f)])
    ensures IdsDistinct(Edited(stores, editingId, f))
    ensures IdsDistinct(Deleted(stores, id))
  {
    var e := Edited(stores, editingId, f);
    assert forall i :: 0 <= i < |e| ==> e[i].id == stores[i].id;
    DeleteKeepsIdsDistinct(stores, id);
  }

  lemma DeleteKeepsIdsDistinct(stores: seq<Store>, id: int)
    requires IdsDistinct(stores)
    ensures IdsDistinct(Deleted(stores, id))
  {
    var r := Deleted(stores, id);
    FilterKeepsDistinct(stores, IdIsNot(id), StoreId());
    assert forall i :: 0 <= i < |r| ==> StoreId()(r[i]) == r[i].id;
  }

  function StoreId(): Store -> int {
    (s: Store) => s.id
  }

  // ---------------------------------------------------------------------------
  // Status filter counts
  // ---------------------------------------------------------------------------

  const Statuses: seq<string> := ["active", "preparing", "warning", "closed"]

  function StatusIs(status: string): Store -> bool {
    (s: Store) => s.status == status
  }

  /** The four filter chips: 운영중, 개점 준비, 점검 필요, 폐점. */
  function FilterCounts(stores: seq<Store>): (r: seq<nat>)
    ensures |r| == |Statuses|
    ensures forall k :: 0 <= k < |r| ==> r[k] == Count(stores, StatusIs(Statuses[k]))
  {
    [Count(stores, StatusIs("active")), Count(stores, StatusIs("preparing")), Count(stores, StatusIs("warning")),
     Count(stores, StatusIs("closed"))]
  }

  /** When every store has one of the four statuses, the chips add up to the
      number of stores. */
  lemma {:induction false} CountsCoverStores(stores: seq<Store>)
    requires forall i :: 0 <= i < |stores| ==> stores[i].status in Statuses
    ensures var c := FilterCounts(stores); c[0] + c[1] + c[2] + c[3] == |stores|
  {
    if stores != [] {
      CountsCoverStores(stores[1..]);
      var c, c' := FilterCounts(stores), FilterCounts(stores[1..]);
      var h := stores[0].status;
      assert c[0] == (if h == "active" then 1 else 0) + c'[0];
      assert c[1] == (if h == "preparing" then 1 else 0) + c'[1];
      assert c[2] == (if h == "warning" then 1 else 0) + c'[2];
      assert c[3] == (if h == "closed" then 1 else 0) + c'[3];
    }
  }

  /** A new store shows up under 'preparing' only. */
  lemma AddCountsPreparing(stores: seq<Store>, f: StoreForm)
    ensures FilterCounts(stores + [NewStore(stores, f)]) == FilterCounts(stores)[1 := FilterCounts(stores)[1] + 1]
  {
    var s := NewStore(stores, f);
    CountAppend(stores, [s], StatusIs("active"));
    CountAppend(stores, [s], StatusIs("preparing"));
    CountAppend(stores, [s], StatusIs("warning"));
    CountAppend(stores, [s], StatusIs("closed"));
  }

  // ---------------------------------------------------------------------------
  // The screen
  // ---------------------------------------------------------------------------

  class HqStores {
    var stores: seq<Store>
    var editing: Option<int>

    constructor (initial: seq<Store>)
      ensures stores == initial && editing.None?
    {
      stores := initial;
      editing := None;
    }

    method OpenAdd()
      modifies this`editing
      ensures editing.None?
    {
      editing := None;
    }

    method OpenEdit(id: int)
      modifies this`editing
      ensures editing == Some(id)
    {
      editing := Some(id);
    }

    method Submit(f: StoreForm)
      modifies this`stores
      ensures editing.Some? ==> stores == Edited(old(stores), editing.value, f)
      ensures editing.None? ==> stores == old(stores) + [NewStore(old(stores), f)]
    {
      if editing.Some? {
        stores := Edited(stores, editing.value, f);
      } else {
        stores := stores + [NewStore(stores, f)];
      }
    }

    method Delete(id: int)
      modifies this`stores
      ensures stores == Deleted(old(stores), id)
    {
      stores := Deleted(stores, id);
    }
  }
}
