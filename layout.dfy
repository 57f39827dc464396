/** The signed-in shell (Common/Layout.tsx): the sidebar menus of both kinds
    of account, which groups start expanded, expanding and collapsing, the
    highlighted entry, the header title and what a click does. */
module Layout {
  import opened Common

  /** The two kinds of account: head office and a franchise store. */
  datatype UserType = HQ | Store

  /** A sub-menu entry. */
  datatype Leaf = Leaf(id: string, title: string)

  /** A sidebar entry; `children` is None for an entry without a sub-menu. */
  datatype MenuItem = MenuItem(id: string, title: string, children: Option<seq<Leaf>>)

  function Item(id: string, title: string): MenuItem {
    MenuItem(id, title, None)
  }

  const HqMenuItems: seq<MenuItem> := [
    Item("dashboard", "대시보드"),
    Item("stores", "가맹점 관리"),
    Item("menu", "메뉴 관리"),
    Item("inventory", "재고 관리"),
    Item("staff", "직원 관리"),
    Item("logistics", "물류/발주"),
    Item("notice", "공지사항"),
    Item("reports", "리포트")
  ]

  const StoreMenuItems: seq<MenuItem> := [
    Item("dashboard", "대시보드"),
    Item("menu", "메뉴 관리"),
    MenuItem("orders", "주문/결제", Some([
      Leaf("order-pos", "주문등록"), Leaf("order-list", "주문리스트"), Leaf("order-kitchen", "주방화면")])),
    MenuItem("inventory", "재고/발주", Some([
      Leaf("inventory-status", "재고 현황"), Leaf("inventory-orders", "발주 관리"),
      Leaf("inventory-new-order", "발주 등록")])),
    MenuItem("finance", "정산", Some([
      Leaf("daily-closing", "일일 마감/시재"), Leaf("channel-revenue", "서비스 채널")])),
    MenuItem("staff", "직원 관리", Some([
      Leaf("staff-list", "직원 목록"), Leaf("staff-schedule", "근무 일정"), Leaf("staff-payroll", "급여 관리"),
      Leaf("staff-reports", "근무리포트")])),
    Item("notice", "공지/교육"),
    MenuItem("reports", "리포트", Some([
      Leaf("reports-sales", "매출 분석"), Leaf("reports-orders", "주문 분석"),
      Leaf("reports-materials", "원재료 분석"), Leaf("reports-members", "회원 분석")]))
  ]

  function MenuItems(t: UserType): seq<MenuItem> {
    if t == HQ then HqMenuItems else StoreMenuItems
  }

  // ---------------------------------------------------------------------------
  // Which entries belong to the current page
  // ---------------------------------------------------------------------------

  /** `item.children && item.children.some(child => child.id === page)`. */
  predicate HasChild(item: MenuItem, page: string) {
    item.children.Some? && exists k :: 0 <= k < |item.children.value| && item.children.value[k].id == page
  }

  /** The highlighted entry: the page itself or the group holding it. */
  predicate IsActive(item: MenuItem, page: string) {
    page == item.id || HasChild(item, page)
  }

  /** The groups that start expanded, in menu order. */
  function AutoExpand(items: seq<MenuItem>, page: string): (r: seq<string>)
    ensures |r| <= |items|
  {
    if items == [] then []
    else AutoExpand(items[..|items| - 1], page)
         + (if HasChild(items[|items| - 1], page) then [items[|items| - 1].id] else [])
  }

  /** A group starts expanded iff one of its entries is the current page. */
  lemma {:induction false} AutoExpandMeaning(items: seq<MenuItem>, page: string, id: string)
    ensures id in AutoExpand(items, page) <==> exists i :: 0 <= i < |items| && items[i].id == id && HasChild(items[i], page)
  {
    if items != [] {
      var init := items[..|items| - 1];
      AutoExpandMeaning(init, page, id);
      if exists i :: 0 <= i < |init| && init[i].id == id && HasChild(init[i], page) {
        var i :| 0 <= i < |init| && init[i].id == id && HasChild(init[i], page);
        assert items[i] == init[i];
      }
      if exists i :: 0 <= i < |items| && items[i].id == id && HasChild(items[i], page) {
        var i :| 0 <= i < |items| && items[i].id == id && HasChild(items[i], page);
        if i < |init| {
          assert init[i] == items[i];
        }
      }
    }
  }

  /** The state initialiser: push every group that holds the current page. */
  method InitialExpanded(items: seq<MenuItem>, page: string) returns (expanded: seq<string>)
    ensures expanded == AutoExpand(items, page)
  {
    expanded := [];
    var i := 0;
    while i < |items|
      invariant 0 <= i <= |items|
      invariant expanded == AutoExpand(items[..i], page)
    {
      assert items[..i + 1][..i] == items[..i];
      var children := items[i].children;
      if children.Some? {
        var j := 0;
        var found := false;
        while j < |children.value| && !found
          invariant 0 <= j <= |children.value|
          invariant found <==> exists k :: 0 <= k < j && children.value[k].id == page
        {
          found := children.value[j].id == page;
          j := j + 1;
        }
        if found {
          expanded := expanded + [items[i].id];
        }
      }
      i := i + 1;
    }
    assert items[..|items|] == items;
  }

  // ---------------------------------------------------------------------------
  // Expanding and collapsing
  // ---------------------------------------------------------------------------

  predicate NoDuplicates(s: seq<string>) {
    forall i, j :: 0 <= i < j < |s| ==> s[i] != s[j]
  }

  function IsNot(id: string): string -> bool {
    (x: string) => x != id
  }

  /** toggleMenu: drop the id if it is there, otherwise append it. */
  function Toggle(expanded: seq<string>, id: string): (r: seq<string>)
    ensures forall x :: x in r <==> (if id in expanded then x in expanded && x != id else x in expanded || x == id)
  {
    FilterMembers(expanded, IsNot(id));
    if id in expanded then Filter(expanded, IsNot(id)) else expanded + [id]
  }

  /** Toggling never repeats an id. */
  lemma ToggleKeepsNoDuplicates(expanded: seq<string>, id: string)
    requires NoDuplicates(expanded)
    ensures NoDuplicates(Toggle(expanded, id))
  {
    if id in expanded {
      FilterKeepsDistinct(expanded, IsNot(id), Same());
    }
  }

  function Same(): string -> string {
    (x: string) => x
  }

  /** Toggling twice restores the same set of expanded groups, and restores
      the very list when the group was collapsed. */
  lemma ToggleTwice(expanded: seq<string>, id: string)
    ensures (set x | x in Toggle(Toggle(expanded, id), id)) == (set x | x in expanded)
    ensures id !in expanded ==> Toggle(Toggle(expanded, id), id) == expanded
  {
    if id !in expanded {
      var once := expanded + [id];
      FilterAppend(expanded, [id], IsNot(id));
      FilterAll(expanded, IsNot(id));
      assert Filter([id], IsNot(id)) == [];
    }
  }

  // ---------------------------------------------------------------------------
  // Header title
  // ---------------------------------------------------------------------------

  /** `children.find(child => child.id === page)`. */
  function FindLeaf(children: seq<Leaf>, page: string): (r: Option<string>)
    ensures r.None? <==> forall k :: 0 <= k < |children| ==> children[k].id != page
    ensures r.Some? ==> exists k :: 0 <= k < |children| && children[k].id == page && children[k].title == r.value
                         && forall m :: 0 <= m < k ==> children[m].id != page
  {
    if children == [] then None
    else if children[0].id == page then Some(children[0].title)
    else
      var rest := FindLeaf(children[1..], page);
      assert forall k :: 0 < k < |children| ==> children[k] == children[1..][k - 1];
      rest
  }

  /** `menuItems.find(item => item.id === page)`, keeping the label. */
  function FindTop(items: seq<MenuItem>, page: string): (r: Option<string>)
    ensures r.None? <==> forall k :: 0 <= k < |items| ==> items[k].id != page
    ensures r.Some? ==> exists k :: 0 <= k < |items| && items[k].id == page && items[k].title == r.value
                         && forall m :: 0 <= m < k ==> items[m].id != page
  {
    if items == [] then None
    else if items[0].id == page then Some(items[0].title)
    else
      var rest := FindTop(items[1..], page);
      assert forall k :: 0 < k < |items| ==> items[k] == items[1..][k - 1];
      rest
  }

  /** The first sub-menu entry for the page, groups taken in menu order. */
  function FindInGroups(items: seq<MenuItem>, page: string): (r: Option<string>)
    ensures r.None? <==> forall k :: 0 <= k < |items| ==> !HasChild(items[k], page)
    ensures r.Some? ==> exists k :: 0 <= k < |items| && HasChild(items[k], page)
                         && FindLeaf(items[k].children.value, page) == r
                         && forall m :: 0 <= m < k ==> !HasChild(items[m], page)
  {
    if items == [] then None
    else
      var here := if items[0].children.Some? then FindLeaf(items[0].children.value, page) else None;
      var rest := FindInGroups(items[1..], page);
      assert forall k :: 0 < k < |items| ==> items[k] == items[1..][k - 1];
      if here.Some? then here else rest
  }

  /** The header: a top-level label, else the first sub-menu label, else '대시보드'. */
  function Title(items: seq<MenuItem>, page: string): (r: string)
    ensures (exists k :: 0 <= k < |items| && items[k].id == page) ==> FindTop(items, page) == Some(r)
    ensures (forall k :: 0 <= k < |items| ==> items[k].id != page) ==>
              r == (var sub := FindInGroups(items, page); if sub.Some? then sub.value else "대시보드")
    ensures (forall k :: 0 <= k < |items| ==> !IsActive(items[k], page)) ==> r == "대시보드"
  {
    var top := FindTop(items, page);
    if top.Some? then top.value
    else
      var sub := FindInGroups(items, page);
      if sub.Some? then sub.value else "대시보드"
  }

  /** The title lookup as the header computes it: find, then a loop over
      the groups that returns at the first match. */
  method HeaderTitle(items: seq<MenuItem>, page: string) returns (title: string)
    ensures title == Title(items, page)
  {
    var top := FindTop(items, page);
    if top.Some? {
      return top.value;
    }
    var i := 0;
    while i < |items|
      invariant 0 <= i <= |items|
      invariant FindInGroups(items, page) == FindInGroups(items[i..], page)
    {
      assert items[i..][1..] == items[i + 1..];
      if items[i].children.Some? {
        var sub := FindLeaf(items[i].children.value, page);
        if sub.Some? {
          return sub.value;
        }
      }
      i := i + 1;
    }
    return "대시보드";
  }

  /** Every sidebar entry titles its own page. */
  lemma EveryPageHasItsTitle(t: UserType, k: nat)
    requires k < |MenuItems(t)|
    ensures Title(MenuItems(t), MenuItems(t)[k].id) == MenuItems(t)[k].title
  {
    var items := MenuItems(t);
    assert forall i, j :: 0 <= i < j < |items| ==> items[i].id != items[j].id;
  }

  // ---------------------------------------------------------------------------
  // The sidebar
  // ---------------------------------------------------------------------------

  class Layout {
    const userType: UserType
    /** A prop: the parent passes a new page after each navigation. */
    var currentPage: string
    var expanded: seq<string>
    var collapsed: bool

    ghost predicate Valid()
      reads this
    {
      NoDuplicates(expanded)
    }

    constructor (userType: UserType, currentPage: string)
      ensures Valid() && this.userType == userType && this.currentPage == currentPage
      ensures expanded == AutoExpand(MenuItems(userType), currentPage) && !collapsed
    {
      this.userType := userType;
      this.currentPage := currentPage;
      var e := InitialExpanded(MenuItems(userType), currentPage);
      InitialHasNoDuplicates(userType, currentPage);
      expanded := e;
      collapsed := false;
    }

    /** A click on a sidebar entry: a group opens or closes and stays on the
        page; a plain entry asks to show its page. */
    method Click(item: MenuItem) returns (navigate: Option<string>)
      requires Valid()
      modifies this`expanded
      ensures Valid()
      ensures item.children.Some? ==> expanded == Toggle(old(expanded), item.id) && navigate.None?
      ensures item.children.None? ==> expanded == old(expanded) && navigate == Some(item.id)
    {
      if item.children.Some? {
        ToggleKeepsNoDuplicates(expanded, item.id);
        expanded := Toggle(expanded, item.id);
        navigate := None;
      } else {
        navigate := Some(item.id);
      }
    }

    /** A click on a sub-menu entry asks to show its page. */
    method ClickLeaf(leaf: Leaf) returns (navigate: string)
      ensures navigate == leaf.id
    {
      navigate := leaf.id;
    }

    /** The parent passes a new current page. The expanded groups are state
        whose initialiser ran once, at the first render, so showing a page
        does not expand the group it belongs to. */
    method ShowPage(page: string)
      requires Valid()
      modifies this`currentPage
      ensures Valid()
      ensures currentPage == page && expanded == old(expanded) && collapsed == old(collapsed)
    {
      currentPage := page;
    }

    method ToggleSidebar()
      modifies this`collapsed
      ensures collapsed == !old(collapsed)
    {
      collapsed := !collapsed;
    }
  }

  /** Each group's id occurs once in either menu, so the initial list has no repeats. */
  lemma InitialHasNoDuplicates(t: UserType, page: string)
    ensures NoDuplicates(AutoExpand(MenuItems(t), page))
  {
    var items := MenuItems(t);
    assert forall i, j :: 0 <= i < j < |items| ==> items[i].id != items[j].id;
    AutoExpandDistinct(items, page);
  }

  lemma {:induction false} AutoExpandDistinct(items: seq<MenuItem>, page: string)
    requires forall i, j :: 0 <= i < j < |items| ==> items[i].id != items[j].id
    ensures NoDuplicates(AutoExpand(items, page))
  {
    if items != [] {
      var init := items[..|items| - 1];
      var last := items[|items| - 1];
      AutoExpandDistinct(init, page);
      var r := AutoExpand(init, page);
      forall x | x in r ensures x != last.id {
        AutoExpandMeaning(init, page, x);
        var i :| 0 <= i < |init| && init[i].id == x && HasChild(init[i], page);
        assert items[i] == init[i];
      }
      var e := AutoExpand(items, page);
      assert e == r + (if HasChild(last, page) then [last.id] else []);
      forall i, j | 0 <= i < j < |e| ensures e[i] != e[j] {
        if j < |r| {
          assert e[i] == r[i] && e[j] == r[j];
        } else {
          assert e[i] == r[i] && r[i] in r && e[j] == last.id;
        }
      }
    }
  }
}
