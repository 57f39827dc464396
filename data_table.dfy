/** The generic table (Common/DataTable.tsx): search over every field, the
    status tabs, sorting by a column and ten rows per page. */
module DataTable {
  import opened Common

  /** A field of a row: null/undefined, a boolean, a number, a string, or an
      array of strings (such as a notice's target stores). */
  datatype Value = Null | Bool(b: bool) | Number(n: int) | Text(s: string) | List(items: seq<string>)

  /** An entry of `data`: an object with its fields, or anything that is not
      an object (null, a number, ...), which the table drops. */
  datatype Item = Obj(fields: map<string, Value>) | Primitive

  const PageSize: nat := 10

  /** `String(value)`. */
  function ValueText(v: Value): string {
    match v
    case Null => "null"
    case Number(n) => if n < 0 then "-" + NatToString(-n) else NatToString(n)
    case Text(s) => s
    case Bool(b) => if b then "true" else "false"
    case List(items) => Join(items, ",")
  }

  /** `row[key]`, undefined reading as Null. */
  function Field(x: Item, key: string): Value {
    if x.Obj? && key in x.fields then x.fields[key] else Null
  }

  // ---------------------------------------------------------------------------
  // Search and status filter
  // ---------------------------------------------------------------------------

  /** Some non-null field, lower-cased, contains the lower-cased term. */
  predicate RowMatches(x: Item, term: string) {
    x.Obj? && exists k :: k in x.fields && x.fields[k] != Null && MatchesTerm(ValueText(x.fields[k]), term)
  }

  predicate SearchActive(hideSearch: bool, term: string) {
    !hideSearch && term != ""
  }

  predicate Kept(x: Item, term: string, hideSearch: bool, activeFilter: string) {
    x.Obj?
    && (!SearchActive(hideSearch, term) || RowMatches(x, term))
    && (activeFilter == "all" || Field(x, "status") == Text(activeFilter))
  }

  function IsObject(): Item -> bool {
    (x: Item) => x.Obj?
  }

  function MatchesBy(term: string): Item -> bool {
    (x: Item) => RowMatches(x, term)
  }

  function StatusIs(status: string): Item -> bool {
    (x: Item) => x.Obj? && Field(x, "status") == Text(status)
  }

  function Objects(data: seq<Item>): (r: seq<Item>)
    ensures multiset(r) <= multiset(data)
    ensures forall x :: x in r <==> x in data && x.Obj?
  {
    FilterMembers(data, IsObject());
    Filter(data, IsObject())
  }

  function Searched(rows: seq<Item>, term: string, hideSearch: bool): (r: seq<Item>)
    ensures multiset(r) <= multiset(rows)
    ensures forall x :: x in r <==> x in rows && (!SearchActive(hideSearch, term) || RowMatches(x, term))
  {
    FilterMembers(rows, MatchesBy(term));
    if SearchActive(hideSearch, term) then Filter(rows, MatchesBy(term)) else rows
  }

  function OnTab(rows: seq<Item>, activeFilter: string): (r: seq<Item>)
    ensures multiset(r) <= multiset(rows)
    ensures forall x :: x in r <==> x in rows && (activeFilter == "all" || StatusIs(activeFilter)(x))
  {
    FilterMembers(rows, StatusIs(activeFilter));
    if activeFilter != "all" then Filter(rows, StatusIs(activeFilter)) else rows
  }

  /** filteredData: objects only, then the search, then the status tab. */
  function FilteredData(data: seq<Item>, term: string, hideSearch: bool, activeFilter: string): (r: seq<Item>)
    ensures multiset(r) <= multiset(data)
    ensures forall x :: x in r <==> x in data && Kept(x, term, hideSearch, activeFilter)
  {
    OnTab(Searched(Objects(data), term, hideSearch), activeFilter)
  }

  /** With the search hidden or empty, only the objects and the status tab count. */
  lemma NoSearchKeepsAllObjects(data: seq<Item>, term: string, hideSearch: bool)
    requires !SearchActive(hideSearch, term)
    ensures FilteredData(data, term, hideSearch, "all") == Objects(data)
  {
  }

  /** An array field is searched through its comma-joined text, so a row is
      found by any one of the array's strings (a notice by one of its target
      stores). */
  lemma ListFieldMatches(x: Item, key: string, j: nat, term: string)
    requires x.Obj? && key in x.fields && x.fields[key].List?
    requires j < |x.fields[key].items| && MatchesTerm(x.fields[key].items[j], term)
    ensures RowMatches(x, term)
  {
    var items := x.fields[key].items;
    var pre, post := JoinAround(items, j);
    IncludesWithin(Lower(pre), Lower(items[j]), Lower(post), Lower(term));
    LowerAppend(pre, items[j]);
    LowerAppend(pre + items[j], post);
    assert ValueText(x.fields[key]) == pre + items[j] + post;
  }

  /** Every part of a join sits between some prefix and suffix of the result. */
  lemma {:induction false} JoinAround(parts: seq<string>, j: nat) returns (pre: string, post: string)
    requires j < |parts|
    ensures Join(parts, ",") == pre + parts[j] + post
    decreases j
  {
    if |parts| == 1 {
      pre, post := [], [];
    } else if j == 0 {
      pre, post := [], "," + Join(parts[1..], ",");
    } else {
      var p, q := JoinAround(parts[1..], j - 1);
      pre, post := parts[0] + "," + p, q;
    }
  }

  lemma LowerAppend(a: string, b: string)
    ensures Lower(a + b) == Lower(a) + Lower(b)
  {
  }

  lemma IncludesWithin(pre: string, s: string, post: string, sub: string)
    requires Includes(s, sub)
    ensures Includes(pre + s + post, sub)
  {
    var i :| 0 <= i <= |s| && OccursAt(s, sub, i);
    var whole := pre + s + post;
    assert whole[|pre| + i..|pre| + i + |sub|] == s[i..i + |sub|];
    assert OccursAt(whole, sub, |pre| + i);
  }

  // ---------------------------------------------------------------------------
  // Sorting
  // ---------------------------------------------------------------------------

  datatype Direction = Asc | Desc

  /** The kinds in the order the model sorts them. */
  function KindRank(v: Value): nat {
    match v
    case Null => 0
    case Bool(_) => 1
    case Number(_) => 2
    case Text(_) => 3
    case List(_) => 4
  }

  /** The model's own order on the values of a column. Within one kind it is
      what JavaScript's `<` gives: false before true, numbers by size, strings
      by code units, arrays by their comma-joined text. Across kinds `<`
      converts (null to 0, a numeric string to its number) or answers false
      both ways, which is no order at all; the model instead puts null,
      booleans, numbers, strings and arrays in that order. */
  predicate ValueLeq(a: Value, b: Value) {
    if KindRank(a) != KindRank(b) then KindRank(a) < KindRank(b)
    else
      match (a, b)
      case (Bool(x), Bool(y)) => !x || y
      case (Number(x), Number(y)) => x <= y
      case (Text(x), Text(y)) => LexLeq(x, y)
      case (List(x), List(y)) => LexLeq(Join(x, ","), Join(y, ","))
      case _ => true
  }

  lemma ValueLeqTotal(a: Value, b: Value)
    ensures ValueLeq(a, b) || ValueLeq(b, a)
  {
    if a.Text? && b.Text? {
      LexLeqTotal(a.s, b.s);
    } else if a.List? && b.List? {
      LexLeqTotal(Join(a.items, ","), Join(b.items, ","));
    }
  }

  lemma ValueLeqTransitive(a: Value, b: Value, c: Value)
    requires ValueLeq(a, b) && ValueLeq(b, c)
    ensures ValueLeq(a, c)
  {
    if a.Text? && b.Text? && c.Text? {
      LexLeqTransitive(a.s, b.s, c.s);
    } else if a.List? && b.List? && c.List? {
      LexLeqTransitive(Join(a.items, ","), Join(b.items, ","), Join(c.items, ","));
    }
  }

  /** The comparator of sortedData for a column and a direction. */
  function ColumnOrder(column: string, dir: Direction): (Item, Item) -> bool {
    (a: Item, b: Item) =>
      if dir == Asc then ValueLeq(Field(a, column), Field(b, column)) else ValueLeq(Field(b, column), Field(a, column))
  }

  lemma ColumnOrderIsTotal(column: string, dir: Direction)
    ensures TotalPreorder(ColumnOrder(column, dir))
  {
    var leq := ColumnOrder(column, dir);
    forall a: Item, b: Item ensures leq(a, b) || leq(b, a) {
      ValueLeqTotal(Field(a, column), Field(b, column));
    }
    forall a: Item, b: Item, c: Item | leq(a, b) && leq(b, c) ensures leq(a, c) {
      if dir == Asc {
        ValueLeqTransitive(Field(a, column), Field(b, column), Field(c, column));
      } else {
        ValueLeqTransitive(Field(c, column), Field(b, column), Field(a, column));
      }
    }
  }

  /** sortedData: unchanged without a sort column, otherwise a sort
      of the rows by that column in the chosen direction. */
  function SortedData(rows: seq<Item>, column: Option<string>, dir: Direction): (r: seq<Item>)
    ensures multiset(r) == multiset(rows) && |r| == |rows|
    ensures column.None? ==> r == rows
    ensures column.Some? ==> forall i, j :: 0 <= i < j < |r| ==>
              (if dir == Asc then ValueLeq(Field(r[i], column.value), Field(r[j], column.value))
               else ValueLeq(Field(r[j], column.value), Field(r[i], column.value)))
  {
    if column.None? then rows
    else
      ColumnOrderIsTotal(column.value, dir);
      var r := SortBy(rows, ColumnOrder(column.value, dir));
      assert forall i, j :: 0 <= i < j < |r| ==> ColumnOrder(column.value, dir)(r[i], r[j]);
      r
  }

  // ---------------------------------------------------------------------------
  // Pages
  // ---------------------------------------------------------------------------

  function Min(a: int, b: int): int {
    if a <= b then a else b
  }

  /** paginatedData: `slice((page - 1) * 10, page * 10)`, cut short at the end. */
  function Page(rows: seq<Item>, page: nat): (r: seq<Item>)
    requires page >= 1
    ensures |r| <= PageSize
    ensures forall i :: 0 <= i < |r| ==> (page - 1) * PageSize + i < |rows| && r[i] == rows[(page - 1) * PageSize + i]
    ensures (page - 1) * PageSize < |rows| ==> |r| == Min(PageSize, |rows| - (page - 1) * PageSize)
  {
    var start := Min((page - 1) * PageSize, |rows|);
    rows[start..Min(start + PageSize, |rows|)]
  }

  /** totalPages = ceil(n / 10). */
  function TotalPages(n: nat): (r: nat)
    ensures r == 0 <==> n == 0
    ensures r > 0 ==> (r - 1) * PageSize < n <= r * PageSize
  {
    (n + PageSize - 1) / PageSize
  }

  /** Pages 1 to k laid end to end. */
  function FirstPages(rows: seq<Item>, k: nat): seq<Item> {
    if k == 0 then [] else FirstPages(rows, k - 1) + Page(rows, k)
  }

  lemma {:induction false} FirstPagesArePrefix(rows: seq<Item>, k: nat)
    ensures FirstPages(rows, k) == rows[..Min(k * PageSize, |rows|)]
  {
    if k > 0 {
      FirstPagesArePrefix(rows, k - 1);
      var a, b := Min((k - 1) * PageSize, |rows|), Min(k * PageSize, |rows|);
      assert Page(rows, k) == rows[a..b];
      assert rows[..a] + rows[a..b] == rows[..b];
    }
  }

  /** Every row is on exactly one page: the pages 1..totalPages put back
      together give the sorted rows. */
  lemma PagesTileRows(rows: seq<Item>)
    ensures FirstPages(rows, TotalPages(|rows|)) == rows
  {
    FirstPagesArePrefix(rows, TotalPages(|rows|));
    assert rows[..|rows|] == rows;
  }

  // ---------------------------------------------------------------------------
  // Sort header clicks
  // ---------------------------------------------------------------------------

  datatype SortState = SortState(column: Option<string>, direction: Direction)

  /** handleSort: the same column flips the direction, another starts ascending. */
  function SortClicked(s: SortState, key: string): (r: SortState)
    ensures r.column == Some(key)
    ensures s.column == Some(key) ==> r.direction != s.direction
    ensures s.column != Some(key) ==> r.direction == Asc
  {
    if s.column == Some(key) then SortState(s.column, if s.direction == Asc then Desc else Asc)
    else SortState(Some(key), Asc)
  }

  /** Two clicks on the sorted column restore its direction. */
  lemma SortTwiceRestores(s: SortState, key: string)
    requires s.column == Some(key)
    ensures SortClicked(SortClicked(s, key), key) == s
  {
  }

  // ---------------------------------------------------------------------------
  // The component
  // ---------------------------------------------------------------------------

  class DataTable {
    const data: seq<Item>
    const hideSearch: bool
    var searchTerm: string
    var sort: SortState
    var activeFilter: string
    var currentPage: nat

    ghost predicate Valid()
      reads this
    {
      currentPage >= 1
    }

    constructor (data: seq<Item>, hideSearch: bool)
      ensures Valid() && this.data == data && this.hideSearch == hideSearch
      ensures searchTerm == "" && sort == SortState(None, Asc) && activeFilter == "all" && currentPage == 1
    {
      this.data := data;
      this.hideSearch := hideSearch;
      searchTerm := "";
      sort := SortState(None, Asc);
      activeFilter := "all";
      currentPage := 1;
    }

    /** The rows on screen. */
    function Shown(): seq<Item>
      requires Valid()
      reads this
    {
      Page(SortedData(FilteredData(data, searchTerm, hideSearch, activeFilter), sort.column, sort.direction), currentPage)
    }

    function Pages(): nat
      reads this
    {
      TotalPages(|FilteredData(data, searchTerm, hideSearch, activeFilter)|)
    }

    method Search(term: string)
      modifies this`searchTerm
      ensures searchTerm == term
    {
      searchTerm := term;
    }

    /** A status tab; the page number is left as it was. */
    method SelectFilter(value: string)
      modifies this`activeFilter
      ensures activeFilter == value
    {
      activeFilter := value;
    }

    method Sort(key: string)
      modifies this`sort
      ensures sort == SortClicked(old(sort), key)
    {
      sort := SortClicked(sort, key);
    }

    /** The previous button (the controls show with more than one page),
        disabled on page 1. */
    method PreviousPage()
      requires Valid() && Pages() > 1
      modifies this`currentPage
      ensures Valid() && currentPage == if old(currentPage) == 1 then 1 else old(currentPage) - 1
    {
      if currentPage != 1 {
        currentPage := currentPage - 1;
      }
    }

    /** The next button, disabled on the last page; a page left past the end
        by a narrower filter is not the last page, so it stays enabled. */
    method NextPage()
      requires Valid() && Pages() > 1
      modifies this`currentPage
      ensures Valid()
      ensures currentPage == if old(currentPage) == Pages() then old(currentPage) else old(currentPage) + 1
    {
      if currentPage != Pages() {
        currentPage := currentPage + 1;
      }
    }

    /** A numbered page button. */
    method GoToPage(page: nat)
      requires 1 <= page <= Pages()
      modifies this`currentPage
      ensures Valid() && currentPage == page
    {
      currentPage := page;
    }
  }
}
