/** The purchase order list (Store/InventoryOrders.tsx): status changes and
    approval, the Korean status and priority texts, the summary counts and
    the CSV export. */
module InventoryOrders {
  import opened Common

  datatype PoItem = PoItem(name: string, quantity: int, unit: string, unitPrice: int, totalPrice: int)

  datatype PurchaseOrder = PurchaseOrder(
    id: int,
    orderNumber: string,
    items: seq<PoItem>,
    totalAmount: nat,
    supplier: string,
    requestDate: string,
    expectedDate: string,
    actualDate: Option<string>,
    status: string,
    priority: string,
    notes: string)

  // ---------------------------------------------------------------------------
  // Status changes
  // ---------------------------------------------------------------------------

  function ChangedOrder(o: PurchaseOrder, newStatus: string, today: string): PurchaseOrder {
    o.(status := newStatus, actualDate := if newStatus == "completed" then Some(today) else o.actualDate)
  }

  /** handleStatusChange: the order with that id takes the new status, and its
      completion date becomes today exactly when the new status is 'completed'. */
  function WithStatus(orders: seq<PurchaseOrder>, id: int, newStatus: string, today: string): (r: seq<PurchaseOrder>)
    ensures |r| == |orders|
    ensures forall i :: 0 <= i < |r| && orders[i].id != id ==> r[i] == orders[i]
    ensures forall i :: 0 <= i < |r| && orders[i].id == id ==>
              r[i].status == newStatus && r[i].items == orders[i].items && r[i].id == id
              && r[i].totalAmount == orders[i].totalAmount
              && (newStatus == "completed" ==> r[i].actualDate == Some(today))
              && (newStatus != "completed" ==> r[i].actualDate == orders[i].actualDate)
    ensures forall i :: 0 <= i < |r| ==> r[i] == orders[i].(status := r[i].status, actualDate := r[i].actualDate)
  {
    seq(|orders|, i requires 0 <= i < |orders| =>
      if orders[i].id == id then ChangedOrder(orders[i], newStatus, today) else orders[i])
  }

  /** Setting the same status twice is the same as setting it once. */
  lemma WithStatusIdempotent(orders: seq<PurchaseOrder>, id: int, newStatus: string, today: string)
    ensures WithStatus(WithStatus(orders, id, newStatus, today), id, newStatus, today)
            == WithStatus(orders, id, newStatus, today)
  {
    var once := WithStatus(orders, id, newStatus, today);
    var twice := WithStatus(once, id, newStatus, today);
    forall i | 0 <= i < |orders|
      ensures twice[i] == once[i]
    {
    }
  }

  /** The approve button is shown on pending rows only, and moves the row to 'confirmed'. */
  function ApproveRow(orders: seq<PurchaseOrder>, k: nat, today: string): (r: seq<PurchaseOrder>)
    requires k < |orders|
    ensures orders[k].status != "pending" ==> r == orders
    ensures orders[k].status == "pending" ==> r == WithStatus(orders, orders[k].id, "confirmed", today)
  {
    if orders[k].status == "pending" then WithStatus(orders, orders[k].id, "confirmed", today) else orders
  }

  /** Approving a pending order never sets its completion date. */
  lemma ApproveKeepsActualDate(orders: seq<PurchaseOrder>, k: nat, today: string)
    requires k < |orders|
    ensures forall i :: 0 <= i < |orders| ==> ApproveRow(orders, k, today)[i].actualDate == orders[i].actualDate
    ensures orders[k].status == "pending" ==> ApproveRow(orders, k, today)[k].status == "confirmed"
  {
  }

  // ---------------------------------------------------------------------------
  // Texts
  // ---------------------------------------------------------------------------

  const Unknown: string := "알수없음"

  /** The statuses the list's badge knows, with their badge labels. */
  const BadgeStatuses: seq<string> := ["pending", "confirmed", "shipped", "completed", "cancelled"]

  /** getStatusBadge's label. */
  function BadgeLabel(status: string): (r: string)
    ensures r == Unknown <==> status !in BadgeStatuses
  {
    match status
    case "pending" => "대기중"
    case "confirmed" => "승인됨"
    case "shipped" => "배송중"
    case "completed" => "완료"
    case "cancelled" => "취소됨"
    case _ => Unknown
  }

  /** getStatusText as written: it knows 'processing' but not 'confirmed'. */
  function StatusTextAsWritten(status: string): (r: string)
    ensures r == Unknown <==> status !in ["pending", "processing", "shipped", "completed", "cancelled"]
  {
    match status
    case "pending" => "대기중"
    case "processing" => "처리중"
    case "shipped" => "배송중"
    case "completed" => "완료"
    case "cancelled" => "취소"
    case _ => Unknown
  }

  /** An approved order, which the badge shows as '승인됨', is exported as '알수없음'. */
  lemma ConfirmedExportsUnknown()
    ensures BadgeLabel("confirmed") == "승인됨"
    ensures StatusTextAsWritten("confirmed") == Unknown
  {
  }

  /** getStatusText with 'confirmed' added, as the approve action needs. */
  function StatusText(status: string): (r: string)
    ensures status != "confirmed" ==> r == StatusTextAsWritten(status)
  {
    if status == "confirmed" then "승인됨" else StatusTextAsWritten(status)
  }

  /** Every status the screen shows a badge for has a known export text, and
      different statuses get different texts. */
  lemma StatusTextCoversBadges()
    ensures forall i :: 0 <= i < |BadgeStatuses| ==> StatusText(BadgeStatuses[i]) != Unknown
    ensures forall i, j :: 0 <= i < j < |BadgeStatuses| ==>
              StatusText(BadgeStatuses[i]) != StatusText(BadgeStatuses[j])
  {
  }

  const Priorities: seq<string> := ["urgent", "high", "normal", "low"]

  /** getPriorityText. */
  function PriorityText(priority: string): (r: string)
    ensures r == Unknown <==> priority !in Priorities
  {
    match priority
    case "urgent" => "긴급"
    case "high" => "높음"
    case "normal" => "보통"
    case "low" => "낮음"
    case _ => Unknown
  }

  lemma PriorityTextsDistinct()
    ensures forall i, j :: 0 <= i < j < |Priorities| ==> PriorityText(Priorities[i]) != PriorityText(Priorities[j])
  {
  }

  // ---------------------------------------------------------------------------
  // Counts
  // ---------------------------------------------------------------------------

  predicate HasStatus(o: PurchaseOrder, s: string) {
    o.status == s
  }

  function StatusIs(s: string): PurchaseOrder -> bool {
    o => HasStatus(o, s)
  }

  /** The pending, confirmed and completed cards never count more than the total. */
  lemma {:induction false} SummaryCountsBounded(orders: seq<PurchaseOrder>)
    ensures Count(orders, StatusIs("pending")) + Count(orders, StatusIs("confirmed"))
            + Count(orders, StatusIs("completed")) <= |orders|
  {
    if orders != [] {
      SummaryCountsBounded(orders[1..]);
    }
  }

  // ---------------------------------------------------------------------------
  // CSV export
  // ---------------------------------------------------------------------------

  const Headers: seq<string> := ["발주번호", "공급업체", "발주일자", "예정일자", "완료일자",
                                 "발주상태", "우선순위", "총금액", "품목수", "비고"]

  /** One export row, in header order: blanks become '-', the amount is
      grouped by thousands with '원', and the status goes through the
      corrected status text. */
  function ExportRow(o: PurchaseOrder): (r: seq<string>)
    ensures |r| == |Headers|
    ensures r[0] == (if o.orderNumber == "" then "-" else o.orderNumber)
    ensures r[4] == (if o.actualDate.None? || o.actualDate.value == "" then "-" else o.actualDate.value)
    ensures r[5] == StatusText(o.status) && r[6] == PriorityText(o.priority)
    ensures r[8] == NatToString(|o.items|)
  {
    [OrElse(o.orderNumber, "-"), OrElse(o.supplier, "-"), OrElse(o.requestDate, "-"),
     OrElse(o.expectedDate, "-"), if o.actualDate.None? then "-" else OrElse(o.actualDate.value, "-"),
     StatusText(o.status), PriorityText(o.priority), GroupThousands(o.totalAmount) + "원",
     NatToString(|o.items|), OrElse(o.notes, "-")]
  }

  function ExportRows(orders: seq<PurchaseOrder>): (r: seq<seq<string>>)
    ensures |r| == |orders| && forall i :: 0 <= i < |orders| ==> r[i] == ExportRow(orders[i])
  {
    seq(|orders|, i requires 0 <= i < |orders| => ExportRow(orders[i]))
  }

  datatype ExportError = NoOrders

  /** The CSV the 'excel' download writes: refused for an empty list. */
  function ExportCsv(orders: seq<PurchaseOrder>): (r: Result<string, ExportError>)
    ensures r.Err? <==> orders == []
  {
    if orders == [] then Err(NoOrders) else Ok(Csv(Headers, ExportRows(orders)))
  }

  /** The free-text fields hold no line break. */
  predicate SingleLine(o: PurchaseOrder) {
    && '\n' !in o.orderNumber && '\n' !in o.supplier && '\n' !in o.requestDate
    && '\n' !in o.expectedDate && '\n' !in o.notes
    && (o.actualDate.Some? ==> '\n' !in o.actualDate.value)
  }

  lemma ExportRowSingle(o: PurchaseOrder)
    requires SingleLine(o)
    ensures NoLineBreak(ExportRow(o))
  {
    var cells := ExportRow(o);
    forall i | 0 <= i < |cells| ensures '\n' !in cells[i] {
      CellOneLine(o, i);
    }
  }

  lemma CellOneLine(o: PurchaseOrder, i: nat)
    requires SingleLine(o) && i < |Headers|
    ensures '\n' !in ExportRow(o)[i]
  {
    var cells := ExportRow(o);
    if i == 5 || i == 6 {
      TextsOneLine(o.status, o.priority);
    } else if i == 7 {
      AmountOneLine(o.totalAmount);
      assert cells[7] == GroupThousands(o.totalAmount) + "원";
    } else if i == 8 {
      CountOneLine(|o.items|);
    } else {
      assert cells[1] == OrElse(o.supplier, "-") && cells[2] == OrElse(o.requestDate, "-");
      assert cells[3] == OrElse(o.expectedDate, "-") && cells[9] == OrElse(o.notes, "-");
    }
  }

  lemma TextsOneLine(status: string, priority: string)
    ensures '\n' !in StatusText(status) && '\n' !in PriorityText(priority)
  {
  }

  lemma AmountOneLine(n: nat)
    ensures '\n' !in GroupThousands(n) + "원"
  {
    var g := GroupThousands(n);
    assert forall i :: 0 <= i < |g| ==> g[i] != '\n';
  }

  lemma CountOneLine(n: nat)
    ensures '\n' !in NatToString(n)
  {
    var d := NatToString(n);
    assert forall i :: 0 <= i < |d| ==> d[i] != '\n';
  }

  /** Read back line by line, the CSV is the header line followed by one line
      per order, in list order. */
  lemma ExportLines(orders: seq<PurchaseOrder>)
    requires orders != []
    requires forall i :: 0 <= i < |orders| ==> SingleLine(orders[i])
    ensures Split(ExportCsv(orders).value, '\n') == [Join(Headers, ",")] + CsvLines(ExportRows(orders))
    ensures |Split(ExportCsv(orders).value, '\n')| == |orders| + 1
  {
    var rows := ExportRows(orders);
    forall i | 0 <= i < |rows|
      ensures NoLineBreak(rows[i])
    {
      ExportRowSingle(orders[i]);
    }
    CsvReadsBack(Headers, rows);
  }

  class InventoryOrders {
    var orders: seq<PurchaseOrder>

    constructor (initial: seq<PurchaseOrder>)
      ensures orders == initial
    {
      orders := initial;
    }

    method ChangeStatus(id: int, newStatus: string, today: string)
      modifies this`orders
      ensures orders == WithStatus(old(orders), id, newStatus, today)
    {
      orders := WithStatus(orders, id, newStatus, today);
    }

    /** The approve button on row `k`. */
    method Approve(k: nat, today: string)
      requires k < |orders|
      modifies this`orders
      ensures orders == ApproveRow(old(orders), k, today)
    {
      if orders[k].status == "pending" {
        orders := WithStatus(orders, orders[k].id, "confirmed", today);
      }
    }
  }
}
