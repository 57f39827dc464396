/** A store's inbox of head-office notices and education material
    (Store/NoticeEducation.tsx): reading a notice, marking it important, the
    filters and counters, and the CSV download of one education item. */
module NoticeEducation {
  import opened Common

  datatype Notice = Notice(
    id: int,
    title: string,
    content: string,
    kind: string,
    priority: string,
    category: string,
    author: string,
    receivedDate: string,
    isRead: bool,
    readDate: Option<string>,
    hasAttachment: bool,
    attachments: seq<string>,
    isImportant: bool)

  predicate IdsDistinct(notices: seq<Notice>) {
    forall i, j :: 0 <= i < j < |notices| ==> notices[i].id != notices[j].id
  }

  // ---------------------------------------------------------------------------
  // Reading and marking
  // ---------------------------------------------------------------------------

  /** handleViewNotice: opening an unread notice marks every notice with its
      id read at `now`; opening a read one changes nothing. */
  function Viewed(notices: seq<Notice>, n: Notice, now: string): (r: seq<Notice>)
    ensures |r| == |notices|
    ensures n.isRead ==> r == notices
    ensures !n.isRead ==> forall i :: 0 <= i < |r| ==>
              r[i] == if notices[i].id == n.id then notices[i].(isRead := true, readDate := Some(now)) else notices[i]
  {
    if n.isRead then notices
    else
      seq(|notices|, i requires 0 <= i < |notices| =>
        if notices[i].id == n.id then notices[i].(isRead := true, readDate := Some(now)) else notices[i])
  }

  /** handleMarkImportant: flips the flag of the notices with that id. */
  function ToggledImportant(notices: seq<Notice>, id: int): (r: seq<Notice>)
    ensures |r| == |notices|
    ensures forall i :: 0 <= i < |r| ==>
              r[i] == if notices[i].id == id then notices[i].(isImportant := !notices[i].isImportant) else notices[i]
  {
    seq(|notices|, i requires 0 <= i < |notices| =>
      if notices[i].id == id then notices[i].(isImportant := !notices[i].isImportant) else notices[i])
  }

  /** Marking a notice important twice leaves it as it was. */
  lemma ToggleTwice(notices: seq<Notice>, id: int)
    ensures ToggledImportant(ToggledImportant(notices, id), id) == notices
  {
  }

  // ---------------------------------------------------------------------------
  // Counters
  // ---------------------------------------------------------------------------

  function UnreadTest(): Notice -> bool {
    (n: Notice) => !n.isRead
  }

  function ImportantTest(): Notice -> bool {
    (n: Notice) => n.isImportant
  }

  function UrgentTest(): Notice -> bool {
    (n: Notice) => n.kind == "긴급"
  }

  /** The four KPI cards. */
  datatype Counters = Counters(total: nat, unread: nat, important: nat, urgent: nat)

  function CountersOf(notices: seq<Notice>): (c: Counters)
    ensures c.unread <= c.total && c.important <= c.total && c.urgent <= c.total
    ensures c.total == |notices|
    ensures c.unread == 0 <==> forall i :: 0 <= i < |notices| ==> notices[i].isRead
  {
    var c := Counters(|notices|, Count(notices, UnreadTest()), Count(notices, ImportantTest()), Count(notices, UrgentTest()));
    UnreadZero(notices);
    c
  }

  lemma UnreadZero(notices: seq<Notice>)
    ensures Count(notices, UnreadTest()) == 0 <==> forall i :: 0 <= i < |notices| ==> notices[i].isRead
  {
    var f := Filter(notices, UnreadTest());
    if i :| 0 <= i < |notices| && !notices[i].isRead {
      assert notices[i] in f;
    }
  }

  /** Opening an unread notice takes exactly one off the unread counter and
      leaves the other counters alone. */
  lemma ViewingLowersUnread(notices: seq<Notice>, k: nat, now: string)
    requires IdsDistinct(notices) && k < |notices| && !notices[k].isRead
    ensures CountersOf(Viewed(notices, notices[k], now)).unread + 1 == CountersOf(notices).unread
    ensures CountersOf(Viewed(notices, notices[k], now)).important == CountersOf(notices).important
    ensures CountersOf(Viewed(notices, notices[k], now)).urgent == CountersOf(notices).urgent
  {
    var n := notices[k];
    var v := n.(isRead := true, readDate := Some(now));
    assert Viewed(notices, n, now) == notices[k := v];
    CountUpdate(notices, k, v, UnreadTest());
    CountUpdate(notices, k, v, ImportantTest());
    CountUpdate(notices, k, v, UrgentTest());
  }

  /** Opening a notice never raises the unread counter. */
  lemma ViewingNeverAddsUnread(notices: seq<Notice>, n: Notice, now: string)
    ensures CountersOf(Viewed(notices, n, now)).unread <= CountersOf(notices).unread
  {
    if !n.isRead {
      ViewedUnreadBound(notices, n, now);
    }
  }

  lemma {:induction false} ViewedUnreadBound(notices: seq<Notice>, n: Notice, now: string)
    requires !n.isRead
    ensures Count(Viewed(notices, n, now), UnreadTest()) <= Count(notices, UnreadTest())
  {
    if notices != [] {
      ViewedUnreadBound(notices[1..], n, now);
      assert Viewed(notices, n, now)[1..] == Viewed(notices[1..], n, now);
    }
  }

  // ---------------------------------------------------------------------------
  // Filters
  // ---------------------------------------------------------------------------

  /** filteredNotices' test: the search looks at title, content and author. */
  predicate Shown(n: Notice, term: string, kind: string, read: string) {
    (MatchesTerm(n.title, term) || MatchesTerm(n.content, term) || MatchesTerm(n.author, term))
    && (kind == "all" || n.kind == kind)
    && (read == "all" || (read == "read" && n.isRead) || (read == "unread" && !n.isRead))
  }

  function ShownBy(term: string, kind: string, read: string): Notice -> bool {
    n => Shown(n, term, kind, read)
  }

  function FilteredNotices(notices: seq<Notice>, term: string, kind: string, read: string): (r: seq<Notice>)
    ensures multiset(r) <= multiset(notices)
    ensures forall n :: n in r <==> n in notices && Shown(n, term, kind, read)
  {
    Filter(notices, ShownBy(term, kind, read))
  }

  /** The 'unread' view with no search lists exactly what the unread card counts. */
  lemma UnreadViewMatchesCounter(notices: seq<Notice>)
    ensures |FilteredNotices(notices, "", "all", "unread")| == CountersOf(notices).unread
  {
    forall i | 0 <= i < |notices|
      ensures ShownBy("", "all", "unread")(notices[i]) == UnreadTest()(notices[i])
    {
      EmptyTermMatches(notices[i].title);
    }
    FilterSame(notices, ShownBy("", "all", "unread"), UnreadTest());
  }

  // ---------------------------------------------------------------------------
  // Education material download
  // ---------------------------------------------------------------------------

  datatype Material = Material(
    id: int,
    title: string,
    description: string,
    category: string,
    fileSize: string,
    uploadDate: string,
    downloadCount: nat)

  const EducationHeaders: seq<string> := ["제목", "설명", "분류", "파일크기", "업로드일", "다운로드수"]

  /** The download count cell: `${count}회` for a count, '0회' for none. */
  function DownloadCell(count: nat): string {
    if count != 0 then NatToString(count) + "회" else "0회"
  }

  /** Both branches write the number followed by 회. */
  lemma DownloadCellIsCount(count: nat)
    ensures DownloadCell(count) == NatToString(count) + "회"
  {
  }

  function EducationRow(m: Material): (r: seq<string>)
    ensures |r| == |EducationHeaders|
    ensures forall i :: 0 <= i < |r| ==> r[i] != ""
  {
    [OrElse(m.title, "-"), OrElse(m.description, "-"), OrElse(m.category, "-"), OrElse(m.fileSize, "-"),
     OrElse(m.uploadDate, "-"), DownloadCell(m.downloadCount)]
  }

  /** The 'excel' download of one material: a header line and one data line. */
  function EducationCsv(m: Material): string {
    Csv(EducationHeaders, [EducationRow(m)])
  }

  predicate SingleLine(m: Material) {
    '\n' !in m.title && '\n' !in m.description && '\n' !in m.category && '\n' !in m.fileSize
    && '\n' !in m.uploadDate
  }

  /** The file has exactly two lines: the keys and the quoted values. */
  lemma EducationCsvLines(m: Material)
    requires SingleLine(m)
    ensures Split(EducationCsv(m), '\n') == [Join(EducationHeaders, ","), CsvLine(EducationRow(m))]
  {
    var row := EducationRow(m);
    assert '\n' !in DownloadCell(m.downloadCount);
    assert NoLineBreak(row);
    CsvReadsBack(EducationHeaders, [row]);
  }

  /** The downloaded file's name: 교육자료_<title>_<date>.csv. */
  function EducationFileName(m: Material, date: string): (r: string)
    ensures |r| == |"교육자료_"| + |m.title| + 1 + |date| + 4
    ensures r[..|"교육자료_"|] == "교육자료_" && r[|r| - 4..] == ".csv"
    ensures r[|"교육자료_"|..|"교육자료_"| + |m.title|] == m.title
  {
    "교육자료_" + m.title + "_" + date + ".csv"
  }

  // ---------------------------------------------------------------------------
  // The screen
  // ---------------------------------------------------------------------------

  class NoticeEducation {
    var notices: seq<Notice>
    var selected: Option<Notice>

    constructor (initial: seq<Notice>)
      ensures notices == initial && selected.None?
    {
      notices := initial;
      selected := None;
    }

    /** handleViewNotice: the detail dialog shows the notice as it was clicked. */
    method ViewNotice(n: Notice, now: string)
      modifies this`notices, this`selected
      ensures notices == Viewed(old(notices), n, now) && selected == Some(n)
    {
      notices := Viewed(notices, n, now);
      selected := Some(n);
    }

    method MarkImportant(id: int)
      modifies this`notices
      ensures notices == ToggledImportant(old(notices), id)
    {
      notices := ToggledImportant(notices, id);
    }

    method Counters() returns (c: Counters)
      ensures c == CountersOf(notices)
    {
      c := CountersOf(notices);
    }
  }
}
