/** Head office's notices to the stores (HQ/NoticeManagement.tsx): writing,
    updating and deleting notices, the search and filters, and the average
    read rate. */
module HqNotices {
  import opened Common

  datatype Notice = Notice(
    id: int,
    title: string,
    content: string,
    kind: string,
    priority: string,
    targetStores: seq<string>,
    author: string,
    createdDate: string,
    publishDate: string,
    status: string,
    readCount: int,
    totalStores: int,
    hasAttachment: bool,
    category: string)

  /** What the notice form submits. */
  datatype NoticeForm = NoticeForm(
    title: string,
    kind: string,
    category: string,
    priority: string,
    content: string,
    publishDate: string)

  predicate IdsDistinct(notices: seq<Notice>) {
    forall i, j :: 0 <= i < j < |notices| ==> notices[i].id != notices[j].id
  }

  function Ids(notices: seq<Notice>): (r: seq<int>)
    ensures |r| == |notices| && forall i :: 0 <= i < |r| ==> r[i] == notices[i].id
  {
    seq(|notices|, i requires 0 <= i < |notices| => notices[i].id)
  }

  // ---------------------------------------------------------------------------
  // Writing a notice
  // ---------------------------------------------------------------------------

  /** A notice whose publish date has come is sent; a later one is scheduled.
      `publishAt` is the form's date read as a time, `now` the clock, both in
      milliseconds. */
  function PublishStatus(publishAt: int, now: int): (r: string)
    ensures r == "발송완료" <==> publishAt <= now
    ensures r == "예약발송" <==> publishAt > now
  {
    if publishAt <= now then "발송완료" else "예약발송"
  }

  function Written(id: int, f: NoticeForm, publishAt: int, now: int, today: string): Notice {
    Notice(id, f.title, f.content, f.kind, f.priority, ["전체"], "본사 관리자", today, f.publishDate,
           PublishStatus(publishAt, now), 0, 50, false, f.category)
  }

  /** handleAddNotice as written: the id is the list's length plus one. */
  function NewNoticeAsWritten(notices: seq<Notice>, f: NoticeForm, publishAt: int, now: int, today: string): (n: Notice)
    ensures n.id == |notices| + 1
  {
    Written(|notices| + 1, f, publishAt, now, today)
  }

  predicate NoticeIdIsNot(n: Notice, id: int) {
    n.id != id
  }

  function IdIsNot(id: int): Notice -> bool {
    n => NoticeIdIsNot(n, id)
  }

  /** confirmDelete: the selected notice leaves the list. */
  function Deleted(notices: seq<Notice>, id: int): (r: seq<Notice>)
    ensures forall n :: n in r <==> n in notices && n.id != id
  {
    Filter(notices, IdIsNot(id))
  }

  /** With notices 1 and 2, deleting 1 and writing a new one gives two
      notices with id 2. */
  lemma LengthIdCollides(a: Notice, b: Notice, f: NoticeForm, publishAt: int, now: int, today: string)
    requires a.id == 1 && b.id == 2
    ensures var after := Deleted([a, b], 1) + [NewNoticeAsWritten(Deleted([a, b], 1), f, publishAt, now, today)];
            |after| == 2 && after[0].id == after[1].id == 2
  {
    DeletedFirstOfTwo(a, b);
  }

  lemma DeletedFirstOfTwo(a: Notice, b: Notice)
    requires a.id == 1 && b.id == 2
    ensures Deleted([a, b], 1) == [b]
  {
    FilterRemovesOne([a, b], 0, IdIsNot(1));
    assert [a, b][..0] + [a, b][1..] == [b];
  }

  /** handleAddNotice with the id one more than the largest (1 for none):
      for every store, by the head-office administrator, unread. */
  function NewNotice(notices: seq<Notice>, f: NoticeForm, publishAt: int, now: int, today: string): (n: Notice)
    ensures forall i :: 0 <= i < |notices| ==> notices[i].id < n.id
    ensures n.targetStores == ["전체"] && n.author == "본사 관리자" && n.createdDate == today
    ensures n.readCount == 0 && n.totalStores == 50 && !n.hasAttachment
    ensures n.status == "발송완료" <==> publishAt <= now
    ensures n.title == f.title && n.content == f.content && n.publishDate == f.publishDate
  {
    Written(NextId(Ids(notices)), f, publishAt, now, today)
  }

  lemma AddKeepsIdsDistinct(notices: seq<Notice>, f: NoticeForm, publishAt: int, now: int, today: string)
    requires IdsDistinct(notices)
    ensures IdsDistinct(notices + [NewNotice(notices, f, publishAt, now, today)])
  {
  }

  // ---------------------------------------------------------------------------
  // Updating
  // ---------------------------------------------------------------------------

  /** `{ ...n, ...formData }`: the status is not recomputed. */
  function Merge(n: Notice, f: NoticeForm): (r: Notice)
    ensures r.id == n.id && r.status == n.status && r.readCount == n.readCount && r.totalStores == n.totalStores
    ensures r.title == f.title && r.content == f.content && r.publishDate == f.publishDate
  {
    n.(title := f.title, kind := f.kind, category := f.category, priority := f.priority, content := f.content,
       publishDate := f.publishDate)
  }

  /** handleUpdateNotice: only the selected notice changes. */
  function Updated(notices: seq<Notice>, selectedId: int, f: NoticeForm): (r: seq<Notice>)
    ensures |r| == |notices| && Ids(r) == Ids(notices)
    ensures forall i :: 0 <= i < |r| && notices[i].id != selectedId ==> r[i] == notices[i]
    ensures forall i :: 0 <= i < |r| && notices[i].id == selectedId ==> r[i] == Merge(notices[i], f)
  {
    seq(|notices|, i requires 0 <= i < |notices| =>
      if notices[i].id == selectedId then Merge(notices[i], f) else notices[i])
  }

  // ---------------------------------------------------------------------------
  // Search, filters and statistics
  // ---------------------------------------------------------------------------

  predicate Shown(n: Notice, term: string, kind: string, status: string) {
    (MatchesTerm(n.title, term) || MatchesTerm(n.content, term) || MatchesTerm(n.author, term))
    && (kind == "all" || n.kind == kind)
    && (status == "all" || n.status == status)
  }

  function ShownBy(term: string, kind: string, status: string): Notice -> bool {
    n => Shown(n, term, kind, status)
  }

  /** filteredNotices. */
  function FilteredNotices(notices: seq<Notice>, term: string, kind: string, status: string): (r: seq<Notice>)
    ensures multiset(r) <= multiset(notices)
    ensures forall n :: n in r <==> n in notices && Shown(n, term, kind, status)
  {
    Filter(notices, ShownBy(term, kind, status))
  }

  /** Every notice is addressed to at least one store. */
  predicate Addressed(notices: seq<Notice>) {
    forall i :: 0 <= i < |notices| ==> notices[i].totalStores > 0
  }

  /** A notice's read rate, readCount / totalStores, as an exact fraction. */
  function ReadRate(n: Notice): real
    requires n.totalStores > 0
  {
    n.readCount as real / n.totalStores as real
  }

  function RateSum(notices: seq<Notice>): real
    requires Addressed(notices)
  {
    if notices == [] then 0.0 else ReadRate(notices[0]) + RateSum(notices[1..])
  }

  /** Math.round: the nearest integer, halves rounded up. */
  function Round(x: real): int {
    (x + 0.5).Floor
  }

  /** avgReadRate: 0 for no notices, else the mean rate as a rounded percentage. */
  function AvgReadRate(notices: seq<Notice>): (r: int)
    requires Addressed(notices)
    ensures notices == [] ==> r == 0
    ensures (forall i :: 0 <= i < |notices| ==> 0 <= notices[i].readCount <= notices[i].totalStores)
            ==> 0 <= r <= 100
  {
    if |notices| > 0 then
      RateSumBounds(notices);
      Round(RateSum(notices) / |notices| as real * 100.0)
    else 0
  }

  lemma {:induction false} RateSumBounds(notices: seq<Notice>)
    requires Addressed(notices)
    ensures (forall i :: 0 <= i < |notices| ==> 0 <= notices[i].readCount <= notices[i].totalStores)
            ==> 0.0 <= RateSum(notices) <= |notices| as real
  {
    if notices != [] {
      RateSumBounds(notices[1..]);
      var n := notices[0];
      if 0 <= n.readCount <= n.totalStores {
        RateAtMostOne(n.readCount, n.totalStores);
      }
    }
  }

  lemma RateAtMostOne(read: int, total: int)
    requires 0 <= read <= total && total > 0
    ensures 0.0 <= read as real / total as real <= 1.0
  {
  }

  /** When every store has read every notice the rate is 100. */
  lemma AllReadIsHundred(notices: seq<Notice>)
    requires Addressed(notices) && notices != []
    requires forall i :: 0 <= i < |notices| ==> notices[i].readCount == notices[i].totalStores
    ensures AvgReadRate(notices) == 100
  {
    AllReadSum(notices);
  }

  lemma {:induction false} AllReadSum(notices: seq<Notice>)
    requires Addressed(notices)
    requires forall i :: 0 <= i < |notices| ==> notices[i].readCount == notices[i].totalStores
    ensures RateSum(notices) == |notices| as real
  {
    if notices != [] {
      AllReadSum(notices[1..]);
    }
  }

  datatype Stats = Stats(total: nat, urgent: nat, scheduled: nat, avgReadRate: int)

  function UrgentTest(): Notice -> bool {
    (n: Notice) => n.kind == "긴급"
  }

  function ScheduledTest(): Notice -> bool {
    (n: Notice) => n.status == "예약발송"
  }

  function StatsOf(notices: seq<Notice>): (s: Stats)
    requires Addressed(notices)
    ensures s.total == |notices| && s.urgent <= s.total && s.scheduled <= s.total
    ensures s.avgReadRate == AvgReadRate(notices)
  {
    Stats(|notices|, Count(notices, UrgentTest()), Count(notices, ScheduledTest()), AvgReadRate(notices))
  }

  /** A notice scheduled for later adds one to the scheduled count. */
  lemma AddScheduled(notices: seq<Notice>, f: NoticeForm, publishAt: int, now: int, today: string)
    requires Addressed(notices) && publishAt > now
    ensures Addressed(notices + [NewNotice(notices, f, publishAt, now, today)])
    ensures StatsOf(notices + [NewNotice(notices, f, publishAt, now, today)]).scheduled == StatsOf(notices).scheduled + 1
  {
    CountAppend(notices, [NewNotice(notices, f, publishAt, now, today)], ScheduledTest());
  }

  // ---------------------------------------------------------------------------
  // The screen
  // ---------------------------------------------------------------------------

  class HqNotices {
    var notices: seq<Notice>
    var selected: Option<int>

    ghost predicate Valid()
      reads this
    {
      IdsDistinct(notices) && Addressed(notices)
    }

    constructor (initial: seq<Notice>)
      requires IdsDistinct(initial) && Addressed(initial)
      ensures Valid() && notices == initial && selected.None?
    {
      notices := initial;
      selected := None;
    }

    method AddNotice(f: NoticeForm, publishAt: int, now: int, today: string)
      requires Valid()
      modifies this`notices
      ensures Valid() && notices == old(notices) + [NewNotice(old(notices), f, publishAt, now, today)]
    {
      AddKeepsIdsDistinct(notices, f, publishAt, now, today);
      notices := notices + [NewNotice(notices, f, publishAt, now, today)];
    }

    method Select(id: int)
      modifies this`selected
      ensures selected == Some(id)
    {
      selected := Some(id);
    }

    method UpdateNotice(f: NoticeForm)
      requires Valid() && selected.Some?
      modifies this`notices, this`selected
      ensures Valid() && notices == Updated(old(notices), old(selected).value, f) && selected.None?
    {
      notices := Updated(notices, selected.value, f);
      selected := None;
    }

    method ConfirmDelete()
      requires Valid() && selected.Some?
      modifies this`notices, this`selected
      ensures Valid() && notices == Deleted(old(notices), old(selected).value) && selected.None?
    {
      var id := selected.value;
      FilterKeepsDistinct(notices, IdIsNot(id), NoticeId());
      var r := Deleted(notices, id);
      assert forall i :: 0 <= i < |r| ==> NoticeId()(r[i]) == r[i].id;
      assert forall i :: 0 <= i < |r| ==> r[i] in notices;
      notices := r;
      selected := None;
    }

    method Stats() returns (s: Stats)
      requires Valid()
      ensures s == StatsOf(notices)
    {
      s := StatsOf(notices);
    }
  }

  function NoticeId(): Notice -> int {
    (n: Notice) => n.id
  }
}
