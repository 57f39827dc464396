/** The store's staff list (Store/StaffList.tsx): search and filters, adding
    and editing a member, the status texts and the CSV export. */
module StaffList {
  import opened Common

  /** A staff member; an empty resignation date stands for none. */
  datatype Member = Member(
    id: string,
    name: string,
    position: string,
    department: string,
    phone: string,
    email: string,
    hireDate: string,
    resignationDate: string,
    status: string)

  /** What the add and edit forms submit; the add form has no resignation
      date (None), and neither does an edit that leaves it out. */
  datatype MemberForm = MemberForm(
    name: string,
    position: string,
    department: string,
    phone: string,
    email: string,
    hireDate: string,
    resignationDate: Option<string>,
    status: string)

  // ---------------------------------------------------------------------------
  // Search and filters
  // ---------------------------------------------------------------------------

  /** The search matches the name, the position or the department, ignoring case. */
  predicate MatchesSearch(m: Member, term: string) {
    MatchesTerm(m.name, term) || MatchesTerm(m.position, term) || MatchesTerm(m.department, term)
  }

  /** filteredStaff's test; 'all' switches a select filter off. */
  predicate Shown(m: Member, term: string, status: string, department: string) {
    MatchesSearch(m, term) && (status == "all" || m.status == status)
    && (department == "all" || m.department == department)
  }

  function ShownBy(term: string, status: string, department: string): Member -> bool {
    m => Shown(m, term, status, department)
  }

  function FilteredStaff(staff: seq<Member>, term: string, status: string, department: string): (r: seq<Member>)
    ensures multiset(r) <= multiset(staff)
    ensures forall m :: m in r <==> m in staff && Shown(m, term, status, department)
  {
    Filter(staff, ShownBy(term, status, department))
  }

  /** With no search and both filters on 'all', every member is listed, in order. */
  lemma NoFilterShowsAll(staff: seq<Member>)
    ensures FilteredStaff(staff, "", "all", "all") == staff
  {
    forall i | 0 <= i < |staff|
      ensures Shown(staff[i], "", "all", "all")
    {
      EmptyTermMatches(staff[i].name);
    }
    FilterAll(staff, ShownBy("", "all", "all"));
  }

  // ---------------------------------------------------------------------------
  // Adding and editing
  // ---------------------------------------------------------------------------

  /** `{ id: Date.now().toString(), ...data }`. */
  function NewMember(now: nat, f: MemberForm): (m: Member)
    ensures m.id == NatToString(now) && m.name == f.name && m.status == f.status
    ensures m.resignationDate == (if f.resignationDate.Some? then f.resignationDate.value else "")
  {
    Member(NatToString(now), f.name, f.position, f.department, f.phone, f.email, f.hireDate,
           if f.resignationDate.Some? then f.resignationDate.value else "", f.status)
  }

  /** `{ ...member, ...data }`: every submitted field replaces the member's,
      the id stays. */
  function Merge(m: Member, f: MemberForm): (r: Member)
    ensures r.id == m.id
    ensures r == NewMember(0, f).(id := m.id, resignationDate := if f.resignationDate.Some? then f.resignationDate.value else m.resignationDate)
  {
    m.(name := f.name, position := f.position, department := f.department, phone := f.phone, email := f.email,
       hireDate := f.hireDate, status := f.status,
       resignationDate := if f.resignationDate.Some? then f.resignationDate.value else m.resignationDate)
  }

  /** Merging the same form twice is merging it once. */
  lemma MergeIdempotent(m: Member, f: MemberForm)
    ensures Merge(Merge(m, f), f) == Merge(m, f)
  {
  }

  /** handleEditStaff over the list; with nobody being edited nothing matches. */
  function Edited(staff: seq<Member>, editing: Option<string>, f: MemberForm): (r: seq<Member>)
    ensures |r| == |staff|
    ensures forall i :: 0 <= i < |r| ==>
              r[i] == if editing.Some? && staff[i].id == editing.value then Merge(staff[i], f) else staff[i]
  {
    seq(|staff|, i requires 0 <= i < |staff| =>
      if editing.Some? && staff[i].id == editing.value then Merge(staff[i], f) else staff[i])
  }

  /** Editing keeps every id, so the list keeps its members' identities. */
  lemma EditKeepsIds(staff: seq<Member>, editing: Option<string>, f: MemberForm)
    ensures forall i :: 0 <= i < |staff| ==> Edited(staff, editing, f)[i].id == staff[i].id
    ensures editing.None? ==> Edited(staff, editing, f) == staff
  {
  }

  // ---------------------------------------------------------------------------
  // Texts and export
  // ---------------------------------------------------------------------------

  const Statuses: seq<string> := ["active", "inactive", "vacation", "resigned"]

  /** getStatusText. */
  function StatusText(status: string): (r: string)
    ensures r == "알수없음" <==> status !in Statuses
  {
    match status
    case "active" => "근무중"
    case "vacation" => "휴가중"
    case "inactive" => "휴직중"
    case "resigned" => "퇴사"
    case _ => "알수없음"
  }

  lemma StatusTextsDistinct()
    ensures forall i, j :: 0 <= i < j < |Statuses| ==> StatusText(Statuses[i]) != StatusText(Statuses[j])
  {
  }

  const Headers: seq<string> := ["이름", "직책", "부서", "전화번호", "이메일", "입사일", "퇴사일", "상태"]

  function ExportRow(m: Member): (r: seq<string>)
    ensures |r| == |Headers| && r[7] == StatusText(m.status)
    ensures forall i :: 0 <= i < 7 ==> r[i] != ""
  {
    [OrElse(m.name, "-"), OrElse(m.position, "-"), OrElse(m.department, "-"), OrElse(m.phone, "-"),
     OrElse(m.email, "-"), OrElse(m.hireDate, "-"), OrElse(m.resignationDate, "-"), StatusText(m.status)]
  }

  function ExportRows(staff: seq<Member>): (r: seq<seq<string>>)
    ensures |r| == |staff| && forall i :: 0 <= i < |staff| ==> r[i] == ExportRow(staff[i])
  {
    seq(|staff|, i requires 0 <= i < |staff| => ExportRow(staff[i]))
  }

  datatype ExportError = NoStaff

  /** The 'excel' download of the filtered list: refused when it is empty. */
  function ExportCsv(shown: seq<Member>): (r: Result<string, ExportError>)
    ensures r.Err? <==> shown == []
    ensures r.Ok? ==> r.value == Csv(Headers, ExportRows(shown))
  {
    if shown == [] then Err(NoStaff) else Ok(Csv(Headers, ExportRows(shown)))
  }

  predicate SingleLine(m: Member) {
    && '\n' !in m.name && '\n' !in m.position && '\n' !in m.department && '\n' !in m.phone
    && '\n' !in m.email && '\n' !in m.hireDate && '\n' !in m.resignationDate
  }

  /** The exported file has one line per listed member after the header. */
  lemma ExportLines(shown: seq<Member>)
    requires shown != []
    requires forall i :: 0 <= i < |shown| ==> SingleLine(shown[i])
    ensures Split(ExportCsv(shown).value, '\n') == [Join(Headers, ",")] + CsvLines(ExportRows(shown))
  {
    var rows := ExportRows(shown);
    forall i | 0 <= i < |rows|
      ensures NoLineBreak(rows[i])
    {
      assert rows[i] == ExportRow(shown[i]);
    }
    CsvReadsBack(Headers, rows);
  }

  // ---------------------------------------------------------------------------
  // The screen
  // ---------------------------------------------------------------------------

  class StaffList {
    var staff: seq<Member>
    var searchTerm: string
    var filterStatus: string
    var filterDepartment: string
    var editing: Option<string>

    constructor (initial: seq<Member>)
      ensures staff == initial && searchTerm == "" && filterStatus == "all" && filterDepartment == "all"
      ensures editing.None?
    {
      staff := initial;
      searchTerm := "";
      filterStatus := "all";
      filterDepartment := "all";
      editing := None;
    }

    function Shown(): seq<Member>
      reads this
    {
      FilteredStaff(staff, searchTerm, filterStatus, filterDepartment)
    }

    method SetFilters(term: string, status: string, department: string)
      modifies this`searchTerm, this`filterStatus, this`filterDepartment
      ensures searchTerm == term && filterStatus == status && filterDepartment == department
    {
      searchTerm, filterStatus, filterDepartment := term, status, department;
    }

    /** handleAddStaff: the new member goes last; nobody else changes. */
    method AddStaff(f: MemberForm, now: nat)
      modifies this`staff
      ensures staff == old(staff) + [NewMember(now, f)]
    {
      staff := staff + [NewMember(now, f)];
    }

    method StartEdit(id: string)
      modifies this`editing
      ensures editing == Some(id)
    {
      editing := Some(id);
    }

    /** handleEditStaff: the edited member takes the form; the edit ends. */
    method EditStaff(f: MemberForm)
      modifies this`staff, this`editing
      ensures staff == Edited(old(staff), old(editing), f) && editing.None?
    {
      staff := Edited(staff, editing, f);
      editing := None;
    }

    method Export() returns (r: Result<string, ExportError>)
      ensures r == ExportCsv(Shown())
    {
      r := ExportCsv(Shown());
    }
  }
}
