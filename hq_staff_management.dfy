/** Head office's own staff register (HQ/StaffManagement.tsx): adding,
    updating and deleting employees, the search and filters, and the counters. */
module HqStaff {
  import opened Common

  datatype Employee = Employee(
    id: int,
    name: string,
    email: string,
    phone: string,
    department: string,
    position: string,
    role: string,
    status: string,
    joinDate: string,
    location: string,
    avatar: string,
    lastLogin: string)

  /** What the employee form submits. */
  datatype EmployeeForm = EmployeeForm(
    name: string,
    email: string,
    phone: string,
    department: string,
    position: string,
    role: string,
    location: string,
    joinDate: string)

  function Ids(staff: seq<Employee>): (r: seq<int>)
    ensures |r| == |staff| && forall i :: 0 <= i < |r| ==> r[i] == staff[i].id
  {
    seq(|staff|, i requires 0 <= i < |staff| => staff[i].id)
  }

  predicate IdsDistinct(staff: seq<Employee>) {
    forall i, j :: 0 <= i < j < |staff| ==> staff[i].id != staff[j].id
  }

  // ---------------------------------------------------------------------------
  // Adding
  // ---------------------------------------------------------------------------

  /** `name.substring(0, 2).toUpperCase()`. */
  function Avatar(name: string): (r: string)
    ensures |r| == if |name| < 2 then |name| else 2
    ensures forall i :: 0 <= i < |r| ==> r[i] == UpperChar(name[i])
  {
    Upper(name[..if |name| < 2 then |name| else 2])
  }

  function Hired(id: int, f: EmployeeForm): Employee {
    Employee(id, f.name, f.email, f.phone, f.department, f.position, f.role, "재직", f.joinDate, f.location,
             Avatar(f.name), "로그인 전")
  }

  /** handleAddStaff as written: the id is the list's length plus one. */
  function NewEmployeeAsWritten(staff: seq<Employee>, f: EmployeeForm): (e: Employee)
    ensures e.id == |staff| + 1
  {
    Hired(|staff| + 1, f)
  }

  predicate EmployeeIdIsNot(e: Employee, id: int) {
    e.id != id
  }

  function IdIsNot(id: int): Employee -> bool {
    e => EmployeeIdIsNot(e, id)
  }

  /** confirmDelete: the selected employee leaves the list. */
  function Deleted(staff: seq<Employee>, id: int): (r: seq<Employee>)
    ensures forall e :: e in r <==> e in staff && e.id != id
  {
    Filter(staff, IdIsNot(id))
  }

  /** With employees 1 and 2, deleting 1 and adding someone gives two
      employees with id 2. */
  lemma LengthIdCollides(a: Employee, b: Employee, f: EmployeeForm)
    requires a.id == 1 && b.id == 2
    ensures var after := Deleted([a, b], 1) + [NewEmployeeAsWritten(Deleted([a, b], 1), f)];
            |after| == 2 && after[0].id == after[1].id == 2
  {
    DeletedFirstOfTwo(a, b);
  }

  lemma DeletedFirstOfTwo(a: Employee, b: Employee)
    requires a.id == 1 && b.id == 2
    ensures Deleted([a, b], 1) == [b]
  {
    FilterRemovesOne([a, b], 0, IdIsNot(1));
    assert [a, b][..0] + [a, b][1..] == [b];
  }

  /** handleAddStaff with the id one more than the largest (1 for nobody),
      working, never logged in. */
  function NewEmployee(staff: seq<Employee>, f: EmployeeForm): (e: Employee)
    ensures forall i :: 0 <= i < |staff| ==> staff[i].id < e.id
    ensures e.status == "재직" && e.lastLogin == "로그인 전" && e.avatar == Avatar(f.name)
    ensures e.name == f.name && e.department == f.department && e.email == f.email
  {
    Hired(NextId(Ids(staff)), f)
  }

  /** The corrected id keeps ids distinct whatever was deleted before. */
  lemma AddKeepsIdsDistinct(staff: seq<Employee>, f: EmployeeForm)
    requires IdsDistinct(staff)
    ensures IdsDistinct(staff + [NewEmployee(staff, f)])
  {
  }

  /** On a list whose ids are exactly 1..n, the corrected id is the source's n + 1. */
  lemma NewIdAgreesWithoutDeletes(staff: seq<Employee>, f: EmployeeForm)
    requires forall i :: 0 <= i < |staff| ==> staff[i].id == i + 1
    ensures NewEmployee(staff, f).id == NewEmployeeAsWritten(staff, f).id
  {
    if staff != [] {
      var ids := Ids(staff);
      assert ids[|staff| - 1] == |staff|;
      assert MaxOf(ids) >= |staff|;
    }
  }

  // ---------------------------------------------------------------------------
  // Updating
  // ---------------------------------------------------------------------------

  /** `{ ...s, ...formData }`: the form's fields replace the employee's. */
  function Merge(e: Employee, f: EmployeeForm): (r: Employee)
    ensures r.id == e.id && r.status == e.status && r.avatar == e.avatar && r.lastLogin == e.lastLogin
    ensures r.name == f.name && r.email == f.email && r.department == f.department && r.joinDate == f.joinDate
  {
    e.(name := f.name, email := f.email, phone := f.phone, department := f.department, position := f.position,
       role := f.role, location := f.location, joinDate := f.joinDate)
  }

  /** handleUpdateStaff: only the selected employee changes. */
  function Updated(staff: seq<Employee>, selectedId: int, f: EmployeeForm): (r: seq<Employee>)
    ensures |r| == |staff| && Ids(r) == Ids(staff)
    ensures forall i :: 0 <= i < |r| && staff[i].id != selectedId ==> r[i] == staff[i]
    ensures forall i :: 0 <= i < |r| && staff[i].id == selectedId ==> r[i] == Merge(staff[i], f)
  {
    seq(|staff|, i requires 0 <= i < |staff| =>
      if staff[i].id == selectedId then Merge(staff[i], f) else staff[i])
  }

  // ---------------------------------------------------------------------------
  // Search, filters and counters
  // ---------------------------------------------------------------------------

  predicate Shown(e: Employee, term: string, department: string, status: string) {
    (MatchesTerm(e.name, term) || MatchesTerm(e.email, term) || MatchesTerm(e.department, term))
    && (department == "all" || e.department == department)
    && (status == "all" || e.status == status)
  }

  function ShownBy(term: string, department: string, status: string): Employee -> bool {
    e => Shown(e, term, department, status)
  }

  /** filteredStaff. */
  function FilteredStaff(staff: seq<Employee>, term: string, department: string, status: string): (r: seq<Employee>)
    ensures multiset(r) <= multiset(staff)
    ensures forall e :: e in r <==> e in staff && Shown(e, term, department, status)
  {
    Filter(staff, ShownBy(term, department, status))
  }

  function StatusIs(status: string): Employee -> bool {
    (e: Employee) => e.status == status
  }

  datatype Counters = Counters(total: nat, active: nat, onLeave: nat)

  /** The cards: everybody, those working (재직) and those on leave (휴직). */
  function CountersOf(staff: seq<Employee>): (c: Counters)
    ensures c.total == |staff| && c.active + c.onLeave <= c.total
  {
    StatusCountsDisjoint(staff);
    Counters(|staff|, Count(staff, StatusIs("재직")), Count(staff, StatusIs("휴직")))
  }

  lemma {:induction false} StatusCountsDisjoint(staff: seq<Employee>)
    ensures Count(staff, StatusIs("재직")) + Count(staff, StatusIs("휴직")) <= |staff|
  {
    if staff != [] {
      StatusCountsDisjoint(staff[1..]);
    }
  }

  /** Filtering by 재직 with no search lists exactly the active counter's employees. */
  lemma ActiveFilterMatchesCounter(staff: seq<Employee>)
    ensures |FilteredStaff(staff, "", "all", "재직")| == CountersOf(staff).active
  {
    forall i | 0 <= i < |staff|
      ensures ShownBy("", "all", "재직")(staff[i]) == StatusIs("재직")(staff[i])
    {
      EmptyTermMatches(staff[i].name);
    }
    FilterSame(staff, ShownBy("", "all", "재직"), StatusIs("재직"));
  }

  /** A new employee adds one to the total and to the active counter. */
  lemma AddCounters(staff: seq<Employee>, f: EmployeeForm)
    ensures CountersOf(staff + [NewEmployee(staff, f)]) == Counters(|staff| + 1, CountersOf(staff).active + 1, CountersOf(staff).onLeave)
  {
    var e := NewEmployee(staff, f);
    CountAppend(staff, [e], StatusIs("재직"));
    CountAppend(staff, [e], StatusIs("휴직"));
  }

  // ---------------------------------------------------------------------------
  // The screen
  // ---------------------------------------------------------------------------

  class HqStaff {
    var staff: seq<Employee>
    var selected: Option<int>

    ghost predicate Valid()
      reads this
    {
      IdsDistinct(staff)
    }

    constructor (initial: seq<Employee>)
      requires IdsDistinct(initial)
      ensures Valid() && staff == initial && selected.None?
    {
      staff := initial;
      selected := None;
    }

    method AddStaff(f: EmployeeForm)
      requires Valid()
      modifies this`staff
      ensures Valid() && staff == old(staff) + [NewEmployee(old(staff), f)]
    {
      AddKeepsIdsDistinct(staff, f);
      staff := staff + [NewEmployee(staff, f)];
    }

    method Select(id: int)
      modifies this`selected
      ensures selected == Some(id)
    {
      selected := Some(id);
    }

    /** handleUpdateStaff; the dialog closes and forgets the selection. */
    method UpdateStaff(f: EmployeeForm)
      requires Valid() && selected.Some?
      modifies this`staff, this`selected
      ensures Valid() && staff == Updated(old(staff), old(selected).value, f) && selected.None?
    {
      staff := Updated(staff, selected.value, f);
      selected := None;
    }

    /** confirmDelete. */
    method ConfirmDelete()
      requires Valid() && selected.Some?
      modifies this`staff, this`selected
      ensures Valid() && staff == Deleted(old(staff), old(selected).value) && selected.None?
    {
      var id := selected.value;
      FilterKeepsDistinct(staff, IdIsNot(id), EmployeeId());
      var r := Deleted(staff, id);
      assert forall i :: 0 <= i < |r| ==> EmployeeId()(r[i]) == r[i].id;
      staff := r;
      selected := None;
    }
  }

  function EmployeeId(): Employee -> int {
    (e: Employee) => e.id
  }
}
