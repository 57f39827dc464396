/** The store's work schedule (Store/StaffSchedule.tsx): work hours from the
    clock-in and clock-out times, pay, adding shifts from templates, vacation
    requests and their approval, attendance updates, and the per-day view.
    Clock times are minutes after midnight; work time is counted in minutes
    (the source's hours are these minutes divided by 60). */
module StaffSchedule {
  import opened Common

  datatype Employment = Regular | PartTime

  datatype Staff = Staff(id: string, name: string, position: string, hourlyWage: int, employmentType: Employment)

  /** A shift template: its type code, times and break in minutes. */
  datatype Template = Template(id: string, name: string, workType: string, startTime: string, endTime: string,
                               breakTime: int, employmentType: Employment)

  /** The seven templates: open, middle and close for part-timers, A to D for
      regular staff. */
  const Templates: seq<Template> := [
    Template("1", "오픈 근무", "open", "08:00", "14:00", 60, PartTime),
    Template("2", "미들 근무", "middle", "12:00", "18:00", 60, PartTime),
    Template("3", "마감 근무", "close", "16:00", "22:30", 30, PartTime),
    Template("4", "A 근무 (오픈형)", "A", "08:00", "20:00", 90, Regular),
    Template("5", "B 근무 (미들형)", "B", "10:00", "22:00", 90, Regular),
    Template("6", "C 근무 (마감형)", "C", "11:00", "22:30", 90, Regular),
    Template("7", "D 근무 (풀타임)", "D", "09:00", "21:00", 90, Regular)]

  const MinutesPerDay: nat := 1440

  /** A clock time ('HH:MM') as minutes after midnight. */
  type Clock = m: nat | m < 1440

  datatype Schedule = Schedule(
    id: string,
    staffId: string,
    staffName: string,
    date: string,
    workType: string,
    startTime: string,
    endTime: string,
    actualStart: Option<Clock>,
    actualEnd: Option<Clock>,
    breakTime: int,
    status: string,
    notes: string)

  datatype Vacation = Vacation(
    id: string,
    staffId: string,
    staffName: string,
    startDate: string,
    endDate: string,
    kind: string,
    reason: string,
    status: string,
    requestDate: string,
    approvedBy: string,
    approvedDate: string)

  // ---------------------------------------------------------------------------
  // Work time and pay
  // ---------------------------------------------------------------------------

  /** From clock-in to clock-out; a clock-out earlier than the clock-in is on
      the next day. */
  function Span(start: Clock, end: Clock): (d: nat)
    ensures end >= start ==> start + d == end
    ensures end < start ==> start + d == end + MinutesPerDay
  {
    if end < start then end + MinutesPerDay - start else end - start
  }

  /** calculateWorkHours, in minutes: nothing without both clock times,
      otherwise the span less the break, never below zero. */
  function WorkMinutes(s: Schedule): (m: nat)
    ensures s.actualStart.None? || s.actualEnd.None? ==> m == 0
    ensures s.actualStart.Some? && s.actualEnd.Some? ==>
              m == if Span(s.actualStart.value, s.actualEnd.value) <= s.breakTime then 0
                   else Span(s.actualStart.value, s.actualEnd.value) - s.breakTime
  {
    if s.actualStart.None? || s.actualEnd.None? then 0
    else
      var d := Span(s.actualStart.value, s.actualEnd.value);
      if d <= s.breakTime then 0 else d - s.breakTime
  }

  /** A shift never counts a day's work or more, and a non-negative break
      only shortens it. */
  lemma WorkMinutesBounded(s: Schedule)
    requires s.actualStart.Some? && s.actualEnd.Some?
    requires s.breakTime >= 0
    ensures WorkMinutes(s) < MinutesPerDay
    ensures WorkMinutes(s) <= Span(s.actualStart.value, s.actualEnd.value)
  {
  }

  /** The closing shift of the sample data, 20:00 to 02:00 with a 30-minute
      break, is five and a half hours. */
  lemma OvernightShift(s: Schedule)
    requires s.actualStart == Some(20 * 60) && s.actualEnd == Some(2 * 60) && s.breakTime == 30
    ensures WorkMinutes(s) == 330
  {
  }

  predicate StaffIdIs(st: Staff, id: string) {
    st.id == id
  }

  function IsStaff(id: string): Staff -> bool {
    st => StaffIdIs(st, id)
  }

  /** `staffList.find(s => s.id === id)`. */
  function FindStaff(staffList: seq<Staff>, id: string): (r: Option<Staff>)
    ensures r.Some? ==> r.value in staffList && r.value.id == id
    ensures r.None? ==> forall i :: 0 <= i < |staffList| ==> staffList[i].id != id
  {
    match FirstIndex(staffList, IsStaff(id))
    case None => None
    case Some(i) => Some(staffList[i])
  }

  /** Math.round of minutes × wage / 60: the nearest whole won, halves up, so
      within half a won of the exact pay. */
  function RoundedPay(minutes: nat, wage: int): (r: int)
    ensures 60 * r - 30 <= minutes * wage < 60 * r + 30
  {
    var n := minutes * wage;
    var q := (n + 30) / 60;
    assert n + 30 == 60 * q + (n + 30) % 60;
    q
  }

  /** calculatePay: nothing unless the staff member is known and the shift is
      completed. */
  function Pay(staffList: seq<Staff>, s: Schedule): (p: int)
    ensures FindStaff(staffList, s.staffId).None? || s.status != "completed" ==> p == 0
    ensures FindStaff(staffList, s.staffId).Some? && s.status == "completed" ==>
              p == RoundedPay(WorkMinutes(s), FindStaff(staffList, s.staffId).value.hourlyWage)
  {
    var st := FindStaff(staffList, s.staffId);
    if st.None? || s.status != "completed" then 0 else RoundedPay(WorkMinutes(s), st.value.hourlyWage)
  }

  /** With a non-negative wage, pay is never negative. */
  lemma PayNonNegative(staffList: seq<Staff>, s: Schedule)
    requires forall i :: 0 <= i < |staffList| ==> staffList[i].hourlyWage >= 0
    ensures Pay(staffList, s) >= 0
  {
    var st := FindStaff(staffList, s.staffId);
    if st.Some? {
      assert WorkMinutes(s) * st.value.hourlyWage >= 0;
    }
  }

  predicate ScheduleStatusIs(s: Schedule, status: string) {
    s.status == status
  }

  function StatusIs(status: string): Schedule -> bool {
    sc => ScheduleStatusIs(sc, status)
  }

  function ScheduleMinutes(s: Schedule): int {
    WorkMinutes(s)
  }

  /** totalWorkHours, in minutes: the work time of the completed shifts,
      which is never negative. */
  function TotalWorkMinutes(schedules: seq<Schedule>): (r: int)
    ensures r >= 0
  {
    var done := Filter(schedules, StatusIs("completed"));
    MinutesSumNonNegative(done);
    Sum(done, ScheduleMinutes)
  }

  predicate IsPartTimer(staffList: seq<Staff>, s: Schedule) {
    FindStaff(staffList, s.staffId).Some? && FindStaff(staffList, s.staffId).value.employmentType == PartTime
  }

  function PartTimeShift(staffList: seq<Staff>): Schedule -> bool {
    s => IsPartTimer(staffList, s)
  }

  function PayOf(staffList: seq<Staff>): Schedule -> int {
    s => Pay(staffList, s)
  }

  /** partTimePayroll: the pay of the completed shifts of part-time staff,
      never negative while no wage is. */
  function PartTimePayroll(staffList: seq<Staff>, schedules: seq<Schedule>): (r: int)
    ensures (forall i :: 0 <= i < |staffList| ==> staffList[i].hourlyWage >= 0) ==> r >= 0
  {
    var shifts := Filter(Filter(schedules, StatusIs("completed")), PartTimeShift(staffList));
    assert (forall i :: 0 <= i < |staffList| ==> staffList[i].hourlyWage >= 0) ==> Sum(shifts, PayOf(staffList)) >= 0 by {
      if forall i :: 0 <= i < |staffList| ==> staffList[i].hourlyWage >= 0 {
        PaySumNonNegative(staffList, shifts);
      }
    }
    Sum(shifts, PayOf(staffList))
  }

  /** Summing pays that are each non-negative gives a non-negative payroll. */
  lemma {:induction false} PaySumNonNegative(staffList: seq<Staff>, shifts: seq<Schedule>)
    requires forall i :: 0 <= i < |staffList| ==> staffList[i].hourlyWage >= 0
    ensures Sum(shifts, PayOf(staffList)) >= 0
  {
    if shifts != [] {
      PaySumNonNegative(staffList, shifts[..|shifts| - 1]);
      PayNonNegative(staffList, shifts[|shifts| - 1]);
    }
  }

  /** Summing work times, which are never negative, gives a non-negative total. */
  lemma {:induction false} MinutesSumNonNegative(shifts: seq<Schedule>)
    ensures Sum(shifts, ScheduleMinutes) >= 0
  {
    if shifts != [] {
      MinutesSumNonNegative(shifts[..|shifts| - 1]);
    }
  }

  // ---------------------------------------------------------------------------
  // Adding shifts
  // ---------------------------------------------------------------------------

  predicate TemplateTypeIs(t: Template, workType: string) {
    t.workType == workType
  }

  function IsTemplate(workType: string): Template -> bool {
    t => TemplateTypeIs(t, workType)
  }

  /** `workTimeTemplates.find(t => t.type === workType)`. */
  function FindTemplate(workType: string): (r: Option<Template>)
    ensures r.Some? ==> r.value in Templates && r.value.workType == workType
    ensures r.None? ==> forall i :: 0 <= i < |Templates| ==> Templates[i].workType != workType
  {
    match FirstIndex(Templates, IsTemplate(workType))
    case None => None
    case Some(i) => Some(Templates[i])
  }

  /** The add-shift form after parsing; None is a blank or non-numeric break. */
  datatype ScheduleInput = ScheduleInput(staffId: string, date: string, workType: string, startTime: string,
                                         endTime: string, breakTime: Option<int>, notes: string)

  /** The times and break handleAddSchedule resolves: a template's, the typed
      ones for 'custom' (a blank or zero break becomes 60), or none. */
  function ResolveTimes(d: ScheduleInput): (r: (string, string, int))
    ensures FindTemplate(d.workType).Some? ==>
              var t := FindTemplate(d.workType).value; r == (t.startTime, t.endTime, t.breakTime)
    ensures FindTemplate(d.workType).None? && d.workType == "custom" ==>
              r.0 == d.startTime && r.1 == d.endTime
              && r.2 == (if d.breakTime.None? || d.breakTime.value == 0 then 60 else d.breakTime.value)
    ensures FindTemplate(d.workType).None? && d.workType != "custom" ==> r == ("", "", 0)
  {
    var t := FindTemplate(d.workType);
    if t.Some? then (t.value.startTime, t.value.endTime, t.value.breakTime)
    else if d.workType == "custom" then
      (d.startTime, d.endTime, if d.breakTime.None? || d.breakTime.value == 0 then 60 else d.breakTime.value)
    else ("", "", 0)
  }

  /** Template types resolve to their own times; vacations and days off have
      no times and no break. */
  lemma TemplatesResolve(d: ScheduleInput)
    ensures d.workType == "close" ==> ResolveTimes(d) == ("16:00", "22:30", 30)
    ensures d.workType == "A" ==> ResolveTimes(d) == ("08:00", "20:00", 90)
    ensures d.workType == "vacation" || d.workType == "off" ==> ResolveTimes(d) == ("", "", 0)
  {
  }

  /** A custom shift typed with a zero break still gets the default 60 minutes. */
  lemma CustomZeroBreak(d: ScheduleInput)
    requires d.workType == "custom" && d.breakTime == Some(0)
    ensures ResolveTimes(d).2 == 60
  {
  }

  function NewSchedule(staffList: seq<Staff>, d: ScheduleInput, now: nat): (s: Schedule)
    ensures s.id == NatToString(now) && s.status == "scheduled"
    ensures s.staffId == d.staffId && s.date == d.date && s.workType == d.workType
    ensures s.actualStart.None? && s.actualEnd.None?
    ensures (s.startTime, s.endTime, s.breakTime) == ResolveTimes(d)
    ensures s.staffName == (if FindStaff(staffList, d.staffId).Some? then FindStaff(staffList, d.staffId).value.name else "")
  {
    var times := ResolveTimes(d);
    var st := FindStaff(staffList, d.staffId);
    Schedule(NatToString(now), d.staffId, if st.Some? then st.value.name else "", d.date, d.workType,
             times.0, times.1, None, None, times.2, "scheduled", d.notes)
  }

  /** A shift just added has no work time and no pay. */
  lemma NewScheduleUnpaid(staffList: seq<Staff>, d: ScheduleInput, now: nat)
    ensures WorkMinutes(NewSchedule(staffList, d, now)) == 0
    ensures Pay(staffList, NewSchedule(staffList, d, now)) == 0
  {
  }

  /** The template types whose employment type is `e`, in table order. */
  function TemplateTypes(e: Employment): (r: seq<string>)
    ensures "custom" !in r && "vacation" !in r && "off" !in r
  {
    if e == PartTime then ["open", "middle", "close"] else ["A", "B", "C", "D"]
  }

  /** The types listed for an employment type are exactly the table's
      templates of that employment type. */
  lemma TemplateTypesMatchTable(e: Employment)
    ensures forall i :: 0 <= i < |Templates| ==>
              (Templates[i].workType in TemplateTypes(e) <==> Templates[i].employmentType == e)
  {
  }

  predicate IsPartTime(staffList: seq<Staff>, staffId: string) {
    FindStaff(staffList, staffId).Some? && FindStaff(staffList, staffId).value.employmentType == PartTime
  }

  /** The options after the templates: 'vacation', 'off', and 'custom' unless part time. */
  function Extras(staffList: seq<Staff>, staffId: string): (r: seq<string>)
    ensures |r| >= 2 && r[..2] == ["vacation", "off"]
    ensures "custom" in r <==> !IsPartTime(staffList, staffId)
  {
    ["vacation", "off"] + (if IsPartTime(staffList, staffId) then [] else ["custom"])
  }

  /** The work-type choices of the add-shift form for the selected staff
      member: the templates of their employment type (none when nobody is
      selected), then 'vacation' and 'off', then 'custom' unless they work
      part time. */
  function WorkTypeOptions(staffList: seq<Staff>, staffId: string): (r: seq<string>)
    ensures FindStaff(staffList, staffId).None? ==> r == ["vacation", "off", "custom"]
    ensures FindStaff(staffList, staffId).Some? ==>
              r == TemplateTypes(FindStaff(staffList, staffId).value.employmentType) + Extras(staffList, staffId)
    ensures "custom" in r <==> !IsPartTime(staffList, staffId)
    ensures "vacation" in r && "off" in r
  {
    var st := FindStaff(staffList, staffId);
    var templates := if st.None? then [] else TemplateTypes(st.value.employmentType);
    var extras := Extras(staffList, staffId);
    assert extras[0] == "vacation" && extras[1] == "off";
    assert "custom" in templates + extras <==> "custom" in extras;
    templates + extras
  }

  // ---------------------------------------------------------------------------
  // Vacations and attendance
  // ---------------------------------------------------------------------------

  datatype VacationInput = VacationInput(staffId: string, startDate: string, endDate: string, kind: string, reason: string)

  predicate VacationComplete(d: VacationInput) {
    d.staffId != "" && d.startDate != "" && d.endDate != "" && d.kind != "" && d.reason != ""
  }

  /** handleAddVacation's new request: the form's dates, kind and reason, the
      name of the first staff member with that id (or "" for an unknown id), a
      clock-derived id, and 'pending' with no approver. */
  function NewVacation(staffList: seq<Staff>, d: VacationInput, now: nat, today: string): (v: Vacation)
    ensures v.status == "pending" && v.requestDate == today && v.staffId == d.staffId
    ensures v.approvedBy == "" && v.approvedDate == ""
    ensures v.startDate == d.startDate && v.endDate == d.endDate && v.kind == d.kind && v.reason == d.reason
    ensures FindStaff(staffList, d.staffId).Some? ==> v.staffName == FindStaff(staffList, d.staffId).value.name
    ensures (forall i :: 0 <= i < |staffList| ==> staffList[i].id != d.staffId) ==> v.staffName == ""
  {
    var st := FindStaff(staffList, d.staffId);
    Vacation(NatToString(now), d.staffId, if st.Some? then st.value.name else "", d.startDate, d.endDate,
             d.kind, d.reason, "pending", today, "", "")
  }

  /** handleApproveVacation over the list. */
  function Decided(vacations: seq<Vacation>, id: string, approved: bool, today: string): (r: seq<Vacation>)
    ensures |r| == |vacations|
    ensures forall i :: 0 <= i < |r| && vacations[i].id != id ==> r[i] == vacations[i]
    ensures forall i :: 0 <= i < |r| && vacations[i].id == id ==>
              r[i] == vacations[i].(status := if approved then "approved" else "rejected",
                                    approvedBy := "매장장", approvedDate := today)
  {
    seq(|vacations|, i requires 0 <= i < |vacations| =>
      if vacations[i].id == id
      then vacations[i].(status := if approved then "approved" else "rejected", approvedBy := "매장장", approvedDate := today)
      else vacations[i])
  }

  predicate VacationStatusIs(v: Vacation, status: string) {
    v.status == status
  }

  function VacationIs(status: string): Vacation -> bool {
    v => VacationStatusIs(v, status)
  }

  /** Deciding never adds to the pending count. */
  lemma {:induction false} DecidedNeverPending(vacations: seq<Vacation>, id: string, approved: bool, today: string)
    ensures Count(Decided(vacations, id, approved, today), VacationIs("pending")) <= Count(vacations, VacationIs("pending"))
  {
    if vacations != [] {
      DecidedNeverPending(vacations[1..], id, approved, today);
      assert Decided(vacations, id, approved, today)[1..] == Decided(vacations[1..], id, approved, today);
    }
  }

  /** Deciding a pending request takes at least one off the pending count. */
  lemma {:induction false} DecidingLowersPending(vacations: seq<Vacation>, id: string, approved: bool, today: string, k: nat)
    requires k < |vacations| && vacations[k].id == id && vacations[k].status == "pending"
    ensures Count(Decided(vacations, id, approved, today), VacationIs("pending")) < Count(vacations, VacationIs("pending"))
  {
    var r := Decided(vacations, id, approved, today);
    assert r[1..] == Decided(vacations[1..], id, approved, today);
    if k == 0 {
      DecidedNeverPending(vacations[1..], id, approved, today);
    } else {
      DecidingLowersPending(vacations[1..], id, approved, today, k - 1);
    }
  }

  /** The attendance form after parsing: None is an empty time field. */
  datatype AttendanceInput = AttendanceInput(scheduleId: string, actualStart: Option<Clock>, actualEnd: Option<Clock>,
                                             status: string)

  function Keep(input: Option<Clock>, current: Option<Clock>): Option<Clock> {
    if input.Some? then input else current
  }

  /** handleUpdateAttendance over the list: empty times keep the recorded ones. */
  function Attended(schedules: seq<Schedule>, d: AttendanceInput): (r: seq<Schedule>)
    ensures |r| == |schedules|
    ensures forall i :: 0 <= i < |r| && schedules[i].id != d.scheduleId ==> r[i] == schedules[i]
    ensures forall i :: 0 <= i < |r| && schedules[i].id == d.scheduleId ==>
              r[i].status == d.status
              && (d.actualStart.None? ==> r[i].actualStart == schedules[i].actualStart)
              && (d.actualStart.Some? ==> r[i].actualStart == d.actualStart)
              && (d.actualEnd.None? ==> r[i].actualEnd == schedules[i].actualEnd)
              && (d.actualEnd.Some? ==> r[i].actualEnd == d.actualEnd)
              && r[i].breakTime == schedules[i].breakTime && r[i].staffId == schedules[i].staffId
    ensures forall i :: 0 <= i < |r| ==>
              r[i] == schedules[i].(status := r[i].status, actualStart := r[i].actualStart, actualEnd := r[i].actualEnd)
  {
    seq(|schedules|, i requires 0 <= i < |schedules| =>
      if schedules[i].id == d.scheduleId
      then schedules[i].(actualStart := Keep(d.actualStart, schedules[i].actualStart),
                         actualEnd := Keep(d.actualEnd, schedules[i].actualEnd), status := d.status)
      else schedules[i])
  }

  /** Recording both times and marking the shift completed pays it by the
      recorded times. */
  lemma AttendancePays(staffList: seq<Staff>, schedules: seq<Schedule>, d: AttendanceInput, i: nat)
    requires i < |schedules| && schedules[i].id == d.scheduleId
    requires d.actualStart.Some? && d.actualEnd.Some? && d.status == "completed"
    requires FindStaff(staffList, schedules[i].staffId).Some?
    ensures WorkMinutes(Attended(schedules, d)[i])
            == var span := Span(d.actualStart.value, d.actualEnd.value);
               if span <= schedules[i].breakTime then 0 else span - schedules[i].breakTime
    ensures Pay(staffList, Attended(schedules, d)[i])
            == RoundedPay(WorkMinutes(Attended(schedules, d)[i]), FindStaff(staffList, schedules[i].staffId).value.hourlyWage)
  {
  }

  /** The shifts the attendance form offers: today's, not yet completed or absent. */
  predicate Attendable(s: Schedule, today: string) {
    (s.status == "scheduled" || s.status == "confirmed" || s.status == "working") && s.date == today
  }

  function AttendanceChoices(schedules: seq<Schedule>, today: string): (r: seq<Schedule>)
    ensures forall s :: s in r <==> s in schedules && Attendable(s, today)
  {
    Filter(schedules, (s: Schedule) => Attendable(s, today))
  }

  // ---------------------------------------------------------------------------
  // The day view
  // ---------------------------------------------------------------------------

  /** getSchedulesForDate's test. */
  predicate ShownOn(s: Schedule, date: string, selectedStaff: string, searchTerm: string) {
    s.date == date && (selectedStaff == "all" || s.staffId == selectedStaff) && MatchesTerm(s.staffName, searchTerm)
  }

  function SchedulesForDate(schedules: seq<Schedule>, date: string, selectedStaff: string, searchTerm: string)
    : (r: seq<Schedule>)
    ensures forall s :: s in r <==> s in schedules && ShownOn(s, date, selectedStaff, searchTerm)
  {
    Filter(schedules, (s: Schedule) => ShownOn(s, date, selectedStaff, searchTerm))
  }

  /** With every staff member and no search term, the day view is every shift
      of that day. */
  lemma AllStaffNoSearch(schedules: seq<Schedule>, date: string)
    ensures forall s :: s in SchedulesForDate(schedules, date, "all", "") <==> s in schedules && s.date == date
  {
    forall s | s in schedules
      ensures ShownOn(s, date, "all", "") <==> s.date == date
    {
      EmptyTermMatches(s.staffName);
    }
  }

  // ---------------------------------------------------------------------------
  // The screen
  // ---------------------------------------------------------------------------

  class StaffSchedule {
    const staffList: seq<Staff>
    var schedules: seq<Schedule>
    var vacations: seq<Vacation>

    constructor (staffList: seq<Staff>, schedules: seq<Schedule>, vacations: seq<Vacation>)
      ensures this.staffList == staffList && this.schedules == schedules && this.vacations == vacations
    {
      this.staffList := staffList;
      this.schedules := schedules;
      this.vacations := vacations;
    }

    /** handleAddSchedule: staff, date and work type are required; the new
        shift goes last. */
    method AddSchedule(d: ScheduleInput, now: nat) returns (added: bool)
      modifies this`schedules
      ensures added <==> d.staffId != "" && d.date != "" && d.workType != ""
      ensures added ==> schedules == old(schedules) + [NewSchedule(staffList, d, now)]
      ensures !added ==> schedules == old(schedules)
    {
      if d.staffId == "" || d.date == "" || d.workType == "" {
        return false;
      }
      schedules := schedules + [NewSchedule(staffList, d, now)];
      added := true;
    }

    /** handleAddVacation: every field is required; the request starts pending. */
    method AddVacation(d: VacationInput, now: nat, today: string) returns (added: bool)
      modifies this`vacations
      ensures added <==> VacationComplete(d)
      ensures added ==> vacations == old(vacations) + [NewVacation(staffList, d, now, today)]
      ensures !added ==> vacations == old(vacations)
    {
      if !VacationComplete(d) {
        return false;
      }
      vacations := vacations + [NewVacation(staffList, d, now, today)];
      added := true;
    }

    /** handleUpdateAttendance: the shift and the status are required. */
    method UpdateAttendance(d: AttendanceInput) returns (updated: bool)
      modifies this`schedules
      ensures updated <==> d.scheduleId != "" && d.status != ""
      ensures updated ==> schedules == Attended(old(schedules), d)
      ensures !updated ==> schedules == old(schedules)
    {
      if d.scheduleId == "" || d.status == "" {
        return false;
      }
      schedules := Attended(schedules, d);
      updated := true;
    }

    method ApproveVacation(id: string, approved: bool, today: string)
      modifies this`vacations
      ensures vacations == Decided(old(vacations), id, approved, today)
    {
      vacations := Decided(vacations, id, approved, today);
    }
  }
}
