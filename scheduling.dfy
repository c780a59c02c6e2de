/**
  The deterministic parts of the scheduling agents: the fallback weekly schedule, the
  compilation of the agents' results (with day names normalised to indices in place), the
  fallback cost, the compliance keyword check and the employee filter for the agents' context.
*/
module Scheduling {
  import opened Wrappers
  import opened JsonData
  import opened Text

  /** An employee profile as the scheduling manager generates it. */
  datatype StaffMember = StaffMember(
    id: string, name: string, department: string, skills: seq<string>,
    hourlyWage: real, maxHoursPerWeek: nat, availability: map<string, bool>,
    preferredShift: string, performanceRating: real)

  datatype Slot = Morning | Evening {
    function Name(): string {
      match this
      case Morning => "morning"
      case Evening => "evening"
    }
    function Start(): string {
      match this
      case Morning => "08:00"
      case Evening => "14:00"
    }
    function End(): string {
      match this
      case Morning => "16:00"
      case Evening => "22:00"
    }
  }

  const Slots: seq<Slot> := [Morning, Evening]

  datatype Shift = Shift(
    id: string, day: int, department: string, employeeId: string, employeeName: string,
    startTime: string, endTime: string, hourlyWage: real, confidence: real, reason: string)
  {
    function ToRecord(): Record {
      map["id" := JStr(id), "day" := JInt(day), "department" := JStr(department),
          "employee_id" := JStr(employeeId), "employee_name" := JStr(employeeName),
          "start_time" := JStr(startTime), "end_time" := JStr(endTime),
          "hourly_wage" := JFloat(hourlyWage), "confidence" := JFloat(confidence),
          "reason" := JStr(reason)]
    }
  }

  const DefaultDepartments: seq<string> := ["Sales Floor", "Customer Service"]

  /** The departments scheduled: the requested ones, or else the manager's current ones, or else the two defaults. */
  function DepartmentsUsed(requested: seq<string>, current: Option<seq<string>>): (r: seq<string>)
    ensures requested != [] ==> r == requested
    ensures requested == [] && current.Some? ==> r == current.value
    ensures requested == [] && current.None? ==> r == DefaultDepartments
  {
    if requested != [] then requested else current.GetOr(DefaultDepartments)
  }

  /** The placeholder employee used when there are no employee profiles. */
  function DummyEmployee(day: nat, dept: string): StaffMember {
    StaffMember("emp_" + NatToString(day) + "_" + Take(dept, 3), "Employee " + NatToString(day),
                "", [], 20.0, 0, map[], "", 0.0)
  }

  function MakeShift(day: nat, dept: string, slot: Slot, emp: StaffMember): Shift {
    Shift("shift_" + NatToString(day) + "_" + ReplaceChar(dept, ' ', '_') + "_" + slot.Name(),
          day, dept, emp.id, emp.name, slot.Start(), slot.End(), emp.hourlyWage, 0.85,
          "AI-optimized shift for " + dept + " coverage")
  }

  /**
    The employee for the k-th shift: `random.choice` over the profiles, drawn by `choose`,
    or the placeholder when there are none.
  */
  function EmployeeFor(employees: seq<StaffMember>, choose: nat -> nat, k: nat, day: nat, dept: string): StaffMember {
    if employees != [] then employees[choose(k) % |employees|] else DummyEmployee(day, dept)
  }

  // The generation order of the fallback schedule: for each day, for each department, the
  // morning then the evening shift. `make(day, dept, slot, k)` builds the k-th shift generated.

  /** The first `s` shifts of a department on a day, when `base` shifts were generated before them. */
  function SlotRun<D, T>(make: (nat, D, Slot, nat) -> T, day: nat, dept: D, s: nat, base: nat): (r: seq<T>)
    requires s <= 2
    ensures |r| == s
  {
    if s == 0 then [] else SlotRun(make, day, dept, s - 1, base) + [make(day, dept, Slots[s - 1], base + s - 1)]
  }

  /** The shifts of the first j departments on a day, after `base` earlier shifts. */
  function DayRun<D, T>(depts: seq<D>, make: (nat, D, Slot, nat) -> T, day: nat, j: nat, base: nat): (r: seq<T>)
    requires j <= |depts|
    ensures |r| == 2 * j
  {
    if j == 0 then []
    else DayRun(depts, make, day, j - 1, base) + SlotRun(make, day, depts[j - 1], 2, base + 2 * (j - 1))
  }

  /** The shifts of the first `days` days of the week. */
  function WeekRun<D, T>(depts: seq<D>, make: (nat, D, Slot, nat) -> T, days: nat): seq<T> {
    if days == 0 then []
    else
      var prior := WeekRun(depts, make, days - 1);
      prior + DayRun(depts, make, days - 1, |depts|, |prior|)
  }

  /** The number of shifts generated before a day, `perDay` shifts a day. */
  function DayStart(perDay: nat, day: nat): nat {
    if day == 0 then 0 else DayStart(perDay, day - 1) + perDay
  }

  lemma {:induction false} DayStartIsProduct(perDay: nat, day: nat)
    ensures DayStart(perDay, day) == perDay * day
  {
    if day > 0 {
      DayStartIsProduct(perDay, day - 1);
      assert perDay * day == perDay * (day - 1) + perDay;
    }
  }

  lemma {:induction false} WeekRunLength<D, T>(depts: seq<D>, make: (nat, D, Slot, nat) -> T, days: nat)
    ensures |WeekRun(depts, make, days)| == DayStart(2 * |depts|, days)
  {
    if days > 0 {
      WeekRunLength(depts, make, days - 1);
    }
  }

  lemma {:induction false} DayRunIndex<D, T>(depts: seq<D>, make: (nat, D, Slot, nat) -> T, day: nat, n: nat, base: nat, j: nat, s: nat)
    requires j < n <= |depts| && s < 2
    ensures DayRun(depts, make, day, n, base)[2 * j + s] == make(day, depts[j], Slots[s], base + 2 * j + s)
  {
    if j < n - 1 {
      DayRunIndex(depts, make, day, n - 1, base, j, s);
    } else {
      assert SlotRun(make, day, depts[j], 1, base + 2 * j)[0] == make(day, depts[j], Slots[0], base + 2 * j);
    }
  }

  lemma {:induction false} DayStartMonotone(perDay: nat, day: nat, days: nat)
    requires day < days
    ensures DayStart(perDay, day) + perDay <= DayStart(perDay, days)
    decreases days
  {
    if day < days - 1 {
      DayStartMonotone(perDay, day, days - 1);
    }
  }

  /** Shift `2 * j + s` of a day comes after all the shifts of the earlier days. */
  lemma {:induction false} WeekRunIndex<D, T>(depts: seq<D>, make: (nat, D, Slot, nat) -> T, days: nat, day: nat, j: nat, s: nat, k: nat)
    requires day < days && j < |depts| && s < 2 && k == DayStart(2 * |depts|, day) + 2 * j + s
    ensures k < |WeekRun(depts, make, days)| && WeekRun(depts, make, days)[k] == make(day, depts[j], Slots[s], k)
  {
    if day < days - 1 {
      var prior := WeekRun(depts, make, days - 1);
      var today := DayRun(depts, make, days - 1, |depts|, |prior|);
      WeekRunIndex(depts, make, days - 1, day, j, s, k);
      assert WeekRun(depts, make, days) == prior + today;
      assert (prior + today)[k] == prior[k];
    } else {
      LastDayIndex(depts, make, days, j, s, k);
    }
  }

  lemma AppendIndex<T>(a: seq<T>, b: seq<T>, i: nat, k: nat)
    requires i < |b| && k == |a| + i
    ensures k < |a + b| && (a + b)[k] == b[i]
  {
  }

  /** Shift `2 * j + s` of the last day follows the shifts of all the days before it. */
  lemma LastDayIndex<D, T>(depts: seq<D>, make: (nat, D, Slot, nat) -> T, days: nat, j: nat, s: nat, k: nat)
    requires 0 < days && j < |depts| && s < 2 && k == DayStart(2 * |depts|, days - 1) + 2 * j + s
    ensures k < |WeekRun(depts, make, days)| && WeekRun(depts, make, days)[k] == make(days - 1, depts[j], Slots[s], k)
  {
    var prior := WeekRun(depts, make, days - 1);
    WeekRunLength(depts, make, days - 1);
    var base := |prior|;
    var today := DayRun(depts, make, days - 1, |depts|, base);
    DayRunIndex(depts, make, days - 1, |depts|, base, j, s);
    assert |today| == 2 * |depts| && 2 * j + s < |today|;
    assert base + 2 * j + s == k;
    assert WeekRun(depts, make, days) == prior + today;
    AppendIndex(prior, today, 2 * j + s, k);
  }

  /** Every element of a week is made for one of its days, one of its departments and a slot. */
  lemma {:induction false} WeekRunMembers<D, T>(depts: seq<D>, make: (nat, D, Slot, nat) -> T, days: nat, x: T)
      returns (day: nat, dept: D, slot: Slot, k: nat)
    requires x in WeekRun(depts, make, days)
    ensures day < days && dept in depts && x == make(day, dept, slot, k)
  {
    var prior := WeekRun(depts, make, days - 1);
    var today := DayRun(depts, make, days - 1, |depts|, |prior|);
    assert WeekRun(depts, make, days) == prior + today;
    if x in prior {
      day, dept, slot, k := WeekRunMembers(depts, make, days - 1, x);
    } else {
      assert x in today;
      day := days - 1;
      dept, slot, k := DayRunMembers(depts, make, days - 1, |depts|, |prior|, x);
    }
  }

  lemma {:induction false} DayRunMembers<D, T>(depts: seq<D>, make: (nat, D, Slot, nat) -> T, day: nat, n: nat, base: nat, x: T)
      returns (dept: D, slot: Slot, k: nat)
    requires n <= |depts| && x in DayRun(depts, make, day, n, base)
    ensures dept in depts && x == make(day, dept, slot, k)
  {
    var prior := DayRun(depts, make, day, n - 1, base);
    if x in prior {
      dept, slot, k := DayRunMembers(depts, make, day, n - 1, base, x);
    } else {
      var slots := SlotRun(make, day, depts[n - 1], 2, base + 2 * (n - 1));
      assert SlotRun(make, day, depts[n - 1], 1, base + 2 * (n - 1)) == [make(day, depts[n - 1], Slots[0], base + 2 * (n - 1))];
      dept := depts[n - 1];
      if x == slots[0] {
        slot, k := Slots[0], base + 2 * (n - 1);
      } else {
        assert x == slots[1];
        slot, k := Slots[1], base + 2 * (n - 1) + 1;
      }
    }
  }

  /**
    The three nested loops of `_generate_fallback_schedule`: for each day of the week, for each
    department, the morning and then the evening shift, the k-th one built by `make`.
  */
  method GenerateWeek<D, T>(departments: seq<D>, make: (nat, D, Slot, nat) -> T) returns (shifts: seq<T>)
    ensures shifts == WeekRun(departments, make, 7)
    ensures |shifts| == 14 * |departments|
  {
    shifts := [];
    var day := 0;
    while day < 7
      invariant 0 <= day <= 7
      invariant shifts == WeekRun(departments, make, day)
    {
      ghost var week := shifts;
      var j := 0;
      while j < |departments|
        invariant 0 <= j <= |departments|
        invariant shifts == week + DayRun(departments, make, day, j, |week|)
      {
        var dept := departments[j];
        ghost var done := shifts;
        var s := 0;
        while s < 2
          invariant 0 <= s <= 2
          invariant shifts == done + SlotRun(make, day, dept, s, |done|)
        {
          shifts := shifts + [make(day, dept, Slots[s], |shifts|)];
          s := s + 1;
        }
        j := j + 1;
      }
      day := day + 1;
    }
    WeekRunLength(departments, make, 7);
    DayStartIsProduct(2 * |departments|, 7);
  }

  /** The k-th fallback shift: `random.choice`'s k-th draw, or the placeholder, for the department and slot. */
  function FallbackShift(employees: seq<StaffMember>, choose: nat -> nat): (nat, string, Slot, nat) -> Shift {
    (day: nat, dept: string, slot: Slot, k: nat) => MakeShift(day, dept, slot, EmployeeFor(employees, choose, k, day, dept))
  }

  /** The fallback week of `_generate_fallback_schedule` for the given departments. */
  function FallbackWeek(depts: seq<string>, employees: seq<StaffMember>, choose: nat -> nat): seq<Shift> {
    WeekRun(depts, FallbackShift(employees, choose), 7)
  }

  /**
    The week is ordered by day, then department, then morning before evening: the shift of
    department j in slot s on a day is the `2 * |depts| * day + 2 * j + s`-th one generated,
    its id names them, and its employee is the draw for that position.
  */
  lemma FallbackOrder(depts: seq<string>, employees: seq<StaffMember>, choose: nat -> nat, day: nat, j: nat, s: nat)
    requires day < 7 && j < |depts| && s < 2
    ensures var week := FallbackWeek(depts, employees, choose);
            var k := 2 * |depts| * day + 2 * j + s;
            var emp := EmployeeFor(employees, choose, k, day, depts[j]);
            && k < |week|
            && week[k].day == day && week[k].department == depts[j]
            && week[k].startTime == Slots[s].Start() && week[k].endTime == Slots[s].End()
            && week[k].id == "shift_" + NatToString(day) + "_" + ReplaceChar(depts[j], ' ', '_') + "_" + Slots[s].Name()
            && week[k].employeeId == emp.id && week[k].hourlyWage == emp.hourlyWage
  {
    var make := FallbackShift(employees, choose);
    var k := 2 * |depts| * day + 2 * j + s;
    DayStartIsProduct(2 * |depts|, day);
    WeekRunIndex(depts, make, 7, day, j, s, k);
    assert FallbackWeek(depts, employees, choose)[k]
        == MakeShift(day, depts[j], Slots[s], EmployeeFor(employees, choose, k, day, depts[j]));
  }

  /** Every fallback shift falls on a day 0..6, in a requested department, morning 08-16 or evening 14-22. */
  lemma FallbackShape(depts: seq<string>, employees: seq<StaffMember>, choose: nat -> nat, x: Shift)
    requires x in FallbackWeek(depts, employees, choose)
    ensures 0 <= x.day < 7 && x.department in depts && x.confidence == 0.85
    ensures (x.startTime == "08:00" && x.endTime == "16:00") || (x.startTime == "14:00" && x.endTime == "22:00")
  {
    var make := FallbackShift(employees, choose);
    var day, dept, slot, k := WeekRunMembers(depts, make, 7, x);
  }

  datatype FallbackSchedule = FallbackSchedule(shifts: seq<Shift>, totalShifts: nat, coverageScore: real)

  datatype EmployeeSummary = EmployeeSummary(
    id: string, name: string, department: string, skills: seq<string>,
    hourlyWage: real, maxHours: nat, availability: map<string, bool>)

  /** An employee is relevant to a request when their department or one of their skills is requested. */
  predicate Relevant(emp: StaffMember, departments: seq<string>) {
    emp.department in departments || exists d :: d in departments && d in emp.skills
  }

  function RelevantAll(employees: seq<StaffMember>, departments: seq<string>): (r: seq<StaffMember>)
    ensures |r| <= |employees|
    ensures forall e :: e in r ==> e in employees && Relevant(e, departments)
    ensures forall e :: e in employees && Relevant(e, departments) ==> e in r
  {
    if employees == [] then []
    else (if Relevant(employees[0], departments) then [employees[0]] else []) + RelevantAll(employees[1..], departments)
  }

  /** Relevance is decided employee by employee, so the relevant ones keep their input order. */
  lemma {:induction false} RelevantAllAppend(a: seq<StaffMember>, b: seq<StaffMember>, departments: seq<string>)
    ensures RelevantAll(a + b, departments) == RelevantAll(a, departments) + RelevantAll(b, departments)
  {
    if a == [] {
      assert a + b == b;
    } else {
      assert (a + b)[0] == a[0];
      assert (a + b)[1..] == a[1..] + b;
      RelevantAllAppend(a[1..], b, departments);
    }
  }

  function Summary(emp: StaffMember): EmployeeSummary {
    EmployeeSummary(emp.id, emp.name, emp.department, emp.skills, emp.hourlyWage,
                    emp.maxHoursPerWeek, emp.availability)
  }

  /** `SchedulingAgentsManager`: the employee profiles and the departments of the current request. */
  class SchedulingManager {
    var employees: seq<StaffMember>
    /** `current_departments`, absent until the first optimisation request sets it. */
    var currentDepartments: Option<seq<string>>

    constructor (profiles: seq<StaffMember>)
      ensures employees == profiles && currentDepartments.None?
    {
      employees := profiles;
      currentDepartments := None;
    }

    /** The first request records its departments (the other steps of `optimize_schedule` are not modelled). */
    method SetCurrentDepartments(departments: seq<string>)
      modifies this
      ensures currentDepartments == Some(departments) && employees == old(employees)
    {
      currentDepartments := Some(departments);
    }

    /**
      `_generate_fallback_schedule`: two shifts per department and day over a week; `choose`
      stands for `random.choice`'s draw for the k-th shift.
    */
    method GenerateFallbackSchedule(requested: seq<string>, choose: nat -> nat) returns (r: FallbackSchedule)
      ensures var depts := DepartmentsUsed(requested, currentDepartments);
              && |r.shifts| == 14 * |depts|
              && r.shifts == FallbackWeek(depts, employees, choose)
      ensures r.totalShifts == |r.shifts| && r.coverageScore == 0.85
    {
      var departments := requested;
      if departments == [] {
        departments := currentDepartments.GetOr(DefaultDepartments);
      }
      var shifts := GenerateWeek(departments, FallbackShift(employees, choose));
      r := FallbackSchedule(shifts, |shifts|, 0.85);
    }

    /**
      The employee filter of `_prepare_employee_context`: the first ten relevant profiles, in
      order, summarised (the JSON rendering is not modelled).
    */
    method PrepareEmployeeContext(departments: seq<string>) returns (summary: seq<EmployeeSummary>)
      ensures var relevant := Take(RelevantAll(employees, departments), 10);
              |summary| == |relevant| <= 10 && forall i :: 0 <= i < |summary| ==> summary[i] == Summary(relevant[i])
    {
      var relevant := Take(RelevantAll(employees, departments), 10);
      summary := MapSeq(relevant, Summary);
    }
  }

  // ---------------------------------------------------------------- compiling results

  const DayNames: seq<string> := ["monday", "tuesday", "wednesday", "thursday", "friday", "saturday", "sunday"]

  /** `days.index(name) if name in days else 0`. */
  function DayIndex(name: string): (r: nat)
    ensures r < 7
    ensures name in DayNames ==> DayNames[r] == name
    ensures name !in DayNames ==> r == 0
  {
    if name == "monday" then 0 else if name == "tuesday" then 1 else if name == "wednesday" then 2
    else if name == "thursday" then 3 else if name == "friday" then 4 else if name == "saturday" then 5
    else if name == "sunday" then 6 else 0
  }

  /** A missing or textual `day` becomes a day index; any other value is left as it is. */
  function NormalizeDay(shift: Record): (r: Record)
    ensures r.Keys == shift.Keys + {"day"}
    ensures forall key :: key in shift && key != "day" ==> r[key] == shift[key]
    ensures "day" !in shift ==> r["day"] == JInt(0)
    ensures "day" in shift && shift["day"].JStr? ==> r["day"] == JInt(DayIndex(Lower(shift["day"].s)))
    ensures "day" in shift && !shift["day"].JStr? ==> r == shift
  {
    if "day" !in shift then shift["day" := JInt(DayIndex(Lower("monday")))]
    else if shift["day"].JStr? then shift["day" := JInt(DayIndex(Lower(shift["day"].s)))]
    else shift
  }

  datatype Compliance = Compliance(violations: seq<Record>, complianceScore: real, status: string)

  const ComplianceIssue: Record :=
    map["type" := JStr("compliance_issue"), "severity" := JStr("medium"),
        "description" := JStr("Potential compliance concern identified")]

  /** `_extract_compliance_data`. */
  function ExtractCompliance(response: string): (r: Compliance)
    ensures |r.violations| == 1 <==> Contains(Lower(response), "violation") || Contains(Lower(response), "issue")
    ensures |r.violations| <= 1
    ensures r.status == "compliant" <==> r.violations == []
    ensures r.status == "compliant" || r.status == "issues_found"
    ensures r.complianceScore == (if r.violations == [] then 0.95 else 0.85)
  {
    var lowered := Lower(response);
    var violations := if Contains(lowered, "violation") || Contains(lowered, "issue") then [ComplianceIssue] else [];
    Compliance(violations, if violations == [] then 0.95 else 0.85,
               if violations == [] then "compliant" else "issues_found")
  }

  function ComplianceToJson(c: Compliance): Record {
    map["violations" := JArray(seq(|c.violations|, i requires 0 <= i < |c.violations| => JObject(c.violations[i]))),
        "compliance_score" := JFloat(c.complianceScore), "status" := JStr(c.status)]
  }

  /** `[v['description'] for v in violations]`. */
  function Descriptions(violations: seq<Json>): (r: Result<seq<Json>>)
    ensures r.Ok? ==> |r.value| == |violations|
    ensures r.Ok? <==> forall i :: 0 <= i < |violations| ==> violations[i].JObject? && "description" in violations[i].fields
    ensures r.Ok? ==> forall i :: 0 <= i < |violations| ==> r.value[i] == violations[i].fields["description"]
  {
    if violations == [] then Ok([])
    else
      var v := violations[0];
      if !v.JObject? then Err(TypeError)
      else if "description" !in v.fields then Err(KeyError("description"))
      else
        var rest := Descriptions(violations[1..]);
        if rest.Err? then rest else Ok([v.fields["description"]] + rest.value)
  }

  const NoRisks: seq<Json> := [JStr("No significant risks identified")]

  /**
    The `risks` of the compiled result: the descriptions of the violations, or the single
    sentence when there are none; iterating a truthy non-list raises TypeError.
  */
  function Risks(compliance: Record): (r: Result<seq<Json>>)
    ensures "violations" !in compliance ==> r == Ok(NoRisks)
    ensures "violations" in compliance && !Truthy(compliance["violations"]) ==> r == Ok(NoRisks)
    ensures "violations" in compliance && compliance["violations"].JArray? ==>
              r == (if compliance["violations"].items == [] then Ok(NoRisks) else Descriptions(compliance["violations"].items))
    ensures "violations" in compliance && Truthy(compliance["violations"]) && !compliance["violations"].JArray? ==>
              r == Err(TypeError)
  {
    if "violations" !in compliance || !Truthy(compliance["violations"]) then Ok(NoRisks)
    else match compliance["violations"]
      case JArray(items) => Descriptions(items)
      case _ => Err(TypeError)
  }

  /** The compliance data of the agent never yields a risk error, and its risks are its violations' descriptions. */
  lemma ExtractedRisks(response: string)
    ensures var c := ExtractCompliance(response);
            Risks(ComplianceToJson(c)) == Ok(if c.violations == [] then NoRisks else [JStr("Potential compliance concern identified")])
  {
    var c := ExtractCompliance(response);
    var items := seq(|c.violations|, i requires 0 <= i < |c.violations| => JObject(c.violations[i]));
    if c.violations != [] {
      assert items == [JObject(ComplianceIssue)];
      assert ComplianceToJson(c)["violations"] == JArray(items);
      assert "description" in ComplianceIssue;
      var single := [JObject(ComplianceIssue)];
      assert single[1..] == [];
      assert [ComplianceIssue["description"]] + [] == [JStr("Potential compliance concern identified")];
      assert Descriptions(single) == Ok([JStr("Potential compliance concern identified")]);
      assert Truthy(JArray(items));
    } else {
      assert items == [];
    }
  }

  datatype CompiledResult = CompiledResult(
    optimizationId: string, demandForecast: Record, shifts: seq<Record>, totalShifts: nat,
    totalCost: Json, costSavings: Json, coverageScore: Json, employeeSatisfaction: Json,
    qualityScore: Json, complianceStatus: Record, recommendations: Json, risks: seq<Json>)

  /** Each shift record with its `day` normalised: the in-place effect of compilation. */
  function NormalizeDays(shifts: seq<Record>): (r: seq<Record>)
    ensures |r| == |shifts|
    ensures forall i :: 0 <= i < |shifts| ==> r[i] == NormalizeDay(shifts[i])
  {
    seq(|shifts|, i requires 0 <= i < |shifts| => NormalizeDay(shifts[i]))
  }

  /** The loop of `_compile_final_results` that rewrites each shift's `day` in place. */
  method NormalizeShiftDays(shifts: array<Record>)
    modifies shifts
    ensures shifts[..] == NormalizeDays(old(shifts[..]))
  {
    MapInPlace(shifts, NormalizeDay);
  }

  /**
    `_compile_final_results` on the shift list taken from the schedule data: every shift's
    `day` is rewritten in place, then the result is assembled; `stamp` is the clock-based id.
  */
  method CompileFinalResults(demand: Record, shifts: array<Record>, schedule: Record, cost: Record,
                             compliance: Record, quality: Record, stamp: string) returns (r: Result<CompiledResult>)
    modifies shifts
    ensures shifts[..] == NormalizeDays(old(shifts[..]))
    ensures r.Ok? <==> Risks(compliance).Ok?
    ensures r.Ok? ==> && r.value.shifts == shifts[..] && r.value.totalShifts == shifts.Length
                      && r.value.risks == Risks(compliance).value
                      && r.value.totalCost == Get(cost, "total_cost", JInt(10000))
                      && r.value.costSavings == Get(cost, "total_savings", JInt(1000))
                      && r.value.coverageScore == Get(schedule, "coverage_score", JFloat(0.85))
                      && r.value.employeeSatisfaction == Get(quality, "satisfaction_score", JFloat(0.85))
                      && r.value.qualityScore == Get(quality, "quality_score", JFloat(7.5))
    ensures r.Ok? ==> && r.value.optimizationId == "ai_opt_" + stamp && r.value.demandForecast == demand
                      && r.value.complianceStatus == compliance
                      && r.value.recommendations == Get(quality, "recommendations", JArray([]))
  {
    NormalizeShiftDays(shifts);
    var risks :- Risks(compliance);
    r := Ok(CompiledResult(
      "ai_opt_" + stamp, demand, shifts[..], shifts.Length,
      Get(cost, "total_cost", JInt(10000)), Get(cost, "total_savings", JInt(1000)),
      Get(schedule, "coverage_score", JFloat(0.85)), Get(quality, "satisfaction_score", JFloat(0.85)),
      Get(quality, "quality_score", JFloat(7.5)), compliance,
      Get(quality, "recommendations", JArray([])), risks));
  }

  /** Normalising twice changes nothing more: every day it leaves is an integer. */
  lemma NormalizeDayIdempotent(shift: Record)
    ensures NormalizeDay(NormalizeDay(shift)) == NormalizeDay(shift)
  {
    var once := NormalizeDay(shift);
    assert "day" in once && !once["day"].JStr?;
  }

  /** A textual day is mapped to its position in the week regardless of letter case. */
  lemma NormalizeDayName(shift: Record, name: string, k: nat)
    requires k < 7 && Lower(name) == DayNames[k]
    ensures NormalizeDay(shift["day" := JStr(name)])["day"] == JInt(k)
  {
  }

  // ---------------------------------------------------------------- cost

  datatype CostAnalysis = CostAnalysis(totalCost: int, overtimeCost: real, totalSavings: int, costPerCustomer: real)

  /** `_generate_fallback_cost` for a schedule with `shiftCount` shifts: 8 hours at 20 per shift. */
  function FallbackCost(shiftCount: nat): (r: CostAnalysis)
    ensures r.totalCost == 160 * shiftCount
    ensures r.overtimeCost == (r.totalCost as real) / 10.0
    ensures r.totalSavings == 1000 && r.costPerCustomer == 1.5
  {
    var totalHours := shiftCount * 8;
    var avgWage := 20;
    CostAnalysis(totalHours * avgWage, (totalHours * avgWage) as real * 0.1, 1000, 1.5)
  }

  /** `len(schedule_data.get('shifts', []))`, which raises TypeError on a value without a length. */
  function ShiftCount(schedule: Record): (r: Result<nat>)
    ensures "shifts" !in schedule ==> r == Ok(0)
    ensures "shifts" in schedule && schedule["shifts"].JArray? ==> r == Ok(|schedule["shifts"].items|)
    ensures "shifts" in schedule && schedule["shifts"].JStr? ==> r == Ok(|schedule["shifts"].s|)
    ensures "shifts" in schedule && schedule["shifts"].JObject? ==> r == Ok(|schedule["shifts"].fields.Keys|)
    ensures r.Err? <==> "shifts" in schedule && !(schedule["shifts"].JArray? || schedule["shifts"].JStr? || schedule["shifts"].JObject?)
    ensures r.Err? ==> r.error == TypeError
  {
    if "shifts" !in schedule then Ok(0)
    else match schedule["shifts"]
      case JArray(items) => Ok(|items|)
      case JStr(s) => Ok(|s|)
      case JObject(fields) => Ok(|fields.Keys|)
      case _ => Err(TypeError)
  }

  /** The fallback cost of the fallback schedule is 160 per shift, 2240 per department. */
  lemma FallbackScheduleCost(depts: seq<string>)
    ensures FallbackCost(14 * |depts|).totalCost == 2240 * |depts|
  {
  }
}
