/**
  The deterministic rules of the synthetic retail data generator: the career ladder and
  career tracks, the demo scenarios, how many days and which hours an employee works,
  the demand staffing floor and holidays, and the retention-risk score of each employee.
  Every random draw is a parameter: `random.choice(xs)` is `xs[pick % |xs|]` for a given
  `pick`, and `random.uniform` a given real.
*/
module DataGenerator {
  import opened Wrappers
  import opened JsonData
  import opened Text
  import opened Calendar

  /** `random.choice(xs)` for the draw `pick`. */
  function Choice<T>(xs: seq<T>, pick: nat): (r: T)
    requires xs != []
    ensures r in xs
  {
    xs[pick % |xs|]
  }

  // ------------------------------------------------------------------ careers

  /** `sub` occurs in `s` at position `i`. */
  lemma {:induction false} ContainsAt(s: string, sub: string, i: nat)
    requires i + |sub| <= |s| && s[i..i + |sub|] == sub
    ensures Contains(s, sub)
    decreases i
  {
    if i > 0 {
      assert s[1..][i - 1..i - 1 + |sub|] == s[i..i + |sub|];
      ContainsAt(s[1..], sub, i - 1);
    }
  }

  /** `_get_next_role`. */
  function NextRole(role: string, department: string): (r: string)
    ensures Contains(role, "Associate") && !Contains(role, "Senior") ==> r == "Senior " + role
    ensures Contains(role, "Senior") ==> r == department + " Lead"
    ensures !Contains(role, "Senior") && !Contains(role, "Associate") && Contains(role, "Lead") ==> r == department + " Manager"
    ensures !Contains(role, "Senior") && !Contains(role, "Associate") && !Contains(role, "Lead") ==> r == "Store Manager"
  {
    if Contains(role, "Associate") && !Contains(role, "Senior") then "Senior " + role
    else if Contains(role, "Senior") then department + " Lead"
    else if Contains(role, "Lead") then department + " Manager"
    else "Store Manager"
  }

  /** An associate is promoted to senior, and a senior then to lead of the department. */
  lemma AssociateLadder(role: string, department: string)
    requires Contains(role, "Associate") && !Contains(role, "Senior")
    ensures NextRole(role, department) == "Senior " + role
    ensures NextRole(NextRole(role, department), department) == department + " Lead"
  {
    var senior := "Senior " + role;
    assert senior[0..|"Senior"|] == "Senior";
    ContainsAt(senior, "Senior", 0);
  }

  const CareerTracks: map<string, string> := map[
    "Sales Floor" := "Sales Management",
    "Customer Service" := "Customer Experience",
    "Inventory" := "Operations Management",
    "Electronics" := "Technology Specialist",
    "Clothing" := "Fashion Merchandising",
    "Home & Garden" := "Category Management",
    "Pharmacy" := "Healthcare Services",
    "Grocery" := "Food Service Management",
    "Deli" := "Food Service Management",
    "Bakery" := "Culinary Arts"]

  /** `_get_career_track`: `tracks.get(department, 'General Management')`. */
  function CareerTrack(department: string): (r: string)
    ensures department in CareerTracks ==> r == CareerTracks[department]
    ensures department !in CareerTracks ==> r == "General Management"
  {
    if department in CareerTracks then CareerTracks[department] else "General Management"
  }

  /** Grocery and Deli lead to the same track; any department outside the table gets the general one. */
  lemma CareerTrackFacts(department: string)
    ensures CareerTrack("Grocery") == CareerTrack("Deli") == "Food Service Management"
    ensures department !in CareerTracks ==> CareerTrack(department) == "General Management"
    ensures CareerTrack(department) == "General Management" || CareerTrack(department) in CareerTracks.Values
  {
  }

  // ------------------------------------------------------------------ demo scenarios

  /** A dict literal: its keys and values in the order written. */
  type Entries = seq<(string, Json)>

  datatype Scenario = BlackFridayRush | StaffShortageResponse | PredictiveSchedule

  /** The scenario a request names, if it is one of the three known ones. */
  function ScenarioNamed(scenarioType: string): (r: Option<Scenario>)
    ensures r == Some(BlackFridayRush) <==> scenarioType == "black_friday"
    ensures r == Some(StaffShortageResponse) <==> scenarioType == "staff_shortage"
    ensures r == Some(PredictiveSchedule) <==> scenarioType == "predictive_scheduling"
  {
    if scenarioType == "black_friday" then Some(BlackFridayRush)
    else if scenarioType == "staff_shortage" then Some(StaffShortageResponse)
    else if scenarioType == "predictive_scheduling" then Some(PredictiveSchedule)
    else None
  }

  /** The data of each known scenario, as the dict literal lists it. */
  function ScenarioData(sc: Scenario): Entries {
    match sc
    case BlackFridayRush =>
      [("scenario", JStr("Black Friday Rush Hour")),
       ("description", JStr("Real-time response to 3x customer surge")),
       ("date_range", JStr("2024-11-29")),
       ("current_traffic", JInt(450)),
       ("surge_traffic", JInt(1350)),
       ("departments_affected", JArray([JStr("Electronics"), JStr("Sales Floor"), JStr("Checkout")])),
       ("actions", JArray([JStr("Detecting surge via POS transactions"),
                            JStr("Analyzing customer patterns with Spark"),
                            JStr("ML predicting 2-hour peak duration"),
                            JStr("Reallocating 5 staff from stockroom"),
                            JStr("Opening 3 additional checkout lanes")])),
       ("expected_savings", JInt(2400)),
       ("wait_time_reduction", JInt(8))]
    case StaffShortageResponse =>
      [("scenario", JStr("Staff Shortage Response")),
       ("description", JStr("3 employees called out - real-time reallocation")),
       ("affected_departments", JArray([JStr("Customer Service"), JStr("Electronics")])),
       ("missing_staff", JInt(3)),
       ("actions", JArray([JStr("Alert received via attendance system"),
                            JStr("ML analyzing coverage requirements"),
                            JStr("Identifying available cross-trained staff"),
                            JStr("Adjusting break schedules automatically"),
                            JStr("Notifying managers of changes")])),
       ("coverage_maintained", JBool(true)),
       ("overtime_avoided", JInt(6))]
    case PredictiveSchedule =>
      [("scenario", JStr("Next Week Optimization")),
       ("description", JStr("ML-driven schedule generation for optimal coverage")),
       ("forecast_period", JStr("7 days")),
       ("predicted_patterns", JObject(map[
          "Monday" := JStr("Normal traffic - 450 customers"),
          "Tuesday" := JStr("Low traffic - 320 customers"),
          "Wednesday" := JStr("Promotion day - 680 customers"),
          "Thursday" := JStr("Normal traffic - 480 customers"),
          "Friday" := JStr("High traffic - 720 customers"),
          "Saturday" := JStr("Peak traffic - 950 customers"),
          "Sunday" := JStr("Moderate traffic - 550 customers")])),
       ("optimization_metrics", JObject(map[
          "labor_cost_saved" := JInt(3200),
          "coverage_score" := JInt(94),
          "employee_satisfaction" := JInt(87)]))]
  }

  /** `generate_demo_scenario_data`: `{}` for any name but the three known ones. */
  function DemoScenario(scenarioType: string): (r: Entries)
    ensures ScenarioNamed(scenarioType).Some? ==> r == ScenarioData(ScenarioNamed(scenarioType).value)
    ensures ScenarioNamed(scenarioType).None? ==> r == []
  {
    var named := ScenarioNamed(scenarioType);
    if named.None? then [] else ScenarioData(named.value)
  }

  /** The black-friday dict has nine fields, and the first one names the scenario. */
  lemma BlackFridayFields()
    ensures |ScenarioData(BlackFridayRush)| == 9
    ensures ScenarioData(BlackFridayRush)[0] == ("scenario", JStr("Black Friday Rush Hour"))
  {
  }

  /** The staff-shortage dict has seven fields, and the first one names the scenario. */
  lemma StaffShortageFields()
    ensures |ScenarioData(StaffShortageResponse)| == 7
    ensures ScenarioData(StaffShortageResponse)[0] == ("scenario", JStr("Staff Shortage Response"))
  {
  }

  /** The predictive-scheduling dict has five fields, and the first one names the scenario. */
  lemma PredictiveScheduleFields()
    ensures |ScenarioData(PredictiveSchedule)| == 5
    ensures ScenarioData(PredictiveSchedule)[0] == ("scenario", JStr("Next Week Optimization"))
  {
  }

  /** Any name but the three known ones gets no data. */
  lemma UnknownScenarioIsEmpty(scenarioType: string)
    requires scenarioType != "black_friday" && scenarioType != "staff_shortage"
    requires scenarioType != "predictive_scheduling"
    ensures DemoScenario(scenarioType) == []
  {
  }

  // ------------------------------------------------------------------ schedules

  /** An employee as `generate_employees` creates one, with the fields the other generators read. */
  datatype Employee = Employee(
    employeeId: string, department: string, availabilityHours: int,
    performance: real, satisfaction: real, tenureDays: int, hourlyWage: real, overtimeHours: int)

  /** How many days a week an employee with the given weekly availability works. */
  function DaysPerWeek(availability: int): (d: nat)
    ensures 2 <= d <= 5
    ensures d == 5 <==> availability == 40
    ensures availability != 40 && availability >= 30 ==> d == 4
    ensures 20 <= availability < 30 ==> d == 3
    ensures availability < 20 ==> d == 2
  {
    if availability == 40 then 5
    else if availability >= 30 then 4
    else if availability >= 20 then 3
    else 2
  }

  /**
    Up to a full 40-hour week, more availability never means fewer working days. Above 40 the
    rule no longer holds: 45 hours give 4 days where 40 give 5.
  */
  lemma MoreAvailabilityNeverFewerDays(a: int, b: int)
    requires a <= b <= 40
    ensures DaysPerWeek(a) <= DaysPerWeek(b)
  {
  }

  predicate Distinct(xs: seq<nat>) {
    forall a, b :: 0 <= a < b < |xs| ==> xs[a] != xs[b]
  }

  /**
    `random.sample(range(7), k)` as the pool method of CPython draws it: `draws[i]` is the
    `i`-th result of `randbelow`, taken modulo the shrinking pool size. The chosen days are
    distinct weekday offsets.
  */
  method SampleDays(k: nat, draws: seq<nat>) returns (days: seq<nat>)
    requires k <= 7 && |draws| >= k
    ensures |days| == k
    ensures Distinct(days)
    ensures forall i :: 0 <= i < |days| ==> days[i] < 7
  {
    var pool: seq<nat> := [0, 1, 2, 3, 4, 5, 6];
    days := [];
    var i := 0;
    while i < k
      invariant 0 <= i <= k
      invariant |days| == i && |pool| == 7 - i
      invariant Distinct(days) && Distinct(pool)
      invariant forall a, b :: 0 <= a < |days| && 0 <= b < |pool| ==> days[a] != pool[b]
      invariant forall a :: 0 <= a < |days| ==> days[a] < 7
      invariant forall b :: 0 <= b < |pool| ==> pool[b] < 7
    {
      var n := |pool|;
      var j := draws[i] % n;
      var x := pool[j];
      var rest := pool[j := pool[n - 1]][..n - 1];
      assert forall b :: 0 <= b < |rest| ==> rest[b] == (if b == j then pool[n - 1] else pool[b]);
      assert forall b :: 0 <= b < |rest| ==> rest[b] != x;
      days := days + [x];
      pool := rest;
      i := i + 1;
    }
  }

  /** The start hours `random.choice` picks from for a department's shifts. */
  function StartHours(department: string): (hours: seq<nat>)
    ensures hours != []
    ensures forall h :: h in hours ==> 7 <= h <= 16
  {
    if department in ["Pharmacy", "Customer Service"] then [7, 8, 9, 10, 14]
    else if department in ["Electronics", "Sales Floor"] then [9, 10, 11, 12, 15, 16]
    else [8, 9, 10, 11, 13, 14]
  }

  /** `8 if availability == 40 else random.choice([6, 7, 8])`. */
  function ShiftLength(availability: int, pick: nat): (n: nat)
    ensures 6 <= n <= 8
    ensures availability == 40 ==> n == 8
  {
    if availability == 40 then 8 else Choice([6, 7, 8], pick)
  }

  /** `f"{hour:02d}:00:00"`. */
  function TimeLabel(hour: nat): string {
    PadTwo(hour) + ":00:00"
  }

  /** One generated shift, with its hours kept as numbers. */
  datatype ScheduleRow = ScheduleRow(
    employeeId: string, shiftDate: int, startHour: nat, endHour: nat, department: string, status: string)

  const Statuses: seq<string> := ["scheduled", "completed", "no_show", "called_out"]

  /** The shift of `employee` on `weekStart + dayOffset` for the given picks. */
  function ShiftRow(employee: Employee, weekStart: int, dayOffset: nat, startPick: nat, lengthPick: nat,
                    statusPick: nat): (r: ScheduleRow)
    ensures r.shiftDate == weekStart + dayOffset
    ensures r.startHour in StartHours(employee.department)
    ensures r.endHour == r.startHour + ShiftLength(employee.availabilityHours, lengthPick)
    ensures r.endHour <= 24
    ensures r.employeeId == employee.employeeId && r.department == employee.department && r.status in Statuses
  {
    var start := Choice(StartHours(employee.department), startPick);
    ScheduleRow(employee.employeeId, weekStart + dayOffset, start,
                start + ShiftLength(employee.availabilityHours, lengthPick), employee.department,
                Choice(Statuses, statusPick))
  }

  /** An Electronics or Sales Floor shift starting at 16 with a full-time length ends at the label `24:00:00`. */
  lemma ShiftCanEndAtMidnight(employee: Employee, weekStart: int, startPick: nat, statusPick: nat)
    requires employee.department == "Electronics" && employee.availabilityHours == 40 && startPick % 6 == 5
    ensures ShiftRow(employee, weekStart, 0, startPick, 0, statusPick).endHour == 24
    ensures TimeLabel(ShiftRow(employee, weekStart, 0, startPick, 0, statusPick).endHour) == "24:00:00"
  {
    assert StartHours("Electronics") == [9, 10, 11, 12, 15, 16];
    assert NatToString(24) == "24";
  }

  /**
    One employee's shifts of one week of `generate_schedules`: the working days are sampled with
    `dayDraws`, and shift `i` uses the `i`-th start, length and status picks.
  */
  method EmployeeWeek(employee: Employee, weekStart: int, dayDraws: seq<nat>,
                      startPicks: seq<nat>, lengthPicks: seq<nat>, statusPicks: seq<nat>)
    returns (rows: seq<ScheduleRow>)
    requires |dayDraws| >= 5 && |startPicks| >= 5 && |lengthPicks| >= 5 && |statusPicks| >= 5
    ensures |rows| == DaysPerWeek(employee.availabilityHours)
    ensures forall i :: 0 <= i < |rows| ==> weekStart <= rows[i].shiftDate < weekStart + 7 && rows[i].endHour <= 24
    ensures forall i, j :: 0 <= i < j < |rows| ==> rows[i].shiftDate != rows[j].shiftDate
    ensures forall i :: 0 <= i < |rows| ==> rows[i].employeeId == employee.employeeId
  {
    var days := SampleDays(DaysPerWeek(employee.availabilityHours), dayDraws);
    rows := [];
    var i := 0;
    while i < |days|
      invariant 0 <= i <= |days| && |rows| == i
      invariant forall a :: 0 <= a < i ==> rows[a] == ShiftRow(employee, weekStart, days[a], startPicks[a], lengthPicks[a], statusPicks[a])
    {
      rows := rows + [ShiftRow(employee, weekStart, days[i], startPicks[i], lengthPicks[i], statusPicks[i])];
      i := i + 1;
    }
  }

  /** The random picks of one employee's week of shifts. */
  datatype WeekDraws = WeekDraws(dayDraws: seq<nat>, startPicks: seq<nat>, lengthPicks: seq<nat>, statusPicks: seq<nat>)

  predicate EnoughDraws(d: WeekDraws) {
    |d.dayDraws| >= 5 && |d.startPicks| >= 5 && |d.lengthPicks| >= 5 && |d.statusPicks| >= 5
  }

  /** The number of shifts one week adds for the employees: their days per week, summed. */
  function WeeklyShifts(employees: seq<Employee>): nat {
    if employees == [] then 0
    else WeeklyShifts(employees[..|employees| - 1]) + DaysPerWeek(employees[|employees| - 1].availabilityHours)
  }

  /**
    `generate_schedules`: week by week, oldest first, the week starting `weeks - week - 1`
    weeks before `today` (a day number), each employee's shifts of that week; `draws(week, e)`
    holds the random picks of employee `e` in that week.
  */
  method GenerateSchedules(employees: seq<Employee>, weeks: nat, today: int, draws: (nat, nat) -> WeekDraws)
    returns (rows: seq<ScheduleRow>)
    requires forall w: nat, e: nat :: w < weeks && e < |employees| ==> EnoughDraws(draws(w, e))
    ensures |rows| == weeks * WeeklyShifts(employees)
    ensures forall r :: r in rows ==> today - 7 * (weeks - 1) <= r.shiftDate < today + 7 && r.endHour <= 24
    ensures forall r :: r in rows ==> exists e :: 0 <= e < |employees| && r.employeeId == employees[e].employeeId
  {
    rows := [];
    var week := 0;
    while week < weeks
      invariant 0 <= week <= weeks
      invariant |rows| == week * WeeklyShifts(employees)
      invariant forall r :: r in rows ==> today - 7 * (weeks - 1) <= r.shiftDate < today + 7 && r.endHour <= 24
      invariant forall r :: r in rows ==> exists e :: 0 <= e < |employees| && r.employeeId == employees[e].employeeId
    {
      var weekStart := today - 7 * (weeks - week - 1);
      var j := 0;
      while j < |employees|
        invariant 0 <= j <= |employees|
        invariant |rows| == week * WeeklyShifts(employees) + WeeklyShifts(employees[..j])
        invariant forall r :: r in rows ==> today - 7 * (weeks - 1) <= r.shiftDate < today + 7 && r.endHour <= 24
        invariant forall r :: r in rows ==> exists e :: 0 <= e < |employees| && r.employeeId == employees[e].employeeId
      {
        var d := draws(week, j);
        var shifts := EmployeeWeek(employees[j], weekStart, d.dayDraws, d.startPicks, d.lengthPicks, d.statusPicks);
        assert employees[..j + 1][..j] == employees[..j];
        forall r | r in shifts
          ensures r.employeeId == employees[j].employeeId
        {
          var k :| 0 <= k < |shifts| && shifts[k] == r;
        }
        rows := rows + shifts;
        j := j + 1;
      }
      assert employees[..j] == employees;
      assert (week + 1) * WeeklyShifts(employees) == week * WeeklyShifts(employees) + WeeklyShifts(employees);
      week := week + 1;
    }
  }

  // ------------------------------------------------------------------ demand

  /** Customers expected on each weekday, Monday first. */
  const BaseDemand: seq<int> := [120, 110, 115, 125, 180, 220, 160]

  function SeasonalMultiplier(month: nat): (m: real)
    ensures m == 1.4 <==> month == 11 || month == 12
    ensures m == 1.2 <==> 6 <= month <= 8
    ensures m == 0.8 <==> month == 1 || month == 2
  {
    if month in {11, 12} then 1.4
    else if month in {6, 7, 8} then 1.2
    else if month in {1, 2} then 0.8
    else 1.0
  }

  datatype LocationKind = Flagship | Standard | Compact | Express {
    function Multiplier(): real {
      match this
      case Flagship => 1.5
      case Standard => 1.0
      case Compact => 0.7
      case Express => 0.4
    }
  }

  datatype Location = Location(id: string, name: string, kind: LocationKind)

  const Locations: seq<Location> := [
    Location("store_001", "Downtown Plaza", Flagship),
    Location("store_002", "Suburban Mall", Standard),
    Location("store_003", "Strip Center", Compact),
    Location("store_004", "Airport Location", Express),
    Location("store_005", "University District", Standard)]

  const Departments: seq<string> := [
    "Sales Floor", "Customer Service", "Inventory", "Electronics", "Clothing",
    "Home & Garden", "Pharmacy", "Grocery", "Deli", "Bakery"]

  /** `max(3, int(location_demand / 15))`. */
  function RequiredStaff(locationDemand: int): (r: int)
    ensures r >= 3
    ensures locationDemand >= 0 ==> r == Max(3, locationDemand / 15)
  {
    Max(3, Trunc(locationDemand as real / 15.0))
  }

  /** `is_holiday`: Christmas Eve, Christmas Day and New Year's Eve. */
  predicate IsHoliday(date: MonthDay) {
    date.month == 12 && date.day in {24, 25, 31}
  }

  datatype DemandRow = DemandRow(
    locationId: string, department: string, forecastDate: int, predictedCustomers: int,
    requiredStaff: int, dayOfWeek: nat, month: nat, isHoliday: bool)

  /** The facts every demand record of a date must satisfy. */
  predicate RowRules(calendar: int -> MonthDay, r: DemandRow) {
    r.requiredStaff >= 3 && r.dayOfWeek == Weekday(r.forecastDate) && r.month == calendar(r.forecastDate).month
    && (r.isHoliday <==> IsHoliday(calendar(r.forecastDate)))
  }

  /** `int(base_demand * seasonal_multiplier * random.uniform(0.8, 1.2))`, the draw being `variation`. */
  function FinalDemand(date: int, calendar: MonthDay, variation: real): int {
    Trunc(BaseDemand[Weekday(date)] as real * SeasonalMultiplier(calendar.month) * variation)
  }

  /** The record of location `l` on `date`. */
  function LocationDemand(date: int, calendar: MonthDay, finalDemand: int, l: nat, departmentPick: nat): (r: DemandRow)
    requires l < |Locations|
    ensures r.locationId == Locations[l].id && r.forecastDate == date && r.department in Departments
    ensures r.predictedCustomers == Trunc(finalDemand as real * Locations[l].kind.Multiplier())
    ensures r.requiredStaff >= 3 && r.dayOfWeek == Weekday(date) && r.month == calendar.month
    ensures r.isHoliday <==> IsHoliday(calendar)
  {
    var customers := Trunc(finalDemand as real * Locations[l].kind.Multiplier());
    DemandRow(Locations[l].id, Choice(Departments, departmentPick), date, customers,
              RequiredStaff(customers), Weekday(date), calendar.month, IsHoliday(calendar))
  }

  /**
    The records of one date, one per location in order: `variation` is the day's
    `random.uniform(0.8, 1.2)` and `departmentPick(date, l)` the department choice of location `l`.
  */
  function DayDemand(date: int, calendar: int -> MonthDay, variation: int -> real,
                     departmentPick: (int, nat) -> nat): (rows: seq<DemandRow>)
    ensures |rows| == |Locations|
    ensures forall l :: 0 <= l < |rows| ==>
              rows[l] == LocationDemand(date, calendar(date), FinalDemand(date, calendar(date), variation(date)), l, departmentPick(date, l))
  {
    var finalDemand := FinalDemand(date, calendar(date), variation(date));
    seq(|Locations|, l requires 0 <= l < |Locations| =>
      LocationDemand(date, calendar(date), finalDemand, l, departmentPick(date, l)))
  }

  lemma DayDemandRules(date: int, calendar: int -> MonthDay, variation: int -> real, departmentPick: (int, nat) -> nat)
    ensures forall x :: x in DayDemand(date, calendar, variation, departmentPick) ==>
              RowRules(calendar, x) && x.forecastDate == date
  {
    var rows := DayDemand(date, calendar, variation, departmentPick);
    forall x | x in rows
      ensures RowRules(calendar, x) && x.forecastDate == date
    {
      var l :| 0 <= l < |rows| && rows[l] == x;
    }
  }

  /** Iteration `day` of `generate_demand_data(days)` run on the ordinal `today`. */
  function DemandOfDay(days: nat, today: int, calendar: int -> MonthDay, variation: int -> real,
                       departmentPick: (int, nat) -> nat): nat -> seq<DemandRow>
  {
    (day: nat) => DayDemand(today - (days - day - 1), calendar, variation, departmentPick)
  }

  /** `generate_demand_data`: the loop over the days, oldest first. */
  method GenerateDemand(days: nat, today: int, calendar: int -> MonthDay, variation: int -> real,
                        departmentPick: (int, nat) -> nat) returns (rows: seq<DemandRow>)
    ensures rows == Concat(DemandOfDay(days, today, calendar, variation, departmentPick), days)
  {
    rows := ConcatLoop(DemandOfDay(days, today, calendar, variation, departmentPick), days);
  }

  /**
    The demand data holds five records a day, dated from `days - 1` days before today up to
    today; each asks for at least three staff and is a holiday exactly on 24, 25 and 31 December.
  */
  lemma DemandRules(days: nat, today: int, calendar: int -> MonthDay, variation: int -> real,
                    departmentPick: (int, nat) -> nat)
    ensures |Concat(DemandOfDay(days, today, calendar, variation, departmentPick), days)| == 5 * days
    ensures forall r :: r in Concat(DemandOfDay(days, today, calendar, variation, departmentPick), days) ==>
              RowRules(calendar, r) && today - days < r.forecastDate <= today
  {
    var f := DemandOfDay(days, today, calendar, variation, departmentPick);
    forall i | 0 <= i < days
      ensures |f(i)| == 5
    {
      assert f(i) == DayDemand(today - (days - i - 1), calendar, variation, departmentPick);
    }
    ConcatLength(f, days, 5);
    forall i, x | 0 <= i < days && x in f(i)
      ensures RowRules(calendar, x) && today - days < x.forecastDate <= today
    {
      DayDemandRules(today - (days - i - 1), calendar, variation, departmentPick);
    }
    ConcatEvery(f, days, r => RowRules(calendar, r) && today - days < r.forecastDate <= today);
  }

  // ------------------------------------------------------------------ retention factors

  datatype RiskFactor =
    | LowPerformance | HighPerformance | LowSatisfaction | HighSatisfaction | NewEmployee
    | LongTenure | BelowMarketWage | AboveMarketWage | ExcessiveOvertime
  {
    /** The key of the factor in the `factors` dict. */
    function Key(): string {
      match this
      case LowPerformance => "low_performance"
      case HighPerformance => "high_performance"
      case LowSatisfaction => "low_satisfaction"
      case HighSatisfaction => "high_satisfaction"
      case NewEmployee => "new_employee"
      case LongTenure => "long_tenure"
      case BelowMarketWage => "below_market_wage"
      case AboveMarketWage => "above_market_wage"
      case ExcessiveOvertime => "excessive_overtime"
    }

    function Weight(): real {
      match this
      case LowPerformance => 0.8
      case HighPerformance => -0.3
      case LowSatisfaction => 0.9
      case HighSatisfaction => -0.4
      case NewEmployee => 0.6
      case LongTenure => -0.2
      case BelowMarketWage => 0.5
      case AboveMarketWage => -0.2
      case ExcessiveOvertime => 0.4
    }
  }

  /** The factors `generate_retention_factors` records for an employee, in the order it adds them. */
  function FactorsOf(e: Employee): seq<RiskFactor> {
    (if e.performance < 2.5 then [LowPerformance] else if e.performance > 4.0 then [HighPerformance] else [])
    + (if e.satisfaction < 2.5 then [LowSatisfaction] else if e.satisfaction > 4.0 then [HighSatisfaction] else [])
    + (if e.tenureDays < 90 then [NewEmployee] else if e.tenureDays > 730 then [LongTenure] else [])
    + (if e.hourlyWage < 16.0 then [BelowMarketWage] else if e.hourlyWage > 21.0 then [AboveMarketWage] else [])
    + (if e.overtimeHours > 10 then [ExcessiveOvertime] else [])
  }

  /** `sum(factors.values())`. */
  function Impact(factors: seq<RiskFactor>): real {
    if factors == [] then 0.0 else Impact(factors[..|factors| - 1]) + factors[|factors| - 1].Weight()
  }

  /** An employee's factors never repeat a key, so the dict holds every one of them. */
  lemma FactorKeysDistinct(e: Employee)
    ensures forall a, b :: 0 <= a < b < |FactorsOf(e)| ==> FactorsOf(e)[a].Key() != FactorsOf(e)[b].Key()
  {
  }

  datatype RetentionRecord = RetentionRecord(
    employeeId: string, riskScore: real, factors: seq<RiskFactor>, willLeave: bool)

  /** One record of `generate_retention_factors`; the score is kept unrounded. */
  function RetentionOf(e: Employee): (r: RetentionRecord)
    ensures r.factors == FactorsOf(e) && r.employeeId == e.employeeId
    ensures 0.05 <= r.riskScore <= 0.95
    ensures 0.05 < 0.3 + Impact(r.factors) < 0.95 ==> r.riskScore == 0.3 + Impact(r.factors)
    ensures r.willLeave <==> r.riskScore > 0.7
  {
    var factors := FactorsOf(e);
    var risk := MaxReal(0.05, MinReal(0.95, 0.3 + Impact(factors)));
    RetentionRecord(e.employeeId, risk, factors, risk > 0.7)
  }

  /** The factors that raise the risk. */
  predicate Adverse(f: RiskFactor) { f.Weight() > 0.0 }

  /** Without a factor that raises the risk, the score stays at most the base 0.3. */
  lemma {:induction false} ImpactOfFavourable(factors: seq<RiskFactor>)
    requires forall i :: 0 <= i < |factors| ==> !Adverse(factors[i])
    ensures Impact(factors) <= 0.0
  {
    if factors != [] {
      ImpactOfFavourable(factors[..|factors| - 1]);
      assert !Adverse(factors[|factors| - 1]);
    }
  }

  /** An employee with no adverse factor is never marked as leaving. */
  lemma OnlyAdverseFactorsPredictLeaving(e: Employee)
    requires forall i :: 0 <= i < |FactorsOf(e)| ==> !Adverse(FactorsOf(e)[i])
    ensures RetentionOf(e).riskScore <= 0.3
    ensures !RetentionOf(e).willLeave
  {
    ImpactOfFavourable(FactorsOf(e));
  }

  /** `generate_retention_factors`: one record per employee, in order. */
  method GenerateRetentionFactors(employees: seq<Employee>) returns (records: seq<RetentionRecord>)
    ensures |records| == |employees|
    ensures forall i :: 0 <= i < |employees| ==> records[i] == RetentionOf(employees[i])
  {
    records := [];
    var i := 0;
    while i < |employees|
      invariant 0 <= i <= |employees| && |records| == i
      invariant forall k :: 0 <= k < i ==> records[k] == RetentionOf(employees[k])
    {
      records := records + [RetentionOf(employees[i])];
      i := i + 1;
    }
  }
}
