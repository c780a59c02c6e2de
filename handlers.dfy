/**
  The business rules written inline in the HTTP handlers of the backend: pulse-survey
  scoring, the schedule date window, the per-employee retention classification and its
  summary, the sentiment heat-map and the executive-summary risk partition. Scores that
  are Python floats are exact reals here.
*/
module Handlers {
  import opened Wrappers
  import opened JsonData
  import opened Calendar
  import opened Text
  import JsonWindow
  import RetentionAgents

  // ------------------------------------------------------------------ pulse survey

  /**
    What one answer adds to the score as the handler is written: `(answer - 5) * 5` for
    anything that is `isinstance(answer, (int, float))`. A Python bool is an int, so `True`
    and `False` take this branch and the `== True` / `== False` branches after it never run.
  */
  function AnswerDeltaAsWritten(answer: Json): (d: real)
    ensures !IsNumber(answer) ==> d == 0.0
    ensures answer == JBool(true) ==> d == -20.0
    ensures answer == JBool(false) ==> d == -25.0
    ensures answer.JInt? ==> d == (answer.i - 5) as real * 5.0
  {
    if IsNumber(answer) then (NumberValue(answer) - 5.0) * 5.0 else 0.0
  }

  /**
    What one answer adds as the handler evidently intends: a yes/no answer adds 10 or takes
    10 away, a number on the 1-10 scale adds `(answer - 5) * 5`, anything else nothing.
  */
  function AnswerDelta(answer: Json): (d: real)
    ensures answer == JBool(true) ==> d == 10.0
    ensures answer == JBool(false) ==> d == -10.0
    ensures answer.JInt? ==> d == (answer.i - 5) as real * 5.0
    ensures answer.JFloat? ==> d == (answer.x - 5.0) * 5.0
    ensures !IsNumber(answer) ==> d == 0.0
  {
    match answer
    case JBool(b) => if b then 10.0 else -10.0
    case JInt(i) => (i - 5) as real * 5.0
    case JFloat(x) => (x - 5.0) * 5.0
    case _ => 0.0
  }

  /** The score before clamping: the base of 50 plus every answer's contribution under `delta`. */
  function RawPulse(answers: seq<Json>, delta: Json -> real): real {
    if answers == [] then 50.0 else RawPulse(answers[..|answers| - 1], delta) + delta(answers[|answers| - 1])
  }

  /** `max(0, min(100, s))`. */
  function Clamp(s: real): (r: real)
    ensures 0.0 <= r <= 100.0
    ensures 0.0 <= s <= 100.0 ==> r == s
    ensures s < 0.0 ==> r == 0.0
    ensures s > 100.0 ==> r == 100.0
  {
    MaxReal(0.0, MinReal(100.0, s))
  }

  /** As written, a response whose single answer is "yes" scores 30, below the neutral 50. */
  lemma LoneYesAsWritten()
    ensures Clamp(RawPulse([JBool(true)], AnswerDeltaAsWritten)) == 30.0
    ensures Clamp(RawPulse([JBool(true)], AnswerDelta)) == 60.0
  {
    assert [JBool(true)][..0] == [];
  }

  /**
    `submit_pulse_response`, with yes/no answers scored as intended: the answers of the
    response, in the order of its dict.
  */
  method PulseScore(answers: seq<Json>) returns (score: real)
    ensures score == Clamp(RawPulse(answers, AnswerDelta))
    ensures 0.0 <= score <= 100.0
  {
    score := 50.0;
    var i := 0;
    while i < |answers|
      invariant 0 <= i <= |answers|
      invariant score == RawPulse(answers[..i], AnswerDelta)
    {
      var answer := answers[i];
      if answer.JBool? {
        score := score + if answer.b then 10.0 else -10.0;
      } else if IsNumber(answer) {
        score := score + (NumberValue(answer) - 5.0) * 5.0;
      }
      assert answers[..i + 1][..i] == answers[..i];
      i := i + 1;
    }
    assert answers[..i] == answers;
    score := Clamp(score);
  }

  /** The answers contribute independently: two batches together score the sum of their contributions. */
  lemma {:induction false} RawPulseAppend(a: seq<Json>, b: seq<Json>, delta: Json -> real)
    ensures RawPulse(a + b, delta) == RawPulse(a, delta) + RawPulse(b, delta) - 50.0
    decreases |b|
  {
    if b == [] {
      assert a + b == a;
    } else {
      assert (a + b)[..|a + b| - 1] == a + b[..|b| - 1];
      RawPulseAppend(a, b[..|b| - 1], delta);
    }
  }

  /** The order of the answers does not matter. */
  lemma SwapAnswers(a: seq<Json>, x: Json, y: Json, b: seq<Json>, delta: Json -> real)
    ensures RawPulse(a + [x, y] + b, delta) == RawPulse(a + [y, x] + b, delta)
  {
    RawPulseAppend(a + [x, y], b, delta);
    RawPulseAppend(a + [y, x], b, delta);
    RawPulseAppend(a, [x, y], delta);
    RawPulseAppend(a, [y, x], delta);
    assert [x, y][..1] == [x];
    assert [y, x][..1] == [y];
  }

  /** A text answer, or any other non-number, scores as if it were absent. */
  lemma NonNumericIgnored(a: seq<Json>, x: Json, b: seq<Json>)
    requires !IsNumber(x)
    ensures RawPulse(a + [x] + b, AnswerDelta) == RawPulse(a + b, AnswerDelta)
  {
    RawPulseAppend(a + [x], b, AnswerDelta);
    RawPulseAppend(a, b, AnswerDelta);
    assert (a + [x])[..|a|] == a;
  }

  /** A "yes" raises the raw score by 10 and a "no" lowers it by 10, whatever was answered before. */
  lemma BooleanAnswers(a: seq<Json>)
    ensures RawPulse(a + [JBool(true)], AnswerDelta) == RawPulse(a, AnswerDelta) + 10.0
    ensures RawPulse(a + [JBool(false)], AnswerDelta) == RawPulse(a, AnswerDelta) - 10.0
  {
    assert (a + [JBool(true)])[..|a|] == a;
    assert (a + [JBool(false)])[..|a|] == a;
  }

  // ------------------------------------------------------------------ schedule window

  /** A range of dates, both ends included, as ordinals. */
  datatype Window = Window(start: int, end: int)

  /** The `start_date` and `end_date` of `get_schedules`. */
  function ScheduleWindow(today: int, dateRange: string): (w: Window)
    ensures dateRange == "current_week" ==>
              Weekday(w.start) == 0 && w.start <= today < w.start + 7 && w.end == w.start + 6
    ensures dateRange == "next_week" ==>
              Weekday(w.start) == 0 && w.start - 7 <= today < w.start && w.end == w.start + 6
    ensures dateRange != "current_week" && dateRange != "next_week" ==> w == Window(today, today + 7)
  {
    if dateRange == "current_week" then
      var monday := today - Weekday(today);
      Window(monday, monday + 6)
    else if dateRange == "next_week" then
      var monday := today - Weekday(today) + 7;
      Window(monday, monday + 6)
    else
      Window(today, today + 7)
  }

  /** Only one Monday lies in any seven consecutive days ending today. */
  lemma MondayUnique(a: int, b: int, today: int)
    requires Weekday(a) == 0 && Weekday(b) == 0
    requires a <= today < a + 7 && b <= today < b + 7
    ensures a == b
  {
    var qa := (a - 1) / 7;
    var qb := (b - 1) / 7;
    assert a - 1 == 7 * qa;
    assert b - 1 == 7 * qb;
    assert -7 < 7 * (qa - qb) < 7;
    assert qa - qb == 0;
  }

  /** Next week's window is this week's moved on by seven days. */
  lemma NextWeekIsShifted(today: int)
    ensures ScheduleWindow(today, "next_week").start == ScheduleWindow(today, "current_week").start + 7
    ensures ScheduleWindow(today, "next_week").end == ScheduleWindow(today, "current_week").end + 7
  {
  }

  /** Every day of a week is given the same current-week window. */
  lemma SameWeekSameWindow(today: int, other: int)
    requires ScheduleWindow(today, "current_week").start <= other <= ScheduleWindow(today, "current_week").end
    ensures ScheduleWindow(other, "current_week") == ScheduleWindow(today, "current_week")
  {
    var here := ScheduleWindow(today, "current_week");
    var there := ScheduleWindow(other, "current_week");
    MondayUnique(here.start, there.start, other);
  }

  // ------------------------------------------------------------------ retention analysis

  /** One row of the employees table as `analyze_retention` reads it; None for a column the row lacks. */
  datatype EmployeeRow = EmployeeRow(
    employeeId: Json, name: Json, department: Json,
    satisfaction: Option<real>, performance: Option<real>,
    overtime: Option<real>, tenureDays: Option<real>)

  /** `float(emp.get('satisfaction_score', 3.5))` and the other columns with their defaults. */
  function Satisfaction(row: EmployeeRow): real { row.satisfaction.GetOr(3.5) }
  function Performance(row: EmployeeRow): real { row.performance.GetOr(3.5) }
  function OvertimeHours(row: EmployeeRow): real { row.overtime.GetOr(0.0) }
  function TenureDays(row: EmployeeRow): real { row.tenureDays.GetOr(365.0) }

  datatype Factor =
    | ExcessiveOvertime | NewEmployee | EarlyCareer | LowSatisfaction | BelowAverageSatisfaction
    | ImprovementNeeded | HighPerformer | HighRiskGeneral | ModerateRiskGeneral | LowRiskGeneral
  {
    function Text(): string {
      match this
      case ExcessiveOvertime => "Excessive overtime hours (burnout risk)"
      case NewEmployee => "New employee - critical retention period"
      case EarlyCareer => "Early career stage - growth expectations"
      case LowSatisfaction => "Low job satisfaction score"
      case BelowAverageSatisfaction => "Below average satisfaction"
      case ImprovementNeeded => "Performance improvement needed"
      case HighPerformer => "High performer - retention priority"
      case HighRiskGeneral => "High retention risk - multiple indicators"
      case ModerateRiskGeneral => "Moderate retention risk"
      case LowRiskGeneral => "Low retention risk - stable"
    }

    predicate General() { HighRiskGeneral? || ModerateRiskGeneral? || LowRiskGeneral? }
  }

  datatype Intervention =
    | RedistributeWorkload | AddTeamResources | Onboarding | Mentor | CareerPath
    | OneOnOne | ReviewCompensation | EngagementSurvey | ImprovementPlan | Training
    | Recognition | CompetitivePay | ManagerIntervention | MonitorClosely | MaintainEngagement
  {
    function Text(): string {
      match this
      case RedistributeWorkload => "Review and redistribute workload"
      case AddTeamResources => "Consider additional team resources"
      case Onboarding => "Enhance onboarding support"
      case Mentor => "Assign mentor or buddy"
      case CareerPath => "Discuss career development path"
      case OneOnOne => "Schedule 1-on-1 to discuss concerns"
      case ReviewCompensation => "Review compensation and benefits"
      case EngagementSurvey => "Conduct engagement survey"
      case ImprovementPlan => "Develop performance improvement plan"
      case Training => "Provide additional training/support"
      case Recognition => "Recognition and advancement opportunities"
      case CompetitivePay => "Ensure competitive compensation"
      case ManagerIntervention => "Immediate manager intervention"
      case MonitorClosely => "Monitor closely and check in regularly"
      case MaintainEngagement => "Maintain current engagement level"
    }
  }

  /**
    The risk score: `(100 - satisfaction * 20) / 100`, then `min(1.0, risk + 0.2)` for more than
    10 overtime hours and `min(1.0, risk + 0.15)` for a tenure under 180 days.
  */
  function RiskScore(sat: real, overtime: real, tenure: real): (r: real)
    ensures var base := (100.0 - sat * 20.0) / 100.0;
            var bonus := (if overtime > 10.0 then 0.2 else 0.0) + (if tenure < 180.0 then 0.15 else 0.0);
            r == if bonus == 0.0 then base else MinReal(1.0, base + bonus)
  {
    var base := (100.0 - sat * 20.0) / 100.0;
    var afterOvertime := if overtime > 10.0 then MinReal(1.0, base + 0.2) else base;
    if tenure < 180.0 then MinReal(1.0, afterOvertime + 0.15) else afterOvertime
  }

  /** The factors of the overtime, tenure, satisfaction and performance rules, in that order. */
  function SpecificFactors(sat: real, perf: real, overtime: real, tenure: real): seq<Factor> {
    (if overtime > 10.0 then [ExcessiveOvertime] else [])
    + (if tenure < 180.0 then [NewEmployee] else if tenure < 730.0 then [EarlyCareer] else [])
    + (if sat < 3.0 then [LowSatisfaction] else if sat < 3.5 then [BelowAverageSatisfaction] else [])
    + (if perf < 3.0 then [ImprovementNeeded] else if perf > 4.5 then [HighPerformer] else [])
  }

  /** The interventions those rules append, in the same order. */
  function SpecificInterventions(sat: real, perf: real, overtime: real, tenure: real): seq<Intervention> {
    (if overtime > 10.0 then [RedistributeWorkload, AddTeamResources] else [])
    + (if tenure < 180.0 then [Onboarding, Mentor] else if tenure < 730.0 then [CareerPath] else [])
    + (if sat < 3.0 then [OneOnOne, ReviewCompensation] else if sat < 3.5 then [EngagementSurvey] else [])
    + (if perf < 3.0 then [ImprovementPlan, Training] else if perf > 4.5 then [Recognition, CompetitivePay] else [])
  }

  /** Every specific rule that fires adds one factor and one or two interventions. */
  lemma InterventionsFollowFactors(sat: real, perf: real, overtime: real, tenure: real)
    ensures |SpecificFactors(sat, perf, overtime, tenure)| <= |SpecificInterventions(sat, perf, overtime, tenure)|
              <= 2 * |SpecificFactors(sat, perf, overtime, tenure)|
    ensures |SpecificFactors(sat, perf, overtime, tenure)| <= 4
    ensures forall f :: f in SpecificFactors(sat, perf, overtime, tenure) ==> !f.General()
  {
  }

  /** The general factor chosen when no specific rule fires. */
  function GeneralFactor(risk: real): Factor {
    if risk >= 0.7 then HighRiskGeneral else if risk >= 0.4 then ModerateRiskGeneral else LowRiskGeneral
  }

  function GeneralIntervention(risk: real): Intervention {
    if risk >= 0.7 then ManagerIntervention else if risk >= 0.4 then MonitorClosely else MaintainEngagement
  }

  /** One entry of the result's `employees` list. */
  datatype Assessment = Assessment(
    employeeId: Json, name: Json, department: Json, riskScore: real, tenureMonths: int,
    satisfaction: real, performance: real, factors: seq<Factor>, interventions: seq<Intervention>)

  /** The per-employee part of the `analyze_retention` loop. */
  function Assess(row: EmployeeRow): (a: Assessment)
    ensures a.employeeId == row.employeeId && a.name == row.name && a.department == row.department
    ensures a.satisfaction == Satisfaction(row) && a.performance == Performance(row)
    ensures a.riskScore == RiskScore(Satisfaction(row), OvertimeHours(row), TenureDays(row))
    ensures a.tenureMonths == Trunc(TenureDays(row)) / 30
    ensures 1 <= |a.factors| <= 3 && 1 <= |a.interventions| <= 3
    ensures var specific := SpecificFactors(Satisfaction(row), Performance(row), OvertimeHours(row), TenureDays(row));
            if specific == [] then a.factors == [GeneralFactor(a.riskScore)]
            else a.factors == Take(specific, 3)
    ensures var specific := SpecificInterventions(Satisfaction(row), Performance(row), OvertimeHours(row), TenureDays(row));
            if specific == [] then a.interventions == [GeneralIntervention(a.riskScore)]
            else a.interventions == Take(specific, 3)
  {
    var sat, perf, overtime, tenure := Satisfaction(row), Performance(row), OvertimeHours(row), TenureDays(row);
    var risk := RiskScore(sat, overtime, tenure);
    var factors := SpecificFactors(sat, perf, overtime, tenure);
    var interventions := SpecificInterventions(sat, perf, overtime, tenure);
    InterventionsFollowFactors(sat, perf, overtime, tenure);
    Assessment(row.employeeId, row.name, row.department, risk, Trunc(tenure) / 30, sat, perf,
               if factors == [] then [GeneralFactor(risk)] else Take(factors, 3),
               if factors == [] then [GeneralIntervention(risk)] else Take(interventions, 3))
  }

  /**
    Of the three general factors only the low-risk one can ever be chosen: no specific rule
    firing means a satisfaction of at least 3.5 and no adjustment, so the risk is at most 0.3.
  */
  lemma GeneralFactorIsAlwaysLow(row: EmployeeRow)
    requires SpecificFactors(Satisfaction(row), Performance(row), OvertimeHours(row), TenureDays(row)) == []
    ensures Assess(row).riskScore <= 0.3
    ensures Assess(row).factors == [LowRiskGeneral] && Assess(row).interventions == [MaintainEngagement]
  {
    var sat := Satisfaction(row);
    assert sat >= 3.5;
    assert (100.0 - sat * 20.0) / 100.0 <= 0.3;
  }

  /** The band a risk score is counted in. */
  datatype Band = High | Medium | Low

  function BandOf(risk: real): (b: Band)
    ensures b == High <==> risk >= 0.7
    ensures b == Medium <==> 0.4 <= risk < 0.7
    ensures b == Low <==> risk < 0.4
  {
    if risk >= 0.7 then High else if risk >= 0.4 then Medium else Low
  }

  predicate IsHigh(a: Assessment) { BandOf(a.riskScore) == High }
  predicate IsMedium(a: Assessment) { BandOf(a.riskScore) == Medium }
  predicate IsLow(a: Assessment) { BandOf(a.riskScore) == Low }

  /** `50 if request.department else len(employees)`. */
  function EmployeeLimit(department: Option<string>, count: nat): (n: nat)
    ensures department.Some? && department.value != "" ==> n == 50
    ensures department.None? || department.value == "" ==> n == count
  {
    if department.Some? && department.value != "" then 50 else count
  }

  function RiskScores(assessed: seq<Assessment>): (r: seq<real>)
    ensures |r| == |assessed|
    ensures forall i :: 0 <= i < |r| ==> r[i] == assessed[i].riskScore
  {
    if assessed == [] then [] else RiskScores(assessed[..|assessed| - 1]) + [assessed[|assessed| - 1].riskScore]
  }

  /** `sum(xs) / len(xs) if xs else 0`. */
  function Mean(xs: seq<real>): real {
    if xs == [] then 0.0 else Sum(xs) / |xs| as real
  }

  /** The risk scores of the assessed employees of one department, in order. */
  function DepartmentRisks(assessed: seq<Assessment>, department: Json): (r: seq<real>)
    ensures |r| <= |assessed|
    ensures (exists i :: 0 <= i < |assessed| && assessed[i].department == department) ==> r != []
  {
    if assessed == [] then []
    else
      var last := assessed[|assessed| - 1];
      DepartmentRisks(assessed[..|assessed| - 1], department)
      + (if last.department == department then [last.riskScore] else [])
  }

  function Departments(assessed: seq<Assessment>): set<Json> {
    set a | a in assessed :: a.department
  }

  /** `department_trends`: each department seen, mapped to the mean risk of its employees. */
  function DepartmentTrends(assessed: seq<Assessment>): (m: map<Json, real>)
    ensures m.Keys == Departments(assessed)
  {
    map d | d in Departments(assessed) :: Mean(DepartmentRisks(assessed, d))
  }

  /** The `if scores else 0` of the trend is never taken: a department is listed only when one of its employees is. */
  lemma TrendsAreMeans(assessed: seq<Assessment>, department: Json)
    requires department in DepartmentTrends(assessed)
    ensures DepartmentRisks(assessed, department) != []
    ensures DepartmentTrends(assessed)[department]
            == Sum(DepartmentRisks(assessed, department)) / |DepartmentRisks(assessed, department)| as real
  {
    var a :| a in assessed && a.department == department;
    var i :| 0 <= i < |assessed| && assessed[i] == a;
  }

  /** The result of `analyze_retention` apart from what the agents produce. */
  datatype RetentionSummary = RetentionSummary(
    employees: seq<Assessment>, totalEmployees: nat,
    highRisk: nat, mediumRisk: nat, lowRisk: nat,
    averageRisk: real, departmentTrends: map<Json, real>)

  /**
    Maps `f` over `xs` and counts the results by an `if p / elif q / else` chain; `r` is the
    test of the final `else`.
  */
  method MapAndCount<A, B(!new)>(xs: seq<A>, f: A -> B, p: B -> bool, q: B -> bool, r: B -> bool)
    returns (out: seq<B>, np: nat, nq: nat, nr: nat)
    requires forall b :: r(b) <==> !p(b) && !q(b)
    requires forall b :: p(b) ==> !q(b)
    ensures |out| == |xs|
    ensures forall k :: 0 <= k < |xs| ==> out[k] == f(xs[k])
    ensures np == CountIf(out, p) && nq == CountIf(out, q) && nr == CountIf(out, r)
    ensures np + nq + nr == |xs|
  {
    out, np, nq, nr := [], 0, 0, 0;
    var i := 0;
    while i < |xs|
      invariant 0 <= i <= |xs|
      invariant |out| == i
      invariant forall k :: 0 <= k < i ==> out[k] == f(xs[k])
      invariant np == CountIf(out, p) && nq == CountIf(out, q) && nr == CountIf(out, r)
      invariant np + nq + nr == i
    {
      var b := f(xs[i]);
      CountIfAppend(out, b, p);
      CountIfAppend(out, b, q);
      CountIfAppend(out, b, r);
      out := out + [b];
      if p(b) {
        np := np + 1;
      } else if q(b) {
        nq := nq + 1;
      } else {
        nr := nr + 1;
      }
      i := i + 1;
    }
  }

  /** The loop of `analyze_retention` over `employees[:employee_limit]`, and the totals after it. */
  method AnalyzeRetention(rows: seq<EmployeeRow>, department: Option<string>) returns (s: RetentionSummary)
    ensures |s.employees| == Min(EmployeeLimit(department, |rows|), |rows|)
    ensures forall k :: 0 <= k < |s.employees| ==> s.employees[k] == Assess(rows[k])
    ensures s.totalEmployees == |s.employees|
    ensures s.highRisk == CountIf(s.employees, IsHigh)
    ensures s.mediumRisk == CountIf(s.employees, IsMedium)
    ensures s.lowRisk == CountIf(s.employees, IsLow)
    ensures s.highRisk + s.mediumRisk + s.lowRisk == s.totalEmployees
    ensures s.averageRisk == Mean(RiskScores(s.employees))
    ensures s.departmentTrends == DepartmentTrends(s.employees)
  {
    var processed := Take(rows, EmployeeLimit(department, |rows|));
    var assessed, high, medium, low := MapAndCount(processed, Assess, IsHigh, IsMedium, IsLow);
    var average := if assessed == [] then 0.0 else Sum(RiskScores(assessed)) / |assessed| as real;
    s := RetentionSummary(assessed, |assessed|, high, medium, low, average, DepartmentTrends(assessed));
  }

  /** A department-filtered analysis looks at no more than 50 employees, an unfiltered one at all of them. */
  lemma FilteredAnalysisIsCapped(rows: seq<EmployeeRow>, department: Option<string>)
    ensures department.Some? && department.value != "" ==> Min(EmployeeLimit(department, |rows|), |rows|) <= 50
    ensures department.None? ==> Min(EmployeeLimit(department, |rows|), |rows|) == |rows|
  {
  }

  const DefaultRetentionRecommendations: seq<string> := [
    "Implement regular pulse surveys for continuous feedback",
    "Review workload distribution across teams",
    "Enhance career development programs",
    "Improve work-life balance initiatives",
    "Strengthen recognition and rewards programs"
  ]

  /**
    The recommendations of `analyze_retention`, from the parsed retention strategy: a dict
    gives the first five lines of its `insights` (AttributeError when those are not a
    string), another truthy value its first 200 characters as `str` renders them
    (`render`), and only a falsy strategy leaves the list empty, so that the five defaults
    are used.
  */
  function RetentionRecommendations(strategy: Json, render: Json -> string): (r: Result<seq<string>>)
    ensures !Truthy(strategy) ==> r == Ok(DefaultRetentionRecommendations)
    ensures Truthy(strategy) && strategy.JObject? ==>
              var fields := strategy.fields;
              && (r.Ok? <==> "insights" !in fields || fields["insights"].JStr?)
              && ("insights" !in fields ==> r == Ok([""]))
              && ("insights" in fields && fields["insights"].JStr? ==> r == Ok(Take(Split(fields["insights"].s, '\n'), 5)))
    ensures Truthy(strategy) && !strategy.JObject? ==> r == Ok([Take(render(strategy), 200)])
    ensures r.Err? ==> r.error == AttributeError
    ensures r.Ok? ==> 1 <= |r.value| <= 5
  {
    if !Truthy(strategy) then Ok(DefaultRetentionRecommendations)
    else if strategy.JObject? then
      var insights := Get(strategy.fields, "insights", JStr(""));
      if insights.JStr? then Ok(Take(Split(insights.s, '\n'), 5)) else Err(AttributeError)
    else Ok([Take(render(strategy), 200)])
  }

  /**
    A strategy reply with no JSON in it becomes the fallback record, whose insights always
    yield recommendations: its first five lines, never the defaults.
  */
  lemma UnparsedStrategyKeepsItsLines(text: string, loads: string -> Option<Json>, render: Json -> string)
    requires JsonWindow.Window(text).None?
    ensures RetentionRecommendations(RetentionAgents.ParseJsonResponse(JsonWindow.TextReply(text), "strategy", loads), render)
            == Ok(Take(Split(Take(text, 500), '\n'), 5))
  {
    var fallback := RetentionAgents.ParseJsonResponse(JsonWindow.TextReply(text), "strategy", loads);
    assert fallback.fields["insights"] == JStr(Take(text, 500));
  }

  // ------------------------------------------------------------------ sentiment heat-map

  /** One employee in one week: `max(0, min(100, satisfaction * 20 + variation))`, with `variation` drawn by `random.uniform(-5, 5)`. */
  function CellScore(sat: real, variation: real): (r: real)
    ensures 0.0 <= r <= 100.0
    ensures 0.0 <= sat * 20.0 + variation <= 100.0 ==> r == sat * 20.0 + variation
    ensures sat * 20.0 + variation < 0.0 ==> r == 0.0
    ensures sat * 20.0 + variation > 100.0 ==> r == 100.0
  {
    Clamp(sat * 20.0 + variation)
  }

  /** `week_score`: the sum of the department's cell scores for one week. */
  function WeekTotal(sats: seq<real>, variations: seq<real>): (t: real)
    requires |variations| == |sats|
    ensures 0.0 <= t <= 100.0 * |sats| as real
  {
    if sats == [] then 0.0
    else WeekTotal(sats[..|sats| - 1], variations[..|sats| - 1]) + CellScore(sats[|sats| - 1], variations[|sats| - 1])
  }

  /** The week's total adds up over any split of the department's employees. */
  lemma {:induction false} WeekTotalAppend(a: seq<real>, va: seq<real>, b: seq<real>, vb: seq<real>)
    requires |va| == |a| && |vb| == |b|
    ensures WeekTotal(a + b, va + vb) == WeekTotal(a, va) + WeekTotal(b, vb)
    decreases |b|
  {
    if b == [] {
      assert a + b == a && va + vb == va;
    } else {
      var n := |b| - 1;
      assert (a + b)[..|a + b| - 1] == a + b[..n];
      assert (va + vb)[..|va + vb| - 1] == va + vb[..n];
      assert (a + b)[|a + b| - 1] == b[n] && (va + vb)[|va + vb| - 1] == vb[n];
      WeekTotalAppend(a, va, b[..n], vb[..n]);
    }
  }

  /** A single employee's total is their cell score. */
  lemma WeekTotalOfOne(sat: real, variation: real)
    ensures WeekTotal([sat], [variation]) == CellScore(sat, variation)
  {
    assert [sat][..0] == [] && [variation][..0] == [];
  }

  /** `int(week_score / len(dept_employees)) if dept_employees else 50`. */
  function WeekScore(sats: seq<real>, variations: seq<real>): (r: int)
    requires |variations| == |sats|
    ensures sats != [] ==> 0 <= r <= 100
    ensures sats != [] ==> r as real <= WeekTotal(sats, variations) / |sats| as real < r as real + 1.0
    ensures sats == [] ==> r == 50
  {
    if sats == [] then 50
    else
      var t := WeekTotal(sats, variations);
      var n := |sats| as real;
      assert t / n <= 100.0 by {
        assert t <= 100.0 * n;
      }
      Trunc(t / n)
  }

  datatype Trend = Up | Down | Stable

  /** The trend of a department's weekly scores. */
  function HeatTrend(weekly: seq<int>): (t: Trend)
    requires |weekly| >= 1
    ensures t == Up <==> weekly[|weekly| - 1] > weekly[0] + 5
    ensures t == Down <==> weekly[|weekly| - 1] < weekly[0] - 5
    ensures t == Stable <==> weekly[0] - 5 <= weekly[|weekly| - 1] <= weekly[0] + 5
  {
    if weekly[|weekly| - 1] > weekly[0] + 5 then Up
    else if weekly[|weekly| - 1] < weekly[0] - 5 then Down
    else Stable
  }

  datatype HeatRow = HeatRow(department: Json, weeklyScores: seq<int>, trend: Trend, currentScore: int)

  /**
    One department's entry of `get_sentiment_heatmap`: `sats` are the satisfaction scores of its
    employees (3.5 when missing) and `variations[w]` the draws of week `w`.
  */
  function HeatmapRow(department: Json, sats: seq<real>, variations: seq<seq<real>>): (r: HeatRow)
    requires |variations| == 4
    requires forall w :: 0 <= w < 4 ==> |variations[w]| == |sats|
    ensures r.department == department && |r.weeklyScores| == 4
    ensures forall w :: 0 <= w < 4 ==> r.weeklyScores[w] == WeekScore(sats, variations[w])
    ensures forall w :: 0 <= w < 4 ==> 0 <= r.weeklyScores[w] <= 100
    ensures r.currentScore == r.weeklyScores[3]
    ensures r.trend == HeatTrend(r.weeklyScores)
  {
    var weekly := [WeekScore(sats, variations[0]), WeekScore(sats, variations[1]),
                   WeekScore(sats, variations[2]), WeekScore(sats, variations[3])];
    HeatRow(department, weekly, HeatTrend(weekly), weekly[3])
  }

  /** Two departments whose first and last weeks agree get the same trend, whatever lies between. */
  lemma TrendDependsOnEnds(a: seq<int>, b: seq<int>)
    requires |a| >= 1 && |b| >= 1
    requires a[0] == b[0] && a[|a| - 1] == b[|b| - 1]
    ensures HeatTrend(a) == HeatTrend(b)
  {
  }

  // ------------------------------------------------------------------ executive summary

  predicate HighRiskRow(row: EmployeeRow) { Satisfaction(row) < 2.5 }
  predicate MediumRiskRow(row: EmployeeRow) { 2.5 <= Satisfaction(row) < 3.5 }
  predicate LowRiskRow(row: EmployeeRow) { Satisfaction(row) >= 3.5 }

  function Satisfactions(rows: seq<EmployeeRow>): (r: seq<real>)
    ensures |r| == |rows|
    ensures forall i :: 0 <= i < |rows| ==> r[i] == Satisfaction(rows[i])
  {
    if rows == [] then [] else Satisfactions(rows[..|rows| - 1]) + [Satisfaction(rows[|rows| - 1])]
  }

  datatype ExecutiveSummary = ExecutiveSummary(
    totalEmployees: nat, averageSatisfaction: real, averageSentiment: real,
    highRisk: nat, mediumRisk: nat, lowRisk: int, costAtRisk: real)

  /**
    The metrics of `get_executive_summary`: the average satisfaction divides by the head
    count, so an empty workforce raises ZeroDivisionError.
  */
  function Summarize(rows: seq<EmployeeRow>): (r: Result<ExecutiveSummary>)
    ensures r.Err? <==> rows == []
    ensures r.Err? ==> r.error == ZeroDivisionError
    ensures r.Ok? ==> r.value.totalEmployees == |rows|
    ensures r.Ok? ==> r.value.averageSatisfaction == Sum(Satisfactions(rows)) / |rows| as real
    ensures r.Ok? ==> r.value.averageSentiment == 20.0 * r.value.averageSatisfaction
    ensures r.Ok? ==> r.value.highRisk == CountIf(rows, HighRiskRow)
    ensures r.Ok? ==> r.value.mediumRisk == CountIf(rows, MediumRiskRow)
    ensures r.Ok? ==> r.value.costAtRisk == 60000.0 * r.value.highRisk as real + 25000.0 * r.value.mediumRisk as real
  {
    var total := |rows|;
    if total == 0 then Err(ZeroDivisionError)
    else
      var average := Sum(Satisfactions(rows)) / total as real;
      var high := CountIf(rows, HighRiskRow);
      var medium := CountIf(rows, MediumRiskRow);
      var cost := high as real * 50000.0 + medium as real * 50000.0 * 0.3 + (high + medium) as real * 10000.0;
      Ok(ExecutiveSummary(total, average, average * 20.0, high, medium, total - high - medium, cost))
  }

  /** The low-risk count, computed as what remains, is exactly the number of satisfied employees. */
  lemma RiskLevelsPartition(rows: seq<EmployeeRow>)
    requires rows != []
    ensures Summarize(rows).Ok?
    ensures Summarize(rows).value.lowRisk == CountIf(rows, LowRiskRow)
    ensures Summarize(rows).value.lowRisk >= 0
  {
    CountPartition(rows, HighRiskRow, MediumRiskRow, LowRiskRow);
  }
}
