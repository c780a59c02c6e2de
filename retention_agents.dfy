/**
  The deterministic part of the retention agents manager: the workforce figures computed
  while the agents' prompts are built (which decide whether the analysis raises), the JSON
  extraction applied to each agent's reply, and the result record with its executive summary.
  The agents themselves are foreign calls; their replies are parameters.
*/
module RetentionAgents {
  import opened Wrappers
  import opened JsonData
  import opened JsonWindow

  /** `_parse_json_response`: insights cut to 500 characters, confidence 0.85, status 'processed'. */
  function ParseJsonResponse(reply: Reply, category: string, loads: string -> Option<Json>): (r: Json)
    ensures reply.DictReply? ==> r == JObject(reply.fields)
    ensures reply.TextReply? && Window(reply.text).Some? && loads(Window(reply.text).value).Some? ==>
              r == loads(Window(reply.text).value).value
    ensures reply.TextReply? && (Window(reply.text).None? || loads(Window(reply.text).value).None?) ==>
              r == JObject(map["category" := JStr(category), "insights" := JStr(Take(reply.text, 500)),
                               "confidence" := JFloat(0.85), "status" := JStr("processed")])
  {
    ParseResponse(reply, category, 500, 0.85, true, loads)
  }

  /**
    A reply in which every `}` comes before every `{` (or that lacks one of them) has no JSON
    window, so it yields the fallback record whatever `json.loads` would do.
  */
  lemma ClosingBeforeOpeningFallsBack(text: string, category: string, loads: string -> Option<Json>)
    requires forall a, b :: 0 <= a < |text| && 0 <= b < |text| && text[a] == '{' && text[b] == '}' ==> b < a
    ensures ParseJsonResponse(TextReply(text), category, loads)
            == JObject(map["category" := JStr(category), "insights" := JStr(Take(text, 500)),
                           "confidence" := JFloat(0.85), "status" := JStr("processed")])
  {
    NoWindowYieldsFallback(text, category, 500, 0.85, true, loads);
  }

  /** Every record's `d.get(key, default)` is a number, so it can be added and compared. */
  predicate AllNumeric(ds: seq<Record>, key: string, default: real) {
    forall i :: 0 <= i < |ds| ==> NumField(ds[i], key, default).Ok?
  }

  /** `sum(d.get(key, default) for d in ds)`: TypeError when some value is not a number. */
  function SumField(ds: seq<Record>, key: string, default: real): (r: Result<real>)
    ensures r.Ok? <==> AllNumeric(ds, key, default)
    ensures r.Err? ==> r.error == TypeError
  {
    if ds == [] then Ok(0.0)
    else
      var rest :- SumField(ds[..|ds| - 1], key, default);
      var x :- NumField(ds[|ds| - 1], key, default);
      Ok(rest + x)
  }

  /** Records that all lack the key sum to `default` once per record. */
  lemma {:induction false} SumOfDefaults(ds: seq<Record>, key: string, default: real)
    requires forall i :: 0 <= i < |ds| ==> key !in ds[i]
    ensures SumField(ds, key, default) == Ok(default * |ds| as real)
  {
    if ds != [] {
      var init := ds[..|ds| - 1];
      assert forall i :: 0 <= i < |init| ==> init[i] == ds[i];
      SumOfDefaults(init, key, default);
      assert NumField(ds[|ds| - 1], key, default) == Ok(default);
      assert default * |init| as real + default == default * |ds| as real;
    }
  }

  /**
    `sum(d.get(key, default) for d in ds) / len(ds)`: the sum is taken first (TypeError), and
    an empty workforce then divides by zero.
  */
  function MeanField(ds: seq<Record>, key: string, default: real): (r: Result<real>)
    ensures ds == [] ==> r == Err(ZeroDivisionError)
    ensures ds != [] ==> (r.Ok? <==> AllNumeric(ds, key, default))
    ensures r.Ok? ==> r.value * |ds| as real == SumField(ds, key, default).value
  {
    var total :- SumField(ds, key, default);
    if |ds| == 0 then Err(ZeroDivisionError) else Ok(total / |ds| as real)
  }

  /** A workforce that records no value under the key averages exactly the default. */
  lemma MeanOfDefaults(ds: seq<Record>, key: string, default: real)
    requires ds != []
    requires forall i :: 0 <= i < |ds| ==> key !in ds[i]
    ensures MeanField(ds, key, default) == Ok(default)
  {
    SumOfDefaults(ds, key, default);
    assert (default * |ds| as real) / |ds| as real == default;
  }

  /** The number of records whose value under the key is a number above the bound. */
  function Above(key: string, default: real, bound: real): Record -> bool {
    d => NumField(d, key, default).Ok? && NumField(d, key, default).value > bound
  }

  /** `sum(1 for d in ds if d.get(key, default) > bound)`: TypeError on a non-numeric value. */
  function CountAbove(ds: seq<Record>, key: string, default: real, bound: real): (r: Result<nat>)
    ensures r.Ok? <==> AllNumeric(ds, key, default)
    ensures r.Ok? ==> r.value == CountIf(ds, Above(key, default, bound)) && r.value <= |ds|
    ensures r.Err? ==> r.error == TypeError
  {
    if ds == [] then Ok(0)
    else
      var rest :- CountAbove(ds[..|ds| - 1], key, default, bound);
      var x :- NumField(ds[|ds| - 1], key, default);
      Ok(rest + if x > bound then 1 else 0)
  }

  /** The workforce figures the risk and compensation prompts interpolate. */
  datatype PromptFigures = PromptFigures(averageTenure: real, departments: set<Json>,
                                         highOvertime: nat, averageWage: real)

  /**
    The figures in prompt order: average tenure (default 365 days), the set of departments
    (default 'Unknown'), the count of employees with more than 10 overtime hours, and the
    average hourly wage (default 20).
  */
  function Figures(employees: seq<Record>): (r: Result<PromptFigures>)
    ensures employees == [] ==> r == Err(ZeroDivisionError)
    ensures r.Ok? <==> employees != [] && AllNumeric(employees, "tenure_days", 365.0)
                       && (forall i :: 0 <= i < |employees| ==> Hashable(Get(employees[i], "department", JStr("Unknown"))))
                       && AllNumeric(employees, "overtime_hours", 0.0) && AllNumeric(employees, "hourly_wage", 20.0)
    ensures employees != [] && r.Err? ==> r.error == TypeError
    ensures r.Ok? ==> r.value.highOvertime == CountIf(employees, Above("overtime_hours", 0.0, 10.0))
  {
    var tenure :- MeanField(employees, "tenure_days", 365.0);
    var departments :- ValueSet(employees, "department", JStr("Unknown"));
    var overtime :- CountAbove(employees, "overtime_hours", 0.0, 10.0);
    var wage :- MeanField(employees, "hourly_wage", 20.0);
    Ok(PromptFigures(tenure, departments, overtime, wage))
  }

  /** Whether `hash(e['id'])` can be evaluated: the key is present and its value hashable. */
  predicate IdReadable(e: Record) {
    "id" in e && Hashable(e["id"])
  }

  /** The exception `hash(e['id'])` raises on a record that is not `IdReadable`. */
  function IdError(e: Record): PyError {
    if "id" !in e then KeyError("id") else TypeError
  }

  /**
    `high_risk_count` as written: `hash(e['id'])` for every employee, in order, so the first
    record without an 'id' key raises KeyError and the first with a list or dict id raises
    TypeError; the others count when `hash(id) % 10 < 3` (hash is an oracle).
  */
  function HighRiskCountAsWritten(employees: seq<Record>, hash: Json -> int): (r: Result<nat>)
    ensures r.Ok? <==> forall i :: 0 <= i < |employees| ==> IdReadable(employees[i])
    ensures r.Ok? ==> r.value <= |employees|
    ensures r.Err? ==> exists k :: 0 <= k < |employees| && !IdReadable(employees[k])
                                   && (forall i :: 0 <= i < k ==> IdReadable(employees[i]))
                                   && r.error == IdError(employees[k])
  {
    if employees == [] then Ok(0)
    else
      var init := employees[..|employees| - 1];
      var e := employees[|employees| - 1];
      assert forall i :: 0 <= i < |init| ==> init[i] == employees[i];
      var rest :- HighRiskCountAsWritten(init, hash);
      if !IdReadable(e) then Err(IdError(e))
      else Ok(rest + if hash(e["id"]) % 10 < 3 then 1 else 0)
  }

  /** The rows the retention endpoint passes in carry 'employee_id' and no 'id': they always raise KeyError. */
  lemma WarehouseRowsRaise(employees: seq<Record>, hash: Json -> int)
    requires employees != []
    requires forall i :: 0 <= i < |employees| ==> "employee_id" in employees[i] && "id" !in employees[i]
    ensures HighRiskCountAsWritten(employees, hash) == Err(KeyError("id"))
  {
    assert !IdReadable(employees[0]);
  }

  /** The identifier an employee record carries: 'employee_id' as the warehouse names it, else 'id'. */
  function EmployeeKey(e: Record): (k: Json)
    ensures "employee_id" in e ==> k == e["employee_id"]
    ensures "employee_id" !in e && "id" in e ==> k == e["id"]
  {
    if "employee_id" in e then e["employee_id"] else Get(e, "id", JNull)
  }

  function HighRisk(hash: Json -> int): Record -> bool {
    e => hash(EmployeeKey(e)) % 10 < 3
  }

  /** `high_risk_count` as intended: it never raises, and counts at most the workforce. */
  function HighRiskCount(employees: seq<Record>, hash: Json -> int): (n: nat)
    ensures n <= |employees|
  {
    CountIf(employees, HighRisk(hash))
  }

  /** On records keyed by 'id' alone the corrected count agrees with the code as written. */
  lemma {:induction false} CorrectedCountAgrees(employees: seq<Record>, hash: Json -> int)
    requires forall i :: 0 <= i < |employees| ==> IdReadable(employees[i]) && "employee_id" !in employees[i]
    ensures HighRiskCountAsWritten(employees, hash) == Ok(HighRiskCount(employees, hash))
  {
    if employees != [] {
      var init := employees[..|employees| - 1];
      var last := employees[|employees| - 1];
      assert forall i :: 0 <= i < |init| ==> init[i] == employees[i];
      CorrectedCountAgrees(init, hash);
      assert IdReadable(last) && "employee_id" !in last;
      assert EmployeeKey(last) == last["id"];
    }
  }

  const TopRiskFactors: seq<string> := ["Limited growth opportunities", "Compensation gaps", "Work-life balance"]

  datatype RiskSummary = RiskSummary(highRiskCount: nat, averageRiskScore: int, topRiskFactors: seq<string>,
                                     estimatedTurnoverCost: real, recommendedInvestment: int)

  /** The replies of the five agents, in the order their tasks run. */
  datatype RetentionReplies = RetentionReplies(risk: Reply, engagement: Reply, career: Reply,
                                               compensation: Reply, strategy: Reply)

  datatype RetentionReport = RetentionReport(workforceSize: nat, riskAnalysis: Json, engagementMetrics: Json,
                                             careerDevelopment: Json, compensationInsights: Json,
                                             retentionStrategy: Json, executiveSummary: RiskSummary)

  /**
    `analyze_retention_risks` without the agents, with the high-risk count corrected to read
    the identifier the records carry (as written it also raises on every warehouse row, see
    `WarehouseRowsRaise`): it raises exactly when the prompt figures do (an empty workforce
    divides by zero before any agent runs), and otherwise reports the workforce size, the
    five parsed replies and the fixed-rate summary.
  */
  function AnalyzeRetentionRisks(employees: seq<Record>, replies: RetentionReplies,
                                 loads: string -> Option<Json>, hash: Json -> int): (r: Result<RetentionReport>)
    ensures employees == [] ==> r == Err(ZeroDivisionError)
    ensures r.Ok? <==> Figures(employees).Ok?
    ensures r.Ok? ==> r.value.workforceSize == |employees|
    ensures r.Ok? ==> r.value.riskAnalysis == ParseJsonResponse(replies.risk, "risk_analysis", loads)
                      && r.value.engagementMetrics == ParseJsonResponse(replies.engagement, "engagement", loads)
                      && r.value.careerDevelopment == ParseJsonResponse(replies.career, "career", loads)
                      && r.value.compensationInsights == ParseJsonResponse(replies.compensation, "compensation", loads)
                      && r.value.retentionStrategy == ParseJsonResponse(replies.strategy, "strategy", loads)
    ensures r.Ok? ==> var s := r.value.executiveSummary;
                      s.highRiskCount == HighRiskCount(employees, hash) <= |employees|
                      && s.averageRiskScore == 42 && s.topRiskFactors == TopRiskFactors
                      && s.estimatedTurnoverCost == 7500.0 * |employees| as real
                      && s.recommendedInvestment == 2000 * |employees|
  {
    var _ :- Figures(employees);
    var n := |employees|;
    var summary := RiskSummary(HighRiskCount(employees, hash), 42, TopRiskFactors,
                               n as real * 0.15 * 50000.0, n * 2000);
    Ok(RetentionReport(n, ParseJsonResponse(replies.risk, "risk_analysis", loads),
                       ParseJsonResponse(replies.engagement, "engagement", loads),
                       ParseJsonResponse(replies.career, "career", loads),
                       ParseJsonResponse(replies.compensation, "compensation", loads),
                       ParseJsonResponse(replies.strategy, "strategy", loads), summary))
  }
}
