/**
  The deterministic part of the learning agents manager: the default business priorities,
  the JSON extraction applied to each agent's reply, the executive summary and the sample
  learning paths built for the first employees. The agents themselves are foreign calls;
  their replies are parameters.
*/
module LearningAgents {
  import opened Wrappers
  import opened JsonData
  import opened JsonWindow

  const DefaultPriorities: seq<string> := ["Customer service excellence", "Digital retail technology",
                                           "Sales and upselling", "Inventory management", "Team leadership"]

  /** `if not business_priorities`: a missing or empty list is replaced by the five defaults. */
  function BusinessPriorities(given: Option<seq<string>>): (r: seq<string>)
    ensures |r| >= 1
    ensures given.None? || given.value == [] ==> r == DefaultPriorities
    ensures given.Some? && given.value != [] ==> r == given.value
  {
    match given
    case Some(ps) => if ps == [] then DefaultPriorities else ps
    case None => DefaultPriorities
  }

  /** `_parse_json_response`: insights cut to 500 characters, confidence 0.88, status 'processed'. */
  function ParseJsonResponse(reply: Reply, category: string, loads: string -> Option<Json>): (r: Json)
    ensures reply.DictReply? ==> r == JObject(reply.fields)
    ensures reply.TextReply? && Window(reply.text).Some? && loads(Window(reply.text).value).Some? ==>
              r == loads(Window(reply.text).value).value
    ensures reply.TextReply? && (Window(reply.text).None? || loads(Window(reply.text).value).None?) ==>
              r == JObject(map["category" := JStr(category), "insights" := JStr(Take(reply.text, 500)),
                               "confidence" := JFloat(0.88), "status" := JStr("processed")])
  {
    ParseResponse(reply, category, 500, 0.88, true, loads)
  }

  datatype LearningModule = LearningModule(name: string, status: string, completion: nat, estimatedHours: nat)

  /** The three modules every sample path lists, the first one under way. */
  const SampleModules: seq<LearningModule> := [
    LearningModule("Customer Service Excellence", "in_progress", 65, 8),
    LearningModule("Inventory Management Systems", "not_started", 0, 12),
    LearningModule("Team Leadership Fundamentals", "not_started", 0, 16)
  ]

  function Hours(ms: seq<LearningModule>): nat {
    if ms == [] then 0 else ms[0].estimatedHours + Hours(ms[1..])
  }

  /** Twelve weeks, in seconds. */
  const TwelveWeeks: int := 12 * 7 * 24 * 3600

  /** One sample learning path; timestamps are seconds, `now` standing for `datetime.now()`. */
  datatype SamplePath = SamplePath(employeeId: Json, employeeName: Json, currentRole: Json, targetRole: string,
                                   learningModules: seq<LearningModule>, totalLearningHours: nat,
                                   estimatedCompletion: int, nextMilestone: string, coachRecommendation: string)

  /**
    The path for one employee: the identifier, name and role come from 'id', 'name' and
    'position' with the defaults 'unknown', 'Employee' and 'Sales Associate', so records keyed
    only by 'employee_id' get 'unknown'; the advertised total equals the modules' hours.
  */
  function PathFor(employee: Record, now: int): (p: SamplePath)
    ensures p.employeeId == (if "id" in employee then employee["id"] else JStr("unknown"))
    ensures p.employeeName == (if "name" in employee then employee["name"] else JStr("Employee"))
    ensures p.currentRole == (if "position" in employee then employee["position"] else JStr("Sales Associate"))
    ensures p.targetRole == "Department Manager" && p.learningModules == SampleModules
    ensures p.totalLearningHours == Hours(p.learningModules) == 36
    ensures p.estimatedCompletion == now + TwelveWeeks
  {
    assert Hours(SampleModules) == 36 by {
      assert SampleModules[1..][1..][1..] == [];
    }
    SamplePath(Get(employee, "id", JStr("unknown")), Get(employee, "name", JStr("Employee")),
               Get(employee, "position", JStr("Sales Associate")), "Department Manager",
               SampleModules, 36, now + TwelveWeeks,
               "Complete Customer Service Excellence module", "Schedule weekly check-in with manager")
  }

  /** `_generate_sample_paths`: one path per employee, in the order given. */
  method GenerateSamplePaths(employees: seq<Record>, now: int) returns (paths: seq<SamplePath>)
    ensures |paths| == |employees|
    ensures forall i :: 0 <= i < |employees| ==> paths[i] == PathFor(employees[i], now)
  {
    paths := [];
    for k := 0 to |employees|
      invariant |paths| == k
      invariant forall i :: 0 <= i < k ==> paths[i] == PathFor(employees[i], now)
    {
      paths := paths + [PathFor(employees[k], now)];
    }
  }

  datatype LearningSummary = LearningSummary(totalSkillGaps: nat, prioritySkills: seq<string>,
                                             averageTimeToCompetency: string, recommendedHoursPerWeek: nat,
                                             estimatedRoi: string, engagementTarget: real)

  /** The replies of the five agents, in the order their tasks run. */
  datatype LearningReplies = LearningReplies(skills: Reply, paths: Reply, content: Reply,
                                             monitoring: Reply, coaching: Reply)

  datatype LearningPlan = LearningPlan(workforceSize: nat, skillsAnalysis: Json, learningPaths: Json,
                                       contentLibrary: Json, monitoringFramework: Json, careerCoaching: Json,
                                       executiveSummary: LearningSummary, sampleEmployeePaths: seq<SamplePath>)

  /**
    `create_learning_paths` without the agents: it raises TypeError exactly when some
    department cannot be put in the skills prompt's set; otherwise the plan reports the
    workforce size, the five parsed replies, the first three priorities and a sample path
    for each of the first three employees, in order.
  */
  method CreateLearningPaths(employees: seq<Record>, priorities: Option<seq<string>>, replies: LearningReplies,
                             loads: string -> Option<Json>, now: int) returns (r: Result<LearningPlan>)
    ensures r.Ok? <==> forall i :: 0 <= i < |employees| ==> Hashable(Get(employees[i], "department", JStr("Unknown")))
    ensures r.Err? ==> r.error == TypeError
    ensures r.Ok? ==> r.value.workforceSize == |employees|
    ensures r.Ok? ==> r.value.skillsAnalysis == ParseJsonResponse(replies.skills, "skills", loads)
                      && r.value.learningPaths == ParseJsonResponse(replies.paths, "paths", loads)
                      && r.value.contentLibrary == ParseJsonResponse(replies.content, "content", loads)
                      && r.value.monitoringFramework == ParseJsonResponse(replies.monitoring, "monitoring", loads)
                      && r.value.careerCoaching == ParseJsonResponse(replies.coaching, "coaching", loads)
    ensures r.Ok? ==> r.value.executiveSummary.prioritySkills == Take(BusinessPriorities(priorities), 3)
                      && r.value.executiveSummary.totalSkillGaps == 15
    ensures r.Ok? ==> |r.value.sampleEmployeePaths| == Min(3, |employees|)
                      && forall i :: 0 <= i < |r.value.sampleEmployeePaths| ==>
                           r.value.sampleEmployeePaths[i] == PathFor(employees[i], now)
  {
    var departments := ValueSet(employees, "department", JStr("Unknown"));
    if departments.Err? {
      return Err(departments.error);
    }
    var business := BusinessPriorities(priorities);
    var summary := LearningSummary(15, Take(business, 3), "12 weeks", 2, "3.5x", 0.85);
    var first := Take(employees, 3);
    var samples := GenerateSamplePaths(first, now);
    r := Ok(LearningPlan(|employees|, ParseJsonResponse(replies.skills, "skills", loads),
                         ParseJsonResponse(replies.paths, "paths", loads),
                         ParseJsonResponse(replies.content, "content", loads),
                         ParseJsonResponse(replies.monitoring, "monitoring", loads),
                         ParseJsonResponse(replies.coaching, "coaching", loads), summary, samples));
  }
}
