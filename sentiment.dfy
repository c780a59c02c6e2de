/**
  The deterministic parts of the sentiment agents: the root-cause line parser, the
  recommendation builder, trend and risk classification, score and keyword extraction from
  an agent's reply, concern aggregation, pulse-survey templates, and the heat-map cell and
  team-distribution classifications.
*/
module Sentiment {
  import opened Wrappers
  import opened JsonData
  import opened Text
  import opened JsonWindow

  // ---------------------------------------------------------------- root causes

  const RootCauseDefaults: seq<string> := [
    "Workload distribution requires optimization",
    "Team communication patterns need improvement",
    "Growth opportunities are limited",
    "Work-life balance concerns detected"
  ]

  /** The characters `lstrip('0123456789.-•) ')` removes. */
  const ListMarkChars: set<char> := {'0', '1', '2', '3', '4', '5', '6', '7', '8', '9', '.', '-', '•', ')', ' '}

  /** A stripped line that starts like a list item: with a digit, `-` or `•`. */
  predicate StartsAsItem(line: string) {
    line != [] && (IsDigit(line[0]) || line[0] == '-' || line[0] == '•')
  }

  /** The text of a list item with its numbering, bullets and surrounding spaces removed. */
  function Cleaned(line: string): string {
    Strip(LStripChars(Strip(line), ListMarkChars))
  }

  /** A line of the reply kept as a root cause: a list item whose cleaned text is longer than 10. */
  function CauseOf(line: string): Option<string> {
    if StartsAsItem(Strip(line)) && |Cleaned(line)| > 10 then Some(Cleaned(line)) else None
  }

  /** The cleaned texts of the accepted lines, in input order. */
  function AcceptedCauses(lines: seq<string>): seq<string> {
    FilterMap(lines, CauseOf)
  }

  /** Every accepted cause is longer than 10 and comes from a list-item line of the input. */
  lemma AcceptedCausesFromLines(lines: seq<string>, i: nat)
    requires i < |AcceptedCauses(lines)|
    ensures |AcceptedCauses(lines)[i]| > 10
    ensures exists j :: 0 <= j < |lines| && StartsAsItem(Strip(lines[j])) && Cleaned(lines[j]) == AcceptedCauses(lines)[i]
  {
    FilterMapFrom(lines, CauseOf, i);
  }

  /** The first four accepted causes, completed from the defaults when fewer were found. */
  function CompleteCauses(accepted: seq<string>): (r: seq<string>)
    ensures |r| == 4
    ensures forall i :: 0 <= i < 4 ==> r[i] == if i < |accepted| then accepted[i] else RootCauseDefaults[i]
  {
    var causes := if |accepted| < 4 then accepted + RootCauseDefaults[|accepted|..4] else accepted;
    causes[..4]
  }

  /** `_parse_root_causes`. */
  method ParseRootCauses(response: string) returns (causes: seq<string>)
    ensures causes == CompleteCauses(AcceptedCauses(Split(response, '\n')))
  {
    var accepted := Collect(Split(response, '\n'), CauseOf);
    causes := CompleteCauses(accepted);
  }

  /** A reply without any list item yields exactly the four defaults. */
  lemma NoItemsGivesDefaults(lines: seq<string>)
    requires forall j :: 0 <= j < |lines| ==> !StartsAsItem(Strip(lines[j]))
    ensures CompleteCauses(AcceptedCauses(lines)) == RootCauseDefaults
  {
    if |AcceptedCauses(lines)| > 0 {
      AcceptedCausesFromLines(lines, 0);
    }
  }

  // ---------------------------------------------------------------- recommendations

  /** The fixed recommendation sentences. */
  datatype Recommendation =
    | ReviewWorkload | OneOnOne | Onboarding | Recognition
    | PulseSurveys | SkillDevelopment | FlexibleScheduling
  {
    function Text(): string {
      match this
      case ReviewWorkload => "Review workload distribution and consider additional support"
      case OneOnOne => "Schedule 1-on-1 meeting to discuss concerns and career goals"
      case Onboarding => "Enhance onboarding support and assign a mentor"
      case Recognition => "Recognize high performance and discuss advancement opportunities"
      case PulseSurveys => "Implement regular pulse surveys for continuous feedback"
      case SkillDevelopment => "Create opportunities for skill development and training"
      case FlexibleScheduling => "Improve work-life balance through flexible scheduling"
    }
  }

  const GenericRecs: seq<Recommendation> := [PulseSurveys, SkillDevelopment, FlexibleScheduling]

  /** The employee-specific recommendations that apply, in the order the rules are checked. */
  function SpecificRecommendations(overtime: real, satisfaction: real, tenure: real, performance: real): (r: seq<Recommendation>)
    ensures |r| <= 4
  {
    (if overtime > 10.0 then [ReviewWorkload] else [])
    + (if satisfaction < 3.0 then [OneOnOne] else [])
    + (if tenure < 180.0 then [Onboarding] else [])
    + (if performance > 4.0 then [Recognition] else [])
  }

  /** Each specific recommendation is present exactly when its rule fires, and no generic one is. */
  lemma SpecificRecommendationRules(overtime: real, satisfaction: real, tenure: real, performance: real)
    ensures var r := SpecificRecommendations(overtime, satisfaction, tenure, performance);
            && (ReviewWorkload in r <==> overtime > 10.0) && (OneOnOne in r <==> satisfaction < 3.0)
            && (Onboarding in r <==> tenure < 180.0) && (Recognition in r <==> performance > 4.0)
            && forall g :: g in GenericRecs ==> g !in r
  {
  }

  /** The four employee fields the rules read are absent or numeric (otherwise comparing them raises TypeError). */
  predicate FactorsReadable(employee: Record) {
    && NumField(employee, "overtime_hours", 0.0).Ok?
    && NumField(employee, "satisfaction_score", 3.5).Ok?
    && NumField(employee, "tenure_days", 0.0).Ok?
    && NumField(employee, "performance_score", 3.5).Ok?
  }

  function SpecificFor(employee: Record): seq<Recommendation>
    requires FactorsReadable(employee)
  {
    SpecificRecommendations(NumField(employee, "overtime_hours", 0.0).value,
                            NumField(employee, "satisfaction_score", 3.5).value,
                            NumField(employee, "tenure_days", 0.0).value,
                            NumField(employee, "performance_score", 3.5).value)
  }

  /** The specific recommendations, completed by the generic ones when fewer than three apply, at most five. */
  function WithGenerics(specific: seq<Recommendation>): (r: seq<Recommendation>)
    requires |specific| <= 4
    ensures 3 <= |r| <= 5
    ensures |specific| <= |r| && r[..|specific|] == specific
    ensures |specific| < 3 ==> r[|specific|..] == GenericRecs
    ensures |specific| >= 3 ==> r == specific
  {
    Take(if |specific| < 3 then specific + GenericRecs else specific, 5)
  }

  /** `_generate_recommendations` (the strategy argument is unused by the source). */
  method GenerateRecommendations(employee: Record) returns (r: Result<seq<Recommendation>>)
    ensures r.Ok? <==> FactorsReadable(employee)
    ensures r.Err? ==> r.error == TypeError
    ensures r.Ok? ==> r.value == WithGenerics(SpecificFor(employee))
  {
    var overtime :- NumField(employee, "overtime_hours", 0.0);
    var satisfaction :- NumField(employee, "satisfaction_score", 3.5);
    var tenure :- NumField(employee, "tenure_days", 0.0);
    var performance :- NumField(employee, "performance_score", 3.5);
    var recommendations: seq<Recommendation> := [];
    if overtime > 10.0 {
      recommendations := recommendations + [ReviewWorkload];
    }
    if satisfaction < 3.0 {
      recommendations := recommendations + [OneOnOne];
    }
    if tenure < 180.0 {
      recommendations := recommendations + [Onboarding];
    }
    if performance > 4.0 {
      recommendations := recommendations + [Recognition];
    }
    assert recommendations == SpecificFor(employee);
    if |recommendations| < 3 {
      recommendations := recommendations + GenericRecs;
    }
    r := Ok(Take(recommendations, 5));
  }

  /** A missing `tenure_days` counts as 0, so the onboarding recommendation is always included. */
  lemma MissingTenureGetsOnboarding(employee: Record)
    requires FactorsReadable(employee) && "tenure_days" !in employee
    ensures Onboarding in WithGenerics(SpecificFor(employee))
  {
    var specific := SpecificFor(employee);
    SpecificRecommendationRules(NumField(employee, "overtime_hours", 0.0).value,
                                NumField(employee, "satisfaction_score", 3.5).value, 0.0,
                                NumField(employee, "performance_score", 3.5).value);
    var k :| 0 <= k < |specific| && specific[k] == Onboarding;
    assert WithGenerics(specific)[k] == Onboarding;
  }

  // ---------------------------------------------------------------- trend

  datatype Trend = Improving | Declining | Stable

  /** `h.get('score', 50)` as a number: 50 when absent, TypeError when not a number. */
  function ScoreOf(h: Record): (r: Result<real>)
    ensures "score" !in h ==> r == Ok(50.0)
    ensures "score" in h ==> (r.Ok? <==> IsNumber(h["score"]))
    ensures "score" in h && IsNumber(h["score"]) ==> r == Ok(NumberValue(h["score"]))
  {
    NumField(h, "score", 50.0)
  }

  /**
    `_determine_trend`: compares the mean of the last two scores with the first score of the
    window of the last three entries (or of both entries when there are only two).
  */
  function DetermineTrend(historical: Option<seq<Record>>): (r: Result<Trend>)
    ensures (historical.None? || |historical.value| < 2) ==> r == Ok(Stable)
    ensures historical.Some? && |historical.value| >= 2 ==>
              var h := historical.value;
              var older := ScoreOf(h[|h| - Min(|h|, 3)]);
              var previous := ScoreOf(h[|h| - 2]);
              var last := ScoreOf(h[|h| - 1]);
              && (r.Err? <==> older.Err? || previous.Err? || last.Err?)
              && (r.Err? ==> r.error == TypeError)
              && (r.Ok? ==> (r.value == Improving <==> (previous.value + last.value) / 2.0 > older.value + 5.0))
              && (r.Ok? ==> (r.value == Declining <==> (previous.value + last.value) / 2.0 < older.value - 5.0))
  {
    if historical.None? || |historical.value| < 2 then Ok(Stable)
    else
      var recent := PySliceFrom(historical.value, -3);
      var last := ScoreOf(recent[|recent| - 1]);
      var previous := ScoreOf(recent[|recent| - 2]);
      var older := ScoreOf(recent[0]);
      if last.Err? || previous.Err? || older.Err? then Err(TypeError)
      else
        var recentAvg := (previous.value + last.value) / 2.0;
        if recentAvg > older.value + 5.0 then Ok(Improving)
        else if recentAvg < older.value - 5.0 then Ok(Declining)
        else Ok(Stable)
  }

  /** Only the last three entries of a history decide its trend. */
  lemma TrendUsesLastThree(earlier: seq<Record>, last3: seq<Record>)
    requires |last3| == 3
    ensures DetermineTrend(Some(earlier + last3)) == DetermineTrend(Some(last3))
  {
    var h := earlier + last3;
    assert PySliceFrom(h, -3) == last3;
    assert PySliceFrom(last3, -3) == last3;
  }

  /**
    With only two entries the first is both the older score and one of the two averaged, so
    the trend moves only when the second score differs from the first by more than 10.
  */
  lemma TrendOfTwo(first: Record, second: Record)
    requires ScoreOf(first).Ok? && ScoreOf(second).Ok?
    ensures var a := ScoreOf(first).value;
            var b := ScoreOf(second).value;
            && (DetermineTrend(Some([first, second])) == Ok(Improving) <==> b > a + 10.0)
            && (DetermineTrend(Some([first, second])) == Ok(Declining) <==> b < a - 10.0)
  {
    var h := [first, second];
    assert h[|h| - Min(|h|, 3)] == first;
  }

  /** A history whose entries carry no score compares 50 with 50 and is stable. */
  lemma UnscoredHistoryIsStable(h: seq<Record>)
    requires forall k :: 0 <= k < |h| ==> "score" !in h[k]
    ensures DetermineTrend(Some(h)) == Ok(Stable)
  {
    if |h| >= 2 {
      assert "score" !in h[|h| - Min(|h|, 3)];
      assert "score" !in h[|h| - 2] && "score" !in h[|h| - 1];
    }
  }

  // ---------------------------------------------------------------- score and value extraction

  /** The number of leading ASCII digits. */
  function DigitRun(s: string): (n: nat)
    ensures n <= |s|
    ensures forall i :: 0 <= i < n ==> IsDigit(s[i])
    ensures n < |s| ==> !IsDigit(s[n])
  {
    if s != [] && IsDigit(s[0]) then 1 + DigitRun(s[1..]) else 0
  }

  function DigitsValue(ds: string): nat
    requires forall i :: 0 <= i < |ds| ==> IsDigit(ds[i])
  {
    if ds == [] then 0
    else
      assert IsDigit(ds[|ds| - 1]);
      10 * DigitsValue(ds[..|ds| - 1]) + (ds[|ds| - 1] as int - '0' as int)
  }

  function Pow10(n: nat): (r: nat)
    ensures r >= 1
  {
    if n == 0 then 1 else 10 * Pow10(n - 1)
  }

  /** The value of a token matching `\d+\.?\d*` at the start of `s`, which begins with a digit. */
  function LeadingNumber(s: string): (r: real)
    requires s != [] && IsDigit(s[0])
    ensures r >= 0.0
  {
    var k := DigitRun(s);
    var whole := DigitsValue(s[..k]) as real;
    if k < |s| && s[k] == '.' then
      var f := DigitRun(s[k + 1..]);
      whole + (DigitsValue(s[k + 1..][..f]) as real) / (Pow10(f) as real)
    else whole
  }

  /** The first match of `\d+\.?\d*` in the text, as a float (`re.findall(...)[0]`). */
  function FirstNumber(s: string): (r: Option<real>)
    ensures r.None? <==> forall i :: 0 <= i < |s| ==> !IsDigit(s[i])
    ensures r.Some? ==> r.value >= 0.0
  {
    if s == [] then None
    else if IsDigit(s[0]) then Some(LeadingNumber(s))
    else
      var rest := FirstNumber(s[1..]);
      assert forall i :: 1 <= i < |s| ==> s[i] == s[1..][i - 1];
      rest
  }

  /** Text before the first digit does not change the number found. */
  lemma {:induction false} FirstNumberSkipsText(prefix: string, s: string)
    requires forall i :: 0 <= i < |prefix| ==> !IsDigit(prefix[i])
    ensures FirstNumber(prefix + s) == FirstNumber(s)
  {
    if prefix != [] {
      assert (prefix + s)[0] == prefix[0] && !IsDigit(prefix[0]);
      assert (prefix + s)[1..] == prefix[1..] + s;
      assert FirstNumber(prefix + s) == FirstNumber((prefix + s)[1..]);
      FirstNumberSkipsText(prefix[1..], s);
    } else {
      assert prefix + s == s;
    }
  }

  /**
    `_extract_score`: from a dict, `float(response.get(key, default))`, where `parseFloat`
    stands for `float` on a string and any failure falls back to the default; from any other
    reply, the first number in its text, or the default.
  */
  function ExtractScore(response: Reply, key: string, default: real, parseFloat: string -> Option<real>): (r: real)
    ensures response.DictReply? && key !in response.fields ==> r == default
    ensures response.DictReply? && key in response.fields && IsNumber(response.fields[key]) ==>
              r == NumberValue(response.fields[key])
    ensures response.DictReply? && key in response.fields && response.fields[key].JStr? ==>
              r == parseFloat(response.fields[key].s).GetOr(default)
    ensures response.DictReply? && key in response.fields && !IsNumber(response.fields[key]) && !response.fields[key].JStr? ==>
              r == default
    ensures response.TextReply? ==> r == FirstNumber(response.text).GetOr(default)
    ensures response.TextReply? && (forall i :: 0 <= i < |response.text| ==> !IsDigit(response.text[i])) ==> r == default
  {
    match response
    case DictReply(fields) =>
      if key !in fields then default
      else
        var v := fields[key];
        if IsNumber(v) then NumberValue(v)
        else if v.JStr? then parseFloat(v.s).GetOr(default)
        else default
    case TextReply(text) => FirstNumber(text).GetOr(default)
  }

  /**
    `_extract_value`: from a dict, `str(response.get(key, default))`, where `render` stands
    for `str` on non-string values; otherwise 'positive' when the lowercased text mentions it,
    else 'negative' when it mentions that, else the default.
  */
  function ExtractValue(response: Reply, key: string, default: string, render: Json -> string): (r: string)
    ensures response.DictReply? && key !in response.fields ==> r == default
    ensures response.DictReply? && key in response.fields && response.fields[key].JStr? ==>
              r == response.fields[key].s
    ensures response.TextReply? ==>
              && (r == "positive" <==> Contains(Lower(response.text), "positive") || (default == "positive" && !Contains(Lower(response.text), "negative")))
              && (Contains(Lower(response.text), "positive") ==> r == "positive")
              && (!Contains(Lower(response.text), "positive") && Contains(Lower(response.text), "negative") ==> r == "negative")
              && (!Contains(Lower(response.text), "positive") && !Contains(Lower(response.text), "negative") ==> r == default)
  {
    match response
    case DictReply(fields) =>
      if key !in fields then default
      else if fields[key].JStr? then fields[key].s
      else render(fields[key])
    case TextReply(text) =>
      var lowered := Lower(text);
      if Contains(lowered, "positive") then "positive"
      else if Contains(lowered, "negative") then "negative"
      else default
  }

  // ---------------------------------------------------------------- risk level

  datatype RiskLevel = Low | Medium | High {
    function Rank(): nat {
      match this
      case Low => 0
      case Medium => 1
      case High => 2
    }
  }

  /** `(100 - sentiment) * 0.6 + burnout * 0.4`, with the weights as exact fractions. */
  function CombinedRisk(sentimentScore: real, burnoutRisk: real): real {
    (100.0 - sentimentScore) * 3.0 / 5.0 + burnoutRisk * 2.0 / 5.0
  }

  function RiskLevelOf(combined: real): (r: RiskLevel)
    ensures r == High <==> combined > 70.0
    ensures r == Low <==> combined <= 40.0
  {
    if combined > 70.0 then High else if combined > 40.0 then Medium else Low
  }

  /**
    `_calculate_risk_level`: the two extracted scores are weighed 0.6 for the distance of the
    sentiment from 100 and 0.4 for burnout; sentiment defaults to 70 and burnout to 30.
  */
  function CalculateRiskLevel(sentiment: Reply, behavioral: Reply, parseFloat: string -> Option<real>): (r: RiskLevel)
    ensures var s := ExtractScore(sentiment, "sentiment_score", 70.0, parseFloat);
            var b := ExtractScore(behavioral, "burnout_risk", 30.0, parseFloat);
            && (r == High <==> (100.0 - s) * 0.6 + b * 0.4 > 70.0)
            && (r == Low <==> (100.0 - s) * 0.6 + b * 0.4 <= 40.0)
    ensures (&& sentiment.TextReply? && behavioral.TextReply?
             && (forall i :: 0 <= i < |sentiment.text| ==> !IsDigit(sentiment.text[i]))
             && (forall i :: 0 <= i < |behavioral.text| ==> !IsDigit(behavioral.text[i])))
            ==> r == Low
  {
    var s := ExtractScore(sentiment, "sentiment_score", 70.0, parseFloat);
    var b := ExtractScore(behavioral, "burnout_risk", 30.0, parseFloat);
    RiskLevelOf(CombinedRisk(s, b))
  }

  /** A lower sentiment or a higher burnout never lowers the risk level. */
  lemma RiskLevelMonotone(s1: real, b1: real, s2: real, b2: real)
    requires s2 <= s1 && b1 <= b2
    ensures RiskLevelOf(CombinedRisk(s1, b1)).Rank() <= RiskLevelOf(CombinedRisk(s2, b2)).Rank()
  {
    assert CombinedRisk(s1, b1) <= CombinedRisk(s2, b2);
  }

  // ---------------------------------------------------------------- JSON replies

  /** `_parse_json_response` of the sentiment agents: 300-character insights, confidence 0.75, no status. */
  function ParseJsonResponse(reply: Reply, category: string, loads: string -> Option<Json>): (r: Json)
    ensures reply.DictReply? ==> r == JObject(reply.fields)
    ensures reply.TextReply? && Window(reply.text).Some? && loads(Window(reply.text).value).Some? ==>
              r == loads(Window(reply.text).value).value
    ensures reply.TextReply? && (Window(reply.text).None? || loads(Window(reply.text).value).None?) ==>
              r == JObject(map["category" := JStr(category), "insights" := JStr(Take(reply.text, 300)),
                               "confidence" := JFloat(0.75)])
  {
    ParseResponse(reply, category, 300, 0.75, false, loads)
  }

  // ---------------------------------------------------------------- concerns

  /**
    The concerns one sentiment contributes: `sentiment['key_drivers']['negative']` when the
    `in` test finds it, extended into the list as its items (a string gives its characters).
  */
  function ConcernsOf(sentiment: Record): (r: Result<seq<Json>>)
    ensures "key_drivers" !in sentiment ==> r == Ok([])
    ensures "key_drivers" in sentiment && sentiment["key_drivers"].JObject? ==>
              var drivers := sentiment["key_drivers"].fields;
              && ("negative" !in drivers ==> r == Ok([]))
              && ("negative" in drivers && drivers["negative"].JArray? ==> r == Ok(drivers["negative"].items))
              && ("negative" in drivers && drivers["negative"].JStr? ==>
                    r.Ok? && |r.value| == |drivers["negative"].s|
                    && forall i :: 0 <= i < |r.value| ==> r.value[i] == JStr([drivers["negative"].s[i]]))
    ensures r.Err? ==> r.error == TypeError
    ensures r.Err? ==> "key_drivers" in sentiment && !(sentiment["key_drivers"].JObject? && "negative" !in sentiment["key_drivers"].fields)
  {
    if "key_drivers" !in sentiment then Ok([])
    else match sentiment["key_drivers"]
      case JObject(drivers) =>
        if "negative" !in drivers then Ok([])
        else (match drivers["negative"]
          case JArray(items) => Ok(items)
          case JStr(s) => Ok(seq(|s|, i requires 0 <= i < |s| => JStr([s[i]])))
          case _ => Err(TypeError))
      case JArray(items) => if JStr("negative") in items then Err(TypeError) else Ok([])
      case JStr(s) => if Contains(s, "negative") then Err(TypeError) else Ok([])
      case _ => Err(TypeError)
  }

  function Count(xs: seq<Json>, x: Json): (n: nat)
    ensures n <= |xs|
    ensures n > 0 <==> x in xs
  {
    if xs == [] then 0 else (if xs[0] == x then 1 else 0) + Count(xs[1..], x)
  }

  /** The distinct elements, in order of first occurrence. */
  function Distinct(xs: seq<Json>): (r: seq<Json>)
    ensures forall x :: x in r <==> x in xs
    ensures forall i, j :: 0 <= i < j < |r| ==> r[i] != r[j]
  {
    if xs == [] then []
    else
      var rest := Distinct(xs[..|xs| - 1]);
      if xs[|xs| - 1] in rest then rest else rest + [xs[|xs| - 1]]
  }

  /** Inserts `x` after every element counted at least as often, keeping earlier ties first. */
  function InsertByCount(x: Json, sorted: seq<Json>, xs: seq<Json>): (r: seq<Json>)
    ensures multiset(r) == multiset(sorted) + multiset{x}
  {
    if sorted == [] then [x]
    else
      assert sorted == [sorted[0]] + sorted[1..];
      if Count(xs, sorted[0]) >= Count(xs, x) then [sorted[0]] + InsertByCount(x, sorted[1..], xs)
      else [x] + sorted
  }

  predicate ByCount(s: seq<Json>, xs: seq<Json>) {
    forall i, j :: 0 <= i < j < |s| ==> Count(xs, s[i]) >= Count(xs, s[j])
  }

  lemma {:induction false} InsertKeepsOrder(x: Json, sorted: seq<Json>, xs: seq<Json>)
    requires ByCount(sorted, xs)
    ensures ByCount(InsertByCount(x, sorted, xs), xs)
  {
    if sorted != [] && Count(xs, sorted[0]) >= Count(xs, x) {
      InsertKeepsOrder(x, sorted[1..], xs);
      var tail := InsertByCount(x, sorted[1..], xs);
      assert multiset(tail) == multiset(sorted[1..]) + multiset{x};
      forall k | 0 <= k < |tail|
        ensures Count(xs, sorted[0]) >= Count(xs, tail[k])
      {
        assert tail[k] in multiset(tail);
        if tail[k] != x {
          assert tail[k] in multiset(sorted[1..]);
          var m :| 0 <= m < |sorted[1..]| && sorted[1..][m] == tail[k];
          assert sorted[m + 1] == tail[k];
        }
      }
    }
  }

  /** The elements, most frequent first, by insertion in order of first occurrence. */
  function SortByCount(ds: seq<Json>, xs: seq<Json>): (r: seq<Json>)
    ensures multiset(r) == multiset(ds)
  {
    if ds == [] then []
    else
      assert ds == ds[..|ds| - 1] + [ds[|ds| - 1]];
      InsertByCount(ds[|ds| - 1], SortByCount(ds[..|ds| - 1], xs), xs)
  }

  lemma {:induction false} SortByCountOrdered(ds: seq<Json>, xs: seq<Json>)
    ensures ByCount(SortByCount(ds, xs), xs)
  {
    if ds != [] {
      SortByCountOrdered(ds[..|ds| - 1], xs);
      InsertKeepsOrder(ds[|ds| - 1], SortByCount(ds[..|ds| - 1], xs), xs);
    }
  }

  /** `Counter(xs).most_common(n)`, keys only. */
  function MostCommon(xs: seq<Json>, n: nat): seq<Json> {
    Take(SortByCount(Distinct(xs), xs), n)
  }

  /**
    The most common concerns are distinct concerns that occur, listed most frequent first, and
    as many as asked for or as there are distinct concerns.
  */
  lemma MostCommonProperties(xs: seq<Json>, n: nat)
    ensures var r := MostCommon(xs, n);
            && |r| == Min(n, |Distinct(xs)|)
            && (forall x :: x in r ==> x in xs)
            && (forall i, j :: 0 <= i < j < |r| ==> r[i] != r[j])
            && ByCount(r, xs)
  {
    Ranking(xs);
  }

  /**
    A concern left out of the most common ones: the list is full, and the concern occurs no more
    often than any listed one.
  */
  lemma MostCommonOmitted(xs: seq<Json>, n: nat, x: Json)
    requires x in xs && x !in MostCommon(xs, n)
    ensures |MostCommon(xs, n)| == n
    ensures forall k :: 0 <= k < n ==> Count(xs, MostCommon(xs, n)[k]) >= Count(xs, x)
  {
    var s := SortByCount(Distinct(xs), xs);
    Ranking(xs);
    var r := MostCommon(xs, n);
    var m :| 0 <= m < |s| && s[m] == x;
    assert m >= |r|;
  }

  /** Every concern is ranked exactly once, most frequent first. */
  lemma Ranking(xs: seq<Json>)
    ensures var s := SortByCount(Distinct(xs), xs);
            && |s| == |Distinct(xs)|
            && (forall x :: x in s <==> x in xs)
            && (forall i, j :: 0 <= i < j < |s| ==> s[i] != s[j])
            && ByCount(s, xs)
  {
    var d := Distinct(xs);
    var s := SortByCount(d, xs);
    SortByCountOrdered(d, xs);
    assert |s| == |d| by {
      assert |multiset(s)| == |multiset(d)|;
    }
    forall x
      ensures x in s <==> x in xs
    {
      assert x in s <==> x in multiset(s);
      assert x in d <==> x in multiset(d);
    }
    forall i, j | 0 <= i < j < |s|
      ensures s[i] != s[j]
    {
      DistinctInMultiset(d, s, i, j);
    }
  }

  /** A permutation of a duplicate-free sequence is duplicate-free. */
  lemma DistinctInMultiset(d: seq<Json>, s: seq<Json>, i: int, j: int)
    requires forall a, b :: 0 <= a < b < |d| ==> d[a] != d[b]
    requires multiset(s) == multiset(d)
    requires 0 <= i < j < |s|
    ensures s[i] != s[j]
  {
    if s[i] == s[j] {
      assert multiset(s)[s[i]] >= 2 by {
        var rest := s[..i] + s[i + 1..];
        assert s == s[..i] + [s[i]] + s[i + 1..];
        assert s[j] in s[i + 1..];
        assert multiset(s) == multiset(s[..i]) + multiset{s[i]} + multiset(s[i + 1..]);
      }
      DistinctCountsOnce(d, s[i]);
    }
  }

  lemma {:induction false} DistinctCountsOnce(d: seq<Json>, x: Json)
    requires forall a, b :: 0 <= a < b < |d| ==> d[a] != d[b]
    ensures multiset(d)[x] <= 1
  {
    if d != [] {
      var init := d[..|d| - 1];
      assert d == init + [d[|d| - 1]];
      DistinctCountsOnce(init, x);
      if x == d[|d| - 1] {
        assert x !in init;
      }
    }
  }

  /**
    The key a Counter files a value under: Python's `1 == 1.0 == True` (with equal hashes)
    makes every number one key with its numeric value.
  */
  function CounterKey(v: Json): Json {
    if IsNumber(v) then JFloat(NumberValue(v)) else v
  }

  function CounterKeys(xs: seq<Json>): (r: seq<Json>)
    ensures |r| == |xs|
    ensures forall i :: 0 <= i < |xs| ==> r[i] == CounterKey(xs[i])
  {
    seq(|xs|, i requires 0 <= i < |xs| => CounterKey(xs[i]))
  }

  /** The position of the first value filed under key `k`. */
  function FirstIndexOfKey(xs: seq<Json>, k: Json): (i: nat)
    requires k in CounterKeys(xs)
    ensures i < |xs| && CounterKey(xs[i]) == k
    ensures forall j :: 0 <= j < i ==> CounterKey(xs[j]) != k
  {
    if CounterKey(xs[0]) == k then 0
    else
      assert k in CounterKeys(xs[1..]) by {
        var m :| 0 <= m < |xs| && CounterKeys(xs)[m] == k;
        assert CounterKeys(xs[1..])[m - 1] == k;
      }
      var i := FirstIndexOfKey(xs[1..], k);
      assert xs[i + 1] == xs[1..][i];
      assert forall j :: 0 <= j < i + 1 ==> CounterKey(xs[j]) != k by {
        forall j | 0 <= j < i + 1
          ensures CounterKey(xs[j]) != k
        {
          if j > 0 {
            assert xs[j] == xs[1..][j - 1];
          }
        }
      }
      i + 1
  }

  /** The value a Counter reports for a key: the first one filed under it. */
  function FirstOfKey(xs: seq<Json>, k: Json): (r: Json)
    requires k in CounterKeys(xs)
    ensures r in xs && CounterKey(r) == k
  {
    xs[FirstIndexOfKey(xs, k)]
  }

  /**
    `[c for c, _ in Counter(xs).most_common(n)]`: the most common keys, most frequent first,
    each reported as the first value filed under it.
  */
  function MostCommonConcerns(xs: seq<Json>, n: nat): (r: seq<Json>)
    ensures var top := MostCommon(CounterKeys(xs), n);
            && |r| == |top|
            && forall i :: 0 <= i < |r| ==> r[i] in xs && CounterKey(r[i]) == top[i]
  {
    var top := MostCommon(CounterKeys(xs), n);
    MostCommonProperties(CounterKeys(xs), n);
    FirstsOfKeys(xs, top)
  }

  /** The first value filed under each of the keys `ks`. */
  function FirstsOfKeys(xs: seq<Json>, ks: seq<Json>): (r: seq<Json>)
    requires forall k :: k in ks ==> k in CounterKeys(xs)
    ensures |r| == |ks|
    ensures forall i :: 0 <= i < |r| ==> r[i] in xs && CounterKey(r[i]) == ks[i]
  {
    if ks == [] then []
    else
      var first := FirstOfKey(xs, ks[0]);
      assert first in xs;
      [first] + FirstsOfKeys(xs, ks[1..])
  }

  /** `_aggregate_concerns`: every sentiment's negative drivers, then the five most common. */
  method AggregateConcerns(sentiments: seq<Record>) returns (r: Result<seq<Json>>)
    ensures r.Ok? <==> && (forall k :: 0 <= k < |sentiments| ==> ConcernsOf(sentiments[k]).Ok?)
                       && (forall x :: x in AllConcerns(sentiments) ==> Hashable(x))
    ensures r.Err? ==> r.error == TypeError
    ensures r.Ok? ==> r.value == MostCommonConcerns(AllConcerns(sentiments), 5)
  {
    var all: seq<Json> := [];
    var i := 0;
    while i < |sentiments|
      invariant 0 <= i <= |sentiments|
      invariant forall k :: 0 <= k < i ==> ConcernsOf(sentiments[k]).Ok?
      invariant all == AllConcerns(sentiments[..i])
    {
      assert sentiments[..i + 1][..i] == sentiments[..i];
      var concerns := ConcernsOf(sentiments[i]);
      if concerns.Err? {
        return Err(concerns.error);
      }
      all := all + concerns.value;
      i := i + 1;
    }
    assert sentiments[..i] == sentiments;
    if exists k :: 0 <= k < |all| && !Hashable(all[k]) {
      return Err(TypeError);
    }
    r := Ok(MostCommonConcerns(all, 5));
  }

  /** All negative drivers of the readable sentiments, in order. */
  function AllConcerns(sentiments: seq<Record>): seq<Json> {
    if sentiments == [] then []
    else
      var last := ConcernsOf(sentiments[|sentiments| - 1]);
      AllConcerns(sentiments[..|sentiments| - 1]) + (if last.Ok? then last.value else [])
  }

  /** The negative drivers every employee analysis reports. */
  const NegativeDrivers: seq<Json> := [JStr("Workload pressure"), JStr("Limited growth"), JStr("Work-life balance")]

  /** `t` repeated `n` times: what a loop that extends a list with `t` on each of `n` rounds builds. */
  function Repeat(t: seq<Json>, n: nat): seq<Json> {
    Concat((_: nat) => t, n)
  }

  lemma {:induction false} CountAppend(a: seq<Json>, b: seq<Json>, x: Json)
    ensures Count(a + b, x) == Count(a, x) + Count(b, x)
  {
    if a != [] {
      assert (a + b)[0] == a[0];
      assert (a + b)[1..] == a[1..] + b;
      CountAppend(a[1..], b, x);
    } else {
      assert a + b == b;
    }
  }

  /** Values already seen add nothing to the distinct ones. */
  lemma {:induction false} DistinctAppendSeen(ys: seq<Json>, t: seq<Json>)
    requires forall x :: x in t ==> x in ys
    ensures Distinct(ys + t) == Distinct(ys)
    decreases |t|
  {
    if t == [] {
      assert ys + t == ys;
    } else {
      var init := t[..|t| - 1];
      assert (ys + t)[..|ys + t| - 1] == ys + init;
      assert (ys + t)[|ys + t| - 1] == t[|t| - 1];
      DistinctAppendSeen(ys, init);
    }
  }

  predicate ThreeDistinct(t: seq<Json>) {
    |t| == 3 && t[0] != t[1] && t[0] != t[2] && t[1] != t[2]
  }

  lemma DistinctOfThree(t: seq<Json>)
    requires ThreeDistinct(t)
    ensures Distinct(t) == t
  {
    assert t[..2] == [t[0], t[1]] && [t[0], t[1]][..1] == [t[0]] && [t[0]][..0] == [];
    assert Distinct([t[0]]) == [t[0]];
    assert Distinct([t[0], t[1]]) == [t[0], t[1]];
  }

  lemma RepeatUnfold(t: seq<Json>, n: nat)
    requires n >= 1
    ensures Repeat(t, n) == Repeat(t, n - 1) + t
  {
  }

  lemma {:induction false} RepeatMembers(t: seq<Json>, n: nat)
    ensures forall x :: x in Repeat(t, n) ==> x in t
    ensures n >= 1 ==> forall x :: x in t ==> x in Repeat(t, n)
  {
    if n >= 1 {
      RepeatUnfold(t, n);
      RepeatMembers(t, n - 1);
    }
  }

  lemma {:induction false} RepeatCount(t: seq<Json>, n: nat, x: Json)
    requires x in t && Count(t, x) == 1
    ensures Count(Repeat(t, n), x) == n
  {
    if n >= 1 {
      RepeatUnfold(t, n);
      RepeatCount(t, n - 1, x);
      CountAppend(Repeat(t, n - 1), t, x);
    }
  }

  lemma {:induction false} RepeatDistinct(t: seq<Json>, n: nat)
    requires ThreeDistinct(t) && n >= 1
    ensures Distinct(Repeat(t, n)) == t
  {
    RepeatUnfold(t, n);
    if n == 1 {
      assert Repeat(t, 0) == [];
      assert Repeat(t, 1) == t;
      DistinctOfThree(t);
    } else {
      RepeatDistinct(t, n - 1);
      RepeatMembers(t, n - 1);
      DistinctAppendSeen(Repeat(t, n - 1), t);
    }
  }

  lemma CountOfThree(t: seq<Json>, i: nat)
    requires ThreeDistinct(t) && i < 3
    ensures Count(t, t[i]) == 1
  {
    assert t[1..][1..] == [t[2]];
  }

  lemma ConsSnoc<T>(s: seq<T>, x: T)
    requires s != []
    ensures [s[0]] + (s[1..] + [x]) == s + [x]
  {
    assert s == [s[0]] + s[1..];
  }

  /** A value counted no more often than any already placed goes last. */
  lemma {:induction false} InsertAtEnd(x: Json, sorted: seq<Json>, xs: seq<Json>)
    requires forall i :: 0 <= i < |sorted| ==> Count(xs, sorted[i]) >= Count(xs, x)
    ensures InsertByCount(x, sorted, xs) == sorted + [x]
  {
    if sorted != [] {
      var rest := sorted[1..];
      assert Count(xs, sorted[0]) >= Count(xs, x);
      assert InsertByCount(x, sorted, xs) == [sorted[0]] + InsertByCount(x, rest, xs);
      forall i | 0 <= i < |rest|
        ensures Count(xs, rest[i]) >= Count(xs, x)
      {
        assert rest[i] == sorted[i + 1];
      }
      InsertAtEnd(x, rest, xs);
      ConsSnoc(sorted, x);
    }
  }

  lemma SortByCountSnoc(init: seq<Json>, x: Json, xs: seq<Json>)
    ensures SortByCount(init + [x], xs) == InsertByCount(x, SortByCount(init, xs), xs)
  {
    var ds := init + [x];
    assert ds[..|ds| - 1] == init;
    assert ds[|ds| - 1] == x;
  }

  /** Equal counts keep first-occurrence order: values all counted equally often stay as listed. */
  lemma {:induction false} SortEqualCountsKeepsOrder(ds: seq<Json>, xs: seq<Json>, c: nat)
    requires forall i :: 0 <= i < |ds| ==> Count(xs, ds[i]) == c
    ensures SortByCount(ds, xs) == ds
  {
    if ds != [] {
      var init := ds[..|ds| - 1];
      var x := ds[|ds| - 1];
      assert init + [x] == ds;
      forall i | 0 <= i < |init|
        ensures Count(xs, init[i]) >= Count(xs, x)
      {
        assert init[i] == ds[i];
      }
      forall i | 0 <= i < |init|
        ensures Count(xs, init[i]) == c
      {
        assert init[i] == ds[i];
      }
      SortEqualCountsKeepsOrder(init, xs, c);
      InsertAtEnd(x, init, xs);
      SortByCountSnoc(init, x, xs);
    }
  }

  /** Without numbers among the values, every value is its own Counter key. */
  lemma CounterKeysOfNonNumbers(xs: seq<Json>)
    requires forall x :: x in xs ==> !IsNumber(x)
    ensures CounterKeys(xs) == xs
  {
    forall i | 0 <= i < |xs|
      ensures CounterKeys(xs)[i] == xs[i]
    {
      assert xs[i] in xs;
    }
  }

  /** Values all counted equally often rank in order of first occurrence. */
  lemma MostCommonOfEqualCounts(xs: seq<Json>, c: nat)
    requires |Distinct(xs)| <= 5
    requires forall x :: x in xs ==> Count(xs, x) == c
    ensures MostCommon(xs, 5) == Distinct(xs)
  {
    var d := Distinct(xs);
    forall i | 0 <= i < |d|
      ensures Count(xs, d[i]) == c
    {
      assert d[i] in xs;
    }
    SortEqualCountsKeepsOrder(d, xs, c);
  }

  /** Without numbers among the values, the most common concerns are the most common values. */
  lemma MostCommonConcernsOfNonNumbers(xs: seq<Json>, n: nat)
    requires forall x :: x in xs ==> !IsNumber(x)
    ensures MostCommonConcerns(xs, n) == MostCommon(xs, n)
  {
    CounterKeysOfNonNumbers(xs);
    var r := MostCommonConcerns(xs, n);
    var top := MostCommon(xs, n);
    forall i | 0 <= i < |r|
      ensures r[i] == top[i]
    {
      assert r[i] in xs;
    }
  }

  /**
    When every analysis reports the same three distinct non-numeric concerns, the top concerns
    are those three, in the order each analysis lists them.
  */
  lemma {:induction false} RepeatRanksInOrder(t: seq<Json>, n: nat)
    requires ThreeDistinct(t) && n >= 1
    requires forall x :: x in t ==> !IsNumber(x)
    ensures MostCommonConcerns(Repeat(t, n), 5) == t
  {
    var xs := Repeat(t, n);
    RepeatDistinct(t, n);
    RepeatMembers(t, n);
    forall x | x in xs
      ensures Count(xs, x) == n
    {
      var i :| 0 <= i < 3 && t[i] == x;
      CountOfThree(t, i);
      RepeatCount(t, n, x);
    }
    MostCommonOfEqualCounts(xs, n);
    MostCommonConcernsOfNonNumbers(xs, 5);
  }

  /** A team's top concerns are the three negative drivers, in the order each analysis reports them. */
  lemma TeamTopConcerns(n: nat)
    requires n >= 1
    ensures MostCommonConcerns(Repeat(NegativeDrivers, n), 5) == NegativeDrivers
  {
    var nd := NegativeDrivers;
    assert nd[0].s[0] != nd[1].s[0];
    assert nd[0].s[4] != nd[2].s[4];
    assert nd[1].s[0] != nd[2].s[0];
    RepeatRanksInOrder(nd, n);
  }

  // ---------------------------------------------------------------- pulse survey

  datatype QuestionKind = Scale | YesNo | Frequency | FreeText

  datatype Question = Question(id: string, text: string, kind: QuestionKind, range: Option<(int, int)>)

  datatype SurveyTemplate = SurveyTemplate(title: string, questions: seq<Question>)

  datatype PulseSurvey = PulseSurvey(
    title: string, questions: seq<Question>, surveyId: string, createdAt: string,
    targetResponseRate: real, frequency: string)

  function GeneralTemplate(): SurveyTemplate {
    SurveyTemplate("Weekly Pulse Check", [
      Question("q1", "How satisfied are you with your work this week?", Scale, Some((1, 10))),
      Question("q2", "How would you rate your work-life balance?", Scale, Some((1, 10))),
      Question("q3", "Do you feel recognized for your contributions?", YesNo, None),
      Question("q4", "What would improve your experience?", FreeText, None)])
  }

  function Templates(): map<string, SurveyTemplate> {
    map[
      "general" := GeneralTemplate(),
      "workload" := SurveyTemplate("Workload Assessment", [
        Question("q1", "Is your current workload manageable?", Scale, Some((1, 10))),
        Question("q2", "How often do you work beyond regular hours?", Frequency, None),
        Question("q3", "Do you have the resources needed to succeed?", YesNo, None),
        Question("q4", "What would help manage your workload better?", FreeText, None)]),
      "growth" := SurveyTemplate("Career Development Check", [
        Question("q1", "Are you satisfied with your career growth?", Scale, Some((1, 10))),
        Question("q2", "Do you see a clear path for advancement?", YesNo, None),
        Question("q3", "Are you learning new skills in your role?", YesNo, None),
        Question("q4", "What development opportunities interest you?", FreeText, None)])
    ]
  }

  /**
    `generate_pulse_survey`; `today` is the `%Y%m%d` date and `now` the ISO timestamp, both
    read from the clock in the source.
  */
  function GeneratePulseSurvey(focusArea: string, today: string, now: string): (r: PulseSurvey)
    ensures focusArea !in {"general", "workload", "growth"} ==>
              r.title == GeneralTemplate().title && r.questions == GeneralTemplate().questions
    ensures focusArea in Templates() ==> r.title == Templates()[focusArea].title && r.questions == Templates()[focusArea].questions
    ensures r.surveyId == "pulse_" + focusArea + "_" + today
    ensures r.frequency == "weekly" <==> focusArea == "general"
    ensures r.frequency == "weekly" || r.frequency == "monthly"
    ensures r.targetResponseRate == 0.8 && |r.questions| == 4
  {
    var template := if focusArea in Templates() then Templates()[focusArea] else GeneralTemplate();
    PulseSurvey(template.title, template.questions, "pulse_" + focusArea + "_" + today, now, 0.8,
                if focusArea == "general" then "weekly" else "monthly")
  }

  // ---------------------------------------------------------------- heat-map cells and teams

  datatype CellRisk = Critical | Warning | Healthy

  /** The risk level of a heat-map cell from its score. */
  function CellRiskLevel(score: int): (r: CellRisk)
    ensures r == Critical <==> score < 40
    ensures r == Warning <==> 40 <= score < 70
    ensures r == Healthy <==> score >= 70
  {
    if score < 40 then Critical else if score < 70 then Warning else Healthy
  }

  /** The label of a week index: from the four fixed labels, or formatted. */
  function WeekLabel(week: int): string {
    var labels := ["Week 1", "Week 2", "Week 3", "Week 4"];
    if 0 <= week < 4 then labels[week] else "Week " + IntToString(week + 1)
  }

  /** The fixed labels agree with the formatted ones, so every week is labelled `Week {week + 1}`. */
  lemma WeekLabelFormatted(week: int)
    ensures WeekLabel(week) == "Week " + IntToString(week + 1)
  {
    if 0 <= week < 4 {
      assert NatToString(week + 1) == [DigitChar(week + 1)];
    }
  }

  /** One analysed team member: the score and risk level of their sentiment analysis. */
  datatype MemberSentiment = MemberSentiment(employeeId: string, score: real, riskLevel: RiskLevel)

  datatype Distribution = Distribution(positive: nat, neutral: nat, negative: nat)

  function Positive(ms: seq<MemberSentiment>): nat {
    if ms == [] then 0 else (if ms[0].score > 70.0 then 1 else 0) + Positive(ms[1..])
  }

  function Neutral(ms: seq<MemberSentiment>): nat {
    if ms == [] then 0 else (if 40.0 <= ms[0].score <= 70.0 then 1 else 0) + Neutral(ms[1..])
  }

  function Negative(ms: seq<MemberSentiment>): nat {
    if ms == [] then 0 else (if ms[0].score < 40.0 then 1 else 0) + Negative(ms[1..])
  }

  /** The team's `sentiment_distribution`. */
  function TeamDistribution(ms: seq<MemberSentiment>): (r: Distribution)
    ensures r.positive + r.neutral + r.negative == |ms|
  {
    DistributionPartition(ms);
    Distribution(Positive(ms), Neutral(ms), Negative(ms))
  }

  /** Every analysed member lands in exactly one of the three bands. */
  lemma {:induction false} DistributionPartition(ms: seq<MemberSentiment>)
    ensures Positive(ms) + Neutral(ms) + Negative(ms) == |ms|
  {
    if ms != [] {
      DistributionPartition(ms[1..]);
    }
  }

  function ScoreSum(ms: seq<MemberSentiment>): real {
    if ms == [] then 0.0 else ms[0].score + ScoreSum(ms[1..])
  }

  function HighRiskIds(ms: seq<MemberSentiment>): (r: seq<string>)
    ensures |r| <= |ms|
    ensures forall id :: id in r ==> exists k :: 0 <= k < |ms| && ms[k].riskLevel == High && ms[k].employeeId == id
    ensures forall k :: 0 <= k < |ms| && ms[k].riskLevel == High ==> ms[k].employeeId in r
  {
    if ms == [] then []
    else (if ms[0].riskLevel == High then [ms[0].employeeId] else []) + HighRiskIds(ms[1..])
  }

  /** The listing keeps the members' order: it distributes over concatenation. */
  lemma {:induction false} HighRiskIdsAppend(a: seq<MemberSentiment>, b: seq<MemberSentiment>)
    ensures HighRiskIds(a + b) == HighRiskIds(a) + HighRiskIds(b)
  {
    if a != [] {
      assert (a + b)[0] == a[0];
      assert (a + b)[1..] == a[1..] + b;
      HighRiskIdsAppend(a[1..], b);
    } else {
      assert a + b == b;
    }
  }

  datatype Morale = HighMorale | ModerateMorale | LowMorale

  datatype TeamSummary = TeamSummary(
    department: string, teamSize: nat, averageSentiment: real,
    distribution: Distribution, morale: Morale, riskEmployees: seq<string>, topConcerns: seq<Json>)

  /** The analyses of the first ten team members, in order. */
  function Analysed(teamData: seq<Record>, analyse: Record -> MemberSentiment): (ms: seq<MemberSentiment>)
    ensures |ms| == Min(|teamData|, 10)
    ensures forall i :: 0 <= i < |ms| ==> ms[i] == analyse(teamData[i])
  {
    var sample := Take(teamData, 10);
    seq(|sample|, i requires 0 <= i < |sample| => analyse(sample[i]))
  }

  /** The summary of a non-empty analysed sample of a team of `size` members. */
  function SampleSummary(department: string, size: nat, ms: seq<MemberSentiment>): (r: TeamSummary)
    requires ms != []
    ensures r.teamSize == size && r.department == department
    ensures r.averageSentiment == ScoreSum(ms) / (|ms| as real)
    ensures r.distribution == TeamDistribution(ms) && r.riskEmployees == HighRiskIds(ms)
    ensures r.morale == HighMorale <==> r.averageSentiment > 70.0
    ensures r.morale == LowMorale <==> r.averageSentiment <= 40.0
    ensures r.topConcerns == NegativeDrivers
  {
    var avg := ScoreSum(ms) / (|ms| as real);
    TeamTopConcerns(|ms|);
    TeamSummary(department, size, avg, TeamDistribution(ms),
                if avg > 70.0 then HighMorale else if avg > 40.0 then ModerateMorale else LowMorale,
                HighRiskIds(ms), MostCommonConcerns(Repeat(NegativeDrivers, |ms|), 5))
  }

  /**
    The deterministic fields of `analyze_team_sentiment`: `analyse` stands for the per-employee
    agent analysis, which is run on the first ten members only; an empty team divides by zero.
    Every analysis reports the same negative drivers, so those are the top concerns.
  */
  function AnalyzeTeam(teamData: seq<Record>, department: string, analyse: Record -> MemberSentiment): (r: Result<TeamSummary>)
    ensures teamData == [] <==> r == Err(ZeroDivisionError)
    ensures r.Ok? ==> r.value == SampleSummary(department, |teamData|, Analysed(teamData, analyse))
    ensures r.Ok? ==> var d := r.value.distribution; d.positive + d.neutral + d.negative == Min(|teamData|, 10)
  {
    var ms := Analysed(teamData, analyse);
    if ms == [] then Err(ZeroDivisionError)
    else Ok(SampleSummary(department, |teamData|, ms))
  }
}
