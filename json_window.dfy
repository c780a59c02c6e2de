/**
  The JSON extraction that the retention, learning and sentiment agents share: an agent's
  reply is kept as it is when it is already a dict; otherwise the text from its first `{`
  through its last `}` is handed to `json.loads`, and when there is no such window or the
  parse fails a fallback record describing the reply is returned instead.
*/
module JsonWindow {
  import opened Wrappers
  import opened JsonData
  import opened Text

  /** An agent's reply: a dict, or any other object, seen through `str()`. */
  datatype Reply = DictReply(fields: Record) | TextReply(text: string)

  /** `s[s.find('{'):s.rfind('}') + 1]`, present only when `find != -1 and rfind + 1 > find`. */
  function Window(s: string): (r: Option<string>)
    ensures r.Some? ==> |r.value| >= 2 && r.value[0] == '{' && r.value[|r.value| - 1] == '}'
  {
    var start := Find(s, '{');
    var end := RFind(s, '}') + 1;
    if start != -1 && end > start then Some(s[start..end]) else None
  }

  /** A window exists exactly when some `{` comes before some `}`. */
  lemma WindowExists(s: string)
    ensures Window(s).Some? <==> exists a, b :: 0 <= a < b < |s| && s[a] == '{' && s[b] == '}'
  {
    var start := Find(s, '{');
    var last := RFind(s, '}');
    if exists a, b :: 0 <= a < b < |s| && s[a] == '{' && s[b] == '}' {
      var a, b :| 0 <= a < b < |s| && s[a] == '{' && s[b] == '}';
      assert '{' in s && '}' in s;
    }
  }

  /** The window runs from the first `{` through the last `}` of the text. */
  lemma WindowBounds(s: string, i: nat, j: nat)
    requires i < j < |s| && s[i] == '{' && s[j] == '}'
    requires '{' !in s[..i] && '}' !in s[j + 1..]
    ensures Window(s) == Some(s[i..j + 1])
  {
  }

  /** The record returned when no JSON can be extracted from a reply. */
  function Fallback(category: string, text: string, insightLimit: nat, confidence: real, withStatus: bool): (r: Json)
    ensures r.JObject?
    ensures r.fields.Keys == {"category", "insights", "confidence"} + (if withStatus then {"status"} else {})
    ensures r.fields["category"] == JStr(category) && r.fields["confidence"] == JFloat(confidence)
    ensures r.fields["insights"].JStr? && |r.fields["insights"].s| == Min(insightLimit, |text|)
    ensures r.fields["insights"].s == text[..|r.fields["insights"].s|]
    ensures withStatus ==> r.fields["status"] == JStr("processed")
  {
    var base := map["category" := JStr(category), "insights" := JStr(Take(text, insightLimit)),
                    "confidence" := JFloat(confidence)];
    JObject(if withStatus then base["status" := JStr("processed")] else base)
  }

  /**
    `_parse_json_response`; `loads` stands for `json.loads`, None for a parse that raises.
  */
  function ParseResponse(reply: Reply, category: string, insightLimit: nat, confidence: real,
                         withStatus: bool, loads: string -> Option<Json>): (r: Json)
    ensures reply.DictReply? ==> r == JObject(reply.fields)
    ensures reply.TextReply? && Window(reply.text).Some? && loads(Window(reply.text).value).Some? ==>
              r == loads(Window(reply.text).value).value
    ensures reply.TextReply? && (Window(reply.text).None? || loads(Window(reply.text).value).None?) ==>
              r == Fallback(category, reply.text, insightLimit, confidence, withStatus)
  {
    match reply
    case DictReply(fields) => JObject(fields)
    case TextReply(text) =>
      var fallback := Fallback(category, text, insightLimit, confidence, withStatus);
      match Window(text)
      case None => fallback
      case Some(w) => loads(w).GetOr(fallback)
  }

  /** A text without any `{` ... `}` window always yields the fallback, whatever `json.loads` does. */
  lemma NoWindowYieldsFallback(text: string, category: string, insightLimit: nat, confidence: real,
                               withStatus: bool, loads: string -> Option<Json>)
    requires forall a, b :: 0 <= a < b < |text| ==> !(text[a] == '{' && text[b] == '}')
    ensures ParseResponse(TextReply(text), category, insightLimit, confidence, withStatus, loads)
            == Fallback(category, text, insightLimit, confidence, withStatus)
  {
    WindowExists(text);
  }
}
