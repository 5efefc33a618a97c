/**
 * The external-service adapter of the backend: API-key configuration, the
 * cache-aside GeoIP lookup, and the shaping of the language model's answer
 * into a risk analysis. The network, the model and `JSON.parse` are inputs.
 */
module ExternalAPI {
  import opened Wrappers
  import opened Text
  import opened IPModel

  // ---------------------------------------------------------------- keys

  /** The keys the service keeps after construction. */
  datatype ApiKeys = ApiKeys(geminiKey: string, ipGeolocationKey: string)

  const KeyNotConfigured := "GEMINI_API_KEY is not configured"

  /** The Gemini key is rejected when absent, empty, blank after trimming, or still a `your_…` placeholder. */
  predicate GeminiKeyInvalid(key: Option<string>): (b: bool)
    ensures key.None? || key == Some("") ==> b
    ensures key.Some? && Contains(key.value, "your_") ==> b
    ensures key.Some? && (forall i :: 0 <= i < |key.value| ==> IsJsWhitespace(key.value[i])) ==> b
  {
    assert key.Some? && (forall i :: 0 <= i < |key.value| ==> IsJsWhitespace(key.value[i])) ==> Trim(key.value) == "";
    key.None? || key.value == "" || Trim(key.value) == "" || Contains(key.value, "your_")
  }

  /**
   * The constructor's key handling, given the two environment variables.
   * The validity test looks at the raw Gemini key; quotes are removed only
   * afterwards. A missing geolocation key is not an error: it becomes "".
   */
  function ConfigureKeys(geminiEnv: Option<string>, geoEnv: Option<string>): (r: Result<ApiKeys, string>)
    ensures r.Failure? <==> GeminiKeyInvalid(geminiEnv)
    ensures r.Failure? ==> r.error == KeyNotConfigured
    ensures r.Success? ==> r.value.geminiKey == StripQuotes(geminiEnv.value)
    ensures r.Success? ==> r.value.ipGeolocationKey == (if geoEnv.Some? then StripQuotes(geoEnv.value) else "")
  {
    var geoKey := if geoEnv.Some? then StripQuotes(geoEnv.value) else "";
    if GeminiKeyInvalid(geminiEnv) then Failure(KeyNotConfigured)
    else Success(ApiKeys(StripQuotes(geminiEnv.value), geoKey))
  }

  /** The stored Gemini key carries no quote character. */
  lemma StoredKeysHaveNoQuotes(geminiEnv: Option<string>, geoEnv: Option<string>)
    requires ConfigureKeys(geminiEnv, geoEnv).Success?
    ensures var k := ConfigureKeys(geminiEnv, geoEnv).value;
      forall i :: 0 <= i < |k.geminiKey| ==> k.geminiKey[i] != '"' && k.geminiKey[i] != '\''
  {
  }

  /** The geolocation key never causes a failure: whatever it is, the Gemini key alone decides. */
  lemma GeoKeyNeverFails(geminiEnv: Option<string>, geoA: Option<string>, geoB: Option<string>)
    ensures ConfigureKeys(geminiEnv, geoA).Failure? == ConfigureKeys(geminiEnv, geoB).Failure?
  {
  }

  /**
   * Because the test runs before quotes are removed, a key made only of
   * quotes is accepted and stored as the empty key.
   */
  lemma QuoteOnlyKeyAccepted()
    ensures ConfigureKeys(Some("\"\""), None) == Success(ApiKeys("", ""))
  {
    var key := "\"\"";
    assert !IsJsWhitespace(key[0]) && !IsJsWhitespace(key[1]);
    assert TrimStart(key) == key;
    assert TrimEnd(key) == key;
    assert Trim(key) != "";
    assert !Contains(key, "your_");
    assert !GeminiKeyInvalid(Some(key));
    assert key[1..] == "\"" && key[1..][1..] == [];
    assert StripQuotes(key) == [];
  }

  /** A key holding the placeholder text is refused even when otherwise well-formed. */
  lemma PlaceholderKeyRefused(prefix: string)
    ensures ConfigureKeys(Some(prefix + "your_key"), None).Failure?
  {
    ContainsAt(prefix + "your_key", "your_", |prefix|);
  }

  // ---------------------------------------------------------------- GeoIP

  /** The part of an ip-api.com answer the core reads. */
  datatype GeoIPResponse = GeoIPResponse(status: string, country: string, city: string, isp: string, as_: string)

  /** What the HTTP request for a lookup gives: a parsed body, or a thrown error. */
  datatype FetchOutcome = Fetched(data: GeoIPResponse) | FetchError

  function CacheKey(ip: string): string {
    "geo_" + ip
  }

  /** What a lookup returns given the cache and the answer the network would give on a miss. */
  function LookupResult(entries: map<string, GeoIPResponse>, ip: string, fetched: FetchOutcome): (r: Option<GeoIPResponse>)
    ensures CacheKey(ip) in entries ==> r == Some(entries[CacheKey(ip)])
    ensures CacheKey(ip) !in entries ==> (r.Some? <==> fetched.Fetched? && fetched.data.status == "success")
    ensures CacheKey(ip) !in entries && r.Some? ==> r.value == fetched.data
  {
    if CacheKey(ip) in entries then Some(entries[CacheKey(ip)])
    else if fetched.Fetched? && fetched.data.status == "success" then Some(fetched.data)
    else None
  }

  /** The cache after a lookup: a successful answer fetched on a miss is added; nothing else changes it. */
  function CachedAfter(entries: map<string, GeoIPResponse>, ip: string, fetched: FetchOutcome)
    : (r: map<string, GeoIPResponse>)
    ensures forall k :: k in entries ==> k in r && r[k] == entries[k]
    ensures forall k :: k in r && k !in entries ==> fetched.Fetched? && k == CacheKey(ip) && r[k] == fetched.data && r[k].status == "success"
  {
    if CacheKey(ip) !in entries && fetched.Fetched? && fetched.data.status == "success"
    then entries[CacheKey(ip) := fetched.data]
    else entries
  }

  /** The module-level GeoIP cache shared by every service instance; expiry is not modelled. */
  class GeoCache {
    var entries: map<string, GeoIPResponse>

    /** Only successful answers are ever cached. */
    ghost predicate Valid()
      reads this
    {
      forall k :: k in entries ==> entries[k].status == "success"
    }

    constructor ()
      ensures Valid() && entries == map[]
    {
      entries := map[];
    }

    /**
     * `getGeoIPData(ip)`: a cached answer is returned without contacting the
     * network; otherwise a "success" answer is cached and returned, and a
     * failed answer or a request error yields None with the cache untouched.
     */
    method GetGeoIPData(ip: string, fetched: FetchOutcome) returns (r: Option<GeoIPResponse>, contacted: bool)
      requires Valid()
      modifies this
      ensures Valid()
      ensures contacted <==> CacheKey(ip) !in old(entries)
      ensures r == LookupResult(old(entries), ip, fetched)
      ensures r.Some? ==> r.value.status == "success"
      ensures entries == if contacted && r.Some? then old(entries)[CacheKey(ip) := r.value] else old(entries)
      ensures entries == CachedAfter(old(entries), ip, fetched)
    {
      var key := CacheKey(ip);
      if key in entries {
        return Some(entries[key]), false;
      }
      contacted := true;
      match fetched
      case FetchError =>
        r := None;
      case Fetched(data) =>
        if data.status == "success" {
          entries := entries[key := data];
          r := Some(data);
        } else {
          r := None;
        }
    }
  }

  // ---------------------------------------------------------------- LLM answer

  /** What the model call gives: its text, or a thrown error. */
  datatype LlmReply = ModelText(content: string) | ModelFailed

  /** The object `JSON.parse` makes of the cleaned text; its fields are not checked. */
  datatype ParsedReply = ParsedReply(
    riskLevel: string, riskScore: int, summary: string, findings: seq<string>, recommendations: seq<string>)

  /** `AIAnalysisResponse`: `riskLevel` is a string because a parsed answer passes through unchecked. */
  datatype AIAnalysisResponse = AIAnalysisResponse(
    riskLevel: string, riskScore: int, summary: string, findings: seq<string>, recommendations: seq<string>,
    lastAnalyzed: Time)

  const NoActivitySummary := "No suspicious activities detected for this IP."
  const NoActivityFinding := "Monitoring is active, no adverse events logged."
  const NoActivityRecommendation := "Continue standard monitoring."
  const FailureSummary := "AI analysis failed, manual review required."
  const FailureFinding := "The system was unable to complete an automated analysis due to an error."
  const CountFindingPrefix := "Total activities logged: "
  const FailureRecommendations := [
    "Check system logs for errors related to the LLM service.",
    "Manually inspect the logged activities for this IP."]

  /** The fixed answer for an empty activity list. */
  function NoActivityResult(now: Time): AIAnalysisResponse {
    AIAnalysisResponse("LOW", 0, NoActivitySummary, [NoActivityFinding], [NoActivityRecommendation], now)
  }

  /** The fixed answer when the model call or the parse fails. */
  function FailureResult(count: nat, now: Time): AIAnalysisResponse {
    AIAnalysisResponse("MEDIUM", 50, FailureSummary,
      [FailureFinding, CountFindingPrefix + NatToString(count)], FailureRecommendations, now)
  }

  /** "```json" followed by a newline starts `s`: the first alternative of the pattern. */
  predicate AtJsonFence(s: string) {
    |s| >= 8 && s[0] == '`' && s[1] == '`' && s[2] == '`' && s[3] == 'j' && s[4] == 's'
    && s[5] == 'o' && s[6] == 'n' && s[7] == '\n'
  }

  /** A newline followed by "```" starts `s`: the second alternative. */
  predicate AtClosingFence(s: string) {
    |s| >= 4 && s[0] == '\n' && s[1] == '`' && s[2] == '`' && s[3] == '`'
  }

  /** "```" starts `s`: the third alternative. */
  predicate AtBareFence(s: string) {
    |s| >= 3 && s[0] == '`' && s[1] == '`' && s[2] == '`'
  }

  /**
   * `content.replace(/```json\n|\n```|```/g, '')`: one left-to-right pass that,
   * at each position, deletes the first alternative that matches there.
   */
  function StripFences(s: string): (r: string)
    ensures |r| <= |s|
  {
    if s == [] then []
    else if AtJsonFence(s) then StripFences(s[8..])
    else if AtClosingFence(s) then StripFences(s[4..])
    else if AtBareFence(s) then StripFences(s[3..])
    else [s[0]] + StripFences(s[1..])
  }

  /** The text handed to `JSON.parse`. */
  function CleanJson(content: string): (r: string)
    ensures r == [] || (!IsJsWhitespace(r[0]) && !IsJsWhitespace(r[|r| - 1]))
  {
    var stripped := StripFences(content);
    Trim(stripped)
  }

  predicate NoBacktick(s: string) {
    '`' !in s
  }

  lemma {:induction false} PlainHeadOfConcat(x: string, t: string)
    requires NoBacktick(x) && x != []
    requires t == [] || t[0] != '`'
    ensures (x + t)[0] == x[0] && x[0] != '`'
    ensures |x + t| >= 2 ==> (x + t)[1] != '`'
    ensures (x + t)[1..] == x[1..] + t && NoBacktick(x[1..])
  {
    assert x[0] in x;
    if |x| >= 2 {
      assert (x + t)[1] == x[1] && x[1] in x;
    }
    assert forall c :: c in x[1..] ==> c in x;
  }

  /** A plain first character is kept and the pass continues after it. */
  lemma StripFencesPlainStep(x: string, t: string)
    requires NoBacktick(x) && x != []
    requires t == [] || t[0] != '`'
    ensures StripFences(x + t) == [x[0]] + StripFences(x[1..] + t)
  {
    PlainHeadOfConcat(x, t);
  }

  /** Text without backticks passes the fence pass unchanged, even in front of a `\n```` fence. */
  lemma {:induction false} StripFencesKeepsPlainPrefix(x: string, t: string)
    requires NoBacktick(x)
    requires t == [] || t[0] != '`'
    ensures StripFences(x + t) == x + StripFences(t)
  {
    if x != [] {
      StripFencesPlainStep(x, t);
      PlainHeadOfConcat(x, t);
      StripFencesKeepsPlainPrefix(x[1..], t);
      assert x == [x[0]] + x[1..];
    } else {
      assert x + t == t && x + StripFences(t) == StripFences(t);
    }
  }


  /** Cleaning a fenced block whose body has no backticks gives the trimmed body. */
  lemma {:induction false} CleanFencedBlock(x: string)
    requires NoBacktick(x)
    ensures CleanJson("```json\n" + x + "\n```") == Trim(x)
  {
    var s := "```json\n" + x + "\n```";
    assert AtJsonFence(s);
    assert s[8..] == x + "\n```";
    StripFencesKeepsPlainPrefix(x, "\n```");
    assert StripFences("\n```") == [] by {
      assert AtClosingFence("\n```");
      assert "\n```"[4..] == [];
    }
    assert x + [] == x;
  }

  /** Plain text with no whitespace at its ends reaches `JSON.parse` exactly as the model sent it. */
  lemma {:induction false} CleanPlainText(x: string)
    requires NoBacktick(x)
    requires x == [] || (!IsJsWhitespace(x[0]) && !IsJsWhitespace(x[|x| - 1]))
    ensures CleanJson(x) == x
  {
    StripFencesKeepsPlainPrefix(x, []);
    assert x + [] == x;
    TrimOfTrimmed(x);
  }

  /** The pass is not repeated: deleting a fence can bring three backticks together. */
  lemma FencePassIsSinglePass()
    ensures StripFences("`\n`````") == "```"
  {
    var s := "`\n`````";
    assert s[1..] == "\n`````";
    assert AtClosingFence(s[1..]);
    assert s[1..][4..] == "``";
    assert StripFences("``") == "``" by {
      assert "``"[1..] == "`";
      assert "`"[1..] == [];
    }
  }

  /** The object the model's answer parses to, if the call succeeds and the cleaned text parses. */
  function ParsedAnswer(reply: LlmReply, parse: string -> Option<ParsedReply>): Option<ParsedReply> {
    match reply
    case ModelFailed => None
    case ModelText(content) => parse(CleanJson(content))
  }

  /**
   * `analyzeWithLLM(activities, ip)`: never throws. An empty list short-circuits
   * without consulting the model; a model failure or an unparsable answer gives
   * the fixed MEDIUM/50 answer; a parsed answer passes through unchecked, with
   * `lastAnalyzed` always set by the service.
   */
  function AnalyzeWithLLM(activities: seq<Activity>, reply: LlmReply, parse: string -> Option<ParsedReply>, now: Time)
    : (r: AIAnalysisResponse)
    ensures r.lastAnalyzed == now
    ensures |activities| == 0 ==> r == NoActivityResult(now)
    ensures |activities| > 0 && ParsedAnswer(reply, parse).None? ==> r == FailureResult(|activities|, now)
    ensures |activities| > 0 && ParsedAnswer(reply, parse).Some? ==>
      var p := ParsedAnswer(reply, parse).value;
      r.riskLevel == p.riskLevel && r.riskScore == p.riskScore && r.summary == p.summary
      && r.findings == p.findings && r.recommendations == p.recommendations
  {
    if |activities| == 0 then NoActivityResult(now)
    else match ParsedAnswer(reply, parse)
      case None => FailureResult(|activities|, now)
      case Some(p) => AIAnalysisResponse(p.riskLevel, p.riskScore, p.summary, p.findings, p.recommendations, now)
  }

  /** The empty-list answer: LOW, 0, the standard summary, one finding and one recommendation, whatever the model would say. */
  lemma EmptyHistoryIgnoresModel(reply: LlmReply, parse: string -> Option<ParsedReply>, now: Time)
    ensures var r := AnalyzeWithLLM([], reply, parse, now);
      r.riskLevel == "LOW" && r.riskScore == 0 && r.summary == "No suspicious activities detected for this IP."
      && |r.findings| == 1 && |r.recommendations| == 1
      && r == AnalyzeWithLLM([], ModelFailed, parse, now)
  {
  }

  /** The failure answer: MEDIUM, 50, two findings, the second counting the activities, two recommendations. */
  lemma FailureAnswerShape(activities: seq<Activity>, parse: string -> Option<ParsedReply>, now: Time)
    requires |activities| > 0
    ensures var r := AnalyzeWithLLM(activities, ModelFailed, parse, now);
      r.riskLevel == "MEDIUM" && r.riskScore == 50 && |r.findings| == 2 && |r.recommendations| == 2
      && r.findings[1] == "Total activities logged: " + NatToString(|activities|)
  {
  }

  /** Nothing bounds a score the model supplies: any integer comes through as it was parsed. */
  lemma ModelScoreUnchecked(a: Activity, content: string, score: int, now: Time)
    ensures AnalyzeWithLLM([a], ModelText(content),
                           _ => Some(ParsedReply("BOGUS", score, "", [], [])), now).riskScore == score
  {
  }
}
