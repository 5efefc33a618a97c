# FP-SOC core, modelled in Dafny

FP-SOC watches IP addresses for signs of attack. Log lines about a monitored
address are posted to the backend. Each line is classified (SSH failure,
firewall block, port scan, unknown) and appended to that address's bounded
activity history. A burst of logs schedules one re-analysis by a language
model. The analysis stores a risk score and summary on the target and
derives its status (BLOCKED or MONITORING). A browser dashboard keeps the
target on screen and the list of monitored targets in a client-side store.

The project models:

- `ip_model.dfy` — the `IP` document: its enums, the schema defaults applied
  by `IP.create`, and the pre-save hook that stamps `lastSeen`. The Mongo
  collection is a class holding a map from address to document.
- `external_api.dfy` — the external-service adapter:
  - the constructor's API-key checks;
  - the cache-aside GeoIP lookup over the module-level cache;
  - the shaping of the model's answer: the fixed empty-history answer, the
    fixed failure answer, the markdown-fence cleaning before `JSON.parse`,
    and the pass-through of a parsed answer.
- `investigation.dfy` — the investigation service:
  - the log-line classifier;
  - the capped (200) activity history;
  - the per-address pending flag that lets one investigation be scheduled
    per burst;
  - `investigateIP`, `processLogEntry`, `startMonitoring`, `stopMonitoring`.
- `log_controller.dfy` — the ingestion endpoint. It wraps a single entry into
  a list, refuses an empty list with 400, forwards each well-formed entry in
  turn, and answers 202.
- `frontend_store.dfy` — the dashboard store:
  - the getters `isMonitored`, `monitoredCount`, `highRiskIPs`;
  - the request actions with their `loading` / `error` discipline, and the
    upsert and removal of monitored targets by address.
- `text.dfy` and `wrappers.dfy` — ASCII lower-casing, substring search,
  ECMAScript `trim`, quote stripping, decimal rendering, `Option` and
  `Result`.

External effects are parameters:

- the clock is a `now: Time` argument;
- the GeoIP HTTP answer is a `FetchOutcome`;
- the model call is an `LlmReply`;
- `JSON.parse` is a function `string -> Option<ParsedReply>`;
- the dashboard's HTTP answers are `HttpReply` values.

Behaviour of the code that the model keeps as it is:

- A risk score of 75 or more blocks a target (`ipInvestigationService.ts`
  line 61); below that the target is MONITORING.
- Re-analysis is gated by a leading-edge "pending" flag per address. It is
  set when a log for a monitored address arrives and cleared when the
  deferred investigation finishes. Logs arriving while the flag is set
  change nothing about the scheduled investigation.
- The model's parsed answer is passed on without validation or clamping.
  When the model call or the parse fails, the answer is a fixed MEDIUM / 50.
- A target is created by a find followed by a create.
- The classifier checks the firewall rule before the "nmap scan" rule. It
  yields four of the schema's five activity types; MALICIOUS_REQUEST is
  never produced.
- `startMonitoring` runs no investigation when it creates a new target,
  although the comment at line 146 says it does.

## Model

| member | source | states |
|---|---|---|
| Text.Lower | backend/src/services/ipInvestigationService.ts:91 | same length; each ASCII capital becomes its lower-case letter, every other character is kept |
| Text.ContainsLower | backend/src/services/ipInvestigationService.ts:91-93 | an occurrence of a pattern in the raw line is an occurrence of the folded pattern in the folded line |
| Text.Contains | backend/src/services/ipInvestigationService.ts:93-98 | `includes`: the pattern occurs at some position; the empty pattern always occurs and a pattern longer than the text never does |
| Text.Trim | backend/src/services/externalAPIService.ts:35 | the result has no ECMAScript whitespace or line terminator at either end |
| Text.TrimRemovesOnlyWhitespace | backend/src/services/externalAPIService.ts:131 | the trimmed text is a contiguous slice of the input; every character removed before or after it is whitespace |
| Text.StripQuotes | backend/src/services/externalAPIService.ts:40 | no `"` or `'` remains; a single quote character is removed and any other single character kept; every non-quote character occurs in the result iff it occurs in the input |
| Text.StripQuotesAppend | backend/src/services/externalAPIService.ts:40 | stripping a concatenation strips each part and keeps them in order, which with the one-character case fixes the result of every input |
| Text.StripQuotesKeepsPlain | backend/src/services/externalAPIService.ts:40 | a key without quotes is stored unchanged |
| Text.NatToString | backend/src/services/externalAPIService.ts:149 | the rendering of a count is a non-empty string of decimal digits whose value is the count, with no leading zero |
| IPModel.WithDefaults | backend/src/models/IP.ts:58-98 | a created document takes every field the caller omits from the schema defaults: ACTIVE, monitoring off, no alerts, empty history, score 0 with the default summary; firstSeen and lastSeen are the creation time |
| IPModel.DefaultsOfBareDocument | backend/src/models/IP.ts:59-94 | a document created with only its address is ACTIVE, unmonitored, has score 0, summary "No analysis performed yet." and no activities |
| IPModel.PreSave | backend/src/models/IP.ts:104-107 | every save sets lastSeen to the current time and changes nothing else |
| IPModel.IPCollection.constructor | backend/src/models/IP.ts:109 | an empty collection satisfies the unique-address invariant |
| IPModel.IPCollection.FindOne | backend/src/services/ipInvestigationService.ts:27 | finds a document iff one is stored under the address, and returns that document |
| IPModel.IPCollection.FindMonitored | backend/src/services/ipInvestigationService.ts:81 | finds a document iff one is stored under the address with monitoring enabled |
| IPModel.IPCollection.Save | backend/src/services/ipInvestigationService.ts:67 | stores the document with the pre-save hook applied under its address; other documents are untouched; the invariant is kept |
| IPModel.IPCollection.Create | backend/src/services/ipInvestigationService.ts:31-42 | stores and returns the document with the schema defaults filled in; other documents are untouched |
| IPModel.IPCollection.DisableMonitoring | backend/src/services/ipInvestigationService.ts:165-169 | returns the updated document iff the address is stored; only monitoring.enabled changes, to false, and the pre-save hook does not run, so lastSeen is kept; an unknown address changes nothing |
| ExternalAPI.ConfigureKeys | backend/src/services/externalAPIService.ts:19-46 | fails with "GEMINI_API_KEY is not configured" iff the raw Gemini key is missing, empty, blank after trim, or contains "your_"; otherwise stores both keys with quotes removed, and a missing geolocation key becomes "" |
| ExternalAPI.GeminiKeyInvalid | backend/src/services/externalAPIService.ts:35 | a missing or empty key, a key containing "your_", and a key of whitespace only are all invalid |
| ExternalAPI.StoredKeysHaveNoQuotes | backend/src/services/externalAPIService.ts:40 | the stored Gemini key contains no quote character |
| ExternalAPI.GeoKeyNeverFails | backend/src/services/externalAPIService.ts:26 | the geolocation key never decides whether construction fails |
| ExternalAPI.QuoteOnlyKeyAccepted | backend/src/services/externalAPIService.ts:35-40 | the check runs before quotes are stripped, so a key of two quote characters is accepted and stored as "" |
| ExternalAPI.PlaceholderKeyRefused | backend/src/services/externalAPIService.ts:35-37 | a key ending in the placeholder "your_key", whatever precedes it, is refused |
| ExternalAPI.GeoCache.constructor | backend/src/services/externalAPIService.ts:11 | the shared cache starts empty and holds only successful answers |
| ExternalAPI.LookupResult | backend/src/services/externalAPIService.ts:49-68 | a cached key answers with its cached entry; on a miss there is an answer iff the fetch succeeded with status "success", and it is the fetched data |
| ExternalAPI.CachedAfter | backend/src/services/externalAPIService.ts:52-61 | a lookup keeps every cached entry and adds at most one, under `geo_<ip>`, holding a successful fetched answer |
| ExternalAPI.GeoCache.GetGeoIPData | backend/src/services/externalAPIService.ts:49-68 | the network is contacted iff `geo_<ip>` is not cached; a cached answer is returned as is; on a miss, a "success" answer is cached and returned, while a failed answer or a request error gives None and leaves the cache untouched; only successful answers are ever cached |
| ExternalAPI.CleanJson | backend/src/services/externalAPIService.ts:131 | the text handed to the parser has no whitespace at either end |
| ExternalAPI.StripFences | backend/src/services/externalAPIService.ts:131 | the fence removal never lengthens the text; StripFencesKeepsPlainPrefix, CleanFencedBlock and FencePassIsSinglePass state what it removes |
| ExternalAPI.StripFencesKeepsPlainPrefix | backend/src/services/externalAPIService.ts:131 | text without backticks passes the fence removal unchanged, in front of any remainder that does not start with a backtick |
| ExternalAPI.CleanFencedBlock | backend/src/services/externalAPIService.ts:131 | a reply of the form "```json\n" + body + "\n```" is cleaned to the trimmed body |
| ExternalAPI.CleanPlainText | backend/src/services/externalAPIService.ts:131 | an unfenced reply with no whitespace at its ends reaches the parser unchanged |
| ExternalAPI.FencePassIsSinglePass | backend/src/services/externalAPIService.ts:131 | the removal is one left-to-right pass: deleting "\n```" can leave three backticks behind |
| ExternalAPI.AnalyzeWithLLM | backend/src/services/externalAPIService.ts:71-154 | never fails; lastAnalyzed is always now; an empty history gives the fixed LOW / 0 answer whatever the model says; a failed call or an unparsable answer gives the fixed MEDIUM / 50 answer; a parsed answer's level, score, summary, findings and recommendations pass through unchanged |
| ExternalAPI.EmptyHistoryIgnoresModel | backend/src/services/externalAPIService.ts:73-82 | for an empty history the answer is LOW, score 0, the standard summary, one finding and one recommendation, the same as when the model fails |
| ExternalAPI.FailureAnswerShape | backend/src/services/externalAPIService.ts:142-153 | a failed analysis of a non-empty history is MEDIUM / 50 with two findings, the second "Total activities logged: N", and two recommendations |
| ExternalAPI.ModelScoreUnchecked | backend/src/services/externalAPIService.ts:133-135 | any integer score in a parsed answer is returned as is, even with an out-of-enum level |
| Investigation.Classify | backend/src/services/ipInvestigationService.ts:89-100 | the classifier is total and never yields MALICIOUS_REQUEST |
| Investigation.ClassifyRules | backend/src/services/ipInvestigationService.ts:93-100 | on the folded line: SSH_FAILURE iff "failed password" or "invalid user" occurs; FIREWALL_BLOCK iff not SSH and "block", "in=" and "out=" all occur; PORT_SCAN iff neither and "nmap scan" occurs; UNKNOWN otherwise |
| Investigation.ClassifyIgnoresCase | backend/src/services/ipInvestigationService.ts:91 | lines equal up to ASCII case get the same type |
| Investigation.SshMarkerInAnyCase | backend/src/services/ipInvestigationService.ts:91-94 | a line containing an SSH marker in any letter case is an SSH failure |
| Investigation.FirewallBeforeScan | backend/src/services/ipInvestigationService.ts:95-99 | a non-SSH line with the firewall markers and "nmap scan" is a firewall block, because that rule comes first |
| Investigation.NewActivity | backend/src/services/ipInvestigationService.ts:102-107 | the activity carries the classified type, the source address, the raw line as details and the current time |
| Investigation.CappedAppend | backend/src/services/ipInvestigationService.ts:110-115 | the new activity is last, and a history within the cap of 200 stays within it |
| Investigation.CappedAppendProperties | backend/src/services/ipInvestigationService.ts:110-115 | the new activity is last; below 200 nothing is lost; at or above 200 exactly the oldest entry is dropped and the rest keep their order; a history within the cap stays within it |
| Investigation.AppendAllKeepsNewest | backend/src/services/ipInvestigationService.ts:110-115 | after any number of appends to a history within the cap, the history is the newest 200 entries of old history followed by the appended ones, in arrival order |
| Investigation.TwoHundredAndOne | backend/src/services/ipInvestigationService.ts:112-115 | 201 appends to an empty history leave exactly the last 200, without the first |
| Investigation.GateStep | backend/src/services/ipInvestigationService.ts:122-132 | an investigation is scheduled only for an accepted log whose address is not pending |
| Investigation.PendingSuppressesSchedules | backend/src/services/ipInvestigationService.ts:122-135 | while an address is pending and its investigation has not finished, its logs schedule nothing and it stays pending |
| Investigation.BurstSchedulesOnce | backend/src/services/ipInvestigationService.ts:122-126 | any burst of logs for an address that is not pending, with no finish in between, schedules exactly one investigation |
| Investigation.SchedulesBoundedByFinishes | backend/src/services/ipInvestigationService.ts:122-135 | over any trace, investigations scheduled for an address exceed those finished by at most one, so at most one is outstanding |
| Investigation.OrUnknown | backend/src/services/ipInvestigationService.ts:36-39 | the result is never empty, and a non-empty value is kept |
| Investigation.BeforeFirstSpace | backend/src/services/ipInvestigationService.ts:40 | the result is the prefix of the text up to, not including, the first space; it contains no space |
| Investigation.GeoFields | backend/src/services/ipInvestigationService.ts:35-41 | without a lookup result every field is "Unknown"; with one, country, city and isp are the looked-up values, or "Unknown" when empty, and the ASN is the text before the first space of `as`, or "Unknown" when that is empty |
| Investigation.NewTargetDocument | backend/src/services/ipInvestigationService.ts:31-42 | a new target is created MONITORING, with monitoring enabled, the given lastCheck and the geolocation from the lookup |
| Investigation.StatusFor | backend/src/services/ipInvestigationService.ts:61-65 | the derived status is never ACTIVE, and is BLOCKED iff the score is at least 75 |
| Investigation.ApplyAnalysis | backend/src/services/ipInvestigationService.ts:52-65 | the analysis is stamped with now, the status is derived from its score, and nothing but the analysis and the status changes |
| Investigation.ApplyAnalysisEffect | backend/src/services/ipInvestigationService.ts:52-65 | status is BLOCKED iff the score is at least 75 and MONITORING otherwise; the stored analysis is replaced in full, independently of what was stored before; no other field changes |
| Investigation.FirstInvestigationIsQuiet | backend/src/services/ipInvestigationService.ts:27-65 | investigating an unseen address leaves a MONITORING, monitored target with score 0 and the no-activity summary |
| Investigation.Investigated | backend/src/services/ipInvestigationService.ts:23-75 | the document an investigation saves: lastSeen and lastAnalysis are now, the status matches the score, a stored target keeps its history, and a new target has an empty history and score 0 |
| Investigation.CacheAfterTarget | backend/src/services/ipInvestigationService.ts:27-30 | the cache is untouched when the target is stored, and otherwise only gains entries |
| Investigation.IPInvestigationService.constructor | backend/src/services/ipInvestigationService.ts:14-20 | a new service has no pending investigations |
| Investigation.IPInvestigationService.InvestigateIP | backend/src/services/ipInvestigationService.ts:23-75 | the saved target is `Investigated`: the stored target, or a new one built from the lookup, analysed over its stored history, with the derived status and lastSeen now; only that target's document changes; the cache changes only for a new address, and then as the lookup leaves it |
| Investigation.IPInvestigationService.ProcessLogEntry | backend/src/services/ipInvestigationService.ts:78-136 | a log for an address that is unknown or not monitored changes nothing; otherwise the classified activity is appended to the capped history, the target is saved, and the pending map takes one gate step that schedules an investigation iff none is pending |
| Investigation.IPInvestigationService.RunScheduledInvestigation | backend/src/services/ipInvestigationService.ts:126-134 | the deferred investigation saves the same target `investigateIP` does, changes no other document and the cache only as the lookup does, then clears the pending mark |
| Investigation.IPInvestigationService.StartMonitoring | backend/src/services/ipInvestigationService.ts:139-162 | a stored target gets monitoring enabled and lastCheck set, and the cache is untouched; an unknown address is created as a MONITORING, monitored target from the lookup, and the cache changes as the lookup leaves it; either way monitoring is on afterwards |
| Investigation.IPInvestigationService.StopMonitoring | backend/src/services/ipInvestigationService.ts:164-172 | fails with "IP not found to stop monitoring" iff the address is unknown, changing nothing; otherwise only monitoring.enabled changes, to false |
| LogController.Entries | backend/src/controllers/logController.ts:17 | a list body is used as is; any other body becomes a one-element list |
| LogController.ToPayload | backend/src/controllers/logController.ts:26-28 | the payload carries the entry's own three values, each non-empty |
| LogController.Forwardable | backend/src/controllers/logController.ts:25-34 | at most one payload per entry, each with three non-empty fields |
| LogController.BeforeNull | backend/src/controllers/logController.ts:25-26 | the entries reached before a null: a null-free prefix of the list, followed in the list by a null or by nothing |
| LogController.IngestLog | backend/src/controllers/logController.ts:15-43 | an empty list gets 400 "Log entry/entries are required" and forwards nothing; otherwise the well-formed entries before the first null are forwarded in order; the reply is 202 "Log entries accepted for processing.", or the error goes to the error handler when some entry is null |
| LogController.ForwardableMembers | backend/src/controllers/logController.ts:25-33 | a payload is forwarded iff some entry has all three fields truthy and carries it |
| LogController.ForwardableAppend | backend/src/controllers/logController.ts:25-34 | forwarding a + b forwards what a forwards, then what b forwards |
| LogController.ForwardableLength | backend/src/controllers/logController.ts:25-34 | no more payloads than entries, and one per entry when all entries are well formed |
| LogController.ForwardedActivitiesValid | backend/src/controllers/logController.ts:27-28 | every forwarded payload yields an activity with the non-empty source and details the schema requires |
| LogController.EmptyObjectIsAccepted | backend/src/controllers/logController.ts:17-22 | an empty object is wrapped, so it is not refused as empty; it forwards nothing |
| FrontendStore.ErrorText | frontend/src/stores/ipStore.ts:80 | a non-empty server error text is shown as is; otherwise the action's default message |
| FrontendStore.FindIndex | frontend/src/stores/ipStore.ts:98 | -1 iff no entry has the address; otherwise the first index that has it |
| FrontendStore.Upserted | frontend/src/stores/ipStore.ts:98-103 | the response is in the new list, which is one longer exactly when the address was absent |
| FrontendStore.Removed | frontend/src/stores/ipStore.ts:124-127 | the new list is one shorter exactly when the address was present, and holds only entries of the old list |
| FrontendStore.UpsertedProperties | frontend/src/stores/ipStore.ts:98-103 | after the upsert the address is first found at its old position, or at the end when it was absent; that entry is the response; the list grows by one exactly when the address was absent; every other position is unchanged |
| FrontendStore.UpsertedIdempotent | frontend/src/stores/ipStore.ts:98-103 | starting to monitor the same target twice leaves the list as after the first time |
| FrontendStore.RemovedUndoesUpsert | frontend/src/stores/ipStore.ts:124-127 | stopping a target that was just added restores the list |
| FrontendStore.RemovedProperties | frontend/src/stores/ipStore.ts:124-127 | the list shrinks by one exactly when the address is present; the first entry with it is removed and the others keep their order; otherwise the list is unchanged |
| FrontendStore.HighRisk | frontend/src/stores/ipStore.ts:66-68 | a target is in the high-risk list iff it is in the list and scores at least 70; a one-element list is kept iff it scores at least 70 |
| FrontendStore.HighRiskAppend | frontend/src/stores/ipStore.ts:67 | the filter of a concatenation is the concatenation of the filters, so order and repeats follow the list |
| FrontendStore.HighRiskSplitsList | frontend/src/stores/ipStore.ts:66-68 | high-risk and below-70 targets together account for every entry |
| FrontendStore.IPStore.constructor | frontend/src/stores/ipStore.ts:52-57 | no target on screen, no monitored targets, not loading, no error |
| FrontendStore.IPStore.IsMonitored | frontend/src/stores/ipStore.ts:60-62 | true iff a target is on screen, it has a monitoring block, and that block is enabled; false when there is no target or no block |
| FrontendStore.IPStore.MonitoredCount | frontend/src/stores/ipStore.ts:63-65 | the length of the monitored list, which UpsertedProperties and RemovedProperties track |
| FrontendStore.IPStore.HighRiskIPs | frontend/src/stores/ipStore.ts:66-68 | the filter of the monitored list by score at least 70, characterised by HighRisk and HighRiskAppend |
| FrontendStore.IPStore.BeginRequest | frontend/src/stores/ipStore.ts:73-75 | while a request is in flight, loading is on and the previous error is cleared |
| FrontendStore.IPStore.InvestigateIP | frontend/src/stores/ipStore.ts:72-85 | loading ends off; success puts the response on screen with no error; failure rethrows, keeps the screen and sets the server's error text or "Investigation failed"; the monitored list never changes |
| FrontendStore.IPStore.StartMonitoring | frontend/src/stores/ipStore.ts:87-112 | loading ends off; success refreshes the on-screen target only when it has the same address and upserts the response into the list by address; failure rethrows, changes neither, and sets the error text or "Failed to start monitoring" |
| FrontendStore.IPStore.StopMonitoring | frontend/src/stores/ipStore.ts:114-136 | loading ends off; success refreshes the on-screen target only when it has the same address and removes the first list entry with that address; failure rethrows, changes neither, and sets the error text or "Failed to stop monitoring" |
| FrontendStore.IPStore.LoadMonitoredIPs | frontend/src/stores/ipStore.ts:138-151 | loading ends off; success replaces the monitored list with the response; failure keeps it and sets the error text or "Failed to load monitored IPs"; the on-screen target never changes |
| FrontendStore.IPStore.ClearError | frontend/src/stores/ipStore.ts:153-155 | the error is cleared and nothing else changes |

## Left out

- Text.Lower: folds ASCII letters only, where `toLowerCase` folds all of Unicode. Some non-ASCII characters fold into the classifier's ASCII markers, so the model can classify such a line differently. For example, U+212A KELVIN SIGN lower-cases to "k": "BLOC\u212A IN= OUT=" is a firewall block for the code and UNKNOWN in the model.
- Floating point:
  - the `[lon, lat]` coordinates of a new target are not modelled;
  - JavaScript numbers are modelled as integers, so a fractional risk score cannot be expressed.
- Time:
  - the ten-second `setTimeout` delay and the cache's one-hour expiry (`stdTTL: 3600`) are not modelled; cached GeoIP answers never expire in the model;
  - dates are abstract integers, and ISO date strings are not modelled.
- Concurrency: interleavings of concurrent awaits between requests are not modelled. The pending map is modelled as a trace of `GateEvent`s, and the deferred call as the separate `RunScheduledInvestigation`.
- IPModel.IPCollection.Create: requires the address to be absent. The duplicate-key error that two racing creators would meet is not modelled.
- Persistence failures are not modelled: connection errors, failed saves, and validation errors from `save`. The enums are datatypes, so values outside them cannot arise.
- The schema's `timestamps: true` fields `createdAt` and `updatedAt` are not modelled, nor are its indexes. `monitoring.interval` and `alerts` are carried but never written by the core.
- ExternalAPI.AnalyzeWithLLM: builds no prompt (lines 84-122). `ipAddress` is used only in the prompt and is not a parameter. The parser is a parameter whose result is assumed to have the five fields with the right types: extra fields spread into the result, missing fields, and non-object JSON are not modelled.
- The Gemini client construction and model name (lines 40-41) are not modelled, nor is the warning when the geolocation key is missing. Logging is not modelled anywhere.
- GeoIP answer fields `lat`, `lon` and `message` are not modelled.
- LogController.IngestLog: each field is modelled as absent or a string. Numbers, objects and other non-string values are not modelled. A `null` body is `ObjectBody(NullEntry)`, which is covered.
- FrontendStore.ErrorText: the server's `error` field is modelled as absent or a string. Other value types are not modelled.
- `IPData` is reduced to the fields the store's logic reads: address, monitoring and risk score. The display fields are not modelled.
- The frontend's `loading == true` window during a request is visible only as the postcondition of `BeginRequest`, because each action is modelled as one completed call.
- The route handlers in `ipController.ts`, the routes, app setup, the error handler, the router and the display helpers (country table, date formatting) are not part of this model.
