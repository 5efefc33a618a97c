/**
 * The investigation service of the backend: log-line classification, the
 * capped activity history, the per-address pending-investigation flag, and
 * the investigate / start / stop operations on stored targets.
 */
module Investigation {
  import opened Wrappers
  import opened Text
  import opened IPModel
  import opened ExternalAPI

  /** One forwarded log entry. */
  datatype LogPayload = LogPayload(monitoredIP: string, sourceIP: string, logLine: string)

  /** Most activities kept per target. */
  const MaxActivities := 200

  /** Lowest risk score that blocks a target. */
  const BlockThreshold := 75

  // ---------------------------------------------------------------- classifier

  predicate SshRule(l: string) {
    Contains(l, "failed password") || Contains(l, "invalid user")
  }

  predicate FirewallRule(l: string) {
    Contains(l, "block") && Contains(l, "in=") && Contains(l, "out=")
  }

  predicate ScanRule(l: string) {
    Contains(l, "nmap scan")
  }

  /**
   * Classifies a log line by an ordered first-match chain over its
   * lower-cased text. The chain has no rule for MALICIOUS_REQUEST.
   */
  function Classify(logLine: string): (t: ActivityType)
    ensures t != MALICIOUS_REQUEST
  {
    var l := Lower(logLine);
    if SshRule(l) then SSH_FAILURE
    else if FirewallRule(l) then FIREWALL_BLOCK
    else if ScanRule(l) then PORT_SCAN
    else UNKNOWN
  }

  /** Each outcome of the classifier, as a condition on the lower-cased line: the rules in their order. */
  lemma ClassifyRules(logLine: string)
    ensures var l := Lower(logLine);
      && (Classify(logLine) == SSH_FAILURE <==> SshRule(l))
      && (Classify(logLine) == FIREWALL_BLOCK <==> !SshRule(l) && FirewallRule(l))
      && (Classify(logLine) == PORT_SCAN <==> !SshRule(l) && !FirewallRule(l) && ScanRule(l))
      && (Classify(logLine) == UNKNOWN <==> !SshRule(l) && !FirewallRule(l) && !ScanRule(l))
  {
  }

  /** The classifier sees only the folded text: lines equal up to ASCII case get the same type. */
  lemma ClassifyIgnoresCase(a: string, b: string)
    requires Lower(a) == Lower(b)
    ensures Classify(a) == Classify(b)
  {
  }

  /** The SSH markers are found in any letter case. */
  lemma {:induction false} SshMarkerInAnyCase(logLine: string, marker: string)
    requires Lower(marker) == "failed password" || Lower(marker) == "invalid user"
    requires Contains(logLine, marker)
    ensures Classify(logLine) == SSH_FAILURE
  {
    ContainsLower(logLine, marker);
  }

  /** A line carrying both the firewall markers and "nmap scan" is a firewall block: that rule comes first. */
  lemma {:induction false} FirewallBeforeScan(logLine: string)
    requires !SshRule(Lower(logLine))
    requires Contains(logLine, "BLOCK") && Contains(logLine, "IN=") && Contains(logLine, "OUT=")
    requires Contains(logLine, "nmap scan")
    ensures Classify(logLine) == FIREWALL_BLOCK
  {
    ContainsLower(logLine, "BLOCK");
    ContainsLower(logLine, "IN=");
    ContainsLower(logLine, "OUT=");
    FirewallMarkersFolded();
  }

  lemma FirewallMarkersFolded()
    ensures Lower("BLOCK") == "block" && Lower("IN=") == "in=" && Lower("OUT=") == "out="
  {
    assert Lower("BLOCK") == "block";
    assert Lower("IN=") == "in=";
    assert Lower("OUT=") == "out=";
  }

  // ---------------------------------------------------------------- bounded history

  /** The activity recorded for a forwarded log entry at time `now`. */
  function NewActivity(payload: LogPayload, now: Time): (a: Activity)
    ensures a.kind == Classify(payload.logLine)
    ensures a.sourceIP == payload.sourceIP && a.details == payload.logLine && a.timestamp == now
  {
    Activity(now, Classify(payload.logLine), payload.sourceIP, payload.logLine)
  }

  /** `push` followed by one `shift` when the list has grown past the cap. */
  function CappedAppend(history: seq<Activity>, a: Activity): (r: seq<Activity>)
    ensures |r| > 0 && r[|r| - 1] == a
    ensures |history| <= MaxActivities ==> |r| <= MaxActivities
  {
    var h := history + [a];
    if |h| > MaxActivities then h[1..] else h
  }

  /**
   * The new activity is last; below the cap nothing is lost; at or above it
   * exactly the oldest entry goes and the rest keep their order; a history
   * within the cap stays within it.
   */
  lemma CappedAppendProperties(history: seq<Activity>, a: Activity)
    ensures var r := CappedAppend(history, a);
      && |r| > 0 && r[|r| - 1] == a
      && (|history| < MaxActivities ==> r == history + [a])
      && (|history| >= MaxActivities ==> r == history[1..] + [a])
      && (|history| <= MaxActivities ==> |r| <= MaxActivities)
  {
    var h := history + [a];
    if |history| >= MaxActivities {
      assert h[1..] == history[1..] + [a];
    }
  }

  /** The history after appending each activity of `incoming` in turn. */
  function AppendAll(history: seq<Activity>, incoming: seq<Activity>): seq<Activity>
    decreases |incoming|
  {
    if incoming == [] then history
    else AppendAll(CappedAppend(history, incoming[0]), incoming[1..])
  }

  /** The most recent `MaxActivities` entries of `s`. */
  function Newest(s: seq<Activity>): seq<Activity> {
    if |s| > MaxActivities then s[|s| - MaxActivities..] else s
  }

  /** Dropping the head of a full-plus-one history does not change what the cap keeps. */
  lemma NewestAfterShift(s: seq<Activity>, rest: seq<Activity>)
    requires |s| == MaxActivities + 1
    ensures Newest(s[1..] + rest) == Newest(s + rest)
  {
    var t := s + rest;
    assert s[1..] + rest == t[1..];
  }

  /** One append, seen from the whole stream: the cap keeps the same newest entries. */
  lemma NewestAfterAppend(history: seq<Activity>, incoming: seq<Activity>)
    requires |history| <= MaxActivities && incoming != []
    ensures Newest(CappedAppend(history, incoming[0]) + incoming[1..]) == Newest(history + incoming)
  {
    var h := history + [incoming[0]];
    assert h + incoming[1..] == history + incoming;
    if |h| > MaxActivities {
      NewestAfterShift(h, incoming[1..]);
    }
  }

  /**
   * FIFO eviction over any number of appends: starting within the cap, the
   * history ends as the most recent `MaxActivities` entries of the old
   * history followed by everything appended, in arrival order.
   */
  lemma {:induction false} AppendAllKeepsNewest(history: seq<Activity>, incoming: seq<Activity>)
    requires |history| <= MaxActivities
    ensures AppendAll(history, incoming) == Newest(history + incoming)
    decreases |incoming|
  {
    if incoming == [] {
      assert history + incoming == history;
    } else {
      CappedAppendProperties(history, incoming[0]);
      AppendAllKeepsNewest(CappedAppend(history, incoming[0]), incoming[1..]);
      NewestAfterAppend(history, incoming);
    }
  }

  /** 201 activities appended to an empty history leave 200: the first is gone, the last is kept. */
  lemma TwoHundredAndOne(incoming: seq<Activity>)
    requires |incoming| == 201
    ensures AppendAll([], incoming) == incoming[1..]
  {
    AppendAllKeepsNewest([], incoming);
    assert [] + incoming == incoming;
  }

  // ---------------------------------------------------------------- pending gate

  /** `investigationQueue.get(a)` is truthy. */
  predicate Pending(queue: map<string, bool>, a: string) {
    a in queue && queue[a]
  }

  /** An accepted log for a monitored address, or the end of a scheduled investigation (the `finally`). */
  datatype GateEvent = LogAccepted(address: string) | InvestigationFinished(address: string)

  /**
   * One event on the pending map: a log for an address that is not pending
   * marks it and schedules an investigation; a log for a pending address does
   * nothing; a finished investigation deletes the mark.
   */
  function GateStep(queue: map<string, bool>, e: GateEvent): (r: (map<string, bool>, bool))
    ensures r.1 ==> e.LogAccepted? && !Pending(queue, e.address)
  {
    match e
    case LogAccepted(a) =>
      if Pending(queue, a) then (queue, false) else (queue[a := true], true)
    case InvestigationFinished(a) =>
      (queue - {a}, false)
  }

  /** The pending map after a trace of events. */
  function RunGate(queue: map<string, bool>, trace: seq<GateEvent>): map<string, bool>
    decreases |trace|
  {
    if trace == [] then queue else RunGate(GateStep(queue, trace[0]).0, trace[1..])
  }

  /** How many investigations a trace schedules for address `a`. */
  function Schedules(queue: map<string, bool>, trace: seq<GateEvent>, a: string): nat
    decreases |trace|
  {
    if trace == [] then 0
    else
      var (next, scheduled) := GateStep(queue, trace[0]);
      (if scheduled && trace[0].address == a then 1 else 0) + Schedules(next, trace[1..], a)
  }

  /** How many investigations of `a` finish during a trace. */
  function Finishes(trace: seq<GateEvent>, a: string): nat
    decreases |trace|
  {
    if trace == [] then 0
    else (if trace[0] == InvestigationFinished(a) then 1 else 0) + Finishes(trace[1..], a)
  }

  /**
   * While an investigation of `a` is pending, logs for `a` schedule nothing
   * and leave the mark in place, whatever happens to other addresses.
   */
  lemma {:induction false} PendingSuppressesSchedules(queue: map<string, bool>, trace: seq<GateEvent>, a: string)
    requires Pending(queue, a)
    requires InvestigationFinished(a) !in trace
    ensures Schedules(queue, trace, a) == 0
    ensures Pending(RunGate(queue, trace), a)
    decreases |trace|
  {
    if trace != [] {
      assert trace[0] != InvestigationFinished(a);
      assert forall e :: e in trace[1..] ==> e in trace;
      PendingSuppressesSchedules(GateStep(queue, trace[0]).0, trace[1..], a);
    }
  }

  /** A burst of logs for an address that is not pending schedules exactly one investigation. */
  lemma {:induction false} BurstSchedulesOnce(queue: map<string, bool>, trace: seq<GateEvent>, a: string)
    requires !Pending(queue, a)
    requires LogAccepted(a) in trace
    requires InvestigationFinished(a) !in trace
    ensures Schedules(queue, trace, a) == 1
    decreases |trace|
  {
    assert trace != [];
    var (next, scheduled) := GateStep(queue, trace[0]);
    assert forall e :: e in trace[1..] ==> e in trace;
    if trace[0] == LogAccepted(a) {
      PendingSuppressesSchedules(next, trace[1..], a);
    } else {
      assert trace[0] != InvestigationFinished(a);
      assert !Pending(next, a);
      assert LogAccepted(a) in trace[1..] by {
        var i :| 0 <= i < |trace| && trace[i] == LogAccepted(a);
        assert i != 0 && trace[1..][i - 1] == LogAccepted(a);
      }
      BurstSchedulesOnce(next, trace[1..], a);
    }
  }

  /**
   * At most one investigation per address is outstanding: over any trace,
   * the investigations scheduled for `a` exceed those finished by at most one
   * (by none if `a` was already pending).
   */
  lemma {:induction false} SchedulesBoundedByFinishes(queue: map<string, bool>, trace: seq<GateEvent>, a: string)
    ensures Schedules(queue, trace, a) + (if Pending(RunGate(queue, trace), a) then 0 else 1)
            <= Finishes(trace, a) + (if Pending(queue, a) then 0 else 1)
    decreases |trace|
  {
    if trace != [] {
      SchedulesBoundedByFinishes(GateStep(queue, trace[0]).0, trace[1..], a);
    }
  }

  // ---------------------------------------------------------------- targets

  /** `value || 'Unknown'`. */
  function OrUnknown(s: string): (r: string)
    ensures r != "" && (s != "" ==> r == s)
  {
    if s == "" then "Unknown" else s
  }

  /** `s.split(' ')[0]`: the text before the first space. */
  function BeforeFirstSpace(s: string): (r: string)
    ensures |r| <= |s| && r == s[..|r|]
    ensures ' ' !in r
    ensures |r| < |s| ==> s[|r|] == ' '
  {
    if s == [] || s[0] == ' ' then [] else [s[0]] + BeforeFirstSpace(s[1..])
  }

  /** The geolocation block of a new target, from a lookup result. */
  function GeoFields(geoData: Option<GeoIPResponse>): (g: GeoLocation)
    ensures g.country != "" && g.city != "" && g.isp != "" && g.asn != ""
    ensures geoData.None? ==> g == GeoLocation("Unknown", "Unknown", "Unknown", "Unknown")
    ensures geoData.Some? ==>
      && g.country == OrUnknown(geoData.value.country) && g.city == OrUnknown(geoData.value.city)
      && g.isp == OrUnknown(geoData.value.isp) && g.asn == OrUnknown(BeforeFirstSpace(geoData.value.as_))
  {
    match geoData
    case None => GeoLocation("Unknown", "Unknown", "Unknown", "Unknown")
    case Some(d) =>
      GeoLocation(OrUnknown(d.country), OrUnknown(d.city), OrUnknown(d.isp), OrUnknown(BeforeFirstSpace(d.as_)))
  }

  /** A new target: MONITORING, monitoring enabled, geolocation from the lookup. */
  function NewTargetDocument(address: string, geoData: Option<GeoIPResponse>, lastCheck: Option<Time>): (d: NewDocument)
    ensures var r := WithDefaults(d, 0);
      && r.address == address && r.status == MONITORING && r.monitoring.enabled
      && r.monitoring.lastCheck == lastCheck && r.geoLocation == Some(GeoFields(geoData))
  {
    NewDocument(address, Some(MONITORING), Some(true), lastCheck, Some(GeoFields(geoData)))
  }

  function StatusFor(riskScore: int): (s: Status)
    ensures s != ACTIVE
    ensures s == BLOCKED <==> riskScore >= 75
  {
    if riskScore >= BlockThreshold then BLOCKED else MONITORING
  }

  /** Overwrites `aiAnalysis` with the analysis (its `riskLevel` is not stored) and derives `status`. */
  function ApplyAnalysis(rec: IPRecord, analysis: AIAnalysisResponse, now: Time): (r: IPRecord)
    ensures r.aiAnalysis.lastAnalysis == Some(now) && r.status == StatusFor(analysis.riskScore)
    ensures r.(aiAnalysis := rec.aiAnalysis, status := rec.status) == rec
  {
    rec.(
      aiAnalysis := AiAnalysis(analysis.riskScore, analysis.summary, analysis.findings,
                               analysis.recommendations, Some(now)),
      status := StatusFor(analysis.riskScore))
  }

  /**
   * The status an analysis leaves is BLOCKED exactly when its score is at
   * least 75 and MONITORING otherwise; the stored analysis is the new one in
   * full, whatever was stored before, and nothing else of the record changes.
   */
  lemma ApplyAnalysisEffect(rec: IPRecord, other: IPRecord, analysis: AIAnalysisResponse, now: Time)
    ensures var r := ApplyAnalysis(rec, analysis, now);
      && (r.status == BLOCKED <==> analysis.riskScore >= 75)
      && (r.status == MONITORING <==> analysis.riskScore < 75)
      && r.aiAnalysis == ApplyAnalysis(other, analysis, now).aiAnalysis
      && r.aiAnalysis.riskScore == analysis.riskScore && r.aiAnalysis.summary == analysis.summary
      && r.aiAnalysis.findings == analysis.findings && r.aiAnalysis.recommendations == analysis.recommendations
      && r.(aiAnalysis := rec.aiAnalysis, status := rec.status) == rec
  {
  }

  /** The target an investigation starts from: the stored one, or a new one from the lookup. */
  function TargetBefore(records: map<string, IPRecord>, address: string, geoData: Option<GeoIPResponse>, now: Time)
    : IPRecord
  {
    if address in records then records[address]
    else WithDefaults(NewTargetDocument(address, geoData, None), now)
  }

  /**
   * Investigating an address never seen before creates a target with no
   * activities, so the analysis is the fixed LOW/0 answer and the target is
   * left MONITORING with monitoring enabled.
   */
  /**
   * The document an investigation saves, from the collection and cache
   * before it: the target is analysed over its stored history.
   */
  function Investigated(records: map<string, IPRecord>, entries: map<string, GeoIPResponse>, address: string,
                        fetched: FetchOutcome, reply: LlmReply, parse: string -> Option<ParsedReply>, now: Time)
    : (ip: IPRecord)
    ensures ip.lastSeen == now && ip.aiAnalysis.lastAnalysis == Some(now)
    ensures ip.status == StatusFor(ip.aiAnalysis.riskScore)
    ensures address in records ==> ip.detectedActivities == records[address].detectedActivities
    ensures address !in records ==> ip.detectedActivities == [] && ip.aiAnalysis.riskScore == 0
  {
    var before := TargetBefore(records, address, LookupResult(entries, address, fetched), now);
    PreSave(ApplyAnalysis(before, AnalyzeWithLLM(before.detectedActivities, reply, parse, now), now), now)
  }

  /** The cache after an operation that looks up geolocation only for a new address. */
  function CacheAfterTarget(records: map<string, IPRecord>, entries: map<string, GeoIPResponse>, address: string,
                            fetched: FetchOutcome): (r: map<string, GeoIPResponse>)
    ensures address in records ==> r == entries
    ensures forall k :: k in entries ==> k in r && r[k] == entries[k]
  {
    if address in records then entries else CachedAfter(entries, address, fetched)
  }

  lemma FirstInvestigationIsQuiet(address: string, geoData: Option<GeoIPResponse>, reply: LlmReply,
                                  parse: string -> Option<ParsedReply>, now: Time)
    ensures var rec := TargetBefore(map[], address, geoData, now);
      var ip := ApplyAnalysis(rec, AnalyzeWithLLM(rec.detectedActivities, reply, parse, now), now);
      && ip.status == MONITORING && ip.monitoring.enabled
      && ip.aiAnalysis.riskScore == 0 && ip.aiAnalysis.summary == "No suspicious activities detected for this IP."
  {
  }

  const NotFoundToStop := "IP not found to stop monitoring"

  /** The service object: the collection, the shared GeoIP cache and the pending map. */
  class IPInvestigationService {
    const db: IPCollection
    const geo: GeoCache
    var investigationQueue: map<string, bool>

    ghost predicate Valid()
      reads this, db, geo
    {
      db.Valid() && geo.Valid()
    }

    constructor (db: IPCollection, geo: GeoCache)
      requires db.Valid() && geo.Valid()
      ensures Valid() && this.db == db && this.geo == geo && investigationQueue == map[]
    {
      this.db := db;
      this.geo := geo;
      investigationQueue := map[];
    }

    /**
     * `investigateIP(address)`: find or create the target (looking up its
     * geolocation only when creating it), analyse its stored activities,
     * overwrite the analysis, derive the status and save.
     */
    method InvestigateIP(address: string, fetched: FetchOutcome, reply: LlmReply,
                         parse: string -> Option<ParsedReply>, now: Time)
      returns (ip: IPRecord)
      requires Valid()
      modifies db, geo
      ensures Valid()
      ensures ip == Investigated(old(db.records), old(geo.entries), address, fetched, reply, parse, now)
      ensures db.records == old(db.records)[address := ip]
      ensures geo.entries == CacheAfterTarget(old(db.records), old(geo.entries), address, fetched)
    {
      ghost var before := TargetBefore(db.records, address, LookupResult(geo.entries, address, fetched), now);
      var found := db.FindOne(address);
      var rec: IPRecord;
      if found.Some? {
        rec := found.value;
      } else {
        var geoData, _ := geo.GetGeoIPData(address, fetched);
        rec := db.Create(NewTargetDocument(address, geoData, None), now);
      }
      assert rec == before;
      var analysis := AnalyzeWithLLM(rec.detectedActivities, reply, parse, now);
      ip := db.Save(ApplyAnalysis(rec, analysis, now), now);
    }

    /**
     * `processLogEntry(payload)`: ignored unless a target with that address
     * has monitoring enabled; otherwise the classified activity is appended
     * to the capped history, the target saved, and an investigation scheduled
     * unless one is already pending for the address.
     */
    method ProcessLogEntry(payload: LogPayload, now: Time) returns (scheduled: bool)
      requires Valid()
      modifies this, db
      ensures Valid()
      ensures var m := payload.monitoredIP;
        if m in old(db.records) && old(db.records)[m].monitoring.enabled then
          var rec := old(db.records)[m];
          && db.records == old(db.records)[m := PreSave(
               rec.(detectedActivities := CappedAppend(rec.detectedActivities, NewActivity(payload, now))), now)]
          && (investigationQueue, scheduled) == GateStep(old(investigationQueue), LogAccepted(m))
        else
          db.records == old(db.records) && investigationQueue == old(investigationQueue) && !scheduled
    {
      var m := payload.monitoredIP;
      var found := db.FindMonitored(m);
      if found.None? {
        return false;
      }
      var ip := found.value;
      var activities := ip.detectedActivities + [NewActivity(payload, now)];
      if |activities| > MaxActivities {
        activities := activities[1..];
      }
      var saved := db.Save(ip.(detectedActivities := activities), now);
      if !(m in investigationQueue && investigationQueue[m]) {
        investigationQueue := investigationQueue[m := true];
        scheduled := true;
      } else {
        scheduled := false;
      }
    }

    /** The deferred call: investigate, then delete the pending mark whatever the outcome. */
    method RunScheduledInvestigation(address: string, fetched: FetchOutcome, reply: LlmReply,
                                     parse: string -> Option<ParsedReply>, now: Time)
      returns (ip: IPRecord)
      requires Valid()
      modifies this, db, geo
      ensures Valid()
      ensures investigationQueue == GateStep(old(investigationQueue), InvestigationFinished(address)).0
      ensures !Pending(investigationQueue, address)
      ensures ip == Investigated(old(db.records), old(geo.entries), address, fetched, reply, parse, now)
      ensures db.records == old(db.records)[address := ip]
      ensures geo.entries == CacheAfterTarget(old(db.records), old(geo.entries), address, fetched)
    {
      ip := InvestigateIP(address, fetched, reply, parse, now);
      investigationQueue := investigationQueue - {address};
    }

    /**
     * `startMonitoring(address)`: an existing target gets monitoring enabled
     * and `lastCheck` refreshed; otherwise a new target is created with both.
     */
    method StartMonitoring(address: string, fetched: FetchOutcome, now: Time) returns (ip: IPRecord)
      requires Valid()
      modifies db, geo
      ensures Valid()
      ensures address in old(db.records) ==>
        var rec := old(db.records)[address];
        ip == PreSave(rec.(monitoring := rec.monitoring.(enabled := true, lastCheck := Some(now))), now)
        && geo.entries == old(geo.entries)
      ensures address !in old(db.records) ==>
        ip == WithDefaults(NewTargetDocument(address, LookupResult(old(geo.entries), address, fetched), Some(now)), now)
      ensures geo.entries == CacheAfterTarget(old(db.records), old(geo.entries), address, fetched)
      ensures db.records == old(db.records)[address := ip]
      ensures ip.monitoring.enabled && ip.monitoring.lastCheck == Some(now)
    {
      var found := db.FindOne(address);
      if found.Some? {
        var rec := found.value;
        ip := db.Save(rec.(monitoring := rec.monitoring.(enabled := true, lastCheck := Some(now))), now);
      } else {
        var geoData, _ := geo.GetGeoIPData(address, fetched);
        ip := db.Create(NewTargetDocument(address, geoData, Some(now)), now);
      }
    }

    /** `stopMonitoring(address)`: disables monitoring of a stored target; an unknown address is an error. */
    method StopMonitoring(address: string) returns (r: Result<IPRecord, string>)
      requires Valid()
      modifies db
      ensures Valid()
      ensures r.Failure? <==> address !in old(db.records)
      ensures r.Failure? ==> r.error == NotFoundToStop && db.records == old(db.records)
      ensures r.Success? ==>
        var rec := old(db.records)[address];
        r.value == rec.(monitoring := rec.monitoring.(enabled := false))
        && db.records == old(db.records)[address := r.value]
    {
      var updated := db.DisableMonitoring(address);
      if updated.None? {
        r := Failure(NotFoundToStop);
      } else {
        r := Success(updated.value);
      }
    }
  }
}
