/**
 * The `IP` document schema of the backend (one document per monitored
 * address) and the collection that stores it. Mongo is modelled as a map
 * from address to document; the schema's defaults and its pre-save hook
 * are spelled out.
 */
module IPModel {
  import opened Wrappers

  /** Abstract clock value (`Date`). */
  type Time = int

  /** The closed domain of `detectedActivities[].type`. */
  datatype ActivityType = SSH_FAILURE | PORT_SCAN | FIREWALL_BLOCK | MALICIOUS_REQUEST | UNKNOWN

  /** One detected activity; `kind` is the schema's `type` field. */
  datatype Activity = Activity(timestamp: Time, kind: ActivityType, sourceIP: string, details: string)

  /** The closed domain of `status`. */
  datatype Status = ACTIVE | BLOCKED | MONITORING

  /** The closed domain of an alert's `severity`. */
  datatype Severity = LOW | MEDIUM | HIGH | CRITICAL

  datatype Alert = Alert(timestamp: Time, alertType: string, description: string, severity: Option<Severity>)

  /** Geolocation strings; the coordinate pair is not part of this model. */
  datatype GeoLocation = GeoLocation(country: string, city: string, isp: string, asn: string)

  datatype Monitoring = Monitoring(enabled: bool, interval: Option<int>, lastCheck: Option<Time>, alerts: seq<Alert>)

  datatype AiAnalysis = AiAnalysis(
    riskScore: int, summary: string, findings: seq<string>, recommendations: seq<string>,
    lastAnalysis: Option<Time>)

  /** A stored `IP` document. */
  datatype IPRecord = IPRecord(
    address: string,
    firstSeen: Time,
    lastSeen: Time,
    status: Status,
    geoLocation: Option<GeoLocation>,
    monitoring: Monitoring,
    detectedActivities: seq<Activity>,
    aiAnalysis: AiAnalysis)

  /** The fields a caller passes to `IP.create`; absent ones take the schema's defaults. */
  datatype NewDocument = NewDocument(
    address: string,
    status: Option<Status>,
    monitoringEnabled: Option<bool>,
    lastCheck: Option<Time>,
    geoLocation: Option<GeoLocation>)

  const DefaultSummary := "No analysis performed yet."

  /** An activity the schema accepts: `type`, `sourceIP` and `details` are required (non-empty strings). */
  predicate ValidActivity(a: Activity) {
    a.sourceIP != "" && a.details != ""
  }

  /** Builds the document `IP.create(doc)` stores at time `now`, filling every schema default. */
  function WithDefaults(doc: NewDocument, now: Time): (r: IPRecord)
    ensures r.address == doc.address && r.firstSeen == now && r.lastSeen == now
    ensures r.status == doc.status.GetOr(ACTIVE)
    ensures r.monitoring.enabled == doc.monitoringEnabled.GetOr(false)
    ensures r.monitoring.lastCheck == doc.lastCheck && r.monitoring.alerts == []
    ensures r.geoLocation == doc.geoLocation
    ensures r.detectedActivities == []
    ensures r.aiAnalysis == AiAnalysis(0, DefaultSummary, [], [], None)
  {
    IPRecord(
      doc.address, now, now, doc.status.GetOr(ACTIVE), doc.geoLocation,
      Monitoring(doc.monitoringEnabled.GetOr(false), None, doc.lastCheck, []),
      [], AiAnalysis(0, DefaultSummary, [], [], None))
  }

  /** A document created with nothing but its address is ACTIVE, unmonitored and unanalysed. */
  lemma DefaultsOfBareDocument(address: string, now: Time)
    ensures var r := WithDefaults(NewDocument(address, None, None, None, None), now);
      r.status == ACTIVE && !r.monitoring.enabled && r.aiAnalysis.riskScore == 0
      && r.aiAnalysis.summary == "No analysis performed yet." && r.detectedActivities == []
  {
  }

  /** The pre-save hook: every save stamps `lastSeen` with the current time. */
  function PreSave(r: IPRecord, now: Time): (s: IPRecord)
    ensures s.lastSeen == now
    ensures s.(lastSeen := r.lastSeen) == r
  {
    r.(lastSeen := now)
  }

  /** The `IP` collection. `address` is unique, so the documents form a map keyed by it. */
  class IPCollection {
    var records: map<string, IPRecord>

    /** Each document sits under its own address: the unique index on `address`. */
    ghost predicate Valid()
      reads this
    {
      forall a :: a in records ==> records[a].address == a
    }

    constructor ()
      ensures Valid() && records == map[]
    {
      records := map[];
    }

    /** `IP.findOne({ address })`. */
    method FindOne(address: string) returns (r: Option<IPRecord>)
      requires Valid()
      ensures r.Some? <==> address in records
      ensures r.Some? ==> r.value == records[address] && r.value.address == address
    {
      if address in records {
        r := Some(records[address]);
      } else {
        r := None;
      }
    }

    /** `IP.findOne({ address, 'monitoring.enabled': true })`. */
    method FindMonitored(address: string) returns (r: Option<IPRecord>)
      requires Valid()
      ensures r.Some? <==> address in records && records[address].monitoring.enabled
      ensures r.Some? ==> r.value == records[address] && r.value.address == address
    {
      if address in records && records[address].monitoring.enabled {
        r := Some(records[address]);
      } else {
        r := None;
      }
    }

    /** `doc.save()`: runs the pre-save hook, then stores the document under its address. */
    method Save(doc: IPRecord, now: Time) returns (saved: IPRecord)
      requires Valid()
      modifies this
      ensures Valid()
      ensures saved == PreSave(doc, now)
      ensures records == old(records)[doc.address := saved]
    {
      saved := PreSave(doc, now);
      records := records[doc.address := saved];
    }

    /**
     * `IP.create(doc)`: applies the schema defaults and saves. The unique index
     * admits only an address not yet stored.
     */
    method Create(doc: NewDocument, now: Time) returns (created: IPRecord)
      requires Valid()
      requires doc.address !in records
      modifies this
      ensures Valid()
      ensures created == WithDefaults(doc, now)
      ensures records == old(records)[doc.address := created]
    {
      created := Save(WithDefaults(doc, now), now);
    }

    /**
     * `IP.findOneAndUpdate({ address }, { $set: { 'monitoring.enabled': false } }, { new: true })`.
     * An update query does not run the pre-save hook, so `lastSeen` keeps its value.
     */
    method DisableMonitoring(address: string) returns (r: Option<IPRecord>)
      requires Valid()
      modifies this
      ensures Valid()
      ensures r.Some? <==> address in old(records)
      ensures address in old(records) ==>
        var old_ := old(records)[address];
        r.value == old_.(monitoring := old_.monitoring.(enabled := false))
        && records == old(records)[address := r.value]
      ensures address !in old(records) ==> records == old(records)
    {
      if address in records {
        var rec := records[address];
        var updated := rec.(monitoring := rec.monitoring.(enabled := false));
        records := records[address := updated];
        r := Some(updated);
      } else {
        r := None;
      }
    }
  }
}
