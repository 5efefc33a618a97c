/**
 * The dashboard's client-side store: the target on screen, the list of
 * monitored targets, and the loading / error flags around each request.
 */
module FrontendStore {
  import opened Wrappers

  /** The part of a target the store's logic looks at; the rest is carried for display. */
  datatype MonitoringView = MonitoringView(enabled: bool)
  datatype IPData = IPData(address: string, monitoring: Option<MonitoringView>, riskScore: int)

  /** What a request produced: the response data, or a failure with an optional server `error` text. */
  datatype HttpReply<T> = Ok(data: T) | Failed(serverError: Option<string>)

  /** An action either returns the response data or rethrows the request's error. */
  datatype ActionResult<T> = Returned(value: T) | Rethrown

  const HighRiskThreshold := 70

  const InvestigationFailed := "Investigation failed"
  const StartFailed := "Failed to start monitoring"
  const StopFailed := "Failed to stop monitoring"
  const LoadFailed := "Failed to load monitored IPs"

  /** `error.response?.data?.error || fallback`. */
  function ErrorText(serverError: Option<string>, fallback: string): (t: string)
    ensures fallback != "" ==> t != ""
    ensures serverError.Some? && serverError.value != "" ==> t == serverError.value
    ensures serverError.None? || serverError.value == "" ==> t == fallback
  {
    if serverError.Some? && serverError.value != "" then serverError.value else fallback
  }

  /** `list.findIndex(ip => ip.address === address)`. */
  function FindIndex(list: seq<IPData>, address: string): (i: int)
    ensures -1 <= i < |list|
    ensures i == -1 <==> forall k :: 0 <= k < |list| ==> list[k].address != address
    ensures i != -1 ==> list[i].address == address && forall k :: 0 <= k < i ==> list[k].address != address
    decreases |list|
  {
    if list == [] then -1
    else if list[0].address == address then 0
    else
      var j := FindIndex(list[1..], address);
      if j == -1 then -1 else j + 1
  }

  /** The list after `startMonitoring` succeeds: appended when absent, else the first match replaced. */
  function Upserted(list: seq<IPData>, address: string, data: IPData): (r: seq<IPData>)
    ensures |r| == if FindIndex(list, address) == -1 then |list| + 1 else |list|
    ensures data in r
  {
    var i := FindIndex(list, address);
    if i == -1 then list + [data]
    else
      var r := list[i := data];
      assert r[i] == data;
      r
  }

  /** The list after `stopMonitoring` succeeds: the first match spliced out, if any. */
  function Removed(list: seq<IPData>, address: string): (r: seq<IPData>)
    ensures |r| == if FindIndex(list, address) == -1 then |list| else |list| - 1
    ensures forall d :: d in r ==> d in list
  {
    var i := FindIndex(list, address);
    if i == -1 then list else list[..i] + list[i + 1..]
  }

  /** The `highRiskIPs` getter: the targets scoring at least 70, in list order. */
  function HighRisk(list: seq<IPData>): (r: seq<IPData>)
    ensures |r| <= |list|
    ensures forall d :: d in r <==> d in list && d.riskScore >= HighRiskThreshold
    ensures |list| == 1 ==> r == (if list[0].riskScore >= HighRiskThreshold then list else [])
    decreases |list|
  {
    if list == [] then []
    else
      var rest := HighRisk(list[1..]);
      assert forall d :: d in list <==> d == list[0] || d in list[1..];
      if list[0].riskScore >= HighRiskThreshold then [list[0]] + rest else rest
  }

  /**
   * An upsert leaves `data` where the address is now first found, grows the
   * list by one exactly when the address was absent, and leaves every other
   * position as it was.
   */
  lemma UpsertedProperties(list: seq<IPData>, address: string, data: IPData)
    requires data.address == address
    ensures var r := Upserted(list, address, data);
      var i := FindIndex(list, address);
      && FindIndex(r, address) == (if i == -1 then |list| else i)
      && r[FindIndex(r, address)] == data
      && |r| == (if i == -1 then |list| + 1 else |list|)
      && forall k :: 0 <= k < |list| && k != i ==> r[k] == list[k]
  {
    var r := Upserted(list, address, data);
    var i := FindIndex(list, address);
    var j := if i == -1 then |list| else i;
    assert r[j] == data;
    assert forall k :: 0 <= k < j ==> r[k] == list[k];
  }

  /** Starting to monitor the same target twice leaves the list as after the first time. */
  lemma UpsertedIdempotent(list: seq<IPData>, address: string, data: IPData)
    requires data.address == address
    ensures Upserted(Upserted(list, address, data), address, data) == Upserted(list, address, data)
  {
    UpsertedProperties(list, address, data);
  }

  /** Stopping a target that was just added undoes the addition. */
  lemma RemovedUndoesUpsert(list: seq<IPData>, address: string, data: IPData)
    requires FindIndex(list, address) == -1 && data.address == address
    ensures Removed(Upserted(list, address, data), address) == list
  {
    UpsertedProperties(list, address, data);
    assert (list + [data])[..|list|] == list;
  }

  /**
   * Removal drops one entry exactly when the address is present — the first
   * one carrying it — and keeps the others in order.
   */
  lemma RemovedProperties(list: seq<IPData>, address: string)
    ensures var r := Removed(list, address);
      var i := FindIndex(list, address);
      && |r| == (if i == -1 then |list| else |list| - 1)
      && (forall k :: 0 <= k < i ==> r[k] == list[k])
      && (i != -1 ==> forall k :: i <= k < |r| ==> r[k] == list[k + 1])
      && (i == -1 ==> r == list)
  {
    var i := FindIndex(list, address);
    if i != -1 {
      var r := list[..i] + list[i + 1..];
      assert forall k :: 0 <= k < i ==> r[k] == list[..i][k];
      assert forall k :: i <= k < |r| ==> r[k] == list[i + 1..][k - i];
    }
  }

  /**
   * The filter works entry by entry and keeps list order: filtering a
   * concatenation filters each part. With the one-element case this fixes
   * the result of every list, order and repeats included.
   */
  lemma {:induction false} HighRiskAppend(a: seq<IPData>, b: seq<IPData>)
    ensures HighRisk(a + b) == HighRisk(a) + HighRisk(b)
    decreases |a|
  {
    if a == [] {
      assert a + b == b;
    } else {
      assert (a + b)[0] == a[0] && (a + b)[1..] == a[1..] + b;
      HighRiskAppend(a[1..], b);
    }
  }

  /** Every target of a list either shows in the high-risk view or scores below 70. */
  lemma {:induction false} HighRiskSplitsList(list: seq<IPData>)
    ensures |HighRisk(list)| + |LowRisk(list)| == |list|
    decreases |list|
  {
    if list != [] {
      HighRiskSplitsList(list[1..]);
    }
  }

  function LowRisk(list: seq<IPData>): seq<IPData>
    decreases |list|
  {
    if list == [] then []
    else (if list[0].riskScore < HighRiskThreshold then [list[0]] else []) + LowRisk(list[1..])
  }

  class IPStore {
    var currentIP: Option<IPData>
    var monitoredIPs: seq<IPData>
    var loading: bool
    var error: Option<string>

    constructor ()
      ensures currentIP == None && monitoredIPs == [] && !loading && error == None
    {
      currentIP := None;
      monitoredIPs := [];
      loading := false;
      error := None;
    }

    /** `isMonitored`: the target on screen has monitoring enabled; false when there is none. */
    function IsMonitored(): (b: bool)
      reads this
      ensures b <==> currentIP.Some? && currentIP.value.monitoring.Some? && currentIP.value.monitoring.value.enabled
    {
      currentIP.Some? && currentIP.value.monitoring.Some? && currentIP.value.monitoring.value.enabled
    }

    /** `monitoredCount`: one per entry of the monitored list, so it tracks the upserts and removals. */
    function MonitoredCount(): (n: nat)
      reads this
      ensures n == |monitoredIPs|
    {
      |monitoredIPs|
    }

    /** `highRiskIPs`: exactly the monitored targets scoring at least 70. */
    function HighRiskIPs(): (r: seq<IPData>)
      reads this
      ensures r == HighRisk(monitoredIPs)
      ensures |r| <= |monitoredIPs|
      ensures forall d :: d in r <==> d in monitoredIPs && d.riskScore >= HighRiskThreshold
    {
      HighRisk(monitoredIPs)
    }

    /** The opening of every request: loading on, previous error cleared. */
    method BeginRequest()
      modifies this
      ensures loading && error == None
      ensures currentIP == old(currentIP) && monitoredIPs == old(monitoredIPs)
    {
      loading := true;
      error := None;
    }

    /** `investigateIP(address)`: the response becomes the target on screen. */
    method InvestigateIP(address: string, response: HttpReply<IPData>) returns (r: ActionResult<IPData>)
      modifies this
      ensures !loading && monitoredIPs == old(monitoredIPs)
      ensures response.Ok? ==> r == Returned(response.data) && currentIP == Some(response.data) && error == None
      ensures response.Failed? ==>
        r == Rethrown && currentIP == old(currentIP) && error == Some(ErrorText(response.serverError, InvestigationFailed))
    {
      BeginRequest();
      if response.Ok? {
        currentIP := Some(response.data);
        r := Returned(response.data);
      } else {
        error := Some(ErrorText(response.serverError, InvestigationFailed));
        r := Rethrown;
      }
      loading := false;
    }

    /**
     * `startMonitoring(address)`: the target on screen is refreshed only if it
     * is the same address; the monitored list gets the response upserted by
     * address.
     */
    method StartMonitoring(address: string, response: HttpReply<IPData>) returns (r: ActionResult<IPData>)
      modifies this
      ensures !loading
      ensures response.Ok? ==>
        && r == Returned(response.data) && error == None
        && currentIP == (if old(currentIP).Some? && old(currentIP).value.address == address
                         then Some(response.data) else old(currentIP))
        && monitoredIPs == Upserted(old(monitoredIPs), address, response.data)
      ensures response.Failed? ==>
        && r == Rethrown && currentIP == old(currentIP) && monitoredIPs == old(monitoredIPs)
        && error == Some(ErrorText(response.serverError, StartFailed))
    {
      BeginRequest();
      if response.Ok? {
        if currentIP.Some? && currentIP.value.address == address {
          currentIP := Some(response.data);
        }
        var index := FindIndex(monitoredIPs, address);
        if index == -1 {
          monitoredIPs := monitoredIPs + [response.data];
        } else {
          monitoredIPs := monitoredIPs[index := response.data];
        }
        r := Returned(response.data);
      } else {
        error := Some(ErrorText(response.serverError, StartFailed));
        r := Rethrown;
      }
      loading := false;
    }

    /**
     * `stopMonitoring(address)`: the target on screen is refreshed only if it
     * is the same address; the first list entry with that address is removed.
     */
    method StopMonitoring(address: string, response: HttpReply<IPData>) returns (r: ActionResult<IPData>)
      modifies this
      ensures !loading
      ensures response.Ok? ==>
        && r == Returned(response.data) && error == None
        && currentIP == (if old(currentIP).Some? && old(currentIP).value.address == address
                         then Some(response.data) else old(currentIP))
        && monitoredIPs == Removed(old(monitoredIPs), address)
      ensures response.Failed? ==>
        && r == Rethrown && currentIP == old(currentIP) && monitoredIPs == old(monitoredIPs)
        && error == Some(ErrorText(response.serverError, StopFailed))
    {
      BeginRequest();
      if response.Ok? {
        if currentIP.Some? && currentIP.value.address == address {
          currentIP := Some(response.data);
        }
        var index := FindIndex(monitoredIPs, address);
        if index != -1 {
          monitoredIPs := monitoredIPs[..index] + monitoredIPs[index + 1..];
        }
        r := Returned(response.data);
      } else {
        error := Some(ErrorText(response.serverError, StopFailed));
        r := Rethrown;
      }
      loading := false;
    }

    /** `loadMonitoredIPs()`: the response replaces the monitored list. */
    method LoadMonitoredIPs(response: HttpReply<seq<IPData>>) returns (r: ActionResult<seq<IPData>>)
      modifies this
      ensures !loading && currentIP == old(currentIP)
      ensures response.Ok? ==> r == Returned(response.data) && monitoredIPs == response.data && error == None
      ensures response.Failed? ==>
        r == Rethrown && monitoredIPs == old(monitoredIPs) && error == Some(ErrorText(response.serverError, LoadFailed))
    {
      BeginRequest();
      if response.Ok? {
        monitoredIPs := response.data;
        r := Returned(response.data);
      } else {
        error := Some(ErrorText(response.serverError, LoadFailed));
        r := Rethrown;
      }
      loading := false;
    }

    method ClearError()
      modifies this
      ensures error == None
      ensures currentIP == old(currentIP) && monitoredIPs == old(monitoredIPs) && loading == old(loading)
    {
      error := None;
    }
  }
}
