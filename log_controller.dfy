/**
 * The log-ingestion endpoint: a body holding one entry or a list of entries
 * is accepted with 202 and every well-formed entry is handed to the
 * investigation service without waiting for it.
 */
module LogController {
  import opened Wrappers
  import opened IPModel
  import opened Investigation

  /**
   * One element of the request body: `null`, or an object whose three
   * fields are each absent or a string.
   */
  datatype Entry =
    | NullEntry
    | Fields(monitoredIP: Option<string>, sourceIP: Option<string>, logLine: Option<string>)

  /** The parsed request body: a JSON array, or any single value. */
  datatype Body = ArrayBody(items: seq<Entry>) | ObjectBody(entry: Entry)

  datatype ReplyBody = ErrorJson(error: string) | MessageJson(message: string)

  /** An HTTP reply, or the error handed on to the error middleware. */
  datatype Reply = Status(code: int, body: ReplyBody) | PassedToErrorHandler

  const EntriesRequired := "Log entry/entries are required"
  const AcceptedMessage := "Log entries accepted for processing."

  /** A single value is wrapped into a one-element list. */
  function Entries(body: Body): (es: seq<Entry>)
    ensures body.ObjectBody? ==> es == [body.entry]
    ensures body.ArrayBody? ==> es == body.items
  {
    match body
    case ArrayBody(items) => items
    case ObjectBody(e) => [e]
  }

  /** JavaScript truthiness of an optional string: present and non-empty. */
  predicate Truthy(field: Option<string>) {
    field.Some? && field.value != ""
  }

  predicate WellFormed(e: Entry) {
    e.Fields? && Truthy(e.monitoredIP) && Truthy(e.sourceIP) && Truthy(e.logLine)
  }

  function ToPayload(e: Entry): (p: LogPayload)
    requires WellFormed(e)
    ensures p.monitoredIP != "" && p.sourceIP != "" && p.logLine != ""
    ensures Some(p.monitoredIP) == e.monitoredIP && Some(p.sourceIP) == e.sourceIP && Some(p.logLine) == e.logLine
  {
    LogPayload(e.monitoredIP.value, e.sourceIP.value, e.logLine.value)
  }

  /** The payloads forwarded for a list of entries, in order; malformed entries are skipped. */
  function Forwardable(es: seq<Entry>): (r: seq<LogPayload>)
    ensures |r| <= |es|
    ensures forall i :: 0 <= i < |r| ==> r[i].monitoredIP != "" && r[i].sourceIP != "" && r[i].logLine != ""
    decreases |es|
  {
    if es == [] then []
    else
      var last := es[|es| - 1];
      Forwardable(es[..|es| - 1]) + (if WellFormed(last) then [ToPayload(last)] else [])
  }

  /** The entries `forEach` reaches before destructuring a `null` throws. */
  function BeforeNull(es: seq<Entry>): (r: seq<Entry>)
    ensures |r| <= |es| && r == es[..|r|]
    ensures NullEntry !in r
    ensures |r| < |es| ==> es[|r|] == NullEntry
    decreases |es|
  {
    if es == [] || es[0] == NullEntry then [] else [es[0]] + BeforeNull(es[1..])
  }

  lemma {:induction false} BeforeNullAt(es: seq<Entry>, i: nat)
    requires i <= |es| && NullEntry !in es[..i]
    requires i == |es| || es[i] == NullEntry
    ensures BeforeNull(es) == es[..i]
    decreases i
  {
    if i > 0 {
      assert es[0] in es[..i];
      assert es[1..][..i - 1] == es[..i][1..];
      assert NullEntry !in es[1..][..i - 1];
      BeforeNullAt(es[1..], i - 1);
      assert es[..i] == [es[0]] + es[1..][..i - 1];
    }
  }

  /**
   * `ingestLog`: an empty list is refused with 400; otherwise each entry in
   * turn is forwarded when all three fields are truthy and skipped when not,
   * and the reply is 202 — unless an entry is `null`, whose destructuring
   * throws after the earlier entries were forwarded and hands the error on.
   */
  method IngestLog(body: Body) returns (reply: Reply, dispatched: seq<LogPayload>)
    ensures var es := Entries(body);
      && (es == [] ==> reply == Status(400, ErrorJson(EntriesRequired)) && dispatched == [])
      && (es != [] && NullEntry in es ==> reply == PassedToErrorHandler)
      && (es != [] && NullEntry !in es ==> reply == Status(202, MessageJson(AcceptedMessage)))
      && dispatched == Forwardable(BeforeNull(es))
  {
    var es := Entries(body);
    if |es| == 0 {
      return Status(400, ErrorJson(EntriesRequired)), [];
    }
    dispatched := [];
    var i := 0;
    while i < |es|
      invariant 0 <= i <= |es|
      invariant NullEntry !in es[..i]
      invariant dispatched == Forwardable(es[..i])
    {
      var entry := es[i];
      if entry == NullEntry {
        BeforeNullAt(es, i);
        return PassedToErrorHandler, dispatched;
      }
      if WellFormed(entry) {
        dispatched := dispatched + [ToPayload(entry)];
      }
      assert es[..i + 1][..i] == es[..i];
      i := i + 1;
    }
    assert es[..i] == es;
    BeforeNullAt(es, i);
    reply := Status(202, MessageJson(AcceptedMessage));
  }

  /** A payload is forwarded exactly when some entry is well formed and carries it. */
  lemma {:induction false} ForwardableMembers(es: seq<Entry>, p: LogPayload)
    ensures p in Forwardable(es) <==> exists i :: 0 <= i < |es| && WellFormed(es[i]) && ToPayload(es[i]) == p
    decreases |es|
  {
    if es != [] {
      var init := es[..|es| - 1];
      ForwardableMembers(init, p);
      assert forall i :: 0 <= i < |init| ==> init[i] == es[i];
    }
  }

  /** Forwarding distributes over concatenation: one request of `a + b` forwards what `a` then `b` would. */
  lemma {:induction false} ForwardableAppend(a: seq<Entry>, b: seq<Entry>)
    ensures Forwardable(a + b) == Forwardable(a) + Forwardable(b)
    decreases |b|
  {
    if b == [] {
      assert a + b == a;
    } else {
      assert (a + b)[..|a + b| - 1] == a + b[..|b| - 1];
      ForwardableAppend(a, b[..|b| - 1]);
    }
  }

  /** No more payloads than entries; all of them when every entry is well formed. */
  lemma {:induction false} ForwardableLength(es: seq<Entry>)
    ensures |Forwardable(es)| <= |es|
    ensures (forall i :: 0 <= i < |es| ==> WellFormed(es[i])) ==> |Forwardable(es)| == |es|
    decreases |es|
  {
    if es != [] {
      var init := es[..|es| - 1];
      assert forall i :: 0 <= i < |init| ==> init[i] == es[i];
      ForwardableLength(init);
    }
  }

  /** Every forwarded payload yields an activity with a non-empty source and details, as the schema requires. */
  lemma ForwardedActivitiesValid(es: seq<Entry>, now: Time)
    ensures forall p :: p in Forwardable(es) ==> ValidActivity(NewActivity(p, now))
  {
    forall p | p in Forwardable(es)
      ensures ValidActivity(NewActivity(p, now))
    {
      ForwardableMembers(es, p);
    }
  }

  /** An empty object is not an empty list: it is wrapped, skipped as malformed and answered with 202. */
  lemma EmptyObjectIsAccepted()
    ensures Entries(ObjectBody(Fields(None, None, None))) != []
    ensures Forwardable(BeforeNull(Entries(ObjectBody(Fields(None, None, None))))) == []
  {
    var es := [Fields(None, None, None)];
    assert BeforeNull(es) == es;
    assert es[..0] == [];
  }
}
