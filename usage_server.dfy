/**
 * The usage server's snapshot state machine: one process-wide cell holding the
 * last usage snapshot, a background loop that replaces it once per fetch
 * cycle, and two read-only HTTP views of it (`/usage` and `/health`).
 *
 * The upstream HTTPS call is not modelled; each cycle is driven by the
 * `Outcome` that call produced.
 */
module UsageServer {
  import opened Options
  import opened JsonValue
  import opened Decimal

  /** What `response.json()` did with the body of a response. */
  datatype Body =
    | Parsed(value: Json)
    | Unparsable(message: string)  // the text of the exception it raised

  /** What the upstream request of one cycle produced. */
  datatype Outcome =
    | Response(status: int, body: Body)
    | TransportFailure(message: string)  // the text of the exception `requests.get` raised

  /** The snapshot before any cycle has completed. */
  const Starting: Json := Single("status", JString("starting"))

  const SessionExpired: string := "Session expired - update SESSION_KEY"
  const AccessDenied: string := "Access denied - check credentials"

  /** The three entries whose utilization the success branch logs, in the order it reads them. */
  const Headlines: seq<string> := ["five_hour", "seven_day", "seven_day_sonnet"]

  /** The snapshot every failing cycle leaves: `{"error": reason}`. */
  function ErrorSnapshot(reason: string): (j: Json)
    ensures j.JObject? && j.fields.Keys == {"error"} && j.fields["error"] == JString(reason)
  {
    Single("error", JString(reason))
  }

  /** `key` is present in `fields` but maps to something that has no `.get`. */
  predicate NotADict(fields: map<string, Json>, key: string) {
    key in fields && !fields[key].JObject?
  }

  /**
   * A body the success branch can log without raising: a dict whose headline
   * entries, where present, are dicts too (a missing entry defaults to `{}`).
   */
  predicate WellShaped(body: Json) {
    body.JObject? && forall k :: k in Headlines ==> !NotADict(body.fields, k)
  }

  /**
   * The exception text, if any, raised by the three
   * `body.get(key, {}).get('utilization', 'N/A')` reads of the success branch:
   * the first value in reading order that is not a dict names it.
   */
  function HeadlineFault(body: Json): (fault: Option<string>)
    ensures fault.None? <==> WellShaped(body)
  {
    if !body.JObject? then Some(NoGetMessage(body))
    else if NotADict(body.fields, "five_hour") then Some(NoGetMessage(body.fields["five_hour"]))
    else if NotADict(body.fields, "seven_day") then Some(NoGetMessage(body.fields["seven_day"]))
    else if NotADict(body.fields, "seven_day_sonnet") then Some(NoGetMessage(body.fields["seven_day_sonnet"]))
    else None
  }

  /** The outcomes whose decoded body becomes the snapshot. */
  predicate Accepted(o: Outcome) {
    o.Response? && o.status == 200 && o.body.Parsed? && WellShaped(o.body.value)
  }

  /** The snapshot one cycle leaves behind, given what its upstream request produced. */
  function Classify(o: Outcome): (r: Json)
    ensures r.JObject?
    ensures Accepted(o) ==> r == o.body.value
    ensures !Accepted(o) ==> r.fields.Keys == {"error"} && r.fields["error"].JString?
  {
    match o
    case TransportFailure(message) => ErrorSnapshot(message)
    case Response(status, body) =>
      if status == 200 then
        match body
        case Unparsable(message) => ErrorSnapshot(message)
        case Parsed(value) =>
          match HeadlineFault(value)
          case None => value
          case Some(message) => ErrorSnapshot(message)
      else if status == 401 then ErrorSnapshot(SessionExpired)
      else if status == 403 then ErrorSnapshot(AccessDenied)
      else ErrorSnapshot("HTTP " + IntToDecimal(status))
  }

  /** The snapshot after running the cycles for `outcomes`, in order, from `start`. */
  function Replay(start: Json, outcomes: seq<Outcome>): (r: Json)
    ensures start.JObject? ==> r.JObject?
    decreases |outcomes|
  {
    if outcomes == [] then start else Replay(Classify(outcomes[0]), outcomes[1..])
  }

  /** `has_data` of `/health`: whether the snapshot has the key `five_hour`. */
  function HasData(snapshot: Json): bool {
    snapshot.JObject? && "five_hour" in snapshot.fields
  }

  /** The status code an `{"error": "HTTP <code>"}` snapshot names, if it is one. */
  function HttpStatusOf(snapshot: Json): Option<int> {
    if snapshot.JObject? && "error" in snapshot.fields && snapshot.fields["error"].JString? then
      var reason := snapshot.fields["error"].s;
      if |reason| >= 5 && reason[..5] == "HTTP " then ParseInt(reason[5..]) else None
    else None
  }

  /** The process-wide state: the module-level `usage_data` cell. */
  class Server {
    var snapshot: Json

    /** At rest the cell always holds a dict. */
    ghost predicate Valid()
      reads this
    {
      snapshot.JObject?
    }

    constructor ()
      ensures Valid()
      ensures snapshot == Starting && !HasData(snapshot)
    {
      snapshot := Starting;
    }

    /** One iteration of the fetch loop's body, up to the sleep. */
    method Cycle(o: Outcome)
      modifies this
      ensures Valid()
      ensures snapshot == Classify(o)
    {
      match o {
        case TransportFailure(message) =>
          snapshot := ErrorSnapshot(message);
        case Response(status, body) =>
          if status == 200 {
            match body {
              case Unparsable(message) =>
                snapshot := ErrorSnapshot(message);
              case Parsed(value) =>
                // the body is stored first; the reads after it may still raise
                snapshot := value;
                var fault := HeadlineFault(value);
                if fault.Some? {
                  snapshot := ErrorSnapshot(fault.value);
                }
            }
          } else if status == 401 {
            snapshot := ErrorSnapshot(SessionExpired);
          } else if status == 403 {
            snapshot := ErrorSnapshot(AccessDenied);
          } else {
            snapshot := ErrorSnapshot("HTTP " + IntToDecimal(status));
          }
      }
    }

    /**
     * The first `|outcomes|` iterations of the endless fetch loop. `seen[i]` is
     * what `/usage` serves during the sleep that follows cycle `i`.
     */
    method Run(outcomes: seq<Outcome>) returns (seen: seq<Json>)
      requires Valid()
      modifies this
      ensures Valid()
      ensures snapshot == Replay(old(snapshot), outcomes)
      ensures |seen| == |outcomes|
      ensures forall i :: 0 <= i < |outcomes| ==> seen[i] == Classify(outcomes[i])
    {
      seen := [];
      var i := 0;
      while i < |outcomes|
        invariant 0 <= i <= |outcomes|
        invariant Valid()
        invariant snapshot == Replay(old(snapshot), outcomes[..i])
        invariant |seen| == i
        invariant forall k :: 0 <= k < i ==> seen[k] == Classify(outcomes[k])
      {
        ReplayExtend(old(snapshot), outcomes[..i], outcomes[i]);
        Cycle(outcomes[i]);
        seen := seen + [snapshot];
        assert outcomes[..i + 1] == outcomes[..i] + [outcomes[i]];
        i := i + 1;
      }
      assert outcomes[..i] == outcomes;
    }

    /** The body `/usage` (and `/`) serves. */
    function Usage(): (r: Json)
      reads this
      requires Valid()
      ensures r.JObject? && r == snapshot
    {
      snapshot
    }

    /** The body `/health` serves. */
    function Health(): (r: Json)
      reads this
      ensures r.JObject? && r.fields.Keys == {"status", "has_data", "message"}
      ensures r.fields["status"] == JString("ok") && r.fields["message"] == JString("Server is running")
      ensures r.fields["has_data"] == JBool(HasData(snapshot))
    {
      JObject(map["status" := JString("ok"),
                  "has_data" := JBool(HasData(snapshot)),
                  "message" := JString("Server is running")])
    }
  }

  /** Running one more cycle leaves that cycle's classification, whatever came before. */
  lemma {:induction false} ReplayExtend(start: Json, outcomes: seq<Outcome>, o: Outcome)
    ensures Replay(start, outcomes + [o]) == Classify(o)
    decreases |outcomes|
  {
    if outcomes == [] {
      assert ([] + [o])[1..] == [];
    } else {
      assert (outcomes + [o])[1..] == outcomes[1..] + [o];
      ReplayExtend(Classify(outcomes[0]), outcomes[1..], o);
    }
  }

  /**
   * After at least one cycle the snapshot is the last cycle's classification:
   * no earlier outcome and not the starting value leaves any trace.
   */
  lemma OnlyLastOutcomeMatters(s1: Json, s2: Json, p1: seq<Outcome>, p2: seq<Outcome>, o: Outcome)
    ensures Replay(s1, p1 + [o]) == Replay(s2, p2 + [o]) == Classify(o)
  {
    ReplayExtend(s1, p1, o);
    ReplayExtend(s2, p2, o);
  }

  /** Before any cycle `/usage` serves `{"status": "starting"}` and `has_data` is false. */
  lemma StartingHasNoData()
    ensures HasData(Starting) == false
    ensures Starting.fields == map["status" := JString("starting")]
  {
  }

  /** Every outcome other than 200, 401 and 403 reports its status as "HTTP <code>". */
  lemma HttpErrorNamesStatus(status: int, body: Body)
    requires status != 200 && status != 401 && status != 403
    ensures Classify(Response(status, body)) == ErrorSnapshot("HTTP " + IntToDecimal(status))
    ensures HttpStatusOf(Classify(Response(status, body))) == Some(status)
  {
    var reason := "HTTP " + IntToDecimal(status);
    assert reason[..5] == "HTTP " && reason[5..] == IntToDecimal(status);
    IntToDecimalRoundTrip(status);
  }

  /** Two cycles with different unexpected statuses leave different snapshots. */
  lemma HttpErrorsDistinguishStatus(a: int, b: int, bodyA: Body, bodyB: Body)
    requires a != 200 && a != 401 && a != 403
    requires b != 200 && b != 401 && b != 403
    ensures Classify(Response(a, bodyA)) == Classify(Response(b, bodyB)) <==> a == b
  {
    HttpErrorNamesStatus(a, bodyA);
    HttpErrorNamesStatus(b, bodyB);
  }

  /** 401 and 403 leave their fixed reasons, whatever the body holds. */
  lemma AuthFailuresReported(body: Body)
    ensures Classify(Response(401, body)) == Single("error", JString("Session expired - update SESSION_KEY"))
    ensures Classify(Response(403, body)) == Single("error", JString("Access denied - check credentials"))
  {
  }

  /** The 401 and 403 reasons can never be mistaken for an "HTTP <code>" one. */
  lemma AuthErrorsAreNotHttpErrors(body: Body)
    ensures HttpStatusOf(Classify(Response(401, body))) == None
    ensures HttpStatusOf(Classify(Response(403, body))) == None
  {
  }

  /** Status 200 with a well-shaped body stores the decoded body verbatim. */
  lemma SuccessStoresBody(value: Json)
    requires WellShaped(value)
    ensures Classify(Response(200, Parsed(value))) == value
  {
  }

  /**
   * Status 200 with a body that is not a dict, or whose headline entry is not a
   * dict, ends the cycle with the AttributeError's text instead of the body.
   */
  lemma MisshapenSuccessIsError(value: Json)
    requires !WellShaped(value)
    ensures exists j: Json :: !j.JObject? && Classify(Response(200, Parsed(value))) == ErrorSnapshot(NoGetMessage(j))
  {
  }

  /** Exceptions (transport failure or an undecodable 200 body) are reported by their text. */
  lemma ExceptionIsReported(o: Outcome)
    requires o.TransportFailure? || (o.Response? && o.status == 200 && o.body.Unparsable?)
    ensures Classify(o) == ErrorSnapshot(if o.TransportFailure? then o.message else o.body.message)
  {
  }

  /**
   * `has_data` holds after a cycle exactly when that cycle stored a body with a
   * `five_hour` entry: every error snapshot reports false.
   */
  lemma HasDataAfterCycle(o: Outcome)
    ensures HasData(Classify(o)) <==> Accepted(o) && "five_hour" in o.body.value.fields
  {
  }

}
