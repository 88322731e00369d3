/**
 * The PSA time-entry adapter: create a time entry and check the service's health.
 * Unlike the other adapters it trusts a `success` field inside a 200 body.
 */
module PsaTimeEntry {
  import opened Wrappers
  import opened Json
  import opened Transport
  import opened Envelope

  function TimeEntryRequest(entry: Dict): (r: Request)
    ensures r.verb == POST && r.params == map[] && r.body == Some(Obj(entry))
  {
    Request(POST, "/api/psa/time-entries", map[], Some(Obj(entry)))
  }

  const EntryCreated := "Time entry created successfully"
  const EntryFailed := "Time entry creation failed"

  /** `create_time_entry`. On 200 the envelope's `success` is the body's own
      `success` field (True when absent); on 500 the body explains the failure.
      A body that is not an object makes `.get` raise, which the adapter catches. */
  function CreateTimeEntry(o: Outcome): (r: Dict)
    ensures "success" in r
    ensures Succeeded(r) <==>
              && o.Responded? && o.status == 200 && o.body.Parsed? && o.body.value.Obj?
              && Truthy(GetOr(o.body.value.fields, "success", Bool(true)))
    ensures o.Responded? && o.status == 200 && o.body.Parsed? && o.body.value.Obj? ==>
              && r["success"] == GetOr(o.body.value.fields, "success", Bool(true))
              && "time_entry" in r && r["time_entry"] == o.body.value
              && "error" !in r
    ensures Succeeded(r) ==> "time_entry" in r && r["time_entry"].Obj?
    ensures o.Responded? && o.status == 500 && o.body.Parsed? && o.body.value.Obj? ==>
              r == map["success" := Bool(false),
                       "error" := GetOr(o.body.value.fields, "error", Str(EntryFailed)),
                       "details" := o.body.value]
    ensures o.Responded? && o.status in {200, 500} && o.body.Parsed? && !o.body.value.Obj? ==>
              r == Crashed(NoGetMessage(o.body.value))
    ensures o.Responded? && o.status !in {200, 500} ==> r == Rejected(StatusLabel(o.status), o.text)
    ensures !o.Responded? ==> r == Crashed(ExceptionText(o))
  {
    match o
    case Responded(status, text, body) =>
      if status == 200 then
        match body
        case Parsed(v) =>
          if v.Obj? then
            map["success" := GetOr(v.fields, "success", Bool(true)), "time_entry" := v,
                "message" := Str(EntryCreated)]
          else Crashed(NoGetMessage(v))
        case Undecodable(reason) => Crashed(reason)
      else if status == 500 then
        match body
        case Parsed(v) =>
          if v.Obj? then
            map["success" := Bool(false), "error" := GetOr(v.fields, "error", Str(EntryFailed)), "details" := v]
          else Crashed(NoGetMessage(v))
        case Undecodable(reason) => Crashed(reason)
      else
        Rejected(StatusLabel(status), text)
    case TimedOut(reason) => Crashed(reason)
    case Failed(reason) => Crashed(reason)
  }

  /** A 200 is not enough: the body can report a failure of its own. */
  lemma OkCanReportFailure(text: string)
    ensures !Succeeded(CreateTimeEntry(Responded(200, text, Parsed(Obj(map["success" := Bool(false)])))))
  {
  }

  /** Outside 200 and 500 the adapter is the shared executor with no special statuses. */
  lemma CreateTimeEntryFollowsPolicy(o: Outcome)
    requires !(o.Responded? && o.status in {200, 500})
    ensures CreateTimeEntry(o) == Execute(Policy(PayloadAt("time_entry"), None, map[]), o)
  {
    OkOrStatusFollowsPolicy("time_entry", o);
  }

  /** The body's own flag can only take success away: a created time entry is always
      one the shared 200-versus-other mapping accepts, with the same payload. */
  lemma CreatedOnlyWhereAccepted(o: Outcome)
    ensures Succeeded(CreateTimeEntry(o)) ==>
              && Succeeded(OkOrStatus("time_entry", o))
              && CreateTimeEntry(o)["time_entry"] == OkOrStatus("time_entry", o)["time_entry"]
  {
  }

  const HealthRequest := Request(GET, "/api/psa/health", map[], None)

  /** `check_service_health`: healthy exactly when a 200 body reports status "UP". */
  function CheckHealth(o: Outcome): (r: Dict)
    ensures "success" in r && "healthy" in r
    ensures Succeeded(r) <==> o.Responded? && o.status == 200 && o.body.Parsed? && o.body.value.Obj?
    ensures r["healthy"] == Bool(Succeeded(r) && Get(o.body.value.fields, "status") == Str("UP"))
    ensures Succeeded(r) ==> "status" in r && r["status"] == Get(o.body.value.fields, "status")
    ensures o.Responded? && o.status != 200 ==>
              r == map["success" := Bool(false), "healthy" := Bool(false),
                       "error" := Str("Health check failed with status " + PyText.DecimalString(o.status))]
    ensures !o.Responded? ==>
              r == map["success" := Bool(false), "healthy" := Bool(false),
                       "error" := Str("Health check failed: " + ExceptionText(o))]
  {
    match o
    case Responded(status, _, body) =>
      if status == 200 then
        match body
        case Parsed(v) =>
          if v.Obj? then
            map["success" := Bool(true), "healthy" := Bool(Get(v.fields, "status") == Str("UP")),
                "service" := Get(v.fields, "service"), "timestamp" := Get(v.fields, "timestamp"),
                "status" := Get(v.fields, "status")]
          else HealthFailure(NoGetMessage(v))
        case Undecodable(reason) => HealthFailure(reason)
      else
        map["success" := Bool(false), "healthy" := Bool(false),
            "error" := Str("Health check failed with status " + PyText.DecimalString(status))]
    case TimedOut(reason) => HealthFailure(reason)
    case Failed(reason) => HealthFailure(reason)
  }

  /** The health check succeeds where the shared mapping does and the body is an object;
      a healthy report is always a successful one; a failed call or an undecodable body
      carries the shared mapping's exception text behind a prefix. */
  lemma HealthAgreesWithPolicy(o: Outcome)
    ensures Truthy(CheckHealth(o)["healthy"]) ==> Succeeded(CheckHealth(o))
    ensures Succeeded(CheckHealth(o)) <==> Succeeded(OkOrStatus("health", o)) && o.body.value.Obj?
    ensures (!o.Responded? || (o.status == 200 && o.body.Undecodable?)) ==>
              && "error" in CheckHealth(o) && "error" in OkOrStatus("health", o)
              && CheckHealth(o)["error"] == Str("Health check failed: " + OkOrStatus("health", o)["error"].s)
  {
  }

  /** The envelope of an exception caught by the health check. */
  function HealthFailure(reason: string): Dict {
    map["success" := Bool(false), "healthy" := Bool(false), "error" := Str("Health check failed: " + reason)]
  }
}
