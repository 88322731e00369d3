/**
 * The result envelope shared by every adapter, and the uniform
 * status-code policy that the adapters instantiate.
 */
module Envelope {
  import opened Wrappers
  import opened PyText
  import opened Json
  import opened Transport

  /** `f"Failed with status {code}"`. */
  function StatusLabel(code: int): string {
    "Failed with status " + DecimalString(code)
  }

  /** The generic failure label names the status code: the code can be read back from it. */
  lemma StatusLabelNamesCode(code: int)
    ensures |StatusLabel(code)| > |"Failed with status "|
    ensures ParseDecimal(StatusLabel(code)[|"Failed with status "|..]) == Some(code)
  {
    assert StatusLabel(code)[|"Failed with status "|..] == DecimalString(code);
    DecimalRoundTrip(code);
  }

  /** Distinct status codes never share a failure label. */
  lemma StatusLabelInjective(a: int, b: int)
    requires StatusLabel(a) == StatusLabel(b)
    ensures a == b
  {
    StatusLabelNamesCode(a);
    StatusLabelNamesCode(b);
  }

  /** `{"success": True, key: value}`. */
  function Accepted(key: string, value: Json): Dict {
    map["success" := Bool(true), key := value]
  }

  /** `{"success": False, "error": error, "message": message}`. */
  function Rejected(error: string, message: string): Dict {
    map["success" := Bool(false), "error" := Str(error), "message" := Str(message)]
  }

  /** `{"success": False, "error": str(e)}`, the envelope of every caught exception. */
  function Crashed(reason: string): Dict {
    map["success" := Bool(false), "error" := Str(reason)]
  }

  /** `result.get("success")` is truthy. */
  predicate Succeeded(d: Dict) {
    Truthy(Get(d, "success"))
  }

  /** `str(e)` of the exception a failed call raised (decoding errors included). */
  function ExceptionText(o: Outcome): string
    requires !o.Responded?
  {
    o.reason
  }

  /** What a 200 response turns into. */
  datatype OnOk = PayloadAt(key: string) | FixedMessage(message: string)

  /** A status with its own label; `message == None` means the backend's text is passed on. */
  datatype Rejection = Rejection(error: string, message: Option<string>)

  /** What a 204 turns into on list endpoints: an empty list under `key`, plus a message. */
  datatype NoContent = NoContent(key: string, message: string)

  /** A status-code policy table: the uniform adapter shape, with its per-endpoint variations. */
  datatype Policy = Policy(onOk: OnOk, noContent: Option<NoContent>, rejections: map<int, Rejection>)

  /** The statuses a policy accepts as success. */
  predicate Accepts(p: Policy, o: Outcome) {
    && o.Responded?
    && ((o.status == 200 && (p.onOk.FixedMessage? || o.body.Parsed?))
        || (o.status == 204 && p.noContent.Some?))
  }

  /** Payload keys never collide with the envelope's own keys. */
  predicate PayloadKey(key: string) {
    key !in {"success", "error", "message"}
  }

  predicate WellFormedPolicy(p: Policy) {
    && (p.onOk.PayloadAt? ==> PayloadKey(p.onOk.key))
    && (p.noContent.Some? ==> PayloadKey(p.noContent.value.key))
  }

  /** The shared request executor: maps one outcome to an envelope under a policy. */
  function Execute(p: Policy, o: Outcome): (r: Dict)
    requires WellFormedPolicy(p)
    ensures "success" in r && r["success"] == Bool(Accepts(p, o))
    ensures Succeeded(r) <==> Accepts(p, o)
    ensures "error" in r <==> !Accepts(p, o)
    ensures p.onOk.PayloadAt? && o.Responded? && o.status == 200 && o.body.Parsed? ==>
              p.onOk.key in r && r[p.onOk.key] == o.body.value
    ensures o.Responded? && o.status != 200 && (o.status != 204 || p.noContent.None?) && o.status !in p.rejections ==>
              r == Rejected(StatusLabel(o.status), o.text)
    ensures !o.Responded? ==> r == Crashed(ExceptionText(o))
  {
    match o
    case Responded(status, text, body) =>
      if status == 200 then
        match p.onOk
        case FixedMessage(m) => map["success" := Bool(true), "message" := Str(m)]
        case PayloadAt(key) =>
          (match body
           case Parsed(v) => Accepted(key, v)
           case Undecodable(reason) => Crashed(reason))
      else if status == 204 && p.noContent.Some? then
        var nc := p.noContent.value;
        map["success" := Bool(true), nc.key := Arr([]), "message" := Str(nc.message)]
      else if status in p.rejections then
        var rej := p.rejections[status];
        Rejected(rej.error, rej.message.GetOr(text))
      else
        Rejected(StatusLabel(status), text)
    case TimedOut(reason) => Crashed(reason)
    case Failed(reason) => Crashed(reason)
  }

  /** The 200-versus-other mapping most adapter methods share: the decoded body
      under `key` on 200, "Failed with status N" with the backend text otherwise,
      and `str(e)` when the call or the decoding raised. */
  function OkOrStatus(key: string, o: Outcome): (r: Dict)
    requires PayloadKey(key)
    ensures Succeeded(r) <==> o.Responded? && o.status == 200 && o.body.Parsed?
    ensures Succeeded(r) ==> r == Accepted(key, o.body.value)
    ensures o.Responded? && o.status != 200 ==> r == Rejected(StatusLabel(o.status), o.text)
    ensures !o.Responded? ==> r == Crashed(ExceptionText(o))
    ensures !Succeeded(r) ==> key !in r && "error" in r
  {
    match o
    case Responded(status, text, body) =>
      if status == 200 then
        match body
        case Parsed(v) => Accepted(key, v)
        case Undecodable(reason) => Crashed(reason)
      else
        Rejected(StatusLabel(status), text)
    case TimedOut(reason) => Crashed(reason)
    case Failed(reason) => Crashed(reason)
  }

  /** The 200-versus-other mapping is the uniform policy with no special statuses. */
  lemma OkOrStatusFollowsPolicy(key: string, o: Outcome)
    requires PayloadKey(key)
    ensures OkOrStatus(key, o) == Execute(Policy(PayloadAt(key), None, map[]), o)
  {
  }

  const SyncTimeoutError := "Sync operation timed out"
  const SyncTimeoutMessage := "The sync is taking longer than expected. It may still be running in the background."

  /** `str(e)` of the AttributeError raised when a handler names `httpx.TimeoutError`:
      httpx calls its timeout class `TimeoutException` and has no `TimeoutError`. */
  const NoTimeoutErrorText := "module 'httpx' has no attribute 'TimeoutError'"

  /** The number of results that report success. */
  function CountSucceeded(rs: seq<Dict>): (n: nat)
    ensures n <= |rs|
  {
    if rs == [] then 0
    else CountSucceeded(rs[..|rs| - 1]) + (if Succeeded(rs[|rs| - 1]) then 1 else 0)
  }

  /** Every result succeeded exactly when the success count is the number of results. */
  lemma {:induction false} AllSucceeded(rs: seq<Dict>)
    ensures CountSucceeded(rs) == |rs| <==> forall i :: 0 <= i < |rs| ==> Succeeded(rs[i])
  {
    if rs != [] {
      var n := |rs| - 1;
      AllSucceeded(rs[..n]);
      assert forall i :: 0 <= i < n ==> rs[..n][i] == rs[i];
    }
  }
}
