/**
 * What one outbound HTTP call looks like to the adapters: the request they
 * build and the outcome the transport hands back. The transport itself
 * (httpx, timeouts, base URLs) is outside the model.
 */
module Transport {
  import opened Wrappers
  import opened Json

  /** The result of `response.json()`: a decoded value, or the decoder's error text. */
  datatype Decoded = Parsed(value: Json) | Undecodable(reason: string)

  /** One transport outcome. `TimedOut` and `Failed` carry `str(e)` of the exception. */
  datatype Outcome =
    | Responded(status: int, text: string, body: Decoded)
    | TimedOut(reason: string)
    | Failed(reason: string)

  datatype Verb = GET | POST | PUT | DELETE

  /** An outbound request: verb, path below the service base URL, query parameters, JSON body. */
  datatype Request = Request(verb: Verb, path: string, params: Dict, body: Option<Json>)

  /** The backend as seen by a composite tool: the outcome of its n-th call, made with the given request. */
  type Backend = (nat, Request) -> Outcome

  /** What a tool hands back: its dict, or the name of a Python exception that escaped it. */
  datatype Reply = Done(value: Dict) | Raised(exception: string)

  /** A tool invocation: its reply and every request it issued, in order. */
  datatype Run = Run(reply: Reply, calls: seq<Request>)

  /** `{"mspCustomDomain": domain}`, the query string nearly every endpoint takes. */
  function DomainParam(domain: string): (r: Dict)
    ensures r.Keys == {"mspCustomDomain"} && r["mspCustomDomain"] == Str(domain)
  {
    map["mspCustomDomain" := Str(domain)]
  }

  /** The backend as seen by a tool that another tool calls after `offset` calls of its own. */
  function Shift(answer: Backend, offset: nat): Backend {
    (i: nat, req: Request) => answer(offset + i, req)
  }
}
