/**
 * What one HTTP request can come back with, as the scripts distinguish it.
 * The network itself is not modelled: every script receives the responses as
 * a parameter (an oracle), one per request it would send.
 */
module Http {
  import opened Json

  /** The body of a reply: `resp.json()` either yields a value or raises. */
  datatype Body = Parsed(json: Json) | Unparsable

  datatype Response =
    | Reply(status: int, body: Body)
    /** `requests.exceptions.Timeout` (or `asyncio.TimeoutError`). */
    | Timeout
    /** Any other `requests.exceptions.RequestException`: connection refused, DNS, … */
    | RequestError

  /** The answers to successive requests of one call: `attempt` counts from 0. */
  type Network = (string, nat) -> Response

  /** The outcome of `is_permanent_404(url)`, a helper outside this model. */
  datatype PermCheck = Permanent | NotPermanent | CheckFailed

  /** `is_permanent_404` as an oracle over URLs. */
  type Health = string -> PermCheck

  predicate IsOk(r: Response)
  {
    r.Reply? && r.status == 200
  }
}
