/** HTTP responses and the status-class arithmetic of the pipeline. */
module Http {

  /** A response as the pipeline reads it: the status code and the body text. */
  datatype Response = Response(status: nat, text: string)

  /** What a `requests.post` call yields: a response, or a `RequestException` with its text. */
  datatype PostResult = Responded(response: Response) | TransportError(message: string)

  /** The one header every request of the pipeline starts from. */
  const JsonContentType: map<string, string> := map["Content-Type" := "application/json"]

  /** The major class of a status code, `int(int(status)/100)`; for a
      non-negative code the truncating and the flooring division agree. */
  function StatusClass(status: nat): (c: nat)
    ensures c * 100 <= status < c * 100 + 100
  {
    status / 100
  }

  /** What the policy service's answer tells the dispatcher to do. */
  datatype PolicyVerdict = DisableRule | Rejected | Authorized | NoEffect

  /** The branching of the policy query on the status class: 5 disables the
      rule, 4 returns, 2 routes the event, every other class falls through. */
  function PolicyVerdictOf(status: nat): (v: PolicyVerdict)
    ensures v == DisableRule <==> 500 <= status < 600
    ensures v == Rejected <==> 400 <= status < 500
    ensures v == Authorized <==> 200 <= status < 300
    ensures v == NoEffect <==> status < 200 || 300 <= status < 400 || 600 <= status
  {
    var major := StatusClass(status);
    if major == 5 then DisableRule
    else if major == 4 then Rejected
    else if major == 2 then Authorized
    else NoEffect
  }

  /** Whether a delivery response disables the rule: status class 4 or 5. */
  function DeliveryFailed(status: nat): (failed: bool)
    ensures failed <==> 400 <= status < 600
  {
    var major := StatusClass(status);
    major == 5 || major == 4
  }
}
