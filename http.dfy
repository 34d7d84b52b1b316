/** The JSON responses of `POST /upload` and how a job's outcome becomes one. */
module Http {
  import opened JsText

  /** The outcome of a job or of a browser session: a value, or the message
      of the error it threw. */
  datatype Outcome<+R> = Done(result: R) | Failed(message: JsString)

  /** A response: its HTTP status and the fields of its JSON body (a field
      that is `None` is not in the body). */
  datatype Response = Response(
    status: nat,
    ok: bool,
    code: Option<JsString>,
    error: Option<JsString>,
    uploaded: Option<nat>)

  /** The message that marks an account that needs a one-time code but has
      no secret configured. */
  const RequiresTwoFactor: JsString := Js("REQUIRES_2FA")
  const GenericCode: JsString := Js("ERROR")

  const Unauthorized: Response := Response(401, false, None, Some(Js("unauthorized")), None)
  const BadRequest: Response := Response(400, false, None, Some(Js("accountKey, locationId, files gerekli")), None)

  /** The response for a job that ran: `{ok: true, uploaded}` on success;
      otherwise `code` is `REQUIRES_2FA` with status 428 exactly when the
      error message is `REQUIRES_2FA`, and `ERROR` with status 500 for any
      other message, which the body carries as `error`. */
  function JobResponse(outcome: Outcome<nat>): (r: Response)
    ensures r.ok <==> outcome.Done?
    ensures outcome.Done? ==> r.status == 200 && r.uploaded == Some(outcome.result) && r.code == None && r.error == None
    ensures outcome.Failed? ==> r.uploaded == None && r.error == Some(outcome.message)
    ensures outcome.Failed? ==>
              ((r.status == 428 && r.code == Some(RequiresTwoFactor)) <==> outcome.message == RequiresTwoFactor)
    ensures outcome.Failed? && outcome.message != RequiresTwoFactor ==> r.status == 500 && r.code == Some(GenericCode)
  {
    match outcome
    case Done(n) => Response(200, true, None, None, Some(n))
    case Failed(msg) =>
      var code := if msg == RequiresTwoFactor then RequiresTwoFactor else GenericCode;
      Response(if code == RequiresTwoFactor then 428 else 500, false, Some(code), Some(msg), None)
  }

  /** What a client reads back from a job's response. */
  function ClientView(r: Response): Option<Outcome<nat>> {
    if r.ok && r.uploaded.Some? then Some(Done(r.uploaded.value))
    else if !r.ok && r.error.Some? && r.code.Some? then Some(Failed(r.error.value))
    else None
  }

  /** No information is lost: the client recovers the job's outcome from
      the response, so distinct outcomes give distinct responses. */
  lemma ClientRecoversOutcome(outcome: Outcome<nat>)
    ensures ClientView(JobResponse(outcome)) == Some(outcome)
  {
  }
}
