/** What decides whether an upload request reaches an account's queue:
    the optional API-key check, which runs before every route, and the
    validation of the request body. */
module Gate {
  import opened JsText
  import opened Filenames
  import opened Http

  /** The `files` field of the body: an array, or anything else. */
  datatype FilesField = NotAnArray | JsArray(items: seq<FileRef>)

  /** The fields of the JSON body that the handler reads. A missing body
      reads as `{}`, that is, every field missing. */
  datatype Body = Body(accountKey: Option<JsString>, locationId: Option<JsString>, files: FilesField)

  /** A request: its `x-api-key` header, if any, and its body. */
  datatype Request = Request(apiKeyHeader: Option<JsString>, body: Body)

  /** A request that passed both checks. */
  datatype UploadTask = UploadTask(accountKey: JsString, locationId: JsString, files: seq<FileRef>)

  datatype Admission = Rejected(response: Response) | Admitted(task: UploadTask)

  /** The middleware: with `API_KEY` set (to a non-empty string) the header
      must be exactly that key; with it unset or empty every request passes. */
  predicate Authorized(apiKey: Option<JsString>, header: Option<JsString>)
    ensures Truthy(apiKey) ==> (Authorized(apiKey, header) <==> header == apiKey)
    ensures !Truthy(apiKey) ==> Authorized(apiKey, header)
  {
    !(Truthy(apiKey) && header != apiKey)
  }

  /** Body validation: `accountKey` and `locationId` must be truthy and
      `files` a non-empty array. */
  function Validate(body: Body): (r: Option<UploadTask>)
    ensures r.Some? <==> Truthy(body.accountKey) && Truthy(body.locationId) && body.files.JsArray? && |body.files.items| > 0
    ensures r.Some? ==>
              && r.value.accountKey == body.accountKey.value && r.value.accountKey != []
              && r.value.locationId == body.locationId.value
              && r.value.files == body.files.items
  {
    if !Truthy(body.accountKey) || !Truthy(body.locationId) || !body.files.JsArray? || |body.files.items| == 0 then None
    else Some(UploadTask(body.accountKey.value, body.locationId.value, body.files.items))
  }

  /** Both checks in the order the server applies them. */
  function Admit(apiKey: Option<JsString>, req: Request): (a: Admission)
    ensures a.Rejected? <==> !Authorized(apiKey, req.apiKeyHeader) || Validate(req.body).None?
    ensures !Authorized(apiKey, req.apiKeyHeader) ==> a == Rejected(Unauthorized)
    ensures Authorized(apiKey, req.apiKeyHeader) && Validate(req.body).None? ==> a == Rejected(BadRequest)
    ensures a.Admitted? ==> Some(a.task) == Validate(req.body)
  {
    if !Authorized(apiKey, req.apiKeyHeader) then Rejected(Unauthorized)
    else match Validate(req.body)
      case None => Rejected(BadRequest)
      case Some(task) => Admitted(task)
  }
}
