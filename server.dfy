/** The `POST /upload` handler: the gate, the account's queue and the job,
    and the response the job's outcome becomes. */
module Server {
  import opened JsText
  import opened Http
  import opened Gate
  import opened Queues
  import opened Session
  import opened Job

  /** The service's configuration: `API_KEY` and the parsed `ACCOUNTS_JSON`. */
  datatype Config = Config(apiKey: Option<JsString>, accounts: map<JsString, Account>)

  /** The response a request gets: a rejection by the gate, or the
      response of the job it queues. */
  function UploadResponse(config: Config, req: Request, fetchFailures: map<nat, JsString>, remote: Remote): Response {
    match Admit(config.apiKey, req)
    case Rejected(response) => response
    case Admitted(task) =>
      JobResponse(JobOutcome(config.accounts, task.accountKey, task.files, fetchFailures, remote))
  }

  /** Handle one request. A rejected request never touches the registry;
      an admitted one gets its account's queue, created if need be, and the
      response of the job run on it. */
  method HandleUpload(registry: QueueRegistry, config: Config, req: Request,
                      fetchFailures: map<nat, JsString>, remote: Remote)
    returns (resp: Response)
    requires registry.Valid()
    modifies registry
    ensures registry.Valid()
    ensures resp == UploadResponse(config, req, fetchFailures, remote)
    ensures Admit(config.apiKey, req).Rejected? ==>
              registry.queues == old(registry.queues) && registry.created == old(registry.created)
    ensures Admit(config.apiKey, req).Admitted? ==>
              var key := Admit(config.apiKey, req).task.accountKey;
              && key in registry.queues
              && (key in old(registry.queues) ==>
                    registry.queues == old(registry.queues) && registry.created == old(registry.created))
              && (key !in old(registry.queues) ==>
                    registry.queues.Keys == old(registry.queues).Keys + {key}
                    && forall k :: k in old(registry.queues) ==> registry.queues[k] == old(registry.queues)[k])
  {
    match Admit(config.apiKey, req)
    case Rejected(response) =>
      return response;
    case Admitted(task) =>
      var queue := registry.GetQueue(task.accountKey);
      var result, downloads, paths, session, upload :=
        UploadJob(config.accounts, task.accountKey, task.locationId, task.files, fetchFailures, remote);
      return JobResponse(result);
  }

  /** Only an authorised request with a valid body can get anything but
      401 or 400; 401 wins over 400. */
  lemma GateComesFirst(config: Config, req: Request, fetchFailures: map<nat, JsString>, remote: Remote)
    ensures !Authorized(config.apiKey, req.apiKeyHeader) ==>
              UploadResponse(config, req, fetchFailures, remote).status == 401
    ensures Authorized(config.apiKey, req.apiKeyHeader) && Validate(req.body).None? ==>
              UploadResponse(config, req, fetchFailures, remote).status == 400
    ensures Authorized(config.apiKey, req.apiKeyHeader) && Validate(req.body).Some? ==>
              UploadResponse(config, req, fetchFailures, remote).status in {200, 428, 500}
  {
  }

  /** An admitted request answers `ok: true` exactly when its job
      succeeds, and then reports every file of the request as uploaded. */
  lemma OkMeansEveryFileUploaded(config: Config, req: Request, fetchFailures: map<nat, JsString>, remote: Remote)
    requires Admit(config.apiKey, req).Admitted?
    ensures var task := Admit(config.apiKey, req).task;
            var resp := UploadResponse(config, req, fetchFailures, remote);
            && (resp.ok <==> (forall j :: 0 <= j < |task.files| ==> j !in fetchFailures)
                             && SessionOutcome(config.accounts, task.accountKey, remote, ()).Done?)
            && (resp.ok ==> resp.uploaded == Some(|req.body.files.items|))
  {
    var task := Admit(config.apiKey, req).task;
    JobSucceedsIff(config.accounts, task.accountKey, task.files, fetchFailures, remote);
  }

  /** An admitted request for an account that is not configured gets 500
      with "Unknown accountKey" once every file is fetched. */
  lemma UnknownAccountIsServerError(config: Config, req: Request, fetchFailures: map<nat, JsString>, remote: Remote)
    requires Admit(config.apiKey, req).Admitted?
    requires Admit(config.apiKey, req).task.accountKey !in config.accounts
    requires forall j :: 0 <= j < |req.body.files.items| ==> j !in fetchFailures
    ensures UploadResponse(config, req, fetchFailures, remote) ==
            Response(500, false, Some(GenericCode), Some(UnknownAccount), None)
  {
    var task := Admit(config.apiKey, req).task;
    FirstFailureUnique(0, |task.files|, fetchFailures, |task.files|);
    assert UnknownAccount != RequiresTwoFactor by {
      assert UnknownAccount[0] != RequiresTwoFactor[0];
    }
  }
}
