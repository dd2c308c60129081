/**
 * The `/run-beans-pipeline` handler of cloud-functions/houses/houses.go
 * (lines 66-280) and `submitPipelineJob` (lines 286-340), composed from the
 * validation, parameter preparation, conversion and poll of the two other
 * modules.
 */
module HousesHandler {
  import opened Wrappers
  import opened HousesRequest
  import opened HousesPoll

  /** What the handler does: write an answer, or panic (Gin's recovery then answers 500). */
  datatype HandlerOutcome = Responded(response: Response) | Panic(reason: string)

  /** Why `submitPipelineJob` gave no job name: a returned error, or a panic in the conversion. */
  datatype SubmitError = SubmitFailed(text: string) | SubmitPanicked(reason: string)

  /** The `Parent` of the creation request (line 322). */
  function ParentOf(projectId: string, location: string): string
  {
    "projects/" + projectId + "/locations/" + location
  }

  /**
   * Lines 286-340: convert the job's parameters, then send one creation
   * request and return the name the service gives the job. A parameter that
   * does not convert stops the call before anything is sent.
   */
  method SubmitPipelineJob(client: PipelineServiceClient, job: PipelineJob, projectId: string, location: string,
                           serviceAccount: string) returns (r: Result<string, SubmitError>)
    modifies client`created
    ensures !AllConvert(job.parameters) ==> client.created == old(client.created) && r.Err?
    ensures !AllConvert(job.parameters) && r.error.SubmitFailed? ==>
      exists k :: k in job.parameters && ConvertValue(job.parameters[k]).Unsupported? &&
                  r.error.text == "unsupported parameter type: " + ConvertValue(job.parameters[k]).typeName
    ensures !AllConvert(job.parameters) && r.error.SubmitPanicked? ==>
      exists k :: k in job.parameters && ConvertValue(job.parameters[k]) == ConversionPanic(r.error.reason)
    ensures AllConvert(job.parameters) ==>
      |client.created| == |old(client.created)| + 1 && client.created[..|old(client.created)|] == old(client.created) &&
      SubmittedFor(client.created[|old(client.created)|], job.parameters, job.displayName, job.templatePath,
                   projectId, location, serviceAccount) &&
      (client.createAnswer.Ok? ==> r == Ok(client.createAnswer.value)) &&
      (client.createAnswer.Err? ==> r == Err(SubmitFailed(client.createAnswer.error.text)))
  {
    var converted := ConvertParameters(job.parameters);
    match converted {
      case UnsupportedType(msg) =>
        return Err(SubmitFailed(msg));
      case ConvertPanicked(reason) =>
        return Err(SubmitPanicked(reason));
      case AllConverted(ps) =>
        var req := CreateRequest(ParentOf(projectId, location), job.displayName, job.templatePath, ps, serviceAccount);
        var resp := client.CreatePipelineJob(req);
        match resp {
          case Err(e) => return Err(SubmitFailed(e.text));
          case Ok(name) => return Ok(name);
        }
    }
  }

  /** A creation request carries the job's name, template, service account and a conversion of its parameters. */
  predicate SubmittedFor(req: CreateRequest, params: map<string, Value>, displayName: string, templatePath: string,
                         projectId: string, location: string, serviceAccount: string)
  {
    req.parent == ParentOf(projectId, location) && req.displayName == displayName &&
    req.templatePath == templatePath && req.serviceAccount == serviceAccount &&
    IsConversionOf(req.parameterValues, params)
  }

  /** The 500 answer for a failed client initialisation (lines 212-219). */
  function InitErrorResponse(err: GoError): Response
  {
    Response(500, "FAILED", "Error initializing AIPlatform client: " + err.text, None)
  }

  /** The 500 answer for a failed submission (lines 231-238); no job name exists yet. */
  function SubmitErrorResponse(text: string): Response
  {
    Response(500, "FAILED", "Error submitting pipeline job: " + text, None)
  }

  /**
   * The answer when some parameter does not convert (lines 231-238): the
   * 500 "Error submitting pipeline job: unsupported parameter type: T" of
   * an unsupported parameter, or the panic of a bad list. Go's map order
   * decides which failing parameter is met first.
   */
  predicate FailedConversionOutcome(params: map<string, Value>, out: HandlerOutcome)
  {
    (exists k :: k in params && ConvertValue(params[k]).Unsupported? &&
       out == Responded(SubmitErrorResponse("unsupported parameter type: " + ConvertValue(params[k]).typeName))) ||
    (exists k :: k in params && ConvertValue(params[k]).ConversionPanic? &&
       out == Panic(ConvertValue(params[k]).reason))
  }

  /**
   * Lines 197-279 for a request that validated: merge the parameters, start
   * the client, submit, poll, and answer.
   */
  method RunValidated(cfg: JobConfig, params: map<string, Value>, config: map<string, Value>,
                      initError: Option<GoError>, client: PipelineServiceClient)
    returns (out: HandlerOutcome)
    modifies client
    ensures initError.Some? ==>
      out == Responded(InitErrorResponse(initError.value)) &&
      client.created == old(client.created) && client.getCalls == old(client.getCalls) &&
      client.asked == old(client.asked)
    ensures initError.None? && !AllConvert(MergedParameters(params, config)) ==>
      client.created == old(client.created) && client.getCalls == old(client.getCalls) &&
      client.asked == old(client.asked) &&
      FailedConversionOutcome(MergedParameters(params, config), out)
    ensures initError.None? && AllConvert(MergedParameters(params, config)) ==>
      |client.created| == |old(client.created)| + 1 &&
      client.created[..|old(client.created)|] == old(client.created) &&
      SubmittedFor(client.created[|old(client.created)|], MergedParameters(params, config),
                   cfg.displayName, TemplatePath(cfg), cfg.projectId, cfg.location, cfg.serviceAccount) &&
      (client.createAnswer.Err? ==>
         out == Responded(SubmitErrorResponse(client.createAnswer.error.text)) &&
         client.getCalls == old(client.getCalls) && client.asked == old(client.asked)) &&
      (client.createAnswer.Ok? ==>
         AskedOnlyFor(client.asked, old(client.asked), client.createAnswer.value,
                      Fetches(Poll(client.stateAnswers, old(client.getCalls), 0))) &&
         out == Responded(PollResponse(Poll(client.stateAnswers, old(client.getCalls), 0),
                                       cfg.displayName, client.createAnswer.value)))
  {
    var merged := PrepareParameters(params, config);
    if initError.Some? {
      return Responded(InitErrorResponse(initError.value));
    }
    var job := new PipelineJob(cfg.displayName, TemplatePath(cfg), merged);
    var submitted := SubmitPipelineJob(client, job, cfg.projectId, cfg.location, cfg.serviceAccount);
    match submitted {
      case Err(SubmitPanicked(reason)) => return Panic(reason);
      case Err(SubmitFailed(text)) => return Responded(SubmitErrorResponse(text));
      case Ok(jobName) =>
        var r := AwaitAndAnswer(job, jobName, client);
        return Responded(r);
    }
  }

  /**
   * Lines 242-279: name the job, wait for it, and answer from the poll's
   * outcome. The job is named before the wait, so every poll asks for the
   * name the service gave it.
   */
  method AwaitAndAnswer(job: PipelineJob, jobName: string, client: PipelineServiceClient) returns (r: Response)
    modifies job`name, job`state, client`getCalls, client`asked
    ensures r == PollResponse(Poll(client.stateAnswers, old(client.getCalls), 0), job.displayName, jobName)
    ensures AskedOnlyFor(client.asked, old(client.asked), jobName, Fetches(Poll(client.stateAnswers, old(client.getCalls), 0)))
    ensures job.name == jobName
  {
    job.name := jobName;
    var err := WaitForPipelineJobState(job, client);
    if err.Some? {
      return WaitErrorResponse(err.value, jobName);
    }
    return FinalResponse(job.state, job.displayName, jobName);
  }

  /**
   * The whole handler (lines 66-280). `initError` is what
   * `NewPipelineServiceClient` returns; the client stands for the service
   * once it is built.
   *
   * Nothing is submitted unless the request validates, the client starts and
   * every merged parameter converts; then exactly one creation request goes
   * out, for the template the configuration names and the merged
   * parameters. Once the service names the job, the answer always carries
   * that name and is the one the poll's outcome calls for.
   */
  method HandleRunBeansPipeline(body: Body, initError: Option<GoError>, client: PipelineServiceClient)
    returns (out: HandlerOutcome)
    modifies client
    ensures var v := ValidateRequest(body);
      (v.Rejected? ==> out == Responded(v.response)) &&
      (v.Panicked? ==> out == Panic(v.reason)) &&
      (!v.Valid? ==> client.created == old(client.created) && client.getCalls == old(client.getCalls) &&
                     client.asked == old(client.asked))
    ensures var v := ValidateRequest(body);
      v.Valid? && initError.Some? ==>
        out == Responded(InitErrorResponse(initError.value)) &&
        client.created == old(client.created) && client.getCalls == old(client.getCalls) &&
        client.asked == old(client.asked)
    ensures var v := ValidateRequest(body);
      v.Valid? && initError.None? && !AllConvert(MergedParameters(v.params, v.config)) ==>
        client.created == old(client.created) && client.getCalls == old(client.getCalls) &&
        client.asked == old(client.asked) &&
        FailedConversionOutcome(MergedParameters(v.params, v.config), out)
    ensures var v := ValidateRequest(body);
      v.Valid? && initError.None? && AllConvert(MergedParameters(v.params, v.config)) ==>
        |client.created| == |old(client.created)| + 1 &&
        client.created[..|old(client.created)|] == old(client.created) &&
        SubmittedFor(client.created[|old(client.created)|], MergedParameters(v.params, v.config),
                     v.job.displayName, TemplatePath(v.job), v.job.projectId, v.job.location, v.job.serviceAccount) &&
        (client.createAnswer.Err? ==>
           out == Responded(SubmitErrorResponse(client.createAnswer.error.text)) &&
           client.getCalls == old(client.getCalls) && client.asked == old(client.asked)) &&
        (client.createAnswer.Ok? ==>
           AskedOnlyFor(client.asked, old(client.asked), client.createAnswer.value,
                        Fetches(Poll(client.stateAnswers, old(client.getCalls), 0))) &&
           out == Responded(PollResponse(Poll(client.stateAnswers, old(client.getCalls), 0),
                                         v.job.displayName, client.createAnswer.value)))
  {
    var v := ValidateRequest(body);
    match v {
      case Rejected(resp) => return Responded(resp);
      case Panicked(reason) => return Panic(reason);
      case Valid(config, params, cfg) =>
        out := RunValidated(cfg, params, config, initError, client);
    }
  }
}
