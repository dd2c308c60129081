/**
 * The HTTP function `run_beans_pipeline` of cloud-functions/beans/main.py.
 * The Vertex AI SDK is an oracle: a script says which of its three calls
 * (`aiplatform.init`, the `PipelineJob` constructor, `job.submit`) raises
 * and what the job reports as its state. What the function prints is
 * returned as a diagnostic.
 */
module BeansTrigger {
  import opened Wrappers
  import opened Text
  import opened KeyOrder
  import opened RegistryPath
  import opened PyRuntime

  /**
   * A Python value of the decoded body: a string, a dict, or anything else,
   * each with what `str()` prints for it.
   */
  datatype PyValue =
    | PyStr(s: string)
    | PyDict(entries: map<string, PyValue>, repr: string)
    | PyOther(repr: string)

  /** `str(v)`, as an f-string inserts it. */
  function Str(v: PyValue): string
  {
    match v
    case PyStr(s) => s
    case PyDict(_, r) => r
    case PyOther(r) => r
  }

  /** The request: the JSON object the body decodes to, if it does, and the form fields. */
  datatype Request = Request(json: Option<map<string, PyValue>>, form: map<string, string>)

  /** Lines 18-20: the JSON body, or the form fields as strings when the body is not JSON. */
  function RequestData(req: Request): (d: map<string, PyValue>)
    ensures req.json.Some? ==> d == req.json.value
    ensures req.json.None? ==> d.Keys == req.form.Keys && forall k :: k in req.form ==> d[k] == PyStr(req.form[k])
  {
    if req.json.Some? then req.json.value
    else map k | k in req.form :: PyStr(req.form[k])
  }

  const RequiredParams: seq<string> := ["config_values", "parameter_values"]

  /** The configuration keys read at lines 32-39, in that order. */
  const ConfigKeys: seq<string> :=
    ["project_id", "location", "staging_bucket", "service_account",
     "pipeline_display_name", "pipeline_repo", "pipeline_name", "pipeline_tag"]

  /** Every configuration key is present; the eight reads of lines 32-39 then all succeed. */
  predicate HasConfigKeys(config: map<string, PyValue>)
    ensures HasConfigKeys(config) ==>
      "project_id" in config && "location" in config && "staging_bucket" in config &&
      "service_account" in config && "pipeline_display_name" in config && "pipeline_repo" in config &&
      "pipeline_name" in config && "pipeline_tag" in config
  {
    assert AllPresent(ConfigKeys, config) ==>
      ConfigKeys[0] in config && ConfigKeys[1] in config && ConfigKeys[2] in config && ConfigKeys[3] in config &&
      ConfigKeys[4] in config && ConfigKeys[5] in config && ConfigKeys[6] in config && ConfigKeys[7] in config;
    AllPresent(ConfigKeys, config)
  }

  /** An exception the SDK raises: a NotFound or any other, with its `str()`. */
  datatype SdkError = NotFound(text: string) | OtherError(text: string)

  /** Which SDK call raises, and the job's state as the last line prints it. */
  datatype SdkScript = SdkScript(
    initError: Option<SdkError>, constructError: Option<SdkError>, submitError: Option<SdkError>,
    jobState: string)

  /** What the function asks of the SDK: `aiplatform.init` arguments, then the job and its submission. */
  datatype JobRequest = JobRequest(
    project: PyValue, location: PyValue, stagingBucket: PyValue,
    displayName: PyValue, templatePath: string, parameters: map<string, PyValue>,
    serviceAccount: PyValue)

  /** What the function prints about the submission. */
  datatype Diagnostic =
    | SubmittedOk(displayName: string)
    | TemplateMissing(templatePath: string)
    | UnexpectedNotFound(text: string)
    | SubmissionError(text: string)

  /** How the call ends: a `(body, status)` pair, or an exception. */
  datatype Reply = Returned(body: string, status: int) | Raised(err: PyError)

  /** The reply, the SDK request if one was made, and the diagnostic if one was printed. */
  datatype TriggerOutcome = TriggerOutcome(reply: Reply, sdkCall: Option<JobRequest>, printed: Option<Diagnostic>)

  /** The registry host suffix written on line 45. */
  const BeansHost := "-kfp.pkg.***"

  /** The coordinates the configuration names, as the f-strings render them. */
  function CoordinatesOfConfig(config: map<string, PyValue>): Coordinates
    requires HasConfigKeys(config)
  {
    Coordinates(Str(config["location"]), Str(config["project_id"]), Str(config["pipeline_repo"]),
                Str(config["pipeline_name"]), Str(config["pipeline_tag"]))
  }

  /** Lines 44-46. */
  function PipelineRoot(config: map<string, PyValue>): string
    requires HasConfigKeys(config)
  {
    "https://" + Str(config["location"]) + BeansHost + "/" + Str(config["project_id"]) + "/" +
    Str(config["pipeline_repo"]) + "/" + Str(config["pipeline_name"])
  }

  /** Line 60. */
  function TemplatePath(config: map<string, PyValue>): string
    requires HasConfigKeys(config)
  {
    PipelineRoot(config) + "/" + Str(config["pipeline_tag"])
  }

  /**
   * The template path is the registry address of the configured
   * coordinates with this trigger's host, and it determines them when none
   * contains a slash.
   */
  lemma TemplatePathRoundTrip(config: map<string, PyValue>)
    requires HasConfigKeys(config) && SlashFree(CoordinatesOfConfig(config))
    ensures TemplatePath(config) == Path(BeansHost, CoordinatesOfConfig(config))
    ensures Parse(BeansHost, TemplatePath(config)) == Some(CoordinatesOfConfig(config))
  {
    RoundTrip(BeansHost, CoordinatesOfConfig(config));
  }

  /**
   * Lines 49-50: the caller's parameters with `project_id` and `location`
   * taken from the configuration, every other key of the caller passed
   * through unchanged and no other configuration key added; `|` on anything
   * but a dict raises.
   */
  function MergeGeneral(params: PyValue, config: map<string, PyValue>): (r: Result<map<string, PyValue>, PyError>)
    requires "project_id" in config && "location" in config
    ensures r.Ok? <==> params.PyDict?
    ensures r.Err? ==> r.error == TypeError
    ensures r.Ok? ==>
      r.value.Keys == params.entries.Keys + {"project_id", "location"} &&
      r.value["project_id"] == config["project_id"] && r.value["location"] == config["location"] &&
      (forall k :: k in params.entries && k != "project_id" && k != "location" ==> r.value[k] == params.entries[k])
  {
    if params.PyDict? then
      Ok(params.entries["project_id" := config["project_id"]]["location" := config["location"]])
    else Err(TypeError)
  }

  /**
   * Lines 71-79: a NotFound whose lower-cased text mentions a missing
   * template path is reported as such; any other NotFound, and any other
   * exception, is reported with its text.
   */
  function Classify(e: SdkError, templatePath: string): (d: Diagnostic)
    ensures d.TemplateMissing? <==> e.NotFound? && Contains(Lower(e.text), "template path not found")
    ensures d.TemplateMissing? ==> d.templatePath == templatePath
    ensures d.UnexpectedNotFound? <==> e.NotFound? && !Contains(Lower(e.text), "template path not found")
    ensures d.SubmissionError? <==> e.OtherError?
    ensures !d.TemplateMissing? ==> d.text == e.text
  {
    match e
    case NotFound(t) =>
      if Contains(Lower(t), "template path not found") then TemplateMissing(templatePath) else UnexpectedNotFound(t)
    case OtherError(t) => SubmissionError(t)
  }

  /**
   * The check of line 72 ignores case: a NotFound whose text contains the
   * phrase in any ASCII casing is reported as a missing template.
   */
  lemma AnyCasingIsTemplateMissing(text: string, phrase: string, i: int, templatePath: string)
    requires OccursAt(phrase, text, i) && Lower(phrase) == "template path not found"
    ensures Classify(NotFound(text), templatePath) == TemplateMissing(templatePath)
  {
    LowerKeepsOccurrence(phrase, text, i);
  }

  /**
   * What `job.display_name` raises on line 81 when `submit` failed: the SDK
   * reads the resource only once the service has named it.
   */
  const NotCreated := RuntimeError("PipelineJob resource has not been created.")

  /**
   * Lines 52-81: exceptions are only printed. The last line reads `job`, so
   * it raises UnboundLocalError when `init` or the constructor raised, and
   * the SDK's NotCreated error when `submit` raised; it answers 200 only
   * after a successful submission.
   */
  function Submit(job: JobRequest, script: SdkScript): (o: TriggerOutcome)
    ensures o.sdkCall == Some(job) && o.printed.Some?
    ensures o.reply.Returned? <==>
      script.initError.None? && script.constructError.None? && script.submitError.None?
    ensures o.reply.Raised? && (script.initError.Some? || script.constructError.Some?) ==>
      o.reply.err == UnboundLocalError("job")
    ensures o.reply.Raised? && script.initError.None? && script.constructError.None? ==>
      o.reply.err == NotCreated
    ensures o.reply.Returned? ==>
      o.reply == Returned(Str(job.displayName) + " submitted successfully. Job State " + script.jobState, 200)
    ensures o.printed == Some(SubmittedOk(Str(job.displayName))) <==> o.reply.Returned?
    ensures script.initError.Some? ==> o.printed == Some(Classify(script.initError.value, job.templatePath))
    ensures script.initError.None? && script.constructError.Some? ==>
      o.printed == Some(Classify(script.constructError.value, job.templatePath))
    ensures script.initError.None? && script.constructError.None? && script.submitError.Some? ==>
      o.printed == Some(Classify(script.submitError.value, job.templatePath))
  {
    if script.initError.Some? then
      TriggerOutcome(Raised(UnboundLocalError("job")), Some(job), Some(Classify(script.initError.value, job.templatePath)))
    else if script.constructError.Some? then
      TriggerOutcome(Raised(UnboundLocalError("job")), Some(job), Some(Classify(script.constructError.value, job.templatePath)))
    else if script.submitError.Some? then
      TriggerOutcome(Raised(NotCreated), Some(job), Some(Classify(script.submitError.value, job.templatePath)))
    else
      TriggerOutcome(Returned(Str(job.displayName) + " submitted successfully. Job State " + script.jobState, 200),
                     Some(job), Some(SubmittedOk(Str(job.displayName))))
  }

  /** The request the function makes of the SDK for a complete configuration and merged parameters. */
  function JobRequestOf(config: map<string, PyValue>, merged: map<string, PyValue>): JobRequest
    requires HasConfigKeys(config)
  {
    JobRequest(config["project_id"], config["location"], config["staging_bucket"],
               config["pipeline_display_name"], TemplatePath(config), merged, config["service_account"])
  }

  /** The answer for a missing key (lines 26 and 42). */
  function Missing(message: string): TriggerOutcome
  {
    TriggerOutcome(Returned(message, 400), None, None)
  }

  /**
   * The whole function (lines 18-81). The SDK is used exactly for a complete
   * request, and then the outcome is that of the submission with the
   * configured template and the merged parameters. An incomplete request
   * answers 400 or raises TypeError (a configuration or parameters that are
   * not dicts), prints nothing, and does not depend on the SDK.
   */
  function RunBeansPipeline(req: Request, script: SdkScript): (o: TriggerOutcome)
    ensures o.sdkCall.Some? <==> Complete(RequestData(req))
    ensures var data := RequestData(req);
      Complete(data) ==>
        o == Submit(JobRequestOf(data["config_values"].entries,
                                 MergeGeneral(data["parameter_values"], data["config_values"].entries).value), script)
    ensures !Complete(RequestData(req)) ==>
      o.printed.None? && (o.reply == Raised(TypeError) || (o.reply.Returned? && o.reply.status == 400))
  {
    var data := RequestData(req);
    FirstMissingOfTwo("config_values", "parameter_values", data);
    match FirstMissing(RequiredParams, data)
    case Some(p) => Missing("Missing required parameter: " + p)
    case None =>
      var config := data["config_values"];
      if !config.PyDict? then TriggerOutcome(Raised(TypeError), None, None)
      else
        match FirstMissing(ConfigKeys, config.entries)
        case Some(k) => Missing("Missing required parameter in config_params: '" + k + "'")
        case None =>
          assert HasConfigKeys(config.entries);
          match MergeGeneral(data["parameter_values"], config.entries)
          case Err(e) => TriggerOutcome(Raised(e), None, None)
          case Ok(merged) => Submit(JobRequestOf(config.entries, merged), script)
  }

  /** The two top-level keys are checked in order, and a missing one answers 400 naming it before the SDK is used. */
  lemma MissingTopLevelKey(req: Request, script: SdkScript)
    ensures var data := RequestData(req);
      ("config_values" !in data ==>
         RunBeansPipeline(req, script) == Missing("Missing required parameter: " + "config_values")) &&
      ("config_values" in data && "parameter_values" !in data ==>
         RunBeansPipeline(req, script) == Missing("Missing required parameter: " + "parameter_values"))
  {
    FirstMissingOfTwo("config_values", "parameter_values", RequestData(req));
  }

  /**
   * With the configuration keys before `ConfigKeys[k]` present and that
   * one absent, the answer is 400 naming it, quoted as `str(KeyError)`
   * quotes it, and the SDK is not used.
   */
  lemma MissingConfigKey(req: Request, script: SdkScript, k: nat)
    requires var data := RequestData(req);
      "config_values" in data && "parameter_values" in data && data["config_values"].PyDict?
    requires var config := RequestData(req)["config_values"].entries;
      k < |ConfigKeys| && AllPresent(ConfigKeys[..k], config) && ConfigKeys[k] !in config
    ensures RunBeansPipeline(req, script) == Missing("Missing required parameter in config_params: '" + ConfigKeys[k] + "'")
  {
    FirstMissingOfTwo("config_values", "parameter_values", RequestData(req));
    FirstMissingIsFirst(ConfigKeys, RequestData(req)["config_values"].entries, k);
  }

  /** The request validates: both top-level keys, a dict configuration holding every key, and dict parameters. */
  predicate Complete(data: map<string, PyValue>)
  {
    "config_values" in data && "parameter_values" in data &&
    data["config_values"].PyDict? && HasConfigKeys(data["config_values"].entries) &&
    data["parameter_values"].PyDict?
  }

  /**
   * The SDK is used exactly when the request is complete, and then with the
   * template path built from the configuration and the merged parameters;
   * the outcome of an incomplete request does not depend on the SDK.
   */
  lemma SdkUsedIffComplete(req: Request, script: SdkScript, other: SdkScript)
    ensures var data := RequestData(req);
      var o := RunBeansPipeline(req, script);
      (o.sdkCall.Some? <==> Complete(data)) &&
      (Complete(data) ==>
         o.sdkCall.value.templatePath == TemplatePath(data["config_values"].entries) &&
         o.sdkCall.value.parameters ==
           MergeGeneral(data["parameter_values"], data["config_values"].entries).value) &&
      (!Complete(data) ==> o == RunBeansPipeline(req, other) && o.printed.None?)
  {
    var data := RequestData(req);
    FirstMissingOfTwo("config_values", "parameter_values", data);
  }

  /**
   * A complete request answers 200 exactly when all three SDK calls
   * succeed; otherwise the last line raises, on the unbound `job` or on the
   * job the service never created.
   */
  lemma CompleteRequestReply(req: Request, script: SdkScript)
    requires Complete(RequestData(req))
    ensures var o := RunBeansPipeline(req, script);
      (o.reply.Returned? <==>
         script.initError.None? && script.constructError.None? && script.submitError.None?) &&
      (o.reply.Returned? ==> o.reply.status == 200) &&
      (o.reply.Raised? && (script.initError.Some? || script.constructError.Some?) ==>
         o.reply.err == UnboundLocalError("job")) &&
      (o.reply.Raised? && script.initError.None? && script.constructError.None? ==> o.reply.err == NotCreated)
  {
    FirstMissingOfTwo("config_values", "parameter_values", RequestData(req));
  }
}
