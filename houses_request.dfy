/**
 * The request side of the Go trigger in cloud-functions/houses/houses.go:
 * the values a JSON body decodes to, the ordered validation of the body, the
 * template path, the preparation of the job parameters (the e-mail default and
 * the merge of the configuration into the parameters) and the conversion of
 * the parameters into the job's typed parameters.
 */
module HousesRequest {
  import opened Wrappers
  import opened Text
  import opened KeyOrder
  import opened RegistryPath

  /**
   * A Go `interface{}` value as encoding/json decodes a request body into it,
   * plus the two Go types the program itself can put into the parameter map.
   */
  datatype Value =
    | VString(s: string)
    | VInt(i: int)                        // Go `int`; encoding/json never produces it
    | VFloat(f: real)                     // every JSON number decodes to float64
    | VBool(b: bool)
    | VNull
    | VList(items: seq<Value>)            // []interface{}
    | VStringList(strs: seq<string>)      // []string
    | VObject(fields: map<string, Value>) // map[string]interface{}

  /** What the `%T` verb prints for the dynamic type of a value. */
  function TypeName(v: Value): string
  {
    match v
    case VString(_) => "string"
    case VInt(_) => "int"
    case VFloat(_) => "float64"
    case VBool(_) => "bool"
    case VNull => "<nil>"
    case VList(_) => "[]interface {}"
    case VStringList(_) => "[]string"
    case VObject(_) => "map[string]interface {}"
  }

  /** The panic message of a failed single-result type assertion `v.(T)`. */
  function AssertionPanic(v: Value, want: string): string
  {
    "interface conversion: interface {} is " + (if v.VNull? then "nil" else TypeName(v)) + ", not " + want
  }

  /** The JSON object every `c.JSON` call of the handler writes; `None` is JSON null. */
  datatype Response = Response(statusCode: int, pipelineStatus: string, message: string, jobName: Option<string>)

  function BadRequest(message: string): Response
  {
    Response(400, "FAILED", message, None)
  }

  /** The request body: text `BindJSON` rejects (with its error text), or the decoded object. */
  datatype Body = Malformed(err: string) | Parsed(fields: map<string, Value>)

  const RequiredParams: seq<string> := ["config_values", "parameter_values"]

  const ConfigFields: seq<string> :=
    ["project_id", "location", "staging_bucket", "service_account",
     "pipeline_display_name", "pipeline_repo", "pipeline_name", "pipeline_tag"]

  /** The eight configuration strings, in the order of `ConfigFields`. */
  datatype JobConfig = JobConfig(
    projectId: string, location: string, stagingBucket: string, serviceAccount: string,
    displayName: string, repo: string, name: string, tag: string)

  function ConfigOf(f: seq<string>): JobConfig
    requires |f| == 8
  {
    JobConfig(f[0], f[1], f[2], f[3], f[4], f[5], f[6], f[7])
  }

  /** Where validation leaves the handler: go on, answer 400, or panic. */
  datatype Validation =
    | Valid(config: map<string, Value>, params: map<string, Value>, job: JobConfig)
    | Rejected(response: Response)
    | Panicked(reason: string)

  /** Every key of `keys` is present in `m` and holds a string. */
  predicate AllStrings(keys: seq<string>, m: map<string, Value>)
  {
    forall i :: 0 <= i < |keys| ==> keys[i] in m && m[keys[i]].VString?
  }

  /**
   * The configuration fields read one after the other: the first absent one
   * answers 400 naming it, the first one that is not a string panics in the
   * `v.(string)` assertion, and otherwise all the strings are returned.
   */
  function ReadFields(config: map<string, Value>, names: seq<string>): (r: Result<seq<string>, Validation>)
    ensures r.Ok? <==> AllStrings(names, config)
    ensures r.Ok? ==> |r.value| == |names|
    ensures r.Ok? ==> forall i :: 0 <= i < |names| ==> config[names[i]] == VString(r.value[i])
    ensures r.Err? ==> r.error.Panicked? || r.error.Rejected?
    ensures r.Err? && r.error.Rejected? ==>
      exists k :: 0 <= k < |names| && AllStrings(names[..k], config) && names[k] !in config &&
                  r.error == Rejected(BadRequest("Missing required parameter: " + names[k]))
    ensures r.Err? && r.error.Panicked? ==>
      exists k :: 0 <= k < |names| && AllStrings(names[..k], config) && names[k] in config &&
                  !config[names[k]].VString? && r.error == Panicked(AssertionPanic(config[names[k]], "string"))
    decreases |names|
  {
    if names == [] then Ok([])
    else if names[0] !in config then
      assert AllStrings(names[..0], config);
      Err(Rejected(BadRequest("Missing required parameter: " + names[0])))
    else if !config[names[0]].VString? then
      assert AllStrings(names[..0], config);
      Err(Panicked(AssertionPanic(config[names[0]], "string")))
    else
      match ReadFields(config, names[1..])
      case Err(e) =>
        ShiftFailure(config, names);
        Err(e)
      case Ok(rest) =>
        assert forall i :: 1 <= i < |names| ==> names[i] == names[1..][i - 1];
        Ok([config[names[0]].s] + rest)
  }

  /** A field that fails after the first one fails at the same place, one further on, in the whole list. */
  lemma ShiftFailure(config: map<string, Value>, names: seq<string>)
    requires |names| > 0 && names[0] in config && config[names[0]].VString?
    ensures forall k :: 0 <= k < |names| - 1 && AllStrings(names[1..][..k], config) ==>
      AllStrings(names[..k + 1], config) && names[k + 1] == names[1..][k]
  {
    forall k | 0 <= k < |names| - 1 && AllStrings(names[1..][..k], config)
      ensures AllStrings(names[..k + 1], config)
    {
      var pre := names[..k + 1];
      forall i | 0 <= i < |pre|
        ensures pre[i] in config && config[pre[i]].VString?
      {
        if i > 0 {
          assert pre[i] == names[1..][..k][i - 1];
        }
      }
    }
  }

  /**
   * The checks of the handler before any client exists: the body must
   * decode, both top-level keys must be present (`config_values` first), both
   * must be JSON objects (else the type assertion panics), and the eight
   * configuration fields must be present strings, tried in order.
   */
  function ValidateRequest(body: Body): (v: Validation)
    ensures body.Malformed? ==> v == Rejected(BadRequest("Invalid request body: " + body.err))
    ensures body.Parsed? && "config_values" !in body.fields ==>
      v == Rejected(BadRequest("Missing required parameter: " + "config_values"))
    ensures body.Parsed? && "config_values" in body.fields && "parameter_values" !in body.fields ==>
      v == Rejected(BadRequest("Missing required parameter: " + "parameter_values"))
    ensures body.Parsed? && "config_values" in body.fields && "parameter_values" in body.fields &&
            !body.fields["config_values"].VObject? ==>
      v == Panicked(AssertionPanic(body.fields["config_values"], "map[string]interface {}"))
    ensures body.Parsed? && "config_values" in body.fields && "parameter_values" in body.fields &&
            body.fields["config_values"].VObject? && !body.fields["parameter_values"].VObject? ==>
      v == Panicked(AssertionPanic(body.fields["parameter_values"], "map[string]interface {}"))
    ensures body.Parsed? && "config_values" in body.fields && "parameter_values" in body.fields &&
            body.fields["config_values"].VObject? && body.fields["parameter_values"].VObject? &&
            ReadFields(body.fields["config_values"].fields, ConfigFields).Err? ==>
      v == ReadFields(body.fields["config_values"].fields, ConfigFields).error
    ensures v.Rejected? ==> v.response.statusCode == 400 && v.response.pipelineStatus == "FAILED" &&
                            v.response.jobName == None
    ensures v.Valid? <==> body.Parsed? && "config_values" in body.fields && "parameter_values" in body.fields &&
                          body.fields["config_values"].VObject? && body.fields["parameter_values"].VObject? &&
                          AllStrings(ConfigFields, body.fields["config_values"].fields)
    ensures v.Valid? ==> v.config == body.fields["config_values"].fields &&
                         v.params == body.fields["parameter_values"].fields &&
                         forall i :: 0 <= i < 8 ==> v.config[ConfigFields[i]] == VString(FieldsOf(v.job)[i])
  {
    match body
    case Malformed(err) => Rejected(BadRequest("Invalid request body: " + err))
    case Parsed(req) =>
      var missing := FirstMissing(RequiredParams, req);
      FirstMissingOfTwo("config_values", "parameter_values", req);
      if missing.Some? then Rejected(BadRequest("Missing required parameter: " + missing.value))
      else
        var c := req["config_values"];
        var p := req["parameter_values"];
        if !c.VObject? then Panicked(AssertionPanic(c, "map[string]interface {}"))
        else if !p.VObject? then Panicked(AssertionPanic(p, "map[string]interface {}"))
        else
          match ReadFields(c.fields, ConfigFields)
          case Err(e) => e
          case Ok(f) =>
            assert FieldsOf(ConfigOf(f)) == f;
            Valid(c.fields, p.fields, ConfigOf(f))
  }

  function FieldsOf(c: JobConfig): seq<string>
  {
    [c.projectId, c.location, c.stagingBucket, c.serviceAccount, c.displayName, c.repo, c.name, c.tag]
  }

  /**
   * With the fields before `ConfigFields[k]` present strings and that field
   * absent, validation answers 400 naming exactly that field.
   */
  lemma {:induction false} FirstAbsentFieldNamed(config: map<string, Value>, names: seq<string>, k: nat)
    requires k < |names| && AllStrings(names[..k], config) && names[k] !in config
    ensures ReadFields(config, names) == Err(Rejected(BadRequest("Missing required parameter: " + names[k])))
    decreases k
  {
    if k > 0 {
      assert names[0] == names[..k][0];
      assert names[1..][..k - 1] == names[..k][1..];
      FirstAbsentFieldNamed(config, names[1..], k - 1);
    }
  }

  /**
   * With the fields before `names[k]` present strings and that field present
   * but not a string, reading panics in the `v.(string)` assertion on it.
   */
  lemma {:induction false} FirstNonStringPanics(config: map<string, Value>, names: seq<string>, k: nat)
    requires k < |names| && AllStrings(names[..k], config) && names[k] in config && !config[names[k]].VString?
    ensures ReadFields(config, names) == Err(Panicked(AssertionPanic(config[names[k]], "string")))
    decreases k
  {
    if k > 0 {
      assert names[0] == names[..k][0];
      assert names[1..][..k - 1] == names[..k][1..];
      FirstNonStringPanics(config, names[1..], k - 1);
    }
  }

  /** The whole-request form of the previous lemma, for the eight configuration fields. */
  lemma MissingConfigFieldRejected(req: map<string, Value>, k: nat)
    requires "config_values" in req && "parameter_values" in req
    requires req["config_values"].VObject? && req["parameter_values"].VObject?
    requires k < 8 && AllStrings(ConfigFields[..k], req["config_values"].fields)
    requires ConfigFields[k] !in req["config_values"].fields
    ensures ValidateRequest(Parsed(req)) == Rejected(BadRequest("Missing required parameter: " + ConfigFields[k]))
  {
    FirstAbsentFieldNamed(req["config_values"].fields, ConfigFields, k);
  }

  // ---------------------------------------------------------------------
  // Template path (lines 195 and 226)

  /** The registry host suffix the Go trigger writes after the location. */
  const RegistryHost := "-kfp.pkg.dev"

  function CoordinatesOf(c: JobConfig): Coordinates
  {
    Coordinates(c.location, c.projectId, c.repo, c.name, c.tag)
  }

  /** Line 195: the pipeline root. */
  function PipelineRoot(c: JobConfig): string
  {
    "https://" + c.location + RegistryHost + "/" + c.projectId + "/" + c.repo + "/" + c.name
  }

  /** Line 226: the template path is the root followed by the tag. */
  function TemplatePath(c: JobConfig): string
  {
    PipelineRoot(c) + "/" + c.tag
  }

  /**
   * The template path is the registry address of the configuration's
   * coordinates; when none of them contains a slash it determines them, so
   * two configurations with the same path name the same template.
   */
  lemma TemplatePathRoundTrip(c: JobConfig)
    requires SlashFree(CoordinatesOf(c))
    ensures TemplatePath(c) == Path(RegistryHost, CoordinatesOf(c))
    ensures Parse(RegistryHost, TemplatePath(c)) == Some(CoordinatesOf(c))
  {
    RoundTrip(RegistryHost, CoordinatesOf(c));
  }

  // ---------------------------------------------------------------------
  // Parameter preparation (lines 197-205)

  const EmailKey := "email_addresses"

  /** The default list as the source writes it: a Go `[]string`. */
  const DefaultEmailAsWritten: Value := VStringList(["dummy@example.com"])

  /** The default list as a `[]interface{}`, the form the conversion accepts. */
  const DefaultEmail: Value := VList([VString("dummy@example.com")])

  /** The parameters the handler submits: the e-mail default, then every configuration key. */
  function MergedParameters(params: map<string, Value>, config: map<string, Value>): map<string, Value>
  {
    (if EmailKey in params then params else params[EmailKey := DefaultEmail]) + config
  }

  /**
   * Lines 197-205: adds the default e-mail list when the parameters lack one,
   * then writes every configuration entry into the parameters, so the
   * configuration wins on a shared key and keys only the caller sent keep
   * their values.
   */
  method PrepareParameters(params: map<string, Value>, config: map<string, Value>) returns (merged: map<string, Value>)
    ensures merged.Keys == params.Keys + config.Keys + {EmailKey}
    ensures forall k :: k in config ==> merged[k] == config[k]
    ensures forall k :: k in params && k !in config ==> merged[k] == params[k]
    ensures EmailKey !in params && EmailKey !in config ==> merged[EmailKey] == DefaultEmail
    ensures merged == MergedParameters(params, config)
  {
    merged := params;
    if EmailKey !in merged {
      merged := merged[EmailKey := DefaultEmail];
    }
    ghost var base := merged;
    var pending := config.Keys;
    while pending != {}
      invariant pending <= config.Keys
      invariant merged.Keys == base.Keys + (config.Keys - pending)
      invariant forall k :: k in config.Keys - pending ==> merged[k] == config[k]
      invariant forall k :: k in base && k !in config.Keys - pending ==> merged[k] == base[k]
      decreases pending
    {
      var k :| k in pending;
      merged := merged[k := config[k]];
      pending := pending - {k};
    }
    assert merged == base + config;
  }

  // ---------------------------------------------------------------------
  // Parameter conversion (lines 287-318)

  /** The typed value of a job parameter. */
  datatype ParamValue = StringValue(s: string) | IntValue(i: int) | DoubleValue(d: real)

  datatype Parameter = Parameter(name: string, value: ParamValue)

  /** What the type switch does with one parameter value. */
  datatype Conversion = Converted(value: ParamValue) | Unsupported(typeName: string) | ConversionPanic(reason: string)

  /** The `val.(string)` loop over a `[]interface{}`: all strings, or the panic of the first that is not. */
  function AssertStrings(items: seq<Value>): (r: Result<seq<string>, string>)
    ensures r.Ok? <==> forall i :: 0 <= i < |items| ==> items[i].VString?
    ensures r.Ok? ==> |r.value| == |items| && forall i :: 0 <= i < |items| ==> items[i] == VString(r.value[i])
    ensures r.Err? ==>
      exists i :: 0 <= i < |items| && !items[i].VString? && (forall j :: 0 <= j < i ==> items[j].VString?) &&
                  r.error == AssertionPanic(items[i], "string")
  {
    if items == [] then Ok([])
    else if !items[0].VString? then Err(AssertionPanic(items[0], "string"))
    else
      match AssertStrings(items[1..])
      case Err(e) =>
        assert forall i :: 1 <= i < |items| ==> items[i] == items[1..][i - 1];
        Err(e)
      case Ok(rest) =>
        assert forall i :: 1 <= i < |items| ==> items[i] == items[1..][i - 1];
        Ok([items[0].s] + rest)
  }

  /**
   * Lines 290-317: strings, ints and float64s keep their kind; a
   * `[]interface{}` becomes the string of its first element (every element
   * must be a string, and an empty list panics on the index); every other
   * type is unsupported.
   */
  function ConvertValue(v: Value): (c: Conversion)
    ensures c.Converted? <==> v.VString? || v.VInt? || v.VFloat? ||
                              (v.VList? && |v.items| > 0 && forall i :: 0 <= i < |v.items| ==> v.items[i].VString?)
    ensures c.Unsupported? <==> !(v.VString? || v.VInt? || v.VFloat? || v.VList?)
    ensures c.Unsupported? ==> c.typeName == TypeName(v)
    ensures v.VString? ==> c == Converted(StringValue(v.s))
    ensures v.VInt? ==> c == Converted(IntValue(v.i))
    ensures v.VFloat? ==> c == Converted(DoubleValue(v.f))
    ensures v.VList? && c.Converted? ==> c.value == StringValue(v.items[0].s)
    ensures v.VList? && !c.Converted? ==> c.ConversionPanic?
    ensures v.VList? && v.items == [] ==> c == ConversionPanic("runtime error: index out of range [0] with length 0")
    ensures v.VList? && (exists i :: 0 <= i < |v.items| && !v.items[i].VString?) ==>
      exists i :: 0 <= i < |v.items| && !v.items[i].VString? && (forall j :: 0 <= j < i ==> v.items[j].VString?) &&
                  c == ConversionPanic(AssertionPanic(v.items[i], "string"))
  {
    match v
    case VString(s) => Converted(StringValue(s))
    case VInt(i) => Converted(IntValue(i))
    case VFloat(f) => Converted(DoubleValue(f))
    case VList(items) =>
      (match AssertStrings(items)
       case Err(reason) => ConversionPanic(reason)
       case Ok(strs) =>
         if |strs| == 0 then ConversionPanic("runtime error: index out of range [0] with length 0")
         else Converted(StringValue(strs[0])))
    case _ => Unsupported(TypeName(v))
  }

  predicate AllConvert(params: map<string, Value>)
  {
    forall k :: k in params ==> ConvertValue(params[k]).Converted?
  }

  /** The names of a list of parameters. */
  function Names(ps: seq<Parameter>): set<string>
  {
    if ps == [] then {} else Names(ps[..|ps| - 1]) + {ps[|ps| - 1].name}
  }

  /**
   * `ps` holds exactly one converted parameter per entry of `params`: as
   * many parameters as entries, every key named, every value converted.
   */
  predicate IsConversionOf(ps: seq<Parameter>, params: map<string, Value>)
  {
    |ps| == |params| && Names(ps) == params.Keys &&
    (forall i :: 0 <= i < |ps| ==> ps[i].name in params && ConvertValue(params[ps[i].name]) == Converted(ps[i].value))
  }

  datatype ConvertOutcome =
    | AllConverted(parameters: seq<Parameter>)
    | UnsupportedType(message: string)
    | ConvertPanicked(reason: string)

  /**
   * The conversion loop of `submitPipelineJob`. Go visits the map in an
   * unspecified order, so the entry the loop stops at is any failing one.
   */
  method ConvertParameters(params: map<string, Value>) returns (out: ConvertOutcome)
    ensures out.AllConverted? <==> AllConvert(params)
    ensures out.AllConverted? ==> IsConversionOf(out.parameters, params)
    ensures out.UnsupportedType? ==>
      exists k :: k in params && ConvertValue(params[k]).Unsupported? &&
                  out.message == "unsupported parameter type: " + ConvertValue(params[k]).typeName
    ensures out.ConvertPanicked? ==>
      exists k :: k in params && ConvertValue(params[k]) == ConversionPanic(out.reason)
  {
    var pending := params.Keys;
    var ps: seq<Parameter> := [];
    ghost var done: set<string> := {};
    while pending != {}
      invariant pending + done == params.Keys && pending !! done
      invariant Names(ps) == done && |ps| == |done|
      invariant forall i :: 0 <= i < |ps| ==> ps[i].name in params && ConvertValue(params[ps[i].name]) == Converted(ps[i].value)
      invariant forall k :: k in done ==> ConvertValue(params[k]).Converted?
      decreases pending
    {
      var k :| k in pending;
      match ConvertValue(params[k]) {
        case Converted(v) =>
          assert (ps + [Parameter(k, v)])[..|ps|] == ps;
          ps := ps + [Parameter(k, v)];
        case Unsupported(t) =>
          return UnsupportedType("unsupported parameter type: " + t);
        case ConversionPanic(r) =>
          return ConvertPanicked(r);
      }
      pending := pending - {k};
      done := done + {k};
    }
    assert done == params.Keys;
    out := AllConverted(ps);
  }

  /**
   * The default as written: with the caller's parameters lacking
   * `email_addresses`, the merged parameters hold the `[]string` and the
   * conversion can never succeed, so no request without that key reaches
   * CreatePipelineJob.
   */
  lemma EmailDefaultAsWrittenBlocksSubmission(params: map<string, Value>, config: map<string, Value>)
    requires EmailKey !in params && EmailKey !in config
    ensures var merged := params[EmailKey := DefaultEmailAsWritten] + config;
      !AllConvert(merged) && ConvertValue(merged[EmailKey]) == Unsupported("[]string")
  {
    var merged := params[EmailKey := DefaultEmailAsWritten] + config;
    assert merged[EmailKey] == DefaultEmailAsWritten;
  }

  /** The corrected default converts to the single string parameter it stands for. */
  lemma DefaultEmailConverts(params: map<string, Value>, config: map<string, Value>)
    requires EmailKey !in params && EmailKey !in config
    ensures var merged := MergedParameters(params, config);
      ConvertValue(merged[EmailKey]) == Converted(StringValue("dummy@example.com"))
  {
  }
}
