/**
 * The pipeline job and the pipeline service of cloud-functions/houses/houses.go:
 * the job object whose state the poll overwrites, the service client as an
 * oracle that answers each call from a fixed script, the bounded poll loop
 * `waitForPipelineJobState`, the answer built from the final state, and
 * `errorToGinH`.
 */
module HousesPoll {
  import opened Wrappers
  import opened HousesRequest

  /** Maximum attempts to wait for the pipeline to start (line 36). */
  const MaxAttemptsStatus: nat := 6

  /** Seconds between attempts (line 38); the sleep itself is not modelled. */
  const WaitIntervalSeconds: nat := 20

  /** The service's pipeline states. */
  datatype PipelineState =
    | Unspecified | Queued | Pending | Running | Succeeded | Failed | Cancelling | Cancelled | Paused

  /** The enum's `String()`, which `%s` prints. */
  function StateName(s: PipelineState): string
  {
    match s
    case Unspecified => "PIPELINE_STATE_UNSPECIFIED"
    case Queued => "PIPELINE_STATE_QUEUED"
    case Pending => "PIPELINE_STATE_PENDING"
    case Running => "PIPELINE_STATE_RUNNING"
    case Succeeded => "PIPELINE_STATE_SUCCEEDED"
    case Failed => "PIPELINE_STATE_FAILED"
    case Cancelling => "PIPELINE_STATE_CANCELLING"
    case Cancelled => "PIPELINE_STATE_CANCELLED"
    case Paused => "PIPELINE_STATE_PAUSED"
  }

  /** The states at which the poll stops. */
  predicate IsRunningOrFailed(s: PipelineState)
  {
    s == Running || s == Failed
  }

  /** gRPC status codes, as `status.Code` reports them. */
  datatype GrpcCode =
    | OK | Canceled | Unknown | InvalidArgument | DeadlineExceeded | NotFound | AlreadyExists
    | PermissionDenied | ResourceExhausted | FailedPrecondition | Aborted | OutOfRange
    | Unimplemented | Internal | Unavailable | DataLoss | Unauthenticated

  /** A Go error: its status code (`Unknown` for errors not made by the status package) and `Error()` text. */
  datatype GoError = GoError(code: GrpcCode, text: string)

  /** One answer of GetPipelineJob. */
  datatype FetchResult = Fetched(state: PipelineState) | FetchFailed(err: GoError)

  /** The request CreatePipelineJob receives. */
  datatype CreateRequest = CreateRequest(
    parent: string, displayName: string, templatePath: string,
    parameterValues: seq<Parameter>, serviceAccount: string)

  /**
   * The pipeline service client. The remote service is an oracle: the n-th
   * GetPipelineJob call answers `stateAnswers(n)` and CreatePipelineJob
   * answers `createAnswer`; the client records how often it was polled,
   * the job name each poll asked for, and what was submitted.
   */
  class PipelineServiceClient {
    const stateAnswers: nat -> FetchResult
    const createAnswer: Result<string, GoError>
    var getCalls: nat
    var asked: seq<string>
    var created: seq<CreateRequest>

    constructor (stateAnswers: nat -> FetchResult, createAnswer: Result<string, GoError>)
      ensures this.stateAnswers == stateAnswers && this.createAnswer == createAnswer
      ensures getCalls == 0 && asked == [] && created == []
    {
      this.stateAnswers := stateAnswers;
      this.createAnswer := createAnswer;
      getCalls := 0;
      asked := [];
      created := [];
    }

    method GetPipelineJob(name: string) returns (r: FetchResult)
      modifies this`getCalls, this`asked
      ensures r == stateAnswers(old(getCalls)) && getCalls == old(getCalls) + 1
      ensures asked == old(asked) + [name]
    {
      r := stateAnswers(getCalls);
      getCalls := getCalls + 1;
      asked := asked + [name];
    }

    method CreatePipelineJob(req: CreateRequest) returns (r: Result<string, GoError>)
      modifies this`created
      ensures created == old(created) + [req] && r == createAnswer
    {
      created := created + [req];
      r := createAnswer;
    }
  }

  /** The `PipelineJob` struct of lines 42-48. */
  class PipelineJob {
    var name: string
    var displayName: string
    var templatePath: string
    var parameters: map<string, Value>
    var state: PipelineState

    constructor (displayName: string, templatePath: string, parameters: map<string, Value>)
      ensures this.displayName == displayName && this.templatePath == templatePath
      ensures this.parameters == parameters && name == "" && state == Unspecified
    {
      this.displayName := displayName;
      this.templatePath := templatePath;
      this.parameters := parameters;
      name := "";
      state := Unspecified;
    }

    /** Lines 51-60: one fetch; on success the state is overwritten, on error it is kept. */
    method GetPipelineJobState(client: PipelineServiceClient) returns (err: Option<GoError>)
      modifies this`state, client`getCalls, client`asked
      ensures client.getCalls == old(client.getCalls) + 1
      ensures client.asked == old(client.asked) + [name]
      ensures client.stateAnswers(old(client.getCalls)).Fetched? ==>
                err == None && state == client.stateAnswers(old(client.getCalls)).state
      ensures client.stateAnswers(old(client.getCalls)).FetchFailed? ==>
                err == Some(client.stateAnswers(old(client.getCalls)).err) && state == old(state)
    {
      var resp := client.GetPipelineJob(name);
      match resp {
        case FetchFailed(e) =>
          return Some(e);
        case Fetched(s) =>
          state := s;
          return None;
      }
    }
  }

  // ---------------------------------------------------------------------
  // The poll as a specification

  /** How a poll ends: a stopping state after `fetches` fetches, a fetch error, or the timeout. */
  datatype PollOutcome =
    | Reached(state: PipelineState, fetches: nat)
    | FetchError(err: GoError, fetches: nat)
    | TimedOut

  /** The answer to the fetch of attempt `attempt` of a poll that starts after `base` earlier calls. */
  function Answer(answers: nat -> FetchResult, base: nat, attempt: nat): FetchResult
  {
    answers(base + attempt)
  }

  /**
   * The poll from `attempt` on: fetch, stop on an error or a stopping state,
   * otherwise try again while `attempt <= MaxAttemptsStatus`.
   */
  function Poll(answers: nat -> FetchResult, base: nat, attempt: nat): PollOutcome
    requires attempt <= MaxAttemptsStatus + 1
    decreases MaxAttemptsStatus + 1 - attempt
  {
    if attempt > MaxAttemptsStatus then TimedOut
    else
      match Answer(answers, base, attempt)
      case FetchFailed(e) => FetchError(e, attempt + 1)
      case Fetched(s) =>
        if IsRunningOrFailed(s) then Reached(s, attempt + 1) else Poll(answers, base, attempt + 1)
  }

  function Fetches(o: PollOutcome): nat
  {
    match o
    case Reached(_, n) => n
    case FetchError(_, n) => n
    case TimedOut => MaxAttemptsStatus + 1
  }

  /** Attempt `j` fetched a state at which the poll goes on. */
  predicate Quiet(answers: nat -> FetchResult, base: nat, j: nat)
  {
    Answer(answers, base, j).Fetched? && !IsRunningOrFailed(Answer(answers, base, j).state)
  }

  /** Every attempt in `[lo, hi)` fetched a state at which the poll goes on. */
  predicate QuietBetween(answers: nat -> FetchResult, base: nat, lo: nat, hi: nat)
  {
    forall j: nat :: lo <= j < hi ==> Quiet(answers, base, j)
  }

  /**
   * The poll makes at least one and at most `MaxAttemptsStatus + 1` fetches,
   * and it only reports success for RUNNING or FAILED.
   */
  lemma {:induction false} PollBounded(answers: nat -> FetchResult, base: nat, attempt: nat)
    requires attempt <= MaxAttemptsStatus
    ensures var o := Poll(answers, base, attempt);
      attempt < Fetches(o) <= MaxAttemptsStatus + 1 &&
      (o.Reached? ==> IsRunningOrFailed(o.state))
    decreases MaxAttemptsStatus - attempt
  {
    match Answer(answers, base, attempt)
    case FetchFailed(_) =>
    case Fetched(s) =>
      if !IsRunningOrFailed(s) && attempt < MaxAttemptsStatus {
        PollBounded(answers, base, attempt + 1);
      }
  }

  /**
   * The poll times out exactly when every one of its seven fetches returned
   * a state other than RUNNING and FAILED.
   */
  lemma {:induction false} PollTimesOutIff(answers: nat -> FetchResult, base: nat, attempt: nat)
    requires attempt <= MaxAttemptsStatus + 1
    ensures Poll(answers, base, attempt).TimedOut? <==> QuietBetween(answers, base, attempt, MaxAttemptsStatus + 1)
    decreases MaxAttemptsStatus + 1 - attempt
  {
    if attempt <= MaxAttemptsStatus {
      PollTimesOutIff(answers, base, attempt + 1);
      if !Quiet(answers, base, attempt) {
        assert !QuietBetween(answers, base, attempt, MaxAttemptsStatus + 1);
      }
    }
  }

  /**
   * The poll stops at fetch `n` with state `s` exactly when the fetches
   * before it all returned states at which it goes on and fetch `n` returned
   * RUNNING or FAILED.
   */
  lemma {:induction false} PollReachedIff(answers: nat -> FetchResult, base: nat, attempt: nat, s: PipelineState, n: nat)
    requires attempt <= MaxAttemptsStatus + 1
    ensures Poll(answers, base, attempt) == Reached(s, n) <==>
      attempt < n <= MaxAttemptsStatus + 1 && QuietBetween(answers, base, attempt, n - 1) &&
      Answer(answers, base, n - 1) == Fetched(s) && IsRunningOrFailed(s)
    decreases MaxAttemptsStatus + 1 - attempt
  {
    if attempt <= MaxAttemptsStatus {
      PollReachedIff(answers, base, attempt + 1, s, n);
      if n - 1 > attempt && !Quiet(answers, base, attempt) {
        assert !QuietBetween(answers, base, attempt, n - 1);
      }
    }
  }

  /**
   * The poll ends with a fetch error at fetch `n` exactly when the fetches
   * before it all returned states at which it goes on and fetch `n` failed.
   */
  lemma {:induction false} PollFetchErrorIff(answers: nat -> FetchResult, base: nat, attempt: nat, e: GoError, n: nat)
    requires attempt <= MaxAttemptsStatus + 1
    ensures Poll(answers, base, attempt) == FetchError(e, n) <==>
      attempt < n <= MaxAttemptsStatus + 1 && QuietBetween(answers, base, attempt, n - 1) &&
      Answer(answers, base, n - 1) == FetchFailed(e)
    decreases MaxAttemptsStatus + 1 - attempt
  {
    if attempt <= MaxAttemptsStatus {
      PollFetchErrorIff(answers, base, attempt + 1, e, n);
      if n - 1 > attempt && !Quiet(answers, base, attempt) {
        assert !QuietBetween(answers, base, attempt, n - 1);
      }
    }
  }

  /** A service that reports RUNNING on the third fetch, after two PENDING ones, is answered after exactly three fetches. */
  lemma RunningOnThirdFetch(answers: nat -> FetchResult)
    requires answers(0) == Fetched(Pending) && answers(1) == Fetched(Pending) && answers(2) == Fetched(Running)
    ensures Poll(answers, 0, 0) == Reached(Running, 3)
  {
    PollReachedIff(answers, 0, 0, Running, 3);
  }

  /** `count` more polls were made since `before`, every one of them for the job `name`. */
  predicate AskedOnlyFor(now: seq<string>, before: seq<string>, name: string, count: nat)
  {
    |now| == |before| + count && now[..|before|] == before &&
    forall i :: |before| <= i < |now| ==> now[i] == name
  }

  /** The error `waitForPipelineJobState` returns when the attempts run out (line 360). */
  function TimeoutError(displayName: string): GoError
  {
    GoError(Unknown, "pipeline job " + displayName + " did not reach a running or failed state within the timeout")
  }

  /**
   * Lines 343-361: fetch the state up to `MaxAttemptsStatus + 1` times,
   * return a fetch error at once, return nil at RUNNING or FAILED, and
   * return the timeout error once the attempts are used up. Every fetch asks
   * for the job's own name, and after an error or the timeout the job keeps
   * the last state fetched (its earlier state if the first fetch failed).
   */
  method WaitForPipelineJobState(job: PipelineJob, client: PipelineServiceClient) returns (err: Option<GoError>)
    modifies job`state, client`getCalls, client`asked
    ensures var o := Poll(client.stateAnswers, old(client.getCalls), 0);
      client.getCalls == old(client.getCalls) + Fetches(o) &&
      AskedOnlyFor(client.asked, old(client.asked), job.name, Fetches(o)) &&
      (o.Reached? ==> err == None && job.state == o.state) &&
      (o.FetchError? ==> err == Some(o.err)) &&
      (o.TimedOut? ==> err == Some(TimeoutError(job.displayName)))
    ensures var o := Poll(client.stateAnswers, old(client.getCalls), 0);
      (o.FetchError? && o.fetches == 1 ==> job.state == old(job.state)) &&
      (o.FetchError? && o.fetches > 1 ==>
         job.state == Answer(client.stateAnswers, old(client.getCalls), o.fetches - 2).state) &&
      (o.TimedOut? ==> job.state == Answer(client.stateAnswers, old(client.getCalls), MaxAttemptsStatus).state)
  {
    ghost var base := client.getCalls;
    ghost var before := client.asked;
    ghost var initial := job.state;
    var attempt: nat := 0;
    while attempt <= MaxAttemptsStatus
      invariant attempt <= MaxAttemptsStatus + 1
      invariant client.getCalls == base + attempt
      invariant AskedOnlyFor(client.asked, before, job.name, attempt)
      invariant attempt == 0 ==> job.state == initial
      invariant attempt > 0 ==> Answer(client.stateAnswers, base, attempt - 1).Fetched? &&
                                job.state == Answer(client.stateAnswers, base, attempt - 1).state
      invariant Poll(client.stateAnswers, base, 0) == Poll(client.stateAnswers, base, attempt)
      decreases MaxAttemptsStatus + 1 - attempt
    {
      err := job.GetPipelineJobState(client);
      if err.Some? {
        return;
      }
      if job.state == Running || job.state == Failed {
        return None;
      }
      attempt := attempt + 1;
    }
    err := Some(TimeoutError(job.displayName));
  }

  // ---------------------------------------------------------------------
  // Answers

  /** Lines 259-279: the answer for the state the poll ended with. */
  function FinalResponse(state: PipelineState, displayName: string, jobName: string): (r: Response)
    ensures r.jobName == Some(jobName)
    ensures r.statusCode == 200 <==> state == Running
    ensures r.statusCode == 400 <==> state == Failed
    ensures r.statusCode == 500 <==> !IsRunningOrFailed(state)
    ensures r.pipelineStatus == "RUNNING" <==> r.statusCode == 200
    ensures r.pipelineStatus != "RUNNING" ==> r.pipelineStatus == "FAILED"
  {
    match state
    case Running => Response(200, "RUNNING", "Pipeline job " + displayName + " is running.", Some(jobName))
    case Failed => Response(400, "FAILED", "Pipeline job " + displayName + " failed.", Some(jobName))
    case _ => Response(500, "FAILED", "Pipeline job " + displayName + " in unexpected state: " + StateName(state) + ".", Some(jobName))
  }

  /** Lines 244-252: the answer when the wait returned an error; it names the job. */
  function WaitErrorResponse(err: GoError, jobName: string): Response
  {
    Response(500, "FAILED", "Error waiting for pipeline job state: " + err.text, Some(jobName))
  }

  /** The answer after a submitted job's poll ended with `o`. */
  function PollResponse(o: PollOutcome, displayName: string, jobName: string): Response
  {
    match o
    case Reached(s, _) => FinalResponse(s, displayName, jobName)
    case FetchError(e, _) => WaitErrorResponse(e, jobName)
    case TimedOut => WaitErrorResponse(TimeoutError(displayName), jobName)
  }

  /**
   * After a submission, the answer always names the job; a poll that stops
   * answers 200/RUNNING or 400/FAILED and never the 500 of an unexpected
   * state, while a fetch error or the timeout answers 500.
   */
  lemma PollResponseCases(answers: nat -> FetchResult, base: nat, displayName: string, jobName: string)
    ensures var o := Poll(answers, base, 0);
      var r := PollResponse(o, displayName, jobName);
      r.jobName == Some(jobName) &&
      (o.Reached? ==> (r.statusCode == 200 && r.pipelineStatus == "RUNNING") ||
                      (r.statusCode == 400 && r.pipelineStatus == "FAILED")) &&
      (!o.Reached? ==> r.statusCode == 500 && r.pipelineStatus == "FAILED")
  {
    PollBounded(answers, base, 0);
  }

  /** The map `errorToGinH` returns. */
  datatype GinH = GinH(statusCode: int, message: string)

  /**
   * Lines 364-381: a NotFound status becomes 404 with a fixed message that
   * hides the error text; every other error becomes 500 with its text.
   */
  function ErrorToGinH(err: GoError): (h: GinH)
    ensures h.statusCode == 404 <==> err.code == NotFound
    ensures h.statusCode != 404 ==> h.statusCode == 500
    ensures err.code == NotFound ==> h.message == "Resource not found."
    ensures err.code != NotFound ==> h.message == err.text
  {
    if err.code == NotFound then GinH(404, "Resource not found.")
    else GinH(500, err.text)
  }
}
