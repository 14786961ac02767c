// The domain records every other module works on: jobs, their enumerations,
// engine results, usage records and the error taxonomy.

module Models {

  datatype Option<+T> = None | Some(value: T)

  datatype Result<+T, +E> = Ok(value: T) | Err(error: E)

  // Key of a JSON object: the names of the record fields one by one, every
  // other key as text.
  datatype Key =
    | FInstance | FPrompt | FDeliverable | FMode | FId | FSessionId | FThreadKey | FIdempotencyKey
    | FStatus | FResult | FErrorClass | FErrorMessage | FUsage | FContainerId | FWorkdir | FPrUrl
    | FRequest | FAttempts | FCreatedAt | FStartedAt | FFinishedAt | FMetadata | FInputTokens | FOutputTokens
    | FCacheRead | FCacheWrite | FCostUsd | FNumTurns | FModel | FDurationS | FText | FFilesChanged
    | FIsPlan | FRaw
    | Text(s: string)

  // What a JSON library hands over after decoding.
  datatype Json =
    | JNull
    | JBool(b: bool)
    | JInt(i: int)
    | JReal(r: real)
    | JStr(s: string)
    | JList(items: seq<Json>)
    | JObj(fields: map<Key, Json>)

  datatype Mode = Auto | Plan | Default

  datatype Deliverable = Analysis | Action | Patch | Commit | PR {
    predicate MutatesCode() {
      Patch? || Commit? || PR?
    }

    predicate ReadOnly() {
      Analysis? || Action?
    }
  }

  datatype JobStatus =
    | Queued | Running | AwaitingApproval | Success | FailedChecks | Blocked
    | Error | Timeout | Interrupted | Rejected | Expired
  {
    predicate Terminal() {
      Success? || FailedChecks? || Blocked? || Error? || Timeout? || Interrupted? || Rejected? || Expired?
    }
  }

  // `a or b` on optional strings: None and "" are falsy.
  predicate Truthy(s: Option<string>) {
    s.Some? && s.value != ""
  }

  // Usage of one engine run. An absent number means "unknown", never zero.
  datatype Usage = Usage(
    inputTokens: Option<int>,
    outputTokens: Option<int>,
    cacheRead: Option<int>,
    cacheWrite: Option<int>,
    costUsd: Option<real>,
    numTurns: Option<int>,
    model: Option<string>,
    durationS: Option<real>)
  {
    function Add(other: Usage): Usage {
      Usage(
        AddInt(inputTokens, other.inputTokens),
        AddInt(outputTokens, other.outputTokens),
        AddInt(cacheRead, other.cacheRead),
        AddInt(cacheWrite, other.cacheWrite),
        AddReal(costUsd, other.costUsd),
        AddInt(numTurns, other.numTurns),
        if Truthy(model) then model else other.model,
        AddReal(durationS, other.durationS))
    }
  }

  const NO_USAGE := Usage(None, None, None, None, None, None, None, None)

  function AddInt(a: Option<int>, b: Option<int>): Option<int> {
    if a.None? && b.None? then None
    else Some((if a.Some? then a.value else 0) + (if b.Some? then b.value else 0))
  }

  function AddReal(a: Option<real>, b: Option<real>): Option<real> {
    if a.None? && b.None? then None
    else Some((if a.Some? then a.value else 0.0) + (if b.Some? then b.value else 0.0))
  }

  // Normalized engine output.
  datatype EngineResult = EngineResult(
    text: string,
    filesChanged: seq<string>,
    usage: Usage,
    sessionId: Option<string>,
    isPlan: bool,
    raw: string)

  datatype Job = Job(
    instance: string,
    prompt: string,
    deliverable: Deliverable,
    mode: Mode,
    id: string,
    sessionId: Option<string>,
    threadKey: Option<string>,
    status: JobStatus,
    request: map<Key, Json>,
    result: Option<EngineResult>,
    errorClass: Option<string>,
    errorMessage: Option<string>,
    usage: Usage,
    containerId: Option<string>,
    workdir: Option<string>,
    attempts: int,
    idempotencyKey: Option<string>,
    prUrl: Option<string>,
    createdAt: real,
    startedAt: Option<real>,
    finishedAt: Option<real>,
    metadata: map<Key, Json>)

  datatype ErrorClass =
    | Auth | RateLimit | Server | Quota | BlockedByPolicy | ContextLimit
    | TimedOut | EngineCrash | BadOutput | Unknown
  {
    predicate RetryOnce() {
      EngineCrash? || BadOutput?
    }

    predicate Retryable() {
      RateLimit? || Server? || RetryOnce()
    }

    predicate BreaksCircuit() {
      Auth? || Quota?
    }
  }
}
