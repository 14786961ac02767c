// The job record printer and parser behind the store's `data` column.

module Serde {
  import opened Models

  type Dict = map<Key, Json>

  // --- Enumerations as their string values --------------------------------

  function DeliverableName(d: Deliverable): string {
    match d
    case Analysis => "analysis"
    case Action => "action"
    case Patch => "patch"
    case Commit => "commit"
    case PR => "pr"
  }

  function ModeName(m: Mode): string {
    match m
    case Auto => "auto"
    case Plan => "plan"
    case Default => "default"
  }

  function StatusName(s: JobStatus): string {
    match s
    case Queued => "queued"
    case Running => "running"
    case AwaitingApproval => "awaiting_approval"
    case Success => "success"
    case FailedChecks => "failed-checks"
    case Blocked => "blocked"
    case Error => "error"
    case Timeout => "timeout"
    case Interrupted => "interrupted"
    case Rejected => "rejected"
    case Expired => "expired"
  }

  // Calling an enumeration class with a value finds the member that has it.
  ghost function ParseDeliverable(s: string): Option<Deliverable> {
    if exists d :: DeliverableName(d) == s then
      var d :| DeliverableName(d) == s;
      Some(d)
    else None
  }

  ghost function ParseMode(s: string): Option<Mode> {
    if exists m :: ModeName(m) == s then
      var m :| ModeName(m) == s;
      Some(m)
    else None
  }

  ghost function ParseStatus(s: string): Option<JobStatus> {
    if exists st :: StatusName(st) == s then
      var st :| StatusName(st) == s;
      Some(st)
    else None
  }

  // Names are short codes told apart by their length or one of their letters.
  lemma StatusNamesDiffer(a: JobStatus, b: JobStatus)
    requires StatusName(a) == StatusName(b)
    ensures a == b
  {
    assert |StatusName(a)| == |StatusName(b)|;
    assert StatusName(a)[0] == StatusName(b)[0];
    assert StatusName(a)[2] == StatusName(b)[2];
  }

  lemma EnumNamesParseBack(d: Deliverable, m: Mode, s: JobStatus)
    ensures ParseDeliverable(DeliverableName(d)) == Some(d)
    ensures ParseMode(ModeName(m)) == Some(m)
    ensures ParseStatus(StatusName(s)) == Some(s)
  {
    forall d' | DeliverableName(d') == DeliverableName(d) ensures d' == d {
      assert |DeliverableName(d')| == |DeliverableName(d)|;
      assert DeliverableName(d')[1] == DeliverableName(d)[1];
    }
    forall m' | ModeName(m') == ModeName(m) ensures m' == m {
      assert |ModeName(m')| == |ModeName(m)|;
      assert ModeName(m')[0] == ModeName(m)[0];
    }
    forall s' | StatusName(s') == StatusName(s) ensures s' == s {
      StatusNamesDiffer(s', s);
    }
  }

  lemma StatusNamed(s: JobStatus, name: string)
    requires StatusName(s) == name
    ensures ParseStatus(name) == Some(s)
  {
    EnumNamesParseBack(Analysis, Auto, s);
  }

  lemma KindNamed(d: Deliverable, m: Mode)
    ensures ParseDeliverable(DeliverableName(d)) == Some(d) && ParseMode(ModeName(m)) == Some(m)
  {
    EnumNamesParseBack(d, m, Queued);
  }

  // The values themselves.
  lemma KindNamesAre()
    ensures ParseDeliverable("analysis") == Some(Analysis) && ParseDeliverable("action") == Some(Action)
    ensures ParseDeliverable("patch") == Some(Patch) && ParseDeliverable("commit") == Some(Commit)
    ensures ParseDeliverable("pr") == Some(PR)
    ensures ParseMode("auto") == Some(Auto) && ParseMode("plan") == Some(Plan) && ParseMode("default") == Some(Default)
  {
    KindNamed(Analysis, Auto);
    KindNamed(Action, Plan);
    KindNamed(Patch, Default);
    KindNamed(Commit, Auto);
    KindNamed(PR, Auto);
  }

  lemma StatusNamesAre()
    ensures ParseStatus("queued") == Some(Queued) && ParseStatus("running") == Some(Running)
    ensures ParseStatus("awaiting_approval") == Some(AwaitingApproval) && ParseStatus("success") == Some(Success)
    ensures ParseStatus("failed-checks") == Some(FailedChecks) && ParseStatus("blocked") == Some(Blocked)
  {
    StatusNamed(Queued, "queued");
    StatusNamed(Running, "running");
    StatusNamed(AwaitingApproval, "awaiting_approval");
    StatusNamed(Success, "success");
    StatusNamed(FailedChecks, "failed-checks");
    StatusNamed(Blocked, "blocked");
  }

  lemma EndNamesAre()
    ensures ParseStatus("error") == Some(Error) && ParseStatus("timeout") == Some(Timeout)
    ensures ParseStatus("interrupted") == Some(Interrupted) && ParseStatus("rejected") == Some(Rejected)
    ensures ParseStatus("expired") == Some(Expired)
  {
    StatusNamed(Error, "error");
    StatusNamed(Timeout, "timeout");
    StatusNamed(Interrupted, "interrupted");
    StatusNamed(Rejected, "rejected");
    StatusNamed(Expired, "expired");
  }

  // --- Printing ------------------------------------------------------------

  function OptStr(o: Option<string>): Json {
    if o.None? then JNull else JStr(o.value)
  }

  function OptInt(o: Option<int>): Json {
    if o.None? then JNull else JInt(o.value)
  }

  function OptReal(o: Option<real>): Json {
    if o.None? then JNull else JReal(o.value)
  }

  function UsageToDict(u: Usage): Dict {
    map[
      FInputTokens := OptInt(u.inputTokens),
      FOutputTokens := OptInt(u.outputTokens),
      FCacheRead := OptInt(u.cacheRead),
      FCacheWrite := OptInt(u.cacheWrite),
      FCostUsd := OptReal(u.costUsd),
      FNumTurns := OptInt(u.numTurns),
      FModel := OptStr(u.model),
      FDurationS := OptReal(u.durationS)]
  }

  function Strings(xs: seq<string>): seq<Json> {
    seq(|xs|, i requires 0 <= i < |xs| => JStr(xs[i]))
  }

  function ResultToDict(r: EngineResult): Dict {
    map[
      FText := JStr(r.text),
      FFilesChanged := JList(Strings(r.filesChanged)),
      FUsage := JObj(UsageToDict(r.usage)),
      FSessionId := OptStr(r.sessionId),
      FIsPlan := JBool(r.isPlan),
      FRaw := JStr(r.raw)]
  }

  function OptResult(r: Option<EngineResult>): Json {
    if r.None? then JNull else JObj(ResultToDict(r.value))
  }

  // What a job is and belongs to.
  function IdentityFields(j: Job): Dict {
    map[
      FInstance := JStr(j.instance),
      FPrompt := JStr(j.prompt),
      FDeliverable := JStr(DeliverableName(j.deliverable)),
      FMode := JStr(ModeName(j.mode)),
      FId := JStr(j.id),
      FSessionId := OptStr(j.sessionId),
      FThreadKey := OptStr(j.threadKey),
      FIdempotencyKey := OptStr(j.idempotencyKey)]
  }

  // What has become of it.
  function OutcomeFields(j: Job): Dict {
    map[
      FStatus := JStr(StatusName(j.status)),
      FResult := OptResult(j.result),
      FErrorClass := OptStr(j.errorClass),
      FErrorMessage := OptStr(j.errorMessage),
      FUsage := JObj(UsageToDict(j.usage)),
      FContainerId := OptStr(j.containerId),
      FWorkdir := OptStr(j.workdir),
      FPrUrl := OptStr(j.prUrl)]
  }

  function RecordFields(j: Job): Dict {
    map[
      FRequest := JObj(j.request),
      FAttempts := JInt(j.attempts),
      FCreatedAt := JReal(j.createdAt),
      FStartedAt := OptReal(j.startedAt),
      FFinishedAt := OptReal(j.finishedAt),
      FMetadata := JObj(j.metadata)]
  }

  function JobToDict(j: Job): Dict {
    IdentityFields(j) + OutcomeFields(j) + RecordFields(j)
  }

  // --- Parsing -------------------------------------------------------------

  datatype ParseError = BadValue(field: Key) | MissingField(field: Key) | UnknownField

  // A constructor default stands in for an absent key.
  function Get(d: Dict, k: Key, default: Json): Json {
    if k in d then d[k] else default
  }

  predicate IsOptInt(v: Json) {
    v.JNull? || v.JInt?
  }

  predicate IsOptReal(v: Json) {
    v.JNull? || v.JReal?
  }

  predicate IsOptStr(v: Json) {
    v.JNull? || v.JStr?
  }

  function AsOptInt(v: Json): Option<int> {
    if v.JInt? then Some(v.i) else None
  }

  function AsOptReal(v: Json): Option<real> {
    if v.JReal? then Some(v.r) else None
  }

  function AsOptStr(v: Json): Option<string> {
    if v.JStr? then Some(v.s) else None
  }

  predicate UsageKey(k: Key) {
    k.FInputTokens? || k.FOutputTokens? || k.FCacheRead? || k.FCacheWrite?
    || k.FCostUsd? || k.FNumTurns? || k.FModel? || k.FDurationS?
  }

  predicate UsageTyped(d: Dict) {
    && IsOptInt(Get(d, FInputTokens, JNull)) && IsOptInt(Get(d, FOutputTokens, JNull))
    && IsOptInt(Get(d, FCacheRead, JNull)) && IsOptInt(Get(d, FCacheWrite, JNull))
    && IsOptReal(Get(d, FCostUsd, JNull)) && IsOptInt(Get(d, FNumTurns, JNull))
    && IsOptStr(Get(d, FModel, JNull)) && IsOptReal(Get(d, FDurationS, JNull))
  }

  // `Usage(**usage)` when the value is an object (an unknown keyword is an
  // error), the empty record for every other value.
  function UsageFrom(v: Json): Result<Usage, ParseError> {
    if !v.JObj? then Ok(NO_USAGE)
    else if exists k :: k in v.fields && !UsageKey(k) then Err(UnknownField)
    else if !UsageTyped(v.fields) then Err(BadValue(FUsage))
    else
      var d := v.fields;
      Ok(Usage(AsOptInt(Get(d, FInputTokens, JNull)), AsOptInt(Get(d, FOutputTokens, JNull)),
               AsOptInt(Get(d, FCacheRead, JNull)), AsOptInt(Get(d, FCacheWrite, JNull)),
               AsOptReal(Get(d, FCostUsd, JNull)), AsOptInt(Get(d, FNumTurns, JNull)),
               AsOptStr(Get(d, FModel, JNull)), AsOptReal(Get(d, FDurationS, JNull))))
  }

  function StringsFrom(v: Json): Result<seq<string>, ParseError> {
    if v.JList? && forall i :: 0 <= i < |v.items| ==> v.items[i].JStr? then
      Ok(seq(|v.items|, i requires 0 <= i < |v.items| => v.items[i].s))
    else Err(BadValue(FFilesChanged))
  }

  function ResultFrom(v: Json): Result<Option<EngineResult>, ParseError> {
    if !v.JObj? then Ok(None)
    else
      var d := v.fields;
      var usage := UsageFrom(Get(d, FUsage, JObj(map[])));
      var files := StringsFrom(Get(d, FFilesChanged, JList([])));
      if usage.Err? then Err(usage.error)
      else if files.Err? then Err(files.error)
      else if Get(d, FText, JStr("")).JStr? && Get(d, FRaw, JStr("")).JStr?
              && Get(d, FIsPlan, JBool(false)).JBool? && IsOptStr(Get(d, FSessionId, JNull)) then
        Ok(Some(EngineResult(Get(d, FText, JStr("")).s, files.value, usage.value,
                             AsOptStr(Get(d, FSessionId, JNull)), Get(d, FIsPlan, JBool(false)).b,
                             Get(d, FRaw, JStr("")).s)))
      else Err(BadValue(FResult))
  }

  // Constructor defaults of the two fields the source draws from the clock
  // and from a random source; both are parameters here.
  datatype Generated = Generated(id: string, now: real)

  ghost function DeliverableAt(d: Dict): Option<Deliverable> {
    var v := Get(d, FDeliverable, JStr("analysis"));
    if v.JStr? then ParseDeliverable(v.s) else None
  }

  ghost function ModeAt(d: Dict): Option<Mode> {
    var v := Get(d, FMode, JStr("default"));
    if v.JStr? then ParseMode(v.s) else None
  }

  ghost function StatusAt(d: Dict): Option<JobStatus> {
    var v := Get(d, FStatus, JStr("queued"));
    if v.JStr? then ParseStatus(v.s) else None
  }

  predicate JobTyped(d: Dict, gen: Generated) {
    && FInstance in d && d[FInstance].JStr?
    && Get(d, FPrompt, JStr("")).JStr? && Get(d, FId, JStr(gen.id)).JStr?
    && IsOptStr(Get(d, FSessionId, JNull)) && IsOptStr(Get(d, FThreadKey, JNull))
    && Get(d, FRequest, JObj(map[])).JObj? && Get(d, FMetadata, JObj(map[])).JObj?
    && IsOptStr(Get(d, FErrorClass, JNull)) && IsOptStr(Get(d, FErrorMessage, JNull))
    && IsOptStr(Get(d, FContainerId, JNull)) && IsOptStr(Get(d, FWorkdir, JNull))
    && Get(d, FAttempts, JInt(0)).JInt? && IsOptStr(Get(d, FIdempotencyKey, JNull))
    && IsOptStr(Get(d, FPrUrl, JNull)) && Get(d, FCreatedAt, JReal(gen.now)).JReal?
    && IsOptReal(Get(d, FStartedAt, JNull)) && IsOptReal(Get(d, FFinishedAt, JNull))
  }

  // The fields that are passed through as they are.
  function PlainFields(d: Dict, gen: Generated, deliverable: Deliverable, mode: Mode, status: JobStatus,
                       usage: Usage, result: Option<EngineResult>): Result<Job, ParseError>
  {
    if FInstance !in d then Err(MissingField(FInstance))
    else if !JobTyped(d, gen) then Err(BadValue(Text("value")))
    else Ok(Job(
      d[FInstance].s, Get(d, FPrompt, JStr("")).s, deliverable, mode,
      Get(d, FId, JStr(gen.id)).s, AsOptStr(Get(d, FSessionId, JNull)), AsOptStr(Get(d, FThreadKey, JNull)),
      status, Get(d, FRequest, JObj(map[])).fields, result,
      AsOptStr(Get(d, FErrorClass, JNull)), AsOptStr(Get(d, FErrorMessage, JNull)), usage,
      AsOptStr(Get(d, FContainerId, JNull)), AsOptStr(Get(d, FWorkdir, JNull)),
      Get(d, FAttempts, JInt(0)).i, AsOptStr(Get(d, FIdempotencyKey, JNull)),
      AsOptStr(Get(d, FPrUrl, JNull)), Get(d, FCreatedAt, JReal(gen.now)).r,
      AsOptReal(Get(d, FStartedAt, JNull)), AsOptReal(Get(d, FFinishedAt, JNull)),
      Get(d, FMetadata, JObj(map[])).fields))
  }

  ghost function JobFromDict(d: Dict, gen: Generated): Result<Job, ParseError> {
    var usage := UsageFrom(Get(d, FUsage, JObj(map[])));
    var result := ResultFrom(Get(d, FResult, JNull));
    if DeliverableAt(d).None? then Err(BadValue(FDeliverable))
    else if ModeAt(d).None? then Err(BadValue(FMode))
    else if StatusAt(d).None? then Err(BadValue(FStatus))
    else if usage.Err? then Err(usage.error)
    else if result.Err? then Err(result.error)
    else PlainFields(d, gen, DeliverableAt(d).value, ModeAt(d).value, StatusAt(d).value, usage.value, result.value)
  }

  // --- Round trip ----------------------------------------------------------

  lemma UsageRoundTrip(u: Usage)
    ensures UsageFrom(JObj(UsageToDict(u))) == Ok(u)
  {
  }

  lemma StringsRoundTrip(xs: seq<string>)
    ensures StringsFrom(JList(Strings(xs))) == Ok(xs)
  {
    var items := Strings(xs);
    assert seq(|items|, i requires 0 <= i < |items| => items[i].s) == xs;
  }

  lemma ResultRoundTrip(r: Option<EngineResult>)
    ensures ResultFrom(OptResult(r)) == Ok(r)
  {
    if r.Some? {
      ResultHoldsParts(r.value);
      UsageRoundTrip(r.value.usage);
      StringsRoundTrip(r.value.filesChanged);
    }
  }

  lemma ResultHoldsParts(r: EngineResult)
    ensures Get(ResultToDict(r), FUsage, JObj(map[])) == JObj(UsageToDict(r.usage))
    ensures Get(ResultToDict(r), FFilesChanged, JList([])) == JList(Strings(r.filesChanged))
  {
  }

  predicate At(d: Dict, k: Key, v: Json) {
    k in d && d[k] == v
  }

  predicate HoldsIdentity(d: Dict, j: Job) {
    && At(d, FInstance, JStr(j.instance))
    && At(d, FPrompt, JStr(j.prompt))
    && At(d, FDeliverable, JStr(DeliverableName(j.deliverable)))
    && At(d, FMode, JStr(ModeName(j.mode)))
    && At(d, FId, JStr(j.id))
    && At(d, FSessionId, OptStr(j.sessionId))
    && At(d, FThreadKey, OptStr(j.threadKey))
    && At(d, FIdempotencyKey, OptStr(j.idempotencyKey))
  }

  predicate HoldsOutcome(d: Dict, j: Job) {
    && At(d, FStatus, JStr(StatusName(j.status)))
    && At(d, FResult, OptResult(j.result))
    && At(d, FErrorClass, OptStr(j.errorClass))
    && At(d, FErrorMessage, OptStr(j.errorMessage))
    && At(d, FUsage, JObj(UsageToDict(j.usage)))
    && At(d, FContainerId, OptStr(j.containerId))
    && At(d, FWorkdir, OptStr(j.workdir))
    && At(d, FPrUrl, OptStr(j.prUrl))
  }

  predicate HoldsRecord(d: Dict, j: Job) {
    && At(d, FRequest, JObj(j.request))
    && At(d, FAttempts, JInt(j.attempts))
    && At(d, FCreatedAt, JReal(j.createdAt))
    && At(d, FStartedAt, OptReal(j.startedAt))
    && At(d, FFinishedAt, OptReal(j.finishedAt))
    && At(d, FMetadata, JObj(j.metadata))
  }

  predicate NoIdentity(e: Dict) {
    && FInstance !in e && FPrompt !in e && FDeliverable !in e && FMode !in e
    && FId !in e && FSessionId !in e && FThreadKey !in e && FIdempotencyKey !in e
  }

  predicate NoOutcome(e: Dict) {
    && FStatus !in e && FResult !in e && FErrorClass !in e && FErrorMessage !in e
    && FUsage !in e && FContainerId !in e && FWorkdir !in e && FPrUrl !in e
  }

  // The three groups of fields do not share a key, so a later group leaves an
  // earlier one as it was.
  lemma KeepIdentity(d: Dict, e: Dict, j: Job)
    requires HoldsIdentity(d, j) && NoIdentity(e)
    ensures HoldsIdentity(d + e, j)
  {
  }

  lemma KeepOutcome(d: Dict, e: Dict, j: Job)
    requires HoldsOutcome(d, j) && NoOutcome(e)
    ensures HoldsOutcome(d + e, j)
  {
  }

  lemma KeepRecord(d: Dict, extra: Dict, j: Job)
    requires HoldsRecord(d, j) && forall k :: k in extra ==> k.Text?
    ensures HoldsRecord(d + extra, j)
  {
  }

  lemma OverwriteOutcome(d: Dict, e: Dict, j: Job)
    requires HoldsOutcome(e, j)
    ensures HoldsOutcome(d + e, j)
  {
  }

  lemma OverwriteRecord(d: Dict, e: Dict, j: Job)
    requires HoldsRecord(e, j)
    ensures HoldsRecord(d + e, j)
  {
  }

  lemma IdentityHolds(j: Job)
    ensures HoldsIdentity(IdentityFields(j), j)
  {
  }

  lemma OutcomeHolds(j: Job)
    ensures HoldsOutcome(OutcomeFields(j), j)
  {
  }

  lemma RecordHolds(j: Job)
    ensures HoldsRecord(RecordFields(j), j)
  {
  }

  lemma OutcomeWithoutIdentity(j: Job)
    ensures NoIdentity(OutcomeFields(j))
  {
  }

  lemma RecordWithoutIdentity(j: Job)
    ensures NoIdentity(RecordFields(j))
  {
  }

  lemma RecordWithoutOutcome(j: Job)
    ensures NoOutcome(RecordFields(j))
  {
  }

  lemma PrintedFields(j: Job)
    ensures HoldsIdentity(JobToDict(j), j) && HoldsOutcome(JobToDict(j), j) && HoldsRecord(JobToDict(j), j)
  {
    var i, o, r := IdentityFields(j), OutcomeFields(j), RecordFields(j);
    IdentityHolds(j);
    OutcomeHolds(j);
    RecordHolds(j);
    OutcomeWithoutIdentity(j);
    RecordWithoutIdentity(j);
    RecordWithoutOutcome(j);
    KeepIdentity(i, o, j);
    KeepIdentity(i + o, r, j);
    OverwriteOutcome(i, o, j);
    KeepOutcome(i + o, r, j);
    OverwriteRecord(i + o, r, j);
  }

  lemma EnumsRead(d: Dict, j: Job)
    requires HoldsIdentity(d, j) && HoldsOutcome(d, j)
    ensures DeliverableAt(d) == Some(j.deliverable) && ModeAt(d) == Some(j.mode) && StatusAt(d) == Some(j.status)
  {
    EnumNamesParseBack(j.deliverable, j.mode, j.status);
  }

  lemma PartsRead(d: Dict, j: Job)
    requires HoldsOutcome(d, j)
    ensures UsageFrom(Get(d, FUsage, JObj(map[]))) == Ok(j.usage)
    ensures ResultFrom(Get(d, FResult, JNull)) == Ok(j.result)
  {
    UsageRoundTrip(j.usage);
    ResultRoundTrip(j.result);
  }

  lemma PlainFieldsTyped(d: Dict, j: Job, gen: Generated)
    requires HoldsIdentity(d, j) && HoldsOutcome(d, j) && HoldsRecord(d, j)
    ensures JobTyped(d, gen)
  {
  }

  lemma PlainFieldsRead(d: Dict, j: Job, gen: Generated)
    requires HoldsIdentity(d, j) && HoldsOutcome(d, j) && HoldsRecord(d, j)
    ensures PlainFields(d, gen, j.deliverable, j.mode, j.status, j.usage, j.result) == Ok(j)
  {
    PlainFieldsTyped(d, j, gen);
  }

  lemma HeldJobReads(d: Dict, j: Job, gen: Generated)
    requires HoldsIdentity(d, j) && HoldsOutcome(d, j) && HoldsRecord(d, j)
    ensures JobFromDict(d, gen) == Ok(j)
  {
    EnumsRead(d, j);
    PartsRead(d, j);
    PlainFieldsRead(d, j, gen);
  }

  // Reading back a printed job gives that job, whatever the clock and the
  // random source say by then; and keys that are not job fields (a record
  // written by a newer version) change nothing.
  lemma JobRoundTrip(j: Job, extra: Dict, gen: Generated)
    requires forall k :: k in extra ==> k.Text?
    ensures JobFromDict(JobToDict(j) + extra, gen) == Ok(j)
  {
    PrintedFields(j);
    KeepIdentity(JobToDict(j), extra, j);
    KeepOutcome(JobToDict(j), extra, j);
    KeepRecord(JobToDict(j), extra, j);
    HeldJobReads(JobToDict(j) + extra, j, gen);
  }

  // What a record that names only its instance reads as.
  lemma MissingFieldsAreDefaults(instance: string, gen: Generated)
    ensures JobFromDict(map[FInstance := JStr(instance)], gen)
         == Ok(Job(instance, "", Analysis, Default, gen.id, None, None, Queued, map[], None, None, None, NO_USAGE, None,
                   None, 0, None, None, gen.now, None, None, map[]))
  {
    KindNamesAre();
    StatusNamesAre();
  }

  // And an engine result without any field.
  lemma EmptyResultReads()
    ensures ResultFrom(JObj(map[])) == Ok(Some(EngineResult("", [], NO_USAGE, None, false, "")))
    ensures ResultFrom(JNull) == Ok(None)
  {
    StringsRoundTrip([]);
    assert Strings([]) == [];
  }
}
