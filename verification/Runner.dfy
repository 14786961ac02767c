// The life of one job once it is prepared: engine runs with retries and
// stale-resume recovery, then plan, self-heal and deliverable.

module Runner {
  import opened Models
  import opened Accounting
  import Dispatch
  import Engine = System
  import Guarantees
  import Verify

  datatype Session = Session(id: string, engineSession: Option<string>, jobCount: int)

  datatype Failure = Failure(errorClass: ErrorClass, message: string)

  // One engine run; `missing`: its output says that the session to resume
  // does not exist.
  datatype Reply = Reply(result: EngineResult, error: Option<Failure>, missing: bool)

  // What _apply_deliverable records: metadata under its own keys, and the URLs
  // of the pull requests opened.
  datatype Delivery = Delivery(metadata: map<Key, Json>, prUrls: seq<Option<string>>)
  {
    function Url(before: Option<string>): Option<string> {
      if prUrls != [] then prUrls[0] else before
    }
  }

  // Everything outside: the reply to the k-th engine run, the exit codes of
  // the checks, and what git makes of the deliverable (Err: an exception).
  datatype World = World(engine: nat -> Reply, exec: Verify.Exec, delivery: Result<Delivery, string>)

  datatype Settings = Settings(maxAttempts: int, verify: Verify.Settings, gate: bool, worktree: bool)

  function ErrorName(e: ErrorClass): string {
    match e
    case Auth => "AUTH"
    case RateLimit => "RATE_LIMIT"
    case Server => "SERVER"
    case Quota => "QUOTA"
    case BlockedByPolicy => "BLOCKED"
    case ContextLimit => "CONTEXT_LIMIT"
    case TimedOut => "TIMEOUT"
    case EngineCrash => "ENGINE_CRASH"
    case BadOutput => "BAD_OUTPUT"
    case Unknown => "UNKNOWN"
  }

  // Calling the enumeration class with a value finds the member that has it.
  ghost function ParseErrorClass(s: string): Option<ErrorClass> {
    if s == "AUTH" then Some(Auth)
    else if s == "RATE_LIMIT" then Some(RateLimit)
    else if s == "SERVER" then Some(Server)
    else if s == "QUOTA" then Some(Quota)
    else if s == "BLOCKED" then Some(BlockedByPolicy)
    else if s == "CONTEXT_LIMIT" then Some(ContextLimit)
    else if s == "TIMEOUT" then Some(TimedOut)
    else if s == "ENGINE_CRASH" then Some(EngineCrash)
    else if s == "BAD_OUTPUT" then Some(BadOutput)
    else if s == "UNKNOWN" then Some(Unknown)
    else None
  }

  // The recorded class of a failure tells which it was.
  lemma ErrorNamesParseBack(e: ErrorClass)
    ensures ParseErrorClass(ErrorName(e)) == Some(e)
  {
    assert |ErrorName(e)| == |ErrorName(e)|;
  }

  function StatusFor(e: ErrorClass): JobStatus {
    match e
    case BlockedByPolicy => Blocked
    case TimedOut => Timeout
    case _ => Error
  }

  // --- Which engine runs the retry loop makes ------------------------------

  predicate Missing(w: World, k: nat) {
    w.engine(k).error.Some? && w.engine(k).missing
  }

  predicate MissedBefore(w: World, k: nat) {
    exists i: nat :: i < k && Missing(w, i)
  }

  // Run `k` finds out that the resumed session is gone.
  predicate DropsAt(w: World, resume: Option<string>, k: nat) {
    Truthy(resume) && Missing(w, k) && !MissedBefore(w, k)
  }

  predicate Dropped(w: World, resume: Option<string>, k: nat) {
    Truthy(resume) && MissedBefore(w, k)
  }

  // The attempt counter after `k` runs: a run that only found its session
  // gone does not count.
  function Attempts(w: World, start: int, resume: Option<string>, k: nat): int {
    start + k - if Dropped(w, resume, k) then 1 else 0
  }

  function Cap(e: ErrorClass, maxAttempts: int): int {
    if e.RetryOnce() then 1 else maxAttempts
  }

  // Run `k` is followed by another.
  predicate Again(w: World, maxAttempts: int, start: int, resume: Option<string>, k: nat) {
    var error := w.engine(k).error;
    error.Some? &&
    (DropsAt(w, resume, k)
     || (error.value.errorClass.Retryable()
          && Attempts(w, start, resume, k) + 1 < Cap(error.value.errorClass, maxAttempts)))
  }

  // The loop makes exactly `n` runs.
  predicate Makes(w: World, maxAttempts: int, start: int, resume: Option<string>, n: nat) {
    n > 0 && (forall k: nat :: k < n - 1 ==> Again(w, maxAttempts, start, resume, k))
    && !Again(w, maxAttempts, start, resume, n - 1)
  }

  lemma OneMore(w: World, resume: Option<string>, k: nat)
    ensures Dropped(w, resume, k + 1) <==> Dropped(w, resume, k) || DropsAt(w, resume, k)
  {
    if MissedBefore(w, k) {
      var i: nat :| i < k && Missing(w, i);
      assert i < k + 1 && Missing(w, i);
    } else if Missing(w, k) {
      assert k < k + 1 && Missing(w, k);
    }
  }

  // The resume id is dropped at most once.
  lemma DroppedOnce(w: World, resume: Option<string>, i: nat, j: nat)
    requires DropsAt(w, resume, i) && DropsAt(w, resume, j)
    ensures i == j
  {
  }

  // A run is repeated only after a lost session, a rate limit or a server
  // error: the classes to be "retried at most once" are never retried.
  lemma OnlyTransientErrorsRepeat(w: World, maxAttempts: int, start: nat, resume: Option<string>, k: nat)
    requires Again(w, maxAttempts, start, resume, k)
    ensures DropsAt(w, resume, k) || w.engine(k).error.value.errorClass in {RateLimit, Server}
  {
  }

  // By run `k` the session to resume has been found gone, read off the replies.
  predicate LostBy(w: World, resume: Option<string>, k: nat) {
    && resume.Some? && resume.value != ""
    && exists i: nat :: i < k && w.engine(i).error.Some? && w.engine(i).missing
  }

  lemma LostIsDropped(w: World, resume: Option<string>, k: nat)
    ensures LostBy(w, resume, k) <==> Dropped(w, resume, k)
  {
    if LostBy(w, resume, k) {
      var i: nat :| i < k && w.engine(i).error.Some? && w.engine(i).missing;
      assert Missing(w, i);
    }
    if Dropped(w, resume, k) {
      var i: nat :| i < k && Missing(w, i);
      assert w.engine(i).error.Some? && w.engine(i).missing;
    }
  }

  // When a run is followed by another, said from the replies alone: it failed,
  // and either it was the one that found the session gone, or its class is a
  // rate limit or a server error and the runs made so far, less the one that
  // found the session gone, are fewer than the attempts allowed.
  lemma RepeatsExactly(w: World, maxAttempts: int, start: nat, resume: Option<string>, k: nat)
    ensures Again(w, maxAttempts, start, resume, k) <==>
      && w.engine(k).error.Some?
      && (|| (LostBy(w, resume, k + 1) && !LostBy(w, resume, k))
          || (&& w.engine(k).error.value.errorClass in {RateLimit, Server}
              && start + k + 1 - (if LostBy(w, resume, k) then 1 else 0) < maxAttempts))
  {
    LostIsDropped(w, resume, k);
    LostIsDropped(w, resume, k + 1);
    OneMore(w, resume, k);
  }

  // The loop gives up on a rate limit or a server error only when it has used
  // up its attempts.
  lemma GivesUpOnlyAtTheCap(w: World, maxAttempts: int, start: nat, resume: Option<string>, n: nat)
    requires Makes(w, maxAttempts, start, resume, n) && w.engine(n - 1).error.Some?
    requires w.engine(n - 1).error.value.errorClass in {RateLimit, Server}
    ensures LostBy(w, resume, n) ==> LostBy(w, resume, n - 1)
    ensures start + n - (if LostBy(w, resume, n) then 1 else 0) >= maxAttempts
  {
    RepeatsExactly(w, maxAttempts, start, resume, n - 1);
    LostStays(w, resume, n - 1);
  }

  lemma LostStays(w: World, resume: Option<string>, k: nat)
    ensures LostBy(w, resume, k) ==> LostBy(w, resume, k + 1)
  {
    if LostBy(w, resume, k) {
      var i: nat :| i < k && w.engine(i).error.Some? && w.engine(i).missing;
      assert i < k + 1 && w.engine(i).error.Some? && w.engine(i).missing;
    }
  }

  // The bound is attained: an engine that keeps answering with rate limits or
  // server errors is run max(1, what is left of max_attempts) times, and once
  // more when the resumed session is lost on the way.
  lemma StubbornEngineIsRunToTheCap(w: World, maxAttempts: int, start: nat, resume: Option<string>, n: nat)
    requires Makes(w, maxAttempts, start, resume, n)
    requires forall k: nat :: w.engine(k).error.Some? && w.engine(k).error.value.errorClass in {RateLimit, Server}
    ensures n == (if maxAttempts - start > 1 then maxAttempts - start else 1) + if LostBy(w, resume, n) then 1 else 0
  {
    GivesUpOnlyAtTheCap(w, maxAttempts, start, resume, n);
    LostStays(w, resume, n - 1);
    if n > 1 {
      assert Again(w, maxAttempts, start, resume, n - 2);
      RepeatsExactly(w, maxAttempts, start, resume, n - 2);
      LostStays(w, resume, n - 2);
    }
    if n > 2 {
      assert Again(w, maxAttempts, start, resume, n - 3);
      RepeatsExactly(w, maxAttempts, start, resume, n - 3);
      LostStays(w, resume, n - 3);
    }
    if n == 1 && LostBy(w, resume, 1) {
      assert !LostBy(w, resume, 0);
    }
  }

  // However the engine behaves, at most max(1, what is left of max_attempts)
  // runs are made, and one more when a session is resumed; the counter grows
  // by the number of runs, less one when the session was dropped.
  lemma RunsAreBounded(w: World, maxAttempts: int, start: nat, resume: Option<string>, n: nat)
    requires Makes(w, maxAttempts, start, resume, n)
    ensures n <= (if maxAttempts - start > 1 then maxAttempts - start else 1) + if Truthy(resume) then 1 else 0
    ensures Attempts(w, start, resume, n) == start + n -
            if exists k: nat :: k < n && DropsAt(w, resume, k) then 1 else 0
  {
    if n >= 2 {
      assert Again(w, maxAttempts, start, resume, n - 2);
      if n >= 3 && DropsAt(w, resume, n - 2) {
        assert Again(w, maxAttempts, start, resume, n - 3);
        assert !Missing(w, n - 3);
      }
    }
    FirstMissing(w, resume, n);
  }

  lemma {:induction false} FirstMissing(w: World, resume: Option<string>, n: nat)
    ensures Dropped(w, resume, n) <==> exists k: nat :: k < n && DropsAt(w, resume, k)
  {
    if n > 0 {
      FirstMissing(w, resume, n - 1);
      OneMore(w, resume, n - 1);
      if Dropped(w, resume, n - 1) {
        var k: nat :| k < n - 1 && DropsAt(w, resume, k);
        assert k < n && DropsAt(w, resume, k);
      }
    }
  }

  // The number of runs is determined by the replies.
  lemma RunsAreDetermined(w: World, maxAttempts: int, start: int, resume: Option<string>, n: nat, m: nat)
    requires Makes(w, maxAttempts, start, resume, n) && Makes(w, maxAttempts, start, resume, m)
    ensures n == m
  {
  }

  // --- Accounting ----------------------------------------------------------

  function Usages(w: World, lo: nat, hi: nat): seq<Usage>
    requires lo <= hi
  {
    seq(hi - lo, i requires 0 <= i < hi - lo => w.engine(lo + i).result.usage)
  }

  function FixUsage(w: World, n: nat): nat -> Usage {
    (i: nat) => w.engine(n + i).result.usage
  }

  lemma FixesAreRuns(w: World, n: nat, m: nat)
    ensures Verify.Fixes(FixUsage(w, n), m) == Usages(w, n, n + m)
  {
  }

  // --- Sessions ------------------------------------------------------------

  // The engine session to resume after the fixes lo..hi-1, each of which may
  // have named a new one.
  function Resumable(id: Option<string>, w: World, lo: nat, hi: nat): Option<string>
    requires lo <= hi
    decreases hi - lo
  {
    if lo == hi then id
    else
      var named := w.engine(hi - 1).result.sessionId;
      if Truthy(named) then named else Resumable(id, w, lo, hi - 1)
  }

  function Resumed(s: Option<Session>, w: World, lo: nat, hi: nat): Option<Session>
    requires lo <= hi
  {
    if s.None? then None
    else Some(s.value.(engineSession := Resumable(s.value.engineSession, w, lo, hi)))
  }

  // A turn of the session counts when the engine names the session.
  function Counted(s: Option<Session>, named: Option<string>): Option<Session> {
    if s.Some? && Truthy(named) then Some(s.value.(engineSession := named, jobCount := s.value.jobCount + 1)) else s
  }

  function ResumeOf(s: Option<Session>): Option<string> {
    if s.Some? then s.value.engineSession else None
  }

  function Forgotten(s: Option<Session>): Option<Session> {
    if s.Some? then Some(s.value.(engineSession := None)) else None
  }

  function AfterLoop(s: Option<Session>, w: World, k: nat): Option<Session> {
    if Dropped(w, ResumeOf(s), k) then Forgotten(s) else s
  }

  // The session after the `n` runs of the loop and `m` fixes.
  function SessionAfter(s: Option<Session>, w: World, n: nat, m: nat): Option<Session>
    requires n > 0
  {
    var before, last := AfterLoop(s, w, n - 1), w.engine(n - 1);
    if last.error.Some? then before else Resumed(Counted(before, last.result.sessionId), w, n, n + m)
  }

  // --- How an execution ends -----------------------------------------------

  // The job, whether _apply_deliverable was reached, and the exception that
  // leaves _execute_with_retries, if any.
  datatype End = End(job: Job, applied: bool, raised: Option<string>)

  // The job after `k` runs of the loop.
  function Tried(j: Job, w: World, resume: Option<string>, k: nat): Job {
    j.(attempts := Attempts(w, j.attempts, resume, k), usage := Total(j.usage, Usages(w, 0, k)))
  }

  lemma TriedOnceMore(j: Job, w: World, resume: Option<string>, k: nat)
    ensures var before, after := Tried(j, w, resume, k), Tried(j, w, resume, k + 1);
      var u := w.engine(k).result.usage;
      after == Charged(before.(attempts := before.attempts + if DropsAt(w, resume, k) then 0 else 1), u)
  {
    OneMore(w, resume, k);
    assert Usages(w, 0, k + 1) == Usages(w, 0, k) + [w.engine(k).result.usage];
    TotalAppends(j.usage, Usages(w, 0, k), w.engine(k).result.usage);
  }

  // The self-heal loop runs for this job.
  predicate Healed(j: Job, s: Settings) {
    !Engine.PlanJob(j) && j.deliverable.MutatesCode() && s.verify.checks != [] && s.worktree
  }

  // It runs `m` fixes, after the `n` runs of the loop.
  predicate Fixed(j: Job, s: Settings, w: World, n: nat, m: nat) {
    if Healed(j, s) then Heals(s.verify, w, n, m) else m == 0
  }

  // It ends after `m` fixes; with a negative limit it does not begin.
  predicate Heals(s: Verify.Settings, w: World, n: nat, m: nat) {
    if s.maxFixIterations < 0 then m == 0
    else
      && (forall r: nat :: r < m ==> Verify.FixDue(s, w.exec, FixUsage(w, n), r))
      && !Verify.FixDue(s, w.exec, FixUsage(w, n), m)
  }

  // What the self-heal loop reports, in these terms.
  lemma ReportIsHealing(s: Verify.Settings, w: World, n: nat, o: Verify.Outcome, fixes: nat)
    requires if s.maxFixIterations < 0
             then o == Verify.Outcome(true, false, s.maxFixIterations, NO_USAGE, "") && fixes == 0
             else Verify.Reports(s, w.exec, FixUsage(w, n), o) && fixes == o.iterations
    ensures Heals(s, w, n, fixes)
    ensures o.passed <==> ChecksPass(s, w, fixes)
    ensures o.usage == Total(NO_USAGE, Usages(w, n, n + fixes))
  {
    FixesAreRuns(w, n, fixes);
    Verify.CleanMeansAllPassed(s.checks, w.exec, fixes, |s.checks|);
  }

  // And so is the number of fixes.
  lemma FixesAreDetermined(j: Job, s: Settings, w: World, n: nat, a: nat, b: nat)
    requires Fixed(j, s, w, n, a) && Fixed(j, s, w, n, b)
    ensures a == b
  {
  }

  // All checks succeeded in the round after the last of `m` fixes.
  predicate ChecksPass(s: Verify.Settings, w: World, m: nat) {
    s.maxFixIterations >= 0 && forall i: nat :: i < |s.checks| ==> w.exec(m, i).0 == 0
  }

  function Parked(j: Job, plan: EngineResult): Job {
    j.(result := Some(plan.(isPlan := true)), status := AwaitingApproval)
  }

  function Charged(j: Job, u: Usage): Job {
    j.(usage := j.usage.Add(u))
  }

  function GateClosed(j: Job): Job {
    j.(status := FailedChecks, errorMessage := Some("verification checks failed"))
  }

  function Recorded(j: Job, d: Delivery): Job {
    j.(metadata := j.metadata + d.metadata, prUrl := d.Url(j.prUrl))
  }

  function Delivered(j: Job, w: World): End {
    if j.deliverable.ReadOnly() then End(j.(status := Success), true, None)
    else match w.delivery
      case Err(msg) => End(j, true, Some(msg))
      case Ok(d) => End(Recorded(j, d).(status := Success), true, None)
  }

  // After `n` runs of which the last succeeded, and `m` fixes.
  function Succeeded(j: Job, result: EngineResult, s: Settings, w: World, n: nat, m: nat): End {
    if Engine.PlanJob(j) then
      End(Parked(j, result), false, None)
    else if !Healed(j, s) then
      Delivered(j, w)
    else if Verify.Raises(s.verify, w.exec) then
      End(j, false, Some(Verify.FORMAT_ERROR))
    else
      var healed := Charged(j, Total(NO_USAGE, Usages(w, n, n + m)));
      if s.gate && !ChecksPass(s.verify, w, m) then End(GateClosed(healed), false, None) else Delivered(healed, w)
  }

  function Failed(j: Job, failure: Failure, result: EngineResult): Job {
    j.(errorClass := Some(ErrorName(failure.errorClass)), errorMessage := Some(failure.message),
       result := Some(result), status := StatusFor(failure.errorClass))
  }

  // After `n` runs of the loop and `m` fixes.
  function Finished(j: Job, s: Settings, w: World, resume: Option<string>, n: nat, m: nat): End
    requires n > 0
  {
    var reply := w.engine(n - 1);
    match reply.error
    case Some(failure) => End(Failed(Tried(j, w, resume, n), failure, reply.result), false, None)
    case None => Succeeded(Tried(j, w, resume, n).(result := Some(reply.result)), reply.result, s, w, n, m)
  }

  lemma FinishedWell(j: Job, started: Job, s: Settings, w: World, resume: Option<string>, n: nat, m: nat)
    requires n > 0 && w.engine(n - 1).error.None?
    requires started == Tried(j, w, resume, n).(result := Some(w.engine(n - 1).result))
    ensures Finished(j, s, w, resume, n, m) == Succeeded(started, w.engine(n - 1).result, s, w, n, m)
    ensures Fixed(started, s, w, n, m) == Fixed(j, s, w, n, m)
  {
  }

  // How everything stands after `n` runs of the loop and `runs - n` fixes.
  predicate Concluded(s: Settings, w: World, j: Job, session0: Option<Session>, n: nat, runs: nat, e: End,
      session: Option<Session>) {
    && 0 < n <= runs
    && (if w.engine(n - 1).error.None? then Fixed(j, s, w, n, runs - n) else runs == n)
    && e == Finished(j, s, w, ResumeOf(session0), n, runs - n)
    && session == SessionAfter(session0, w, n, runs - n)
  }

  lemma ConcludedWell(s: Settings, w: World, j: Job, session0: Option<Session>, n: nat, runs: nat, started: Job, e: End,
                      session: Option<Session>)
    requires 0 < n <= runs && w.engine(n - 1).error.None?
    requires started == Tried(j, w, ResumeOf(session0), n).(result := Some(w.engine(n - 1).result))
    requires Fixed(started, s, w, n, runs - n)
    requires e == Succeeded(started, w.engine(n - 1).result, s, w, n, runs - n)
    requires session == Resumed(Counted(AfterLoop(session0, w, n - 1), w.engine(n - 1).result.sessionId), w, n, runs)
    ensures Concluded(s, w, j, session0, n, runs, e, session)
  {
    FinishedWell(j, started, s, w, ResumeOf(session0), n, runs - n);
  }

  lemma ConcludedBadly(s: Settings, w: World, j: Job, session0: Option<Session>, n: nat, failure: Failure)
    requires n > 0 && w.engine(n - 1).error == Some(failure)
    ensures var failed := Failed(Tried(j, w, ResumeOf(session0), n), failure, w.engine(n - 1).result);
      Concluded(s, w, j, session0, n, n, End(failed, false, None), AfterLoop(session0, w, n - 1))
  {
  }

  // The guard around the execution turns an exception into an error.
  function Guarded(e: End): Job {
    match e.raised
    case None => e.job
    case Some(msg) => e.job.(status := Error, errorClass := Some(ErrorName(Unknown)), errorMessage := Some(msg))
  }

  // --- What the end means --------------------------------------------------

  // The self-heal loop raises: a cap of 0 or less and a failing first round.
  predicate Crashes(j: Job, s: Settings, w: World) {
    Healed(j, s) && Verify.Raises(s.verify, w.exec)
  }

  // The checks still fail after the last fix, and gate the deliverable.
  predicate Gated(j: Job, s: Settings, w: World, m: nat) {
    Healed(j, s) && !Verify.Raises(s.verify, w.exec) && s.gate && !ChecksPass(s.verify, w, m)
  }

  // The last of `n` runs failed in a way that pauses the instance.
  predicate BreaksAt(w: World, n: nat) {
    n > 0 && w.engine(n - 1).error.Some? && w.engine(n - 1).error.value.errorClass in {Auth, Quota}
  }

  predicate LastRunOk(w: World, n: nat)
    requires n > 0
  {
    w.engine(n - 1).error.None?
  }

  // What a job ends as, and whether its deliverable was reached.
  lemma Verdict(j: Job, s: Settings, w: World, resume: Option<string>, n: nat, m: nat)
    requires n > 0
    ensures var e := Finished(j, s, w, resume, n, m);
      var status := Guarded(e).status;
      && (e.applied <==>
            && LastRunOk(w, n) && !(j.mode == Plan && j.deliverable in {Patch, Commit, PR})
            && !Gated(j, s, w, m) && !Crashes(j, s, w))
      && (LastRunOk(w, n) && Crashes(j, s, w) ==>
            status == Error && Guarded(e).errorClass == Some(ErrorName(Unknown)))
      && (status == Success <==> e.applied && (j.deliverable.ReadOnly() || w.delivery.Ok?))
      && (status == AwaitingApproval <==> LastRunOk(w, n) && j.mode == Plan && j.deliverable in {Patch, Commit, PR})
      && (status == FailedChecks <==> LastRunOk(w, n) && Gated(j, s, w, m))
      && (!LastRunOk(w, n) ==>
            var failure := w.engine(n - 1).error.value;
            && status == (if failure.errorClass == BlockedByPolicy then Blocked
                          else if failure.errorClass == TimedOut then Timeout else Error)
            && Guarded(e).errorClass == Some(ErrorName(failure.errorClass))
            && Guarded(e).errorMessage == Some(failure.message))
  {
  }

  lemma DeliveryKeepsIdentity(j: Job, w: World)
    requires w.delivery.Ok? ==> Engine.APPROVED_FROM !in w.delivery.value.metadata
    ensures Engine.SameIdentity(Guarded(Delivered(j, w)), j)
  {
  }

  lemma SuccessKeepsIdentity(j: Job, result: EngineResult, s: Settings, w: World, n: nat, m: nat)
    requires w.delivery.Ok? ==> Engine.APPROVED_FROM !in w.delivery.value.metadata
    ensures Engine.SameIdentity(Guarded(Succeeded(j, result, s, w, n, m)), j)
  {
    var spent := Total(NO_USAGE, Usages(w, n, n + m));
    DeliveryKeepsIdentity(j, w);
    DeliveryKeepsIdentity(Charged(j, spent), w);
    SmallChangesKeepIdentity(j, result, spent);
  }

  lemma SmallChangesKeepIdentity(j: Job, result: EngineResult, spent: Usage)
    ensures Engine.SameIdentity(Parked(j, result), j)
    ensures Engine.SameIdentity(Charged(j, spent), j)
    ensures Engine.SameIdentity(GateClosed(Charged(j, spent)), j)
    ensures Engine.SameIdentity(Guarded(End(j, false, Some(Verify.FORMAT_ERROR))), j)
  {
  }

  lemma EndKeepsIdentity(j: Job, s: Settings, w: World, resume: Option<string>, n: nat, m: nat)
    requires n > 0
    requires w.delivery.Ok? ==> Engine.APPROVED_FROM !in w.delivery.value.metadata
    ensures Engine.SameIdentity(Guarded(Finished(j, s, w, resume, n, m)), j)
  {
    var reply := w.engine(n - 1);
    SuccessKeepsIdentity(Tried(j, w, resume, n).(result := Some(reply.result)), reply.result, s, w, n, m);
  }

  // Steps of the transition system: the deliverable is reached, if at all,
  // where `ReachApply` is enabled, and the end is one that `Return` allows.
  lemma ExecutionIsAStep(j: Job, s: Settings, w: World, resume: Option<string>, n: nat, m: nat)
    requires n > 0
    requires w.delivery.Ok? ==> Engine.APPROVED_FROM !in w.delivery.value.metadata
    ensures var e := Finished(j, s, w, resume, n, m);
      && (e.applied ==> Engine.TaskEnabled(Engine.Executing(j, false), Engine.ReachApply))
      && Engine.TaskEnabled(Engine.Executing(j, e.applied), Engine.Return(Guarded(e)))
  {
    EndKeepsIdentity(j, s, w, resume, n, m);
    Verdict(j, s, w, resume, n, m);
  }

  // So an approved plan is carried out: in every run, when the apply job of a
  // plan is executed, its last engine run succeeds, and no check gates or
  // raises, the deliverable is reached.
  lemma ApprovedPlanIsDelivered(c: Dispatch.Config, states: seq<Engine.State>, actions: seq<Engine.Action>, k: nat,
      a: string, p: string, j: Job, s: Settings, w: World, resume: Option<string>, n: nat, m: nat)
    requires Engine.IsRun(c, states, actions) && k <= |actions| && a in states[k].rows
    requires Engine.ApprovedFrom(states[k].rows[a].data) == Some(p) && Engine.SameIdentity(j, states[k].rows[a].data)
    requires n > 0 && w.engine(n - 1).error.None? && !Gated(j, s, w, m) && !Crashes(j, s, w)
    ensures p in states[k].rows && j.deliverable == states[k].rows[p].data.deliverable
    ensures var e := Finished(j, s, w, resume, n, m); e.applied && (w.delivery.Ok? ==> Guarded(e).status == Success)
  {
    Guarantees.ApplyJobDoesThePlan(c, states, actions, k, a, p);
    Verdict(j, s, w, resume, n, m);
  }

  // The usage of a finished job: every engine run added up. Only when no fix
  // was needed does the empty record of the self-heal loop come on top.
  predicate Accounted(before: Usage, after: Usage, w: World, n: nat, runs: nat) {
    n <= runs
    && (after == Total(before, Usages(w, 0, runs))
        || (runs == n && after == Total(before, Usages(w, 0, runs)).Add(NO_USAGE)))
  }

  lemma AllRunsAdded(before: Usage, w: World, n: nat, runs: nat)
    requires n <= runs
    ensures Accounted(before, Total(before, Usages(w, 0, n)).Add(Total(NO_USAGE, Usages(w, n, runs))), w, n, runs)
  {
    SubTotal(Total(before, Usages(w, 0, n)), Usages(w, n, runs));
    TotalSplits(before, Usages(w, 0, n), Usages(w, n, runs));
    assert Usages(w, 0, n) + Usages(w, n, runs) == Usages(w, 0, runs);
    if runs == n {
      assert Usages(w, n, runs) == [];
    }
  }

  lemma AccountedNumbers(before: Usage, after: Usage, w: World, n: nat, runs: nat, f: Field)
    requires Accounted(before, after, w, n, runs)
    ensures Num(after, f) == OptSum([Num(before, f)] + Nums(Usages(w, 0, runs), f))
  {
    TotalIsSum(before, Usages(w, 0, runs), f);
    AddNumbers(Total(before, Usages(w, 0, runs)), NO_USAGE, f);
  }

  lemma CrashMakesNoFix(j: Job, s: Settings, w: World, n: nat, m: nat)
    requires Crashes(j, s, w) && Fixed(j, s, w, n, m)
    ensures m == 0
  {
    Verify.CapAtOnce(s.verify, FixUsage(w, n));
    assert !Verify.FixDue(s.verify, w.exec, FixUsage(w, n), 0);
  }

  lemma UsageAtEnd(j: Job, s: Settings, w: World, resume: Option<string>, n: nat, m: nat)
    requires n > 0
    ensures Finished(j, s, w, resume, n, m).job.usage ==
            if LastRunOk(w, n) && Healed(j, s) && !Crashes(j, s, w)
            then Total(j.usage, Usages(w, 0, n)).Add(Total(NO_USAGE, Usages(w, n, n + m)))
            else Total(j.usage, Usages(w, 0, n))
  {
  }

  // Each number of a job's usage is the sum of what the job started with and
  // what its engine runs reported, all of them: retries, the discarded resume
  // and the fixes. It is unknown exactly when none of them reported it.
  lemma UsageIsConserved(j: Job, s: Settings, w: World, resume: Option<string>, n: nat, m: nat, f: Field)
    requires n > 0 && if LastRunOk(w, n) then Fixed(j, s, w, n, m) else m == 0
    ensures Num(Finished(j, s, w, resume, n, m).job.usage, f)
            == OptSum([Num(j.usage, f)] + Nums(Usages(w, 0, n + m), f))
  {
    UsageAtEnd(j, s, w, resume, n, m);
    if LastRunOk(w, n) && Crashes(j, s, w) {
      CrashMakesNoFix(j, s, w, n, m);
    }
    AllRunsAdded(j.usage, w, n, n + m);
    AccountedNumbers(j.usage, Finished(j, s, w, resume, n, m).job.usage, w, n, n + m, f);
  }

  class Execution {
    const world: World
    const settings: Settings
    var job: Job
    var session: Option<Session>   // the object; every change of it is saved at once
    var runs: nat                  // engine runs so far
    var applied: bool              // _apply_deliverable was reached
    var pausesInstance: bool

    constructor (world: World, settings: Settings, job: Job, session: Option<Session>)
      ensures this.world == world && this.settings == settings && this.job == job && this.session == session
      ensures runs == 0 && !applied && !pausesInstance
    {
      this.world, this.settings, this.job, this.session := world, settings, job, session;
      runs, applied, pausesInstance := 0, false, false;
    }

    // _run_fix, for each fix the self-heal loop asked for.
    method RunFixes(count: nat)
      modifies this`runs, this`session
      ensures runs == old(runs) + count && session == Resumed(old(session), world, old(runs), runs)
    {
      for i := 0 to count
        invariant runs == old(runs) + i && session == Resumed(old(session), world, old(runs), runs)
      {
        var named := world.engine(runs).result.sessionId;
        runs := runs + 1;
        if session.Some? && Truthy(named) {
          session := Some(session.value.(engineSession := named));
        }
      }
    }

    // The self-heal loop of a job whose checks are due.
    method SelfHeal() returns (raised: Option<string>, passed: bool)
      requires settings.verify.checks != []
      modifies this`runs, this`session, this`job
      ensures old(runs) <= runs && Heals(settings.verify, world, old(runs), runs - old(runs))
      ensures raised == if Verify.Raises(settings.verify, world.exec) then Some(Verify.FORMAT_ERROR) else None
      ensures raised.None? ==> (passed <==> ChecksPass(settings.verify, world, runs - old(runs)))
      ensures job == (if raised.Some? then old(job)
                      else Charged(old(job), Total(NO_USAGE, Usages(world, old(runs), runs))))
      ensures session == Resumed(old(session), world, old(runs), runs)
    {
      var result := Verify.Run(settings.verify, world.exec, FixUsage(world, runs));
      if result.Err? {
        Verify.CapAtOnce(settings.verify, FixUsage(world, runs));
        return Some(result.error), false;
      }
      raised := None;
      var outcome := result.value;
      var fixes := if settings.verify.maxFixIterations < 0 then 0 else outcome.iterations;
      ReportIsHealing(settings.verify, world, runs, outcome, fixes);
      RunFixes(fixes);
      job := Charged(job, outcome.usage);
      passed := outcome.passed;
    }

    method ApplyDeliverable() returns (raised: Option<string>)
      modifies this`job, this`applied
      ensures applied && raised == Delivered(old(job), world).raised
      ensures job == (if raised.Some? then old(job) else Delivered(old(job), world).job.(status := old(job).status))
    {
      applied := true;
      raised := None;
      if job.deliverable.ReadOnly() {
        return;
      }
      match world.delivery
      case Err(msg) =>
        raised := Some(msg);
      case Ok(d) =>
        job := job.(metadata := job.metadata + d.metadata);
        if d.prUrls != [] {
          job := job.(prUrl := d.prUrls[0]);
        }
    }

    method Deliver() returns (raised: Option<string>)
      modifies this`job, this`applied
      ensures End(job, applied, raised) == Delivered(old(job), world)
    {
      raised := ApplyDeliverable();
      if raised.None? {
        job := job.(status := Success);
      }
    }

    // After the successful run number `runs`.
    method OnEngineSuccess(result: EngineResult) returns (raised: Option<string>)
      requires job.result == Some(result) && !applied
      modifies this`job, this`session, this`runs, this`applied
      ensures old(runs) <= runs
      ensures Fixed(old(job), settings, world, old(runs), runs - old(runs))
      ensures End(job, applied, raised) == Succeeded(old(job), result, settings, world, old(runs), runs - old(runs))
      ensures session == Resumed(Counted(old(session), result.sessionId), world, old(runs), runs)
    {
      if session.Some? && Truthy(result.sessionId) {
        session := Some(session.value.(engineSession := result.sessionId, jobCount := session.value.jobCount + 1));
      }
      raised := None;
      if job.mode == Plan && job.deliverable.MutatesCode() {
        job := job.(result := Some(result.(isPlan := true)), status := AwaitingApproval);
        return;
      }
      raised := CheckAndDeliver(result);
    }

    // The rest of it, for a job that is no plan.
    method CheckAndDeliver(ghost result: EngineResult) returns (raised: Option<string>)
      requires !Engine.PlanJob(job) && !applied
      modifies this`job, this`session, this`runs, this`applied
      ensures old(runs) <= runs
      ensures Fixed(old(job), settings, world, old(runs), runs - old(runs))
      ensures End(job, applied, raised) == Succeeded(old(job), result, settings, world, old(runs), runs - old(runs))
      ensures session == Resumed(old(session), world, old(runs), runs)
    {
      if job.deliverable.MutatesCode() && settings.verify.checks != [] && settings.worktree {
        var passed;
        raised, passed := SelfHeal();
        if raised.Some? {
          return;
        }
        if !passed && settings.gate {
          job := job.(status := FailedChecks, errorMessage := Some("verification checks failed"));
          return;
        }
      }
      raised := Deliver();
    }

    method OnEngineError(failure: Failure, result: EngineResult)
      modifies this`job, this`pausesInstance
      ensures job == Failed(old(job), failure, result)
      ensures pausesInstance == (old(pausesInstance) || failure.errorClass in {Auth, Quota})
    {
      job := job.(errorClass := Some(ErrorName(failure.errorClass)), errorMessage := Some(failure.message),
                  result := Some(result));
      match failure.errorClass {
        case TimedOut => job := job.(status := Timeout);
        case BlockedByPolicy => job := job.(status := Blocked);
        case _ => job := job.(status := Error);
      }
      if failure.errorClass.BreaksCircuit() {
        pausesInstance := true;
      }
    }

    // The loop before its run number `runs`.
    ghost predicate Looping(first: Job, session0: Option<Session>, resume: Option<string>, recovered: bool)
      reads this
    {
      var resumed := ResumeOf(session0);
      && job == Tried(first, world, resumed, runs)
      && session == AfterLoop(session0, world, runs)
      && recovered == Dropped(world, resumed, runs)
      && resume == (if recovered then None else resumed)
      && (forall k: nat :: k < runs ==> Again(world, settings.maxAttempts, first.attempts, resumed, k))
    }

    // Run number `runs - 1` has been made, and not yet been judged.
    ghost predicate Judging(first: Job, session0: Option<Session>, resume: Option<string>, recovered: bool)
      reads this
    {
      var resumed := ResumeOf(session0);
      && runs > 0
      && var after := Tried(first, world, resumed, runs);
      && job == (if DropsAt(world, resumed, runs - 1) then after.(attempts := after.attempts + 1) else after)
      && session == AfterLoop(session0, world, runs - 1)
      && recovered == Dropped(world, resumed, runs - 1)
      && resume == (if recovered then None else resumed)
      && (forall k: nat :: k < runs - 1 ==> Again(world, settings.maxAttempts, first.attempts, resumed, k))
    }

    method Attempt(ghost first: Job, ghost session0: Option<Session>, resume: Option<string>, recovered: bool)
      returns (reply: Reply)
      requires Looping(first, session0, resume, recovered)
      modifies this`runs, this`job
      ensures Judging(first, session0, resume, recovered)
      ensures runs == old(runs) + 1 && reply == world.engine(old(runs)) && job.attempts == old(job).attempts + 1
    {
      TriedOnceMore(first, world, ResumeOf(session0), runs);
      job := job.(attempts := job.attempts + 1);
      reply := world.engine(runs);
      runs := runs + 1;
      job := Charged(job, reply.result.usage);
    }

    method ForgetSession(ghost first: Job, ghost session0: Option<Session>, ghost resume: Option<string>)
      requires Judging(first, session0, resume, false)
      requires DropsAt(world, ResumeOf(session0), runs - 1)
      modifies this`session, this`job
      ensures Looping(first, session0, None, true) && job.attempts == old(job).attempts - 1
    {
      OneMore(world, ResumeOf(session0), runs - 1);
      if session.Some? {
        session := Some(session.value.(engineSession := None));
      }
      job := job.(attempts := job.attempts - 1);
    }

    lemma GoesOn(first: Job, session0: Option<Session>, resume: Option<string>, recovered: bool)
      requires Judging(first, session0, resume, recovered)
      requires !DropsAt(world, ResumeOf(session0), runs - 1)
      requires Again(world, settings.maxAttempts, first.attempts, ResumeOf(session0), runs - 1)
      ensures Looping(first, session0, resume, recovered)
    {
      OneMore(world, ResumeOf(session0), runs - 1);
    }

    lemma AttemptsWhileJudging(first: Job, session0: Option<Session>, resume: Option<string>, recovered: bool)
      requires Judging(first, session0, resume, recovered)
      ensures job.attempts == Attempts(world, first.attempts, ResumeOf(session0), runs - 1) + 1
      ensures DropsAt(world, ResumeOf(session0), runs - 1) <==>
              Truthy(resume) && !recovered && Missing(world, runs - 1)
    {
      OneMore(world, ResumeOf(session0), runs - 1);
    }

    // What `n` runs of the loop have led to.
    ghost predicate Settled(first: Job, session0: Option<Session>, paused: bool, n: nat, raised: Option<string>)
      reads this
    {
      && Makes(world, settings.maxAttempts, first.attempts, ResumeOf(session0), n)
      && Concluded(settings, world, first, session0, n, runs, End(job, applied, raised), session)
      && pausesInstance == (paused || BreaksAt(world, n))
    }

    // The last run number `runs - 1` is dealt with.
    method Conclude(ghost first: Job, ghost session0: Option<Session>, resume: Option<string>, recovered: bool,
        reply: Reply)
      returns (raised: Option<string>)
      requires Judging(first, session0, resume, recovered) && reply == world.engine(runs - 1) && !applied
      requires !Again(world, settings.maxAttempts, first.attempts, ResumeOf(session0), runs - 1)
      requires !DropsAt(world, ResumeOf(session0), runs - 1)
      modifies this
      ensures Settled(first, session0, old(pausesInstance), old(runs), raised)
    {
      match reply.error
      case None =>
        job := job.(result := Some(reply.result));
        ghost var started := job;
        raised := OnEngineSuccess(reply.result);
        ConcludedWell(settings, world, first, session0, old(runs), runs, started, End(job, applied, raised), session);
      case Some(failure) =>
        ConcludedBadly(settings, world, first, session0, runs, failure);
        OnEngineError(failure, reply.result);
        raised := None;
    }

    method ExecuteWithRetries() returns (raised: Option<string>, n: nat)
      requires runs == 0 && !applied
      modifies this
      ensures Settled(old(job), old(session), old(pausesInstance), n, raised)
    {
      var resume := if session.Some? then session.value.engineSession else None;
      var recovered := false;
      while true
        invariant !applied && pausesInstance == old(pausesInstance)
        invariant Looping(old(job), old(session), resume, recovered)
        decreases if Truthy(resume) && !recovered then 1 else 0,
                  (if settings.maxAttempts > 1 then settings.maxAttempts else 1) - job.attempts
      {
        var reply := Attempt(old(job), old(session), resume, recovered);
        AttemptsWhileJudging(old(job), old(session), resume, recovered);
        n := runs;
        if reply.error.Some? {
          if Truthy(resume) && !recovered && reply.missing {
            resume, recovered := None, true;
            ForgetSession(old(job), old(session), ResumeOf(old(session)));
            continue;
          }
          var failure := reply.error.value;
          if failure.errorClass.Retryable() && job.attempts < Cap(failure.errorClass, settings.maxAttempts) {
            GoesOn(old(job), old(session), resume, recovered);
            continue;
          }
        }
        raised := Conclude(old(job), old(session), resume, recovered, reply);
        return;
      }
    }

    // The guarded part of run_job.
    method Execute() returns (n: nat)
      requires runs == 0 && !applied
      modifies this
      ensures Makes(world, settings.maxAttempts, old(job).attempts, ResumeOf(old(session)), n)
      ensures 0 < n <= runs && if LastRunOk(world, n) then Fixed(old(job), settings, world, n, runs - n) else runs == n
      ensures var e := Finished(old(job), settings, world, ResumeOf(old(session)), n, runs - n);
        job == Guarded(e) && applied == e.applied
      ensures session == SessionAfter(old(session), world, n, runs - n)
      ensures pausesInstance == (old(pausesInstance) || BreaksAt(world, n))
    {
      var raised;
      raised, n := ExecuteWithRetries();
      match raised
      case None =>
      case Some(msg) =>
        job := job.(status := Error, errorClass := Some(ErrorName(Unknown)), errorMessage := Some(msg));
    }
  }
}
