# agenthook: a verified model of the job engine

agenthook turns webhooks, schedules and operator requests into jobs, keeps them in a durable queue, runs each
through a coding agent, and applies the result, with a human in between where code would change unseen. This
project models that engine in Dafny 4.11 and proves what it guarantees:

- `Models`, `Serde`, `Store`: jobs, their printed form, and the table with its hot columns and its data copy;
- Dispatch: one round of the dispatcher as a function of the table;
- Params: what a webhook caller may ask for;
- `System`, `Invariant`, `Steps`, `Guarantees`: everything at once as a transition system (web server, dispatcher
  thread, pool threads, operators, crash and reboot), where every access to the table is one atomic step and the
  steps of different threads interleave freely; its invariant; and theorems over whole runs. `Refinement` shows that
  its dispatcher, undisturbed, makes the round of `Dispatch`;
- `Recovery`, `WaitingJobs`, `Order`, `Overtaking`, `Finality`: over the runs of that system, what a boot settles and
  which rows have a thread, who leaves the queue and who is starved, when a younger job starts before an older one and
  four runs in which it does, and that a job that has ended stays ended and writes nothing more. `Journeys` gives the
  other side: the paths a job, a decision and a reboot can take to their ends;
- `Accounting`, `Verify`, `Runner`: usage records as an algebra, the self-heal loop, and the retry loop around it,
  tied back to the transition system by `Runner.ExecutionIsAStep`;
- RateLimit: the token bucket and its collector, over real numbers;
- `Scheduler`, `Replay`: cron scans and the replay cache for admin tokens;
- `Sse`, `LogStream`, `Numerals`, `Chunked`: what the server prints, read back by the standard's own reader
  (section 9.2.6 of the WHATWG HTML Standard, section 7.1 of RFC 9112).

Where the source updates an object in place the model is a class (`JobStore`, `Worker`, `Execution`, `Limiter`,
`Scheduler`, `Cache`), each method proved equal to a specification function of the old state; the theorems are about
those functions. Engines, checks, git, the calendar library, cryptography, clocks and the interleaving are
parameters, so a statement holds for all of their behaviours unless it names an assumption. These are the assumptions
about them: the theorems about sequences of requests to the rate limiter suppose times that do not go back
(`RateLimit.Timely`), those about sequences of scans a clock that does not go back, distinct keys and a cron line that
stays (`Scheduler.Orderly`) and a calendar that yields the next fire (`Scheduler.Lawful`), and
`Replay.AcceptedInOrder` and `Replay.AcceptedOnce` times in the order of the calls (`Replay.Timely`).

## Where code and documentation disagree

The model follows the code.

- "FIFO per session" (`agenthook/worker.py:82`) is mutual exclusion. A check that failed for the older of two jobs of
  one instance, session and kind passes for the younger one later in the round exactly when the steps in between have
  unblocked it: a resume of the instance, or rows of the instance or session that stop running, more than start and
  by as many as were in the way (`Order.TurnsExactlyWhenUnblocked`). At the claim of a younger job an older one of its
  line is in the queue exactly when, in this very round, it failed a check that was unblocked before the younger one
  passed it, or its own thread put it back because it had found the instance paused, or it was stored only after the
  round's listing (`Order.OvertakenExactly`). The last needs no clock set back: a creation time is fixed when the job
  is built, and jobs are stored later, from the event loop, its thread pool and the scheduler. Among jobs stored before
  the listing, in a round in which no step helps the line, start order is creation order
  (`Order.StartOrderIsCreationOrder`). Four runs from the first boot show the order broken: by a resume, by a job that
  ends, by a late store and by a job put back (`Overtaking.ResumeOvertakes`, `Overtaking.SessionOrderCanBreak`,
  `Overtaking.LateStoreOvertakes`, `Overtaking.PutBackOvertakes`).
- `queued_jobs` lists at most 100 jobs, oldest first. A round is maximal for what it listed; a runnable job is left
  behind only if 100 jobs at least as old fill the listing (`Dispatch.LeftBehindOnlyByFullListing`), and a backlog of
  100 queued jobs of instances that are paused or gone starves every younger job of every instance until one of the
  paused ones is resumed (`WaitingJobs.BacklogStarves`), and for good if all of them are gone
  (`WaitingJobs.GoneStarvesForever`).
- The replay cache reads the clock before it takes its lock (`agenthook/admin_auth.py:108-122`), so calls may look at it
  in another order than their times. A token is accepted again only after a call in between has looked at the cache with
  a time past its expiry (`Replay.SecondNeedsALateLook`), and then it can be (`Replay.OutOfOrderReplays`).
- With checks, room for fixes and a cost cap of 0 or less, the first failing round raises where the loop means to give
  up: `agenthook/verify.py:82` formats a cost that is still unknown (`Verify.Run`, `Verify.ZeroCapRaises`). The guard
  of `run_job` turns that into an unknown error, with the gate on or off (`Runner.Verdict`).
- A token without exactly two dots is compared by `hmac.compare_digest`, which raises instead of refusing when the
  token or the secret holds a character that is not ASCII (`Replay.Cache.Authenticate`).
- The classes "retried at most once" (`agenthook/errors.py:31`) get a cap of one attempt and are never retried
  (`Runner.OnlyTransientErrorsRepeat`).
- `_prune` says it drops full buckets but drops idle ones. That is invisible to a key exactly when its
  limit has 5·rpm ≥ burst, or burst below one, or is disabled, whatever the limits of other keys
  (`RateLimit.PruningIsInvisibleExactly`). All shipped limits qualify.
- A schedule makes its first job exactly at the first scan that visits it within one tick after a fire, and the
  scanner sleeps a full tick between scans, so a fire between two scans can be lost (`Scheduler.FirstJobExactly`,
  `Scheduler.FirstFireCanBeLost`).
- "Same failure twice" (`agenthook/verify.py:84-86`) compares joined texts, and rounds in which different checks fail can
  have the same one, even different numbers of them (`Verify.DifferentNumbersCanLookAlike`). That needs a blank line
  followed by "$ " inside a command or an output; without one the text tells which commands failed and with what
  outputs, and the loop stops exactly when these are the same twice (`Verify.GoesOnExactly`).
- Adding an empty usage record forgets a model name that is the empty string and nothing else
  (`Accounting.NoUsageIsRightIdentityExactly`).
- The final `return` of `verify.run` is reached only with a negative iteration limit (`Verify.Run`).

## Model

| member | source | states |
|---|---|---|
| Serde.EnumNamesParseBack | agenthook/models.py:22-70 | the string values of deliverables, modes and statuses parse back to the member they came from, so no two share one |
| Serde.KindNamesAre | agenthook/models.py:22-34 | the strings that deliverables and modes are written as |
| Serde.StatusNamesAre | agenthook/models.py:44-52 | and those of the statuses of a job that waits, runs or has passed or failed its checks |
| Serde.MissingFieldsAreDefaults | agenthook/models.py:116-160 | a record that names only its instance reads as the job that the constructor makes of it |
| Serde.UsageRoundTrip | agenthook/serde.py:32-33 | a printed usage record reads back equal, unknown numbers included |
| Serde.ResultRoundTrip | agenthook/serde.py:34-46 | a printed result, or its absence, reads back equal |
| Serde.JobRoundTrip | agenthook/serde.py:16-48 | `job_from_dict` undoes `job_to_dict` for every job, whatever clock and random source would fill in, and keys that are no job fields change nothing |
| Store.ClaimUndoneBySave | agenthook/worker.py:60-69 | claiming a job and putting it back after the pool refused it restores the table |
| Store.KeysArePerInstance | agenthook/store.py:180-187 | a job is refused for its idempotency key exactly when another row of the same instance has that key; other instances may have it |
| Store.RequestColumns | agenthook/store.py:154-177 | the requester and request type columns hold what the request says, or nothing |
| Store.JobStore.CreateJob | agenthook/store.py:180-187 | inserts the row with its columns, and fails without effect exactly on a known id or a taken idempotency key |
| Store.JobStore.SaveJob | agenthook/store.py:190-195 | rewrites columns and data of a known row; an unknown id is left alone; fails exactly on a taken idempotency key |
| Store.JobStore.GetJob | agenthook/store.py:198-201 | reads the data and never the columns |
| Store.JobStore.ClaimJob | agenthook/store.py:253-260 | wins exactly when the column says queued, and then writes the status column alone |
| Store.JobStore.QueuedJobs | agenthook/store.py:282-288 | a listing of queued rows in creation order, each once, and of all of them or of the oldest `limit` |
| Store.JobStore.RecoverInterrupted | agenthook/store.py:481-504 | every running row becomes queued or interrupted by its deliverable, all others stay, and the two counts are right |
| Dispatch.Worker.DispatchRound | agenthook/worker.py:54-69 | the loop over a listing leaves the table and the submissions of the round function; stopped or with a closed pool it leaves both as they were |
| Dispatch.Worker.CheckAndClaim | agenthook/worker.py:58-69 | one job is claimed and submitted exactly when eligible and still queued, and put back when the pool refuses it |
| Dispatch.RoundIsMaximal | agenthook/worker.py:54-85 | no listed job is left both queued and eligible by an undisturbed round |
| Dispatch.LeftQueuedAtItsLimit | agenthook/worker.py:71-90 | a listed job that an undisturbed round leaves queued, although its instance is there and not paused, its session idle and no other mutating job in its way, belongs to an instance that runs as many jobs as its own limit says, or the default where that is absent or 0 |
| Dispatch.LeftBehindOnlyByFullListing | agenthook/store.py:282-288 | a queued job that could run is left behind only when the listing was full of jobs at least as old, so more than 100 were queued |
| Dispatch.PausedBacklogStarves | agenthook/worker.py:71-77 | one undisturbed round over a listing that shows only jobs of paused instances claims nothing; what that means for whole runs is `WaitingJobs.BacklogStarves` |
| Dispatch.NoOvertaking | agenthook/worker.py:54-85 | a claimed job does not overtake an older queued one of its instance and session unless only the older one mutates code |
| WaitingJobs.OnlyClaimsUnqueue | agenthook/worker.py:58-60 | a step of any thread leaves a queued row as it is, unless it is the dispatcher's claim of that job |
| WaitingJobs.UnqueuedWasClaimed | agenthook/worker.py:58-60 | in every run a stored job that is not in the queue has been claimed before |
| WaitingJobs.BacklogStarves | agenthook/worker.py:71-77 | from a moment between two rounds at which 100 queued jobs belong to paused or missing instances on, crashes and reboots included, no job younger than all of them is claimed until one of the instances that are not missing is resumed, and they stay queued |
| WaitingJobs.GoneStarvesForever | agenthook/worker.py:72-75 | if all of these instances are missing, nothing ends it |
| Order.RunningIsConserved | agenthook/worker.py:71-90 | over any stretch of any run the running rows of an instance or session, and the mutating ones of an instance, change by the steps that start one less the steps that end one |
| Order.TurnsExactlyWhenUnblocked | agenthook/worker.py:71-85 | a check that failed for one job passes later for another of its line exactly when the steps in between resumed the instance and did not pause it again, or ended more rows than they started, by the number in the way |
| Order.OvertakenExactly | agenthook/worker.py:54-85 | in every run, at the claim of a job, an older one of its line is still queued exactly when in this very round it failed a check that the steps up to the younger one's check unblocked, or its thread put it back, or it was stored after the listing |
| Order.StartOrderIsCreationOrder | agenthook/worker.py:54-85 | in every round of every run up to a claim in which no step resumed the instance or took a row of the instance or session out of running, all older jobs of the line that were stored before the listing have left the queue, having been claimed before |
| Overtaking.ResumeOvertakes | agenthook/worker.py:71-77 | for any two jobs of one line there is a run from the first boot in which nothing has run or ended, and a pause and a resume let the younger one start while the older is queued |
| Overtaking.SessionOrderCanBreak | agenthook/worker.py:81-82 | for any three jobs of one session there is a run from the first boot in which the first one runs, the second is skipped, the first ends, and the third starts while the second is queued |
| Overtaking.LateStoreOvertakes | agenthook/store.py:154-187 | for any two jobs of one line there is a run from the first boot, without a pause, a resume or a step of a pool thread, in which the older one is stored after the listing and the younger starts while it is queued |
| Overtaking.PutBackOvertakes | agenthook/worker.py:104-111 | for any two jobs of one line there is a run from the first boot in which the older one is claimed, its thread finds the instance paused, the instance is resumed, the job is put back, and the younger starts in the same round |
| Params.Resolved | agenthook/server.py:396-428 | a request is accepted exactly when both values are known and the engine can plan if it must, and the granted mode is the asked one except where code would change unseen |
| Params.ResolvedByName | agenthook/server.py:396-428 | for known names, said without the functions in between: the mode granted, and which of the two errors a plan that the engine cannot make is |
| Params.OnlyOverridesCount | agenthook/server.py:399-407 | the caller's value counts exactly where the instance lets it be overridden, and otherwise the instance's own |
| Params.LeastPrivilege | agenthook/server.py:412-428 | without the opt-in no request, override or default yields code-mutating work in another mode than plan |
| Steps.StepInv | agenthook/worker.py:20-119 | every step of every thread keeps the engine's invariant |
| Steps.ReachableInv | agenthook/worker.py:28-69 | so it holds in every state of every run, crashes and reboots included |
| Guarantees.RunningIsBounded | agenthook/worker.py:71-90 | in every state of every interleaving an instance has at most its limit of running rows and at most one that mutates code, and a session at most one, a limit of 0 meaning the default |
| Guarantees.OwnLimitIsKept | agenthook/worker.py:87-90 | in every state of every run, no more rows of an instance run than its own limit if that is positive, than the default if it is absent or 0, and none where it is negative or the instance is missing |
| Guarantees.ClaimAlwaysWins | agenthook/worker.py:58-60 | between listing and claim nobody touches the row: the claim finds it queued and as listed, and makes it running |
| Guarantees.ColumnsAgree | agenthook/store.py:154-177 | each column says what the data says, but for the status of a claimed job that no thread has started |
| Guarantees.ListingIsQueued | agenthook/store.py:282-288 | a listing by column contains only jobs whose data says queued |
| Guarantees.NoLostWakeup | agenthook/worker.py:40-52 | when the dispatcher is blocked with the event clear, every job whose creator has finished notify() was stored when the last listing began |
| Guarantees.RunKeeps | agenthook/store.py:190-195 | no run removes a row or changes a job's identity, request, deliverable, mode or origin |
| Guarantees.MutatingJobRunsOnce | agenthook/runner.py:93-97 | over any run, crashes included, a code-mutating job enters `_execute_with_retries` at most once |
| Guarantees.RebootFate | agenthook/store.py:481-504 | after a crash and reboot a running job is queued exactly when read-only and interrupted exactly when it mutates code, with columns and data in agreement |
| Recovery.RecoveryIsComplete | agenthook/worker.py:27-34 | when a boot lets the dispatcher go, no row says running, in its column or in its data |
| Recovery.RunningHasAThread | agenthook/worker.py:58-69 | in between, a row that says running has its thread or is being submitted, unless its thread, or the round before the submission, has died since the last crash |
| Guarantees.PlanOnlyIsEnforced | agenthook/server.py:412-428 | a code-mutating job that reaches `_apply_deliverable` was made by an operator, by a hook on an instance with the opt-in, or as apply job of a plan that was awaiting approval when its approval was read |
| Guarantees.PlanIsAppliedOnce | agenthook/server.py:469-501 | a plan job spawns at most one apply job |
| Guarantees.SpawnInherits | agenthook/server.py:489-499 | the job an approval stores is queued, new, marked with its plan, in mode auto, with the plan's instance, session, thread, deliverable and request, and its prompt if it had one |
| Guarantees.ApplyJobDoesThePlan | agenthook/server.py:489-499 | over every run a job with the mark of a plan has the plan's instance, session, thread, deliverable and request, is not a plan itself, and never awaits approval |
| Finality.TerminalForever | agenthook/models.py:60-70 | in every run, a job whose saved status is terminal keeps a terminal status, and no thread of it is anywhere but cleaning up |
| Finality.EndedIsNotExecuted | agenthook/runner.py:93-97 | so it never enters `_execute_with_retries` again, and no thread of it is inside |
| Finality.EngineSavesLast | agenthook/worker.py:92-119 | in every run, with text written only from inside the execution, nothing is appended to a job's stream file after a terminal status of it was saved |
| Finality.DoneMeansAll | agenthook/server.py:594-606 | in every run of the engine and every interleaving of the reader with it, a client that was told `done` has received all the text the job has written |
| Journeys.JobIsDelivered | agenthook/runner.py:86-104 | a claimed job of an unpaused instance that is no plan can come through all steps of its thread to its deliverable, and is saved as a success with what the execution recorded |
| Journeys.JobIsStopped | agenthook/runner.py:298-346 | without reaching it, it can end in an error, a timeout or blocked, a code-mutating job at its checks, and a plan by awaiting approval |
| Journeys.JobIsPutBack | agenthook/worker.py:104-111 | with its instance paused its thread puts it back, queued, with the reason |
| Journeys.JobWithoutKeyIsPutBack | agenthook/runner.py:955-964 | and so it does when preparation finds that the key of the engine is missing |
| Journeys.ExceptionIsSaved | agenthook/worker.py:112-117 | an exception outside the guarded part saves the thread's copy as an error with its message |
| Journeys.PlanIsApproved | agenthook/server.py:484-501 | a plan that awaits approval can be approved: it becomes a success, its apply job is queued in mode auto with its mark, and no other row changes |
| Journeys.PlanIsRejected | agenthook/server.py:478-482 | and it can be rejected, which changes its status and no other row |
| Journeys.HookJobIsStored | agenthook/server.py:380-394 | what a hook is granted can be stored, and notifying sets the event |
| Journeys.RebootEnds | agenthook/store.py:481-504 | a crash can come at any time, and a reboot with nothing left running ends with a listing |
| Refinement.OneJob | agenthook/worker.py:71-85 | the checks of `_eligible`, made as separate steps, and the claim amount to one application of the eligibility predicate |
| Refinement.AloneIsRound | agenthook/worker.py:54-69 | the dispatcher's steps, undisturbed, leave the table and the pool as the round function says |
| Refinement.ListedRoundIsRound | agenthook/worker.py:54-69 | and that applies right after a listing in any state that satisfies the invariant: the round ends waiting, with the table of the round function |
| Accounting.AddAssociates | agenthook/models.py:96-113 | `Usage.add` is associative |
| Accounting.NoUsageIsLeftIdentity | agenthook/models.py:96-113 | adding to an empty record gives the other record |
| Accounting.NoUsageIsRightIdentityExactly | agenthook/models.py:104-113 | adding an empty record changes nothing, exactly unless the model name is "" |
| Accounting.TotalIsSum | agenthook/models.py:99-102 | each number of an accumulated record is the sum of those reported, and unknown exactly when none was |
| Accounting.TotalNamesFirstModel | agenthook/models.py:111 | the model of an accumulated record is the first one named |
| Verify.TruncateKeepsEnds | agenthook/verify.py:36-41 | a text of up to 4000 characters is kept whole, of a longer one the first and last 2000 characters are, with a note between them of how many are missing |
| Verify.CleanMeansAllPassed | agenthook/verify.py:67-75 | a round reports no failure exactly when every check exits with 0 |
| Verify.ReportShowsFailures | agenthook/verify.py:66-80 | a report that was not cut holds, for each failing check in order, its command and its whole output at its own offset, a blank line between two, and nothing else |
| Verify.OneCheckGoesOn | agenthook/verify.py:73-95 | with one check the loop fixes again exactly when it failed, the limits allow it, and it did not fail with the same output the round before |
| Verify.RepairIsProgress | agenthook/verify.py:84-87 | a round that repairs some checks, or breaks further ones, and leaves the output of the others as it was is progress: where the limits allow the loop goes on |
| Verify.GoesOnExactly | agenthook/verify.py:78-87 | where the limits leave room and no failing command or output holds a blank line followed by "$ ", the loop goes on exactly when not the same commands failed with the same outputs one after the other as in the round before; so always when different numbers of checks fail |
| Verify.DifferentNumbersCanLookAlike | agenthook/verify.py:78-87 | where a failing output does hold one the rule can misjudge: three checks, of which one and then two others fail with the same joined text, and the loop gives up after one fix |
| Verify.Run | agenthook/verify.py:44-96 | raises exactly when there are checks, room for fixes, a cap of 0 or less and a failed first round; otherwise the loop makes exactly the fixes that are due: each after a failed round, below both caps and with a failure text that changed; it stops at the first round after which none is due, reports as many iterations as fixes, their usage, `passed` exactly when that round was clean, and that round's failures |
| Verify.ZeroCapRaises | agenthook/verify.py:81-83 | with one check that fails, room for fixes and a cap of 0 the loop raises |
| Verify.OvershootIsOneFix | agenthook/verify.py:81-95 | whatever the engine reports, the loop spends less than the cap plus the cost of the last fix it made |
| Verify.SpendingIsBounded | agenthook/verify.py:81-95 | so with fixes that cost at most `most` the loop spends less than the cap and `most` together |
| Runner.RunsAreBounded | agenthook/runner.py:241-282 | for every engine the loop makes at most max(1, remaining attempts) runs and one more when a session is resumed, and counts runs less a dropped resume as attempts |
| Runner.DroppedOnce | agenthook/runner.py:262-270 | the resume id is dropped at most once |
| Runner.OnlyTransientErrorsRepeat | agenthook/runner.py:272-279 | a run is followed by another only after a lost session, a rate limit or a server error |
| Runner.RepeatsExactly | agenthook/runner.py:257-280 | read off the replies: a run is followed by another exactly when it failed and either it is the one that found the session gone, or its class is a rate limit or a server error and fewer attempts have been made than allowed |
| Runner.GivesUpOnlyAtTheCap | agenthook/runner.py:272-279 | the loop ends on a rate limit or a server error only with all its attempts used up |
| Runner.StubbornEngineIsRunToTheCap | agenthook/runner.py:241-282 | an engine that keeps answering so is run exactly max(1, remaining attempts) times, and once more when the resumed session is lost |
| Runner.RunsAreDetermined | agenthook/runner.py:241-282 | the number of runs is determined by the replies |
| Runner.ErrorNamesParseBack | agenthook/errors.py:15-26 | the recorded name of an error class is its value, which tells the classes apart |
| Runner.Execution.ExecuteWithRetries | agenthook/runner.py:241-282 | the loop makes exactly the runs that are followed by another and one that is not; job, session, circuit breaker and exception, that of the self-heal loop or of the delivery, end as the specification of the whole execution says |
| Runner.Execution.SelfHeal | agenthook/runner.py:312-321 | raises exactly when the self-heal loop does, leaving the job as it was; otherwise the fixes that are due are made, their usage is charged, each names the session to resume, and it passes exactly when the last round's checks all exit with 0 |
| Runner.Execution.OnEngineSuccess | agenthook/runner.py:298-330 | a successful run is parked, gated or delivered as specified, or raises before the gate is looked at, with the session's turn counted |
| Runner.Execution.OnEngineError | agenthook/runner.py:333-346 | the failure is recorded with the status of its class, and the instance is paused exactly for the circuit-breaking ones |
| Runner.Execution.RunFixes | agenthook/runner.py:349-356 | the session ends with the last engine session a fix named |
| Runner.Execution.Execute | agenthook/runner.py:93-104 | with the guard around it, an exception of the self-heal loop or of the delivery ends the job as an unknown error |
| Runner.Verdict | agenthook/runner.py:298-346 | when the deliverable is reached and when the job ends as success, awaiting approval, failed checks or an error, each as an exact condition on the last run, the plan mode, the checks, the exception of the self-heal loop and git |
| Runner.ExecutionIsAStep | agenthook/runner.py:306-330 | every execution keeps the job's identity and ends as the transition system allows; a plan job never reaches the deliverable |
| Runner.ApprovedPlanIsDelivered | agenthook/runner.py:306-330 | in every run, when the apply job of a plan is executed, its last engine run succeeds and no check gates or raises, the deliverable of the plan is reached |
| Runner.UsageIsConserved | agenthook/runner.py:251-253 | each number of a job's usage is what it started with plus what any of its engine runs reported, retries, discarded resume and fixes included, and unknown exactly when none did |
| RateLimit.Limiter.Prune | agenthook/ratelimit.py:41-50 | at most every 300 s, drops exactly the buckets idle for longer than that |
| RateLimit.Limiter.Check | agenthook/ratelimit.py:53-71 | answers and leaves the buckets as the specification of one request says |
| RateLimit.DisabledIsUnlimited | agenthook/ratelimit.py:58-59 | with a limit that is not positive every request of every run is allowed at once |
| RateLimit.RefillComposes | agenthook/ratelimit.py:64-65 | capped refill over an interval equals refill over its two parts |
| RateLimit.PruningIsInvisible | agenthook/ratelimit.py:41-71 | where 300 s of refill cover the burst of a key, all answers for it are those of a limiter that never prunes, whatever the requests and limits of other keys |
| RateLimit.PruningIsInvisibleExactly | agenthook/ratelimit.py:41-71 | and conversely a key whose limit lacks that property has a request sequence that tells the two apart |
| RateLimit.WindowIsBounded | agenthook/ratelimit.py:63-71 | in any window of any run a key for which pruning is invisible gets at most burst plus what the window refills |
| RateLimit.DeniedCostsNothing | agenthook/ratelimit.py:68-71 | leaving out a denied request, of whatever key, changes no other answer for a key for which pruning is invisible |
| RateLimit.RetryAfterIsSound | agenthook/ratelimit.py:70 | after a denial a request is allowed once `retry_after` has passed and denied while more than a second of it is left, whatever denied requests fall between |
| RateLimit.RetryAfterIsTight | agenthook/ratelimit.py:70 | every request made more than a second too early is denied |
| Scheduler.Scheduler.Scan | agenthook/scheduler.py:41-55 | the nested loops visit the unpaused schedules in order, as far as the store accepts their jobs |
| Scheduler.KeysAreNames | agenthook/scheduler.py:46 | two schedules share a key exactly when their instances and they have the same names, an unnamed one counting as "unnamed" |
| Scheduler.EachAlone | agenthook/scheduler.py:46-55 | with distinct keys a scan treats every schedule as if it were alone |
| Scheduler.DueMeansFired | agenthook/scheduler.py:51-53 | a schedule is due exactly when a fire time has passed since its last job, or within one tick when it has none |
| Scheduler.NoFireTwice | agenthook/scheduler.py:51-55 | over any run the jobs of a schedule are justified by fire times each later than the job before |
| Scheduler.FiresIncrease | agenthook/scheduler.py:51-55 | so these fire times increase strictly and none makes two jobs |
| Scheduler.LaterFireIsCovered | agenthook/scheduler.py:51-55 | after the first job, the first scan that visits a schedule at or after a fire makes one job for it |
| Scheduler.FirstJobExactly | agenthook/scheduler.py:51-55 | after any number of scans, and however often it fires, a schedule has made a job exactly when some scan visited it within one tick after a fire |
| Scheduler.FirstFireCanBeLost | agenthook/scheduler.py:37-39 | two scans half a second more than a tick apart lose the hour between them |
| Replay.Cache.JtiFresh | agenthook/admin_auth.py:108-116 | expired ids are dropped, a known one is refused, a new one is recorded |
| Replay.Cache.Authenticate | agenthook/admin_auth.py:119-131 | a token with two dots passes exactly as a verified, unexpired, short-lived one with a fresh id, any other exactly as the static token; raises exactly for a token of the other kind when it or the secret is not ASCII |
| Replay.PassExactly | agenthook/admin_auth.py:80-131 | which tokens are good for one request: three parts, verified, a number as expiry that lies ahead by ten minutes at most, and an id that is not falsy |
| Replay.TwoDots | agenthook/admin_auth.py:123 | three parts without dots joined by dots have two |
| Replay.AcceptedExactly | agenthook/admin_auth.py:99-131 | over any run, in whatever order the calls have read the clock, a verified token is accepted exactly when no accepted one with its id is both alive at its time and not dropped by a call in between that looked at the cache with a time past that one's expiry |
| Replay.AcceptedInOrder | agenthook/admin_auth.py:99-131 | where the times are in the order of the calls, exactly when no accepted one with its id is still alive |
| Replay.SecondNeedsALateLook | agenthook/admin_auth.py:108-122 | a token is accepted a second time only if a call in between has looked at the cache with a time at which it had expired, although the second call has an earlier one |
| Replay.OutOfOrderReplays | agenthook/admin_auth.py:108-122 | for any three calls, the first and the last with one token and the middle one with another id and a time past that token's expiry, both the first and the last are accepted |
| Replay.AcceptedOnce | agenthook/admin_auth.py:108-116 | where the times are in the order of the calls, a token id with its expiry is accepted at most once although expired ids are forgotten |
| Replay.EntriesAreShortLived | agenthook/admin_auth.py:101-116 | every entry left by a call expires after its time, and within ten minutes of the latest time any call has read |
| Sse.MessageIsRead | agenthook/server.py:556-561 | a standard reader between two messages takes a printed message, multi-line or empty, with its event name and exact payload |
| Sse.LineEndsAreAlike | agenthook/server.py:556-561 | the reader takes a newline, a carriage return and both together as the end of a line |
| Sse.RoundTripExactly | agenthook/server.py:556-561 | a payload survives exactly when it holds no carriage return |
| Sse.KeepaliveIsIgnored | agenthook/server.py:610-613 | a keepalive comment changes nothing for the reader |
| LogStream.Follow | agenthook/server.py:564-614 | what the client decodes is exactly the new log lines and the new text of each turn, and then the end, said exactly at the first turn that finds the job terminal; after each turn it has decoded all turns so far, keepalives included; and something is sent within any 31 turns, however long nothing happens |
| LogStream.SentIsFile | agenthook/server.py:577-592 | the texts of any number of turns put together are what the stream file held when it was last read |
| LogStream.FeedTellsLog | agenthook/server.py:577-585 | the "message" events of a whole feed are the lines of the log as last read, each once and in order, without the white space at its end |
| LogStream.ClientHasLog | agenthook/server.py:577-585 | and those of a feed cut after any turn tell the log as read then |
| LogStream.LinesAreLines | agenthook/server.py:582-584 | the lines of a reading are that reading, cut after each newline and nowhere else |
| LogStream.WholeLinesAreRebuilt | agenthook/server.py:583 | whole lines without other white space at their ends are rebuilt exactly |
| LogStream.TurnsExactly | agenthook/server.py:594-606 | the feed goes on as long as no turn finds the job over, for 1200 turns at most, and no longer |
| LogStream.EndIsSaidLast | agenthook/server.py:598-606 | `done` is said exactly when a turn found the job terminal, once, as the last message |
| LogStream.ClientHasPrefix | agenthook/server.py:577-592 | wherever the connection is cut, the text received is a prefix of the file as last read |
| LogStream.FeedIsPrefix | agenthook/server.py:594-606 | for every history of the job and every interleaving with the reader, each part of the feed shows a prefix of all the job ever writes, and at `done` exactly that if nothing is appended after the terminal save, which `Finality.EngineSavesLast` proves of the engine |
| LogStream.ViewsGrow | agenthook/worker.py:98-102 | appending by the job is all that happens to the files, so each turn finds what the last one found, and more |
| Chunked.RelayBody | agenthook/egress/broker.py:164-172 | the loop writes one chunk for each read before the first empty one, then the last chunk, and a receiver reads back their concatenation |
| Chunked.HexRoundTrip | agenthook/egress/broker.py:168 | the upper-case length line reads back as the length, for every natural number |
| Chunked.DigitsOfBothCases | agenthook/egress/broker.py:168 | the receiver reads digits of both cases and takes nothing else for a digit |
| Chunked.RelayIsRead | agenthook/egress/broker.py:160-172 | a receiver of the chunked coding gets exactly the concatenation of the reads and stops right after the last chunk |
| Numerals.DigitsHaveValue | agenthook/egress/broker.py:168 | the digits of a number in any base have its value |

## Left out

- CLI `run`, chat and TUI as drivers of jobs: they run or rewrite rows without the dispatcher's claim. The guarantees assume that only the dispatcher, its pool threads, the server and operators creating jobs touch the table.
- Deleting jobs and sessions, and changing limits while jobs run: the guarantees are about fixed configuration; pausing and resuming an instance at any time is modelled.
- Order.StartOrderIsCreationOrder: speaks of rounds in which no step helps the line and of jobs stored before the listing; Order.OvertakenExactly has all other cases.
- Replay.AcceptedOnce: supposes times in the order of the calls; Replay.SecondNeedsALateLook has the general case.
- RateLimit.WindowIsBounded: like the other results about request sequences it supposes times that do not go back; the clock is read before the lock there too, but the callers run in one event loop.
- Scheduler.NoFireTwice: like the other results about scans it supposes a clock that does not go back, as one thread scans.
- Finality.EngineSavesLast: takes the text as written from inside the execution, as the callback is only given to the engine; log lines may come at any time and may be missed by a client that was told `done`.
- Runner.UsageIsConserved: speaks of the numbers; the model name follows `Accounting.TotalNamesFirstModel`.
- Runner.Execution.SelfHeal: what a fix does to the session is applied after the self-heal loop instead of inside it, because a loop with injected callables is modelled with their results as parameters; nothing reads the session in between but the engine, whose replies are arbitrary.
- Serde.JobRoundTrip: a value of a wrong type is an error of the model's parser, where the source keeps it as it is.
- Verify.GoesOnExactly: supposes commands and outputs without a separator in them; the other case is Verify.DifferentNumbersCanLookAlike.
- LogStream.Follow: files are read as text at character positions; encodings, partial characters and the newline translation of text files are not modelled, and neither is a missing or deleted job.
- Replay.Cache.Authenticate: decoding, the signature and the text of a claim are parameters; an expiry that is not a number at all or not a real number is refused or not modelled.
- Guarantees.ColumnsAgree: the `engine` column, read from the instance's file at save time, is not modelled.
- Engine exceptions: an exception of the engine or of workspace preparation is a step of the transition system that ends in an error, and is not part of `Runner`.
- Backoff delays, log lines, audit records, notifications and the `setup` command of the checks: no effect on what is proved.
- Token verification, idempotent replies, rate limiting and parsing in the webhook handler before parameters are resolved, and finding or creating sessions.
- `list_jobs`, `next_queued`, `find_by_idempotency`: queries outside the dispatcher's protocol.
- The fields of the jobs the scheduler makes, header filtering in the broker, and `int()` of limits given as text.
- Docker, git, `gh`, subprocesses, mail, Slack, sockets, SQLite, JSON, cron parsing and cryptography: foreign code, present only as parameters.
- Prompt templates, guardrail texts, the web panel and the terminal interface: text and user interface.
