// The whole job engine as one transition system: the web server's event loop,
// the dispatcher thread, the pool threads running jobs, operators, and crashes
// followed by a reboot. Every step is one atomic access to the job table or
// one visible change of one thread; steps of different threads interleave
// freely.

module System {
  import opened Models
  import opened Store
  import opened Dispatch
  import opened Params

  const APPROVED_FROM := Text("approved_from")

  // The plan job an apply job was spawned from.
  function ApprovedFrom(j: Job): Option<string> {
    if APPROVED_FROM in j.metadata && j.metadata[APPROVED_FROM].JStr? then Some(j.metadata[APPROVED_FROM].s) else None
  }

  // A code-mutating job that only produces a plan.
  predicate PlanJob(j: Job) {
    j.mode == Plan && j.deliverable.MutatesCode()
  }

  // What no step ever changes about a job.
  predicate SameIdentity(a: Job, b: Job) {
    && a.id == b.id && a.instance == b.instance && a.sessionId == b.sessionId && a.threadKey == b.threadKey
    && a.deliverable == b.deliverable && a.mode == b.mode && a.request == b.request
    && a.idempotencyKey == b.idempotencyKey && a.createdAt == b.createdAt
    && ApprovedFrom(a) == ApprovedFrom(b)
  }

  // --- A pool thread running one job ---------------------------------------

  // How far the thread has come; the job is its own copy in memory.
  datatype Phase =
    | Submitted                            // claimed and given to the pool
    | Loaded(job: Job)                     // read back from the table
    | Cleared(job: Job)                    // its instance was not paused; `running` not yet saved
    | Barred(job: Job)                     // its instance was paused; not yet requeued
    | Started(job: Job)                    // `running` saved, preparing
    | AuthPaused(job: Job)                 // preparation found the instance unusable; not yet requeued
    | Executing(job: Job, applying: bool)  // inside _execute_with_retries
    | Returned(job: Job)                   // outcome known, not yet saved
    | Finalized(job: Job)                  // outcome saved, cleaning up

  datatype TaskAct =
    | Load
    | CheckPause
    | Start(now: real)
    | MissAuth(now: real)
    | PrepareFails(job: Job)
    | Enter
    | ReachApply
    | Return(job: Job)
    | Finalize(now: real)
    | Requeue(msg: string)
    | SaveError(msg: string)
    | Finish
    | Vanish

  // The statuses _execute_with_retries and the guard around it can leave.
  predicate Outcome(j: Job, applying: bool, status: JobStatus) {
    || status == Error
    || (applying && status == Success)
    || (!applying && (status == Timeout || status == Blocked))
    || (!applying && PlanJob(j) && status == AwaitingApproval)
    || (!applying && !PlanJob(j) && j.deliverable.MutatesCode() && status == FailedChecks)
  }

  predicate TaskEnabled(ph: Phase, act: TaskAct) {
    match act
    case Load => ph.Submitted?
    case CheckPause => ph.Loaded?
    case Start(_) => ph.Cleared?
    case MissAuth(_) => ph.Started?
    case PrepareFails(j) => ph.Started? && SameIdentity(j, ph.job) && j.status == Error
    case Enter => ph.Started?
    case ReachApply => ph.Executing? && !ph.applying && !PlanJob(ph.job)
    case Return(j) => ph.Executing? && SameIdentity(j, ph.job) && Outcome(ph.job, ph.applying, j.status)
    case Finalize(_) => ph.Returned?
    case Requeue(_) => ph.Barred? || ph.AuthPaused?
    case SaveError(_) => ph.Loaded? || ph.Cleared? || ph.AuthPaused? || ph.Returned? || ph.Finalized?
    case Finish => ph.Finalized?
    case Vanish => true
  }

  // The row and the phase after a step; None: the thread is through.
  function TaskStep(row: Row, ph: Phase, act: TaskAct, instancePaused: bool): (Row, Option<Phase>)
    requires TaskEnabled(ph, act)
  {
    match act
    case Load => (row, Some(Loaded(row.data)))
    case CheckPause => (row, Some(if instancePaused then Barred(ph.job) else Cleared(ph.job)))
    case Start(now) =>
      var j := ph.job.(status := Running, startedAt := Some(now));
      (RowOf(j), Some(Started(j)))
    case MissAuth(now) =>
      var j := ph.job.(finishedAt := Some(now));
      (RowOf(j), Some(AuthPaused(j)))
    case PrepareFails(j) => (row, Some(Returned(j)))
    case Enter => (row, Some(Executing(ph.job, false)))
    case ReachApply => (row, Some(Executing(ph.job, true)))
    case Return(j) => (row, Some(Returned(j)))
    case Finalize(now) =>
      var j := ph.job.(finishedAt := Some(now));
      (RowOf(j), Some(Finalized(j)))
    case Requeue(msg) => (RowOf(ph.job.(status := Queued, errorMessage := Some(msg))), None)
    case SaveError(msg) => (RowOf(ph.job.(status := Error, errorMessage := Some(msg))), None)
    case Finish => (row, None)
    case Vanish => (row, None)
  }

  // --- The other threads ---------------------------------------------------

  // An approval request being served; the event loop serves one at a time.
  datatype Decision = NoDecision | Read(job: Job, approve: bool) | Approving(job: Job)

  // The check the dispatcher makes next for the first job of `todo`.
  datatype Stage = Item | Count | Session | Repo | Claim | Submit

  datatype Dispatcher =
    | Booting
    | Recovering(rest: set<string>)
    | Waiting                                   // in wait()
    | Woken                                     // wait() has returned
    | Listing                                   // event cleared, queue not yet read
    | Scanning(stage: Stage, todo: seq<Job>)

  datatype State = State(
    rows: Rows,
    tasks: map<string, Phase>,
    disp: Dispatcher,
    wake: bool,                // the event
    paused: set<string>,
    decision: Decision,
    unnotified: set<string>,   // stored, creator has not called notify() yet
    notified: set<string>,     // creator has finished notify()
    listed: set<string>)       // stored when the last queue listing began

  datatype Action =
    | Crash
    | BootList
    | RecoverOne(id: string)
    | BootDone
    | HookCreate(job: Job, inst: HookInstance, ask: Ask)
    | OperatorCreate(job: Job)
    | Notify(id: string)
    | DecideRead(id: string, approve: bool)
    | DecideSave
    | Spawn(newId: string, now: real)
    | DecideAbort
    | Pause(instance: string)
    | Resume(instance: string)
    | WaitEnds
    | ClearWake
    | ListQueue(todo: seq<Job>)
    | Advance
    | SubmitRefused
    | RoundFails
    | Task(id: string, act: TaskAct)

  predicate Serving(s: State) {
    !s.disp.Booting? && !s.disp.Recovering?
  }

  // A job as its constructor makes it.
  predicate NewJob(rows: Rows, j: Job) {
    j.id !in rows && j.status == Queued && j.attempts == 0 && !Conflicts(rows, j)
  }

  function ApplyJob(plan: Job, id: string, now: real): Job {
    Job(plan.instance, if plan.prompt != "" then plan.prompt else "Apply the approved plan.",
        plan.deliverable, Auto, id, plan.sessionId, plan.threadKey, Queued, plan.request, None, None, None,
        NO_USAGE, None, None, 0, None, None, now, None, None, map[APPROVED_FROM := JStr(plan.id)])
  }

  ghost predicate Enabled(c: Config, s: State, a: Action) {
    match a
    case Crash => true
    case BootList => s.disp.Booting?
    case RecoverOne(id) => s.disp.Recovering? && id in s.disp.rest && id in s.rows
    case BootDone => s.disp.Recovering? && s.disp.rest == {}
    case HookCreate(j, inst, ask) =>
      Serving(s) && NewJob(s.rows, j) && ApprovedFrom(j).None?
      && ResolveParams(inst, ask) == Ok((j.deliverable, j.mode))
    case OperatorCreate(j) => Serving(s) && NewJob(s.rows, j) && ApprovedFrom(j).None?
    case Notify(id) => id in s.unnotified
    case DecideRead(id, _) =>
      Serving(s) && s.decision.NoDecision? && id in s.rows && s.rows[id].data.status == AwaitingApproval
    case DecideSave => s.decision.Read?
    case Spawn(newId, _) => s.decision.Approving? && newId !in s.rows
    case DecideAbort => !s.decision.NoDecision?
    case Pause(_) => Serving(s)
    case Resume(_) => Serving(s)
    case WaitEnds => s.disp.Waiting?
    case ClearWake => s.disp.Woken?
    case ListQueue(todo) => s.disp.Listing? && IsListing(s.rows, LISTING_LIMIT, todo)
    case Advance => s.disp.Scanning?
    case SubmitRefused => s.disp.Scanning? && s.disp.stage == Submit && s.disp.todo != []
    case RoundFails => s.disp.Listing? || s.disp.Scanning?
    case Task(id, act) =>
      id in s.tasks && id in s.rows && TaskEnabled(s.tasks[id], act)
  }

  ghost function Do(c: Config, s: State, a: Action): State
    requires Enabled(c, s, a)
  {
    match a
    case Crash =>
      s.(tasks := map[], disp := Booting, wake := false, decision := NoDecision, unnotified := {})
    case BootList => s.(disp := Recovering(RunningIds(s.rows)))
    case RecoverOne(id) => s.(rows := s.rows[id := Reconciled(s.rows[id])], disp := Recovering(s.disp.rest - {id}))
    case BootDone => s.(disp := Listing)
    case HookCreate(j, _, _) => Created(s, j)
    case OperatorCreate(j) => Created(s, j)
    case Notify(id) => s.(unnotified := s.unnotified - {id}, notified := s.notified + {id}, wake := true)
    case DecideRead(id, approve) => s.(decision := Read(s.rows[id].data, approve))
    case DecideSave =>
      var j := s.decision.job;
      s.(rows := Saved(s.rows, j.(status := if s.decision.approve then Success else Rejected)),
         decision := if s.decision.approve then Approving(j) else NoDecision)
    case Spawn(newId, now) => Created(s.(decision := NoDecision), ApplyJob(s.decision.job, newId, now))
    case DecideAbort => s.(decision := NoDecision)
    case Pause(i) => s.(paused := s.paused + {i})
    case Resume(i) => s.(paused := s.paused - {i})
    case WaitEnds => s.(disp := Woken)
    case ClearWake => s.(disp := Listing, wake := false)
    case ListQueue(todo) => s.(disp := Scanning(Item, todo), listed := s.rows.Keys)
    case Advance => Advanced(c, s, s.disp.stage, s.disp.todo)
    case SubmitRefused => s.(rows := Saved(s.rows, s.disp.todo[0].(status := Queued)), disp := Waiting)
    case RoundFails => s.(disp := Waiting, listed := if s.disp.Listing? then s.rows.Keys else s.listed)
    case Task(id, act) =>
      var (row, ph) := TaskStep(s.rows[id], s.tasks[id], act, s.rows[id].data.instance in s.paused);
      s.(rows := s.rows[id := row], tasks := if ph.Some? then s.tasks[id := ph.value] else s.tasks - {id})
  }

  function Created(s: State, j: Job): State {
    s.(rows := s.rows[j.id := RowOf(j)], unnotified := s.unnotified + {j.id})
  }

  predicate Passes(c: Config, s: State, stage: Stage, j: Job) {
    match stage
    case Item => Exists(c, j.instance) && j.instance !in s.paused
    case Count => Exists(c, j.instance) && |RunningIn(s.rows, j.instance)| < Concurrency(c, j.instance)
    case Session => SessionFree(s.rows, j)
    case Repo => RepoFree(s.rows, j)
    case Claim => IsQueued(s.rows, j.id)
    case Submit => false
  }

  function NextStage(stage: Stage): Stage {
    match stage
    case Item => Count
    case Count => Session
    case Session => Repo
    case Repo => Claim
    case Claim => Submit
    case Submit => Item
  }

  function Advanced(c: Config, s: State, stage: Stage, todo: seq<Job>): State {
    if todo == [] then s.(disp := Waiting)
    else if Passes(c, s, stage, todo[0]) then
      s.(rows := if stage == Claim then Claimed(s.rows, todo[0].id) else s.rows,
         disp := Scanning(NextStage(stage), todo))
    else
      s.(tasks := if stage == Submit then s.tasks[todo[0].id := Submitted] else s.tasks,
         disp := Scanning(Item, todo[1..]))
  }

  ghost predicate Init(s: State) {
    s == State(map[], map[], Booting, false, {}, NoDecision, {}, {}, {})
  }

  ghost predicate IsRun(c: Config, states: seq<State>, actions: seq<Action>) {
    && |states| == |actions| + 1
    && Init(states[0])
    && forall k {:trigger actions[k]} :: 0 <= k < |actions| ==>
         Enabled(c, states[k], actions[k]) && states[k + 1] == Do(c, states[k], actions[k])
  }
}
