// What every reachable state of the engine satisfies, part by part, and why
// each step keeps it.

module Invariant {
  import opened Models
  import opened Store
  import opened Dispatch
  import opened System

  // --- The invariant -------------------------------------------------------

  ghost predicate TableOk(s: State) {
    WellFormed(s.rows) && UniqueKeys(s.rows)
  }

  // Claimed, but `running` not yet written into the data.
  predicate ClaimedRow(row: Row) {
    row.data.status == Queued && row.cols == ColumnsOf(row.data).(status := Running)
  }

  // The row of a job whose thread has come to phase `ph`.
  predicate TaskRow(row: Row, ph: Phase) {
    match ph
    case Submitted => ClaimedRow(row)
    case Loaded(j) => ClaimedRow(row) && j == row.data
    case Cleared(j) => ClaimedRow(row) && j == row.data
    case Barred(j) => ClaimedRow(row) && j == row.data
    case Started(j) => row == RowOf(j) && j.status == Running
    case AuthPaused(j) => row == RowOf(j) && j.status == Running
    case Executing(j, applying) => row == RowOf(j) && j.status == Running && (applying ==> !PlanJob(j))
    case Returned(j) =>
      && row == RowOf(row.data) && row.data.status == Running && SameIdentity(row.data, j)
      && Over(j.status) && (j.status == AwaitingApproval ==> PlanJob(j))
    case Finalized(j) => row == RowOf(row.data) && Over(row.data.status) && SameIdentity(row.data, j)
  }

  // Neither waiting to run nor running.
  predicate Over(st: JobStatus) {
    st != Queued && st != Running
  }

  ghost predicate TasksOk(s: State) {
    forall id :: id in s.tasks ==> id in s.rows && TaskRow(s.rows[id], s.tasks[id])
  }

  ghost predicate BootOk(s: State) {
    && (!Serving(s) ==> s.tasks == map[] && s.decision == NoDecision)
    && (s.disp.Recovering? ==> s.disp.rest <= RunningIds(s.rows))
  }

  // Every job still to be checked in this round is queued and just as it was
  // listed: nobody but the dispatcher touches a queued row.
  ghost predicate TodoOk(s: State) {
    s.disp.Scanning? ==>
      var todo := s.disp.todo;
      && (s.disp.stage != Item ==> todo != [])
      && (forall i, j :: 0 <= i < j < |todo| ==> todo[i].id != todo[j].id)
      && (forall k :: 0 <= k < |todo| && (k > 0 || s.disp.stage != Submit) ==> QueuedAs(s.rows, todo[k]))
      && (s.disp.stage == Submit ==> Claimable(s, todo[0]))
  }

  predicate QueuedAs(rows: Rows, j: Job) {
    j.id in rows && rows[j.id] == RowOf(j) && j.status == Queued
  }

  // Claimed by the dispatcher, not yet given to the pool.
  predicate Claimable(s: State, j: Job) {
    j.id in s.rows && s.rows[j.id].data == j && ClaimedRow(s.rows[j.id]) && j.id !in s.tasks
  }

  // Most rows of the instance that may run at once. A negative limit admits
  // none, and jobs of an unknown instance are never started.
  function Cap(c: Config, instance: string): nat {
    if Exists(c, instance) && Concurrency(c, instance) > 0 then Concurrency(c, instance) else 0
  }

  ghost predicate WithinLimits(c: Config, rows: Rows) {
    forall i :: |RunningIn(rows, i)| <= Cap(c, i)
  }

  ghost predicate OneMutating(rows: Rows) {
    forall i, a, b :: a in MutatingRunningIds(rows, i) && b in MutatingRunningIds(rows, i) ==> a == b
  }

  ghost predicate OnePerSession(rows: Rows) {
    forall sid, a, b :: sid != "" && a in SessionRunningIds(rows, sid) && b in SessionRunningIds(rows, sid) ==> a == b
  }

  ghost predicate Exclusive(c: Config, rows: Rows) {
    WithinLimits(c, rows) && OneMutating(rows) && OnePerSession(rows)
  }

  // What the dispatcher has established for the job it is checking; it stays
  // true while the others go on, for they never start a job.
  predicate Checked(c: Config, rows: Rows, stage: Stage, j: Job) {
    && (stage == Session || stage == Repo || stage == Claim ==>
          Exists(c, j.instance) && |RunningIn(rows, j.instance)| < Concurrency(c, j.instance))
    && (stage == Repo || stage == Claim ==> SessionFree(rows, j))
    && (stage == Claim ==> RepoFree(rows, j))
  }

  ghost predicate CheckedOk(c: Config, s: State) {
    s.disp.Scanning? && s.disp.todo != [] ==> Checked(c, s.rows, s.disp.stage, s.disp.todo[0])
  }

  ghost predicate WakeOk(s: State) {
    && s.notified <= s.rows.Keys && s.unnotified <= s.rows.Keys && s.listed <= s.rows.Keys
    && ((s.disp.Scanning? || s.disp.Waiting?) && !s.wake ==> s.notified <= s.listed)
  }

  // A plan job that has produced its plan and will not run again.
  predicate PlanDone(s: State, p: string) {
    && p in s.rows && PlanJob(s.rows[p].data) && Over(s.rows[p].cols.status) && Over(s.rows[p].data.status)
    && (p in s.tasks ==> s.tasks[p].Finalized?)
  }

  // The decision on a plan has been taken for good.
  predicate Settled(s: State, p: string) {
    && PlanDone(s, p) && s.rows[p].data.status != AwaitingApproval
    && (s.decision.Read? ==> s.decision.job.id != p)
    && (s.decision.Approving? ==> s.decision.job.id != p)
  }

  ghost predicate AwaitingArePlans(rows: Rows) {
    forall a :: a in rows && rows[a].data.status == AwaitingApproval ==> PlanJob(rows[a].data)
  }

  ghost predicate SpawnedFromSettled(s: State) {
    forall a :: a in s.rows && ApprovedFrom(s.rows[a].data).Some? ==> Settled(s, ApprovedFrom(s.rows[a].data).value)
  }

  ghost predicate SpawnedOnce(rows: Rows) {
    forall a, b :: a in rows && b in rows && a != b && ApprovedFrom(rows[a].data).Some?
      ==> ApprovedFrom(rows[a].data) != ApprovedFrom(rows[b].data)
  }

  ghost predicate DecisionOk(s: State) {
    !s.decision.NoDecision? ==>
      && PlanDone(s, s.decision.job.id)
      && SameIdentity(s.rows[s.decision.job.id].data, s.decision.job)
      && (s.decision.Approving? ==> s.rows[s.decision.job.id].data.status != AwaitingApproval)
  }

  ghost predicate ApprovalOk(s: State) {
    AwaitingArePlans(s.rows) && SpawnedFromSettled(s) && SpawnedOnce(s.rows) && DecisionOk(s)
  }

  ghost predicate Inv(c: Config, s: State) {
    && TableOk(s) && TasksOk(s) && BootOk(s) && TodoOk(s)
    && Exclusive(c, s.rows) && CheckedOk(c, s) && WakeOk(s) && ApprovalOk(s)
  }

  // --- How the table may change --------------------------------------------

  // An update of one existing row that keeps the job's identity and never
  // sets a job running that was not.
  predicate Calm(before: Row, after: Row) {
    && SameIdentity(before.data, after.data)
    && Consistent(after)
    && (after.cols.status == Running ==> before.cols.status == Running)
  }

  // Rows appear queued or are updated; `started` is the only one that may
  // newly run.
  ghost predicate Evolves(rows: Rows, later: Rows, started: set<string>) {
    && rows.Keys <= later.Keys
    && (forall id :: id in rows ==>
          && SameIdentity(rows[id].data, later[id].data) && Consistent(later[id])
          && (later[id].cols.status == Running && id !in started ==> rows[id].cols.status == Running))
    && (forall id :: id in later && id !in rows ==> IsQueued(later, id))
  }

  lemma ColumnsAreIdentity(rows: Rows, later: Rows, id: string)
    requires WellFormed(rows) && WellFormed(later)
    requires id in rows && id in later && SameIdentity(rows[id].data, later[id].data)
    ensures rows[id].cols.instance == later[id].cols.instance
    ensures rows[id].cols.sessionId == later[id].cols.sessionId
    ensures rows[id].cols.deliverable == later[id].cols.deliverable
  {
  }

  // The running sets can only shrink when nobody is started.
  lemma RunningShrinks(rows: Rows, later: Rows)
    requires WellFormed(rows) && WellFormed(later) && Evolves(rows, later, {})
    ensures forall i :: RunningIn(later, i) <= RunningIn(rows, i)
    ensures forall i :: MutatingRunningIds(later, i) <= MutatingRunningIds(rows, i)
    ensures forall sid :: SessionRunningIds(later, sid) <= SessionRunningIds(rows, sid)
  {
    forall id | id in later && later[id].cols.status == Running
      ensures id in rows && rows[id].cols.status == Running
      ensures rows[id].cols.instance == later[id].cols.instance
      ensures rows[id].cols.sessionId == later[id].cols.sessionId
      ensures rows[id].cols.deliverable == later[id].cols.deliverable
    {
      ColumnsAreIdentity(rows, later, id);
    }
  }

  lemma ExclusiveKept(c: Config, rows: Rows, later: Rows)
    requires WellFormed(rows) && WellFormed(later) && Evolves(rows, later, {})
    requires Exclusive(c, rows)
    ensures Exclusive(c, later)
  {
    RunningShrinks(rows, later);
    forall i
      ensures |RunningIn(later, i)| <= Cap(c, i)
    {
      SubsetSize(RunningIn(later, i), RunningIn(rows, i));
    }
  }

  lemma CheckedKept(c: Config, rows: Rows, later: Rows, stage: Stage, j: Job)
    requires WellFormed(rows) && WellFormed(later) && Evolves(rows, later, {})
    requires Checked(c, rows, stage, j)
    ensures Checked(c, later, stage, j)
  {
    RunningShrinks(rows, later);
    SubsetSize(RunningIn(later, j.instance), RunningIn(rows, j.instance));
  }

  lemma KeysKept(rows: Rows, later: Rows)
    requires UniqueKeys(rows)
    requires later.Keys == rows.Keys && forall id :: id in rows ==> SameIdentity(rows[id].data, later[id].data)
    ensures UniqueKeys(later)
  {
    forall a, b | a in later && b in later && a != b
      ensures !SameKey(later[a].data, later[b].data)
    {
      assert !SameKey(rows[a].data, rows[b].data);
    }
  }

  // --- The claim: the only step that starts a job --------------------------

  lemma RunningAfterClaim(rows: Rows, j: Job, i: string)
    requires WellFormed(rows) && QueuedAs(rows, j)
    ensures RunningIn(Claimed(rows, j.id), i) == RunningIn(rows, i) + (if i == j.instance then {j.id} else {})
    ensures j.id !in RunningIn(rows, i)
  {
  }

  lemma ClaimKeepsLimits(c: Config, rows: Rows, j: Job)
    requires WellFormed(rows) && QueuedAs(rows, j) && WithinLimits(c, rows) && Checked(c, rows, Claim, j)
    ensures WithinLimits(c, Claimed(rows, j.id))
  {
    forall i
      ensures |RunningIn(Claimed(rows, j.id), i)| <= Cap(c, i)
    {
      RunningAfterClaim(rows, j, i);
    }
  }

  lemma ClaimKeepsOneMutating(c: Config, rows: Rows, j: Job)
    requires WellFormed(rows) && QueuedAs(rows, j) && OneMutating(rows) && Checked(c, rows, Claim, j)
    ensures OneMutating(Claimed(rows, j.id))
  {
    var later := Claimed(rows, j.id);
    forall i, a | a in MutatingRunningIds(later, i)
      ensures a in MutatingRunningIds(rows, i) || (a == j.id && i == j.instance && j.deliverable.MutatesCode())
    {
    }
  }

  lemma ClaimKeepsOnePerSession(c: Config, rows: Rows, j: Job)
    requires WellFormed(rows) && QueuedAs(rows, j) && OnePerSession(rows) && Checked(c, rows, Claim, j)
    ensures OnePerSession(Claimed(rows, j.id))
  {
    var later := Claimed(rows, j.id);
    forall sid, a | a in SessionRunningIds(later, sid)
      ensures a in SessionRunningIds(rows, sid) || (a == j.id && j.sessionId == Some(sid))
    {
    }
  }

  // --- One row changes -----------------------------------------------------

  // The parts of the invariant about the table, when row `id` becomes `row`.
  lemma RowUpdateEvolves(rows: Rows, id: string, row: Row)
    requires WellFormed(rows) && UniqueKeys(rows) && id in rows && Calm(rows[id], row)
    ensures Evolves(rows, rows[id := row], {})
    ensures WellFormed(rows[id := row]) && UniqueKeys(rows[id := row])
  {
    KeysKept(rows, rows[id := row]);
  }

  // Step `s` to `s2` changes row `id`, which is not queued, and possibly the
  // thread of `id`; everything else stays.
  ghost predicate Local(s: State, s2: State, id: string) {
    && id in s.rows && s.rows[id].cols.status != Queued && id in s2.rows
    && s2.rows == s.rows[id := s2.rows[id]]
    && Calm(s.rows[id], s2.rows[id])
    && (forall k :: k in s2.tasks && k != id ==> k in s.tasks && s2.tasks[k] == s.tasks[k])
    && (id in s2.tasks ==> id in s.tasks && TaskRow(s2.rows[id], s2.tasks[id]))
    && s2.wake == s.wake && s2.unnotified == s.unnotified && s2.notified == s.notified && s2.listed == s.listed
  }

  lemma LocalKeepsTable(c: Config, s: State, s2: State, id: string)
    requires TableOk(s) && Exclusive(c, s.rows) && Local(s, s2, id)
    ensures TableOk(s2) && Evolves(s.rows, s2.rows, {}) && Exclusive(c, s2.rows)
  {
    RowUpdateEvolves(s.rows, id, s2.rows[id]);
    ExclusiveKept(c, s.rows, s2.rows);
  }

  lemma LocalKeepsTodo(c: Config, s: State, s2: State, id: string)
    requires TableOk(s) && TodoOk(s) && Local(s, s2, id) && s2.disp == s.disp
    requires s.disp.Scanning? && s.disp.stage == Submit ==> s.disp.todo[0].id != id
    ensures TodoOk(s2)
  {
    if s.disp.Scanning? {
      forall j | QueuedAs(s.rows, j)
        ensures QueuedAs(s2.rows, j)
      {
      }
    }
  }

  lemma LocalKeepsChecked(c: Config, s: State, s2: State, id: string)
    requires TableOk(s) && TableOk(s2) && Evolves(s.rows, s2.rows, {}) && CheckedOk(c, s) && s2.disp == s.disp
    ensures CheckedOk(c, s2)
  {
    if s.disp.Scanning? && s.disp.todo != [] {
      CheckedKept(c, s.rows, s2.rows, s.disp.stage, s.disp.todo[0]);
    }
  }

  lemma LocalKeepsRest(c: Config, s: State, s2: State, id: string)
    requires Inv(c, s) && Local(s, s2, id) && s2.disp == s.disp
    requires s.disp.Scanning? && s.disp.stage == Submit ==> s.disp.todo[0].id != id
    ensures TableOk(s2) && TasksOk(s2) && TodoOk(s2) && WakeOk(s2)
    ensures Exclusive(c, s2.rows) && CheckedOk(c, s2)
  {
    LocalKeepsTable(c, s, s2, id);
    LocalKeepsTasks(s, s2, id);
    LocalKeepsTodo(c, s, s2, id);
    LocalKeepsChecked(c, s, s2, id);
    LocalKeepsEvent(s, s2, id);
  }

  lemma LocalKeepsTasks(s: State, s2: State, id: string)
    requires TasksOk(s) && Local(s, s2, id)
    ensures TasksOk(s2)
  {
  }

  lemma LocalKeepsEvent(s: State, s2: State, id: string)
    requires WakeOk(s) && Local(s, s2, id) && s2.disp == s.disp
    ensures WakeOk(s2)
  {
  }

  // --- Pool threads --------------------------------------------------------

  // One step of a pool thread, seen on its own row.
  lemma TaskStepLocal(row: Row, ph: Phase, act: TaskAct, p: bool)
    requires TaskRow(row, ph) && TaskEnabled(ph, act)
    ensures row.cols.status != Queued
    ensures var (row2, ph2) := TaskStep(row, ph, act, p);
      && Calm(row, row2)
      && (ph2.Some? ==> TaskRow(row2, ph2.value))
  {
  }

  // Pool threads and approval: a plan that is done stays done, and a row only
  // comes to await approval as a plan job that was not done before.
  lemma TaskStepApproval(row: Row, ph: Phase, act: TaskAct, p: bool)
    requires TaskRow(row, ph) && TaskEnabled(ph, act)
    ensures var (row2, ph2) := TaskStep(row, ph, act, p);
      && (row2.data.status == AwaitingApproval && row.data.status != AwaitingApproval ==>
            PlanJob(row2.data) && !ph.Finalized?)
      && (ph.Finalized? ==> ph2.None? && Over(row2.cols.status) && Over(row2.data.status))
      && (ph.Finalized? && row.data.status != AwaitingApproval ==> row2.data.status != AwaitingApproval)
  {
  }

  // Plans that are settled stay settled: enough for the jobs spawned from
  // them, as long as jobs keep their identity and none is created.
  lemma SpawnedKept(s: State, s2: State)
    requires SpawnedFromSettled(s) && SpawnedOnce(s.rows)
    requires s2.rows.Keys == s.rows.Keys
    requires forall a :: a in s.rows ==> ApprovedFrom(s2.rows[a].data) == ApprovedFrom(s.rows[a].data)
    requires forall p :: Settled(s, p) ==> Settled(s2, p)
    ensures SpawnedFromSettled(s2) && SpawnedOnce(s2.rows)
  {
    forall a | a in s2.rows && ApprovedFrom(s2.rows[a].data).Some?
      ensures Settled(s2, ApprovedFrom(s2.rows[a].data).value)
    {
      assert Settled(s, ApprovedFrom(s.rows[a].data).value);
    }
  }

  // One row changes: a plan that is done stays done, and only a plan job comes
  // to await approval.
  ghost predicate PlanKept(s: State, s2: State, id: string)
    requires id in s.rows && id in s2.rows
  {
    && (s2.rows[id].data.status == AwaitingApproval ==>
          s.rows[id].data.status == AwaitingApproval || PlanJob(s2.rows[id].data))
    && (PlanDone(s, id) ==>
          && Over(s2.rows[id].cols.status) && Over(s2.rows[id].data.status)
          && (id in s2.tasks ==> s2.tasks[id].Finalized?)
          && (s.rows[id].data.status != AwaitingApproval ==> s2.rows[id].data.status != AwaitingApproval))
  }

  lemma LocalKeepsApproval(s: State, s2: State, id: string)
    requires ApprovalOk(s) && Local(s, s2, id) && s2.decision == s.decision && PlanKept(s, s2, id)
    ensures ApprovalOk(s2)
  {
    forall q | PlanDone(s, q)
      ensures PlanDone(s2, q)
              && (s.rows[q].data.status != AwaitingApproval ==> s2.rows[q].data.status != AwaitingApproval)
    {
    }
    SpawnedKept(s, s2);
  }

  // The effect of a thread's step, seen on its row and its phase.
  function Stepped(s: State, id: string, row: Row, ph: Option<Phase>): State {
    s.(rows := s.rows[id := row], tasks := if ph.Some? then s.tasks[id := ph.value] else s.tasks - {id})
  }

  lemma SteppedIsLocal(s: State, id: string, row: Row, ph: Option<Phase>)
    requires id in s.rows && s.rows[id].cols.status != Queued && id in s.tasks && Calm(s.rows[id], row)
    requires ph.Some? ==> TaskRow(row, ph.value)
    ensures Local(s, Stepped(s, id, row, ph), id)
  {
  }

  lemma TaskIsLocal(c: Config, s: State, id: string, act: TaskAct)
    requires TasksOk(s) && Enabled(c, s, Task(id, act))
    ensures Local(s, Do(c, s, Task(id, act)), id)
    ensures Do(c, s, Task(id, act)).disp == s.disp && Do(c, s, Task(id, act)).decision == s.decision
  {
    var p := s.rows[id].data.instance in s.paused;
    TaskStepLocal(s.rows[id], s.tasks[id], act, p);
    SteppedIsLocal(s, id, TaskStep(s.rows[id], s.tasks[id], act, p).0, TaskStep(s.rows[id], s.tasks[id], act, p).1);
  }

  lemma TaskKeepsApproval(c: Config, s: State, id: string, act: TaskAct)
    requires TasksOk(s) && ApprovalOk(s) && Enabled(c, s, Task(id, act))
    ensures ApprovalOk(Do(c, s, Task(id, act)))
  {
    TaskIsLocal(c, s, id, act);
    TaskStepApproval(s.rows[id], s.tasks[id], act, s.rows[id].data.instance in s.paused);
    LocalKeepsApproval(s, Do(c, s, Task(id, act)), id);
  }

  lemma TaskInv(c: Config, s: State, id: string, act: TaskAct)
    requires Inv(c, s) && Enabled(c, s, Task(id, act))
    ensures Inv(c, Do(c, s, Task(id, act)))
  {
    TaskIsLocal(c, s, id, act);
    TaskKeepsApproval(c, s, id, act);
    ThreadIsNotBeingClaimed(s, id);
    LocalInv(c, s, Do(c, s, Task(id, act)), id);
  }

  lemma ThreadIsNotBeingClaimed(s: State, id: string)
    requires BootOk(s) && TodoOk(s) && id in s.tasks
    ensures Serving(s)
    ensures s.disp.Scanning? && s.disp.stage == Submit ==> s.disp.todo[0].id != id
  {
  }

  lemma LocalInv(c: Config, s: State, s2: State, id: string)
    requires Inv(c, s) && Local(s, s2, id) && ApprovalOk(s2) && Serving(s) && s2.disp == s.disp
    requires s.disp.Scanning? && s.disp.stage == Submit ==> s.disp.todo[0].id != id
    ensures Inv(c, s2)
  {
    LocalKeepsRest(c, s, s2, id);
  }
}
