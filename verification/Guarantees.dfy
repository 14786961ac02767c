// What the engine promises about whole runs: any number of requests, rounds,
// job runs, decisions, crashes and reboots, interleaved in any way.

module Guarantees {
  import opened Models
  import opened Store
  import opened Dispatch
  import opened Params
  import opened System
  import opened Invariant
  import opened Steps

  // --- Mutual exclusion ----------------------------------------------------

  lemma PairwiseEqualIsSmall(ids: set<string>)
    requires forall a, b :: a in ids && b in ids ==> a == b
    ensures |ids| <= 1
  {
    if ids != {} {
      var a :| a in ids;
      assert ids == {a};
    }
  }

  // At every moment an instance has at most its limit of running rows and at
  // most one of them mutates code, and a session has at most one running row,
  // although each check is made apart from the others and from the claim.
  lemma RunningIsBounded(c: Config, states: seq<State>, actions: seq<Action>, k: nat, instance: string, session: string)
    requires IsRun(c, states, actions) && k <= |actions|
    ensures |RunningIn(states[k].rows, instance)| <= Cap(c, instance)
    ensures |MutatingRunningIds(states[k].rows, instance)| <= 1
    ensures session != "" ==> |SessionRunningIds(states[k].rows, session)| <= 1
  {
    ReachableInv(c, states, actions, k);
    PairwiseEqualIsSmall(MutatingRunningIds(states[k].rows, instance));
    if session != "" {
      PairwiseEqualIsSmall(SessionRunningIds(states[k].rows, session));
    }
  }

  // A running row of `instance`, read off the columns.
  predicate Runs(row: Row, instance: string) {
    row.cols.status == Running && row.cols.instance == instance
  }

  // The same bound said from the configuration itself: the instance's own
  // limit if it has one, the default if that is absent or 0, and nothing runs
  // where the limit is negative or the instance is missing.
  lemma OwnLimitIsKept(c: Config, states: seq<State>, actions: seq<Action>, k: nat, instance: string, ids: set<string>)
    requires IsRun(c, states, actions) && k <= |actions|
    requires forall id :: id in ids ==> id in states[k].rows && Runs(states[k].rows[id], instance)
    ensures instance !in c.concurrency ==> ids == {}
    ensures instance in c.concurrency ==>
      match c.concurrency[instance]
      case Some(n) =>
        if n > 0 then |ids| <= n
        else if n < 0 then ids == {}
        else (if c.defaultConcurrency > 0 then |ids| <= c.defaultConcurrency else ids == {})
      case None => if c.defaultConcurrency > 0 then |ids| <= c.defaultConcurrency else ids == {}
  {
    RunningIsBounded(c, states, actions, k, instance, "");
    assert ids <= RunningIn(states[k].rows, instance);
    SubsetSize(ids, RunningIn(states[k].rows, instance));
  }

  // The conditional update of a claim always finds its row still queued, and
  // the row is the very job that was listed, so nothing is checked against or
  // later restored from stale data.
  lemma ClaimAlwaysWins(c: Config, states: seq<State>, actions: seq<Action>, k: nat)
    requires IsRun(c, states, actions) && k < |actions|
    requires states[k].disp.Scanning? && states[k].disp.stage == Claim && actions[k] == Advance
    requires states[k].disp.todo != []
    ensures var j := states[k].disp.todo[0];
      && j.id in states[k].rows && states[k].rows[j.id] == RowOf(j) && j.status == Queued
      && j.id in RunningIn(states[k + 1].rows, j.instance)
  {
    ReachableInv(c, states, actions, k);
    ClaimWins(c, states[k]);
  }

  lemma ClaimWins(c: Config, s: State)
    requires TodoOk(s) && s.disp.Scanning? && s.disp.stage == Claim && s.disp.todo != []
    ensures var j := s.disp.todo[0];
      && QueuedAs(s.rows, j) && j.id in RunningIn(Do(c, s, Advance).rows, j.instance)
  {
    assert QueuedAs(s.rows, s.disp.todo[0]);
  }

  // --- Columns and data ----------------------------------------------------

  // The thread has not saved `running` yet.
  predicate NotStarted(ph: Phase) {
    ph.Submitted? || ph.Loaded? || ph.Cleared? || ph.Barred?
  }

  // Column by column, except for the status.
  predicate ColumnsTell(cols: Columns, j: Job) {
    && cols.id == j.id && cols.instance == j.instance && cols.deliverable == j.deliverable && cols.mode == j.mode
    && cols.sessionId == j.sessionId && cols.threadKey == j.threadKey && cols.idempotencyKey == j.idempotencyKey
    && cols.costUsd == j.usage.costUsd && cols.errorClass == j.errorClass && cols.prUrl == j.prUrl
    && cols.attempts == j.attempts
    && cols.createdAt == j.createdAt && cols.startedAt == j.startedAt && cols.finishedAt == j.finishedAt
  }

  // Columns always agree with the data, except for the status of a job that
  // is claimed and that no thread has started.
  lemma ColumnsAgree(c: Config, states: seq<State>, actions: seq<Action>, k: nat, id: string)
    requires IsRun(c, states, actions) && k <= |actions| && id in states[k].rows
    ensures var row := states[k].rows[id];
      || row == RowOf(row.data)
      || (ClaimedRow(row) && (id in states[k].tasks ==> NotStarted(states[k].tasks[id])))
    ensures var row := states[k].rows[id];
      && ColumnsTell(row.cols, row.data)
      && (row.cols.status == row.data.status || (row.cols.status == Running && row.data.status == Queued))
  {
    ReachableInv(c, states, actions, k);
    var s := states[k];
    if id in s.tasks {
      assert TaskRow(s.rows[id], s.tasks[id]);
    }
  }

  // So a listing by column returns jobs whose data says queued.
  lemma ListingIsQueued(c: Config, states: seq<State>, actions: seq<Action>, k: nat, todo: seq<Job>)
    requires IsRun(c, states, actions) && k <= |actions| && IsListing(states[k].rows, LISTING_LIMIT, todo)
    ensures forall n :: 0 <= n < |todo| ==> todo[n].status == Queued
  {
    ReachableInv(c, states, actions, k);
    forall n | 0 <= n < |todo|
      ensures todo[n].status == Queued
    {
      assert IsQueued(states[k].rows, todo[n].id);
    }
  }

  // --- Wake-ups ------------------------------------------------------------

  predicate BeginsListing(s: State, a: Action) {
    a.ListQueue? || (a.RoundFails? && s.disp.Listing?)
  }

  // The last listing before step `k` began at step `m`.
  ghost predicate LastListing(states: seq<State>, actions: seq<Action>, k: nat, m: nat)
    requires |states| == |actions| + 1 && k <= |actions|
  {
    && m < k && BeginsListing(states[m], actions[m])
    && forall n :: m < n < k ==> !BeginsListing(states[n], actions[n])
  }

  lemma ListingIsRecorded(c: Config, s: State, a: Action)
    requires Enabled(c, s, a)
    ensures Do(c, s, a).listed == if BeginsListing(s, a) then s.rows.Keys else s.listed
  {
  }

  lemma LastListingLasts(states: seq<State>, actions: seq<Action>, k: nat, m: nat)
    requires |states| == |actions| + 1 && 0 < k <= |actions|
    requires LastListing(states, actions, k - 1, m) && !BeginsListing(states[k - 1], actions[k - 1])
    ensures LastListing(states, actions, k, m)
  {
  }

  ghost predicate ListedAtLast(states: seq<State>, actions: seq<Action>, k: nat)
    requires |states| == |actions| + 1 && k <= |actions|
  {
    states[k].listed == {}
    || exists m: nat :: LastListing(states, actions, k, m) && states[k].listed == states[m].rows.Keys
  }

  ghost predicate Recorded(states: seq<State>, actions: seq<Action>, k: nat)
    requires |states| == |actions| + 1 && k < |actions|
  {
    states[k + 1].listed == if BeginsListing(states[k], actions[k]) then states[k].rows.Keys else states[k].listed
  }

  lemma StepIsRecorded(c: Config, states: seq<State>, actions: seq<Action>, k: nat)
    requires IsRun(c, states, actions) && k < |actions|
    ensures Recorded(states, actions, k)
  {
    ListingIsRecorded(c, states[k], actions[k]);
  }

  lemma NextListed(states: seq<State>, actions: seq<Action>, k: nat)
    requires |states| == |actions| + 1 && k < |actions|
    requires Recorded(states, actions, k) && ListedAtLast(states, actions, k)
    ensures ListedAtLast(states, actions, k + 1)
  {
    if BeginsListing(states[k], actions[k]) {
      assert LastListing(states, actions, k + 1, k);
    } else if states[k].listed != {} {
      var m: nat :| LastListing(states, actions, k, m) && states[k].listed == states[m].rows.Keys;
      LastListingLasts(states, actions, k + 1, m);
    }
  }

  lemma {:induction false} AlwaysListed(states: seq<State>, actions: seq<Action>, k: nat)
    requires |states| == |actions| + 1 && k <= |actions| && states[0].listed == {}
    requires forall i :: 0 <= i < k ==> Recorded(states, actions, i)
    ensures ListedAtLast(states, actions, k)
    decreases k
  {
    if k > 0 {
      AlwaysListed(states, actions, k - 1);
      NextListed(states, actions, k - 1);
    }
  }

  lemma ListedIsLastListing(c: Config, states: seq<State>, actions: seq<Action>, k: nat)
    requires IsRun(c, states, actions) && k <= |actions|
    ensures ListedAtLast(states, actions, k)
  {
    forall i | 0 <= i < k
      ensures Recorded(states, actions, i)
    {
      StepIsRecorded(c, states, actions, i);
    }
    AlwaysListed(states, actions, k);
  }

  lemma NotifiedGrows(c: Config, s: State, a: Action)
    requires Enabled(c, s, a)
    ensures s.notified <= Do(c, s, a).notified
    ensures a.Notify? ==> a.id in Do(c, s, a).notified
  {
  }

  lemma {:induction false} NotifiedStays(c: Config, states: seq<State>, actions: seq<Action>, i: nat, k: nat,
      id: string)
    requires IsRun(c, states, actions) && i < k <= |actions| && actions[i] == Notify(id)
    ensures id in states[k].notified
  {
    NotifiedGrows(c, states[k - 1], actions[k - 1]);
    if i < k - 1 {
      NotifiedStays(c, states, actions, i, k - 1, id);
    }
  }

  // Whenever the dispatcher is blocked with the event clear, every job whose
  // creator has finished notify() was stored when the last listing began.
  lemma NoLostWakeup(c: Config, states: seq<State>, actions: seq<Action>, i: nat, k: nat, id: string)
    requires IsRun(c, states, actions) && i < k <= |actions|
    requires actions[i] == Notify(id)
    requires states[k].disp == Waiting && !states[k].wake
    ensures exists m: nat :: LastListing(states, actions, k, m) && id in states[m].rows
  {
    ReachableInv(c, states, actions, k);
    NotifiedStays(c, states, actions, i, k, id);
    ListedIsLastListing(c, states, actions, k);
    assert id in states[k].listed;
    var m: nat :| LastListing(states, actions, k, m) && states[k].listed == states[m].rows.Keys;
    assert id in states[m].rows;
  }

  // --- Jobs keep their identity --------------------------------------------

  ghost predicate Keeps(rows: Rows, later: Rows) {
    forall id :: id in rows ==> id in later && SameIdentity(rows[id].data, later[id].data)
  }

  lemma TaskKeeps(c: Config, s: State, id: string, act: TaskAct)
    requires TasksOk(s) && Enabled(c, s, Task(id, act))
    ensures Keeps(s.rows, Do(c, s, Task(id, act)).rows)
  {
    TaskIsLocal(c, s, id, act);
  }

  lemma VerdictKeeps(c: Config, s: State)
    requires TasksOk(s) && DecisionOk(s) && Enabled(c, s, DecideSave)
    ensures Keeps(s.rows, Do(c, s, DecideSave).rows)
  {
    VerdictIsLocal(s);
  }

  lemma AdvanceKeeps(c: Config, s: State)
    requires Enabled(c, s, Advance)
    ensures Keeps(s.rows, Do(c, s, Advance).rows)
  {
    if s.disp.todo != [] {
      ClaimKeeps(s.rows, s.disp.todo[0].id);
    }
  }

  lemma ClaimKeeps(rows: Rows, id: string)
    ensures Keeps(rows, rows) && Keeps(rows, Claimed(rows, id))
  {
  }

  lemma RefusalKeeps(c: Config, s: State)
    requires TodoOk(s) && Enabled(c, s, SubmitRefused)
    ensures Keeps(s.rows, Do(c, s, SubmitRefused).rows)
  {
    assert Claimable(s, s.disp.todo[0]);
  }

  lemma RecoveryKeeps(c: Config, s: State, id: string)
    requires Enabled(c, s, RecoverOne(id))
    ensures Keeps(s.rows, Do(c, s, RecoverOne(id)).rows)
  {
  }

  predicate RewritesRow(a: Action) {
    a.Task? || a.DecideSave? || a.Advance? || a.SubmitRefused? || a.RecoverOne?
  }

  // Every other step leaves the existing rows and their threads alone, or
  // ends all threads.
  lemma OtherStepsSpare(c: Config, s: State, a: Action, id: string)
    requires Enabled(c, s, a) && !RewritesRow(a) && id in s.rows
    ensures var s2 := Do(c, s, a);
      id in s2.rows && s2.rows[id] == s.rows[id] && (s2.tasks == s.tasks || s2.tasks == map[])
  {
  }

  lemma StepKeeps(c: Config, s: State, a: Action)
    requires TasksOk(s) && TodoOk(s) && DecisionOk(s) && Enabled(c, s, a)
    ensures Keeps(s.rows, Do(c, s, a).rows)
  {
    if !RewritesRow(a) {
      forall id | id in s.rows
        ensures id in Do(c, s, a).rows && SameIdentity(s.rows[id].data, Do(c, s, a).rows[id].data)
      {
        OtherStepsSpare(c, s, a, id);
      }
    } else if a.Task? {
      TaskKeeps(c, s, a.id, a.act);
    } else if a.DecideSave? {
      VerdictKeeps(c, s);
    } else if a.RecoverOne? {
      RecoveryKeeps(c, s, a.id);
    } else if a.Advance? {
      AdvanceKeeps(c, s);
    } else {
      RefusalKeeps(c, s);
    }
  }

  lemma NextKeeps(c: Config, states: seq<State>, actions: seq<Action>, k: nat)
    requires IsRun(c, states, actions) && k < |actions|
    ensures Keeps(states[k].rows, states[k + 1].rows)
  {
    ReachableInv(c, states, actions, k);
    StepKeeps(c, states[k], actions[k]);
  }

  lemma {:induction false} RunKeeps(c: Config, states: seq<State>, actions: seq<Action>, i: nat, j: nat)
    requires IsRun(c, states, actions) && i <= j <= |actions|
    ensures Keeps(states[i].rows, states[j].rows)
  {
    if i < j {
      RunKeeps(c, states, actions, i, j - 1);
      NextKeeps(c, states, actions, j - 1);
    }
  }

  // --- Code-mutating work is executed at most once --------------------------

  // A code-mutating job that has been executed: it is never queued again, and
  // no thread of it is before execution.
  predicate Spent(s: State, id: string) {
    && id in s.rows && s.rows[id].data.deliverable.MutatesCode()
    && s.rows[id].cols.status != Queued && s.rows[id].data.status != Queued
    && (id in s.tasks ==> Entered(s.tasks[id]))
  }

  predicate Entered(ph: Phase) {
    ph.Executing? || ph.Returned? || ph.Finalized?
  }

  lemma EnteredStaysSo(row: Row, ph: Phase, act: TaskAct, p: bool)
    requires TaskRow(row, ph) && Entered(ph) && TaskEnabled(ph, act)
    ensures var (row2, ph2) := TaskStep(row, ph, act, p);
      && row2.cols.status != Queued && row2.data.status != Queued
      && row2.data.deliverable == row.data.deliverable && (ph2.Some? ==> Entered(ph2.value))
  {
  }

  lemma TaskKeepsSpent(c: Config, s: State, k: string, act: TaskAct, id: string)
    requires TasksOk(s) && Enabled(c, s, Task(k, act)) && Spent(s, id)
    ensures Spent(Do(c, s, Task(k, act)), id)
  {
    if k == id {
      EnteredStaysSo(s.rows[id], s.tasks[id], act, s.rows[id].data.instance in s.paused);
    }
  }

  lemma VerdictKeepsSpent(c: Config, s: State, id: string)
    requires TasksOk(s) && DecisionOk(s) && Enabled(c, s, DecideSave) && Spent(s, id)
    ensures Spent(Do(c, s, DecideSave), id)
  {
    VerdictIsLocal(s);
  }

  lemma AdvanceKeepsSpent(c: Config, s: State, id: string)
    requires TodoOk(s) && Enabled(c, s, Advance) && Spent(s, id)
    ensures Spent(Do(c, s, Advance), id)
  {
    if s.disp.todo != [] && s.disp.stage == Submit {
      assert Claimable(s, s.disp.todo[0]);
    }
  }

  lemma RefusalKeepsSpent(c: Config, s: State, id: string)
    requires TodoOk(s) && Enabled(c, s, SubmitRefused) && Spent(s, id)
    ensures Spent(Do(c, s, SubmitRefused), id)
  {
    assert Claimable(s, s.disp.todo[0]);
  }

  lemma RecoveryKeepsSpent(c: Config, s: State, k: string, id: string)
    requires TableOk(s) && Enabled(c, s, RecoverOne(k)) && Spent(s, id)
    ensures Spent(Do(c, s, RecoverOne(k)), id)
  {
  }

  lemma StaysSpent(c: Config, s: State, a: Action, id: string)
    requires TableOk(s) && TasksOk(s) && TodoOk(s) && DecisionOk(s) && Enabled(c, s, a) && Spent(s, id)
    ensures Spent(Do(c, s, a), id)
  {
    if a.Advance? || a.SubmitRefused? {
      DispatcherKeepsSpent(c, s, a, id);
    } else if RewritesRow(a) {
      RewritesKeepSpent(c, s, a, id);
    } else {
      OthersKeepSpent(c, s, a, id);
    }
  }

  lemma DispatcherKeepsSpent(c: Config, s: State, a: Action, id: string)
    requires TodoOk(s) && Enabled(c, s, a) && (a.Advance? || a.SubmitRefused?) && Spent(s, id)
    ensures Spent(Do(c, s, a), id)
  {
    if a.Advance? {
      AdvanceKeepsSpent(c, s, id);
    } else {
      RefusalKeepsSpent(c, s, id);
    }
  }

  lemma RewritesKeepSpent(c: Config, s: State, a: Action, id: string)
    requires TableOk(s) && TasksOk(s) && DecisionOk(s) && Enabled(c, s, a) && Spent(s, id)
    requires a.Task? || a.DecideSave? || a.RecoverOne?
    ensures Spent(Do(c, s, a), id)
  {
    if a.Task? {
      TaskKeepsSpent(c, s, a.id, a.act, id);
    } else if a.DecideSave? {
      VerdictKeepsSpent(c, s, id);
    } else {
      RecoveryKeepsSpent(c, s, a.id, id);
    }
  }

  lemma OthersKeepSpent(c: Config, s: State, a: Action, id: string)
    requires Enabled(c, s, a) && !RewritesRow(a) && Spent(s, id)
    ensures Spent(Do(c, s, a), id)
  {
    OtherStepsSpare(c, s, a, id);
  }

  lemma NextSpent(c: Config, states: seq<State>, actions: seq<Action>, k: nat, id: string)
    requires IsRun(c, states, actions) && k < |actions| && Spent(states[k], id)
    ensures Spent(states[k + 1], id)
  {
    ReachableInv(c, states, actions, k);
    StaysSpent(c, states[k], actions[k], id);
  }

  lemma {:induction false} SpentForever(c: Config, states: seq<State>, actions: seq<Action>, i: nat, j: nat, id: string)
    requires IsRun(c, states, actions) && i <= j <= |actions| && Spent(states[i], id)
    ensures Spent(states[j], id)
  {
    if i < j {
      SpentForever(c, states, actions, i, j - 1, id);
      NextSpent(c, states, actions, j - 1, id);
    }
  }

  lemma EnterSpends(c: Config, s: State, id: string)
    requires TasksOk(s) && Enabled(c, s, Task(id, Enter)) && s.rows[id].data.deliverable.MutatesCode()
    ensures Spent(Do(c, s, Task(id, Enter)), id)
  {
    assert TaskRow(s.rows[id], s.tasks[id]);
  }

  lemma EnteredIsSpent(c: Config, states: seq<State>, actions: seq<Action>, i: nat, id: string)
    requires IsRun(c, states, actions) && i < |actions| && actions[i] == Task(id, Enter)
    requires id in states[i].rows && states[i].rows[id].data.deliverable.MutatesCode()
    ensures Spent(states[i + 1], id)
  {
    ReachableInv(c, states, actions, i);
    EnterSpends(c, states[i], id);
  }

  lemma SpentIsNotEntered(c: Config, s: State, id: string)
    requires Spent(s, id)
    ensures !Enabled(c, s, Task(id, Enter))
  {
  }

  lemma NoSecondEntry(c: Config, states: seq<State>, actions: seq<Action>, i: nat, j: nat, id: string)
    requires IsRun(c, states, actions) && i < j < |actions|
    requires actions[i] == Task(id, Enter) && id in states[i].rows && states[i].rows[id].data.deliverable.MutatesCode()
    ensures actions[j] != Task(id, Enter)
  {
    EnteredIsSpent(c, states, actions, i, id);
    SpentForever(c, states, actions, i + 1, j, id);
    SpentIsNotEntered(c, states[j], id);
  }

  // Over any run, crashes and reboots included, a code-mutating job enters
  // _execute_with_retries at most once.
  lemma MutatingJobRunsOnce(c: Config, states: seq<State>, actions: seq<Action>, i: nat, j: nat, id: string)
    requires IsRun(c, states, actions) && i < |actions| && j < |actions|
    requires actions[i] == Task(id, Enter) && actions[j] == Task(id, Enter)
    requires states[i].rows[id].data.deliverable.MutatesCode()
    ensures i == j
  {
    if i < j {
      NoSecondEntry(c, states, actions, i, j, id);
    } else if j < i {
      RunKeeps(c, states, actions, j, i);
      NoSecondEntry(c, states, actions, j, i, id);
    }
  }

  // What a crash and reboot make of a running job: queued again exactly when
  // it is read-only, interrupted exactly when it mutates code.
  lemma RebootFate(c: Config, s: State, id: string)
    requires Inv(c, s) && id in s.rows && s.rows[id].cols.status == Running
    ensures var s2 := Do(c, Do(c, s, Crash), BootList);
      && Enabled(c, s2, RecoverOne(id))
      && var row := Do(c, s2, RecoverOne(id)).rows[id];
         && (row.cols.status == Queued <==> row.data.deliverable.ReadOnly())
         && (row.cols.status == Interrupted <==> row.data.deliverable.MutatesCode())
         && row == RowOf(row.data) && SameIdentity(row.data, s.rows[id].data)
  {
  }

  // --- Plan, approve, apply -------------------------------------------------

  // The job a step creates, if any.
  function Creates(s: State, a: Action): Option<Job> {
    match a
    case HookCreate(j, _, _) => Some(j)
    case OperatorCreate(j) => Some(j)
    case Spawn(newId, now) => if s.decision.Approving? then Some(ApplyJob(s.decision.job, newId, now)) else None
    case _ => None
  }

  lemma {:induction false} EveryRowWasCreated(c: Config, states: seq<State>, actions: seq<Action>, k: nat, id: string)
    returns (i: nat)
    requires IsRun(c, states, actions) && k <= |actions| && id in states[k].rows
    ensures i < k && Creates(states[i], actions[i]).Some?
    ensures SameIdentity(Creates(states[i], actions[i]).value, states[k].rows[id].data)
    ensures Creates(states[i], actions[i]).value.id == id
  {
    if id in states[k - 1].rows {
      i := EveryRowWasCreated(c, states, actions, k - 1, id);
      NextKeeps(c, states, actions, k - 1);
    } else {
      NextCreates(c, states, actions, k - 1, id);
      i := k - 1;
    }
  }

  lemma NextCreates(c: Config, states: seq<State>, actions: seq<Action>, k: nat, id: string)
    requires IsRun(c, states, actions) && k < |actions| && id !in states[k].rows && id in states[k + 1].rows
    ensures var j := Creates(states[k], actions[k]);
      j.Some? && j.value.id == id && states[k + 1].rows[id].data == j.value
  {
    ReachableInv(c, states, actions, k);
    NewRowsAreCreated(c, states[k], actions[k], id);
  }

  lemma NewRowsAreCreated(c: Config, s: State, a: Action, id: string)
    requires Inv(c, s) && Enabled(c, s, a) && id !in s.rows && id in Do(c, s, a).rows
    ensures Creates(s, a).Some? && Creates(s, a).value.id == id && Do(c, s, a).rows[id].data == Creates(s, a).value
  {
    if RewritesRow(a) {
      RewritesKeepKeys(c, s, a);
    } else if Creates(s, a).None? {
      QuietStepsKeepRows(c, s, a);
    }
  }

  lemma RewritesKeepKeys(c: Config, s: State, a: Action)
    requires TodoOk(s) && Enabled(c, s, a) && RewritesRow(a)
    ensures Do(c, s, a).rows.Keys == s.rows.Keys
  {
  }

  lemma QuietStepsKeepRows(c: Config, s: State, a: Action)
    requires Enabled(c, s, a) && !RewritesRow(a) && Creates(s, a).None?
    ensures Do(c, s, a).rows == s.rows
  {
  }

  // What reaches _apply_deliverable with code to change: work that an operator
  // issued, that the instance may apply unseen, or that applies a plan which
  // was awaiting approval when its approval was read.
  ghost predicate Sanctioned(states: seq<State>, actions: seq<Action>, i: nat)
    requires |states| == |actions| + 1 && i < |actions|
  {
    match actions[i]
    case OperatorCreate(_) => true
    case HookCreate(_, inst, _) => inst.allowAutoApply
    case Spawn(_, _) =>
      && states[i].decision.Approving?
      && exists m :: 0 <= m < i && ReadFor(states[m], actions[m], states[i].decision.job)
    case _ => false
  }

  // An approval found `plan` in the table, a plan awaiting approval.
  predicate ReadFor(s: State, a: Action, plan: Job) {
    && a == DecideRead(plan.id, true)
    && plan.id in s.rows && s.rows[plan.id].data == plan
    && plan.status == AwaitingApproval && PlanJob(plan)
  }

  predicate Approved(d: Decision) {
    d.Approving? || (d.Read? && d.approve)
  }

  lemma DecisionStep(c: Config, s: State, a: Action)
    requires Enabled(c, s, a) && !a.DecideRead? && Approved(Do(c, s, a).decision)
    ensures Approved(s.decision) && s.decision.job == Do(c, s, a).decision.job
  {
  }

  lemma {:induction false} DecisionWasRead(c: Config, states: seq<State>, actions: seq<Action>, k: nat) returns (m: nat)
    requires IsRun(c, states, actions) && k <= |actions| && Approved(states[k].decision)
    ensures m < k && ReadFor(states[m], actions[m], states[k].decision.job)
  {
    if actions[k - 1].DecideRead? {
      m := k - 1;
      ReachableInv(c, states, actions, m);
    } else {
      DecisionStep(c, states[k - 1], actions[k - 1]);
      m := DecisionWasRead(c, states, actions, k - 1);
    }
  }

  lemma ApplyingIsNoPlan(c: Config, s: State, id: string)
    requires TasksOk(s) && Enabled(c, s, Task(id, ReachApply)) && s.rows[id].data.deliverable.MutatesCode()
    ensures s.rows[id].data.mode != Plan
  {
    assert TaskRow(s.rows[id], s.tasks[id]);
  }

  // No code-mutating job reaches _apply_deliverable unless its creation was
  // sanctioned; a webhook caller without the instance's opt-in cannot get there
  // but through the approval of a plan.
  lemma PlanOnlyIsEnforced(c: Config, states: seq<State>, actions: seq<Action>, k: nat, id: string) returns (i: nat)
    requires IsRun(c, states, actions) && k < |actions|
    requires actions[k] == Task(id, ReachApply) && states[k].rows[id].data.deliverable.MutatesCode()
    ensures i < k && Creates(states[i], actions[i]).Some? && Creates(states[i], actions[i]).value.id == id
    ensures Sanctioned(states, actions, i)
  {
    ReachableInv(c, states, actions, k);
    ApplyingIsNoPlan(c, states[k], id);
    i := EveryRowWasCreated(c, states, actions, k, id);
    if actions[i].HookCreate? {
      if !actions[i].inst.allowAutoApply {
        LeastPrivilege(actions[i].inst, actions[i].ask);
      }
    } else if actions[i].Spawn? {
      var m := DecisionWasRead(c, states, actions, i);
    }
  }

  lemma SpawnMarks(c: Config, s: State, newId: string, now: real)
    requires Enabled(c, s, Spawn(newId, now))
    ensures var s2 := Do(c, s, Spawn(newId, now));
      newId in s2.rows && ApprovedFrom(s2.rows[newId].data) == Some(s.decision.job.id)
  {
  }

  lemma MarkedIsSettled(s: State, a: string, p: string)
    requires SpawnedFromSettled(s) && a in s.rows && ApprovedFrom(s.rows[a].data) == Some(p)
    ensures !s.decision.NoDecision? ==> s.decision.job.id != p
  {
    assert Settled(s, ApprovedFrom(s.rows[a].data).value);
  }

  lemma NoSecondSpawn(c: Config, states: seq<State>, actions: seq<Action>, i: nat, j: nat)
    requires IsRun(c, states, actions) && i < j < |actions|
    requires actions[i].Spawn? && actions[j].Spawn?
    ensures states[i].decision.job.id != states[j].decision.job.id
  {
    var a, p := actions[i].newId, states[i].decision.job.id;
    SpawnMarks(c, states[i], a, actions[i].now);
    RunKeeps(c, states, actions, i + 1, j);
    ReachableInv(c, states, actions, j);
    MarkedIsSettled(states[j], a, p);
  }

  // A plan job spawns at most one apply job.
  lemma PlanIsAppliedOnce(c: Config, states: seq<State>, actions: seq<Action>, i: nat, j: nat)
    requires IsRun(c, states, actions) && i < |actions| && j < |actions|
    requires actions[i].Spawn? && actions[j].Spawn?
    requires states[i].decision.job.id == states[j].decision.job.id
    ensures i == j
  {
    if i < j {
      NoSecondSpawn(c, states, actions, i, j);
    } else if j < i {
      NoSecondSpawn(c, states, actions, j, i);
    }
  }

  // What an apply job has from its plan.
  predicate Inherits(x: Job, plan: Job) {
    && x.instance == plan.instance && x.deliverable == plan.deliverable && x.request == plan.request
    && x.sessionId == plan.sessionId && x.threadKey == plan.threadKey && x.mode == Auto
  }

  // The job that a spawn stores.
  lemma SpawnInherits(c: Config, s: State, newId: string, now: real)
    requires DecisionOk(s) && Enabled(c, s, Spawn(newId, now))
    ensures var p, rows := s.decision.job.id, Do(c, s, Spawn(newId, now)).rows;
      && p in s.rows && newId in rows && p in rows && s.rows[p].data.mode == Plan
      && Inherits(rows[newId].data, s.rows[p].data)
      && rows[newId].data.metadata == map[Text("approved_from") := JStr(p)]
      && rows[newId].data.status == Queued && rows[newId].data.attempts == 0 && rows[newId].data.usage == NO_USAGE
      && rows[newId].data.prompt ==
         (if s.decision.job.prompt != "" then s.decision.job.prompt else "Apply the approved plan.")
      && rows[newId].data.createdAt == now
  {
  }

  // Who carries the mark of a plan was stored by a spawn for it.
  lemma MarkedWasSpawned(c: Config, states: seq<State>, actions: seq<Action>, k: nat, a: string, p: string)
    returns (i: nat)
    requires IsRun(c, states, actions) && k <= |actions| && a in states[k].rows
    requires ApprovedFrom(states[k].rows[a].data) == Some(p)
    ensures i < k && actions[i].Spawn? && actions[i].newId == a
    ensures states[i].decision.Approving? && states[i].decision.job.id == p
  {
    i := EveryRowWasCreated(c, states, actions, k, a);
    assert Enabled(c, states[i], actions[i]);
  }

  // The approval of a plan leads to the plan's own work, done for real: over
  // every run a job that carries the mark of a plan has its instance, session,
  // deliverable and request, is not a plan itself, and never awaits approval.
  lemma ApplyJobDoesThePlan(c: Config, states: seq<State>, actions: seq<Action>, k: nat, a: string, p: string)
    requires IsRun(c, states, actions) && k <= |actions| && a in states[k].rows
    requires ApprovedFrom(states[k].rows[a].data) == Some(p)
    ensures p in states[k].rows && a != p
    ensures Inherits(states[k].rows[a].data, states[k].rows[p].data)
    ensures PlanJob(states[k].rows[p].data) && !PlanJob(states[k].rows[a].data)
    ensures states[k].rows[a].data.status != AwaitingApproval
  {
    var i := MarkedWasSpawned(c, states, actions, k, a, p);
    SpawnedInherits(c, states, actions, i);
    RunKeeps(c, states, actions, i + 1, k);
    ApplyJobIsNoPlan(c, states, actions, k, a, p);
  }

  lemma SpawnedInherits(c: Config, states: seq<State>, actions: seq<Action>, i: nat)
    requires IsRun(c, states, actions) && i < |actions| && actions[i].Spawn?
    ensures var a, p, rows := actions[i].newId, states[i].decision.job.id, states[i + 1].rows;
      a in rows && p in rows && Inherits(rows[a].data, rows[p].data)
  {
    ReachableInv(c, states, actions, i);
    SpawnInherits(c, states[i], actions[i].newId, actions[i].now);
  }

  lemma ApplyJobIsNoPlan(c: Config, states: seq<State>, actions: seq<Action>, k: nat, a: string, p: string)
    requires IsRun(c, states, actions) && k <= |actions| && a in states[k].rows
    requires ApprovedFrom(states[k].rows[a].data) == Some(p) && states[k].rows[a].data.mode == Auto
    ensures p in states[k].rows && PlanJob(states[k].rows[p].data) && states[k].rows[a].data.status != AwaitingApproval
  {
    ReachableInv(c, states, actions, k);
    MarkedIsDone(states[k], a, p);
  }

  lemma MarkedIsDone(s: State, a: string, p: string)
    requires ApprovalOk(s) && a in s.rows && ApprovedFrom(s.rows[a].data) == Some(p) && s.rows[a].data.mode == Auto
    ensures p in s.rows && PlanJob(s.rows[p].data) && s.rows[a].data.status != AwaitingApproval
  {
    assert Settled(s, ApprovedFrom(s.rows[a].data).value);
  }
}
