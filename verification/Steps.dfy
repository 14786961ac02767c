// Every step of the engine keeps the invariant, and so every reachable state
// satisfies it.

module Steps {
  import opened Models
  import opened Store
  import opened Dispatch
  import opened System
  import opened Invariant

  // --- Steps that leave the table alone ------------------------------------

  lemma CrashInv(c: Config, s: State)
    requires Inv(c, s)
    ensures Inv(c, Do(c, s, Crash))
  {
    var s2 := Do(c, s, Crash);
    SpawnedKept(s, s2);
  }

  // The dispatcher moves on, the event or the pauses change.
  lemma SameTableInv(c: Config, s: State, s2: State)
    requires Inv(c, s)
    requires s2.rows == s.rows && s2.tasks == s.tasks && s2.decision == s.decision
    requires BootOk(s2) && TodoOk(s2) && CheckedOk(c, s2) && WakeOk(s2)
    ensures Inv(c, s2)
  {
    SpawnedKept(s, s2);
  }

  // A dispatcher that is not scanning.
  lemma IdleInv(c: Config, s: State, disp: Dispatcher, wake: bool)
    requires Inv(c, s) && Serving(s) && (disp.Woken? || disp.Listing?)
    ensures Inv(c, s.(disp := disp, wake := wake))
  {
    SameTableInv(c, s, s.(disp := disp, wake := wake));
  }

  lemma BootInv(c: Config, s: State, a: Action)
    requires Inv(c, s) && Enabled(c, s, a) && (a.BootList? || a.BootDone?)
    ensures Inv(c, Do(c, s, a))
  {
    SameTableInv(c, s, Do(c, s, a));
  }

  lemma NotifyInv(c: Config, s: State, id: string)
    requires Inv(c, s) && Enabled(c, s, Notify(id))
    ensures Inv(c, Do(c, s, Notify(id)))
  {
    SameTableInv(c, s, Do(c, s, Notify(id)));
  }

  lemma PausesInv(c: Config, s: State, paused: set<string>)
    requires Inv(c, s)
    ensures Inv(c, s.(paused := paused))
  {
    SameTableInv(c, s, s.(paused := paused));
  }

  lemma WaitInv(c: Config, s: State, a: Action)
    requires Inv(c, s) && Enabled(c, s, a) && (a.WaitEnds? || a.ClearWake?)
    ensures Inv(c, Do(c, s, a))
  {
    if a.WaitEnds? {
      IdleInv(c, s, Woken, s.wake);
    } else {
      IdleInv(c, s, Listing, false);
    }
  }

  lemma ListQueueInv(c: Config, s: State, todo: seq<Job>)
    requires Inv(c, s) && Enabled(c, s, ListQueue(todo))
    ensures Inv(c, Do(c, s, ListQueue(todo)))
  {
    forall k | 0 <= k < |todo|
      ensures QueuedAs(s.rows, todo[k])
    {
      assert IsQueued(s.rows, todo[k].id);
    }
    SameTableInv(c, s, Do(c, s, ListQueue(todo)));
  }

  lemma RoundFailsInv(c: Config, s: State)
    requires Inv(c, s) && Enabled(c, s, RoundFails)
    ensures Inv(c, Do(c, s, RoundFails))
  {
    if s.disp.Scanning? {
      WaitingInv(c, s);
    } else {
      SameTableInv(c, s, Do(c, s, RoundFails));
    }
  }

  // A round ends.
  lemma WaitingInv(c: Config, s: State)
    requires Inv(c, s) && s.disp.Scanning?
    ensures Inv(c, s.(disp := Waiting))
  {
    SameTableInv(c, s, s.(disp := Waiting));
  }

  // --- New jobs ------------------------------------------------------------

  lemma CreatedRows(rows: Rows, j: Job)
    requires WellFormed(rows) && UniqueKeys(rows) && NewJob(rows, j)
    ensures var later := rows[j.id := RowOf(j)];
      WellFormed(later) && UniqueKeys(later) && Evolves(rows, later, {})
  {
    var later := rows[j.id := RowOf(j)];
    forall a, b | a in later && b in later && a != b
      ensures !SameKey(later[a].data, later[b].data)
    {
      if a == j.id {
        assert !SameKey(j, rows[b].data);
      } else if b == j.id {
        assert !SameKey(j, rows[a].data);
      }
    }
  }

  lemma CreatedKeepsApproval(s: State, j: Job)
    requires ApprovalOk(s) && NewJob(s.rows, j)
    requires ApprovedFrom(j).Some? ==> Settled(s, ApprovedFrom(j).value)
    requires forall a :: a in s.rows && ApprovedFrom(j).Some? ==> ApprovedFrom(s.rows[a].data) != ApprovedFrom(j)
    ensures ApprovalOk(Created(s, j))
  {
    CreatedKeepsSpawned(s, j);
  }

  lemma CreatedKeepsSpawned(s: State, j: Job)
    requires SpawnedFromSettled(s) && SpawnedOnce(s.rows) && j.id !in s.rows
    requires ApprovedFrom(j).Some? ==> Settled(s, ApprovedFrom(j).value)
    requires forall a :: a in s.rows && ApprovedFrom(j).Some? ==> ApprovedFrom(s.rows[a].data) != ApprovedFrom(j)
    ensures SpawnedFromSettled(Created(s, j)) && SpawnedOnce(Created(s, j).rows)
  {
    var s2 := Created(s, j);
    forall p | Settled(s, p)
      ensures Settled(s2, p)
    {
    }
    forall a | a in s2.rows && ApprovedFrom(s2.rows[a].data).Some?
      ensures Settled(s2, ApprovedFrom(s2.rows[a].data).value)
    {
      if a != j.id {
        assert Settled(s, ApprovedFrom(s.rows[a].data).value);
      }
    }
  }

  lemma CreatedKeepsTodo(s: State, j: Job)
    requires TodoOk(s) && NewJob(s.rows, j)
    ensures TodoOk(Created(s, j))
  {
    if s.disp.Scanning? {
      forall q | QueuedAs(s.rows, q)
        ensures QueuedAs(Created(s, j).rows, q)
      {
      }
    }
  }

  lemma CreatedKeepsTasks(s: State, j: Job)
    requires TasksOk(s) && NewJob(s.rows, j)
    ensures TasksOk(Created(s, j))
  {
  }

  lemma CreatedKeepsEvent(s: State, j: Job)
    requires WakeOk(s) && BootOk(s) && Serving(s)
    ensures WakeOk(Created(s, j)) && BootOk(Created(s, j))
  {
  }

  lemma CreatedKeepsChecked(c: Config, s: State, j: Job)
    requires TableOk(s) && CheckedOk(c, s) && NewJob(s.rows, j)
    ensures CheckedOk(c, Created(s, j))
  {
    CreatedRows(s.rows, j);
    if s.disp.Scanning? && s.disp.todo != [] {
      CheckedKept(c, s.rows, Created(s, j).rows, s.disp.stage, s.disp.todo[0]);
    }
  }

  lemma CreatedInv(c: Config, s: State, j: Job)
    requires Inv(c, s) && Serving(s) && NewJob(s.rows, j)
    requires ApprovedFrom(j).Some? ==> Settled(s, ApprovedFrom(j).value)
    requires forall a :: a in s.rows && ApprovedFrom(j).Some? ==> ApprovedFrom(s.rows[a].data) != ApprovedFrom(j)
    ensures Inv(c, Created(s, j))
  {
    CreatedRows(s.rows, j);
    CreatedKeepsTasks(s, j);
    CreatedKeepsEvent(s, j);
    CreatedKeepsChecked(c, s, j);
    ExclusiveKept(c, s.rows, Created(s, j).rows);
    CreatedKeepsTodo(s, j);
    CreatedKeepsApproval(s, j);
  }

  // --- Approval ------------------------------------------------------------

  lemma DecidingKeepsSpawned(s: State, d: Decision)
    requires SpawnedFromSettled(s) && !d.NoDecision?
    requires forall a :: a in s.rows ==> ApprovedFrom(s.rows[a].data) != Some(d.job.id)
    ensures SpawnedFromSettled(s.(decision := d))
  {
    var s2 := s.(decision := d);
    forall a | a in s2.rows && ApprovedFrom(s2.rows[a].data).Some?
      ensures Settled(s2, ApprovedFrom(s2.rows[a].data).value)
    {
      assert Settled(s, ApprovedFrom(s.rows[a].data).value);
    }
  }

  lemma DecidingInv(c: Config, s: State, d: Decision)
    requires Inv(c, s) && Serving(s) && !d.NoDecision? && DecisionOk(s.(decision := d))
    requires forall a :: a in s.rows ==> ApprovedFrom(s.rows[a].data) != Some(d.job.id)
    ensures Inv(c, s.(decision := d))
  {
    DecidingKeepsSpawned(s, d);
  }

  lemma AwaitingIsDone(s: State, id: string)
    requires TableOk(s) && TasksOk(s) && AwaitingArePlans(s.rows)
    requires id in s.rows && s.rows[id].data.status == AwaitingApproval
    ensures PlanDone(s, id) && s.rows[id].data.id == id
  {
  }

  lemma AwaitingHasNoApplyJob(s: State, id: string)
    requires SpawnedFromSettled(s) && id in s.rows && s.rows[id].data.status == AwaitingApproval
    ensures forall a :: a in s.rows ==> ApprovedFrom(s.rows[a].data) != Some(id)
  {
    forall a | a in s.rows && ApprovedFrom(s.rows[a].data).Some?
      ensures ApprovedFrom(s.rows[a].data) != Some(id)
    {
      assert Settled(s, ApprovedFrom(s.rows[a].data).value);
    }
  }

  lemma DecideReadInv(c: Config, s: State, id: string, approve: bool)
    requires Inv(c, s) && Enabled(c, s, DecideRead(id, approve))
    ensures Inv(c, Do(c, s, DecideRead(id, approve)))
  {
    AwaitingIsDone(s, id);
    AwaitingHasNoApplyJob(s, id);
    DecidingInv(c, s, Read(s.rows[id].data, approve));
  }

  // Dropping a decision half-way (the request failed) is always safe.
  lemma DecideAbortInv(c: Config, s: State)
    requires Inv(c, s)
    ensures Inv(c, s.(decision := NoDecision))
  {
    var s2 := s.(decision := NoDecision);
    SpawnedKept(s, s2);
  }

  function Verdict(s: State): State
    requires s.decision.Read?
  {
    var j := s.decision.job;
    s.(rows := Saved(s.rows, j.(status := if s.decision.approve then Success else Rejected)), decision := NoDecision)
  }

  lemma VerdictIsLocal(s: State)
    requires TasksOk(s) && DecisionOk(s) && s.decision.Read?
    ensures Local(s, Verdict(s), s.decision.job.id)
    ensures PlanKept(s, Verdict(s), s.decision.job.id)
    ensures PlanDone(Verdict(s), s.decision.job.id)
    ensures Verdict(s).rows[s.decision.job.id].data.status != AwaitingApproval
    ensures SameIdentity(Verdict(s).rows[s.decision.job.id].data, s.decision.job)
  {
  }

  // The verdict is written over a row that awaits approval, or that its
  // thread has meanwhile marked failed.
  lemma VerdictInv(c: Config, s: State)
    requires Inv(c, s) && s.decision.Read?
    ensures Inv(c, Verdict(s))
  {
    DecideAbortInv(c, s);
    VerdictIsLocal(s);
    VerdictKeepsRest(c, s);
    VerdictKeepsApproval(s);
  }

  lemma VerdictKeepsRest(c: Config, s: State)
    requires Inv(c, s) && s.decision.Read? && Local(s, Verdict(s), s.decision.job.id)
    ensures var s2 := Verdict(s);
      TableOk(s2) && TasksOk(s2) && BootOk(s2) && TodoOk(s2) && WakeOk(s2) && Exclusive(c, s2.rows) && CheckedOk(c, s2)
  {
    LocalKeepsRest(c, s, Verdict(s), s.decision.job.id);
  }

  lemma VerdictKeepsApproval(s: State)
    requires ApprovalOk(s.(decision := NoDecision)) && s.decision.Read?
    requires Local(s, Verdict(s), s.decision.job.id) && PlanKept(s, Verdict(s), s.decision.job.id)
    ensures ApprovalOk(Verdict(s))
  {
    LocalKeepsApproval(s.(decision := NoDecision), Verdict(s), s.decision.job.id);
  }

  lemma DecideSaveInv(c: Config, s: State)
    requires Inv(c, s) && Enabled(c, s, DecideSave)
    ensures Inv(c, Do(c, s, DecideSave))
  {
    VerdictInv(c, s);
    if s.decision.approve {
      VerdictReady(s);
      DecidingInv(c, Verdict(s), Approving(s.decision.job));
    }
  }

  // The plan being decided on has no apply job, and is no longer awaiting.
  lemma VerdictReady(s: State)
    requires TasksOk(s) && DecisionOk(s) && SpawnedFromSettled(s) && s.decision.Read?
    ensures DecisionOk(Verdict(s).(decision := Approving(s.decision.job)))
    ensures forall a :: a in Verdict(s).rows ==> ApprovedFrom(Verdict(s).rows[a].data) != Some(s.decision.job.id)
  {
    VerdictIsLocal(s);
    forall a | a in Verdict(s).rows
      ensures ApprovedFrom(Verdict(s).rows[a].data) != Some(s.decision.job.id)
    {
      assert ApprovedFrom(Verdict(s).rows[a].data) == ApprovedFrom(s.rows[a].data);
      if ApprovedFrom(s.rows[a].data).Some? {
        assert Settled(s, ApprovedFrom(s.rows[a].data).value);
      }
    }
  }

  lemma SpawnInv(c: Config, s: State, newId: string, now: real)
    requires Inv(c, s) && Enabled(c, s, Spawn(newId, now))
    ensures Inv(c, Do(c, s, Spawn(newId, now)))
  {
    var j := ApplyJob(s.decision.job, newId, now);
    var s1 := s.(decision := NoDecision);
    DecideAbortInv(c, s);
    forall a | a in s.rows
      ensures ApprovedFrom(s.rows[a].data) != Some(s.decision.job.id)
    {
      if ApprovedFrom(s.rows[a].data).Some? {
        assert Settled(s, ApprovedFrom(s.rows[a].data).value);
      }
    }
    assert Settled(s1, s.decision.job.id);
    CreatedInv(c, s1, j);
  }

  // --- Reboot --------------------------------------------------------------

  lemma RecoverOneInv(c: Config, s: State, id: string)
    requires Inv(c, s) && Enabled(c, s, RecoverOne(id))
    ensures Inv(c, Do(c, s, RecoverOne(id)))
  {
    RecoveredKeepsRest(c, s, id);
    RestIsRunning(c, s, id);
    RecoveringInv(c, Recovered(s, id), Do(c, s, RecoverOne(id)), id);
  }

  lemma RestIsRunning(c: Config, s: State, id: string)
    requires BootOk(s) && Enabled(c, s, RecoverOne(id))
    ensures BootOk(Do(c, s, RecoverOne(id)))
  {
  }

  lemma RecoveredKeepsRest(c: Config, s: State, id: string)
    requires Inv(c, s) && Enabled(c, s, RecoverOne(id))
    ensures var s2 := Recovered(s, id);
      TableOk(s2) && TasksOk(s2) && Exclusive(c, s2.rows) && WakeOk(s2) && ApprovalOk(s2)
  {
    RecoveredIsLocal(s, id);
    LocalKeepsApproval(s, Recovered(s, id), id);
    LocalKeepsRest(c, s, Recovered(s, id), id);
  }

  // One running row reconciled, and not yet crossed off.
  function Recovered(s: State, id: string): State
    requires id in s.rows
  {
    s.(rows := s.rows[id := Reconciled(s.rows[id])])
  }

  lemma RecoveredIsLocal(s: State, id: string)
    requires TableOk(s) && BootOk(s) && s.disp.Recovering? && id in s.disp.rest && id in s.rows
    ensures Local(s, Recovered(s, id), id) && PlanKept(s, Recovered(s, id), id)
  {
  }

  lemma RecoveringInv(c: Config, s: State, s2: State, id: string)
    requires TableOk(s) && TasksOk(s) && Exclusive(c, s.rows) && WakeOk(s) && ApprovalOk(s)
    requires s.disp.Recovering? && s2 == s.(disp := Recovering(s.disp.rest - {id}))
    requires BootOk(s2)
    ensures Inv(c, s2)
  {
    SpawnedKept(s, s2);
  }

  // --- The dispatcher ------------------------------------------------------

  lemma RestOfTodo(s: State)
    requires TodoOk(s) && s.disp.Scanning? && s.disp.todo != []
    ensures TodoOk(s.(disp := Scanning(Item, s.disp.todo[1..])))
  {
  }

  lemma SkipInv(c: Config, s: State)
    requires Inv(c, s) && s.disp.Scanning? && s.disp.todo != [] && s.disp.stage != Submit
    ensures Inv(c, s.(disp := Scanning(Item, s.disp.todo[1..])))
  {
    RestOfTodo(s);
    SameTableInv(c, s, s.(disp := Scanning(Item, s.disp.todo[1..])));
  }

  lemma PassInv(c: Config, s: State)
    requires Inv(c, s) && s.disp.Scanning? && s.disp.todo != [] && s.disp.stage != Submit && s.disp.stage != Claim
    requires Passes(c, s, s.disp.stage, s.disp.todo[0])
    ensures Inv(c, s.(disp := Scanning(NextStage(s.disp.stage), s.disp.todo)))
  {
    SameTableInv(c, s, s.(disp := Scanning(NextStage(s.disp.stage), s.disp.todo)));
  }

  function ClaimedState(s: State): State
    requires s.disp.Scanning? && s.disp.todo != []
  {
    s.(rows := Claimed(s.rows, s.disp.todo[0].id), disp := Scanning(Submit, s.disp.todo))
  }

  lemma ClaimKeepsTodo(s: State)
    requires TasksOk(s) && TodoOk(s) && s.disp.Scanning? && s.disp.stage == Claim
    ensures TodoOk(ClaimedState(s)) && TasksOk(ClaimedState(s))
  {
    assert QueuedAs(s.rows, s.disp.todo[0]);
    forall k | 0 < k < |s.disp.todo|
      ensures QueuedAs(ClaimedState(s).rows, s.disp.todo[k])
    {
      assert QueuedAs(s.rows, s.disp.todo[k]);
    }
  }

  lemma ClaimKeepsPlans(s: State, p: string)
    requires TodoOk(s) && s.disp.Scanning? && s.disp.stage == Claim && PlanDone(s, p)
    ensures PlanDone(ClaimedState(s), p) && ClaimedState(s).rows[p] == s.rows[p]
  {
    assert QueuedAs(s.rows, s.disp.todo[0]);
  }

  lemma ClaimKeepsApproval(s: State)
    requires TodoOk(s) && ApprovalOk(s) && s.disp.Scanning? && s.disp.stage == Claim
    ensures ApprovalOk(ClaimedState(s))
  {
    assert QueuedAs(s.rows, s.disp.todo[0]);
    forall p | PlanDone(s, p)
      ensures PlanDone(ClaimedState(s), p) && ClaimedState(s).rows[p] == s.rows[p]
    {
      ClaimKeepsPlans(s, p);
    }
    SpawnedKept(s, ClaimedState(s));
  }

  lemma ClaimKeepsTable(s: State)
    requires TableOk(s) && TodoOk(s) && s.disp.Scanning? && s.disp.stage == Claim
    ensures TableOk(ClaimedState(s))
  {
    assert QueuedAs(s.rows, s.disp.todo[0]);
    KeysKept(s.rows, ClaimedState(s).rows);
  }

  lemma ClaimKeepsExclusive(c: Config, s: State)
    requires TableOk(s) && TodoOk(s) && CheckedOk(c, s) && Exclusive(c, s.rows)
    requires s.disp.Scanning? && s.disp.stage == Claim
    ensures Exclusive(c, ClaimedState(s).rows)
  {
    var j := s.disp.todo[0];
    assert QueuedAs(s.rows, j);
    ClaimKeepsLimits(c, s.rows, j);
    ClaimKeepsOneMutating(c, s.rows, j);
    ClaimKeepsOnePerSession(c, s.rows, j);
  }

  lemma ClaimKeepsEvent(c: Config, s: State)
    requires BootOk(s) && WakeOk(s) && s.disp.Scanning? && s.disp.todo != []
    ensures BootOk(ClaimedState(s)) && WakeOk(ClaimedState(s)) && CheckedOk(c, ClaimedState(s))
  {
  }

  lemma ClaimInv(c: Config, s: State)
    requires Inv(c, s) && s.disp.Scanning? && s.disp.todo != [] && s.disp.stage == Claim
    ensures Inv(c, ClaimedState(s))
  {
    ClaimKeepsTable(s);
    ClaimKeepsExclusive(c, s);
    ClaimKeepsEvent(c, s);
    ClaimKeepsTodo(s);
    ClaimKeepsApproval(s);
  }

  function SubmittedState(s: State): State
    requires s.disp.Scanning? && s.disp.todo != []
  {
    s.(tasks := s.tasks[s.disp.todo[0].id := Submitted], disp := Scanning(Item, s.disp.todo[1..]))
  }

  lemma SubmitKeepsApproval(s: State)
    requires TableOk(s) && TodoOk(s) && ApprovalOk(s) && s.disp.Scanning? && s.disp.stage == Submit
    ensures ApprovalOk(SubmittedState(s))
  {
    assert Claimable(s, s.disp.todo[0]);
    forall p | PlanDone(s, p)
      ensures PlanDone(SubmittedState(s), p)
    {
    }
    SpawnedKept(s, SubmittedState(s));
  }

  lemma SubmitInv(c: Config, s: State)
    requires Inv(c, s) && s.disp.Scanning? && s.disp.todo != [] && s.disp.stage == Submit
    ensures Inv(c, SubmittedState(s))
  {
    RestOfTodo(s);
    assert Claimable(s, s.disp.todo[0]);
    SubmitKeepsApproval(s);
  }

  lemma AdvanceInv(c: Config, s: State)
    requires Inv(c, s) && Enabled(c, s, Advance)
    ensures Inv(c, Do(c, s, Advance))
  {
    if s.disp.todo == [] {
      WaitingInv(c, s);
    } else if s.disp.stage == Submit {
      SubmitInv(c, s);
    } else if !Passes(c, s, s.disp.stage, s.disp.todo[0]) {
      SkipInv(c, s);
    } else if s.disp.stage == Claim {
      ClaimInv(c, s);
    } else {
      PassInv(c, s);
    }
  }

  lemma SubmitRefusedInv(c: Config, s: State)
    requires Inv(c, s) && Enabled(c, s, SubmitRefused)
    ensures Inv(c, Do(c, s, SubmitRefused))
  {
    RefusedIsLocal(c, s);
    WaitingInv(c, s);
    PutBackInv(c, s.(disp := Waiting), Do(c, s, SubmitRefused), s.disp.todo[0].id);
  }

  lemma PutBackInv(c: Config, s: State, s2: State, id: string)
    requires Inv(c, s) && s.disp.Waiting? && Local(s, s2, id) && PlanKept(s, s2, id)
    requires s2.disp == s.disp && s2.decision == s.decision
    ensures Inv(c, s2)
  {
    LocalKeepsApproval(s, s2, id);
    LocalInv(c, s, s2, id);
  }

  lemma RefusedIsLocal(c: Config, s: State)
    requires TableOk(s) && TodoOk(s) && Enabled(c, s, SubmitRefused)
    ensures var s1, s2, id := s.(disp := Waiting), Do(c, s, SubmitRefused), s.disp.todo[0].id;
      Local(s1, s2, id) && PlanKept(s1, s2, id)
  {
    assert Claimable(s, s.disp.todo[0]);
  }

  // --- All steps, all runs -------------------------------------------------

  lemma ClientStepInv(c: Config, s: State, a: Action)
    requires Inv(c, s) && Enabled(c, s, a)
    requires a.HookCreate? || a.OperatorCreate? || a.Notify? || a.Pause? || a.Resume?
    ensures Inv(c, Do(c, s, a))
  {
    match a {
      case HookCreate(j, _, _) => CreateStepInv(c, s, a, j);
      case OperatorCreate(j) => CreateStepInv(c, s, a, j);
      case Notify(id) => NotifyInv(c, s, id);
      case Pause(i) => PausesInv(c, s, s.paused + {i});
      case Resume(i) => PausesInv(c, s, s.paused - {i});
    }
  }

  lemma CreateStepInv(c: Config, s: State, a: Action, j: Job)
    requires Inv(c, s) && Enabled(c, s, a) && ((a.HookCreate? && a.job == j) || a == OperatorCreate(j))
    ensures Inv(c, Do(c, s, a))
  {
    CreatedInv(c, s, j);
  }

  lemma DecisionStepInv(c: Config, s: State, a: Action)
    requires Inv(c, s) && Enabled(c, s, a)
    requires a.DecideRead? || a.DecideSave? || a.Spawn? || a.DecideAbort?
    ensures Inv(c, Do(c, s, a))
  {
    match a {
      case DecideRead(id, approve) => DecideReadInv(c, s, id, approve);
      case DecideSave => DecideSaveInv(c, s);
      case Spawn(newId, now) => SpawnInv(c, s, newId, now);
      case DecideAbort => DecideAbortInv(c, s);
    }
  }

  lemma DispatcherStepInv(c: Config, s: State, a: Action)
    requires Inv(c, s) && Enabled(c, s, a)
    requires a.WaitEnds? || a.ClearWake? || a.ListQueue? || a.Advance? || a.SubmitRefused? || a.RoundFails?
    ensures Inv(c, Do(c, s, a))
  {
    match a {
      case WaitEnds => WaitInv(c, s, a);
      case ClearWake => WaitInv(c, s, a);
      case ListQueue(todo) => ListQueueInv(c, s, todo);
      case Advance => AdvanceInv(c, s);
      case SubmitRefused => SubmitRefusedInv(c, s);
      case RoundFails => RoundFailsInv(c, s);
    }
  }

  lemma OtherStepInv(c: Config, s: State, a: Action)
    requires Inv(c, s) && Enabled(c, s, a)
    requires a.Crash? || a.BootList? || a.RecoverOne? || a.BootDone? || a.Task?
    ensures Inv(c, Do(c, s, a))
  {
    match a {
      case Crash => CrashInv(c, s);
      case BootList => BootInv(c, s, a);
      case RecoverOne(id) => RecoverOneInv(c, s, id);
      case BootDone => BootInv(c, s, a);
      case Task(id, act) => TaskInv(c, s, id, act);
    }
  }

  lemma StepInv(c: Config, s: State, a: Action)
    requires Inv(c, s) && Enabled(c, s, a)
    ensures Inv(c, Do(c, s, a))
  {
    if a.HookCreate? || a.OperatorCreate? || a.Notify? || a.Pause? || a.Resume? {
      ClientStepInv(c, s, a);
    } else if a.DecideRead? || a.DecideSave? || a.Spawn? || a.DecideAbort? {
      DecisionStepInv(c, s, a);
    } else if a.Crash? || a.BootList? || a.RecoverOne? || a.BootDone? || a.Task? {
      OtherStepInv(c, s, a);
    } else {
      DispatcherStepInv(c, s, a);
    }
  }

  lemma InitInv(c: Config, s: State)
    requires Init(s)
    ensures Inv(c, s)
  {
    NothingRuns(c);
  }

  lemma NextInv(c: Config, states: seq<State>, actions: seq<Action>, k: nat)
    requires IsRun(c, states, actions) && k < |actions| && Inv(c, states[k])
    ensures Inv(c, states[k + 1])
  {
    StepInv(c, states[k], actions[k]);
  }

  lemma {:induction false} ReachableInv(c: Config, states: seq<State>, actions: seq<Action>, k: nat)
    requires IsRun(c, states, actions) && k <= |actions|
    ensures Inv(c, states[k])
  {
    if k == 0 {
      InitInv(c, states[0]);
    } else {
      ReachableInv(c, states, actions, k - 1);
      NextInv(c, states, actions, k - 1);
    }
  }

  lemma NothingRuns(c: Config)
    ensures Exclusive(c, map[])
  {
    forall i
      ensures |RunningIn(map[], i)| <= Cap(c, i)
    {
      assert RunningIn(map[], i) == {};
    }
  }
}
