// What can happen, step by step: a job that is carried through, put back or
// lost, a plan that is approved or rejected, and a reboot that ends.

module Journeys {
  import opened Models
  import opened Store
  import opened Dispatch
  import opened Params
  import opened System
  import opened Overtaking

  // --- One thread ---------------------------------------------------------------

  // `s` with this row and this phase of the thread of job `id`.
  function At(s: State, id: string, row: Row, ph: Phase): State {
    s.(rows := s.rows[id := row], tasks := s.tasks[id := ph])
  }

  lemma Goes(c: Config, s: State, id: string, row: Row, ph: Phase, act: TaskAct, row2: Row, ph2: Phase)
    requires TaskEnabled(ph, act) && TaskStep(row, ph, act, row.data.instance in s.paused) == (row2, Some(ph2))
    ensures Plays(c, At(s, id, row, ph), [Task(id, act)], At(s, id, row2, ph2))
  {
    var s1 := At(s, id, row, ph);
    assert s1.rows[id := row2] == At(s, id, row2, ph2).rows && s1.tasks[id := ph2] == At(s, id, row2, ph2).tasks;
    PlaysOne(c, s1, Task(id, act));
  }

  // The last step of a thread.
  lemma Ends(c: Config, s: State, id: string, row: Row, ph: Phase, act: TaskAct, row2: Row)
    requires TaskEnabled(ph, act) && TaskStep(row, ph, act, row.data.instance in s.paused) == (row2, None)
    ensures Plays(c, At(s, id, row, ph), [Task(id, act)], s.(rows := s.rows[id := row2], tasks := s.tasks - {id}))
  {
    var s1 := At(s, id, row, ph);
    assert s1.rows[id := row2] == s.rows[id := row2] && s1.tasks - {id} == s.tasks - {id};
    PlaysOne(c, s1, Task(id, act));
  }

  // A claimed job, whose thread has just been given to the pool.
  predicate Given(s: State, j: Job) {
    && j.id in s.rows && s.rows[j.id] == WithStatus(RowOf(j), Running) && j.status == Queued
    && j.id in s.tasks && s.tasks[j.id] == Submitted
  }

  function Begun(j: Job, t: real): Job {
    j.(status := Running, startedAt := Some(t))
  }

  function Ended(j: Job, t: real): Job {
    j.(finishedAt := Some(t))
  }

  function Enters(id: string, t: real): seq<Action> {
    [Task(id, Load)] + [Task(id, CheckPause)] + [Task(id, Start(t))] + [Task(id, Enter)]
  }

  function Leaves(id: string, j: Job, t: real): seq<Action> {
    [Task(id, Return(j))] + [Task(id, Finalize(t))] + [Task(id, Finish)]
  }

  // While its instance is not paused the job comes to its execution.
  lemma ComesToExecution(c: Config, s: State, j: Job, t: real)
    requires Given(s, j) && j.instance !in s.paused
    ensures Plays(c, s, Enters(j.id, t), At(s, j.id, RowOf(Begun(j, t)), Executing(Begun(j, t), false)))
  {
    var id, row, b := j.id, s.rows[j.id], Begun(j, t);
    assert At(s, id, row, Submitted) == s;
    Goes(c, s, id, row, Submitted, Load, row, Loaded(j));
    Goes(c, s, id, row, Loaded(j), CheckPause, row, Cleared(j));
    Goes(c, s, id, row, Cleared(j), Start(t), RowOf(b), Started(b));
    Goes(c, s, id, RowOf(b), Started(b), Enter, RowOf(b), Executing(b, false));
    PlaysThen(c, s, [Task(id, Load)], At(s, id, row, Loaded(j)), [Task(id, CheckPause)], At(s, id, row, Cleared(j)));
    PlaysThen(c, s, [Task(id, Load)] + [Task(id, CheckPause)], At(s, id, row, Cleared(j)), [Task(id, Start(t))],
              At(s, id, RowOf(b), Started(b)));
    PlaysThen(c, s, [Task(id, Load)] + [Task(id, CheckPause)] + [Task(id, Start(t))], At(s, id, RowOf(b), Started(b)),
              [Task(id, Enter)], At(s, id, RowOf(b), Executing(b, false)));
  }

  // What the execution returns is saved.
  lemma ComesToItsEnd(c: Config, s: State, b: Job, applying: bool, result: Job, t: real)
    requires b.status == Running && SameIdentity(result, b) && Outcome(b, applying, result.status)
    ensures Plays(c, At(s, b.id, RowOf(b), Executing(b, applying)), Leaves(b.id, result, t),
                  s.(rows := s.rows[b.id := RowOf(Ended(result, t))], tasks := s.tasks - {b.id}))
  {
    var id, e := b.id, Ended(result, t);
    Goes(c, s, id, RowOf(b), Executing(b, applying), Return(result), RowOf(b), Returned(result));
    Goes(c, s, id, RowOf(b), Returned(result), Finalize(t), RowOf(e), Finalized(e));
    Ends(c, s, id, RowOf(e), Finalized(e), Finish, RowOf(e));
    PlaysThen(c, At(s, id, RowOf(b), Executing(b, applying)), [Task(id, Return(result))],
              At(s, id, RowOf(b), Returned(result)), [Task(id, Finalize(t))], At(s, id, RowOf(e), Finalized(e)));
    PlaysThen(c, At(s, id, RowOf(b), Executing(b, applying)), [Task(id, Return(result))] + [Task(id, Finalize(t))],
              At(s, id, RowOf(e), Finalized(e)), [Task(id, Finish)],
              s.(rows := s.rows[id := RowOf(e)], tasks := s.tasks - {id}));
  }

  // A job that is no plan can be carried through: it reaches its deliverable
  // and is saved as a success, with all that the execution recorded.
  lemma JobIsDelivered(c: Config, s: State, j: Job, result: Job, t: real, u: real)
    requires Given(s, j) && j.instance !in s.paused && SameIdentity(result, j) && result.status == Success
    requires !(j.mode == Plan && j.deliverable in {Patch, Commit, PR})
    ensures Plays(c, s, Enters(j.id, t) + [Task(j.id, ReachApply)] + Leaves(j.id, result, u),
                  s.(rows := s.rows[j.id := RowOf(Ended(result, u))], tasks := s.tasks - {j.id}))
  {
    var id, b := j.id, Begun(j, t);
    ComesToExecution(c, s, j, t);
    Goes(c, s, id, RowOf(b), Executing(b, false), ReachApply, RowOf(b), Executing(b, true));
    PlaysThen(c, s, Enters(id, t), At(s, id, RowOf(b), Executing(b, false)), [Task(id, ReachApply)],
              At(s, id, RowOf(b), Executing(b, true)));
    ComesToItsEnd(c, s, b, true, result, u);
    PlaysThen(c, s, Enters(id, t) + [Task(id, ReachApply)], At(s, id, RowOf(b), Executing(b, true)),
              Leaves(id, result, u), s.(rows := s.rows[id := RowOf(Ended(result, u))], tasks := s.tasks - {id}));
  }

  // Without reaching it a job can end in an error, a timeout or blocked, a
  // code-mutating one that is no plan at its checks, and a plan, and no other
  // job, by awaiting approval.
  lemma JobIsStopped(c: Config, s: State, j: Job, result: Job, t: real, u: real)
    requires Given(s, j) && j.instance !in s.paused && SameIdentity(result, j)
    requires || result.status in {Error, Timeout, Blocked}
             || (result.status == FailedChecks && j.mode != Plan && j.deliverable in {Patch, Commit, PR})
             || (result.status == AwaitingApproval && j.mode == Plan && j.deliverable in {Patch, Commit, PR})
    ensures Plays(c, s, Enters(j.id, t) + Leaves(j.id, result, u),
                  s.(rows := s.rows[j.id := RowOf(Ended(result, u))], tasks := s.tasks - {j.id}))
  {
    var id, b := j.id, Begun(j, t);
    ComesToExecution(c, s, j, t);
    ComesToItsEnd(c, s, b, false, result, u);
    PlaysThen(c, s, Enters(id, t), At(s, id, RowOf(b), Executing(b, false)),
              Leaves(id, result, u), s.(rows := s.rows[id := RowOf(Ended(result, u))], tasks := s.tasks - {id}));
  }

  // An instance found paused, or found without its key, puts the job back.
  lemma JobIsPutBack(c: Config, s: State, j: Job, msg: string)
    requires Given(s, j) && j.instance in s.paused
    ensures Plays(c, s, [Task(j.id, Load)] + [Task(j.id, CheckPause)] + [Task(j.id, Requeue(msg))],
                  s.(rows := s.rows[j.id := RowOf(j.(errorMessage := Some(msg)))], tasks := s.tasks - {j.id}))
  {
    var id, row := j.id, s.rows[j.id];
    assert At(s, id, row, Submitted) == s;
    Goes(c, s, id, row, Submitted, Load, row, Loaded(j));
    Goes(c, s, id, row, Loaded(j), CheckPause, row, Barred(j));
    Ends(c, s, id, row, Barred(j), Requeue(msg), RowOf(j.(errorMessage := Some(msg))));
    PlaysThen(c, s, [Task(id, Load)], At(s, id, row, Loaded(j)), [Task(id, CheckPause)], At(s, id, row, Barred(j)));
    PlaysThen(c, s, [Task(id, Load)] + [Task(id, CheckPause)], At(s, id, row, Barred(j)), [Task(id, Requeue(msg))],
              s.(rows := s.rows[id := RowOf(j.(errorMessage := Some(msg)))], tasks := s.tasks - {id}));
  }

  lemma JobWithoutKeyIsPutBack(c: Config, s: State, b: Job, t: real, msg: string)
    requires b.status == Running
    ensures var back := Ended(b, t).(status := Queued, errorMessage := Some(msg));
      Plays(c, At(s, b.id, RowOf(b), Started(b)), [Task(b.id, MissAuth(t))] + [Task(b.id, Requeue(msg))],
            s.(rows := s.rows[b.id := RowOf(back)], tasks := s.tasks - {b.id}))
  {
    var id, e := b.id, Ended(b, t);
    Goes(c, s, id, RowOf(b), Started(b), MissAuth(t), RowOf(e), AuthPaused(e));
    Ends(c, s, id, RowOf(e), AuthPaused(e), Requeue(msg), RowOf(e.(status := Queued, errorMessage := Some(msg))));
    PlaysThen(c, At(s, id, RowOf(b), Started(b)), [Task(id, MissAuth(t))], At(s, id, RowOf(e), AuthPaused(e)),
              [Task(id, Requeue(msg))],
              s.(rows := s.rows[id := RowOf(e.(status := Queued, errorMessage := Some(msg)))],
                 tasks := s.tasks - {id}));
  }

  // A preparation that fails ends the job in an error.
  lemma FailedPreparationIsSaved(c: Config, s: State, b: Job, failed: Job, t: real)
    requires b.status == Running && SameIdentity(failed, b) && failed.status == Error
    ensures Plays(c, At(s, b.id, RowOf(b), Started(b)), [Task(b.id, PrepareFails(failed))] + [Task(b.id, Finalize(t))],
                  At(s, b.id, RowOf(Ended(failed, t)), Finalized(Ended(failed, t))))
  {
    var id, e := b.id, Ended(failed, t);
    Goes(c, s, id, RowOf(b), Started(b), PrepareFails(failed), RowOf(b), Returned(failed));
    Goes(c, s, id, RowOf(b), Returned(failed), Finalize(t), RowOf(e), Finalized(e));
    PlaysThen(c, At(s, id, RowOf(b), Started(b)), [Task(id, PrepareFails(failed))],
              At(s, id, RowOf(b), Returned(failed)), [Task(id, Finalize(t))], At(s, id, RowOf(e), Finalized(e)));
  }

  // An exception outside the guarded part saves the thread's copy as an error;
  // a thread may also be lost, and then nothing is saved.
  lemma ExceptionIsSaved(c: Config, s: State, id: string, row: Row, ph: Phase, msg: string)
    requires ph.Loaded? || ph.Cleared? || ph.AuthPaused? || ph.Returned? || ph.Finalized?
    ensures Plays(c, At(s, id, row, ph), [Task(id, SaveError(msg))],
                  s.(rows := s.rows[id := RowOf(ph.job.(status := Error, errorMessage := Some(msg)))],
                     tasks := s.tasks - {id}))
  {
    Ends(c, s, id, row, ph, SaveError(msg), RowOf(ph.job.(status := Error, errorMessage := Some(msg))));
  }

  lemma ThreadIsLost(c: Config, s: State, id: string, row: Row, ph: Phase)
    ensures Plays(c, At(s, id, row, ph), [Task(id, Vanish)], s.(rows := s.rows[id := row], tasks := s.tasks - {id}))
  {
    Ends(c, s, id, row, ph, Vanish, row);
  }

  // --- Decisions ------------------------------------------------------------------

  // A plan that awaits approval, with no other decision under way.
  predicate Pending(s: State, plan: Job) {
    && Serving(s) && s.decision.NoDecision? && plan.id in s.rows && s.rows[plan.id].data == plan
    && plan.status == AwaitingApproval
  }

  lemma PlanIsRejected(c: Config, s: State, plan: Job)
    requires Pending(s, plan)
    ensures Plays(c, s, [DecideRead(plan.id, false)] + [DecideSave],
                  s.(rows := s.rows[plan.id := RowOf(plan.(status := Rejected))]))
  {
    var s1, end := s.(decision := Read(plan, false)), s.(rows := s.rows[plan.id := RowOf(plan.(status := Rejected))]);
    PlaysOne(c, s, DecideRead(plan.id, false));
    PlaysOne(c, s1, DecideSave);
    PlaysThen(c, s, [DecideRead(plan.id, false)], s1, [DecideSave], end);
  }

  // An approved plan is a success, and its apply job is in the queue.
  lemma PlanIsApproved(c: Config, s: State, plan: Job, newId: string, now: real) returns (end: State)
    requires Pending(s, plan) && newId !in s.rows
    ensures Plays(c, s, [DecideRead(plan.id, true)] + [DecideSave] + [Spawn(newId, now)], end)
    ensures plan.id in end.rows && end.rows[plan.id] == RowOf(plan.(status := Success))
    ensures IsQueued(end.rows, newId) && ApprovedFrom(end.rows[newId].data) == Some(plan.id)
    ensures end.rows[newId].data.mode == Auto && end.rows[newId].data.deliverable == plan.deliverable
    ensures end.decision == NoDecision && newId in end.unnotified
    ensures forall id :: id in s.rows && id != plan.id ==> id in end.rows && end.rows[id] == s.rows[id]
  {
    var s1 := s.(decision := Read(plan, true));
    PlaysOne(c, s, DecideRead(plan.id, true));
    SavesApproval(c, s, plan);
    PlaysOne(c, Approves(s, plan), Spawn(newId, now));
    end := Do(c, Approves(s, plan), Spawn(newId, now));
    PlaysThen(c, s, [DecideRead(plan.id, true)], s1, [DecideSave], Approves(s, plan));
    PlaysThen(c, s, [DecideRead(plan.id, true)] + [DecideSave], Approves(s, plan), [Spawn(newId, now)], end);
  }

  function Approves(s: State, plan: Job): State {
    s.(rows := s.rows[plan.id := RowOf(plan.(status := Success))], decision := Approving(plan))
  }

  lemma SavesApproval(c: Config, s: State, plan: Job)
    requires Pending(s, plan)
    ensures Plays(c, s.(decision := Read(plan, true)), [DecideSave], Approves(s, plan))
  {
    PlaysOne(c, s.(decision := Read(plan, true)), DecideSave);
  }

  // --- Everything else ----------------------------------------------------------

  // The dispatcher comes round: it waits, clears the event, and lists.
  lemma DispatcherComesRound(c: Config, s: State, todo: seq<Job>)
    requires s.disp.Waiting? && IsListing(s.rows, LISTING_LIMIT, todo)
    ensures Plays(c, s, [WaitEnds] + [ClearWake] + [ListQueue(todo)],
                  s.(disp := Scanning(Item, todo), wake := false, listed := s.rows.Keys))
  {
    var s1, s2 := s.(disp := Woken), s.(disp := Listing, wake := false);
    PlaysOne(c, s, WaitEnds);
    PlaysOne(c, s1, ClearWake);
    PlaysOne(c, s2, ListQueue(todo));
    PlaysThen(c, s, [WaitEnds], s1, [ClearWake], s2);
    PlaysThen(c, s, [WaitEnds] + [ClearWake], s2, [ListQueue(todo)],
              s.(disp := Scanning(Item, todo), wake := false, listed := s.rows.Keys));
  }

  // A crash can come at any time, and a reboot with nothing left to recover
  // ends with a listing, before anything else is claimed.
  lemma RebootEnds(c: Config, s: State)
    requires forall id :: id in s.rows ==> s.rows[id].cols.status != Running
    ensures Plays(c, s, [Crash] + [BootList] + [BootDone],
                  s.(tasks := map[], disp := Listing, wake := false, decision := NoDecision, unnotified := {}))
  {
    var s1 := s.(tasks := map[], disp := Booting, wake := false, decision := NoDecision, unnotified := {});
    var s2 := s1.(disp := Recovering({}));
    assert RunningIds(s1.rows) == {};
    PlaysOne(c, s, Crash);
    PlaysOne(c, s1, BootList);
    PlaysOne(c, s2, BootDone);
    PlaysThen(c, s, [Crash], s1, [BootList], s2);
    PlaysThen(c, s, [Crash] + [BootList], s2, [BootDone], s2.(disp := Listing));
  }

  // A request that fails half-way leaves what it has saved.
  lemma DecisionIsDropped(c: Config, s: State)
    requires !s.decision.NoDecision?
    ensures Plays(c, s, [DecideAbort], s.(decision := NoDecision))
  {
    PlaysOne(c, s, DecideAbort);
  }

  // A round may fail while it lists or checks; the next one comes as usual.
  lemma RoundIsDropped(c: Config, s: State)
    requires s.disp.Listing? || s.disp.Scanning?
    ensures Plays(c, s, [RoundFails], s.(disp := Waiting, listed := if s.disp.Listing? then s.rows.Keys else s.listed))
  {
    PlaysOne(c, s, RoundFails);
  }

  // A job that a hook is granted is stored, and its creator wakes the
  // dispatcher; an operator may pause and resume an instance at any time.
  lemma HookJobIsStored(c: Config, s: State, j: Job, inst: HookInstance, ask: Ask)
    requires Serving(s) && NewJob(s.rows, j) && ApprovedFrom(j).None?
    requires ResolveParams(inst, ask) == Ok((j.deliverable, j.mode))
    ensures Plays(c, s, [HookCreate(j, inst, ask)] + [Notify(j.id)],
                  s.(rows := s.rows[j.id := RowOf(j)], unnotified := s.unnotified - {j.id},
                     notified := s.notified + {j.id}, wake := true))
  {
    var s1 := Created(s, j);
    PlaysOne(c, s, HookCreate(j, inst, ask));
    PlaysOne(c, s1, Notify(j.id));
    assert s.unnotified + {j.id} - {j.id} == s.unnotified - {j.id};
    PlaysThen(c, s, [HookCreate(j, inst, ask)], s1, [Notify(j.id)],
              s.(rows := s.rows[j.id := RowOf(j)], unnotified := s.unnotified - {j.id},
                 notified := s.notified + {j.id}, wake := true));
  }

  lemma PauseAndResume(c: Config, s: State, instance: string)
    requires Serving(s)
    ensures Plays(c, s, [Pause(instance)], s.(paused := s.paused + {instance}))
    ensures Plays(c, s, [Resume(instance)], s.(paused := s.paused - {instance}))
  {
    PlaysOne(c, s, Pause(instance));
    PlaysOne(c, s, Resume(instance));
  }

  // A claim that the pool refuses is undone, and the round ends.
  lemma RefusalEndsRound(c: Config, s: State)
    requires s.disp.Scanning? && s.disp.stage == Submit && s.disp.todo != []
    requires s.disp.todo[0].id in s.rows
    ensures Plays(c, s, [SubmitRefused],
                  s.(rows := s.rows[s.disp.todo[0].id := RowOf(s.disp.todo[0].(status := Queued))], disp := Waiting))
  {
    PlaysOne(c, s, SubmitRefused);
  }
}
