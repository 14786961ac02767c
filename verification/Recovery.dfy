// What a boot settles, and who runs in between: over any run, a row that says
// running has a thread, unless its thread has been lost since the last boot.

module Recovery {
  import opened Models
  import opened Store
  import opened Dispatch
  import opened System
  import opened Invariant
  import opened Steps

  predicate RowRuns(rows: Rows, id: string) {
    id in rows && rows[id].cols.status == Running
  }

  // --- A boot leaves nothing running ----------------------------------------------

  // What still runs is on the list of the recovery.
  ghost predicate AllFound(s: State) {
    s.disp.Recovering? ==> forall id :: RowRuns(s.rows, id) ==> id in s.disp.rest
  }

  lemma StepFinds(c: Config, s: State, a: Action)
    requires BootOk(s) && AllFound(s) && Enabled(c, s, a)
    ensures AllFound(Do(c, s, a))
  {
    if s.disp.Recovering? && a.RecoverOne? {
      var rows := Do(c, s, a).rows;
      forall id | RowRuns(rows, id)
        ensures id in s.disp.rest - {a.id}
      {
        assert RowRuns(s.rows, id);
      }
    }
  }

  lemma NextFinds(c: Config, states: seq<State>, actions: seq<Action>, k: nat)
    requires IsRun(c, states, actions) && k < |actions| && AllFound(states[k])
    ensures AllFound(states[k + 1])
  {
    ReachableInv(c, states, actions, k);
    StepFinds(c, states[k], actions[k]);
  }

  lemma {:induction false} AlwaysFound(c: Config, states: seq<State>, actions: seq<Action>, k: nat)
    requires IsRun(c, states, actions) && k <= |actions|
    ensures AllFound(states[k])
    decreases k
  {
    if k > 0 {
      AlwaysFound(c, states, actions, k - 1);
      NextFinds(c, states, actions, k - 1);
    }
  }

  // When the recovery is through, neither a column nor a data copy says
  // running.
  lemma RecoveryIsComplete(c: Config, states: seq<State>, actions: seq<Action>, k: nat, id: string)
    requires IsRun(c, states, actions) && k < |actions| && actions[k] == BootDone && id in states[k].rows
    ensures states[k].rows[id].cols.status != Running && states[k].rows[id].data.status != Running
  {
    AlwaysFound(c, states, actions, k);
    ReachableInv(c, states, actions, k);
    assert Enabled(c, states[k], actions[k]);
    assert !RowRuns(states[k].rows, id);
  }

  // --- Who runs has a thread -------------------------------------------------------

  // Claimed, and about to be given to the pool.
  predicate InHand(s: State, id: string) {
    s.disp.Scanning? && s.disp.stage == Submit && s.disp.todo != [] && s.disp.todo[0].id == id
  }

  predicate Owned(s: State, id: string) {
    id in s.tasks || InHand(s, id)
  }

  // The steps that leave a row to itself: its thread dies, or the round does
  // between the claim and the submission.
  predicate Loses(s: State, a: Action, id: string) {
    a == Task(id, Vanish) || (a == RoundFails && InHand(s, id))
  }

  // A thread that ends leaves its row in another status.
  lemma EndsNotRunning(row: Row, ph: Phase, act: TaskAct, p: bool)
    requires TaskRow(row, ph) && TaskEnabled(ph, act) && act != Vanish
    ensures TaskStep(row, ph, act, p).1.None? ==> TaskStep(row, ph, act, p).0.cols.status != Running
  {
  }

  lemma ThreadKeeps(c: Config, s: State, k: string, act: TaskAct, id: string)
    requires TasksOk(s) && Enabled(c, s, Task(k, act)) && (RowRuns(s.rows, id) ==> Owned(s, id))
    requires !Loses(s, Task(k, act), id) && RowRuns(Do(c, s, Task(k, act)).rows, id)
    ensures Owned(Do(c, s, Task(k, act)), id)
  {
    if k == id {
      EndsNotRunning(s.rows[k], s.tasks[k], act, s.rows[k].data.instance in s.paused);
    } else {
      assert RowRuns(s.rows, id);
    }
  }

  lemma DispatcherKeeps(c: Config, s: State, id: string)
    requires TodoOk(s) && Enabled(c, s, Advance) && (RowRuns(s.rows, id) ==> Owned(s, id))
    requires RowRuns(Do(c, s, Advance).rows, id)
    ensures Owned(Do(c, s, Advance), id)
  {
  }

  lemma OthersKeep(c: Config, s: State, a: Action, id: string)
    requires TodoOk(s) && Enabled(c, s, a) && Serving(s) && (RowRuns(s.rows, id) ==> Owned(s, id))
    requires !a.Task? && !a.Advance? && a != Crash && !Loses(s, a, id) && RowRuns(Do(c, s, a).rows, id)
    ensures Owned(Do(c, s, a), id)
  {
  }

  lemma StepOwned(c: Config, s: State, a: Action, id: string)
    requires TasksOk(s) && TodoOk(s) && AllFound(s) && Enabled(c, s, a) && a != Crash && !Loses(s, a, id)
    requires Serving(s) && RowRuns(s.rows, id) ==> Owned(s, id)
    requires Serving(Do(c, s, a)) && RowRuns(Do(c, s, a).rows, id)
    ensures Owned(Do(c, s, a), id)
  {
    if Serving(s) {
      if a.Task? {
        ThreadKeeps(c, s, a.id, a.act, id);
      } else if a.Advance? {
        DispatcherKeeps(c, s, id);
      } else {
        OthersKeep(c, s, a, id);
      }
    }
  }

  lemma NextOwned(c: Config, states: seq<State>, actions: seq<Action>, k: nat, id: string)
    requires IsRun(c, states, actions) && k < |actions| && Serving(states[k + 1]) && RowRuns(states[k + 1].rows, id)
    requires Serving(states[k]) && RowRuns(states[k].rows, id) ==> Owned(states[k], id)
    requires !Loses(states[k], actions[k], id)
    ensures Owned(states[k + 1], id)
  {
    ReachableInv(c, states, actions, k);
    AlwaysFound(c, states, actions, k);
    StepOwned(c, states[k], actions[k], id);
  }

  // Lost at step `j`, with no crash from there to state `k`.
  predicate LostSince(states: seq<State>, actions: seq<Action>, j: nat, k: nat, id: string)
    requires k <= |actions| < |states|
  {
    j < k && Loses(states[j], actions[j], id) && forall i :: j < i < k ==> actions[i] != Crash
  }

  predicate Kept(states: seq<State>, actions: seq<Action>, j: nat, k: nat, id: string)
    requires k <= |actions| < |states|
  {
    Serving(states[k]) && RowRuns(states[k].rows, id) ==>
      Owned(states[k], id) || LostSince(states, actions, j, k, id)
  }

  lemma LostStaysLost(states: seq<State>, actions: seq<Action>, j: nat, k: nat, id: string)
    requires k < |actions| < |states| && LostSince(states, actions, j, k, id) && actions[k] != Crash
    ensures LostSince(states, actions, j, k + 1, id)
  {
  }

  lemma NextKept(c: Config, states: seq<State>, actions: seq<Action>, j: nat, k: nat, id: string) returns (n: nat)
    requires IsRun(c, states, actions) && k < |actions| && Kept(states, actions, j, k, id)
    ensures Kept(states, actions, n, k + 1, id)
  {
    n := j;
    if Serving(states[k + 1]) && RowRuns(states[k + 1].rows, id) {
      if Loses(states[k], actions[k], id) {
        n := k;
      } else if Serving(states[k]) && RowRuns(states[k].rows, id) && !Owned(states[k], id) {
        assert Enabled(c, states[k], actions[k]);
        LostStaysLost(states, actions, j, k, id);
      } else {
        NextOwned(c, states, actions, k, id);
      }
    }
  }

  lemma {:induction false} AlwaysKept(c: Config, states: seq<State>, actions: seq<Action>, k: nat, id: string)
    returns (j: nat)
    requires IsRun(c, states, actions) && k <= |actions|
    ensures Kept(states, actions, j, k, id)
    decreases k
  {
    if k == 0 {
      j := 0;
    } else {
      var i := AlwaysKept(c, states, actions, k - 1, id);
      j := NextKept(c, states, actions, i, k - 1, id);
    }
  }

  // While the server is up, a running row has its thread or is in the hands of
  // the dispatcher, unless it has been lost since the last crash.
  lemma RunningHasAThread(c: Config, states: seq<State>, actions: seq<Action>, k: nat, id: string) returns (j: nat)
    requires IsRun(c, states, actions) && k <= |actions| && Serving(states[k]) && RowRuns(states[k].rows, id)
    ensures id in states[k].tasks || InHand(states[k], id) || LostSince(states, actions, j, k, id)
  {
    j := AlwaysKept(c, states, actions, k, id);
  }
}
