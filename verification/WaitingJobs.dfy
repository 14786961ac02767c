// Claims in a run of the whole engine: who leaves the queue, when, and who is
// never let out.

module WaitingJobs {
  import opened Models
  import opened Store
  import opened Dispatch
  import opened System
  import opened Invariant
  import opened Steps
  import opened Guarantees

  // The dispatcher is at the claim of `id`, and takes it.
  predicate Claiming(s: State, a: Action, id: string) {
    a == Advance && s.disp.Scanning? && s.disp.stage == Claim && s.disp.todo != [] && s.disp.todo[0].id == id
  }

  ghost predicate ClaimedBefore(states: seq<State>, actions: seq<Action>, k: nat, id: string)
    requires k <= |actions| < |states|
  {
    exists q: nat :: q < k && Claiming(states[q], actions[q], id)
  }

  lemma TaskSparesQueued(c: Config, s: State, k: string, act: TaskAct, id: string)
    requires TasksOk(s) && Enabled(c, s, Task(k, act)) && IsQueued(s.rows, id)
    ensures id in Do(c, s, Task(k, act)).rows && Do(c, s, Task(k, act)).rows[id] == s.rows[id]
  {
    TaskIsLocal(c, s, k, act);
  }

  lemma VerdictSparesQueued(c: Config, s: State, id: string)
    requires TasksOk(s) && DecisionOk(s) && Enabled(c, s, DecideSave) && IsQueued(s.rows, id)
    ensures id in Do(c, s, DecideSave).rows && Do(c, s, DecideSave).rows[id] == s.rows[id]
  {
    VerdictIsLocal(s);
  }

  lemma RecoverySparesQueued(c: Config, s: State, k: string, id: string)
    requires BootOk(s) && Enabled(c, s, RecoverOne(k)) && IsQueued(s.rows, id)
    ensures id in Do(c, s, RecoverOne(k)).rows && Do(c, s, RecoverOne(k)).rows[id] == s.rows[id]
  {
    assert k in RunningIds(s.rows);
  }

  lemma AdvanceSparesQueued(c: Config, s: State, id: string)
    requires Enabled(c, s, Advance) && IsQueued(s.rows, id) && !Claiming(s, Advance, id)
    ensures id in Do(c, s, Advance).rows && Do(c, s, Advance).rows[id] == s.rows[id]
  {
  }

  lemma RefusalSparesQueued(c: Config, s: State, id: string)
    requires TodoOk(s) && Enabled(c, s, SubmitRefused) && IsQueued(s.rows, id)
    ensures id in Do(c, s, SubmitRefused).rows && Do(c, s, SubmitRefused).rows[id] == s.rows[id]
  {
    assert Claimable(s, s.disp.todo[0]);
  }

  // Only its claim takes a job out of the queue; everybody else leaves the
  // row as it is.
  lemma OnlyClaimsUnqueue(c: Config, s: State, a: Action, id: string)
    requires Inv(c, s) && Enabled(c, s, a) && IsQueued(s.rows, id) && !Claiming(s, a, id)
    ensures id in Do(c, s, a).rows && Do(c, s, a).rows[id] == s.rows[id]
  {
    if a.Advance? {
      AdvanceSparesQueued(c, s, id);
    } else if a.SubmitRefused? {
      RefusalSparesQueued(c, s, id);
    } else {
      OthersSpareQueued(c, s, a, id);
    }
  }

  lemma OthersSpareQueued(c: Config, s: State, a: Action, id: string)
    requires TasksOk(s) && BootOk(s) && DecisionOk(s) && Enabled(c, s, a) && IsQueued(s.rows, id)
    requires !a.Advance? && !a.SubmitRefused?
    ensures id in Do(c, s, a).rows && Do(c, s, a).rows[id] == s.rows[id]
  {
    if a.Task? {
      TaskSparesQueued(c, s, a.id, a.act, id);
    } else if a.DecideSave? {
      VerdictSparesQueued(c, s, id);
    } else if a.RecoverOne? {
      RecoverySparesQueued(c, s, a.id, id);
    } else {
      OtherStepsSpare(c, s, a, id);
    }
  }

  lemma UnqueuedStep(c: Config, s: State, a: Action, id: string)
    requires Inv(c, s) && Enabled(c, s, a) && id in Do(c, s, a).rows && !IsQueued(Do(c, s, a).rows, id)
    ensures Claiming(s, a, id) || (id in s.rows && !IsQueued(s.rows, id))
  {
    if id in s.rows {
      if IsQueued(s.rows, id) && !Claiming(s, a, id) {
        OnlyClaimsUnqueue(c, s, a, id);
      }
    } else {
      NewRowsAreCreated(c, s, a, id);
      CreatedIsQueued(c, s, a);
    }
  }

  // So whoever is not in the queue has been claimed.
  lemma {:induction false} UnqueuedWasClaimed(c: Config, states: seq<State>, actions: seq<Action>, k: nat, id: string)
    requires IsRun(c, states, actions) && k <= |actions| && id in states[k].rows && !IsQueued(states[k].rows, id)
    ensures ClaimedBefore(states, actions, k, id)
    decreases k
  {
    var s, a := states[k - 1], actions[k - 1];
    ReachableInv(c, states, actions, k - 1);
    UnqueuedStep(c, s, a, id);
    if !Claiming(s, a, id) {
      UnqueuedWasClaimed(c, states, actions, k - 1, id);
      var q: nat :| q < k - 1 && Claiming(states[q], actions[q], id);
      assert q < k;
    }
  }

  lemma CreatedIsQueued(c: Config, s: State, a: Action)
    requires Enabled(c, s, a) && Creates(s, a).Some?
    ensures IsQueued(Do(c, s, a).rows, Creates(s, a).value.id)
  {
  }

  // --- Starvation ------------------------------------------------------------

  // Queued jobs of instances that are paused or gone.
  predicate Backlog(c: Config, s: State, olds: set<string>) {
    forall id :: id in olds ==> IsQueued(s.rows, id) && Stuck(c, s, s.rows[id].data.instance)
  }

  predicate Stuck(c: Config, s: State, instance: string) {
    instance in s.paused || !Exists(c, instance)
  }

  predicate NotYounger(s: State, j: Job, olds: set<string>) {
    exists id :: id in olds && id in s.rows && j.createdAt <= s.rows[id].data.createdAt
  }

  // The list at hand shows nobody younger than the whole backlog.
  predicate OldList(s: State, olds: set<string>) {
    s.disp.Scanning? ==> forall k :: 0 <= k < |s.disp.todo| ==> NotYounger(s, s.disp.todo[k], olds)
  }

  // None of the backlog has passed its first check.
  predicate NoneChecked(s: State, olds: set<string>) {
    s.disp.Scanning? && s.disp.todo != [] && s.disp.stage != Item ==> s.disp.todo[0].id !in olds
  }

  predicate Hidden(s: State, olds: set<string>) {
    OldList(s, olds) && NoneChecked(s, olds)
  }

  // An instance of the backlog that is not gone is resumed.
  predicate Resumes(c: Config, s: State, a: Action, olds: set<string>) {
    a.Resume? && Exists(c, a.instance)
    && exists id :: id in olds && id in s.rows && s.rows[id].data.instance == a.instance
  }

  lemma WholeListing(todo: seq<Job>, olds: set<string>, j: Job)
    requires |todo| <= |olds| && j in todo
    requires forall m, n :: 0 <= m < n < |todo| ==> todo[m].id != todo[n].id
    requires forall id :: id in olds ==> Lists(todo, id)
    ensures j.id in olds
  {
    var listed := set k | 0 <= k < |todo| :: todo[k].id;
    ListedIds(todo, |todo|);
    assert olds <= listed;
    if j.id !in olds {
      assert olds <= listed - {j.id};
      SubsetSize(olds, listed - {j.id});
    }
  }

  // A full backlog fills every listing.
  lemma ListingHides(rows: Rows, todo: seq<Job>, olds: set<string>, j: Job)
    requires WellFormed(rows) && IsListing(rows, LISTING_LIMIT, todo) && j in todo
    requires |olds| >= LISTING_LIMIT && forall id :: id in olds ==> IsQueued(rows, id)
    ensures exists id :: id in olds && j.createdAt <= rows[id].data.createdAt
  {
    if forall id :: id in olds ==> Lists(todo, id) {
      WholeListing(todo, olds, j);
      assert j.id in olds && rows[j.id].data == j;
    } else {
      var id :| id in olds && !Lists(todo, id);
      assert IsQueued(rows, id);
      var k :| 0 <= k < |todo| && todo[k] == j;
      assert todo[k].createdAt <= rows[id].data.createdAt;
    }
  }

  lemma ListingKeepsHidden(c: Config, s: State, todo: seq<Job>, olds: set<string>)
    requires Inv(c, s) && Enabled(c, s, ListQueue(todo)) && Backlog(c, s, olds) && |olds| >= LISTING_LIMIT
    ensures Hidden(Do(c, s, ListQueue(todo)), olds)
  {
    var s2 := Do(c, s, ListQueue(todo));
    forall k | 0 <= k < |todo|
      ensures NotYounger(s2, todo[k], olds)
    {
      ListingHides(s.rows, todo, olds, todo[k]);
    }
  }

  // None of the backlog is ever at its claim.
  lemma BacklogIsNotClaimed(c: Config, s: State, a: Action, olds: set<string>, id: string)
    requires Hidden(s, olds) && id in olds
    ensures !Claiming(s, a, id)
  {
  }

  lemma BacklogStays(c: Config, s: State, a: Action, olds: set<string>)
    requires Inv(c, s) && Enabled(c, s, a) && Backlog(c, s, olds) && Hidden(s, olds) && !Resumes(c, s, a, olds)
    ensures Backlog(c, Do(c, s, a), olds)
    ensures forall id :: id in olds ==> Do(c, s, a).rows[id] == s.rows[id]
  {
    forall id | id in olds
      ensures IsQueued(Do(c, s, a).rows, id) && Do(c, s, a).rows[id] == s.rows[id]
      ensures Stuck(c, Do(c, s, a), s.rows[id].data.instance)
    {
      BacklogIsNotClaimed(c, s, a, olds, id);
      OnlyClaimsUnqueue(c, s, a, id);
      StaysStuck(c, s, a, s.rows[id].data.instance);
    }
  }

  lemma StaysStuck(c: Config, s: State, a: Action, instance: string)
    requires Enabled(c, s, a) && Stuck(c, s, instance) && !(a == Resume(instance) && Exists(c, instance))
    ensures Stuck(c, Do(c, s, a), instance)
  {
  }

  // How the dispatcher's list may change in one step.
  lemma ListMoves(c: Config, s: State, a: Action)
    requires Enabled(c, s, a) && Do(c, s, a).disp.Scanning?
    ensures var d, d2 := s.disp, Do(c, s, a).disp;
      || a == ListQueue(d2.todo)
      || (d.Scanning? && d2 == d)
      || (d.Scanning? && a == Advance && d.todo != [] && Passes(c, s, d.stage, d.todo[0])
          && d2 == Scanning(NextStage(d.stage), d.todo))
      || (d.Scanning? && a == Advance && d.todo != [] && !Passes(c, s, d.stage, d.todo[0])
          && d2 == Scanning(Item, d.todo[1..]))
  {
  }

  lemma HiddenStays(c: Config, s: State, a: Action, olds: set<string>)
    requires Inv(c, s) && Enabled(c, s, a) && Backlog(c, s, olds) && Hidden(s, olds) && |olds| >= LISTING_LIMIT
    requires !Resumes(c, s, a, olds)
    ensures Hidden(Do(c, s, a), olds)
  {
    if a.ListQueue? {
      ListingKeepsHidden(c, s, a.todo, olds);
    } else {
      ListKeepsOld(c, s, a, olds);
      FirstIsNotOld(c, s, a, olds);
    }
  }

  lemma ListKeepsOld(c: Config, s: State, a: Action, olds: set<string>)
    requires Inv(c, s) && Enabled(c, s, a) && Backlog(c, s, olds) && Hidden(s, olds)
    requires !a.ListQueue? && !Resumes(c, s, a, olds)
    ensures OldList(Do(c, s, a), olds)
  {
    if Do(c, s, a).disp.Scanning? {
      ListShrinks(c, s, a);
      BacklogStays(c, s, a, olds);
      ListStaysOld(s, Do(c, s, a), olds);
    }
  }

  lemma ListShrinks(c: Config, s: State, a: Action)
    requires Enabled(c, s, a) && !a.ListQueue? && Do(c, s, a).disp.Scanning?
    ensures s.disp.Scanning?
    ensures var todo, todo2 := s.disp.todo, Do(c, s, a).disp.todo; todo2 == todo || (todo != [] && todo2 == todo[1..])
  {
    ListMoves(c, s, a);
  }

  lemma ListStaysOld(s: State, s2: State, olds: set<string>)
    requires s.disp.Scanning? && s2.disp.Scanning?
    requires forall k :: 0 <= k < |s.disp.todo| ==> NotYounger(s, s.disp.todo[k], olds)
    requires forall id :: id in olds && id in s.rows ==> id in s2.rows && s2.rows[id] == s.rows[id]
    requires s2.disp.todo == s.disp.todo || (s.disp.todo != [] && s2.disp.todo == s.disp.todo[1..])
    ensures forall k :: 0 <= k < |s2.disp.todo| ==> NotYounger(s2, s2.disp.todo[k], olds)
  {
    forall k | 0 <= k < |s2.disp.todo|
      ensures NotYounger(s2, s2.disp.todo[k], olds)
    {
      var m := k + |s.disp.todo| - |s2.disp.todo|;
      assert NotYounger(s, s.disp.todo[m], olds) && s.disp.todo[m] == s2.disp.todo[k];
    }
  }

  lemma FirstIsNotOld(c: Config, s: State, a: Action, olds: set<string>)
    requires TodoOk(s) && Enabled(c, s, a) && Backlog(c, s, olds) && NoneChecked(s, olds) && !a.ListQueue?
    ensures NoneChecked(Do(c, s, a), olds)
  {
    if Do(c, s, a).disp.Scanning? {
      ListMoves(c, s, a);
      if s.disp.todo != [] && s.disp.stage == Item {
        assert QueuedAs(s.rows, s.disp.todo[0]);
      }
    }
  }

  predicate Starved(c: Config, s: State, olds: set<string>) {
    Backlog(c, s, olds) && Hidden(s, olds)
  }

  ghost predicate StarvesOn(c: Config, states: seq<State>, n: nat, olds: set<string>)
    requires n + 1 < |states|
  {
    Starved(c, states[n], olds) ==> Starved(c, states[n + 1], olds)
  }

  lemma {:induction false} StarvedSince(c: Config, states: seq<State>, i: nat, k: nat, olds: set<string>)
    requires i <= k < |states| && Starved(c, states[i], olds)
    requires forall n :: i <= n < k ==> StarvesOn(c, states, n, olds)
    ensures Starved(c, states[k], olds)
    decreases k
  {
    if i < k {
      StarvedSince(c, states, i, k - 1, olds);
      assert StarvesOn(c, states, k - 1, olds);
    }
  }

  lemma NextStarves(c: Config, states: seq<State>, actions: seq<Action>, k: nat, olds: set<string>)
    requires IsRun(c, states, actions) && k < |actions|
    requires |olds| >= LISTING_LIMIT && Starved(c, states[k], olds) && !Resumes(c, states[k], actions[k], olds)
    ensures Starved(c, states[k + 1], olds)
  {
    ReachableInv(c, states, actions, k);
    BacklogStays(c, states[k], actions[k], olds);
    HiddenStays(c, states[k], actions[k], olds);
  }

  lemma HiddenIsNotYounger(s: State, a: Action, olds: set<string>)
    requires Hidden(s, olds)
    ensures forall id :: Claiming(s, a, id) ==> NotYounger(s, s.disp.todo[0], olds)
  {
  }

  // A backlog of 100 queued jobs of instances that are paused or gone
  // starves everybody: from any moment between two rounds on, until one of the
  // paused instances is resumed, in every run, crashes included, no job younger
  // than all of the backlog is claimed, and the backlog stays.
  lemma BacklogStarves(c: Config, states: seq<State>, actions: seq<Action>, i: nat, k: nat, olds: set<string>)
    requires IsRun(c, states, actions) && i <= k <= |actions|
    requires |olds| >= 100 && Backlog(c, states[i], olds) && !states[i].disp.Scanning?
    requires forall n :: i <= n < k ==> !Resumes(c, states[n], actions[n], olds)
    ensures Backlog(c, states[k], olds) && Hidden(states[k], olds)
    ensures k < |actions| ==> forall id :: Claiming(states[k], actions[k], id)
                                           ==> NotYounger(states[k], states[k].disp.todo[0], olds)
  {
    forall n | i <= n < k
      ensures StarvesOn(c, states, n, olds)
    {
      if Starved(c, states[n], olds) {
        NextStarves(c, states, actions, n, olds);
      }
    }
    StarvedSince(c, states, i, k, olds);
    if k < |actions| {
      HiddenIsNotYounger(states[k], actions[k], olds);
    }
  }

  // Nothing ends it when all of these instances are gone.
  lemma GoneStarvesForever(c: Config, states: seq<State>, actions: seq<Action>, i: nat, k: nat, olds: set<string>)
    requires IsRun(c, states, actions) && i <= k <= |actions| && |olds| >= 100 && !states[i].disp.Scanning?
    requires forall id :: id in olds ==> IsQueued(states[i].rows, id) && !Exists(c, states[i].rows[id].data.instance)
    ensures Backlog(c, states[k], olds)
    ensures k < |actions| ==> forall id :: Claiming(states[k], actions[k], id)
                                           ==> NotYounger(states[k], states[k].disp.todo[0], olds)
  {
    forall n | i <= n < k
      ensures !Resumes(c, states[n], actions[n], olds)
    {
      RunKeeps(c, states, actions, i, n);
    }
    BacklogStarves(c, states, actions, i, k, olds);
  }
}
