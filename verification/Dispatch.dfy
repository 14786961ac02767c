// One round of the dispatcher taken on its own: which queued jobs it claims,
// and in which order. The interleaved dispatcher is in System.

module Dispatch {
  import opened Models
  import opened Store

  // `concurrency` is the value of the instance's limit of that name, if any.
  datatype Config = Config(concurrency: map<string, Option<int>>, defaultConcurrency: int)

  const LISTING_LIMIT: nat := 100

  predicate Exists(c: Config, instance: string) {
    instance in c.concurrency
  }

  // A limit of 0 is falsy, so it selects the default like an absent one.
  function Concurrency(c: Config, instance: string): int
    requires Exists(c, instance)
  {
    var own := c.concurrency[instance];
    if own.Some? && own.value != 0 then own.value else c.defaultConcurrency
  }

  predicate SessionFree(rows: Rows, j: Job) {
    !Truthy(j.sessionId) || SessionRunningIds(rows, j.sessionId.value) == {}
  }

  predicate RepoFree(rows: Rows, j: Job) {
    !j.deliverable.MutatesCode() || MutatingRunningIds(rows, j.instance) == {}
  }

  predicate Eligible(c: Config, paused: set<string>, rows: Rows, j: Job) {
    && Exists(c, j.instance)
    && j.instance !in paused
    && |RunningIn(rows, j.instance)| < Concurrency(c, j.instance)
    && SessionFree(rows, j)
    && RepoFree(rows, j)
  }

  // The table after one job of the snapshot, and the id claimed if any.
  function AfterCheck(c: Config, paused: set<string>, rows: Rows, j: Job): Rows {
    if Eligible(c, paused, rows, j) then Claimed(rows, j.id) else rows
  }

  function ClaimedBy(c: Config, paused: set<string>, rows: Rows, j: Job): seq<string> {
    if Eligible(c, paused, rows, j) && IsQueued(rows, j.id) then [j.id] else []
  }

  // The table after a round over `todo`, and the ids it claimed in order.
  function Round(c: Config, paused: set<string>, rows: Rows, todo: seq<Job>): Rows {
    if todo == [] then rows
    else Round(c, paused, AfterCheck(c, paused, rows, todo[0]), todo[1..])
  }

  function Claims(c: Config, paused: set<string>, rows: Rows, todo: seq<Job>): seq<string> {
    if todo == [] then []
    else ClaimedBy(c, paused, rows, todo[0]) + Claims(c, paused, AfterCheck(c, paused, rows, todo[0]), todo[1..])
  }

  lemma RoundSplits(c: Config, paused: set<string>, rows: Rows, log: seq<string>, todo: seq<Job>, k: nat)
    requires k < |todo|
    ensures Round(c, paused, rows, todo[k..]) == Round(c, paused, AfterCheck(c, paused, rows, todo[k]), todo[k + 1..])
    ensures log + Claims(c, paused, rows, todo[k..])
         == log + ClaimedBy(c, paused, rows, todo[k])
            + Claims(c, paused, AfterCheck(c, paused, rows, todo[k]), todo[k + 1..])
  {
    assert todo[k..][0] == todo[k] && todo[k..][1..] == todo[k + 1..];
  }

  // Queued, and as the table has it.
  predicate Listed(rows: Rows, j: Job) {
    IsQueued(rows, j.id) && rows[j.id].data == j
  }

  class Worker {
    const store: JobStore
    const cfg: Config
    var paused: set<string>     // instances whose configuration says paused
    var stopping: bool          // the stop event
    var poolClosed: bool        // the pool refuses new work
    var submitted: seq<string>  // what the pool was given, in order

    constructor (store: JobStore, cfg: Config)
      ensures this.store == store && this.cfg == cfg && submitted == [] && paused == {} && !stopping && !poolClosed
    {
      this.store, this.cfg := store, cfg;
      paused, stopping, poolClosed, submitted := {}, false, false, [];
    }

    predicate IsEligible(j: Job)
      reads this, store
    {
      Eligible(cfg, paused, store.rows, j)
    }

    // A round during which nobody else writes. Stopped, it does nothing; with
    // a closed pool it claims at most one job and puts that one back.
    method DispatchRound() returns (ghost listing: seq<Job>)
      requires store.Valid()
      modifies store, this`submitted
      ensures store.Valid()
      ensures IsListing(old(store.rows), LISTING_LIMIT, listing)
      ensures RoundLeaves(old(store.rows), old(submitted), listing)
    {
      var todo := store.QueuedJobs(LISTING_LIMIT);
      listing := todo;
      ghost var k := DispatchAll(todo);
      RoundOver(old(store.rows), old(submitted), todo, k);
    }

    // The jobs of the snapshot, one after the other; it stops after `k` of them.
    method DispatchAll(todo: seq<Job>) returns (ghost k: nat)
      requires store.Valid() && forall k :: 0 <= k < |todo| ==> Listed(store.rows, todo[k])
      modifies store, this`submitted
      ensures store.Valid() && k <= |todo|
      ensures RoundSoFar(old(store.rows), old(submitted), todo, k)
      ensures (stopping ==> k == 0) && (k < |todo| ==> stopping || poolClosed)
    {
      ghost var was, before := store.rows, submitted;
      var next := 0;
      k := 0;
      while next < |todo|
        invariant k == next <= |todo| && store.Valid()
        invariant stopping ==> k == 0
        invariant RoundSoFar(was, before, todo, k)
      {
        if stopping {
          return;
        }
        var goOn := DispatchOne(was, before, todo, next);
        next, k := next + 1, k + 1;
        if !goOn {
          return;
        }
      }
    }

    // What a whole round over `todo` has led to.
    ghost predicate RoundLeaves(was: Rows, before: seq<string>, todo: seq<Job>)
      reads this, store
    {
      if stopping || poolClosed then store.rows == was && submitted == before
      else
        && store.rows == Round(cfg, paused, was, todo)
        && submitted == before + Claims(cfg, paused, was, todo)
    }

    lemma RoundOver(was: Rows, before: seq<string>, todo: seq<Job>, k: nat)
      requires k <= |todo| && RoundSoFar(was, before, todo, k)
      requires (stopping ==> k == 0) && (k < |todo| ==> stopping || poolClosed)
      ensures RoundLeaves(was, before, todo)
    {
      assert todo[|todo|..] == [];
    }

    // What the first `k` jobs of the snapshot have led to.
    ghost predicate RoundSoFar(was: Rows, before: seq<string>, todo: seq<Job>, k: nat)
      requires k <= |todo|
      reads this, store
    {
      if poolClosed || k == 0 then store.rows == was && submitted == before
      else
        && Round(cfg, paused, was, todo) == Round(cfg, paused, store.rows, todo[k..])
        && before + Claims(cfg, paused, was, todo) == submitted + Claims(cfg, paused, store.rows, todo[k..])
    }

    // Job `k` of the round; false when the pool turned it down.
    method DispatchOne(ghost was: Rows, ghost before: seq<string>, todo: seq<Job>, k: nat) returns (goOn: bool)
      requires store.Valid() && WellFormed(was)
      requires k < |todo| && Listed(was, todo[k])
      requires RoundSoFar(was, before, todo, k)
      modifies store, this`submitted
      ensures store.Valid()
      ensures RoundSoFar(was, before, todo, k + 1)
      ensures goOn || poolClosed
    {
      assert todo[0..] == todo;
      RoundSplits(cfg, paused, store.rows, submitted, todo, k);
      goOn := CheckAndClaim(was, todo[k]);
    }

    method CheckAndClaim(ghost was: Rows, job: Job) returns (goOn: bool)
      requires store.Valid() && WellFormed(was)
      requires Listed(was, job)
      requires poolClosed ==> store.rows == was
      modifies store, this`submitted
      ensures store.Valid()
      ensures !goOn <==> poolClosed && Eligible(cfg, paused, old(store.rows), job) && IsQueued(old(store.rows), job.id)
      ensures poolClosed ==> store.rows == old(store.rows) && submitted == old(submitted)
      ensures !poolClosed ==>
        && store.rows == AfterCheck(cfg, paused, old(store.rows), job)
        && submitted == old(submitted) + ClaimedBy(cfg, paused, old(store.rows), job)
    {
      if !IsEligible(job) {
        return true;
      }
      var won := store.ClaimJob(job.id);
      if won {
        if poolClosed {
          ClaimUndoneBySave(was, job);
          var saved := PutBack(job);
          return false;
        }
        submitted := submitted + [job.id];
      }
      goOn := true;
    }

    method PutBack(job: Job) returns (r: Result<(), StoreError>)
      requires store.Valid() && job.id in store.rows && !Conflicts(store.rows, job)
      modifies store
      ensures store.Valid() && r.Ok?
      ensures store.rows == Saved(old(store.rows), job.(status := Queued))
    {
      r := store.SaveJob(job.(status := Queued));
    }
  }

  // --- What a round achieves ----------------------------------------------

  // `later` is `rows` after claims only: running rows are still running.
  ghost predicate OnlyClaims(rows: Rows, later: Rows) {
    && later.Keys == rows.Keys
    && forall id :: id in rows ==>
         later[id] == rows[id] || (IsQueued(rows, id) && later[id] == WithStatus(rows[id], Running))
  }

  lemma {:induction false} RoundOnlyClaims(c: Config, paused: set<string>, rows: Rows, todo: seq<Job>)
    ensures OnlyClaims(rows, Round(c, paused, rows, todo))
    decreases |todo|
  {
    if todo != [] {
      RoundOnlyClaims(c, paused, AfterCheck(c, paused, rows, todo[0]), todo[1..]);
    }
  }

  lemma SubsetSize(a: set<string>, b: set<string>)
    requires a <= b
    ensures |a| <= |b|
  {
    assert b == a + (b - a);
  }

  // Claims never make an ineligible job eligible.
  lemma IneligibleStays(c: Config, paused: set<string>, rows: Rows, later: Rows, j: Job)
    requires OnlyClaims(rows, later)
    requires Eligible(c, paused, later, j)
    ensures Eligible(c, paused, rows, j)
  {
    assert RunningIn(rows, j.instance) <= RunningIn(later, j.instance);
    SubsetSize(RunningIn(rows, j.instance), RunningIn(later, j.instance));
    if Truthy(j.sessionId) {
      assert SessionRunningIds(rows, j.sessionId.value) <= SessionRunningIds(later, j.sessionId.value);
    }
    assert MutatingRunningIds(rows, j.instance) <= MutatingRunningIds(later, j.instance);
  }

  // No job of the snapshot is left both queued and eligible.
  lemma {:induction false} RoundIsMaximal(c: Config, paused: set<string>, rows: Rows, todo: seq<Job>, k: nat)
    requires k < |todo|
    ensures var after := Round(c, paused, rows, todo);
      !(IsQueued(after, todo[k].id) && Eligible(c, paused, after, todo[k]))
    decreases |todo|
  {
    var after := Round(c, paused, rows, todo);
    var next := AfterCheck(c, paused, rows, todo[0]);
    assert after == Round(c, paused, next, todo[1..]);
    if k > 0 {
      assert todo[1..][k - 1] == todo[k];
      RoundIsMaximal(c, paused, next, todo[1..], k - 1);
    } else {
      RoundOnlyClaims(c, paused, next, todo[1..]);
      if !Eligible(c, paused, rows, todo[0]) && Eligible(c, paused, after, todo[0]) {
        IneligibleStays(c, paused, rows, after, todo[0]);
      }
    }
  }

  // A running row of the session of `j`, or a running, code-mutating one of
  // its instance, read off the columns.
  predicate RunsInSession(row: Row, j: Job) {
    row.cols.status == Running && row.cols.sessionId == j.sessionId && j.sessionId.Some? && j.sessionId.value != ""
  }

  predicate MutatesBeside(row: Row, j: Job) {
    row.cols.status == Running && row.cols.instance == j.instance && row.cols.deliverable in {Patch, Commit, PR}
  }

  // What keeps a listed job in the queue, said from the configuration itself:
  // an instance that is there and not paused, with nothing in the way of the
  // job, runs as many jobs as its own limit, or else the default, says.
  lemma LeftQueuedAtItsLimit(c: Config, paused: set<string>, rows: Rows, todo: seq<Job>, k: nat)
    requires k < |todo| && IsQueued(Round(c, paused, rows, todo), todo[k].id)
    requires todo[k].instance in c.concurrency && todo[k].instance !in paused
    requires var after := Round(c, paused, rows, todo);
      forall id :: id in after ==> !RunsInSession(after[id], todo[k])
    requires var after := Round(c, paused, rows, todo);
      todo[k].deliverable in {Patch, Commit, PR} ==> forall id :: id in after ==> !MutatesBeside(after[id], todo[k])
    ensures var running := |RunningIn(Round(c, paused, rows, todo), todo[k].instance)|;
      match c.concurrency[todo[k].instance]
      case Some(n) => running >= if n != 0 then n else c.defaultConcurrency
      case None => running >= c.defaultConcurrency
  {
    var after, j := Round(c, paused, rows, todo), todo[k];
    RoundIsMaximal(c, paused, rows, todo, k);
    assert SessionFree(after, j) by {
      assert Truthy(j.sessionId) ==>
          forall id :: id in SessionRunningIds(after, j.sessionId.value) ==> RunsInSession(after[id], j);
    }
    assert RepoFree(after, j) by {
      assert forall id :: id in MutatingRunningIds(after, j.instance) ==> MutatesBeside(after[id], j);
    }
  }

  // The listing shows at most LISTING_LIMIT jobs. A queued job is left behind
  // although it could run only when the listing was full of jobs at least as
  // old; with fewer queued jobs a round leaves nothing that could run.
  lemma LeftBehindOnlyByFullListing(c: Config, paused: set<string>, rows: Rows, todo: seq<Job>, id: string)
    requires WellFormed(rows) && IsListing(rows, LISTING_LIMIT, todo)
    requires var after := Round(c, paused, rows, todo);
      IsQueued(after, id) && Eligible(c, paused, after, after[id].data)
    ensures |todo| == 100 && !Lists(todo, id)
    ensures id in rows && forall k :: 0 <= k < |todo| ==> todo[k].createdAt <= rows[id].data.createdAt
    ensures 100 < |QueuedIds(rows)|
  {
    RoundOnlyClaims(c, paused, rows, todo);
    if Lists(todo, id) {
      var k :| 0 <= k < |todo| && todo[k].id == id;
      RoundIsMaximal(c, paused, rows, todo, k);
    }
    UnlistedExceeds(rows, todo, id);
  }

  // Whoever a listing leaves out is one queued job more.
  lemma UnlistedExceeds(rows: Rows, todo: seq<Job>, id: string)
    requires IsListing(rows, LISTING_LIMIT, todo) && IsQueued(rows, id) && !Lists(todo, id)
    ensures |todo| < |QueuedIds(rows)|
  {
    var listed := set k | 0 <= k < |todo| :: todo[k].id;
    ListedIds(todo, |todo|);
    assert listed + {id} <= QueuedIds(rows);
    SubsetSize(listed + {id}, QueuedIds(rows));
  }

  lemma {:induction false} ListedIds(todo: seq<Job>, n: nat)
    requires n <= |todo| && forall i, j :: 0 <= i < j < |todo| ==> todo[i].id != todo[j].id
    ensures |set k | 0 <= k < n :: todo[k].id| == n
  {
    var ids := set k | 0 <= k < n :: todo[k].id;
    if n == 0 {
      assert ids == {};
    } else {
      ListedIds(todo, n - 1);
      assert ids == (set k | 0 <= k < n - 1 :: todo[k].id) + {todo[n - 1].id};
    }
  }

  // Such a backlog starves everyone: while the oldest listed jobs all belong
  // to paused instances, a round claims nothing at all.
  lemma {:induction false} PausedBacklogStarves(c: Config, paused: set<string>, rows: Rows, todo: seq<Job>)
    requires forall k :: 0 <= k < |todo| ==> todo[k].instance in paused
    ensures Round(c, paused, rows, todo) == rows && Claims(c, paused, rows, todo) == []
    decreases |todo|
  {
    if todo != [] {
      PausedBacklogStarves(c, paused, rows, todo[1..]);
    }
  }

  // --- Order ---------------------------------------------------------------

  // Jobs that wait for the same things.
  predicate SameQueue(x: Job, y: Job) {
    x.instance == y.instance && x.sessionId == y.sessionId
  }

  lemma EligibleTransfers(c: Config, paused: set<string>, rows: Rows, x: Job, y: Job)
    requires SameQueue(x, y) && (x.deliverable.MutatesCode() ==> y.deliverable.MutatesCode())
    requires Eligible(c, paused, rows, y)
    ensures Eligible(c, paused, rows, x)
  {
  }

  // A job claimed in a round does not overtake an older queued job of its
  // instance and session, unless only the older one mutates code: the older
  // one is claimed in the same round, before it.
  lemma {:induction false} NoOvertaking(c: Config, paused: set<string>, rows: Rows, todo: seq<Job>, i: nat, j: nat)
    requires i < j < |todo| && forall m, n :: 0 <= m < n < |todo| ==> todo[m].id != todo[n].id
    requires IsQueued(rows, todo[i].id)
    requires SameQueue(todo[i], todo[j])
    requires todo[i].deliverable.MutatesCode() ==> todo[j].deliverable.MutatesCode()
    requires todo[j].id in Claims(c, paused, rows, todo)
    ensures Before(Claims(c, paused, rows, todo), todo[i].id, todo[j].id)
    decreases |todo|
  {
    var x, y := todo[i], todo[j];
    var rest := todo[1..];
    var next := AfterCheck(c, paused, rows, todo[0]);
    var first := ClaimedBy(c, paused, rows, todo[0]);
    var claims := Claims(c, paused, rows, todo);
    assert claims == first + Claims(c, paused, next, rest);
    assert rest[j - 1] == y;
    if i > 0 {
      assert rest[i - 1] == x;
      NoOvertaking(c, paused, next, rest, i - 1, j - 1);
      forall q | 0 <= q < |claims| && claims[q] == y.id
        ensures exists p :: 0 <= p < q && claims[p] == x.id
      {
        var later := Claims(c, paused, next, rest);
        assert q >= |first| && later[q - |first|] == y.id;
        var p :| 0 <= p < q - |first| && later[p] == x.id;
        assert claims[p + |first|] == x.id;
      }
    } else {
      OlderWasEligible(c, paused, rows, todo, i, j);
      assert claims[0] == x.id;
    }
  }

  lemma OlderWasEligible(c: Config, paused: set<string>, rows: Rows, todo: seq<Job>, i: nat, j: nat)
    requires i < j < |todo| && forall m, n :: 0 <= m < n < |todo| ==> todo[m].id != todo[n].id
    requires SameQueue(todo[i], todo[j])
    requires todo[i].deliverable.MutatesCode() ==> todo[j].deliverable.MutatesCode()
    requires todo[j].id in Claims(c, paused, rows, todo)
    ensures Eligible(c, paused, rows, todo[i])
  {
    ClaimedWasEligible(c, paused, rows, todo, todo[j].id);
    var k :| 0 <= k < |todo| && todo[k].id == todo[j].id && Eligible(c, paused, rows, todo[k]);
    assert k == j;
    EligibleTransfers(c, paused, rows, todo[i], todo[j]);
  }

  // Every claim of `y` comes after a claim of `x`.
  ghost predicate Before(log: seq<string>, x: string, y: string) {
    forall q :: 0 <= q < |log| && log[q] == y ==> exists p :: 0 <= p < q && log[p] == x
  }

  lemma {:induction false} ClaimedWasEligible(c: Config, paused: set<string>, rows: Rows, todo: seq<Job>, id: string)
    requires id in Claims(c, paused, rows, todo)
    ensures exists k :: 0 <= k < |todo| && todo[k].id == id && Eligible(c, paused, rows, todo[k])
    decreases |todo|
  {
    var next := AfterCheck(c, paused, rows, todo[0]);
    if Eligible(c, paused, rows, todo[0]) && todo[0].id == id {
      return;
    }
    ClaimedWasEligible(c, paused, next, todo[1..], id);
    var k :| 0 <= k < |todo[1..]| && todo[1..][k].id == id && Eligible(c, paused, next, todo[1..][k]);
    assert OnlyClaims(rows, next);
    IneligibleStays(c, paused, rows, next, todo[1..][k]);
    assert todo[k + 1] == todo[1..][k];
  }

  // Claimed jobs were queued, are running afterwards, and nothing else changed.
  lemma {:induction false} ClaimedNow(c: Config, paused: set<string>, rows: Rows, todo: seq<Job>, id: string)
    requires id in rows
    ensures id in Claims(c, paused, rows, todo) <==> IsQueued(rows, id) && !IsQueued(Round(c, paused, rows, todo), id)
    decreases |todo|
  {
    if todo != [] {
      var next := AfterCheck(c, paused, rows, todo[0]);
      ClaimedNow(c, paused, next, todo[1..], id);
      RoundOnlyClaims(c, paused, next, todo[1..]);
    }
  }
}
