// The order in which jobs of one line start, over runs of the whole engine,
// and the exact way in which a younger one comes first.

module Order {
  import opened Models
  import opened Store
  import opened Dispatch
  import opened System
  import opened Invariant
  import opened Steps
  import opened Guarantees
  import opened WaitingJobs

  // Jobs that wait for the same things: same instance, same session, and both
  // code-mutating or both not.
  predicate SameLine(x: Job, y: Job) {
    SameQueue(x, y) && x.deliverable.MutatesCode() == y.deliverable.MutatesCode()
  }

  // --- Running rows, counted ---------------------------------------------------

  // The running rows that one of the checks looks at.
  datatype Group = OfInstance(instance: string) | OfSession(session: string) | MutatingOf(instance: string)

  function Members(rows: Rows, g: Group): set<string> {
    match g
    case OfInstance(i) => RunningIn(rows, i)
    case OfSession(sid) => SessionRunningIds(rows, sid)
    case MutatingOf(i) => MutatingRunningIds(rows, i)
  }

  predicate Belongs(row: Row, g: Group) {
    row.cols.status == Running &&
    match g
    case OfInstance(i) => row.cols.instance == i
    case OfSession(sid) => row.cols.sessionId == Some(sid)
    case MutatingOf(i) => row.cols.instance == i && row.cols.deliverable.MutatesCode()
  }

  lemma MembersAre(rows: Rows, g: Group, id: string)
    ensures id in Members(rows, g) <==> id in rows && Belongs(rows[id], g)
  {
  }

  // The row a step may rewrite.
  function Touched(s: State, a: Action): string {
    match a
    case Task(id, _) => id
    case RecoverOne(id) => id
    case DecideSave => if s.decision.NoDecision? then "" else s.decision.job.id
    case Advance => if s.disp.Scanning? && s.disp.todo != [] then s.disp.todo[0].id else ""
    case SubmitRefused => if s.disp.Scanning? && s.disp.todo != [] then s.disp.todo[0].id else ""
    case _ => ""
  }

  // Every row but `id` stays, and new rows do not run.
  ghost predicate OnlyTouches(rows: Rows, later: Rows, id: string) {
    && (forall k :: k in rows && k != id ==> k in later && later[k] == rows[k])
    && (forall k :: k in later && k !in rows ==> later[k].cols.status == Queued)
    && (id in rows ==> id in later)
  }

  lemma SaveTouchesOne(rows: Rows, j: Job)
    ensures OnlyTouches(rows, Saved(rows, j), j.id)
  {
  }

  lemma UpdateTouchesOne(rows: Rows, id: string, row: Row)
    requires id in rows
    ensures OnlyTouches(rows, rows[id := row], id)
  {
  }

  lemma AdvanceTouchesOne(c: Config, s: State)
    requires Enabled(c, s, Advance)
    ensures OnlyTouches(s.rows, Do(c, s, Advance).rows, Touched(s, Advance))
  {
  }

  lemma RewritesTouchOne(c: Config, s: State, a: Action)
    requires Enabled(c, s, a) && RewritesRow(a)
    ensures OnlyTouches(s.rows, Do(c, s, a).rows, Touched(s, a))
  {
    match a {
      case Task(id, act) => UpdateTouchesOne(s.rows, id, Do(c, s, a).rows[id]);
      case RecoverOne(id) => UpdateTouchesOne(s.rows, id, Do(c, s, a).rows[id]);
      case DecideSave =>
        SaveTouchesOne(s.rows, s.decision.job.(status := if s.decision.approve then Success else Rejected));
      case SubmitRefused => SaveTouchesOne(s.rows, s.disp.todo[0].(status := Queued));
      case Advance => AdvanceTouchesOne(c, s);
    }
  }

  lemma OthersTouchNone(c: Config, s: State, a: Action)
    requires Inv(c, s) && Enabled(c, s, a) && !RewritesRow(a)
    ensures OnlyTouches(s.rows, Do(c, s, a).rows, Touched(s, a))
  {
    var later := Do(c, s, a).rows;
    forall k | k in s.rows
      ensures k in later && later[k] == s.rows[k]
    {
      OtherStepsSpare(c, s, a, k);
    }
    forall k | k in later && k !in s.rows
      ensures later[k].cols.status == Queued
    {
      NewRowsAreCreated(c, s, a, k);
      CreatedIsQueued(c, s, a);
    }
  }

  lemma StepTouchesOne(c: Config, s: State, a: Action)
    requires Inv(c, s) && Enabled(c, s, a)
    ensures OnlyTouches(s.rows, Do(c, s, a).rows, Touched(s, a))
  {
    if RewritesRow(a) {
      RewritesTouchOne(c, s, a);
    } else {
      OthersTouchNone(c, s, a);
    }
  }

  // A step takes a row of the group out of running, or starts one.
  predicate Frees(s: State, s2: State, g: Group) {
    !(Members(s.rows, g) <= Members(s2.rows, g))
  }

  predicate Fills(s: State, s2: State, g: Group) {
    !(Members(s2.rows, g) <= Members(s.rows, g))
  }

  lemma OthersStayMembers(rows: Rows, later: Rows, id: string, g: Group, k: string)
    requires OnlyTouches(rows, later, id) && k != id
    ensures k in Members(rows, g) <==> k in Members(later, g)
  {
    MembersAre(rows, g, k);
    MembersAre(later, g, k);
  }

  lemma OneElementMoves(m: set<string>, m2: set<string>, id: string)
    requires forall k :: k != id ==> (k in m <==> k in m2)
    ensures |m2| == |m| + (if m2 <= m then 0 else 1) - (if m <= m2 then 0 else 1)
  {
    var rest := m - {id};
    assert m2 - {id} == rest;
    assert m == if id in m then rest + {id} else rest;
    assert m2 == if id in m2 then rest + {id} else rest;
  }

  lemma StepConserves(c: Config, s: State, a: Action, g: Group)
    requires Inv(c, s) && Enabled(c, s, a)
    ensures var s2 := Do(c, s, a);
      |Members(s2.rows, g)|
        == |Members(s.rows, g)| + (if Fills(s, s2, g) then 1 else 0) - (if Frees(s, s2, g) then 1 else 0)
  {
    var rows, later, id := s.rows, Do(c, s, a).rows, Touched(s, a);
    StepTouchesOne(c, s, a);
    forall k | k != id
      ensures k in Members(rows, g) <==> k in Members(later, g)
    {
      OthersStayMembers(rows, later, id, g, k);
    }
    OneElementMoves(Members(rows, g), Members(later, g), id);
  }

  // How often the group was freed and filled in the steps lo..hi-1.
  function Freed(states: seq<State>, g: Group, lo: nat, hi: nat): nat
    requires lo <= hi < |states|
    decreases hi
  {
    if lo == hi then 0 else Freed(states, g, lo, hi - 1) + if Frees(states[hi - 1], states[hi], g) then 1 else 0
  }

  function Filled(states: seq<State>, g: Group, lo: nat, hi: nat): nat
    requires lo <= hi < |states|
    decreases hi
  {
    if lo == hi then 0 else Filled(states, g, lo, hi - 1) + if Fills(states[hi - 1], states[hi], g) then 1 else 0
  }

  // Running rows are conserved: those there were, and those started, less
  // those freed.
  lemma {:induction false} RunningIsConserved(c: Config, states: seq<State>, actions: seq<Action>, g: Group, lo: nat,
      hi: nat)
    requires IsRun(c, states, actions) && lo <= hi <= |actions|
    ensures |Members(states[hi].rows, g)|
            == |Members(states[lo].rows, g)| + Filled(states, g, lo, hi) - Freed(states, g, lo, hi)
    decreases hi
  {
    if lo < hi {
      RunningIsConserved(c, states, actions, g, lo, hi - 1);
      ReachableInv(c, states, actions, hi - 1);
      StepConserves(c, states[hi - 1], actions[hi - 1], g);
    }
  }

  lemma {:induction false} FreedSomewhere(states: seq<State>, g: Group, lo: nat, hi: nat)
    requires lo <= hi < |states| && Freed(states, g, lo, hi) > 0
    ensures exists n: nat :: lo <= n < hi && Frees(states[n], states[n + 1], g)
    decreases hi
  {
    if Frees(states[hi - 1], states[hi], g) {
      assert lo <= hi - 1 < hi;
    } else {
      FreedSomewhere(states, g, lo, hi - 1);
    }
  }

  // --- When a failed check comes to pass --------------------------------------

  // The instance was resumed in the steps lo..hi-1, and not paused after that.
  predicate ResumedIn(actions: seq<Action>, instance: string, lo: nat, hi: nat)
    requires lo <= hi <= |actions|
    decreases hi
  {
    lo < hi && (actions[hi - 1] == Resume(instance)
                || (actions[hi - 1] != Pause(instance) && ResumedIn(actions, instance, lo, hi - 1)))
  }

  lemma PausedChanges(c: Config, s: State, a: Action, instance: string)
    requires Enabled(c, s, a)
    ensures instance in Do(c, s, a).paused <==>
            a == Pause(instance) || (instance in s.paused && a != Resume(instance))
  {
  }

  lemma {:induction false} UnpausedExactly(c: Config, states: seq<State>, actions: seq<Action>, instance: string,
      lo: nat, hi: nat)
    requires IsRun(c, states, actions) && lo <= hi <= |actions| && instance in states[lo].paused
    ensures instance !in states[hi].paused <==> ResumedIn(actions, instance, lo, hi)
    decreases hi
  {
    if lo < hi {
      UnpausedExactly(c, states, actions, instance, lo, hi - 1);
      PausedChanges(c, states[hi - 1], actions[hi - 1], instance);
    }
  }

  // What the steps lo..hi-1 must have done for a check of `x` that failed at
  // `lo` to pass at `hi`: resumed the instance; or freed more rows than they
  // filled, by what was over the limit; or freed all the rows in the way.
  predicate Unblocked(c: Config, states: seq<State>, actions: seq<Action>, stage: Stage, x: Job, lo: nat, hi: nat)
    requires |states| == |actions| + 1 && lo <= hi <= |actions|
  {
    match stage
    case Item => Exists(c, x.instance) && ResumedIn(actions, x.instance, lo, hi)
    case Count =>
      var g := OfInstance(x.instance);
      Exists(c, x.instance) &&
      Freed(states, g, lo, hi) - Filled(states, g, lo, hi) > |Members(states[lo].rows, g)| - Concurrency(c, x.instance)
    case Session =>
      x.sessionId.Some? &&
      var g := OfSession(x.sessionId.value);
      Freed(states, g, lo, hi) - Filled(states, g, lo, hi) == |Members(states[lo].rows, g)|
    case Repo =>
      var g := MutatingOf(x.instance);
      Freed(states, g, lo, hi) - Filled(states, g, lo, hi) == |Members(states[lo].rows, g)|
    case _ => false
  }

  // A check that failed for one job of a line passes later for another of that
  // line exactly when the steps in between have unblocked it.
  lemma TurnsExactlyWhenUnblocked(c: Config, states: seq<State>, actions: seq<Action>, stage: Stage, x: Job, y: Job,
      lo: nat, hi: nat)
    requires IsRun(c, states, actions) && lo <= hi <= |actions| && SameLine(x, y)
    requires stage != Claim && stage != Submit && !Passes(c, states[lo], stage, x)
    ensures Passes(c, states[hi], stage, y) <==> Unblocked(c, states, actions, stage, x, lo, hi)
  {
    match stage
    case Item =>
      if Exists(c, x.instance) {
        UnpausedExactly(c, states, actions, x.instance, lo, hi);
      }
    case Count => RunningIsConserved(c, states, actions, OfInstance(x.instance), lo, hi);
    case Session => RunningIsConserved(c, states, actions, OfSession(x.sessionId.value), lo, hi);
    case Repo => RunningIsConserved(c, states, actions, MutatingOf(x.instance), lo, hi);
  }

  // A step that may unblock a job: a resume of its instance, or one that takes
  // a row of its instance or session out of running.
  predicate Helps(s: State, a: Action, s2: State, x: Job) {
    || a == Resume(x.instance)
    || Frees(s, s2, OfInstance(x.instance))
    || (Truthy(x.sessionId) && Frees(s, s2, OfSession(x.sessionId.value)))
  }

  ghost predicate HelpedIn(states: seq<State>, actions: seq<Action>, x: Job, lo: nat, hi: nat)
    requires |states| == |actions| + 1 && hi <= |actions|
  {
    exists n: nat :: lo <= n < hi && Helps(states[n], actions[n], states[n + 1], x)
  }

  lemma {:induction false} ResumedSomewhere(actions: seq<Action>, instance: string, lo: nat, hi: nat)
    requires lo <= hi <= |actions| && ResumedIn(actions, instance, lo, hi)
    ensures exists n: nat :: lo <= n < hi && actions[n] == Resume(instance)
    decreases hi
  {
    if actions[hi - 1] == Resume(instance) {
      assert lo <= hi - 1 < hi;
    } else {
      ResumedSomewhere(actions, instance, lo, hi - 1);
    }
  }

  lemma MutatingFreesInstance(s: State, s2: State, instance: string)
    requires Frees(s, s2, MutatingOf(instance)) && (forall k :: k in s.rows && k in s2.rows ==>
               SameKind(s.rows[k], s2.rows[k]))
    ensures Frees(s, s2, OfInstance(instance))
  {
    var id :| id in Members(s.rows, MutatingOf(instance)) && id !in Members(s2.rows, MutatingOf(instance));
    assert id in Members(s.rows, OfInstance(instance));
    assert id !in Members(s2.rows, OfInstance(instance));
  }

  predicate SameKind(row: Row, later: Row) {
    row.cols.instance == later.cols.instance && row.cols.deliverable == later.cols.deliverable
  }

  lemma KindStays(c: Config, s: State, a: Action)
    requires Inv(c, s) && Enabled(c, s, a)
    ensures forall k :: k in s.rows && k in Do(c, s, a).rows ==> SameKind(s.rows[k], Do(c, s, a).rows[k])
  {
    StepKeeps(c, s, a);
    StepInv(c, s, a);
    forall k | k in s.rows && k in Do(c, s, a).rows
      ensures SameKind(s.rows[k], Do(c, s, a).rows[k])
    {
      ColumnsAreIdentity(s.rows, Do(c, s, a).rows, k);
    }
  }

  lemma UnblockedWasHelped(c: Config, states: seq<State>, actions: seq<Action>, stage: Stage, x: Job, lo: nat, hi: nat)
    requires IsRun(c, states, actions) && lo <= hi <= |actions|
    requires !Passes(c, states[lo], stage, x) && Unblocked(c, states, actions, stage, x, lo, hi)
    ensures HelpedIn(states, actions, x, lo, hi)
  {
    match stage
    case Item =>
      ResumedSomewhere(actions, x.instance, lo, hi);
      var n: nat :| lo <= n < hi && actions[n] == Resume(x.instance);
      assert Helps(states[n], actions[n], states[n + 1], x);
    case Count => GroupWasHelped(c, states, actions, x, OfInstance(x.instance), lo, hi);
    case Session => GroupWasHelped(c, states, actions, x, OfSession(x.sessionId.value), lo, hi);
    case Repo => GroupWasHelped(c, states, actions, x, MutatingOf(x.instance), lo, hi);
  }

  lemma GroupWasHelped(c: Config, states: seq<State>, actions: seq<Action>, x: Job, g: Group, lo: nat, hi: nat)
    requires IsRun(c, states, actions) && lo <= hi <= |actions| && Freed(states, g, lo, hi) > 0
    requires g == OfInstance(x.instance) || g == MutatingOf(x.instance)
             || (Truthy(x.sessionId) && g == OfSession(x.sessionId.value))
    ensures HelpedIn(states, actions, x, lo, hi)
  {
    FreedSomewhere(states, g, lo, hi);
    var n: nat :| lo <= n < hi && Frees(states[n], states[n + 1], g);
    if g.MutatingOf? {
      ReachableInv(c, states, actions, n);
      KindStays(c, states[n], actions[n]);
      MutatingFreesInstance(states[n], states[n + 1], x.instance);
    }
    assert Helps(states[n], actions[n], states[n + 1], x);
  }

  // --- One round of a run -------------------------------------------------------

  // From the listing at step `m` on, the round has lasted until state `k`.
  ghost predicate InRound(states: seq<State>, actions: seq<Action>, m: nat, k: nat)
    requires |states| == |actions| + 1
  {
    && m < k <= |actions| && actions[m].ListQueue?
    && (forall n :: m < n <= k ==> states[n].disp.Scanning?)
    && (forall n :: m < n < k ==> !actions[n].ListQueue?)
  }

  lemma {:induction false} RoundBegan(c: Config, states: seq<State>, actions: seq<Action>, k: nat) returns (m: nat)
    requires IsRun(c, states, actions) && k <= |actions| && states[k].disp.Scanning?
    ensures InRound(states, actions, m, k)
    decreases k
  {
    if actions[k - 1].ListQueue? {
      m := k - 1;
    } else {
      ScannedBefore(c, states, actions, k);
      m := RoundBegan(c, states, actions, k - 1);
    }
  }

  lemma ScannedBefore(c: Config, states: seq<State>, actions: seq<Action>, k: nat)
    requires IsRun(c, states, actions) && 0 < k <= |actions| && states[k].disp.Scanning? && !actions[k - 1].ListQueue?
    ensures states[k - 1].disp.Scanning?
  {
    ListShrinks(c, states[k - 1], actions[k - 1]);
  }

  // What is left of a listing.
  predicate Rest(whole: seq<Job>, rest: seq<Job>) {
    |rest| <= |whole| && rest == whole[|whole| - |rest|..]
  }

  lemma RestStep(c: Config, s: State, a: Action, whole: seq<Job>)
    requires Enabled(c, s, a) && !a.ListQueue? && s.disp.Scanning? && Do(c, s, a).disp.Scanning?
    requires Rest(whole, s.disp.todo)
    ensures Rest(whole, Do(c, s, a).disp.todo) && |Do(c, s, a).disp.todo| <= |s.disp.todo|
  {
    ListShrinks(c, s, a);
  }

  lemma RoundStep(c: Config, states: seq<State>, actions: seq<Action>, m: nat, k: nat)
    requires IsRun(c, states, actions) && InRound(states, actions, m, k) && k > m + 1
    ensures InRound(states, actions, m, k - 1)
    ensures var s, a := states[k - 1], actions[k - 1];
      Enabled(c, s, a) && !a.ListQueue? && s.disp.Scanning? && states[k] == Do(c, s, a) && states[k].disp.Scanning?
  {
  }

  lemma {:induction false} RoundRest(c: Config, states: seq<State>, actions: seq<Action>, m: nat, k: nat)
    requires IsRun(c, states, actions) && InRound(states, actions, m, k)
    ensures Rest(actions[m].todo, states[k].disp.todo)
    decreases k
  {
    if k > m + 1 {
      RoundStep(c, states, actions, m, k);
      RoundRest(c, states, actions, m, k - 1);
      RestStep(c, states[k - 1], actions[k - 1], actions[m].todo);
    }
  }

  lemma {:induction false} RoundShrinks(c: Config, states: seq<State>, actions: seq<Action>, m: nat, n: nat, k: nat)
    requires IsRun(c, states, actions) && InRound(states, actions, m, k) && m < n <= k
    ensures |states[k].disp.todo| <= |states[n].disp.todo|
    decreases k
  {
    if n < k {
      RoundStep(c, states, actions, m, k);
      RoundShrinks(c, states, actions, m, n, k - 1);
      RoundRest(c, states, actions, m, k - 1);
      RestStep(c, states[k - 1], actions[k - 1], actions[m].todo);
    }
  }

  // The dispatcher is done with the first of `todo` here: its last check
  // failed, or it was given to the pool.
  predicate LeavesOff(c: Config, s: State, a: Action, todo: seq<Job>) {
    todo != [] && s.disp.Scanning? && s.disp.todo == todo && a == Advance && !Passes(c, s, s.disp.stage, todo[0])
  }

  lemma LeavesOffNow(c: Config, s: State, a: Action, whole: seq<Job>, i: nat)
    requires Enabled(c, s, a) && !a.ListQueue? && s.disp.Scanning? && Do(c, s, a).disp.Scanning?
    requires Rest(whole, s.disp.todo) && |whole| - |s.disp.todo| <= i < |whole| - |Do(c, s, a).disp.todo|
    ensures LeavesOff(c, s, a, whole[i..])
  {
    ListMoves(c, s, a);
  }

  lemma ListedWhole(c: Config, states: seq<State>, actions: seq<Action>, m: nat, k: nat)
    requires IsRun(c, states, actions) && InRound(states, actions, m, k) && |states[k].disp.todo| < |actions[m].todo|
    ensures k > m + 1
  {
  }

  lemma {:induction false} WasLeftOff(c: Config, states: seq<State>, actions: seq<Action>, m: nat, k: nat, i: nat)
    returns (f: nat)
    requires IsRun(c, states, actions) && InRound(states, actions, m, k)
    requires i < |actions[m].todo| - |states[k].disp.todo|
    ensures m < f < k && LeavesOff(c, states[f], actions[f], actions[m].todo[i..])
    decreases k
  {
    ListedWhole(c, states, actions, m, k);
    RoundStep(c, states, actions, m, k);
    if i < |actions[m].todo| - |states[k - 1].disp.todo| {
      f := WasLeftOff(c, states, actions, m, k - 1, i);
    } else {
      f := k - 1;
      RoundRest(c, states, actions, m, f);
      LeavesOffNow(c, states[f], actions[f], actions[m].todo, i);
    }
  }

  lemma CameFrom(c: Config, s: State, a: Action, stage: Stage)
    requires Enabled(c, s, a) && Do(c, s, a).disp.Scanning? && Do(c, s, a).disp.todo != []
    requires Level(stage) < Level(Do(c, s, a).disp.stage)
    ensures s.disp.Scanning? && s.disp.todo == Do(c, s, a).disp.todo
    ensures Level(stage) < Level(s.disp.stage)
            || (s.disp.stage == stage && a == Advance && Passes(c, s, stage, s.disp.todo[0]))
  {
    ListMoves(c, s, a);
  }

  // A job at a later check has passed each earlier one.
  lemma {:induction false} HasPassed(c: Config, states: seq<State>, actions: seq<Action>, k: nat, stage: Stage)
    returns (g: nat)
    requires IsRun(c, states, actions) && k <= |actions| && states[k].disp.Scanning? && states[k].disp.todo != []
    requires Level(stage) < Level(states[k].disp.stage)
    ensures g < k && states[g].disp == Scanning(stage, states[k].disp.todo) && actions[g] == Advance
    ensures Passes(c, states[g], stage, states[k].disp.todo[0])
    ensures forall n :: g <= n <= k ==> states[n].disp.Scanning? && states[n].disp.todo == states[k].disp.todo
    decreases k
  {
    CameFrom(c, states[k - 1], actions[k - 1], stage);
    if Level(stage) < Level(states[k - 1].disp.stage) {
      g := HasPassed(c, states, actions, k - 1, stage);
    } else {
      g := k - 1;
    }
  }

  function Level(stage: Stage): nat {
    match stage
    case Item => 0
    case Count => 1
    case Session => 2
    case Repo => 3
    case Claim => 4
    case Submit => 5
  }

  // --- Start order is creation order -----------------------------------------------

  predicate OlderInLine(rows: Rows, x: string, y: string)
    requires x in rows && y in rows
  {
    SameLine(rows[x].data, rows[y].data) && rows[x].data.createdAt < rows[y].data.createdAt
  }

  // `x` fails a check at step `f` that `y` passes at the later step `g`.
  ghost predicate PassedOver(c: Config, states: seq<State>, actions: seq<Action>, f: nat, g: nat, x: string, y: string)
    requires |states| == |actions| + 1
  {
    && f < g < |actions| && actions[f] == Advance && actions[g] == Advance
    && states[f].disp.Scanning? && states[g].disp.Scanning?
    && states[g].disp.stage == states[f].disp.stage && states[f].disp.stage != Claim && states[f].disp.stage != Submit
    && states[f].disp.todo != [] && states[f].disp.todo[0].id == x
    && states[g].disp.todo != [] && states[g].disp.todo[0].id == y
    && !Passes(c, states[f], states[f].disp.stage, states[f].disp.todo[0])
    && Passes(c, states[g], states[g].disp.stage, states[g].disp.todo[0])
    && Unblocked(c, states, actions, states[f].disp.stage, states[f].disp.todo[0], f, g)
  }

  // The older job of a line is in the listing that brings the younger one to
  // its claim, and comes before it, if it was queued then.
  lemma OlderIsListed(c: Config, states: seq<State>, actions: seq<Action>, m: nat, k: nat, x: string, j: nat)
    returns (i: nat)
    requires IsRun(c, states, actions) && InRound(states, actions, m, k)
    requires j < |actions[m].todo| && x in states[k].rows && actions[m].todo[j].id in states[k].rows
    requires OlderInLine(states[k].rows, x, actions[m].todo[j].id) && IsQueued(states[m].rows, x)
    ensures i < j && actions[m].todo[i].id == x
  {
    OlderWasThere(c, states, actions, m, k, x, j);
    i := PlaceOf(c, states, actions, m, x, j);
  }

  lemma PlaceOf(c: Config, states: seq<State>, actions: seq<Action>, m: nat, x: string, j: nat) returns (i: nat)
    requires IsRun(c, states, actions) && m < |actions| && actions[m].ListQueue? && j < |actions[m].todo|
    requires IsQueued(states[m].rows, x) && states[m].rows[x].data.createdAt < actions[m].todo[j].createdAt
    ensures i < j && actions[m].todo[i].id == x
  {
    ListingAt(c, states, actions, m);
    i := IndexOf(states[m].rows, actions[m].todo, x, j);
  }

  lemma ListingAt(c: Config, states: seq<State>, actions: seq<Action>, m: nat)
    requires IsRun(c, states, actions) && m < |actions| && actions[m].ListQueue?
    ensures WellFormed(states[m].rows) && IsListing(states[m].rows, LISTING_LIMIT, actions[m].todo)
  {
    ReachableInv(c, states, actions, m);
  }

  lemma OlderWasThere(c: Config, states: seq<State>, actions: seq<Action>, m: nat, k: nat, x: string, j: nat)
    requires IsRun(c, states, actions) && InRound(states, actions, m, k) && x in states[m].rows
    requires j < |actions[m].todo| && x in states[k].rows && actions[m].todo[j].id in states[k].rows
    requires OlderInLine(states[k].rows, x, actions[m].todo[j].id)
    ensures states[m].rows[x].data.createdAt < actions[m].todo[j].createdAt
  {
    var y := actions[m].todo[j];
    assert IsQueued(states[m].rows, y.id) && y == states[m].rows[y.id].data;
    RunKeeps(c, states, actions, m, k);
  }

  lemma IndexOf(rows: Rows, todo: seq<Job>, x: string, j: nat) returns (i: nat)
    requires WellFormed(rows) && IsListing(rows, LISTING_LIMIT, todo) && j < |todo| && IsQueued(rows, x)
    requires rows[x].data.createdAt < todo[j].createdAt
    ensures i < j && todo[i].id == x
  {
    assert Lists(todo, x);
    i :| 0 <= i < |todo| && todo[i].id == x;
    assert todo[i] == rows[x].data;
  }

  // A queued job has been left off with a failed check.
  lemma LeftOffByACheck(c: Config, s: State, a: Action, todo: seq<Job>)
    requires TodoOk(s) && LeavesOff(c, s, a, todo) && IsQueued(s.rows, todo[0].id)
    ensures s.disp.stage != Claim && s.disp.stage != Submit
  {
    LastStages(c, s);
  }

  lemma LastStages(c: Config, s: State)
    requires TodoOk(s) && s.disp.Scanning? && s.disp.todo != []
    ensures s.disp.stage == Claim ==> Passes(c, s, Claim, s.disp.todo[0])
    ensures s.disp.stage == Submit ==> !IsQueued(s.rows, s.disp.todo[0].id)
  {
    assert QueuedAs(s.rows, s.disp.todo[0]) || Claimable(s, s.disp.todo[0]);
  }

  lemma SameLineListed(c: Config, states: seq<State>, actions: seq<Action>, m: nat, k: nat, i: nat, j: nat)
    requires IsRun(c, states, actions) && InRound(states, actions, m, k)
    requires i < |actions[m].todo| && j < |actions[m].todo|
    requires var x, y := actions[m].todo[i].id, actions[m].todo[j].id;
      x in states[k].rows && y in states[k].rows && SameLine(states[k].rows[x].data, states[k].rows[y].data)
    ensures SameLine(actions[m].todo[i], actions[m].todo[j])
  {
    RunKeeps(c, states, actions, m, k);
    assert IsQueued(states[m].rows, actions[m].todo[i].id) && IsQueued(states[m].rows, actions[m].todo[j].id);
  }

  // The thread of `x` puts its job back in the queue: the instance was paused.
  predicate ComesBack(a: Action, x: string) {
    a.Task? && a.id == x && a.act.Requeue?
  }

  lemma OnlyRequeueQueues(row: Row, ph: Phase, act: TaskAct, p: bool)
    requires TaskRow(row, ph) && TaskEnabled(ph, act) && TaskStep(row, ph, act, p).0.cols.status == Queued
    ensures act.Requeue? && row.cols.status == Running
  {
  }

  lemma TaskComesBack(c: Config, s: State, k: string, act: TaskAct, x: string)
    requires TasksOk(s) && Enabled(c, s, Task(k, act)) && x in s.rows && !IsQueued(s.rows, x)
    requires IsQueued(Do(c, s, Task(k, act)).rows, x)
    ensures ComesBack(Task(k, act), x) && s.rows[x].cols.status == Running
  {
    var (row, ph) := TaskStep(s.rows[k], s.tasks[k], act, s.rows[k].data.instance in s.paused);
    assert Do(c, s, Task(k, act)).rows == s.rows[k := row];
    OnlyRequeueQueues(s.rows[k], s.tasks[k], act, s.rows[k].data.instance in s.paused);
  }

  // While the dispatcher scans, nothing else brings a job back.
  lemma OnlyItsThreadReturns(c: Config, s: State, a: Action, x: string)
    requires TasksOk(s) && TodoOk(s) && Enabled(c, s, a) && s.disp.Scanning? && Do(c, s, a).disp.Scanning?
    requires x in s.rows && !IsQueued(s.rows, x) && IsQueued(Do(c, s, a).rows, x)
    ensures ComesBack(a, x) && s.rows[x].cols.status == Running
  {
    if a.Task? {
      TaskComesBack(c, s, a.id, a.act, x);
    } else if !RewritesRow(a) {
      OtherStepsSpare(c, s, a, x);
    }
  }

  // The thread of `x` puts it back at step `n`, which frees its instance.
  predicate Returns(s: State, a: Action, s2: State, x: string) {
    ComesBack(a, x) && x in s.rows && !IsQueued(s.rows, x) && Frees(s, s2, OfInstance(s.rows[x].data.instance))
  }

  ghost predicate PutBackAt(states: seq<State>, actions: seq<Action>, n: nat, x: string)
    requires n < |actions| < |states|
  {
    Returns(states[n], actions[n], states[n + 1], x)
  }

  ghost predicate QueuedIn(states: seq<State>, b: nat, k: nat, x: string)
    requires k < |states|
  {
    forall i :: b <= i <= k ==> IsQueued(states[i].rows, x)
  }

  // After step `n` the job is in the queue only if it was there before or has
  // been put back.
  ghost predicate BackByThread(states: seq<State>, actions: seq<Action>, n: nat, x: string)
    requires n < |actions| < |states|
  {
    IsQueued(states[n + 1].rows, x) ==> IsQueued(states[n].rows, x) || PutBackAt(states, actions, n, x)
  }

  lemma ReturningFrees(c: Config, states: seq<State>, actions: seq<Action>, n: nat, x: string)
    requires IsRun(c, states, actions) && n < |actions| && states[n].disp.Scanning? && states[n + 1].disp.Scanning?
    requires x in states[n].rows && !IsQueued(states[n].rows, x) && IsQueued(states[n + 1].rows, x)
    ensures Returns(states[n], actions[n], states[n + 1], x)
  {
    ReachableInv(c, states, actions, n);
    OnlyItsThreadReturns(c, states[n], actions[n], x);
    assert x in RunningIn(states[n].rows, states[n].rows[x].data.instance);
    assert x !in RunningIn(states[n + 1].rows, states[n].rows[x].data.instance);
  }

  lemma ReturnsInRound(c: Config, states: seq<State>, actions: seq<Action>, n: nat, k: nat, x: string)
    requires IsRun(c, states, actions) && n <= k <= |actions| && x in states[n].rows
    requires forall i :: n <= i <= k ==> states[i].disp.Scanning?
    ensures forall i :: n <= i < k ==> BackByThread(states, actions, i, x)
  {
    forall i | n <= i < k
      ensures BackByThread(states, actions, i, x)
    {
      RunKeeps(c, states, actions, n, i);
      assert states[i + 1].disp.Scanning?;
      if IsQueued(states[i + 1].rows, x) && !IsQueued(states[i].rows, x) {
        ReturningFrees(c, states, actions, i, x);
      }
    }
  }

  // A job that is queued now has been so since step `n`, or has been put back.
  lemma {:induction false} QueuedSince(states: seq<State>, actions: seq<Action>, n: nat, k: nat, x: string)
    returns (back: bool, f: nat)
    requires n <= k <= |actions| < |states| && IsQueued(states[k].rows, x)
    requires forall i :: n <= i < k ==> BackByThread(states, actions, i, x)
    ensures if back then n <= f < k && PutBackAt(states, actions, f, x) else QueuedIn(states, n, k, x)
    decreases k
  {
    if n == k {
      back, f := false, k;
    } else {
      assert BackByThread(states, actions, k - 1, x);
      if IsQueued(states[k - 1].rows, x) {
        back, f := QueuedSince(states, actions, n, k - 1, x);
      } else {
        back, f := true, k - 1;
      }
    }
  }

  // The older job has waited since the listing: it was passed over in this
  // round.
  lemma WaitingIsPassedOver(c: Config, states: seq<State>, actions: seq<Action>, m: nat, k: nat, x: string, y: string)
    returns (f: nat, g: nat)
    requires IsRun(c, states, actions) && k < |actions| && InRound(states, actions, m, k)
    requires Claiming(states[k], actions[k], y) && x in states[k].rows && y in states[k].rows
    requires OlderInLine(states[k].rows, x, y) && IsQueued(states[m].rows, x) && QueuedIn(states, m + 1, k, x)
    ensures m < f && g < k && PassedOver(c, states, actions, f, g, x, y)
  {
    var todo := actions[m].todo;
    RoundRest(c, states, actions, m, k);
    var j := |todo| - |states[k].disp.todo|;
    var i := OlderIsListed(c, states, actions, m, k, x, j);
    f := WasLeftOff(c, states, actions, m, k, i);
    ReachableInv(c, states, actions, f);
    LeftOffByACheck(c, states[f], actions[f], todo[i..]);
    g := HasPassed(c, states, actions, k, states[f].disp.stage);
    SameLineListed(c, states, actions, m, k, i, j);
    TurnsExactlyWhenUnblocked(c, states, actions, states[f].disp.stage, todo[i], todo[j], f, g);
  }

  lemma ListingLeavesRows(c: Config, states: seq<State>, actions: seq<Action>, m: nat)
    requires IsRun(c, states, actions) && m < |actions| && actions[m].ListQueue?
    ensures states[m + 1].rows == states[m].rows
  {
  }

  // --- The three ways to be overtaken --------------------------------------------

  // In the round from step `m` up to the claim of `y` at step `k`, the older
  // job `x` was stored after the listing, or it failed a check that the steps
  // up to the check of `y` unblocked, or its thread put it back.
  ghost predicate Overtaken(c: Config, states: seq<State>, actions: seq<Action>, m: nat, k: nat, x: string, y: string)
    requires |states| == |actions| + 1 && m < k <= |actions|
  {
    || StoredLate(states, m, x)
    || WasPassedOver(c, states, actions, m, k, x, y)
    || WasPutBack(states, actions, m, k, x)
  }

  predicate StoredLate(states: seq<State>, m: nat, x: string)
    requires m < |states|
  {
    x !in states[m].rows
  }

  ghost predicate WasPassedOver(c: Config, states: seq<State>, actions: seq<Action>, m: nat, k: nat, x: string,
      y: string)
    requires |states| == |actions| + 1
  {
    exists f: nat, g: nat :: m < f && g < k && PassedOver(c, states, actions, f, g, x, y)
  }

  ghost predicate WasPutBack(states: seq<State>, actions: seq<Action>, m: nat, k: nat, x: string)
    requires k <= |actions| < |states|
  {
    exists f: nat :: m < f < k && PutBackAt(states, actions, f, x)
  }

  lemma QueuedIsOvertaken(c: Config, states: seq<State>, actions: seq<Action>, m: nat, k: nat, x: string, y: string)
    requires IsRun(c, states, actions) && k < |actions| && InRound(states, actions, m, k)
    requires Claiming(states[k], actions[k], y) && IsQueued(states[k].rows, x) && y in states[k].rows
    requires OlderInLine(states[k].rows, x, y) && x in states[m].rows
    ensures WasPassedOver(c, states, actions, m, k, x, y) || WasPutBack(states, actions, m, k, x)
  {
    ListingLeavesRows(c, states, actions, m);
    ReturnsInRound(c, states, actions, m + 1, k, x);
    var back, b := QueuedSince(states, actions, m + 1, k, x);
    if !back {
      assert IsQueued(states[m + 1].rows, x);
      var f, g := WaitingIsPassedOver(c, states, actions, m, k, x, y);
    }
  }

  // `x` is not in the list.
  predicate Gone(todo: seq<Job>, x: string) {
    forall i :: 0 <= i < |todo| ==> todo[i].id != x
  }

  // Out of the list and in the queue: out of reach for this round.
  predicate OutOfReach(s: State, x: string) {
    s.disp.Scanning? && Gone(s.disp.todo, x) && IsQueued(s.rows, x)
  }

  lemma StaysOutOfReach(c: Config, s: State, a: Action, x: string)
    requires Inv(c, s) && Enabled(c, s, a) && OutOfReach(s, x) && !a.ListQueue? && Do(c, s, a).disp.Scanning?
    ensures OutOfReach(Do(c, s, a), x)
  {
    OnlyClaimsUnqueue(c, s, a, x);
    StaysGone(c, s, a, x);
  }

  lemma StaysGone(c: Config, s: State, a: Action, x: string)
    requires Enabled(c, s, a) && s.disp.Scanning? && Gone(s.disp.todo, x) && !a.ListQueue? && Do(c, s, a).disp.Scanning?
    ensures Gone(Do(c, s, a).disp.todo, x)
  {
    ListShrinks(c, s, a);
  }

  ghost predicate KeepsOut(states: seq<State>, n: nat, x: string)
    requires n + 1 < |states|
  {
    OutOfReach(states[n], x) ==> OutOfReach(states[n + 1], x)
  }

  lemma RoundKeepsOut(c: Config, states: seq<State>, actions: seq<Action>, m: nat, n: nat, k: nat, x: string)
    requires IsRun(c, states, actions) && InRound(states, actions, m, k) && m < n < k
    ensures KeepsOut(states, n, x)
  {
    if OutOfReach(states[n], x) {
      ReachableInv(c, states, actions, n);
      StaysOutOfReach(c, states[n], actions[n], x);
    }
  }

  lemma {:induction false} KeptOut(states: seq<State>, n: nat, k: nat, x: string)
    requires n <= k < |states| && OutOfReach(states[n], x) && forall i :: n <= i < k ==> KeepsOut(states, i, x)
    ensures OutOfReach(states[k], x)
    decreases k
  {
    if n < k {
      KeptOut(states, n, k - 1, x);
      assert KeepsOut(states, k - 1, x);
    }
  }

  lemma OutOfReachTillClaim(c: Config, states: seq<State>, actions: seq<Action>, m: nat, n: nat, k: nat, x: string)
    requires IsRun(c, states, actions) && InRound(states, actions, m, k) && m < n <= k && OutOfReach(states[n], x)
    ensures IsQueued(states[k].rows, x)
  {
    forall i | n <= i < k
      ensures KeepsOut(states, i, x)
    {
      RoundKeepsOut(c, states, actions, m, i, k, x);
    }
    KeptOut(states, n, k, x);
  }

  ghost predicate OutIn(states: seq<State>, m: nat, k: nat, x: string) {
    exists n: nat :: m < n <= k && n < |states| && OutOfReach(states[n], x)
  }

  lemma OutIsQueued(c: Config, states: seq<State>, actions: seq<Action>, m: nat, k: nat, x: string)
    requires IsRun(c, states, actions) && InRound(states, actions, m, k) && OutIn(states, m, k, x)
    ensures IsQueued(states[k].rows, x)
  {
    var n: nat :| m < n <= k && n < |states| && OutOfReach(states[n], x);
    OutOfReachTillClaim(c, states, actions, m, n, k, x);
  }

  // Each of the three puts the job out of reach.
  lemma FailingPutsOut(c: Config, s: State)
    requires TodoOk(s) && s.disp.Scanning? && s.disp.todo != [] && s.disp.stage != Claim && s.disp.stage != Submit
    requires !Passes(c, s, s.disp.stage, s.disp.todo[0])
    ensures OutOfReach(Do(c, s, Advance), s.disp.todo[0].id)
  {
    assert QueuedAs(s.rows, s.disp.todo[0]);
  }

  // A job whose thread is at work is not in the list.
  lemma AtWorkIsGone(s: State, x: string)
    requires TasksOk(s) && TodoOk(s) && s.disp.Scanning? && x in s.tasks
    ensures Gone(s.disp.todo, x)
  {
    forall i | 0 <= i < |s.disp.todo|
      ensures s.disp.todo[i].id != x
    {
      assert QueuedAs(s.rows, s.disp.todo[i]) || Claimable(s, s.disp.todo[i]);
    }
  }

  lemma ReturningPutsOut(c: Config, s: State, a: Action, x: string)
    requires TasksOk(s) && TodoOk(s) && s.disp.Scanning? && Enabled(c, s, a) && ComesBack(a, x)
    ensures OutOfReach(Do(c, s, a), x)
  {
    AtWorkIsGone(s, x);
  }

  lemma StoringPutsOut(c: Config, s: State, a: Action, x: string)
    requires Inv(c, s) && Enabled(c, s, a) && s.disp.Scanning? && !a.ListQueue? && Do(c, s, a).disp.Scanning?
    requires x !in s.rows && x in Do(c, s, a).rows
    ensures OutOfReach(Do(c, s, a), x)
  {
    NewRowsAreCreated(c, s, a, x);
    CreatedIsQueued(c, s, a);
    ListShrinks(c, s, a);
    forall i | 0 <= i < |s.disp.todo|
      ensures s.disp.todo[i].id != x
    {
      assert QueuedAs(s.rows, s.disp.todo[i]) || Claimable(s, s.disp.todo[i]);
    }
  }

  lemma PassedOverPutsOut(c: Config, states: seq<State>, actions: seq<Action>, f: nat, g: nat, x: string, y: string)
    requires IsRun(c, states, actions) && PassedOver(c, states, actions, f, g, x, y)
    ensures OutOfReach(states[f + 1], x)
  {
    ReachableInv(c, states, actions, f);
    FailingPutsOut(c, states[f]);
  }

  lemma PutBackPutsOut(c: Config, states: seq<State>, actions: seq<Action>, f: nat, x: string)
    requires IsRun(c, states, actions) && f < |actions| && states[f].disp.Scanning? && PutBackAt(states, actions, f, x)
    ensures OutOfReach(states[f + 1], x)
  {
    ReachableInv(c, states, actions, f);
    ReturningPutsOut(c, states[f], actions[f], x);
  }

  // The step of the round that stored `x`.
  lemma {:induction false} StoredAt(states: seq<State>, m: nat, k: nat, x: string) returns (n: nat)
    requires m < k < |states| && x !in states[m].rows && x in states[k].rows
    ensures m <= n < k && x !in states[n].rows && x in states[n + 1].rows
    decreases k
  {
    if x !in states[k - 1].rows {
      n := k - 1;
    } else {
      n := StoredAt(states, m, k - 1, x);
    }
  }

  lemma StoredLateIsQueued(c: Config, states: seq<State>, actions: seq<Action>, m: nat, k: nat, x: string)
    requires IsRun(c, states, actions) && InRound(states, actions, m, k)
    requires StoredLate(states, m, x) && x in states[k].rows
    ensures IsQueued(states[k].rows, x)
  {
    ListingLeavesRows(c, states, actions, m);
    var n := StoredAt(states, m + 1, k, x);
    ReachableInv(c, states, actions, n);
    StoringPutsOut(c, states[n], actions[n], x);
    OutOfReachTillClaim(c, states, actions, m, n + 1, k, x);
  }

  // When a job is claimed, an older one of its line is still in the queue
  // exactly when it was overtaken in this very round in one of the three ways.
  lemma OvertakenExactly(c: Config, states: seq<State>, actions: seq<Action>, k: nat, x: string, y: string)
    returns (m: nat)
    requires IsRun(c, states, actions) && k < |actions|
    requires Claiming(states[k], actions[k], y) && x in states[k].rows && y in states[k].rows
    requires OlderInLine(states[k].rows, x, y)
    ensures InRound(states, actions, m, k)
    ensures IsQueued(states[k].rows, x) <==> Overtaken(c, states, actions, m, k, x, y)
  {
    m := RoundBegan(c, states, actions, k);
    if IsQueued(states[k].rows, x) && x in states[m].rows {
      QueuedIsOvertaken(c, states, actions, m, k, x, y);
    }
    if Overtaken(c, states, actions, m, k, x, y) {
      OvertakenIsQueued(c, states, actions, m, k, x, y);
    }
  }

  lemma PassedOverIsOut(c: Config, states: seq<State>, actions: seq<Action>, m: nat, k: nat, x: string, y: string)
    requires IsRun(c, states, actions) && WasPassedOver(c, states, actions, m, k, x, y)
    ensures OutIn(states, m, k, x)
  {
    var f: nat, g: nat :| m < f && g < k && PassedOver(c, states, actions, f, g, x, y);
    PassedOverPutsOut(c, states, actions, f, g, x, y);
  }

  lemma PutBackIsOut(c: Config, states: seq<State>, actions: seq<Action>, m: nat, k: nat, x: string)
    requires IsRun(c, states, actions) && InRound(states, actions, m, k) && WasPutBack(states, actions, m, k, x)
    ensures OutIn(states, m, k, x)
  {
    var f: nat :| m < f < k && PutBackAt(states, actions, f, x);
    PutBackPutsOut(c, states, actions, f, x);
  }

  lemma OvertakenIsQueued(c: Config, states: seq<State>, actions: seq<Action>, m: nat, k: nat, x: string, y: string)
    requires IsRun(c, states, actions) && InRound(states, actions, m, k) && x in states[k].rows
    requires Overtaken(c, states, actions, m, k, x, y)
    ensures IsQueued(states[k].rows, x)
  {
    if StoredLate(states, m, x) {
      StoredLateIsQueued(c, states, actions, m, k, x);
    } else if WasPassedOver(c, states, actions, m, k, x, y) {
      PassedOverIsQueued(c, states, actions, m, k, x, y);
    } else {
      PutBackIsQueued(c, states, actions, m, k, x);
    }
  }

  lemma PassedOverIsQueued(c: Config, states: seq<State>, actions: seq<Action>, m: nat, k: nat, x: string, y: string)
    requires IsRun(c, states, actions) && InRound(states, actions, m, k)
    requires WasPassedOver(c, states, actions, m, k, x, y)
    ensures IsQueued(states[k].rows, x)
  {
    PassedOverIsOut(c, states, actions, m, k, x, y);
    OutIsQueued(c, states, actions, m, k, x);
  }

  lemma PutBackIsQueued(c: Config, states: seq<State>, actions: seq<Action>, m: nat, k: nat, x: string)
    requires IsRun(c, states, actions) && InRound(states, actions, m, k) && WasPutBack(states, actions, m, k, x)
    ensures IsQueued(states[k].rows, x)
  {
    PutBackIsOut(c, states, actions, m, k, x);
    OutIsQueued(c, states, actions, m, k, x);
  }

  // --- Start order is creation order -----------------------------------------------

  // Whoever was overtaken without being stored late was helped in this round.
  lemma PassedOverWasHelped(c: Config, states: seq<State>, actions: seq<Action>, m: nat, k: nat, x: string, y: string)
    requires IsRun(c, states, actions) && InRound(states, actions, m, k) && x in states[k].rows
    requires WasPassedOver(c, states, actions, m, k, x, y)
    ensures HelpedIn(states, actions, states[k].rows[x].data, m + 1, k)
  {
    var f: nat, g: nat :| m < f && g < k && PassedOver(c, states, actions, f, g, x, y);
    UnblockedWasHelped(c, states, actions, states[f].disp.stage, states[f].disp.todo[0], f, g);
    ListedIdentity(c, states, actions, f, k);
    HelpsByIdentity(states, actions, states[f].disp.todo[0], states[k].rows[x].data, f, g, m + 1, k);
  }

  lemma HelpsByIdentity(states: seq<State>, actions: seq<Action>, x: Job, z: Job, f: nat, g: nat, lo: nat, hi: nat)
    requires |states| == |actions| + 1 && lo <= f <= g <= hi <= |actions|
    requires HelpedIn(states, actions, x, f, g) && SameIdentity(x, z)
    ensures HelpedIn(states, actions, z, lo, hi)
  {
    var n: nat :| f <= n < g && Helps(states[n], actions[n], states[n + 1], x);
    assert Helps(states[n], actions[n], states[n + 1], z);
  }

  lemma PutBackHelps(c: Config, states: seq<State>, actions: seq<Action>, m: nat, k: nat, x: string)
    requires IsRun(c, states, actions) && InRound(states, actions, m, k) && x in states[k].rows
    requires WasPutBack(states, actions, m, k, x)
    ensures HelpedIn(states, actions, states[k].rows[x].data, m + 1, k)
  {
    var f: nat :| m < f < k && PutBackAt(states, actions, f, x);
    RunKeeps(c, states, actions, f, k);
    assert Helps(states[f], actions[f], states[f + 1], states[k].rows[x].data);
  }

  // So in a round in which no step helps the line (no resume of the instance,
  // and no row of the instance or session that stops running) start order is
  // creation order among the jobs stored before its listing: at each claim no
  // older one of the line is in the queue.
  lemma StartOrderIsCreationOrder(c: Config, states: seq<State>, actions: seq<Action>, m: nat, k: nat, x: string,
      y: string)
    requires IsRun(c, states, actions) && k < |actions| && InRound(states, actions, m, k)
    requires Claiming(states[k], actions[k], y) && x in states[k].rows && y in states[k].rows
    requires OlderInLine(states[k].rows, x, y) && x in states[m].rows
    requires !HelpedIn(states, actions, states[k].rows[x].data, m + 1, k)
    ensures !IsQueued(states[k].rows, x) && ClaimedBefore(states, actions, k, x)
  {
    if IsQueued(states[k].rows, x) {
      QueuedIsOvertaken(c, states, actions, m, k, x, y);
      if WasPassedOver(c, states, actions, m, k, x, y) {
        PassedOverWasHelped(c, states, actions, m, k, x, y);
      } else {
        PutBackHelps(c, states, actions, m, k, x);
      }
    } else {
      UnqueuedWasClaimed(c, states, actions, k, x);
    }
  }

  lemma ListedIdentity(c: Config, states: seq<State>, actions: seq<Action>, f: nat, k: nat)
    requires IsRun(c, states, actions) && f <= k <= |actions|
    requires states[f].disp.Scanning? && states[f].disp.todo != []
    ensures var j := states[f].disp.todo[0]; j.id in states[k].rows && SameIdentity(j, states[k].rows[j.id].data)
  {
    ReachableInv(c, states, actions, f);
    RunKeeps(c, states, actions, f, k);
    var j := states[f].disp.todo[0];
    assert QueuedAs(states[f].rows, j) || Claimable(states[f], j);
  }
}
