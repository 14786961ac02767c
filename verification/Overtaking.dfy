// Four runs in which a younger job starts first: one with a resume and one with
// a completion between the checks of one round, one in which the older job is
// stored after the listing, and one in which its thread puts it back.

module Overtaking {
  import opened Models
  import opened Store
  import opened Dispatch
  import opened System
  import opened Order

  // These steps, one after the other, lead from one state to the other.
  ghost predicate Plays(c: Config, s: State, actions: seq<Action>, end: State)
    decreases |actions|
  {
    if actions == [] then s == end
    else Enabled(c, s, actions[0]) && Plays(c, Do(c, s, actions[0]), actions[1..], end)
  }

  lemma {:induction false} PlaysThen(c: Config, s: State, a: seq<Action>, mid: State, b: seq<Action>, end: State)
    requires Plays(c, s, a, mid) && Plays(c, mid, b, end)
    ensures Plays(c, s, a + b, end)
    decreases |a|
  {
    if a == [] {
      assert a + b == b;
    } else {
      assert (a + b)[1..] == a[1..] + b;
      PlaysThen(c, Do(c, s, a[0]), a[1..], mid, b, end);
    }
  }

  lemma PlaysOne(c: Config, s: State, a: Action)
    requires Enabled(c, s, a)
    ensures Plays(c, s, [a], Do(c, s, a))
  {
    assert [a][1..] == [];
  }

  const BOOT := State(map[], map[], Booting, false, {}, NoDecision, {}, {}, {})

  lemma {:induction false} PlaysIsRun(c: Config, s: State, actions: seq<Action>, end: State)
    returns (states: seq<State>)
    requires Plays(c, s, actions, end)
    ensures |states| == |actions| + 1 && states[0] == s && states[|actions|] == end
    ensures forall k :: 0 <= k < |actions| ==>
              Enabled(c, states[k], actions[k]) && states[k + 1] == Do(c, states[k], actions[k])
    decreases |actions|
  {
    if actions == [] {
      states := [s];
    } else {
      var rest := PlaysIsRun(c, Do(c, s, actions[0]), actions[1..], end);
      states := [s] + rest;
      forall k | 0 <= k < |actions|
        ensures Enabled(c, states[k], actions[k]) && states[k + 1] == Do(c, states[k], actions[k])
      {
        if k > 0 {
          assert actions[1..][k - 1] == actions[k];
        }
      }
    }
  }

  // --- The checks of one job --------------------------------------------------

  const CHECKS: seq<Action> := [Advance, Advance, Advance, Advance, Advance]

  lemma PassesOne(c: Config, s: State)
    requires s.disp.Scanning? && s.disp.todo != [] && s.disp.stage != Claim
    requires Passes(c, s, s.disp.stage, s.disp.todo[0])
    ensures Plays(c, s, [Advance], s.(disp := Scanning(NextStage(s.disp.stage), s.disp.todo)))
  {
    PlaysOne(c, s, Advance);
  }

  lemma FailsOne(c: Config, s: State)
    requires s.disp.Scanning? && s.disp.todo != [] && s.disp.stage != Submit
    requires !Passes(c, s, s.disp.stage, s.disp.todo[0])
    ensures Plays(c, s, [Advance], s.(disp := Scanning(Item, s.disp.todo[1..])))
  {
    PlaysOne(c, s, Advance);
  }

  lemma PassesTwo(c: Config, s: State)
    requires s.disp.Scanning? && s.disp.stage == Item && s.disp.todo != []
    requires Passes(c, s, Item, s.disp.todo[0]) && Passes(c, s, Count, s.disp.todo[0])
    ensures Plays(c, s, [Advance, Advance], s.(disp := Scanning(Session, s.disp.todo)))
  {
    var s1 := s.(disp := Scanning(Count, s.disp.todo));
    PassesOne(c, s);
    PassesOne(c, s1);
    PlaysThen(c, s, [Advance], s1, [Advance], s1.(disp := Scanning(Session, s.disp.todo)));
  }

  lemma PassesNextTwo(c: Config, s: State)
    requires s.disp.Scanning? && s.disp.stage == Session && s.disp.todo != []
    requires SessionFree(s.rows, s.disp.todo[0]) && RepoFree(s.rows, s.disp.todo[0])
    ensures Plays(c, s, [Advance, Advance], s.(disp := Scanning(Claim, s.disp.todo)))
  {
    var s1 := s.(disp := Scanning(Repo, s.disp.todo));
    PassesOne(c, s);
    PassesOne(c, s1);
    PlaysThen(c, s, [Advance], s1, [Advance], s1.(disp := Scanning(Claim, s.disp.todo)));
  }

  lemma ClaimsOne(c: Config, s: State)
    requires s.disp.Scanning? && s.disp.stage == Claim && s.disp.todo != [] && IsQueued(s.rows, s.disp.todo[0].id)
    ensures Plays(c, s, [Advance],
                  s.(rows := Claimed(s.rows, s.disp.todo[0].id), disp := Scanning(Submit, s.disp.todo)))
  {
    PlaysOne(c, s, Advance);
  }

  // An eligible, queued job passes all checks and is claimed.
  lemma ChecksClaim(c: Config, s: State)
    requires s.disp.Scanning? && s.disp.stage == Item && s.disp.todo != [] && IsQueued(s.rows, s.disp.todo[0].id)
    requires Eligible(c, s.paused, s.rows, s.disp.todo[0])
    ensures Plays(c, s, CHECKS, s.(rows := Claimed(s.rows, s.disp.todo[0].id), disp := Scanning(Submit, s.disp.todo)))
  {
    var todo := s.disp.todo;
    var s1, s2 := s.(disp := Scanning(Session, todo)), s.(disp := Scanning(Claim, todo));
    PassesTwo(c, s);
    PassesNextTwo(c, s1);
    PlaysThen(c, s, [Advance, Advance], s1, [Advance, Advance], s2);
    ClaimsOne(c, s2);
    PlaysThen(c, s, [Advance, Advance] + [Advance, Advance], s2, [Advance],
              s2.(rows := Claimed(s.rows, todo[0].id), disp := Scanning(Submit, todo)));
    assert [Advance, Advance] + [Advance, Advance] + [Advance] == CHECKS;
  }

  lemma Boots(c: Config)
    ensures Plays(c, BOOT, [BootList, BootDone], BOOT.(disp := Listing))
  {
    var s1 := BOOT.(disp := Recovering({}));
    assert RunningIds(BOOT.rows) == {};
    PlaysOne(c, BOOT, BootList);
    PlaysOne(c, s1, BootDone);
    PlaysThen(c, BOOT, [BootList], s1, [BootDone], BOOT.(disp := Listing));
  }

  lemma Stores(c: Config, s: State, j: Job)
    requires Serving(s) && NewJob(s.rows, j) && ApprovedFrom(j).None?
    ensures Plays(c, s, [OperatorCreate(j)], Created(s, j))
  {
    PlaysOne(c, s, OperatorCreate(j));
  }

  lemma StoresTwo(c: Config, s: State, j: Job, k: Job)
    requires Serving(s) && NewJob(s.rows, j) && ApprovedFrom(j).None?
    requires NewJob(Created(s, j).rows, k) && ApprovedFrom(k).None?
    ensures Plays(c, s, [OperatorCreate(j), OperatorCreate(k)], Created(Created(s, j), k))
  {
    Stores(c, s, j);
    Stores(c, Created(s, j), k);
    PlaysThen(c, s, [OperatorCreate(j)], Created(s, j), [OperatorCreate(k)], Created(Created(s, j), k));
  }

  lemma Reads(c: Config, s: State, todo: seq<Job>)
    requires s.disp.Listing? && IsListing(s.rows, LISTING_LIMIT, todo)
    ensures Plays(c, s, [ListQueue(todo)], s.(disp := Scanning(Item, todo), listed := s.rows.Keys))
  {
    PlaysOne(c, s, ListQueue(todo));
  }

  lemma Finalizes(c: Config, s: State, id: string, t: real)
    requires id in s.tasks && id in s.rows && s.tasks[id].Returned?
    ensures var j := s.tasks[id].job.(finishedAt := Some(t));
      Plays(c, s, [Task(id, Finalize(t))], s.(rows := s.rows[id := RowOf(j)], tasks := s.tasks[id := Finalized(j)]))
  {
    PlaysOne(c, s, Task(id, Finalize(t)));
  }

  // --- The jobs -----------------------------------------------------------------

  // Two jobs of one line, as their creators make them; `b` is the older.
  predicate TwoInLine(c: Config, b: Job, y: Job) {
    && b.id != y.id && SameLine(b, y) && b.createdAt < y.createdAt && !SameKey(b, y)
    && b.status == Queued && y.status == Queued && b.attempts == 0 && y.attempts == 0
    && ApprovedFrom(b).None? && ApprovedFrom(y).None?
    && Exists(c, b.instance) && Concurrency(c, b.instance) > 0
  }

  function TwoRows(b: Job, y: Job): Rows {
    map[b.id := RowOf(b), y.id := RowOf(y)]
  }

  lemma NothingRunsYet(b: Job, y: Job, i: string, sid: string)
    requires b.status == Queued && y.status == Queued
    ensures RunningIn(TwoRows(b, y), i) == {} && SessionRunningIds(TwoRows(b, y), sid) == {}
    ensures MutatingRunningIds(TwoRows(b, y), i) == {}
  {
    assert RunningIn(TwoRows(b, y), i) == {};
  }

  lemma YoungerIsEligible(c: Config, b: Job, y: Job)
    requires TwoInLine(c, b, y)
    ensures Eligible(c, {}, TwoRows(b, y), y)
  {
    NothingRunsYet(b, y, y.instance, if y.sessionId.Some? then y.sessionId.value else "");
  }

  lemma BothListed(c: Config, b: Job, y: Job)
    requires TwoInLine(c, b, y)
    ensures IsListing(TwoRows(b, y), LISTING_LIMIT, [b, y])
  {
    assert Lists([b, y], b.id) by { assert [b, y][0].id == b.id; }
    assert Lists([b, y], y.id) by { assert [b, y][1].id == y.id; }
  }

  // The server has booted, both jobs have been stored and listed, and their
  // instance is paused.
  function ListedPaused(b: Job, y: Job): State {
    State(TwoRows(b, y), map[], Scanning(Item, [b, y]), false, {b.instance}, NoDecision, {b.id, y.id}, {}, {b.id, y.id})
  }

  function Stored(b: Job, y: Job): State {
    State(TwoRows(b, y), map[], Listing, false, {}, NoDecision, {b.id, y.id}, {}, {})
  }

  lemma BootAndStore(c: Config, b: Job, y: Job)
    requires TwoInLine(c, b, y)
    ensures Plays(c, BOOT, [BootList, BootDone, OperatorCreate(b), OperatorCreate(y)], Stored(b, y))
  {
    var s := BOOT.(disp := Listing);
    Boots(c);
    StoresTwo(c, s, b, y);
    assert Created(Created(s, b), y) == Stored(b, y);
    PlaysThen(c, BOOT, [BootList, BootDone], s, [OperatorCreate(b), OperatorCreate(y)], Stored(b, y));
    assert [BootList, BootDone] + [OperatorCreate(b), OperatorCreate(y)]
           == [BootList, BootDone, OperatorCreate(b), OperatorCreate(y)];
  }

  lemma PauseAndList(c: Config, b: Job, y: Job)
    requires TwoInLine(c, b, y)
    ensures Plays(c, Stored(b, y), [Pause(b.instance), ListQueue([b, y])], ListedPaused(b, y))
  {
    var s1 := Stored(b, y).(paused := {b.instance});
    BothListed(c, b, y);
    assert TwoRows(b, y).Keys == {b.id, y.id};
    assert {} + {b.instance} == {b.instance};
    PlaysOne(c, Stored(b, y), Pause(b.instance));
    PlaysOne(c, s1, ListQueue([b, y]));
    PlaysThen(c, Stored(b, y), [Pause(b.instance)], s1, [ListQueue([b, y])], ListedPaused(b, y));
  }

  lemma SkipAndResume(c: Config, b: Job, y: Job)
    requires TwoInLine(c, b, y)
    ensures Plays(c, ListedPaused(b, y), [Advance, Resume(b.instance)],
                  ListedPaused(b, y).(disp := Scanning(Item, [y]), paused := {}))
  {
    var s := ListedPaused(b, y);
    var s1 := s.(disp := Scanning(Item, [y]));
    assert s.disp.todo[1..] == [y];
    FailsOne(c, s);
    PlaysOne(c, s1, Resume(b.instance));
    assert {b.instance} - {b.instance} == {};
    PlaysThen(c, s, [Advance], s1, [Resume(b.instance)], s1.(paused := {}));
  }

  // The older job is skipped while its instance is paused, an operator resumes
  // the instance, and the younger job is claimed. Nothing has run or ended.
  lemma ResumeOvertakes(c: Config, b: Job, y: Job) returns (actions: seq<Action>, states: seq<State>)
    requires TwoInLine(c, b, y)
    ensures IsRun(c, states, actions)
    ensures var end := states[|actions|].rows;
      IsQueued(end, b.id) && y.id in end && end[y.id].cols.status == Running
  {
    var s1, s2 := ListedPaused(b, y), ListedPaused(b, y).(disp := Scanning(Item, [y]), paused := {});
    var end := s2.(rows := Claimed(s2.rows, y.id), disp := Scanning(Submit, [y]));
    BootAndStore(c, b, y);
    PauseAndList(c, b, y);
    SkipAndResume(c, b, y);
    YoungerIsEligible(c, b, y);
    ChecksClaim(c, s2);
    var a1 := [BootList, BootDone, OperatorCreate(b), OperatorCreate(y)];
    var a2, a3 := [Pause(b.instance), ListQueue([b, y])], [Advance, Resume(b.instance)];
    PlaysThen(c, BOOT, a1, Stored(b, y), a2, s1);
    PlaysThen(c, BOOT, a1 + a2, s1, a3, s2);
    PlaysThen(c, BOOT, a1 + a2 + a3, s2, CHECKS, end);
    actions := a1 + a2 + a3 + CHECKS;
    states := PlaysIsRun(c, BOOT, actions, end);
  }

  // --- A completion ---------------------------------------------------------------

  // A third job of the same session, made before the two and different from
  // both; the instance may run two jobs at once.
  predicate OneSession(c: Config, a: Job, b: Job, y: Job) {
    && TwoInLine(c, b, y) && Truthy(b.sessionId) && SameQueue(a, b)
    && a.id != b.id && a.id != y.id && !SameKey(a, b) && !SameKey(a, y) && !SameKey(b, a) && !SameKey(y, a)
    && a.status == Queued && a.attempts == 0 && ApprovedFrom(a).None?
    && Concurrency(c, b.instance) > 1
  }

  function Begun(a: Job, t: real): Job {
    a.(status := Running, startedAt := Some(t))
  }

  function Broken(a: Job, t: real): Job {
    Begun(a, t).(status := Error, finishedAt := Some(t))
  }

  function OneRow(row: Row): Rows {
    map[row.data.id := row]
  }

  function Alone(a: Job, disp: Dispatcher): State {
    State(OneRow(RowOf(a)), map[], disp, false, {}, NoDecision, {a.id}, {}, {a.id})
  }

  lemma StoreFirst(c: Config, a: Job)
    requires a.status == Queued && a.attempts == 0 && ApprovedFrom(a).None?
    ensures Plays(c, BOOT, [BootList, BootDone, OperatorCreate(a), ListQueue([a])], Alone(a, Scanning(Item, [a])))
  {
    var s, end := BOOT.(disp := Listing), Alone(a, Scanning(Item, [a]));
    Boots(c);
    Stores(c, s, a);
    FirstListed(a);
    FirstStored(a);
    Reads(c, Created(s, a), [a]);
    PlaysThen(c, s, [OperatorCreate(a)], Created(s, a), [ListQueue([a])], end);
    PlaysThen(c, BOOT, [BootList, BootDone], s, [OperatorCreate(a)] + [ListQueue([a])], end);
    assert [BootList, BootDone] + ([OperatorCreate(a)] + [ListQueue([a])])
           == [BootList, BootDone, OperatorCreate(a), ListQueue([a])];
  }

  lemma FirstStored(a: Job)
    ensures var s := Created(BOOT.(disp := Listing), a);
      s.rows == OneRow(RowOf(a)) && s.rows.Keys == {a.id} && s.unnotified == {a.id}
  {
  }

  lemma FirstListed(a: Job)
    requires a.status == Queued
    ensures IsListing(OneRow(RowOf(a)), LISTING_LIMIT, [a])
  {
    assert Lists([a], a.id) by { assert [a][0].id == a.id; }
  }

  // The first job is claimed and given to the pool, and the round ends.
  function Given(a: Job): State {
    State(OneRow(WithStatus(RowOf(a), Running)), map[a.id := Submitted], Waiting, false, {},
          NoDecision, {a.id}, {}, {a.id})
  }

  lemma GiveFirst(c: Config, a: Job)
    requires a.status == Queued && Exists(c, a.instance) && Concurrency(c, a.instance) > 0
    ensures Plays(c, Alone(a, Scanning(Item, [a])), CHECKS + [Advance, Advance], Given(a))
  {
    var s := Alone(a, Scanning(Item, [a]));
    var rows := s.rows;
    assert RunningIn(rows, a.instance) == {} && MutatingRunningIds(rows, a.instance) == {};
    assert Truthy(a.sessionId) ==> SessionRunningIds(rows, a.sessionId.value) == {};
    ChecksClaim(c, s);
    assert Claimed(rows, a.id) == OneRow(WithStatus(RowOf(a), Running));
    SubmitAndWait(c, a);
    PlaysThen(c, s, CHECKS, Given(a).(tasks := map[], disp := Scanning(Submit, [a])), [Advance, Advance], Given(a));
  }

  lemma SubmitAndWait(c: Config, a: Job)
    ensures Plays(c, Given(a).(tasks := map[], disp := Scanning(Submit, [a])), [Advance, Advance], Given(a))
  {
    var s1 := Given(a).(tasks := map[], disp := Scanning(Submit, [a]));
    var s2 := Given(a).(disp := Scanning(Item, []));
    assert [a][1..] == [] && s1.tasks[a.id := Submitted] == map[a.id := Submitted];
    PlaysOne(c, s1, Advance);
    PlaysOne(c, s2, Advance);
    PlaysThen(c, s1, [Advance], s2, [Advance], Given(a));
    assert [Advance] + [Advance] == [Advance, Advance];
  }

  function Starting(a: Job, t: real): State {
    Given(a).(rows := OneRow(RowOf(Begun(a, t))), tasks := map[a.id := Started(Begun(a, t))])
  }

  function StartSteps(a: Job, t: real): seq<Action> {
    [Task(a.id, Load)] + [Task(a.id, CheckPause)] + [Task(a.id, Start(t))]
  }

  lemma StartFirst(c: Config, a: Job, t: real)
    ensures Plays(c, Given(a), StartSteps(a, t), Starting(a, t))
  {
    var s1, s2 := Given(a).(tasks := map[a.id := Loaded(a)]), Given(a).(tasks := map[a.id := Cleared(a)]);
    LoadFirst(c, a);
    ClearFirst(c, a);
    BeginFirst(c, a, t);
    PlaysThen(c, Given(a), [Task(a.id, Load)], s1, [Task(a.id, CheckPause)], s2);
    PlaysThen(c, Given(a), [Task(a.id, Load)] + [Task(a.id, CheckPause)], s2, [Task(a.id, Start(t))], Starting(a, t));
  }

  lemma LoadFirst(c: Config, a: Job)
    ensures Plays(c, Given(a), [Task(a.id, Load)], Given(a).(tasks := map[a.id := Loaded(a)]))
  {
    var s := Given(a);
    assert s.rows[a.id := s.rows[a.id]] == s.rows && s.tasks[a.id := Loaded(a)] == map[a.id := Loaded(a)];
    PlaysOne(c, s, Task(a.id, Load));
  }

  lemma ClearFirst(c: Config, a: Job)
    ensures Plays(c, Given(a).(tasks := map[a.id := Loaded(a)]), [Task(a.id, CheckPause)],
                  Given(a).(tasks := map[a.id := Cleared(a)]))
  {
    var s := Given(a).(tasks := map[a.id := Loaded(a)]);
    assert s.rows[a.id := s.rows[a.id]] == s.rows && s.tasks[a.id := Cleared(a)] == map[a.id := Cleared(a)];
    PlaysOne(c, s, Task(a.id, CheckPause));
  }

  lemma BeginFirst(c: Config, a: Job, t: real)
    ensures Plays(c, Given(a).(tasks := map[a.id := Cleared(a)]), [Task(a.id, Start(t))], Starting(a, t))
  {
    var s := Given(a).(tasks := map[a.id := Cleared(a)]);
    assert s.rows[a.id := RowOf(Begun(a, t))] == OneRow(RowOf(Begun(a, t)));
    assert s.tasks[a.id := Started(Begun(a, t))] == map[a.id := Started(Begun(a, t))];
    PlaysOne(c, s, Task(a.id, Start(t)));
  }

  function ThreeRows(first: Row, b: Job, y: Job): Rows {
    map[first.data.id := first, b.id := RowOf(b), y.id := RowOf(y)]
  }

  // The two are stored while the first runs, and listed.
  function ThreeListed(a: Job, t: real, b: Job, y: Job): State {
    State(ThreeRows(RowOf(Begun(a, t)), b, y), map[a.id := Started(Begun(a, t))], Scanning(Item, [b, y]), false, {},
          NoDecision, {a.id, b.id, y.id}, {}, {a.id, b.id, y.id})
  }

  lemma StoreOthers(c: Config, a: Job, t: real, b: Job, y: Job)
    requires OneSession(c, a, b, y)
    ensures Plays(c, Starting(a, t), [OperatorCreate(b), OperatorCreate(y)],
                  Starting(a, t).(rows := ThreeRows(RowOf(Begun(a, t)), b, y), unnotified := {a.id, b.id, y.id}))
  {
    var s := Starting(a, t);
    OthersAreNew(c, a, t, b, y);
    StoresTwo(c, s, b, y);
    OthersStored(a, t, b, y);
  }

  lemma OthersAreNew(c: Config, a: Job, t: real, b: Job, y: Job)
    requires OneSession(c, a, b, y)
    ensures NewJob(Starting(a, t).rows, b) && NewJob(Created(Starting(a, t), b).rows, y)
  {
  }

  lemma OthersStored(a: Job, t: real, b: Job, y: Job)
    ensures Created(Created(Starting(a, t), b), y)
            == Starting(a, t).(rows := ThreeRows(RowOf(Begun(a, t)), b, y), unnotified := {a.id, b.id, y.id})
  {
  }

  lemma TwoOfThreeListed(c: Config, a: Job, t: real, b: Job, y: Job)
    requires OneSession(c, a, b, y)
    ensures IsListing(ThreeRows(RowOf(Begun(a, t)), b, y), LISTING_LIMIT, [b, y])
  {
    assert Lists([b, y], b.id) by { assert [b, y][0].id == b.id; }
    assert Lists([b, y], y.id) by { assert [b, y][1].id == y.id; }
  }

  lemma ListOthers(c: Config, a: Job, t: real, b: Job, y: Job)
    requires OneSession(c, a, b, y)
    ensures Plays(c, Starting(a, t).(rows := ThreeRows(RowOf(Begun(a, t)), b, y), unnotified := {a.id, b.id, y.id}),
                  [WaitEnds, ClearWake, ListQueue([b, y])], ThreeListed(a, t, b, y))
  {
    var s := Starting(a, t).(rows := ThreeRows(RowOf(Begun(a, t)), b, y), unnotified := {a.id, b.id, y.id});
    var s2 := s.(disp := Listing);
    WakesUp(c, s);
    TwoOfThreeListed(c, a, t, b, y);
    assert s2.rows.Keys == {a.id, b.id, y.id};
    Reads(c, s2, [b, y]);
    PlaysThen(c, s, [WaitEnds, ClearWake], s2, [ListQueue([b, y])], ThreeListed(a, t, b, y));
    assert [WaitEnds, ClearWake] + [ListQueue([b, y])] == [WaitEnds, ClearWake, ListQueue([b, y])];
  }

  lemma WakesUp(c: Config, s: State)
    requires s.disp.Waiting? && !s.wake
    ensures Plays(c, s, [WaitEnds, ClearWake], s.(disp := Listing))
  {
    var s1 := s.(disp := Woken);
    PlaysOne(c, s, WaitEnds);
    PlaysOne(c, s1, ClearWake);
    PlaysThen(c, s, [WaitEnds], s1, [ClearWake], s.(disp := Listing));
  }

  // The older one is skipped because its session is busy.
  lemma SkipBusy(c: Config, a: Job, t: real, b: Job, y: Job)
    requires OneSession(c, a, b, y)
    ensures Plays(c, ThreeListed(a, t, b, y), [Advance, Advance, Advance],
                  ThreeListed(a, t, b, y).(disp := Scanning(Item, [y])))
  {
    var s := ThreeListed(a, t, b, y);
    var s1 := s.(disp := Scanning(Session, [b, y]));
    OneRuns(c, a, t, b, y);
    PassesTwo(c, s);
    FailsOne(c, s1);
    assert [b, y][1..] == [y];
    PlaysThen(c, s, [Advance, Advance], s1, [Advance], s.(disp := Scanning(Item, [y])));
    assert [Advance, Advance] + [Advance] == [Advance, Advance, Advance];
  }

  lemma OneRuns(c: Config, a: Job, t: real, b: Job, y: Job)
    requires OneSession(c, a, b, y)
    ensures var rows := ThreeRows(RowOf(Begun(a, t)), b, y);
      RunningIn(rows, b.instance) == {a.id} && a.id in SessionRunningIds(rows, b.sessionId.value)
  {
  }

  // Then the first job ends, in an error.
  function FirstEnded(a: Job, t: real, b: Job, y: Job): State {
    ThreeListed(a, t, b, y).(disp := Scanning(Item, [y]), rows := ThreeRows(RowOf(Broken(a, t)), b, y),
                             tasks := map[a.id := Finalized(Broken(a, t))])
  }

  lemma EndFirst(c: Config, a: Job, t: real, b: Job, y: Job)
    requires OneSession(c, a, b, y)
    ensures Plays(c, ThreeListed(a, t, b, y).(disp := Scanning(Item, [y])),
                  [Task(a.id, PrepareFails(Begun(a, t).(status := Error))), Task(a.id, Finalize(t))],
                  FirstEnded(a, t, b, y))
  {
    var s := ThreeListed(a, t, b, y).(disp := Scanning(Item, [y]));
    var failed := Begun(a, t).(status := Error);
    var s1 := s.(tasks := map[a.id := Returned(failed)]);
    FirstFails(c, a, t, b, y);
    FirstIsSaved(c, a, t, b, y);
    PlaysThen(c, s, [Task(a.id, PrepareFails(failed))], s1, [Task(a.id, Finalize(t))], FirstEnded(a, t, b, y));
  }

  lemma FirstFails(c: Config, a: Job, t: real, b: Job, y: Job)
    ensures var s, failed := ThreeListed(a, t, b, y).(disp := Scanning(Item, [y])), Begun(a, t).(status := Error);
      Plays(c, s, [Task(a.id, PrepareFails(failed))], s.(tasks := map[a.id := Returned(failed)]))
  {
    var s, failed := ThreeListed(a, t, b, y).(disp := Scanning(Item, [y])), Begun(a, t).(status := Error);
    assert s.rows[a.id := s.rows[a.id]] == s.rows;
    assert s.tasks[a.id := Returned(failed)] == map[a.id := Returned(failed)];
    PlaysOne(c, s, Task(a.id, PrepareFails(failed)));
  }

  lemma FirstIsSaved(c: Config, a: Job, t: real, b: Job, y: Job)
    requires OneSession(c, a, b, y)
    ensures var s, failed := ThreeListed(a, t, b, y).(disp := Scanning(Item, [y])), Begun(a, t).(status := Error);
      Plays(c, s.(tasks := map[a.id := Returned(failed)]), [Task(a.id, Finalize(t))], FirstEnded(a, t, b, y))
  {
    var failed := Begun(a, t).(status := Error);
    var s1 := ThreeListed(a, t, b, y).(disp := Scanning(Item, [y]), tasks := map[a.id := Returned(failed)]);
    Finalizes(c, s1, a.id, t);
    RowsAfterEnd(c, a, t, b, y);
    assert s1.tasks[a.id := Finalized(Broken(a, t))] == map[a.id := Finalized(Broken(a, t))];
  }

  lemma RowsAfterEnd(c: Config, a: Job, t: real, b: Job, y: Job)
    requires OneSession(c, a, b, y)
    ensures ThreeRows(RowOf(Begun(a, t)), b, y)[a.id := RowOf(Broken(a, t))] == ThreeRows(RowOf(Broken(a, t)), b, y)
  {
  }

  lemma YoungerIsFree(c: Config, a: Job, t: real, b: Job, y: Job)
    requires OneSession(c, a, b, y)
    ensures Eligible(c, {}, FirstEnded(a, t, b, y).rows, y) && IsQueued(FirstEnded(a, t, b, y).rows, y.id)
  {
    var rows := FirstEnded(a, t, b, y).rows;
    assert RunningIn(rows, y.instance) == {} && SessionRunningIds(rows, y.sessionId.value) == {};
    assert MutatingRunningIds(rows, y.instance) == {};
  }

  // Six lists of steps played one after the other.
  lemma PlaysSix(c: Config, s0: State, a1: seq<Action>, s1: State, a2: seq<Action>, s2: State,
      a3: seq<Action>, s3: State, a4: seq<Action>, s4: State, a5: seq<Action>, s5: State, a6: seq<Action>, s6: State)
    requires Plays(c, s0, a1, s1) && Plays(c, s1, a2, s2) && Plays(c, s2, a3, s3)
    requires Plays(c, s3, a4, s4) && Plays(c, s4, a5, s5) && Plays(c, s5, a6, s6)
    ensures Plays(c, s0, a1 + a2 + a3 + a4 + a5 + a6, s6)
  {
    PlaysThen(c, s0, a1, s1, a2, s2);
    PlaysThen(c, s0, a1 + a2, s2, a3, s3);
    PlaysThen(c, s0, a1 + a2 + a3, s3, a4, s4);
    PlaysThen(c, s0, a1 + a2 + a3 + a4, s4, a5, s5);
    PlaysThen(c, s0, a1 + a2 + a3 + a4 + a5, s5, a6, s6);
  }

  // So a session is not served first-in first-out: the older job is skipped
  // while a job of the session runs, that job ends, and the younger is claimed.
  lemma SessionOrderCanBreak(c: Config, a: Job, b: Job, y: Job, t: real)
    returns (actions: seq<Action>, states: seq<State>)
    requires OneSession(c, a, b, y)
    ensures IsRun(c, states, actions)
    ensures var end := states[|actions|].rows;
      IsQueued(end, b.id) && y.id in end && end[y.id].cols.status == Running
  {
    var s5 := ThreeListed(a, t, b, y).(disp := Scanning(Item, [y]));
    var s6 := FirstEnded(a, t, b, y);
    var end := s6.(rows := Claimed(s6.rows, y.id), disp := Scanning(Submit, [y]));
    var s4 := Starting(a, t).(rows := ThreeRows(RowOf(Begun(a, t)), b, y), unnotified := {a.id, b.id, y.id});
    StoreFirst(c, a);
    GiveFirst(c, a);
    StartFirst(c, a, t);
    StoreOthers(c, a, t, b, y);
    ListOthers(c, a, t, b, y);
    SkipBusy(c, a, t, b, y);
    EndFirst(c, a, t, b, y);
    YoungerIsFree(c, a, t, b, y);
    ChecksClaim(c, s6);
    var a1 := [BootList, BootDone, OperatorCreate(a), ListQueue([a])];
    var a3, a4 := StartSteps(a, t), [OperatorCreate(b), OperatorCreate(y)];
    var a5, a6 := [WaitEnds, ClearWake, ListQueue([b, y])], [Advance, Advance, Advance];
    var a7 := [Task(a.id, PrepareFails(Begun(a, t).(status := Error))), Task(a.id, Finalize(t))];
    PlaysSix(c, BOOT, a1, Alone(a, Scanning(Item, [a])), CHECKS + [Advance, Advance], Given(a), a3, Starting(a, t),
             a4, s4, a5, ThreeListed(a, t, b, y), a6, s5);
    var start := a1 + (CHECKS + [Advance, Advance]) + a3 + a4 + a5 + a6;
    PlaysThen(c, BOOT, start, s5, a7, s6);
    PlaysThen(c, BOOT, start + a7, s6, CHECKS, end);
    actions := start + a7 + CHECKS;
    states := PlaysIsRun(c, BOOT, actions, end);
  }

  // --- A late store -----------------------------------------------------------------

  // The younger job, stored alone, has passed all its checks.
  function AtClaim(y: Job): State {
    Alone(y, Scanning(Claim, [y]))
  }

  lemma PassesAll(c: Config, y: Job)
    requires y.status == Queued && Exists(c, y.instance) && Concurrency(c, y.instance) > 0
    ensures Plays(c, Alone(y, Scanning(Item, [y])), [Advance, Advance] + [Advance, Advance], AtClaim(y))
  {
    var s := Alone(y, Scanning(Item, [y]));
    var rows := s.rows;
    assert RunningIn(rows, y.instance) == {} && MutatingRunningIds(rows, y.instance) == {};
    assert Truthy(y.sessionId) ==> SessionRunningIds(rows, y.sessionId.value) == {};
    PassesTwo(c, s);
    PassesNextTwo(c, s.(disp := Scanning(Session, [y])));
    PlaysThen(c, s, [Advance, Advance], s.(disp := Scanning(Session, [y])), [Advance, Advance], AtClaim(y));
  }

  // The older one is stored just before the claim.
  lemma StoreAndClaim(c: Config, b: Job, y: Job)
    requires TwoInLine(c, b, y)
    ensures Plays(c, AtClaim(y), [OperatorCreate(b)] + [Advance], LateEnd(b, y))
  {
    var s := Created(AtClaim(y), b);
    Stores(c, AtClaim(y), b);
    ClaimsOne(c, s);
    PlaysThen(c, AtClaim(y), [OperatorCreate(b)], s, [Advance], LateEnd(b, y));
  }

  // Creation times are fixed before jobs are stored, and jobs are stored from
  // several threads: the older one comes after the listing, and the younger is
  // claimed. Nothing has been paused or resumed, and no thread has run.
  lemma LateStoreOvertakes(c: Config, b: Job, y: Job) returns (actions: seq<Action>, states: seq<State>)
    requires TwoInLine(c, b, y)
    ensures IsRun(c, states, actions)
    ensures forall a :: a in actions ==> !a.Pause? && !a.Resume? && !a.Task?
    ensures var end := states[|actions|].rows;
      IsQueued(end, b.id) && y.id in end && end[y.id].cols.status == Running
  {
    PlaysLateStore(c, b, y);
    actions := LateStore(b, y);
    states := PlaysIsRun(c, BOOT, actions, LateEnd(b, y));
  }

  function LateStore(b: Job, y: Job): (actions: seq<Action>)
    ensures forall a :: a in actions ==> !a.Pause? && !a.Resume? && !a.Task?
  {
    [BootList, BootDone, OperatorCreate(y), ListQueue([y])] + ([Advance, Advance] + [Advance, Advance])
    + ([OperatorCreate(b)] + [Advance])
  }

  function LateEnd(b: Job, y: Job): State {
    var s := Created(AtClaim(y), b);
    s.(rows := Claimed(s.rows, y.id), disp := Scanning(Submit, [y]))
  }

  lemma PlaysLateStore(c: Config, b: Job, y: Job)
    requires TwoInLine(c, b, y)
    ensures Plays(c, BOOT, LateStore(b, y), LateEnd(b, y))
  {
    var a1 := [BootList, BootDone, OperatorCreate(y), ListQueue([y])];
    var a2, a3 := [Advance, Advance] + [Advance, Advance], [OperatorCreate(b)] + [Advance];
    StoreFirst(c, y);
    PassesAll(c, y);
    StoreAndClaim(c, b, y);
    PlaysThen(c, BOOT, a1, Alone(y, Scanning(Item, [y])), a2, AtClaim(y));
    PlaysThen(c, BOOT, a1 + a2, AtClaim(y), a3, LateEnd(b, y));
  }

  // --- A job put back ---------------------------------------------------------------

  // The older job has been claimed and its thread has come to `ph`; the
  // younger one is next.
  function AtWork(b: Job, y: Job, ph: Phase, paused: set<string>): State {
    State(Claimed(TwoRows(b, y), b.id), map[b.id := ph], Scanning(Item, [y]), false, paused,
          NoDecision, {b.id, y.id}, {},
          {b.id, y.id})
  }

  lemma ClaimOlder(c: Config, b: Job, y: Job)
    requires TwoInLine(c, b, y)
    ensures Plays(c, ListedPaused(b, y).(paused := {}), CHECKS + [Advance], AtWork(b, y, Submitted, {}))
  {
    var s := ListedPaused(b, y).(paused := {});
    var s1 := s.(rows := Claimed(s.rows, b.id), disp := Scanning(Submit, [b, y]));
    NothingRunsYet(b, y, b.instance, if b.sessionId.Some? then b.sessionId.value else "");
    ChecksClaim(c, s);
    SubmitOlder(c, b, y);
    PlaysThen(c, s, CHECKS, s1, [Advance], AtWork(b, y, Submitted, {}));
  }

  lemma SubmitOlder(c: Config, b: Job, y: Job)
    ensures Plays(c, AtWork(b, y, Submitted, {}).(tasks := map[], disp := Scanning(Submit, [b, y])), [Advance],
                  AtWork(b, y, Submitted, {}))
  {
    var s := AtWork(b, y, Submitted, {}).(tasks := map[], disp := Scanning(Submit, [b, y]));
    assert [b, y][1..] == [y] && s.tasks[b.id := Submitted] == map[b.id := Submitted];
    PlaysOne(c, s, Advance);
  }

  lemma ListBoth(c: Config, b: Job, y: Job)
    requires TwoInLine(c, b, y)
    ensures Plays(c, Stored(b, y), [ListQueue([b, y])], ListedPaused(b, y).(paused := {}))
  {
    BothListed(c, b, y);
    assert TwoRows(b, y).Keys == {b.id, y.id};
    PlaysOne(c, Stored(b, y), ListQueue([b, y]));
  }

  // One step of the thread that leaves the row alone.
  lemma ThreadMoves(c: Config, b: Job, y: Job, ph: Phase, ph2: Phase, act: TaskAct, paused: set<string>)
    requires b.id != y.id && b.status == Queued && TaskEnabled(ph, act)
    requires var row := WithStatus(RowOf(b), Running); TaskStep(row, ph, act, b.instance in paused) == (row, Some(ph2))
    ensures Plays(c, AtWork(b, y, ph, paused), [Task(b.id, act)], AtWork(b, y, ph2, paused))
  {
    var s := AtWork(b, y, ph, paused);
    assert s.rows[b.id] == WithStatus(RowOf(b), Running) && s.rows[b.id := s.rows[b.id]] == s.rows;
    assert s.tasks[b.id := ph2] == map[b.id := ph2];
    PlaysOne(c, s, Task(b.id, act));
  }

  // The instance is paused before the thread looks.
  lemma FindsPaused(c: Config, b: Job, y: Job)
    requires b.id != y.id && b.status == Queued
    ensures Plays(c, AtWork(b, y, Submitted, {}), [Task(b.id, Load)] + [Pause(b.instance)] + [Task(b.id, CheckPause)],
                  AtWork(b, y, Barred(b), {b.instance}))
  {
    var s1, s2 := AtWork(b, y, Loaded(b), {}), AtWork(b, y, Loaded(b), {b.instance});
    ThreadMoves(c, b, y, Submitted, Loaded(b), Load, {});
    assert {} + {b.instance} == {b.instance};
    PlaysOne(c, s1, Pause(b.instance));
    ThreadMoves(c, b, y, Loaded(b), Barred(b), CheckPause, {b.instance});
    PlaysThen(c, AtWork(b, y, Submitted, {}), [Task(b.id, Load)], s1, [Pause(b.instance)], s2);
    PlaysThen(c, AtWork(b, y, Submitted, {}), [Task(b.id, Load)] + [Pause(b.instance)], s2, [Task(b.id, CheckPause)],
              AtWork(b, y, Barred(b), {b.instance}));
  }

  function Excused(b: Job, msg: string): Job {
    b.(errorMessage := Some(msg))
  }

  // The instance is resumed and the job put back, in this order.
  lemma PutsBack(c: Config, b: Job, y: Job, msg: string)
    requires TwoInLine(c, b, y)
    ensures Plays(c, AtWork(b, y, Barred(b), {b.instance}), [Resume(b.instance)] + [Task(b.id, Requeue(msg))],
                  ListedPaused(Excused(b, msg), y).(disp := Scanning(Item, [y]), paused := {}))
  {
    var s, s1 := AtWork(b, y, Barred(b), {b.instance}), AtWork(b, y, Barred(b), {});
    var end := ListedPaused(Excused(b, msg), y).(disp := Scanning(Item, [y]), paused := {});
    assert {b.instance} - {b.instance} == {};
    PlaysOne(c, s, Resume(b.instance));
    assert s1.rows[b.id := RowOf(Excused(b, msg))] == end.rows && s1.tasks - {b.id} == map[];
    PlaysOne(c, s1, Task(b.id, Requeue(msg)));
    PlaysThen(c, s, [Resume(b.instance)], s1, [Task(b.id, Requeue(msg))], end);
  }

  // The older job is claimed first, its thread finds the instance paused, and
  // although the instance is resumed at once it puts the job back: the younger
  // one, next in the same round, starts.
  lemma PutBackOvertakes(c: Config, b: Job, y: Job, msg: string) returns (actions: seq<Action>, states: seq<State>)
    requires TwoInLine(c, b, y)
    ensures IsRun(c, states, actions)
    ensures var end := states[|actions|].rows;
      IsQueued(end, b.id) && y.id in end && end[y.id].cols.status == Running
  {
    var s2 := ListedPaused(Excused(b, msg), y).(disp := Scanning(Item, [y]), paused := {});
    var end := s2.(rows := Claimed(s2.rows, y.id), disp := Scanning(Submit, [y]));
    var a1, a2 := [BootList, BootDone, OperatorCreate(b), OperatorCreate(y)], [ListQueue([b, y])];
    var a3 := CHECKS + [Advance];
    var a4 := [Task(b.id, Load)] + [Pause(b.instance)] + [Task(b.id, CheckPause)];
    var a5 := [Resume(b.instance)] + [Task(b.id, Requeue(msg))];
    BootAndStore(c, b, y);
    ListBoth(c, b, y);
    ClaimOlder(c, b, y);
    FindsPaused(c, b, y);
    PutsBack(c, b, y, msg);
    YoungerIsEligible(c, Excused(b, msg), y);
    ChecksClaim(c, s2);
    PlaysSix(c, BOOT, a1, Stored(b, y), a2, ListedPaused(b, y).(paused := {}), a3, AtWork(b, y, Submitted, {}),
             a4, AtWork(b, y, Barred(b), {b.instance}), a5, s2, CHECKS, end);
    actions := a1 + a2 + a3 + a4 + a5 + CHECKS;
    states := PlaysIsRun(c, BOOT, actions, end);
  }
}
