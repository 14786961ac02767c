// The dispatcher of the transition system, left to itself, makes the round
// that module Dispatch describes as one function.

module Refinement {
  import opened Models
  import opened Store
  import opened Dispatch
  import opened System
  import opened Invariant

  function Rank(stage: Stage): nat {
    match stage
    case Item => 5
    case Count => 4
    case Session => 3
    case Repo => 2
    case Claim => 1
    case Submit => 0
  }

  // Advancing until the round is over, with nobody else taking a step.
  ghost function Alone(c: Config, s: State): State
    decreases if s.disp.Scanning? then |s.disp.todo| + 1 else 0, if s.disp.Scanning? then Rank(s.disp.stage) else 0
  {
    if !s.disp.Scanning? then s else Alone(c, Do(c, s, Advance))
  }

  ghost function OnTo(s: State, stage: Stage): State
    requires s.disp.Scanning?
  {
    s.(disp := Scanning(stage, s.disp.todo))
  }

  // The first job of the list has been dealt with.
  ghost function JobDone(c: Config, s: State): State
    requires s.disp.Scanning? && s.disp.todo != []
  {
    var j := s.disp.todo[0];
    s.(rows := AfterCheck(c, s.paused, s.rows, j),
       tasks := if Eligible(c, s.paused, s.rows, j) then s.tasks[j.id := Submitted] else s.tasks,
       disp := Scanning(Item, s.disp.todo[1..]))
  }

  lemma PassOn(c: Config, s: State)
    requires s.disp.Scanning? && s.disp.todo != [] && s.disp.stage != Claim
    requires Passes(c, s, s.disp.stage, s.disp.todo[0])
    ensures Alone(c, s) == Alone(c, OnTo(s, NextStage(s.disp.stage)))
  {
  }

  lemma PassOver(c: Config, s: State)
    requires s.disp.Scanning? && s.disp.todo != [] && s.disp.stage != Submit
    requires !Passes(c, s, s.disp.stage, s.disp.todo[0])
    ensures Alone(c, s) == Alone(c, s.(disp := Scanning(Item, s.disp.todo[1..])))
  {
  }

  lemma ClaimAndSubmit(c: Config, s: State)
    requires s.disp.Scanning? && s.disp.todo != [] && s.disp.stage == Claim && IsQueued(s.rows, s.disp.todo[0].id)
    ensures var j := s.disp.todo[0];
      Alone(c, s) == Alone(c, s.(rows := Claimed(s.rows, j.id), tasks := s.tasks[j.id := Submitted],
                                 disp := Scanning(Item, s.disp.todo[1..])))
  {
    var j := s.disp.todo[0];
    var s1 := s.(rows := Claimed(s.rows, j.id), disp := Scanning(Submit, s.disp.todo));
    assert Alone(c, s) == Alone(c, s1);
    assert Do(c, s1, Advance) == s1.(tasks := s.tasks[j.id := Submitted], disp := Scanning(Item, s.disp.todo[1..]));
  }

  // The checks made one by one amount to the one predicate.
  lemma OneJob(c: Config, s: State)
    requires s.disp.Scanning? && s.disp.stage == Item && s.disp.todo != [] && IsQueued(s.rows, s.disp.todo[0].id)
    ensures Alone(c, s) == Alone(c, JobDone(c, s))
  {
    var j := s.disp.todo[0];
    if !Passes(c, s, Item, j) {
      PassOver(c, s);
    } else if !Passes(c, s, Count, j) {
      PassOn(c, s);
      PassOver(c, OnTo(s, Count));
    } else if !Passes(c, s, Session, j) {
      PassOn(c, s);
      PassOn(c, OnTo(s, Count));
      PassOver(c, OnTo(s, Session));
    } else {
      PassOn(c, s);
      PassOn(c, OnTo(s, Count));
      PassOn(c, OnTo(s, Session));
      if !Passes(c, s, Repo, j) {
        PassOver(c, OnTo(s, Repo));
      } else {
        PassOn(c, OnTo(s, Repo));
        ClaimAndSubmit(c, OnTo(s, Claim));
      }
    }
  }

  predicate Distinct(todo: seq<Job>) {
    forall i, j :: 0 <= i < j < |todo| ==> todo[i].id != todo[j].id
  }

  predicate AllQueued(rows: Rows, todo: seq<Job>) {
    forall k :: 0 <= k < |todo| ==> IsQueued(rows, todo[k].id)
  }

  lemma RestIsQueued(c: Config, paused: set<string>, rows: Rows, todo: seq<Job>)
    requires todo != [] && Distinct(todo) && AllQueued(rows, todo)
    ensures Distinct(todo[1..]) && AllQueued(AfterCheck(c, paused, rows, todo[0]), todo[1..])
  {
    forall k | 0 <= k < |todo| - 1
      ensures IsQueued(AfterCheck(c, paused, rows, todo[0]), todo[1..][k].id)
    {
      assert todo[1..][k] == todo[k + 1];
    }
  }

  // Undisturbed, the steps of the dispatcher leave the table that the round
  // function leaves, and give the pool exactly the jobs that it claims.
  lemma {:induction false} AloneIsRound(c: Config, s: State, todo: seq<Job>)
    requires s.disp == Scanning(Item, todo) && Distinct(todo) && AllQueued(s.rows, todo)
    ensures Alone(c, s).disp == Waiting
    ensures Alone(c, s).rows == Round(c, s.paused, s.rows, todo)
    ensures forall id :: id in Alone(c, s).tasks <==> id in s.tasks || id in Claims(c, s.paused, s.rows, todo)
    decreases |todo|
  {
    if todo == [] {
      assert Alone(c, s) == Do(c, s, Advance);
    } else {
      OneJob(c, s);
      RestIsQueued(c, s.paused, s.rows, todo);
      AloneIsRound(c, JobDone(c, s), todo[1..]);
    }
  }

  // In particular right after a listing, in any reachable state.
  lemma ListedRoundIsRound(c: Config, s: State, todo: seq<Job>)
    requires Inv(c, s) && Enabled(c, s, ListQueue(todo))
    ensures var end := Alone(c, Do(c, s, ListQueue(todo)));
      end.disp == Waiting && end.rows == Round(c, s.paused, s.rows, todo)
  {
    AloneIsRound(c, Do(c, s, ListQueue(todo)), todo);
  }
}
