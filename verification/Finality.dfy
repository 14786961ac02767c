// A job that has ended stays ended; and what that means for the stream file
// that its thread writes.

module Finality {
  import opened Models
  import opened Store
  import opened Dispatch
  import opened System
  import opened Invariant
  import opened Steps
  import opened Guarantees
  import LogStream
  import Sse

  // Ended, with no thread but one that is cleaning up.
  predicate Final(s: State, id: string) {
    && id in s.rows && LogStream.IsOver(s.rows[id].data.status) && LogStream.IsOver(s.rows[id].cols.status)
    && (id in s.tasks ==> s.tasks[id].Finalized?)
  }

  lemma TerminalIsFinal(c: Config, s: State, id: string)
    requires TableOk(s) && TasksOk(s) && id in s.rows && LogStream.IsOver(s.rows[id].data.status)
    ensures Final(s, id)
  {
    if id in s.tasks {
      assert TaskRow(s.rows[id], s.tasks[id]);
    }
  }

  lemma TaskKeepsFinal(c: Config, s: State, k: string, act: TaskAct, id: string)
    requires Enabled(c, s, Task(k, act)) && Final(s, id)
    ensures Final(Do(c, s, Task(k, act)), id)
  {
  }

  lemma VerdictKeepsFinal(c: Config, s: State, id: string)
    requires Enabled(c, s, DecideSave) && Final(s, id)
    ensures Final(Do(c, s, DecideSave), id)
  {
  }

  lemma RecoveryKeepsFinal(c: Config, s: State, k: string, id: string)
    requires BootOk(s) && Enabled(c, s, RecoverOne(k)) && Final(s, id)
    ensures Final(Do(c, s, RecoverOne(k)), id)
  {
    assert k in RunningIds(s.rows);
  }

  lemma RefusalKeepsFinal(c: Config, s: State, id: string)
    requires TodoOk(s) && Enabled(c, s, SubmitRefused) && Final(s, id)
    ensures Final(Do(c, s, SubmitRefused), id)
  {
    assert Claimable(s, s.disp.todo[0]);
  }

  lemma AdvanceKeepsFinal(c: Config, s: State, id: string)
    requires TodoOk(s) && Enabled(c, s, Advance) && Final(s, id)
    ensures Final(Do(c, s, Advance), id)
  {
    if s.disp.stage == Submit {
      assert Claimable(s, s.disp.todo[0]);
    }
  }

  lemma OthersKeepFinal(c: Config, s: State, a: Action, id: string)
    requires Enabled(c, s, a) && !RewritesRow(a) && Final(s, id)
    ensures Final(Do(c, s, a), id)
  {
    OtherStepsSpare(c, s, a, id);
  }

  lemma DispatcherKeepsFinal(c: Config, s: State, a: Action, id: string)
    requires TodoOk(s) && Enabled(c, s, a) && (a.Advance? || a.SubmitRefused?) && Final(s, id)
    ensures Final(Do(c, s, a), id)
  {
    if a.Advance? {
      AdvanceKeepsFinal(c, s, id);
    } else {
      RefusalKeepsFinal(c, s, id);
    }
  }

  lemma StaysFinal(c: Config, s: State, a: Action, id: string)
    requires TodoOk(s) && BootOk(s) && Enabled(c, s, a) && Final(s, id)
    ensures Final(Do(c, s, a), id)
  {
    if !RewritesRow(a) {
      OthersKeepFinal(c, s, a, id);
    } else if a.Task? {
      TaskKeepsFinal(c, s, a.id, a.act, id);
    } else if a.DecideSave? {
      VerdictKeepsFinal(c, s, id);
    } else if a.RecoverOne? {
      RecoveryKeepsFinal(c, s, a.id, id);
    } else {
      DispatcherKeepsFinal(c, s, a, id);
    }
  }

  // Once the status of a job is terminal it stays so, over every run, and no
  // thread of it is inside the execution any more.
  lemma {:induction false} TerminalForever(c: Config, states: seq<State>, actions: seq<Action>, i: nat, j: nat,
      id: string)
    requires IsRun(c, states, actions) && i <= j <= |actions|
    requires id in states[i].rows && LogStream.IsOver(states[i].rows[id].data.status)
    ensures Final(states[j], id)
    decreases j
  {
    if i == j {
      ReachableInv(c, states, actions, j);
      TerminalIsFinal(c, states[j], id);
    } else {
      TerminalForever(c, states, actions, i, j - 1, id);
      ReachableInv(c, states, actions, j - 1);
      StaysFinal(c, states[j - 1], actions[j - 1], id);
    }
  }

  // In particular it is never executed again.
  lemma EndedIsNotExecuted(c: Config, states: seq<State>, actions: seq<Action>, i: nat, j: nat, id: string)
    requires IsRun(c, states, actions) && i <= j < |actions|
    requires id in states[i].rows && LogStream.IsOver(states[i].rows[id].data.status)
    ensures actions[j] != Task(id, Enter)
    ensures !(id in states[j].tasks && states[j].tasks[id].Executing?)
  {
    TerminalForever(c, states, actions, i, j, id);
  }

  // --- What the job's thread writes -------------------------------------------------

  // What is appended to the files of a job just before each step.
  type Speech = nat -> seq<LogStream.Write>

  predicate Executing(s: State, id: string) {
    id in s.tasks && s.tasks[id].Executing?
  }

  // Text comes from the engine, so only from inside the execution; lines may
  // be logged at any time.
  ghost predicate Speaks(states: seq<State>, id: string, said: Speech) {
    forall k: nat, w :: k < |states| && w in said(k) ==> !w.Save? && (w.Delta? ==> Executing(states[k], id))
  }

  function Saves(s: State, id: string): seq<LogStream.Write> {
    if id in s.rows then [LogStream.Save(s.rows[id].data.status)] else []
  }

  // The history of a job in the first `k` steps of a run: what its thread
  // wrote, and the status that the table then showed.
  function Written(states: seq<State>, id: string, said: Speech, k: nat): seq<LogStream.Write>
    requires k < |states|
  {
    if k == 0 then [] else Written(states, id, said, k - 1) + said(k - 1) + Saves(states[k], id)
  }

  ghost predicate EverTerminal(h: seq<LogStream.Write>) {
    exists t :: 0 <= t <= |h| && LogStream.Status(Queued, h[..t]).Terminal()
  }

  lemma {:induction false} StatusOfPrefix(h: seq<LogStream.Write>, more: seq<LogStream.Write>, t: nat)
    requires t <= |h|
    ensures (h + more)[..t] == h[..t]
  {
  }

  lemma {:induction false} StatusWithoutSave(h: seq<LogStream.Write>, w: LogStream.Write)
    requires !w.Save?
    ensures LogStream.Status(Queued, h + [w]) == LogStream.Status(Queued, h)
  {
    assert (h + [w])[..|h|] == h;
  }

  // One more write: text only while no status has been terminal.
  lemma {:induction false} OneMoreWrite(h: seq<LogStream.Write>, w: LogStream.Write)
    requires LogStream.SavesLast(Queued, h) && (w.Delta? ==> !EverTerminal(h))
    ensures LogStream.SavesLast(Queued, h + [w])
    ensures EverTerminal(h + [w]) ==> EverTerminal(h) || (w.Save? && w.status.Terminal())
  {
    var more := h + [w];
    forall t, u | 0 <= t <= u < |more| && LogStream.Status(Queued, more[..t]).Terminal()
      ensures !more[u].Delta?
    {
      StatusOfPrefix(h, [w], t);
      if u < |h| {
        assert !h[u].Delta?;
      }
    }
    if EverTerminal(more) {
      var t :| 0 <= t <= |more| && LogStream.Status(Queued, more[..t]).Terminal();
      if t <= |h| {
        StatusOfPrefix(h, [w], t);
      } else {
        assert more[..t] == more;
        if !w.Save? {
          StatusWithoutSave(h, w);
          assert h[..|h|] == h;
        }
      }
    }
  }

  lemma {:induction false} MoreWrites(h: seq<LogStream.Write>, ws: seq<LogStream.Write>)
    requires LogStream.SavesLast(Queued, h)
    requires forall w :: w in ws ==> !w.Save? && (w.Delta? ==> !EverTerminal(h))
    ensures LogStream.SavesLast(Queued, h + ws)
    ensures EverTerminal(h + ws) ==> EverTerminal(h)
    decreases |ws|
  {
    if ws == [] {
      assert h + ws == h;
    } else {
      var front, w := ws[..|ws| - 1], ws[|ws| - 1];
      assert forall v :: v in front ==> v in ws;
      MoreWrites(h, front);
      OneMoreWrite(h + front, w);
      assert h + front + [w] == h + ws;
    }
  }

  // The engine saves last: nothing is appended to the stream file of a job
  // after a terminal status of it has been saved, in any run.
  lemma {:induction false} EngineSavesLast(c: Config, states: seq<State>, actions: seq<Action>, id: string,
      said: Speech, k: nat)
    requires IsRun(c, states, actions) && k <= |actions| && Speaks(states, id, said)
    ensures LogStream.SavesLast(Queued, Written(states, id, said, k))
    ensures EverTerminal(Written(states, id, said, k)) ==> Final(states[k], id)
    decreases k
  {
    if k == 0 {
      assert Written(states, id, said, k) == [];
    } else {
      var h := Written(states, id, said, k - 1);
      EngineSavesLast(c, states, actions, id, said, k - 1);
      ReachableInv(c, states, actions, k - 1);
      MoreWrites(h, said(k - 1));
      SaveFollows(c, states, actions, id, said, k);
    }
  }

  lemma {:induction false} SaveFollows(c: Config, states: seq<State>, actions: seq<Action>, id: string, said: Speech,
      k: nat)
    requires IsRun(c, states, actions) && 0 < k <= |actions|
    requires var h := Written(states, id, said, k - 1) + said(k - 1);
      LogStream.SavesLast(Queued, h) && (EverTerminal(h) ==> Final(states[k - 1], id))
    ensures LogStream.SavesLast(Queued, Written(states, id, said, k))
    ensures EverTerminal(Written(states, id, said, k)) ==> Final(states[k], id)
  {
    var h := Written(states, id, said, k - 1) + said(k - 1);
    SaveAfter(h, states[k], id);
    FinalFollows(c, states, actions, id, k);
  }

  lemma SaveAfter(h: seq<LogStream.Write>, s: State, id: string)
    requires LogStream.SavesLast(Queued, h)
    ensures LogStream.SavesLast(Queued, h + Saves(s, id))
    ensures EverTerminal(h + Saves(s, id)) ==> EverTerminal(h) || (id in s.rows && s.rows[id].data.status.Terminal())
  {
    if id in s.rows {
      OneMoreWrite(h, LogStream.Save(s.rows[id].data.status));
    } else {
      assert h + [] == h;
    }
  }

  lemma FinalFollows(c: Config, states: seq<State>, actions: seq<Action>, id: string, k: nat)
    requires IsRun(c, states, actions) && 0 < k <= |actions|
    ensures Final(states[k - 1], id) || (id in states[k].rows && states[k].rows[id].data.status.Terminal())
            ==> Final(states[k], id)
  {
    if Final(states[k - 1], id) {
      ReachableInv(c, states, actions, k - 1);
      StaysFinal(c, states[k - 1], actions[k - 1], id);
    } else if id in states[k].rows && states[k].rows[id].data.status.Terminal() {
      ReachableInv(c, states, actions, k);
      TerminalIsFinal(c, states[k], id);
    }
  }

  lemma OverIsEnded(views: seq<LogStream.View>, n: nat)
    requires 0 < n <= |views| && LogStream.IsOver(views[n - 1].status)
    ensures LogStream.Ended(views, n)
  {
  }

  // The feed of a job, followed over any run of the engine in any
  // interleaving with it: once `done` has been said, the client has all the
  // text the job has written, and there will be no more.
  lemma DoneMeansAll(c: Config, states: seq<State>, actions: seq<Action>, id: string, said: Speech,
      looks: seq<LogStream.Look>, space: char -> bool, out: string, marks: seq<nat>)
    requires IsRun(c, states, actions) && Speaks(states, id, said)
    requires var h := Written(states, id, said, |actions|);
      && LogStream.Interleaved(h, looks)
      && Sse.Free(LogStream.TextFile(h), '\r') && Sse.Free(LogStream.LogFile(h), '\r')
      && LogStream.Outcome(LogStream.ViewsOf(Queued, h, looks), space, out, marks)
      && 0 < |marks| <= |looks| && LogStream.IsOver(LogStream.ViewsOf(Queued, h, looks)[|marks| - 1].status)
    ensures LogStream.TextOf(Sse.Decode(out)) == LogStream.TextFile(Written(states, id, said, |actions|))
  {
    EngineSavesLast(c, states, actions, id, said, |actions|);
    OverIsEnded(LogStream.ViewsOf(Queued, Written(states, id, said, |actions|), looks), |marks|);
    LogStream.FeedIsPrefix(Queued, Written(states, id, said, |actions|), looks, space, out, marks, 0);
  }
}
