// The cron scheduler: repeated scans over all schedules, each enqueueing a job
// where a fire time has passed since the last enqueue.

module Scheduler {
  import opened Models

  datatype Schedule = Schedule(name: Option<string>, cron: Option<string>)

  datatype Instance = Instance(name: string, paused: bool, schedules: seq<Schedule>)

  // Cron expressions as the library reads them: which are valid, when each of
  // them fires, and the next fire time after a given time.
  datatype Calendar = Calendar(valid: string -> bool, fires: (string, real) -> bool, next: (string, real) -> real)

  // `next` gives the least fire time strictly after its base.
  ghost predicate Lawful(cal: Calendar) {
    forall cron, base :: cal.valid(cron) ==> IsNext(cal, cron, base, cal.next(cron, base))
  }

  ghost predicate IsNext(cal: Calendar, cron: string, base: real, t: real) {
    base < t && cal.fires(cron, t) && forall u :: base < u < t ==> !cal.fires(cron, u)
  }

  function KeyOf(inst: Instance, sched: Schedule): string {
    inst.name + "/" + if sched.name.Some? then sched.name.value else "unnamed"
  }

  predicate NoSlash(s: string) {
    forall c <- s :: c != '/'
  }

  function NameOf(sched: Schedule): string {
    if sched.name.Some? then sched.name.value else "unnamed"
  }

  // Two schedules share a key exactly when instance and schedule have the same
  // names; names of instances hold no slash.
  lemma KeysAreNames(a: Instance, b: Instance, x: Schedule, y: Schedule)
    requires NoSlash(a.name) && NoSlash(b.name)
    ensures KeyOf(a, x) == KeyOf(b, y) <==> a.name == b.name && NameOf(x) == NameOf(y)
  {
    if KeyOf(a, x) == KeyOf(b, y) {
      SlashParts(a.name, b.name, NameOf(x), NameOf(y));
    }
  }

  lemma FirstSlash(a: string, x: string)
    requires NoSlash(a)
    ensures (a + "/" + x)[|a|] == '/' && forall i :: 0 <= i < |a| ==> (a + "/" + x)[i] != '/'
  {
    forall i | 0 <= i < |a|
      ensures (a + "/" + x)[i] != '/'
    {
      assert a[i] in a;
    }
  }

  lemma SlashParts(a: string, b: string, x: string, y: string)
    requires NoSlash(a) && NoSlash(b) && a + "/" + x == b + "/" + y
    ensures a == b && x == y
  {
    var key := a + "/" + x;
    FirstSlash(a, x);
    FirstSlash(b, y);
    assert |a| == |b|;
    assert key[..|a|] == a && key[..|b|] == b;
    assert key[|a| + 1..] == x && key[|b| + 1..] == y;
  }

  // A schedule as a scan meets it.
  datatype Entry = Entry(key: string, cron: Option<string>)

  datatype Enqueue = Enqueue(key: string, at: real)

  datatype State = State(last: map<string, real>, created: seq<Enqueue>)

  function Base(last: map<string, real>, key: string, tick: real, now: real): real {
    if key in last then last[key] else now - tick
  }

  predicate Due(cal: Calendar, tick: real, last: map<string, real>, e: Entry, now: real) {
    Truthy(e.cron) && cal.valid(e.cron.value) && cal.next(e.cron.value, Base(last, e.key, tick, now)) <= now
  }

  function Visited(cal: Calendar, tick: real, s: State, e: Entry, now: real): State {
    if Due(cal, tick, s.last, e, now) then State(s.last[e.key := now], s.created + [Enqueue(e.key, now)]) else s
  }

  // A scan that visits these entries one after the other.
  function Scanned(cal: Calendar, tick: real, s: State, entries: seq<Entry>, now: real): State
    decreases |entries|
  {
    if entries == [] then s
    else Visited(cal, tick, Scanned(cal, tick, s, entries[..|entries| - 1], now), entries[|entries| - 1], now)
  }

  function EntriesOf(inst: Instance): seq<Entry> {
    if inst.paused then []
    else
      seq(|inst.schedules|, i requires 0 <= i < |inst.schedules| =>
        Entry(KeyOf(inst, inst.schedules[i]), inst.schedules[i].cron))
  }

  function Entries(insts: seq<Instance>): seq<Entry> {
    if insts == [] then [] else Entries(insts[..|insts| - 1]) + EntriesOf(insts[|insts| - 1])
  }

  lemma {:induction false} EntriesGrow(insts: seq<Instance>, n: nat)
    requires n <= |insts|
    ensures Entries(insts[..n]) <= Entries(insts)
    decreases |insts|
  {
    if n == |insts| {
      assert insts[..n] == insts;
    } else {
      EntriesGrow(insts[..|insts| - 1], n);
      assert insts[..|insts| - 1][..n] == insts[..n];
    }
  }

  // From `s`, a scan of `entries` came as far as `visited` and left `end`; not
  // done: it was ended by the refusal of the next entry's job.
  ghost predicate CameTo(cal: Calendar, tick: real, entries: seq<Entry>, now: real, refuses: string -> bool,
                         s: State, end: State, done: bool, visited: seq<Entry>)
  {
    && visited <= entries
    && end == Scanned(cal, tick, s, visited, now)
    && if done then visited == entries
       else |visited| < |entries| && Due(cal, tick, end.last, entries[|visited|], now)
            && refuses(entries[|visited|].key)
  }

  lemma CameFurther(cal: Calendar, tick: real, all: seq<Entry>, now: real, refuses: string -> bool, s: State,
      before: seq<Entry>, entries: seq<Entry>, end: State, done: bool, visited: seq<Entry>)
    requires before + entries <= all
    requires CameTo(cal, tick, entries, now, refuses, Scanned(cal, tick, s, before, now), end, done, visited)
    ensures end == Scanned(cal, tick, s, before + visited, now)
    ensures done ==> before + visited == before + entries
    ensures !done ==> CameTo(cal, tick, all, now, refuses, s, end, false, before + visited)
  {
    ScannedSplits(cal, tick, s, before, visited, now);
    if !done {
      assert all[|before + visited|] == (before + entries)[|before + visited|] == entries[|visited|];
    }
  }

  class Scheduler {
    const tick: real
    const cal: Calendar
    var last: map<string, real>
    var created: seq<Enqueue>

    constructor (tick: real, cal: Calendar)
      ensures this.tick == tick && this.cal == cal && last == map[] && created == []
    {
      this.tick, this.cal, last, created := tick, cal, map[], [];
    }

    // One schedule; false: the store refused its job, and nothing changed.
    method Visit(key: string, sched: Schedule, now: real, refuses: string -> bool) returns (done: bool)
      modifies this`last, this`created
      ensures done <==> !(Due(cal, tick, old(last), Entry(key, sched.cron), now) && refuses(key))
      ensures done ==>
                State(last, created) == Visited(cal, tick, State(old(last), old(created)), Entry(key, sched.cron), now)
      ensures !done ==> last == old(last) && created == old(created)
    {
      if !Truthy(sched.cron) || !cal.valid(sched.cron.value) {
        return true;
      }
      var base := if key in last then last[key] else now - tick;
      if cal.next(sched.cron.value, base) <= now {
        if refuses(key) {
          return false;
        }
        created := created + [Enqueue(key, now)];
        last := last[key := now];
      }
      done := true;
    }

    method ScanInstance(inst: Instance, now: real, refuses: string -> bool)
      returns (done: bool, ghost visited: seq<Entry>)
      requires !inst.paused
      modifies this`last, this`created
      ensures CameTo(cal, tick, EntriesOf(inst), now, refuses, State(old(last), old(created)), State(last, created),
                     done, visited)
    {
      visited := [];
      for k := 0 to |inst.schedules|
        invariant visited == EntriesOf(inst)[..k]
        invariant State(last, created) == Scanned(cal, tick, State(old(last), old(created)), visited, now)
      {
        var key := KeyOf(inst, inst.schedules[k]);
        done := Visit(key, inst.schedules[k], now, refuses);
        if !done {
          return;
        }
        visited := visited + [Entry(key, inst.schedules[k].cron)];
        assert visited[..k] == EntriesOf(inst)[..k];
      }
      done := true;
    }

    // Visits the schedules of the unpaused instances in order. One whose job
    // the store refuses ends the scan by an exception.
    method Scan(insts: seq<Instance>, now: real, refuses: string -> bool)
      returns (done: bool, ghost visited: seq<Entry>)
      modifies this`last, this`created
      ensures CameTo(cal, tick, Entries(insts), now, refuses, State(old(last), old(created)), State(last, created),
                     done, visited)
    {
      ghost var start := State(last, created);
      visited := [];
      for i := 0 to |insts|
        invariant visited == Entries(insts[..i]) && State(last, created) == Scanned(cal, tick, start, visited, now)
      {
        assert insts[..i + 1][..i] == insts[..i];
        EntriesGrow(insts, i + 1);
        if !insts[i].paused {
          ghost var some;
          done, some := ScanInstance(insts[i], now, refuses);
          CameFurther(cal, tick, Entries(insts), now, refuses, start, visited, EntriesOf(insts[i]),
                      State(last, created), done, some);
          visited := visited + some;
          if !done {
            return;
          }
        }
      }
      assert insts[..|insts|] == insts;
      done := true;
    }
  }

  lemma {:induction false} ScannedSplits(cal: Calendar, tick: real, s: State, xs: seq<Entry>, ys: seq<Entry>, now: real)
    ensures Scanned(cal, tick, s, xs + ys, now) == Scanned(cal, tick, Scanned(cal, tick, s, xs, now), ys, now)
    decreases |ys|
  {
    if ys == [] {
      assert xs + ys == xs;
    } else {
      assert (xs + ys)[..|xs + ys| - 1] == xs + ys[..|ys| - 1];
      ScannedSplits(cal, tick, s, xs, ys[..|ys| - 1], now);
    }
  }

  // --- One key, one scan ----------------------------------------------------

  predicate DistinctKeys(entries: seq<Entry>) {
    forall i, j :: 0 <= i < j < |entries| ==> entries[i].key != entries[j].key
  }

  predicate Mentions(entries: seq<Entry>, key: string) {
    exists i :: 0 <= i < |entries| && entries[i].key == key
  }

  // The times at which jobs were made for a key.
  function Times(created: seq<Enqueue>, key: string): seq<real> {
    if created == [] then []
    else
      var last := created[|created| - 1];
      Times(created[..|created| - 1], key) + if last.key == key then [last.at] else []
  }

  lemma TimesAppend(created: seq<Enqueue>, e: Enqueue, key: string)
    ensures Times(created + [e], key) == Times(created, key) + if e.key == key then [e.at] else []
  {
    assert (created + [e])[..|created|] == created;
  }

  predicate SameFor(a: State, b: State, key: string) {
    && (key in a.last <==> key in b.last) && (key in a.last ==> a.last[key] == b.last[key])
    && Times(a.created, key) == Times(b.created, key)
  }

  // Key `key` got a job at `now`.
  predicate Fired(a: State, b: State, key: string, now: real) {
    key in b.last && b.last[key] == now && Times(b.created, key) == Times(a.created, key) + [now]
  }

  lemma {:induction false} OthersUntouched(cal: Calendar, tick: real, s: State, entries: seq<Entry>, now: real,
      key: string)
    requires !Mentions(entries, key)
    ensures SameFor(s, Scanned(cal, tick, s, entries, now), key)
    decreases |entries|
  {
    if entries != [] {
      var before, e := entries[..|entries| - 1], entries[|entries| - 1];
      assert forall i :: 0 <= i < |before| ==> before[i] == entries[i];
      OthersUntouched(cal, tick, s, before, now, key);
      TimesAppend(Scanned(cal, tick, s, before, now).created, Enqueue(e.key, now), key);
    }
  }

  // A scan treats each of its entries as if it were alone.
  lemma {:induction false} EachAlone(cal: Calendar, tick: real, s: State, entries: seq<Entry>, now: real, i: nat)
    requires DistinctKeys(entries) && i < |entries|
    ensures var t := Scanned(cal, tick, s, entries, now);
      if Due(cal, tick, s.last, entries[i], now) then Fired(s, t, entries[i].key, now)
      else SameFor(s, t, entries[i].key)
    decreases |entries|
  {
    var before, e := entries[..|entries| - 1], entries[|entries| - 1];
    var mid := Scanned(cal, tick, s, before, now);
    if i == |entries| - 1 {
      OthersUntouched(cal, tick, s, before, now, e.key);
      VisitedAlone(cal, tick, s, mid, e, now);
    } else {
      EachAlone(cal, tick, s, before, now, i);
      VisitKeepsAlone(cal, tick, s, mid, e, entries[i], now);
    }
  }

  // From `s` to `t` the entry was treated as if it were alone.
  predicate AsIfAlone(cal: Calendar, tick: real, s: State, t: State, e: Entry, now: real) {
    if Due(cal, tick, s.last, e, now) then Fired(s, t, e.key, now) else SameFor(s, t, e.key)
  }

  lemma VisitedAlone(cal: Calendar, tick: real, s: State, mid: State, e: Entry, now: real)
    requires SameFor(s, mid, e.key)
    ensures AsIfAlone(cal, tick, s, Visited(cal, tick, mid, e, now), e, now)
  {
    TimesAppend(mid.created, Enqueue(e.key, now), e.key);
  }

  lemma VisitKeepsAlone(cal: Calendar, tick: real, s: State, mid: State, e: Entry, other: Entry, now: real)
    requires other.key != e.key && AsIfAlone(cal, tick, s, mid, other, now)
    ensures AsIfAlone(cal, tick, s, Visited(cal, tick, mid, e, now), other, now)
  {
    TimesAppend(mid.created, Enqueue(e.key, now), other.key);
  }

  ghost predicate FiresIn(cal: Calendar, cron: string, after: real, upTo: real) {
    exists t :: after < t <= upTo && cal.fires(cron, t)
  }

  // Due: a fire time has passed since the last job, or within the last tick
  // when there has been no job yet.
  lemma DueMeansFired(cal: Calendar, tick: real, last: map<string, real>, e: Entry, now: real)
    requires Lawful(cal) && Truthy(e.cron) && cal.valid(e.cron.value)
    ensures Due(cal, tick, last, e, now) <==> FiresIn(cal, e.cron.value, Base(last, e.key, tick, now), now)
  {
    var base := Base(last, e.key, tick, now);
    assert IsNext(cal, e.cron.value, base, cal.next(e.cron.value, base));
  }

  // --- Runs -------------------------------------------------------------------

  datatype Scan = Scan(now: real, visited: seq<Entry>)

  const START := State(map[], [])

  function After(cal: Calendar, tick: real, scans: seq<Scan>): State {
    if scans == [] then START
    else
      var n := |scans| - 1;
      Scanned(cal, tick, After(cal, tick, scans[..n]), scans[n].visited, scans[n].now)
  }

  // Scan times do not decrease, keys are distinct, and `key` always means the
  // same valid cron expression.
  predicate Orderly(cal: Calendar, scans: seq<Scan>, key: string, cron: string) {
    && cron != "" && cal.valid(cron)
    && (forall i, j :: 0 <= i < j < |scans| ==> scans[i].now <= scans[j].now)
    && (forall i :: 0 <= i < |scans| ==> DistinctKeys(scans[i].visited))
    && (forall i, k :: 0 <= i < |scans| && 0 <= k < |scans[i].visited| && scans[i].visited[k].key == key ==>
          scans[i].visited[k].cron == Some(cron))
  }

  predicate Visits(scan: Scan, key: string) {
    Mentions(scan.visited, key)
  }

  // What a scan does for a key it visits.
  lemma VisitFires(cal: Calendar, tick: real, s: State, scan: Scan, key: string, cron: string)
    requires Lawful(cal) && Orderly(cal, [scan], key, cron) && Visits(scan, key)
    ensures var t := Scanned(cal, tick, s, scan.visited, scan.now);
      if FiresIn(cal, cron, Base(s.last, key, tick, scan.now), scan.now) then Fired(s, t, key, scan.now)
      else SameFor(s, t, key)
  {
    var i :| 0 <= i < |scan.visited| && scan.visited[i].key == key;
    assert [scan][0] == scan;
    assert scan.visited[i].cron == Some(cron);
    EachAlone(cal, tick, s, scan.visited, scan.now, i);
    DueMeansFired(cal, tick, s.last, scan.visited[i], scan.now);
  }

  lemma SkipKeeps(cal: Calendar, tick: real, s: State, scan: Scan, key: string)
    requires !Visits(scan, key)
    ensures SameFor(s, Scanned(cal, tick, s, scan.visited, scan.now), key)
  {
    OthersUntouched(cal, tick, s, scan.visited, scan.now, key);
  }

  lemma OrderlyPrefix(cal: Calendar, scans: seq<Scan>, key: string, cron: string, n: nat)
    requires Orderly(cal, scans, key, cron) && n < |scans|
    ensures Orderly(cal, scans[..n], key, cron) && Orderly(cal, [scans[n]], key, cron)
  {
    var s := scans[..n];
    assert forall i :: 0 <= i < |s| ==> s[i] == scans[i];
  }

  // The fires that justify the jobs made at `times`: one each, each later than
  // the one before and than the job before.
  predicate Justified(cal: Calendar, cron: string, tick: real, fires: seq<real>, times: seq<real>) {
    && |fires| == |times|
    && (forall i :: 0 <= i < |fires| ==> cal.fires(cron, fires[i]) && fires[i] <= times[i])
    && (forall i :: 0 <= i < |fires| - 1 ==> times[i] < fires[i + 1])
    && (times != [] ==> times[0] - tick < fires[0])
  }

  // The last entry is the time of the last job.
  predicate LastIsLatest(s: State, key: string) {
    var times := Times(s.created, key);
    if key in s.last then times != [] && times[|times| - 1] == s.last[key] else times == []
  }

  lemma {:induction false} LastIsKept(cal: Calendar, tick: real, scans: seq<Scan>, key: string, cron: string)
    requires Lawful(cal) && Orderly(cal, scans, key, cron)
    ensures LastIsLatest(After(cal, tick, scans), key)
    decreases |scans|
  {
    if scans != [] {
      var n := |scans| - 1;
      OrderlyPrefix(cal, scans, key, cron, n);
      LastIsKept(cal, tick, scans[..n], key, cron);
      if Visits(scans[n], key) {
        VisitFires(cal, tick, After(cal, tick, scans[..n]), scans[n], key, cron);
      } else {
        SkipKeeps(cal, tick, After(cal, tick, scans[..n]), scans[n], key);
      }
    }
  }

  // No fire makes two jobs: over any run, the jobs of a schedule are justified
  // by strictly increasing fire times.
  lemma {:induction false} NoFireTwice(cal: Calendar, tick: real, scans: seq<Scan>, key: string, cron: string)
    returns (fires: seq<real>)
    requires Lawful(cal) && Orderly(cal, scans, key, cron)
    ensures Justified(cal, cron, tick, fires, Times(After(cal, tick, scans).created, key))
    decreases |scans|
  {
    fires := [];
    if scans != [] {
      var n := |scans| - 1;
      OrderlyPrefix(cal, scans, key, cron, n);
      fires := NoFireTwice(cal, tick, scans[..n], key, cron);
      LastIsKept(cal, tick, scans[..n], key, cron);
      var s := After(cal, tick, scans[..n]);
      if !Visits(scans[n], key) {
        SkipKeeps(cal, tick, s, scans[n], key);
      } else {
        VisitFires(cal, tick, s, scans[n], key, cron);
        var base := Base(s.last, key, tick, scans[n].now);
        if FiresIn(cal, cron, base, scans[n].now) {
          var t :| base < t <= scans[n].now && cal.fires(cron, t);
          fires := fires + [t];
        }
      }
    }
  }

  lemma FiresIncrease(cal: Calendar, cron: string, tick: real, fires: seq<real>, times: seq<real>, i: nat, j: nat)
    requires Justified(cal, cron, tick, fires, times) && i < j < |fires|
    ensures fires[i] < fires[j]
  {
    if i < j - 1 {
      FiresIncrease(cal, cron, tick, fires, times, i, j - 1);
    }
  }

  // The entry of a key is the time of a scan that visited it.
  lemma {:induction false} LastIsAScan(cal: Calendar, tick: real, scans: seq<Scan>, key: string, cron: string)
    requires Lawful(cal) && Orderly(cal, scans, key, cron) && key in After(cal, tick, scans).last
    ensures exists m :: 0 <= m < |scans| && Visits(scans[m], key) && scans[m].now == After(cal, tick, scans).last[key]
    decreases |scans|
  {
    var n := |scans| - 1;
    var s := After(cal, tick, scans[..n]);
    OrderlyPrefix(cal, scans, key, cron, n);
    if Visits(scans[n], key) {
      VisitFires(cal, tick, s, scans[n], key, cron);
    } else {
      SkipKeeps(cal, tick, s, scans[n], key);
    }
    if !(Visits(scans[n], key) && scans[n].now == After(cal, tick, scans).last[key]) {
      LastIsAScan(cal, tick, scans[..n], key, cron);
      var m :| 0 <= m < n && Visits(scans[..n][m], key) && scans[..n][m].now == s.last[key];
      assert Visits(scans[m], key) && scans[m].now == s.last[key];
    }
  }

  // Once a schedule has made a job, the first scan that visits it at or after
  // a later fire makes one: no such fire is lost, and several that fall
  // between two visits share one job.
  lemma LaterFireIsCovered(cal: Calendar, tick: real, scans: seq<Scan>, key: string, cron: string, t: real)
    requires Lawful(cal) && Orderly(cal, scans, key, cron) && scans != [] && cal.fires(cron, t)
    requires var n := |scans| - 1;
      && key in After(cal, tick, scans[..n]).last
      && Visits(scans[n], key) && t <= scans[n].now
      && forall m :: 0 <= m < n && Visits(scans[m], key) ==> scans[m].now < t
    ensures var n := |scans| - 1;
      Fired(After(cal, tick, scans[..n]), After(cal, tick, scans), key, scans[n].now)
  {
    var n := |scans| - 1;
    OrderlyPrefix(cal, scans, key, cron, n);
    LastIsAScan(cal, tick, scans[..n], key, cron);
    assert forall m :: 0 <= m < n ==> scans[..n][m] == scans[m];
    VisitFires(cal, tick, After(cal, tick, scans[..n]), scans[n], key, cron);
  }

  // The scan visits the schedule within one tick of a fire.
  ghost predicate Catches(cal: Calendar, cron: string, tick: real, scan: Scan, key: string) {
    Visits(scan, key) && FiresIn(cal, cron, scan.now - tick, scan.now)
  }

  lemma FirstJobNeedsACatch(cal: Calendar, tick: real, s: State, scan: Scan, key: string, cron: string)
    requires Lawful(cal) && Orderly(cal, [scan], key, cron) && LastIsLatest(s, key)
    ensures Times(Scanned(cal, tick, s, scan.visited, scan.now).created, key) != [] <==>
            Times(s.created, key) != [] || Catches(cal, cron, tick, scan, key)
  {
    if Visits(scan, key) {
      VisitFires(cal, tick, s, scan, key, cron);
    } else {
      SkipKeeps(cal, tick, s, scan, key);
    }
  }

  // Some scan of the run does.
  ghost predicate Caught(cal: Calendar, cron: string, tick: real, scans: seq<Scan>, key: string) {
    exists m :: 0 <= m < |scans| && Catches(cal, cron, tick, scans[m], key)
  }

  lemma CaughtGrows(cal: Calendar, cron: string, tick: real, scans: seq<Scan>, key: string)
    requires scans != []
    ensures Caught(cal, cron, tick, scans, key) <==>
            Caught(cal, cron, tick, scans[..|scans| - 1], key) || Catches(cal, cron, tick, scans[|scans| - 1], key)
  {
    var front := scans[..|scans| - 1];
    assert forall m :: 0 <= m < |front| ==> front[m] == scans[m];
    if Caught(cal, cron, tick, front, key) {
      var m :| 0 <= m < |front| && Catches(cal, cron, tick, front[m], key);
      assert Catches(cal, cron, tick, scans[m], key);
    }
  }

  // Before the first job it is different: a schedule has made a job exactly
  // when some scan has visited it within one tick of a fire. Every other fire
  // up to then is lost.
  lemma {:induction false} FirstJobExactly(cal: Calendar, tick: real, scans: seq<Scan>, key: string, cron: string)
    requires Lawful(cal) && Orderly(cal, scans, key, cron)
    ensures Times(After(cal, tick, scans).created, key) != [] <==> Caught(cal, cron, tick, scans, key)
    decreases |scans|
  {
    if scans != [] {
      var n := |scans| - 1;
      OrderlyPrefix(cal, scans, key, cron, n);
      FirstJobExactly(cal, tick, scans[..n], key, cron);
      LastIsKept(cal, tick, scans[..n], key, cron);
      FirstJobNeedsACatch(cal, tick, After(cal, tick, scans[..n]), scans[n], key, cron);
      CaughtGrows(cal, cron, tick, scans, key);
    }
  }

  // On the hour, every hour.
  const HOURLY := Calendar(
    cron => cron != "",
    (cron, t) => (t / 3600.0).Floor as real * 3600.0 == t,
    (cron, base) => ((base / 3600.0).Floor + 1) as real * 3600.0)

  lemma NextHour(base: real)
    ensures var k := (base / 3600.0).Floor; var t := (k + 1) as real * 3600.0;
      base < t && (t / 3600.0).Floor == k + 1
  {
    var k := (base / 3600.0).Floor;
    assert (k + 1) as real * 3600.0 / 3600.0 == (k + 1) as real;
  }

  lemma NoHourBefore(base: real, u: real)
    requires base < u < ((base / 3600.0).Floor + 1) as real * 3600.0
    ensures (u / 3600.0).Floor as real * 3600.0 != u
  {
    assert (u / 3600.0).Floor == (base / 3600.0).Floor;
  }

  lemma HourlyIsNext(cron: string, base: real)
    ensures IsNext(HOURLY, cron, base, HOURLY.next(cron, base))
  {
    NextHour(base);
    forall u | base < u < HOURLY.next(cron, base)
      ensures !HOURLY.fires(cron, u)
    {
      NoHourBefore(base, u);
    }
  }

  lemma HourlyIsLawful()
    ensures Lawful(HOURLY)
  {
    forall cron, base | HOURLY.valid(cron)
      ensures IsNext(HOURLY, cron, base, HOURLY.next(cron, base))
    {
      HourlyIsNext(cron, base);
    }
  }

  // Two scans half a second more than a tick apart miss the hour between them
  // as long as the schedule has made no job yet.
  lemma FirstFireCanBeLost(key: string)
    ensures var scans := [Scan(3599.5, [Entry(key, Some("0 * * * *"))]), Scan(3630.0, [Entry(key, Some("0 * * * *"))])];
      Lawful(HOURLY) && Orderly(HOURLY, scans, key, "0 * * * *") && HOURLY.fires("0 * * * *", 3600.0)
      && Times(After(HOURLY, 30.0, scans).created, key) == []
  {
    HourlyIsLawful();
    var cron := "0 * * * *";
    var entry := Entry(key, Some(cron));
    var scans := [Scan(3599.5, [entry]), Scan(3630.0, [entry])];
    HourlyIsQuiet(cron);
    FirstJobExactly(HOURLY, 30.0, scans, key, cron);
  }

  // Neither scan looks back to the hour: 3599.5 is before it, and 3630.0 a
  // whole tick after it.
  lemma HourlyIsQuiet(cron: string)
    ensures !FiresIn(HOURLY, cron, 3569.5, 3599.5) && !FiresIn(HOURLY, cron, 3600.0, 3630.0)
  {
    forall u | 3569.5 < u <= 3599.5
      ensures !HOURLY.fires(cron, u)
    {
      assert (u / 3600.0).Floor == 0;
    }
    forall u | 3600.0 < u <= 3630.0
      ensures !HOURLY.fires(cron, u)
    {
      assert (u / 3600.0).Floor == 1;
    }
  }
}
