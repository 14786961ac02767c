// The durable job table: one row per job, holding the job itself (the `data`
// column, see Serde) and hot columns copied out of it. Queries read only the
// columns; reads of a whole job read only the data.

module Store {
  import opened Models

  datatype Columns = Columns(
    id: string,
    instance: string,
    sessionId: Option<string>,
    threadKey: Option<string>,
    status: JobStatus,
    deliverable: Deliverable,
    mode: Mode,
    requester: Json,
    requestType: Json,
    idempotencyKey: Option<string>,
    costUsd: Option<real>,
    errorClass: Option<string>,
    prUrl: Option<string>,
    attempts: int,
    createdAt: real,
    startedAt: Option<real>,
    finishedAt: Option<real>)

  function Lookup(d: map<Key, Json>, k: Key): Json {
    if k in d then d[k] else JNull
  }

  function ColumnsOf(j: Job): Columns {
    var requester := Lookup(j.request, Text("requester"));
    Columns(
      j.id, j.instance, j.sessionId, j.threadKey, j.status, j.deliverable, j.mode,
      if requester.JObj? then Lookup(requester.fields, Text("name")) else JNull,
      Lookup(j.request, Text("request_type")),
      j.idempotencyKey, j.usage.costUsd, j.errorClass, j.prUrl, j.attempts,
      j.createdAt, j.startedAt, j.finishedAt)
  }

  // The columns that are read out of the request: the requester's name, where
  // the requester is an object that has one, and the type of the request.
  lemma RequestColumns(j: Job)
    ensures Text("requester") in j.request && j.request[Text("requester")].JObj?
            && Text("name") in j.request[Text("requester")].fields ==>
              ColumnsOf(j).requester == j.request[Text("requester")].fields[Text("name")]
    ensures Text("requester") !in j.request ==> ColumnsOf(j).requester == JNull
    ensures Text("request_type") in j.request ==> ColumnsOf(j).requestType == j.request[Text("request_type")]
    ensures Text("request_type") !in j.request ==> ColumnsOf(j).requestType == JNull
  {
  }

  datatype Row = Row(cols: Columns, data: Job)

  type Rows = map<string, Row>

  function RowOf(j: Job): Row {
    Row(ColumnsOf(j), j)
  }

  // --- Table invariants ----------------------------------------------------

  // Columns are what the data says, except that a claim writes the status
  // column alone: the data of a claimed, unstarted job still says queued.
  predicate Consistent(row: Row) {
    || row.cols == ColumnsOf(row.data)
    || (row.data.status == Queued && row.cols == ColumnsOf(row.data).(status := Running))
  }

  ghost predicate WellFormed(rows: Rows) {
    forall id :: id in rows ==> rows[id].data.id == id && Consistent(rows[id])
  }

  predicate SameKey(a: Job, b: Job) {
    a.idempotencyKey.Some? && a.idempotencyKey == b.idempotencyKey && a.instance == b.instance
  }

  // The unique index on (instance, idempotency_key).
  ghost predicate UniqueKeys(rows: Rows) {
    forall a, b :: a in rows && b in rows && a != b ==> !SameKey(rows[a].data, rows[b].data)
  }

  // Writing `j` would put a second row under its idempotency key.
  predicate Conflicts(rows: Rows, j: Job) {
    exists id :: id in rows && id != j.id && SameKey(j, rows[id].data)
  }

  // A key is taken only within its instance, and no key is never taken.
  lemma KeysArePerInstance(rows: Rows, j: Job)
    ensures Conflicts(rows, j) <==>
      exists id :: id in rows && id != j.id
                   && rows[id].data.instance == j.instance
                   && rows[id].data.idempotencyKey.Some? && j.idempotencyKey.Some?
                   && rows[id].data.idempotencyKey.value == j.idempotencyKey.value
  {
    if Conflicts(rows, j) {
      var id :| id in rows && id != j.id && SameKey(j, rows[id].data);
      assert rows[id].data.instance == j.instance;
    }
    if id :| id in rows && id != j.id && rows[id].data.instance == j.instance && rows[id].data.idempotencyKey.Some?
             && j.idempotencyKey.Some? && rows[id].data.idempotencyKey.value == j.idempotencyKey.value {
      assert SameKey(j, rows[id].data);
    }
  }

  // --- Queries -------------------------------------------------------------

  function RunningIn(rows: Rows, instance: string): set<string> {
    set id | id in rows && rows[id].cols.status == Running && rows[id].cols.instance == instance
  }

  function SessionRunningIds(rows: Rows, session: string): set<string> {
    set id | id in rows && rows[id].cols.status == Running && rows[id].cols.sessionId == Some(session)
  }

  function MutatingRunningIds(rows: Rows, instance: string): set<string> {
    set id | id in RunningIn(rows, instance) && rows[id].cols.deliverable.MutatesCode()
  }

  function QueuedIds(rows: Rows): set<string> {
    set id | id in rows && rows[id].cols.status == Queued
  }

  predicate IsQueued(rows: Rows, id: string) {
    id in rows && rows[id].cols.status == Queued
  }

  predicate Lists(out: seq<Job>, id: string) {
    exists i :: 0 <= i < |out| && out[i].id == id
  }

  // `SELECT data ... WHERE status='queued' ORDER BY created_at ASC LIMIT n`:
  // rows with equal times may come in any order.
  ghost predicate IsListing(rows: Rows, limit: nat, out: seq<Job>) {
    && |out| <= limit
    && (forall i :: 0 <= i < |out| ==> IsQueued(rows, out[i].id) && out[i] == rows[out[i].id].data)
    && (forall i, j :: 0 <= i < j < |out| ==> out[i].id != out[j].id && out[i].createdAt <= out[j].createdAt)
    && (forall id :: IsQueued(rows, id) && !Lists(out, id)
          ==> |out| == limit && forall i :: 0 <= i < |out| ==> out[i].createdAt <= rows[id].data.createdAt)
  }

  // --- Updates -------------------------------------------------------------

  function Saved(rows: Rows, j: Job): Rows {
    if j.id in rows then rows[j.id := RowOf(j)] else rows
  }

  function WithStatus(row: Row, status: JobStatus): Row {
    row.(cols := row.cols.(status := status))
  }

  function Claimed(rows: Rows, id: string): Rows {
    if IsQueued(rows, id) then rows[id := WithStatus(rows[id], Running)] else rows
  }

  function Reconciled(row: Row): Row {
    RowOf(row.data.(status := if row.cols.deliverable.ReadOnly() then Queued else Interrupted))
  }

  // Claiming a job and putting it back (the pool refused it) leaves the table
  // as it was.
  lemma ClaimUndoneBySave(rows: Rows, j: Job)
    requires WellFormed(rows) && IsQueued(rows, j.id) && rows[j.id].data == j
    ensures Saved(Claimed(rows, j.id), j.(status := Queued)) == rows
  {
    assert rows[j.id] == RowOf(j.(status := Queued));
  }

  lemma SaveKeepsTable(rows: Rows, j: Job)
    requires WellFormed(rows) && UniqueKeys(rows) && !Conflicts(rows, j)
    ensures WellFormed(Saved(rows, j)) && UniqueKeys(Saved(rows, j))
  {
    var after := Saved(rows, j);
    forall a, b | a in after && b in after && a != b
      ensures !SameKey(after[a].data, after[b].data)
    {
      assert a in rows && b in rows;
    }
  }

  datatype StoreError = Duplicate

  class JobStore {
    var rows: Rows

    ghost predicate Valid()
      reads this
    {
      WellFormed(rows) && UniqueKeys(rows)
    }

    constructor ()
      ensures Valid() && rows == map[]
    {
      rows := map[];
    }

    // INSERT fails on a known id and on a taken idempotency key.
    method CreateJob(j: Job) returns (r: Result<(), StoreError>)
      requires Valid()
      modifies this
      ensures Valid()
      ensures r.Ok? <==> j.id !in old(rows) && !Conflicts(old(rows), j)
      ensures rows == if r.Ok? then old(rows)[j.id := RowOf(j)] else old(rows)
    {
      if j.id in rows || Conflicts(rows, j) {
        return Err(Duplicate);
      }
      rows := rows[j.id := RowOf(j)];
      r := Ok(());
    }

    // UPDATE of an unknown id touches nothing and is no error.
    method SaveJob(j: Job) returns (r: Result<(), StoreError>)
      requires Valid()
      modifies this
      ensures Valid()
      ensures r.Err? <==> j.id in old(rows) && Conflicts(old(rows), j)
      ensures rows == if r.Ok? then Saved(old(rows), j) else old(rows)
    {
      if j.id in rows && Conflicts(rows, j) {
        return Err(Duplicate);
      }
      if j.id in rows {
        SaveKeepsTable(rows, j);
        rows := rows[j.id := RowOf(j)];
      }
      r := Ok(());
    }

    method GetJob(id: string) returns (j: Option<Job>)
      ensures j == if id in rows then Some(rows[id].data) else None
    {
      j := if id in rows then Some(rows[id].data) else None;
    }

    method ClaimJob(id: string) returns (won: bool)
      requires Valid()
      modifies this
      ensures Valid()
      ensures won == IsQueued(old(rows), id)
      ensures rows == Claimed(old(rows), id)
    {
      won := id in rows && rows[id].cols.status == Queued;
      if won {
        rows := rows[id := rows[id].(cols := rows[id].cols.(status := Running))];
      }
    }

    method QueuedJobs(limit: nat) returns (out: seq<Job>)
      requires Valid()
      ensures IsListing(rows, limit, out)
    {
      out := [];
      var rest := QueuedIds(rows);
      while rest != {} && |out| < limit
        invariant PartialListing(rows, out, rest) && |out| <= limit
        decreases rest
      {
        OldestExists(rows, rest);
        var next :| next in rest && forall id :: id in rest ==> rows[next].cols.createdAt <= rows[id].cols.createdAt;
        ListOne(rows, out, rest, next);
        out := out + [rows[next].data];
        rest := rest - {next};
      }
    }

    // Read-only work may run again; code-mutating work is never replayed.
    method ReconcileRow(id: string) returns (again: bool)
      requires id in rows
      modifies this
      ensures rows == old(rows)[id := Reconciled(old(rows)[id])]
      ensures again == old(rows)[id].cols.deliverable.ReadOnly()
    {
      var job := rows[id].data;
      again := rows[id].cols.deliverable.ReadOnly();
      if again {
        job := job.(status := Queued);
      } else {
        job := job.(status := Interrupted);
      }
      rows := rows[id := RowOf(job)];
    }

    // Boot-time reconciliation of the rows a crash left running.
    method RecoverInterrupted() returns (requeued: nat, interrupted: nat)
      requires Valid()
      modifies this
      ensures Valid()
      ensures rows == ReconciledAll(old(rows), {})
      ensures requeued == |RunningReadOnly(old(rows))|
      ensures interrupted == |RunningMutating(old(rows))|
    {
      requeued, interrupted := 0, 0;
      ghost var was := rows;
      var rest := RunningIds(rows);
      ReconcileNone(was);
      while rest != {}
        invariant Reconciling(was, rows, rest, requeued, interrupted)
        decreases rest
      {
        var id :| id in rest;
        ReconcileOne(was, rest, id);
        ReconcileOneCounts(was, rest, id);
        var again := ReconcileRow(id);
        if again {
          requeued := requeued + 1;
        } else {
          interrupted := interrupted + 1;
        }
        rest := rest - {id};
      }
      ReconciledIsTable(was);
    }
  }

  function RunningIds(rows: Rows): set<string> {
    set id | id in rows && rows[id].cols.status == Running
  }

  function RunningReadOnly(rows: Rows): set<string> {
    set id | id in RunningIds(rows) && rows[id].cols.deliverable.ReadOnly()
  }

  function RunningMutating(rows: Rows): set<string> {
    set id | id in RunningIds(rows) && rows[id].cols.deliverable.MutatesCode()
  }

  // Every row a crash left running, except those still to be visited, is
  // reconciled; the others are as they were.
  function ReconciledAll(rows: Rows, rest: set<string>): Rows {
    map id | id in rows :: if rows[id].cols.status == Running && id !in rest then Reconciled(rows[id]) else rows[id]
  }

  ghost predicate Reconciling(was: Rows, rows: Rows, rest: set<string>, requeued: nat, interrupted: nat) {
    && rest <= RunningIds(was)
    && rows == ReconciledAll(was, rest)
    && requeued == |RunningReadOnly(was) - rest|
    && interrupted == |RunningMutating(was) - rest|
  }

  lemma ReconcileNone(was: Rows)
    ensures Reconciling(was, was, RunningIds(was), 0, 0)
  {
    assert RunningReadOnly(was) - RunningIds(was) == RunningMutating(was) - RunningIds(was) == {};
  }

  lemma ReconcileOne(was: Rows, rest: set<string>, id: string)
    requires id in rest && rest <= RunningIds(was)
    ensures id in ReconciledAll(was, rest) && ReconciledAll(was, rest)[id] == was[id]
    ensures ReconciledAll(was, rest)[id := Reconciled(was[id])] == ReconciledAll(was, rest - {id})
  {
  }

  lemma ReconcileOneCounts(was: Rows, rest: set<string>, id: string)
    requires id in rest && rest <= RunningIds(was)
    ensures |RunningReadOnly(was) - (rest - {id})|
         == |RunningReadOnly(was) - rest| + (if was[id].cols.deliverable.ReadOnly() then 1 else 0)
    ensures |RunningMutating(was) - (rest - {id})|
         == |RunningMutating(was) - rest| + (if was[id].cols.deliverable.ReadOnly() then 0 else 1)
  {
    var ro, mu := RunningReadOnly(was), RunningMutating(was);
    if was[id].cols.deliverable.ReadOnly() {
      assert ro - (rest - {id}) == (ro - rest) + {id};
      assert mu - (rest - {id}) == mu - rest;
    } else {
      assert was[id].cols.deliverable.MutatesCode();
      assert mu - (rest - {id}) == (mu - rest) + {id};
      assert ro - (rest - {id}) == ro - rest;
    }
  }

  lemma ReconciledIsTable(was: Rows)
    requires WellFormed(was) && UniqueKeys(was)
    ensures WellFormed(ReconciledAll(was, {})) && UniqueKeys(ReconciledAll(was, {}))
    ensures RunningReadOnly(was) - {} == RunningReadOnly(was)
    ensures RunningMutating(was) - {} == RunningMutating(was)
  {
    var now := ReconciledAll(was, {});
    forall a, b | a in now && b in now && a != b
      ensures !SameKey(now[a].data, now[b].data)
    {
      assert !SameKey(was[a].data, was[b].data);
    }
  }

  // The queue oldest first as far as it has been listed; `rest` is to come.
  ghost predicate PartialListing(rows: Rows, out: seq<Job>, rest: set<string>) {
    && (forall i :: 0 <= i < |out| ==> IsQueued(rows, out[i].id) && out[i] == rows[out[i].id].data)
    && (forall i, j :: 0 <= i < j < |out| ==> out[i].id != out[j].id && out[i].createdAt <= out[j].createdAt)
    && (forall id :: IsQueued(rows, id) ==> (id in rest <==> !Lists(out, id)))
    && (forall id :: id in rest ==> IsQueued(rows, id))
    && (forall i, id :: 0 <= i < |out| && id in rest ==> out[i].createdAt <= rows[id].data.createdAt)
  }

  lemma ListOne(rows: Rows, out: seq<Job>, rest: set<string>, next: string)
    requires WellFormed(rows) && PartialListing(rows, out, rest)
    requires next in rest && forall id :: id in rest ==> rows[next].cols.createdAt <= rows[id].cols.createdAt
    ensures PartialListing(rows, out + [rows[next].data], rest - {next})
  {
    ListsOneMore(out, rows[next].data);
    assert !Lists(out, next);
  }

  lemma ListsOneMore(out: seq<Job>, j: Job)
    ensures forall id :: Lists(out + [j], id) <==> Lists(out, id) || id == j.id
  {
    forall id
      ensures Lists(out + [j], id) <==> Lists(out, id) || id == j.id
    {
      ListsAppended(out, j, id);
    }
  }

  lemma ListsAppended(out: seq<Job>, j: Job, id: string)
    ensures Lists(out + [j], id) <==> Lists(out, id) || id == j.id
  {
    var longer := out + [j];
    assert longer[|out|] == j;
    if Lists(out, id) {
      var i :| 0 <= i < |out| && out[i].id == id;
      assert longer[i].id == id;
    }
  }

  lemma OldestExists(rows: Rows, ids: set<string>)
    requires ids != {} && forall id :: id in ids ==> id in rows
    ensures exists next :: next in ids && forall id :: id in ids ==>
              rows[next].cols.createdAt <= rows[id].cols.createdAt
    decreases ids
  {
    var one :| one in ids;
    if ids != {one} {
      var others := ids - {one};
      OldestExists(rows, others);
      var next :| next in others && forall id :: id in others ==> rows[next].cols.createdAt <= rows[id].cols.createdAt;
      var least := if rows[one].cols.createdAt <= rows[next].cols.createdAt then one else next;
      assert forall id :: id in ids ==> id == one || id in others;
      assert least in ids && forall id :: id in ids ==> rows[least].cols.createdAt <= rows[id].cols.createdAt;
    }
  }
}
