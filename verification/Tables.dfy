/**
 The two tables of the turn protocol, `agent_threads` and `agent_thread_queue`, and every
 statement that changes them. Each function is the effect of one committed transaction; the
 class `Store` runs the same statements in place and is proved against the functions.
 Identifiers (UUIDs in the database) are natural numbers; time is the database clock.
 */
module Tables {
  import opened Options

  type ThreadId = nat
  type InputId = nat
  type TurnId = nat
  type Tenant = nat
  type Pod = nat

  datatype Status = Idle | Running | Interrupted | Archived | Deleted

  datatype Row = Row(
    tenant: Tenant,
    parent: Option<ThreadId>,
    status: Status,
    pod: Option<Pod>,
    beat: Option<int>)

  /** What a queue payload decodes to: user input, a cross-pod interrupt, or nothing parseable. */
  datatype Payload = UserInput(items: seq<string>) | InterruptRequest | Garbled

  datatype Input = Input(thread: ThreadId, payload: Payload, created: int, admitted: Option<TurnId>)

  type Rows = map<ThreadId, Row>
  type Queue = map<InputId, Input>

  datatype StoreError = ThreadNotFound | ThreadInUse | ValidationFailed | DuplicateId

  // ---------------------------------------------------------------- thread rows

  predicate Visible(rows: Rows, t: ThreadId) {
    t in rows && rows[t].status != Deleted
  }

  /** Deletion is final: a deleted thread is never claimed again. */
  predicate Removed(rows: Rows, t: ThreadId) {
    t in rows && rows[t].status == Deleted
  }

  predicate Claimable(rows: Rows, t: ThreadId) {
    t in rows && (rows[t].status == Idle || rows[t].status == Interrupted)
  }

  predicate RunsUnder(rows: Rows, p: Pod, t: ThreadId) {
    t in rows && rows[t].status == Running && rows[t].pod == Some(p)
  }

  function ClaimRows(rows: Rows, t: ThreadId, pod: Pod, now: int): Rows {
    if Claimable(rows, t)
    then rows[t := rows[t].(status := Running, pod := Some(pod), beat := Some(now))]
    else rows
  }

  function BeatRows(rows: Rows, t: ThreadId, pod: Pod, now: int): Rows {
    if RunsUnder(rows, pod, t)
    then rows[t := rows[t].(beat := Some(now))]
    else rows
  }

  function Vacated(row: Row, to: Status): Row {
    row.(status := to, pod := None, beat := None)
  }

  /** ReleaseTurn matches any running row: it does not look at which pod runs it. */
  function ReleaseRows(rows: Rows, t: ThreadId, to: Status): Rows {
    if t in rows && rows[t].status == Running then rows[t := Vacated(rows[t], to)] else rows
  }

  predicate Stale(row: Row, now: int, after: int) {
    row.status == Running && (row.beat.None? || row.beat.value < now - after)
  }

  /** The recovery scan of one tenant. */
  function RecoverRows(rows: Rows, tn: Tenant, now: int, after: int): Rows {
    map t | t in rows :: if rows[t].tenant == tn && Stale(rows[t], now, after) then Vacated(rows[t], Interrupted) else rows[t]
  }

  function MarkIdleRows(rows: Rows, t: ThreadId): Rows {
    if t in rows && rows[t].status == Interrupted then rows[t := Vacated(rows[t], Idle)] else rows
  }

  /** Archiving leaves `running_pod` and `heartbeat_at` as they are. */
  function ArchiveRows(rows: Rows, t: ThreadId): Rows {
    if Visible(rows, t) then rows[t := rows[t].(status := Archived)] else rows
  }

  function UnarchiveRows(rows: Rows, t: ThreadId): Rows {
    if t in rows && rows[t].status == Archived then rows[t := rows[t].(status := Idle)] else rows
  }

  predicate NoneLeft(rows: Rows, ids: seq<ThreadId>) {
    forall t | t in ids :: !Visible(rows, t)
  }

  /** A visible thread outside `ids` whose parent is inside `ids`. */
  predicate ReferencedFromOutside(rows: Rows, ids: seq<ThreadId>) {
    exists t | t in rows ::
      rows[t].status != Deleted && t !in ids && rows[t].parent.Some? && rows[t].parent.value in ids
  }

  function DeleteOutcome(rows: Rows, ids: seq<ThreadId>): Result<(), StoreError> {
    if ids == [] then Ok(())
    else if NoneLeft(rows, ids) && |ids| == 1 then Err(ThreadNotFound)
    else if ReferencedFromOutside(rows, ids) then Err(ThreadInUse)
    else Ok(())
  }

  function DeleteRows(rows: Rows, ids: seq<ThreadId>): Rows {
    if DeleteOutcome(rows, ids).Ok?
    then map t | t in rows :: if t in ids then rows[t].(status := Deleted) else rows[t]
    else rows
  }

  // ---------------------------------------------------------------- input queue

  function DeleteQueue(rows: Rows, queue: Queue, ids: seq<ThreadId>): Queue {
    if DeleteOutcome(rows, ids).Ok? then map i | i in queue && queue[i].thread !in ids :: queue[i] else queue
  }

  predicate PendingOf(queue: Queue, t: ThreadId, i: InputId) {
    i in queue && queue[i].thread == t && queue[i].admitted.None?
  }

  /** The queue order: `ORDER BY created_at, id`. */
  predicate Before(queue: Queue, i: InputId, j: InputId) {
    && i in queue && j in queue
    && (queue[i].created < queue[j].created || (queue[i].created == queue[j].created && i < j))
  }

  /** `ids` are exactly the inputs of `t` nobody has admitted, each once, in queue order. */
  ghost predicate IsPendingList(queue: Queue, t: ThreadId, ids: seq<InputId>) {
    && (forall i :: i in ids <==> PendingOf(queue, t, i))
    && (forall j, k | 0 <= j < k < |ids| :: Before(queue, ids[j], ids[k]))
  }

  function AdmitQueue(queue: Queue, i: InputId, turn: TurnId): Queue {
    if i in queue && queue[i].admitted.None? then queue[i := queue[i].(admitted := Some(turn))] else queue
  }

  // ---------------------------------------------------------------- facts

  /** The arcs of the thread state machine, whatever statement moves the row. */
  predicate Arc(from: Status, to: Status) {
    from == to ||
    match from
    case Idle => to == Running || to == Archived || to == Deleted
    case Running => to == Idle || to == Interrupted || to == Archived || to == Deleted
    case Interrupted => to == Idle || to == Running || to == Archived || to == Deleted
    case Archived => to == Idle || to == Deleted
    case Deleted => false
  }

  /** No statement loses a row, changes its tenant or parent, or leaves the state machine. */
  ghost predicate RowsFollowArcs(rows: Rows, rows': Rows) {
    && rows.Keys <= rows'.Keys
    && forall t | t in rows ::
         && rows'[t].tenant == rows[t].tenant && rows'[t].parent == rows[t].parent
         && Arc(rows[t].status, rows'[t].status)
  }

  /** The arcs one by one: tenant and parent stay, and a deleted thread stays deleted. */
  lemma ArcsAre(rows: Rows, rows': Rows, t: ThreadId)
    requires RowsFollowArcs(rows, rows') && t in rows
    ensures t in rows' && rows'[t].tenant == rows[t].tenant && rows'[t].parent == rows[t].parent
    ensures rows[t].status == Idle ==> rows'[t].status in {Idle, Running, Archived, Deleted}
    ensures rows[t].status == Interrupted ==> rows'[t].status in {Interrupted, Idle, Running, Archived, Deleted}
    ensures rows[t].status == Archived ==> rows'[t].status in {Archived, Idle, Deleted}
    ensures rows[t].status == Deleted ==> rows'[t].status == Deleted
  {
  }

  /** A claim or a beat at `now` keeps the row safe from every recovery scan up to `now + after`. */
  lemma FreshAfterClaimOrBeat(rows: Rows, t: ThreadId, pod: Pod, now: int, later: int, after: nat)
    requires Claimable(rows, t) || RunsUnder(rows, pod, t)
    ensures
      var rows' := if Claimable(rows, t) then ClaimRows(rows, t, pod, now) else BeatRows(rows, t, pod, now);
      && rows'[t].status == Running && rows'[t].pod == Some(pod)
      && (Stale(rows'[t], later, after) <==> now + after < later)
      && (RecoverRows(rows', rows[t].tenant, later, after)[t] == rows'[t] <==> later <= now + after)
  {
  }

  /** A pending list is unique, so `PendingInputs` has one answer. */
  lemma {:induction false} PendingListUnique(queue: Queue, t: ThreadId, a: seq<InputId>, b: seq<InputId>)
    requires IsPendingList(queue, t, a) && IsPendingList(queue, t, b)
    ensures a == b
  {
    if a != [] { HeadComesFirst(queue, t, a, a[0]); }
    if b != [] { HeadComesFirst(queue, t, b, b[0]); }
    if a != [] && b != [] {
      HeadComesFirst(queue, t, a, b[0]);
      HeadComesFirst(queue, t, b, a[0]);
      TailIsPending(queue, t, a);
      TailIsPending(queue, t, b);
      PendingListUnique(AdmitQueue(queue, a[0], 0), t, a[1..], b[1..]);
      assert a == [a[0]] + a[1..] && b == [b[0]] + b[1..];
    }
  }

  lemma HeadComesFirst(queue: Queue, t: ThreadId, a: seq<InputId>, i: InputId)
    requires IsPendingList(queue, t, a) && a != [] && (PendingOf(queue, t, i) || i in a)
    ensures i == a[0] || Before(queue, a[0], i)
    ensures PendingOf(queue, t, a[0])
  {
  }

  lemma TailIsPending(queue: Queue, t: ThreadId, a: seq<InputId>)
    requires IsPendingList(queue, t, a) && a != []
    ensures IsPendingList(AdmitQueue(queue, a[0], 0), t, a[1..])
  {
    var q' := AdmitQueue(queue, a[0], 0);
    assert a[0] in a;
    forall i ensures i in a[1..] <==> PendingOf(q', t, i) {
      if i in a[1..] {
        var k :| 0 <= k < |a| - 1 && a[1..][k] == i;
        assert a[k + 1] == i && i in a;
        assert Before(queue, a[0], a[k + 1]);
      }
      if PendingOf(q', t, i) {
        assert PendingOf(queue, t, i) && i in a && i != a[0];
        var k :| 0 <= k < |a| && a[k] == i;
        assert a[1..][k - 1] == i;
      }
    }
    forall j, k | 0 <= j < k < |a| - 1 ensures Before(q', a[1..][j], a[1..][k]) {
      assert Before(queue, a[j + 1], a[k + 1]);
    }
  }

  // ---------------------------------------------------------------- the store

  /** `pgstore.Store`: every method is one transaction of one tenant, `now` its `now()`. */
  class Store {
    var rows: Rows
    var queue: Queue

    constructor ()
      ensures rows == map[] && queue == map[]
    {
      rows := map[];
      queue := map[];
    }

    /** Marks an idle or interrupted thread as running under `pod`. */
    method ClaimTurn(t: ThreadId, pod: Pod, now: int) returns (r: Result<bool, StoreError>)
      modifies this`rows
      ensures rows == ClaimRows(old(rows), t, pod, now)
      ensures r.Err? <==> !Visible(old(rows), t)
      ensures r.Err? ==> r.error == ThreadNotFound
      ensures r.Ok? ==> (r.value <==> Claimable(old(rows), t))
      ensures r == Ok(true) <==> t in old(rows) && old(rows)[t].status in {Idle, Interrupted}
      ensures r == Ok(true) ==>
        var was := old(rows)[t]; rows == old(rows)[t := Row(was.tenant, was.parent, Running, Some(pod), Some(now))]
      ensures r != Ok(true) ==> rows == old(rows)
    {
      if t in rows && (rows[t].status == Idle || rows[t].status == Interrupted) {
        rows := rows[t := rows[t].(status := Running, pod := Some(pod), beat := Some(now))];
        return Ok(true);
      }
      if t !in rows || rows[t].status == Deleted {
        return Err(ThreadNotFound);
      }
      return Ok(false);
    }

    method Heartbeat(t: ThreadId, pod: Pod, now: int)
      modifies this`rows
      ensures rows == BeatRows(old(rows), t, pod, now)
      ensures rows.Keys == old(rows).Keys
      ensures forall u | u in rows ::
        var was := old(rows)[u];
        rows[u] == if u == t && was.status == Running && was.pod == Some(pod)
                   then Row(was.tenant, was.parent, Running, Some(pod), Some(now)) else was
    {
      if t in rows && rows[t].status == Running && rows[t].pod == Some(pod) {
        rows := rows[t := rows[t].(beat := Some(now))];
      }
    }

    method ReleaseTurn(t: ThreadId, to: Status) returns (r: Result<(), StoreError>)
      modifies this`rows
      ensures r.Ok? <==> to == Idle || to == Interrupted
      ensures r.Err? ==> r.error == ValidationFailed
      ensures rows == if r.Ok? then ReleaseRows(old(rows), t, to) else old(rows)
      ensures rows.Keys == old(rows).Keys
      ensures forall u | u in rows ::
        var was := old(rows)[u];
        rows[u] == if r.Ok? && u == t && was.status == Running then Row(was.tenant, was.parent, to, None, None) else was
    {
      if to != Idle && to != Interrupted {
        return Err(ValidationFailed);
      }
      if t in rows && rows[t].status == Running {
        rows := rows[t := rows[t].(status := to, pod := None, beat := None)];
      }
      return Ok(());
    }

    /**
     The recovery scan of one tenant: the CTE picks the stale rows, one update interrupts them. Each hit is
     reported with the pod that was running it.
     */
    method MarkStale(tn: Tenant, now: int, after: int) returns (hits: map<ThreadId, Option<Pod>>)
      modifies this`rows
      ensures rows == RecoverRows(old(rows), tn, now, after)
      ensures forall t :: t in hits <==> t in old(rows) && old(rows)[t].tenant == tn && Stale(old(rows)[t], now, after)
      ensures forall t | t in hits :: hits[t] == old(rows)[t].pod
      ensures rows.Keys == old(rows).Keys
      ensures forall t | t in rows ::
        var was := old(rows)[t];
        rows[t] == if was.tenant == tn && was.status == Running && (was.beat == None || was.beat.value < now - after)
                   then Row(was.tenant, was.parent, Interrupted, None, None) else was
    {
      hits := map t | t in rows && rows[t].tenant == tn && Stale(rows[t], now, after) :: rows[t].pod;
      var todo := hits.Keys;
      ghost var was := rows;
      while todo != {}
        invariant todo <= hits.Keys
        invariant rows.Keys == was.Keys
        invariant forall t | t in was ::
          rows[t] == if t in hits && t !in todo then Vacated(was[t], Interrupted) else was[t]
      {
        var t :| t in todo;
        rows := rows[t := rows[t].(status := Interrupted, pod := None, beat := None)];
        todo := todo - {t};
      }
    }

    method MarkIdle(t: ThreadId)
      modifies this`rows
      ensures rows == MarkIdleRows(old(rows), t)
      ensures rows.Keys == old(rows).Keys
      ensures forall u | u in rows ::
        var was := old(rows)[u];
        rows[u] == if u == t && was.status == Interrupted then Row(was.tenant, was.parent, Idle, None, None) else was
    {
      if t in rows && rows[t].status == Interrupted {
        rows := rows[t := rows[t].(status := Idle, pod := None, beat := None)];
      }
    }

    method ArchiveThread(t: ThreadId) returns (r: Result<(), StoreError>)
      modifies this`rows
      ensures rows == ArchiveRows(old(rows), t)
      ensures r == if Visible(old(rows), t) then Ok(()) else Err(ThreadNotFound)
      ensures r.Ok? <==> t in old(rows) && old(rows)[t].status != Deleted
      ensures r.Ok? ==>
        var was := old(rows)[t]; rows == old(rows)[t := Row(was.tenant, was.parent, Archived, was.pod, was.beat)]
      ensures r.Err? ==> rows == old(rows)
    {
      if t !in rows || rows[t].status == Deleted {
        return Err(ThreadNotFound);
      }
      rows := rows[t := rows[t].(status := Archived)];
      return Ok(());
    }

    method UnarchiveThread(t: ThreadId) returns (r: Result<Status, StoreError>)
      modifies this`rows
      ensures rows == UnarchiveRows(old(rows), t)
      ensures r == if Visible(old(rows), t) then Ok(rows[t].status) else Err(ThreadNotFound)
      ensures r.Ok? <==> t in old(rows) && old(rows)[t].status != Deleted
      ensures r.Ok? ==>
        var was := old(rows)[t];
        rows == old(rows)[t := if was.status == Archived then Row(was.tenant, was.parent, Idle, was.pod, was.beat) else was]
      ensures r.Err? ==> rows == old(rows)
    {
      if t !in rows || rows[t].status == Deleted {
        return Err(ThreadNotFound);
      }
      if rows[t].status == Archived {
        rows := rows[t := rows[t].(status := Idle)];
      }
      return Ok(rows[t].status);
    }

    /** One transaction: refuse, or drop the queue of every thread in `ids` and mark them deleted. */
    method DeleteThreads(ids: seq<ThreadId>) returns (r: Result<(), StoreError>)
      modifies this
      ensures r == DeleteOutcome(old(rows), ids)
      ensures rows == DeleteRows(old(rows), ids)
      ensures queue == DeleteQueue(old(rows), old(queue), ids)
      ensures r == Err(ThreadNotFound) <==> |ids| == 1 && (ids[0] !in old(rows) || old(rows)[ids[0]].status == Deleted)
      ensures r == Err(ThreadInUse) <==>
        && r != Err(ThreadNotFound) && ids != []
        && exists t | t in old(rows) ::
             && old(rows)[t].status != Deleted && t !in ids
             && old(rows)[t].parent.Some? && old(rows)[t].parent.value in ids
      ensures r.Err? ==> r.error in {ThreadNotFound, ThreadInUse} && rows == old(rows) && queue == old(queue)
      ensures r.Ok? ==>
        && rows.Keys == old(rows).Keys
        && (forall t | t in rows ::
              var was := old(rows)[t];
              rows[t] == if t in ids then Row(was.tenant, was.parent, Deleted, was.pod, was.beat) else was)
        && (forall i :: i in queue <==> i in old(queue) && old(queue)[i].thread !in ids)
        && (forall i | i in queue :: queue[i] == old(queue)[i])
    {
      if ids == [] {
        assert DeleteRows(rows, ids) == rows && DeleteQueue(rows, queue, ids) == queue;
        return Ok(());
      }
      var existing := set t | t in ids && t in rows && rows[t].status != Deleted;
      if existing == {} && |ids| == 1 {
        assert ids[0] in ids && ids[0] !in existing;
        assert NoneLeft(rows, ids) by {
          forall t | t in ids ensures !Visible(rows, t) { assert t !in existing; }
        }
        return Err(ThreadNotFound);
      }
      assert existing != {} ==> !NoneLeft(rows, ids) by {
        if existing != {} {
          var t :| t in existing;
          assert t in ids && Visible(rows, t);
        }
      }
      assert |ids| == 1 ==> (ids[0] in existing <==> existing != {}) by {
        if t :| t in existing && |ids| == 1 { assert t == ids[0]; }
      }
      var inUse := set t | t in rows && rows[t].status != Deleted && t !in ids
                           && rows[t].parent.Some? && rows[t].parent.value in ids;
      assert ReferencedFromOutside(rows, ids) <==> inUse != {} by {
        if inUse != {} { var t :| t in inUse; }
        if ReferencedFromOutside(rows, ids) {
          var t :| t in rows && rows[t].status != Deleted && t !in ids && rows[t].parent.Some? && rows[t].parent.value in ids;
          assert t in inUse;
        }
      }
      if inUse != {} {
        return Err(ThreadInUse);
      }
      queue := map i | i in queue && queue[i].thread !in ids :: queue[i];
      rows := map t | t in rows :: if t in ids then rows[t].(status := Deleted) else rows[t];
      return Ok(());
    }

    method EnqueueInput(t: ThreadId, i: InputId, payload: Payload, now: int) returns (r: Result<(), StoreError>)
      modifies this`queue
      ensures r.Ok? <==> Visible(rows, t) && i !in old(queue)
      ensures r.Err? ==> r.error == if Visible(rows, t) then DuplicateId else ThreadNotFound
      ensures queue == if r.Ok? then old(queue)[i := Input(t, payload, now, None)] else old(queue)
    {
      if t !in rows || rows[t].status == Deleted {
        return Err(ThreadNotFound);
      }
      if i in queue {
        return Err(DuplicateId);
      }
      queue := queue[i := Input(t, payload, now, None)];
      return Ok(());
    }

    /** The inputs of `t` nobody has admitted, in queue order. */
    method PendingInputs(t: ThreadId) returns (ids: seq<InputId>)
      ensures IsPendingList(queue, t, ids)
      ensures forall i :: i in ids <==> i in queue && queue[i].thread == t && queue[i].admitted == None
      ensures forall j, k | 0 <= j < k < |ids| ::
        && ids[j] in queue && ids[k] in queue
        && (queue[ids[j]].created < queue[ids[k]].created || (queue[ids[j]].created == queue[ids[k]].created && ids[j] < ids[k]))
    {
      var todo := set i | i in queue && PendingOf(queue, t, i);
      ids := [];
      while todo != {}
        invariant forall i | i in todo :: PendingOf(queue, t, i)
        invariant forall i | i in ids :: PendingOf(queue, t, i) && i !in todo
        invariant forall i | PendingOf(queue, t, i) :: i in ids || i in todo
        invariant forall j, k | 0 <= j < k < |ids| :: Before(queue, ids[j], ids[k])
        invariant forall j, i | 0 <= j < |ids| && i in todo :: Before(queue, ids[j], i)
      {
        var first := Earliest(todo);
        ids := ids + [first];
        todo := todo - {first};
      }
    }

    /** The first of a non-empty set of queued inputs. */
    method Earliest(ids: set<InputId>) returns (first: InputId)
      requires ids != {} && forall i | i in ids :: i in queue
      ensures first in ids
      ensures forall i | i in ids && i != first :: Before(queue, first, i)
    {
      first :| first in ids;
      var rest := ids - {first};
      while rest != {}
        invariant rest <= ids && first in ids && first !in rest
        invariant forall i | i in ids && i !in rest && i != first :: Before(queue, first, i)
      {
        var i :| i in rest;
        if Before(queue, i, first) { first := i; }
        rest := rest - {i};
      }
    }

    method AdmitInput(i: InputId, turn: TurnId)
      modifies this`queue
      ensures queue == AdmitQueue(old(queue), i, turn)
      ensures queue.Keys == old(queue).Keys
      ensures forall j | j in queue ::
        queue[j] == if j == i && old(queue)[j].admitted == None then old(queue)[j].(admitted := Some(turn)) else old(queue)[j]
    {
      if i in queue && queue[i].admitted == None {
        queue := queue[i := queue[i].(admitted := Some(turn))];
      }
    }

    method DeleteInput(i: InputId)
      modifies this`queue
      ensures queue == old(queue) - {i}
    {
      queue := map j | j in queue && j != i :: queue[j];
    }
  }
}
