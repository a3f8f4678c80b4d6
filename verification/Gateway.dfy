/**
 The gateway's side of a connector session: the commands awaiting an outcome, the registry that keeps
 one session per connector, and the outcome each frame from a connector stands for.
 */
module Gateway {
  import opened Options

  datatype Outcome = Success | Failure(code: string)

  // ---------------------------------------------------------------- what each critical section does

  /** The registry with a session of a connector added; `S` is whatever stands for a session. */
  function SessionsAfterAdd<S>(sessions: map<string, S>, connector: string, s: S): map<string, S> {
    sessions[connector := s]
  }

  /** The session an addition replaces, which is told to drain. */
  function Replaced<S>(sessions: map<string, S>, connector: string): set<S> {
    if connector in sessions then {sessions[connector]} else {}
  }

  function SessionsAfterRemove<S(==)>(sessions: map<string, S>, connector: string, s: S): map<string, S> {
    if connector in sessions && sessions[connector] == s then sessions - {connector} else sessions
  }

  /** Awaited commands and their channels, with one more registered, or one signalled or given up. */
  function PendingAfterAwait<K, C>(pending: map<K, C>, key: K, ch: C): map<K, C> { pending[key := ch] }

  function PendingAfterTake<K, C>(pending: map<K, C>, key: K): map<K, C> { pending - {key} }

  // ---------------------------------------------------------------- sessions

  /** A channel of capacity one that carries an outcome. */
  class Signal {
    var value: Option<Outcome>

    constructor ()
      ensures value == None
    {
      value := None;
    }
  }

  class Session {
    const connectorId: string
    var drain: Option<string>
    var pending: map<string, Signal>

    /** Every command still awaited has a channel of its own, with nothing in it yet. */
    ghost predicate Valid()
      reads this, pending.Values
    {
      && (forall id | id in pending :: pending[id].value.None?)
      && (forall a, b | a in pending && b in pending && a != b :: pending[a] != pending[b])
    }

    constructor (connectorId: string)
      ensures Valid() && this.connectorId == connectorId && drain == None && pending == map[]
    {
      this.connectorId := connectorId;
      drain, pending := None, map[];
    }

    method AwaitCommand(id: string) returns (ch: Signal)
      requires Valid()
      modifies this`pending
      ensures Valid() && fresh(ch) && pending == PendingAfterAwait(old(pending), id, ch)
    {
      ch := new Signal();
      pending := pending[id := ch];
    }

    /** The send on the channel would block if something were in it; for a pending one nothing ever is. */
    method SignalCommand(id: string, outcome: Outcome)
      requires Valid()
      modifies this`pending, if id in pending then {pending[id]} else {}
      ensures Valid() && pending == PendingAfterTake(old(pending), id)
      ensures id in old(pending) ==> old(pending[id]).value == Some(outcome)
    {
      var ch: Option<Signal> := if id in pending then Some(pending[id]) else None;
      pending := pending - {id};
      if ch.Some? {
        assert ch.value.value.None?;
        ch.value.value := Some(outcome);
      }
    }

    method CancelCommand(id: string)
      requires Valid()
      modifies this`pending
      ensures Valid() && pending == PendingAfterTake(old(pending), id)
    {
      pending := pending - {id};
    }

    /** A second drain before the first is read is dropped. */
    method SignalDrain(reason: string)
      modifies this`drain
      ensures drain == if old(drain).Some? then old(drain) else Some(reason)
    {
      if drain.None? {
        drain := Some(reason);
      }
    }
  }

  class Registry {
    var sessions: map<string, Session>

    /** A session is registered under its own connector. */
    ghost predicate Valid() reads this {
      forall c | c in sessions :: sessions[c].connectorId == c
    }

    constructor ()
      ensures Valid() && sessions == map[]
    {
      sessions := map[];
    }

    /** The session it replaces is told to drain. */
    method Add(s: Session)
      requires Valid()
      modifies this, Replaced(sessions, s.connectorId)
      ensures Valid() && sessions == SessionsAfterAdd(old(sessions), s.connectorId, s)
      ensures forall x | x in Replaced(old(sessions), s.connectorId) :: x.drain.Some? && x.pending == old(x.pending)
    {
      if s.connectorId in sessions {
        sessions[s.connectorId].SignalDrain("superseded by new session");
      }
      sessions := sessions[s.connectorId := s];
    }

    /** Only the session still registered is taken out; a successor stays. */
    method Remove(s: Session)
      requires Valid()
      modifies this
      ensures Valid() && sessions == SessionsAfterRemove(old(sessions), s.connectorId, s)
      ensures s !in sessions.Values
      ensures forall c | c in old(sessions) && old(sessions)[c] != s :: c in sessions && sessions[c] == old(sessions)[c]
      ensures sessions.Keys <= old(sessions).Keys
    {
      if s.connectorId in sessions && sessions[s.connectorId] == s {
        sessions := sessions - {s.connectorId};
      }
    }

    method Get(connectorId: string) returns (s: Option<Session>)
      ensures s == if connectorId in sessions then Some(sessions[connectorId]) else None
    {
      s := if connectorId in sessions then Some(sessions[connectorId]) else None;
    }

    method DrainAll(reason: string)
      requires Valid()
      modifies sessions.Values`drain
      ensures forall s | s in sessions.Values :: s.drain == if old(s.drain).Some? then old(s.drain) else Some(reason)
    {
      var todo := sessions.Values;
      while todo != {}
        invariant todo <= sessions.Values
        invariant forall s | s in todo :: s.drain == old(s.drain)
        invariant forall s | s in sessions.Values && s !in todo ::
          s.drain == if old(s.drain).Some? then old(s.drain) else Some(reason)
      {
        var s :| s in todo;
        s.SignalDrain(reason);
        todo := todo - {s};
      }
    }
  }

  // ---------------------------------------------------------------- outcomes of frames

  predicate IsSnapshotKind(kind: string) { kind == "slowlog" || kind == "schema" || kind == "config" }

  /** A data upload, with what decoding and forwarding it come to. */
  datatype Upload = Upload(kind: string, decoded: bool, payloadKind: string, forwarded: bool)

  /** What the waiting dispatch is told about an upload. */
  function UploadOutcome(u: Upload): Outcome {
    if IsSnapshotKind(u.kind) then
      if !u.decoded then Failure("AR_SNAPSHOT_COLLECT_FAILED: decode snapshot")
      else if u.payloadKind != u.kind then Failure("AR_SNAPSHOT_COLLECT_FAILED: kind mismatch")
      else if !u.forwarded then Failure("AR_SNAPSHOT_COLLECT_FAILED: upload")
      else Success
    else if u.kind != "metrics" then Failure("AR_COLLECT_UNSUPPORTED_KIND")
    else if !u.decoded then Failure("AR_METRICS_COLLECT_FAILED: decode batch")
    else if !u.forwarded then Failure("AR_METRICS_COLLECT_FAILED: upload")
    else Success
  }

  /** A result that is not OK always carries a code. */
  function CommandResultErr(ok: bool, code: string): (o: Outcome)
    ensures o.Success? <==> ok
    ensures o.Failure? ==> o.code != ""
    ensures !ok ==> o == Failure(if code != "" then code else "AR_INTERNAL_ERROR")
  {
    if ok then Success else Failure(if code == "" then "AR_INTERNAL_ERROR" else code)
  }

  /** Nothing is swallowed: the waiter hears success only for data that was understood and forwarded. */
  lemma UploadFailsClosed(u: Upload)
    ensures UploadOutcome(u).Success? <==>
      u.decoded && u.forwarded && (u.kind == "metrics" || (u.kind in ["slowlog", "schema", "config"] && u.payloadKind == u.kind))
  {
  }

  /** A failed upload is told apart by the first thing that went wrong. */
  lemma UploadFailures(u: Upload)
    ensures
      var snapshot := u.kind in ["slowlog", "schema", "config"];
      && (!snapshot && u.kind != "metrics" ==> UploadOutcome(u) == Failure("AR_COLLECT_UNSUPPORTED_KIND"))
      && (u.kind == "metrics" && !u.decoded ==> UploadOutcome(u) == Failure("AR_METRICS_COLLECT_FAILED: decode batch"))
      && (u.kind == "metrics" && u.decoded && !u.forwarded ==> UploadOutcome(u) == Failure("AR_METRICS_COLLECT_FAILED: upload"))
      && (snapshot && !u.decoded ==> UploadOutcome(u) == Failure("AR_SNAPSHOT_COLLECT_FAILED: decode snapshot"))
      && (snapshot && u.decoded && u.payloadKind != u.kind ==>
            UploadOutcome(u) == Failure("AR_SNAPSHOT_COLLECT_FAILED: kind mismatch"))
      && (snapshot && u.decoded && u.payloadKind == u.kind && !u.forwarded ==>
            UploadOutcome(u) == Failure("AR_SNAPSHOT_COLLECT_FAILED: upload"))
  {
  }
}
