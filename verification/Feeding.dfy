/**
 `feed` as the loop it is, run without interference: what it does to the queue input by input, and
 that the step-by-step feed of the protocol, left alone, ends in the same queue and the same turn.
 */
module Feeding {
  import opened Options
  import opened Tables
  import opened Turns

  /**
   What one feed meets: what the session answers to each input, whether the queue can be read, and whether
   the one write an input leads to (deleting it or admitting it) goes through. A failed write is passed over.
   */
  datatype Oracle = Oracle(answer: InputId -> Answer, readOk: bool, writeOk: InputId -> bool)

  function TurnOf(answer: Answer): Option<TurnId> {
    match answer
    case Started(turn) => Some(turn)
    case Steered(turn) => Some(turn)
    case _ => None
  }

  predicate Stops(x: (InputId, Payload), oracle: Oracle) {
    x.1.UserInput? && oracle.answer(x.0).Died?
  }

  function FeedHead(q: Queue, x: (InputId, Payload), oracle: Oracle): Queue {
    if !oracle.writeOk(x.0) then q
    else if !x.1.UserInput? then q - {x.0}
    else match TurnOf(oracle.answer(x.0))
         case Some(turn) => AdmitQueue(q, x.0, turn)
         case None => q
  }

  function LastAfter(x: (InputId, Payload), oracle: Oracle, last: Option<TurnId>): Option<TurnId> {
    if x.1.UserInput? && TurnOf(oracle.answer(x.0)).Some? then TurnOf(oracle.answer(x.0)) else last
  }

  /** The queue and the last admitted turn after feeding `rest` in order. */
  function FeedAll(q: Queue, rest: seq<(InputId, Payload)>, oracle: Oracle, last: Option<TurnId>): (Queue, Option<TurnId>)
    decreases |rest|
  {
    if rest == [] || Stops(rest[0], oracle) then (q, last)
    else FeedAll(FeedHead(q, rest[0], oracle), rest[1..], oracle, LastAfter(rest[0], oracle, last))
  }

  /** Feeds every pending input of `t`, in queue order, to the session. */
  method Feed(store: Store, t: ThreadId, oracle: Oracle) returns (lastTurn: Option<TurnId>, admitted: bool, ok: bool)
    modifies store`queue
    ensures ok == oracle.readOk
    ensures !ok ==> store.queue == old(store.queue) && lastTurn.None?
    ensures ok ==> forall ids | IsPendingList(old(store.queue), t, ids) ::
      && (forall i | i in ids :: i in old(store.queue))
      && (store.queue, lastTurn) == FeedAll(old(store.queue), WithPayloads(old(store.queue), ids), oracle, None)
    ensures admitted <==> lastTurn.Some?
  {
    lastTurn, admitted, ok := None, false, oracle.readOk;
    if !ok {
      return;
    }
    var pending := store.PendingInputs(t);
    ghost var q0 := store.queue;
    assert forall i | i in pending :: PendingOf(q0, t, i);
    var batch := WithPayloads(store.queue, pending);
    var k := 0;
    while k < |batch|
      invariant 0 <= k <= |batch|
      invariant admitted <==> lastTurn.Some?
      invariant FeedAll(store.queue, batch[k..], oracle, lastTurn) == FeedAll(q0, batch, oracle, None)
    {
      var (i, payload) := batch[k];
      assert batch[k..][0] == batch[k] && batch[k..][1..] == batch[k + 1..];
      match payload {
        case UserInput(_) =>
          match oracle.answer(i) {
            case Died =>
              PendingIsUnique(q0, t, pending);
              return;
            case Rejected =>
            case Started(turn) =>
              if oracle.writeOk(i) {
                store.AdmitInput(i, turn);
              }
              lastTurn, admitted := Some(turn), true;
            case Steered(turn) =>
              if oracle.writeOk(i) {
                store.AdmitInput(i, turn);
              }
              lastTurn, admitted := Some(turn), true;
          }
        case _ =>
          if oracle.writeOk(i) {
            store.DeleteInput(i);
          }
      }
      k := k + 1;
    }
    PendingIsUnique(q0, t, pending);
  }

  lemma PendingIsUnique(q: Queue, t: ThreadId, ids: seq<InputId>)
    requires IsPendingList(q, t, ids)
    ensures forall js | IsPendingList(q, t, js) :: js == ids
  {
    forall js | IsPendingList(q, t, js) ensures js == ids { PendingListUnique(q, t, js, ids); }
  }

  ghost predicate Distinct(rest: seq<(InputId, Payload)>) {
    forall j, k | 0 <= j < k < |rest| :: rest[j].0 != rest[k].0
  }

  ghost predicate ReachedBy(rest: seq<(InputId, Payload)>, oracle: Oracle, k: nat) {
    k < |rest| && forall j | 0 <= j <= k :: !Stops(rest[j], oracle)
  }

  lemma ReachedTail(rest: seq<(InputId, Payload)>, oracle: Oracle, k: nat)
    requires rest != [] && !Stops(rest[0], oracle)
    ensures ReachedBy(rest, oracle, k + 1) <==> ReachedBy(rest[1..], oracle, k)
  {
  }

  /**
   What a feed does to each row: nothing outside its snapshot, nothing from the first dead session on, and
   nothing where the store fails; else interrupts and unparseable rows go and a user input keeps its row,
   admitted with the turn the session gave or still pending.
   */
  lemma {:induction false} FeedAllExact(q: Queue, rest: seq<(InputId, Payload)>, oracle: Oracle, last: Option<TurnId>, i: InputId)
    requires Distinct(rest)
    ensures
      var q' := FeedAll(q, rest, oracle, last).0;
      && ((forall k | 0 <= k < |rest| :: rest[k].0 != i) ==> (i in q' <==> i in q) && (i in q ==> q'[i] == q[i]))
      && forall k: nat | k < |rest| && rest[k].0 == i ::
           if !ReachedBy(rest, oracle, k) || !oracle.writeOk(i) then (i in q' <==> i in q) && (i in q ==> q'[i] == q[i])
           else if !rest[k].1.UserInput? then i !in q'
           else (i in q' <==> i in q)
                && (i in q ==> q'[i] == if q[i].admitted == None then q[i].(admitted := TurnOf(oracle.answer(i))) else q[i])
    decreases |rest|
  {
    if rest != [] && !Stops(rest[0], oracle) {
      var q1 := FeedHead(q, rest[0], oracle);
      var tail := rest[1..];
      FeedAllExact(q1, tail, oracle, LastAfter(rest[0], oracle, last), i);
      forall k: nat ensures ReachedBy(rest, oracle, k + 1) <==> ReachedBy(tail, oracle, k) { ReachedTail(rest, oracle, k); }
      if rest[0].0 == i {
        assert forall k | 0 <= k < |tail| :: tail[k].0 != i;
        assert ReachedBy(rest, oracle, 0);
      } else {
        forall k: nat | k < |rest| && rest[k].0 == i ensures k > 0 && tail[k - 1] == rest[k] { }
      }
    }
  }

  /** The first `n` inputs are fed: none of them meets a dead session, and the next one, if any, does. */
  predicate FedUpTo(rest: seq<(InputId, Payload)>, oracle: Oracle, n: nat) {
    && n <= |rest|
    && (forall j | 0 <= j < n :: !(rest[j].1.UserInput? && oracle.answer(rest[j].0) == Died))
    && (n < |rest| ==> rest[n].1.UserInput? && oracle.answer(rest[n].0) == Died)
  }

  predicate NoneTook(rest: seq<(InputId, Payload)>, oracle: Oracle, from: nat, n: nat) {
    forall m | from <= m < n && m < |rest| && rest[m].1.UserInput? ::
      oracle.answer(rest[m].0) == Died || oracle.answer(rest[m].0) == Rejected
  }

  lemma TailIsFed(rest: seq<(InputId, Payload)>, oracle: Oracle, from: nat, n: nat)
    requires 0 < n && FedUpTo(rest, oracle, n)
    ensures FedUpTo(rest[1..], oracle, n - 1)
    ensures NoneTook(rest, oracle, from + 1, n) ==> NoneTook(rest[1..], oracle, from, n - 1)
  {
    var tail := rest[1..];
    assert forall m | 0 <= m < |tail| :: tail[m] == rest[m + 1];
  }

  /** A feed in which no input is answered with a turn keeps the turn it had. */
  lemma {:induction false} LastTurnIsKept(q: Queue, rest: seq<(InputId, Payload)>, oracle: Oracle, last: Option<TurnId>, n: nat)
    requires FedUpTo(rest, oracle, n) && NoneTook(rest, oracle, 0, n)
    ensures FeedAll(q, rest, oracle, last).1 == last
    decreases n
  {
    if n > 0 {
      TailIsFed(rest, oracle, 0, n);
      LastTurnIsKept(FeedHead(q, rest[0], oracle), rest[1..], oracle, last, n - 1);
    }
  }

  /** Otherwise the last input answered with a turn gives it. */
  lemma {:induction false} LastTurnIsTaken(q: Queue, rest: seq<(InputId, Payload)>, oracle: Oracle, last: Option<TurnId>,
                                           n: nat, k: nat, turn: TurnId)
    requires FedUpTo(rest, oracle, n) && k < n && NoneTook(rest, oracle, k + 1, n)
    requires rest[k].1.UserInput? && (oracle.answer(rest[k].0) == Started(turn) || oracle.answer(rest[k].0) == Steered(turn))
    ensures FeedAll(q, rest, oracle, last).1 == Some(turn)
    decreases n
  {
    var q1 := FeedHead(q, rest[0], oracle);
    TailIsFed(rest, oracle, k, n);
    if k == 0 {
      LastTurnIsKept(q1, rest[1..], oracle, Some(turn), n - 1);
    } else {
      LastTurnIsTaken(q1, rest[1..], oracle, LastAfter(rest[0], oracle, last), n - 1, k - 1, turn);
    }
  }

  /** The answers that admit an input, with their turn; the two others admit none. */
  lemma AnswersAdmit(turn: TurnId)
    ensures TurnOf(Started(turn)) == TurnOf(Steered(turn)) == Some(turn) && TurnOf(Rejected) == TurnOf(Died) == None
  {
  }

  // ---------------------------------------------------------------- the protocol's feed, left alone

  /** The steps the protocol takes for one input of a session that lives, with the oracle's answers. */
  function HeadSteps(x: (InputId, Payload), oracle: Oracle): seq<FeedStep> {
    if !x.1.UserInput? then [Drop(oracle.writeOk(x.0))]
    else if TurnOf(oracle.answer(x.0)).Some? then [Submit(oracle.answer(x.0)), Admit(oracle.writeOk(x.0))]
    else [Submit(oracle.answer(x.0))]
  }

  function Undisturbed(rest: seq<(InputId, Payload)>, oracle: Oracle): seq<FeedStep>
    decreases |rest|
  {
    if rest == [] then []
    else if Stops(rest[0], oracle) then [Submit(Died)]
    else HeadSteps(rest[0], oracle) + Undisturbed(rest[1..], oracle)
  }

  function Drive(b: Inbox, f: FeedId, steps: seq<FeedStep>): Option<Inbox>
    decreases |steps|
  {
    if steps == [] then Some(b)
    else if f !in b.feeds then None
    else match FeedOne(b, f, steps[0])
         case None => None
         case Some(b1) => Drive(b1, f, steps[1..])
  }

  lemma DriveCons(b: Inbox, f: FeedId, step: FeedStep, rest: seq<FeedStep>)
    requires f in b.feeds && FeedOne(b, f, step).Some?
    ensures Drive(b, f, [step] + rest) == Drive(FeedOne(b, f, step).value, f, rest)
  {
  }

  lemma HeadRuns(b: Inbox, f: FeedId, oracle: Oracle, more: seq<FeedStep>) returns (b1: Inbox)
    requires f in b.feeds && b.feeds[f].admitting.None? && b.feeds[f].rest != [] && !Stops(b.feeds[f].rest[0], oracle)
    ensures
      var fd := b.feeds[f];
      var x := fd.rest[0];
      && Drive(b, f, HeadSteps(x, oracle) + more) == Drive(b1, f, more)
      && b1.queue == FeedHead(b.queue, x, oracle) && f in b1.feeds
      && b1.feeds[f] == fd.(rest := fd.rest[1..], lastTurn := LastAfter(x, oracle, fd.lastTurn))
  {
    var (i, payload) := b.feeds[f].rest[0];
    if !payload.UserInput? {
      var drop := Drop(oracle.writeOk(i));
      b1 := FeedOne(b, f, drop).value;
      DriveCons(b, f, drop, more);
    } else {
      var submit := Submit(oracle.answer(i));
      b1 := FeedOne(b, f, submit).value;
      if TurnOf(oracle.answer(i)).Some? {
        var admit := Admit(oracle.writeOk(i));
        DriveCons(b, f, submit, [admit] + more);
        DriveCons(b1, f, admit, more);
        assert [submit, admit] + more == [submit] + ([admit] + more);
        b1 := FeedOne(b1, f, admit).value;
      } else {
        DriveCons(b, f, submit, more);
      }
    }
  }

  /** The protocol's feed, undisturbed, is exhausted with the queue and the turn of `FeedAll`. */
  lemma {:induction false} UndisturbedFeedIsFeedAll(b: Inbox, f: FeedId, oracle: Oracle)
    requires f in b.feeds && b.feeds[f].admitting.None?
    ensures
      var fd := b.feeds[f];
      var r := Drive(b, f, Undisturbed(fd.rest, oracle));
      && r.Some? && f in r.value.feeds && Exhausted(r.value.feeds[f])
      && (r.value.queue, r.value.feeds[f].lastTurn) == FeedAll(b.queue, fd.rest, oracle, fd.lastTurn)
    decreases |b.feeds[f].rest|
  {
    var fd := b.feeds[f];
    if fd.rest != [] {
      if Stops(fd.rest[0], oracle) {
        DriveCons(b, f, Submit(Died), []);
        assert [Submit(Died)] + [] == [Submit(Died)];
      } else {
        var b1 := HeadRuns(b, f, oracle, Undisturbed(fd.rest[1..], oracle));
        UndisturbedFeedIsFeedAll(b1, f, oracle);
      }
    }
  }
}
