/**
 From the event log to an SSE client: the tail of one subscription, its wake-up channel, the bounded
 channel to the HTTP handler, and the client that reconnects with the id it saw last (section 9.2 of
 the WHATWG HTML Living Standard). Writers on this or another pod, polls and wake-ups interleave freely.
 */
module Delivery {
  import opened Options
  import opened Decimals
  import EventLog
  import Notifier

  /** An event as it travels: its number and the rest of it. */
  datatype Event = Event(num: nat, content: string)

  type WriterId = nat

  const BATCH := 200
  const CAPACITY := 64

  // ---------------------------------------------------------------- where a session starts

  /** The number a request asks for: Last-Event-ID wins over from_seq, and both must be non-negative. */
  function FromSeq(lastEventId: string, fromSeq: string): Option<int> {
    if lastEventId != "" then
      match ParseInt64(lastEventId)
      case None => None
      case Some(n) => if n < 0 then None else Some(Next64(n))
    else if fromSeq == "" then Some(1)
    else
      match ParseInt64(fromSeq)
      case None => None
      case Some(n) => if n < 0 then None else Some(n)
  }

  function FirstNumber(from: int): (n: nat)
    ensures n >= 1
  {
    if from < 1 then 1 else from
  }

  /** Resuming after event `n` starts at `n + 1`; only the largest int64 wraps and starts over at 1. */
  lemma ResumeStartsAfter(n: nat, query: string)
    requires n <= MAX_INT64
    ensures FromSeq(Print(n), query).Some?
    ensures FirstNumber(FromSeq(Print(n), query).value) == if n < MAX_INT64 then n + 1 else 1
  {
    ParsePrinted(n);
  }

  /** Without a Last-Event-ID the query says where to start: at the first event if it says nothing. */
  lemma StartsWhereAsked(n: nat)
    ensures FromSeq("", "") == Some(1)
    ensures FromSeq("", Print(n)) == if n <= MAX_INT64 then Some(n) else None
  {
    ParseSigned(n);
  }

  /** A negative number is refused, and so is what is not a number, wherever it stands. */
  lemma BadStartIsRefused(text: string, other: string)
    requires text != "" && (ParseInt64(text) == None || ParseInt64(text).value < 0)
    ensures FromSeq(text, other) == None && FromSeq("", text) == None
  {
  }

  // ---------------------------------------------------------------- the machine

  datatype Tail =
    | Off
    | Top
    | Pushing(rows: seq<Event>, i: nat)
    | Blocked
    | Ended

  /**
   `notifies` holds, per writer, how far its committed batch reaches while its Notify is still to come;
   `announced` is how far completed Notify calls reach since this subscription began.
   */
  datatype State = State(
    log: seq<Event>,
    notifies: map<WriterId, nat>,
    announced: nat,
    tail: Tail,
    next: nat,
    wake: bool,
    channel: seq<Event>,
    received: seq<Event>)

  datatype Step =
    | Commit(w: WriterId, contents: seq<string>, local: bool)
    | NotifyDone(w: WriterId)
    | Spurious
    | Connect
    | Read
    | Push
    | EndForward
    | Wake
    | Poll
    | Stop
    | Receive
    | Disconnect

  function Numbered(from: nat, contents: seq<string>): (r: seq<Event>)
    ensures |r| == |contents| && forall k | 0 <= k < |r| :: r[k] == Event(from + k, contents[k])
  {
    seq(|contents|, k requires 0 <= k < |contents| => Event(from + k, contents[k]))
  }

  /** The read query on the contiguous log: up to a batch of events from number `from` on. */
  function ReadFrom(log: seq<Event>, from: nat): seq<Event>
    requires from >= 1
  {
    if from > |log| then []
    else if from - 1 + BATCH <= |log| then log[from - 1..from - 1 + BATCH]
    else log[from - 1..]
  }

  function Viewed(rows: seq<EventLog.Stored>, view: EventLog.Stored -> string): (r: seq<Event>)
    ensures |r| == |rows| && forall k | 0 <= k < |r| :: r[k] == Event(rows[k].num, view(rows[k]))
  {
    seq(|rows|, k requires 0 <= k < |rows| => Event(rows[k].num, view(rows[k])))
  }

  /** What the tail takes from the rows of the read query is what `ReadFrom` gives on the log they spell. */
  lemma ReadIsTheQuery(table: map<nat, EventLog.Stored>, last: nat, view: EventLog.Stored -> string, from: nat, rows: seq<EventLog.Stored>)
    requires EventLog.Contiguous(table, last) && from >= 1 && EventLog.IsLoad(table, from, BATCH, rows)
    ensures Viewed(rows, view) == ReadFrom(Viewed(EventLog.LogOf(table, last), view), from)
  {
    EventLog.LoadOfContiguous(table, last, from, BATCH, rows);
    ViewedBlock(table, last, view, from, rows);
  }

  lemma ViewedBlock(table: map<nat, EventLog.Stored>, last: nat, view: EventLog.Stored -> string, from: nat, rows: seq<EventLog.Stored>)
    requires (forall n | 1 <= n <= last :: n in table) && from >= 1
    requires |rows| == if from > last then 0 else if last - from + 1 < BATCH then last - from + 1 else BATCH
    requires forall k | 0 <= k < |rows| :: from + k <= last && rows[k] == table[from + k] && rows[k].num == from + k
    ensures Viewed(rows, view) == ReadFrom(Viewed(EventLog.LogOf(table, last), view), from)
  {
  }

  /** What the client sends: the id of the last event it received, or nothing yet. */
  function LastEventId(s: State): string {
    if s.received == [] then "" else Print(s.received[|s.received| - 1].num)
  }

  function Next(query: string, s: State, step: Step): Option<State> {
    match step
    case Commit(w, contents, local) =>
      if w in s.notifies then None
      else
        var log := s.log + Numbered(|s.log| + 1, contents);
        Some(s.(log := log, notifies := if local then s.notifies[w := |log|] else s.notifies))
    case NotifyDone(w) =>
      if w !in s.notifies then None
      else Some(s.(notifies := s.notifies - {w}, wake := Notifier.Woken(s.wake, !s.tail.Off?),
                   announced := if s.tail.Off? || s.notifies[w] <= s.announced then s.announced else s.notifies[w]))
    case Spurious => Some(s.(wake := Notifier.Woken(s.wake, !s.tail.Off?)))
    case Connect =>
      if !s.tail.Off? then None
      else
        var from := FromSeq(LastEventId(s), query);
        if from.None? then None
        else Some(s.(tail := Top, next := FirstNumber(from.value), wake := false, announced := 0, channel := []))
    case Read =>
      if !s.tail.Top? || s.next < 1 then None
      else Some(s.(tail := Pushing(ReadFrom(s.log, s.next), 0)))
    case Push =>
      if !s.tail.Pushing? || s.tail.i >= |s.tail.rows| || |s.channel| >= CAPACITY then None
      else Some(s.(channel := s.channel + [s.tail.rows[s.tail.i]], tail := Pushing(s.tail.rows, s.tail.i + 1)))
    case EndForward =>
      if !s.tail.Pushing? || s.tail.i != |s.tail.rows| then None
      else Some(s.(next := s.next + s.tail.i, tail := if s.tail.i == BATCH then Top else Blocked))
    case Wake => if !s.tail.Blocked? || !s.wake then None else Some(s.(wake := false, tail := Top))
    case Poll => if !s.tail.Blocked? then None else Some(s.(tail := Top))
    case Stop => if s.tail.Off? then None else Some(s.(tail := Ended))
    case Receive =>
      if s.tail.Off? || s.channel == [] then None
      else Some(s.(received := s.received + [s.channel[0]], channel := s.channel[1..]))
    case Disconnect => if s.tail.Off? then None else Some(s.(tail := Off, channel := [], wake := false))
  }

  const START := State([], map[], 0, Off, 1, false, [], [])

  function Run(query: string, s: State, steps: seq<Step>): Option<State>
    decreases |steps|
  {
    if steps == [] then Some(s)
    else match Next(query, s, steps[0])
         case None => None
         case Some(s1) => Run(query, s1, steps[1..])
  }

  // ---------------------------------------------------------------- exact delivery

  function FirstWanted(query: string): nat {
    match FromSeq("", query)
    case None => 1
    case Some(from) => FirstNumber(from)
  }

  /** `xs` are the events of `log` from number `from` on. */
  ghost predicate Consecutive(log: seq<Event>, from: nat, xs: seq<Event>) {
    && from >= 1 && (xs == [] || from - 1 + |xs| <= |log|)
    && forall k | 0 <= k < |xs| :: xs[k] == log[from - 1 + k]
  }

  ghost predicate LogOk(log: seq<Event>) {
    forall k | 0 <= k < |log| :: log[k].num == k + 1
  }

  lemma ConsecutiveNumbers(log: seq<Event>, from: nat, xs: seq<Event>)
    requires LogOk(log) && Consecutive(log, from, xs)
    ensures forall k | 0 <= k < |xs| :: xs[k].num == from + k
  {
  }

  /** The rows in hand and the next position continue what has been sent, which ends before number `at`. */
  ghost predicate TailOk(log: seq<Event>, tail: Tail, next: nat, at: nat) {
    match tail
    case Top => next == at
    case Blocked => next == at
    case Pushing(rows, i) => i <= |rows| && next + i == at && next >= 1 && Consecutive(log, next, rows)
    case _ => true
  }

  /** The client has a block of the log; the channel and the rows in hand continue it without a gap. */
  ghost predicate Exact(from: nat, s: State) {
    && LogOk(s.log)
    && Consecutive(s.log, from, s.received)
    && Consecutive(s.log, from + |s.received|, s.channel)
    && TailOk(s.log, s.tail, s.next, from + |s.received| + |s.channel|)
  }

  lemma CommitKeepsExact(from: nat, s: State, contents: seq<string>)
    requires Exact(from, s)
    ensures Exact(from, s.(log := s.log + Numbered(|s.log| + 1, contents)))
  {
  }

  lemma PushKeepsExact(from: nat, s: State)
    requires Exact(from, s) && s.tail.Pushing? && s.tail.i < |s.tail.rows|
    ensures Exact(from, s.(channel := s.channel + [s.tail.rows[s.tail.i]], tail := Pushing(s.tail.rows, s.tail.i + 1)))
  {
  }

  lemma ReceiveKeepsExact(from: nat, s: State)
    requires Exact(from, s) && s.channel != []
    ensures Exact(from, s.(received := s.received + [s.channel[0]], channel := s.channel[1..]))
  {
  }

  lemma ReadIsConsecutive(log: seq<Event>, from: nat)
    requires from >= 1
    ensures Consecutive(log, from, ReadFrom(log, from))
    ensures |ReadFrom(log, from)| <= BATCH
  {
  }

  /** A reconnect asks for the event after the last one received, or again for the first one wanted. */
  lemma ResumeIsNext(query: string, s: State)
    requires FromSeq("", query).Some? && |s.log| < MAX_INT64 && Exact(FirstWanted(query), s)
    ensures FromSeq(LastEventId(s), query).Some?
    ensures FirstNumber(FromSeq(LastEventId(s), query).value) == FirstWanted(query) + |s.received|
  {
    if s.received != [] { ResumeStartsAfter(s.received[|s.received| - 1].num, query); }
  }

  lemma StepKeepsExact(query: string, from: nat, s: State, step: Step)
    requires Exact(from, s) && Next(query, s, step).Some?
    requires FromSeq("", query).Some? && from == FirstWanted(query) && |s.log| < MAX_INT64
    ensures Exact(from, Next(query, s, step).value)
  {
    if step.Commit? || step.Push? || step.Receive? {
      DataStepKeepsExact(query, from, s, step);
    } else {
      ControlStepKeepsExact(query, from, s, step);
    }
  }

  /** Steps that move events along. */
  lemma DataStepKeepsExact(query: string, from: nat, s: State, step: Step)
    requires Exact(from, s) && Next(query, s, step).Some? && (step.Commit? || step.Push? || step.Receive?)
    ensures Exact(from, Next(query, s, step).value)
  {
    if step.Commit? {
      CommitKeepsExact(from, s, step.contents);
    } else if step.Push? {
      PushKeepsExact(from, s);
    } else {
      ReceiveKeepsExact(from, s);
    }
  }

  /** Steps that only move the tail or the session. */
  lemma ControlStepKeepsExact(query: string, from: nat, s: State, step: Step)
    requires Exact(from, s) && Next(query, s, step).Some? && !step.Commit? && !step.Push? && !step.Receive?
    requires FromSeq("", query).Some? && from == FirstWanted(query) && |s.log| < MAX_INT64
    ensures Exact(from, Next(query, s, step).value)
  {
    if step.Connect? {
      ConnectKeepsExact(query, from, s);
    } else {
      TailStepKeepsExact(query, from, s, step);
    }
  }

  lemma ConnectKeepsExact(query: string, from: nat, s: State)
    requires Exact(from, s) && Next(query, s, Connect).Some?
    requires FromSeq("", query).Some? && from == FirstWanted(query) && |s.log| < MAX_INT64
    ensures Exact(from, Next(query, s, Connect).value)
  {
    ResumeIsNext(query, s);
  }

  lemma TailStepKeepsExact(query: string, from: nat, s: State, step: Step)
    requires Exact(from, s) && Next(query, s, step).Some?
    requires !step.Commit? && !step.Push? && !step.Receive? && !step.Connect?
    ensures Exact(from, Next(query, s, step).value)
  {
    if step.Read? {
      ReadIsConsecutive(s.log, s.next);
    }
  }

  lemma LogOnlyGrows(query: string, s: State, step: Step)
    requires Next(query, s, step).Some?
    ensures s.log <= Next(query, s, step).value.log
  {
  }

  lemma {:induction false} RunGrowsLog(query: string, s: State, steps: seq<Step>)
    requires Run(query, s, steps).Some?
    ensures s.log <= Run(query, s, steps).value.log
    decreases |steps|
  {
    if steps != [] {
      LogOnlyGrows(query, s, steps[0]);
      RunGrowsLog(query, Next(query, s, steps[0]).value, steps[1..]);
    }
  }

  lemma {:induction false} RunKeepsExact(query: string, from: nat, s: State, steps: seq<Step>)
    requires Run(query, s, steps).Some? && Exact(from, s) && FromSeq("", query).Some? && from == FirstWanted(query)
    requires |Run(query, s, steps).value.log| < MAX_INT64
    ensures Exact(from, Run(query, s, steps).value)
    decreases |steps|
  {
    if steps != [] {
      RunGrowsLog(query, s, steps);
      StepKeepsExact(query, from, s, steps[0]);
      RunKeepsExact(query, from, Next(query, s, steps[0]).value, steps[1..]);
    }
  }

  /**
   For every interleaving of appends, polls, wake-ups, stops and reconnects: what the client has, over all its
   sessions, is the block of the log that starts at the event number `n` it first asked for, or at event 1 if
   it asked for nothing or for number 0.
   */
  lemma DeliveryIsExact(query: string, n: nat, steps: seq<Step>)
    requires if query == "" then n == 1 else ParseInt64(query) == Some(n)
    requires Run(query, START, steps).Some? && |Run(query, START, steps).value.log| < MAX_INT64
    ensures
      var s := Run(query, START, steps).value;
      var from := if n == 0 then 1 else n;
      && (s.received != [] ==> from - 1 + |s.received| <= |s.log|)
      && forall k | 0 <= k < |s.received| :: s.received[k] == s.log[from - 1 + k] && s.received[k].num == from + k
  {
    RunKeepsExact(query, FirstWanted(query), START, steps);
    var s := Run(query, START, steps).value;
    var from := FirstWanted(query);
    assert Exact(from, s) && Consecutive(s.log, from, s.received);
    ConsecutiveNumbers(s.log, from, s.received);
  }

  /** So with a number as the server itself prints it. */
  lemma DeliveryFromPrinted(n: nat, steps: seq<Step>)
    requires n <= MAX_INT64 && Run(Print(n), START, steps).Some?
    requires |Run(Print(n), START, steps).value.log| < MAX_INT64
    ensures
      var s := Run(Print(n), START, steps).value;
      forall k | 0 <= k < |s.received| :: s.received[k].num == (if n == 0 then 1 else n) + k
  {
    ParsePrinted(n);
    DeliveryIsExact(Print(n), n, steps);
  }

  /** Joined sessions and one uninterrupted session over the same log differ at most in how far they got. */
  lemma ReconnectingChangesNothing(query: string, n: nat, joined: seq<Step>, single: seq<Step>)
    requires if query == "" then n == 1 else ParseInt64(query) == Some(n)
    requires Run(query, START, joined).Some? && Run(query, START, single).Some?
    requires Run(query, START, joined).value.log == Run(query, START, single).value.log
    requires |Run(query, START, single).value.log| < MAX_INT64
    requires |Run(query, START, joined).value.received| <= |Run(query, START, single).value.received|
    ensures Run(query, START, joined).value.received <= Run(query, START, single).value.received
  {
    var a, b := Run(query, START, joined).value, Run(query, START, single).value;
    DeliveryIsExact(query, n, joined);
    DeliveryIsExact(query, n, single);
    forall k | 0 <= k < |a.received| ensures a.received[k] == b.received[k] { }
  }

  // ---------------------------------------------------------------- no lost wake-up

  /** An announcement not yet read either is buffered as a wake-up or will be covered by the rows in hand. */
  predicate Heard(s: State) {
    && s.announced <= |s.log|
    && (forall w | w in s.notifies :: s.notifies[w] <= |s.log|)
    && match s.tail
       case Blocked => s.wake || s.announced < s.next
       case Pushing(rows, i) =>
         i <= |rows| && (s.wake || |rows| == BATCH || s.announced < s.next + |rows|)
       case _ => true
  }

  lemma StepKeepsHeard(query: string, s: State, step: Step)
    requires Heard(s) && Next(query, s, step).Some?
    ensures Heard(Next(query, s, step).value)
  {
  }

  lemma {:induction false} RunKeepsHeard(query: string, s: State, steps: seq<Step>)
    requires Run(query, s, steps).Some? && Heard(s)
    ensures Heard(Run(query, s, steps).value)
    decreases |steps|
  {
    if steps != [] {
      StepKeepsHeard(query, s, steps[0]);
      RunKeepsHeard(query, Next(query, s, steps[0]).value, steps[1..]);
    }
  }

  /** Event number `n` has reached the client or the channel to it. */
  predicate Forwarded(s: State, n: nat) {
    1 <= n <= |s.log| && s.log[n - 1] in s.received + s.channel
  }

  /**
   Whenever the tail is blocked on an empty wake channel, every event whose Notify has completed since
   the subscription began, from the one asked for on, is already with the client or in the channel to it.
   */
  lemma NoWakeupIsLost(query: string, asked: nat, steps: seq<Step>, n: nat)
    requires if query == "" then asked == 1 else ParseInt64(query) == Some(asked)
    requires Run(query, START, steps).Some?
    requires |Run(query, START, steps).value.log| < MAX_INT64
    requires
      var s := Run(query, START, steps).value;
      s.tail.Blocked? && !s.wake && asked <= n && 1 <= n <= s.announced
    ensures Forwarded(Run(query, START, steps).value, n)
  {
    RunKeepsHeard(query, START, steps);
    RunKeepsExact(query, FirstWanted(query), START, steps);
    var s := Run(query, START, steps).value;
    var k := n - FirstWanted(query);
    assert (s.received + s.channel)[k] == if k < |s.received| then s.received[k] else s.channel[k - |s.received|];
  }

  lemma RunCons(query: string, s: State, s1: State, x: Step, rest: seq<Step>)
    requires Next(query, s, x) == Some(s1)
    ensures Run(query, s, [x] + rest) == Run(query, s1, rest)
  {
  }

  lemma {:induction false} RunConcat(query: string, s: State, xs: seq<Step>, ys: seq<Step>)
    requires Run(query, s, xs).Some?
    ensures Run(query, s, xs + ys) == Run(query, Run(query, s, xs).value, ys)
    decreases |xs|
  {
    if xs == [] {
      assert xs + ys == ys;
    } else {
      assert (xs + ys)[1..] == xs[1..] + ys;
      RunConcat(query, Next(query, s, xs[0]).value, xs[1..], ys);
    }
  }

  /** Once a Notify has completed on a connected tail, the batch it was for stays announced until the next connect. */
  lemma {:induction false} AnnouncedStays(query: string, s: State, steps: seq<Step>)
    requires Run(query, s, steps).Some? && Connect !in steps
    ensures Run(query, s, steps).value.announced >= s.announced
    decreases |steps|
  {
    if steps != [] {
      assert steps[0] in steps && forall x | x in steps[1..] :: x in steps;
      AnnouncedStays(query, Next(query, s, steps[0]).value, steps[1..]);
    }
  }

  lemma {:induction false} NotifyStays(query: string, s: State, steps: seq<Step>, w: WriterId)
    requires Run(query, s, steps).Some? && NotifyDone(w) !in steps && w in s.notifies
    ensures w in Run(query, s, steps).value.notifies && Run(query, s, steps).value.notifies[w] == s.notifies[w]
    decreases |steps|
  {
    if steps != [] {
      assert steps[0] in steps && forall x | x in steps[1..] :: x in steps;
      NotifyStays(query, Next(query, s, steps[0]).value, steps[1..], w);
    }
  }

  /**
   A writer of this pod commits events and, whatever happens in between, completes its Notify while the client
   is connected: from then on, whenever the tail of that connection is blocked on an empty wake channel, every
   event up to the last of the batch that the client asked for is with it or in the channel to it.
   */
  lemma CommittedIsForwarded(query: string, asked: nat, before: seq<Step>, w: WriterId, contents: seq<string>,
                             between: seq<Step>, after: seq<Step>, n: nat)
    requires if query == "" then asked == 1 else ParseInt64(query) == Some(asked)
    requires NotifyDone(w) !in between && Connect !in after
    requires Run(query, START, before).Some? && Run(query, START, before + [Commit(w, contents, true)]).Some?
    requires Run(query, START, before + [Commit(w, contents, true)] + between).Some?
    requires !Run(query, START, before + [Commit(w, contents, true)] + between).value.tail.Off?
    requires Run(query, START, before + [Commit(w, contents, true)] + between + ([NotifyDone(w)] + after)).Some?
    requires
      var s := Run(query, START, before + [Commit(w, contents, true)] + between + ([NotifyDone(w)] + after)).value;
      s.tail.Blocked? && !s.wake && |s.log| < MAX_INT64
    requires asked <= n && 1 <= n <= |Run(query, START, before).value.log| + |contents|
    ensures
      Forwarded(Run(query, START, before + [Commit(w, contents, true)] + between + ([NotifyDone(w)] + after)).value, n)
  {
    var commit, done := Commit(w, contents, true), NotifyDone(w);
    var upTo := before + [commit];
    var s0, s1 := Run(query, START, before).value, Run(query, START, upTo).value;
    var s2 := Run(query, START, upTo + between).value;
    RunConcat(query, START, before, [commit]);
    OneStep(query, s0, commit);
    assert s1.notifies[w] == |s0.log| + |contents|;
    RunConcat(query, START, upTo, between);
    NotifyStays(query, s1, between, w);
    RunConcat(query, START, upTo + between, [done] + after);
    var s3 := Next(query, s2, done).value;
    RunCons(query, s2, s3, done, after);
    AnnouncedStays(query, s3, after);
    NoWakeupIsLost(query, asked, upTo + between + ([done] + after), n);
  }

  lemma OneStep(query: string, s: State, x: Step)
    requires Run(query, s, [x]).Some?
    ensures Next(query, s, x) == Run(query, s, [x])
  {
    assert [x][1..] == [];
  }

  // ---------------------------------------------------------------- nothing gets stuck

  /** How many events of the log the client has still to get. */
  function Missing(from: nat, s: State): nat
    requires from >= 1
  {
    if from - 1 + |s.received| <= |s.log| then |s.log| - (from - 1 + |s.received|) else 0
  }

  /** How far the tail is from handing over the next event, or from waiting if there is none. */
  function Distance(from: nat, s: State): nat
    requires from >= 1
  {
    if s.channel != [] then 0
    else if Missing(from, s) > 0 then
      match s.tail
      case Pushing(rows, i) => if i < |rows| then 1 else 4
      case Top => 2
      case _ => 3
    else
      match s.tail
      case Pushing(rows, i) => if |rows| == 200 then 3 else 1
      case Top => 2
      case _ => 0
  }

  /** What the pod and the client do next, left alone. */
  function Move(s: State): Step {
    if s.channel != [] then Receive
    else match s.tail
         case Top => Read
         case Pushing(rows, i) => if i < |rows| then Push else EndForward
         case _ => if s.wake then Wake else Poll
  }

  ghost predicate Connected(s: State) { s.tail.Top? || s.tail.Pushing? || s.tail.Blocked? }

  ghost predicate CaughtUp(from: nat, s: State) {
    && from >= 1 && s.tail.Blocked? && s.channel == []
    && s.received == if from - 1 <= |s.log| then s.log[from - 1..] else []
  }

  lemma MoveAdvances(query: string, from: nat, s: State)
    requires Exact(from, s) && Connected(s) && !CaughtUp(from, s)
    ensures Next(query, s, Move(s)).Some?
    ensures
      var s' := Next(query, s, Move(s)).value;
      && s'.log == s.log && Connected(s') && Missing(from, s') <= Missing(from, s)
      && (Missing(from, s') < Missing(from, s) || Distance(from, s') < Distance(from, s))
  {
    if s.channel == [] {
      ReadIsConsecutive(s.log, if s.next >= 1 then s.next else 1);
      assert Missing(from, s) == 0 ==> s.received == if from - 1 <= |s.log| then s.log[from - 1..] else [];
    }
  }

  lemma {:induction false} CatchesUp(query: string, from: nat, s: State) returns (steps: seq<Step>)
    requires Exact(from, s) && Connected(s) && from >= 1
    requires FromSeq("", query).Some? && from == FirstWanted(query) && |s.log| < MAX_INT64
    ensures Run(query, s, steps).Some?
    ensures var s' := Run(query, s, steps).value; s'.log == s.log && CaughtUp(from, s')
    decreases Missing(from, s), Distance(from, s)
  {
    if CaughtUp(from, s) {
      steps := [];
    } else {
      MoveAdvances(query, from, s);
      var s1 := Next(query, s, Move(s)).value;
      StepKeepsExact(query, from, s, Move(s));
      var rest := CatchesUp(query, from, s1);
      RunCons(query, s, s1, Move(s), rest);
      steps := [Move(s)] + rest;
    }
  }

  /** If need be the client connects, again or for the first time. */
  lemma Reconnects(query: string, from: nat, s: State) returns (steps: seq<Step>)
    requires Exact(from, s) && FromSeq("", query).Some? && from == FirstWanted(query) && |s.log| < MAX_INT64
    ensures Run(query, s, steps).Some?
    ensures var s' := Run(query, s, steps).value; s'.log == s.log && Connected(s') && Exact(from, s')
  {
    if Connected(s) {
      steps := [];
    } else {
      var s1 := if s.tail.Off? then s else Next(query, s, Disconnect).value;
      if s.tail.Ended? { StepKeepsExact(query, from, s, Disconnect); }
      ResumeIsNext(query, s1);
      StepKeepsExact(query, from, s1, Connect);
      var s2 := Next(query, s1, Connect).value;
      RunCons(query, s1, s2, Connect, []);
      assert [Connect] + [] == [Connect];
      if s.tail.Off? {
        steps := [Connect];
      } else {
        RunCons(query, s, s1, Disconnect, [Connect]);
        steps := [Disconnect] + [Connect];
      }
    }
  }

  /**
   Nothing gets stuck: after any run some continuation without a writer gives the client everything there is
   in the log from the event it asked for.
   */
  lemma EverythingCanBeDelivered(query: string, n: nat, steps: seq<Step>) returns (more: seq<Step>)
    requires if query == "" then n == 1 else ParseInt64(query) == Some(n)
    requires Run(query, START, steps).Some? && |Run(query, START, steps).value.log| < MAX_INT64
    ensures Run(query, START, steps + more).Some?
    ensures
      var log := Run(query, START, steps).value.log;
      var s' := Run(query, START, steps + more).value;
      var from := if n == 0 then 1 else n;
      s'.log == log && s'.received == if from - 1 <= |log| then log[from - 1..] else []
  {
    hide Exact, Run;
    FirstWantedIs(query, n);
    var from := if n == 0 then 1 else n;
    StartIsExact(query, from, steps);
    var s := Run(query, START, steps).value;
    var first := Reconnects(query, from, s);
    var s1 := Run(query, s, first).value;
    var rest := CatchesUp(query, from, s1);
    RunConcat(query, s, first, rest);
    RunConcat(query, START, steps, first + rest);
    more := first + rest;
  }

  lemma FirstWantedIs(query: string, n: nat)
    requires if query == "" then n == 1 else ParseInt64(query) == Some(n)
    ensures FromSeq("", query).Some? && FirstWanted(query) == if n == 0 then 1 else n
  {
  }

  lemma StartIsExact(query: string, from: nat, steps: seq<Step>)
    requires FromSeq("", query).Some? && from == FirstWanted(query) && Run(query, START, steps).Some?
    requires |Run(query, START, steps).value.log| < MAX_INT64
    ensures Exact(from, Run(query, START, steps).value)
  {
    RunKeepsExact(query, from, START, steps);
  }

  /**
   A wake-up is taken by the wait it ends, and a new subscription and an ended one have none buffered. A new
   subscription reads at once, and so does a wait that ends; a tail can be stopped while it is connected.
   */
  lemma SignalsAreTaken(query: string, s: State, step: Step)
    ensures Next(query, s, step).Some? && (step.Wake? || step.Connect? || step.Disconnect?) ==> !Next(query, s, step).value.wake
    ensures Next(query, s, step).Some? && (step.Wake? || step.Poll? || step.Connect?) ==> Next(query, s, step).value.tail == Top
    ensures step.Wake? && Next(query, s, step).Some? ==> s.tail.Blocked? && s.wake
    ensures step.Stop? ==> Next(query, s, step) == if s.tail.Off? then None else Some(s.(tail := Ended))
  {
  }

  // ---------------------------------------------------------------- bounded buffers

  predicate Bounded(s: State) {
    |s.channel| <= 64 && (s.tail.Pushing? ==> |s.tail.rows| <= 200)
  }

  /** In every run the handler's channel holds at most 64 events and the tail at most 200 rows. */
  lemma {:induction false} BuffersAreBounded(query: string, s: State, steps: seq<Step>)
    requires Bounded(s) && Run(query, s, steps).Some?
    ensures Bounded(Run(query, s, steps).value)
    decreases |steps|
  {
    if steps != [] {
      BuffersAreBounded(query, Next(query, s, steps[0]).value, steps[1..]);
    }
  }
}
