/**
 The multi-pod turn protocol as a state machine. Any number of pods share the tables of module
 `Tables`; each keeps the sessions it holds, a slot counter per tenant and a draining flag.
 One step is one transaction, one critical section of a mutex, or one answer of the codex session;
 everything the code does between two of those can interleave with every other goroutine.
 */
module Turns {
  import opened Options
  import opened Tables
  import Limiter

  type AgentId = nat
  type FeedId = nat
  type DrainId = nat

  /** `limiter` is the limit handed to SetLimiter, if any; staleness is twice `beatInterval`. */
  datatype Config = Config(limiter: Option<int>, beatInterval: nat)

  /**
   How far one dispatch has come. Up to `FailedFreed` it is a goroutine inside `dispatch`;
   from `Live` on it is the session that dispatch started, and the stages after `Live` are
   the parts of the body of `release`.
   */
  datatype Stage =
    | Entered                 // saw no live session for the thread on this pod
    | Checked                 // saw the draining flag unset
    | Claimed                 // owns the row
    | Refused                 // no slot; the row still has to be given back
    | Acquired                // owns the row and a slot
    | Failed                  // the session did not start; owns the row and a slot
    | FailedFreed             // slot given back, row not yet
    | Live                    // in the live map
    | Unlisted(to: Status)    // release body entered: out of the live map
    | Freed                   // row given back
    | SlotBack                // slot given back
    | Closed                  // session shut down, `released` closed

  /** Where the event pump of a session is. */
  datatype Pump = Absent | Reading | Ended(aborted: bool) | Offering | Feeding(feed: FeedId) | Leaving(to: Status) | Gone

  /** `bodies` counts how often the body of `release` was entered. */
  datatype Agent = Agent(pod: Pod, thread: ThreadId, tenant: Tenant, stage: Stage, pump: Pump, bodies: nat)

  datatype PodState = PodState(draining: bool, cur: Limiter.Counters)

  datatype DrainAt = Waiting(i: nat) | Forcing(k: nat, resume: nat) | Sweeping(j: nat) | Returned | Cancelled

  datatype Drain = Drain(pod: Pod, snapshot: seq<AgentId>, at: DrainAt)

  /** One call of `feed`: what is left of its snapshot, and an admission not yet written. */
  datatype Feed = Feed(pod: Pod, agent: AgentId, rest: seq<(InputId, Payload)>,
                       admitting: Option<TurnId>, lastTurn: Option<TurnId>)

  datatype Engines = Engines(
    pods: map<Pod, PodState>,
    live: map<(Pod, ThreadId), AgentId>,
    agents: map<AgentId, Agent>,
    drains: map<DrainId, Drain>)

  /** `seen` and `issued` are history: every committed input, every turn id a session answered for it. */
  datatype Inbox = Inbox(
    queue: Queue,
    feeds: map<FeedId, Feed>,
    seen: map<InputId, (ThreadId, Payload)>,
    issued: set<(InputId, TurnId)>)

  datatype State = State(now: int, rows: Rows, eng: Engines, inbox: Inbox)

  /** What a session answers to a user message. */
  datatype Answer = Died | Rejected | Started(turn: TurnId) | Steered(turn: TurnId)

  datatype RowStep =
    | Create(t: ThreadId, tenant: Tenant, parent: Option<ThreadId>)
    | Archive(t: ThreadId)
    | Unarchive(t: ThreadId)
    | Delete(ids: seq<ThreadId>)
    | Resume(t: ThreadId)
    | Recover(tn: Tenant)

  datatype PodStep = Boot(p: Pod) | Crash(p: Pod)

  /** A claim commits, or does not, or commits and the caller is told it failed. */
  datatype Fate = Through | RolledBack | ReplyLost

  /** A flag `ok` says whether a store call went through: the code carries on when it did not. */
  datatype AgentStep =
    | Enter(p: Pod, t: ThreadId)
    | CheckDraining
    | Claim(fate: Fate)
    | Acquire
    | LeaveRefused(ok: bool)
    | Start(ok: bool)
    | FailFreeSlot
    | FailLeave(ok: bool)
    | FreeRow(ok: bool)
    | FreeSlot
    | Close
    | Beat
    | TurnEnd(aborted: bool)
    | StreamEnd
    | CheckAbort
    | Offer(f: FeedId, batch: seq<InputId>, ok: bool)
    | FeedDone
    | PumpRelease

  datatype DrainStep = Begin(p: Pod, order: seq<AgentId>) | Advance | Deadline | Cancel | Force

  datatype FeedStep = Open(a: AgentId, batch: seq<InputId>) | Drop(ok: bool) | Submit(answer: Answer) | Admit(ok: bool) | Finish

  datatype Step =
    | Tick(elapsed: nat)
    | OnRow(row: RowStep)
    | OnPod(pod: PodStep)
    | OnAgent(a: AgentId, act: AgentStep)
    | OnDrain(d: DrainId, drain: DrainStep)
    | Enqueue(i: InputId, t: ThreadId, payload: Payload)
    | OnFeed(f: FeedId, feed: FeedStep)

  // ---------------------------------------------------------------- who holds what

  /** Between ClaimTurn and ReleaseTurn. */
  predicate Holding(stage: Stage) {
    stage.Claimed? || stage.Refused? || stage.Acquired? || stage.Failed? || stage.FailedFreed?
    || stage.Live? || stage.Unlisted?
  }

  /** Between TryAcquire and the matching Release of the limiter. */
  predicate HasSlot(stage: Stage) {
    stage.Acquired? || stage.Failed? || stage.Live? || stage.Unlisted? || stage.Freed?
  }

  predicate IsSession(stage: Stage) {
    stage.Live? || stage.Unlisted? || stage.Freed? || stage.SlotBack? || stage.Closed?
  }

  function StaleAfter(c: Config): nat { 2 * c.beatInterval }

  // ---------------------------------------------------------------- steps

  function SetAgent(e: Engines, a: AgentId, ag: Agent): Engines {
    e.(agents := e.agents[a := ag])
  }

  function DropAgent(e: Engines, a: AgentId): Engines {
    e.(agents := e.agents - {a})
  }

  function SetCur(e: Engines, p: Pod, cur: Limiter.Counters): Engines
    requires p in e.pods
  {
    e.(pods := e.pods[p := e.pods[p].(cur := cur)])
  }

  /** The first part of the release body: out of the live map, if the entry is this session's. */
  function EnterRelease(e: Engines, a: AgentId, to: Status): Engines
    requires a in e.agents
  {
    var ag := e.agents[a];
    var key := (ag.pod, ag.thread);
    SetAgent(e.(live := if key in e.live && e.live[key] == a then e.live - {key} else e.live),
             a, ag.(stage := Unlisted(to), bodies := ag.bodies + 1))
  }

  function WithPayloads(queue: Queue, ids: seq<InputId>): (r: seq<(InputId, Payload)>)
    requires forall i | i in ids :: i in queue
  {
    seq(|ids|, k requires 0 <= k < |ids| => assert ids[k] in ids; (ids[k], queue[ids[k]].payload))
  }

  ghost function NextRow(c: Config, s: State, step: RowStep): Option<State> {
    match step
    case Create(t, tenant, parent) =>
      if t in s.rows then None
      else Some(s.(rows := s.rows[t := Row(tenant, parent, Idle, None, None)]))
    case Archive(t) => Some(s.(rows := ArchiveRows(s.rows, t)))
    case Unarchive(t) => Some(s.(rows := UnarchiveRows(s.rows, t)))
    case Delete(ids) =>
      Some(s.(rows := DeleteRows(s.rows, ids),
              inbox := s.inbox.(queue := DeleteQueue(s.rows, s.inbox.queue, ids))))
    case Resume(t) => Some(s.(rows := MarkIdleRows(s.rows, t)))
    case Recover(tn) => Some(s.(rows := RecoverRows(s.rows, tn, s.now, StaleAfter(c))))
  }

  /** A crash takes every goroutine and every in-memory map of the pod; the tables stay. */
  ghost function NextPod(s: State, step: PodStep): Option<State> {
    match step
    case Boot(p) =>
      if p in s.eng.pods then None
      else Some(s.(eng := s.eng.(pods := s.eng.pods[p := PodState(false, map[])])))
    case Crash(p) =>
      if p !in s.eng.pods then None
      else Some(s.(
        eng := Engines(
          s.eng.pods - {p},
          map k | k in s.eng.live && k.0 != p :: s.eng.live[k],
          map a | a in s.eng.agents && s.eng.agents[a].pod != p :: s.eng.agents[a],
          map d | d in s.eng.drains && s.eng.drains[d].pod != p :: s.eng.drains[d]),
        inbox := s.inbox.(feeds := map f | f in s.inbox.feeds && s.inbox.feeds[f].pod != p :: s.inbox.feeds[f])))
  }

  ghost function NextEnter(s: State, a: AgentId, p: Pod, t: ThreadId): Option<State> {
    if a in s.eng.agents || p !in s.eng.pods || !Visible(s.rows, t) || (p, t) in s.eng.live then None
    else Some(s.(eng := SetAgent(s.eng, a, Agent(p, t, s.rows[t].tenant, Entered, Absent, 0))))
  }

  ghost function NextAgent(c: Config, s: State, a: AgentId, step: AgentStep): Option<State> {
    if step.Enter? then NextEnter(s, a, step.p, step.t)
    else if a !in s.eng.agents || s.eng.agents[a].pod !in s.eng.pods then None
    else if OfPump(step) then NextPump(s, a, step)
    else if OfRelease(step) then NextRelease(c, s, a, step)
    else NextDispatch(c, s, a, step)
  }

  predicate OfPump(step: AgentStep) {
    step.TurnEnd? || step.StreamEnd? || step.CheckAbort? || step.Offer? || step.FeedDone? || step.PumpRelease?
  }

  predicate OfRelease(step: AgentStep) {
    step.FreeRow? || step.FreeSlot? || step.Close? || step.Beat?
  }

  ghost function NextDispatch(c: Config, s: State, a: AgentId, step: AgentStep): Option<State>
    requires a in s.eng.agents && s.eng.agents[a].pod in s.eng.pods
  {
    var ag := s.eng.agents[a];
    var pod := s.eng.pods[ag.pod];
    match step
    case CheckDraining =>
      if !ag.stage.Entered? then None
      else if pod.draining then Some(s.(eng := DropAgent(s.eng, a)))
      else Some(s.(eng := SetAgent(s.eng, a, ag.(stage := Checked))))
    case Claim(fate) =>
      if !ag.stage.Checked? then None
      else
        var rows := if fate.RolledBack? then s.rows else ClaimRows(s.rows, ag.thread, ag.pod, s.now);
        if fate.Through? && Claimable(s.rows, ag.thread)
        then Some(s.(rows := rows, eng := SetAgent(s.eng, a, ag.(stage := Claimed))))
        else Some(s.(rows := rows, eng := DropAgent(s.eng, a)))
    case Acquire =>
      if !ag.stage.Claimed? then None
      else if c.limiter.Some? && !Limiter.Admits(c.limiter.value, pod.cur, ag.tenant)
      then Some(s.(eng := SetAgent(s.eng, a, ag.(stage := Refused))))
      else if c.limiter.Some?
      then Some(s.(eng := SetAgent(SetCur(s.eng, ag.pod, Limiter.Taken(c.limiter.value, pod.cur, ag.tenant)),
                                   a, ag.(stage := Acquired))))
      else Some(s.(eng := SetAgent(s.eng, a, ag.(stage := Acquired))))
    case LeaveRefused(ok) =>
      if !ag.stage.Refused? then None
      else Some(s.(rows := if ok then ReleaseRows(s.rows, ag.thread, Idle) else s.rows, eng := DropAgent(s.eng, a)))
    case Start(ok) =>
      if !ag.stage.Acquired? then None
      else if ok
      then Some(s.(eng := SetAgent(s.eng.(live := s.eng.live[(ag.pod, ag.thread) := a]),
                                   a, ag.(stage := Live, pump := Reading))))
      else Some(s.(eng := SetAgent(s.eng, a, ag.(stage := Failed))))
    case FailFreeSlot =>
      if !ag.stage.Failed? then None
      else Some(s.(eng := SetAgent(FreeSlotOf(c, s.eng, ag), a, ag.(stage := FailedFreed))))
    case FailLeave(ok) =>
      if !ag.stage.FailedFreed? then None
      else Some(s.(rows := if ok then ReleaseRows(s.rows, ag.thread, Idle) else s.rows, eng := DropAgent(s.eng, a)))
    case _ => None
  }

  /** The rest of the release body, and the heartbeat that runs until it ends. */
  ghost function NextRelease(c: Config, s: State, a: AgentId, step: AgentStep): Option<State>
    requires a in s.eng.agents && s.eng.agents[a].pod in s.eng.pods
  {
    var ag := s.eng.agents[a];
    match step
    case FreeRow(ok) =>
      if !ag.stage.Unlisted? then None
      else Some(s.(rows := if ok then ReleaseRows(s.rows, ag.thread, ag.stage.to) else s.rows,
                   eng := SetAgent(s.eng, a, ag.(stage := Freed))))
    case FreeSlot =>
      if !ag.stage.Freed? then None
      else Some(s.(eng := SetAgent(FreeSlotOf(c, s.eng, ag), a, ag.(stage := SlotBack))))
    case Close =>
      if !ag.stage.SlotBack? then None
      else Some(s.(eng := SetAgent(s.eng, a, ag.(stage := Closed))))
    case Beat =>
      if !IsSession(ag.stage) || ag.stage.Closed? then None
      else Some(s.(rows := BeatRows(s.rows, ag.thread, ag.pod, s.now)))
    case _ => None
  }

  function FreeSlotOf(c: Config, e: Engines, ag: Agent): Engines
    requires ag.pod in e.pods
  {
    if c.limiter.Some?
    then SetCur(e, ag.pod, Limiter.GivenBack(c.limiter.value, e.pods[ag.pod].cur, ag.tenant))
    else e
  }

  ghost function NextPump(s: State, a: AgentId, step: AgentStep): Option<State>
    requires a in s.eng.agents && s.eng.agents[a].pod in s.eng.pods
  {
    var ag := s.eng.agents[a];
    var draining := s.eng.pods[ag.pod].draining;
    match step
    case TurnEnd(aborted) =>
      if !ag.pump.Reading? then None
      else Some(s.(eng := SetAgent(s.eng, a, ag.(pump := Ended(aborted)))))
    case StreamEnd =>
      if !ag.pump.Reading? then None
      else Some(s.(eng := SetAgent(s.eng, a, ag.(pump := Leaving(Idle)))))
    case CheckAbort =>
      if !ag.pump.Ended? then None
      else if ag.pump.aborted && draining
      then Some(s.(eng := SetAgent(s.eng, a, ag.(pump := Leaving(Interrupted)))))
      else Some(s.(eng := SetAgent(s.eng, a, ag.(pump := Offering))))
    case Offer(f, batch, ok) =>
      if !ag.pump.Offering? then None
      else if draining || !ok
      then Some(s.(eng := SetAgent(s.eng, a, ag.(pump := Leaving(Idle)))))
      else if f in s.inbox.feeds || !IsPendingList(s.inbox.queue, ag.thread, batch) then None
      else Some(s.(eng := SetAgent(s.eng, a, ag.(pump := Feeding(f))),
                   inbox := OpenFeed(s.inbox, f, ag.pod, a, ag.thread, batch)))
    case FeedDone =>
      if !ag.pump.Feeding? || ag.pump.feed !in s.inbox.feeds || !Exhausted(s.inbox.feeds[ag.pump.feed]) then None
      else
        var f := s.inbox.feeds[ag.pump.feed];
        Some(s.(eng := SetAgent(s.eng, a, ag.(pump := if f.lastTurn.Some? then Reading else Leaving(Idle))),
                inbox := s.inbox.(feeds := s.inbox.feeds - {ag.pump.feed})))
    case PumpRelease =>
      if !ag.pump.Leaving? then None
      else if ag.stage.Live?
      then
        var e := EnterRelease(s.eng, a, ag.pump.to);
        Some(s.(eng := SetAgent(e, a, e.agents[a].(pump := Gone))))
      else if ag.stage.Closed? then Some(s.(eng := SetAgent(s.eng, a, ag.(pump := Gone))))
      else None                                  // sync.Once blocks until the running body is done
    case _ => None
  }

  ghost predicate ListsLive(e: Engines, p: Pod, order: seq<AgentId>) {
    && (forall i, j | 0 <= i < j < |order| :: order[i] != order[j])
    && (forall k | k in e.live && k.0 == p :: e.live[k] in order)
    && (forall i | 0 <= i < |order| :: exists k :: k in e.live && k.0 == p && e.live[k] == order[i])
  }

  predicate ClosedAt(e: Engines, snapshot: seq<AgentId>, i: nat) {
    i < |snapshot| && snapshot[i] in e.agents && e.agents[snapshot[i]].stage.Closed?
  }

  ghost function NextDrain(s: State, d: DrainId, step: DrainStep): Option<State> {
    if step.Begin? then
      if d in s.eng.drains || step.p !in s.eng.pods || !ListsLive(s.eng, step.p, step.order) then None
      else Some(s.(eng := s.eng.(
        pods := s.eng.pods[step.p := s.eng.pods[step.p].(draining := true)],
        drains := s.eng.drains[d := Drain(step.p, step.order, Waiting(0))])))
    else if d !in s.eng.drains then None
    else
      var dr := s.eng.drains[d];
      if step.Force? then
        if !dr.at.Forcing? || dr.at.k >= |dr.snapshot| || dr.snapshot[dr.at.k] !in s.eng.agents
           || !s.eng.agents[dr.snapshot[dr.at.k]].stage.Live? then None
        else Some(s.(eng := EnterRelease(s.eng, dr.snapshot[dr.at.k], Interrupted)))
      else
        match DrainMove(s.eng, dr, step)
        case None => None
        case Some(at) => Some(s.(eng := s.eng.(drains := s.eng.drains[d := dr.(at := at)])))
  }

  /** The control flow of Drain: wait in order; at the deadline force this one, then sweep from the start. */
  function DrainMove(e: Engines, dr: Drain, step: DrainStep): Option<DrainAt> {
    match (step, dr.at)
    case (Advance, Waiting(i)) =>
      if i >= |dr.snapshot| then Some(Returned)
      else if ClosedAt(e, dr.snapshot, i) then Some(Waiting(i + 1))
      else None
    case (Advance, Sweeping(j)) =>
      if j >= |dr.snapshot| then Some(Returned)
      else if ClosedAt(e, dr.snapshot, j) then Some(Sweeping(j + 1))
      else Some(Forcing(j, j + 1))
    case (Advance, Forcing(k, resume)) =>
      if ClosedAt(e, dr.snapshot, k) then Some(Sweeping(resume)) else None
    case (Deadline, Waiting(i)) => if i < |dr.snapshot| then Some(Forcing(i, 0)) else None
    case (Cancel, Waiting(i)) => if i < |dr.snapshot| then Some(Cancelled) else None
    case _ => None
  }

  ghost function NextEnqueue(s: State, i: InputId, t: ThreadId, payload: Payload): Option<State> {
    if i in s.inbox.seen || i in s.inbox.queue || !Visible(s.rows, t) then None
    else Some(s.(inbox := s.inbox.(
      queue := s.inbox.queue[i := Input(t, payload, s.now, None)],
      seen := s.inbox.seen[i := (t, payload)])))
  }

  ghost function OpenFeed(b: Inbox, f: FeedId, p: Pod, a: AgentId, t: ThreadId, batch: seq<InputId>): Inbox
    requires IsPendingList(b.queue, t, batch)
  {
    assert forall i | i in batch :: PendingOf(b.queue, t, i);
    b.(feeds := b.feeds[f := Feed(p, a, WithPayloads(b.queue, batch), None, None)])
  }

  predicate Exhausted(f: Feed) {
    f.rest == [] && f.admitting.None?
  }

  ghost function NextFeed(s: State, f: FeedId, step: FeedStep): Option<State> {
    if step.Open? then
      if f in s.inbox.feeds || step.a !in s.eng.agents || !IsSession(s.eng.agents[step.a].stage)
         || !IsPendingList(s.inbox.queue, s.eng.agents[step.a].thread, step.batch) then None
      else
        var ag := s.eng.agents[step.a];
        Some(s.(inbox := OpenFeed(s.inbox, f, ag.pod, step.a, ag.thread, step.batch)))
    else if f !in s.inbox.feeds then None
    else if step.Finish? then
      var fd := s.inbox.feeds[f];
      if !Exhausted(fd) || (fd.agent in s.eng.agents && s.eng.agents[fd.agent].pump == Feeding(f)) then None
      else Some(s.(inbox := s.inbox.(feeds := s.inbox.feeds - {f})))
    else
      match FeedOne(s.inbox, f, step)
      case None => None
      case Some(b) => Some(s.(inbox := b))
  }

  /** One input of a feed: delete what is not user input, submit the rest and then write the admission. */
  function FeedOne(b: Inbox, f: FeedId, step: FeedStep): Option<Inbox>
    requires f in b.feeds
  {
    var fd := b.feeds[f];
    if fd.rest == [] then None
    else
      var (i, payload) := fd.rest[0];
      match step
      case Drop(ok) =>
        if payload.UserInput? || fd.admitting.Some? then None
        else Some(b.(queue := if ok then b.queue - {i} else b.queue, feeds := b.feeds[f := fd.(rest := fd.rest[1..])]))
      case Submit(answer) =>
        if !payload.UserInput? || fd.admitting.Some? then None
        else (match answer
              case Died => Some(b.(feeds := b.feeds[f := fd.(rest := [])]))
              case Rejected => Some(b.(feeds := b.feeds[f := fd.(rest := fd.rest[1..])]))
              case Started(turn) => Some(b.(issued := b.issued + {(i, turn)}, feeds := b.feeds[f := fd.(admitting := Some(turn))]))
              case Steered(turn) => Some(b.(issued := b.issued + {(i, turn)}, feeds := b.feeds[f := fd.(admitting := Some(turn))])))
      case Admit(ok) =>
        if fd.admitting.None? then None
        else Some(b.(queue := if ok then AdmitQueue(b.queue, i, fd.admitting.value) else b.queue,
                     feeds := b.feeds[f := fd.(rest := fd.rest[1..], admitting := None, lastTurn := fd.admitting)]))
      case _ => None
  }

  ghost function Next(c: Config, s: State, step: Step): Option<State> {
    match step
    case Tick(elapsed) => Some(s.(now := s.now + elapsed))
    case OnRow(row) => NextRow(c, s, row)
    case OnPod(pod) => NextPod(s, pod)
    case OnAgent(a, act) => NextAgent(c, s, a, act)
    case OnDrain(d, drain) => NextDrain(s, d, drain)
    case Enqueue(i, t, payload) => NextEnqueue(s, i, t, payload)
    case OnFeed(f, feed) => NextFeed(s, f, feed)
  }

  const START := State(0, map[], Engines(map[], map[], map[], map[]), Inbox(map[], map[], map[], {}))

  /** The state after `steps`, or None if one of them cannot happen where it stands. */
  ghost function Run(c: Config, s: State, steps: seq<Step>): Option<State>
    decreases |steps|
  {
    if steps == [] then Some(s)
    else match Next(c, s, steps[0])
         case None => None
         case Some(s1) => Run(c, s1, steps[1..])
  }

  lemma RunCons(c: Config, s: State, s1: State, x: Step, rest: seq<Step>)
    requires Next(c, s, x) == Some(s1)
    ensures Run(c, s, [x] + rest) == Run(c, s1, rest)
  {
  }

  lemma {:induction false} RunConcat(c: Config, s: State, xs: seq<Step>, ys: seq<Step>)
    requires Run(c, s, xs).Some?
    ensures Run(c, s, xs + ys) == Run(c, Run(c, s, xs).value, ys)
    decreases |xs|
  {
    if xs == [] {
      assert xs + ys == ys;
    } else {
      assert (xs + ys)[1..] == xs[1..] + ys;
      RunConcat(c, Next(c, s, xs[0]).value, xs[1..], ys);
    }
  }

  lemma RunOf5(c: Config, s: State, x1: Step, x2: Step, x3: Step, x4: Step, x5: Step,
               s1: State, s2: State, s3: State, s4: State, s5: State)
    requires Next(c, s, x1) == Some(s1) && Next(c, s1, x2) == Some(s2) && Next(c, s2, x3) == Some(s3)
    requires Next(c, s3, x4) == Some(s4) && Next(c, s4, x5) == Some(s5)
    ensures Run(c, s, [x1, x2, x3, x4, x5]) == Some(s5)
  {
    RunCons(c, s4, s5, x5, []);
    RunCons(c, s3, s4, x4, [x5]);
    RunCons(c, s2, s3, x3, [x4, x5]);
    RunCons(c, s1, s2, x2, [x3, x4, x5]);
    RunCons(c, s, s1, x1, [x2, x3, x4, x5]);
    assert [x1] + [x2, x3, x4, x5] == [x1, x2, x3, x4, x5];
  }

  ghost function SlotTaken(c: Config, e: Engines, p: Pod, tn: Tenant): Engines
    requires p in e.pods
  {
    if c.limiter.Some? then SetCur(e, p, Limiter.Taken(c.limiter.value, e.pods[p].cur, tn)) else e
  }

  lemma AcquireRuns(c: Config, s: State, a: AgentId)
    requires a in s.eng.agents && s.eng.agents[a].stage.Claimed? && s.eng.agents[a].pod in s.eng.pods
    requires
      var ag := s.eng.agents[a];
      c.limiter.Some? ==> Limiter.Admits(c.limiter.value, s.eng.pods[ag.pod].cur, ag.tenant)
    ensures
      var ag := s.eng.agents[a];
      Next(c, s, OnAgent(a, Acquire)) == Some(s.(eng := SetAgent(SlotTaken(c, s.eng, ag.pod, ag.tenant), a, ag.(stage := Acquired))))
  {
  }
}
