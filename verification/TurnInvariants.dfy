/** What every step of the turn protocol keeps, and the theorems over whole runs that follow. */
module TurnInvariants {
  import opened Tables
  import opened Turns
  import Limiter

  // ---------------------------------------------------------------- slots

  ghost predicate SlotOf(ag: Agent, p: Pod, tn: Tenant) {
    ag.pod == p && ag.tenant == tn && HasSlot(ag.stage)
  }

  /** Dispatches between acquire and start, plus sessions that have not returned their slot. */
  ghost function SlotHolders(agents: map<AgentId, Agent>, p: Pod, tn: Tenant): set<AgentId> {
    set a | a in agents && SlotOf(agents[a], p, tn)
  }

  predicate Counting(c: Config) {
    c.limiter.Some? && c.limiter.value > 0
  }

  ghost predicate SlotExact(c: Config, e: Engines, p: Pod, tn: Tenant)
    requires p in e.pods
  {
    && Limiter.Count(e.pods[p].cur, tn) == (if Counting(c) then |SlotHolders(e.agents, p, tn)| else 0)
    && (Counting(c) ==> Limiter.Count(e.pods[p].cur, tn) <= c.limiter.value)
  }

  ghost predicate SlotsExact(c: Config, e: Engines) {
    && (forall p, tn | p in e.pods :: SlotExact(c, e, p, tn))
    && (forall p, tn | p in e.pods && tn in e.pods[p].cur :: e.pods[p].cur[tn] > 0)
  }

  lemma HoldersAfterSet(agents: map<AgentId, Agent>, a: AgentId, ag: Agent, p: Pod, tn: Tenant)
    ensures SlotHolders(agents[a := ag], p, tn)
         == if SlotOf(ag, p, tn) then SlotHolders(agents, p, tn) + {a} else SlotHolders(agents, p, tn) - {a}
  {
  }

  lemma HoldersAfterDrop(agents: map<AgentId, Agent>, a: AgentId, p: Pod, tn: Tenant)
    ensures SlotHolders(agents - {a}, p, tn) == SlotHolders(agents, p, tn) - {a}
  {
  }

  // ---------------------------------------------------------------- engines

  predicate InBody(stage: Stage) {
    stage.Unlisted? || stage.Freed? || stage.SlotBack? || stage.Closed?
  }

  predicate Releasable(to: Status) {
    to == Idle || to == Interrupted
  }

  /** Release runs once, has a pump behind it exactly when there is a session, and goes to a legal status. */
  ghost predicate AgentOk(ag: Agent) {
    && ag.bodies == (if InBody(ag.stage) then 1 else 0)
    && (ag.pump.Absent? <==> !IsSession(ag.stage))
    && (ag.stage.Unlisted? ==> Releasable(ag.stage.to))
    && (ag.pump.Leaving? ==> Releasable(ag.pump.to))
  }

  ghost predicate AgentsOk(e: Engines) {
    forall a | a in e.agents :: e.agents[a].pod in e.pods && AgentOk(e.agents[a])
  }

  /** An entry of a live map is a session of that pod and thread whose release has not begun. */
  ghost predicate LiveOk(e: Engines) {
    forall k | k in e.live ::
      && e.live[k] in e.agents && e.agents[e.live[k]].stage.Live?
      && (e.agents[e.live[k]].pod, e.agents[e.live[k]].thread) == k
  }

  ghost predicate DrainOk(e: Engines, dr: Drain) {
    && dr.pod in e.pods && e.pods[dr.pod].draining
    && (forall i | 0 <= i < |dr.snapshot| ::
          dr.snapshot[i] in e.agents && IsSession(e.agents[dr.snapshot[i]].stage) && e.agents[dr.snapshot[i]].pod == dr.pod)
    && match dr.at
       case Waiting(i) => i <= |dr.snapshot| && forall m: nat | m < i :: ClosedAt(e, dr.snapshot, m)
       case Sweeping(j) => j <= |dr.snapshot| && forall m: nat | m < j :: ClosedAt(e, dr.snapshot, m)
       case Forcing(k, resume) =>
         k < |dr.snapshot| && resume <= |dr.snapshot| && forall m: nat | m < resume && m != k :: ClosedAt(e, dr.snapshot, m)
       case Returned => forall m: nat | m < |dr.snapshot| :: ClosedAt(e, dr.snapshot, m)
       case Cancelled => true
  }

  ghost predicate DrainsOk(e: Engines) {
    forall d | d in e.drains :: DrainOk(e, e.drains[d])
  }

  ghost predicate EnginesOk(c: Config, e: Engines) {
    AgentsOk(e) && LiveOk(e) && DrainsOk(e) && SlotsExact(c, e)
  }

  /**
   How one agent may move in one step without the counters, the flags or the live map of any
   other agent changing: the same pod and tenant, forward only once it is a session, and
   past the draining check only while the flag is unset.
   */
  ghost predicate AgentMoves(e: Engines, ag: Agent, ag': Agent) {
    && ag'.pod == ag.pod && ag'.thread == ag.thread && ag'.tenant == ag.tenant
    && (IsSession(ag.stage) ==> IsSession(ag'.stage))
    && (ag.stage.Closed? ==> ag'.stage.Closed?)
    && (ag.stage.Entered? && !ag'.stage.Entered? ==> ag.pod in e.pods && !e.pods[ag.pod].draining)
    && AgentOk(ag')
  }

  /** `e'` differs from `e` in one agent, the live map, and at most the counters of that agent's pod. */
  ghost predicate OneMoved(e: Engines, e': Engines, a: AgentId) {
    && a in e.agents && e'.drains == e.drains
    && e'.pods.Keys == e.pods.Keys
    && (forall p | p in e.pods :: e'.pods[p].draining == e.pods[p].draining)
    && e'.agents.Keys == e.agents.Keys
    && AgentMoves(e, e.agents[a], e'.agents[a])
    && (forall b | b in e.agents && b != a :: e'.agents[b] == e.agents[b])
  }

  lemma DrainSurvives(e: Engines, e': Engines, a: AgentId, dr: Drain)
    requires OneMoved(e, e', a) && DrainOk(e, dr)
    ensures DrainOk(e', dr)
  {
    forall m: nat | ClosedAt(e, dr.snapshot, m) ensures ClosedAt(e', dr.snapshot, m) { }
  }

  lemma MovedKeepsDrains(e: Engines, e': Engines, a: AgentId)
    requires OneMoved(e, e', a) && AgentsOk(e) && DrainsOk(e)
    ensures AgentsOk(e') && DrainsOk(e')
  {
    forall d | d in e'.drains ensures DrainOk(e', e'.drains[d]) {
      DrainSurvives(e, e', a, e.drains[d]);
    }
  }

  lemma SetKeepsSlots(c: Config, e: Engines, e': Engines, a: AgentId)
    requires OneMoved(e, e', a) && SlotsExact(c, e) && e'.pods == e.pods
    requires HasSlot(e'.agents[a].stage) == HasSlot(e.agents[a].stage)
    ensures SlotsExact(c, e')
  {
    assert e'.agents == e.agents[a := e'.agents[a]];
    forall p, tn | p in e'.pods ensures SlotExact(c, e', p, tn) {
      HoldersAfterSet(e.agents, a, e'.agents[a], p, tn);
      assert SlotHolders(e'.agents, p, tn) == SlotHolders(e.agents, p, tn);
      assert SlotExact(c, e, p, tn);
    }
  }

  lemma TakeKeepsSlots(c: Config, e: Engines, e': Engines, a: AgentId)
    requires AgentsOk(e) && OneMoved(e, e', a) && SlotsExact(c, e)
    requires !HasSlot(e.agents[a].stage) && HasSlot(e'.agents[a].stage)
    requires
      var ag := e.agents[a];
      && (c.limiter.Some? ==> Limiter.Admits(c.limiter.value, e.pods[ag.pod].cur, ag.tenant))
      && e'.pods == SlotTaken(c, e, ag.pod, ag.tenant).pods
    ensures SlotsExact(c, e')
  {
    assert e'.agents == e.agents[a := e'.agents[a]];
    forall p, tn | p in e'.pods ensures SlotExact(c, e', p, tn) {
      assert SlotExact(c, e, p, tn);
      TakeCount(c, e, e.agents[a], p, tn);
      HoldersAfterSet(e.agents, a, e'.agents[a], p, tn);
      assert a !in SlotHolders(e.agents, p, tn);
    }
  }

  /** A taken slot raises the counter of its own tenant on its own pod, and no other. */
  lemma TakeCount(c: Config, e: Engines, ag: Agent, p: Pod, tn: Tenant)
    requires ag.pod in e.pods && p in e.pods
    requires c.limiter.Some? ==> Limiter.Admits(c.limiter.value, e.pods[ag.pod].cur, ag.tenant)
    ensures
      var was := Limiter.Count(e.pods[p].cur, tn);
      var own := Counting(c) && ag.pod == p && ag.tenant == tn;
      && Limiter.Count(SlotTaken(c, e, ag.pod, ag.tenant).pods[p].cur, tn) == (if own then was + 1 else was)
      && (own ==> was < c.limiter.value)
  {
  }

  /** Whoever returns a slot had one counted, so the guard against a negative counter never acts. */
  lemma ReturnedSlotWasCounted(c: Config, e: Engines, a: AgentId)
    requires AgentsOk(e) && SlotsExact(c, e) && a in e.agents && HasSlot(e.agents[a].stage) && Counting(c)
    ensures Limiter.Count(e.pods[e.agents[a].pod].cur, e.agents[a].tenant) > 0
  {
    var ag := e.agents[a];
    assert SlotExact(c, e, ag.pod, ag.tenant);
    assert a in SlotHolders(e.agents, ag.pod, ag.tenant);
  }

  lemma GiveKeepsSlots(c: Config, e: Engines, e': Engines, a: AgentId)
    requires AgentsOk(e) && OneMoved(e, e', a) && SlotsExact(c, e)
    requires HasSlot(e.agents[a].stage) && !HasSlot(e'.agents[a].stage)
    requires e'.pods == FreeSlotOf(c, e, e.agents[a]).pods
    ensures SlotsExact(c, e')
  {
    assert e'.agents == e.agents[a := e'.agents[a]];
    if Counting(c) { ReturnedSlotWasCounted(c, e, a); }
    forall p, tn | p in e'.pods ensures SlotExact(c, e', p, tn) {
      assert SlotExact(c, e, p, tn);
      GiveCount(c, e, e.agents[a], p, tn);
      HoldersAfterSet(e.agents, a, e'.agents[a], p, tn);
    }
  }

  /** A returned slot lowers the counter of its own tenant on its own pod, and no other. */
  lemma GiveCount(c: Config, e: Engines, ag: Agent, p: Pod, tn: Tenant)
    requires ag.pod in e.pods && p in e.pods
    ensures
      var was := Limiter.Count(e.pods[p].cur, tn);
      Limiter.Count(FreeSlotOf(c, e, ag).pods[p].cur, tn)
      == if Counting(c) && ag.pod == p && ag.tenant == tn && was > 0 then was - 1 else was
  {
  }

  lemma DropKeepsEngines(c: Config, e: Engines, a: AgentId)
    requires EnginesOk(c, e) && a in e.agents && !HasSlot(e.agents[a].stage) && !IsSession(e.agents[a].stage)
    ensures EnginesOk(c, DropAgent(e, a))
  {
    var e' := DropAgent(e, a);
    forall d | d in e'.drains ensures DrainOk(e', e'.drains[d]) {
      var dr := e.drains[d];
      forall m: nat | ClosedAt(e, dr.snapshot, m) ensures ClosedAt(e', dr.snapshot, m) { }
    }
    forall p, tn | p in e'.pods ensures SlotExact(c, e', p, tn) {
      HoldersAfterDrop(e.agents, a, p, tn);
      assert SlotHolders(e'.agents, p, tn) == SlotHolders(e.agents, p, tn);
      assert SlotExact(c, e, p, tn);
    }
  }

  lemma EnterKeepsEngines(c: Config, e: Engines, a: AgentId, ag: Agent)
    requires EnginesOk(c, e) && a !in e.agents && ag.pod in e.pods
    requires ag.stage.Entered? && ag.pump.Absent? && ag.bodies == 0
    ensures EnginesOk(c, SetAgent(e, a, ag))
  {
    var e' := SetAgent(e, a, ag);
    forall d | d in e'.drains ensures DrainOk(e', e'.drains[d]) {
      var dr := e.drains[d];
      forall m: nat | ClosedAt(e, dr.snapshot, m) ensures ClosedAt(e', dr.snapshot, m) { }
    }
    forall p, tn | p in e'.pods ensures SlotExact(c, e', p, tn) {
      HoldersAfterSet(e.agents, a, ag, p, tn);
      assert SlotHolders(e'.agents, p, tn) == SlotHolders(e.agents, p, tn);
      assert SlotExact(c, e, p, tn);
    }
  }

  lemma EnterReleaseMoves(c: Config, e: Engines, a: AgentId, to: Status)
    requires EnginesOk(c, e) && a in e.agents && e.agents[a].stage.Live? && Releasable(to)
    ensures OneMoved(e, EnterRelease(e, a, to), a)
    ensures EnginesOk(c, EnterRelease(e, a, to))
  {
    var e' := EnterRelease(e, a, to);
    MovedKeepsDrains(e, e', a);
    SetKeepsSlots(c, e, e', a);
  }

  /** The common case: one agent moves, keeps its slot or keeps having none, and does not leave `Live`. */
  lemma MoveKeepsEngines(c: Config, e: Engines, a: AgentId, ag: Agent)
    requires EnginesOk(c, e) && a in e.agents && AgentMoves(e, e.agents[a], ag)
    requires HasSlot(ag.stage) == HasSlot(e.agents[a].stage)
    requires e.agents[a].stage.Live? ==> ag.stage.Live?
    ensures EnginesOk(c, SetAgent(e, a, ag))
  {
    var e' := SetAgent(e, a, ag);
    MovedKeepsDrains(e, e', a);
    SetKeepsSlots(c, e, e', a);
  }

  lemma StartKeepsEngines(c: Config, e: Engines, a: AgentId)
    requires EnginesOk(c, e) && a in e.agents && e.agents[a].stage.Acquired?
    ensures
      var ag := e.agents[a];
      EnginesOk(c, SetAgent(e.(live := e.live[(ag.pod, ag.thread) := a]), a, ag.(stage := Live, pump := Reading)))
  {
    var ag := e.agents[a];
    var e' := SetAgent(e.(live := e.live[(ag.pod, ag.thread) := a]), a, ag.(stage := Live, pump := Reading));
    MovedKeepsDrains(e, e', a);
    SetKeepsSlots(c, e, e', a);
  }

  lemma TakeKeepsEngines(c: Config, e: Engines, a: AgentId)
    requires EnginesOk(c, e) && a in e.agents && e.agents[a].stage.Claimed?
    requires
      var ag := e.agents[a];
      c.limiter.Some? ==> Limiter.Admits(c.limiter.value, e.pods[ag.pod].cur, ag.tenant)
    ensures
      var ag := e.agents[a];
      EnginesOk(c, SetAgent(SlotTaken(c, e, ag.pod, ag.tenant), a, ag.(stage := Acquired)))
  {
    var ag := e.agents[a];
    var e' := SetAgent(SlotTaken(c, e, ag.pod, ag.tenant), a, ag.(stage := Acquired));
    TakeMoves(c, e, a);
    MovedKeepsDrains(e, e', a);
    TakeKeepsSlots(c, e, e', a);
  }

  lemma TakeMoves(c: Config, e: Engines, a: AgentId)
    requires AgentsOk(e) && a in e.agents && e.agents[a].stage.Claimed?
    ensures
      var ag := e.agents[a];
      OneMoved(e, SetAgent(SlotTaken(c, e, ag.pod, ag.tenant), a, ag.(stage := Acquired)), a)
  {
  }

  lemma GiveKeepsEngines(c: Config, e: Engines, a: AgentId, to: Stage)
    requires EnginesOk(c, e) && a in e.agents
    requires (e.agents[a].stage.Failed? && to.FailedFreed?) || (e.agents[a].stage.Freed? && to.SlotBack?)
    ensures EnginesOk(c, SetAgent(FreeSlotOf(c, e, e.agents[a]), a, e.agents[a].(stage := to)))
  {
    var e' := SetAgent(FreeSlotOf(c, e, e.agents[a]), a, e.agents[a].(stage := to));
    GiveMoves(c, e, a, to);
    MovedKeepsDrains(e, e', a);
    GiveKeepsSlots(c, e, e', a);
  }

  lemma GiveMoves(c: Config, e: Engines, a: AgentId, to: Stage)
    requires AgentsOk(e) && a in e.agents
    requires (e.agents[a].stage.Failed? && to.FailedFreed?) || (e.agents[a].stage.Freed? && to.SlotBack?)
    ensures OneMoved(e, SetAgent(FreeSlotOf(c, e, e.agents[a]), a, e.agents[a].(stage := to)), a)
  {
  }

  lemma DispatchKeepsEngines(c: Config, s: State, a: AgentId, step: AgentStep)
    requires EnginesOk(c, s.eng) && a in s.eng.agents
    requires NextDispatch(c, s, a, step).Some?
    ensures EnginesOk(c, NextDispatch(c, s, a, step).value.eng)
  {
    if step.Start? || step.FailFreeSlot? || step.FailLeave? {
      StartStepsKeepEngines(c, s, a, step);
    } else {
      ClaimStepsKeepEngines(c, s, a, step);
    }
  }

  /** Up to the slot. */
  lemma ClaimStepsKeepEngines(c: Config, s: State, a: AgentId, step: AgentStep)
    requires EnginesOk(c, s.eng) && a in s.eng.agents
    requires NextDispatch(c, s, a, step).Some? && !step.Start? && !step.FailFreeSlot? && !step.FailLeave?
    ensures EnginesOk(c, NextDispatch(c, s, a, step).value.eng)
  {
    var e := s.eng;
    var ag := e.agents[a];
    match step {
      case CheckDraining =>
        if e.pods[ag.pod].draining { DropKeepsEngines(c, e, a); } else { MoveKeepsEngines(c, e, a, ag.(stage := Checked)); }
      case Claim(fate) =>
        if fate.Through? && Claimable(s.rows, ag.thread) { MoveKeepsEngines(c, e, a, ag.(stage := Claimed)); } else { DropKeepsEngines(c, e, a); }
      case Acquire =>
        if c.limiter.Some? && !Limiter.Admits(c.limiter.value, e.pods[ag.pod].cur, ag.tenant) {
          MoveKeepsEngines(c, e, a, ag.(stage := Refused));
        } else {
          TakeKeepsEngines(c, e, a);
        }
      case LeaveRefused(_) => DropKeepsEngines(c, e, a);
      case _ =>
    }
  }

  /** From the slot on. */
  lemma StartStepsKeepEngines(c: Config, s: State, a: AgentId, step: AgentStep)
    requires EnginesOk(c, s.eng) && a in s.eng.agents
    requires NextDispatch(c, s, a, step).Some? && (step.Start? || step.FailFreeSlot? || step.FailLeave?)
    ensures EnginesOk(c, NextDispatch(c, s, a, step).value.eng)
  {
    var e := s.eng;
    var ag := e.agents[a];
    match step {
      case Start(ok) => if ok { StartKeepsEngines(c, e, a); } else { MoveKeepsEngines(c, e, a, ag.(stage := Failed)); }
      case FailFreeSlot => GiveKeepsEngines(c, e, a, FailedFreed);
      case FailLeave(_) => DropKeepsEngines(c, e, a);
      case _ =>
    }
  }

  lemma ReleaseKeepsEngines(c: Config, s: State, a: AgentId, step: AgentStep)
    requires EnginesOk(c, s.eng) && a in s.eng.agents
    requires NextRelease(c, s, a, step).Some?
    ensures EnginesOk(c, NextRelease(c, s, a, step).value.eng)
  {
    var e := s.eng;
    var ag := e.agents[a];
    match step {
      case FreeRow(_) => MoveKeepsEngines(c, e, a, ag.(stage := Freed));
      case FreeSlot => GiveKeepsEngines(c, e, a, SlotBack);
      case Close => MoveKeepsEngines(c, e, a, ag.(stage := Closed));
      case _ =>
    }
  }

  lemma PumpReleaseKeepsEngines(c: Config, e: Engines, a: AgentId)
    requires EnginesOk(c, e) && a in e.agents && e.agents[a].stage.Live? && e.agents[a].pump.Leaving?
    ensures
      var m := EnterRelease(e, a, e.agents[a].pump.to);
      EnginesOk(c, SetAgent(m, a, m.agents[a].(pump := Gone)))
  {
    var m := EnterRelease(e, a, e.agents[a].pump.to);
    EnterReleaseMoves(c, e, a, e.agents[a].pump.to);
    MoveKeepsEngines(c, m, a, m.agents[a].(pump := Gone));
  }

  ghost function PumpAfter(s: State, a: AgentId, step: AgentStep): Pump
    requires a in s.eng.agents && s.eng.agents[a].pod in s.eng.pods && NextPump(s, a, step).Some?
  {
    NextPump(s, a, step).value.eng.agents[a].pump
  }

  lemma PumpMoveKeepsEngines(c: Config, e: Engines, a: AgentId, pump: Pump)
    requires EnginesOk(c, e) && a in e.agents && IsSession(e.agents[a].stage)
    requires !pump.Absent? && (pump.Leaving? ==> Releasable(pump.to))
    ensures EnginesOk(c, SetAgent(e, a, e.agents[a].(pump := pump)))
  {
    MoveKeepsEngines(c, e, a, e.agents[a].(pump := pump));
  }

  lemma PumpKeepsEngines(c: Config, s: State, a: AgentId, step: AgentStep)
    requires EnginesOk(c, s.eng) && a in s.eng.agents
    requires NextPump(s, a, step).Some?
    ensures EnginesOk(c, NextPump(s, a, step).value.eng)
  {
    var e := s.eng;
    var ag := e.agents[a];
    assert AgentOk(ag);
    if step.PumpRelease? && ag.stage.Live? {
      PumpReleaseKeepsEngines(c, e, a);
    } else {
      PumpMoveKeepsEngines(c, e, a, PumpAfter(s, a, step));
    }
  }

  /** A drain record added or moved on a pod that drains, with nothing else changed. */
  lemma DrainRecordKeepsEngines(c: Config, e: Engines, d: DrainId, dr: Drain)
    requires EnginesOk(c, e) && DrainOk(e, dr)
    ensures EnginesOk(c, e.(drains := e.drains[d := dr]))
  {
    var e' := e.(drains := e.drains[d := dr]);
    forall p, tn | p in e'.pods ensures SlotExact(c, e', p, tn) { assert SlotExact(c, e, p, tn); }
    forall x | x in e'.drains ensures DrainOk(e', e'.drains[x]) {
      SameAgentsSameDrain(e, e', e'.drains[x]);
    }
  }

  lemma SameAgentsSameDrain(e: Engines, e': Engines, dr: Drain)
    requires DrainOk(e, dr) && e'.agents == e.agents && dr.pod in e'.pods && e'.pods[dr.pod].draining
    ensures DrainOk(e', dr)
  {
    forall m: nat ensures ClosedAt(e', dr.snapshot, m) == ClosedAt(e, dr.snapshot, m) { }
  }

  lemma FlagKeepsEngines(c: Config, e: Engines, p: Pod)
    requires EnginesOk(c, e) && p in e.pods
    ensures EnginesOk(c, e.(pods := e.pods[p := e.pods[p].(draining := true)]))
  {
    var e' := e.(pods := e.pods[p := e.pods[p].(draining := true)]);
    forall q, tn | q in e'.pods ensures SlotExact(c, e', q, tn) { assert SlotExact(c, e, q, tn); }
    forall x | x in e'.drains ensures DrainOk(e', e'.drains[x]) {
      SameAgentsSameDrain(e, e', e.drains[x]);
    }
  }

  lemma DrainKeepsEngines(c: Config, s: State, d: DrainId, step: DrainStep)
    requires EnginesOk(c, s.eng)
    requires NextDrain(s, d, step).Some?
    ensures EnginesOk(c, NextDrain(s, d, step).value.eng)
  {
    var e := s.eng;
    if step.Begin? {
      var m := e.(pods := e.pods[step.p := e.pods[step.p].(draining := true)]);
      var dr := Drain(step.p, step.order, Waiting(0));
      FlagKeepsEngines(c, e, step.p);
      SnapshotIsSessions(e, step.p, step.order);
      DrainRecordKeepsEngines(c, m, d, dr);
    } else if step.Force? {
      var dr := e.drains[d];
      EnterReleaseMoves(c, e, dr.snapshot[dr.at.k], Interrupted);
    } else {
      var dr := e.drains[d];
      DrainRecordKeepsEngines(c, e, d, dr.(at := DrainMove(e, dr, step).value));
    }
  }

  lemma SnapshotIsSessions(e: Engines, p: Pod, order: seq<AgentId>)
    requires LiveOk(e) && ListsLive(e, p, order)
    ensures forall i | 0 <= i < |order| :: order[i] in e.agents && e.agents[order[i]].stage.Live? && e.agents[order[i]].pod == p
  {
  }

  lemma PodKeepsEngines(c: Config, s: State, step: PodStep)
    requires EnginesOk(c, s.eng)
    requires NextPod(s, step).Some?
    ensures EnginesOk(c, NextPod(s, step).value.eng)
  {
    var e, e' := s.eng, NextPod(s, step).value.eng;
    forall d | d in e'.drains ensures DrainOk(e', e'.drains[d]) {
      var dr := e.drains[d];
      assert DrainOk(e, dr);
      forall m: nat | ClosedAt(e, dr.snapshot, m) ensures ClosedAt(e', dr.snapshot, m) { }
    }
    forall p, tn | p in e'.pods ensures SlotExact(c, e', p, tn) {
      assert SlotHolders(e'.agents, p, tn) == SlotHolders(e.agents, p, tn);
      if p in e.pods {
        assert SlotExact(c, e, p, tn);
      } else {
        assert SlotHolders(e.agents, p, tn) == {};
      }
    }
  }

  lemma StepKeepsEngines(c: Config, s: State, step: Step)
    requires EnginesOk(c, s.eng) && Next(c, s, step).Some?
    ensures EnginesOk(c, Next(c, s, step).value.eng)
  {
    match step {
      case OnPod(pod) => PodKeepsEngines(c, s, pod);
      case OnAgent(a, act) =>
        if act.Enter? { EnterKeepsEngines(c, s.eng, a, Agent(act.p, act.t, s.rows[act.t].tenant, Entered, Absent, 0)); }
        else if OfPump(act) { PumpKeepsEngines(c, s, a, act); }
        else if OfRelease(act) { ReleaseKeepsEngines(c, s, a, act); }
        else { DispatchKeepsEngines(c, s, a, act); }
      case OnDrain(d, drain) => DrainKeepsEngines(c, s, d, drain);
      case _ =>
    }
  }
}
