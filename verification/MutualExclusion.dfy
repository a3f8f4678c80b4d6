/**
 At most one holder per thread between ClaimTurn and ReleaseTurn. The tables alone do not give it:
 ReleaseTurn matches any running row and recovery, archiving and deletion do not ask who holds the
 thread. This module says exactly which steps keep it, proves it over all runs made of those steps,
 and shows a run with one other step that ends with two live sessions of one thread.
 */
module MutualExclusion {
  import opened Options
  import opened Tables
  import opened Turns
  import opened TurnInvariants
  import Limiter

  /** The row is running under the agent's pod. */
  predicate Owns(rows: Rows, ag: Agent) {
    RunsUnder(rows, ag.pod, ag.thread)
  }

  ghost predicate HoldersOwn(rows: Rows, agents: map<AgentId, Agent>) {
    forall a | a in agents && Holding(agents[a].stage) :: Owns(rows, agents[a])
  }

  ghost predicate OneHolder(agents: map<AgentId, Agent>) {
    forall a, b | a in agents && b in agents && Holding(agents[a].stage) && Holding(agents[b].stage)
                  && agents[a].thread == agents[b].thread :: a == b
  }

  /** Every thread has at most one holder, and its row runs under that holder's pod. */
  ghost predicate Exclusive(rows: Rows, agents: map<AgentId, Agent>) {
    HoldersOwn(rows, agents) && OneHolder(agents)
  }

  /** Every session that has not begun its release is the one its pod's live map names. */
  ghost predicate Listed(e: Engines) {
    forall a | a in e.agents && e.agents[a].stage.Live? ::
      var k := (e.agents[a].pod, e.agents[a].thread); k in e.live && e.live[k] == a
  }

  predicate Held(agents: map<AgentId, Agent>, t: ThreadId) {
    exists a | a in agents :: Holding(agents[a].stage) && agents[a].thread == t
  }

  /** A holder of the tenant's that has not beaten (or claimed) within twice the heartbeat interval. */
  predicate LateHolder(c: Config, s: State, tn: Tenant, a: AgentId) {
    && a in s.eng.agents && Holding(s.eng.agents[a].stage) && s.eng.agents[a].thread in s.rows
    && s.rows[s.eng.agents[a].thread].tenant == tn && Stale(s.rows[s.eng.agents[a].thread], s.now, StaleAfter(c))
  }

  /** Late is more than two heartbeat intervals after the last beat. */
  lemma LateIff(c: Config, s: State, tn: Tenant, a: AgentId)
    ensures LateHolder(c, s, tn, a) <==>
      && a in s.eng.agents && Holding(s.eng.agents[a].stage) && s.eng.agents[a].thread in s.rows
      && var row := s.rows[s.eng.agents[a].thread];
         && row.tenant == tn && row.status == Running
         && (row.beat == None || row.beat.value + c.beatInterval + c.beatInterval < s.now)
  {
  }

  /** No recovery while a live holder is late; nobody archives or deletes a held thread. */
  ghost predicate Benign(c: Config, s: State, step: Step) {
    if !step.OnRow? then true
    else match step.row
      case Recover(tn) => forall a | a in s.eng.agents :: !LateHolder(c, s, tn, a)
      case Archive(t) => !Held(s.eng.agents, t)
      case Delete(ids) => DeleteOutcome(s.rows, ids).Err? || forall t | t in ids :: !Held(s.eng.agents, t)
      case _ => true
  }

  // ---------------------------------------------------------------- rows only

  lemma RowStepIff(c: Config, s: State, step: RowStep)
    requires Exclusive(s.rows, s.eng.agents) && NextRow(c, s, step).Some?
    ensures Exclusive(NextRow(c, s, step).value.rows, s.eng.agents) <==> Benign(c, s, OnRow(step))
  {
  }

  // ---------------------------------------------------------------- agents

  /** One agent leaves or moves; it does not become a holder. */
  lemma MoveKeepsExclusive(rows: Rows, agents: map<AgentId, Agent>, agents': map<AgentId, Agent>, a: AgentId)
    requires Exclusive(rows, agents) && agents'.Keys <= agents.Keys + {a}
    requires forall b | b in agents' && b != a :: agents'[b] == agents[b]
    requires a in agents' && Holding(agents'[a].stage) ==>
      a in agents && Holding(agents[a].stage) && agents'[a].thread == agents[a].thread && agents'[a].pod == agents[a].pod
    ensures Exclusive(rows, agents')
  {
  }

  lemma ClaimKeepsExclusive(s: State, a: AgentId)
    requires Exclusive(s.rows, s.eng.agents) && a in s.eng.agents && Claimable(s.rows, s.eng.agents[a].thread)
    ensures
      var ag := s.eng.agents[a];
      Exclusive(ClaimRows(s.rows, ag.thread, ag.pod, s.now), s.eng.agents[a := ag.(stage := Claimed)])
  {
  }

  /** The common move of one agent, for both halves of safety. */
  lemma SetKeepsSafe(rows: Rows, e: Engines, a: AgentId, ag: Agent)
    requires Exclusive(rows, e.agents) && Listed(e) && a in e.agents
    requires ag.pod == e.agents[a].pod && ag.thread == e.agents[a].thread
    requires Holding(ag.stage) ==> Holding(e.agents[a].stage)
    requires ag.stage.Live? ==> e.agents[a].stage.Live?
    ensures Exclusive(rows, SetAgent(e, a, ag).agents) && Listed(SetAgent(e, a, ag))
  {
  }

  lemma DropKeepsSafe(rows: Rows, e: Engines, a: AgentId)
    requires Exclusive(rows, e.agents) && Listed(e) && a in e.agents
    ensures Exclusive(rows, DropAgent(e, a).agents) && Listed(DropAgent(e, a))
  {
  }

  lemma CountersKeepSafe(c: Config, rows: Rows, e: Engines, a: AgentId, cur: Limiter.Counters, to: Stage)
    requires EnginesOk(c, e) && Exclusive(rows, e.agents) && Listed(e) && a in e.agents
    requires (Holding(to) ==> Holding(e.agents[a].stage)) && !to.Live?
    ensures
      var ag := e.agents[a];
      var e' := SetAgent(SetCur(e, ag.pod, cur), a, ag.(stage := to));
      Exclusive(rows, e'.agents) && Listed(e')
  {
  }

  lemma StartKeepsSafe(c: Config, rows: Rows, e: Engines, a: AgentId)
    requires EnginesOk(c, e) && Exclusive(rows, e.agents) && Listed(e) && a in e.agents && e.agents[a].stage.Acquired?
    ensures
      var ag := e.agents[a];
      var e' := SetAgent(e.(live := e.live[(ag.pod, ag.thread) := a]), a, ag.(stage := Live, pump := Reading));
      Exclusive(rows, e'.agents) && Listed(e')
  {
  }

  lemma EnterReleaseKeepsSafe(rows: Rows, e: Engines, a: AgentId, to: Status)
    requires Exclusive(rows, e.agents) && Listed(e) && a in e.agents && e.agents[a].stage.Live?
    ensures Exclusive(rows, EnterRelease(e, a, to).agents) && Listed(EnterRelease(e, a, to))
  {
  }

  lemma LeaveKeepsSafe(rows: Rows, e: Engines, a: AgentId, ok: bool)
    requires Exclusive(rows, e.agents) && Listed(e) && a in e.agents && Holding(e.agents[a].stage)
    ensures Exclusive(if ok then ReleaseRows(rows, e.agents[a].thread, Idle) else rows, DropAgent(e, a).agents)
    ensures Listed(DropAgent(e, a))
  {
  }

  lemma FreeRowKeepsSafe(rows: Rows, e: Engines, a: AgentId, ok: bool)
    requires Exclusive(rows, e.agents) && Listed(e) && a in e.agents && e.agents[a].stage.Unlisted?
    ensures
      var e' := SetAgent(e, a, e.agents[a].(stage := Freed));
      Exclusive(if ok then ReleaseRows(rows, e.agents[a].thread, e.agents[a].stage.to) else rows, e'.agents) && Listed(e')
  {
  }

  lemma BeatKeepsExclusive(rows: Rows, agents: map<AgentId, Agent>, t: ThreadId, p: Pod, now: int)
    requires Exclusive(rows, agents)
    ensures Exclusive(BeatRows(rows, t, p, now), agents)
  {
  }

  lemma DispatchKeepsSafe(c: Config, s: State, a: AgentId, step: AgentStep)
    requires Safe(c, s) && a in s.eng.agents && NextDispatch(c, s, a, step).Some?
    ensures var s' := NextDispatch(c, s, a, step).value; Exclusive(s'.rows, s'.eng.agents) && Listed(s'.eng)
  {
    hide Exclusive, Listed;
    if step.Claim? {
      ClaimKeepsSafe(c, s, a, step.fate);
    } else if step.Acquire? {
      AcquireKeepsSafe(c, s, a);
    } else {
      StartStepsKeepSafe(c, s, a, step);
    }
  }

  lemma ClaimKeepsSafe(c: Config, s: State, a: AgentId, fate: Fate)
    requires Safe(c, s) && a in s.eng.agents && NextDispatch(c, s, a, Claim(fate)).Some?
    ensures var s' := NextDispatch(c, s, a, Claim(fate)).value; Exclusive(s'.rows, s'.eng.agents) && Listed(s'.eng)
  {
    var e, rows := s.eng, s.rows;
    var ag := e.agents[a];
    if fate.RolledBack? || !Claimable(rows, ag.thread) {
      DropKeepsSafe(rows, e, a);
    } else {
      ClaimKeepsExclusive(s, a);
      if fate.ReplyLost? {
        DropKeepsSafe(ClaimRows(rows, ag.thread, ag.pod, s.now), SetAgent(e, a, ag.(stage := Claimed)), a);
        assert DropAgent(SetAgent(e, a, ag.(stage := Claimed)), a).agents == DropAgent(e, a).agents;
      }
    }
  }

  lemma AcquireKeepsSafe(c: Config, s: State, a: AgentId)
    requires Safe(c, s) && a in s.eng.agents && NextDispatch(c, s, a, Acquire).Some?
    ensures var s' := NextDispatch(c, s, a, Acquire).value; Exclusive(s'.rows, s'.eng.agents) && Listed(s'.eng)
  {
    hide Exclusive, Listed;
    var e, rows := s.eng, s.rows;
    var ag := e.agents[a];
    if c.limiter.Some? && !Limiter.Admits(c.limiter.value, e.pods[ag.pod].cur, ag.tenant) {
      SetKeepsSafe(rows, e, a, ag.(stage := Refused));
    } else if c.limiter.Some? {
      CountersKeepSafe(c, rows, e, a, Limiter.Taken(c.limiter.value, e.pods[ag.pod].cur, ag.tenant), Acquired);
    } else {
      SetKeepsSafe(rows, e, a, ag.(stage := Acquired));
    }
  }

  /** The draining check, and what follows the slot. */
  lemma StartStepsKeepSafe(c: Config, s: State, a: AgentId, step: AgentStep)
    requires Safe(c, s) && a in s.eng.agents && NextDispatch(c, s, a, step).Some? && !step.Claim? && !step.Acquire?
    ensures var s' := NextDispatch(c, s, a, step).value; Exclusive(s'.rows, s'.eng.agents) && Listed(s'.eng)
  {
    hide Exclusive, Listed;
    var e, rows := s.eng, s.rows;
    var ag := e.agents[a];
    match step {
      case CheckDraining =>
        if e.pods[ag.pod].draining { DropKeepsSafe(rows, e, a); } else { SetKeepsSafe(rows, e, a, ag.(stage := Checked)); }
      case LeaveRefused(ok) => LeaveKeepsSafe(rows, e, a, ok);
      case Start(ok) => if ok { StartKeepsSafe(c, rows, e, a); } else { SetKeepsSafe(rows, e, a, ag.(stage := Failed)); }
      case FailFreeSlot => FreeSlotKeepsSafe(c, rows, e, a, FailedFreed);
      case FailLeave(ok) => LeaveKeepsSafe(rows, e, a, ok);
      case _ =>
    }
  }

  lemma ReleaseKeepsSafe(c: Config, s: State, a: AgentId, step: AgentStep)
    requires Safe(c, s) && a in s.eng.agents && NextRelease(c, s, a, step).Some?
    ensures var s' := NextRelease(c, s, a, step).value; Exclusive(s'.rows, s'.eng.agents) && Listed(s'.eng)
  {
    var e, rows := s.eng, s.rows;
    var ag := e.agents[a];
    match step {
      case FreeRow(ok) => FreeRowKeepsSafe(rows, e, a, ok);
      case FreeSlot => FreeSlotKeepsSafe(c, rows, e, a, SlotBack);
      case Close => SetKeepsSafe(rows, e, a, ag.(stage := Closed));
      case Beat => BeatKeepsExclusive(rows, e.agents, ag.thread, ag.pod, s.now);
      case _ =>
    }
  }

  lemma FreeSlotKeepsSafe(c: Config, rows: Rows, e: Engines, a: AgentId, to: Stage)
    requires EnginesOk(c, e) && Exclusive(rows, e.agents) && Listed(e) && a in e.agents
    requires (Holding(to) ==> Holding(e.agents[a].stage)) && !to.Live?
    ensures
      var e' := SetAgent(FreeSlotOf(c, e, e.agents[a]), a, e.agents[a].(stage := to));
      Exclusive(rows, e'.agents) && Listed(e')
  {
    SetKeepsSafe(rows, e, a, e.agents[a].(stage := to));
  }

  lemma PumpKeepsSafe(c: Config, s: State, a: AgentId, step: AgentStep)
    requires Safe(c, s) && a in s.eng.agents && NextPump(s, a, step).Some?
    ensures var s' := NextPump(s, a, step).value; s'.rows == s.rows && Exclusive(s'.rows, s'.eng.agents) && Listed(s'.eng)
  {
    hide Exclusive, Listed;
    var e, e' := s.eng, NextPump(s, a, step).value.eng;
    var ag := e.agents[a];
    if step.PumpRelease? && ag.stage.Live? {
      var m := EnterRelease(e, a, ag.pump.to);
      EnterReleaseKeepsSafe(s.rows, e, a, ag.pump.to);
      SetKeepsSafe(s.rows, m, a, m.agents[a].(pump := Gone));
    } else {
      SetKeepsSafe(s.rows, e, a, e'.agents[a]);
    }
  }

  lemma PodKeepsSafe(c: Config, s: State, step: PodStep)
    requires Safe(c, s) && NextPod(s, step).Some?
    ensures var s' := NextPod(s, step).value; s'.rows == s.rows && Exclusive(s'.rows, s'.eng.agents) && Listed(s'.eng)
  {
  }

  ghost predicate Safe(c: Config, s: State) {
    EnginesOk(c, s.eng) && Exclusive(s.rows, s.eng.agents) && Listed(s.eng)
  }

  /** Exactly the benign steps keep mutual exclusion: every other step breaks it on the spot. */
  lemma StepKeepsExclusionIff(c: Config, s: State, step: Step)
    requires Safe(c, s) && Next(c, s, step).Some?
    ensures
      var s' := Next(c, s, step).value;
      && (Exclusive(s'.rows, s'.eng.agents) <==> Benign(c, s, step))
      && Listed(s'.eng)
  {
    hide Exclusive;
    match step {
      case OnRow(row) => RowStepIff(c, s, row);
      case OnPod(pod) => PodKeepsSafe(c, s, pod);
      case OnAgent(a, act) =>
        if act.Enter? {
          MoveKeepsExclusive(s.rows, s.eng.agents, Next(c, s, step).value.eng.agents, a);
        } else if OfPump(act) {
          PumpKeepsSafe(c, s, a, act);
        } else if OfRelease(act) {
          ReleaseKeepsSafe(c, s, a, act);
        } else {
          DispatchKeepsSafe(c, s, a, act);
        }
      case OnDrain(d, drain) =>
        if drain.Force? {
          var dr := s.eng.drains[d];
          EnterReleaseKeepsSafe(s.rows, s.eng, dr.snapshot[dr.at.k], Interrupted);
        }
      case _ =>
    }
  }

  // ---------------------------------------------------------------- runs

  ghost predicate BenignRun(c: Config, s: State, steps: seq<Step>)
    requires Run(c, s, steps).Some?
    decreases |steps|
  {
    steps == [] || (Benign(c, s, steps[0]) && BenignRun(c, Next(c, s, steps[0]).value, steps[1..]))
  }

  lemma {:induction false} BenignRunKeepsSafe(c: Config, s: State, steps: seq<Step>)
    requires Run(c, s, steps).Some? && BenignRun(c, s, steps) && Safe(c, s)
    ensures Safe(c, Run(c, s, steps).value)
    decreases |steps|
  {
    if steps != [] {
      StepKeepsEngines(c, s, steps[0]);
      StepKeepsExclusionIff(c, s, steps[0]);
      BenignRunKeepsSafe(c, Next(c, s, steps[0]).value, steps[1..]);
    }
  }

  /**
   In every run of any number of pods, with crashes, drains, refused slots and failed starts: if
   no late holder is recovered and no held thread archived or deleted, two agents that both stand
   between claim and release of one thread are the same agent, the row is running under its pod,
   and if it is a live session its pod's live map names it.
   */
  lemma MutualExclusionHolds(c: Config, steps: seq<Step>, a: AgentId, b: AgentId)
    requires Run(c, START, steps).Some? && BenignRun(c, START, steps)
    requires
      var e := Run(c, START, steps).value.eng;
      && a in e.agents && b in e.agents && Holding(e.agents[a].stage) && Holding(e.agents[b].stage)
      && e.agents[a].thread == e.agents[b].thread
    ensures
      var s := Run(c, START, steps).value;
      && a == b && Owns(s.rows, s.eng.agents[a])
      && (s.eng.agents[a].stage.Live? ==>
            var k := (s.eng.agents[a].pod, s.eng.agents[a].thread); k in s.eng.live && s.eng.live[k] == a)
  {
    BenignRunKeepsSafe(c, START, steps);
  }

  // ---------------------------------------------------------------- without the assumption

  function Dispatched(a: AgentId, p: Pod, t: ThreadId): seq<Step> {
    [OnAgent(a, Enter(p, t)), OnAgent(a, CheckDraining), OnAgent(a, Claim(Through)), OnAgent(a, Acquire), OnAgent(a, Start(true))]
  }

  function TwoPods(): seq<Step> {
    [OnPod(Boot(1)), OnPod(Boot(2)), OnRow(Create(7, 0, None))]
  }

  function LatePrefix(c: Config): seq<Step> {
    TwoPods() + (Dispatched(1, 1, 7) + [Tick(StaleAfter(c) + 1)])
  }

  /** Two pods, one thread: pod 1's session misses its beats, recovery frees the row, pod 2 claims. */
  function LateRun(c: Config): seq<Step> {
    LatePrefix(c) + ([OnRow(Recover(0))] + Dispatched(2, 2, 7))
  }

  /** A free row, a fresh agent, no session, no drain and a slot to spare: dispatch ends in a live session. */
  lemma DispatchedRuns(c: Config, s: State, a: AgentId, p: Pod, t: ThreadId)
    requires a !in s.eng.agents && p in s.eng.pods && !s.eng.pods[p].draining
    requires Claimable(s.rows, t) && (p, t) !in s.eng.live
    requires c.limiter.Some? ==> Limiter.Admits(c.limiter.value, s.eng.pods[p].cur, s.rows[t].tenant)
    ensures Run(c, s, Dispatched(a, p, t)) == Some(AfterDispatch(c, s, a, p, t))
  {
    var ag := Agent(p, t, s.rows[t].tenant, Entered, Absent, 0);
    var s1 := s.(eng := SetAgent(s.eng, a, ag));
    var s2 := s1.(eng := SetAgent(s1.eng, a, ag.(stage := Checked)));
    var s3 := s2.(rows := ClaimRows(s.rows, t, p, s.now), eng := SetAgent(s2.eng, a, ag.(stage := Claimed)));
    var s4 := s3.(eng := SetAgent(SlotTaken(c, s3.eng, p, ag.tenant), a, ag.(stage := Acquired)));
    var s5 := s4.(eng := SetAgent(s4.eng.(live := s4.eng.live[(p, t) := a]), a, ag.(stage := Live, pump := Reading)));
    AfterDispatchIs(c, s, a, p, t, s5);
    EnterRuns(c, s, a, p, t, s1, s2, s3);
    AcquireRuns(c, s3, a);
    StartRuns(c, s4, a, s5);
    RunOf5(c, s, OnAgent(a, Enter(p, t)), OnAgent(a, CheckDraining), OnAgent(a, Claim(Through)), OnAgent(a, Acquire), OnAgent(a, Start(true)),
           s1, s2, s3, s4, s5);
  }

  lemma EnterRuns(c: Config, s: State, a: AgentId, p: Pod, t: ThreadId, s1: State, s2: State, s3: State)
    requires a !in s.eng.agents && p in s.eng.pods && !s.eng.pods[p].draining
    requires Claimable(s.rows, t) && (p, t) !in s.eng.live
    requires
      var ag := Agent(p, t, s.rows[t].tenant, Entered, Absent, 0);
      && s1 == s.(eng := SetAgent(s.eng, a, ag))
      && s2 == s1.(eng := SetAgent(s1.eng, a, ag.(stage := Checked)))
      && s3 == s2.(rows := ClaimRows(s.rows, t, p, s.now), eng := SetAgent(s2.eng, a, ag.(stage := Claimed)))
    ensures Next(c, s, OnAgent(a, Enter(p, t))) == Some(s1)
    ensures Next(c, s1, OnAgent(a, CheckDraining)) == Some(s2)
    ensures Next(c, s2, OnAgent(a, Claim(Through))) == Some(s3)
  {
  }

  lemma StartRuns(c: Config, s: State, a: AgentId, s': State)
    requires a in s.eng.agents && s.eng.agents[a].stage.Acquired? && s.eng.agents[a].pod in s.eng.pods
    requires
      var ag := s.eng.agents[a];
      s' == s.(eng := SetAgent(s.eng.(live := s.eng.live[(ag.pod, ag.thread) := a]), a, ag.(stage := Live, pump := Reading)))
    ensures Next(c, s, OnAgent(a, Start(true))) == Some(s')
  {
  }

  /** The five updates of a dispatch, collapsed. */
  lemma AfterDispatchIs(c: Config, s: State, a: AgentId, p: Pod, t: ThreadId, s5: State)
    requires p in s.eng.pods && t in s.rows
    requires s5.now == s.now && s5.inbox == s.inbox && s5.rows == ClaimRows(s.rows, t, p, s.now)
    requires
      var ag := Agent(p, t, s.rows[t].tenant, Entered, Absent, 0);
      && s5.eng.drains == s.eng.drains && s5.eng.live == s.eng.live[(p, t) := a]
      && s5.eng.pods == SlotTaken(c, s.eng, p, ag.tenant).pods
      && s5.eng.agents == s.eng.agents[a := ag][a := ag.(stage := Checked)][a := ag.(stage := Claimed)]
                          [a := ag.(stage := Acquired)][a := ag.(stage := Live, pump := Reading)]
    ensures s5 == AfterDispatch(c, s, a, p, t)
  {
  }

  ghost function AfterDispatch(c: Config, s: State, a: AgentId, p: Pod, t: ThreadId): State
    requires p in s.eng.pods && t in s.rows
  {
    s.(rows := ClaimRows(s.rows, t, p, s.now),
       eng := SetAgent(SlotTaken(c, s.eng, p, s.rows[t].tenant).(live := s.eng.live[(p, t) := a]), a,
                       Agent(p, t, s.rows[t].tenant, Live, Reading, 0)))
  }

  /**
   The condition cannot be weakened: from any safe state with a late holder, one recovery and one
   dispatch on any other willing pod put two holders on the thread.
   */
  lemma LateHolderIsDoubled(c: Config, s: State, tn: Tenant, a: AgentId, b: AgentId, q: Pod)
    requires Safe(c, s) && LateHolder(c, s, tn, a) && b !in s.eng.agents
    requires q in s.eng.pods && !s.eng.pods[q].draining && (q, s.eng.agents[a].thread) !in s.eng.live
    requires c.limiter.Some? ==> Limiter.Admits(c.limiter.value, s.eng.pods[q].cur, s.rows[s.eng.agents[a].thread].tenant)
    ensures
      var t := s.eng.agents[a].thread;
      var steps := [OnRow(Recover(tn))] + Dispatched(b, q, t);
      && Run(c, s, steps).Some?
      && var s' := Run(c, s, steps).value;
         && a in s'.eng.agents && b in s'.eng.agents && a != b
         && s'.eng.agents[a] == s.eng.agents[a] && Holding(s'.eng.agents[a].stage)
         && s'.eng.agents[b].thread == t && s'.eng.agents[b].stage.Live?
  {
    var t := s.eng.agents[a].thread;
    var s1 := s.(rows := RecoverRows(s.rows, tn, s.now, StaleAfter(c)));
    DispatchedRuns(c, s1, b, q, t);
    RunCons(c, s, s1, OnRow(Recover(tn)), Dispatched(b, q, t));
  }

  /** Nor can archiving a held thread be let in: unarchived, it is dispatched a second time. */
  lemma ArchivedHolderIsDoubled(c: Config, s: State, a: AgentId, b: AgentId, q: Pod)
    requires Safe(c, s) && a in s.eng.agents && Holding(s.eng.agents[a].stage) && b !in s.eng.agents
    requires q in s.eng.pods && !s.eng.pods[q].draining && (q, s.eng.agents[a].thread) !in s.eng.live
    requires c.limiter.Some? ==> Limiter.Admits(c.limiter.value, s.eng.pods[q].cur, s.rows[s.eng.agents[a].thread].tenant)
    ensures
      var t := s.eng.agents[a].thread;
      var steps := [OnRow(Archive(t))] + ([OnRow(Unarchive(t))] + Dispatched(b, q, t));
      && Run(c, s, steps).Some?
      && var s' := Run(c, s, steps).value;
         && a in s'.eng.agents && b in s'.eng.agents && a != b
         && s'.eng.agents[a] == s.eng.agents[a] && Holding(s'.eng.agents[a].stage)
         && s'.eng.agents[b].thread == t && s'.eng.agents[b].stage.Live?
  {
    var t := s.eng.agents[a].thread;
    assert Owns(s.rows, s.eng.agents[a]);
    var s1 := s.(rows := ArchiveRows(s.rows, t));
    var s2 := s1.(rows := UnarchiveRows(s1.rows, t));
    DispatchedRuns(c, s2, b, q, t);
    RunCons(c, s1, s2, OnRow(Unarchive(t)), Dispatched(b, q, t));
    RunCons(c, s, s1, OnRow(Archive(t)), [OnRow(Unarchive(t))] + Dispatched(b, q, t));
  }

  /** Two pods and an idle thread. */
  ghost function TwoPodsState(): State {
    var e := Engines(map[1 := PodState(false, map[]), 2 := PodState(false, map[])], map[], map[], map[]);
    State(0, map[7 := Row(0, None, Idle, None, None)], e, START.inbox)
  }

  lemma TwoPodsRun(c: Config)
    ensures Run(c, START, TwoPods()) == Some(TwoPodsState())
  {
    var s1 := START.(eng := START.eng.(pods := START.eng.pods[1 := PodState(false, map[])]));
    var s2 := s1.(eng := s1.eng.(pods := s1.eng.pods[2 := PodState(false, map[])]));
    assert s2.eng.pods == TwoPodsState().eng.pods && s2.rows[7 := Row(0, None, Idle, None, None)] == TwoPodsState().rows;
    RunCons(c, s2, TwoPodsState(), OnRow(Create(7, 0, None)), []);
    RunCons(c, s1, s2, OnPod(Boot(2)), [OnRow(Create(7, 0, None))]);
    RunCons(c, START, s1, OnPod(Boot(1)), [OnPod(Boot(2)), OnRow(Create(7, 0, None))]);
    assert TwoPods() == [OnPod(Boot(1))] + [OnPod(Boot(2)), OnRow(Create(7, 0, None))];
  }

  /** The first part of the late run: pod 1 has a live session of thread 7 and its row is stale. */
  ghost function LateState(c: Config): State {
    AfterDispatch(c, TwoPodsState(), 1, 1, 7).(now := StaleAfter(c) + 1)
  }

  lemma LateStateIsReached(c: Config)
    ensures Run(c, START, LatePrefix(c)) == Some(LateState(c))
  {
    hide Run, AfterDispatch, Dispatched;
    TwoPodsRun(c);
    DispatchThenTick(c, TwoPodsState(), 1, 1, 7, StaleAfter(c) + 1);
    RunConcat(c, START, TwoPods(), Dispatched(1, 1, 7) + [Tick(StaleAfter(c) + 1)]);
  }

  lemma DispatchThenTick(c: Config, s: State, a: AgentId, p: Pod, t: ThreadId, elapsed: nat)
    requires a !in s.eng.agents && p in s.eng.pods && !s.eng.pods[p].draining
    requires Claimable(s.rows, t) && (p, t) !in s.eng.live
    requires c.limiter.Some? ==> Limiter.Admits(c.limiter.value, s.eng.pods[p].cur, s.rows[t].tenant)
    ensures Run(c, s, Dispatched(a, p, t) + [Tick(elapsed)]) == Some(AfterDispatch(c, s, a, p, t).(now := s.now + elapsed))
  {
    var s1 := AfterDispatch(c, s, a, p, t);
    DispatchedRuns(c, s, a, p, t);
    RunCons(c, s1, s1.(now := s.now + elapsed), Tick(elapsed), []);
    assert [Tick(elapsed)] + [] == [Tick(elapsed)];
    RunConcat(c, s, Dispatched(a, p, t), [Tick(elapsed)]);
  }

  /** Such a state is reachable, so without the assumption the code does end with two live sessions. */
  lemma LateRecoveryMakesTwoHolders(c: Config)
    ensures Run(c, START, LateRun(c)).Some?
    ensures
      var e := Run(c, START, LateRun(c)).value.eng;
      && 1 in e.agents && 2 in e.agents && e.agents[1].stage.Live? && e.agents[2].stage.Live?
      && e.agents[1].thread == e.agents[2].thread && e.agents[1].pod != e.agents[2].pod
    ensures !BenignRun(c, START, LateRun(c))
  {
    LateStateIsReached(c);
    var s := LateState(c);
    var s1 := s.(rows := RecoverRows(s.rows, 0, s.now, StaleAfter(c)));
    DispatchedRuns(c, s1, 2, 2, 7);
    RunCons(c, s, s1, OnRow(Recover(0)), Dispatched(2, 2, 7));
    RunConcat(c, START, LatePrefix(c), [OnRow(Recover(0))] + Dispatched(2, 2, 7));
    if BenignRun(c, START, LateRun(c)) {
      MutualExclusionHolds(c, LateRun(c), 1, 2);
    }
  }
}
