/** Slots and drains over whole runs. None of these theorems needs the assumption of mutual exclusion. */
module Draining {
  import opened Tables
  import opened Turns
  import opened TurnInvariants
  import Limiter

  lemma {:induction false} RunKeepsEngines(c: Config, s: State, steps: seq<Step>)
    requires Run(c, s, steps).Some? && EnginesOk(c, s.eng)
    ensures EnginesOk(c, Run(c, s, steps).value.eng)
    decreases |steps|
  {
    if steps != [] {
      StepKeepsEngines(c, s, steps[0]);
      RunKeepsEngines(c, Next(c, s, steps[0]).value, steps[1..]);
    }
  }

  /**
   With a positive limit, in every reachable state each tenant's counter on a pod is the number of its
   dispatches between acquire and start plus its sessions that still have their slot, within the limit.
   */
  lemma SlotsAreConserved(c: Config, steps: seq<Step>, p: Pod, tn: Tenant)
    requires Run(c, START, steps).Some? && p in Run(c, START, steps).value.eng.pods && Counting(c)
    ensures
      var e := Run(c, START, steps).value.eng;
      && Limiter.Count(e.pods[p].cur, tn)
         == |set a | a in e.agents && e.agents[a].pod == p && e.agents[a].tenant == tn
                     && (e.agents[a].stage.Acquired? || e.agents[a].stage.Failed? || e.agents[a].stage.Live?
                         || e.agents[a].stage.Unlisted? || e.agents[a].stage.Freed?)|
      && Limiter.Count(e.pods[p].cur, tn) <= c.limiter.value
  {
    RunKeepsEngines(c, START, steps);
    var e := Run(c, START, steps).value.eng;
    assert SlotExact(c, e, p, tn);
    assert SlotHolders(e.agents, p, tn)
        == set a | a in e.agents && e.agents[a].pod == p && e.agents[a].tenant == tn
                   && (e.agents[a].stage.Acquired? || e.agents[a].stage.Failed? || e.agents[a].stage.Live?
                       || e.agents[a].stage.Unlisted? || e.agents[a].stage.Freed?);
  }

  /** In every run a step that returns a slot finds a positive counter: the zero guard absorbs nothing. */
  lemma NoReleaseIsAbsorbed(c: Config, steps: seq<Step>, a: AgentId, act: AgentStep)
    requires Run(c, START, steps).Some? && Counting(c) && (act.FreeSlot? || act.FailFreeSlot?)
    requires Next(c, Run(c, START, steps).value, OnAgent(a, act)).Some?
    ensures
      var s := Run(c, START, steps).value;
      var s' := Next(c, s, OnAgent(a, act)).value;
      var ag := s.eng.agents[a];
      Limiter.Count(s'.eng.pods[ag.pod].cur, ag.tenant) == Limiter.Count(s.eng.pods[ag.pod].cur, ag.tenant) - 1
  {
    RunKeepsEngines(c, START, steps);
    ReturnedSlotWasCounted(c, Run(c, START, steps).value.eng, a);
  }

  // ---------------------------------------------------------------- drain

  /** Drain sets the flag and takes every session the pod's live map names, each once, and no other. */
  lemma SnapshotIsTheLiveMap(c: Config, s: State, d: DrainId, p: Pod, order: seq<AgentId>)
    requires Next(c, s, OnDrain(d, Begin(p, order))).Some?
    ensures
      var e := Next(c, s, OnDrain(d, Begin(p, order))).value.eng;
      && e.pods[p].draining && d in e.drains && e.drains[d] == Drain(p, order, Waiting(0))
      && (forall a :: a in order <==> exists k :: k in s.eng.live && k.0 == p && s.eng.live[k] == a)
      && (forall i, j | 0 <= i < |order| && 0 <= j < |order| && order[i] == order[j] :: i == j)
  {
    forall a | a in order ensures exists k :: k in s.eng.live && k.0 == p && s.eng.live[k] == a {
      var i :| 0 <= i < |order| && order[i] == a;
    }
  }

  /** It can be cancelled, and its deadline counts, exactly while it waits for a session of its snapshot. */
  lemma CancelledWhileWaiting(c: Config, s: State, d: DrainId, step: DrainStep)
    requires step == Cancel || step == Deadline
    ensures Next(c, s, OnDrain(d, step)).Some? <==>
      && d in s.eng.drains && s.eng.drains[d].at.Waiting? && s.eng.drains[d].at.i < |s.eng.drains[d].snapshot|
    ensures Next(c, s, OnDrain(d, step)).Some? ==>
      var e := Next(c, s, OnDrain(d, step)).value.eng;
      && e.agents == s.eng.agents
      && e.drains[d].at == if step == Cancel then Cancelled else Forcing(s.eng.drains[d].at.i, 0)
  {
  }

  /**
   Whenever Drain has returned without its context cancelled, every session of its snapshot is closed
   and entered its release body exactly once, whoever (pump or drain) got there first.
   */
  lemma DrainCompletes(c: Config, steps: seq<Step>, d: DrainId)
    requires Run(c, START, steps).Some?
    requires var e := Run(c, START, steps).value.eng; d in e.drains && e.drains[d].at.Returned?
    ensures
      var e := Run(c, START, steps).value.eng;
      var dr := e.drains[d];
      forall i | 0 <= i < |dr.snapshot| ::
        dr.snapshot[i] in e.agents && e.agents[dr.snapshot[i]].stage.Closed? && e.agents[dr.snapshot[i]].bodies == 1
  {
    RunKeepsEngines(c, START, steps);
    var e := Run(c, START, steps).value.eng;
    var dr := e.drains[d];
    assert DrainOk(e, dr);
    forall i | 0 <= i < |dr.snapshot|
      ensures dr.snapshot[i] in e.agents && e.agents[dr.snapshot[i]].stage.Closed? && e.agents[dr.snapshot[i]].bodies == 1
    {
      assert ClosedAt(e, dr.snapshot, i) && AgentOk(e.agents[dr.snapshot[i]]);
    }
  }

  /** Not yet past the draining check on pod `p`. */
  predicate NotPast(e: Engines, p: Pod, a: AgentId) {
    a in e.agents && e.agents[a].pod == p ==> e.agents[a].stage.Entered?
  }

  predicate IsDraining(e: Engines, p: Pod) {
    p in e.pods && e.pods[p].draining
  }

  lemma DispatchStaysBack(c: Config, s: State, b: AgentId, act: AgentStep, p: Pod, a: AgentId)
    requires IsDraining(s.eng, p) && NotPast(s.eng, p, a)
    requires b in s.eng.agents && s.eng.agents[b].pod in s.eng.pods && NextDispatch(c, s, b, act).Some?
    ensures var e := NextDispatch(c, s, b, act).value.eng; IsDraining(e, p) && NotPast(e, p, a)
  {
  }

  lemma ReleaseStaysBack(c: Config, s: State, b: AgentId, act: AgentStep, p: Pod, a: AgentId)
    requires IsDraining(s.eng, p) && NotPast(s.eng, p, a)
    requires b in s.eng.agents && s.eng.agents[b].pod in s.eng.pods && NextRelease(c, s, b, act).Some?
    ensures var e := NextRelease(c, s, b, act).value.eng; IsDraining(e, p) && NotPast(e, p, a)
  {
  }

  lemma PumpStaysBack(c: Config, s: State, b: AgentId, act: AgentStep, p: Pod, a: AgentId)
    requires AgentsOk(s.eng) && IsDraining(s.eng, p) && NotPast(s.eng, p, a)
    requires b in s.eng.agents && NextPump(s, b, act).Some?
    ensures var e := NextPump(s, b, act).value.eng; IsDraining(e, p) && NotPast(e, p, a)
  {
  }

  lemma StepStaysBack(c: Config, s: State, step: Step, p: Pod, a: AgentId)
    requires AgentsOk(s.eng) && IsDraining(s.eng, p) && NotPast(s.eng, p, a)
    requires Next(c, s, step).Some? && step != OnPod(Crash(p))
    ensures var e := Next(c, s, step).value.eng; IsDraining(e, p) && NotPast(e, p, a)
  {
    if step.OnAgent? && !step.act.Enter? {
      if OfPump(step.act) {
        PumpStaysBack(c, s, step.a, step.act, p, a);
      } else if OfRelease(step.act) {
        ReleaseStaysBack(c, s, step.a, step.act, p, a);
      } else {
        DispatchStaysBack(c, s, step.a, step.act, p, a);
      }
    }
  }

  /**
   From the moment a pod drains until it dies, a dispatch that had not passed the draining check
   (or had not even started) never claims: it stops at the check, and so holds neither row nor slot.
   */
  lemma {:induction false} LateDispatchNeverClaims(c: Config, s: State, steps: seq<Step>, p: Pod, a: AgentId)
    requires Run(c, s, steps).Some? && EnginesOk(c, s.eng) && OnPod(Crash(p)) !in steps
    requires IsDraining(s.eng, p) && NotPast(s.eng, p, a)
    ensures IsDraining(Run(c, s, steps).value.eng, p) && NotPast(Run(c, s, steps).value.eng, p, a)
    decreases |steps|
  {
    if steps != [] {
      StepKeepsEngines(c, s, steps[0]);
      StepStaysBack(c, s, steps[0], p, a);
      LateDispatchNeverClaims(c, Next(c, s, steps[0]).value, steps[1..], p, a);
    }
  }
}
