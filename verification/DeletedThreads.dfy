/**
 Mutual exclusion when held threads may be deleted. A deleted row no longer runs under its holder, but it
 can never be claimed again either: there is still at most one holder per thread.
 */
module DeletedThreads {
  import opened Tables
  import opened Turns
  import opened MutualExclusion

  /** Every thread has at most one holder, and its row runs under that holder's pod or is deleted. */
  ghost predicate OneHolderOk(rows: Rows, agents: map<AgentId, Agent>) {
    && OneHolder(agents)
    && forall a | a in agents && Holding(agents[a].stage) :: Owns(rows, agents[a]) || Removed(rows, agents[a].thread)
  }

  /** Anything but recovering a late holder's tenant, or archiving a held thread that is not deleted. */
  ghost predicate Mild(c: Config, s: State, step: Step) {
    if !step.OnRow? then true
    else match step.row
      case Recover(tn) => forall a | a in s.eng.agents :: !LateHolder(c, s, tn, a)
      case Archive(t) => Removed(s.rows, t) || !Held(s.eng.agents, t)
      case _ => true
  }

  lemma RowsKeepOneHolderIff(c: Config, s: State, step: RowStep)
    requires OneHolderOk(s.rows, s.eng.agents) && NextRow(c, s, step).Some?
    ensures OneHolderOk(NextRow(c, s, step).value.rows, s.eng.agents) <==> Mild(c, s, OnRow(step))
  {
  }

  /** One agent leaves or moves; it does not become a holder. */
  lemma MoveKeepsOneHolder(rows: Rows, agents: map<AgentId, Agent>, agents': map<AgentId, Agent>, a: AgentId)
    requires OneHolderOk(rows, agents) && agents'.Keys <= agents.Keys + {a}
    requires forall b | b in agents' && b != a :: agents'[b] == agents[b]
    requires a in agents' && Holding(agents'[a].stage) ==>
      a in agents && Holding(agents[a].stage) && agents'[a].thread == agents[a].thread && agents'[a].pod == agents[a].pod
    ensures OneHolderOk(rows, agents')
  {
  }

  lemma ClaimKeepsOneHolder(s: State, a: AgentId)
    requires OneHolderOk(s.rows, s.eng.agents) && a in s.eng.agents && Claimable(s.rows, s.eng.agents[a].thread)
    ensures
      var ag := s.eng.agents[a];
      OneHolderOk(ClaimRows(s.rows, ag.thread, ag.pod, s.now), s.eng.agents[a := ag.(stage := Claimed)])
  {
  }

  lemma LeaveKeepsOneHolder(rows: Rows, e: Engines, a: AgentId, ok: bool)
    requires OneHolderOk(rows, e.agents) && a in e.agents && Holding(e.agents[a].stage)
    ensures OneHolderOk(if ok then ReleaseRows(rows, e.agents[a].thread, Idle) else rows, DropAgent(e, a).agents)
  {
  }

  lemma DispatchKeepsOneHolder(c: Config, s: State, a: AgentId, step: AgentStep)
    requires OneHolderOk(s.rows, s.eng.agents) && a in s.eng.agents && s.eng.agents[a].pod in s.eng.pods
    requires NextDispatch(c, s, a, step).Some?
    ensures var s' := NextDispatch(c, s, a, step).value; OneHolderOk(s'.rows, s'.eng.agents)
  {
    var s' := NextDispatch(c, s, a, step).value;
    if step.LeaveRefused? || step.FailLeave? {
      LeaveKeepsOneHolder(s.rows, s.eng, a, step.ok);
    } else if step.Claim? && !step.fate.RolledBack? && Claimable(s.rows, s.eng.agents[a].thread) {
      ClaimKeepsOneHolder(s, a);
      MoveKeepsOneHolder(s'.rows, s.eng.agents[a := s.eng.agents[a].(stage := Claimed)], s'.eng.agents, a);
    } else {
      MoveKeepsOneHolder(s.rows, s.eng.agents, s'.eng.agents, a);
    }
  }

  lemma ReleaseKeepsOneHolder(c: Config, s: State, a: AgentId, step: AgentStep)
    requires OneHolderOk(s.rows, s.eng.agents) && a in s.eng.agents && s.eng.agents[a].pod in s.eng.pods
    requires NextRelease(c, s, a, step).Some?
    ensures var s' := NextRelease(c, s, a, step).value; OneHolderOk(s'.rows, s'.eng.agents)
  {
  }

  lemma PumpKeepsOneHolder(s: State, a: AgentId, step: AgentStep)
    requires OneHolderOk(s.rows, s.eng.agents) && a in s.eng.agents && s.eng.agents[a].pod in s.eng.pods
    requires NextPump(s, a, step).Some?
    ensures var s' := NextPump(s, a, step).value; OneHolderOk(s'.rows, s'.eng.agents)
  {
    MoveKeepsOneHolder(s.rows, s.eng.agents, NextPump(s, a, step).value.eng.agents, a);
  }

  lemma DrainKeepsOneHolder(s: State, d: DrainId, step: DrainStep)
    requires OneHolderOk(s.rows, s.eng.agents) && NextDrain(s, d, step).Some?
    ensures var s' := NextDrain(s, d, step).value; OneHolderOk(s'.rows, s'.eng.agents)
  {
  }

  /** Exactly the mild steps keep it. */
  lemma StepKeepsOneHolderIff(c: Config, s: State, step: Step)
    requires OneHolderOk(s.rows, s.eng.agents) && Next(c, s, step).Some?
    ensures var s' := Next(c, s, step).value; OneHolderOk(s'.rows, s'.eng.agents) <==> Mild(c, s, step)
  {
    match step {
      case OnRow(row) => RowsKeepOneHolderIff(c, s, row);
      case OnAgent(a, act) =>
        if !act.Enter? {
          if OfPump(act) {
            PumpKeepsOneHolder(s, a, act);
          } else if OfRelease(act) {
            ReleaseKeepsOneHolder(c, s, a, act);
          } else {
            DispatchKeepsOneHolder(c, s, a, act);
          }
        }
      case OnDrain(d, drain) => DrainKeepsOneHolder(s, d, drain);
      case _ =>
    }
  }

  ghost predicate MildRun(c: Config, s: State, steps: seq<Step>)
    requires Run(c, s, steps).Some?
    decreases |steps|
  {
    steps == [] || (Mild(c, s, steps[0]) && MildRun(c, Next(c, s, steps[0]).value, steps[1..]))
  }

  lemma {:induction false} MildRunKeepsOneHolder(c: Config, s: State, steps: seq<Step>)
    requires Run(c, s, steps).Some? && MildRun(c, s, steps) && OneHolderOk(s.rows, s.eng.agents)
    ensures var s' := Run(c, s, steps).value; OneHolderOk(s'.rows, s'.eng.agents)
    decreases |steps|
  {
    if steps != [] {
      StepKeepsOneHolderIff(c, s, steps[0]);
      MildRunKeepsOneHolder(c, Next(c, s, steps[0]).value, steps[1..]);
    }
  }

  /**
   In every run that recovers no late holder and archives no held thread, whatever is deleted: two agents
   between claim and release of one thread are the same agent, and unless the thread is deleted its row is
   running under that agent's pod.
   */
  lemma OneHolderThroughDeletion(c: Config, steps: seq<Step>, a: AgentId, b: AgentId)
    requires Run(c, START, steps).Some? && MildRun(c, START, steps)
    requires
      var e := Run(c, START, steps).value.eng;
      && a in e.agents && b in e.agents && Holding(e.agents[a].stage) && Holding(e.agents[b].stage)
      && e.agents[a].thread == e.agents[b].thread
    ensures
      var s := Run(c, START, steps).value;
      a == b && (Owns(s.rows, s.eng.agents[a]) || Removed(s.rows, s.eng.agents[a].thread))
  {
    MildRunKeepsOneHolder(c, START, steps);
  }
}
