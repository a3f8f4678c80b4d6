/**
 From a claim to its end: which steps begin and end a holding and a slot, and in which status a row is given
 back. A session that Drain forces out leaves its row interrupted, and so does one whose turn was aborted on
 a draining pod; every other end leaves it idle.
 */
module Handback {
  import opened Options
  import opened Tables
  import opened Turns
  import opened TurnInvariants
  import opened Draining
  import Limiter

  // ---------------------------------------------------------------- what begins and ends a holding

  predicate Holds(e: Engines, a: AgentId) { a in e.agents && Holding(e.agents[a].stage) }

  predicate Slotted(e: Engines, a: AgentId) { a in e.agents && HasSlot(e.agents[a].stage) }

  /** A holding begins with a claim that finds the row idle or interrupted, and the row then runs under the pod. */
  lemma ClaimBegins(c: Config, s: State, a: AgentId, act: AgentStep)
    requires Next(c, s, OnAgent(a, act)).Some? && !Holds(s.eng, a)
    ensures
      var s' := Next(c, s, OnAgent(a, act)).value;
      Holds(s'.eng, a) <==>
        && act == Claim(Through)
        && var t := s.eng.agents[a].thread; t in s.rows && s.rows[t].status in {Idle, Interrupted}
    ensures
      var s' := Next(c, s, OnAgent(a, act)).value;
      Holds(s'.eng, a) ==>
        var ag, row := s.eng.agents[a], s.rows[s.eng.agents[a].thread];
        s'.rows == s.rows[ag.thread := Row(row.tenant, row.parent, Running, Some(ag.pod), Some(s.now))]
  {
  }

  /** It ends where the row is given back, whether that goes through or not, and nowhere else. */
  lemma HoldingEnds(c: Config, s: State, a: AgentId, act: AgentStep)
    requires Next(c, s, OnAgent(a, act)).Some? && Holds(s.eng, a)
    ensures !Holds(Next(c, s, OnAgent(a, act)).value.eng, a) <==> act.LeaveRefused? || act.FailLeave? || act.FreeRow?
  {
  }

  /** A slot is taken by an acquire the limit admits, and given back by the two steps that say so. */
  lemma SlotSpan(c: Config, s: State, a: AgentId, act: AgentStep)
    requires Next(c, s, OnAgent(a, act)).Some?
    ensures
      var e' := Next(c, s, OnAgent(a, act)).value.eng;
      && (!Slotted(s.eng, a) ==>
            (Slotted(e', a) <==>
              && act == Acquire
              && var ag := s.eng.agents[a];
                 var cur := s.eng.pods[ag.pod].cur;
                 c.limiter == None || c.limiter.value <= 0
                 || (if ag.tenant in cur then cur[ag.tenant] else 0) < c.limiter.value))
      && (Slotted(s.eng, a) ==> (!Slotted(e', a) <==> act.FailFreeSlot? || act.FreeSlot?))
  {
  }

  /** A session beats until it is closed, and the beat reaches its row only while that runs under its pod. */
  lemma BeatsUntilClosed(c: Config, s: State, a: AgentId)
    requires a in s.eng.agents && s.eng.agents[a].pod in s.eng.pods
    ensures Next(c, s, OnAgent(a, Beat)).Some? <==> IsSession(s.eng.agents[a].stage) && !s.eng.agents[a].stage.Closed?
    ensures Next(c, s, OnAgent(a, Beat)).Some? ==>
      var ag, s' := s.eng.agents[a], Next(c, s, OnAgent(a, Beat)).value;
      && s'.eng == s.eng && s'.rows.Keys == s.rows.Keys
      && forall t | t in s.rows ::
           var row := s.rows[t];
           s'.rows[t] == if t == ag.thread && row.status == Running && row.pod == Some(ag.pod)
                         then Row(row.tenant, row.parent, Running, row.pod, Some(s.now)) else row
  {
  }

  /** A crash takes the pod with its sessions, entries, drains and feeds; other pods and the tables keep all they had. */
  lemma CrashTakesItsOwn(c: Config, s: State, p: Pod)
    ensures Next(c, s, OnPod(Crash(p))).Some? <==> p in s.eng.pods
    ensures p in s.eng.pods ==>
      var s' := Next(c, s, OnPod(Crash(p))).value;
      && s'.rows == s.rows && s'.inbox.queue == s.inbox.queue && s'.eng.pods == s.eng.pods - {p}
      && (forall a :: a in s'.eng.agents <==> a in s.eng.agents && s.eng.agents[a].pod != p)
      && (forall a | a in s'.eng.agents :: s'.eng.agents[a] == s.eng.agents[a])
      && (forall k :: k in s'.eng.live <==> k in s.eng.live && k.0 != p)
      && (forall k | k in s'.eng.live :: s'.eng.live[k] == s.eng.live[k])
      && (forall d :: d in s'.eng.drains <==> d in s.eng.drains && s.eng.drains[d].pod != p)
      && (forall f :: f in s'.inbox.feeds <==> f in s.inbox.feeds && s.inbox.feeds[f].pod != p)
      && (forall f | f in s'.inbox.feeds :: s'.inbox.feeds[f] == s.inbox.feeds[f])
  {
  }

  // ---------------------------------------------------------------- in which status a row ends

  /** The rows after `t` was given back with status `to`: a running row ends with it, without pod and beat. */
  ghost predicate GivenBack(rows: Rows, rows': Rows, t: ThreadId, to: Status) {
    && rows'.Keys == rows.Keys
    && forall u | u in rows ::
         rows'[u] == if u == t && rows[u].status == Running then Row(rows[u].tenant, rows[u].parent, to, None, None) else rows[u]
  }

  /** A dispatch refused a slot, and one whose session did not start, leave the row idle. */
  lemma RefusedRowEndsIdle(c: Config, s: State, a: AgentId, act: AgentStep)
    requires Next(c, s, OnAgent(a, act)).Some? && act in {LeaveRefused(true), FailLeave(true)}
    ensures GivenBack(s.rows, Next(c, s, OnAgent(a, act)).value.rows, s.eng.agents[a].thread, Idle)
  {
  }

  /** On its way out to one status: the pump has decided, or the release body has begun. */
  predicate Going(e: Engines, a: AgentId, to: Status) {
    a in e.agents && ((e.agents[a].stage.Live? && e.agents[a].pump == Leaving(to)) || e.agents[a].stage == Unlisted(to))
  }

  /** Drain forces the session out. */
  predicate Forces(e: Engines, step: Step, a: AgentId) {
    && step.OnDrain? && step.drain.Force? && step.d in e.drains && e.drains[step.d].at.Forcing?
    && var dr := e.drains[step.d]; dr.at.k < |dr.snapshot| && dr.snapshot[dr.at.k] == a
  }

  /** Neither is the row given back nor does the pod crash. */
  predicate Spares(step: Step, a: AgentId, p: Pod) {
    step != OnAgent(a, FreeRow(true)) && step != OnAgent(a, FreeRow(false)) && step != OnPod(Crash(p))
  }

  ghost predicate Same(e: Engines, e': Engines, a: AgentId)
    requires a in e.agents
  {
    a in e'.agents && e'.agents[a].pod == e.agents[a].pod && e'.agents[a].thread == e.agents[a].thread
  }

  lemma StepKeepsGoing(c: Config, s: State, step: Step, a: AgentId, to: Status)
    requires Going(s.eng, a, to) && Next(c, s, step).Some?
    requires Spares(step, a, s.eng.agents[a].pod) && (s.eng.agents[a].stage.Live? ==> !Forces(s.eng, step, a))
    ensures var e' := Next(c, s, step).value.eng; Going(e', a, to) && Same(s.eng, e', a)
    ensures s.eng.agents[a].stage.Unlisted? ==> Next(c, s, step).value.eng.agents[a].stage.Unlisted?
  {
    if step.OnAgent? && !step.act.Enter? {
      if OfPump(step.act) {
        PumpKeepsGoing(s, step.a, step.act, a, to);
      } else if OfRelease(step.act) {
        ReleaseKeepsGoing(c, s, step.a, step.act, a, to);
      } else {
        DispatchKeepsGoing(c, s, step.a, step.act, a, to);
      }
    }
  }

  lemma PumpKeepsGoing(s: State, b: AgentId, act: AgentStep, a: AgentId, to: Status)
    requires Going(s.eng, a, to) && b in s.eng.agents && s.eng.agents[b].pod in s.eng.pods && NextPump(s, b, act).Some?
    ensures var e' := NextPump(s, b, act).value.eng; Going(e', a, to) && Same(s.eng, e', a)
    ensures s.eng.agents[a].stage.Unlisted? ==> NextPump(s, b, act).value.eng.agents[a].stage.Unlisted?
  {
  }

  lemma ReleaseKeepsGoing(c: Config, s: State, b: AgentId, act: AgentStep, a: AgentId, to: Status)
    requires Going(s.eng, a, to) && b in s.eng.agents && s.eng.agents[b].pod in s.eng.pods && NextRelease(c, s, b, act).Some?
    requires a == b ==> !act.FreeRow?
    ensures var e' := NextRelease(c, s, b, act).value.eng; Going(e', a, to) && Same(s.eng, e', a)
    ensures s.eng.agents[a].stage.Unlisted? ==> NextRelease(c, s, b, act).value.eng.agents[a].stage.Unlisted?
  {
  }

  lemma DispatchKeepsGoing(c: Config, s: State, b: AgentId, act: AgentStep, a: AgentId, to: Status)
    requires Going(s.eng, a, to) && b in s.eng.agents && s.eng.agents[b].pod in s.eng.pods && NextDispatch(c, s, b, act).Some?
    ensures var e' := NextDispatch(c, s, b, act).value.eng; Going(e', a, to) && Same(s.eng, e', a)
    ensures s.eng.agents[a].stage.Unlisted? ==> NextDispatch(c, s, b, act).value.eng.agents[a].stage.Unlisted?
  {
  }

  /** A run in which no drain forces the session out while it is live. */
  ghost predicate Unforced(c: Config, s: State, steps: seq<Step>, a: AgentId)
    decreases |steps|
  {
    steps == []
    || (!Forces(s.eng, steps[0], a)
        && (Next(c, s, steps[0]).Some? ==> Unforced(c, Next(c, s, steps[0]).value, steps[1..], a)))
  }

  lemma {:induction false} RunKeepsGoing(c: Config, s: State, steps: seq<Step>, a: AgentId, to: Status)
    requires Going(s.eng, a, to) && Run(c, s, steps).Some? && forall x | x in steps :: Spares(x, a, s.eng.agents[a].pod)
    requires s.eng.agents[a].stage.Unlisted? || Unforced(c, s, steps, a)
    ensures var e' := Run(c, s, steps).value.eng; Going(e', a, to) && Same(s.eng, e', a)
    ensures s.eng.agents[a].stage.Unlisted? ==> Run(c, s, steps).value.eng.agents[a].stage.Unlisted?
    decreases |steps|
  {
    if steps != [] {
      var s1 := Next(c, s, steps[0]).value;
      assert steps[0] in steps && forall x | x in steps[1..] :: x in steps;
      StepKeepsGoing(c, s, steps[0], a, to);
      RunKeepsGoing(c, s1, steps[1..], a, to);
    }
  }

  lemma FreeRowGivesBack(c: Config, s: State, a: AgentId, to: Status)
    requires a in s.eng.agents && s.eng.agents[a].stage == Unlisted(to) && s.eng.agents[a].pod in s.eng.pods
    ensures Next(c, s, OnAgent(a, FreeRow(true))).Some?
    ensures GivenBack(s.rows, Next(c, s, OnAgent(a, FreeRow(true))).value.rows, s.eng.agents[a].thread, to)
  {
  }

  /**
   After a drain has forced a session out, whatever happens in between: when its release gives the row back
   and finds it running, the row ends interrupted.
   */
  lemma ForcedRowEndsInterrupted(c: Config, s: State, d: DrainId, a: AgentId, steps: seq<Step>)
    requires EnginesOk(c, s.eng) && Forces(s.eng, OnDrain(d, Force), a) && Next(c, s, OnDrain(d, Force)).Some?
    requires forall x | x in steps :: Spares(x, a, s.eng.agents[a].pod)
    requires Run(c, s, [OnDrain(d, Force)] + steps).Some?
    ensures
      var s2 := Run(c, s, [OnDrain(d, Force)] + steps).value;
      && Next(c, s2, OnAgent(a, FreeRow(true))).Some?
      && GivenBack(s2.rows, Next(c, s2, OnAgent(a, FreeRow(true))).value.rows, s.eng.agents[a].thread, Interrupted)
  {
    var force := OnDrain(d, Force);
    var s1 := Next(c, s, force).value;
    RunCons(c, s, s1, force, steps);
    StepKeepsEngines(c, s, force);
    RunKeepsGoing(c, s1, steps, a, Interrupted);
    RunKeepsEngines(c, s1, steps);
    FreeRowGivesBack(c, Run(c, s1, steps).value, a, Interrupted);
  }

  /** How a pump decides to leave: interrupted after an aborted turn on a draining pod, idle in every other case. */
  lemma PumpDecides(c: Config, s: State, a: AgentId, act: AgentStep)
    requires Next(c, s, OnAgent(a, act)).Some? && OfPump(act) && !act.PumpRelease?
    ensures
      var was, draining := s.eng.agents[a].pump, s.eng.pods[s.eng.agents[a].pod].draining;
      var pump := Next(c, s, OnAgent(a, act)).value.eng.agents[a].pump;
      && (pump == Leaving(Interrupted) <==> was == Ended(true) && draining)
      && (pump == Leaving(Idle) <==>
            || act.StreamEnd?
            || (act.Offer? && (draining || !act.ok))
            || (act.FeedDone? && s.inbox.feeds[was.feed].lastTurn == None))
      && (pump.Leaving? ==> pump.to in {Interrupted, Idle})
  {
  }

  /** A pump that leaves enters the release body if nobody has, and otherwise waits until that body is through. */
  lemma PumpReleases(c: Config, s: State, a: AgentId)
    requires a in s.eng.agents && s.eng.agents[a].pod in s.eng.pods && s.eng.agents[a].pump.Leaving?
    ensures Next(c, s, OnAgent(a, PumpRelease)).Some? <==> s.eng.agents[a].stage.Live? || s.eng.agents[a].stage.Closed?
    ensures Next(c, s, OnAgent(a, PumpRelease)).Some? ==>
      var ag := Next(c, s, OnAgent(a, PumpRelease)).value.eng.agents[a];
      ag.pump == Gone
      && ag.stage == if s.eng.agents[a].stage.Live? then Unlisted(s.eng.agents[a].pump.to) else s.eng.agents[a].stage
  {
  }

  /** On a draining pod a pump opens no feed: what is queued is left to the next holder. */
  lemma DrainingPumpFeedsNothing(c: Config, s: State, a: AgentId, act: AgentStep)
    requires Next(c, s, OnAgent(a, act)).Some? && OfPump(act) && IsDraining(s.eng, s.eng.agents[a].pod)
    ensures Next(c, s, OnAgent(a, act)).value.inbox.queue == s.inbox.queue
    ensures Next(c, s, OnAgent(a, act)).value.inbox.feeds.Keys <= s.inbox.feeds.Keys
  {
  }

  /**
   A pump that has ended by itself, in a run without a drain forcing its session out: when the release gives
   the row back and finds it running, the row ends interrupted if the turn was aborted while the pod was
   draining, and idle otherwise.
   */
  lemma PumpedRowEnds(c: Config, s: State, a: AgentId, act: AgentStep, steps: seq<Step>)
    requires EnginesOk(c, s.eng) && Next(c, s, OnAgent(a, act)).Some? && OfPump(act) && s.eng.agents[a].stage.Live?
    requires Next(c, s, OnAgent(a, act)).value.eng.agents[a].pump.Leaving? && !act.PumpRelease?
    requires forall x | x in steps :: Spares(x, a, s.eng.agents[a].pod)
    requires Run(c, s, [OnAgent(a, act)] + steps).Some? && Unforced(c, Next(c, s, OnAgent(a, act)).value, steps, a)
    requires var e2 := Run(c, s, [OnAgent(a, act)] + steps).value.eng; a in e2.agents && e2.agents[a].stage.Unlisted?
    ensures
      var s2 := Run(c, s, [OnAgent(a, act)] + steps).value;
      var aborted := s.eng.agents[a].pump == Ended(true) && s.eng.pods[s.eng.agents[a].pod].draining;
      && Next(c, s2, OnAgent(a, FreeRow(true))).Some?
      && GivenBack(s2.rows, Next(c, s2, OnAgent(a, FreeRow(true))).value.rows, s.eng.agents[a].thread,
                   if aborted then Interrupted else Idle)
  {
    var step := OnAgent(a, act);
    var s1 := Next(c, s, step).value;
    var to := s1.eng.agents[a].pump.to;
    PumpDecides(c, s, a, act);
    RunCons(c, s, s1, step, steps);
    StepKeepsEngines(c, s, step);
    RunKeepsGoing(c, s1, steps, a, to);
    RunKeepsEngines(c, s1, steps);
    FreeRowGivesBack(c, Run(c, s1, steps).value, a, to);
  }
}
