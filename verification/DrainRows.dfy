/**
 Which rows a drain leaves running under its pod. A row stays if no session of the snapshot gives it back:
 its release failed, it never had a session, or the session began behind the drain's back. This module says
 exactly when, and reaches each of the three from the start.
 */
module DrainRows {
  import opened Options
  import opened Tables
  import opened Turns
  import opened TurnInvariants
  import opened Draining
  import opened DrainGap

  /** Running under the pod, and no session of the list is going to give it back. */
  predicate Orphan(rows: Rows, e: Engines, p: Pod, order: seq<AgentId>, t: ThreadId) {
    RunsUnder(rows, p, t) && Free(e, order, t)
  }

  /** A session of the list still has to give this row back. */
  ghost predicate Due(e: Engines, order: seq<AgentId>, t: ThreadId) {
    exists a :: DueFrom(e, order, t, a)
  }

  predicate DueFrom(e: Engines, order: seq<AgentId>, t: ThreadId, a: AgentId) {
    a in order && a in e.agents && e.agents[a].thread == t && Holding(e.agents[a].stage)
  }

  /**
   The drain is under way, no agent outside its snapshot can claim any more, and every row running under
   the pod is due from a session of the snapshot; if releases may fail, there is no such row.
   */
  ghost predicate Covered(s: State, d: DrainId, p: Pod, order: seq<AgentId>, ok: bool) {
    && IsDraining(s.eng, p)
    && d in s.eng.drains && s.eng.drains[d].pod == p && s.eng.drains[d].snapshot == order
    && (forall a :: !PastCheck(s.rows, s.eng, p, order, a))
    && RowsDue(s, p, order, ok)
  }

  ghost predicate RowsDue(s: State, p: Pod, order: seq<AgentId>, ok: bool) {
    forall t | RunsUnder(s.rows, p, t) :: ok && Due(s.eng, order, t)
  }

  /** A claim by `b` is the one way for a row to start running. */
  ghost predicate RowsRunLess(s: State, rows': Rows, b: AgentId)
    requires b in s.eng.agents
  {
    var ag := s.eng.agents[b];
    forall q, t | RunsUnder(rows', q, t) && !RunsUnder(s.rows, q, t) ::
      q == ag.pod && t == ag.thread && ag.stage.Checked? && !Removed(s.rows, t)
  }

  /** What one step of one agent does to the rows and to that agent; `failed` if it could not give its row back. */
  ghost predicate OneStepped(s: State, s': State, b: AgentId, failed: bool) {
    && b in s.eng.agents && s'.eng.drains == s.eng.drains && RowsStayGone(s.rows, s'.rows) && RowsRunLess(s, s'.rows, b)
    && (forall p | IsDraining(s.eng, p) :: IsDraining(s'.eng, p))
    && (forall a | a != b :: a in s'.eng.agents <==> a in s.eng.agents)
    && (forall a | a in s.eng.agents && a != b :: s'.eng.agents[a] == s.eng.agents[a])
    && var ag := s.eng.agents[b];
       && (b in s'.eng.agents ==>
             && s'.eng.agents[b].pod == ag.pod && s'.eng.agents[b].thread == ag.thread
             && (IsDraining(s.eng, ag.pod) && s'.eng.agents[b].stage.Checked? ==> ag.stage.Checked?))
       && (IsSession(ag.stage) && Holding(ag.stage) && !failed ==>
             || (b in s'.eng.agents && Holding(s'.eng.agents[b].stage))
             || !(ag.thread in s'.rows && s'.rows[ag.thread].status == Running))
  }

  lemma DispatchSteps(c: Config, s: State, b: AgentId, act: AgentStep)
    requires b in s.eng.agents && s.eng.agents[b].pod in s.eng.pods && NextDispatch(c, s, b, act).Some?
    ensures OneStepped(s, NextDispatch(c, s, b, act).value, b, false)
  {
    if act.CheckDraining? || act.Claim? {
      ClaimSteps(c, s, b, act);
    } else if act.LeaveRefused? || act.FailLeave? {
      LeaveSteps(c, s, b, act);
    } else {
      SlotSteps(c, s, b, act);
    }
  }

  lemma ClaimSteps(c: Config, s: State, b: AgentId, act: AgentStep)
    requires b in s.eng.agents && s.eng.agents[b].pod in s.eng.pods && NextDispatch(c, s, b, act).Some?
    requires act.CheckDraining? || act.Claim?
    ensures OneStepped(s, NextDispatch(c, s, b, act).value, b, false)
  {
  }

  lemma LeaveSteps(c: Config, s: State, b: AgentId, act: AgentStep)
    requires b in s.eng.agents && s.eng.agents[b].pod in s.eng.pods && NextDispatch(c, s, b, act).Some?
    requires act.LeaveRefused? || act.FailLeave?
    ensures OneStepped(s, NextDispatch(c, s, b, act).value, b, false)
  {
  }

  /** The rows stay. */
  lemma SlotSteps(c: Config, s: State, b: AgentId, act: AgentStep)
    requires b in s.eng.agents && s.eng.agents[b].pod in s.eng.pods && NextDispatch(c, s, b, act).Some?
    requires act.Acquire? || act.Start? || act.FailFreeSlot?
    ensures OneStepped(s, NextDispatch(c, s, b, act).value, b, false)
  {
    assert NextDispatch(c, s, b, act).value.rows == s.rows;
  }

  lemma ReleaseSteps(c: Config, s: State, b: AgentId, act: AgentStep)
    requires b in s.eng.agents && s.eng.agents[b].pod in s.eng.pods && NextRelease(c, s, b, act).Some?
    requires AgentOk(s.eng.agents[b])
    ensures OneStepped(s, NextRelease(c, s, b, act).value, b, act == FreeRow(false))
  {
  }

  lemma PumpSteps(s: State, b: AgentId, act: AgentStep)
    requires b in s.eng.agents && s.eng.agents[b].pod in s.eng.pods && NextPump(s, b, act).Some?
    ensures OneStepped(s, NextPump(s, b, act).value, b, false)
  {
    var s' := NextPump(s, b, act).value;
    assert s'.rows == s.rows;
    if act.PumpRelease? && s.eng.agents[b].stage.Live? {
      assert s'.eng.agents.Keys == s.eng.agents.Keys && s'.eng.agents[b].stage.Unlisted?;
    } else {
      assert s'.eng == SetAgent(s.eng, b, s'.eng.agents[b]);
    }
  }

  lemma AgentKeepsCovered(s: State, s': State, b: AgentId, failed: bool, d: DrainId, p: Pod, order: seq<AgentId>, ok: bool)
    requires Covered(s, d, p, order, ok) && OneStepped(s, s', b, failed) && DrainsOk(s.eng)
    requires ok ==> !(b in order && failed)
    ensures Covered(s', d, p, order, ok)
  {
    SnapshotIsOfPod(s.eng, d);
    forall a ensures !PastCheck(s'.rows, s'.eng, p, order, a) {
      assert !PastCheck(s.rows, s.eng, p, order, a);
    }
    forall t | RunsUnder(s'.rows, p, t) ensures ok && Due(s'.eng, order, t) {
      assert !PastCheck(s.rows, s.eng, p, order, b);
      assert RunsUnder(s.rows, p, t);
      var a: AgentId :| DueFrom(s.eng, order, t, a);
      assert DueFrom(s'.eng, order, t, a);
    }
  }

  lemma SnapshotIsOfPod(e: Engines, d: DrainId)
    requires DrainsOk(e) && d in e.drains
    ensures
      var dr := e.drains[d];
      forall a | a in dr.snapshot :: a in e.agents && IsSession(e.agents[a].stage) && e.agents[a].pod == dr.pod
  {
    var dr := e.drains[d];
    assert DrainOk(e, dr);
    forall a | a in dr.snapshot ensures a in e.agents && IsSession(e.agents[a].stage) && e.agents[a].pod == dr.pod {
      var i :| 0 <= i < |dr.snapshot| && dr.snapshot[i] == a;
    }
  }

  lemma RowKeepsCovered(c: Config, s: State, row: RowStep, d: DrainId, p: Pod, order: seq<AgentId>, ok: bool)
    requires Covered(s, d, p, order, ok) && NextRow(c, s, row).Some?
    ensures Covered(NextRow(c, s, row).value, d, p, order, ok)
  {
    var s' := NextRow(c, s, row).value;
    assert s'.eng == s.eng && RowsStayGone(s.rows, s'.rows);
    forall a ensures !PastCheck(s'.rows, s'.eng, p, order, a) {
      assert !PastCheck(s.rows, s.eng, p, order, a);
    }
    forall t | RunsUnder(s'.rows, p, t) ensures ok && Due(s'.eng, order, t) {
      assert RunsUnder(s.rows, p, t);
    }
  }

  lemma PodKeepsCovered(s: State, pod: PodStep, d: DrainId, p: Pod, order: seq<AgentId>, ok: bool)
    requires Covered(s, d, p, order, ok) && NextPod(s, pod).Some? && pod != Crash(p) && DrainsOk(s.eng)
    ensures Covered(NextPod(s, pod).value, d, p, order, ok)
  {
    var s' := NextPod(s, pod).value;
    SnapshotIsOfPod(s.eng, d);
    forall a ensures !PastCheck(s'.rows, s'.eng, p, order, a) {
      assert !PastCheck(s.rows, s.eng, p, order, a);
    }
    forall t | RunsUnder(s'.rows, p, t) ensures ok && Due(s'.eng, order, t) {
      var a: AgentId :| DueFrom(s.eng, order, t, a);
      assert DueFrom(s'.eng, order, t, a);
    }
  }

  lemma EnterKeepsCovered(s: State, b: AgentId, q: Pod, u: ThreadId, d: DrainId, p: Pod, order: seq<AgentId>, ok: bool)
    requires Covered(s, d, p, order, ok) && NextEnter(s, b, q, u).Some?
    ensures Covered(NextEnter(s, b, q, u).value, d, p, order, ok)
  {
    var s' := NextEnter(s, b, q, u).value;
    forall a ensures !PastCheck(s'.rows, s'.eng, p, order, a) {
      assert !PastCheck(s.rows, s.eng, p, order, a);
    }
    forall t | RunsUnder(s'.rows, p, t) ensures ok && Due(s'.eng, order, t) {
      var a: AgentId :| DueFrom(s.eng, order, t, a);
      assert DueFrom(s'.eng, order, t, a);
    }
  }

  lemma DrainKeepsCovered(s: State, x: DrainId, step: DrainStep, d: DrainId, p: Pod, order: seq<AgentId>, ok: bool)
    requires Covered(s, d, p, order, ok) && NextDrain(s, x, step).Some?
    ensures Covered(NextDrain(s, x, step).value, d, p, order, ok)
  {
    var s' := NextDrain(s, x, step).value;
    forall a ensures !PastCheck(s'.rows, s'.eng, p, order, a) {
      assert !PastCheck(s.rows, s.eng, p, order, a);
    }
    forall t | RunsUnder(s'.rows, p, t) ensures ok && Due(s'.eng, order, t) {
      var a: AgentId :| DueFrom(s.eng, order, t, a);
      assert DueFrom(s'.eng, order, t, a);
    }
  }

  lemma StepKeepsCovered(c: Config, s: State, step: Step, d: DrainId, p: Pod, order: seq<AgentId>, ok: bool)
    requires EnginesOk(c, s.eng) && Covered(s, d, p, order, ok) && Next(c, s, step).Some?
    requires step != OnPod(Crash(p)) && (ok ==> !FailedRelease(order, step))
    ensures Covered(Next(c, s, step).value, d, p, order, ok)
  {
    match step {
      case OnRow(row) => RowKeepsCovered(c, s, row, d, p, order, ok);
      case OnPod(pod) => PodKeepsCovered(s, pod, d, p, order, ok);
      case OnDrain(x, drain) => DrainKeepsCovered(s, x, drain, d, p, order, ok);
      case OnAgent(b, act) =>
        if act.Enter? {
          EnterKeepsCovered(s, b, act.p, act.t, d, p, order, ok);
        } else {
          if OfPump(act) {
            PumpSteps(s, b, act);
          } else if OfRelease(act) {
            ReleaseSteps(c, s, b, act);
          } else {
            DispatchSteps(c, s, b, act);
          }
          AgentKeepsCovered(s, NextAgent(c, s, b, act).value, b, act == FreeRow(false), d, p, order, ok);
        }
      case _ =>
        assert Next(c, s, step).value.eng == s.eng && Next(c, s, step).value.rows == s.rows;
    }
  }

  lemma {:induction false} RunKeepsCovered(c: Config, s: State, steps: seq<Step>, d: DrainId, p: Pod, order: seq<AgentId>,
                                           ok: bool)
    requires EnginesOk(c, s.eng) && Covered(s, d, p, order, ok) && Run(c, s, steps).Some? && Sound(order, p, ok, steps)
    ensures var s' := Run(c, s, steps).value; EnginesOk(c, s'.eng) && Covered(s', d, p, order, ok)
    decreases |steps|
  {
    if steps != [] {
      var s1 := Next(c, s, steps[0]).value;
      assert steps[0] in steps && forall x | x in steps[1..] :: x in steps;
      StepKeepsEngines(c, s, steps[0]);
      StepKeepsCovered(c, s, steps[0], d, p, order, ok);
      RunKeepsCovered(c, s1, steps[1..], d, p, order, ok);
    }
  }

  /** Nobody past the check and no orphan (no row at all, if releases may fail): no row runs under the pod at the return. */
  lemma CoveredDrainLeavesNoRow(c: Config, s: State, d: DrainId, p: Pod, order: seq<AgentId>, ok: bool, steps: seq<Step>)
    requires EnginesOk(c, s.eng) && p in s.eng.pods && d !in s.eng.drains && ListsLive(s.eng, p, order)
    requires Drained(c, s, d, p, order, steps) && Sound(order, p, ok, steps)
    requires forall a :: !PastCheck(s.rows, s.eng, p, order, a)
    requires forall t :: RunsUnder(s.rows, p, t) ==> ok && !Free(s.eng, order, t)
    ensures !RowLeft(Run(c, s, [OnDrain(d, Begin(p, order))] + steps).value.rows, p)
  {
    var begin := OnDrain(d, Begin(p, order));
    var s1 := Begun(s, d, p, order);
    assert Next(c, s, begin) == Some(s1);
    StepKeepsEngines(c, s, begin);
    RunCons(c, s, s1, begin, steps);
    BegunIsCovered(s, d, p, order, ok);
    RunKeepsCovered(c, s1, steps, d, p, order, ok);
    ReturnedLeavesNoRow(Run(c, s1, steps).value, d, p, order, ok);
  }

  lemma BegunIsCovered(s: State, d: DrainId, p: Pod, order: seq<AgentId>, ok: bool)
    requires p in s.eng.pods && LiveOk(s.eng) && ListsLive(s.eng, p, order)
    requires forall a :: !PastCheck(s.rows, s.eng, p, order, a)
    requires forall t :: RunsUnder(s.rows, p, t) ==> ok && !Free(s.eng, order, t)
    ensures Covered(Begun(s, d, p, order), d, p, order, ok)
  {
    var s1 := Begun(s, d, p, order);
    SnapshotIsSessions(s.eng, p, order);
    forall a ensures !PastCheck(s1.rows, s1.eng, p, order, a) {
      assert !PastCheck(s.rows, s.eng, p, order, a);
    }
    forall t | RunsUnder(s1.rows, p, t) ensures ok && Due(s1.eng, order, t) {
      assert RunsUnder(s.rows, p, t);
      var a: AgentId :| a in s.eng.agents && a in order && s.eng.agents[a].thread == t;
      assert DueFrom(s1.eng, order, t, a);
    }
  }

  lemma ReturnedLeavesNoRow(s: State, d: DrainId, p: Pod, order: seq<AgentId>, ok: bool)
    requires Covered(s, d, p, order, ok) && DrainsOk(s.eng) && s.eng.drains[d].at.Returned?
    ensures !RowLeft(s.rows, p)
  {
    assert DrainOk(s.eng, s.eng.drains[d]);
    forall a, t ensures !DueFrom(s.eng, order, t, a) {
      if a in order {
        var i :| 0 <= i < |order| && order[i] == a;
        assert ClosedAt(s.eng, order, i);
      }
    }
  }

  /** A row that nobody in the snapshot gives back, or whose release fails, is still there at the return. */
  lemma RowOutlasts(c: Config, s: State, d: DrainId, p: Pod, order: seq<AgentId>, ok: bool, t: ThreadId)
    returns (steps: seq<Step>)
    requires EnginesOk(c, s.eng) && p in s.eng.pods && d !in s.eng.drains && ListsLive(s.eng, p, order)
    requires RunsUnder(s.rows, p, t) && (ok ==> Free(s.eng, order, t))
    ensures Drained(c, s, d, p, order, steps) && Sound(order, p, ok, steps)
    ensures RunsUnder(Run(c, s, [OnDrain(d, Begin(p, order))] + steps).value.rows, p, t)
  {
    var s': State;
    steps, s' := WholeDrainRuns(c, s, d, p, order, ok);
    assert OnPod(Crash(p)) !in steps;
  }

  /**
   For every reachable kind of state and every snapshot, over the runs in which Drain returns. If releases
   may fail: some run leaves a row running under the pod if and only if one runs there when Drain begins or
   an agent outside the snapshot is past the draining check. If every release of the snapshot goes through:
   if and only if a row runs there that no session of the snapshot has, or there is such an agent.
   */
  lemma DrainLeavesRowIff(c: Config, s: State, d: DrainId, p: Pod, order: seq<AgentId>, ok: bool)
    requires EnginesOk(c, s.eng) && p in s.eng.pods && d !in s.eng.drains && ListsLive(s.eng, p, order)
    ensures (exists steps :: Drained(c, s, d, p, order, steps) && Sound(order, p, ok, steps)
                             && RowLeft(Run(c, s, [OnDrain(d, Begin(p, order))] + steps).value.rows, p))
      <==> (if ok then exists t :: Orphan(s.rows, s.eng, p, order, t) else RowLeft(s.rows, p))
           || exists a :: PastCheck(s.rows, s.eng, p, order, a)
  {
    if a: AgentId :| PastCheck(s.rows, s.eng, p, order, a) {
      var steps, s' := LateClaimRuns(c, s, d, p, order, a);
      assert Sound(order, p, ok, steps);
    } else if t: ThreadId :| RunsUnder(s.rows, p, t) && (ok ==> Free(s.eng, order, t)) {
      var steps := RowOutlasts(c, s, d, p, order, ok, t);
      assert ok ==> Orphan(s.rows, s.eng, p, order, t);
    } else {
      forall steps | Drained(c, s, d, p, order, steps) && Sound(order, p, ok, steps)
        ensures !RowLeft(Run(c, s, [OnDrain(d, Begin(p, order))] + steps).value.rows, p)
      {
        CoveredDrainLeavesNoRow(c, s, d, p, order, ok, steps);
      }
      assert ok ==> forall t :: !Orphan(s.rows, s.eng, p, order, t);
    }
  }

  // ---------------------------------------------------------------- each way alone, from the start

  /** No agent is in flight and no row is an orphan, but the release of the one session fails. */
  lemma FailedReleaseLeavesRow(c: Config) returns (steps: seq<Step>)
    ensures
      var s := SessionState(c);
      && Run(c, START, SessionPrefix()) == Some(s) && ListsLive(s.eng, 1, [1])
      && (forall a :: !InFlight(s.rows, s.eng, 1, [1], a)) && (forall t :: !Orphan(s.rows, s.eng, 1, [1], t))
      && Drained(c, s, 0, 1, [1], steps)
      && var s' := Run(c, s, [OnDrain(0, Begin(1, [1]))] + steps).value; RunsUnder(s'.rows, 1, 7) && !Busy(s'.eng, 1)
  {
    var s := SessionState(c);
    SessionIsReached(c);
    assert s.rows.Keys == {7} && s.eng.agents.Keys == {1} && 1 in [1];
    steps := RowOutlasts(c, s, 0, 1, [1], false, 7);
    QuietPodEmpties(c, s, 0, 1, [1], steps);
  }

  /** The dispatch past the check claims, and its reply is lost. */
  ghost function LostState(c: Config): State {
    var g := GapState(c);
    g.(rows := ClaimRows(g.rows, 8, 1, g.now), eng := DropAgent(g.eng, 2))
  }

  function LostPrefix(): seq<Step> {
    SessionPrefix() + GapTail() + [OnAgent(2, Claim(ReplyLost))]
  }

  lemma LostIsReached(c: Config)
    ensures Run(c, START, LostPrefix()) == Some(LostState(c)) && EnginesOk(c, LostState(c).eng)
    ensures ListsLive(LostState(c).eng, 1, [1])
  {
    var lost := OnAgent(2, Claim(ReplyLost));
    GapIsReached(c);
    assert Next(c, GapState(c), lost) == Some(LostState(c));
    StepKeepsEngines(c, GapState(c), lost);
    RunCons(c, GapState(c), LostState(c), lost, []);
    assert [lost] + [] == [lost];
    RunConcat(c, START, SessionPrefix() + GapTail(), [lost]);
    OneIsListed(LostState(c).eng);
  }

  /** No agent is in flight and every release goes through, but a claim committed and its reply was lost. */
  lemma LostReplyLeavesRow(c: Config) returns (steps: seq<Step>)
    ensures
      var s := LostState(c);
      && Run(c, START, LostPrefix()) == Some(s) && ListsLive(s.eng, 1, [1])
      && (forall a :: !InFlight(s.rows, s.eng, 1, [1], a))
      && Drained(c, s, 0, 1, [1], steps) && Sound([1], 1, true, steps)
      && var s' := Run(c, s, [OnDrain(0, Begin(1, [1]))] + steps).value; RunsUnder(s'.rows, 1, 8) && !Busy(s'.eng, 1)
  {
    var s := LostState(c);
    LostIsReached(c);
    assert s.eng.agents.Keys == {1} && 1 in [1] && s.eng.agents[1].thread == 7;
    steps := RowOutlasts(c, s, 0, 1, [1], true, 8);
    QuietPodEmpties(c, s, 0, 1, [1], steps);
  }

  /** No row is an orphan and every release goes through, but a dispatch is past the check. */
  lemma LateClaimLeavesRow(c: Config) returns (steps: seq<Step>)
    ensures
      var s := GapState(c);
      && Run(c, START, SessionPrefix() + GapTail()) == Some(s) && ListsLive(s.eng, 1, [1])
      && (forall t :: !Orphan(s.rows, s.eng, 1, [1], t))
      && Drained(c, s, 0, 1, [1], steps) && Sound([1], 1, true, steps)
      && RowLeft(Run(c, s, [OnDrain(0, Begin(1, [1]))] + steps).value.rows, 1)
  {
    GapIsReached(c);
    var s := GapState(c);
    assert 1 in s.eng.agents && 1 in [1] && s.eng.agents[1].thread == 7;
    steps := InFlightOutlasts(c, s, 0, 1, [1], 2);
  }
}
