/**
 What a drain leaves behind. Drain waits for the sessions in its snapshot; this module says exactly when no
 agent of the pod stands between claim and release or has a slot once it has returned. Which rows are left
 running under the pod is another question, and the next module's.
 */
module DrainGap {
  import opened Options
  import opened Tables
  import opened Turns
  import opened TurnInvariants
  import opened Draining
  import opened MutualExclusion
  import Limiter

  /** Between claim and release, or with a slot. */
  predicate Holds(stage: Stage) { Holding(stage) || HasSlot(stage) }

  ghost predicate Busy(e: Engines, p: Pod) {
    exists a :: a in e.agents && e.agents[a].pod == p && Holds(e.agents[a].stage)
  }

  /** Outside the snapshot and past the draining check of a thread that can still be claimed. */
  predicate PastCheck(rows: Rows, e: Engines, p: Pod, order: seq<AgentId>, a: AgentId) {
    && a in e.agents && e.agents[a].pod == p && a !in order
    && e.agents[a].stage.Checked? && !Removed(rows, e.agents[a].thread)
  }

  /** Outside the snapshot, and holding already or past the draining check. */
  predicate InFlight(rows: Rows, e: Engines, p: Pod, order: seq<AgentId>, a: AgentId) {
    || (a in e.agents && e.agents[a].pod == p && a !in order && Holds(e.agents[a].stage))
    || PastCheck(rows, e, p, order, a)
  }

  /** A run that begins this drain and ends with it returned, on a pod that does not crash on the way. */
  ghost predicate Drained(c: Config, s: State, d: DrainId, p: Pod, order: seq<AgentId>, steps: seq<Step>) {
    var run := Run(c, s, [OnDrain(d, Begin(p, order))] + steps);
    && OnPod(Crash(p)) !in steps && run.Some?
    && d in run.value.eng.drains && run.value.eng.drains[d].at.Returned?
  }

  // ---------------------------------------------------------------- nothing in flight

  /** Will never hold anything again on a draining pod. */
  predicate Settled(rows: Rows, ag: Agent) {
    || ag.stage.Entered? || ag.stage.SlotBack? || ag.stage.Closed?
    || (ag.stage.Checked? && Removed(rows, ag.thread))
  }

  /** The drain is under way, and all of its pod that is outside the snapshot is settled. */
  ghost predicate Quiet(s: State, d: DrainId, p: Pod, order: seq<AgentId>) {
    && IsDraining(s.eng, p)
    && d in s.eng.drains && s.eng.drains[d].pod == p && s.eng.drains[d].snapshot == order
    && AllSettled(s.rows, s.eng.agents, p, order)
  }

  ghost predicate AllSettled(rows: Rows, agents: map<AgentId, Agent>, p: Pod, order: seq<AgentId>) {
    forall a | a in agents && agents[a].pod == p && a !in order :: Settled(rows, agents[a])
  }

  /** Deleted rows stay deleted. */
  ghost predicate RowsStayGone(rows: Rows, rows': Rows) {
    forall t | Removed(rows, t) :: Removed(rows', t)
  }

  /** One agent moved or left, on the same pods with the same flags, and is settled if it was. */
  ghost predicate OneStayedQuiet(s: State, s': State, b: AgentId) {
    && s'.eng.drains == s.eng.drains && RowsStayGone(s.rows, s'.rows)
    && (forall p | IsDraining(s.eng, p) :: IsDraining(s'.eng, p))
    && (forall a | a in s'.eng.agents && a != b :: a in s.eng.agents && s'.eng.agents[a] == s.eng.agents[a])
    && (b in s'.eng.agents ==>
          && b in s.eng.agents && s'.eng.agents[b].pod == s.eng.agents[b].pod
          && (IsDraining(s.eng, s.eng.agents[b].pod) && Settled(s.rows, s.eng.agents[b]) ==> Settled(s'.rows, s'.eng.agents[b])))
  }

  lemma OneStaysQuiet(s: State, s': State, b: AgentId, p: Pod, order: seq<AgentId>)
    requires OneStayedQuiet(s, s', b) && IsDraining(s.eng, p) && AllSettled(s.rows, s.eng.agents, p, order)
    ensures IsDraining(s'.eng, p) && AllSettled(s'.rows, s'.eng.agents, p, order)
  {
  }

  lemma DispatchStaysQuiet(c: Config, s: State, b: AgentId, act: AgentStep)
    requires b in s.eng.agents && s.eng.agents[b].pod in s.eng.pods && NextDispatch(c, s, b, act).Some?
    ensures OneStayedQuiet(s, NextDispatch(c, s, b, act).value, b)
  {
    if act.CheckDraining? || act.Claim? {
      CheckStaysQuiet(c, s, b, act);
    } else {
      SlotStaysQuiet(c, s, b, act);
    }
  }

  /** Where settled agents can be: the check itself, and the claim of a deleted thread. */
  lemma CheckStaysQuiet(c: Config, s: State, b: AgentId, act: AgentStep)
    requires b in s.eng.agents && s.eng.agents[b].pod in s.eng.pods && NextDispatch(c, s, b, act).Some?
    requires act.CheckDraining? || act.Claim?
    ensures OneStayedQuiet(s, NextDispatch(c, s, b, act).value, b)
  {
  }

  lemma SlotStaysQuiet(c: Config, s: State, b: AgentId, act: AgentStep)
    requires b in s.eng.agents && s.eng.agents[b].pod in s.eng.pods && NextDispatch(c, s, b, act).Some?
    requires !act.CheckDraining? && !act.Claim?
    ensures OneStayedQuiet(s, NextDispatch(c, s, b, act).value, b)
  {
  }

  lemma ReleaseStaysQuiet(c: Config, s: State, b: AgentId, act: AgentStep)
    requires b in s.eng.agents && s.eng.agents[b].pod in s.eng.pods && NextRelease(c, s, b, act).Some?
    ensures OneStayedQuiet(s, NextRelease(c, s, b, act).value, b)
  {
  }

  lemma PumpStaysQuiet(s: State, b: AgentId, act: AgentStep)
    requires b in s.eng.agents && s.eng.agents[b].pod in s.eng.pods && NextPump(s, b, act).Some?
    ensures OneStayedQuiet(s, NextPump(s, b, act).value, b)
  {
  }

  lemma RowStaysQuiet(c: Config, s: State, row: RowStep, p: Pod, order: seq<AgentId>)
    requires AllSettled(s.rows, s.eng.agents, p, order) && NextRow(c, s, row).Some?
    ensures var s' := NextRow(c, s, row).value; s'.eng == s.eng && AllSettled(s'.rows, s'.eng.agents, p, order)
  {
    var rows' := NextRow(c, s, row).value.rows;
    assert RowsStayGone(s.rows, rows');
  }

  lemma StepStaysQuiet(c: Config, s: State, step: Step, d: DrainId, p: Pod, order: seq<AgentId>)
    requires AgentsOk(s.eng) && Quiet(s, d, p, order) && Next(c, s, step).Some? && step != OnPod(Crash(p))
    ensures Quiet(Next(c, s, step).value, d, p, order)
  {
    match step {
      case OnRow(row) => RowStaysQuiet(c, s, row, p, order);
      case OnAgent(b, act) => if !act.Enter? { AgentStaysQuiet(c, s, b, act, p, order); }
      case _ =>
    }
  }

  lemma AgentStaysQuiet(c: Config, s: State, b: AgentId, act: AgentStep, p: Pod, order: seq<AgentId>)
    requires NextAgent(c, s, b, act).Some? && !act.Enter? && IsDraining(s.eng, p) && AllSettled(s.rows, s.eng.agents, p, order)
    ensures
      var s' := NextAgent(c, s, b, act).value;
      s'.eng.drains == s.eng.drains && IsDraining(s'.eng, p) && AllSettled(s'.rows, s'.eng.agents, p, order)
  {
    if OfPump(act) {
      PumpStaysQuiet(s, b, act);
    } else if OfRelease(act) {
      ReleaseStaysQuiet(c, s, b, act);
    } else {
      DispatchStaysQuiet(c, s, b, act);
    }
    OneStaysQuiet(s, NextAgent(c, s, b, act).value, b, p, order);
  }

  lemma {:induction false} RunStaysQuiet(c: Config, s: State, steps: seq<Step>, d: DrainId, p: Pod, order: seq<AgentId>)
    requires EnginesOk(c, s.eng) && Quiet(s, d, p, order) && Run(c, s, steps).Some? && OnPod(Crash(p)) !in steps
    ensures var s' := Run(c, s, steps).value; EnginesOk(c, s'.eng) && Quiet(s', d, p, order)
    decreases |steps|
  {
    if steps != [] {
      StepKeepsEngines(c, s, steps[0]);
      StepStaysQuiet(c, s, steps[0], d, p, order);
      RunStaysQuiet(c, Next(c, s, steps[0]).value, steps[1..], d, p, order);
    }
  }

  function Begun(s: State, d: DrainId, p: Pod, order: seq<AgentId>): State
    requires p in s.eng.pods
  {
    s.(eng := s.eng.(pods := s.eng.pods[p := s.eng.pods[p].(draining := true)],
                     drains := s.eng.drains[d := Drain(p, order, Waiting(0))]))
  }

  /** With nothing in flight, every run that lets the drain return leaves no agent of the pod holding, and no count. */
  lemma QuietPodEmpties(c: Config, s: State, d: DrainId, p: Pod, order: seq<AgentId>, steps: seq<Step>)
    requires EnginesOk(c, s.eng) && p in s.eng.pods && d !in s.eng.drains && ListsLive(s.eng, p, order)
    requires (forall a :: !InFlight(s.rows, s.eng, p, order, a)) && Drained(c, s, d, p, order, steps)
    ensures
      var e := Run(c, s, [OnDrain(d, Begin(p, order))] + steps).value.eng;
      !Busy(e, p) && p in e.pods && forall tn :: Limiter.Count(e.pods[p].cur, tn) == 0
  {
    var begin := OnDrain(d, Begin(p, order));
    var s1 := Begun(s, d, p, order);
    assert Next(c, s, begin) == Some(s1);
    StepKeepsEngines(c, s, begin);
    RunCons(c, s, s1, begin, steps);
    assert AllSettled(s1.rows, s1.eng.agents, p, order) by {
      forall a | a in s.eng.agents && s.eng.agents[a].pod == p && a !in order ensures Settled(s.rows, s.eng.agents[a]) {
        assert !InFlight(s.rows, s.eng, p, order, a);
      }
    }
    RunStaysQuiet(c, s1, steps, d, p, order);
    var s' := Run(c, s1, steps).value;
    ReturnedIsEmpty(c, s', d, p, order);
  }

  lemma ReturnedIsEmpty(c: Config, s: State, d: DrainId, p: Pod, order: seq<AgentId>)
    requires EnginesOk(c, s.eng) && Quiet(s, d, p, order) && s.eng.drains[d].at.Returned?
    ensures !Busy(s.eng, p) && forall tn :: Limiter.Count(s.eng.pods[p].cur, tn) == 0
  {
    var e := s.eng;
    assert DrainOk(e, e.drains[d]);
    forall a | a in e.agents && e.agents[a].pod == p ensures !Holds(e.agents[a].stage) {
      if a in order {
        var i :| 0 <= i < |order| && order[i] == a;
        assert ClosedAt(e, order, i);
      } else {
        assert Settled(s.rows, e.agents[a]);
      }
    }
    forall tn ensures Limiter.Count(e.pods[p].cur, tn) == 0 {
      assert SlotExact(c, e, p, tn);
      assert SlotHolders(e.agents, p, tn) == {};
    }
  }

  // ---------------------------------------------------------------- something in flight

  /** `e'` has the same pods and agents, all but `b` as they were. */
  ghost predicate OnlyAgent(e: Engines, e': Engines, b: AgentId) {
    && e'.agents.Keys == e.agents.Keys && e'.pods.Keys == e.pods.Keys
    && (b in e.agents ==> e'.agents[b].pod == e.agents[b].pod && e'.agents[b].thread == e.agents[b].thread)
    && forall a | a in e.agents && a != b :: e'.agents[a] == e.agents[a]
  }

  function ForceSteps(d: DrainId, b: AgentId, ok: bool): seq<Step> {
    [OnDrain(d, Force), OnAgent(b, FreeRow(ok)), OnAgent(b, FreeSlot), OnAgent(b, Close), OnDrain(d, Advance)]
  }

  /** Drain forces one live session, and moves on when its release is done, whether the row was given back or not. */
  lemma ForceRuns(c: Config, s: State, d: DrainId, b: AgentId, ok: bool) returns (s': State)
    requires d in s.eng.drains && s.eng.drains[d].at.Forcing?
    requires var dr := s.eng.drains[d]; dr.at.k < |dr.snapshot| && dr.snapshot[dr.at.k] == b
    requires b in s.eng.agents && s.eng.agents[b].stage.Live? && s.eng.agents[b].pod in s.eng.pods
    ensures Run(c, s, ForceSteps(d, b, ok)) == Some(s')
    ensures s'.rows == if ok then ReleaseRows(s.rows, s.eng.agents[b].thread, Interrupted) else s.rows
    ensures s'.eng.drains == s.eng.drains[d := s.eng.drains[d].(at := Sweeping(s.eng.drains[d].at.resume))]
    ensures OnlyAgent(s.eng, s'.eng, b) && s'.eng.agents[b].stage.Closed?
  {
    var dr := s.eng.drains[d];
    var s1 := s.(eng := EnterRelease(s.eng, b, Interrupted));
    var ag := s1.eng.agents[b];
    var s2 := s1.(rows := if ok then ReleaseRows(s.rows, ag.thread, Interrupted) else s.rows,
                  eng := SetAgent(s1.eng, b, ag.(stage := Freed)));
    var s3 := s2.(eng := SetAgent(FreeSlotOf(c, s2.eng, ag), b, ag.(stage := SlotBack)));
    var s4 := s3.(eng := SetAgent(s3.eng, b, ag.(stage := Closed)));
    s' := s4.(eng := s4.eng.(drains := s4.eng.drains[d := dr.(at := Sweeping(dr.at.resume))]));
    ReleaseRuns(c, s1, b, ok, s2, s3, s4);
    assert Next(c, s4, OnDrain(d, Advance)) == Some(s');
    RunOf5(c, s, OnDrain(d, Force), OnAgent(b, FreeRow(ok)), OnAgent(b, FreeSlot), OnAgent(b, Close), OnDrain(d, Advance),
           s1, s2, s3, s4, s');
  }

  lemma ReleaseRuns(c: Config, s1: State, b: AgentId, ok: bool, s2: State, s3: State, s4: State)
    requires b in s1.eng.agents && s1.eng.agents[b].stage.Unlisted? && s1.eng.agents[b].pod in s1.eng.pods
    requires
      var ag := s1.eng.agents[b];
      && s2 == s1.(rows := if ok then ReleaseRows(s1.rows, ag.thread, ag.stage.to) else s1.rows,
                   eng := SetAgent(s1.eng, b, ag.(stage := Freed)))
      && s3 == s2.(eng := SetAgent(FreeSlotOf(c, s2.eng, ag), b, ag.(stage := SlotBack)))
      && s4 == s3.(eng := SetAgent(s3.eng, b, ag.(stage := Closed)))
    ensures Next(c, s1, OnAgent(b, FreeRow(ok))) == Some(s2)
    ensures Next(c, s2, OnAgent(b, FreeSlot)) == Some(s3)
    ensures Next(c, s3, OnAgent(b, Close)) == Some(s4)
  {
  }

  ghost predicate Sweepable(e: Engines, d: DrainId, j: nat) {
    && d in e.drains && e.drains[d].at == Sweeping(j) && j <= |e.drains[d].snapshot|
    && var order := e.drains[d].snapshot;
       && (forall i, k | 0 <= i < k < |order| :: order[i] != order[k])
       && forall i | j <= i < |order| ::
            && order[i] in e.agents && e.agents[order[i]].pod in e.pods
            && (e.agents[order[i]].stage.Live? || (i == j && e.agents[order[i]].stage.Closed?))
  }

  /** The same outside a list of agents, which keep their threads. */
  ghost predicate OnlyAgents(e: Engines, e': Engines, order: seq<AgentId>) {
    forall a | a in e.agents && a !in order :: a in e'.agents && e'.agents[a] == e.agents[a]
  }

  /** A session of the snapshot could not give its row back. */
  predicate FailedRelease(order: seq<AgentId>, step: Step) {
    step.OnAgent? && step.a in order && step.act == FreeRow(false)
  }

  /** Neither a crash of the pod nor, if `ok`, a failed release of the snapshot. */
  predicate Sound(order: seq<AgentId>, p: Pod, ok: bool, steps: seq<Step>) {
    forall x | x in steps :: x != OnPod(Crash(p)) && (ok ==> !FailedRelease(order, x))
  }

  /** No session of the list has this thread. */
  predicate Free(e: Engines, order: seq<AgentId>, t: ThreadId) {
    forall a | a in e.agents && a in order :: e.agents[a].thread != t
  }

  /** Rows of threads that no session of the list has, or all rows if none was given back. */
  ghost predicate RowsKept(s: State, s': State, order: seq<AgentId>, ok: bool) {
    forall t | t in s.rows && (ok ==> Free(s.eng, order, t)) :: t in s'.rows && s'.rows[t] == s.rows[t]
  }

  ghost predicate NoneRemoved(s: State, s': State) {
    forall t | Removed(s'.rows, t) :: Removed(s.rows, t)
  }

  /** The drain has been led to its return. */
  ghost predicate Swept(c: Config, s: State, s': State, d: DrainId, p: Pod, ok: bool, steps: seq<Step>)
    requires d in s.eng.drains
  {
    var order := s.eng.drains[d].snapshot;
    && Run(c, s, steps) == Some(s') && Sound(order, p, ok, steps)
    && d in s'.eng.drains && s'.eng.drains[d].at.Returned?
    && OnlyAgents(s.eng, s'.eng, order) && s'.eng.pods.Keys == s.eng.pods.Keys
    && RowsKept(s, s', order, ok) && NoneRemoved(s, s')
  }

  /** Drain has seen every session of its snapshot closed. */
  lemma LastAdvance(c: Config, s: State, d: DrainId, p: Pod, ok: bool) returns (steps: seq<Step>, s': State)
    requires d in s.eng.drains
    requires var dr := s.eng.drains[d]; dr.at == Sweeping(|dr.snapshot|) || (dr.at == Waiting(0) && dr.snapshot == [])
    ensures Swept(c, s, s', d, p, ok, steps)
  {
    var advance := OnDrain(d, Advance);
    s' := s.(eng := s.eng.(drains := s.eng.drains[d := s.eng.drains[d].(at := Returned)]));
    steps := [advance];
    assert Next(c, s, advance) == Some(s');
    RunCons(c, s, s', advance, []);
    assert [advance] + [] == [advance];
  }

  /** One step of Drain's own, and then the rest. */
  lemma DrainThenSwept(c: Config, s: State, s1: State, s': State, d: DrainId, p: Pod, ok: bool, step: DrainStep,
                      more: seq<Step>)
    requires d in s.eng.drains && d in s1.eng.drains && Next(c, s, OnDrain(d, step)) == Some(s1)
    requires s1 == s.(eng := s.eng.(drains := s1.eng.drains)) && s1.eng.drains[d].snapshot == s.eng.drains[d].snapshot
    requires Swept(c, s1, s', d, p, ok, more)
    ensures Swept(c, s, s', d, p, ok, [OnDrain(d, step)] + more)
  {
    RunCons(c, s, s1, OnDrain(d, step), more);
    SoundCons(s.eng.drains[d].snapshot, p, ok, [OnDrain(d, step)], more);
  }

  lemma SoundCons(order: seq<AgentId>, p: Pod, ok: bool, xs: seq<Step>, ys: seq<Step>)
    requires Sound(order, p, ok, xs) && Sound(order, p, ok, ys)
    ensures Sound(order, p, ok, xs + ys)
  {
  }

  /** One forced release, and then the rest. */
  lemma ForceThenSwept(c: Config, s: State, s1: State, s': State, d: DrainId, p: Pod, b: AgentId, ok: bool, more: seq<Step>)
    requires d in s.eng.drains && d in s1.eng.drains && Run(c, s, ForceSteps(d, b, ok)) == Some(s1)
    requires b in s.eng.agents && b in s.eng.drains[d].snapshot && OnlyAgent(s.eng, s1.eng, b)
    requires s1.rows == if ok then ReleaseRows(s.rows, s.eng.agents[b].thread, Interrupted) else s.rows
    requires s1.eng.drains[d].snapshot == s.eng.drains[d].snapshot && Swept(c, s1, s', d, p, ok, more)
    ensures Swept(c, s, s', d, p, ok, ForceSteps(d, b, ok) + more)
  {
    var order := s.eng.drains[d].snapshot;
    RunConcat(c, s, ForceSteps(d, b, ok), more);
    SoundCons(order, p, ok, ForceSteps(d, b, ok), more);
    assert forall a | a in s.eng.agents :: s1.eng.agents[a].thread == s.eng.agents[a].thread;
    assert forall t :: Free(s.eng, order, t) ==> Free(s1.eng, order, t) && s.eng.agents[b].thread != t;
  }

  /** Every session of the snapshot from `j` on is forced in turn, and Drain returns. */
  lemma {:induction false} SweepRuns(c: Config, s: State, d: DrainId, j: nat, p: Pod, ok: bool)
    returns (steps: seq<Step>, s': State)
    requires Sweepable(s.eng, d, j)
    ensures Swept(c, s, s', d, p, ok, steps)
    decreases |s.eng.drains[d].snapshot| - j
  {
    hide Swept;
    var dr := s.eng.drains[d];
    if j == |dr.snapshot| {
      steps, s' := LastAdvance(c, s, d, p, ok);
    } else {
      var b := dr.snapshot[j];
      var closed := s.eng.agents[b].stage.Closed?;
      var at := if closed then Sweeping(j + 1) else Forcing(j, j + 1);
      var s1 := s.(eng := s.eng.(drains := s.eng.drains[d := dr.(at := at)]));
      assert Next(c, s, OnDrain(d, Advance)) == Some(s1);
      if closed {
        steps, s' := SweepRuns(c, s1, d, j + 1, p, ok);
      } else {
        var s2 := ForceRuns(c, s1, d, b, ok);
        steps, s' := SweepRuns(c, s2, d, j + 1, p, ok);
        ForceThenSwept(c, s1, s2, s', d, p, b, ok, steps);
        steps := ForceSteps(d, b, ok) + steps;
      }
      DrainThenSwept(c, s, s1, s', d, p, ok, Advance, steps);
      steps := [OnDrain(d, Advance)] + steps;
    }
  }

  ghost predicate AllLive(e: Engines, order: seq<AgentId>) {
    && (forall i, k | 0 <= i < k < |order| :: order[i] != order[k])
    && forall i | 0 <= i < |order| ::
         order[i] in e.agents && e.agents[order[i]].pod in e.pods && e.agents[order[i]].stage.Live?
  }

  /** From its first wait on, with every session of the snapshot still live: the deadline passes at once. */
  lemma DrainRuns(c: Config, s: State, d: DrainId, p: Pod, ok: bool) returns (steps: seq<Step>, s': State)
    requires d in s.eng.drains && s.eng.drains[d].at == Waiting(0) && AllLive(s.eng, s.eng.drains[d].snapshot)
    ensures Swept(c, s, s', d, p, ok, steps)
  {
    hide Swept;
    var dr := s.eng.drains[d];
    if dr.snapshot == [] {
      steps, s' := LastAdvance(c, s, d, p, ok);
    } else {
      var b := dr.snapshot[0];
      var s1 := s.(eng := s.eng.(drains := s.eng.drains[d := dr.(at := Forcing(0, 0))]));
      assert Next(c, s, OnDrain(d, Deadline)) == Some(s1);
      var s2 := ForceRuns(c, s1, d, b, ok);
      FirstIsClosed(s1.eng, s2.eng, d, b);
      steps, s' := SweepRuns(c, s2, d, 0, p, ok);
      ForceThenSwept(c, s1, s2, s', d, p, b, ok, steps);
      DrainThenSwept(c, s, s1, s', d, p, ok, Deadline, ForceSteps(d, b, ok) + steps);
      steps := [OnDrain(d, Deadline)] + (ForceSteps(d, b, ok) + steps);
    }
  }

  lemma FirstIsClosed(e: Engines, e': Engines, d: DrainId, b: AgentId)
    requires d in e.drains && e.drains[d].snapshot != [] && e.drains[d].snapshot[0] == b && AllLive(e, e.drains[d].snapshot)
    requires OnlyAgent(e, e', b) && e'.agents[b].stage.Closed?
    requires d in e'.drains && e'.drains[d] == e.drains[d].(at := Sweeping(0))
    ensures Sweepable(e', d, 0)
  {
    var order := e.drains[d].snapshot;
    forall i | 0 < i < |order| ensures order[i] != b && e'.agents[order[i]] == e.agents[order[i]] {
      assert order[0] != order[i];
    }
  }

  /** Past the check, the draining flag is not looked at again: any thread not deleted can still be claimed. */
  lemma ClaimRuns(c: Config, s: State, a: AgentId, p: Pod) returns (steps: seq<Step>, s': State)
    requires a in s.eng.agents && s.eng.agents[a].stage.Checked? && s.eng.agents[a].pod in s.eng.pods
    requires !Removed(s.rows, s.eng.agents[a].thread)
    ensures Run(c, s, steps) == Some(s') && forall order, ok :: Sound(order, p, ok, steps)
    ensures s'.eng == SetAgent(s.eng, a, s.eng.agents[a].(stage := Claimed))
    ensures RunsUnder(s'.rows, s.eng.agents[a].pod, s.eng.agents[a].thread)
  {
    var ag := s.eng.agents[a];
    var claim := OnAgent(a, Claim(Through));
    var free := if ag.thread in s.rows then [OnRow(Archive(ag.thread)), OnRow(Unarchive(ag.thread))]
                else [OnRow(Create(ag.thread, 0, None))];
    var s1 := s.(rows := if ag.thread in s.rows then s.rows[ag.thread := s.rows[ag.thread].(status := Idle)]
                         else s.rows[ag.thread := Row(0, None, Idle, None, None)]);
    FreeingRuns(c, s, ag.thread, free, s1);
    s' := s1.(rows := ClaimRows(s1.rows, ag.thread, ag.pod, s1.now), eng := SetAgent(s1.eng, a, ag.(stage := Claimed)));
    assert Next(c, s1, claim) == Some(s');
    RunCons(c, s1, s', claim, []);
    assert [claim] + [] == [claim];
    RunConcat(c, s, free, [claim]);
    steps := free + [claim];
  }

  /** Archiving and unarchiving a thread, or creating it, leaves it idle. */
  lemma FreeingRuns(c: Config, s: State, t: ThreadId, free: seq<Step>, s1: State)
    requires !Removed(s.rows, t)
    requires free == if t in s.rows then [OnRow(Archive(t)), OnRow(Unarchive(t))] else [OnRow(Create(t, 0, None))]
    requires s1 == s.(rows := if t in s.rows then s.rows[t := s.rows[t].(status := Idle)]
                              else s.rows[t := Row(0, None, Idle, None, None)])
    ensures Run(c, s, free) == Some(s1)
  {
    if t in s.rows {
      var m := s.(rows := s.rows[t := s.rows[t].(status := Archived)]);
      assert UnarchiveRows(m.rows, t) == s1.rows;
      RunCons(c, m, s1, OnRow(Unarchive(t)), []);
      RunCons(c, s, m, OnRow(Archive(t)), [OnRow(Unarchive(t))] + []);
      assert free == [OnRow(Archive(t))] + ([OnRow(Unarchive(t))] + []);
    } else {
      RunCons(c, s, s1, OnRow(Create(t, 0, None)), []);
      assert free == [OnRow(Create(t, 0, None))] + [];
    }
  }

  /** Drain begins, its snapshot is closed, and it returns. */
  lemma WholeDrainRuns(c: Config, s: State, d: DrainId, p: Pod, order: seq<AgentId>, ok: bool)
    returns (steps: seq<Step>, s': State)
    requires EnginesOk(c, s.eng) && p in s.eng.pods && d !in s.eng.drains && ListsLive(s.eng, p, order)
    ensures Run(c, s, [OnDrain(d, Begin(p, order))] + steps) == Some(s') && Sound(order, p, ok, steps)
    ensures d in s'.eng.drains && s'.eng.drains[d].at.Returned?
    ensures OnlyAgents(s.eng, s'.eng, order) && p in s'.eng.pods && RowsKept(s, s', order, ok) && NoneRemoved(s, s')
  {
    var begin := OnDrain(d, Begin(p, order));
    var s1 := Begun(s, d, p, order);
    assert Next(c, s, begin) == Some(s1);
    SnapshotIsSessions(s.eng, p, order);
    steps, s' := DrainRuns(c, s1, d, p, ok);
    RunCons(c, s, s1, begin, steps);
    assert forall t :: Free(s.eng, order, t) <==> Free(s1.eng, order, t);
  }

  ghost predicate RowLeft(rows: Rows, p: Pod) {
    exists t :: RunsUnder(rows, p, t)
  }

  /** After the drain has returned, an agent that had passed the check still claims. */
  lemma LateClaimRuns(c: Config, s: State, d: DrainId, p: Pod, order: seq<AgentId>, a: AgentId)
    returns (steps: seq<Step>, s': State)
    requires EnginesOk(c, s.eng) && p in s.eng.pods && d !in s.eng.drains && ListsLive(s.eng, p, order)
    requires PastCheck(s.rows, s.eng, p, order, a)
    ensures Drained(c, s, d, p, order, steps) && Sound(order, p, true, steps)
    ensures Run(c, s, [OnDrain(d, Begin(p, order))] + steps) == Some(s')
    ensures a in s'.eng.agents && s'.eng.agents[a].pod == p && s'.eng.agents[a].stage.Claimed? && RowLeft(s'.rows, p)
  {
    var begin := [OnDrain(d, Begin(p, order))];
    var t := s.eng.agents[a].thread;
    var first, s1 := WholeDrainRuns(c, s, d, p, order, true);
    var rest: seq<Step>;
    rest, s' := ClaimRuns(c, s1, a, p);
    RunConcat(c, s, begin + first, rest);
    assert (begin + first) + rest == begin + (first + rest);
    SoundCons(order, p, true, first, rest);
    steps := first + rest;
    assert RunsUnder(s'.rows, p, t);
  }

  /** What is in flight can outlast the drain: it stands still where it holds, or claims after the return. */
  lemma InFlightOutlasts(c: Config, s: State, d: DrainId, p: Pod, order: seq<AgentId>, a: AgentId) returns (steps: seq<Step>)
    requires EnginesOk(c, s.eng) && p in s.eng.pods && d !in s.eng.drains && ListsLive(s.eng, p, order)
    requires InFlight(s.rows, s.eng, p, order, a)
    ensures Drained(c, s, d, p, order, steps) && Sound(order, p, true, steps)
    ensures var s' := Run(c, s, [OnDrain(d, Begin(p, order))] + steps).value;
            Busy(s'.eng, p) && (PastCheck(s.rows, s.eng, p, order, a) ==> RowLeft(s'.rows, p))
  {
    var s': State;
    if PastCheck(s.rows, s.eng, p, order, a) {
      steps, s' := LateClaimRuns(c, s, d, p, order, a);
    } else {
      steps, s' := WholeDrainRuns(c, s, d, p, order, true);
      assert OnPod(Crash(p)) !in steps;
    }
    assert a in s'.eng.agents && s'.eng.agents[a].pod == p && Holds(s'.eng.agents[a].stage);
  }

  /**
   For every reachable kind of state and every snapshot: some run in which Drain returns leaves an agent of
   the pod between claim and release or with a slot if and only if, when it begins, some agent of the pod
   outside the snapshot stands there already or is past the draining check of a thread that is not deleted.
   */
  lemma DrainLeavesBehindIff(c: Config, s: State, d: DrainId, p: Pod, order: seq<AgentId>)
    requires EnginesOk(c, s.eng) && p in s.eng.pods && d !in s.eng.drains && ListsLive(s.eng, p, order)
    ensures (exists a :: InFlight(s.rows, s.eng, p, order, a)) <==>
      exists steps :: Drained(c, s, d, p, order, steps) && Busy(Run(c, s, [OnDrain(d, Begin(p, order))] + steps).value.eng, p)
  {
    if a :| InFlight(s.rows, s.eng, p, order, a) {
      var steps := InFlightOutlasts(c, s, d, p, order, a);
    } else {
      forall steps | Drained(c, s, d, p, order, steps)
        ensures !Busy(Run(c, s, [OnDrain(d, Begin(p, order))] + steps).value.eng, p)
      {
        QuietPodEmpties(c, s, d, p, order, steps);
      }
    }
  }

  // ---------------------------------------------------------------- such a state is reached

  function SessionPrefix(): seq<Step> {
    [OnPod(Boot(1)), OnRow(Create(7, 0, None))] + Dispatched(1, 1, 7)
  }

  /** Pod 1 runs a session of thread 7. */
  ghost function SessionState(c: Config): State {
    var e := Engines(map[1 := PodState(false, map[])], map[], map[], map[]);
    AfterDispatch(c, State(0, map[7 := Row(0, None, Idle, None, None)], e, START.inbox), 1, 1, 7)
  }

  lemma SessionIsReached(c: Config)
    ensures Run(c, START, SessionPrefix()) == Some(SessionState(c)) && EnginesOk(c, SessionState(c).eng)
    ensures ListsLive(SessionState(c).eng, 1, [1])
  {
    var s1 := START.(eng := START.eng.(pods := map[1 := PodState(false, map[])]));
    var s2 := s1.(rows := map[7 := Row(0, None, Idle, None, None)]);
    DispatchedRuns(c, s2, 1, 1, 7);
    RunCons(c, s1, s2, OnRow(Create(7, 0, None)), Dispatched(1, 1, 7));
    RunCons(c, START, s1, OnPod(Boot(1)), [OnRow(Create(7, 0, None))] + Dispatched(1, 1, 7));
    assert SessionPrefix() == [OnPod(Boot(1))] + ([OnRow(Create(7, 0, None))] + Dispatched(1, 1, 7));
    RunKeepsEngines(c, START, SessionPrefix());
    OneIsListed(SessionState(c).eng);
  }

  lemma OneIsListed(e: Engines)
    requires e.live == map[(1, 7) := 1]
    ensures ListsLive(e, 1, [1])
  {
    assert (1, 7) in e.live;
  }

  function GapTail(): seq<Step> {
    [OnRow(Create(8, 0, None)), OnAgent(2, Enter(1, 8)), OnAgent(2, CheckDraining)]
  }

  /** And a dispatch of thread 8 is past the draining check. */
  ghost function GapState(c: Config): State {
    var s := SessionState(c);
    s.(rows := s.rows[8 := Row(0, None, Idle, None, None)], eng := SetAgent(s.eng, 2, Agent(1, 8, 0, Checked, Absent, 0)))
  }

  lemma GapIsReached(c: Config)
    ensures Run(c, START, SessionPrefix() + GapTail()) == Some(GapState(c)) && EnginesOk(c, GapState(c).eng)
    ensures ListsLive(GapState(c).eng, 1, [1]) && PastCheck(GapState(c).rows, GapState(c).eng, 1, [1], 2)
  {
    SessionIsReached(c);
    GapTailRuns(c);
    RunConcat(c, START, SessionPrefix(), GapTail());
    RunKeepsEngines(c, START, SessionPrefix() + GapTail());
    OneIsListed(GapState(c).eng);
  }

  lemma GapTailRuns(c: Config)
    ensures Run(c, SessionState(c), GapTail()) == Some(GapState(c))
  {
    var s := SessionState(c);
    assert 8 !in s.rows && 2 !in s.eng.agents && (1, 8) !in s.eng.live && 1 in s.eng.pods && !s.eng.pods[1].draining;
    CheckRuns(c, s, 2, 1, 8, GapState(c));
  }

  /** A new thread is created, and a dispatch for it passes the draining check. */
  lemma CheckRuns(c: Config, s: State, a: AgentId, p: Pod, t: ThreadId, s': State)
    requires t !in s.rows && a !in s.eng.agents && (p, t) !in s.eng.live && p in s.eng.pods && !s.eng.pods[p].draining
    requires s' == s.(rows := s.rows[t := Row(0, None, Idle, None, None)],
                      eng := SetAgent(s.eng, a, Agent(p, t, 0, Checked, Absent, 0)))
    ensures Run(c, s, [OnRow(Create(t, 0, None)), OnAgent(a, Enter(p, t)), OnAgent(a, CheckDraining)]) == Some(s')
  {
    var create, enter, check := OnRow(Create(t, 0, None)), OnAgent(a, Enter(p, t)), OnAgent(a, CheckDraining);
    var s1 := s.(rows := s.rows[t := Row(0, None, Idle, None, None)]);
    var s2 := s1.(eng := SetAgent(s1.eng, a, Agent(p, t, 0, Entered, Absent, 0)));
    assert s'.eng.agents == s2.eng.agents[a := Agent(p, t, 0, Checked, Absent, 0)];
    RunCons(c, s2, s', check, []);
    RunCons(c, s1, s2, enter, [check]);
    RunCons(c, s, s1, create, [enter, check]);
    assert [create, enter, check] == [create] + [enter, check];
  }

  /** A whole run: Drain waits for a session, returns uncancelled, and an agent of its pod still holds. */
  lemma DrainMissesInFlightDispatch(c: Config) returns (steps: seq<Step>)
    ensures Run(c, START, steps).Some?
    ensures
      var e := Run(c, START, steps).value.eng;
      && 0 in e.drains && e.drains[0] == Drain(1, [1], Returned) && Busy(e, 1)
  {
    GapIsReached(c);
    var more := InFlightOutlasts(c, GapState(c), 0, 1, [1], 2);
    var all := [OnDrain(0, Begin(1, [1]))] + more;
    RunConcat(c, START, SessionPrefix() + GapTail(), all);
    steps := SessionPrefix() + GapTail() + all;
    SnapshotStays(c, GapState(c), 0, 1, [1], more);
  }

  lemma SnapshotStays(c: Config, s: State, d: DrainId, p: Pod, order: seq<AgentId>, steps: seq<Step>)
    requires EnginesOk(c, s.eng) && p in s.eng.pods && d !in s.eng.drains && ListsLive(s.eng, p, order)
    requires Drained(c, s, d, p, order, steps)
    ensures Run(c, s, [OnDrain(d, Begin(p, order))] + steps).value.eng.drains[d] == Drain(p, order, Returned)
  {
    var s1 := Begun(s, d, p, order);
    assert Next(c, s, OnDrain(d, Begin(p, order))) == Some(s1);
    RunCons(c, s, s1, OnDrain(d, Begin(p, order)), steps);
    DrainKeepsSnapshot(c, s1, steps, d);
  }

  lemma {:induction false} DrainKeepsSnapshot(c: Config, s: State, steps: seq<Step>, d: DrainId)
    requires d in s.eng.drains && Run(c, s, steps).Some? && OnPod(Crash(s.eng.drains[d].pod)) !in steps
    ensures
      var e := Run(c, s, steps).value.eng;
      d in e.drains && e.drains[d].pod == s.eng.drains[d].pod && e.drains[d].snapshot == s.eng.drains[d].snapshot
    decreases |steps|
  {
    if steps != [] {
      StepKeepsSnapshot(c, s, steps[0], d);
      DrainKeepsSnapshot(c, Next(c, s, steps[0]).value, steps[1..], d);
    }
  }

  lemma StepKeepsSnapshot(c: Config, s: State, step: Step, d: DrainId)
    requires d in s.eng.drains && Next(c, s, step).Some? && step != OnPod(Crash(s.eng.drains[d].pod))
    ensures
      var e := Next(c, s, step).value.eng;
      d in e.drains && e.drains[d].pod == s.eng.drains[d].pod && e.drains[d].snapshot == s.eng.drains[d].snapshot
  {
  }
}
