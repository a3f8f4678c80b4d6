/**
 What happens when two dispatches wait for one command id on one session at the same time: exactly then an
 outcome can be lost for good.
 */
module SharedIds {
  import opened Options
  import opened Gateway
  import opened GatewayRuns

  /** Its command was signalled, yet nothing is in its channel, on its way, or registered to reach it. */
  ghost predicate Lost(c: Cor, d: Did) {
    && IsOpen(c, d) && c.dispatches[d].at <= |c.log| && Heard(c, d).Some?
    && d !in c.slot && NoneCarried(c, d) && d !in c.pending.Values
  }

  /** A lost outcome stays lost: all the dispatch can still do is give up. */
  lemma LostForGood(c: Cor, c': Cor, step: CorStep, d: Did)
    requires Lost(c, d) && NextCor(c, c', step)
    ensures Lost(c', d) || step == Cancel(d)
  {
    HeardStays(c, c', step, d);
    assert forall k | k in c.pending :: c.pending[k] in c.pending.Values;
  }

  lemma NothingIsLost(c: Cor, d: Did)
    requires CorOk(c)
    ensures !Lost(c, d)
  {
    if IsOpen(c, d) {
      assert OpenOk(c, d);
    }
  }

  function CancelledAt(c: Cor, d: Did): Cor
    requires d in c.dispatches
  {
    c.(dispatches := Moved(c, d, Done(Cancelled)), pending := PendingAfterTake(c.pending, KeyOf(c.dispatches[d])))
  }

  /** The second dispatch takes over the registration and gives up: the first never hears its outcome. */
  lemma FirstIsLost(c: Cor, d: Did, e: Did, g: Gid, o: Outcome)
    requires CorOk(c) && IsOpen(c, d) && Heard(c, d).None? && AtStage(c, e, Got) && g !in c.carrying
    requires KeyOf(c.dispatches[e]) == KeyOf(c.dispatches[d])
    ensures
      var k := KeyOf(c.dispatches[d]);
      var c1 := Registered(c, e);
      var c2 := CancelledAt(c1, e);
      var c3 := Taken(c2, g, k.0, k.1, o);
      && NextCor(c, c1, Await(e)) && NextCor(c1, c2, Cancel(e)) && NextCor(c2, c3, Take(g, k.0, k.1, o))
      && Lost(c3, d) && c3.dispatches[d] == c.dispatches[d] && Heard(c3, d) == Some(o)
  {
    var k := KeyOf(c.dispatches[d]);
    var c2 := CancelledAt(Registered(c, e), e);
    assert OpenOk(c, d);
    assert forall j | j in c2.pending :: j != k && j in c.pending && c2.pending[j] == c.pending[j];
    UnregisteredIsLost(c2, d, g, o);
  }

  /** An open dispatch that heard nothing and is registered nowhere loses the outcome signalled for it. */
  lemma UnregisteredIsLost(c: Cor, d: Did, g: Gid, o: Outcome)
    requires IsOpen(c, d) && c.dispatches[d].at <= |c.log| && Heard(c, d).None?
    requires d !in c.slot && NoneCarried(c, d) && d !in c.pending.Values && KeyOf(c.dispatches[d]) !in c.pending
    ensures
      var k := KeyOf(c.dispatches[d]);
      var c' := Taken(c, g, k.0, k.1, o);
      Lost(c', d) && c'.dispatches[d] == c.dispatches[d] && Heard(c', d) == Some(o)
  {
    var k := KeyOf(c.dispatches[d]);
    FirstSinceSnoc(c.log, Signalled(k.0, k.1, o), c.dispatches[d].at, k);
    assert PendingAfterTake(c.pending, k) == c.pending;
  }

  /** If the first has its outcome already, its giving up takes the second's registration away. */
  lemma SecondIsLost(c: Cor, d: Did, e: Did, g: Gid, o: Outcome)
    requires CorOk(c) && IsOpen(c, d) && Heard(c, d).Some? && AtStage(c, e, Got) && g !in c.carrying
    requires KeyOf(c.dispatches[e]) == KeyOf(c.dispatches[d])
    ensures
      var k := KeyOf(c.dispatches[d]);
      var c1 := Registered(c, e);
      var c2 := CancelledAt(c1, d);
      var c3 := Taken(c2, g, k.0, k.1, o);
      && NextCor(c, c1, Await(e)) && NextCor(c1, c2, Cancel(d)) && NextCor(c2, c3, Take(g, k.0, k.1, o))
      && Lost(c3, e) && Heard(c3, e) == Some(o)
  {
    var k := KeyOf(c.dispatches[d]);
    var c1 := Registered(c, e);
    var c2 := CancelledAt(c1, d);
    assert Heard(c1, e) == None;
    assert forall h | h in c.carrying :: CarriedOk(c, c.carrying[h]);
    assert forall j | j in c2.pending :: j != k && j in c.pending && c2.pending[j] == c.pending[j];
    UnregisteredIsLost(c2, e, g, o);
  }

  /** A run of one session's dispatches and signals in which every later registration is of an id not awaited. */
  ghost predicate CorRun(c: Cor, cs: seq<Cor>, steps: seq<CorStep>) {
    && |cs| == |steps| + 1 && cs[0] == c
    && forall i | 0 <= i < |steps| :: NextCor(cs[i], cs[i + 1], steps[i]) && Distinct(cs[i], steps[i])
  }

  lemma {:induction false} CorRunIsSafe(c: Cor, cs: seq<Cor>, steps: seq<CorStep>)
    requires CorOk(c) && CorRun(c, cs, steps)
    ensures CorOk(cs[|steps|])
    decreases |steps|
  {
    if steps != [] {
      var n := |steps| - 1;
      CorRunIsSafe(c, cs[..n + 1], steps[..n]);
      StepKeepsCorrelation(cs[n], cs[n + 1], steps[n]);
    }
  }

  ghost predicate CanLose(c: Cor) {
    exists cs, steps, d :: CorRun(c, cs, steps) && Lost(cs[|steps|], d)
  }

  lemma {:induction false} FreshNat(s: set<nat>) returns (n: nat)
    ensures forall x: nat | x in s :: x < n
    decreases |s|
  {
    if s == {} {
      n := 0;
    } else {
      var x: nat :| x in s;
      n := FreshNat(s - {x});
      assert s == (s - {x}) + {x};
      if n <= x { n := x + 1; }
    }
  }

  /**
   A registration can lead to a lost outcome, though every later one is of an id nobody awaits, if and only
   if its own id is awaited on the session already.
   */
  lemma AwaitLosesIff(c: Cor, e: Did)
    requires CorOk(c) && AtStage(c, e, Got)
    ensures CanLose(Registered(c, e)) <==> !Distinct(c, Await(e))
  {
    var c1 := Registered(c, e);
    assert NextCor(c, c1, Await(e));
    if Distinct(c, Await(e)) {
      StepKeepsCorrelation(c, c1, Await(e));
      forall cs, steps, d | CorRun(c1, cs, steps) ensures !Lost(cs[|steps|], d) {
        CorRunIsSafe(c1, cs, steps);
        NothingIsLost(cs[|steps|], d);
      }
    } else {
      var d: Did :| IsOpen(c, d) && KeyOf(c.dispatches[d]) == KeyOf(c.dispatches[e]);
      SharedAwaitLoses(c, d, e);
    }
  }

  lemma SharedAwaitLoses(c: Cor, d: Did, e: Did)
    requires CorOk(c) && IsOpen(c, d) && AtStage(c, e, Got) && KeyOf(c.dispatches[e]) == KeyOf(c.dispatches[d])
    ensures CanLose(Registered(c, e))
  {
    var c1 := Registered(c, e);
    var k := KeyOf(c.dispatches[d]);
    var g := FreshNat(c.carrying.Keys);
    if Heard(c, d).None? {
      FirstIsLost(c, d, e, g, Success);
      CanLoseIn2(c1, Cancel(e), Take(g, k.0, k.1, Success), CancelledAt(c1, e), Taken(CancelledAt(c1, e), g, k.0, k.1, Success), d);
    } else {
      SecondIsLost(c, d, e, g, Success);
      CanLoseIn2(c1, Cancel(d), Take(g, k.0, k.1, Success), CancelledAt(c1, d), Taken(CancelledAt(c1, d), g, k.0, k.1, Success), e);
    }
  }

  lemma CanLoseIn2(c1: Cor, x: CorStep, y: CorStep, c2: Cor, c3: Cor, d: Did)
    requires NextCor(c1, c2, x) && NextCor(c2, c3, y) && !x.Await? && !y.Await? && Lost(c3, d)
    ensures CanLose(c1)
  {
    assert CorRun(c1, [c1, c2, c3], [x, y]) && Lost([c1, c2, c3][|[x, y]|], d);
  }

  // ---------------------------------------------------------------- such a state is reached

  /** Two dispatches found the session, the first registered and its command is with the connector. */
  lemma SharedIdIsReached(connector: string, id: string) returns (states: seq<State>, steps: seq<Step>)
    ensures Run(states, steps)
    ensures
      var c := states[|steps|].cor;
      && AtStage(c, 0, Sent) && Heard(c, 0).None? && AtStage(c, 1, Got) && KeyOf(c.dispatches[0]) == KeyOf(c.dispatches[1]) == (0, id)
      && Queue(c, 0) == [] && c.carrying == map[]
  {
    var r1 := Reg(map[connector := 0], map[0 := connector], map[connector := 0], {0}, {}, {}, {});
    var c0 := START.cor;
    var c1 := c0.(dispatches := c0.dispatches[0 := Dispatch(0, id, 0, Got)]);
    var c2 := c1.(dispatches := c1.dispatches[1 := Dispatch(0, id, 0, Got)]);
    var c3 := Registered(c2, 0);
    var c4 := c3.(dispatches := Moved(c3, 0, Sent), commands := c3.commands[0 := Queue(c3, 0) + [0]]);
    var c5 := c4.(commands := c4.commands[0 := []]);
    states := [START, State(r1, c0), State(r1, c1), State(r1, c2), State(r1, c3), State(r1, c4), State(r1, c5)];
    steps := [OnRegistry(Add(0, connector)), Find(0, connector, id), Find(1, connector, id),
              OnSession(Await(0)), OnSession(Send(0)), OnSession(LoopTake(0))];
    assert NextReg(START.reg, r1, Add(0, connector)) by {
      assert START.reg.open + {0} == {0};
    }
    assert NextCor(c0, c1, Get(0, 0, id)) && NextCor(c1, c2, Get(1, 0, id)) && NextCor(c2, c3, Await(0));
    assert Queue(c4, 0) == [0] && Queue(c4, 0)[1..] == [];
    assert NextCor(c3, c4, Send(0)) && NextCor(c4, c5, LoopTake(0));
    assert Distinct(c2, Await(0));
  }

  /** A whole run from the start, then one registration of an awaited id, given up: the outcome that comes is lost. */
  lemma SharedIdLosesOutcome(connector: string, id: string, o: Outcome) returns (states: seq<State>, steps: seq<Step>, c1: Cor, c2: Cor, c3: Cor)
    ensures Run(states, steps)
    ensures
      && NextCor(states[|steps|].cor, c1, Await(1)) && NextCor(c1, c2, Cancel(1)) && NextCor(c2, c3, Take(0, 0, id, o))
      && AtStage(c3, 0, Sent) && Heard(c3, 0) == Some(o) && Lost(c3, 0)
  {
    states, steps := SharedIdIsReached(connector, id);
    RunIsSafe(states, steps);
    var c := states[|steps|].cor;
    FirstIsLost(c, 0, 1, 0, o);
    c1 := Registered(c, 1);
    c2 := CancelledAt(c1, 1);
    c3 := Taken(c2, 0, 0, id, o);
  }
}
