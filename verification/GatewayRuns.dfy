/**
 Runs of one gateway: sessions coming and going, and any number of dispatches, signals and connectors
 at work at once. Each step is what happens under one lock or in one channel operation.
 */
module GatewayRuns {
  import opened Options
  import opened Gateway

  type Sid = nat
  type Did = nat
  type Gid = nat

  // ---------------------------------------------------------------- the registry

  /**
   `connector` and `latest` record every session ever added and the last one of each connector; `open`
   those whose stream has not ended; `sent` those a drain was sent to, `buffered` where it is unread,
   `read` where one was read.
   */
  datatype Reg = Reg(sessions: map<string, Sid>, connector: map<Sid, string>, latest: map<string, Sid>,
                     open: set<Sid>, sent: set<Sid>, buffered: set<Sid>, read: set<Sid>)

  datatype RegStep = Add(s: Sid, c: string) | Remove(s: Sid) | DrainAll | ReadDrain(s: Sid)

  predicate NextReg(r: Reg, r': Reg, step: RegStep) {
    match step
    case Add(s, c) =>
      var drained := Replaced(r.sessions, c);
      && s !in r.connector
      && r' == Reg(SessionsAfterAdd(r.sessions, c, s), r.connector[s := c], r.latest[c := s],
                   r.open + {s}, r.sent + drained, r.buffered + drained, r.read)
    case Remove(s) =>
      && s in r.open && s in r.connector
      && r' == r.(open := r.open - {s}, sessions := SessionsAfterRemove(r.sessions, r.connector[s], s))
    case DrainAll => r' == r.(sent := r.sent + r.sessions.Values, buffered := r.buffered + r.sessions.Values)
    case ReadDrain(s) => s in r.open && s in r.buffered && r' == r.(buffered := r.buffered - {s}, read := r.read + {s})
  }

  /** The registry is exactly: for each connector its last session, as long as that is open. */
  ghost predicate RegOk(r: Reg) { EntriesOk(r) && r.sent == r.buffered + r.read }

  ghost predicate EntriesOk(r: Reg) {
    && (forall s | s in r.open :: s in r.connector)
    && (forall s | s in r.connector :: r.connector[s] in r.latest)
    && (forall c | c in r.latest :: r.latest[c] in r.connector && r.connector[r.latest[c]] == c)
    && (forall c :: c in r.sessions <==> c in r.latest && r.latest[c] in r.open)
    && (forall c | c in r.sessions :: r.sessions[c] == r.latest[c])
    && (forall s | s in r.open && r.latest[r.connector[s]] != s :: s in r.sent)
  }

  lemma StepKeepsRegistry(r: Reg, r': Reg, step: RegStep)
    requires RegOk(r) && NextReg(r, r', step)
    ensures RegOk(r') && r.sent <= r'.sent
  {
    StepKeepsEntries(r, r', step);
    hide EntriesOk;
    if step.ReadDrain? {
      assert r.buffered + r.read == r'.buffered + r'.read;
    }
  }

  lemma StepKeepsEntries(r: Reg, r': Reg, step: RegStep)
    requires EntriesOk(r) && NextReg(r, r', step)
    ensures EntriesOk(r')
  {
  }

  /** A drain is read from where it is buffered and is gone then, and only a read takes it away. */
  lemma DrainsAreReadOnce(r: Reg, r': Reg, step: RegStep)
    requires RegOk(r) && NextReg(r, r', step)
    ensures r.buffered - r'.buffered == if step.ReadDrain? then {step.s} else {}
    ensures step.DrainAll? ==> r'.buffered == r.buffered + r.sessions.Values
    ensures step.Add? ==>
      r'.buffered == r.buffered + if step.c in r.sessions then {r.sessions[step.c]} else {}
  {
  }

  /** A session that ends leaves every other session's entry as it was, its successor's above all. */
  lemma RemoveSparesOthers(r: Reg, r': Reg, s: Sid)
    requires RegOk(r) && NextReg(r, r', Remove(s))
    ensures forall c | c in r.sessions && r.sessions[c] != s :: c in r'.sessions && r'.sessions[c] == r.sessions[c]
    ensures forall c :: c in r'.sessions ==> r'.sessions[c] != s
  {
  }

  // ---------------------------------------------------------------- dispatches and signals

  datatype Result = Answer(outcome: Outcome) | Cancelled

  datatype Stage = Got | Waiting | Sent | Done(result: Result)

  /** `at` is how many signals there had been when the dispatch registered. */
  datatype Dispatch = Dispatch(session: Sid, id: string, at: nat, stage: Stage)

  /** A command id was signalled on a session. */
  datatype Signalled = Signalled(session: Sid, id: string, outcome: Outcome)

  /** `carrying` are signals whose channel was taken out of `pending` but not yet written to. */
  datatype Cor = Cor(
    dispatches: map<Did, Dispatch>,
    pending: map<(Sid, string), Did>,
    slot: map<Did, Outcome>,
    carrying: map<Gid, (Did, Outcome)>,
    commands: map<Sid, seq<Did>>,
    log: seq<Signalled>)

  datatype CorStep =
    | Get(d: Did, s: Sid, id: string)
    | Await(d: Did)
    | Send(d: Did)
    | Receive(d: Did)
    | Cancel(d: Did)
    | LoopTake(s: Sid)
    | Take(g: Gid, s: Sid, id: string, o: Outcome)
    | Put(g: Gid)

  const COMMANDS := 4

  function KeyOf(d: Dispatch): (Sid, string) { (d.session, d.id) }

  function Queue(c: Cor, s: Sid): seq<Did> { if s in c.commands then c.commands[s] else [] }

  predicate Open(d: Dispatch) { d.stage.Waiting? || d.stage.Sent? }

  predicate AtStage(c: Cor, d: Did, stage: Stage) { d in c.dispatches && c.dispatches[d].stage == stage }

  predicate IsOpen(c: Cor, d: Did) { d in c.dispatches && Open(c.dispatches[d]) }

  function Moved(c: Cor, d: Did, stage: Stage): map<Did, Dispatch>
    requires d in c.dispatches
  {
    c.dispatches[d := c.dispatches[d].(stage := stage)]
  }

  function Registered(c: Cor, d: Did): Cor
    requires d in c.dispatches
  {
    c.(dispatches := c.dispatches[d := c.dispatches[d].(stage := Waiting, at := |c.log|)],
       pending := PendingAfterAwait(c.pending, KeyOf(c.dispatches[d]), d))
  }

  function Taken(c: Cor, g: Gid, s: Sid, id: string, o: Outcome): Cor {
    var k := (s, id);
    c.(log := c.log + [Signalled(s, id, o)],
       carrying := if k in c.pending then c.carrying[g := (c.pending[k], o)] else c.carrying,
       pending := PendingAfterTake(c.pending, k))
  }

  predicate NextCor(c: Cor, c': Cor, step: CorStep) {
    match step
    case Get(d, s, id) =>
      d !in c.dispatches && c' == c.(dispatches := c.dispatches[d := Dispatch(s, id, 0, Got)])
    case Await(d) => AtStage(c, d, Got) && c' == Registered(c, d)
    case Send(d) =>
      && AtStage(c, d, Waiting)
      && var s := c.dispatches[d].session;
         && |Queue(c, s)| < COMMANDS
         && c' == c.(dispatches := Moved(c, d, Sent), commands := c.commands[s := Queue(c, s) + [d]])
    case Receive(d) =>
      && AtStage(c, d, Sent) && d in c.slot
      && c' == c.(dispatches := Moved(c, d, Done(Answer(c.slot[d]))), slot := c.slot - {d})
    case Cancel(d) =>
      && IsOpen(c, d)
      && c' == c.(dispatches := Moved(c, d, Done(Cancelled)), pending := PendingAfterTake(c.pending, KeyOf(c.dispatches[d])))
    case LoopTake(s) => Queue(c, s) != [] && c' == c.(commands := c.commands[s := Queue(c, s)[1..]])
    case Take(g, s, id, o) => g !in c.carrying && c' == Taken(c, g, s, id, o)
    case Put(g) =>
      && g in c.carrying && c.carrying[g].0 !in c.slot
      && c' == c.(slot := c.slot[c.carrying[g].0 := c.carrying[g].1], carrying := c.carrying - {g})
  }

  /** The first outcome signalled for a command since the dispatch registered. */
  function FirstSince(log: seq<Signalled>, at: nat, k: (Sid, string)): Option<Outcome>
    decreases |log| - at
  {
    if at >= |log| then None
    else if (log[at].session, log[at].id) == k then Some(log[at].outcome)
    else FirstSince(log, at + 1, k)
  }

  lemma {:induction false} FirstSinceSnoc(log: seq<Signalled>, x: Signalled, at: nat, k: (Sid, string))
    requires at <= |log|
    ensures FirstSince(log + [x], at, k) ==
      if FirstSince(log, at, k).Some? then FirstSince(log, at, k)
      else if (x.session, x.id) == k then Some(x.outcome) else None
    decreases |log| - at
  {
    if at < |log| {
      FirstSinceSnoc(log, x, at + 1, k);
    } else {
      assert FirstSince(log + [x], at + 1, k) == None;
    }
  }

  function Heard(c: Cor, d: Did): Option<Outcome>
    requires d in c.dispatches
  {
    FirstSince(c.log, c.dispatches[d].at, KeyOf(c.dispatches[d]))
  }

  /** No signal on its way is for this dispatch. */
  ghost predicate NoneCarried(c: Cor, d: Did) { forall g | g in c.carrying :: c.carrying[g].0 != d }

  /** Until its command is signalled an open dispatch is the one pending; then its outcome is on the way or there. */
  ghost predicate OpenOk(c: Cor, d: Did)
    requires d in c.dispatches
  {
    var k := KeyOf(c.dispatches[d]);
    var heard := Heard(c, d);
    if heard.None? then k in c.pending && c.pending[k] == d && d !in c.slot && NoneCarried(c, d)
    else
      && k !in c.pending
      && (d in c.slot ==> c.slot[d] == heard.value && NoneCarried(c, d))
      && (d !in c.slot ==> exists g :: g in c.carrying && c.carrying[g].0 == d)
  }

  /** Open dispatches have keys of their own. */
  ghost predicate KeysOk(c: Cor) {
    forall d, e | IsOpen(c, d) && IsOpen(c, e) && d != e :: KeyOf(c.dispatches[d]) != KeyOf(c.dispatches[e])
  }

  /** Only open dispatches are pending, under their own keys. */
  ghost predicate PendingOk(c: Cor) {
    forall k | k in c.pending :: IsOpen(c, c.pending[k]) && KeyOf(c.dispatches[c.pending[k]]) == k
  }

  ghost predicate CarryingOk(c: Cor) {
    && (forall d | d in c.slot :: d in c.dispatches && !c.dispatches[d].stage.Got?)
    && (forall g | g in c.carrying :: CarriedOk(c, c.carrying[g]))
    && (forall g, h | g in c.carrying && h in c.carrying && g != h :: c.carrying[g].0 != c.carrying[h].0)
  }

  ghost predicate OpensOk(c: Cor) {
    && (forall d | d in c.dispatches && !c.dispatches[d].stage.Got? :: c.dispatches[d].at <= |c.log|)
    && (forall d | IsOpen(c, d) :: OpenOk(c, d))
  }

  /** An answer is the first outcome signalled since. */
  ghost predicate AnswersOk(c: Cor) {
    forall d | d in c.dispatches && c.dispatches[d].stage.Done? && c.dispatches[d].stage.result.Answer? ::
      c.dispatches[d].at <= |c.log| && Heard(c, d) == Some(c.dispatches[d].stage.result.outcome)
  }

  /** A command goes to the connector only after its dispatch has registered. */
  ghost predicate QueuesOk(c: Cor) {
    forall s, i | 0 <= i < |Queue(c, s)| :: QueuedOk(c, s, Queue(c, s)[i])
  }

  ghost predicate CorOk(c: Cor) { KeysOk(c) && PendingOk(c) && CarryingOk(c) && OpensOk(c) && AnswersOk(c) && QueuesOk(c) }

  ghost predicate CarriedOk(c: Cor, x: (Did, Outcome)) {
    && x.0 in c.dispatches && !c.dispatches[x.0].stage.Got? && x.0 !in c.slot
    && (Open(c.dispatches[x.0]) ==> Heard(c, x.0) == Some(x.1))
  }

  predicate QueuedOk(c: Cor, s: Sid, d: Did) {
    d in c.dispatches && c.dispatches[d].session == s && !c.dispatches[d].stage.Got? && !c.dispatches[d].stage.Waiting?
  }

  /** What is asked of callers: no two dispatches wait for one command id on one session at the same time. */
  ghost predicate Distinct(c: Cor, step: CorStep) {
    step.Await? && step.d in c.dispatches ==>
      forall e | IsOpen(c, e) :: KeyOf(c.dispatches[e]) != KeyOf(c.dispatches[step.d])
  }

  // ---------------------------------------------------------------- every step keeps it

  lemma QueuesStep(c: Cor, c': Cor, step: CorStep)
    requires QueuesOk(c) && NextCor(c, c', step)
    ensures QueuesOk(c')
  {
    assert forall d | d in c.dispatches && !c.dispatches[d].stage.Got? && !c.dispatches[d].stage.Waiting? ::
      d in c'.dispatches && c'.dispatches[d].session == c.dispatches[d].session
      && !c'.dispatches[d].stage.Got? && !c'.dispatches[d].stage.Waiting?;
    forall t, i | 0 <= i < |Queue(c', t)| ensures QueuedOk(c', t, Queue(c', t)[i]) {
      if step.LoopTake? && step.s == t {
        assert QueuedOk(c, t, Queue(c, t)[i + 1]);
      } else if i < |Queue(c, t)| {
        assert QueuedOk(c, t, Queue(c, t)[i]);
      }
    }
  }

  /** What was heard stays so: a later signal changes nothing. */
  lemma HeardStays(c: Cor, c': Cor, step: CorStep, d: Did)
    requires NextCor(c, c', step) && d in c.dispatches && c.dispatches[d].at <= |c.log|
    requires !(step.Await? && step.d == d) && !(step.Get? && step.d == d)
    ensures d in c'.dispatches && c'.dispatches[d].at == c.dispatches[d].at && KeyOf(c'.dispatches[d]) == KeyOf(c.dispatches[d])
    ensures Heard(c', d) ==
      if Heard(c, d).None? && step.Take? && (step.s, step.id) == KeyOf(c.dispatches[d]) then Some(step.o) else Heard(c, d)
  {
    if step.Take? {
      FirstSinceSnoc(c.log, Signalled(step.s, step.id, step.o), c.dispatches[d].at, KeyOf(c.dispatches[d]));
    }
  }

  lemma AnswersStep(c: Cor, c': Cor, step: CorStep)
    requires OpensOk(c) && AnswersOk(c) && NextCor(c, c', step)
    ensures AnswersOk(c')
  {
    forall d | d in c'.dispatches && c'.dispatches[d].stage.Done? && c'.dispatches[d].stage.result.Answer?
      ensures c'.dispatches[d].at <= |c'.log| && Heard(c', d) == Some(c'.dispatches[d].stage.result.outcome)
    {
      HeardStays(c, c', step, d);
      if step.Receive? && step.d == d {
        assert IsOpen(c, d) && OpenOk(c, d);
      }
    }
  }

  lemma KeysStep(c: Cor, c': Cor, step: CorStep)
    requires KeysOk(c) && NextCor(c, c', step) && Distinct(c, step)
    ensures KeysOk(c')
  {
  }

  lemma PendingStep(c: Cor, c': Cor, step: CorStep)
    requires KeysOk(c) && PendingOk(c) && OpensOk(c) && NextCor(c, c', step)
    ensures PendingOk(c')
  {
    forall k | k in c'.pending ensures IsOpen(c', c'.pending[k]) && KeyOf(c'.dispatches[c'.pending[k]]) == k {
      if !(step.Await? && k == KeyOf(c.dispatches[step.d])) {
        PendingStays(c, c', step, k);
      }
    }
  }

  /** A key that is pending after a step, and not because of it, belongs to the dispatch it belonged to. */
  lemma PendingStays(c: Cor, c': Cor, step: CorStep, k: (Sid, string))
    requires PendingOk(c) && OpensOk(c) && NextCor(c, c', step) && k in c'.pending
    requires !(step.Await? && k == KeyOf(c.dispatches[step.d]))
    ensures IsOpen(c', c'.pending[k]) && KeyOf(c'.dispatches[c'.pending[k]]) == k
  {
    assert k in c.pending && c'.pending[k] == c.pending[k];
    assert IsOpen(c, c.pending[k]);
    if step.Receive? {
      assert OpenOk(c, step.d);
    }
  }

  /** An open dispatch a step does not touch stays as it was. */
  lemma UntouchedStaysOpen(c: Cor, c': Cor, d: Did)
    requires d in c.dispatches && d in c'.dispatches && OpenOk(c, d)
    requires KeyOf(c'.dispatches[d]) == KeyOf(c.dispatches[d]) && Heard(c', d) == Heard(c, d)
    requires
      var k := KeyOf(c.dispatches[d]);
      (k in c'.pending <==> k in c.pending) && (k in c.pending ==> c'.pending[k] == c.pending[k])
    requires (d in c'.slot <==> d in c.slot) && (d in c.slot ==> c'.slot[d] == c.slot[d])
    requires c'.carrying == c.carrying
    ensures OpenOk(c', d)
  {
  }

  /** Every step but the two of a signal. */
  lemma CallerKeepsOpens(c: Cor, c': Cor, step: CorStep)
    requires KeysOk(c) && CarryingOk(c) && OpensOk(c) && NextCor(c, c', step) && Distinct(c, step)
    requires !step.Take? && !step.Put?
    ensures OpensOk(c')
  {
    forall d | IsOpen(c', d) ensures OpenOk(c', d) {
      if step.Await? && step.d == d {
        assert Heard(c', d) == None;
        assert forall g | g in c.carrying :: CarriedOk(c, c.carrying[g]);
      } else {
        assert IsOpen(c, d) && OpenOk(c, d);
        HeardStays(c, c', step, d);
        UntouchedStaysOpen(c, c', d);
      }
    }
  }

  lemma CallerKeepsCarrying(c: Cor, c': Cor, step: CorStep)
    requires CarryingOk(c) && OpensOk(c) && NextCor(c, c', step) && !step.Take? && !step.Put?
    ensures CarryingOk(c')
  {
    forall g | g in c'.carrying ensures CarriedOk(c', c'.carrying[g]) {
      assert CarriedOk(c, c.carrying[g]);
      HeardStays(c, c', step, c.carrying[g].0);
    }
  }

  lemma TakeKeepsOpens(c: Cor, c': Cor, g: Gid, s: Sid, id: string, o: Outcome)
    requires PendingOk(c) && OpensOk(c) && NextCor(c, c', Take(g, s, id, o))
    ensures OpensOk(c')
  {
    forall d | IsOpen(c', d) ensures OpenOk(c', d) {
      assert IsOpen(c, d) && OpenOk(c, d);
      HeardStays(c, c', Take(g, s, id, o), d);
      TakeKeepsOpen(c, c', g, s, id, o, d);
    }
  }

  lemma TakeKeepsOpen(c: Cor, c': Cor, g: Gid, s: Sid, id: string, o: Outcome, d: Did)
    requires NextCor(c, c', Take(g, s, id, o)) && d in c.dispatches && OpenOk(c, d)
    requires (s, id) in c.pending && KeyOf(c.dispatches[d]) != (s, id) ==> c.pending[(s, id)] != d
    requires Heard(c', d) == if Heard(c, d).None? && (s, id) == KeyOf(c.dispatches[d]) then Some(o) else Heard(c, d)
    ensures OpenOk(c', d)
  {
    if KeyOf(c.dispatches[d]) == (s, id) && Heard(c, d).None? {
      assert g in c'.carrying && c'.carrying[g].0 == d;
    } else if Heard(c, d).Some? && d !in c.slot {
      var h :| h in c.carrying && c.carrying[h].0 == d;
      assert h in c'.carrying && c'.carrying[h].0 == d;
    }
  }

  lemma TakeKeepsCarrying(c: Cor, c': Cor, g: Gid, s: Sid, id: string, o: Outcome)
    requires PendingOk(c) && CarryingOk(c) && OpensOk(c) && NextCor(c, c', Take(g, s, id, o))
    ensures CarryingOk(c')
  {
    if (s, id) in c.pending {
      assert OpenOk(c, c.pending[(s, id)]);
    }
    forall h | h in c'.carrying ensures CarriedOk(c', c'.carrying[h]) {
      HeardStays(c, c', Take(g, s, id, o), c'.carrying[h].0);
      if h != g {
        assert CarriedOk(c, c.carrying[h]);
      }
    }
  }

  lemma PutKeepsOpens(c: Cor, c': Cor, g: Gid)
    requires CarryingOk(c) && OpensOk(c) && NextCor(c, c', Put(g))
    ensures OpensOk(c')
  {
    var x := c.carrying[g];
    assert CarriedOk(c, x);
    forall d | IsOpen(c', d) ensures OpenOk(c', d) {
      assert OpenOk(c, d);
      HeardStays(c, c', Put(g), d);
      if d != x.0 && Heard(c, d).Some? && d !in c.slot {
        var h :| h in c.carrying && c.carrying[h].0 == d;
        assert h in c'.carrying && c'.carrying[h].0 == d;
      }
    }
  }

  lemma PutKeepsCarrying(c: Cor, c': Cor, g: Gid)
    requires CarryingOk(c) && OpensOk(c) && NextCor(c, c', Put(g))
    ensures CarryingOk(c')
  {
  }

  lemma StepKeepsCorrelation(c: Cor, c': Cor, step: CorStep)
    requires CorOk(c) && NextCor(c, c', step) && Distinct(c, step)
    ensures CorOk(c')
  {
    QueuesStep(c, c', step);
    AnswersStep(c, c', step);
    KeysStep(c, c', step);
    PendingStep(c, c', step);
    if step.Take? {
      TakeKeepsOpens(c, c', step.g, step.s, step.id, step.o);
      TakeKeepsCarrying(c, c', step.g, step.s, step.id, step.o);
    } else if step.Put? {
      PutKeepsOpens(c, c', step.g);
      PutKeepsCarrying(c, c', step.g);
    } else {
      CallerKeepsOpens(c, c', step);
      CallerKeepsCarrying(c, c', step);
    }
  }

  // ---------------------------------------------------------------- runs of the gateway

  datatype State = State(reg: Reg, cor: Cor)

  /** A dispatch looks its connector up and then goes on with the session it found, replaced since or not. */
  datatype Step = OnRegistry(reg: RegStep) | Find(d: Did, connector: string, id: string) | OnSession(cor: CorStep)

  predicate Next(s: State, s': State, step: Step) {
    match step
    case OnRegistry(r) => NextReg(s.reg, s'.reg, r) && s'.cor == s.cor
    case Find(d, connector, id) =>
      && s'.reg == s.reg
      && (if connector in s.reg.sessions then NextCor(s.cor, s'.cor, Get(d, s.reg.sessions[connector], id)) else s'.cor == s.cor)
    case OnSession(c) => s'.reg == s.reg && !c.Get? && NextCor(s.cor, s'.cor, c)
  }

  const START := State(Reg(map[], map[], map[], {}, {}, {}, {}), Cor(map[], map[], map[], map[], map[], []))

  /** Callers never let two dispatches wait for one id on one session at once. */
  ghost predicate Run(states: seq<State>, steps: seq<Step>) {
    && |states| == |steps| + 1 && states[0] == START
    && forall i | 0 <= i < |steps| ::
         Next(states[i], states[i + 1], steps[i]) && (steps[i].OnSession? ==> Distinct(states[i].cor, steps[i].cor))
  }

  lemma {:induction false} RunIsSafe(states: seq<State>, steps: seq<Step>)
    requires Run(states, steps)
    ensures var s := states[|steps|]; RegOk(s.reg) && CorOk(s.cor)
    decreases |steps|
  {
    if steps == [] {
      assert forall s: Sid :: Queue(START.cor, s) == [];
    } else {
      var n := |steps| - 1;
      RunIsSafe(states[..n + 1], steps[..n]);
      var s, s', step := states[n], states[n + 1], steps[n];
      assert Next(s, s', step);
      match step
      case OnRegistry(r) => StepKeepsRegistry(s.reg, s'.reg, r);
      case OnSession(c) => StepKeepsCorrelation(s.cor, s'.cor, c);
      case Find(d, connector, id) =>
        if connector in s.reg.sessions {
          StepKeepsCorrelation(s.cor, s'.cor, Get(d, s.reg.sessions[connector], id));
        }
    }
  }

  lemma {:induction false} FirstSinceMeaning(log: seq<Signalled>, at: nat, k: (Sid, string), o: Outcome)
    requires FirstSince(log, at, k) == Some(o)
    ensures exists i :: IsFirst(log, at, k, o, i)
    decreases |log| - at
  {
    if (log[at].session, log[at].id) == k {
      assert IsFirst(log, at, k, o, at);
    } else {
      FirstSinceMeaning(log, at + 1, k, o);
      var i :| IsFirst(log, at + 1, k, o, i);
      assert IsFirst(log, at, k, o, i);
    }
  }

  predicate IsFirst(log: seq<Signalled>, at: nat, k: (Sid, string), o: Outcome, i: int) {
    && at <= i < |log| && log[i] == Signalled(k.0, k.1, o)
    && forall j | at <= j < i :: (log[j].session, log[j].id) != k
  }

  /** What a dispatch returns is the first outcome signalled for its own command on its own session since it registered. */
  lemma DispatchHearsItsOwn(states: seq<State>, steps: seq<Step>, d: Did, o: Outcome)
    requires Run(states, steps) && AtStage(states[|steps|].cor, d, Done(Answer(o)))
    ensures
      var c := states[|steps|].cor;
      var x := c.dispatches[d];
      exists i :: x.at <= i < |c.log| && c.log[i] == Signalled(x.session, x.id, o)
                  && forall j | x.at <= j < i :: c.log[j].session != x.session || c.log[j].id != x.id
  {
    RunIsSafe(states, steps);
    var c := states[|steps|].cor;
    FirstSinceMeaning(c.log, c.dispatches[d].at, KeyOf(c.dispatches[d]), o);
    var i :| IsFirst(c.log, c.dispatches[d].at, KeyOf(c.dispatches[d]), o, i);
  }

  /**
   In every reachable state: a signal in hand can be put in its channel at once; a command once signalled
   reaches the dispatch waiting for it; nothing pending belongs to a dispatch that is over.
   */
  lemma SignalsNeitherBlockNorLeak(states: seq<State>, steps: seq<Step>)
    requires Run(states, steps)
    ensures
      var c := states[|steps|].cor;
      && (forall g | g in c.carrying :: exists c' :: NextCor(c, c', Put(g)))
      && (forall d: Did | AtStage(c, d, Sent) && Heard(c, d).Some? ::
            (exists c' :: NextCor(c, c', Receive(d))) || (exists g :: g in c.carrying && c.carrying[g] == (d, Heard(c, d).value)))
      && (forall d | d in c.dispatches && c.dispatches[d].stage.Done? :: d !in c.pending.Values)
  {
    RunIsSafe(states, steps);
    var c := states[|steps|].cor;
    forall g | g in c.carrying ensures exists c' :: NextCor(c, c', Put(g)) {
      var x := c.carrying[g];
      assert CarriedOk(c, x);
      assert NextCor(c, c.(slot := c.slot[x.0 := x.1], carrying := c.carrying - {g}), Put(g));
    }
    forall d: Did | AtStage(c, d, Sent) && Heard(c, d).Some?
      ensures (exists c' :: NextCor(c, c', Receive(d))) || (exists g :: g in c.carrying && c.carrying[g] == (d, Heard(c, d).value))
    {
      assert OpenOk(c, d);
      if d in c.slot {
        assert NextCor(c, c.(dispatches := Moved(c, d, Done(Answer(c.slot[d]))), slot := c.slot - {d}), Receive(d));
      } else {
        var g :| g in c.carrying && c.carrying[g].0 == d;
        assert CarriedOk(c, c.carrying[g]);
        assert c.carrying[g] == (d, Heard(c, d).value);
      }
    }
  }

  /** In every reachable state the registry holds each connector's last session while it is open; any other open one has a drain to read or read it. */
  lemma RegistryIsExact(states: seq<State>, steps: seq<Step>)
    requires Run(states, steps)
    ensures
      var r := states[|steps|].reg;
      && (forall c :: c in r.sessions <==> c in r.latest && r.latest[c] in r.open)
      && (forall c | c in r.sessions :: r.sessions[c] == r.latest[c])
      && (forall s | s in r.open && s !in r.sessions.Values :: s in r.buffered || s in r.read)
  {
    RunIsSafe(states, steps);
    var r := states[|steps|].reg;
    forall s | s in r.open && s !in r.sessions.Values ensures s in r.buffered || s in r.read {
      var c := r.connector[s];
      assert c in r.sessions ==> r.sessions[c] in r.sessions.Values;
    }
  }

  /** In every run each session has at most four commands waiting to be written. */
  lemma {:induction false} CommandsAreBounded(states: seq<State>, steps: seq<Step>, s: Sid)
    requires Run(states, steps)
    ensures |Queue(states[|steps|].cor, s)| <= 4
    decreases |steps|
  {
    if steps != [] {
      var n := |steps| - 1;
      CommandsAreBounded(states[..n + 1], steps[..n], s);
      assert Next(states[n], states[n + 1], steps[n]);
      QueueBound(states[n], states[n + 1], steps[n], s);
    }
  }

  lemma QueueBound(a: State, b: State, step: Step, s: Sid)
    requires Next(a, b, step) && |Queue(a.cor, s)| <= 4
    ensures |Queue(b.cor, s)| <= 4
  {
  }
}
