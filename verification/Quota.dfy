/**
 The monthly quota gate under concurrency. A call asks the gate, runs, and its usage reaches the ledger
 later, possibly several times; meanwhile other calls pass. With a hard stop and a gate that answers, this
 bounds how far the recorded usage can pass the budget, and shows that the bound is reached.
 */
module Quota {
  import opened Options

  type CallId = nat

  /** A call past the gate: still running, or done with a cost that is being reported. */
  datatype Phase = Running | Reporting(cost: nat)

  /** `ledger` is this month's billable usage by call; `past` the calls past the gate that are not over. */
  datatype State = State(ledger: map<CallId, nat>, past: map<CallId, Phase>)

  datatype Limits = Limits(budget: int, atOnce: nat, perCall: nat)

  datatype Step =
    | Check(i: CallId)
    | Finish(i: CallId, cost: nat)
    | Post(i: CallId)
    | Over(i: CallId)

  ghost function Sum(m: map<CallId, nat>): nat
    decreases |m|
  {
    if m == map[] then 0 else var k :| k in m; m[k] + Sum(m - {k})
  }

  lemma {:induction false} SumWithout(m: map<CallId, nat>, k: CallId)
    requires k in m
    ensures Sum(m) == m[k] + Sum(m - {k})
    decreases |m|
  {
    var j :| j in m && Sum(m) == m[j] + Sum(m - {j});
    if j != k {
      SumWithout(m - {j}, k);
      SumWithout(m - {k}, j);
      assert (m - {j}) - {k} == (m - {k}) - {j};
    }
  }

  lemma SumInsert(m: map<CallId, nat>, k: CallId, v: nat)
    requires k !in m
    ensures Sum(m[k := v]) == Sum(m) + v
  {
    SumWithout(m[k := v], k);
    assert m[k := v] - {k} == m;
  }

  /**
   One step. The gate lets a call pass while the recorded usage is below the budget. A report may be
   posted any number of times while the call reports, and afterwards only as a repetition.
   */
  ghost function Next(l: Limits, s: State, step: Step): Option<State> {
    match step
    case Check(i) =>
      if i in s.past || i in s.ledger || |s.past| >= l.atOnce then None
      else if Sum(s.ledger) >= l.budget then Some(s)
      else Some(s.(past := s.past[i := Running]))
    case Finish(i, cost) =>
      if i !in s.past || !s.past[i].Running? || cost > l.perCall then None
      else Some(s.(past := s.past[i := Reporting(cost)]))
    case Post(i) =>
      if i in s.ledger then Some(s)
      else if i in s.past && s.past[i].Reporting? then Some(s.(ledger := s.ledger[i := s.past[i].cost]))
      else None
    case Over(i) =>
      if i !in s.past || !s.past[i].Reporting? then None else Some(s.(past := s.past - {i}))
  }

  ghost function Run(l: Limits, s: State, steps: seq<Step>): Option<State>
    decreases |steps|
  {
    if steps == [] then Some(s)
    else match Next(l, s, steps[0])
         case None => None
         case Some(s1) => Run(l, s1, steps[1..])
  }

  /** Calls past the gate whose usage is not in the ledger yet. */
  ghost function Unrecorded(s: State): set<CallId> {
    set i | i in s.past && i !in s.ledger
  }

  ghost function Bound(l: Limits): int {
    l.budget - 1 + l.atOnce * l.perCall
  }

  ghost predicate Within(l: Limits, s: State) {
    && Sum(s.ledger) + |Unrecorded(s)| * l.perCall <= Bound(l)
    && |s.past| <= l.atOnce
    && forall i | i in s.past && s.past[i].Reporting? :: s.past[i].cost <= l.perCall
  }

  lemma FewerUnrecorded(s: State)
    ensures Unrecorded(s) <= s.past.Keys && |Unrecorded(s)| <= |s.past|
  {
    SubsetSize(Unrecorded(s), s.past.Keys);
  }

  lemma {:induction false} SubsetSize(a: set<CallId>, b: set<CallId>)
    requires a <= b
    ensures |a| <= |b|
  {
    if a != {} {
      var x :| x in a;
      SubsetSize(a - {x}, b - {x});
    }
  }

  lemma MulMono(a: nat, b: nat, c: nat)
    requires a <= b
    ensures a * c <= b * c
  {
  }

  lemma PassKeepsWithin(l: Limits, s: State, i: CallId)
    requires Within(l, s) && i !in s.past && |s.past| < l.atOnce && Sum(s.ledger) < l.budget
    ensures Within(l, s.(past := s.past[i := Running]))
  {
    var s' := s.(past := s.past[i := Running]);
    FewerUnrecorded(s');
    assert s'.past.Keys == s.past.Keys + {i};
    MulMono(|Unrecorded(s')|, l.atOnce, l.perCall);
  }

  lemma FinishKeepsWithin(l: Limits, s: State, i: CallId, cost: nat)
    requires Within(l, s) && i in s.past && cost <= l.perCall
    ensures Within(l, s.(past := s.past[i := Reporting(cost)]))
  {
    var s' := s.(past := s.past[i := Reporting(cost)]);
    assert Unrecorded(s') == Unrecorded(s);
    assert s'.past.Keys == s.past.Keys;
  }

  lemma OneLess(n: nat, c: nat)
    ensures (n + 1) * c == n * c + c
  {
  }

  lemma PostKeepsWithin(l: Limits, s: State, i: CallId)
    requires Within(l, s) && i in s.past && s.past[i].Reporting? && i !in s.ledger
    ensures Within(l, s.(ledger := s.ledger[i := s.past[i].cost]))
  {
    hide Sum;
    var s' := s.(ledger := s.ledger[i := s.past[i].cost]);
    SumInsert(s.ledger, i, s.past[i].cost);
    assert Unrecorded(s) == Unrecorded(s') + {i};
    OneLess(|Unrecorded(s')|, l.perCall);
  }

  lemma OverKeepsWithin(l: Limits, s: State, i: CallId)
    requires Within(l, s)
    ensures Within(l, s.(past := s.past - {i}))
  {
    var s' := s.(past := s.past - {i});
    assert Unrecorded(s') <= Unrecorded(s);
    SubsetSize(Unrecorded(s'), Unrecorded(s));
    MulMono(|Unrecorded(s')|, |Unrecorded(s)|, l.perCall);
    SubsetSize(s'.past.Keys, s.past.Keys);
  }

  lemma StepKeepsWithin(l: Limits, s: State, step: Step)
    requires Within(l, s) && Next(l, s, step).Some?
    ensures Within(l, Next(l, s, step).value)
  {
    match step {
      case Check(i) => if Sum(s.ledger) < l.budget { PassKeepsWithin(l, s, i); }
      case Finish(i, cost) => FinishKeepsWithin(l, s, i, cost);
      case Post(i) => if i !in s.ledger { PostKeepsWithin(l, s, i); }
      case Over(i) => OverKeepsWithin(l, s, i);
    }
  }

  /** Recorded usage never passes the budget by more than the calls that can be past the gate at once. */
  lemma {:induction false} OvershootIsBounded(l: Limits, s: State, steps: seq<Step>)
    requires Within(l, s) && Run(l, s, steps).Some?
    ensures Within(l, Run(l, s, steps).value)
    ensures Sum(Run(l, s, steps).value.ledger) <= l.budget - 1 + l.atOnce * l.perCall
    decreases |steps|
  {
    if steps == [] {
      assert |Unrecorded(s)| * l.perCall >= 0;
    } else {
      StepKeepsWithin(l, s, steps[0]);
      OvershootIsBounded(l, Next(l, s, steps[0]).value, steps[1..]);
    }
  }

  /** A new month starts within the bound as soon as the budget is at least one token. */
  lemma EmptyIsWithin(l: Limits)
    requires l.budget >= 1
    ensures Within(l, EMPTY)
  {
  }

  // ---------------------------------------------------------------- the bound is reached

  /** Calls 1..n ask the gate, one after the other. */
  function Checks(n: nat): seq<Step> {
    if n == 0 then [] else Checks(n - 1) + [Check(n)]
  }

  /** Calls 1..n each finish at full cost, report and end. */
  function Reports(n: nat, cost: nat): seq<Step> {
    if n == 0 then [] else Reports(n - 1, cost) + [Finish(n, cost), Post(n), Over(n)]
  }

  lemma {:induction false} RunConcat(l: Limits, s: State, xs: seq<Step>, ys: seq<Step>)
    requires Run(l, s, xs).Some?
    ensures Run(l, s, xs + ys) == Run(l, Run(l, s, xs).value, ys)
    decreases |xs|
  {
    if xs == [] {
      assert xs + ys == ys;
    } else {
      assert (xs + ys)[1..] == xs[1..] + ys;
      RunConcat(l, Next(l, s, xs[0]).value, xs[1..], ys);
    }
  }

  /** Calls 1..n, all running. */
  function RunningUpTo(n: nat): (m: map<CallId, Phase>)
    ensures forall i :: i in m <==> 1 <= i <= n
    ensures forall i | i in m :: m[i] == Running
    ensures |m| == n
  {
    if n == 0 then map[] else RunningUpTo(n - 1)[n := Running]
  }

  lemma {:induction false} ChecksPass(l: Limits, used: map<CallId, nat>, n: nat)
    requires Sum(used) < l.budget && n <= l.atOnce && forall i | i in used :: i > n
    ensures Run(l, State(used, map[]), Checks(n)) == Some(State(used, RunningUpTo(n)))
  {
    hide Sum;
    if n > 0 {
      ChecksPass(l, used, n - 1);
      RunConcat(l, State(used, map[]), Checks(n - 1), [Check(n)]);
      OneCheckPasses(l, used, n);
    }
  }

  lemma OneCheckPasses(l: Limits, used: map<CallId, nat>, n: nat)
    requires Sum(used) < l.budget && 0 < n <= l.atOnce && n !in used
    ensures Run(l, State(used, RunningUpTo(n - 1)), [Check(n)]) == Some(State(used, RunningUpTo(n)))
  {
    hide Sum;
    assert [Check(n)][1..] == [];
    assert RunningUpTo(n) == RunningUpTo(n - 1)[n := Running];
  }

  /** A running call that finishes at some cost, reports once and ends. */
  lemma ReportLands(l: Limits, m: State, n: CallId, cost: nat)
    requires n in m.past && m.past[n].Running? && n !in m.ledger && cost <= l.perCall
    ensures Run(l, m, [Finish(n, cost), Post(n), Over(n)]) == Some(State(m.ledger[n := cost], m.past - {n}))
  {
    var m1 := m.(past := m.past[n := Reporting(cost)]);
    var m2 := m1.(ledger := m.ledger[n := cost]);
    var last := [Finish(n, cost), Post(n), Over(n)];
    assert last[1..] == [Post(n), Over(n)] && last[1..][1..] == [Over(n)] && last[1..][1..][1..] == [];
    assert m2.past - {n} == m.past - {n};
    assert Run(l, m2, [Over(n)]) == Some(m2.(past := m2.past - {n}));
    assert Run(l, m1, [Post(n), Over(n)]) == Run(l, m2, [Over(n)]);
  }

  /** `t` is `s` after calls 1..n have reported `cost` each and ended. */
  ghost predicate Reported(s: State, t: State, n: nat, cost: nat) {
    && Sum(t.ledger) == Sum(s.ledger) + n * cost
    && (forall i | i > n && i in s.past :: i in t.past && t.past[i] == s.past[i])
    && (forall i | i > n && i in t.ledger :: i in s.ledger)
  }

  lemma OneMoreReported(s: State, m: State, n: nat, cost: nat)
    requires n > 0 && Reported(s, m, n - 1, cost) && n !in m.ledger
    ensures Reported(s, State(m.ledger[n := cost], m.past - {n}), n, cost)
  {
    SumInsert(m.ledger, n, cost);
    assert n * cost == (n - 1) * cost + cost;
  }

  lemma {:induction false} ReportsLand(l: Limits, s: State, n: nat)
    requires forall i: nat | 1 <= i <= n :: i in s.past && s.past[i].Running? && i !in s.ledger
    ensures Run(l, s, Reports(n, l.perCall)).Some?
    ensures Reported(s, Run(l, s, Reports(n, l.perCall)).value, n, l.perCall)
  {
    if n > 0 {
      ReportsLand(l, s, n - 1);
      var m := Run(l, s, Reports(n - 1, l.perCall)).value;
      RunConcat(l, s, Reports(n - 1, l.perCall), [Finish(n, l.perCall), Post(n), Over(n)]);
      ReportLands(l, m, n, l.perCall);
      OneMoreReported(s, m, n, l.perCall);
    }
  }

  const EMPTY := State(map[], map[])

  /** Calls base + 1 .. base + m, one after the other, each of one token. */
  function Spend(base: nat, m: nat): seq<Step> {
    if m == 0 then [] else Spend(base, m - 1) + OneToken(base + m)
  }

  function OneToken(i: CallId): seq<Step> { [Check(i), Finish(i, 1), Post(i), Over(i)] }

  function Ones(base: nat, m: nat): (used: map<CallId, nat>)
    ensures forall i :: i in used <==> base < i <= base + m
  {
    if m == 0 then map[] else Ones(base, m - 1)[base + m := 1]
  }

  lemma {:induction false} SpendRuns(l: Limits, base: nat, m: nat)
    requires m <= l.budget && l.atOnce >= 1 && l.perCall >= 1
    ensures Run(l, EMPTY, Spend(base, m)) == Some(State(Ones(base, m), map[]))
  {
    hide Sum, OneToken, Run;
    if m == 0 {
      RunOfNothing(l, EMPTY);
    } else {
      SpendRuns(l, base, m - 1);
      SumOfOnes(base, m - 1);
      OneTokenRuns(l, Ones(base, m - 1), base + m);
      RunConcat(l, EMPTY, Spend(base, m - 1), OneToken(base + m));
    }
  }

  lemma RunOfNothing(l: Limits, s: State)
    ensures Run(l, s, []) == Some(s)
  {
  }

  lemma {:induction false} SumOfOnes(base: nat, m: nat)
    ensures Sum(Ones(base, m)) == m
  {
    if m > 0 {
      SumOfOnes(base, m - 1);
      SumInsert(Ones(base, m - 1), base + m, 1);
    }
  }

  lemma {:induction false} OneTokenRuns(l: Limits, used: map<CallId, nat>, i: CallId)
    requires Sum(used) < l.budget && l.atOnce >= 1 && l.perCall >= 1 && i !in used
    ensures Run(l, State(used, map[]), OneToken(i)) == Some(State(used[i := 1], map[]))
  {
    hide Sum;
    var s1 := State(used, map[i := Running]);
    ReportLands(l, s1, i, 1);
    assert s1.past - {i} == map[];
    assert Next(l, State(used, map[]), Check(i)) == Some(s1);
    assert OneToken(i)[1..] == [Finish(i, 1), Post(i), Over(i)];
  }

  /** From an empty month: spend all but one token, let as many calls pass as may, and let each cost the most. */
  lemma BoundIsReached(l: Limits) returns (steps: seq<Step>)
    requires l.budget >= 1 && l.atOnce >= 1 && l.perCall >= 1
    ensures Run(l, EMPTY, steps).Some?
    ensures Sum(Run(l, EMPTY, steps).value.ledger) == l.budget - 1 + l.atOnce * l.perCall
  {
    hide Sum, Checks, Reports, Spend;
    var n := l.atOnce;
    var first := Spend(n, l.budget - 1);
    var rest := Checks(n) + Reports(n, l.perCall);
    var s := State(Ones(n, l.budget - 1), map[]);
    SpendRuns(l, n, l.budget - 1);
    SumOfOnes(n, l.budget - 1);
    RunConcat(l, EMPTY, first, rest);
    ChecksPass(l, s.ledger, n);
    RunConcat(l, s, Checks(n), Reports(n, l.perCall));
    ReportsLand(l, State(s.ledger, RunningUpTo(n)), n);
    steps := first + rest;
  }

  /** Without a call that may pass or a token it may cost, nothing is ever recorded. */
  ghost predicate Nothing(l: Limits, s: State) {
    && (forall i | i in s.ledger :: s.ledger[i] == 0)
    && (forall i | i in s.past && s.past[i].Reporting? :: s.past[i].cost == 0)
    && (l.atOnce == 0 ==> s.past == map[])
  }

  lemma {:induction false} SumOfZeros(m: map<CallId, nat>)
    requires forall i | i in m :: m[i] == 0
    ensures Sum(m) == 0
    decreases |m|
  {
    if m != map[] {
      var k :| k in m;
      SumWithout(m, k);
      SumOfZeros(m - {k});
    }
  }

  lemma {:induction false} NothingIsRecorded(l: Limits, s: State, steps: seq<Step>)
    requires (l.atOnce == 0 || l.perCall == 0) && Nothing(l, s) && Run(l, s, steps).Some?
    ensures Sum(Run(l, s, steps).value.ledger) == 0
    decreases |steps|
  {
    if steps == [] {
      SumOfZeros(s.ledger);
    } else {
      NothingIsRecorded(l, Next(l, s, steps[0]).value, steps[1..]);
    }
  }

  /** A month that ends with exactly the bound recorded. */
  ghost predicate ReachesBound(l: Limits, steps: seq<Step>) {
    Run(l, EMPTY, steps).Some? && Sum(Run(l, EMPTY, steps).value.ledger) == Bound(l)
  }

  /** The bound is reached in some month exactly if calls can pass and can cost something, or there is one token only. */
  lemma BoundIsReachedIff(l: Limits)
    requires l.budget >= 1
    ensures (exists steps :: ReachesBound(l, steps)) <==> (l.atOnce >= 1 && l.perCall >= 1) || l.budget == 1
  {
    if l.atOnce >= 1 && l.perCall >= 1 {
      var steps := BoundIsReached(l);
      assert ReachesBound(l, steps);
    } else {
      assert l.atOnce * l.perCall == 0;
      RunOfNothing(l, EMPTY);
      assert l.budget == 1 ==> ReachesBound(l, []);
      forall steps | ReachesBound(l, steps) ensures l.budget == 1 {
        NothingIsRecorded(l, EMPTY, steps);
      }
    }
  }
}
