/**
 The durable input queue: a committed user input is never lost and its admission is written once,
 under every interleaving of submits, feeds, sweeps, crashes, recoveries and resumes. No assumption
 about heartbeats or archiving is needed here.
 */
module Inputs {
  import opened Options
  import opened Tables
  import opened Turns
  import opened TurnInvariants

  ghost predicate SeenOk(rows: Rows, b: Inbox) {
    forall i | i in b.seen ::
      && b.seen[i].0 in rows
      && (b.seen[i].1.UserInput? ==> rows[b.seen[i].0].status == Deleted || i in b.queue)
  }

  /** A queue row is as it was committed; an admission is of user input and with an id the session gave. */
  ghost predicate QueueOk(rows: Rows, b: Inbox) {
    forall i | i in b.queue ::
      && i in b.seen && b.seen[i] == (b.queue[i].thread, b.queue[i].payload)
      && b.queue[i].thread in rows && rows[b.queue[i].thread].status != Deleted
      && (b.queue[i].admitted.Some? ==> b.queue[i].payload.UserInput? && (i, b.queue[i].admitted.value) in b.issued)
  }

  ghost predicate FeedOk(b: Inbox, f: Feed) {
    && (forall k | 0 <= k < |f.rest| :: f.rest[k].0 in b.seen && b.seen[f.rest[k].0].1 == f.rest[k].1)
    && (f.admitting.Some? ==> f.rest != [] && f.rest[0].1.UserInput? && (f.rest[0].0, f.admitting.value) in b.issued)
  }

  ghost predicate InboxOk(rows: Rows, b: Inbox) {
    SeenOk(rows, b) && QueueOk(rows, b) && forall f | f in b.feeds :: FeedOk(b, b.feeds[f])
  }

  // ---------------------------------------------------------------- steps

  /** Row statements that delete nothing new. */
  lemma RowsKeepInbox(rows: Rows, rows': Rows, b: Inbox)
    requires InboxOk(rows, b) && rows.Keys <= rows'.Keys
    requires forall t | t in rows :: rows'[t].status == Deleted <==> rows[t].status == Deleted
    ensures InboxOk(rows', b)
  {
  }

  lemma DeleteKeepsInbox(rows: Rows, b: Inbox, ids: seq<ThreadId>)
    requires InboxOk(rows, b)
    ensures InboxOk(DeleteRows(rows, ids), b.(queue := DeleteQueue(rows, b.queue, ids)))
  {
  }

  lemma EnqueueKeepsInbox(s: State, i: InputId, t: ThreadId, payload: Payload)
    requires InboxOk(s.rows, s.inbox) && NextEnqueue(s, i, t, payload).Some?
    ensures InboxOk(s.rows, NextEnqueue(s, i, t, payload).value.inbox)
  {
  }

  lemma OpenKeepsInbox(rows: Rows, b: Inbox, f: FeedId, p: Pod, a: AgentId, t: ThreadId, batch: seq<InputId>)
    requires InboxOk(rows, b) && IsPendingList(b.queue, t, batch)
    ensures InboxOk(rows, OpenFeed(b, f, p, a, t, batch))
  {
    var b' := OpenFeed(b, f, p, a, t, batch);
    assert forall i | i in batch :: PendingOf(b.queue, t, i);
    forall x | x in b'.feeds ensures FeedOk(b', b'.feeds[x]) {
      if x == f {
        forall k | 0 <= k < |batch| ensures b'.feeds[f].rest[k].0 in b.seen && b.seen[b'.feeds[f].rest[k].0].1 == b'.feeds[f].rest[k].1 {
          assert batch[k] in batch;
        }
      } else {
        assert FeedOk(b, b.feeds[x]);
      }
    }
  }

  /** A feed moves on; the queue, the history and the answers only gain what the feed's head allows. */
  lemma FeedMoveKeepsInbox(rows: Rows, b: Inbox, b': Inbox, f: FeedId)
    requires InboxOk(rows, b) && f in b.feeds && b'.seen == b.seen && b.issued <= b'.issued
    requires QueueOk(rows, b') && SeenOk(rows, b')
    requires f in b'.feeds && b' == b'.(feeds := b.feeds[f := b'.feeds[f]]) && FeedOk(b', b'.feeds[f])
    ensures InboxOk(rows, b')
  {
  }

  lemma FeedOneKeepsInbox(rows: Rows, b: Inbox, f: FeedId, step: FeedStep)
    requires InboxOk(rows, b) && f in b.feeds && FeedOne(b, f, step).Some?
    ensures InboxOk(rows, FeedOne(b, f, step).value)
  {
    var b' := FeedOne(b, f, step).value;
    assert FeedOk(b, b.feeds[f]);
    FeedMoveKeepsInbox(rows, b, b', f);
  }

  lemma PumpKeepsInbox(s: State, a: AgentId, act: AgentStep)
    requires InboxOk(s.rows, s.inbox) && a in s.eng.agents && s.eng.agents[a].pod in s.eng.pods && NextPump(s, a, act).Some?
    ensures var s' := NextPump(s, a, act).value; s'.rows == s.rows && InboxOk(s'.rows, s'.inbox)
  {
    if act.Offer? && NextPump(s, a, act).value.inbox != s.inbox {
      var ag := s.eng.agents[a];
      OpenKeepsInbox(s.rows, s.inbox, act.f, ag.pod, a, ag.thread, act.batch);
    }
  }

  /** Claims, releases and beats neither delete a thread nor touch the inbox. */
  lemma HoldingKeepsDeleted(c: Config, s: State, a: AgentId, act: AgentStep)
    requires AgentsOk(s.eng) && NextAgent(c, s, a, act).Some? && !OfPump(act)
    ensures
      var s' := NextAgent(c, s, a, act).value;
      && s'.inbox == s.inbox && s'.rows.Keys == s.rows.Keys
      && forall t | t in s.rows :: s'.rows[t].status == Deleted <==> s.rows[t].status == Deleted
  {
    if a in s.eng.agents { assert AgentOk(s.eng.agents[a]); }
  }

  lemma AgentKeepsInbox(c: Config, s: State, a: AgentId, act: AgentStep)
    requires AgentsOk(s.eng) && InboxOk(s.rows, s.inbox) && NextAgent(c, s, a, act).Some?
    ensures var s' := NextAgent(c, s, a, act).value; InboxOk(s'.rows, s'.inbox)
  {
    if OfPump(act) {
      PumpKeepsInbox(s, a, act);
    } else {
      HoldingKeepsDeleted(c, s, a, act);
      RowsKeepInbox(s.rows, NextAgent(c, s, a, act).value.rows, s.inbox);
    }
  }

  lemma StepKeepsInbox(c: Config, s: State, step: Step)
    requires AgentsOk(s.eng) && InboxOk(s.rows, s.inbox) && Next(c, s, step).Some?
    ensures var s' := Next(c, s, step).value; InboxOk(s'.rows, s'.inbox)
  {
    hide InboxOk, AgentsOk;
    match step {
      case OnRow(row) => RowKeepsInbox(c, s, row);
      case OnPod(pod) => PodKeepsInbox(s, pod);
      case OnAgent(a, act) => AgentKeepsInbox(c, s, a, act);
      case Enqueue(i, t, payload) => EnqueueKeepsInbox(s, i, t, payload);
      case OnFeed(f, feed) => FeedKeepsInbox(s, f, feed);
      case _ =>
    }
  }

  lemma RowKeepsInbox(c: Config, s: State, row: RowStep)
    requires InboxOk(s.rows, s.inbox) && NextRow(c, s, row).Some?
    ensures var s' := NextRow(c, s, row).value; InboxOk(s'.rows, s'.inbox)
  {
    if row.Delete? {
      DeleteKeepsInbox(s.rows, s.inbox, row.ids);
    } else {
      RowsKeepInbox(s.rows, NextRow(c, s, row).value.rows, s.inbox);
    }
  }

  lemma PodKeepsInbox(s: State, pod: PodStep)
    requires InboxOk(s.rows, s.inbox) && NextPod(s, pod).Some?
    ensures var s' := NextPod(s, pod).value; InboxOk(s'.rows, s'.inbox)
  {
  }

  lemma FeedKeepsInbox(s: State, f: FeedId, feed: FeedStep)
    requires InboxOk(s.rows, s.inbox) && NextFeed(s, f, feed).Some?
    ensures var s' := NextFeed(s, f, feed).value; InboxOk(s'.rows, s'.inbox)
  {
    if feed.Open? {
      var ag := s.eng.agents[feed.a];
      OpenKeepsInbox(s.rows, s.inbox, f, ag.pod, feed.a, ag.thread, feed.batch);
    } else if !feed.Finish? {
      FeedOneKeepsInbox(s.rows, s.inbox, f, feed);
    }
  }

  /** A committed input is pending in the queue with its thread, its payload and the time of the commit. */
  lemma EnqueueCommits(c: Config, s: State, i: InputId, t: ThreadId, payload: Payload)
    ensures Next(c, s, Enqueue(i, t, payload)).Some? <==>
      i !in s.inbox.queue && i !in s.inbox.seen && t in s.rows && s.rows[t].status != Deleted
    ensures Next(c, s, Enqueue(i, t, payload)).Some? ==>
      var s' := Next(c, s, Enqueue(i, t, payload)).value;
      && s'.rows == s.rows && s'.eng == s.eng
      && s'.inbox.queue == s.inbox.queue[i := Input(t, payload, s.now, None)]
      && i in s'.inbox.seen && s'.inbox.seen[i] == (t, payload)
  {
  }

  /** A feed begins with every pending input of its session's thread, in queue order, and as that session's own. */
  lemma FeedBegins(c: Config, s: State, f: FeedId, a: AgentId, batch: seq<InputId>)
    requires Next(c, s, OnFeed(f, Open(a, batch))).Some?
    ensures
      var b := Next(c, s, OnFeed(f, Open(a, batch))).value.inbox;
      && b.queue == s.inbox.queue && f in b.feeds
      && b.feeds[f].agent == a && b.feeds[f].pod == s.eng.agents[a].pod
      && b.feeds[f].admitting == None && b.feeds[f].lastTurn == None
      && |b.feeds[f].rest| == |batch|
      && (forall i :: i in batch <==>
            i in s.inbox.queue && s.inbox.queue[i].thread == s.eng.agents[a].thread && s.inbox.queue[i].admitted == None)
      && forall k | 0 <= k < |batch| ::
           batch[k] in s.inbox.queue && b.feeds[f].rest[k] == (batch[k], s.inbox.queue[batch[k]].payload)
  {
    forall k | 0 <= k < |batch| ensures batch[k] in s.inbox.queue { assert batch[k] in batch; }
  }

  /** It ends once all its inputs are done with, at its pump's word if a pump waits for it, and leaves the queue. */
  lemma FeedEnds(c: Config, s: State, f: FeedId)
    requires f in s.inbox.feeds
    ensures
      var fd := s.inbox.feeds[f];
      var done := fd.rest == [] && fd.admitting == None;
      && (Next(c, s, OnFeed(f, Finish)).Some? <==>
            done && !(fd.agent in s.eng.agents && s.eng.agents[fd.agent].pump == Feeding(f)))
      && (forall a | a in s.eng.agents && s.eng.agents[a].pod in s.eng.pods && s.eng.agents[a].pump == Feeding(f) ::
            Next(c, s, OnAgent(a, FeedDone)).Some? <==> done)
      && (Next(c, s, OnFeed(f, Finish)).Some? ==>
            var b := Next(c, s, OnFeed(f, Finish)).value.inbox; b.queue == s.inbox.queue && b.feeds == s.inbox.feeds - {f})
  {
  }

  /** What one step of one feed can do to a queue row. */
  lemma FeedOneOnQueue(rows: Rows, b: Inbox, f: FeedId, step: FeedStep, i: InputId)
    requires InboxOk(rows, b) && f in b.feeds && FeedOne(b, f, step).Some? && i in b.queue
    ensures
      var b' := FeedOne(b, f, step).value;
      && (i in b'.queue || (step.Drop? && !b.queue[i].payload.UserInput?))
      && (i in b'.queue && b.queue[i].admitted.Some? ==> b'.queue[i] == b.queue[i])
  {
  }

  /** Only deletions of threads and steps of a feed change rows of the queue. */
  lemma AgentLeavesQueue(c: Config, s: State, a: AgentId, act: AgentStep)
    requires NextAgent(c, s, a, act).Some?
    ensures NextAgent(c, s, a, act).value.inbox.queue == s.inbox.queue
  {
  }

  /** Rows leave the queue only with their thread, or when a feed finds no user input in them. */
  lemma OnlyNonInputsAreRemoved(c: Config, s: State, step: Step, i: InputId)
    requires InboxOk(s.rows, s.inbox) && Next(c, s, step).Some?
    requires i in s.inbox.queue && i !in Next(c, s, step).value.inbox.queue
    ensures
      || (step.OnRow? && step.row.Delete? && s.inbox.queue[i].thread in step.row.ids
          && Next(c, s, step).value.rows[s.inbox.queue[i].thread].status == Deleted)
      || (step.OnFeed? && step.feed.Drop? && !s.inbox.queue[i].payload.UserInput?)
  {
    match step {
      case OnFeed(f, feed) => if !feed.Open? && !feed.Finish? { FeedOneOnQueue(s.rows, s.inbox, f, feed, i); }
      case OnAgent(a, act) => AgentLeavesQueue(c, s, a, act);
      case _ =>
    }
  }

  /** An admission, once written, is not written again. */
  lemma AdmissionIsKept(c: Config, s: State, step: Step, i: InputId)
    requires InboxOk(s.rows, s.inbox) && Next(c, s, step).Some?
    requires i in s.inbox.queue && s.inbox.queue[i].admitted.Some?
    ensures
      var s' := Next(c, s, step).value;
      (s.inbox.queue[i].thread in s'.rows && s'.rows[s.inbox.queue[i].thread].status == Deleted)
      || (i in s'.inbox.queue && s'.inbox.queue[i] == s.inbox.queue[i])
  {
    match step {
      case OnFeed(f, feed) => if !feed.Open? && !feed.Finish? { FeedOneOnQueue(s.rows, s.inbox, f, feed, i); }
      case OnAgent(a, act) => AgentLeavesQueue(c, s, a, act);
      case _ =>
    }
  }

  // ---------------------------------------------------------------- runs

  lemma {:induction false} RunKeepsInbox(c: Config, s: State, steps: seq<Step>)
    requires Run(c, s, steps).Some? && EnginesOk(c, s.eng) && InboxOk(s.rows, s.inbox)
    ensures var s' := Run(c, s, steps).value; EnginesOk(c, s'.eng) && InboxOk(s'.rows, s'.inbox)
    decreases |steps|
  {
    if steps != [] {
      StepKeepsEngines(c, s, steps[0]);
      StepKeepsInbox(c, s, steps[0]);
      RunKeepsInbox(c, Next(c, s, steps[0]).value, steps[1..]);
    }
  }

  /**
   After any run, a user input that was ever committed is in the queue exactly as committed, unless
   its thread is deleted; it is pending, or carries a turn id a session returned for this very input.
   */
  lemma NoInputIsLost(c: Config, steps: seq<Step>, i: InputId)
    requires Run(c, START, steps).Some?
    requires var b := Run(c, START, steps).value.inbox; i in b.seen && b.seen[i].1.UserInput?
    ensures
      var s := Run(c, START, steps).value;
      var (t, payload) := s.inbox.seen[i];
      && t in s.rows
      && (i in s.inbox.queue <==> s.rows[t].status != Deleted)
      && (i in s.inbox.queue ==>
            && s.inbox.queue[i].thread == t && s.inbox.queue[i].payload == payload
            && (s.inbox.queue[i].admitted.None? || (i, s.inbox.queue[i].admitted.value) in s.inbox.issued))
  {
    RunKeepsInbox(c, START, steps);
  }

  lemma StepKeepsSeen(c: Config, s: State, step: Step, i: InputId)
    requires Next(c, s, step).Some? && i in s.inbox.seen
    ensures var b := Next(c, s, step).value.inbox; i in b.seen && b.seen[i] == s.inbox.seen[i]
  {
  }

  lemma StepKeepsDeleted(c: Config, s: State, step: Step, t: ThreadId)
    requires Next(c, s, step).Some? && t in s.rows && s.rows[t].status == Deleted
    ensures var rows := Next(c, s, step).value.rows; t in rows && rows[t].status == Deleted
  {
  }

  /** Once an input is admitted it stays so, with the same turn, for the rest of every run. */
  lemma {:induction false} AdmissionIsFinal(c: Config, s: State, steps: seq<Step>, i: InputId)
    requires Run(c, s, steps).Some? && EnginesOk(c, s.eng) && InboxOk(s.rows, s.inbox)
    requires i in s.inbox.seen && s.inbox.seen[i].1.UserInput?
    requires s.rows[s.inbox.seen[i].0].status == Deleted || s.inbox.queue[i].admitted.Some?
    ensures
      var s' := Run(c, s, steps).value;
      var t := s.inbox.seen[i].0;
      && t in s'.rows
      && (s'.rows[t].status == Deleted || (i in s'.inbox.queue && i in s.inbox.queue && s'.inbox.queue[i] == s.inbox.queue[i]))
    decreases |steps|
  {
    if steps != [] {
      var s1 := Next(c, s, steps[0]).value;
      StepKeepsEngines(c, s, steps[0]);
      StepKeepsInbox(c, s, steps[0]);
      StepKeepsSeen(c, s, steps[0], i);
      if i in s.inbox.queue {
        AdmissionIsKept(c, s, steps[0], i);
      } else {
        StepKeepsDeleted(c, s, steps[0], s.inbox.seen[i].0);
      }
      AdmissionIsFinal(c, s1, steps[1..], i);
    }
  }

  lemma DispatchFollowsArcs(c: Config, s: State, a: AgentId, act: AgentStep)
    requires a in s.eng.agents && s.eng.agents[a].pod in s.eng.pods && NextDispatch(c, s, a, act).Some?
    ensures RowsFollowArcs(s.rows, NextDispatch(c, s, a, act).value.rows)
  {
  }

  lemma ReleaseFollowsArcs(c: Config, s: State, a: AgentId, act: AgentStep)
    requires AgentsOk(s.eng) && a in s.eng.agents && NextRelease(c, s, a, act).Some?
    ensures RowsFollowArcs(s.rows, NextRelease(c, s, a, act).value.rows)
  {
  }

  /** In every reachable state every step moves thread rows along the arcs of the state machine only. */
  lemma StepFollowsArcs(c: Config, s: State, step: Step)
    requires AgentsOk(s.eng) && Next(c, s, step).Some?
    ensures RowsFollowArcs(s.rows, Next(c, s, step).value.rows)
  {
    if step.OnAgent? {
      var act := step.act;
      if OfRelease(act) { ReleaseFollowsArcs(c, s, step.a, act); }
      else if !act.Enter? && !OfPump(act) { DispatchFollowsArcs(c, s, step.a, act); }
    }
  }
}
