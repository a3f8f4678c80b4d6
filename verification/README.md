# Verified model of the airush runtime core

A Dafny model of the parts of the repository where several processes, tables and streams have to agree,
with proofs of what they agree on. `dafny verify dfyconfig.toml` checks all of it.

- **The multi-pod turn protocol** (`Tables`, `Limiter`, `Turns`, `TurnInvariants`, `MutualExclusion`,
  `DeletedThreads`, `Inputs`, `Draining`, `DrainGap`, `DrainRows`, `Handback`, `Feeding`). Any number of pods
  share a table of threads and a queue of inputs. A step of the state machine `Turns` is one transaction, one
  critical section, or one answer of the agent session, so claim, slot, start, the parts of a release, a feed and
  a drain interleave freely with crashes, recovery scans, archiving and deletion. The statements themselves are
  also methods of the class `Tables.Store`, proved against the functions the state machine uses and against the
  values the statements write. Inputs are never lost, admissions are final, slots are conserved and drains complete
  in every run; `Handback` says where a holding begins and ends and in which status its row is given back. Mutual
  exclusion is not unconditional: `ReleaseTurn` does not look at who holds the thread, and recovery does not know
  who is alive. `StepKeepsExclusionIff` says exactly which steps keep it, and a concrete run shows two live
  sessions without it.
- **The event log and its delivery** (`EventLog`, `Notifier`, `Delivery`, `Decimals`). Appends are numbered without
  gaps; the tail advances by the number of rows it read, which is right only because of that; wake-ups merge in a
  channel of capacity one. A client has consecutive events from the one it asked for, and from every state it
  still can get all the others. The proof covers polls, wake-ups, disconnects and resumption by `Last-Event-ID`
  (section 9.2 of the WHATWG HTML Living Standard).
- **Metering** (`Usage`, `Meter`, `Accounting`, `Quota`). The usage scanner sits over a stream in arbitrary pieces;
  every call past the tenant check makes one record under a key of its own; the ledger counts each record posted
  once, whatever came of the call; the quota gate bounds the overshoot, and exactly when calls can pass and cost
  something some month meets the bound.
- **The spawn graph** (`SpawnGraph`), **snapshot versions** (`SnapshotChain`), **index columns** (`IndexColumns`),
  **aggregate layers** (`SeriesLayers`), **item paging** (`ItemPaging`, `ItemListing`) and the **gateway**
  (`Gateway`, `GatewayRuns`, `SharedIds`).

Conventions: identifiers that are UUIDs in the database are natural numbers, and the database clock is an integer
that only moves forward. A flag `ok` on a step, or a parameter such as an oracle, stands for what the code cannot
decide itself: whether a store call went through, what the agent session answers, what JSON decoding and
white-space trimming give, what the network does to a request. Averages are over reals.

Where a documented promise does not hold as it stands, the condition is part of the theorem:

- A holder whose thread's row is running under its pod, and no other holder: a step keeps this if and only if it
  does not recover a live holder that is late and does not archive or delete a held thread
  (`MutualExclusion.StepKeepsExclusionIff`). Deleting a held thread takes the row away but makes no second
  holder: over every run that recovers no late holder and archives no held thread there is one holder per thread,
  whatever is deleted (`DeletedThreads.OneHolderThroughDeletion`).
- Drain promises its snapshot only. When it returns, an agent of the pod can still stand between claim and release
  or have its slot exactly if, when the drain begins, some agent outside the snapshot does, or has passed the
  draining check of a thread that is not deleted (`DrainGap.DrainLeavesBehindIff`).
- The rows are another matter: a release that fails is logged and its row stays running under the pod. If every
  release of the snapshot goes through, a returned drain can leave such a row exactly if one was there that no
  session of the snapshot has, or an agent outside it is past the draining check; if releases may fail, exactly
  if any row was there, or there is such an agent (`DrainRows.DrainLeavesRowIff`). Each way is reached from the start.
- A late holder that is recovered, and a held thread that is archived and unarchived, can be dispatched a second
  time (`MutualExclusion.LateHolderIsDoubled`, `MutualExclusion.ArchivedHolderIsDoubled`).
- A usage frame without a final newline is reported only if a Close comes before the end of the stream is read
  (`Usage.ReportIsOfWholeStreamIff`).
- Aggregated series equal raw ones exactly when the query cuts no bucket (`SeriesLayers.LayersAgreeIff`); the
  query itself does not align its window.
- The descendant query ends exactly when the root is not its own descendant (`SpawnGraph.WalkEndsIff`); nothing
  in the store forbids cycles (`SpawnGraph.UpsertKeepsAcyclicIff`).
- A dispatch that registers a command id already awaited on its session, and only such a one, can lead to a lost
  outcome (`SharedIds.AwaitLosesIff`); the gateway's theorems assume callers do not do that.
- A listing of items by turn never finds a response item, because those are stored without a turn id
  (`ItemListing.ListingByTurnIff`).
- `Last-Event-ID` of the largest int64 wraps and starts over (`Delivery.ResumeStartsAfter`).

## Model

| member | source | states |
|---|---|---|
| `Tables.Store.ClaimTurn` | agent-runtime/internal/pgstore/runtime.go:85-102 | one conditional update: claims exactly an idle or interrupted thread for the pod, tells a held thread from one that is gone or deleted, and changes nothing else |
| `Tables.Store.Heartbeat` | agent-runtime/internal/pgstore/runtime.go:105-110 | a beat lands only on a running row of this very pod |
| `Tables.Store.ReleaseTurn` | agent-runtime/internal/pgstore/runtime.go:113-122 | a status other than idle and interrupted is refused; a running row, whichever pod runs it, ends with exactly the status given and without pod and beat, and everything else stays |
| `Tables.Store.MarkStale` | agent-runtime/internal/pgstore/runtime.go:175-203 | the recovery scan of one tenant: exactly its running rows with no beat within the bound become interrupted, without pod and beat, and are reported with the pod that ran them; every other row stays |
| `Tables.Store.MarkIdle` | agent-runtime/internal/pgstore/runtime.go:313-319 | only an interrupted row becomes idle, without pod and beat; every other row stays |
| `Tables.Store.EnqueueInput` | agent-runtime/internal/pgstore/runtime.go:271-280 | a new pending row for a visible thread, an error and no change otherwise |
| `Tables.Store.PendingInputs` | agent-runtime/internal/pgstore/runtime.go:283-302 | exactly the inputs of the thread nobody has admitted, each once, by creation time and then id |
| `Tables.Store.AdmitInput` | agent-runtime/internal/pgstore/runtime.go:305-309 | writes the turn id only where none is written |
| `Tables.Store.DeleteInput` | agent-runtime/internal/pgstore/runtime.go:322-327 | removes that one row |
| `Tables.Store.ArchiveThread` | agent-runtime/internal/pgstore/threads.go:450-459 | any visible thread becomes archived; a missing one is an error |
| `Tables.Store.UnarchiveThread` | agent-runtime/internal/pgstore/threads.go:467-487 | only an archived thread moves; any other visible one is returned as it is |
| `Tables.Store.DeleteThreads` | agent-runtime/internal/pgstore/threads.go:495-529 | refuses a missing single thread and a set referenced from outside, and otherwise deletes rows and queue together |
| `Tables.FreshAfterClaimOrBeat` | agent-runtime/internal/pgstore/runtime.go:175-188 | after a claim or beat at a time, a recovery scan leaves the row alone exactly up to the staleness bound after it |
| `Tables.PendingListUnique` | agent-runtime/internal/pgstore/runtime.go:283-289 | the order of pending inputs is total, so there is one answer |
| `Limiter.TenantLimiter.TryAcquire` | agent-runtime/internal/scheduler/scheduler.go:30-41 | admits exactly below the limit, counts what it admits, and without a limit counts nothing |
| `Limiter.TenantLimiter.Release` | agent-runtime/internal/scheduler/scheduler.go:44-56 | gives one back, drops an entry that reaches zero, and never goes below |
| `Limiter.TenantLimiter.InFlight` | agent-runtime/internal/scheduler/scheduler.go:59-63 | the count of the tenant, zero if it has no entry |
| `Limiter.AcquireReleaseCancel` | agent-runtime/internal/scheduler/scheduler.go:30-56 | an admitted acquire and a release undo each other and move no other tenant's count |
| `TurnInvariants.StepKeepsEngines` | agent-runtime/internal/runtime/live.go:94-255 | every step of every pod keeps: exact slot counters, a live map that lists only sessions whose release has not begun, release bodies entered at most once, drains that only pass closed sessions |
| `MutualExclusion.StepKeepsExclusionIff` | agent-runtime/internal/pgstore/runtime.go:85-203 | a step from a safe state keeps at most one holder per thread with the row under its pod if and only if it does not recover a late live holder and does not archive or delete a held thread |
| `MutualExclusion.LateIff` | agent-runtime/internal/runtime/drain.go:80-89 | a holder is late exactly if its row has no beat or the last is more than two heartbeat intervals ago |
| `MutualExclusion.RowStepIff` | agent-runtime/internal/pgstore/runtime.go:175-203 | the same for each statement on thread rows alone |
| `MutualExclusion.MutualExclusionHolds` | agent-runtime/internal/runtime/turns.go:129-161 | over every run of benign steps, with crashes, drains, refused slots and failed starts: two agents between claim and release of a thread are one, its row runs under its pod, and a live session is the one its pod's live map names |
| `MutualExclusion.LateHolderIsDoubled` | agent-runtime/internal/runtime/drain.go:80-89 | from any safe state with a late holder, one recovery scan of its tenant and one dispatch on another willing pod give two holders |
| `MutualExclusion.ArchivedHolderIsDoubled` | agent-runtime/internal/pgstore/threads.go:450-487 | from any safe state with a holder of any thread, archiving it, unarchiving it and one dispatch on another willing pod give two holders |
| `MutualExclusion.LateRecoveryMakesTwoHolders` | agent-runtime/internal/pgstore/runtime.go:113-122 | a whole run from the start that ends with two live sessions of one thread |
| `DeletedThreads.StepKeepsOneHolderIff` | agent-runtime/internal/pgstore/threads.go:495-529 | with deletion allowed: a step keeps one holder per thread, its row running under its pod or deleted, if and only if it recovers no late holder and archives no held thread |
| `DeletedThreads.OneHolderThroughDeletion` | agent-runtime/internal/pgstore/threads.go:495-529 | over every run of such steps, deletions of held threads included, two agents between claim and release of a thread are one |
| `Inputs.NoInputIsLost` | agent-runtime/internal/runtime/turns.go:64-93 | after any run a committed user input of a thread not deleted is in the queue as committed, pending or with a turn id a session returned for it |
| `Inputs.AdmissionIsFinal` | agent-runtime/internal/pgstore/runtime.go:305-309 | an admission, once written, is the same at the end of every continuation |
| `Inputs.AdmissionIsKept` | agent-runtime/internal/pgstore/runtime.go:305-309 | no single step rewrites an admission |
| `Inputs.OnlyNonInputsAreRemoved` | agent-runtime/internal/runtime/turns.go:164-201 | a queue row goes only with its deleted thread or, in feed, if it is no user input |
| `Inputs.StepKeepsInbox` | agent-runtime/internal/runtime/turns.go:164-214 | every step keeps the queue, the feeds under way and the history consistent |
| `Inputs.EnqueueCommits` | agent-runtime/internal/pgstore/runtime.go:268-277 | an input is committed exactly under a new id for a visible thread, pending, with its payload and the time of the commit |
| `Inputs.FeedBegins` | agent-runtime/internal/runtime/turns.go:164-175 | a feed begins with exactly the pending inputs of its session's thread, in order, and with no turn |
| `Inputs.FeedEnds` | agent-runtime/internal/runtime/turns.go:164-201 | it ends exactly when every input is done with, and at its pump's word if a pump waits for it |
| `Inputs.StepFollowsArcs` | agent-runtime/internal/pgstore/runtime.go:20-31 | every step moves thread rows only along the arcs of the status machine, a deleted thread stays deleted, and no row is lost or changes its tenant or parent |
| `Tables.ArcsAre` | agent-runtime/internal/pgstore/runtime.go:20-31 | from which status a row can move to which: never away from deleted, and never to another tenant or parent |
| `Feeding.Feed` | agent-runtime/internal/runtime/turns.go:164-201 | the loop, with any store call failing: ends in the queue and last turn of the specification, admitted exactly if some input got a turn, and touches nothing if the queue cannot be read |
| `Feeding.FeedAllExact` | agent-runtime/internal/runtime/turns.go:164-201 | what a feed does to each row: nothing outside its snapshot, from the first dead session on, or where the store fails; else non-inputs go and a user input is admitted with its turn or stays pending |
| `Feeding.LastTurnIsTaken` | agent-runtime/internal/runtime/turns.go:164-201 | the turn of a feed is that of the last input answered with one before a dead session |
| `Feeding.LastTurnIsKept` | agent-runtime/internal/runtime/turns.go:164-201 | a feed in which no input is answered with a turn has none of its own |
| `Feeding.AnswersAdmit` | agent-runtime/internal/runtime/turns.go:176-200 | a started and a steered input are admitted with the turn they were given, a rejected one and one a session died on are not |
| `Feeding.UndisturbedFeedIsFeedAll` | agent-runtime/internal/runtime/turns.go:164-201 | the interleaved feed of the protocol, left alone by other goroutines, ends in the same queue and turn as the loop |
| `Draining.SlotsAreConserved` | agent-runtime/internal/scheduler/scheduler.go:29-56 | in every reachable state a tenant's counter on a pod is its dispatches between acquire and start plus its sessions that still have a slot, within the limit |
| `Draining.NoReleaseIsAbsorbed` | agent-runtime/internal/runtime/live.go:243-245 | every slot given back finds a positive counter: the guard at zero never absorbs a release |
| `Draining.DrainCompletes` | agent-runtime/internal/runtime/drain.go:17-49 | when Drain returns uncancelled every session of its snapshot is closed and ran its release body exactly once, even when pumps release at the same time |
| `Draining.SnapshotIsTheLiveMap` | agent-runtime/internal/runtime/drain.go:17-25 | a drain sets the flag and takes exactly the sessions the pod's live map names, each once |
| `Draining.CancelledWhileWaiting` | agent-runtime/internal/runtime/drain.go:27-48 | cancelling and the deadline count exactly while the drain waits for a session of its snapshot |
| `Draining.LateDispatchNeverClaims` | agent-runtime/internal/runtime/turns.go:134-136 | a dispatch not past the draining check when the flag is set never claims, as long as the pod lives |
| `Handback.ClaimBegins` | agent-runtime/internal/runtime/turns.go:137-140 | a holding begins exactly with a claim that finds the row idle or interrupted, and the row then runs under the pod |
| `Handback.HoldingEnds` | agent-runtime/internal/runtime/turns.go:137-161 | and ends exactly where the row is given back, whether that goes through or not |
| `Handback.SlotSpan` | agent-runtime/internal/scheduler/scheduler.go:29-56 | a slot is taken exactly by an acquire below the limit and given back exactly by the two releases |
| `Handback.BeatsUntilClosed` | agent-runtime/internal/runtime/live.go:214-229 | a session beats until it is closed, and a beat reaches the row exactly while that runs under its pod |
| `Handback.CrashTakesItsOwn` | agent-runtime/internal/runtime/turns.go:128-161 | a crash takes the pod's own sessions, entries, drains and feeds and leaves the tables and every other pod as they were |
| `Handback.RefusedRowEndsIdle` | agent-runtime/internal/runtime/turns.go:141-159 | a dispatch refused a slot, or whose session did not start, leaves the row idle |
| `Handback.ForcedRowEndsInterrupted` | agent-runtime/internal/runtime/drain.go:53-77 | after a drain has forced a session out, whatever happens in between, its row ends interrupted |
| `Handback.PumpDecides` | agent-runtime/internal/runtime/live.go:175-211 | a pump leaves as interrupted exactly after an aborted turn on a draining pod, and as idle at the end of the stream, while draining, after a failed read and without a new turn |
| `Handback.PumpReleases` | agent-runtime/internal/runtime/live.go:232-255 | a pump that leaves enters the release body if nobody has, and otherwise is held until that body is through |
| `Handback.PumpedRowEnds` | agent-runtime/internal/runtime/live.go:175-211 | the row of a session that ends by itself, whatever happens in between: interrupted after an aborted turn on a draining pod, idle otherwise |
| `Handback.DrainingPumpFeedsNothing` | agent-runtime/internal/runtime/turns.go:204-214 | on a draining pod a pump opens no feed and changes no queue row |
| `DrainGap.DrainLeavesBehindIff` | agent-runtime/internal/runtime/drain.go:17-49 | for every state and snapshot: some run in which Drain returns leaves an agent of the pod between claim and release or with a slot if and only if, when it begins, some agent outside the snapshot stands there or is past the draining check of a thread not deleted |
| `DrainGap.QuietPodEmpties` | agent-runtime/internal/runtime/drain.go:17-49 | with no such agent, after every run in which Drain returns no agent of the pod is between claim and release or has a slot, and every count is zero; its rows are the next lemmas' subject |
| `DrainGap.InFlightOutlasts` | agent-runtime/internal/runtime/turns.go:134-161 | with such an agent, Drain can force and close every session of its snapshot and return while that one stands still or, past the check, claims after the return and leaves its row running |
| `DrainGap.DrainMissesInFlightDispatch` | agent-runtime/internal/runtime/drain.go:17-49 | a whole run from the start: a drain with a session to wait for returns uncancelled and an agent of its pod still stands between claim and release |
| `DrainRows.DrainLeavesRowIff` | agent-runtime/internal/runtime/drain.go:17-49 | for every state and snapshot, over all runs in which Drain returns: with releases that may fail some run leaves a row running under the pod if and only if one runs there at the beginning or an agent outside the snapshot is past the draining check of a thread not deleted; with every release of the snapshot going through, if and only if a row runs there that no session of the snapshot has, or there is such an agent |
| `DrainRows.CoveredDrainLeavesNoRow` | agent-runtime/internal/runtime/live.go:232-255 | with nobody past the check, every row under the pod due from a session of the snapshot and no failed release of it, no row runs under the pod after any returned drain; if releases may fail the same holds when no row ran there at all |
| `DrainRows.StepKeepsCovered` | agent-runtime/internal/runtime/turns.go:134-140 | every step but a crash of the pod and a failed release of the snapshot keeps this: nobody outside the snapshot can claim, and every row running under the draining pod is due from a session of it |
| `DrainRows.FailedReleaseLeavesRow` | agent-runtime/internal/runtime/live.go:240-242 | from the start, with nothing in flight and no such row: the release of the one session fails, Drain returns, no agent holds and the row still runs under the pod |
| `DrainRows.LostReplyLeavesRow` | agent-runtime/internal/runtime/turns.go:137-140 | from the start, with nothing in flight and every release going through: a claim committed but its reply was lost, so Drain returns, no agent holds and the row still runs under the pod |
| `DrainRows.LateClaimLeavesRow` | agent-runtime/internal/runtime/turns.go:134-140 | from the start, with no such row and every release going through: a dispatch past the check claims after Drain has returned and its row runs under the pod |
| `EventLog.DecodeRolloutItems` | agent-runtime/internal/pgstore/events.go:218-235 | the loop computes the replay of the stored rows |
| `EventLog.ReplayRoundTrip` | agent-runtime/internal/pgstore/events.go:103-128 | encoding and replaying gives back every item in order, with a placeholder for an oversized response and nothing for other oversized items |
| `EventLog.StoredNames` | agent-runtime/internal/pgstore/events.go:34-55 | under which name each kind of item is stored, and which event messages are refused |
| `EventLog.StoredAs` | agent-runtime/internal/pgstore/events.go:103-130 | a stored row has the number, the name and the turn of its item, and its body whole up to the limit and a summary with a reference beyond it |
| `EventLog.ThreadLog.Append` | agent-runtime/internal/pgstore/events.go:133-170 | a batch is appended whole with the next numbers, or nothing changes: a deleted thread and an unknown event are refused |
| `EventLog.ThreadLog.EncodeBatch` | agent-runtime/internal/pgstore/events.go:144-158 | numbers and encodes in order, and fails exactly if some item is unknown |
| `EventLog.ThreadLog.WriteBatch` | agent-runtime/internal/pgstore/events.go:144-170 | adds exactly the rows of the batch and moves the last number past them |
| `EventLog.ThreadLog.LoadEvents` | agent-runtime/internal/pgstore/events.go:192-215 | the rows from a number on, ascending, cut only by the limit |
| `EventLog.HistoryIsAcceptedItems` | agent-runtime/internal/pgstore/events.go:133-170 | whatever batches commit in whatever order, the log is the accepted items, numbered from 1 without a gap |
| `EventLog.LoadOfContiguous` | agent-runtime/internal/pgstore/events.go:192-215 | on a log without gaps a read is a block of consecutive rows from where it was asked to start, as long as the limit and the log allow |
| `EventLog.CountAdvanceIff` | agent-runtime/internal/runtime/events.go:84-88 | advancing by the number of rows lands after the last one read exactly if the rows had no gap |
| `Notifier.Notifier.Subscribe` | agent-runtime/internal/runtime/events.go:23-39 | a new empty channel joins the key's subscribers |
| `Notifier.Notifier.Unsubscribe` | agent-runtime/internal/runtime/events.go:29-38 | takes out that channel only and leaves no empty key |
| `Notifier.Notifier.Notify` | agent-runtime/internal/runtime/events.go:42-51 | afterwards every subscriber of the key has a wake-up buffered |
| `Delivery.ResumeStartsAfter` | agent-runtime/internal/api/sse.go:80-97 | the id of event n in Last-Event-ID resumes at n + 1, but for the largest int64, which wraps to the start |
| `Delivery.StartsWhereAsked` | agent-runtime/internal/api/sse.go:86-97 | an empty query starts at event 1 and the printed number n at n |
| `Delivery.BadStartIsRefused` | agent-runtime/internal/api/sse.go:81-96 | what is no number or a negative one is refused in the header and in the query |
| `Delivery.BuffersAreBounded` | agent-runtime/internal/runtime/events.go:53-69 | in every run the channel to the handler holds at most 64 events and the tail at most 200 rows |
| `Delivery.ReadIsTheQuery` | agent-runtime/internal/runtime/events.go:100-122 | what the tail reads from the table is the next block of the log |
| `Delivery.StepKeepsExact` | agent-runtime/internal/runtime/events.go:71-122 | what the client has, the channel and the rows in hand stay one block of the log across every step |
| `Delivery.DeliveryIsExact` | agent-runtime/internal/runtime/events.go:71-122 | over every interleaving of appends, polls, wake-ups and reconnects the client has consecutive events of the log: from event 1 for an empty query, else from the number the query is read as, 0 counting as 1 |
| `Delivery.DeliveryFromPrinted` | agent-runtime/internal/runtime/events.go:71-122 | asked for the printed number n, the k-th event the client has is number n + k, or k + 1 for 0 |
| `Delivery.ReconnectingChangesNothing` | agent-runtime/internal/api/sse.go:80-97 | sessions joined by Last-Event-ID and one uninterrupted session give the same stream |
| `Delivery.StepKeepsHeard` | agent-runtime/internal/runtime/events.go:22-51 | a completed Notify is buffered, or covered by the rows in hand or already read |
| `Delivery.NoWakeupIsLost` | agent-runtime/internal/runtime/events.go:71-97 | when the tail is blocked with nothing buffered, every event whose Notify completed since it subscribed has been forwarded |
| `Delivery.CommittedIsForwarded` | agent-runtime/internal/runtime/events.go:22-122 | a batch committed on this pod whose Notify completed while the client was connected: whenever the tail then waits with nothing buffered, each event of it that was asked for is with the client or in the channel to it |
| `Delivery.EverythingCanBeDelivered` | agent-runtime/internal/runtime/events.go:71-122 | nothing gets stuck: after any run some continuation without a writer gives the client all there is from the event it asked for |
| `Delivery.SignalsAreTaken` | agent-runtime/internal/runtime/events.go:22-51 | a wake-up is taken by the wait it ends, a new subscription has none and reads at once, and so does a wait that ends |
| `Decimals.ParsePrinted` | agent-runtime/internal/pgstore/items.go:104-114 | a printed number is read back as itself |
| `Decimals.ParseSigned` | agent-runtime/internal/api/sse.go:82-93 | with or without a sign a number is read exactly if it is a signed 64-bit one |
| `Decimals.ParseRejects` | agent-runtime/internal/api/sse.go:82-93 | nothing but digits, at least one, after at most one sign is read as a number |
| `Decimals.PrintInjective` | libs/llm/meter.go:313-319 | different numbers print differently |
| `Usage.Scanner.FeedLine` | libs/llm/usage.go:78-115 | one line changes usage, found flag and upstream model as the frame on it says |
| `Usage.FrameIsRead` | libs/llm/usage.go:40-115 | what a frame does field by field: usage at the top, else inside a completed response; prompt and input tokens are one number, completion and output tokens the other, a zero total is their sum, an all-zero object is no usage; and which model name stays |
| `Usage.NoFrameIsRead` | libs/llm/usage.go:78-98 | a line that is no data line, or is empty, the end marker or no JSON, changes nothing |
| `Usage.MarkersSpelled` | libs/llm/usage.go:78-87 | the bytes looked for are the data prefix and the end marker of the stream |
| `Usage.SplitRejoins` | libs/llm/usage.go:149-160 | the lines with a newline each and the tail are the bytes, and no line has a newline |
| `Usage.TrimmedLine` | libs/llm/usage.go:149-160 | exactly the trailing newlines and carriage returns are cut off a line |
| `Usage.ScannedIsLastUsage` | libs/llm/usage.go:69-115 | after any lines, usage is found exactly if some line carries one, and it is the last such line's |
| `Usage.TeeUsageReader.Read` | libs/llm/usage.go:136-147 | the caller gets the source bytes and error unchanged, before and after a close or the end; the state is the one the bytes determine |
| `Usage.TeeUsageReader.Accept` | libs/llm/usage.go:136-147 | new bytes extend what was read, and the state follows |
| `Usage.TeeUsageReader.DrainLines` | libs/llm/usage.go:149-160 | every complete line of the buffer is fed in order and the text after the last newline stays |
| `Usage.TeeUsageReader.Close` | libs/llm/usage.go:162-173 | the unterminated tail is fed exactly if the end was not seen, and done has been called exactly once |
| `Usage.TeeUsageReader.Finish` | libs/llm/usage.go:175-182 | calls done the first time only |
| `Usage.SplitGoesOn` | libs/llm/usage.go:149-160 | splitting into lines may stop and go on anywhere |
| `Usage.TailHasNoNl` | libs/llm/usage.go:149-160 | what stays in the buffer has no newline and no complete line |
| `Usage.ChunkingDoesNotMatter` | libs/llm/usage.go:127-182 | two readers of the same bytes between closes that ended at the same place in the same way agree on buffer, scanner and reported result, however the bytes were cut |
| `Usage.ReportFoundIff` | libs/llm/usage.go:162-182 | done is told of usage exactly if a complete line carried one, or the tail did and a Close came before the end |
| `Usage.ReportIsOfWholeStreamIff` | libs/llm/usage.go:162-182 | the usage reported is that of the whole stream if and only if a Close came before the end, or the unterminated tail carries none or the one already found |
| `Usage.EndedBothWays` | libs/llm/usage.go:136-182 | the same bytes closed early and read to the end: one report with the tail, one without |
| `Meter.KeysAreDistinct` | libs/llm/meter.go:313-319 | one meter never issues the same key string for two calls, whatever traces and clock are |
| `Meter.KeysAreEqualIff` | libs/llm/meter.go:312-319 | calls of any two meters with nonces without a dash have the same key exactly if the numbers agree and so do trace and nonce, or clock and nonce if neither has a trace; a call with a trace meets one without only if its trace spells the other's prefix and its nonce the other's clock |
| `Meter.KeysOfTwoMetersDiffer` | libs/llm/meter.go:82-84 | two meters with different nonces without a dash never issue the same key to two calls with a trace, nor to two without |
| `Meter.Meter.RecordsAreDistinct` | libs/llm/meter.go:304-319 | no two records of a meter share a key |
| `Meter.Meter.Begin` | libs/llm/meter.go:117-128 | issues the next number and its key to a call with a tenant |
| `Meter.Meter.Settle` | libs/llm/meter.go:304-311 | closes an open call with exactly one record under its own key |
| `Meter.Meter.RoundTrip` | libs/llm/meter.go:117-154 | no tenant, no effect; otherwise exactly one record before returning with the status and tokens of the outcome, or an open call if the response streams; a failed gate lets the call pass and is counted |
| `Meter.Meter.Forward` | libs/llm/meter.go:141-191 | every upstream outcome but a stream settles the call at once, with the error the caller sees |
| `Meter.ErrorsTold` | libs/llm/meter.go:282-303 | which error a caller is told for which answer of the upstream |
| `Meter.Meter.StreamDone` | libs/llm/meter.go:156-191 | the stream's callback settles the call once, with its usage or as aborted with no tokens |
| `Meter.InsertIsIdempotent` | console/internal/repo/llm.go:98-116 | inserting a request again after any others changes nothing |
| `Meter.InsertAllKeeps` | console/internal/repo/llm.go:98-116 | a ledger row never changes, and a key gets a row exactly if some request names it |
| `Accounting.LedgerCountsEachCallOnce` | console/internal/repo/llm.go:98-116 | whatever is posted, how often and in what order: each posted record with tenant, model and no negative count has exactly one ledger row with its model, outcome and tokens, aborted and rejected calls included; there are no other rows and the token sums agree |
| `Accounting.RecordsAreAcceptable` | console/internal/svcapi/llm.go:100-125 | whatever the outcome of a call, its record is acceptable to the endpoint if it has a tenant, a model and no negative count |
| `Accounting.RequestNamesStatus` | libs/llm/console.go:83-103 | the four outcomes go under the four names the endpoint knows, with everything else as recorded |
| `Meter.Console.Handle` | console/internal/svcapi/llm.go:103-142 | accepts exactly the well-formed requests and inserts or ignores them |
| `Meter.Console.Post` | libs/llm/console.go:115-133 | one attempt under any network: lost, lost on the way back, refused or accepted |
| `Meter.Console.Record` | libs/llm/console.go:87-112 | under any schedule of failures the ledger ends with at most one row of the key, has it exactly if an attempt got through, and success is reported exactly if one was answered |
| `Quota.StepKeepsWithin` | console/internal/svcapi/llm.go:35-78 | recorded usage plus the most the calls past the gate can still add stays within the bound |
| `Quota.OvershootIsBounded` | console/internal/svcapi/llm.go:35-78 | over every run recorded usage is at most budget - 1 + calls at once * cost per call |
| `Quota.EmptyIsWithin` | console/internal/repo/llm.go:84-96 | a month starts within the bound when the budget is at least one token |
| `Quota.BoundIsReached` | console/internal/svcapi/llm.go:35-78 | from an empty month, for every budget and with calls that may pass and cost something, a run that ends exactly at the bound |
| `Quota.BoundIsReachedIff` | console/internal/svcapi/llm.go:35-78 | the bound is reached in some month if and only if a call may pass and may cost something, or the budget is one token |
| `SpawnGraph.ClimbIffPath` | agent-runtime/internal/pgstore/graph.go:85-117 | climbing parents n times from y reaches x exactly if a path of n edges leads from x to y |
| `SpawnGraph.UpsertIs` | agent-runtime/internal/pgstore/graph.go:24-42 | the child has exactly the new edge, all others stay, and no child has two parents |
| `SpawnGraph.UpsertKeepsAcyclicIff` | agent-runtime/internal/pgstore/graph.go:24-42 | hanging c under p keeps an acyclic graph acyclic if and only if p is neither c nor below c |
| `SpawnGraph.GraphStore.UpsertThreadSpawnEdge` | agent-runtime/internal/pgstore/graph.go:24-42 | the statement pair, or an error and no change for an invalid status |
| `SpawnGraph.GraphStore.SetThreadSpawnEdgeStatus` | agent-runtime/internal/pgstore/graph.go:45-55 | changes the status of the child's edge and nothing else |
| `SpawnGraph.GraphStore.ListThreadSpawnDescendants` | agent-runtime/internal/pgstore/graph.go:87-117 | ends with exactly the nodes reached along edges of the status, each once, by depth and then id |
| `SpawnGraph.WalkEndsIff` | agent-runtime/internal/pgstore/graph.go:87-117 | the recursive query ends if and only if the root is not its own descendant |
| `SpawnGraph.KeptByStatus` | agent-runtime/internal/pgstore/graph.go:93-115 | the walk goes along every edge, or exactly along those of the status asked for |
| `SpawnGraph.AcyclicWalkEnds` | agent-runtime/internal/pgstore/graph.go:87-117 | on an acyclic graph it ends from every root and for every status |
| `SnapshotChain.RunsAreMaximal` | console/internal/tsstore/snapshot.go:75-109 | publishes are cut into runs exactly where the hash changes |
| `SnapshotChain.RunsFlatten` | console/internal/tsstore/snapshot.go:41-68 | the runs are all the publishes in order |
| `SnapshotChain.Chain.PublishStateSnapshot` | console/internal/tsstore/snapshot.go:41-68 | after every publish the table is the history of all publishes: one version a run, first content and time, latest time seen, closed when the next run began |
| `SnapshotChain.Chain.SupersedeIfChanged` | console/internal/tsstore/snapshot.go:75-109 | the same hash only moves the time last seen; another closes the version in force |
| `SnapshotChain.ChainIsCollapsed` | console/internal/tsstore/snapshot.go:41-109 | the chain's hashes are the published hashes with consecutive repeats collapsed |
| `SnapshotChain.OneCurrentVersion` | console/internal/tsstore/snapshot.go:75-109 | only the newest version is in force, it has the last publish's hash, and each was superseded when its successor was created |
| `SnapshotChain.VersionsAreRuns` | console/internal/tsstore/snapshot.go:41-109 | each version has hash, content and creation time of the first publish of its run, was last seen at the latest of the run, and closed when the first of the next run came |
| `SnapshotChain.CurrentIsLastContent` | console/internal/tsstore/snapshot.go:111-129 | with a hash that tells the published contents apart, the content in force is the last one published |
| `IndexColumns.ParseIndexColumns` | libs/metrics/snapshot_probe.go:218-251 | the loop returns what the specification scan does |
| `IndexColumns.ParsePrinted` | libs/metrics/snapshot_probe.go:218-251 | printing any column expressions in one pair of parentheses and parsing returns them, whatever comes before without a parenthesis and whatever follows |
| `IndexColumns.ParsedAreColumns` | libs/metrics/snapshot_probe.go:218-251 | of any text whatever only trimmed balanced expressions without a top-level comma come out, and printing and parsing those changes nothing |
| `IndexColumns.WhiteSpace` | libs/metrics/snapshot_probe.go:218-251 | exactly the 25 white-space characters of Unicode are trimmed |
| `SeriesLayers.AccMeaning` | console/internal/tsstore/query.go:128-132 | the accumulated minimum, maximum and last value are those of the rows, in any order |
| `SeriesLayers.AccSums` | console/internal/tsstore/query.go:113-129 | count and sum of a group are the sum of the counts and the sum of each average times its count |
| `SeriesLayers.PointMeaning` | console/internal/tsstore/query.go:121-132 | each point over raw samples is of a multiple of the step and has the number of samples in its bucket and window, their mean, least, greatest and a latest value |
| `SeriesLayers.Partition` | console/internal/tsstore/query.go:128-132 | aggregating a part and the rest and joining them is aggregating the whole |
| `SeriesLayers.LayerAgrees` | console/migrations/0004_collected_timeseries.up.sql:96-124 | aggregating a layer's rows in any order gives sum, count, extremes and last value of the rows it was made from |
| `SeriesLayers.LayerOfLayer` | console/migrations/0004_collected_timeseries.up.sql:109-124 | the hourly layer made from the five-minute layer is the hourly layer of the samples |
| `SeriesLayers.LayerCurveIsRawCurve` | console/internal/tsstore/query.go:113-133 | on an aligned query the layer's curve is the samples' curve: weighted mean, extremes, last value and count |
| `SeriesLayers.LayersAgreeIff` | console/internal/tsstore/query.go:113-133 | layer and samples agree for all data if and only if neither the window's ends nor a step inside it cut a bucket |
| `SeriesLayers.CutBucketDiffers` | console/internal/tsstore/query.go:113-133 | wherever a query cuts a bucket, one sample makes the curves differ |
| `SeriesLayers.CurveIsOrdered` | console/internal/tsstore/query.go:128-132 | points come in ascending order of bucket |
| `SeriesLayers.CurveIsComplete` | console/internal/tsstore/query.go:121-132 | every sample of the window is in the point of its bucket |
| `SeriesLayers.QuerySeesEverySample` | console/internal/tsstore/query.go:61-75 | for windows no older than the last retention and not cutting a bucket, the query over what the chosen layer still stores is the query over every sample ever written |
| `SeriesLayers.LayerByAge` | console/internal/tsstore/query.go:46-75 | raw up to 14 days back, five minutes up to 90 days, then hours |
| `SeriesLayers.LayerIsFinest` | console/internal/tsstore/query.go:61-75 | the layer chosen is the finest whose retention still covers the start of the window |
| `ItemPaging.ScanItemPage` | agent-runtime/internal/pgstore/items.go:70-102 | the loop makes the page of its rows: the first ones, and a cursor at the last exactly if there are more |
| `ItemPaging.ListItems` | agent-runtime/internal/pgstore/items.go:16-67 | a bad cursor, a missing thread, or the page of the selected rows in the asked direction |
| `ItemPaging.SelectedIsFilter` | agent-runtime/internal/pgstore/items.go:44-67 | the selection is exactly the response items that match the filters and lie beyond the cursor |
| `ItemPaging.PageShows` | agent-runtime/internal/pgstore/items.go:70-102 | a page shows number, turn, time and payload of its rows in their order; its cursor is the number of its last row |
| `ItemPaging.PageSizes` | agent-runtime/internal/pgstore/threads.go:275-283 | 25 rows by default, never more than 200, else what was asked for |
| `ItemPaging.CursorsRead` | agent-runtime/internal/pgstore/items.go:104-114 | no cursor, or the number it spells; a number that does not fit is refused |
| `ItemPaging.Resume` | agent-runtime/internal/pgstore/items.go:56-63 | a cursor at a selected row selects those after it, or descending those before it |
| `ItemPaging.LimitLosesNothing` | agent-runtime/internal/pgstore/items.go:64-66 | one row more than a page is enough to know whether there is a next |
| `ItemPaging.WalkIsWalkFrom` | agent-runtime/internal/pgstore/items.go:104-114 | no cursor is lost or misread between pages |
| `ItemPaging.AscendingWalk` | agent-runtime/internal/pgstore/items.go:16-102 | following cursors ascending over a growing log collects the matching items of the log last read from the start, each once in order, and all of them once no cursor comes |
| `ItemPaging.DescendingWalk` | agent-runtime/internal/pgstore/items.go:16-102 | descending it collects exactly the matching items of the log first read, newest first |
| `ItemPaging.WalkEnds` | agent-runtime/internal/pgstore/items.go:16-102 | on a log that stands still the walk ends within one page for every full page of matches |
| `ItemListing.ListingByTurnIff` | agent-runtime/internal/pgstore/items.go:13-15 | on the rows of any log a listing by turn finds something if and only if an event message has the name of a response item and that turn: response items are stored without one |
| `ItemListing.ListingByTurnIsEmpty` | agent-runtime/internal/pgstore/items.go:44-67 | with any cursor, ordinal and direction too, a listing by turn is empty when no message has such a name |
| `Gateway.Session.AwaitCommand` | gateway/internal/accept/registry.go:33-39 | registers a fresh empty channel under the id |
| `Gateway.Session.SignalCommand` | gateway/internal/accept/registry.go:42-50 | takes the registration out and puts the outcome in its channel, which is always free; an unknown id changes nothing |
| `Gateway.Session.CancelCommand` | gateway/internal/accept/registry.go:53-57 | takes the registration out |
| `Gateway.Session.SignalDrain` | gateway/internal/accept/registry.go:106-111 | a drain is buffered; a second one is dropped |
| `Gateway.Registry.Add` | gateway/internal/accept/registry.go:70-77 | the new session takes its connector's place and the one replaced has a drain buffered |
| `Gateway.Registry.Remove` | gateway/internal/accept/registry.go:80-86 | the session is not registered afterwards and every other one still is |
| `Gateway.Registry.DrainAll` | gateway/internal/accept/registry.go:97-103 | every registered session has a drain buffered |
| `Gateway.CommandResultErr` | gateway/internal/accept/session.go:276-285 | success exactly for an OK result; a failure passes its code on, and always carries one |
| `Gateway.UploadFailsClosed` | gateway/internal/accept/session.go:219-273 | the waiter hears success exactly for a supported, decodable, consistent upload that was forwarded |
| `Gateway.UploadFailures` | gateway/internal/accept/session.go:219-273 | which code the waiter is told for which failure, the first one counting |
| `GatewayRuns.StepKeepsRegistry` | gateway/internal/accept/registry.go:70-103 | the registry always holds exactly the last session of each connector while it is open, and any other open session was sent a drain |
| `GatewayRuns.RemoveSparesOthers` | gateway/internal/accept/registry.go:80-86 | a superseded session that ends never evicts its successor |
| `GatewayRuns.StepKeepsCorrelation` | gateway/internal/accept/registry.go:31-57 | every step keeps: an open dispatch is pending until its command is signalled, then exactly one outcome is on its way or in its channel |
| `GatewayRuns.RunIsSafe` | gateway/internal/accept/session.go:78-97 | both invariants hold in every reachable state when no two dispatches wait for one id on one session at once |
| `GatewayRuns.DispatchHearsItsOwn` | gateway/internal/accept/session.go:78-97 | what a dispatch returns is the first outcome signalled for its own command on its own session since it registered |
| `GatewayRuns.SignalsNeitherBlockNorLeak` | gateway/internal/accept/registry.go:42-50 | a signal in hand can always be delivered, a signalled command's outcome reaches its waiting dispatch, and nothing pending belongs to a finished one |
| `GatewayRuns.RegistryIsExact` | gateway/internal/accept/registry.go:59-103 | in every reachable state the registry holds each connector's last session while that is open, and every other open session has a drain to read or has read it |
| `GatewayRuns.DrainsAreReadOnce` | gateway/internal/accept/registry.go:68-112 | drains are buffered for the replaced session and for all at once, and each is gone after one read |
| `GatewayRuns.CommandsAreBounded` | gateway/internal/accept/registry.go:22-30 | each session has at most four commands waiting to be written |
| `SharedIds.AwaitLosesIff` | gateway/internal/accept/registry.go:33-57 | from any state that meets the invariants, a registration can lead to a lost outcome if and only if its id is awaited on the session already |
| `SharedIds.LostForGood` | gateway/internal/accept/registry.go:33-57 | a lost outcome stays lost: the dispatch can only give up |
| `SharedIds.FirstIsLost` | gateway/internal/accept/registry.go:33-57 | a second registration takes the first one's place, and its giving up takes it away before the outcome comes |
| `SharedIds.SecondIsLost` | gateway/internal/accept/registry.go:53-57 | if the first has its outcome already, its giving up takes the second one's registration away |
| `SharedIds.SharedIdLosesOutcome` | gateway/internal/accept/session.go:78-97 | a whole run from the start after which an id is awaited twice and its outcome is lost |

## Left out

- MutualExclusion.MutualExclusionHolds: assumes runs of benign steps, each of which is necessary for the invariant by `StepKeepsExclusionIff`; the timed form (every live holder beats within twice the interval) is the condition on recovery.
- Draining.DrainCompletes: speaks of the snapshot; what holds of the whole pod, and exactly when, is `DrainGap.DrainLeavesBehindIff` for its agents and `DrainRows.DrainLeavesRowIff` for the rows.
- SpawnGraph.GraphStore.ListThreadSpawnDescendants: requires a root that is not its own descendant, which is exactly when the query ends.
- Delivery.DeliveryIsExact: the log is shorter than the largest int64; overflow of sequence numbers is not modelled elsewhere either.
- Quota.OvershootIsBounded: one month, a hard stop and a gate that answers; a call counts as past the gate until its report can no longer land for the first time.
- SeriesLayers.QuerySeesEverySample: both aggregates are taken as complete; refresh lag and samples later than the refresh window are not modelled, nor is floating-point rounding.
- GatewayRuns.RunIsSafe: distinct ids among the dispatches open at the same time on a session are assumed of the callers; exactly a registration that breaks this can lose an outcome.
- At-most-once submission: a submitter's feed and the pump's may both read one pending input, so a session can be given it twice.
- Liveness: a session with nothing to admit waits without a turn; no theorem says that a step eventually happens.
- The agent session's own events: only the end of a turn and of the stream matter here and happen at any time; the interrupt a drain sends first is covered by that, and its turn bookkeeping is not modelled.
- Child threads: `pumpChild` and `releaseChildren` run inside a parent's session and are not steps of the protocol.
- Agent profile lookup, session configuration, thread creation and forking beyond the row they insert.
- The sweep and maintenance loops: a sweep is any number of dispatches, so it adds no step.
- Tenancy, row-level security and role switching: thread ids are one space over all tenants, and only the recovery scan and the limiter look at the tenant.
- JSON encoding and decoding, SHA-256, base64 and UUID parsing: parameters or fields that hold their result. A row the SSE handler cannot marshal is not modelled.
- Invalid UTF-8 in an index definition, which Go turns into replacement characters.
- `ListTurns`, `ListThreads` and their opaque cursors: the turn cursor re-reads a turn's closing event, so pages are no partition; thread paging follows the pattern of items.
- `ListThreadSpawnChildren`, `parseTables`, `enforceSnapshotSize`, slow-log and configuration parsing: straightforward loops with no property across functions.
- Dispatch of a published snapshot by kind, slow-log storage and retention of snapshots.
- Connector heartbeats, status reports, timers and the handshake at the gateway: a session is open from its registration to its removal, and "registered implies online" does not hold there.
- gRPC, TLS and HTTP transport, console CRUD, configuration, logging, metrics, the frontend and the skills package.
