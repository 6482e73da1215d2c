# x0x-symphony: a verified model of its claim and approval protocol

x0x-symphony hands issues to coding agents. An issue that came over the network runs only with consent:
a signed approval, bound to the issue, its payload and its signer, that is spent when it is used. Around
that sit the claim lifecycle kept in three tracker records, the retry loop that drives one claim, the
slot accounting of the scheduler, and startup reconciliation; its second tracker version folds signed
author streams into one view instead. This project models those parts, and the smaller components they
lean on, and proves what holds over every run.

Outside services are oracles. Trust store, signature verifier, signer, hooks, runner, clock, filesystem
and the answer to every single write are parameters, so each statement holds for all their answers.
SHA-256 and base64 are function-valued parameters; injectivity is assumed only where a statement says so
(`VerifyCache.Honest`). A timestamp keeps its text and, when it parses, its instant in nanoseconds.

Layout, one module per file:

- `Domain`, `Ordering`: entities, and lexicographic order.
- `Approval`, `Gate`, `Consent`, `Submit`: from the validity of one approval, through the dispatch gate
  and its meaning over whole runs, to the operator's path from a parked issue to a running one.
- `Tracker`, `Lifecycle`: the records, the adapter's writes, and what every run of them keeps.
- `RunClaim`, `Retry`: one claim as a trace of actions, and its backoff arithmetic.
- `Scheduler`, `Freshness`, `Conflict`, `Reconcile`: slots, claim freshness, duplicate claims, and the
  startup pass.
- `ShardAssignment`, `Workers`, `Sse`, `StreamText`, `VerifyCache`: worker slates, the worker view, its
  event stream as text and as raw chunks, and the signature cache.
- `FoldEvents`, `LamportCap`, `FoldState`, `FoldList`: the version-2 fold: author chains, the clock cap,
  the state machine, and the whole from fetched streams to view.
- `ProofNames`, `Reaper`: proof directory names as written and as read, and retention.

State the source updates in place is a class (`KvTracker`, `ClaimRun`, `Budget`, `Orchestrator`,
`WorkerView`, `SseBuffer`, `Verifier`, `IssueProofs`, `ProofStore`) whose methods are proved against
functions on values; the theorems are about those functions.

Main results: `Consent.EachApprovalIsSpentOnce`, `Consent.DenialStands`, `Gate.DispatchProceedsIff`,
`Submit.ConsentDispatches`, `Lifecycle.RunKeepsLifecycle`, `RunClaim.ClaimRun.Run`,
`Scheduler.EveryRunConserves`, `Reconcile.ReconcileIsIdempotentIff`, `Conflict.ConflictConverges`,
`ShardAssignment.OwnerDeparture`, `Sse.ChunkingIsInvisible`, `VerifyCache.CacheIsTransparent`,
`Workers.EqualEpochsSameAgents`, `Reaper.RetentionFollowsStart`, `Retry.BackoffRefines`,
`StreamText.RawChunkingIsInvisibleIff`, `LamportCap.CapIsGreatest`, `FoldList.FoldIsOrderFree`,
`FoldState.EachApprovalSpentOnce`.

Where a wished-for property fails in the code, the exact condition is proved:

- `handoff` without signing stores the caller's issue id; a foreign id makes the whole listing unreadable
  (`Lifecycle.HandoffReadableIffWellAddressed`).
- Validity of an approval never compares issue ids, so one approval can be used again exactly when it is
  filed under an issue it does not name (`Consent.SecondProceedIff`, with such a store in
  `Consent.MisfiledApprovalIsSpentTwice`). A keyed store stays keyed (`Consent.RunGrows`), and from one
  each approval is spent once (`Consent.EachApprovalIsSpentOnce`).
- A `PendingApproval` resolution can be requeued only if all stored evidence could be checked
  (`Gate.ParkedRequeueableIff`).
- Registering an issue that is already in flight leaks a slot (`Scheduler.RegisterConservesIff`).
- Reconciliation repeats itself exactly when a takeover is stamped a whole TTL or more before the pass's
  instant (`Reconcile.ReconcileIsIdempotentIff`; a zero TTL does it, `Reconcile.ZeroTtlRepeats`). A
  takeover needs a stored claim in the primary role, and this adapter only ever writes the manual one: on
  the stores its own runs reach, backup takeover never fires and reconciliation is idempotent without
  condition (`Reconcile.AdapterRunsReconcileOnce`). The failing case needs a claim by another writer.
- A claim kept for resumption is offered to the claim loop but never granted again
  (`Reconcile.ResumedIsOfferedButNeverGranted`).
- What raw network chunks hand on equals what the whole stream would exactly when no chunk boundary
  splits a UTF-8 sequence (`StreamText.RawChunkingIsInvisibleIff`).
- The heartbeat interval is below the TTL only from 2 ms on (`Freshness.ShardIntervalBelowTtlIff`).
- At saturation the view epoch hides membership changes (`Workers.ChangeShowsIff`).
- Run names of years outside 0..9999 do not read back, and after 9999 cannot be created
  (`ProofNames.RunNameParsesIff`, `ProofNames.RunNameIsSafeIff`).

`dispatch.rs` documents its pending outcome as releasing the claim; the code blocks it with a reason
code, and the model follows the code.

## Model

| member | source | states |
|---|---|---|
| Approval.ApprovalDecision | crates/x0x-symphony-core/src/approval.rs:434-456 | the one-pass loop answers Denied iff some stored denial is valid, Approved iff no denial and some approval is valid |
| Approval.DecisionIsOrderFree | crates/x0x-symphony-core/src/approval.rs:434-456 | the decision depends only on which events are stored, not on order or repetition |
| Approval.SpendingSilencesOnlyApprovals | crates/x0x-symphony-core/src/approval.rs:249-278 | one more consumption record invalidates exactly the approvals under its key and no denial |
| Tracker.KvTracker.UpdateTask | crates/x0x-symphony-tracker-x0x-crdt/src/client.rs:129-134 | a claim patch writes the acting agent into box and assignee, a completion into the box; nothing else changes, or the write is lost |
| Tracker.KvTracker.PutClaimBlob | crates/x0x-symphony-tracker-x0x-crdt/src/lib.rs:729-737 | a claim blob write replaces that issue's blob and nothing else, or is lost |
| Tracker.KvTracker.PutHandoffBlob | crates/x0x-symphony-tracker-x0x-crdt/src/lib.rs:739-747 | a handoff blob write replaces that issue's blob and nothing else, or is lost |
| Tracker.KvTracker.EnsureOwner | crates/x0x-symphony-tracker-x0x-crdt/src/lib.rs:926-952 | succeeds iff the issue's stored claim is active and has the caller's owner, and names that issue |
| Tracker.KvTracker.Claim | crates/x0x-symphony-tracker-x0x-crdt/src/lib.rs:1291-1320 | whole new records and answer for every write outcome: granted only to this agent on a free todo issue, whose task then names it |
| Tracker.KvTracker.Heartbeat | crates/x0x-symphony-tracker-x0x-crdt/src/lib.rs:1322-1337 | rewrites the held claim with a new heartbeat, refuses otherwise |
| Tracker.KvTracker.Release | crates/x0x-symphony-tracker-x0x-crdt/src/lib.rs:1339-1353 | rewrites the held claim as released with its reason, refuses otherwise |
| Tracker.KvTracker.HandOff | crates/x0x-symphony-tracker-x0x-crdt/src/lib.rs:1355-1386 | handoff blob, then done box, then completed claim; each prefix of writes is accounted for |
| Tracker.KvTracker.Block | crates/x0x-symphony-tracker-x0x-crdt/src/lib.rs:1407-1421 | rewrites the held claim as blocked with its reason, refuses otherwise |
| Tracker.KvTracker.RequeueBlocked | crates/x0x-symphony-tracker-x0x-crdt/src/lib.rs:1423-1467 | releases a blocked claim iff its reason code is awaiting_approval |
| Tracker.KvTracker.StoreApproval | crates/x0x-symphony-tracker-x0x-crdt/src/lib.rs:1489-1506 | appends the event to the blob under the event's own issue id |
| Tracker.KvTracker.StoreConsumed | crates/x0x-symphony-tracker-x0x-crdt/src/lib.rs:1508-1526 | appends the consumption to the blob under its own issue id |
| Lifecycle.StepKeepsLifecycle | crates/x0x-symphony-tracker-x0x-crdt/src/lib.rs:1291-1526 | one completed operation moves every issue's reconstructed state legally, in progress iff claimed, same owner while in progress, blocked leaves only from awaiting_approval, settled issues unchanged |
| Lifecycle.RunKeepsLifecycle | crates/x0x-symphony-tracker-x0x-crdt/src/lib.rs:1291-1526 | over every run of any agents the listing stays readable, in progress iff claimed, and review and non-awaiting blocked issues never change again |
| Lifecycle.RunMovesLegally | crates/x0x-symphony-tracker-x0x-crdt/src/mapping.rs:490-509 | over every run of any agents, consecutive views are only todo to in_progress, in_progress to todo, blocked or review, blocked to todo, or equal |
| Lifecycle.ReachableIsReadable | crates/x0x-symphony-tracker-x0x-crdt/src/mapping.rs:587-613 | the record shapes of a run pass both blob validations |
| Lifecycle.HandoffReadableIffWellAddressed | crates/x0x-symphony-tracker-x0x-crdt/src/lib.rs:1355-1386 | after a handoff the listing is readable iff an unsigned handoff names its own issue or none |
| Lifecycle.ClaimShows | crates/x0x-symphony-tracker-x0x-crdt/src/mapping.rs:447-474 | a completed claim on a todo issue succeeds and changes exactly state, claim, checkbox text and assignee of the issue seen, all naming the claimant |
| Lifecycle.RewriteShows | crates/x0x-symphony-tracker-x0x-crdt/src/mapping.rs:447-474 | heartbeat changes only the claim's heartbeat; release returns the issue to todo; block shows its reason; nothing else of the issue changes |
| Lifecycle.HandoffShows | crates/x0x-symphony-tracker-x0x-crdt/src/mapping.rs:447-474 | a completed handoff shows as review with that handoff and no claim, nothing else changed but the checkbox text, which names the agent |
| Lifecycle.RequeueShows | crates/x0x-symphony-tracker-x0x-crdt/src/mapping.rs:447-474 | requeueing shows as todo without the blocked reason, nothing else changed |
| Lifecycle.StepKeepsContent | crates/x0x-symphony-tracker-x0x-crdt/src/lib.rs:1291-1526 | no operation changes a task's title or description |
| Lifecycle.RunKeepsManual | crates/x0x-symphony-tracker-x0x-crdt/src/lib.rs:1299-1304 | over every run whose rewrites carry claims of the manual role, every stored claim has that role |
| Gate.VerifiedConsumedRecords | crates/x0x-symphony-orchestrator/src/dispatch.rs:1064-1109 | the loop returns the whole list, or the refusal code of the first record that does not verify |
| Gate.VerifiedEvents | crates/x0x-symphony-orchestrator/src/dispatch.rs:829-865 | the loop keeps the valid genuine events in order, or fails on a valid event that cannot be checked |
| Gate.ConsumedFaultMeaning | crates/x0x-symphony-orchestrator/src/dispatch.rs:1064-1109 | no fault iff every record verifies |
| Gate.KeptMeaning | crates/x0x-symphony-orchestrator/src/dispatch.rs:829-865 | events are kept iff no valid event is uncheckable |
| Gate.KeptVerdicts | crates/x0x-symphony-orchestrator/src/dispatch.rs:829-865 | a verdict is among the kept events iff some stored event with it is valid and genuine |
| Gate.BlockForDispatchRefusal | crates/x0x-symphony-orchestrator/src/dispatch.rs:1233-1255 | one block call with the refusal's code; its failure is an error |
| Gate.ApprovalGateDecision | crates/x0x-symphony-orchestrator/src/dispatch.rs:800-910 | the stepwise gate equals its value-level meaning: outcome, records and block calls |
| Gate.BlockIfNetworkDispatchRefused | crates/x0x-symphony-orchestrator/src/dispatch.rs:674-798 | the stepwise gate equals its value-level meaning, and its last Off arm is dead |
| Gate.ApprovalGateProceedsIff | crates/x0x-symphony-orchestrator/src/dispatch.rs:800-910 | Proceed iff everything loads and verifies, a genuine unexpired unspent approval stands, no denial stands, and the spend is signed and stored; the records then gain exactly that spend |
| Gate.DispatchProceedsIff | crates/x0x-symphony-orchestrator/src/dispatch.rs:674-798 | Proceed iff not from the network, self-signed, trusted under auto, or trusted with consent |
| Gate.RefusalNamesItsCause | crates/x0x-symphony-orchestrator/src/dispatch.rs:674-798 | which refusal code is recorded, cause by cause, each in both directions |
| Gate.GateAccounted | crates/x0x-symphony-orchestrator/src/dispatch.rs:674-798 | each refusal makes exactly one block call on a held claim and changes only its blob; Proceed makes none; an error follows at most one |
| Gate.ParkedRequeueableIff | crates/x0x-symphony-orchestrator/src/dispatch.rs:800-910 | a parked issue can be requeued iff a verifier is configured, all evidence was checked, and it fell short of consent |
| Consent.RunGrows | crates/x0x-symphony-tracker-x0x-crdt/src/lib.rs:1469-1526 | over every run approval blobs only grow at the end and stay keyed by their events' issue ids |
| Consent.SpendIsRecorded | crates/x0x-symphony-orchestrator/src/dispatch.rs:1025-1054 | an approval-path Proceed leaves its key among the stored consumptions |
| Consent.SpentKeyHasNoConsent | crates/x0x-symphony-core/src/approval.rs:249-278 | once its key is on record no approval stands, whatever the verifier answers |
| Consent.EachApprovalIsSpentOnce | crates/x0x-symphony-orchestrator/src/dispatch.rs:800-910 | over every run, two approval-path Proceeds never share issue id, content hash and signer |
| Consent.DenialStands | crates/x0x-symphony-core/src/approval.rs:434-456 | after a denial is stored, no later evaluation of its payload and signer proceeds unless it calls that denial forged |
| Consent.StandingAfterSpending | crates/x0x-symphony-core/src/approval.rs:249-278 | after a spend an approval stands iff it is misfiled under another issue id; denials stand as before |
| Consent.SecondProceedIff | crates/x0x-symphony-orchestrator/src/dispatch.rs:800-910 | after an approval-path Proceed, the same evaluation proceeds again iff a standing approval carries another issue's id |
| Consent.MisfiledApprovalIsSpentTwice | crates/x0x-symphony-orchestrator/src/dispatch.rs:800-910 | a store in which one misfiled approval dispatches an issue twice |
| Submit.SubmitApproval | crates/x0x-symphony-bin/src/api.rs:721-820 | the ordered writes, with every refusal and write outcome, equal their value-level meaning |
| Submit.SubmitAccounted | crates/x0x-symphony-bin/src/api.rs:721-820 | success means the expected hash and signer matched and the event is last on record; claims change only for an approval of parked work, other records never |
| Submit.ScanAgreesWithGuard | crates/x0x-symphony-bin/src/api.rs:1133-1141 | the metadata scan and the tracker's requeue guard accept the same issues |
| Submit.RunKeepsContent | crates/x0x-symphony-core/src/approval.rs:73-79 | no run of tracker operations, by any agents, changes the content hash |
| Submit.DraftContents | crates/x0x-symphony-bin/src/api.rs:760-779 | a stored event binds the issue's id, current hash and verified signer, under a consistent envelope |
| Submit.FreshApprovalIsConsent | crates/x0x-symphony-orchestrator/src/dispatch.rs:829-910 | a fresh genuine approval on top of checkable, undenied, unspent evidence is consent |
| Submit.SubmittedApprovalRequeues | crates/x0x-symphony-bin/src/api.rs:779-816 | approving a parked issue stores the event and releases the claim |
| Submit.RequeuedIsClaimable | crates/x0x-symphony-tracker-x0x-crdt/src/lib.rs:1423-1467 | a requeued issue is todo and the next claim on it succeeds, touching only box and claim blob |
| Submit.ConsentDispatches | crates/x0x-symphony-bin/src/api.rs:721-820 | from parked: submit, requeue, claim and gate end in Proceed when trust, TTL, verifier, signer and store allow |
| Submit.ConsentIsAttainable | crates/x0x-symphony-bin/src/api.rs:721-820 | the premises of that path can all hold at once |
| RunClaim.ClaimRun.CancelHeartbeat | crates/x0x-symphony-orchestrator/src/dispatch.rs:125-129 | aborts the heartbeat if there is one, once |
| RunClaim.ClaimRun.BlockIfHookFailed | crates/x0x-symphony-orchestrator/src/dispatch.rs:1345-1398 | a failed or erroring hook makes one block transition after the heartbeat stops; others change nothing |
| RunClaim.ClaimRun.CleanUpAndFinish | crates/x0x-symphony-orchestrator/src/dispatch.rs:1436-1501 | runs the removal hook and removes the workspace exactly when the state is terminal and the hook allows; no transition, no session |
| RunClaim.ClaimRun.RunAttempt | crates/x0x-symphony-orchestrator/src/dispatch.rs:1283-1343 | one started session is one stop and at most one turn, none if shutdown was already signalled; a shutdown releases the claim once |
| RunClaim.ClaimRun.Settle | crates/x0x-symphony-orchestrator/src/dispatch.rs:589-626 | success hands off, exhaustion blocks, anything else sleeps the policy's delay with no transition |
| RunClaim.ClaimRun.Attempt | crates/x0x-symphony-orchestrator/src/dispatch.rs:564-627 | one round either resolves with its one transition or has slept once more with none made |
| RunClaim.ClaimRun.Guarded | crates/x0x-symphony-orchestrator/src/dispatch.rs:526-629 | everything inside the slot guard: one transition at most, at most max_attempts turns, the k-th sleep is the k-th delay, no slot release |
| RunClaim.ClaimRun.Run | crates/x0x-symphony-orchestrator/src/dispatch.rs:526-629 | one transition matching an Ok resolution, at most one on error, heartbeat dead before it, slot freed once and last, at most max_attempts turns, sessions balanced, none without Proceed |
| RunClaim.MonitorMeaning | crates/x0x-symphony-orchestrator/src/dispatch.rs:526-629 | in a safe trace every session follows an open gate and precedes any transition, transitions and slot release happen with heartbeat and sessions over, and a workspace is removed only after a handoff or block, never after a shutdown release |
| RunClaim.GateIsCounted | crates/x0x-symphony-orchestrator/src/dispatch.rs:631-649 | every gate result meets what the run expects of it |
| Retry.NewPolicy | crates/x0x-symphony-orchestrator/src/retry.rs:28-34 | at least one attempt and a base of at least a millisecond |
| Retry.LowBytesRoundTrip | crates/x0x-symphony-orchestrator/src/retry.rs:57-69 | reading the low little-endian bytes of a number that fits them gives it back |
| Retry.BackoffRefines | crates/x0x-symphony-orchestrator/src/retry.rs:57-69 | the 128-bit, byte-level arithmetic equals min(max, min(base * 2^min(attempt-1, 31), 2^64-1)) |
| Retry.BackoffCapped | crates/x0x-symphony-orchestrator/src/retry.rs:57-69 | no delay exceeds max |
| Retry.BackoffMonotone | crates/x0x-symphony-orchestrator/src/retry.rs:57-69 | later attempts never wait less, and no wait exceeds max |
| Retry.TotalSleepBounded | crates/x0x-symphony-orchestrator/src/retry.rs:57-69 | a run's sleeps sum to at most (max_attempts - 1) * max |
| Scheduler.Budget.TryAcquire | crates/x0x-symphony-orchestrator/src/concurrency.rs:61-89 | takes a slot iff there is headroom, globally and per capped state |
| Scheduler.Budget.Release | crates/x0x-symphony-orchestrator/src/concurrency.rs:92-97 | gives a slot back, saturating at zero |
| Scheduler.ReserveConserves | crates/x0x-symphony-orchestrator/src/lib.rs:576-586 | reserving keeps counts balanced and caps kept, without overflow |
| Scheduler.GiveBackConserves | crates/x0x-symphony-orchestrator/src/lib.rs:599-605 | giving back a pending reservation keeps counts balanced, without saturating |
| Scheduler.RegisterConservesIff | crates/x0x-symphony-orchestrator/src/lib.rs:587-598 | registering conserves slots iff the issue is not already in flight |
| Scheduler.ReleaseSlotConserves | crates/x0x-symphony-orchestrator/src/lib.rs:528-538 | freeing a slot keeps counts balanced, without saturating |
| Scheduler.EveryRunConserves | crates/x0x-symphony-orchestrator/src/lib.rs:558-609 | under every interleaving used slots equal in-flight plus pending, per capped state too, caps hold and no arithmetic saturates |
| Scheduler.FreshLedgerConserves | crates/x0x-symphony-orchestrator/src/concurrency.rs:50-57 | a new budget with nothing in flight is balanced |
| Scheduler.Orchestrator.ClaimNext | crates/x0x-symphony-orchestrator/src/lib.rs:558-609 | registers the first takeable granted candidate, or none; a miss means no grant or an exhausted cap; slots conserved |
| Scheduler.Orchestrator.FreeSlot | crates/x0x-symphony-orchestrator/src/lib.rs:528-538 | frees a registered slot once and conserves the rest |
| Freshness.ShardIntervalBelowTtlIff | crates/x0x-symphony-orchestrator/src/reconcile.rs:87-154 | for every 64-bit shard TTL the interval is positive, and below the effective TTL iff the TTL is at least 2 ms |
| Freshness.DefaultIntervalBelowTtlIff | crates/x0x-symphony-orchestrator/src/reconcile.rs:93-109 | without a shard, the interval is below the TTL iff the TTL exceeds 1 ms |
| Freshness.TakeoverIff | crates/x0x-symphony-orchestrator/src/lib.rs:728-749 | the takeover test passes iff the holder is the shard's primary in the primary role, this agent is another and a listed backup, and the beat is at least a TTL old |
| Freshness.SteadyClaimNeverStale | crates/x0x-symphony-orchestrator/src/reconcile.rs:50-66 | while beats land less than a TTL apart, the owner sees its claim fresh and no takeover test passes |
| Freshness.IntervalBeatsAreSteady | crates/x0x-symphony-orchestrator/src/reconcile.rs:87-109 | from a TTL of 2 ms on, beats at most interval plus slack apart are steady for every slack below what the TTL leaves over |
| Freshness.ScheduledClaimNeverStale | crates/x0x-symphony-orchestrator/src/reconcile.rs:50-109 | so a claim beaten on that schedule is fresh to its owner and cannot be taken over |
| Conflict.WinnerIsLeast | crates/x0x-symphony-orchestrator/src/reconcile.rs:132-147 | the winner is one of the claims and none precedes it |
| Conflict.LowestRankWins | crates/x0x-symphony-orchestrator/src/reconcile.rs:132-147 | the winner has the lowest rank, then the least owner, then the least claim time |
| Conflict.ReconcileConflict | crates/x0x-symphony-orchestrator/src/lib.rs:690-726 | acts iff there are two or more claims; fails iff the release or the record of one of this agent's losing claims fails, and then has released the losing claims before it, and it too if only its record failed; otherwise releases exactly the losing claims |
| Conflict.WinnersShareOwner | crates/x0x-symphony-orchestrator/src/reconcile.rs:132-147 | agents seeing the same claims in any order name the same winning owner |
| Conflict.ConflictConverges | crates/x0x-symphony-orchestrator/src/lib.rs:690-726 | once every claimant has reconciled, exactly one claim value is unreleased and all agree on its owner |
| Reconcile.ReconcileClaim | crates/x0x-symphony-orchestrator/src/lib.rs:656-685 | one claim's release or takeover equals its value-level meaning for every write outcome |
| Reconcile.OpTreats | crates/x0x-symphony-orchestrator/src/lib.rs:656-685 | it succeeds iff the claim can be judged and the writes its fate needs go through, and then leaves the records that fate prescribes |
| Reconcile.Reconcile | crates/x0x-symphony-orchestrator/src/lib.rs:636-688 | succeeds iff the listing reads and every claim succeeds; counts claims by fate; every issue ends as its fate prescribes |
| Reconcile.SecondVerdicts | crates/x0x-symphony-orchestrator/src/lib.rs:636-688 | what a second pass at the same instant decides about each claim, in terms of the first |
| Reconcile.ReconcileIsIdempotentIff | crates/x0x-symphony-orchestrator/src/lib.rs:636-749 | the second pass releases and takes over nothing iff each takeover was stamped within its TTL; it then cannot fail and resumes what was resumed or taken over |
| Reconcile.PositiveTtlsMakeItIdempotent | crates/x0x-symphony-orchestrator/src/lib.rs:636-749 | with takeovers stamped at that instant, positive TTLs suffice |
| Reconcile.ManualClaimsAreNotTakenOver | crates/x0x-symphony-orchestrator/src/lib.rs:728-749 | claims of the role the adapter writes are never taken over |
| Reconcile.AdapterRunsReconcileOnce | crates/x0x-symphony-orchestrator/src/lib.rs:636-749 | on every store the adapter's runs reach, a second pass at the same instant changes nothing and resumes what the first resumed, with no condition on TTLs or stamps |
| Reconcile.ZeroTtlRepeats | crates/x0x-symphony-orchestrator/src/lib.rs:636-749 | a store holding a primary's claim under a zero TTL, which the first pass takes over and the second gives up |
| Reconcile.ResumedIsOfferedButNeverGranted | crates/x0x-symphony-orchestrator/src/dispatch.rs:58-74 | a claim kept for resumption passes the claim loop's test, yet the tracker always refuses it; what that loop can win is exactly the free todo issues |
| ShardAssignment.UniqueWorkers | crates/x0x-symphony-core/src/shard.rs:94-101 | the same workers, each once |
| ShardAssignment.EqualDistanceEqualNode | crates/x0x-symphony-core/src/shard.rs:110-112 | equal XOR distances from one target mean equal node ids |
| ShardAssignment.SortRanked | crates/x0x-symphony-core/src/shard.rs:57-92 | a strictly increasing arrangement, by distance then id, of exactly the given workers |
| ShardAssignment.AssignWithMetadata | crates/x0x-symphony-core/src/shard.rs:57-92 | none iff no workers; otherwise primary and backups are the slate of the worker set |
| ShardAssignment.RankingUnique | crates/x0x-symphony-core/src/shard.rs:57-92 | a worker set has one ranking |
| ShardAssignment.SlateUnique | crates/x0x-symphony-core/src/shard.rs:57-92 | the slate does not depend on input order or duplicates |
| ShardAssignment.SlateIsClosest | crates/x0x-symphony-core/src/shard.rs:57-92 | everyone on the slate is closer than everyone off it |
| ShardAssignment.SlateLength | crates/x0x-symphony-core/src/shard.rs:57-92 | the slate has min(max(k, 1), n) members |
| ShardAssignment.BystanderDeparture | crates/x0x-symphony-core/src/shard.rs:57-92 | losing a worker off the slate changes nothing |
| ShardAssignment.OwnerDeparture | crates/x0x-symphony-core/src/shard.rs:57-92 | losing an owner keeps the others in order and appends at most the next closest |
| Workers.WorkerView.InsertCard | crates/x0x-symphony-bin/src/workers.rs:248-255 | stores the card under its agent and bumps the epoch iff the agent is new |
| Workers.AdmittedIff | crates/x0x-symphony-bin/src/workers.rs:421-491 | a gossiped card is admitted iff schema, expiry, envelope, trusted key and signature all hold |
| Workers.WorkerView.VerifyAndInsert | crates/x0x-symphony-bin/src/workers.rs:421-503 | which receipt each card gets, and that only an admitted card changes the view |
| Workers.WorkerView.SnapshotView | crates/x0x-symphony-bin/src/workers.rs:218-223 | a snapshot holds exactly the unexpired cards, unchanged |
| Workers.ReapNoticesLoss | crates/x0x-symphony-bin/src/workers.rs:698-704 | comparing counts notices exactly a change of membership |
| Workers.StepEpoch | crates/x0x-symphony-bin/src/workers.rs:698-708 | an operation bumps the epoch iff it changes the agent set |
| Workers.EpochCountsChanges | crates/x0x-symphony-bin/src/workers.rs:706-708 | over every run the epoch is the number of membership changes, capped |
| Workers.EqualEpochsSameAgents | crates/x0x-symphony-bin/src/workers.rs:218-255 | over every run the epoch never decreases and, below saturation, equal epochs mean the same agents |
| Workers.ChangeShowsIff | crates/x0x-symphony-bin/src/workers.rs:706-708 | a membership change shows in the epoch iff the epoch is not saturated |
| Workers.ViewHoldsOnlyAdmitted | crates/x0x-symphony-bin/src/workers.rs:421-503 | every card in view was put there locally or passed every check on arrival |
| Sse.BoundaryIsFirst | crates/x0x-symphony-bin/src/workers.rs:717-724 | the boundary is the first position where LF LF or CR LF CR LF starts, with that width; none iff there is no such position |
| Sse.BoundaryIsStable | crates/x0x-symphony-bin/src/workers.rs:717-724 | later text never moves a boundary already found |
| Sse.DrainIsProper | crates/x0x-symphony-bin/src/workers.rs:710-724 | events, separators and remainder rebuild the input, each event ends at the first separator, none is left in the remainder |
| Sse.ProperIsDrain | crates/x0x-symphony-bin/src/workers.rs:710-724 | there is no other such framing |
| Sse.DrainExtends | crates/x0x-symphony-bin/src/workers.rs:377-399 | draining more text continues from the remainder |
| Sse.ChunkingIsInvisible | crates/x0x-symphony-bin/src/workers.rs:377-399 | feeding any split gives the frames and remainder of feeding it whole |
| Sse.SseBuffer.NextSseChunk | crates/x0x-symphony-bin/src/workers.rs:710-715 | removes the first event and its separator, or leaves the buffer alone |
| Sse.SseBuffer.Receive | crates/x0x-symphony-bin/src/workers.rs:377-399 | one chunk hands on, in order, exactly the events it completes; the loop terminates |
| StreamText.CleanCut | crates/x0x-symphony-bin/src/workers.rs:379-381 | decoding two chunks apart gives the text of both together when the cut is not inside a UTF-8 sequence |
| StreamText.DirtyCut | crates/x0x-symphony-bin/src/workers.rs:379-381 | and strictly more characters when it is |
| StreamText.RawChunkingIsInvisibleIff | crates/x0x-symphony-bin/src/workers.rs:377-399 | raw chunks hand on the frames and remainder of the whole stream iff no chunk boundary falls inside a UTF-8 sequence |
| StreamText.SplitCharacterShows | crates/x0x-symphony-bin/src/workers.rs:377-399 | two bytes of one character, received apart, show |
| VerifyCache.Verifier.VerifyEnvelope | crates/x0x-symphony-tracker-x0x-crdt/src/lib.rs:1140-1205 | answers and cache after a call, check by check, definite answers only |
| VerifyCache.EntriesWereGiven | crates/x0x-symphony-tracker-x0x-crdt/src/lib.rs:1207-1216 | over every run each entry is a definite answer the client gave for that key |
| VerifyCache.CacheIsTransparent | crates/x0x-symphony-tracker-x0x-crdt/src/lib.rs:1140-1216 | if definite answers are a function of what is verified and digests do not collide, a cached read differs from an uncached one only by giving the true answer where the client failed |
| VerifyCache.PassNeedsCurrentKey | crates/x0x-symphony-tracker-x0x-crdt/src/lib.rs:1140-1180 | even a cached pass rests on the signer's key as it resolves now |
| ProofNames.StampRoundTrip | crates/x0x-symphony-orchestrator/src/proofs.rs:492-494 | every valid four-digit-year start second prints to a text that parses back to it |
| ProofNames.RunNameParsesIff | crates/x0x-symphony-orchestrator/src/reaper.rs:212-237 | a plain or suffixed run name reads back as its start second iff its year has four digits |
| ProofNames.AbandonedNeverParses | crates/x0x-symphony-orchestrator/src/proofs.rs:76-98 | abandonment names, plain or suffixed, never parse |
| ProofNames.RunNameIsSafeIff | crates/x0x-symphony-workspace/src/containment.rs:195-238 | the sanitizer accepts a run or abandonment name iff the year is at most 9999 |
| ProofNames.IssueProofs.CreateUniqueRunDir | crates/x0x-symphony-orchestrator/src/proofs.rs:312-343 | takes the first of 100 names not yet taken, never an existing one, and accounts for every failure |
| Reaper.ProofStore.ProcessTimestampEntry | crates/x0x-symphony-orchestrator/src/reaper.rs:115-155 | one entry's deletion and counters, by its fate |
| Reaper.ProofStore.ProcessIssueEntry | crates/x0x-symphony-orchestrator/src/reaper.rs:85-113 | one issue directory's deletions and counters |
| Reaper.ProofStore.ReapOldProofs | crates/x0x-symphony-orchestrator/src/reaper.rs:59-83 | the scan removes exactly the deleted set and reports each fate's saturated count |
| Reaper.ReapsExactlyOldInactiveRuns | crates/x0x-symphony-orchestrator/src/reaper.rs:59-144 | when removal succeeds, a listed run goes iff its issue is inactive and its name reads as an instant before the cutoff |
| Reaper.RetentionFollowsStart | crates/x0x-symphony-orchestrator/src/reaper.rs:59-144 | a written run of an inactive issue goes iff it started before the cutoff in a four-digit year, and an abandonment record never goes |
| FoldEvents.ChainAuthor | crates/x0x-symphony-tracker-x0x-crdt/src/v2/fold.rs:1332-1408 | the loop admits exactly the chain, and reports a fork where it stops for one |
| FoldEvents.ChainIsLinked | crates/x0x-symphony-tracker-x0x-crdt/src/v2/fold.rs:1332-1408 | a chain is made of candidates with consecutive numbers, each naming its predecessor's hash, from genesis on |
| FoldEvents.ChainIsMaximal | crates/x0x-symphony-tracker-x0x-crdt/src/v2/fold.rs:1332-1408 | no candidate alone at the next number links to the tip: the chain stops only at a gap, fork or broken link |
| FoldEvents.HarmIsLocal | crates/x0x-symphony-tracker-x0x-crdt/src/v2/fold.rs:1328-1408 | streams that agree below a number have chains that agree below it: a fork harms nothing earlier |
| FoldEvents.NextLinkExtends | crates/x0x-symphony-tracker-x0x-crdt/src/v2/fold.rs:286-291 | an event on the offered link extends a fully admitted chain by exactly itself |
| LamportCap.MarkAhead | crates/x0x-symphony-tracker-x0x-crdt/src/v2/fold.rs:1432-1447 | the walk marks exactly the events from the first clock gap on, and each marked author's lowest number |
| LamportCap.ApplyLamportCap | crates/x0x-symphony-tracker-x0x-crdt/src/v2/fold.rs:1424-1479 | the repeated passes terminate and compute the cap |
| LamportCap.CapIsGreatest | crates/x0x-symphony-tracker-x0x-crdt/src/v2/fold.rs:1410-1479 | the survivors can be admitted together, each reached from clock zero in steps of at most 64 over survivors and with its author's earlier events, and hold every set that can |
| LamportCap.CapIsOrderFree | crates/x0x-symphony-tracker-x0x-crdt/src/v2/fold.rs:1410-1479 | the survivors depend only on which candidates there are |
| FoldState.RunStateMachine | crates/x0x-symphony-tracker-x0x-crdt/src/v2/fold.rs:564-644 | the collecting pass and the walk equal the state machine's meaning |
| FoldState.StepEvolves | crates/x0x-symphony-tracker-x0x-crdt/src/v2/fold.rs:1539-1653 | every event moves each status legally; content is fixed at opening, history only grows, finished issues never change |
| FoldState.RunEvolves | crates/x0x-symphony-tracker-x0x-crdt/src/v2/fold.rs:564-644 | the same over every run, and a winning consume is never replaced |
| FoldState.HolderWonItsClaim | crates/x0x-symphony-tracker-x0x-crdt/src/v2/fold.rs:1666-1691 | whoever holds or parked an issue has an admitted claim event on it with that very nonce and hash |
| FoldState.EachApprovalSpentOnce | crates/x0x-symphony-tracker-x0x-crdt/src/v2/fold.rs:1492-1535 | over every run at most one consume of an approval is ever effective |
| FoldState.SpentWasFenced | crates/x0x-symphony-tracker-x0x-crdt/src/v2/fold.rs:1492-1535 | an approval is on record as spent iff some event spent it, as holder of the winning claim and under an approval of the issue's content |
| FoldState.DenialAndSpendingAreFinal | crates/x0x-symphony-tracker-x0x-crdt/src/v2/fold.rs:296-317 | a denial anywhere in the order, or a spend, removes an approval from those still offered |
| FoldList.SortedIsUnique | crates/x0x-symphony-tracker-x0x-crdt/src/v2/fold.rs:719-723 | a set of records has one sorted, deduplicated arrangement |
| FoldList.CanonicalStreams | crates/x0x-symphony-tracker-x0x-crdt/src/v2/fold.rs:694-742 | merging copy by copy equals the per-owner meaning; an owner with two keys is conflicted |
| FoldList.CanonIsOrderFree | crates/x0x-symphony-tracker-x0x-crdt/src/v2/fold.rs:694-742 | an owner's canonical stream depends only on its keys and records, although the first key met is the one kept |
| FoldList.ChainsHold | crates/x0x-symphony-tracker-x0x-crdt/src/v2/fold.rs:534-545 | what is chained is exactly what some author's chain holds |
| FoldList.FoldOrderCounts | crates/x0x-symphony-tracker-x0x-crdt/src/v2/fold.rs:1428-1430 | putting events in fold order is a permutation |
| FoldList.FoldOrderAscends | crates/x0x-symphony-tracker-x0x-crdt/src/v2/fold.rs:1428-1430 | and their clocks ascend in it |
| FoldList.Fold | crates/x0x-symphony-tracker-x0x-crdt/src/v2/fold.rs:388-667 | budgets, canonical streams, admission, chains, cap and state machine compose to the fold's meaning |
| FoldList.FoldIsOrderFree | crates/x0x-symphony-tracker-x0x-crdt/src/v2/fold.rs:388-667 | two readers with the same facts, within budget, fold to the same view, whatever the copies and orders |
| FoldList.ReorderedStreamsFoldAlike | crates/x0x-symphony-tracker-x0x-crdt/src/v2/fold.rs:388-667 | rearranging the streams changes nothing, refusals included |
| FoldList.ViewRestsOnGreatestSet | crates/x0x-symphony-tracker-x0x-crdt/src/v2/fold.rs:388-667 | a view rests on exactly the greatest set of chained events that can be admitted together |

## Left out

- The v2 tracker's writes, store and dispatch gate: only its fold is modelled; every tracker operation is the v1 path.
- v2 admission (genesis manifest, roster chain, card and envelope checks, bindings, requeue justification): any deterministic rules over the canonical streams, as a parameter; the actor of an event is its author.
- v2 diagnostics: rejection texts, losing-consume reasons, fork hashes, roster, chain tips and the highest clock are not part of the view; a refused list is `Err` without its kind.
- Two daemons interleaving the load and store of one approval evaluation: one evaluation is one step, as its claim holder runs it.
- `filter_verified_issues` and stripping of badly signed claims: issues are read as stored, with provenance as a parameter; the filter would only restate its branches.
- Claim and handoff signing payloads: signing answers are oracles, and heartbeat normalisation in the payload is not modelled.
- Task state spellings: the checkbox is the normalised state with the agent it names; other spellings of the same state are not kept apart.
- Blockers, priorities and candidate sorting: `ClaimNext` receives the polled list as given.
- Issue priority, identifiers and update times, and titles or ids the issue schema rejects: `IssueOf` has the fields the protocol reads.
- Error texts and most detail texts: an error is an `Err` without message, and the gate's block details are empty strings.
- Dispatch events, metrics, log lines and the API's pending list: they change no state.
- Which character a well-formed UTF-8 sequence decodes to: a parameter of `StreamText`.
- `sse_data`, gossip JSON and base64 decoding of worker events: only framing and card verification are modelled.
- Overflow panics of the time library when adding a TTL to an instant: instants are unbounded integers.
- The reaper's cutoff subtraction: the cutoff instant is a parameter, `None` when it cannot be computed.
- File names outside ASCII: name lengths are counted in characters where the source counts bytes.
- The library sort of shard ranking and the key-ordered maps: the sort is insertion on a sequence, and reconciliation is proved for any order of the claimed issues.
- Poisoned locks: every lock is taken.
- Heartbeat writes already in flight when the background loop is aborted: the trace records only the abort.
- Symlinks, canonicalisation and directory I/O: directories are sets of names, and containment failure is an oracle answer.
- HTTP clients and routing, CLI, sandbox, shell runner, workflow configuration, cryptography and encodings: plumbing or oracles.
