/** What every run of completed tracker operations keeps. */
module Lifecycle {
  import opened Domain
  import opened Tracker

  /** One operation whose writes all complete. Approval writes touch another record. */
  datatype Step =
    | ClaimStep(id: IssueId, agent: AgentId, now: Timestamp, signing: Signing)
    | HeartbeatStep(claim: Claim, now: Timestamp)
    | ReleaseStep(claim: Claim, reason: ReleaseReason)
    | BlockStep(claim: Claim, reason: ReleaseReason)
    | HandoffStep(claim: Claim, handoff: Handoff, signing: Signing)
    | RequeueStep(id: IssueId, reason: ReleaseReason)
    | ApprovalStep(event: ApprovalEvent)
    | ConsumeStep(consumed: ApprovalConsumed)

  function Next(s: Records, self: AgentId, step: Step): Records {
    match step
    case ClaimStep(id, agent, now, signing) => ClaimOp(s, self, id, agent, now, signing, Stored, Stored).after
    case HeartbeatStep(claim, now) => HeartbeatOp(s, claim, now, Stored).after
    case ReleaseStep(claim, reason) => ReleaseOp(s, claim, reason, Stored).after
    case BlockStep(claim, reason) => BlockOp(s, claim, reason, Stored).after
    case HandoffStep(claim, handoff, signing) => HandoffOp(s, self, claim, handoff, signing, Stored, Stored, Stored).after
    case RequeueStep(id, reason) => RequeueOp(s, id, reason, Stored).after
    case ApprovalStep(event) => StoreApprovalOp(s, event, Stored).after
    case ConsumeStep(consumed) => StoreConsumedOp(s, consumed, Stored).after
  }

  /** Any number of agents share a list; each step is taken by the adapter of one of them. */
  datatype Turn = Turn(agent: AgentId, step: Step)

  function After(s: Records, run: seq<Turn>): Records {
    if run == [] then s
    else
      var last := run[|run| - 1];
      Next(After(s, run[..|run| - 1]), last.agent, last.step)
  }

  /** Unsigned handoffs name their own issue or none: what both callers of `handoff` pass. */
  predicate WellAddressed(step: Step) {
    step.HandoffStep? && step.signing == Ok(None) && step.claim.issueId.Some?
    ==> !Misfiled(step.claim.issueId.value, step.handoff.issueId)
  }

  /** The only record shapes a task passes through. */
  predicate Shape(s: Records, id: IssueId)
    requires id in s.tasks
  {
    if id !in s.claims then id !in s.handoffs && !s.tasks[id].box.ClaimedBox?
    else
      var blob := s.claims[id];
      blob.claim.issueId == Some(id)
      && (if blob.status == Completed then id in s.handoffs && !Misfiled(id, s.handoffs[id].issueId) else id !in s.handoffs)
      && (blob.status == Active ==> s.tasks[id].box.ClaimedBox?)
  }

  predicate Inv(s: Records) {
    forall id :: id in s.tasks ==> Shape(s, id)
  }

  predicate Moves(a: IssueState, b: IssueState) {
    a == b
    || (a == Todo && b == InProgress)
    || (a == InProgress && b in {Todo, Blocked, Review})
    || (a == Blocked && b == Todo)
  }

  /** Nothing in the protocol may move this issue again. */
  predicate Settled(s: Records, id: IssueId)
    requires id in s.tasks
  {
    StateOf(s, id) == Review || (StateOf(s, id) == Blocked && !Requeueable(s, id))
  }

  /** A step leaves this issue's view alone, or moves it as the protocol allows. */
  predicate StepsTo(s: Records, t: Records, id: IssueId)
    requires id in s.tasks && id in t.tasks
  {
    && Shape(t, id)
    && Moves(StateOf(s, id), StateOf(t, id))
    && (StateOf(t, id) == InProgress <==> ActiveClaim(t, id).Some?)
    && (StateOf(s, id) == InProgress && StateOf(t, id) == InProgress
        ==> ActiveClaim(s, id).Some? && ActiveClaim(s, id).value.owner == ActiveClaim(t, id).value.owner)
    && (StateOf(s, id) == Blocked && StateOf(t, id) != Blocked ==> Requeueable(s, id))
    && (Settled(s, id) ==> IssueOf(t, id) == IssueOf(s, id) && Settled(t, id))
  }

  predicate SameRecords(s: Records, t: Records, id: IssueId) {
    && (id in s.tasks && id in t.tasks && s.tasks[id] == t.tasks[id])
    && (id in s.claims <==> id in t.claims) && (id in s.claims ==> s.claims[id] == t.claims[id])
    && (id in s.handoffs <==> id in t.handoffs) && (id in s.handoffs ==> s.handoffs[id] == t.handoffs[id])
    && s.shards == t.shards
  }

  lemma UntouchedStepsTo(s: Records, t: Records, id: IssueId)
    requires id in s.tasks && Shape(s, id) && SameRecords(s, t, id)
    ensures StepsTo(s, t, id)
  {
  }

  /** The two writes of a claim on a queued issue. */
  lemma ClaimWritesStepTo(s: Records, id: IssueId, self: AgentId, claim: Claim)
    requires id in s.tasks && Shape(s, id) && StateOf(s, id) == Todo && claim.issueId == Some(id)
    ensures var t := PutClaim(PatchTask(s, id, ClaimTask, self, Stored), id, ClaimBlob(Active, claim, None), Stored);
            id in t.tasks && StepsTo(s, t, id)
  {
  }

  /** A claim step is refused, or is those two writes on a queued issue. */
  lemma ClaimEffect(s: Records, self: AgentId, id: IssueId, agent: AgentId, now: Timestamp, signing: Signing) returns (claim: Claim)
    ensures claim.issueId == Some(id)
    ensures var t := ClaimOp(s, self, id, agent, now, signing, Stored, Stored).after;
            t == s
            || (id in s.tasks && StateOf(s, id) == Todo
                && t == PutClaim(PatchTask(s, id, ClaimTask, self, Stored), id, ClaimBlob(Active, claim, None), Stored))
  {
    claim := NewClaim(Some(id), agent, now, ManualM1).(signature := if signing.Ok? then signing.value else None);
  }

  lemma ClaimWritesElsewhere(s: Records, id: IssueId, self: AgentId, claim: Claim, other: IssueId)
    requires id in s.tasks && other in s.tasks && other != id
    ensures var t := PutClaim(PatchTask(s, id, ClaimTask, self, Stored), id, ClaimBlob(Active, claim, None), Stored);
            t.tasks.Keys == s.tasks.Keys && SameRecords(s, t, other)
  {
  }

  lemma ClaimStepsTo(s: Records, self: AgentId, step: Step, id: IssueId)
    requires Inv(s) && id in s.tasks && step.ClaimStep?
    ensures Next(s, self, step).tasks.Keys == s.tasks.Keys
    ensures StepsTo(s, Next(s, self, step), id)
  {
    assert Shape(s, id);
    var t := Next(s, self, step);
    var claim := ClaimEffect(s, self, step.id, step.agent, step.now, step.signing);
    if t == s {
      UntouchedStepsTo(s, t, id);
    } else if step.id != id {
      ClaimWritesElsewhere(s, step.id, self, claim, id);
      UntouchedStepsTo(s, t, id);
    } else {
      ClaimWritesStepTo(s, id, self, claim);
    }
  }

  /** The three writes of a handoff on a held issue. */
  lemma HandoffWritesStepTo(s: Records, id: IssueId, self: AgentId, claim: Claim, handoff: Handoff)
    requires id in s.tasks && Shape(s, id) && HasStatus(s, id, Active) && claim.issueId == Some(id)
    requires !Misfiled(id, handoff.issueId)
    ensures var t := PutClaim(PatchTask(PutHandoff(s, id, handoff, Stored), id, CompleteTask, self, Stored), id,
                              ClaimBlob(Completed, claim, None), Stored);
            id in t.tasks && StepsTo(s, t, id)
  {
  }

  lemma HandoffWritesElsewhere(s: Records, id: IssueId, self: AgentId, claim: Claim, handoff: Handoff, other: IssueId)
    requires other in s.tasks && other != id
    ensures var t := PutClaim(PatchTask(PutHandoff(s, id, handoff, Stored), id, CompleteTask, self, Stored), id,
                              ClaimBlob(Completed, claim, None), Stored);
            t.tasks.Keys == s.tasks.Keys && SameRecords(s, t, other)
  {
  }

  lemma HandoffStepsTo(s: Records, self: AgentId, step: Step, id: IssueId)
    requires Inv(s) && id in s.tasks && step.HandoffStep? && WellAddressed(step)
    ensures Next(s, self, step).tasks.Keys == s.tasks.Keys
    ensures StepsTo(s, Next(s, self, step), id)
  {
    assert Shape(s, id);
    var t := Next(s, self, step);
    if !HeldBy(s, step.claim) || step.signing.Err? {
      UntouchedStepsTo(s, t, id);
    } else {
      var on, handed := step.claim.issueId.value, Prepared(step.claim, step.handoff, step.signing.value);
      if on != id {
        HandoffWritesElsewhere(s, on, self, step.claim, handed, id);
        UntouchedStepsTo(s, t, id);
      } else {
        HandoffWritesStepTo(s, id, self, step.claim, handed);
      }
    }
  }

  /** Heartbeat, release and block: the blob of a held claim is rewritten for the same owner. */
  lemma RewriteStepsTo(s: Records, claim: Claim, blob: ClaimBlob, id: IssueId)
    requires Inv(s) && id in s.tasks
    requires blob.status != Completed && blob.claim.issueId == claim.issueId && blob.claim.owner == claim.owner
    ensures RewriteOp(s, claim, blob, Stored).after.tasks == s.tasks
    ensures StepsTo(s, RewriteOp(s, claim, blob, Stored).after, id)
  {
    assert Shape(s, id);
    if !HeldBy(s, claim) || claim.issueId != Some(id) {
      UntouchedStepsTo(s, RewriteOp(s, claim, blob, Stored).after, id);
    }
  }

  lemma RequeueStepsTo(s: Records, issue: IssueId, reason: ReleaseReason, id: IssueId)
    requires Inv(s) && id in s.tasks
    ensures StepsTo(s, RequeueOp(s, issue, reason, Stored).after, id)
  {
    assert Shape(s, id);
    if !Requeueable(s, issue) || issue != id {
      UntouchedStepsTo(s, RequeueOp(s, issue, reason, Stored).after, id);
    }
  }

  lemma StepStepsTo(s: Records, self: AgentId, step: Step, id: IssueId)
    requires Inv(s) && WellAddressed(step) && id in s.tasks
    ensures Next(s, self, step).tasks.Keys == s.tasks.Keys && StepsTo(s, Next(s, self, step), id)
  {
    match step
    case ClaimStep(_, _, _, _) => ClaimStepsTo(s, self, step, id);
    case HandoffStep(_, _, _) => HandoffStepsTo(s, self, step, id);
    case HeartbeatStep(claim, now) =>
      RewriteStepsTo(s, claim, ClaimBlob(Active, claim.(heartbeatAt := now), None), id);
    case ReleaseStep(claim, reason) => RewriteStepsTo(s, claim, ClaimBlob(Released, claim, Some(reason)), id);
    case BlockStep(claim, reason) => RewriteStepsTo(s, claim, ClaimBlob(Halted, claim, Some(reason)), id);
    case RequeueStep(issue, reason) => RequeueStepsTo(s, issue, reason, id);
    case _ =>
      assert Shape(s, id);
      UntouchedStepsTo(s, Next(s, self, step), id);
  }

  /** One step of any kind, seen on every issue at once. */
  lemma StepKeepsLifecycle(s: Records, self: AgentId, step: Step)
    requires Inv(s) && WellAddressed(step)
    ensures var t := Next(s, self, step);
            && t.tasks.Keys == s.tasks.Keys
            && Inv(t)
            && forall id :: id in s.tasks ==> StepsTo(s, t, id)
  {
    var t := Next(s, self, step);
    forall id | id in s.tasks ensures t.tasks.Keys == s.tasks.Keys && StepsTo(s, t, id) {
      StepStepsTo(s, self, step, id);
    }
    assert s.tasks.Keys == {} ==> t.tasks.Keys == {};
  }

  /******* What each completed operation shows in the reconstructed issue *******/

  /** The metadata of a patched task whose issue is not blocked before or after. */
  lemma PatchShows(s: Records, t: Records, id: IssueId, action: TaskAction, agent: AgentId)
    requires id in s.tasks && id in t.tasks && t.tasks[id] == Patched(s.tasks[id], action, agent)
    requires !HasStatus(s, id, Halted) && !HasStatus(t, id, Halted)
    ensures var extra := ExtraOf(s, id);
            ExtraOf(t, id) == match action
                              case ClaimTask => extra[TaskState := JText("claimed:" + agent)][Assignee := JText(agent)]
                              case CompleteTask => extra[TaskState := JText("done:" + agent)]
  {
    assert "claimed" + ":" + agent == "claimed:" + agent && "done" + ":" + agent == "done:" + agent;
  }

  lemma ClaimShows(s: Records, self: AgentId, id: IssueId, now: Timestamp, signing: Signing)
    requires Inv(s) && id in s.tasks && StateOf(s, id) == Todo && signing.Ok?
    ensures var op := ClaimOp(s, self, id, self, now, signing, Stored, Stored);
            && op.outcome.Ok? && id in op.after.tasks
            && op.outcome.value.owner == self && op.outcome.value.heartbeatAt == now
            && IssueOf(op.after, id) == IssueOf(s, id).(state := InProgress, claim := Some(op.outcome.value),
                                                        extra := IssueOf(s, id).extra[TaskState := JText("claimed:" + self)][Assignee := JText(self)])
  {
    assert Shape(s, id);
    ReachableIsReadable(s);
    PatchShows(s, ClaimOp(s, self, id, self, now, signing, Stored, Stored).after, id, ClaimTask, self);
  }

  /** Heartbeat, release and block on a held claim. */
  lemma RewriteShows(s: Records, claim: Claim, now: Timestamp, reason: ReleaseReason)
    requires Inv(s) && HeldBy(s, claim) && claim.issueId.value in s.tasks
    ensures var id := claim.issueId.value;
            var issue := IssueOf(s, id);
            && IssueOf(HeartbeatOp(s, claim, now, Stored).after, id) == issue.(claim := Some(claim.(heartbeatAt := now)))
            && IssueOf(ReleaseOp(s, claim, reason, Stored).after, id) == issue.(state := Todo, claim := None)
            && IssueOf(BlockOp(s, claim, reason, Stored).after, id)
               == issue.(state := Blocked, claim := None, extra := issue.extra[BlockedReason := JReason(reason)])
  {
    assert Shape(s, claim.issueId.value);
  }

  lemma HandoffShows(s: Records, self: AgentId, claim: Claim, handoff: Handoff, signing: Signing)
    requires Inv(s) && HeldBy(s, claim) && claim.issueId.value in s.tasks && signing.Ok?
    ensures var id := claim.issueId.value;
            var op := HandoffOp(s, self, claim, handoff, signing, Stored, Stored, Stored);
            && op.outcome.Ok? && id in op.after.tasks
            && IssueOf(op.after, id) == IssueOf(s, id).(state := Review, claim := None,
                                                        handoff := Some(Prepared(claim, handoff, signing.value)),
                                                        extra := IssueOf(s, id).extra[TaskState := JText("done:" + self)])
  {
    var id := claim.issueId.value;
    assert Shape(s, id);
    PatchShows(s, HandoffOp(s, self, claim, handoff, signing, Stored, Stored, Stored).after, id, CompleteTask, self);
  }

  /** Requeueing parked work undoes the block. */
  lemma RequeueShows(s: Records, id: IssueId, reason: ReleaseReason)
    requires Inv(s) && id in s.tasks && Requeueable(s, id)
    ensures IssueOf(RequeueOp(s, id, reason, Stored).after, id)
            == IssueOf(s, id).(state := Todo, extra := IssueOf(s, id).extra - {BlockedReason})
  {
    assert Shape(s, id);
  }

  /** Over every run of any agents: reachable records are readable, in-progress means claimed, settled
      means settled. */
  lemma {:induction false} RunKeepsLifecycle(s: Records, run: seq<Turn>, id: IssueId)
    requires Inv(s) && id in s.tasks
    requires forall i :: 0 <= i < |run| ==> WellAddressed(run[i].step)
    ensures var t := After(s, run);
            && id in t.tasks
            && Inv(t)
            && Readable(t)
            && (StateOf(t, id) == InProgress <==> ActiveClaim(t, id).Some?)
            && (Settled(s, id) ==> IssueOf(t, id) == IssueOf(s, id) && Settled(t, id))
  {
    if run == [] {
      assert Shape(s, id);
    } else {
      var rest, last := run[..|run| - 1], run[|run| - 1];
      RunKeepsLifecycle(s, rest, id);
      StepKeepsLifecycle(After(s, rest), last.agent, last.step);
    }
    ReachableIsReadable(After(s, run));
  }

  lemma ReachableIsReadable(s: Records)
    requires Inv(s)
    ensures Readable(s)
  {
  }

  /** Of a task, only the checkbox and the assignee are ever written. */
  lemma StepKeepsContent(s: Records, self: AgentId, step: Step, id: IssueId)
    requires id in s.tasks
    ensures var t := Next(s, self, step);
            id in t.tasks && t.tasks[id] == s.tasks[id].(box := t.tasks[id].box, assignee := t.tasks[id].assignee)
  {
    match step
    case ClaimStep(_, _, _, _) =>
    case HandoffStep(_, _, _) =>
    case _ => assert Next(s, self, step).tasks == s.tasks;
  }

  /** Every consecutive pair of views in a run is a legal move. */
  lemma RunMovesLegally(s: Records, run: seq<Turn>, id: IssueId, k: nat)
    requires Inv(s) && id in s.tasks && k < |run|
    requires forall i :: 0 <= i < |run| ==> WellAddressed(run[i].step)
    ensures id in After(s, run[..k]).tasks && id in After(s, run[..k + 1]).tasks
    ensures Moves(StateOf(After(s, run[..k]), id), StateOf(After(s, run[..k + 1]), id))
  {
    RunKeepsLifecycle(s, run[..k], id);
    assert run[..k + 1][..k] == run[..k];
    StepKeepsLifecycle(After(s, run[..k]), run[k].agent, run[k].step);
  }

  /** Without the address rule the listing of every issue breaks, and only then. */
  lemma HandoffReadableIffWellAddressed(s: Records, self: AgentId, claim: Claim, handoff: Handoff, signing: Signing)
    requires Inv(s) && HeldBy(s, claim) && signing.Ok? && claim.issueId.value in s.tasks
    ensures Readable(HandoffOp(s, self, claim, handoff, signing, Stored, Stored, Stored).after)
            <==> WellAddressed(HandoffStep(claim, handoff, signing))
  {
    var id := claim.issueId.value;
    var t := HandoffOp(s, self, claim, handoff, signing, Stored, Stored, Stored).after;
    ReachableIsReadable(s);
    assert id in t.tasks && t.handoffs[id] == Prepared(claim, handoff, signing.value);
    if WellAddressed(HandoffStep(claim, handoff, signing)) {
      forall other | other in t.tasks ensures WellFiled(t, other) {
        assert WellFiled(s, other);
      }
    } else {
      assert !WellFiled(t, id);
    }
  }

  /******* Roles *******/

  /** Every stored claim has the role the adapter writes. */
  predicate Manual(s: Records) {
    forall id :: id in s.claims ==> s.claims[id].claim.role == ManualM1
  }

  /** Rewrites carry claims the adapter handed out. */
  predicate CarriesManual(step: Step) {
    (step.HeartbeatStep? || step.ReleaseStep? || step.BlockStep? || step.HandoffStep?) ==> step.claim.role == ManualM1
  }

  /** The adapter hands out, and so stores, no other role. */
  lemma {:induction false} RunKeepsManual(s: Records, run: seq<Turn>)
    requires Manual(s) && forall i :: 0 <= i < |run| ==> CarriesManual(run[i].step)
    ensures Manual(After(s, run))
  {
    if run != [] {
      var rest, last := run[..|run| - 1], run[|run| - 1];
      RunKeepsManual(s, rest);
      StepKeepsManual(After(s, rest), last.agent, last.step);
    }
  }

  lemma StepKeepsManual(s: Records, self: AgentId, step: Step)
    requires Manual(s) && CarriesManual(step)
    ensures Manual(Next(s, self, step))
  {
  }
}
