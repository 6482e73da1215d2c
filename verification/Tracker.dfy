/** The x0x CRDT tracker: an issue is reconstructed from a task checkbox, a claim blob and a
handoff blob, and every operation is a few writes to those records.

A write may be stored, dropped, or stored although the caller sees a failure.
 */
module Tracker {
  import opened Domain

  /** Checkbox states carry the acting agent when the service names one. */
  datatype Checkbox = EmptyBox | ClaimedBox(holder: Option<AgentId>) | DoneBox(holder: Option<AgentId>) | OtherBox(text: string)

  datatype TaskEntry = TaskEntry(title: string, description: string, box: Checkbox, assignee: Option<AgentId>)

  datatype ClaimStatus = Active | Released | Completed | Halted

  datatype ClaimBlob = ClaimBlob(status: ClaimStatus, claim: Claim, reason: Option<ReleaseReason>)

  /** Everything x0xd stores for one task list. Approvals are keyed by issue id. */
  datatype Records = Records(
    tasks: map<IssueId, TaskEntry>,
    claims: map<IssueId, ClaimBlob>,
    handoffs: map<IssueId, Handoff>,
    shards: map<IssueId, Shard>,
    approvals: map<IssueId, ApprovalState>)

  datatype PutAnswer = Stored | Dropped | StoredThenFailed

  datatype Op<+T> = Op(outcome: Outcome<T>, after: Records)

  /** `Ok(None)` when signing is disabled, an envelope when it is required and succeeds. */
  type Signing = Outcome<Option<Envelope>>

  const NETWORK_SOURCED := "network_sourced"

  /******* Reading *******/

  function Suffixed(text: string, holder: Option<AgentId>): string {
    if holder.Some? then text + ":" + holder.value else text
  }

  function BoxText(box: Checkbox): string {
    match box
    case EmptyBox => "empty"
    case ClaimedBox(holder) => Suffixed("claimed", holder)
    case DoneBox(holder) => Suffixed("done", holder)
    case OtherBox(text) => text
  }

  predicate Misfiled(id: IssueId, recorded: Option<IssueId>) {
    recorded.Some? && recorded.value != id
  }

  /** The sidecar blobs of a task belong to it; otherwise the whole listing fails. */
  predicate WellFiled(s: Records, id: IssueId) {
    (id in s.claims ==> !Misfiled(id, s.claims[id].claim.issueId))
    && (id in s.handoffs ==> !Misfiled(id, s.handoffs[id].issueId))
  }

  predicate Readable(s: Records) {
    forall id :: id in s.tasks ==> WellFiled(s, id)
  }

  predicate HasStatus(s: Records, id: IssueId, status: ClaimStatus) {
    id in s.claims && s.claims[id].status == status
  }

  function StateOf(s: Records, id: IssueId): IssueState
    requires id in s.tasks
  {
    if HasStatus(s, id, Halted) then Blocked
    else if id in s.handoffs then Review
    else if HasStatus(s, id, Released) then Todo
    else match s.tasks[id].box
         case ClaimedBox(_) => InProgress
         case DoneBox(_) => Done
         case _ => Todo
  }

  function ActiveClaim(s: Records, id: IssueId): Option<Claim> {
    if id !in s.handoffs && HasStatus(s, id, Active) then Some(s.claims[id].claim) else None
  }

  function ExtraOf(s: Records, id: IssueId): map<ExtraKey, Json>
    requires id in s.tasks
  {
    var task := s.tasks[id];
    var base := map[IssueSource := JText(NETWORK_SOURCED), TaskState := JText(BoxText(task.box))];
    var tagged := if task.assignee.Some? then base[Assignee := JText(task.assignee.value)] else base;
    if HasStatus(s, id, Halted) && s.claims[id].reason.Some?
    then tagged[BlockedReason := JReason(s.claims[id].reason.value)]
    else tagged
  }

  function IssueOf(s: Records, id: IssueId): Issue
    requires id in s.tasks
  {
    Issue(id, s.tasks[id].title, s.tasks[id].description, StateOf(s, id), ActiveClaim(s, id),
          if id in s.handoffs then Some(s.handoffs[id]) else None,
          if id in s.shards then Some(s.shards[id]) else None,
          ExtraOf(s, id), None)
  }

  function FetchIssue(s: Records, id: IssueId): Outcome<Issue> {
    if Readable(s) && id in s.tasks then Ok(IssueOf(s, id)) else Err
  }

  /** The claim is the active one on its issue, by owner. */
  predicate HeldBy(s: Records, claim: Claim) {
    claim.issueId.Some?
    && HasStatus(s, claim.issueId.value, Active)
    && s.claims[claim.issueId.value].claim.owner == claim.owner
  }

  predicate Claimable(s: Records, self: AgentId, id: IssueId, agent: AgentId) {
    agent == self && FetchIssue(s, id).Ok? && ActiveClaim(s, id).None? && StateOf(s, id) == Todo
  }

  /******* What each operation does to the records *******/

  /** What the service does to a task its local agent patches. */
  datatype TaskAction = ClaimTask | CompleteTask

  function Patched(task: TaskEntry, action: TaskAction, agent: AgentId): TaskEntry {
    match action
    case ClaimTask => task.(box := ClaimedBox(Some(agent)), assignee := Some(agent))
    case CompleteTask => task.(box := DoneBox(Some(agent)))
  }

  function PatchTask(s: Records, id: IssueId, action: TaskAction, agent: AgentId, put: PutAnswer): Records {
    if put == Dropped || id !in s.tasks then s
    else s.(tasks := s.tasks[id := Patched(s.tasks[id], action, agent)])
  }

  function PutClaim(s: Records, id: IssueId, blob: ClaimBlob, put: PutAnswer): Records {
    if put == Dropped then s else s.(claims := s.claims[id := blob])
  }

  function PutHandoff(s: Records, id: IssueId, handoff: Handoff, put: PutAnswer): Records {
    if put == Dropped then s else s.(handoffs := s.handoffs[id := handoff])
  }

  function Acknowledged(put: PutAnswer): Outcome<()> { if put == Stored then Ok(()) else Err }

  function ClaimOp(s: Records, self: AgentId, id: IssueId, agent: AgentId, now: Timestamp, signing: Signing,
                   box: PutAnswer, put: PutAnswer): Op<Claim>
  {
    if !Claimable(s, self, id, agent) || signing.Err? then Op(Err, s)
    else
      var claim := NewClaim(Some(id), agent, now, ManualM1).(signature := signing.value);
      var boxed := PatchTask(s, id, ClaimTask, self, box);
      if box != Stored then Op(Err, boxed)
      else Op(if put == Stored then Ok(claim) else Err, PutClaim(boxed, id, ClaimBlob(Active, claim, None), put))
  }

  /** Heartbeat, release and block all rewrite the blob of a claim still held by its owner. */
  function RewriteOp(s: Records, claim: Claim, blob: ClaimBlob, put: PutAnswer): Op<()> {
    if !HeldBy(s, claim) then Op(Err, s)
    else Op(Acknowledged(put), PutClaim(s, claim.issueId.value, blob, put))
  }

  function HeartbeatOp(s: Records, claim: Claim, now: Timestamp, put: PutAnswer): Op<()> {
    RewriteOp(s, claim, ClaimBlob(Active, claim.(heartbeatAt := now), None), put)
  }

  function ReleaseOp(s: Records, claim: Claim, reason: ReleaseReason, put: PutAnswer): Op<()> {
    RewriteOp(s, claim, ClaimBlob(Released, claim, Some(reason)), put)
  }

  function BlockOp(s: Records, claim: Claim, reason: ReleaseReason, put: PutAnswer): Op<()> {
    RewriteOp(s, claim, ClaimBlob(Halted, claim, Some(reason)), put)
  }

  function Prepared(claim: Claim, handoff: Handoff, signing: Option<Envelope>): Handoff {
    if signing.None? then handoff
    else handoff.(issueId := claim.issueId, signer := Some(claim.owner), signature := signing)
  }

  function HandoffOp(s: Records, self: AgentId, claim: Claim, handoff: Handoff, signing: Signing,
                     first: PutAnswer, box: PutAnswer, last: PutAnswer): Op<()>
  {
    if !HeldBy(s, claim) || signing.Err? then Op(Err, s)
    else
      var id := claim.issueId.value;
      var handed := PutHandoff(s, id, Prepared(claim, handoff, signing.value), first);
      if first != Stored then Op(Err, handed)
      else
        var boxed := PatchTask(handed, id, CompleteTask, self, box);
        if box != Stored then Op(Err, boxed)
        else Op(Acknowledged(last), PutClaim(boxed, id, ClaimBlob(Completed, claim, None), last))
  }

  /** Only work parked for approval may return to the queue. */
  predicate Requeueable(s: Records, id: IssueId) {
    HasStatus(s, id, Halted) && s.claims[id].reason.Some? && s.claims[id].reason.value.code == AwaitingApproval
  }

  function RequeueOp(s: Records, id: IssueId, reason: ReleaseReason, put: PutAnswer): Op<()> {
    if !Requeueable(s, id) then Op(Err, s)
    else Op(Acknowledged(put), PutClaim(s, id, ClaimBlob(Released, s.claims[id].claim, Some(reason)), put))
  }

  function ApprovalsOf(s: Records, id: IssueId): ApprovalState {
    if id in s.approvals then s.approvals[id] else ApprovalState([], [])
  }

  function PutApprovals(s: Records, id: IssueId, state: ApprovalState, put: PutAnswer): Records {
    if put == Dropped then s else s.(approvals := s.approvals[id := state])
  }

  function StoreApprovalOp(s: Records, e: ApprovalEvent, put: PutAnswer): Op<()> {
    var had := ApprovalsOf(s, e.issueId);
    Op(Acknowledged(put), PutApprovals(s, e.issueId, had.(events := had.events + [e]), put))
  }

  function StoreConsumedOp(s: Records, r: ApprovalConsumed, put: PutAnswer): Op<()> {
    var id := r.payload.issueId;
    var had := ApprovalsOf(s, id);
    Op(Acknowledged(put), PutApprovals(s, id, had.(consumed := had.consumed + [r]), put))
  }

  /******* The adapter, write by write *******/

  class KvTracker {
    const self: AgentId
    var tasks: map<IssueId, TaskEntry>
    var claims: map<IssueId, ClaimBlob>
    var handoffs: map<IssueId, Handoff>
    var shards: map<IssueId, Shard>
    var approvals: map<IssueId, ApprovalState>

    constructor (self: AgentId, s: Records)
      ensures Snapshot() == s && this.self == self
    {
      this.self := self;
      tasks, claims, handoffs, shards, approvals := s.tasks, s.claims, s.handoffs, s.shards, s.approvals;
    }

    function Snapshot(): Records
      reads this
    {
      Records(tasks, claims, handoffs, shards, approvals)
    }

    method UpdateTask(id: IssueId, action: TaskAction, put: PutAnswer) returns (r: Outcome<()>)
      modifies this`tasks
      ensures Snapshot() == PatchTask(old(Snapshot()), id, action, self, put)
      ensures r == Acknowledged(put)
    {
      if put != Dropped && id in tasks {
        tasks := tasks[id := Patched(tasks[id], action, self)];
      }
      r := Acknowledged(put);
    }

    method PutClaimBlob(id: IssueId, blob: ClaimBlob, put: PutAnswer) returns (r: Outcome<()>)
      modifies this`claims
      ensures Snapshot() == PutClaim(old(Snapshot()), id, blob, put)
      ensures r == Acknowledged(put)
    {
      if put != Dropped {
        claims := claims[id := blob];
      }
      r := Acknowledged(put);
    }

    method PutHandoffBlob(id: IssueId, handoff: Handoff, put: PutAnswer) returns (r: Outcome<()>)
      modifies this`handoffs
      ensures Snapshot() == PutHandoff(old(Snapshot()), id, handoff, put)
      ensures r == Acknowledged(put)
    {
      if put != Dropped {
        handoffs := handoffs[id := handoff];
      }
      r := Acknowledged(put);
    }

    method Claim(id: IssueId, agent: AgentId, now: Timestamp, signing: Signing, box: PutAnswer, put: PutAnswer)
      returns (r: Outcome<Claim>)
      modifies this
      ensures Op(r, Snapshot()) == ClaimOp(old(Snapshot()), self, id, agent, now, signing, box, put)
    {
      if agent != self {
        return Err;
      }
      var fetched := FetchIssue(Snapshot(), id);
      if fetched.Err? {
        return Err;
      }
      if fetched.value.claim.Some? || fetched.value.state != Todo || signing.Err? {
        return Err;
      }
      var claim := NewClaim(Some(id), agent, now, ManualM1).(signature := signing.value);
      var boxed := UpdateTask(id, ClaimTask, box);
      if boxed.Err? {
        return Err;
      }
      var stored := PutClaimBlob(id, ClaimBlob(Active, claim, None), put);
      r := if stored.Ok? then Ok(claim) else Err;
    }

    /** `current_active_claim` followed by the owner comparison. */
    function EnsureOwner(claim: Claim): (r: Outcome<IssueId>)
      reads this
      ensures r.Ok? <==> HeldBy(Snapshot(), claim)
      ensures r.Ok? ==> claim.issueId == Some(r.value)
    {
      if claim.issueId.None? then Err
      else
        var id := claim.issueId.value;
        if id !in claims || claims[id].status != Active then Err
        else if claims[id].claim.owner == claim.owner then Ok(id)
        else Err
    }

    method Heartbeat(claim: Claim, now: Timestamp, put: PutAnswer) returns (r: Outcome<()>)
      modifies this
      ensures Op(r, Snapshot()) == HeartbeatOp(old(Snapshot()), claim, now, put)
    {
      var id := EnsureOwner(claim);
      if id.Err? {
        return Err;
      }
      r := PutClaimBlob(id.value, ClaimBlob(Active, claim.(heartbeatAt := now), None), put);
    }

    method Release(claim: Claim, reason: ReleaseReason, put: PutAnswer) returns (r: Outcome<()>)
      modifies this
      ensures Op(r, Snapshot()) == ReleaseOp(old(Snapshot()), claim, reason, put)
    {
      var id := EnsureOwner(claim);
      if id.Err? {
        return Err;
      }
      r := PutClaimBlob(id.value, ClaimBlob(Released, claim, Some(reason)), put);
    }

    method Block(claim: Claim, reason: ReleaseReason, put: PutAnswer) returns (r: Outcome<()>)
      modifies this
      ensures Op(r, Snapshot()) == BlockOp(old(Snapshot()), claim, reason, put)
    {
      var id := EnsureOwner(claim);
      if id.Err? {
        return Err;
      }
      r := PutClaimBlob(id.value, ClaimBlob(Halted, claim, Some(reason)), put);
    }

    method HandOff(claim: Claim, handoff: Handoff, signing: Signing, first: PutAnswer, box: PutAnswer, last: PutAnswer)
      returns (r: Outcome<()>)
      modifies this
      ensures Op(r, Snapshot()) == HandoffOp(old(Snapshot()), self, claim, handoff, signing, first, box, last)
    {
      var id := EnsureOwner(claim);
      if id.Err? || signing.Err? {
        return Err;
      }
      r := PutHandoffBlob(id.value, Prepared(claim, handoff, signing.value), first);
      if r.Err? {
        return;
      }
      r := UpdateTask(id.value, CompleteTask, box);
      if r.Err? {
        return;
      }
      r := PutClaimBlob(id.value, ClaimBlob(Completed, claim, None), last);
    }

    method RequeueBlocked(id: IssueId, reason: ReleaseReason, put: PutAnswer) returns (r: Outcome<()>)
      modifies this
      ensures Op(r, Snapshot()) == RequeueOp(old(Snapshot()), id, reason, put)
    {
      if id !in claims || claims[id].status != Halted {
        return Err;
      }
      if claims[id].reason.None? || claims[id].reason.value.code != AwaitingApproval {
        return Err;
      }
      r := PutClaimBlob(id, ClaimBlob(Released, claims[id].claim, Some(reason)), put);
    }

    method StoreApproval(e: ApprovalEvent, put: PutAnswer) returns (r: Outcome<()>)
      modifies this`approvals
      ensures Op(r, Snapshot()) == StoreApprovalOp(old(Snapshot()), e, put)
    {
      var blob := if e.issueId in approvals then approvals[e.issueId] else ApprovalState([], []);
      blob := blob.(events := blob.events + [e]);
      if put != Dropped {
        approvals := approvals[e.issueId := blob];
      }
      r := Acknowledged(put);
    }

    method StoreConsumed(consumed: ApprovalConsumed, put: PutAnswer) returns (r: Outcome<()>)
      modifies this`approvals
      ensures Op(r, Snapshot()) == StoreConsumedOp(old(Snapshot()), consumed, put)
    {
      var id := consumed.payload.issueId;
      var blob := if id in approvals then approvals[id] else ApprovalState([], []);
      blob := blob.(consumed := blob.consumed + [consumed]);
      if put != Dropped {
        approvals := approvals[id := blob];
      }
      r := Acknowledged(put);
    }
  }
}
