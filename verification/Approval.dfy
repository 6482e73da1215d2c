/** Data-layer validity of approvals, and the decision over a set of stored events. */
module Approval {
  import opened Domain

  /** The current issue view an approval is checked against. */
  datatype Inquiry = Inquiry(crypto: Crypto, issue: Issue, signer: AgentId, now: Timestamp, ttlNanos: nat)

  datatype Validity = Valid | HashMismatch | Expired | Consumed | SignerMismatch | SignatureInvalid

  datatype Decision = Approved | Denied | Pending

  function ExtraOrNull(issue: Issue, key: ExtraKey): Json {
    if key in issue.extra then issue.extra[key] else JNull
  }

  function ContentPayload(issue: Issue): Payload {
    Payload(ExtraOrNull(issue, Body), ExtraOrNull(issue, Commands), issue.description, issue.title)
  }

  function ContentHash(c: Crypto, issue: Issue): string {
    c.contentDigest(ContentPayload(issue))
  }

  function EventKey(e: ApprovalEvent): BindingKey { BindingKey(e.issueId, e.contentHash, e.signer) }

  function ConsumedKey(r: ApprovalConsumed): BindingKey {
    BindingKey(r.payload.issueId, r.payload.contentHash, r.payload.signer)
  }

  function InquiryKey(q: Inquiry): BindingKey {
    BindingKey(q.issue.id, ContentHash(q.crypto, q.issue), q.signer)
  }

  predicate EventEnvelopeConsistent(c: Crypto, e: ApprovalEvent) {
    e.signature.Some?
    && var sig := e.signature.value;
       sig.algorithm == SIGN_ALGORITHM
       && sig.context == APPROVAL_CONTEXT
       && sig.signer == e.approver
       && sig.payloadSha256 == c.eventDigest(e.(signature := None))
  }

  predicate ConsumedEnvelopeConsistent(c: Crypto, r: ApprovalConsumed) {
    r.signature.algorithm == SIGN_ALGORITHM
    && r.signature.context == APPROVAL_CONSUMED_CONTEXT
    && r.signature.payloadSha256 == c.consumedDigest(r.payload)
  }

  /** Unparsable times and TTLs that `chrono` cannot hold fail closed. */
  predicate ApprovalExpired(approvedAt: Timestamp, now: Timestamp, ttlNanos: nat) {
    approvedAt.instant.None?
    || now.instant.None?
    || ttlNanos > CHRONO_MAX_NANOS
    || now.instant.value - approvedAt.instant.value > ttlNanos
  }

  predicate Spent(key: BindingKey, consumed: seq<ApprovalConsumed>) {
    exists i :: 0 <= i < |consumed| && ConsumedKey(consumed[i]) == key
  }

  /** `ApprovalEvent::is_valid`: note that the issue id is not compared. */
  function IsValid(q: Inquiry, e: ApprovalEvent, consumed: seq<ApprovalConsumed>): Validity {
    if !EventEnvelopeConsistent(q.crypto, e) then SignatureInvalid
    else if e.contentHash != ContentHash(q.crypto, q.issue) then HashMismatch
    else if e.signer != q.signer then SignerMismatch
    else if e.verdict == Approve && ApprovalExpired(e.approvedAt, q.now, q.ttlNanos) then Expired
    else if e.verdict == Approve && Spent(EventKey(e), consumed) then Consumed
    else Valid
  }

  predicate HasValid(q: Inquiry, events: seq<ApprovalEvent>, consumed: seq<ApprovalConsumed>, verdict: Verdict) {
    exists i :: 0 <= i < |events| && events[i].verdict == verdict && IsValid(q, events[i], consumed) == Valid
  }

  /** Order-free meaning of a set of events: one valid denial wins over any approval. */
  function Decide(q: Inquiry, events: seq<ApprovalEvent>, consumed: seq<ApprovalConsumed>): Decision {
    if HasValid(q, events, consumed, Deny) then Denied
    else if HasValid(q, events, consumed, Approve) then Approved
    else Pending
  }

  /** The source's single pass with an `approved` flag and an early return computes `Decide`. */
  method ApprovalDecision(q: Inquiry, events: seq<ApprovalEvent>, consumed: seq<ApprovalConsumed>) returns (d: Decision)
    ensures d.Denied? <==> HasValid(q, events, consumed, Deny)
    ensures d.Approved? <==> !HasValid(q, events, consumed, Deny) && HasValid(q, events, consumed, Approve)
  {
    var approved := false;
    for i := 0 to |events|
      invariant forall k :: 0 <= k < i && events[k].verdict == Deny ==> IsValid(q, events[k], consumed) != Valid
      invariant approved <==> exists k :: 0 <= k < i && events[k].verdict == Approve && IsValid(q, events[k], consumed) == Valid
    {
      if IsValid(q, events[i], consumed) == Valid {
        match events[i].verdict
        case Approve => approved := true;
        case Deny => return Denied;
      }
    }
    return if approved then Approved else Pending;
  }

  /** Storage order and repetition of events never matter. */
  lemma {:induction false} DecisionIsOrderFree(q: Inquiry, a: seq<ApprovalEvent>, b: seq<ApprovalEvent>, consumed: seq<ApprovalConsumed>)
    requires forall e :: e in a <==> e in b
    ensures Decide(q, a, consumed) == Decide(q, b, consumed)
  {
    forall v: Verdict ensures HasValid(q, a, consumed, v) == HasValid(q, b, consumed, v) {
      if HasValid(q, a, consumed, v) {
        var i :| 0 <= i < |a| && a[i].verdict == v && IsValid(q, a[i], consumed) == Valid;
        assert a[i] in b;
      }
      if HasValid(q, b, consumed, v) {
        var i :| 0 <= i < |b| && b[i].verdict == v && IsValid(q, b[i], consumed) == Valid;
        assert b[i] in a;
      }
    }
  }

  /** Spending a key silences every approval under it and leaves every denial standing. */
  lemma {:induction false} SpendingSilencesOnlyApprovals(q: Inquiry, e: ApprovalEvent, consumed: seq<ApprovalConsumed>, r: ApprovalConsumed)
    ensures IsValid(q, e, consumed + [r]) == Valid
            <==> IsValid(q, e, consumed) == Valid && (e.verdict == Deny || ConsumedKey(r) != EventKey(e))
  {
    var more := consumed + [r];
    assert Spent(EventKey(e), more) <==> Spent(EventKey(e), consumed) || ConsumedKey(r) == EventKey(e) by {
      assert more[|consumed|] == r;
      if Spent(EventKey(e), consumed) {
        var i :| 0 <= i < |consumed| && ConsumedKey(consumed[i]) == EventKey(e);
        assert more[i] == consumed[i];
      }
    }
  }
}
