/** Operator consent end to end: submit an approval, requeue, claim again, pass the gate. */
module Submit {
  import opened Domain
  import opened Approval
  import opened Tracker
  import opened Gate
  import L = Lifecycle

  datatype Request = Request(verdict: Verdict, expectedHash: Option<string>, expectedSigner: Option<AgentId>)

  datatype SubmitWorld = SubmitWorld(
    signingConfigured: bool,
    fetches: bool,
    provenance: Option<Provenance>,
    now: Timestamp,
    sign: SignAnswer,
    approvalPut: PutAnswer,
    requeuePut: PutAnswer,
    refetches: bool)

  /** The scan's test on the reconstructed issue, as opposed to the tracker's on the blob. */
  predicate BlockedAwaitingApproval(issue: Issue) {
    issue.state == Blocked
    && BlockedReason in issue.extra
    && issue.extra[BlockedReason].JReason?
    && issue.extra[BlockedReason].reason.code == AwaitingApproval
  }

  /** An issue as a reader with verified provenance sees it. */
  function Seen(s: Records, id: IssueId, provenance: Option<Provenance>): Issue
    requires id in s.tasks
  {
    IssueOf(s, id).(provenance := provenance)
  }

  predicate MatchesExpectation(expected: Option<string>, actual: string) {
    expected.Some? ==> expected.value == actual
  }

  function SignApproval(c: Crypto, e: ApprovalEvent, a: SignAnswer): Outcome<ApprovalEvent> {
    if a.SignFailed? || a.algorithm != SIGN_ALGORITHM || a.context != APPROVAL_CONTEXT || a.agentId != e.approver then Err
    else Ok(e.(signature := Some(Envelope(a.algorithm, a.context, a.publicKey, a.signature,
                                          c.eventDigest(e.(signature := None)), a.agentId))))
  }

  const REQUEUED := ReleaseReason(OtherReason, "approval granted; requeued for dispatch")

  /** The signed event a request would store, if it gets that far. */
  function DraftApproval(c: Crypto, s: Records, id: IssueId, approver: AgentId, request: Request, w: SubmitWorld): Outcome<ApprovalEvent> {
    if !w.signingConfigured || !w.fetches || FetchIssue(s, id).Err? then Err
    else
      var issue := Seen(s, id, w.provenance);
      var signer := SignerOf(issue);
      if !NetworkSourced(issue) || signer == ""
         || !MatchesExpectation(request.expectedHash, ContentHash(c, issue))
         || !MatchesExpectation(request.expectedSigner, signer)
      then Err
      else SignApproval(c, ApprovalEvent(id, ContentHash(c, issue), signer, request.verdict, w.now, approver, None, None), w.sign)
  }

  /** The writes of an accepted request: the event, then the requeue if one is due. */
  function RecordOp(s: Records, id: IssueId, e: ApprovalEvent, requeue: bool, w: SubmitWorld): Op<ApprovalEvent> {
    var stored := StoreApprovalOp(s, e, w.approvalPut);
    if stored.outcome.Err? then Op(Err, stored.after)
    else if !requeue then Op(Ok(e), stored.after)
    else
      var requeued := RequeueOp(stored.after, id, REQUEUED, w.requeuePut);
      var stillParked := FetchIssue(requeued.after, id).Err? || BlockedAwaitingApproval(IssueOf(requeued.after, id));
      if requeued.outcome.Err? && (!w.refetches || stillParked) then Op(Err, requeued.after)
      else Op(Ok(e), requeued.after)
  }

  function SubmitOp(c: Crypto, s: Records, id: IssueId, approver: AgentId, request: Request, w: SubmitWorld): Op<ApprovalEvent> {
    var draft := DraftApproval(c, s, id, approver, request, w);
    if draft.Err? then Op(Err, s)
    else RecordOp(s, id, draft.value, request.verdict == Approve && BlockedAwaitingApproval(Seen(s, id, w.provenance)), w)
  }

  /** The handler's ordered writes. */
  method SubmitApproval(t: KvTracker, c: Crypto, id: IssueId, approver: AgentId, request: Request, w: SubmitWorld)
    returns (r: Outcome<ApprovalEvent>)
    modifies t
    ensures Op(r, t.Snapshot()) == SubmitOp(c, old(t.Snapshot()), id, approver, request, w)
  {
    var draft := DraftApproval(c, t.Snapshot(), id, approver, request, w);
    if draft.Err? {
      return Err;
    }
    var parked := BlockedAwaitingApproval(Seen(t.Snapshot(), id, w.provenance));
    var stored := t.StoreApproval(draft.value, w.approvalPut);
    if stored.Err? {
      return Err;
    }
    if request.verdict == Approve && parked {
      var requeued := t.RequeueBlocked(id, REQUEUED, w.requeuePut);
      if requeued.Err? {
        if !w.refetches {
          return Err;
        }
        var again := FetchIssue(t.Snapshot(), id);
        if again.Err? || BlockedAwaitingApproval(again.value) {
          return Err;
        }
      }
    }
    return draft;
  }

  /** The scan over issue metadata and the tracker's own guard agree. */
  lemma ScanAgreesWithGuard(s: Records, id: IssueId)
    requires id in s.tasks
    ensures BlockedAwaitingApproval(IssueOf(s, id)) <==> Requeueable(s, id)
  {
  }

  /** Lifecycle and approval writes never touch what an approval is bound to. */
  lemma WritesKeepContent(s: Records, self: AgentId, step: L.Step, id: IssueId, c: Crypto)
    requires id in s.tasks
    ensures var t := L.Next(s, self, step);
            id in t.tasks && ContentHash(c, IssueOf(t, id)) == ContentHash(c, IssueOf(s, id))
  {
    L.StepKeepsContent(s, self, step, id);
    SeenContentKept(c, s, L.Next(s, self, step), id, None);
  }

  lemma {:induction false} RunKeepsContent(s: Records, run: seq<L.Turn>, id: IssueId, c: Crypto)
    requires id in s.tasks
    ensures var t := L.After(s, run);
            id in t.tasks && ContentHash(c, IssueOf(t, id)) == ContentHash(c, IssueOf(s, id))
  {
    if run != [] {
      var rest, last := run[..|run| - 1], run[|run| - 1];
      RunKeepsContent(s, rest, id, c);
      WritesKeepContent(L.After(s, rest), last.agent, last.step, id, c);
    }
  }

  /** Validity looks at an issue only through its content hash. */
  lemma ValiditySeesOnlyContent(q: Inquiry, r: Inquiry, e: ApprovalEvent, consumed: seq<ApprovalConsumed>)
    requires q.crypto == r.crypto && q.signer == r.signer && q.now == r.now && q.ttlNanos == r.ttlNanos
    requires ContentHash(q.crypto, q.issue) == ContentHash(r.crypto, r.issue)
    ensures IsValid(q, e, consumed) == IsValid(r, e, consumed)
  {
  }

  /** The stored evidence is checkable, undenied and unspent for this view. */
  predicate Unopposed(q: Inquiry, st: ApprovalState, w: World) {
    && AllGenuine(q.crypto, st.consumed, w.consumedAnswers)
    && AllCheckable(q, st, w.eventAnswers)
    && !Standing(q, st, w.eventAnswers, Deny)
    && !Spent(InquiryKey(q), st.consumed)
  }

  /** Adding one fresh genuine approval to unopposed evidence is consent. */
  lemma FreshApprovalIsConsent(q: Inquiry, cfg: Config, st: ApprovalState, w: World, e: ApprovalEvent)
    requires Unopposed(q, st, w) && w.loads && cfg.verifierConfigured
    requires e.verdict == Approve && EventEnvelopeConsistent(q.crypto, e) && EventKey(e) == InquiryKey(q)
    requires !ApprovalExpired(e.approvedAt, q.now, q.ttlNanos)
    requires CheckEvent(q.crypto, e, w.eventAnswers(|st.events|)) == Genuine
    ensures Consented(q, cfg, st.(events := st.events + [e]), w)
  {
    var more, n := st.(events := st.events + [e]), |st.events|;
    assert more.events[n] == e && Counts(q, more, w.eventAnswers, n);
    forall i | 0 <= i < n
      ensures Counts(q, more, w.eventAnswers, i) == Counts(q, st, w.eventAnswers, i)
      ensures Uncheckable(q, more, w.eventAnswers, i) == Uncheckable(q, st, w.eventAnswers, i)
    {
      assert more.events[i] == st.events[i];
    }
  }

  /** What a successful draft contains, and that its envelope is consistent. */
  lemma DraftContents(c: Crypto, s: Records, id: IssueId, approver: AgentId, request: Request, w: SubmitWorld)
    requires id in s.tasks && DraftApproval(c, s, id, approver, request, w).Ok?
    ensures var e := DraftApproval(c, s, id, approver, request, w).value;
            var view := Seen(s, id, w.provenance);
            && EventKey(e) == BindingKey(id, ContentHash(c, view), SignerOf(view))
            && e.verdict == request.verdict && e.approvedAt == w.now
            && EventEnvelopeConsistent(c, e)
  {
  }

  /** A request changes nothing but the approval blob and, for an approval of parked work, its claim; it
      succeeds only against the view the operator expected, and then its event is on record. */
  lemma SubmitAccounted(c: Crypto, s: Records, id: IssueId, approver: AgentId, request: Request, w: SubmitWorld)
    ensures var op := SubmitOp(c, s, id, approver, request, w);
            && op.after.tasks == s.tasks && op.after.handoffs == s.handoffs && op.after.shards == s.shards
            && (op.after.claims != s.claims ==> request.verdict == Approve && Requeueable(s, id))
            && (op.outcome.Ok? ==>
                  && id in s.tasks
                  && MatchesExpectation(request.expectedHash, ContentHash(c, Seen(s, id, w.provenance)))
                  && MatchesExpectation(request.expectedSigner, SignerOf(Seen(s, id, w.provenance)))
                  && ApprovalsOf(op.after, id).events == ApprovalsOf(s, id).events + [op.outcome.value])
  {
    var draft := DraftApproval(c, s, id, approver, request, w);
    if draft.Ok? {
      DraftContents(c, s, id, approver, request, w);
      ScanAgreesWithGuard(s, id);
      var requeue := request.verdict == Approve && BlockedAwaitingApproval(Seen(s, id, w.provenance));
      RecordAccounted(s, id, draft.value, requeue, w);
    }
  }

  lemma RecordAccounted(s: Records, id: IssueId, e: ApprovalEvent, requeue: bool, w: SubmitWorld)
    requires e.issueId == id
    ensures var op := RecordOp(s, id, e, requeue, w);
            && op.after.tasks == s.tasks && op.after.handoffs == s.handoffs && op.after.shards == s.shards
            && (op.after.claims != s.claims ==> requeue)
            && (op.outcome.Ok? ==> op.outcome.value == e && ApprovalsOf(op.after, id).events == ApprovalsOf(s, id).events + [e])
  {
    var stored := StoreApprovalOp(s, e, w.approvalPut);
    assert stored.outcome.Ok? ==> ApprovalsOf(stored.after, id).events == ApprovalsOf(s, id).events + [e];
    RequeueTouchesOneClaim(stored.after, id, w.requeuePut);
  }

  lemma RequeueTouchesOneClaim(s: Records, id: IssueId, put: PutAnswer)
    ensures var t := RequeueOp(s, id, REQUEUED, put).after; t == s.(claims := t.claims)
  {
  }

  /** The records once an approval is stored and the parked claim released. */
  function Requeued(s: Records, id: IssueId, e: ApprovalEvent): Records
    requires id in s.claims
  {
    s.(approvals := s.approvals[id := ApprovalState(ApprovalsOf(s, id).events + [e], ApprovalsOf(s, id).consumed)],
       claims := s.claims[id := ClaimBlob(Released, s.claims[id].claim, Some(REQUEUED))])
  }

  /** From a parked issue: submitting an approval stores it and returns the issue to the queue. */
  lemma SubmittedApprovalRequeues(c: Crypto, s: Records, id: IssueId, approver: AgentId, request: Request, w: SubmitWorld)
    requires id in s.tasks && Requeueable(s, id) && request.verdict == Approve
    requires DraftApproval(c, s, id, approver, request, w).Ok? && w.approvalPut == Stored && w.requeuePut == Stored
    ensures var draft := DraftApproval(c, s, id, approver, request, w);
            SubmitOp(c, s, id, approver, request, w) == Op(draft, Requeued(s, id, draft.value))
  {
    DraftContents(c, s, id, approver, request, w);
    ScanAgreesWithGuard(s, id);
    assert BlockedAwaitingApproval(Seen(s, id, w.provenance));
  }

  /** A requeued issue is free, so the next claim on it succeeds and changes only box and claim blob. */
  lemma RequeuedIsClaimable(s: Records, id: IssueId, e: ApprovalEvent, agent: AgentId, at: Timestamp, signing: Signing)
    requires L.Inv(s) && id in s.tasks && Requeueable(s, id) && signing.Ok?
    ensures var t := Requeued(s, id, e);
            var op := ClaimOp(t, agent, id, agent, at, signing, Stored, Stored);
            && StateOf(t, id) == Todo && op.outcome.Ok?
            && id in op.after.tasks && StateOf(op.after, id) == InProgress
            && op.after.tasks[id] == Patched(s.tasks[id], ClaimTask, agent)
            && op.after.approvals == t.approvals
  {
    var t := Requeued(s, id, e);
    assert L.Shape(s, id);
    L.ReachableIsReadable(s);
    forall other | other in t.tasks ensures WellFiled(t, other) {
      assert WellFiled(s, other);
    }
  }

  /** The whole path: approve, requeue, claim, gate. Consent that nothing opposes does dispatch. */
  lemma ConsentDispatches(c: Crypto, s: Records, id: IssueId, approver: AgentId, request: Request, sw: SubmitWorld,
                          cfg: Config, claimedAt: Timestamp, signing: Signing, w: World)
    requires L.Inv(s) && id in s.tasks && Requeueable(s, id) && request.verdict == Approve
    requires DraftApproval(c, s, id, approver, request, sw).Ok? && sw.approvalPut == Stored && sw.requeuePut == Stored
    requires signing.Ok?
    requires OnApprovalPath(cfg, Seen(s, id, sw.provenance), w)
    requires FairEvidence(c, s, id, approver, request, sw, cfg, w) && w.consumedPut == Stored
    ensures var submitted := SubmitOp(c, s, id, approver, request, sw);
            var claimed := ClaimOp(submitted.after, cfg.agentId, id, cfg.agentId, claimedAt, signing, Stored, Stored);
            && submitted.outcome.Ok? && claimed.outcome.Ok? && id in claimed.after.tasks
            && StateOf(claimed.after, id) == InProgress
            && DispatchGate(c, cfg, claimed.outcome.value, Seen(claimed.after, id, sw.provenance), claimed.after, w).outcome == Ok(Proceed)
  {
    var e := DraftApproval(c, s, id, approver, request, sw).value;
    var t := Requeued(s, id, e);
    SubmittedApprovalRequeues(c, s, id, approver, request, sw);
    RequeuedIsClaimable(s, id, e, cfg.agentId, claimedAt, signing);
    var claimed := ClaimOp(t, cfg.agentId, id, cfg.agentId, claimedAt, signing, Stored, Stored);
    var again := Seen(claimed.after, id, sw.provenance);
    SeenContentKept(c, s, claimed.after, id, sw.provenance);
    GateOnFreshApproval(c, s, id, approver, request, sw, cfg, again, w);
    DispatchProceedsIff(c, cfg, claimed.outcome.value, again, claimed.after, w);
  }

  /** Oracle answers that let consent work: evidence unopposed, the approval young and genuine, the spend signed. */
  predicate FairEvidence(c: Crypto, s: Records, id: IssueId, approver: AgentId, request: Request, sw: SubmitWorld,
                         cfg: Config, w: World)
    requires id in s.tasks && DraftApproval(c, s, id, approver, request, sw).Ok?
  {
    var q := InquiryOf(c, cfg, Seen(s, id, sw.provenance), w);
    var st := ApprovalsOf(s, id);
    && w.loads && cfg.verifierConfigured && Unopposed(q, st, w)
    && !ApprovalExpired(sw.now, w.now, cfg.approvalTtl)
    && CheckEvent(c, DraftApproval(c, s, id, approver, request, sw).value, w.eventAnswers(|st.events|)) == Genuine
    && MintConsumed(q, w).Ok?
  }

  lemma SeenContentKept(c: Crypto, s: Records, t: Records, id: IssueId, provenance: Option<Provenance>)
    requires id in s.tasks && id in t.tasks
    requires s.tasks[id].title == t.tasks[id].title && s.tasks[id].description == t.tasks[id].description
    ensures ContentHash(c, Seen(s, id, provenance)) == ContentHash(c, Seen(t, id, provenance))
  {
  }

  /** The evidence judged against a later view with the same content. */
  lemma GateOnFreshApproval(c: Crypto, s: Records, id: IssueId, approver: AgentId, request: Request, sw: SubmitWorld,
                            cfg: Config, again: Issue, w: World)
    requires id in s.tasks && DraftApproval(c, s, id, approver, request, sw).Ok? && request.verdict == Approve
    requires again.id == id && again.provenance == sw.provenance && ContentHash(c, again) == ContentHash(c, Seen(s, id, sw.provenance))
    requires FairEvidence(c, s, id, approver, request, sw, cfg, w)
    ensures var q := InquiryOf(c, cfg, again, w);
            var st := ApprovalsOf(s, id);
            && Consented(q, cfg, st.(events := st.events + [DraftApproval(c, s, id, approver, request, sw).value]), w)
            && MintConsumed(q, w).Ok?
  {
    var before, q := InquiryOf(c, cfg, Seen(s, id, sw.provenance), w), InquiryOf(c, cfg, again, w);
    var st := ApprovalsOf(s, id);
    forall e ensures IsValid(before, e, st.consumed) == IsValid(q, e, st.consumed) {
      ValiditySeesOnlyContent(before, q, e, st.consumed);
    }
    assert forall i :: 0 <= i < |st.events| ==> Counts(q, st, w.eventAnswers, i) == Counts(before, st, w.eventAnswers, i);
    assert forall i :: 0 <= i < |st.events| ==> Uncheckable(q, st, w.eventAnswers, i) == Uncheckable(before, st, w.eventAnswers, i);
    DraftContents(c, s, id, approver, request, sw);
    FreshApprovalIsConsent(q, cfg, st, w, DraftApproval(c, s, id, approver, request, sw).value);
  }

  /** Those premises can all hold at once: a parked issue, one operator, one worker. */
  lemma ConsentIsAttainable()
    returns (c: Crypto, s: Records, request: Request, sw: SubmitWorld, cfg: Config, w: World)
    ensures L.Inv(s) && "i" in s.tasks && Requeueable(s, "i") && request.verdict == Approve
    ensures DraftApproval(c, s, "i", "operator", request, sw).Ok? && sw.approvalPut == Stored && sw.requeuePut == Stored
    ensures OnApprovalPath(cfg, Seen(s, "i", sw.provenance), w)
    ensures FairEvidence(c, s, "i", "operator", request, sw, cfg, w) && w.consumedPut == Stored
  {
    var now := Timestamp("", Some(0));
    var parked := ClaimBlob(Halted, NewClaim(Some("i"), "a", now, ManualM1), Some(ReleaseReason(AwaitingApproval, "")));
    var genuine := Answer(Resolved([]), Said(Genuine));
    c := Crypto(_ => "h", _ => "h", _ => "h", _ => Some([]));
    s := Records(map["i" := TaskEntry("", "", ClaimedBox(Some("a")), Some("a"))], map["i" := parked], map[], map[], map[]);
    request := Request(Approve, None, None);
    sw := SubmitWorld(true, true, Some(Verified("b")), now, Signed(SIGN_ALGORITHM, APPROVAL_CONTEXT, "", "", "operator"),
                      Stored, Stored, true);
    cfg := Config("a", OnApproval, KnownAgent, 0, true);
    w := World(Ok(KnownAgent), true, now, _ => genuine, _ => genuine,
               Signed(SIGN_ALGORITHM, APPROVAL_CONSUMED_CONTEXT, "", "", "a"), "", Stored, Stored);
    assert SignerOf(Seen(s, "i", sw.provenance)) == "b";
    assert L.Shape(s, "i");
    L.ReachableIsReadable(s);
  }
}
