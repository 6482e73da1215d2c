/** The dispatch gate: whether a claimed issue may run, decided before any workspace, hook or runner.

`DispatchGate` is the value-level meaning; the methods are the source's step-by-step form on a
tracker. Every outside answer, per call and per record, comes from a `World`.
 */
module Gate {
  import opened Domain
  import opened Approval
  import opened Tracker

  datatype Policy = Off | OnApproval | Auto

  datatype Trust = NeverTrust | UnknownAgent | KnownAgent | TrustedAgent

  datatype GateOutcome = Proceed | Refused | PendingApproval

  datatype CryptoVerify = Genuine | Forged | Unreachable

  datatype Resolve = Resolved(key: Bytes) | ResolveFailed(transport: bool)

  datatype ClientAnswer = Said(verdict: CryptoVerify) | ClientFailed(transport: bool)

  datatype Answer = Answer(resolve: Resolve, client: ClientAnswer)

  datatype SignAnswer = Signed(algorithm: string, context: string, publicKey: string, signature: string, agentId: AgentId) | SignFailed

  datatype Config = Config(agentId: AgentId, policy: Policy, requiredTrust: Trust, approvalTtl: nat, verifierConfigured: bool)

  /** Answers of one evaluation. The verifier may answer each record, and each evaluation, differently. */
  datatype World = World(
    trust: Outcome<Trust>,
    loads: bool,
    now: Timestamp,
    consumedAnswers: nat -> Answer,
    eventAnswers: nat -> Answer,
    sign: SignAnswer,
    nonce: string,
    consumedPut: PutAnswer,
    blockPut: PutAnswer)

  /** `blocks` lists the tracker block calls made, in order. */
  datatype GateResult = GateResult(outcome: Outcome<GateOutcome>, after: Records, blocks: seq<ReasonCode>)

  /******* Classification *******/

  function Lower(s: string): string {
    seq(|s|, i requires 0 <= i < |s| =>
      if 'A' <= s[i] <= 'Z' then (s[i] as int + 32) as char else if s[i] == '-' then '_' else s[i])
  }

  function NetworkMarker(j: Json): Option<bool> {
    if !j.JText? then None
    else
      var text := Lower(Trim(j.text));
      if text == "local" then Some(false)
      else if text == "network" || text == NETWORK_SOURCED || text == "x0x" || text == "x0x_crdt" then Some(true)
      else None
  }

  predicate MarkedNetwork(issue: Issue) {
    var first := if IssueSource in issue.extra then NetworkMarker(issue.extra[IssueSource]) else None;
    var second := if Source in issue.extra then NetworkMarker(issue.extra[Source]) else None;
    if first.Some? then first.value else second == Some(true)
  }

  predicate NetworkSourced(issue: Issue) { MarkedNetwork(issue) || issue.provenance.Some? }

  /** The verified signer, trimmed; empty when there is none. */
  function SignerOf(issue: Issue): AgentId {
    if issue.provenance.Some? && issue.provenance.value.Verified? then Trim(issue.provenance.value.signer) else ""
  }

  predicate SelfSigned(cfg: Config, issue: Issue) { SignerOf(issue) != "" && SignerOf(issue) == cfg.agentId }

  function TrustRank(t: Trust): nat {
    match t
    case NeverTrust => 0
    case UnknownAgent => 1
    case KnownAgent => 2
    case TrustedAgent => 3
  }

  function TrustRefusal(t: Trust, required: Trust): Option<ReasonCode> {
    if t == NeverTrust then Some(BlockedSigner)
    else if t == UnknownAgent then Some(UnknownSigner)
    else if TrustRank(t) < TrustRank(required) then Some(UntrustedSigner)
    else None
  }

  /** The refusal code for an issue without a usable verified signer. */
  function ProvenanceRefusal(issue: Issue): ReasonCode {
    if issue.provenance.None? || issue.provenance.value.Verified? then MissingVerifiedSignature
    else if issue.provenance.value.Invalid? then InvalidSignature
    else VerifyTransportError
  }

  /******* Signature checks *******/

  function ClientVerdict(a: ClientAnswer): CryptoVerify {
    match a
    case Said(verdict) => verdict
    case ClientFailed(transport) => if transport then Unreachable else Forged
  }

  function CheckSignature(c: Crypto, signature: string, a: Answer): CryptoVerify {
    if a.resolve.ResolveFailed? then (if a.resolve.transport then Unreachable else Forged)
    else if c.decode(signature).None? then Forged
    else ClientVerdict(a.client)
  }

  function CheckEvent(c: Crypto, e: ApprovalEvent, a: Answer): CryptoVerify {
    if a.resolve.Resolved? && e.signature.None? then Forged
    else CheckSignature(c, if e.signature.Some? then e.signature.value.signature else "", a)
  }

  function CheckConsumed(c: Crypto, r: ApprovalConsumed, a: Answer): CryptoVerify {
    if !ConsumedEnvelopeConsistent(c, r) then Forged else CheckSignature(c, r.signature.signature, a)
  }

  /******* Meaning of the approval gate *******/

  function FaultCode(v: CryptoVerify): Option<ReasonCode> {
    match v
    case Genuine => None
    case Forged => Some(InvalidSignature)
    case Unreachable => Some(VerifyTransportError)
  }

  /** Refusal code of the first of `n` consumption records that does not verify. */
  function ConsumedFault(c: Crypto, consumed: seq<ApprovalConsumed>, answers: nat -> Answer, n: nat): Option<ReasonCode>
    requires n <= |consumed|
  {
    if n == 0 then None
    else
      var before := ConsumedFault(c, consumed, answers, n - 1);
      if before.Some? then before else FaultCode(CheckConsumed(c, consumed[n - 1], answers(n - 1)))
  }

  /** Valid and genuine events among the first `n`; `None` once a valid event cannot be checked. */
  function Kept(q: Inquiry, st: ApprovalState, answers: nat -> Answer, n: nat): Option<seq<ApprovalEvent>>
    requires n <= |st.events|
  {
    if n == 0 then Some([])
    else
      var before := Kept(q, st, answers, n - 1);
      var e := st.events[n - 1];
      if before.None? || IsValid(q, e, st.consumed) != Valid then before
      else match CheckEvent(q.crypto, e, answers(n - 1))
           case Genuine => Some(before.value + [e])
           case Forged => before
           case Unreachable => None
  }

  function MintConsumed(q: Inquiry, w: World): Outcome<ApprovalConsumed> {
    if w.sign.SignFailed? || w.sign.algorithm != SIGN_ALGORITHM || w.sign.context != APPROVAL_CONSUMED_CONTEXT then Err
    else
      var payload := ConsumedPayload(q.issue.id, ContentHash(q.crypto, q.issue), q.signer, w.nonce, q.now);
      Ok(ApprovalConsumed(payload, Envelope(w.sign.algorithm, w.sign.context, w.sign.publicKey, w.sign.signature,
                                            q.crypto.consumedDigest(payload), w.sign.agentId)))
  }

  function Refuse(s: Records, claim: Claim, code: ReasonCode, w: World, outcome: GateOutcome): GateResult {
    var op := BlockOp(s, claim, ReleaseReason(code, ""), w.blockPut);
    GateResult(if op.outcome.Ok? then Ok(outcome) else Err, op.after, [code])
  }

  function ConsumeAndProceed(q: Inquiry, claim: Claim, s: Records, w: World): GateResult {
    var minted := MintConsumed(q, w);
    if minted.Err? then Refuse(s, claim, VerifyTransportError, w, PendingApproval)
    else
      var op := StoreConsumedOp(s, minted.value, w.consumedPut);
      GateResult(if op.outcome.Ok? then Ok(Proceed) else Err, op.after, [])
  }

  function ApprovalGate(q: Inquiry, cfg: Config, claim: Claim, s: Records, w: World): GateResult {
    var st := ApprovalsOf(s, q.issue.id);
    if !w.loads then GateResult(Err, s, [])
    else if !cfg.verifierConfigured then Refuse(s, claim, ApprovalVerifierUnconfigured, w, PendingApproval)
    else
      var fault := ConsumedFault(q.crypto, st.consumed, w.consumedAnswers, |st.consumed|);
      if fault.Some? then Refuse(s, claim, fault.value, w, PendingApproval)
      else
        var kept := Kept(q, st, w.eventAnswers, |st.events|);
        if kept.None? then Refuse(s, claim, VerifyTransportError, w, PendingApproval)
        else if Decide(q, kept.value, st.consumed).Approved? then ConsumeAndProceed(q, claim, s, w)
        else Refuse(s, claim, AwaitingApproval, w, PendingApproval)
  }

  function InquiryOf(c: Crypto, cfg: Config, issue: Issue, w: World): Inquiry {
    Inquiry(c, issue, SignerOf(issue), w.now, cfg.approvalTtl)
  }

  function DispatchGate(c: Crypto, cfg: Config, claim: Claim, issue: Issue, s: Records, w: World): GateResult {
    if !NetworkSourced(issue) || SelfSigned(cfg, issue) then GateResult(Ok(Proceed), s, [])
    else if cfg.policy == Off then Refuse(s, claim, NetworkDispatchDisabled, w, Refused)
    else if SignerOf(issue) == "" then Refuse(s, claim, ProvenanceRefusal(issue), w, Refused)
    else if w.trust.Err? then GateResult(Err, s, [])
    else
      var refusal := TrustRefusal(w.trust.value, cfg.requiredTrust);
      if refusal.Some? then Refuse(s, claim, refusal.value, w, Refused)
      else if cfg.policy == Auto then GateResult(Ok(Proceed), s, [])
      else ApprovalGate(InquiryOf(c, cfg, issue, w), cfg, claim, s, w)
  }

  /******* The gate as the source runs it *******/

  method BlockForDispatchRefusal(t: KvTracker, claim: Claim, code: ReasonCode, w: World, outcome: GateOutcome)
    returns (r: Outcome<GateOutcome>, blocks: seq<ReasonCode>)
    modifies t
    ensures GateResult(r, t.Snapshot(), blocks) == Refuse(old(t.Snapshot()), claim, code, w, outcome)
  {
    var done := t.Block(claim, ReleaseReason(code, ""), w.blockPut);
    r := if done.Ok? then Ok(outcome) else Err;
    blocks := [code];
  }

  /** The loop that trusts the consumption list only if every record in it verifies. */
  method VerifiedConsumedRecords(c: Crypto, consumed: seq<ApprovalConsumed>, answers: nat -> Answer)
    returns (verified: seq<ApprovalConsumed>, fault: Option<ReasonCode>)
    ensures fault == ConsumedFault(c, consumed, answers, |consumed|)
    ensures fault.None? ==> verified == consumed
  {
    verified, fault := [], None;
    for i := 0 to |consumed|
      invariant fault == None == ConsumedFault(c, consumed, answers, i)
      invariant verified == consumed[..i]
    {
      match CheckConsumed(c, consumed[i], answers(i))
      case Genuine => verified := verified + [consumed[i]];
      case Forged =>
        FaultSticks(c, consumed, answers, i + 1, |consumed|);
        return verified, Some(InvalidSignature);
      case Unreachable =>
        FaultSticks(c, consumed, answers, i + 1, |consumed|);
        return verified, Some(VerifyTransportError);
    }
  }

  lemma {:induction false} FaultSticks(c: Crypto, consumed: seq<ApprovalConsumed>, answers: nat -> Answer, m: nat, n: nat)
    requires m <= n <= |consumed| && ConsumedFault(c, consumed, answers, m).Some?
    ensures ConsumedFault(c, consumed, answers, n) == ConsumedFault(c, consumed, answers, m)
  {
    if m < n {
      FaultSticks(c, consumed, answers, m, n - 1);
    }
  }

  /** The loop that keeps the valid, genuine events. */
  method VerifiedEvents(q: Inquiry, st: ApprovalState, answers: nat -> Answer) returns (kept: Option<seq<ApprovalEvent>>)
    ensures kept == Kept(q, st, answers, |st.events|)
  {
    var list := [];
    for i := 0 to |st.events|
      invariant Kept(q, st, answers, i) == Some(list)
    {
      if IsValid(q, st.events[i], st.consumed) == Valid {
        match CheckEvent(q.crypto, st.events[i], answers(i))
        case Genuine => list := list + [st.events[i]];
        case Forged =>
        case Unreachable =>
          UncheckedSticks(q, st, answers, i + 1, |st.events|);
          return None;
      }
    }
    return Some(list);
  }

  lemma {:induction false} UncheckedSticks(q: Inquiry, st: ApprovalState, answers: nat -> Answer, m: nat, n: nat)
    requires m <= n <= |st.events| && Kept(q, st, answers, m).None?
    ensures Kept(q, st, answers, n).None?
  {
    if m < n {
      UncheckedSticks(q, st, answers, m, n - 1);
    }
  }

  method ApprovalGateDecision(t: KvTracker, q: Inquiry, cfg: Config, claim: Claim, w: World)
    returns (r: Outcome<GateOutcome>, blocks: seq<ReasonCode>)
    modifies t
    ensures GateResult(r, t.Snapshot(), blocks) == ApprovalGate(q, cfg, claim, old(t.Snapshot()), w)
  {
    if !w.loads {
      return Err, [];
    }
    var st := ApprovalsOf(t.Snapshot(), q.issue.id);
    if !cfg.verifierConfigured {
      r, blocks := BlockForDispatchRefusal(t, claim, ApprovalVerifierUnconfigured, w, PendingApproval);
      return;
    }
    var verified, fault := VerifiedConsumedRecords(q.crypto, st.consumed, w.consumedAnswers);
    if fault.Some? {
      r, blocks := BlockForDispatchRefusal(t, claim, fault.value, w, PendingApproval);
      return;
    }
    var kept := VerifiedEvents(q, st, w.eventAnswers);
    if kept.None? {
      r, blocks := BlockForDispatchRefusal(t, claim, VerifyTransportError, w, PendingApproval);
      return;
    }
    var decision := ApprovalDecision(q, kept.value, verified);
    match decision
    case Approved =>
      var minted := MintConsumed(q, w);
      if minted.Err? {
        r, blocks := BlockForDispatchRefusal(t, claim, VerifyTransportError, w, PendingApproval);
      } else {
        var done := t.StoreConsumed(minted.value, w.consumedPut);
        r, blocks := if done.Ok? then Ok(Proceed) else Err, [];
      }
    case Denied => r, blocks := BlockForDispatchRefusal(t, claim, AwaitingApproval, w, PendingApproval);
    case Pending => r, blocks := BlockForDispatchRefusal(t, claim, AwaitingApproval, w, PendingApproval);
  }

  method BlockIfNetworkDispatchRefused(t: KvTracker, c: Crypto, cfg: Config, claim: Claim, issue: Issue, w: World)
    returns (r: Outcome<GateOutcome>, blocks: seq<ReasonCode>)
    modifies t
    ensures GateResult(r, t.Snapshot(), blocks) == DispatchGate(c, cfg, claim, issue, old(t.Snapshot()), w)
  {
    if !NetworkSourced(issue) || SelfSigned(cfg, issue) {
      return Ok(Proceed), [];
    }
    if cfg.policy == Off {
      r, blocks := BlockForDispatchRefusal(t, claim, NetworkDispatchDisabled, w, Refused);
      return;
    }
    var signer := SignerOf(issue);
    if signer == "" {
      r, blocks := BlockForDispatchRefusal(t, claim, ProvenanceRefusal(issue), w, Refused);
      return;
    }
    if w.trust.Err? {
      return Err, [];
    }
    var refusal := TrustRefusal(w.trust.value, cfg.requiredTrust);
    if refusal.Some? {
      r, blocks := BlockForDispatchRefusal(t, claim, refusal.value, w, Refused);
      return;
    }
    match cfg.policy
    case Auto => r, blocks := Ok(Proceed), [];
    case OnApproval => r, blocks := ApprovalGateDecision(t, InquiryOf(c, cfg, issue, w), cfg, claim, w);
    case Off => assert false;
  }

  /******* When the gate lets an issue through *******/

  predicate AllGenuine(c: Crypto, consumed: seq<ApprovalConsumed>, answers: nat -> Answer) {
    forall i :: 0 <= i < |consumed| ==> CheckConsumed(c, consumed[i], answers(i)) == Genuine
  }

  predicate AllCheckable(q: Inquiry, st: ApprovalState, answers: nat -> Answer) {
    forall i :: 0 <= i < |st.events| ==> !Uncheckable(q, st, answers, i)
  }

  /** The i-th stored event is valid for this inquiry and genuinely signed. */
  predicate Counts(q: Inquiry, st: ApprovalState, answers: nat -> Answer, i: nat)
    requires i < |st.events|
  {
    IsValid(q, st.events[i], st.consumed) == Valid && CheckEvent(q.crypto, st.events[i], answers(i)) == Genuine
  }

  predicate Standing(q: Inquiry, st: ApprovalState, answers: nat -> Answer, v: Verdict) {
    exists i :: 0 <= i < |st.events| && Counts(q, st, answers, i) && st.events[i].verdict == v
  }

  predicate Consented(q: Inquiry, cfg: Config, st: ApprovalState, w: World) {
    && w.loads && cfg.verifierConfigured
    && AllGenuine(q.crypto, st.consumed, w.consumedAnswers)
    && AllCheckable(q, st, w.eventAnswers)
    && Standing(q, st, w.eventAnswers, Approve)
    && !Standing(q, st, w.eventAnswers, Deny)
  }

  lemma {:induction false} ConsumedFaultMeaning(c: Crypto, consumed: seq<ApprovalConsumed>, answers: nat -> Answer, n: nat)
    requires n <= |consumed|
    ensures ConsumedFault(c, consumed, answers, n).None?
            <==> forall i :: 0 <= i < n ==> CheckConsumed(c, consumed[i], answers(i)) == Genuine
  {
    if n > 0 {
      ConsumedFaultMeaning(c, consumed, answers, n - 1);
    }
  }

  /** The i-th stored event is valid but could not be checked. */
  predicate Uncheckable(q: Inquiry, st: ApprovalState, answers: nat -> Answer, i: nat)
    requires i < |st.events|
  {
    IsValid(q, st.events[i], st.consumed) == Valid && CheckEvent(q.crypto, st.events[i], answers(i)) == Unreachable
  }

  lemma KeptStep(q: Inquiry, st: ApprovalState, answers: nat -> Answer, n: nat)
    requires 0 < n <= |st.events|
    ensures Kept(q, st, answers, n).Some? <==> Kept(q, st, answers, n - 1).Some? && !Uncheckable(q, st, answers, n - 1)
  {
  }

  lemma {:induction false} KeptMeaning(q: Inquiry, st: ApprovalState, answers: nat -> Answer, n: nat)
    requires n <= |st.events|
    ensures Kept(q, st, answers, n).Some? <==> forall i :: 0 <= i < n ==> !Uncheckable(q, st, answers, i)
  {
    if n > 0 {
      KeptMeaning(q, st, answers, n - 1);
      KeptStep(q, st, answers, n);
    }
  }

  lemma {:induction false} KeptVerdicts(q: Inquiry, st: ApprovalState, answers: nat -> Answer, n: nat, v: Verdict)
    requires n <= |st.events| && Kept(q, st, answers, n).Some?
    ensures HasValid(q, Kept(q, st, answers, n).value, st.consumed, v)
            <==> exists i :: 0 <= i < n && Counts(q, st, answers, i) && st.events[i].verdict == v
  {
    if n > 0 {
      var before := Kept(q, st, answers, n - 1).value;
      var kept := Kept(q, st, answers, n).value;
      KeptVerdicts(q, st, answers, n - 1, v);
      if Counts(q, st, answers, n - 1) {
        AppendValid(q, before, st.events[n - 1], st.consumed, v);
      }
    }
  }

  lemma AppendValid(q: Inquiry, events: seq<ApprovalEvent>, e: ApprovalEvent, consumed: seq<ApprovalConsumed>, v: Verdict)
    ensures HasValid(q, events + [e], consumed, v)
            <==> HasValid(q, events, consumed, v) || (e.verdict == v && IsValid(q, e, consumed) == Valid)
  {
    var more := events + [e];
    assert more[|events|] == e;
    if HasValid(q, events, consumed, v) {
      var i :| 0 <= i < |events| && events[i].verdict == v && IsValid(q, events[i], consumed) == Valid;
      assert more[i] == events[i];
    }
  }

  /** The approval gate proceeds exactly on verified, unspent, undenied consent whose spending is on record. */
  lemma ApprovalGateProceedsIff(q: Inquiry, cfg: Config, claim: Claim, s: Records, w: World)
    ensures ApprovalGate(q, cfg, claim, s, w).outcome == Ok(Proceed)
            <==> Consented(q, cfg, ApprovalsOf(s, q.issue.id), w) && MintConsumed(q, w).Ok? && w.consumedPut == Stored
    ensures ApprovalGate(q, cfg, claim, s, w).outcome == Ok(Proceed)
            ==> ApprovalGate(q, cfg, claim, s, w).after == StoreConsumedOp(s, MintConsumed(q, w).value, Stored).after
  {
    var st := ApprovalsOf(s, q.issue.id);
    ConsumedFaultMeaning(q.crypto, st.consumed, w.consumedAnswers, |st.consumed|);
    KeptMeaning(q, st, w.eventAnswers, |st.events|);
    if Kept(q, st, w.eventAnswers, |st.events|).Some? {
      KeptVerdicts(q, st, w.eventAnswers, |st.events|, Approve);
      KeptVerdicts(q, st, w.eventAnswers, |st.events|, Deny);
    }
  }

  predicate SignerTrusted(cfg: Config, issue: Issue, w: World) {
    SignerOf(issue) != "" && w.trust.Ok? && w.trust.value !in {NeverTrust, UnknownAgent}
    && TrustRank(w.trust.value) >= TrustRank(cfg.requiredTrust)
  }

  /** The evaluation reaches the approval gate. */
  predicate OnApprovalPath(cfg: Config, issue: Issue, w: World) {
    NetworkSourced(issue) && !SelfSigned(cfg, issue) && cfg.policy == OnApproval && SignerTrusted(cfg, issue, w)
  }

  /** Every Proceed is justified, and every justification proceeds. */
  lemma DispatchProceedsIff(c: Crypto, cfg: Config, claim: Claim, issue: Issue, s: Records, w: World)
    ensures DispatchGate(c, cfg, claim, issue, s, w).outcome == Ok(Proceed)
            <==> var q := InquiryOf(c, cfg, issue, w);
                 || !NetworkSourced(issue)
                 || SelfSigned(cfg, issue)
                 || (cfg.policy == Auto && SignerTrusted(cfg, issue, w))
                 || (OnApprovalPath(cfg, issue, w) && Consented(q, cfg, ApprovalsOf(s, issue.id), w)
                     && MintConsumed(q, w).Ok? && w.consumedPut == Stored)
  {
    ApprovalGateProceedsIff(InquiryOf(c, cfg, issue, w), cfg, claim, s, w);
  }

  /** Each final refusal carries the code of its own cause. */
  lemma RefusalNamesItsCause(c: Crypto, cfg: Config, claim: Claim, issue: Issue, s: Records, w: World)
    requires DispatchGate(c, cfg, claim, issue, s, w).outcome == Ok(Refused)
    ensures NetworkSourced(issue) && !SelfSigned(cfg, issue)
    ensures var g := DispatchGate(c, cfg, claim, issue, s, w);
            var signed := cfg.policy != Off && SignerOf(issue) != "";
            && |g.blocks| == 1
            && (g.blocks[0] == NetworkDispatchDisabled <==> cfg.policy == Off)
            && (g.blocks[0] in {MissingVerifiedSignature, InvalidSignature, VerifyTransportError}
                <==> cfg.policy != Off && SignerOf(issue) == "")
            && (g.blocks[0] == BlockedSigner <==> signed && w.trust == Ok(NeverTrust))
            && (g.blocks[0] == UnknownSigner <==> signed && w.trust == Ok(UnknownAgent))
            && (g.blocks[0] == UntrustedSigner
                <==> signed && w.trust.Ok? && w.trust.value !in {NeverTrust, UnknownAgent} && !SignerTrusted(cfg, issue, w))
  {
    PendingIsNotRefused(InquiryOf(c, cfg, issue, w), cfg, claim, s, w);
  }

  lemma PendingIsNotRefused(q: Inquiry, cfg: Config, claim: Claim, s: Records, w: World)
    ensures ApprovalGate(q, cfg, claim, s, w).outcome != Ok(Refused)
  {
  }

  /** The block calls match the outcome, and the records change only as they say. */
  predicate Accounted(s: Records, claim: Claim, g: GateResult) {
    && g.after.tasks == s.tasks && g.after.handoffs == s.handoffs && g.after.shards == s.shards
    && (g.outcome.Err? ==> |g.blocks| <= 1)
    && (g.outcome == Ok(Proceed) ==> g.blocks == [] && g.after.claims == s.claims)
    && (g.outcome.Ok? && g.outcome.value != Proceed
        ==> |g.blocks| == 1 && HeldBy(s, claim) && g.after.approvals == s.approvals
            && g.after.claims == s.claims[claim.issueId.value := ClaimBlob(Halted, claim, Some(ReleaseReason(g.blocks[0], "")))])
    && (g.outcome == Ok(Refused) ==> g.blocks[0] != AwaitingApproval)
  }

  lemma RefusalAccounted(s: Records, claim: Claim, code: ReasonCode, w: World, outcome: GateOutcome)
    requires outcome == PendingApproval || (outcome == Refused && code != AwaitingApproval)
    ensures Accounted(s, claim, Refuse(s, claim, code, w, outcome))
  {
  }

  lemma ApprovalGateAccounted(q: Inquiry, cfg: Config, claim: Claim, s: Records, w: World)
    ensures Accounted(s, claim, ApprovalGate(q, cfg, claim, s, w))
  {
    var g := ApprovalGate(q, cfg, claim, s, w);
    if g.blocks != [] {
      RefusalAccounted(s, claim, g.blocks[0], w, PendingApproval);
    }
  }

  /** Exactly one block call per refusal, none for a Proceed, at most one before an error. */
  lemma GateAccounted(c: Crypto, cfg: Config, claim: Claim, issue: Issue, s: Records, w: World)
    ensures Accounted(s, claim, DispatchGate(c, cfg, claim, issue, s, w))
  {
    var g := DispatchGate(c, cfg, claim, issue, s, w);
    if OnApprovalPath(cfg, issue, w) {
      assert g == ApprovalGate(InquiryOf(c, cfg, issue, w), cfg, claim, s, w);
      ApprovalGateAccounted(InquiryOf(c, cfg, issue, w), cfg, claim, s, w);
    } else if g.blocks != [] {
      RefusalAccounted(s, claim, g.blocks[0], w, Refused);
    }
  }

  /** The evidence could all be checked, and fell short of consent. */
  predicate FellShort(q: Inquiry, cfg: Config, st: ApprovalState, w: World) {
    cfg.verifierConfigured && AllGenuine(q.crypto, st.consumed, w.consumedAnswers) && AllCheckable(q, st, w.eventAnswers)
    && !Consented(q, cfg, st, w)
  }

  lemma ParkedCodeIff(q: Inquiry, cfg: Config, claim: Claim, s: Records, w: World)
    requires ApprovalGate(q, cfg, claim, s, w).outcome == Ok(PendingApproval)
    ensures ApprovalGate(q, cfg, claim, s, w).blocks == [AwaitingApproval] <==> FellShort(q, cfg, ApprovalsOf(s, q.issue.id), w)
  {
    var st := ApprovalsOf(s, q.issue.id);
    ConsumedFaultMeaning(q.crypto, st.consumed, w.consumedAnswers, |st.consumed|);
    FaultIsNotAwaiting(q.crypto, st.consumed, w.consumedAnswers, |st.consumed|);
    KeptMeaning(q, st, w.eventAnswers, |st.events|);
    if Kept(q, st, w.eventAnswers, |st.events|).Some? {
      KeptVerdicts(q, st, w.eventAnswers, |st.events|, Approve);
      KeptVerdicts(q, st, w.eventAnswers, |st.events|, Deny);
    }
  }

  /** A parked issue can be requeued exactly when all stored evidence was checked and fell short of consent. */
  lemma ParkedRequeueableIff(q: Inquiry, cfg: Config, claim: Claim, s: Records, w: World)
    requires ApprovalGate(q, cfg, claim, s, w).outcome == Ok(PendingApproval)
    ensures HeldBy(s, claim)
    ensures Requeueable(ApprovalGate(q, cfg, claim, s, w).after, claim.issueId.value)
            <==> FellShort(q, cfg, ApprovalsOf(s, q.issue.id), w)
  {
    ParkedCodeIff(q, cfg, claim, s, w);
    ApprovalGateAccounted(q, cfg, claim, s, w);
  }

  lemma {:induction false} FaultIsNotAwaiting(c: Crypto, consumed: seq<ApprovalConsumed>, answers: nat -> Answer, n: nat)
    requires n <= |consumed|
    ensures ConsumedFault(c, consumed, answers, n) != Some(AwaitingApproval)
  {
    if n > 0 {
      FaultIsNotAwaiting(c, consumed, answers, n - 1);
    }
  }
}
