/** Consent over whole runs: each approval is spent at most once, and a denial stands.

A run interleaves gate evaluations by any number of daemons, each with its own configuration,
issue view and outside answers, with approval and consumption writes by anyone. One evaluation
(load, verify, consume) is one step.
 */
module Consent {
  import opened Domain
  import opened Approval
  import opened Tracker
  import opened Gate

  datatype Step =
    | Evaluate(cfg: Config, claim: Claim, issue: Issue, w: World)
    | RecordApproval(event: ApprovalEvent, put: PutAnswer)
    | RecordConsumed(consumed: ApprovalConsumed, put: PutAnswer)
    | OtherWrite(tasks: map<IssueId, TaskEntry>, claims: map<IssueId, ClaimBlob>, handoffs: map<IssueId, Handoff>)

  function Next(c: Crypto, s: Records, step: Step): Records {
    match step
    case Evaluate(cfg, claim, issue, w) => DispatchGate(c, cfg, claim, issue, s, w).after
    case RecordApproval(event, put) => StoreApprovalOp(s, event, put).after
    case RecordConsumed(consumed, put) => StoreConsumedOp(s, consumed, put).after
    case OtherWrite(tasks, claims, handoffs) => s.(tasks := tasks, claims := claims, handoffs := handoffs)
  }

  /** Records after the first `n` steps. */
  function At(c: Crypto, s: Records, run: seq<Step>, n: nat): Records
    requires n <= |run|
  {
    if n == 0 then s else Next(c, At(c, s, run, n - 1), run[n - 1])
  }

  /** Step `i` let its issue through on the strength of an approval. */
  predicate SpendsApproval(c: Crypto, s: Records, run: seq<Step>, i: nat)
    requires i < |run|
  {
    && run[i].Evaluate?
    && OnApprovalPath(run[i].cfg, run[i].issue, run[i].w)
    && DispatchGate(c, run[i].cfg, run[i].claim, run[i].issue, At(c, s, run, i), run[i].w).outcome == Ok(Proceed)
  }

  function StepInquiry(c: Crypto, step: Step): Inquiry
    requires step.Evaluate?
  {
    InquiryOf(c, step.cfg, step.issue, step.w)
  }

  /** The store is keyed by the issue id its events carry. */
  predicate Keyed(s: Records) {
    forall id :: id in s.approvals ==> EventsCarry(s.approvals[id], id)
  }

  predicate EventsCarry(st: ApprovalState, id: IssueId) {
    forall i :: 0 <= i < |st.events| ==> st.events[i].issueId == id
  }

  /** Approval blobs only grow at the end. */
  ghost predicate Grows(s: Records, t: Records) {
    forall id :: ApprovalsOf(s, id).events <= ApprovalsOf(t, id).events
                 && ApprovalsOf(s, id).consumed <= ApprovalsOf(t, id).consumed
  }

  lemma SameApprovalsGrow(s: Records, t: Records)
    requires t.approvals == s.approvals
    ensures Grows(s, t) && (Keyed(s) ==> Keyed(t))
  {
  }

  lemma ApprovalWriteGrows(s: Records, e: ApprovalEvent, put: PutAnswer)
    ensures var t := StoreApprovalOp(s, e, put).after; Grows(s, t) && (Keyed(s) ==> Keyed(t))
  {
  }

  lemma ConsumedWriteGrows(s: Records, r: ApprovalConsumed, put: PutAnswer)
    ensures var t := StoreConsumedOp(s, r, put).after; Grows(s, t) && (Keyed(s) ==> Keyed(t))
  {
  }

  /** A gate evaluation either leaves the approvals alone or appends the consumption it minted. */
  lemma GateAppends(c: Crypto, cfg: Config, claim: Claim, issue: Issue, s: Records, w: World)
    ensures var t := DispatchGate(c, cfg, claim, issue, s, w).after;
            var minted := MintConsumed(InquiryOf(c, cfg, issue, w), w);
            t.approvals == s.approvals || (minted.Ok? && t == StoreConsumedOp(s, minted.value, w.consumedPut).after)
  {
    var g := DispatchGate(c, cfg, claim, issue, s, w);
    if g.blocks != [] {
      assert BlockOp(s, claim, ReleaseReason(g.blocks[0], ""), w.blockPut).after.approvals == s.approvals;
    }
  }

  lemma StepGrows(c: Crypto, s: Records, step: Step)
    ensures var t := Next(c, s, step); Grows(s, t) && (Keyed(s) ==> Keyed(t))
  {
    match step
    case Evaluate(cfg, claim, issue, w) =>
      GateAppends(c, cfg, claim, issue, s, w);
      var minted := MintConsumed(InquiryOf(c, cfg, issue, w), w);
      if Next(c, s, step).approvals == s.approvals {
        SameApprovalsGrow(s, Next(c, s, step));
      } else {
        ConsumedWriteGrows(s, minted.value, w.consumedPut);
      }
    case RecordApproval(event, put) => ApprovalWriteGrows(s, event, put);
    case RecordConsumed(consumed, put) => ConsumedWriteGrows(s, consumed, put);
    case OtherWrite(_, _, _) => SameApprovalsGrow(s, Next(c, s, step));
  }

  lemma {:induction false} RunGrows(c: Crypto, s: Records, run: seq<Step>, m: nat, n: nat)
    requires m <= n <= |run|
    ensures Grows(At(c, s, run, m), At(c, s, run, n))
    ensures Keyed(s) ==> Keyed(At(c, s, run, n))
    decreases n
  {
    if n > 0 {
      StepGrows(c, At(c, s, run, n - 1), run[n - 1]);
      RunGrows(c, s, run, Min(m, n - 1), n - 1);
    }
  }

  /** A spend leaves its key on record. */
  lemma SpendIsRecorded(c: Crypto, s: Records, run: seq<Step>, i: nat, key: BindingKey)
    requires i < |run| && SpendsApproval(c, s, run, i) && key == InquiryKey(StepInquiry(c, run[i]))
    ensures Spent(key, ApprovalsOf(At(c, s, run, i + 1), key.issueId).consumed)
  {
    var q := StepInquiry(c, run[i]);
    var before := At(c, s, run, i);
    ApprovalGateProceedsIff(q, run[i].cfg, run[i].claim, before, run[i].w);
    var consumed := ApprovalsOf(At(c, s, run, i + 1), run[i].issue.id).consumed;
    assert consumed == ApprovalsOf(before, run[i].issue.id).consumed + [MintConsumed(q, run[i].w).value];
    assert ConsumedKey(consumed[|consumed| - 1]) == InquiryKey(q);
  }

  lemma SpentPersists(c: Crypto, s: Records, run: seq<Step>, m: nat, n: nat, key: BindingKey)
    requires m <= n <= |run| && Spent(key, ApprovalsOf(At(c, s, run, m), key.issueId).consumed)
    ensures Spent(key, ApprovalsOf(At(c, s, run, n), key.issueId).consumed)
  {
    RunGrows(c, s, run, m, n);
    var early, late := ApprovalsOf(At(c, s, run, m), key.issueId).consumed, ApprovalsOf(At(c, s, run, n), key.issueId).consumed;
    var k :| 0 <= k < |early| && ConsumedKey(early[k]) == key;
    assert late[k] == early[k];
  }

  /** With the key on record no approval stands, whatever the verifier says. */
  lemma SpentKeyHasNoConsent(q: Inquiry, cfg: Config, st: ApprovalState, w: World)
    requires EventsCarry(st, q.issue.id) && Spent(InquiryKey(q), st.consumed)
    ensures !Consented(q, cfg, st, w)
  {
  }

  lemma SpentKeyStopsStep(c: Crypto, s: Records, run: seq<Step>, j: nat, key: BindingKey)
    requires Keyed(s) && j < |run| && run[j].Evaluate? && key == InquiryKey(StepInquiry(c, run[j]))
    requires Spent(key, ApprovalsOf(At(c, s, run, j), key.issueId).consumed)
    ensures !SpendsApproval(c, s, run, j)
  {
    var q, before := StepInquiry(c, run[j]), At(c, s, run, j);
    RunGrows(c, s, run, 0, j);
    assert EventsCarry(ApprovalsOf(before, q.issue.id), q.issue.id);
    SpentKeyHasNoConsent(q, run[j].cfg, ApprovalsOf(before, q.issue.id), run[j].w);
    ApprovalGateProceedsIff(q, run[j].cfg, run[j].claim, before, run[j].w);
  }

  /** A key is on record after step `i`, and stops step `j`; or it is not, and step `i` did not spend it. */
  lemma SpentAtMostOnce(c: Crypto, s: Records, run: seq<Step>, i: nat, j: nat, key: BindingKey)
    requires Keyed(s) && i < j < |run| && run[i].Evaluate? && run[j].Evaluate?
    requires key == InquiryKey(StepInquiry(c, run[i])) && key == InquiryKey(StepInquiry(c, run[j]))
    ensures !SpendsApproval(c, s, run, i) || !SpendsApproval(c, s, run, j)
  {
    if Spent(key, ApprovalsOf(At(c, s, run, i + 1), key.issueId).consumed) {
      SpentPersists(c, s, run, i + 1, j, key);
      SpentKeyStopsStep(c, s, run, j, key);
    } else if SpendsApproval(c, s, run, i) {
      SpendIsRecorded(c, s, run, i, key);
    }
  }

  /** Over every run, two approval-path Proceeds never share issue, payload and signer. */
  lemma EachApprovalIsSpentOnce(c: Crypto, s: Records, run: seq<Step>, i: nat, j: nat)
    requires Keyed(s) && i < j < |run|
    requires SpendsApproval(c, s, run, i) && SpendsApproval(c, s, run, j)
    ensures InquiryKey(StepInquiry(c, run[i])) != InquiryKey(StepInquiry(c, run[j]))
  {
    if InquiryKey(StepInquiry(c, run[i])) == InquiryKey(StepInquiry(c, run[j])) {
      SpentAtMostOnce(c, s, run, i, j, InquiryKey(StepInquiry(c, run[i])));
    }
  }

  /** A stored denial stops every later evaluation of its payload and signer that does not call it forged. */
  lemma DenialStands(c: Crypto, s: Records, run: seq<Step>, i: nat, p: nat, j: nat)
    requires i <= j < |run|
    requires run[j].Evaluate?
    requires var q := StepInquiry(c, run[j]);
             var events := ApprovalsOf(At(c, s, run, i), q.issue.id).events;
             && p < |events| && events[p].verdict == Deny && EventEnvelopeConsistent(c, events[p])
             && events[p].contentHash == ContentHash(c, q.issue) && events[p].signer == q.signer
             && CheckEvent(c, events[p], run[j].w.eventAnswers(p)) != Forged
    ensures !SpendsApproval(c, s, run, j)
  {
    var q, before := StepInquiry(c, run[j]), At(c, s, run, j);
    var st := ApprovalsOf(before, q.issue.id);
    RunGrows(c, s, run, i, j);
    assert st.events[p] == ApprovalsOf(At(c, s, run, i), q.issue.id).events[p];
    assert IsValid(q, st.events[p], st.consumed) == Valid;
    DenialOpposes(q, run[j].cfg, st, run[j].w, p);
    ApprovalGateProceedsIff(q, run[j].cfg, run[j].claim, before, run[j].w);
  }

  /** A valid denial that is not called forged stands, or cannot be checked; there is no consent either way. */
  lemma DenialOpposes(q: Inquiry, cfg: Config, st: ApprovalState, w: World, p: nat)
    requires p < |st.events| && st.events[p].verdict == Deny && IsValid(q, st.events[p], st.consumed) == Valid
    requires CheckEvent(q.crypto, st.events[p], w.eventAnswers(p)) != Forged
    ensures !Consented(q, cfg, st, w)
  {
    assert Counts(q, st, w.eventAnswers, p) || Uncheckable(q, st, w.eventAnswers, p);
  }

  /******* When one approval can be used again *******/

  /** A standing approval that carries another issue's id: validity never compares ids. */
  predicate Misfiled(q: Inquiry, st: ApprovalState, answers: nat -> Answer) {
    exists i :: 0 <= i < |st.events| && st.events[i].verdict == Approve && st.events[i].issueId != q.issue.id
                && Counts(q, st, answers, i)
  }

  function Spending(st: ApprovalState, r: ApprovalConsumed): ApprovalState {
    st.(consumed := st.consumed + [r])
  }

  /** The same answers as before, and `a` for the record that was new at position `n`. */
  function Later(w: World, n: nat, a: Answer): World {
    w.(consumedAnswers := (k: nat) => if k == n then a else w.consumedAnswers(k))
  }

  lemma CountsAfterSpending(q: Inquiry, st: ApprovalState, answers: nat -> Answer, i: nat, r: ApprovalConsumed)
    requires i < |st.events| && ConsumedKey(r) == InquiryKey(q)
    ensures Counts(q, Spending(st, r), answers, i)
            <==> Counts(q, st, answers, i) && (st.events[i].verdict == Deny || st.events[i].issueId != q.issue.id)
  {
    SpendingSilencesOnlyApprovals(q, st.events[i], st.consumed, r);
  }

  /** Approvals stand after a spend exactly if they are misfiled; denials stand as they did. */
  lemma StandingAfterSpending(q: Inquiry, st: ApprovalState, answers: nat -> Answer, r: ApprovalConsumed)
    requires ConsumedKey(r) == InquiryKey(q)
    ensures Standing(q, Spending(st, r), answers, Approve) <==> Misfiled(q, st, answers)
    ensures Standing(q, Spending(st, r), answers, Deny) <==> Standing(q, st, answers, Deny)
  {
    forall i | 0 <= i < |st.events|
      ensures Counts(q, Spending(st, r), answers, i)
              <==> Counts(q, st, answers, i) && (st.events[i].verdict == Deny || st.events[i].issueId != q.issue.id)
    {
      CountsAfterSpending(q, st, answers, i, r);
    }
  }

  lemma ConsentAfterSpending(q: Inquiry, cfg: Config, st: ApprovalState, w: World, r: ApprovalConsumed, a: Answer)
    requires Consented(q, cfg, st, w) && ConsumedKey(r) == InquiryKey(q)
    requires CheckConsumed(q.crypto, r, a) == Genuine
    ensures Consented(q, cfg, Spending(st, r), Later(w, |st.consumed|, a)) <==> Misfiled(q, st, w.eventAnswers)
  {
    var later, more := Later(w, |st.consumed|, a), Spending(st, r);
    StandingAfterSpending(q, st, w.eventAnswers, r);
    forall i | 0 <= i < |more.consumed| ensures CheckConsumed(q.crypto, more.consumed[i], later.consumedAnswers(i)) == Genuine {
    }
    forall i | 0 <= i < |more.events| ensures !Uncheckable(q, more, later.eventAnswers, i) {
      assert !Uncheckable(q, st, w.eventAnswers, i);
      SpendingSilencesOnlyApprovals(q, st.events[i], st.consumed, r);
    }
  }

  /** Once the gate has let an issue through on an approval, the same evaluation lets it through again
      exactly when a misfiled approval stood: single use needs the keyed store, and only that. */
  lemma SecondProceedIff(c: Crypto, cfg: Config, claim: Claim, issue: Issue, s: Records, w: World, a: Answer)
    requires OnApprovalPath(cfg, issue, w)
    requires DispatchGate(c, cfg, claim, issue, s, w).outcome == Ok(Proceed)
    requires c.decode(w.sign.signature).Some? && a.resolve.Resolved? && a.client == Said(Genuine)
    ensures var st := ApprovalsOf(s, issue.id);
            DispatchGate(c, cfg, claim, issue, DispatchGate(c, cfg, claim, issue, s, w).after, Later(w, |st.consumed|, a)).outcome
              == Ok(Proceed)
            <==> Misfiled(InquiryOf(c, cfg, issue, w), st, w.eventAnswers)
  {
    var q, st := InquiryOf(c, cfg, issue, w), ApprovalsOf(s, issue.id);
    var later := Later(w, |st.consumed|, a);
    ApprovalGateProceedsIff(q, cfg, claim, s, w);
    var minted := MintConsumed(q, w).value;
    var t := StoreConsumedOp(s, minted, Stored).after;
    assert ApprovalsOf(t, issue.id) == Spending(st, minted);
    ConsentAfterSpending(q, cfg, st, w, minted, a);
    ApprovalGateProceedsIff(q, cfg, claim, t, later);
    assert InquiryOf(c, cfg, issue, later) == q && MintConsumed(q, later) == MintConsumed(q, w);
  }

  lemma MisfiledWitness() returns (c: Crypto, cfg: Config, issue: Issue, s: Records, w: World)
    ensures OnApprovalPath(cfg, issue, w) && w.sign.Signed? && c.decode(w.sign.signature).Some?
    ensures var q := InquiryOf(c, cfg, issue, w);
            && Consented(q, cfg, ApprovalsOf(s, issue.id), w) && MintConsumed(q, w).Ok? && w.consumedPut == Stored
            && Misfiled(q, ApprovalsOf(s, issue.id), w.eventAnswers)
  {
    var now, genuine := Timestamp("", Some(0)), Answer(Resolved([]), Said(Genuine));
    c := Crypto(_ => "h", _ => "h", _ => "h", _ => Some([]));
    cfg := Config("a", OnApproval, KnownAgent, 0, true);
    issue := Issue("i", "", "", InProgress, None, None, None, map[], Some(Verified("b")));
    var e := ApprovalEvent("j", "h", "b", Approve, now, "o", None,
                           Some(Envelope(SIGN_ALGORITHM, APPROVAL_CONTEXT, "", "", "h", "o")));
    s := Records(map[], map[], map[], map[], map["i" := ApprovalState([e], [])]);
    w := World(Ok(KnownAgent), true, now, _ => genuine, _ => genuine,
               Signed(SIGN_ALGORITHM, APPROVAL_CONSUMED_CONTEXT, "", "", "a"), "", Stored, Stored);
    assert SignerOf(issue) == "b";
    assert Counts(InquiryOf(c, cfg, issue, w), ApprovalsOf(s, "i"), w.eventAnswers, 0);
  }

  /** Such a store exists: one approval for issue "j", filed under issue "i", dispatches "i" twice. */
  lemma MisfiledApprovalIsSpentTwice(claim: Claim)
    returns (c: Crypto, cfg: Config, issue: Issue, s: Records, first: World, second: World)
    ensures OnApprovalPath(cfg, issue, first) && OnApprovalPath(cfg, issue, second)
    ensures var once := DispatchGate(c, cfg, claim, issue, s, first);
            once.outcome == Ok(Proceed) && DispatchGate(c, cfg, claim, issue, once.after, second).outcome == Ok(Proceed)
  {
    c, cfg, issue, s, first := MisfiledWitness();
    var a := Answer(Resolved([]), Said(Genuine));
    second := Later(first, |ApprovalsOf(s, issue.id).consumed|, a);
    DispatchProceedsIff(c, cfg, claim, issue, s, first);
    SecondProceedIff(c, cfg, claim, issue, s, first, a);
  }
}
