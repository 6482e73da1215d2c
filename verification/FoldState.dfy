/** The state machine of a version-2 list: admitted events, in fold order, drive each issue. */
module FoldState {
  import opened Domain
  import opened FoldEvents

  datatype Status =
    | Free
    | Held(claimant: AgentId, nonce: string, claimHash: string)
    | Parked(claimant: AgentId, nonce: string, claimHash: string, blockHash: string, cause: BlockCause)
    | Finished(finisher: AgentId, completeHash: string)

  datatype Item = Item(title: string, spec: string, openedBy: AgentId, openHash: string, status: Status, applied: seq<string>)

  /** `spent` holds the winning consume of each approval hash. */
  datatype State = State(issues: map<IssueId, Item>, spent: map<string, Event>, lost: seq<Event>, handoffs: map<IssueId, seq<Event>>)

  const START := State(map[], map[], [], map[])

  /******* Transitions *******/

  predicate Fenced(issues: map<IssueId, Item>, id: IssueId, author: AgentId, nonce: string, claimHash: string) {
    id in issues && issues[id].status == Held(author, nonce, claimHash)
  }

  predicate IsTransition(act: Act) { !act.Approves? && !act.Consumes? && !act.HandsOff? }

  /** The status an effective transition gives its existing issue; `None` when it has no effect. */
  function Moved(issues: map<IssueId, Item>, e: Event): Option<Status>
    requires IsTransition(e.act) && !e.act.Opens?
  {
    var id := e.act.issueId;
    if id !in issues then None
    else match e.act
         case Claims(_, nonce) =>
           if issues[id].status == Free then Some(Held(e.author, nonce, e.hash)) else None
         case Releases(_, nonce, claimHash) =>
           if Fenced(issues, id, e.author, nonce, claimHash) then Some(Free) else None
         case Blocks(_, nonce, claimHash, cause) =>
           if Fenced(issues, id, e.author, nonce, claimHash) then Some(Parked(e.author, nonce, claimHash, e.hash, cause)) else None
         case Completes(_, nonce, claimHash) =>
           if Fenced(issues, id, e.author, nonce, claimHash) then Some(Finished(e.author, e.hash)) else None
         case Requeues(_, nonce, blockHash) =>
           var status := issues[id].status;
           if status.Parked? && status.cause == AwaitsApproval && status.blockHash == blockHash && status.nonce == nonce
           then Some(Free) else None
  }

  function ApplyTransition(issues: map<IssueId, Item>, e: Event): map<IssueId, Item>
    requires IsTransition(e.act)
  {
    var id := e.act.issueId;
    if e.act.Opens? then
      if id in issues then issues else issues[id := Item(e.act.title, e.act.spec, e.author, e.hash, Free, [e.hash])]
    else
      var moved := Moved(issues, e);
      if moved.None? then issues else issues[id := issues[id].(status := moved.value, applied := issues[id].applied + [e.hash])]
  }

  /******* Approvals and consumes *******/

  /** All approvals, whatever their position: a set, collected before the walk. */
  function Approvals(events: seq<Event>): map<string, Event> {
    if events == [] then map[]
    else
      var before, last := Approvals(events[..|events| - 1]), events[|events| - 1];
      if last.act.Approves? then before[last.hash := last] else before
  }

  /** `consume_effectiveness`: a named approval of this issue's content, consumed by the holder, not yet spent. */
  predicate Effective(approvals: map<string, Event>, s: State, e: Event)
    requires e.act.Consumes?
  {
    var a, id := e.act.approvalHash, e.act.issueId;
    && a in approvals && approvals[a].act.Approves?
    && approvals[a].act.issueId == id && approvals[a].author == e.act.approver && approvals[a].act.verdict == Approve
    && id in s.issues && approvals[a].act.openHash == s.issues[id].openHash
    && Fenced(s.issues, id, e.author, e.act.nonce, e.act.claimHash)
    && a !in s.spent
  }

  function Step(approvals: map<string, Event>, s: State, e: Event): State {
    match e.act
    case Approves(_, _, _) => s
    case Consumes(_, _, _, a, _) => if Effective(approvals, s, e) then s.(spent := s.spent[a := e]) else s.(lost := s.lost + [e])
    case HandsOff(id, nonce, claimHash) =>
      if !Fenced(s.issues, id, e.author, nonce, claimHash) then s
      else s.(handoffs := s.handoffs[id := (if id in s.handoffs then s.handoffs[id] else []) + [e]])
    case _ => s.(issues := ApplyTransition(s.issues, e))
  }

  /** The state after the first `n` events. */
  function At(approvals: map<string, Event>, events: seq<Event>, n: nat): State
    requires n <= |events|
  {
    if n == 0 then START else Step(approvals, At(approvals, events, n - 1), events[n - 1])
  }

  function Fold(events: seq<Event>): State { At(Approvals(events), events, |events|) }

  /** Phase 2 of the fold, with its collecting pass and its walk. */
  method RunStateMachine(events: seq<Event>) returns (state: State, approvals: map<string, Event>)
    ensures approvals == Approvals(events) && state == Fold(events)
  {
    approvals := map[];
    for i := 0 to |events|
      invariant approvals == Approvals(events[..i])
    {
      assert events[..i + 1][..i] == events[..i];
      if events[i].act.Approves? {
        approvals := approvals[events[i].hash := events[i]];
      }
    }
    assert events[..|events|] == events;
    var issues, spent, lost, handoffs := START.issues, START.spent, START.lost, START.handoffs;
    for i := 0 to |events|
      invariant State(issues, spent, lost, handoffs) == At(approvals, events, i)
    {
      var e := events[i];
      match e.act
      case Approves(_, _, _) =>
      case Consumes(_, _, _, a, _) =>
        if Effective(approvals, State(issues, spent, lost, handoffs), e) {
          spent := spent[a := e];
        } else {
          lost := lost + [e];
        }
      case HandsOff(id, nonce, claimHash) =>
        if Fenced(issues, id, e.author, nonce, claimHash) {
          var had := if id in handoffs then handoffs[id] else [];
          handoffs := handoffs[id := had + [e]];
        }
      case _ => issues := ApplyTransition(issues, e);
    }
    state := State(issues, spent, lost, handoffs);
  }

  /******* What every step keeps *******/

  /** The life of one status. */
  predicate MayBecome(a: Status, b: Status) {
    a == b || match a
              case Free => b.Held?
              case Held(claimant, nonce, claimHash) =>
                b.Free? || (b.Parked? && b.claimant == claimant && b.nonce == nonce && b.claimHash == claimHash)
                || (b.Finished? && b.finisher == claimant)
              case Parked(_, _, _, _, cause) => b.Free? && cause == AwaitsApproval
              case Finished(_, _) => false
  }

  /** Issues never vanish, their content never changes, their history only grows, their status moves legally. */
  ghost predicate Evolves(s: State, t: State) {
    forall id :: id in s.issues ==>
      && id in t.issues
      && t.issues[id].(status := s.issues[id].status, applied := s.issues[id].applied) == s.issues[id]
      && s.issues[id].applied <= t.issues[id].applied
      && (s.issues[id].status.Finished? ==> t.issues[id] == s.issues[id])
  }

  lemma MovedLegally(issues: map<IssueId, Item>, e: Event)
    requires IsTransition(e.act) && !e.act.Opens? && Moved(issues, e).Some?
    ensures e.act.issueId in issues
    ensures MayBecome(issues[e.act.issueId].status, Moved(issues, e).value) && !issues[e.act.issueId].status.Finished?
  {
  }

  lemma TransitionEvolves(s: State, e: Event)
    requires IsTransition(e.act)
    ensures var t := s.(issues := ApplyTransition(s.issues, e));
            Evolves(s, t) && forall id :: id in s.issues ==> MayBecome(s.issues[id].status, t.issues[id].status)
  {
    if !e.act.Opens? && Moved(s.issues, e).Some? {
      MovedLegally(s.issues, e);
    }
  }

  lemma StepEvolves(approvals: map<string, Event>, s: State, e: Event)
    ensures Evolves(s, Step(approvals, s, e))
    ensures forall id :: id in s.issues ==> MayBecome(s.issues[id].status, Step(approvals, s, e).issues[id].status)
  {
    if IsTransition(e.act) {
      TransitionEvolves(s, e);
    }
  }

  lemma StepSpends(approvals: map<string, Event>, s: State, e: Event)
    ensures var t := Step(approvals, s, e);
            forall a :: a in s.spent ==> a in t.spent && t.spent[a] == s.spent[a]
  {
  }

  /** Over every run: finished means finished, content is fixed at opening, and a winning consume stays. */
  lemma {:induction false} RunEvolves(approvals: map<string, Event>, events: seq<Event>, m: nat, n: nat)
    requires m <= n <= |events|
    ensures Evolves(At(approvals, events, m), At(approvals, events, n))
    ensures forall a :: a in At(approvals, events, m).spent
                        ==> a in At(approvals, events, n).spent && At(approvals, events, n).spent[a] == At(approvals, events, m).spent[a]
    decreases n - m
  {
    if m < n {
      RunEvolves(approvals, events, m, n - 1);
      StepEvolves(approvals, At(approvals, events, n - 1), events[n - 1]);
      StepSpends(approvals, At(approvals, events, n - 1), events[n - 1]);
      EvolvesOn(At(approvals, events, m), At(approvals, events, n - 1), At(approvals, events, n));
    }
  }

  lemma EvolvesOn(r: State, s: State, t: State)
    requires Evolves(r, s) && Evolves(s, t)
    ensures Evolves(r, t)
  {
    forall id | id in r.issues ensures id in t.issues {
      assert id in s.issues;
    }
  }

  /******* Fencing *******/

  /** The claim an issue is held under is the last event that changed it. */
  predicate Won(events: seq<Event>, n: nat, id: IssueId, item: Item)
    requires n <= |events|
  {
    item.applied != [] && match item.status
                          case Held(claimant, nonce, claimHash) =>
                            claimHash == item.applied[|item.applied| - 1] && ClaimedBy(events, n, id, claimant, nonce, claimHash)
                          case Parked(claimant, nonce, claimHash, blockHash, _) =>
                            blockHash == item.applied[|item.applied| - 1] && ClaimedBy(events, n, id, claimant, nonce, claimHash)
                          case _ => true
  }

  predicate ClaimedBy(events: seq<Event>, n: nat, id: IssueId, claimant: AgentId, nonce: string, claimHash: string)
    requires n <= |events|
  {
    exists k :: 0 <= k < n && events[k].act == Claims(id, nonce) && events[k].author == claimant && events[k].hash == claimHash
  }

  lemma ClaimedByLater(events: seq<Event>, n: nat, id: IssueId, item: Item)
    requires n < |events| && Won(events, n, id, item)
    ensures Won(events, n + 1, id, item)
  {
  }

  /** Whoever holds or parked an issue admitted the claim for it, under that very nonce and hash. */
  lemma {:induction false} HolderWonItsClaim(approvals: map<string, Event>, events: seq<Event>, n: nat, id: IssueId)
    requires n <= |events| && id in At(approvals, events, n).issues
    ensures Won(events, n, id, At(approvals, events, n).issues[id])
  {
    if n > 0 {
      var s, e := At(approvals, events, n - 1), events[n - 1];
      var t := At(approvals, events, n);
      if id in s.issues {
        HolderWonItsClaim(approvals, events, n - 1, id);
        ClaimedByLater(events, n - 1, id, s.issues[id]);
        if t.issues[id] != s.issues[id] {
          assert e.act.issueId == id;
          assert e.act.Claims? ==> ClaimedBy(events, n, id, e.author, e.act.nonce, e.hash);
        }
      }
    }
  }

  /******* Consent *******/

  /** Event `k` spends its approval. */
  predicate SpendsAt(approvals: map<string, Event>, events: seq<Event>, k: nat)
    requires k < |events|
  {
    events[k].act.Consumes? && Effective(approvals, At(approvals, events, k), events[k])
  }

  /** Over every run, at most one event ever spends an approval. */
  lemma EachApprovalSpentOnce(approvals: map<string, Event>, events: seq<Event>, i: nat, j: nat)
    requires i < j < |events| && SpendsAt(approvals, events, i) && SpendsAt(approvals, events, j)
    ensures events[i].act.approvalHash != events[j].act.approvalHash
  {
    RunEvolves(approvals, events, i + 1, j);
  }

  lemma SpendingStep(approvals: map<string, Event>, events: seq<Event>, k: nat, a: string)
    requires k < |events|
    ensures var s, t := At(approvals, events, k), At(approvals, events, k + 1);
            if SpendsAt(approvals, events, k) && events[k].act.approvalHash == a
            then a in t.spent && t.spent[a] == events[k]
            else (a in t.spent <==> a in s.spent) && (a in s.spent ==> t.spent[a] == s.spent[a])
  {
  }

  /** What is on record as spent was spent by an event of the run, the first that could, and by the holder of
      the issue's winning claim, under an approval of its content. */
  lemma {:induction false} SpentWasFenced(approvals: map<string, Event>, events: seq<Event>, n: nat, a: string)
    requires n <= |events|
    ensures a in At(approvals, events, n).spent
            <==> exists k :: 0 <= k < n && SpendsAt(approvals, events, k) && events[k].act.approvalHash == a
    ensures a in At(approvals, events, n).spent
            ==> exists k :: 0 <= k < n && SpendsAt(approvals, events, k) && events[k].act.approvalHash == a
                            && At(approvals, events, n).spent[a] == events[k]
  {
    if n > 0 {
      SpentWasFenced(approvals, events, n - 1, a);
      SpendingStep(approvals, events, n - 1, a);
    }
  }

  /** An approval the gate may still use: of this content, approving, unspent, and with no denial of the content. */
  predicate Unconsumed(approvals: map<string, Event>, s: State, id: IssueId, a: string) {
    && id in s.issues && a in approvals && Binds(approvals[a], id, s.issues[id].openHash, Approve) && a !in s.spent
    && forall d :: d in approvals ==> !Binds(approvals[d], id, s.issues[id].openHash, Deny)
  }

  predicate Binds(e: Event, id: IssueId, openHash: string, verdict: Verdict) {
    e.act == Approves(id, openHash, verdict)
  }

  lemma {:induction false} ApprovalsAreCollected(events: seq<Event>, k: nat)
    requires k < |events| && events[k].act.Approves?
    ensures events[k].hash in Approvals(events)
    ensures (forall i, j :: 0 <= i < |events| && 0 <= j < |events| && events[i].hash == events[j].hash ==> events[i] == events[j])
            ==> Approvals(events)[events[k].hash] == events[k]
  {
    var before := events[..|events| - 1];
    if k < |before| {
      ApprovalsAreCollected(before, k);
    }
  }

  /** A denial is final wherever it stands in the order, and a spent approval is never offered again. */
  lemma DenialAndSpendingAreFinal(events: seq<Event>, id: IssueId, a: string, k: nat)
    requires forall i, j :: 0 <= i < |events| && 0 <= j < |events| && events[i].hash == events[j].hash ==> events[i] == events[j]
    requires k < |events| && id in Fold(events).issues
    requires Binds(events[k], id, Fold(events).issues[id].openHash, Deny)
             || (SpendsAt(Approvals(events), events, k) && events[k].act.approvalHash == a)
    ensures !Unconsumed(Approvals(events), Fold(events), id, a)
  {
    if Binds(events[k], id, Fold(events).issues[id].openHash, Deny) {
      ApprovalsAreCollected(events, k);
    } else {
      SpentWasFenced(Approvals(events), events, |events|, a);
    }
  }
}
