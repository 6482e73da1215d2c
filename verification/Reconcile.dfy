/** Startup reconciliation: stale own claims are released, stale primaries are taken over.

The tracker holds one claim per issue, so no conflict arises here; see `Conflict` for duplicates.
 */
module Reconcile {
  import opened Domain
  import opened Tracker
  import Lifecycle
  import Freshness

  /** What the tracker answers when an issue is released and claimed again. */
  datatype Answers = Answers(release: PutAnswer, signing: Signing, stamp: Timestamp, box: PutAnswer, put: PutAnswer)

  /** One pass: who runs it, when, and the default TTL. */
  datatype Pass = Pass(agent: AgentId, now: int, defaultTtl: int)

  datatype Fate = Resume | Expire | TakeOver | LeaveAlone

  datatype Summary = Summary(resumed: nat, released: nat, takenOver: nat)

  const STALE_ON_STARTUP := ReleaseReason(ExpiredHeartbeat, "stale claim on startup")
  const STALE_PRIMARY := ReleaseReason(ExpiredHeartbeat, "stale primary heartbeat; backup taking over")

  function FetchClaimed(s: Records): set<IssueId> {
    set id | id in s.tasks && ActiveClaim(s, id).Some?
  }

  function ShardOf(s: Records, id: IssueId): Option<Shard> {
    if id in s.shards then Some(s.shards[id]) else None
  }

  function TtlOf(s: Records, p: Pass, id: IssueId): int {
    Freshness.IssueTtl(ShardOf(s, id), p.defaultTtl)
  }

  function Judge(s: Records, p: Pass, id: IssueId): Outcome<Fate>
    requires ActiveClaim(s, id).Some?
  {
    var claim, ttl := ActiveClaim(s, id).value, TtlOf(s, p, id);
    match Freshness.Classify(claim, p.agent, p.now, ttl)
    case Err => Err
    case Ok(FreshSelf) => Ok(Resume)
    case Ok(StaleSelf) => Ok(Expire)
    case Ok(Foreign) =>
      match Freshness.ShouldTakeOver(ShardOf(s, id), claim, p.agent, p.now, ttl)
      case Err => Err
      case Ok(takeOver) => Ok(if takeOver then TakeOver else LeaveAlone)
  }

  /** The claims among `ids` that meet this fate. */
  function JudgedIn(s: Records, p: Pass, ids: set<IssueId>, fate: Fate): set<IssueId> {
    set id | id in ids && ActiveClaim(s, id).Some? && Judge(s, p, id) == Ok(fate)
  }

  function Judged(s: Records, p: Pass, fate: Fate): set<IssueId> { JudgedIn(s, p, FetchClaimed(s), fate) }

  function TallyIn(s: Records, p: Pass, ids: set<IssueId>): Summary {
    Summary(|JudgedIn(s, p, ids, Resume)|, |JudgedIn(s, p, ids, Expire)|, |JudgedIn(s, p, ids, TakeOver)|)
  }

  function Tally(s: Records, p: Pass): Summary { TallyIn(s, p, FetchClaimed(s)) }

  function Count(summary: Summary, fate: Fate): Summary {
    match fate
    case Resume => summary.(resumed := summary.resumed + 1)
    case Expire => summary.(released := summary.released + 1)
    case TakeOver => summary.(takenOver := summary.takenOver + 1)
    case LeaveAlone => summary
  }

  lemma OneMoreJudged(s: Records, p: Pass, ids: set<IssueId>, id: IssueId, fate: Fate)
    requires id !in ids && ActiveClaim(s, id).Some?
    ensures |JudgedIn(s, p, ids + {id}, fate)|
            == |JudgedIn(s, p, ids, fate)| + if Judge(s, p, id) == Ok(fate) then 1 else 0
  {
    var was, now := JudgedIn(s, p, ids, fate), JudgedIn(s, p, ids + {id}, fate);
    assert id !in was && (id in now <==> Judge(s, p, id) == Ok(fate));
    assert forall x :: x != id ==> (x in now <==> x in was);
    if Judge(s, p, id) == Ok(fate) {
      assert now == was + {id};
    } else {
      assert now == was;
    }
  }

  lemma TallyGrows(s: Records, p: Pass, ids: set<IssueId>, id: IssueId)
    requires id !in ids && ActiveClaim(s, id).Some? && Judge(s, p, id).Ok?
    ensures TallyIn(s, p, ids + {id}) == Count(TallyIn(s, p, ids), Judge(s, p, id).value)
  {
    OneMoreJudged(s, p, ids, id, Resume);
    OneMoreJudged(s, p, ids, id, Expire);
    OneMoreJudged(s, p, ids, id, TakeOver);
  }

  /** The claim can be judged, and the writes its fate needs all go through. */
  predicate Succeeds(s: Records, self: AgentId, p: Pass, a: Answers, id: IssueId)
    requires ActiveClaim(s, id).Some?
  {
    && Judge(s, p, id).Ok?
    && (Judge(s, p, id).value in {Expire, TakeOver}
        ==> ActiveClaim(s, id).value.issueId.Some? && a.release == Stored)
    && (Judge(s, p, id).value == TakeOver
        ==> p.agent == self && a.signing.Ok? && a.box == Stored && a.put == Stored)
  }

  /** The claim blob an issue's fate leaves it with. */
  function FatedBlob(had: ClaimBlob, p: Pass, a: Answers, id: IssueId, fate: Fate): ClaimBlob
    requires fate == TakeOver ==> a.signing.Ok?
  {
    match fate
    case Expire => ClaimBlob(Released, had.claim, Some(STALE_ON_STARTUP))
    case TakeOver => ClaimBlob(Active, NewClaim(Some(id), p.agent, a.stamp, ManualM1).(signature := a.signing.value), None)
    case _ => had
  }

  /** The records of one issue once its claim has met its fate. */
  predicate Treated(s: Records, t: Records, p: Pass, a: Answers, id: IssueId) {
    if id !in FetchClaimed(s) then id in s.tasks && Lifecycle.SameRecords(s, t, id)
    else
      var fate := Judge(s, p, id);
      && fate.Ok? && (fate.value == TakeOver ==> a.signing.Ok?)
      && id in t.tasks && id in t.claims && id !in t.handoffs && t.shards == s.shards
      && t.tasks[id] == (if fate.value == TakeOver then Patched(s.tasks[id], ClaimTask, p.agent) else s.tasks[id])
      && t.claims[id] == FatedBlob(s.claims[id], p, a, id, fate.value)
  }

  /** What a successful pass leaves behind. */
  ghost predicate Reconciled(s: Records, t: Records, p: Pass, answers: IssueId -> Answers) {
    s.tasks.Keys == t.tasks.Keys && s.shards == t.shards && Readable(t)
    && forall id :: id in s.tasks ==> Treated(s, t, p, answers(id), id)
  }

  /** One claim of the pass: the tracker operations its fate calls for. */
  function ReconcileOp(s: Records, self: AgentId, p: Pass, a: Answers, id: IssueId): Op<Fate>
    requires ActiveClaim(s, id).Some?
  {
    var claim, fate := ActiveClaim(s, id).value, Judge(s, p, id);
    if fate == Ok(Expire) then
      var released := ReleaseOp(s, claim, STALE_ON_STARTUP, a.release);
      Op(if released.outcome.Ok? then fate else Err, released.after)
    else if fate == Ok(TakeOver) then
      var released := ReleaseOp(s, claim, STALE_PRIMARY, a.release);
      if released.outcome.Err? then Op(Err, released.after)
      else
        var claimed := ClaimOp(released.after, self, id, p.agent, a.stamp, a.signing, a.box, a.put);
        Op(if claimed.outcome.Ok? then fate else Err, claimed.after)
    else Op(fate, s)
  }

  method ReconcileClaim(t: KvTracker, p: Pass, a: Answers, id: IssueId) returns (r: Outcome<Fate>)
    requires ActiveClaim(t.Snapshot(), id).Some?
    modifies t
    ensures Op(r, t.Snapshot()) == ReconcileOp(old(t.Snapshot()), t.self, p, a, id)
  {
    var claim := ActiveClaim(t.Snapshot(), id).value;
    r := Judge(t.Snapshot(), p, id);
    if r == Ok(Expire) {
      var done := t.Release(claim, STALE_ON_STARTUP, a.release);
      if done.Err? {
        return Err;
      }
    } else if r == Ok(TakeOver) {
      var done := t.Release(claim, STALE_PRIMARY, a.release);
      if done.Err? {
        return Err;
      }
      var claimed := t.Claim(id, p.agent, a.stamp, a.signing, a.box, a.put);
      if claimed.Err? {
        return Err;
      }
    }
  }

  /** The tasks listed, the shards, and every record of other issues. */
  predicate OnlyTouches(s: Records, t: Records, id: IssueId) {
    s.tasks.Keys == t.tasks.Keys && s.shards == t.shards
    && forall other :: other in s.tasks && other != id ==> Lifecycle.SameRecords(s, t, other)
  }

  lemma ReleaseIsLocal(s: Records, claim: Claim, reason: ReleaseReason, put: PutAnswer, id: IssueId)
    requires !Misfiled(id, claim.issueId)
    ensures OnlyTouches(s, ReleaseOp(s, claim, reason, put).after, id)
  {
  }

  lemma PatchIsLocal(s: Records, id: IssueId, action: TaskAction, agent: AgentId, put: PutAnswer)
    ensures OnlyTouches(s, PatchTask(s, id, action, agent, put), id)
  {
  }

  lemma PutClaimIsLocal(s: Records, t: Records, id: IssueId, blob: ClaimBlob, put: PutAnswer)
    requires OnlyTouches(s, t, id)
    ensures OnlyTouches(s, PutClaim(t, id, blob, put), id)
  {
    var u := PutClaim(t, id, blob, put);
    forall other | other in s.tasks && other != id ensures Lifecycle.SameRecords(s, u, other) {
      assert Lifecycle.SameRecords(s, t, other);
    }
  }

  lemma ClaimIsLocal(s: Records, self: AgentId, id: IssueId, agent: AgentId, a: Answers)
    ensures OnlyTouches(s, ClaimOp(s, self, id, agent, a.stamp, a.signing, a.box, a.put).after, id)
  {
    if Claimable(s, self, id, agent) && a.signing.Ok? {
      var claim := NewClaim(Some(id), agent, a.stamp, ManualM1).(signature := a.signing.value);
      PatchIsLocal(s, id, ClaimTask, self, a.box);
      PutClaimIsLocal(s, PatchTask(s, id, ClaimTask, self, a.box), id, ClaimBlob(Active, claim, None), a.put);
    } else {
      assert OnlyTouches(s, s, id);
    }
  }

  lemma OpIsLocal(s: Records, self: AgentId, p: Pass, a: Answers, id: IssueId)
    requires Readable(s) && id in FetchClaimed(s)
    ensures OnlyTouches(s, ReconcileOp(s, self, p, a, id).after, id)
  {
    assert WellFiled(s, id);
    var claim := ActiveClaim(s, id).value;
    ReleaseIsLocal(s, claim, STALE_ON_STARTUP, a.release, id);
    ReleaseIsLocal(s, claim, STALE_PRIMARY, a.release, id);
    ClaimIsLocal(ReleaseOp(s, claim, STALE_PRIMARY, a.release).after, self, id, p.agent, a);
  }

  lemma OpTreats(s: Records, self: AgentId, p: Pass, a: Answers, id: IssueId)
    requires Readable(s) && id in FetchClaimed(s)
    ensures var op := ReconcileOp(s, self, p, a, id);
            && (op.outcome.Ok? <==> Succeeds(s, self, p, a, id))
            && (op.outcome.Ok? ==> op.outcome == Judge(s, p, id) && Treated(s, op.after, p, a, id) && WellFiled(op.after, id))
  {
    assert WellFiled(s, id);
    if Judge(s, p, id) == Ok(TakeOver) && ActiveClaim(s, id).value.issueId.Some? && a.release == Stored {
      var released := ReleaseOp(s, ActiveClaim(s, id).value, STALE_PRIMARY, a.release).after;
      ReleaseIsLocal(s, ActiveClaim(s, id).value, STALE_PRIMARY, a.release, id);
      StillReadable(s, released, id);
      assert Claimable(released, self, id, p.agent) <==> p.agent == self;
    }
  }

  lemma StillReadable(s: Records, t: Records, id: IssueId)
    requires Readable(s) && OnlyTouches(s, t, id) && WellFiled(t, id)
    ensures Readable(t)
  {
  }

  /** Halfway through a pass: claims in `todo` are as they were, the others have met their fate. */
  ghost predicate Underway(s: Records, t: Records, self: AgentId, p: Pass, answers: IssueId -> Answers, todo: set<IssueId>) {
    s.tasks.Keys == t.tasks.Keys && s.shards == t.shards && Readable(t) && todo <= FetchClaimed(s)
    && (forall id :: id in todo ==> Lifecycle.SameRecords(s, t, id))
    && (forall id :: id in s.tasks && id !in todo ==> Treated(s, t, p, answers(id), id))
    && (forall id :: id in FetchClaimed(s) && id !in todo ==> Succeeds(s, self, p, answers(id), id))
  }

  /** One more claim meets its fate, as the first state judged it. */
  lemma StillUnderway(s: Records, t: Records, self: AgentId, p: Pass, answers: IssueId -> Answers,
                      todo: set<IssueId>, id: IssueId)
    requires Underway(s, t, self, p, answers, todo) && id in todo
    ensures id in FetchClaimed(s) && id in FetchClaimed(t)
    ensures var op := ReconcileOp(t, self, p, answers(id), id);
            && (op.outcome.Ok? <==> Succeeds(s, self, p, answers(id), id))
            && (op.outcome.Ok? ==> op.outcome == Judge(s, p, id) && Underway(s, op.after, self, p, answers, todo - {id}))
  {
    var op := (JudgedAlike(s, t, p, id); ReconcileOp(t, self, p, answers(id), id));
    OpTreats(t, self, p, answers(id), id);
    OpIsLocal(t, self, p, answers(id), id);
    if op.outcome.Ok? {
      StillReadable(t, op.after, id);
      TreatedAlike(s, t, op.after, p, answers(id), id);
      forall other | other in s.tasks && other !in todo ensures Treated(s, op.after, p, answers(other), other) {
        StaysTreated(s, t, op.after, p, answers(other), other);
      }
    }
  }

  /** The loop of the pass: what is counted so far is what has been judged so far. */
  ghost predicate Progress(s: Records, t: Records, self: AgentId, p: Pass, answers: IssueId -> Answers,
                           todo: set<IssueId>, summary: Summary) {
    Underway(s, t, self, p, answers, todo) && summary == TallyIn(s, p, FetchClaimed(s) - todo)
  }

  ghost predicate AllSucceed(s: Records, self: AgentId, p: Pass, answers: IssueId -> Answers) {
    Readable(s) && forall id :: id in FetchClaimed(s) ==> Succeeds(s, self, p, answers(id), id)
  }

  lemma Begins(s: Records, self: AgentId, p: Pass, answers: IssueId -> Answers)
    requires Readable(s)
    ensures Progress(s, s, self, p, answers, FetchClaimed(s), Summary(0, 0, 0))
  {
  }

  lemma Proceeds(s: Records, t: Records, self: AgentId, p: Pass, answers: IssueId -> Answers,
                 todo: set<IssueId>, summary: Summary, id: IssueId)
    requires Progress(s, t, self, p, answers, todo, summary) && id in todo
    ensures ActiveClaim(t, id).Some?
    ensures var op := ReconcileOp(t, self, p, answers(id), id);
            if op.outcome.Ok? then Progress(s, op.after, self, p, answers, todo - {id}, Count(summary, op.outcome.value))
            else !AllSucceed(s, self, p, answers)
  {
    StillUnderway(s, t, self, p, answers, todo, id);
    if Judge(s, p, id).Ok? {
      TallyGrows(s, p, FetchClaimed(s) - todo, id);
      assert FetchClaimed(s) - (todo - {id}) == FetchClaimed(s) - todo + {id};
    }
  }

  lemma Finishes(s: Records, t: Records, self: AgentId, p: Pass, answers: IssueId -> Answers, summary: Summary)
    requires Readable(s) && Progress(s, t, self, p, answers, {}, summary)
    ensures AllSucceed(s, self, p, answers) && Reconciled(s, t, p, answers) && summary == Tally(s, p)
  {
    assert FetchClaimed(s) - {} == FetchClaimed(s);
  }

  /** The whole pass, in any order over the claimed issues. */
  method Reconcile(t: KvTracker, p: Pass, answers: IssueId -> Answers) returns (r: Outcome<Summary>)
    modifies t
    ensures r.Ok? <==> AllSucceed(old(t.Snapshot()), t.self, p, answers)
    ensures r.Ok? ==> r.value == Tally(old(t.Snapshot()), p)
                      && Reconciled(old(t.Snapshot()), t.Snapshot(), p, answers)
  {
    if !Readable(t.Snapshot()) {
      return Err;
    }
    ghost var s := t.Snapshot();
    var todo := FetchClaimed(t.Snapshot());
    var summary := Summary(0, 0, 0);
    Begins(s, t.self, p, answers);
    while todo != {}
      invariant Progress(s, t.Snapshot(), t.self, p, answers, todo, summary)
    {
      var id :| id in todo;
      Proceeds(s, t.Snapshot(), t.self, p, answers, todo, summary, id);
      var fate := ReconcileClaim(t, p, answers(id), id);
      if fate.Err? {
        return Err;
      }
      todo := todo - {id};
      summary := Count(summary, fate.value);
    }
    Finishes(s, t.Snapshot(), t.self, p, answers, summary);
    r := Ok(summary);
  }

  lemma JudgedAlike(s: Records, t: Records, p: Pass, id: IssueId)
    requires Lifecycle.SameRecords(s, t, id)
    ensures id in FetchClaimed(s) <==> id in FetchClaimed(t)
    ensures ActiveClaim(s, id) == ActiveClaim(t, id)
    ensures ActiveClaim(s, id).Some? ==> Judge(s, p, id) == Judge(t, p, id)
  {
  }

  lemma TreatedAlike(s: Records, before: Records, after: Records, p: Pass, a: Answers, id: IssueId)
    requires Lifecycle.SameRecords(s, before, id) && Treated(before, after, p, a, id)
    ensures Treated(s, after, p, a, id)
  {
    JudgedAlike(s, before, p, id);
  }

  lemma StaysTreated(s: Records, before: Records, after: Records, p: Pass, a: Answers, id: IssueId)
    requires Treated(s, before, p, a, id) && Lifecycle.SameRecords(before, after, id)
    ensures Treated(s, after, p, a, id)
  {
  }

  /******* Idempotence *******/

  /** A takeover stamped within its own TTL of this instant. */
  predicate StampIsFresh(s: Records, p: Pass, a: Answers, id: IssueId)
    requires a.stamp.instant.Some?
  {
    p.now - a.stamp.instant.value < TtlOf(s, p, id)
  }

  /** How a treated claim looks to the next pass at the same instant. */
  lemma SecondLook(s: Records, t: Records, p: Pass, a: Answers, id: IssueId)
    requires id in s.tasks && Treated(s, t, p, a, id) && (id in Judged(s, p, TakeOver) ==> a.stamp.instant.Some?)
    ensures id in FetchClaimed(t) <==> id in FetchClaimed(s) && Judge(s, p, id) != Ok(Expire)
    ensures id in FetchClaimed(t) && Judge(s, p, id) != Ok(TakeOver) ==> Judge(t, p, id) == Judge(s, p, id)
    ensures id in FetchClaimed(t) && Judge(s, p, id) == Ok(TakeOver)
            ==> Judge(t, p, id) == Ok(if StampIsFresh(s, p, a, id) then Resume else Expire)
  {
    if id !in FetchClaimed(s) || Judge(s, p, id) in {Ok(Resume), Ok(LeaveAlone)} {
      JudgedAlike(s, t, p, id);
    }
  }

  /** The second pass's verdicts, in terms of the first's. */
  lemma SecondVerdicts(s: Records, t: Records, p: Pass, answers: IssueId -> Answers)
    requires Reconciled(s, t, p, answers)
    requires forall id :: id in Judged(s, p, TakeOver) ==> answers(id).stamp.instant.Some?
    ensures forall id :: id in Judged(t, p, Expire)
                         <==> id in Judged(s, p, TakeOver) && !StampIsFresh(s, p, answers(id), id)
    ensures forall id :: id in Judged(t, p, Resume)
                         <==> id in Judged(s, p, Resume) || (id in Judged(s, p, TakeOver) && StampIsFresh(s, p, answers(id), id))
    ensures Judged(t, p, TakeOver) == {}
    ensures forall id :: id in FetchClaimed(t) ==> Judge(t, p, id).Ok?
  {
    forall id | id in s.tasks
      ensures id in FetchClaimed(t) <==> id in FetchClaimed(s) && Judge(s, p, id) != Ok(Expire)
      ensures id in FetchClaimed(t) && Judge(s, p, id) != Ok(TakeOver) ==> Judge(t, p, id) == Judge(s, p, id)
      ensures id in FetchClaimed(t) && Judge(s, p, id) == Ok(TakeOver)
              ==> Judge(t, p, id) == Ok(if StampIsFresh(s, p, answers(id), id) then Resume else Expire)
      ensures id in FetchClaimed(s) ==> Judge(s, p, id).Ok?
    {
      assert Treated(s, t, p, answers(id), id);
      SecondLook(s, t, p, answers(id), id);
    }
  }

  /** A second pass at the same instant releases and takes over nothing, exactly when every takeover
      was stamped within its TTL; it then succeeds whatever the tracker answers, and resumes what the
      first pass resumed or took over. */
  lemma ReconcileIsIdempotentIff(s: Records, t: Records, self: AgentId, p: Pass,
                                 answers: IssueId -> Answers, again: IssueId -> Answers)
    requires Reconciled(s, t, p, answers)
    requires forall id :: id in Judged(s, p, TakeOver) ==> answers(id).stamp.instant.Some?
    ensures Tally(t, p).released == 0 && Tally(t, p).takenOver == 0
            <==> forall id :: id in Judged(s, p, TakeOver) ==> StampIsFresh(s, p, answers(id), id)
    ensures Tally(t, p).released == 0 && Tally(t, p).takenOver == 0
            ==> && Tally(t, p).resumed == Tally(s, p).resumed + Tally(s, p).takenOver
                && forall id :: id in FetchClaimed(t) ==> Succeeds(t, self, p, again(id), id)
  {
    SecondVerdicts(s, t, p, answers);
    if Judged(t, p, Expire) == {} {
      ResumedAddUp(s, t, p);
      NothingToWrite(t, self, p, again);
    } else {
      var id :| id in Judged(t, p, Expire);
      assert !StampIsFresh(s, p, answers(id), id);
    }
  }

  lemma ResumedAddUp(s: Records, t: Records, p: Pass)
    requires forall id :: id in Judged(t, p, Resume) <==> id in Judged(s, p, Resume) || id in Judged(s, p, TakeOver)
    ensures |Judged(t, p, Resume)| == |Judged(s, p, Resume)| + |Judged(s, p, TakeOver)|
  {
    assert Judged(t, p, Resume) == Judged(s, p, Resume) + Judged(s, p, TakeOver);
    assert Judged(s, p, Resume) !! Judged(s, p, TakeOver);
  }

  /** Judged without a release or a takeover, a pass cannot fail. */
  lemma NothingToWrite(t: Records, self: AgentId, p: Pass, again: IssueId -> Answers)
    requires Judged(t, p, Expire) == {} && Judged(t, p, TakeOver) == {}
    requires forall id :: id in FetchClaimed(t) ==> Judge(t, p, id).Ok?
    ensures forall id :: id in FetchClaimed(t) ==> Succeeds(t, self, p, again(id), id)
  {
    forall id | id in FetchClaimed(t) ensures Succeeds(t, self, p, again(id), id) {
      assert id !in Judged(t, p, Expire) && id !in Judged(t, p, TakeOver);
    }
  }

  /** With the stamp taken at that instant, positive TTLs suffice. */
  lemma PositiveTtlsMakeItIdempotent(s: Records, t: Records, p: Pass, answers: IssueId -> Answers)
    requires Reconciled(s, t, p, answers)
    requires forall id :: id in Judged(s, p, TakeOver) ==> answers(id).stamp.instant == Some(p.now) && TtlOf(s, p, id) > 0
    ensures Tally(t, p) == Summary(Tally(s, p).resumed + Tally(s, p).takenOver, 0, 0)
  {
    ReconcileIsIdempotentIff(s, t, p.agent, p, answers, answers);
  }

  /******* Which cases the adapter's own claims reach *******/

  /** Takeover needs a claim in the primary role, which this adapter never writes. */
  lemma ManualClaimsAreNotTakenOver(s: Records, p: Pass)
    requires Lifecycle.Manual(s)
    ensures Judged(s, p, TakeOver) == {}
  {
  }

  /** So on every store its runs reach, a second pass at the same instant changes nothing, whatever the
      TTLs, stamps and answers. */
  lemma AdapterRunsReconcileOnce(s: Records, run: seq<Lifecycle.Turn>, t: Records, p: Pass, answers: IssueId -> Answers)
    requires Lifecycle.Manual(s) && forall i :: 0 <= i < |run| ==> Lifecycle.CarriesManual(run[i].step)
    requires Reconciled(Lifecycle.After(s, run), t, p, answers)
    ensures Tally(Lifecycle.After(s, run), p).takenOver == 0
    ensures Tally(t, p) == Summary(Tally(Lifecycle.After(s, run), p).resumed, 0, 0)
  {
    Lifecycle.RunKeepsManual(s, run);
    ManualClaimsAreNotTakenOver(Lifecycle.After(s, run), p);
    ReconcileIsIdempotentIff(Lifecycle.After(s, run), t, p.agent, p, answers, answers);
  }

  /** A store another writer could leave: a primary's claim under a zero TTL is taken over by the first
      pass and given up by the second. */
  lemma ZeroTtlRepeats(answers: IssueId -> Answers)
    returns (s: Records, t: Records, p: Pass)
    requires answers("i").stamp.instant == Some(0) && answers("i").signing.Ok?
    ensures Reconciled(s, t, p, answers)
    ensures Tally(s, p) == Summary(0, 0, 1) && Tally(t, p) == Summary(0, 1, 0)
  {
    var held := Claim(Some("i"), "p", Timestamp("", Some(0)), Timestamp("", Some(0)), Primary, None);
    var claim := NewClaim(Some("i"), "b", answers("i").stamp, ManualM1).(signature := answers("i").signing.value);
    var task := TaskEntry("", "", ClaimedBox(Some("p")), Some("p"));
    s := Records(map["i" := task], map["i" := ClaimBlob(Active, held, None)], map[], map["i" := Shard("p", ["b"], 0, 0)], map[]);
    p := Pass("b", 0, 0);
    t := s.(tasks := map["i" := Patched(task, ClaimTask, "b")], claims := map["i" := ClaimBlob(Active, claim, None)]);
    Freshness.TakeoverIff(ShardOf(s, "i"), held, "b", 0, 0);
    assert FetchClaimed(s) == {"i"} && FetchClaimed(t) == {"i"};
    assert Judge(s, p, "i") == Ok(TakeOver) && Judge(t, p, "i") == Ok(Expire);
    assert Judged(s, p, TakeOver) == {"i"} && Judged(s, p, Resume) == {} && Judged(s, p, Expire) == {};
    assert Judged(t, p, TakeOver) == {} && Judged(t, p, Resume) == {} && Judged(t, p, Expire) == {"i"};
  }

  /******* What the claim loop makes of a kept claim *******/

  /** `claimable_for`: a free issue, or one this agent already holds freshly. */
  function ClaimableFor(s: Records, p: Pass, id: IssueId): Outcome<bool> {
    if ActiveClaim(s, id).None? then Ok(true)
    else match Freshness.Classify(ActiveClaim(s, id).value, p.agent, p.now, TtlOf(s, p, id))
         case Err => Err
         case Ok(stance) => Ok(stance == Freshness.FreshSelf)
  }

  /** A claim the pass keeps for resumption is offered to the claim loop, yet the tracker always refuses
      it; what the loop can win is exactly the free todo issues it is offered. */
  lemma ResumedIsOfferedButNeverGranted(s: Records, p: Pass, id: IssueId, now: Timestamp, signing: Signing, box: PutAnswer, put: PutAnswer)
    requires Readable(s) && id in s.tasks
    ensures id in Judged(s, p, Resume)
            ==> && ClaimableFor(s, p, id) == Ok(true)
                && ClaimOp(s, p.agent, id, p.agent, now, signing, box, put) == Op(Err, s)
    ensures ClaimableFor(s, p, id) == Ok(true) && ClaimOp(s, p.agent, id, p.agent, now, signing, Stored, Stored).outcome.Ok?
            <==> ActiveClaim(s, id).None? && StateOf(s, id) == Todo && signing.Ok?
  {
  }
}
