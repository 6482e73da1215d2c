/** The gossip view of live workers and the epoch that names its membership. */
module Workers {
  import opened Domain
  import opened Gate

  datatype WorkerCard = WorkerCard(
    schemaVersion: nat, agentId: AgentId, issuedAt: Timestamp, ttlSeconds: nat, details: Json, signature: Option<Envelope>)

  const SCHEMA_VERSION: nat := 1
  const WORKER_CARD_CONTEXT := "x0x-symphony-worker-card-v1"
  const NANOS_PER_SECOND: nat := 1_000_000_000

  /** Unparsable times and spans too long for the time library fail closed. */
  predicate IsExpired(card: WorkerCard, now: Timestamp) {
    card.issuedAt.instant.None? || now.instant.None? || card.ttlSeconds * NANOS_PER_SECOND > CHRONO_MAX_NANOS
    || now.instant.value >= card.issuedAt.instant.value + card.ttlSeconds * NANOS_PER_SECOND
  }

  datatype Codec = Codec(digest: WorkerCard -> string, decode: string -> Option<Bytes>)

  /** Digests are taken of the card without its signature. */
  predicate EnvelopeIsConsistent(o: Codec, card: WorkerCard) {
    card.signature.Some?
    && card.signature.value.algorithm == SIGN_ALGORITHM
    && card.signature.value.context == WORKER_CARD_CONTEXT
    && card.signature.value.signer == card.agentId
    && o.digest(card.(signature := None)) == card.signature.value.payloadSha256
  }

  datatype Receipt = Inserted | Updated | DroppedInvalid | DroppedExpired

  /** `None` when the card may enter the view. */
  function Refusal(o: Codec, card: WorkerCard, now: Timestamp, a: Answer): Option<Receipt> {
    if card.schemaVersion != SCHEMA_VERSION then Some(DroppedInvalid)
    else if IsExpired(card, now) then Some(DroppedExpired)
    else if !EnvelopeIsConsistent(o, card) then Some(DroppedInvalid)
    else if !a.resolve.Resolved? then Some(DroppedInvalid)
    else if o.decode(card.signature.value.publicKey) != Some(a.resolve.key) then Some(DroppedInvalid)
    else if o.decode(card.signature.value.signature).None? then Some(DroppedInvalid)
    else if a.client == Said(Genuine) then None
    else Some(DroppedInvalid)
  }

  /** What it takes for a card from the network to enter the view. */
  lemma AdmittedIff(o: Codec, card: WorkerCard, now: Timestamp, a: Answer)
    ensures Refusal(o, card, now, a).None?
            <==> && card.schemaVersion == SCHEMA_VERSION
                 && !IsExpired(card, now)
                 && card.signature.Some?
                 && var sig := card.signature.value;
                    && sig.algorithm == SIGN_ALGORITHM && sig.context == WORKER_CARD_CONTEXT
                    && sig.signer == card.agentId && sig.payloadSha256 == o.digest(card.(signature := None))
                    && a.resolve.Resolved? && o.decode(sig.publicKey) == Some(a.resolve.key)
                    && o.decode(sig.signature).Some? && a.client == Said(Genuine)
  {
  }

  /******* The view as a value *******/

  datatype View = View(cards: map<AgentId, WorkerCard>, epoch: nat)

  function Bump(epoch: nat): nat { Min(epoch + 1, U64_MAX) }

  function Insert(v: View, card: WorkerCard): View {
    View(v.cards[card.agentId := card], if card.agentId in v.cards then v.epoch else Bump(v.epoch))
  }

  function Unexpired(cards: map<AgentId, WorkerCard>, now: Timestamp): map<AgentId, WorkerCard> {
    map id | id in cards && !IsExpired(cards[id], now) :: cards[id]
  }

  function Reap(v: View, now: Timestamp): View {
    var kept := Unexpired(v.cards, now);
    View(kept, if |kept| != |v.cards| then Bump(v.epoch) else v.epoch)
  }

  datatype Step = LocalStep(card: WorkerCard) | ReceiveStep(card: WorkerCard, now: Timestamp, answer: Answer) | SnapshotStep(now: Timestamp)

  function Next(o: Codec, v: View, step: Step): View {
    match step
    case LocalStep(card) => Insert(v, card)
    case ReceiveStep(card, now, answer) => if Refusal(o, card, now, answer).None? then Insert(v, card) else v
    case SnapshotStep(now) => Reap(v, now)
  }

  function After(o: Codec, v: View, run: seq<Step>): View {
    if run == [] then v else Next(o, After(o, v, run[..|run| - 1]), run[|run| - 1])
  }

  /** Whether a card enters the view at this step. */
  predicate Enters(o: Codec, step: Step, card: WorkerCard) {
    match step
    case LocalStep(c) => c == card
    case ReceiveStep(c, now, answer) => c == card && Refusal(o, c, now, answer).None?
    case SnapshotStep(_) => false
  }

  /******* The view as the daemon keeps it *******/

  class WorkerView {
    var cards: map<AgentId, WorkerCard>
    var viewEpoch: nat

    constructor ()
      ensures Value() == View(map[], 0)
    {
      cards, viewEpoch := map[], 0;
    }

    function Value(): View
      reads this
    {
      View(cards, viewEpoch)
    }

    method BumpEpoch()
      modifies this`viewEpoch
      ensures viewEpoch == Bump(old(viewEpoch))
    {
      viewEpoch := if viewEpoch < U64_MAX then viewEpoch + 1 else U64_MAX;
    }

    method InsertCard(card: WorkerCard) returns (isNew: bool)
      modifies this
      ensures Value() == Insert(old(Value()), card)
      ensures isNew <==> card.agentId !in old(cards)
    {
      isNew := card.agentId !in cards;
      cards := cards[card.agentId := card];
      if isNew {
        BumpEpoch();
      }
    }

    method VerifyAndInsert(o: Codec, card: WorkerCard, now: Timestamp, a: Answer) returns (r: Receipt)
      modifies this
      ensures Value() == Next(o, old(Value()), ReceiveStep(card, now, a))
      ensures r == Inserted <==> Refusal(o, card, now, a).None? && card.agentId !in old(cards)
      ensures r == Updated <==> Refusal(o, card, now, a).None? && card.agentId in old(cards)
      ensures r == DroppedExpired <==> card.schemaVersion == SCHEMA_VERSION && IsExpired(card, now)
    {
      var refusal := Refusal(o, card, now, a);
      if refusal.Some? {
        return refusal.value;
      }
      var isNew := InsertCard(card);
      r := if isNew then Inserted else Updated;
    }

    /** Reap, then hand out a copy: only cards alive at that instant. */
    method SnapshotView(now: Timestamp) returns (v: View)
      modifies this
      ensures v == Value() == Reap(old(Value()), now)
      ensures forall id :: id in v.cards <==> id in old(cards) && !IsExpired(old(cards)[id], now)
      ensures forall id :: id in v.cards ==> v.cards[id] == old(cards)[id] && !IsExpired(v.cards[id], now)
    {
      var before := |cards|;
      cards := map id | id in cards && !IsExpired(cards[id], now) :: cards[id];
      if |cards| != before {
        BumpEpoch();
      }
      v := Value();
    }
  }

  /******* The epoch over every run *******/

  /** Reaping by count notices exactly a change of membership. */
  lemma ReapNoticesLoss(v: View, now: Timestamp)
    ensures |Unexpired(v.cards, now)| != |v.cards| <==> Unexpired(v.cards, now).Keys != v.cards.Keys
  {
    var kept, all := Unexpired(v.cards, now).Keys, v.cards.Keys;
    assert kept <= all;
    if kept != all {
      assert all == kept + (all - kept);
      var lost :| lost in all - kept;
    }
  }

  predicate Changes(o: Codec, v: View, step: Step) { Next(o, v, step).cards.Keys != v.cards.Keys }

  /** A step moves the epoch exactly when it changes who is in the view. */
  lemma StepEpoch(o: Codec, v: View, step: Step)
    ensures Next(o, v, step).epoch == if Changes(o, v, step) then Bump(v.epoch) else v.epoch
  {
    if step.SnapshotStep? {
      ReapNoticesLoss(v, step.now);
    } else {
      assert step.card.agentId in v.cards ==> Insert(v, step.card).cards.Keys == v.cards.Keys;
      assert step.card.agentId in Insert(v, step.card).cards;
    }
  }

  /** Number of membership changes in a run. */
  function ChangeCount(o: Codec, v: View, run: seq<Step>): nat {
    if run == [] then 0
    else
      var before := run[..|run| - 1];
      ChangeCount(o, v, before) + if Changes(o, After(o, v, before), run[|run| - 1]) then 1 else 0
  }

  /** The epoch is the number of membership changes, capped. */
  lemma {:induction false} EpochCountsChanges(o: Codec, v: View, run: seq<Step>)
    requires v.epoch <= U64_MAX
    ensures After(o, v, run).epoch == Min(v.epoch + ChangeCount(o, v, run), U64_MAX)
  {
    if run != [] {
      var before := run[..|run| - 1];
      EpochCountsChanges(o, v, before);
      StepEpoch(o, After(o, v, before), run[|run| - 1]);
    }
  }

  lemma {:induction false} NoChangeSameAgents(o: Codec, v: View, run: seq<Step>)
    requires ChangeCount(o, v, run) == 0
    ensures After(o, v, run).cards.Keys == v.cards.Keys
  {
    if run != [] {
      NoChangeSameAgents(o, v, run[..|run| - 1]);
    }
  }

  lemma {:induction false} AfterConcat(o: Codec, v: View, first: seq<Step>, second: seq<Step>)
    ensures After(o, v, first + second) == After(o, After(o, v, first), second)
  {
    if second == [] {
      assert first + second == first;
    } else {
      assert (first + second)[..|first + second| - 1] == first + second[..|second| - 1];
      AfterConcat(o, v, first, second[..|second| - 1]);
    }
  }

  lemma LaterEpoch(o: Codec, v: View, rest: seq<Step>)
    requires v.epoch <= U64_MAX
    ensures v.epoch <= After(o, v, rest).epoch <= U64_MAX
    ensures v.epoch == After(o, v, rest).epoch < U64_MAX ==> v.cards.Keys == After(o, v, rest).cards.Keys
  {
    EpochCountsChanges(o, v, rest);
    if ChangeCount(o, v, rest) == 0 {
      NoChangeSameAgents(o, v, rest);
    }
  }

  /** Over every run the epoch never decreases, and below saturation it names the agent set. */
  lemma EqualEpochsSameAgents(o: Codec, v: View, first: seq<Step>, second: seq<Step>)
    requires v.epoch <= U64_MAX
    ensures After(o, v, first).epoch <= After(o, v, first + second).epoch
    ensures After(o, v, first).epoch == After(o, v, first + second).epoch < U64_MAX
            ==> After(o, v, first).cards.Keys == After(o, v, first + second).cards.Keys
  {
    AfterConcat(o, v, first, second);
    LaterEpoch(o, v, first);
    LaterEpoch(o, After(o, v, first), second);
  }

  /** At saturation the epoch hides changes: a membership change shows exactly below it. */
  lemma ChangeShowsIff(o: Codec, v: View, step: Step)
    requires v.epoch <= U64_MAX && Changes(o, v, step)
    ensures Next(o, v, step).epoch != v.epoch <==> v.epoch < U64_MAX
  {
    StepEpoch(o, v, step);
  }

  /** Every card in view was put there by this daemon or passed verification on arrival. */
  lemma {:induction false} ViewHoldsOnlyAdmitted(o: Codec, run: seq<Step>, id: AgentId)
    requires id in After(o, View(map[], 0), run).cards
    ensures var card := After(o, View(map[], 0), run).cards[id];
            card.agentId == id && exists k :: 0 <= k < |run| && Enters(o, run[k], card)
  {
    var before, step := run[..|run| - 1], run[|run| - 1];
    var was, card := After(o, View(map[], 0), before), After(o, View(map[], 0), run).cards[id];
    if Enters(o, step, card) && card.agentId == id {
      assert Enters(o, run[|run| - 1], card);
    } else {
      assert id in was.cards && was.cards[id] == card;
      ViewHoldsOnlyAdmitted(o, before, id);
      var k :| 0 <= k < |before| && Enters(o, before[k], card);
      assert Enters(o, run[k], card);
    }
  }
}
