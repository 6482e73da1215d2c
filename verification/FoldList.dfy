/** The fold of a version-2 list: from whatever copies of the author streams a reader fetched to one state. */
module FoldList {
  import opened Domain
  import opened Ordering
  import opened FoldEvents
  import LamportCap
  import FoldState

  datatype Record = Record(key: string, value: Bytes)

  datatype Stream = Stream(owner: AgentId, card: Option<Bytes>, records: seq<Record>)

  datatype Limits = Limits(members: nat, records: nat, bytes: nat)

  const CARD_KEY := "card-self"

  /******* Sorted records *******/

  predicate RecordLess(a: Record, b: Record) {
    TextLess(a.key, b.key) || (a.key == b.key && BytesLess(a.value, b.value))
  }

  lemma RecordOrder(a: Record, b: Record, c: Record)
    ensures !RecordLess(a, a)
    ensures a != b ==> RecordLess(a, b) || RecordLess(b, a)
    ensures RecordLess(a, b) && RecordLess(b, c) ==> RecordLess(a, c)
  {
    TextOrder(a.key, b.key, c.key);
    BytesOrder(a.value, b.value, c.value);
  }

  predicate Sorted(s: seq<Record>) {
    forall i, j :: 0 <= i < j < |s| ==> RecordLess(s[i], s[j])
  }

  function Insert(s: seq<Record>, r: Record): seq<Record> {
    if s == [] then [r]
    else if s[0] == r then s
    else if RecordLess(r, s[0]) then [r] + s
    else [s[0]] + Insert(s[1..], r)
  }

  /** `sort_by` on key and value, then `dedup`. */
  function SortDedup(s: seq<Record>): seq<Record> {
    if s == [] then [] else Insert(SortDedup(s[..|s| - 1]), s[|s| - 1])
  }

  lemma {:induction false} InsertSorts(s: seq<Record>, r: Record)
    requires Sorted(s)
    ensures Sorted(Insert(s, r)) && forall x :: x in Insert(s, r) <==> x in s || x == r
  {
    if s != [] && s[0] != r {
      RecordOrder(r, s[0], r);
      if RecordLess(r, s[0]) {
        forall j | 0 < j < |s| ensures RecordLess(r, s[j]) {
          RecordOrder(r, s[0], s[j]);
        }
      } else {
        InsertSorts(s[1..], r);
        var rest := Insert(s[1..], r);
        forall j | 0 <= j < |rest| ensures RecordLess(s[0], rest[j]) {
          assert rest[j] in rest;
        }
        assert s == [s[0]] + s[1..];
      }
    }
  }

  lemma {:induction false} SortDedupSorts(s: seq<Record>)
    ensures Sorted(SortDedup(s)) && forall x :: x in SortDedup(s) <==> x in s
  {
    if s != [] {
      SortDedupSorts(s[..|s| - 1]);
      InsertSorts(SortDedup(s[..|s| - 1]), s[|s| - 1]);
      assert s == s[..|s| - 1] + [s[|s| - 1]];
    }
  }

  lemma FirstIsLeast(s: seq<Record>, x: Record)
    requires Sorted(s) && x in s
    ensures s[0] == x || RecordLess(s[0], x)
  {
  }

  lemma TailLosesHead(s: seq<Record>)
    requires Sorted(s) && s != []
    ensures Sorted(s[1..]) && forall x :: x in s[1..] <==> x in s && x != s[0]
  {
    RecordOrder(s[0], s[0], s[0]);
    assert s == [s[0]] + s[1..];
    assert forall i :: 0 <= i < |s[1..]| ==> s[1..][i] == s[i + 1];
  }

  lemma EmptyTogether(s: seq<Record>, t: seq<Record>)
    requires forall x :: x in s <==> x in t
    ensures s == [] <==> t == []
  {
    if s != [] {
      assert s[0] in t;
    }
    if t != [] {
      assert t[0] in s;
    }
  }

  /** There is one sorted arrangement of a set of records. */
  lemma {:induction false} SortedIsUnique(s: seq<Record>, t: seq<Record>)
    requires Sorted(s) && Sorted(t) && forall x :: x in s <==> x in t
    ensures s == t
  {
    EmptyTogether(s, t);
    if s != [] {
      assert s[0] in t && t[0] in s;
      FirstIsLeast(s, t[0]);
      FirstIsLeast(t, s[0]);
      RecordOrder(s[0], t[0], s[0]);
      TailLosesHead(s);
      TailLosesHead(t);
      SortedIsUnique(s[1..], t[1..]);
      assert s == [s[0]] + s[1..] && t == [t[0]] + t[1..];
    }
  }

  /******* Canonical streams *******/

  /** One owner's merged stream. With two different keys on offer the owner is refused and no key is kept. */
  datatype Canon = Canon(conflicted: bool, card: Option<Bytes>, records: seq<Record>)

  function Owners(streams: seq<Stream>): set<AgentId> { set s | s in streams :: s.owner }

  /** All records of an owner, copy after copy. */
  function RecordsOf(streams: seq<Stream>, owner: AgentId): seq<Record> {
    if streams == [] then []
    else
      var before, last := RecordsOf(streams[..|streams| - 1], owner), streams[|streams| - 1];
      if last.owner == owner then before + last.records else before
  }

  /** The first key any copy names. */
  function FirstCard(streams: seq<Stream>, owner: AgentId): Option<Bytes> {
    if streams == [] then None
    else
      var before, last := FirstCard(streams[..|streams| - 1], owner), streams[|streams| - 1];
      if before.None? && last.owner == owner then last.card else before
  }

  function NamedCards(streams: seq<Stream>, owner: AgentId): set<Bytes> {
    set s | s in streams && s.owner == owner && s.card.Some? :: s.card.value
  }

  function RecordedCards(records: seq<Record>): set<Bytes> {
    set r | r in records && r.key == CARD_KEY :: r.value
  }

  function FirstRecordedCard(records: seq<Record>): Option<Bytes> {
    if records == [] then None
    else if records[0].key == CARD_KEY then Some(records[0].value)
    else FirstRecordedCard(records[1..])
  }

  function CanonFrom(named: set<Bytes>, first: Option<Bytes>, all: seq<Record>): Canon {
    var records := SortDedup(all);
    var conflicted := |named + RecordedCards(records)| > 1;
    Canon(conflicted, if conflicted then None else if first.Some? then first else FirstRecordedCard(records), records)
  }

  function CanonOf(streams: seq<Stream>, owner: AgentId): Canon {
    CanonFrom(NamedCards(streams, owner), FirstCard(streams, owner), RecordsOf(streams, owner))
  }

  function Canonical(streams: seq<Stream>): map<AgentId, Canon> {
    map owner | owner in Owners(streams) :: CanonOf(streams, owner)
  }

  datatype Merged = Merged(named: set<Bytes>, first: Option<Bytes>, records: seq<Record>)

  function MergedOf(streams: seq<Stream>, owner: AgentId): Merged {
    Merged(NamedCards(streams, owner), FirstCard(streams, owner), RecordsOf(streams, owner))
  }

  function Extended(m: Merged, s: Stream): Merged {
    Merged(m.named + (if s.card.Some? then {s.card.value} else {}), if m.first.None? then s.card else m.first, m.records + s.records)
  }

  lemma MergedStep(streams: seq<Stream>, s: Stream, owner: AgentId)
    ensures MergedOf(streams + [s], owner)
            == if s.owner == owner then Extended(MergedOf(streams, owner), s) else MergedOf(streams, owner)
    ensures Owners(streams + [s]) == Owners(streams) + {s.owner}
    ensures owner !in Owners(streams) ==> MergedOf(streams, owner) == Merged({}, None, [])
  {
    assert (streams + [s])[..|streams|] == streams;
    if owner !in Owners(streams) {
      NothingMerged(streams, owner);
    }
  }

  lemma {:induction false} NothingMerged(streams: seq<Stream>, owner: AgentId)
    requires owner !in Owners(streams)
    ensures MergedOf(streams, owner) == Merged({}, None, [])
  {
    if streams != [] {
      var before, last := streams[..|streams| - 1], streams[|streams| - 1];
      assert streams == before + [last];
      NothingMerged(before, owner);
    }
  }

  ghost predicate MergesTo(merged: map<AgentId, Merged>, streams: seq<Stream>) {
    merged.Keys == Owners(streams) && forall owner :: owner in merged ==> merged[owner] == MergedOf(streams, owner)
  }

  function EntryOf(merged: map<AgentId, Merged>, owner: AgentId): Merged {
    if owner in merged then merged[owner] else Merged({}, None, [])
  }

  lemma MergesOn(merged: map<AgentId, Merged>, streams: seq<Stream>, s: Stream)
    requires MergesTo(merged, streams)
    ensures MergesTo(merged[s.owner := Extended(EntryOf(merged, s.owner), s)], streams + [s])
  {
    var more := merged[s.owner := Extended(EntryOf(merged, s.owner), s)];
    MergedStep(streams, s, s.owner);
    forall owner | owner in more ensures more[owner] == MergedOf(streams + [s], owner) {
      MergedStep(streams, s, owner);
    }
  }

  function Settled(merged: map<AgentId, Merged>): map<AgentId, Canon> {
    map owner | owner in merged :: CanonFrom(merged[owner].named, merged[owner].first, merged[owner].records)
  }

  lemma MergedSettles(merged: map<AgentId, Merged>, streams: seq<Stream>)
    requires MergesTo(merged, streams)
    ensures Settled(merged) == Canonical(streams)
  {
  }

  /** `canonical_streams`: merge copy by copy, then settle each owner. */
  method CanonicalStreams(streams: seq<Stream>) returns (canon: map<AgentId, Canon>)
    ensures canon == Canonical(streams)
  {
    var merged: map<AgentId, Merged> := map[];
    for i := 0 to |streams|
      invariant MergesTo(merged, streams[..i])
    {
      var s := streams[i];
      MergesOn(merged, streams[..i], s);
      merged := merged[s.owner := Extended(EntryOf(merged, s.owner), s)];
      assert streams[..i + 1] == streams[..i] + [s];
    }
    assert streams[..|streams|] == streams;
    MergedSettles(merged, streams);
    canon := Settled(merged);
  }

  /******* The fold *******/

  /** Cryptographic and structural admission: any deterministic rules over the canonical streams. They stand
      for the genesis manifest, the roster chain, card verification, envelopes and bindings. */
  datatype Rules = Rules(
    genesis: map<AgentId, Canon> -> Outcome<string>,
    admit: (map<AgentId, Canon>, AgentId, Record) -> Outcome<Event>)

  function AdmittedFrom(rules: Rules, canon: map<AgentId, Canon>, owner: AgentId, records: seq<Record>): seq<Event> {
    if records == [] then []
    else
      var before := AdmittedFrom(rules, canon, owner, records[..|records| - 1]);
      var last := rules.admit(canon, owner, records[|records| - 1]);
      if last.Ok? then before + [last.value] else before
  }

  function Candidates(rules: Rules, canon: map<AgentId, Canon>, owner: AgentId): seq<Event>
    requires owner in canon
  {
    if canon[owner].conflicted then [] else AdmittedFrom(rules, canon, owner, canon[owner].records)
  }

  predicate IsLeast(owners: set<AgentId>, least: AgentId) {
    least in owners && forall o :: o in owners && o != least ==> TextLess(least, o)
  }

  lemma {:induction false} LeastExists(owners: set<AgentId>)
    requires owners != {}
    ensures exists least :: IsLeast(owners, least)
  {
    var one :| one in owners;
    if owners == {one} {
      assert IsLeast(owners, one);
    } else {
      var rest := owners - {one};
      LeastExists(rest);
      var other :| IsLeast(rest, other);
      TextOrder(one, other, one);
      forall o | o in owners && TextLess(one, other) && o != one ensures TextLess(one, o) {
        TextOrder(one, other, o);
      }
      assert IsLeast(owners, if TextLess(one, other) then one else other);
    }
  }

  lemma LeastIsUnique(owners: set<AgentId>, a: AgentId, b: AgentId)
    requires IsLeast(owners, a) && IsLeast(owners, b)
    ensures a == b
  {
    TextOrder(a, b, a);
  }

  /** The chains of all authors, in author order. */
  ghost function Chains(rules: Rules, canon: map<AgentId, Canon>, genesis: string, owners: set<AgentId>): seq<Event>
    requires owners <= canon.Keys
    decreases |owners|
  {
    if owners == {} then []
    else
      LeastExists(owners);
      var least :| IsLeast(owners, least);
      Chain(Candidates(rules, canon, least), 1, genesis) + Chains(rules, canon, genesis, owners - {least})
  }

  predicate EventLess(a: Event, b: Event) {
    a.lamport < b.lamport
    || (a.lamport == b.lamport && (TextLess(a.author, b.author) || (a.author == b.author && TextLess(a.hash, b.hash))))
  }

  function InsertEvent(s: seq<Event>, e: Event): seq<Event> {
    if s == [] || !EventLess(e, s[|s| - 1]) then s + [e]
    else InsertEvent(s[..|s| - 1], e) + [s[|s| - 1]]
  }

  /** The stable sort by clock, author and hash. */
  function InFoldOrder(s: seq<Event>): seq<Event> {
    if s == [] then [] else InsertEvent(InFoldOrder(s[..|s| - 1]), s[|s| - 1])
  }

  lemma {:induction false} InsertEventCounts(s: seq<Event>, e: Event)
    ensures multiset(InsertEvent(s, e)) == multiset(s) + multiset{e}
  {
    if s != [] && EventLess(e, s[|s| - 1]) {
      InsertEventCounts(s[..|s| - 1], e);
      Snoc(s);
    }
  }

  lemma {:induction false} InsertEventAscends(s: seq<Event>, e: Event)
    requires LamportCap.Ascending(s)
    ensures LamportCap.Ascending(InsertEvent(s, e))
    ensures forall x :: x in InsertEvent(s, e) <==> x in s || x == e
  {
    if s != [] && EventLess(e, s[|s| - 1]) {
      var before, last := s[..|s| - 1], s[|s| - 1];
      InsertEventAscends(before, e);
      assert s == before + [last];
      LamportCap.AscendingAppend(InsertEvent(before, e), last);
    } else {
      LamportCap.AscendingAppend(s, e);
    }
  }

  lemma Snoc(s: seq<Event>)
    requires s != []
    ensures multiset(s) == multiset(s[..|s| - 1]) + multiset{s[|s| - 1]}
  {
    assert s == s[..|s| - 1] + [s[|s| - 1]];
  }

  lemma {:induction false} FoldOrderCounts(s: seq<Event>)
    ensures multiset(InFoldOrder(s)) == multiset(s)
  {
    if s != [] {
      FoldOrderCounts(s[..|s| - 1]);
      InsertEventCounts(InFoldOrder(s[..|s| - 1]), s[|s| - 1]);
      Snoc(s);
    }
  }

  lemma {:induction false} FoldOrderAscends(s: seq<Event>)
    ensures LamportCap.Ascending(InFoldOrder(s)) && forall x :: x in InFoldOrder(s) <==> x in s
  {
    if s != [] {
      FoldOrderAscends(s[..|s| - 1]);
      InsertEventAscends(InFoldOrder(s[..|s| - 1]), s[|s| - 1]);
      assert s == s[..|s| - 1] + [s[|s| - 1]];
    }
  }

  /** What a reader gets: the admitted events in fold order, and what they add up to. */
  datatype View = View(events: seq<Event>, approvals: map<string, Event>, state: FoldState.State)

  predicate RawWithin(limits: Limits, streams: seq<Stream>) {
    |streams| <= limits.members + 1
    && forall s :: s in streams ==> |s.records| <= limits.records && forall r :: r in s.records ==> |r.value| <= limits.bytes
  }

  predicate MergedWithin(limits: Limits, canon: map<AgentId, Canon>) {
    forall owner :: owner in canon ==> |canon[owner].records| <= limits.records
  }

  ghost function FoldCanonical(rules: Rules, limits: Limits, canon: map<AgentId, Canon>): Outcome<View> {
    if !MergedWithin(limits, canon) || rules.genesis(canon).Err? then Err
    else
      var chained := Chains(rules, canon, rules.genesis(canon).value, canon.Keys);
      var events := LamportCap.Cap(InFoldOrder(chained));
      Ok(View(events, FoldState.Approvals(events), FoldState.Fold(events)))
  }

  ghost function FoldV2(rules: Rules, limits: Limits, streams: seq<Stream>): Outcome<View> {
    if !RawWithin(limits, streams) then Err else FoldCanonical(rules, limits, Canonical(streams))
  }

  /** `fold_v2`: budgets, canonical streams, admission, chains, cap, state machine. */
  method Fold(rules: Rules, limits: Limits, streams: seq<Stream>) returns (r: Outcome<View>)
    ensures r == FoldV2(rules, limits, streams)
  {
    if !RawWithin(limits, streams) {
      return Err;
    }
    var canon := CanonicalStreams(streams);
    var genesis := rules.genesis(canon);
    if !MergedWithin(limits, canon) || genesis.Err? {
      return Err;
    }
    var chained := ChainAll(rules, canon, genesis.value);
    var ordered := InFoldOrder(chained);
    FoldOrderAscends(chained);
    var events := LamportCap.ApplyLamportCap(ordered);
    var state, approvals := FoldState.RunStateMachine(events);
    r := Ok(View(events, approvals, state));
  }

  method ChainAll(rules: Rules, canon: map<AgentId, Canon>, genesis: string) returns (chained: seq<Event>)
    ensures chained == Chains(rules, canon, genesis, canon.Keys)
  {
    var todo := canon.Keys;
    chained := [];
    while todo != {}
      invariant todo <= canon.Keys
      invariant chained + Chains(rules, canon, genesis, todo) == Chains(rules, canon, genesis, canon.Keys)
    {
      LeastExists(todo);
      var owner :| IsLeast(todo, owner);
      ChainsOn(rules, canon, genesis, chained, todo, owner);
      var mine, fork := ChainAuthor(Candidates(rules, canon, owner), genesis);
      chained, todo := chained + mine, todo - {owner};
    }
  }

  lemma ChainsOn(rules: Rules, canon: map<AgentId, Canon>, genesis: string, done: seq<Event>, owners: set<AgentId>, owner: AgentId)
    requires owners <= canon.Keys && IsLeast(owners, owner)
    ensures done + Chains(rules, canon, genesis, owners)
            == done + Chain(Candidates(rules, canon, owner), 1, genesis) + Chains(rules, canon, genesis, owners - {owner})
  {
    ChainsStep(rules, canon, genesis, owners, owner);
  }

  lemma ChainsStep(rules: Rules, canon: map<AgentId, Canon>, genesis: string, owners: set<AgentId>, owner: AgentId)
    requires owners <= canon.Keys && IsLeast(owners, owner)
    ensures Chains(rules, canon, genesis, owners)
            == Chain(Candidates(rules, canon, owner), 1, genesis) + Chains(rules, canon, genesis, owners - {owner})
  {
    forall other | IsLeast(owners, other) ensures other == owner {
      LeastIsUnique(owners, owner, other);
    }
  }

  /******* Order never matters *******/

  /** The same owners, keys and records, in whatever copies and order. */
  ghost predicate SameFacts(a: seq<Stream>, b: seq<Stream>) {
    Owners(a) == Owners(b)
    && forall owner :: owner in Owners(a) ==> NamedCards(a, owner) == NamedCards(b, owner) && SameRecords(a, b, owner)
  }

  ghost predicate SameRecords(a: seq<Stream>, b: seq<Stream>, owner: AgentId) {
    forall r :: r in RecordsOf(a, owner) <==> r in RecordsOf(b, owner)
  }

  lemma {:induction false} FirstCardIsNamed(streams: seq<Stream>, owner: AgentId)
    ensures FirstCard(streams, owner).Some? ==> FirstCard(streams, owner).value in NamedCards(streams, owner)
    ensures FirstCard(streams, owner).None? ==> NamedCards(streams, owner) == {}
  {
    if streams != [] {
      var before, last := streams[..|streams| - 1], streams[|streams| - 1];
      FirstCardIsNamed(before, owner);
      assert streams == before + [last];
    }
  }

  lemma OnlyMember(s: set<Bytes>, x: Bytes, y: Bytes)
    requires x in s && y in s && |s| <= 1
    ensures x == y
  {
    assert |s - {x}| == |s| - 1;
    assert s - {x} == {};
  }

  lemma CanonIsOrderFree(a: seq<Stream>, b: seq<Stream>, owner: AgentId)
    requires NamedCards(a, owner) == NamedCards(b, owner) && SameRecords(a, b, owner)
    ensures CanonOf(a, owner) == CanonOf(b, owner)
  {
    SortDedupSorts(RecordsOf(a, owner));
    SortDedupSorts(RecordsOf(b, owner));
    SortedIsUnique(SortDedup(RecordsOf(a, owner)), SortDedup(RecordsOf(b, owner)));
    FirstCardIsNamed(a, owner);
    FirstCardIsNamed(b, owner);
    var x, y := FirstCard(a, owner), FirstCard(b, owner);
    var cards := NamedCards(a, owner) + RecordedCards(SortDedup(RecordsOf(a, owner)));
    if |cards| <= 1 && x.Some? && y.Some? {
      OnlyMember(cards, x.value, y.value);
    }
  }

  /** Two readers with the same facts, within budget, fold to the same view: whatever the copies, whatever
      the order of streams and of records, and although each reader keeps the first key it meets. */
  lemma FoldIsOrderFree(rules: Rules, limits: Limits, a: seq<Stream>, b: seq<Stream>)
    requires SameFacts(a, b) && RawWithin(limits, a) && RawWithin(limits, b)
    ensures FoldV2(rules, limits, a) == FoldV2(rules, limits, b)
  {
    forall owner | owner in Owners(a) ensures CanonOf(a, owner) == CanonOf(b, owner) {
      CanonIsOrderFree(a, b, owner);
    }
    assert Canonical(a) == Canonical(b);
  }

  lemma {:induction false} RecordsAreCollected(streams: seq<Stream>, owner: AgentId, r: Record)
    ensures r in RecordsOf(streams, owner) <==> exists s :: s in streams && s.owner == owner && r in s.records
  {
    if streams != [] {
      var before, last := streams[..|streams| - 1], streams[|streams| - 1];
      RecordsAreCollected(before, owner, r);
      assert streams == before + [last];
    }
  }

  /** Rearranging the streams changes nothing at all, refusals included. */
  lemma ReorderedStreamsFoldAlike(rules: Rules, limits: Limits, a: seq<Stream>, b: seq<Stream>)
    requires multiset(a) == multiset(b)
    ensures FoldV2(rules, limits, a) == FoldV2(rules, limits, b)
  {
    assert |multiset(a)| == |a| && |multiset(b)| == |b|;
    assert forall s :: s in a <==> s in multiset(a);
    assert forall s :: s in b <==> s in multiset(b);
    forall owner, r ensures r in RecordsOf(a, owner) <==> r in RecordsOf(b, owner) {
      RecordsAreCollected(a, owner, r);
      RecordsAreCollected(b, owner, r);
    }
    if RawWithin(limits, a) {
      FoldIsOrderFree(rules, limits, a, b);
    }
  }

  /******* What is admitted *******/

  lemma {:induction false} ChainsHold(rules: Rules, canon: map<AgentId, Canon>, genesis: string, owners: set<AgentId>, e: Event)
    requires owners <= canon.Keys
    ensures e in Chains(rules, canon, genesis, owners)
            <==> exists owner :: owner in owners && e in Chain(Candidates(rules, canon, owner), 1, genesis)
    decreases |owners|
  {
    if owners != {} {
      LeastExists(owners);
      var least :| IsLeast(owners, least);
      ChainsStep(rules, canon, genesis, owners, least);
      ChainsHold(rules, canon, genesis, owners - {least}, e);
    }
  }

  lemma AdmissibleAlike(events: set<Event>, a: seq<Event>, b: seq<Event>)
    requires forall e :: e in a <==> e in b
    ensures LamportCap.Admissible(events, a) <==> LamportCap.Admissible(events, b)
  {
  }

  /** Sorting first, the cap still yields the greatest admissible set of what was chained. */
  lemma OrderedCapIsGreatest(chained: seq<Event>, events: set<Event>)
    ensures var admitted := LamportCap.Members(LamportCap.Cap(InFoldOrder(chained)));
            && LamportCap.Admissible(admitted, chained)
            && (LamportCap.Admissible(events, chained) ==> events <= admitted)
  {
    var ordered := InFoldOrder(chained);
    FoldOrderAscends(chained);
    LamportCap.CapIsGreatest(ordered, events);
    AdmissibleAlike(events, chained, ordered);
    AdmissibleAlike(LamportCap.Members(LamportCap.Cap(ordered)), chained, ordered);
  }

  /** The events a view rests on are exactly the largest set of chained events that can be admitted together
      under the clock cap. */
  lemma ViewRestsOnGreatestSet(rules: Rules, limits: Limits, streams: seq<Stream>, events: set<Event>)
    requires FoldV2(rules, limits, streams).Ok?
    ensures var canon := Canonical(streams);
            var chained := Chains(rules, canon, rules.genesis(canon).value, canon.Keys);
            var admitted := LamportCap.Members(FoldV2(rules, limits, streams).value.events);
            && LamportCap.Admissible(admitted, chained)
            && (LamportCap.Admissible(events, chained) ==> events <= admitted)
  {
    var canon := Canonical(streams);
    OrderedCapIsGreatest(Chains(rules, canon, rules.genesis(canon).value, canon.Keys), events);
  }
}
