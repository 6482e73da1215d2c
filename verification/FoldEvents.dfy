/** Admitted events of a version-2 list, and the per-author hash chain that decides which of them count. */
module FoldEvents {
  import opened Domain

  datatype BlockCause = AwaitsApproval | OtherCause(text: string)

  /** What an event does. Its actor is its author: admission requires the two to be equal. */
  datatype Act =
    | Opens(issueId: IssueId, title: string, spec: string)
    | Claims(issueId: IssueId, nonce: string)
    | Releases(issueId: IssueId, nonce: string, claimHash: string)
    | Blocks(issueId: IssueId, nonce: string, claimHash: string, cause: BlockCause)
    | Completes(issueId: IssueId, nonce: string, claimHash: string)
    | Requeues(issueId: IssueId, nonce: string, blockHash: string)
    | Approves(issueId: IssueId, openHash: string, verdict: Verdict)
    | Consumes(issueId: IssueId, nonce: string, claimHash: string, approvalHash: string, approver: AgentId)
    | HandsOff(issueId: IssueId, nonce: string, claimHash: string)

  /** Lamport clocks are 64 bits wide. */
  type Clock = n: nat | n <= U64_MAX

  datatype Event = Event(author: AgentId, key: string, hash: string, lamport: Clock, seqNo: nat, prev: string, act: Act)

  /******* The chain of one author *******/

  /** The candidates numbered `k`, in their order. */
  function Numbered(cands: seq<Event>, k: nat): seq<Event> {
    if cands == [] then []
    else
      var before, last := Numbered(cands[..|cands| - 1], k), cands[|cands| - 1];
      if last.seqNo == k then before + [last] else before
  }

  function Others(cands: seq<Event>, k: nat): (r: seq<Event>)
    ensures |r| <= |cands|
  {
    if cands == [] then []
    else
      var before, last := Others(cands[..|cands| - 1], k), cands[|cands| - 1];
      if last.seqNo == k then before else before + [last]
  }

  lemma {:induction false} Separated(cands: seq<Event>, k: nat)
    ensures forall e :: e in Numbered(cands, k) <==> e in cands && e.seqNo == k
    ensures forall e :: e in Others(cands, k) <==> e in cands && e.seqNo != k
    ensures |Numbered(cands, k)| + |Others(cands, k)| == |cands|
    ensures Numbered(cands, k) == [] <==> forall e :: e in cands ==> e.seqNo != k
  {
    if cands != [] {
      Separated(cands[..|cands| - 1], k);
      assert cands == cands[..|cands| - 1] + [cands[|cands| - 1]];
    }
  }

  predicate OneHash(group: seq<Event>) {
    forall i, j :: 0 <= i < |group| && 0 <= j < |group| ==> group[i].hash == group[j].hash
  }

  /** `k` is the lowest number in use. */
  predicate Lowest(cands: seq<Event>, k: nat) {
    Numbered(cands, k) != [] && forall n: nat :: n < k ==> Numbered(cands, n) == []
  }

  /** Number `k` comes next, is not forked, and links to `prev`. */
  predicate Links(cands: seq<Event>, k: nat, prev: string) {
    Lowest(cands, k) && OneHash(Numbered(cands, k)) && Numbered(cands, k)[0].prev == prev
  }

  /** The events admitted from number `k` on: everything up to the first gap, fork or broken link. */
  function Chain(cands: seq<Event>, k: nat, prev: string): seq<Event>
    decreases |cands|
  {
    if !Links(cands, k, prev) then []
    else
      var e := Numbered(cands, k)[0];
      Separated(cands, k);
      [e] + Chain(Others(cands, k), k + 1, e.hash)
  }

  /** The number at which the chain stops for two differently hashed events. */
  function ForkAt(cands: seq<Event>, k: nat, prev: string): Option<nat>
    decreases |cands|
  {
    if Lowest(cands, k) && !OneHash(Numbered(cands, k)) then Some(k)
    else if !Links(cands, k, prev) then None
    else
      var e := Numbered(cands, k)[0];
      Separated(cands, k);
      ForkAt(Others(cands, k), k + 1, e.hash)
  }

  method LeastNumber(cands: seq<Event>) returns (k: nat)
    requires cands != []
    ensures Lowest(cands, k)
  {
    var at := 0;
    for i := 1 to |cands|
      invariant 0 <= at < |cands|
      invariant forall j :: 0 <= j < i ==> cands[at].seqNo <= cands[j].seqNo
    {
      if cands[i].seqNo < cands[at].seqNo {
        at := i;
      }
    }
    k := cands[at].seqNo;
    forall n: nat | n <= k ensures Numbered(cands, n) == [] <==> n < k {
      Separated(cands, n);
      assert cands[at] in cands;
    }
  }

  method HashesAgree(group: seq<Event>) returns (agree: bool)
    ensures agree <==> OneHash(group)
  {
    for i := 0 to |group|
      invariant forall j :: 0 <= j < i ==> group[j].hash == group[0].hash
    {
      if group[i].hash != group[0].hash {
        return false;
      }
    }
    agree := true;
  }

  /** `chain_author`: numbers in ascending order, until one does not extend the chain. */
  method ChainAuthor(cands: seq<Event>, genesis: string) returns (chained: seq<Event>, fork: Option<nat>)
    ensures chained == Chain(cands, 1, genesis)
    ensures fork == ForkAt(cands, 1, genesis)
  {
    var rest, expected, prev := cands, 1, genesis;
    chained, fork := [], None;
    while rest != []
      invariant chained + Chain(rest, expected, prev) == Chain(cands, 1, genesis)
      invariant ForkAt(rest, expected, prev) == ForkAt(cands, 1, genesis)
      decreases |rest|
    {
      var k := LeastNumber(rest);
      if k != expected {
        break;
      }
      var group := Numbered(rest, k);
      Separated(rest, k);
      var agree := HashesAgree(group);
      if !agree {
        fork := Some(k);
        break;
      }
      if group[0].prev != prev {
        break;
      }
      chained, prev, expected, rest := chained + [group[0]], group[0].hash, expected + 1, Others(rest, k);
    }
  }

  /******* What a chain is *******/

  function TipOf(chain: seq<Event>, prev: string): string {
    if chain == [] then prev else chain[|chain| - 1].hash
  }

  /** Consecutive numbers, each event naming its predecessor. */
  predicate Chained(chain: seq<Event>, k: nat, prev: string) {
    forall i :: 0 <= i < |chain| ==> chain[i].seqNo == k + i && chain[i].prev == TipOf(chain[..i], prev)
  }

  lemma ChainedCons(e: Event, chain: seq<Event>, k: nat, prev: string)
    requires e.seqNo == k && e.prev == prev && Chained(chain, k + 1, e.hash)
    ensures Chained([e] + chain, k, prev) && TipOf([e] + chain, prev) == TipOf(chain, e.hash)
  {
    var all := [e] + chain;
    forall i | 0 < i < |all| ensures all[i].prev == TipOf(all[..i], prev) {
      assert all[..i] == [e] + chain[..i - 1];
    }
  }

  /** The events past number `k - 1` and the chain so far decide the rest of the chain. */
  lemma {:induction false} ChainIsLinked(cands: seq<Event>, k: nat, prev: string)
    ensures var chain := Chain(cands, k, prev);
            && Chained(chain, k, prev)
            && (forall e :: e in chain ==> e in cands)
    decreases |cands|
  {
    if Links(cands, k, prev) {
      Separated(cands, k);
      var e := Numbered(cands, k)[0];
      assert e in Numbered(cands, k);
      ChainIsLinked(Others(cands, k), k + 1, e.hash);
      ChainedCons(e, Chain(Others(cands, k), k + 1, e.hash), k, prev);
    }
  }

  /** An event that would extend the chain alone at its number. */
  predicate Extends(cands: seq<Event>, e: Event, k: nat, prev: string) {
    e in cands && e.seqNo == k && e.prev == prev && forall d :: d in cands && d.seqNo == k ==> d.hash == e.hash && d.prev == e.prev
  }

  /** The chain is as long as it can be: nothing extends it. */
  lemma {:induction false} ChainIsMaximal(cands: seq<Event>, k: nat, prev: string, e: Event)
    requires forall d :: d in cands ==> d.seqNo >= k
    ensures var chain := Chain(cands, k, prev); !Extends(cands, e, k + |chain|, TipOf(chain, prev))
    decreases |cands|
  {
    Separated(cands, k);
    if Links(cands, k, prev) {
      var first, rest := Numbered(cands, k)[0], Others(cands, k);
      var tail := Chain(rest, k + 1, first.hash);
      ChainIsMaximal(rest, k + 1, first.hash, e);
      assert TipOf([first] + tail, prev) == TipOf(tail, first.hash);
    } else if e in cands && e.seqNo == k {
      NothingLinks(cands, k, prev, e);
    }
  }

  lemma NothingLinks(cands: seq<Event>, k: nat, prev: string, e: Event)
    requires e in cands && e.seqNo == k && !Links(cands, k, prev) && forall d :: d in cands ==> d.seqNo >= k
    ensures !Extends(cands, e, k, prev)
  {
    var group := Numbered(cands, k);
    Separated(cands, k);
    assert e in group && forall i :: 0 <= i < |group| ==> group[i] in group;
    forall n: nat | n < k ensures Numbered(cands, n) == [] {
      Separated(cands, n);
    }
  }

  /** The same events at every number below `m`. */
  ghost predicate AgreeBelow(a: seq<Event>, b: seq<Event>, m: nat) {
    forall n: nat :: n < m ==> Numbered(a, n) == Numbered(b, n)
  }

  function Prefix(s: seq<Event>, n: nat): seq<Event> { if |s| <= n then s else s[..n] }

  /** A fork, gap or forgery at number `m` harms nothing below it: lists that agree below `m` have chains
      that agree below `m`. */
  lemma {:induction false} HarmIsLocal(a: seq<Event>, b: seq<Event>, k: nat, m: nat, prev: string)
    requires k <= m && AgreeBelow(a, b, m)
    ensures Prefix(Chain(a, k, prev), m - k) == Prefix(Chain(b, k, prev), m - k)
    decreases m - k
  {
    if k < m {
      LinksAlike(a, b, k, m, prev);
      if Links(a, k, prev) {
        var first := Numbered(a, k)[0];
        OthersAgree(a, b, k, m);
        HarmIsLocal(Others(a, k), Others(b, k), k + 1, m, first.hash);
        var x, y := Chain(Others(a, k), k + 1, first.hash), Chain(Others(b, k), k + 1, first.hash);
        assert Chain(a, k, prev) == [first] + x && Chain(b, k, prev) == [first] + y;
        PrefixCons(first, x, m - k - 1);
        PrefixCons(first, y, m - k - 1);
      }
    }
  }

  lemma OthersAgree(a: seq<Event>, b: seq<Event>, k: nat, m: nat)
    requires AgreeBelow(a, b, m)
    ensures AgreeBelow(Others(a, k), Others(b, k), m)
  {
    forall n: nat | n < m ensures Numbered(Others(a, k), n) == Numbered(Others(b, k), n) {
      NumberedOthers(a, k, n);
      NumberedOthers(b, k, n);
    }
  }

  lemma PrefixCons(e: Event, s: seq<Event>, n: nat)
    ensures Prefix([e] + s, n + 1) == [e] + Prefix(s, n)
  {
  }

  lemma LinksAlike(a: seq<Event>, b: seq<Event>, k: nat, m: nat, prev: string)
    requires k < m && AgreeBelow(a, b, m)
    ensures Numbered(a, k) == Numbered(b, k) && (Links(a, k, prev) <==> Links(b, k, prev))
  {
    assert Numbered(a, k) == Numbered(b, k);
    assert Lowest(a, k) <==> Lowest(b, k);
  }

  lemma {:induction false} NumberedOthers(cands: seq<Event>, k: nat, n: nat)
    ensures Numbered(Others(cands, k), n) == if n == k then [] else Numbered(cands, n)
  {
    if cands != [] {
      var before, last := cands[..|cands| - 1], cands[|cands| - 1];
      NumberedOthers(before, k, n);
      if last.seqNo != k {
        assert Others(cands, k)[..|Others(before, k)|] == Others(before, k);
      }
    }
  }

  lemma AppendSeparates(cands: seq<Event>, k: nat, e: Event)
    ensures Numbered(cands + [e], k) == if e.seqNo == k then Numbered(cands, k) + [e] else Numbered(cands, k)
    ensures Others(cands + [e], k) == if e.seqNo == k then Others(cands, k) else Others(cands, k) + [e]
  {
    assert (cands + [e])[..|cands|] == cands;
  }

  lemma LinkedAppend(cands: seq<Event>, k: nat, prev: string, e: Event)
    requires Links(cands, k, prev) && e.seqNo > k
    ensures Links(cands + [e], k, prev) && Numbered(cands + [e], k) == Numbered(cands, k)
    ensures Others(cands + [e], k) == Others(cands, k) + [e]
  {
    forall n: nat | n <= k ensures Numbered(cands + [e], n) == Numbered(cands, n) {
      AppendSeparates(cands, n, e);
    }
    AppendSeparates(cands, k, e);
  }

  lemma AppendedChain(cands: seq<Event>, k: nat, prev: string, e: Event)
    requires Links(cands, k, prev) && e.seqNo > k
    ensures var first := Numbered(cands, k)[0];
            && Chain(cands, k, prev) == [first] + Chain(Others(cands, k), k + 1, first.hash)
            && Chain(cands + [e], k, prev) == [first] + Chain(Others(cands, k) + [e], k + 1, first.hash)
  {
    LinkedAppend(cands, k, prev, e);
  }

  lemma TipOfCons(first: Event, tail: seq<Event>, prev: string)
    ensures TipOf([first] + tail, prev) == TipOf(tail, first.hash)
  {
  }

  lemma ChainOfOne(e: Event)
    ensures Chain([e], e.seqNo, e.prev) == [e]
  {
    assert forall n: nat :: Numbered([e], n) == if n == e.seqNo then [e] else [];
    assert Chain(Others([e], e.seqNo), e.seqNo + 1, e.hash) == [];
  }

  lemma {:induction false} ChainIsShort(cands: seq<Event>, k: nat, prev: string)
    ensures |Chain(cands, k, prev)| <= |cands|
    decreases |cands|
  {
    if Links(cands, k, prev) {
      Separated(cands, k);
      ChainIsShort(Others(cands, k), k + 1, Numbered(cands, k)[0].hash);
    }
  }

  /** Every candidate is in the chain. */
  predicate AllAdmitted(cands: seq<Event>, k: nat, prev: string) { |Chain(cands, k, prev)| == |cands| }

  lemma AdmittedTail(cands: seq<Event>, k: nat, prev: string)
    requires cands != [] && AllAdmitted(cands, k, prev)
    ensures Links(cands, k, prev) && |Others(cands, k)| == |cands| - 1
    ensures AllAdmitted(Others(cands, k), k + 1, Numbered(cands, k)[0].hash)
  {
    Separated(cands, k);
    ChainIsShort(Others(cands, k), k + 1, Numbered(cands, k)[0].hash);
  }

  /** The link `next_chain_link` offers does extend the chain, by exactly the event that uses it: an author
      who appends so, and whose events are all admitted, never breaks its own chain. */
  lemma {:induction false} NextLinkExtends(cands: seq<Event>, k: nat, prev: string, e: Event)
    requires AllAdmitted(cands, k, prev)
    requires e.seqNo == k + |cands| && e.prev == TipOf(Chain(cands, k, prev), prev)
    ensures Chain(cands + [e], k, prev) == Chain(cands, k, prev) + [e]
    decreases |cands|
  {
    if cands == [] {
      assert Chain(cands, k, prev) == [] && cands + [e] == [e];
      ChainOfOne(e);
    } else {
      AdmittedTail(cands, k, prev);
      var first, rest := Numbered(cands, k)[0], Others(cands, k);
      AppendedChain(cands, k, prev, e);
      TipOfCons(first, Chain(rest, k + 1, first.hash), prev);
      NextLinkExtends(rest, k + 1, first.hash, e);
    }
  }
}
