/** Deterministic shard slates by XOR distance.

`node` stands for SHA-256 of an identifier; every statement holds for any such function.
 */
module ShardAssignment {
  import opened Domain
  import opened Ordering

  type NodeId = bytes: seq<bv8> | |bytes| == 32 witness seq(32, _ => 0)

  function XorByte(a: bv8, b: bv8): bv8 { a ^ b }

  function XorDistance(a: NodeId, b: NodeId): NodeId {
    seq(32, i requires 0 <= i < 32 => XorByte(a[i], b[i]))
  }

  lemma XorCancels(t: bv8, a: bv8, b: bv8)
    requires XorByte(t, a) == XorByte(t, b)
    ensures a == b
  {
  }

  /** Distance separates: two agents at the same distance have the same node id. */
  lemma EqualDistanceEqualNode(t: NodeId, a: NodeId, b: NodeId)
    requires XorDistance(t, a) == XorDistance(t, b)
    ensures a == b
  {
    var da, db := XorDistance(t, a), XorDistance(t, b);
    forall i | 0 <= i < 32 ensures a[i] == b[i] {
      assert XorByte(t[i], a[i]) == da[i] == db[i] == XorByte(t[i], b[i]);
      XorCancels(t[i], a[i], b[i]);
    }
  }

  /** The comparator of the sort: distance first, then agent id. */
  predicate Closer(node: string -> NodeId, target: NodeId, a: AgentId, b: AgentId) {
    var da, db := XorDistance(target, node(a)), XorDistance(target, node(b));
    BytesLess(da, db) || (da == db && TextLess(a, b))
  }

  lemma CloserOrder(node: string -> NodeId, target: NodeId, a: AgentId, b: AgentId, c: AgentId)
    ensures !Closer(node, target, a, a)
    ensures a != b ==> Closer(node, target, a, b) || Closer(node, target, b, a)
    ensures Closer(node, target, a, b) && Closer(node, target, b, c) ==> Closer(node, target, a, c)
  {
    BytesOrder(XorDistance(target, node(a)), XorDistance(target, node(b)), XorDistance(target, node(c)));
    TextOrder(a, b, c);
  }

  /** All of `workers`, each once, closest first. */
  ghost predicate IsRanking(node: string -> NodeId, target: NodeId, s: seq<AgentId>, workers: set<AgentId>) {
    && (forall i, j :: 0 <= i < j < |s| ==> Closer(node, target, s[i], s[j]))
    && (forall w :: w in s <==> w in workers)
  }

  function SetOf(s: seq<AgentId>): set<AgentId> { set w | w in s }

  function SlateSize(k: nat, n: nat): nat { Min(Max(k, 1), n) }

  ghost predicate IsSlate(node: string -> NodeId, target: NodeId, slate: seq<AgentId>, workers: set<AgentId>, k: nat) {
    exists s :: IsRanking(node, target, s, workers) && slate == s[..SlateSize(k, |s|)]
  }

  /******* Assignment *******/

  /** The distinct workers, as collected through an ordered set. */
  method UniqueWorkers(workers: seq<AgentId>) returns (unique: seq<AgentId>)
    ensures forall w :: w in unique <==> w in workers
    ensures forall i, j :: 0 <= i < j < |unique| ==> unique[i] != unique[j]
  {
    unique := [];
    for n := 0 to |workers|
      invariant forall w :: w in unique <==> w in workers[..n]
      invariant forall i, j :: 0 <= i < j < |unique| ==> unique[i] != unique[j]
    {
      assert workers[..n + 1] == workers[..n] + [workers[n]];
      if workers[n] !in unique {
        unique := unique + [workers[n]];
      }
    }
  }

  function Insert(node: string -> NodeId, target: NodeId, s: seq<AgentId>, w: AgentId): seq<AgentId> {
    if s == [] then [w]
    else if Closer(node, target, w, s[0]) then [w] + s
    else [s[0]] + Insert(node, target, s[1..], w)
  }

  lemma {:induction false} InsertRanks(node: string -> NodeId, target: NodeId, s: seq<AgentId>, w: AgentId, workers: set<AgentId>)
    requires IsRanking(node, target, s, workers) && w !in workers
    ensures IsRanking(node, target, Insert(node, target, s, w), workers + {w})
  {
    var t := Insert(node, target, s, w);
    if s == [] {
    } else if Closer(node, target, w, s[0]) {
      forall j | 0 < j < |t| ensures Closer(node, target, t[0], t[j]) {
        CloserOrder(node, target, w, s[0], t[j]);
      }
    } else {
      RankingTail(node, target, s, workers);
      InsertRanks(node, target, s[1..], w, workers - {s[0]});
      var rest := Insert(node, target, s[1..], w);
      forall j | 0 < j < |t| ensures Closer(node, target, t[0], t[j]) {
        assert t[j] == rest[j - 1] && rest[j - 1] in rest;
        CloserOrder(node, target, s[0], w, w);
        if t[j] != w {
          assert t[j] in s[1..];
        }
      }
    }
  }

  lemma RankingTail(node: string -> NodeId, target: NodeId, s: seq<AgentId>, workers: set<AgentId>)
    requires IsRanking(node, target, s, workers) && s != []
    ensures s[0] in workers && IsRanking(node, target, s[1..], workers - {s[0]})
  {
    var rest := s[1..];
    forall w ensures w in rest <==> w in workers - {s[0]} {
      if w in rest {
        var i :| 0 <= i < |rest| && rest[i] == w;
        assert s[i + 1] == w;
        CloserOrder(node, target, s[0], s[0], s[0]);
      }
    }
  }

  lemma RankingEmpty(node: string -> NodeId, target: NodeId, s: seq<AgentId>, workers: set<AgentId>)
    requires IsRanking(node, target, s, workers)
    ensures s == [] <==> workers == {}
  {
    if s != [] {
      assert s[0] in workers;
    }
  }

  /** The in-place sort of the ranked vector. */
  method SortRanked(node: string -> NodeId, target: NodeId, unique: seq<AgentId>) returns (ranked: seq<AgentId>)
    requires forall i, j :: 0 <= i < j < |unique| ==> unique[i] != unique[j]
    ensures IsRanking(node, target, ranked, SetOf(unique))
  {
    ranked := [];
    for n := 0 to |unique|
      invariant IsRanking(node, target, ranked, SetOf(unique[..n]))
    {
      assert unique[..n + 1] == unique[..n] + [unique[n]];
      assert SetOf(unique[..n + 1]) == SetOf(unique[..n]) + {unique[n]};
      assert unique[n] !in unique[..n];
      InsertRanks(node, target, ranked, unique[n], SetOf(unique[..n]));
      ranked := Insert(node, target, ranked, unique[n]);
    }
    assert unique[..|unique|] == unique;
  }

  /** `assign_with_metadata`: primary and backups are the slate for the set of workers passed in. */
  method AssignWithMetadata(node: string -> NodeId, issueId: IssueId, workers: seq<AgentId>, k: nat, claimTtlMs: nat, epoch: nat)
    returns (r: Option<Shard>)
    ensures r.None? <==> workers == []
    ensures r.Some? ==> IsSlate(node, node(issueId), [r.value.primary] + r.value.backups, SetOf(workers), k)
    ensures r.Some? ==> r.value.claimTtlMs == claimTtlMs && r.value.createdViewEpoch == epoch
  {
    var target := node(issueId);
    var unique := UniqueWorkers(workers);
    var ranked := SortRanked(node, target, unique);
    assert SetOf(unique) == SetOf(workers);
    RankingEmpty(node, target, ranked, SetOf(workers));
    assert workers == [] <==> SetOf(workers) == {} by {
      assert workers != [] ==> workers[0] in SetOf(workers);
    }
    if ranked == [] {
      return None;
    }
    var backupCount := Min(if k == 0 then 0 else k - 1, |ranked| - 1);
    r := Some(Shard(ranked[0], ranked[1..][..backupCount], claimTtlMs, epoch));
    assert [ranked[0]] + ranked[1..][..backupCount] == ranked[..SlateSize(k, |ranked|)];
  }

  /******* The slate is a function of the worker set *******/

  lemma {:induction false} RankingUnique(node: string -> NodeId, target: NodeId, s: seq<AgentId>, t: seq<AgentId>, workers: set<AgentId>)
    requires IsRanking(node, target, s, workers) && IsRanking(node, target, t, workers)
    ensures s == t
  {
    RankingEmpty(node, target, s, workers);
    RankingEmpty(node, target, t, workers);
    if s != [] {
      assert s[0] in t && t[0] in s;
      CloserOrder(node, target, s[0], t[0], s[0]);
      assert s[0] == t[0];
      RankingTail(node, target, s, workers);
      RankingTail(node, target, t, workers);
      RankingUnique(node, target, s[1..], t[1..], workers - {s[0]});
      assert s == [s[0]] + s[1..] && t == [t[0]] + t[1..];
    }
  }

  /** Input order and duplicates do not matter: there is one slate per worker set. */
  lemma SlateUnique(node: string -> NodeId, target: NodeId, a: seq<AgentId>, b: seq<AgentId>, workers: set<AgentId>, k: nat)
    requires IsSlate(node, target, a, workers, k) && IsSlate(node, target, b, workers, k)
    ensures a == b
  {
    var s :| IsRanking(node, target, s, workers) && a == s[..SlateSize(k, |s|)];
    var t :| IsRanking(node, target, t, workers) && b == t[..SlateSize(k, |t|)];
    RankingUnique(node, target, s, t, workers);
  }

  /** A slate holds distinct workers, and nobody left out is closer than anyone on it. */
  lemma SlateIsClosest(node: string -> NodeId, target: NodeId, slate: seq<AgentId>, workers: set<AgentId>, k: nat, i: nat, w: AgentId)
    requires IsSlate(node, target, slate, workers, k) && i < |slate| && w in workers && w !in slate
    ensures slate[i] in workers && Closer(node, target, slate[i], w)
  {
  }

  lemma {:induction false} RankingSize(node: string -> NodeId, target: NodeId, s: seq<AgentId>, workers: set<AgentId>)
    requires IsRanking(node, target, s, workers)
    ensures |s| == |workers|
  {
    if s == [] {
      assert workers == {};
    } else {
      RankingTail(node, target, s, workers);
      RankingSize(node, target, s[1..], workers - {s[0]});
    }
  }

  lemma SlateLength(node: string -> NodeId, target: NodeId, slate: seq<AgentId>, workers: set<AgentId>, k: nat)
    requires IsSlate(node, target, slate, workers, k)
    ensures |slate| == SlateSize(k, |workers|)
  {
    var s :| IsRanking(node, target, s, workers) && slate == s[..SlateSize(k, |s|)];
    RankingSize(node, target, s, workers);
  }

  /******* Churn *******/

  function Without(s: seq<AgentId>, i: nat): seq<AgentId>
    requires i < |s|
  {
    s[..i] + s[i + 1..]
  }

  lemma RankingWithout(node: string -> NodeId, target: NodeId, s: seq<AgentId>, i: nat, workers: set<AgentId>)
    requires IsRanking(node, target, s, workers) && i < |s|
    ensures IsRanking(node, target, Without(s, i), workers - {s[i]})
  {
    var t := Without(s, i);
    forall w ensures w in t <==> w in workers - {s[i]} {
      if w in t {
        var j :| 0 <= j < |t| && t[j] == w;
        var at := if j < i then j else j + 1;
        assert s[at] == w && s[at] in s;
        CloserOrder(node, target, w, w, w);
      }
      if w in workers - {s[i]} {
        var j :| 0 <= j < |s| && s[j] == w;
        assert j != i;
        assert t[if j < i then j else j - 1] == w;
      }
    }
  }

  /** Truncating after a removal beyond the cut changes nothing. */
  lemma TakeWithoutBystander(s: seq<AgentId>, i: nat, k: nat)
    requires SlateSize(k, |s|) <= i < |s|
    ensures Without(s, i)[..SlateSize(k, |s| - 1)] == s[..SlateSize(k, |s|)]
  {
  }

  /** Truncating after a removal before the cut lets one element move up, if there is one. */
  lemma TakeWithoutOwner(s: seq<AgentId>, i: nat, k: nat)
    requires i < SlateSize(k, |s|)
    ensures var m := SlateSize(k, |s|);
            var kept := Without(s, i)[..SlateSize(k, |s| - 1)];
            if m < |s| then kept == Without(s[..m], i) + [s[m]] else kept == Without(s[..m], i)
  {
  }

  /** The first worker off the slate is closer than all others off the slate. */
  lemma NextClosest(node: string -> NodeId, target: NodeId, s: seq<AgentId>, m: nat, workers: set<AgentId>, v: AgentId)
    requires IsRanking(node, target, s, workers) && m < |s|
    requires v in workers && v !in s[..m] && v != s[m]
    ensures Closer(node, target, s[m], v)
  {
  }

  lemma RankedApart(node: string -> NodeId, target: NodeId, s: seq<AgentId>, i: nat, workers: set<AgentId>)
    requires IsRanking(node, target, s, workers) && i < |s|
    ensures forall j :: 0 <= j < |s| && j != i ==> s[j] != s[i]
  {
    CloserOrder(node, target, s[i], s[i], s[i]);
  }

  /** `w` joins a slate it was off, being the closest of those off it. */
  ghost predicate Joins(node: string -> NodeId, target: NodeId, slate: seq<AgentId>, workers: set<AgentId>, w: AgentId) {
    w in workers && w !in slate && forall v :: v in workers && v !in slate && v != w ==> Closer(node, target, w, v)
  }

  lemma NextJoins(node: string -> NodeId, target: NodeId, s: seq<AgentId>, m: nat, workers: set<AgentId>)
    requires IsRanking(node, target, s, workers) && m < |s|
    ensures Joins(node, target, s[..m], workers, s[m])
  {
    RankedApart(node, target, s, m, workers);
    assert s[m] in s;
    forall v | v in workers && v !in s[..m] && v != s[m] ensures Closer(node, target, s[m], v) {
      NextClosest(node, target, s, m, workers, v);
    }
  }

  /** The new slate, cut from the old ranking with the departed worker taken out. */
  lemma SlateFromRanking(node: string -> NodeId, target: NodeId, s: seq<AgentId>, i: nat, after: seq<AgentId>, workers: set<AgentId>, k: nat)
    requires IsRanking(node, target, s, workers) && i < |s| && IsSlate(node, target, after, workers - {s[i]}, k)
    ensures after == Without(s, i)[..SlateSize(k, |s| - 1)]
  {
    var t := Without(s, i);
    RankingWithout(node, target, s, i, workers);
    assert IsSlate(node, target, t[..SlateSize(k, |t|)], workers - {s[i]}, k);
    SlateUnique(node, target, after, t[..SlateSize(k, |t|)], workers - {s[i]}, k);
  }

  /** When a worker off the slate leaves, the slate is untouched. */
  lemma BystanderDeparture(node: string -> NodeId, target: NodeId, slate: seq<AgentId>, after: seq<AgentId>,
                           workers: set<AgentId>, gone: AgentId, k: nat)
    requires gone in workers && gone !in slate
    requires IsSlate(node, target, slate, workers, k) && IsSlate(node, target, after, workers - {gone}, k)
    ensures after == slate
  {
    var s :| IsRanking(node, target, s, workers) && slate == s[..SlateSize(k, |s|)];
    assert gone in s;
    var i :| 0 <= i < |s| && s[i] == gone;
    assert forall n :: 0 <= n < |slate| ==> s[n] == slate[n] && s[n] in slate;
    SlateFromRanking(node, target, s, i, after, workers, k);
    TakeWithoutBystander(s, i, k);
  }

  /** When an owner leaves, the others keep their order and at most the next closest worker joins at the end. */
  lemma OwnerDeparture(node: string -> NodeId, target: NodeId, slate: seq<AgentId>, after: seq<AgentId>,
                       workers: set<AgentId>, i: nat, k: nat)
    requires i < |slate|
    requires IsSlate(node, target, slate, workers, k) && IsSlate(node, target, after, workers - {slate[i]}, k)
    ensures after == Without(slate, i)
            || exists w :: after == Without(slate, i) + [w] && Joins(node, target, slate, workers, w)
  {
    var s :| IsRanking(node, target, s, workers) && slate == s[..SlateSize(k, |s|)];
    assert slate[i] == s[i];
    SlateFromRanking(node, target, s, i, after, workers, k);
    TakeWithoutOwner(s, i, k);
    if |slate| < |s| {
      NextJoins(node, target, s, |slate|, workers);
    }
  }
}
