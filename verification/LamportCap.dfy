/** The future-dating cap: which chained events survive, as a fixpoint over their own clocks. */
module LamportCap {
  import opened Domain
  import opened FoldEvents

  const SKEW: nat := 64

  predicate Ascending(s: seq<Event>) {
    forall i, j :: 0 <= i < j < |s| ==> s[i].lamport <= s[j].lamport
  }

  /******* One pass *******/

  /** The admitted maximum before position `i`, no event before it being too far ahead. */
  function Horizon(s: seq<Event>, i: nat): nat
    requires i <= |s|
  {
    if i == 0 then 0 else s[i - 1].lamport
  }

  /** First position at or after `i` whose event is too far ahead. */
  function Gap(s: seq<Event>, i: nat): (g: nat)
    requires i <= |s|
    ensures i <= g <= |s|
    decreases |s| - i
  {
    if i == |s| || s[i].lamport > Horizon(s, i) + SKEW then i else Gap(s, i + 1)
  }

  lemma {:induction false} GapIsFirst(s: seq<Event>, i: nat, k: nat)
    requires i <= |s|
    ensures Gap(s, i) < |s| ==> s[Gap(s, i)].lamport > Horizon(s, Gap(s, i)) + SKEW
    ensures i <= k < Gap(s, i) ==> s[k].lamport <= Horizon(s, k) + SKEW
    decreases |s| - i
  {
    if i < |s| && s[i].lamport <= Horizon(s, i) + SKEW {
      GapIsFirst(s, i + 1, k);
    }
  }

  /** The event, or an earlier one of its author, lies beyond the gap. */
  predicate Cut(s: seq<Event>, g: nat, e: Event) {
    exists j :: g <= j < |s| && s[j].author == e.author && s[j].seqNo <= e.seqNo
  }

  function Uncut(s: seq<Event>, g: nat, i: nat): (r: seq<Event>)
    requires i <= |s|
    ensures |r| <= i && (forall k :: 0 <= k < i && Cut(s, g, s[k]) ==> |r| < i)
  {
    if i == 0 then []
    else if Cut(s, g, s[i - 1]) then Uncut(s, g, i - 1)
    else Uncut(s, g, i - 1) + [s[i - 1]]
  }

  /** Passes until nothing more is removed. */
  function Cap(s: seq<Event>): seq<Event>
    decreases |s|
  {
    var g := Gap(s, 0);
    if g == |s| then s else assert Cut(s, g, s[g]); Cap(Uncut(s, g, |s|))
  }

  lemma {:induction false} UncutHolds(s: seq<Event>, g: nat, i: nat, e: Event)
    requires i <= |s|
    ensures e in Uncut(s, g, i) <==> e in s[..i] && !Cut(s, g, e)
  {
    if i > 0 {
      UncutHolds(s, g, i - 1, e);
      assert s[..i] == s[..i - 1] + [s[i - 1]];
    }
  }

  lemma AscendingAppend(s: seq<Event>, last: Event)
    requires Ascending(s) && forall x :: x in s ==> x.lamport <= last.lamport
    ensures Ascending(s + [last])
  {
    assert forall i :: 0 <= i < |s| ==> s[i] in s;
  }

  lemma {:induction false} UncutAscends(s: seq<Event>, g: nat, i: nat)
    requires i <= |s| && Ascending(s)
    ensures Ascending(Uncut(s, g, i))
  {
    if i > 0 {
      UncutAscends(s, g, i - 1);
      forall x | x in Uncut(s, g, i - 1) ensures x.lamport <= s[i - 1].lamport {
        UncutHolds(s, g, i - 1, x);
      }
      AscendingAppend(Uncut(s, g, i - 1), s[i - 1]);
    }
  }

  /** A pass keeps the order, and exactly the events it does not cut. */
  lemma UncutKeeps(s: seq<Event>, g: nat)
    requires Ascending(s)
    ensures Ascending(Uncut(s, g, |s|))
    ensures forall e :: e in Uncut(s, g, |s|) <==> e in s && !Cut(s, g, e)
  {
    UncutAscends(s, g, |s|);
    forall e ensures e in Uncut(s, g, |s|) <==> e in s && !Cut(s, g, e) {
      UncutHolds(s, g, |s|, e);
      assert s[..|s|] == s;
    }
  }

  /** After `i` positions: each author marked from `g` on, with its lowest marked number. */
  ghost predicate Truncates(s: seq<Event>, g: nat, i: nat, truncate: map<AgentId, nat>)
    requires i <= |s|
  {
    && (forall a :: a in truncate ==> MarkedAt(s, g, i, a, truncate[a]))
    && (forall j :: g <= j < i ==> s[j].author in truncate && truncate[s[j].author] <= s[j].seqNo)
  }

  ghost predicate MarkedAt(s: seq<Event>, g: nat, i: nat, a: AgentId, n: nat)
    requires i <= |s|
  {
    exists j :: g <= j < i && s[j].author == a && s[j].seqNo == n
  }

  lemma TruncatesStep(s: seq<Event>, g: nat, i: nat, truncate: map<AgentId, nat>)
    requires g <= i < |s| && Truncates(s, g, i, truncate)
    ensures Truncates(s, g, i + 1, truncate[s[i].author := Lower(truncate, s[i])])
  {
    var more := truncate[s[i].author := Lower(truncate, s[i])];
    forall a | a in more ensures MarkedAt(s, g, i + 1, a, more[a]) {
      if a in truncate && more[a] == truncate[a] {
        assert MarkedAt(s, g, i, a, truncate[a]);
      } else {
        assert s[i].author == a && s[i].seqNo == more[a];
      }
    }
  }

  function Lower(truncate: map<AgentId, nat>, e: Event): nat {
    if e.author in truncate then Min(truncate[e.author], e.seqNo) else e.seqNo
  }

  lemma TruncatesMeans(s: seq<Event>, g: nat, truncate: map<AgentId, nat>, e: Event)
    requires Truncates(s, g, |s|, truncate)
    ensures Truncated(truncate, e) <==> Cut(s, g, e)
  {
    if Truncated(truncate, e) {
      assert MarkedAt(s, g, |s|, e.author, truncate[e.author]);
    }
  }

  predicate MarksFrom(marked: seq<bool>, g: nat) {
    forall k :: 0 <= k < |marked| ==> (marked[k] <==> k >= g)
  }

  /** The marking walk after `i` positions: everything from the gap on is marked. */
  ghost predicate Walked(s: seq<Event>, i: nat, marked: seq<bool>, truncate: map<AgentId, nat>, runningMax: nat) {
    var g := Gap(s, 0);
    && i <= |s| && |marked| == i && MarksFrom(marked, g)
    && runningMax == Horizon(s, Min(i, g))
    && Truncates(s, g, i, truncate) && (truncate == map[] <==> i <= g)
  }

  lemma WalkMarks(s: seq<Event>, i: nat, marked: seq<bool>, truncate: map<AgentId, nat>, runningMax: nat)
    requires i < |s| && Gap(s, 0) <= i && Walked(s, i, marked, truncate, runningMax)
    ensures Walked(s, i + 1, marked + [true], truncate[s[i].author := Lower(truncate, s[i])], runningMax)
  {
    TruncatesStep(s, Gap(s, 0), i, truncate);
    assert s[i].author in truncate[s[i].author := Lower(truncate, s[i])];
  }

  lemma WalkPasses(s: seq<Event>, i: nat, marked: seq<bool>, truncate: map<AgentId, nat>, runningMax: nat)
    requires Ascending(s) && i < Gap(s, 0) && Walked(s, i, marked, truncate, runningMax)
    ensures Walked(s, i + 1, marked + [false], truncate, Max(runningMax, s[i].lamport))
  {
    AheadIff(s, i);
    assert Truncates(s, Gap(s, 0), i + 1, truncate) by {
      assert truncate == map[];
    }
  }

  lemma WalkDecides(s: seq<Event>, i: nat, marked: seq<bool>, truncate: map<AgentId, nat>, runningMax: nat)
    requires Ascending(s) && i < |s| && Walked(s, i, marked, truncate, runningMax)
    ensures s[i].lamport > Min(runningMax + SKEW, U64_MAX) <==> Gap(s, 0) <= i
  {
    AheadIff(s, i);
  }

  method MarkAhead(s: seq<Event>) returns (marked: seq<bool>, truncate: map<AgentId, nat>)
    requires Ascending(s)
    ensures exists runningMax :: Walked(s, |s|, marked, truncate, runningMax)
  {
    var runningMax: nat := 0;
    marked, truncate := [], map[];
    for i := 0 to |s|
      invariant Walked(s, i, marked, truncate, runningMax)
    {
      var e := s[i];
      WalkDecides(s, i, marked, truncate, runningMax);
      if e.lamport > Min(runningMax + SKEW, U64_MAX) {
        WalkMarks(s, i, marked, truncate, runningMax);
        marked := marked + [true];
        truncate := truncate[e.author := Lower(truncate, e)];
      } else {
        WalkPasses(s, i, marked, truncate, runningMax);
        marked := marked + [false];
        runningMax := Max(runningMax, e.lamport);
      }
    }
  }

  /** The removing walk. */
  method RemoveMarked(s: seq<Event>, marked: seq<bool>, truncate: map<AgentId, nat>) returns (next: seq<Event>)
    requires exists runningMax :: Walked(s, |s|, marked, truncate, runningMax)
    ensures next == Uncut(s, Gap(s, 0), |s|)
  {
    next := [];
    for i := 0 to |s|
      invariant next == Uncut(s, Gap(s, 0), i)
    {
      TruncatesMeans(s, Gap(s, 0), truncate, s[i]);
      if !marked[i] && !Truncated(truncate, s[i]) {
        next := next + [s[i]];
      }
    }
  }

  lemma AheadIff(s: seq<Event>, i: nat)
    requires Ascending(s) && i < |s|
    ensures var g := Gap(s, 0); s[i].lamport > Horizon(s, Min(i, g)) + SKEW <==> i >= g
    ensures i > 0 ==> Horizon(s, i) <= s[i].lamport
  {
    var g := Gap(s, 0);
    GapIsFirst(s, 0, i);
    if g < i {
      assert s[g].lamport <= s[i].lamport;
    }
  }

  predicate Truncated(truncate: map<AgentId, nat>, e: Event) {
    e.author in truncate && e.seqNo >= truncate[e.author]
  }

  lemma PassKeeps(s: seq<Event>)
    requires Ascending(s) && Gap(s, 0) < |s|
    ensures var next := Uncut(s, Gap(s, 0), |s|);
            Ascending(next) && |next| < |s| && Cap(s) == Cap(next)
  {
    UncutKeeps(s, Gap(s, 0));
    assert Cut(s, Gap(s, 0), s[Gap(s, 0)]);
  }

  /** `apply_lamport_cap`, on candidates already in clock order. */
  method ApplyLamportCap(cands: seq<Event>) returns (survivors: seq<Event>)
    requires Ascending(cands)
    ensures survivors == Cap(cands)
  {
    survivors := cands;
    while true
      invariant Ascending(survivors) && Cap(survivors) == Cap(cands)
      decreases |survivors|
    {
      var marked, truncate := MarkAhead(survivors);
      if truncate == map[] {
        return;
      }
      PassKeeps(survivors);
      survivors := RemoveMarked(survivors, marked, truncate);
    }
  }

  /******* What survives *******/

  /** Reached from clock zero in steps of at most `SKEW` over members only. */
  ghost predicate Reached(events: set<Event>) {
    forall e :: e in events ==> Within(events, e)
  }

  /** With every event come its author's earlier ones. */
  ghost predicate PrefixClosed(events: set<Event>, cands: seq<Event>) {
    forall e, d :: e in events && d in cands && d.author == e.author && d.seqNo <= e.seqNo ==> d in events
  }

  /** A set of candidates that can be admitted together. */
  ghost predicate Admissible(events: set<Event>, cands: seq<Event>) {
    (forall e :: e in events ==> e in cands) && Reached(events) && PrefixClosed(events, cands)
  }

  function Members(s: seq<Event>): set<Event> { set e | e in s }

  /** Nothing admissible reaches across the gap. */
  lemma {:induction false} BeyondTheGap(s: seq<Event>, events: set<Event>, j: nat)
    requires Ascending(s) && Gap(s, 0) <= j < |s| && Reached(events) && events <= Members(s)
    ensures s[j] !in events
    decreases s[j].lamport
  {
    AheadIff(s, j);
    if s[j] in events {
      assert Within(events, s[j]);
      var d :| d in events && d.lamport < s[j].lamport <= d.lamport + SKEW;
      assert d in Members(s);
      var k :| 0 <= k < |s| && s[k] == d;
      if k >= Gap(s, 0) {
        BeyondTheGap(s, events, k);
      }
    }
  }

  ghost predicate Within(events: set<Event>, e: Event) {
    e.lamport <= SKEW || exists d :: d in events && d.lamport < e.lamport <= d.lamport + SKEW
  }

  lemma {:induction false} WithoutGapReached(s: seq<Event>, events: set<Event>, j: nat)
    requires Ascending(s) && Gap(s, 0) == |s| && j < |s| && events == Members(s)
    ensures Within(events, s[j])
    decreases j
  {
    GapIsFirst(s, 0, j);
    if j > 0 {
      var d := s[j - 1];
      assert d in events && d.lamport <= s[j].lamport <= d.lamport + SKEW;
      if d.lamport == s[j].lamport {
        WithoutGapReached(s, events, j - 1);
      }
    }
  }

  /** An admissible set loses nothing to a pass. */
  lemma AdmissibleUncut(s: seq<Event>, events: set<Event>, cands: seq<Event>, e: Event)
    requires Ascending(s) && Admissible(events, cands) && events <= Members(s) && (forall d :: d in s ==> d in cands) && e in events
    ensures !Cut(s, Gap(s, 0), e)
  {
    if Cut(s, Gap(s, 0), e) {
      var j :| Gap(s, 0) <= j < |s| && s[j].author == e.author && s[j].seqNo <= e.seqNo;
      assert s[j] in s;
      BeyondTheGap(s, events, j);
    }
  }

  /** A pass keeps a set closed under author prefixes. */
  lemma UncutIsClosed(s: seq<Event>, cands: seq<Event>, g: nat)
    requires Ascending(s) && PrefixClosed(Members(s), cands)
    ensures PrefixClosed(Members(Uncut(s, g, |s|)), cands)
  {
    UncutKeeps(s, g);
  }

  lemma {:induction false} CapIsGreatestWithin(s: seq<Event>, cands: seq<Event>)
    requires Ascending(s) && PrefixClosed(Members(s), cands) && forall e :: e in s ==> e in cands
    ensures Admissible(Members(Cap(s)), cands) && Ascending(Cap(s))
    ensures forall events :: Admissible(events, cands) && events <= Members(s) ==> events <= Members(Cap(s))
    decreases |s|
  {
    var g := Gap(s, 0);
    if g == |s| {
      forall e | e in Members(s) ensures Within(Members(s), e) {
        var j :| 0 <= j < |s| && s[j] == e;
        WithoutGapReached(s, Members(s), j);
      }
    } else {
      var next := Uncut(s, g, |s|);
      assert Cut(s, g, s[g]);
      UncutKeeps(s, g);
      UncutIsClosed(s, cands, g);
      CapIsGreatestWithin(next, cands);
      forall events | Admissible(events, cands) && events <= Members(s) ensures events <= Members(next) {
        forall e | e in events ensures e in next {
          AdmissibleUncut(s, events, cands, e);
        }
      }
    }
  }

  /** The survivors are admissible together, and hold every set of candidates that is: the greatest
      fixpoint. No rejected event ever widened the horizon of an admitted one. */
  lemma CapIsGreatest(cands: seq<Event>, events: set<Event>)
    requires Ascending(cands)
    ensures Admissible(Members(Cap(cands)), cands)
    ensures Admissible(events, cands) ==> events <= Members(Cap(cands))
  {
    CapIsGreatestWithin(cands, cands);
  }

  /** So the survivors depend on which candidates there are, not on how ties were ordered. */
  lemma CapIsOrderFree(a: seq<Event>, b: seq<Event>)
    requires Ascending(a) && Ascending(b) && Members(a) == Members(b)
    ensures Members(Cap(a)) == Members(Cap(b))
  {
    assert forall e :: e in a <==> e in Members(a);
    assert forall e :: e in b <==> e in Members(b);
    CapIsGreatest(a, Members(Cap(b)));
    CapIsGreatest(b, Members(Cap(a)));
  }
}
