/** Duplicate claims on one issue: every claimant abandons its losing side. */
module Conflict {
  import opened Domain
  import opened Ordering

  /** Rank, then owner, then claim time; heartbeats and signatures are not compared. */
  predicate Precedes(a: Claim, b: Claim) {
    Rank(a.role) < Rank(b.role)
    || (Rank(a.role) == Rank(b.role)
        && (TextLess(a.owner, b.owner) || (a.owner == b.owner && TextLess(a.at.text, b.at.text))))
  }

  lemma PrecedesOrder(a: Claim, b: Claim, c: Claim)
    ensures !Precedes(a, a)
    ensures Precedes(a, b) && Precedes(b, c) ==> Precedes(a, c)
    ensures !Precedes(a, b) && !Precedes(b, a) ==> a.owner == b.owner
  {
    TextOrder(a.owner, b.owner, c.owner);
    TextOrder(b.owner, c.owner, a.owner);
    TextOrder(c.owner, a.owner, b.owner);
    TextOrder(b.owner, a.owner, a.owner);
    TextOrder(a.at.text, b.at.text, c.at.text);
    TextOrder(b.at.text, c.at.text, a.at.text);
    TextOrder(c.at.text, a.at.text, b.at.text);
    TextOrder(b.at.text, a.at.text, a.at.text);
  }

  /** `min_by`: the first of the least claims. */
  function Winner(claims: seq<Claim>): Claim
    requires claims != []
  {
    var last := claims[|claims| - 1];
    if |claims| == 1 then last
    else
      var best := Winner(claims[..|claims| - 1]);
      if Precedes(last, best) then last else best
  }

  lemma {:induction false} WinnerIsLeast(claims: seq<Claim>)
    requires claims != []
    ensures Winner(claims) in claims
    ensures forall c :: c in claims ==> !Precedes(c, Winner(claims))
  {
    var rest, last := claims[..|claims| - 1], claims[|claims| - 1];
    assert claims == rest + [last];
    if rest == [] {
      PrecedesOrder(last, last, last);
    } else {
      WinnerIsLeast(rest);
      var best := Winner(rest);
      forall c | c in claims ensures !Precedes(c, Winner(claims)) {
        PrecedesOrder(last, last, last);
        if c in rest && Precedes(last, best) {
          PrecedesOrder(c, last, best);
        }
      }
    }
  }

  /** ADR-0002: the lowest rank wins, then the smaller owner, then the earlier claim text. */
  lemma LowestRankWins(claims: seq<Claim>, c: Claim)
    requires c in claims
    ensures var w := Winner(claims);
            && Rank(w.role) <= Rank(c.role)
            && (Rank(w.role) == Rank(c.role) ==> !TextLess(c.owner, w.owner))
            && (Rank(w.role) == Rank(c.role) && w.owner == c.owner ==> !TextLess(c.at.text, w.at.text))
  {
    WinnerIsLeast(claims);
  }

  /** One agent's pass over the claims it sees; `Ok(false)` when there is no conflict to resolve. A claim
      is released even when its abandonment record cannot be written, which ends the pass. */
  method ReconcileConflict(self: AgentId, claims: seq<Claim>, releases: nat -> bool, records: nat -> bool)
    returns (r: Outcome<bool>, released: seq<Claim>)
    ensures r.Err? <==> |claims| > 1 && exists i :: 0 <= i < |claims| && Abandons(self, claims, claims[i]) && !(releases(i) && records(i))
    ensures r.Ok? ==> (r.value <==> |claims| > 1)
    ensures r.Ok? ==> forall c :: c in released <==> r.value && c in claims && Abandons(self, claims, c)
    ensures r.Err? ==> exists i :: 0 <= i < |claims| && Abandons(self, claims, claims[i]) && !(releases(i) && records(i))
                                   && released == Losing(self, claims, i) + if releases(i) then [claims[i]] else []
  {
    released := [];
    if |claims| <= 1 {
      return Ok(false), [];
    }
    var winner := Winner(claims);
    for i := 0 to |claims|
      invariant released == Losing(self, claims, i)
      invariant forall k :: 0 <= k < i && Abandons(self, claims, claims[k]) ==> releases(k) && records(k)
    {
      if claims[i] != winner && claims[i].owner == self {
        if !releases(i) {
          return Err, released;
        }
        released := released + [claims[i]];
        if !records(i) {
          return Err, released;
        }
      }
    }
    LosingHolds(self, claims, |claims|);
    assert claims[..|claims|] == claims;
    r := Ok(true);
  }

  /** This agent's losing claims among the first `n`, in order. */
  function Losing(self: AgentId, claims: seq<Claim>, n: nat): seq<Claim>
    requires claims != [] && n <= |claims|
  {
    if n == 0 then []
    else Losing(self, claims, n - 1) + if Abandons(self, claims, claims[n - 1]) then [claims[n - 1]] else []
  }

  lemma {:induction false} LosingHolds(self: AgentId, claims: seq<Claim>, n: nat)
    requires claims != [] && n <= |claims|
    ensures forall c :: c in Losing(self, claims, n) <==> c in claims[..n] && Abandons(self, claims, c)
  {
    if n > 0 {
      LosingHolds(self, claims, n - 1);
      assert claims[..n] == claims[..n - 1] + [claims[n - 1]];
    }
  }

  predicate Abandons(self: AgentId, claims: seq<Claim>, c: Claim)
    requires claims != [] || c !in claims
  {
    claims != [] && c != Winner(claims) && c.owner == self
  }

  /** Two agents that see the same claims, in whatever order, name the same winning owner. */
  lemma WinnersShareOwner(a: seq<Claim>, b: seq<Claim>)
    requires a != [] && b != [] && forall c :: c in a <==> c in b
    ensures Winner(a).owner == Winner(b).owner
  {
    WinnerIsLeast(a);
    WinnerIsLeast(b);
    PrecedesOrder(Winner(a), Winner(b), Winner(a));
  }

  /** Each agent's own view of the same conflicting claims, with every owner taking part. */
  ghost predicate SharedConflict(claims: set<Claim>, views: map<AgentId, seq<Claim>>) {
    && (forall a :: a in views ==> |views[a]| > 1 && forall c :: c in views[a] <==> c in claims)
    && (forall c :: c in claims ==> c.owner in views)
  }

  /** Once every claimant has reconciled, one claim value is left and all agree on whose it is. */
  lemma ConflictConverges(claims: set<Claim>, views: map<AgentId, seq<Claim>>) returns (kept: Claim)
    requires claims != {} && SharedConflict(claims, views)
    ensures kept in claims
    ensures forall a :: a in views ==> Winner(views[a]).owner == kept.owner
    ensures forall c :: c in claims ==> (!Abandons(c.owner, views[c.owner], c) <==> c == kept)
  {
    var any :| any in claims;
    var lead := Winner(views[any.owner]);
    WinnerIsLeast(views[any.owner]);
    kept := Winner(views[lead.owner]);
    WinnerIsLeast(views[lead.owner]);
    forall a | a in views ensures Winner(views[a]).owner == lead.owner {
      SameWinningOwner(claims, views, a, any.owner);
    }
    forall c | c in claims ensures !Abandons(c.owner, views[c.owner], c) <==> c == kept {
      OneStays(lead.owner, views, c);
    }
  }

  lemma SameWinningOwner(claims: set<Claim>, views: map<AgentId, seq<Claim>>, a: AgentId, b: AgentId)
    requires SharedConflict(claims, views) && a in views && b in views
    ensures Winner(views[a]).owner == Winner(views[b]).owner
  {
    WinnersShareOwner(views[a], views[b]);
  }

  lemma OneStays(lead: AgentId, views: map<AgentId, seq<Claim>>, c: Claim)
    requires c.owner in views && lead in views && views[c.owner] != [] && views[lead] != []
    requires Winner(views[c.owner]).owner == lead && Winner(views[lead]).owner == lead
    ensures !Abandons(c.owner, views[c.owner], c) <==> c == Winner(views[lead])
  {
  }
}
