/** Concurrency accounting: a global cap, optional per-state caps, and the in-flight table.

`claim_next` reserves a slot, then asks the tracker, then registers the claim or gives the slot back;
other tasks run between those phases. The ledger counts reservations that are still between phases.
 */
module Scheduler {
  import opened Domain

  datatype Usage = Usage(globalCap: nat, globalUsed: nat, caps: map<IssueState, nat>, used: map<IssueState, nat>)

  function SaturatingSub(a: nat, b: nat): nat { if a < b then 0 else a - b }

  function SaturatingIncrement(a: nat): nat { if a >= U64_MAX then U64_MAX else a + 1 }

  function UsedBy(u: Usage, state: IssueState): nat { if state in u.used then u.used[state] else 0 }

  function Headroom(u: Usage, state: IssueState): nat {
    var global := SaturatingSub(u.globalCap, u.globalUsed);
    var perState := if state in u.caps then SaturatingSub(u.caps[state], UsedBy(u, state)) else U64_MAX;
    Min(global, perState)
  }

  function Acquired(u: Usage, state: IssueState): Usage {
    u.(globalUsed := SaturatingIncrement(u.globalUsed),
       used := if state in u.caps then u.used[state := SaturatingIncrement(UsedBy(u, state))] else u.used)
  }

  function Freed(u: Usage, state: IssueState): Usage {
    u.(globalUsed := SaturatingSub(u.globalUsed, 1),
       used := if state in u.used then u.used[state := SaturatingSub(u.used[state], 1)] else u.used)
  }

  class Budget {
    const globalCap: nat
    var globalUsed: nat
    const caps: map<IssueState, nat>
    var used: map<IssueState, nat>

    constructor (globalCap: nat, caps: map<IssueState, nat>)
      ensures Value() == Usage(globalCap, 0, caps, map[])
    {
      this.globalCap, this.caps := globalCap, caps;
      globalUsed, used := 0, map[];
    }

    function Value(): Usage
      reads this
    {
      Usage(globalCap, globalUsed, caps, used)
    }

    method TryAcquire(state: IssueState) returns (ok: bool)
      modifies this
      ensures ok <==> Headroom(old(Value()), state) > 0
      ensures Value() == if ok then Acquired(old(Value()), state) else old(Value())
    {
      if Headroom(Value(), state) == 0 {
        return false;
      }
      globalUsed := SaturatingIncrement(globalUsed);
      if state in caps {
        var entry := if state in used then used[state] else 0;
        used := used[state := SaturatingIncrement(entry)];
      }
      ok := true;
    }

    method Release(state: IssueState)
      modifies this
      ensures Value() == Freed(old(Value()), state)
    {
      globalUsed := SaturatingSub(globalUsed, 1);
      if state in used {
        used := used[state := SaturatingSub(used[state], 1)];
      }
    }
  }

  /******* The ledger and its interleaved steps *******/

  datatype Ledger = Ledger(usage: Usage, inFlight: map<IssueId, IssueState>, pending: multiset<IssueState>)

  /** Each step is one critical section under the state lock. */
  datatype Step =
    | Reserve(state: IssueState)
    | Register(id: IssueId, state: IssueState)
    | GiveBack(state: IssueState)
    | ReleaseSlot(id: IssueId)

  /** Only a task holding a reservation registers it or gives it back. */
  predicate Enabled(l: Ledger, step: Step) {
    match step
    case Register(_, state) => state in l.pending
    case GiveBack(state) => state in l.pending
    case _ => true
  }

  function Next(l: Ledger, step: Step): Ledger {
    match step
    case Reserve(state) =>
      if Headroom(l.usage, state) == 0 then l
      else l.(usage := Acquired(l.usage, state), pending := l.pending + multiset{state})
    case Register(id, state) => l.(inFlight := l.inFlight[id := state], pending := l.pending - multiset{state})
    case GiveBack(state) => l.(usage := Freed(l.usage, state), pending := l.pending - multiset{state})
    case ReleaseSlot(id) =>
      if id !in l.inFlight then l
      else l.(usage := Freed(l.usage, l.inFlight[id]), inFlight := l.inFlight - {id})
  }

  function Running(inFlight: map<IssueId, IssueState>, state: IssueState): set<IssueId> {
    set id | id in inFlight && inFlight[id] == state
  }

  /** Slots are conserved and no cap is exceeded. */
  ghost predicate Conserved(l: Ledger) {
    && l.usage.globalUsed == |l.inFlight| + |l.pending|
    && l.usage.globalUsed <= l.usage.globalCap <= U64_MAX
    && (forall state :: state in l.usage.used ==> state in l.usage.caps)
    && (forall state :: state in l.usage.caps ==> Balanced(l, state))
  }

  ghost predicate Balanced(l: Ledger, state: IssueState)
    requires state in l.usage.caps
  {
    UsedBy(l.usage, state) == |Running(l.inFlight, state)| + l.pending[state]
    && UsedBy(l.usage, state) <= l.usage.caps[state] <= U64_MAX
  }

  /** The step's own arithmetic stays clear of both ends. */
  ghost predicate NeverSaturates(l: Ledger, step: Step) {
    match step
    case Reserve(state) =>
      Headroom(l.usage, state) > 0
      ==> l.usage.globalUsed < U64_MAX && (state in l.usage.caps ==> UsedBy(l.usage, state) < U64_MAX)
    case Register(_, _) => true
    case GiveBack(state) => Frees(l, state)
    case ReleaseSlot(id) => id in l.inFlight ==> Frees(l, l.inFlight[id])
  }

  ghost predicate Frees(l: Ledger, state: IssueState) {
    l.usage.globalUsed >= 1 && (state in l.usage.caps ==> UsedBy(l.usage, state) >= 1)
  }

  lemma RunningAfterInsert(m: map<IssueId, IssueState>, id: IssueId, state: IssueState, other: IssueState)
    requires id !in m
    ensures |Running(m[id := state], other)| == |Running(m, other)| + (if other == state then 1 else 0)
  {
    var n := m[id := state];
    var was, now := Running(m, other), Running(n, other);
    assert id !in was && (id in now <==> other == state);
    forall x | x != id ensures x in now <==> x in was {
      assert x in n <==> x in m;
    }
    if other == state {
      assert now == was + {id};
    } else {
      assert now == was;
    }
  }

  lemma RunningAfterRemove(m: map<IssueId, IssueState>, id: IssueId, other: IssueState)
    requires id in m
    ensures |m - {id}| == |m| - 1
    ensures |Running(m - {id}, other)| == |Running(m, other)| - (if other == m[id] then 1 else 0)
  {
    var n := m - {id};
    assert n.Keys == m.Keys - {id};
    RunningAfterInsert(n, id, m[id], other);
    assert n[id := m[id]] == m;
  }

  lemma ReserveConserves(l: Ledger, state: IssueState)
    requires Conserved(l)
    ensures Conserved(Next(l, Reserve(state))) && NeverSaturates(l, Reserve(state))
  {
  }

  lemma GiveBackConserves(l: Ledger, state: IssueState)
    requires Conserved(l) && state in l.pending
    ensures Conserved(Next(l, GiveBack(state))) && NeverSaturates(l, GiveBack(state))
  {
  }

  lemma ReleaseSlotConserves(l: Ledger, id: IssueId)
    requires Conserved(l)
    ensures Conserved(Next(l, ReleaseSlot(id))) && NeverSaturates(l, ReleaseSlot(id))
  {
    if id in l.inFlight {
      var t := Next(l, ReleaseSlot(id));
      assert id in Running(l.inFlight, l.inFlight[id]);
      assert l.inFlight[id] in l.usage.caps ==> Balanced(l, l.inFlight[id]);
      assert |l.inFlight| >= 1 by { RunningAfterRemove(l.inFlight, id, l.inFlight[id]); }
      forall other | other in t.usage.caps ensures Balanced(t, other) {
        assert Balanced(l, other);
        RunningAfterRemove(l.inFlight, id, other);
      }
      RunningAfterRemove(l.inFlight, id, l.inFlight[id]);
    }
  }

  /** Registering conserves slots exactly when the tracker grants an issue that is not in flight. */
  lemma RegisterConservesIff(l: Ledger, id: IssueId, state: IssueState)
    requires Conserved(l) && state in l.pending
    ensures Conserved(Next(l, Register(id, state))) <==> id !in l.inFlight
  {
    var t := Next(l, Register(id, state));
    if id in l.inFlight {
      assert t.inFlight.Keys == l.inFlight.Keys;
      assert |t.inFlight| == |l.inFlight|;
    } else {
      forall other | other in t.usage.caps ensures Balanced(t, other) {
        assert Balanced(l, other);
        RunningAfterInsert(l.inFlight, id, state, other);
      }
    }
  }

  function After(l: Ledger, run: seq<Step>): Ledger {
    if run == [] then l else Next(After(l, run[..|run| - 1]), run[|run| - 1])
  }

  /** Every step is taken by a task that may take it, and no grant names an issue already in flight. */
  predicate Admissible(l: Ledger, run: seq<Step>) {
    run != [] ==>
      var before := After(l, run[..|run| - 1]);
      var step := run[|run| - 1];
      Admissible(l, run[..|run| - 1]) && Enabled(before, step) && (step.Register? ==> step.id !in before.inFlight)
  }

  /** Under every interleaving: slots conserved, caps kept, no arithmetic saturates. */
  lemma {:induction false} EveryRunConserves(l: Ledger, run: seq<Step>)
    requires Conserved(l) && Admissible(l, run)
    ensures Conserved(After(l, run))
    ensures run != [] ==> NeverSaturates(After(l, run[..|run| - 1]), run[|run| - 1])
  {
    if run != [] {
      var before, step := After(l, run[..|run| - 1]), run[|run| - 1];
      EveryRunConserves(l, run[..|run| - 1]);
      match step
      case Reserve(state) => ReserveConserves(before, state);
      case Register(id, state) => RegisterConservesIff(before, id, state);
      case GiveBack(state) => GiveBackConserves(before, state);
      case ReleaseSlot(id) => ReleaseSlotConserves(before, id);
    }
  }

  lemma FreshLedgerConserves(globalCap: nat, caps: map<IssueState, nat>)
    requires globalCap <= U64_MAX && forall state :: state in caps ==> caps[state] <= U64_MAX
    ensures Conserved(Ledger(Usage(globalCap, 0, caps, map[]), map[], multiset{}))
  {
  }

  /******* claim_next *******/

  /** A polled issue and whether this agent may take it now; `Err` is an unparsable heartbeat. */
  datatype Candidate = Candidate(id: IssueId, state: IssueState, claimable: Outcome<bool>)

  class Orchestrator {
    const budget: Budget
    var inFlight: map<IssueId, IssueState>

    constructor (budget: Budget)
      ensures this.budget == budget && inFlight == map[]
    {
      this.budget := budget;
      inFlight := map[];
    }

    /** The ledger as seen between calls of this agent's own loop. */
    function Books(): Ledger
      reads this, budget
    {
      Ledger(budget.Value(), inFlight, multiset{})
    }

    /** Claims the first takeable candidate the tracker grants, stopping at the first exhausted cap. */
    method ClaimNext(candidates: seq<Candidate>, grants: nat -> bool, shutdown: bool) returns (r: Outcome<Option<nat>>)
      requires Conserved(Books())
      requires forall i :: 0 <= i < |candidates| && grants(i) ==> candidates[i].id !in inFlight
      modifies this, budget
      ensures Conserved(Books())
      ensures r.Err? || r.value.None? ==> inFlight == old(inFlight)
      ensures r.Ok? && r.value.Some? ==>
                var k := r.value.value;
                && k < |candidates| && grants(k) && candidates[k].claimable == Ok(true)
                && inFlight == old(inFlight)[candidates[k].id := candidates[k].state]
                && (forall j :: 0 <= j < k && candidates[j].claimable == Ok(true) ==> !grants(j))
      ensures r == Ok(None) && !shutdown ==>
                || (forall j :: 0 <= j < |candidates| && candidates[j].claimable == Ok(true) ==> !grants(j))
                || (exists j :: 0 <= j < |candidates| && candidates[j].claimable == Ok(true) && Headroom(Books().usage, candidates[j].state) == 0)
    {
      if shutdown {
        return Ok(None);
      }
      for k := 0 to |candidates|
        invariant Conserved(Books()) && inFlight == old(inFlight)
        invariant forall j :: 0 <= j < k && candidates[j].claimable == Ok(true) ==> !grants(j)
      {
        var c := candidates[k];
        if c.claimable.Err? {
          return Err;
        }
        if c.claimable.value {
          ghost var idle := Books();
          var acquired := budget.TryAcquire(c.state);
          if !acquired {
            break;
          }
          ghost var reserved := Next(idle, Reserve(c.state));
          ReserveConserves(idle, c.state);
          if grants(k) {
            inFlight := inFlight[c.id := c.state];
            RegisterConservesIff(reserved, c.id, c.state);
            assert Books() == Next(reserved, Register(c.id, c.state));
            return Ok(Some(k));
          }
          budget.Release(c.state);
          GiveBackConserves(reserved, c.state);
          assert Books() == Next(reserved, GiveBack(c.state));
        }
      }
      return Ok(None);
    }

    /** Frees the slot of a finished run, exactly once per registration. */
    method FreeSlot(id: IssueId)
      requires Conserved(Books())
      modifies this, budget
      ensures Books() == Next(old(Books()), ReleaseSlot(id)) && Conserved(Books())
    {
      ReleaseSlotConserves(Books(), id);
      if id in inFlight {
        var state := inFlight[id];
        inFlight := inFlight - {id};
        budget.Release(state);
      }
    }
  }
}
