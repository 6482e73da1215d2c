/** Claim freshness: TTL and heartbeat arithmetic, and the stance an agent takes towards a claim.

Spans and instants are nanoseconds.
 */
module Freshness {
  import opened Domain

  datatype Stance = FreshSelf | StaleSelf | Foreign

  /** Effective claim TTL: milliseconds saturate at `i64::MAX`. */
  function IssueTtl(shard: Option<Shard>, defaultTtl: int): int {
    if shard.Some? then Min(shard.value.claimTtlMs, I64_MAX) * NANOS_PER_MILLI else defaultTtl
  }

  function HeartbeatIntervalForTtl(ttl: int): nat {
    Max(Max(ttl / NANOS_PER_MILLI, 0) / 4, 1) * NANOS_PER_MILLI
  }

  function HeartbeatInterval(shard: Option<Shard>, defaultTtl: int): nat {
    if shard.Some? then Max(shard.value.claimTtlMs / 4, 1) * NANOS_PER_MILLI else HeartbeatIntervalForTtl(defaultTtl)
  }

  function IsStale(claim: Claim, now: int, ttl: int): Outcome<bool> {
    if claim.heartbeatAt.instant.None? then Err else Ok(now - claim.heartbeatAt.instant.value >= ttl)
  }

  function Classify(claim: Claim, self: AgentId, now: int, ttl: int): Outcome<Stance> {
    if claim.owner != self then Ok(Foreign)
    else match IsStale(claim, now, ttl)
         case Err => Err
         case Ok(stale) => Ok(if stale then StaleSelf else FreshSelf)
  }

  function FirstIndex(agents: seq<AgentId>, a: AgentId): Option<nat> {
    if agents == [] then None
    else if agents[0] == a then Some(0)
    else
      var rest := FirstIndex(agents[1..], a);
      if rest.None? then None else Some(rest.value + 1)
  }

  function AgentRole(shard: Shard, a: AgentId): Option<ShardRole> {
    if shard.primary == a then Some(Primary)
    else
      var at := FirstIndex(shard.backups, a);
      if at.None? then None else Some(Backup(at.value))
  }

  function ShouldTakeOver(shard: Option<Shard>, claim: Claim, self: AgentId, now: int, ttl: int): Outcome<bool> {
    if shard.None? || shard.value.primary != claim.owner || claim.role != Primary then Ok(false)
    else
      var role := AgentRole(shard.value, self);
      if role.None? || !role.value.Backup? || Rank(claim.role) >= Rank(role.value) then Ok(false)
      else IsStale(claim, now, ttl)
  }

  /** Across both saturating conversions, the interval is positive, and below the TTL from 2 ms on. */
  lemma ShardIntervalBelowTtlIff(shard: Shard, defaultTtl: int)
    requires shard.claimTtlMs <= U64_MAX
    ensures HeartbeatInterval(Some(shard), defaultTtl) > 0
    ensures HeartbeatInterval(Some(shard), defaultTtl) < IssueTtl(Some(shard), defaultTtl) <==> shard.claimTtlMs >= 2
  {
  }

  /** Without a shard the same holds for every TTL above one millisecond. */
  lemma DefaultIntervalBelowTtlIff(defaultTtl: int)
    ensures HeartbeatInterval(None, defaultTtl) > 0
    ensures HeartbeatInterval(None, defaultTtl) < IssueTtl(None, defaultTtl) <==> defaultTtl > NANOS_PER_MILLI
  {
  }

  lemma {:induction false} FirstIndexFinds(agents: seq<AgentId>, a: AgentId)
    ensures FirstIndex(agents, a).Some? <==> a in agents
  {
    if agents != [] {
      FirstIndexFinds(agents[1..], a);
    }
  }

  /** Only a backup takes over, only from the shard's own primary, and only once the beat is a TTL old. */
  lemma TakeoverIff(shard: Option<Shard>, claim: Claim, self: AgentId, now: int, ttl: int)
    ensures ShouldTakeOver(shard, claim, self, now, ttl) == Ok(true)
            <==> && shard.Some? && claim.owner == shard.value.primary && claim.role == Primary
                 && self in shard.value.backups && self != claim.owner
                 && claim.heartbeatAt.instant.Some? && now >= claim.heartbeatAt.instant.value + ttl
  {
    if shard.Some? {
      FirstIndexFinds(shard.value.backups, self);
    }
  }

  /** Index of the last beat at or before `t`. */
  function LatestBeat(beats: seq<int>, t: int): (k: nat)
    requires beats != [] && beats[0] <= t
    ensures k < |beats| && beats[k] <= t
    ensures k + 1 < |beats| ==> t < beats[k + 1]
  {
    if |beats| == 1 || beats[|beats| - 1] <= t then |beats| - 1 else LatestBeat(beats[..|beats| - 1], t)
  }

  /** Beats less than one TTL apart. */
  predicate Steady(beats: seq<int>, ttl: int) {
    forall i :: 0 <= i < |beats| - 1 ==> beats[i] <= beats[i + 1] < beats[i] + ttl
  }

  /** While beats land less than one TTL apart, nobody ever sees the claim as stale: its owner resumes it
      and no backup may take it over. */
  lemma SteadyClaimNeverStale(claim: Claim, beats: seq<int>, t: int, ttl: int, shard: Option<Shard>, agent: AgentId)
    requires beats != [] && Steady(beats, ttl) && beats[0] <= t < beats[|beats| - 1] + ttl
    requires claim.heartbeatAt.instant == Some(beats[LatestBeat(beats, t)])
    ensures Classify(claim, claim.owner, t, ttl) == Ok(FreshSelf)
    ensures ShouldTakeOver(shard, claim, agent, t, ttl) == Ok(false)
  {
  }

  /** A heartbeat that fires every interval, each beat late by less than what the TTL leaves over, is steady. */
  lemma IntervalBeatsAreSteady(shard: Shard, defaultTtl: int, beats: seq<int>, slack: nat)
    requires 2 <= shard.claimTtlMs <= U64_MAX
    requires slack < IssueTtl(Some(shard), defaultTtl) - HeartbeatInterval(Some(shard), defaultTtl)
    requires forall i :: 0 <= i < |beats| - 1
                         ==> beats[i] <= beats[i + 1] <= beats[i] + HeartbeatInterval(Some(shard), defaultTtl) + slack
    ensures Steady(beats, IssueTtl(Some(shard), defaultTtl))
  {
  }

  /** Such a slack exists from 2 ms on, so a claim beaten on schedule is never stale: its owner resumes it
      and no backup may take it over. */
  lemma ScheduledClaimNeverStale(claim: Claim, shard: Shard, defaultTtl: int, beats: seq<int>, slack: nat, t: int, agent: AgentId)
    requires 2 <= shard.claimTtlMs <= U64_MAX && beats != []
    requires slack < IssueTtl(Some(shard), defaultTtl) - HeartbeatInterval(Some(shard), defaultTtl)
    requires forall i :: 0 <= i < |beats| - 1
                         ==> beats[i] <= beats[i + 1] <= beats[i] + HeartbeatInterval(Some(shard), defaultTtl) + slack
    requires beats[0] <= t <= beats[|beats| - 1] + HeartbeatInterval(Some(shard), defaultTtl) + slack
    requires claim.heartbeatAt.instant == Some(beats[LatestBeat(beats, t)])
    ensures 0 < IssueTtl(Some(shard), defaultTtl) - HeartbeatInterval(Some(shard), defaultTtl)
    ensures Classify(claim, claim.owner, t, IssueTtl(Some(shard), defaultTtl)) == Ok(FreshSelf)
    ensures ShouldTakeOver(Some(shard), claim, agent, t, IssueTtl(Some(shard), defaultTtl)) == Ok(false)
  {
    ShardIntervalBelowTtlIff(shard, defaultTtl);
    IntervalBeatsAreSteady(shard, defaultTtl, beats, slack);
    SteadyClaimNeverStale(claim, beats, t, IssueTtl(Some(shard), defaultTtl), Some(shard), agent);
  }
}
