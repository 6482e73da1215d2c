/** One claimed issue driven to resolution: `run_claim` as a trace of actions under arbitrary answers
from hooks, runner, shutdown signal, tracker and filesystem.

The monitor replays a trace and records what the properties talk about; `MonitorMeaning` turns its
verdict back into statements about positions in the trace.
 */
module RunClaim {
  import opened Domain
  import G = Gate
  import T = Tracker
  import R = Retry

  datatype Transition = HandedOff | BlockedWith(code: ReasonCode) | ReleasedWith(code: ReasonCode)

  datatype Phase = AfterCreate | BeforeRun | AfterRun | BeforeRemove

  datatype Action =
    | GateVerdict(open: bool)
    | SpawnHeartbeat
    | AbortHeartbeat
    | StartProof
    | CreateWorkspace
    | RunHook(phase: Phase)
    | StartSession
    | RunTurn
    | StopSession
    | Transit(to: Transition)
    | DestroyWorkspace
    | FinishProof
    | Sleep(nanos: nat)
    | ReleaseSlot

  datatype Hook = NoHook | HookSucceeded | HookFailed | HookErrored

  datatype TurnStatus = Succeeded | Failed | TimedOut | Cancelled

  /** Shutdown is polled first, so one signalled before the race leaves the turn unstarted. */
  datatype Turn = ShutdownWins(turnStarted: bool) | TurnErrs | TurnEnds(status: TurnStatus)

  datatype Resolution = Completed | BlockedRun | AwaitsApproval | ShutdownReleased

  /** Per-attempt answers are functions of the attempt number, counted from 1. */
  datatype World = World(
    fetches: bool, proofStarts: bool, creates: bool,
    afterCreate: Hook, beforeRun: nat -> Hook, afterRun: nat -> Hook, beforeRemove: Hook,
    starts: nat -> bool, turn: nat -> Turn, joins: nat -> bool,
    transits: bool, destroys: bool, finishes: bool,
    reviewIsTerminal: bool, blockedIsTerminal: bool)

  /******* Monitor *******/

  datatype Monitor = Monitor(
    open: bool, live: bool, moves: seq<Transition>, starts: nat, turns: nat, stops: nat,
    slept: seq<nat>, slots: nat, safe: bool)

  const IDLE := Monitor(false, false, [], 0, 0, 0, [], 0, true)

  /** The issue was handed off or blocked; a shutdown release preserves the workspace. */
  predicate Removable(m: Monitor) { |m.moves| == 1 && !m.moves[0].ReleasedWith? }

  /** A session needs an open gate and no transition yet; transitions and slot release need a dead heartbeat. */
  function Observe(m: Monitor, a: Action): Monitor {
    match a
    case GateVerdict(open) => m.(open := m.open || open)
    case SpawnHeartbeat => m.(live := true)
    case AbortHeartbeat => m.(live := false)
    case StartSession => m.(starts := m.starts + 1, safe := m.safe && m.open && m.moves == [])
    case RunTurn => m.(turns := m.turns + 1, safe := m.safe && m.turns < m.starts)
    case StopSession => m.(stops := m.stops + 1)
    case Transit(to) => m.(moves := m.moves + [to], safe := m.safe && !m.live && m.starts == m.stops)
    case DestroyWorkspace => m.(safe := m.safe && Removable(m))
    case Sleep(nanos) => m.(slept := m.slept + [nanos])
    case ReleaseSlot => m.(slots := m.slots + 1, safe := m.safe && !m.live && m.starts == m.stops)
    case _ => m
  }

  /** The monitor after the first `n` actions. */
  function ReplayTo(trace: seq<Action>, n: nat): Monitor
    requires n <= |trace|
  {
    if n == 0 then IDLE else Observe(ReplayTo(trace, n - 1), trace[n - 1])
  }

  function Replay(trace: seq<Action>): Monitor { ReplayTo(trace, |trace|) }

  lemma {:induction false} ReplaySharesPrefix(a: seq<Action>, b: seq<Action>, n: nat)
    requires n <= |a| && n <= |b| && a[..n] == b[..n]
    ensures ReplayTo(a, n) == ReplayTo(b, n)
  {
    if n > 0 {
      assert a[n - 1] == a[..n][n - 1] == b[n - 1];
      assert a[..n - 1] == a[..n][..n - 1] == b[..n - 1];
      ReplaySharesPrefix(a, b, n - 1);
    }
  }

  /** The actions that close a run whose transition was acknowledged. */
  function Closing(terminal: bool, w: World): seq<Action> {
    var removes := terminal && w.beforeRemove in {NoHook, HookSucceeded};
    (if terminal && w.beforeRemove != NoHook then [RunHook(BeforeRemove)] else [])
    + (if removes then [DestroyWorkspace] else [])
    + (if removes && !w.destroys then [] else [FinishProof])
  }

  /******* The run *******/

  class ClaimRun {
    var trace: seq<Action>
    var heartbeat: bool
    ghost var seen: Monitor

    constructor ()
      ensures trace == [] && Valid()
    {
      trace, heartbeat, seen := [], false, IDLE;
    }

    /** The handle field and the trace agree on whether the heartbeat task lives. */
    ghost predicate Valid()
      reads this
    {
      seen == Replay(trace) && heartbeat == seen.live
    }

    method Log(a: Action)
      requires seen == Replay(trace)
      modifies this`trace, this`seen
      ensures trace == old(trace) + [a]
      ensures seen == Replay(trace) == Observe(old(seen), a)
    {
      ReplaySharesPrefix(trace, trace + [a], |trace|);
      trace := trace + [a];
      seen := Observe(seen, a);
    }

    method SpawnClaimHeartbeat()
      requires Valid()
      modifies this
      ensures Valid() && seen == old(seen).(live := true)
    {
      Log(SpawnHeartbeat);
      heartbeat := true;
    }

    /** `take()` the handle and abort it, if there is one. */
    method CancelHeartbeat()
      requires Valid()
      modifies this
      ensures Valid() && seen == old(seen).(live := false)
    {
      if heartbeat {
        heartbeat := false;
        Log(AbortHeartbeat);
      }
    }

    method CancelAndTransit(to: Transition)
      requires Valid() && seen.starts == seen.stops
      modifies this
      ensures Valid() && seen == old(seen).(live := false, moves := old(seen).moves + [to])
    {
      CancelHeartbeat();
      Log(Transit(to));
    }

    /** `Ok(true)` when the hook failed and the issue was blocked. */
    method BlockIfHookFailed(phase: Phase, hook: Hook, w: World) returns (r: Outcome<bool>)
      requires Valid() && seen.starts == seen.stops
      modifies this
      ensures Valid()
      ensures r == Ok(false) <==> hook in {NoHook, HookSucceeded}
      ensures r == Ok(false) ==> seen == old(seen)
      ensures r != Ok(false) ==> seen == old(seen).(live := false, moves := old(seen).moves + [BlockedWith(OtherReason)])
    {
      if hook == NoHook {
        return Ok(false);
      }
      Log(RunHook(phase));
      if hook == HookSucceeded {
        return Ok(false);
      }
      CancelAndTransit(BlockedWith(OtherReason));
      r := if w.transits then Ok(true) else Err;
    }

    /** After an acknowledged transition: removes the workspace of a terminal issue, unless its hook
        objects, and closes the proof. */
    method CleanUpAndFinish(terminal: bool, resolution: Resolution, w: World) returns (r: Outcome<Resolution>)
      requires Valid() && (terminal ==> Removable(seen))
      modifies this
      ensures Valid() && seen == old(seen)
      ensures r in {Ok(resolution), Err}
      ensures trace == old(trace) + Closing(terminal, w)
    {
      if terminal {
        if w.beforeRemove != NoHook {
          Log(RunHook(BeforeRemove));
        }
        if w.beforeRemove in {NoHook, HookSucceeded} {
          Log(DestroyWorkspace);
          if !w.destroys {
            return Err;
          }
        }
      }
      Log(FinishProof);
      r := if w.finishes then Ok(resolution) else Err;
    }

    /** The heartbeat stops, the transition is made, and once it is acknowledged the run is closed. */
    method Conclude(to: Transition, terminal: bool, resolution: Resolution, w: World) returns (r: Outcome<Resolution>)
      requires Valid() && seen.starts == seen.stops && seen.moves == [] && (terminal ==> !to.ReleasedWith?)
      modifies this
      ensures Valid() && seen == old(seen).(live := false, moves := [to])
      ensures r in {Ok(resolution), Err}
    {
      CancelAndTransit(to);
      if !w.transits {
        return Err;
      }
      r := CleanUpAndFinish(terminal, resolution, w);
    }

    /** One session: start, race the turn against shutdown, always stop. `Ok(None)` after a shutdown release. */
    method RunAttempt(k: nat, w: World) returns (r: Outcome<Option<TurnStatus>>)
      requires Valid() && seen.starts == seen.stops == seen.turns && seen.open && seen.moves == []
      modifies this
      ensures Valid()
      ensures var ran := old(seen).(starts := old(seen).starts + 1, turns := old(seen).turns + 1, stops := old(seen).stops + 1);
              var idle := ran.(turns := old(seen).turns);
              || (r.Err? && seen in {old(seen), ran, idle})
              || (r.Ok? && r.value.Some? && seen == ran)
              || ((r.Err? || r.value.None?)
                  && seen in {ran.(live := false, moves := [ReleasedWith(Shutdown)]), idle.(live := false, moves := [ReleasedWith(Shutdown)])})
      ensures w.starts(k) && w.turn(k) == ShutdownWins(false) ==> seen.turns == old(seen).turns
    {
      if !w.starts(k) {
        return Err;
      }
      Log(StartSession);
      if w.turn(k) != ShutdownWins(false) {
        Log(RunTurn);
      }
      Log(StopSession);
      if w.turn(k) == TurnErrs || !w.joins(k) {
        return Err;
      }
      match w.turn(k) {
        case ShutdownWins(_) =>
          var released := Conclude(ReleasedWith(Shutdown), false, ShutdownReleased, w);
          r := if released.Ok? then Ok(None) else Err;
        case TurnEnds(status) =>
          r := Ok(Some(status));
      }
    }

    /** Body of the retry loop for attempt `k`; `None` means it slept and goes round again. */
    method Attempt(k: nat, policy: R.RetryPolicy, w: World) returns (done: Option<Outcome<Resolution>>)
      requires Valid() && 1 <= k <= policy.maxAttempts && seen == Retrying(k - 1, seen)
      requires |seen.slept| == k - 1 && R.BacksOff(seen.slept, policy)
      modifies this
      ensures Valid()
      ensures done.None? ==> k < policy.maxAttempts && seen == Retrying(k, seen)
                             && |seen.slept| == k && R.BacksOff(seen.slept, policy)
      ensures done.Some? ==> Resolves(done.value, seen.moves) && Tidy(seen) && seen.open
                             && seen.turns <= k && seen.slept == old(seen).slept
    {
      var hooked := BlockIfHookFailed(BeforeRun, w.beforeRun(k), w);
      if hooked.Err? {
        return Some(Err);
      }
      if hooked.value {
        var blocked := CleanUpAndFinish(w.blockedIsTerminal, BlockedRun, w);
        return Some(blocked);
      }
      var outcome := RunAttempt(k, w);
      if outcome.Err? {
        return Some(Err);
      }
      if outcome.value.None? {
        return Some(Ok(ShutdownReleased));
      }
      done := Settle(k, outcome.value.value, policy, w);
    }

    method BackOff(k: nat, policy: R.RetryPolicy)
      requires Valid() && k >= 1 && |seen.slept| == k - 1 && R.BacksOff(seen.slept, policy)
      modifies this
      ensures Valid() && seen == old(seen).(slept := seen.slept)
      ensures |seen.slept| == k && R.BacksOff(seen.slept, policy)
    {
      var delay := NextDelay(k, policy, seen.slept);
      Log(Sleep(delay));
    }

    /** The match on a finished turn: hand off, give up, or back off. */
    method Settle(k: nat, status: TurnStatus, policy: R.RetryPolicy, w: World) returns (done: Option<Outcome<Resolution>>)
      requires Valid() && seen == Retrying(k, seen)
      requires k >= 1 && |seen.slept| == k - 1 && R.BacksOff(seen.slept, policy)
      modifies this
      ensures Valid()
      ensures done.None? ==> k < policy.maxAttempts && seen == Retrying(k, seen)
                             && |seen.slept| == k && R.BacksOff(seen.slept, policy)
      ensures done.Some? ==> Resolves(done.value, seen.moves) && seen == old(seen).(live := false, moves := seen.moves)
    {
      if w.afterRun(k) != NoHook {
        Log(RunHook(AfterRun));
      }
      if status == Succeeded {
        var completed := Conclude(HandedOff, w.reviewIsTerminal, Completed, w);
        return Some(completed);
      }
      if k >= policy.maxAttempts {
        var exhausted := Conclude(BlockedWith(RetryExhausted), w.blockedIsTerminal, BlockedRun, w);
        return Some(exhausted);
      }
      BackOff(k, policy);
      return None;
    }

    /** Everything inside the slot guard. */
    method Guarded(g: G.GateResult, policy: R.RetryPolicy, w: World) returns (r: Outcome<Resolution>)
      requires Valid() && trace == [] && policy.maxAttempts >= 1
      requires GateCounts(g)
      modifies this
      ensures Valid()
      ensures Resolves(r, seen.moves) && Tidy(seen)
      ensures seen.turns <= policy.maxAttempts
      ensures |seen.slept| < policy.maxAttempts && R.BacksOff(seen.slept, policy)
      ensures g.outcome != Ok(G.Proceed) ==> seen.starts == 0
    {
      if !w.fetches {
        return Err;
      }
      if g.blocks != [] {
        CancelAndTransit(BlockedWith(g.blocks[0]));
      }
      if g.outcome.Err? {
        return Err;
      }
      match g.outcome.value {
        case Refused => return Ok(BlockedRun);
        case PendingApproval => return Ok(AwaitsApproval);
        case Proceed =>
      }
      Log(GateVerdict(true));
      SpawnClaimHeartbeat();
      if !w.proofStarts {
        return Err;
      }
      Log(StartProof);
      if !w.creates {
        return Err;
      }
      Log(CreateWorkspace);
      var hooked := BlockIfHookFailed(AfterCreate, w.afterCreate, w);
      if hooked.Err? {
        return Err;
      }
      if hooked.value {
        r := CleanUpAndFinish(w.blockedIsTerminal, BlockedRun, w);
        return;
      }
      var attempts := 0;
      while true
        invariant Valid() && attempts < policy.maxAttempts && seen == Retrying(attempts, seen)
        invariant |seen.slept| == attempts && R.BacksOff(seen.slept, policy)
        decreases policy.maxAttempts - attempts
      {
        attempts := attempts + 1;
        var done := Attempt(attempts, policy, w);
        if done.Some? {
          return done.value;
        }
      }
      return Err;
    }

    /** `run_claim`: the guarded run, then the guard's drop on whatever path was taken. */
    method Run(g: G.GateResult, policy: R.RetryPolicy, w: World) returns (r: Outcome<Resolution>)
      requires Valid() && trace == [] && policy.maxAttempts >= 1
      requires GateCounts(g)
      modifies this
      ensures Resolves(r, Replay(trace).moves) && Replay(trace).safe && !heartbeat
      ensures Replay(trace).slots == 1 && trace[|trace| - 1] == ReleaseSlot
      ensures Replay(trace).turns <= policy.maxAttempts && Replay(trace).starts == Replay(trace).stops
      ensures |Replay(trace).slept| < policy.maxAttempts && R.BacksOff(Replay(trace).slept, policy)
      ensures g.outcome != Ok(G.Proceed) ==> Replay(trace).starts == 0
    {
      r := Guarded(g, policy, w);
      CancelHeartbeat();
      Log(ReleaseSlot);
    }
  }

  method NextDelay(k: nat, policy: R.RetryPolicy, ghost slept: seq<nat>) returns (delay: nat)
    requires k >= 1 && |slept| == k - 1 && R.BacksOff(slept, policy)
    ensures R.BacksOff(slept + [delay], policy)
  {
    R.BacksOffAgain(slept, policy);
    delay := R.BackoffAfter(policy, k);
  }

  /** Between attempts: gate open, `k` whole sessions behind, no transition made. */
  function Retrying(k: nat, m: Monitor): Monitor {
    IDLE.(open := true, live := m.live, starts := k, turns := k, stops := k, slept := m.slept)
  }

  predicate Tidy(m: Monitor) { m.safe && m.slots == 0 && m.starts == m.stops }

  /** The resolution and the one tracker transition that goes with it. */
  predicate Resolves(r: Outcome<Resolution>, moves: seq<Transition>) {
    match r
    case Err => |moves| <= 1
    case Ok(Completed) => moves == [HandedOff]
    case Ok(ShutdownReleased) => moves == [ReleasedWith(Shutdown)]
    case Ok(BlockedRun) => |moves| == 1 && moves[0].BlockedWith? && moves[0].code != AwaitingApproval
    case Ok(AwaitsApproval) => |moves| == 1 && moves[0].BlockedWith?
  }

  /** What the gate contributes: one block call per refusal, none when it proceeds. */
  predicate GateCounts(g: G.GateResult) {
    && |g.blocks| <= 1
    && (g.outcome == Ok(G.Proceed) ==> g.blocks == [])
    && (g.outcome.Ok? && g.outcome.value != G.Proceed ==> |g.blocks| == 1)
    && (g.outcome == Ok(G.Refused) ==> g.blocks[0] != AwaitingApproval)
  }

  /** Every gate evaluation meets what `Run` requires of it. */
  lemma GateIsCounted(c: Crypto, cfg: G.Config, claim: Claim, issue: Issue, s: T.Records, gw: G.World)
    ensures GateCounts(G.DispatchGate(c, cfg, claim, issue, s, gw))
  {
    G.GateAccounted(c, cfg, claim, issue, s, gw);
  }

  /******* What a safe trace means *******/

  lemma {:induction false} OpenMeansVerdict(trace: seq<Action>, n: nat)
    requires n <= |trace|
    ensures ReplayTo(trace, n).open <==> exists j :: 0 <= j < n && trace[j] == GateVerdict(true)
  {
    if n > 0 {
      OpenMeansVerdict(trace, n - 1);
    }
  }

  lemma SafeBefore(m: Monitor, a: Action)
    requires Observe(m, a).safe
    ensures m.safe
  {
  }

  lemma {:induction false} SafeEverywhere(trace: seq<Action>, m: nat, n: nat)
    requires m <= n <= |trace| && ReplayTo(trace, n).safe
    ensures ReplayTo(trace, m).safe
  {
    if m < n {
      SafeBefore(ReplayTo(trace, n - 1), trace[n - 1]);
      SafeEverywhere(trace, m, n - 1);
    }
  }

  /** No session before the gate opened or after a transition; no transition or slot release while the
      heartbeat lives or a session runs; no workspace removed before a handoff or block. */
  lemma MonitorMeaning(trace: seq<Action>, i: nat)
    requires Replay(trace).safe && i < |trace|
    ensures trace[i] == StartSession ==> ReplayTo(trace, i).moves == [] && exists j :: 0 <= j < i && trace[j] == GateVerdict(true)
    ensures trace[i].Transit? || trace[i] == ReleaseSlot
            ==> !ReplayTo(trace, i).live && ReplayTo(trace, i).starts == ReplayTo(trace, i).stops
    ensures trace[i] == DestroyWorkspace ==> Removable(ReplayTo(trace, i))
  {
    SafeEverywhere(trace, i + 1, |trace|);
    OpenMeansVerdict(trace, i);
  }
}
