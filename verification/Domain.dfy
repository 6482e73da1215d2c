/** Entities shared by every part of the model: issues, claims, approvals, signatures.

Outside services are oracles. A digest or a decoder is a field of `Crypto`, so a
statement about a `Crypto` value holds for every such function. A timestamp keeps
its text and, when the text parses, its instant in nanoseconds.
 */
module Domain {
  datatype Option<+T> = None | Some(value: T)

  /** The source's `Result`; error texts are not kept. */
  datatype Outcome<+T> = Ok(value: T) | Err

  type IssueId = string
  type AgentId = string
  type Bytes = seq<bv8>

  datatype Timestamp = Timestamp(text: string, instant: Option<int>)

  const U64_MAX: nat := 0xFFFF_FFFF_FFFF_FFFF
  const I64_MAX: nat := 0x7FFF_FFFF_FFFF_FFFF
  const NANOS_PER_MILLI: nat := 1_000_000

  /** Largest span `chrono::Duration` holds: `i64::MAX` milliseconds, in nanoseconds. */
  const CHRONO_MAX_NANOS: nat := I64_MAX * NANOS_PER_MILLI

  function Min(a: int, b: int): int { if a <= b then a else b }

  function Max(a: int, b: int): int { if a <= b then b else a }

  predicate IsSpace(c: char) {
    c == ' ' || '\t' <= c <= '\r' || c == '\U{85}' || c == '\U{A0}' || c == '\U{1680}'
    || '\U{2000}' <= c <= '\U{200A}' || c == '\U{2028}' || c == '\U{2029}' || c == '\U{202F}'
    || c == '\U{205F}' || c == '\U{3000}'
  }

  function Trim(s: string): string {
    if s == "" then ""
    else if IsSpace(s[0]) then Trim(s[1..])
    else if IsSpace(s[|s| - 1]) then Trim(s[..|s| - 1])
    else s
  }

  /******* Signatures *******/

  datatype Envelope = Envelope(
    algorithm: string, context: string, publicKey: string, signature: string,
    payloadSha256: string, signer: AgentId)

  const SIGN_ALGORITHM := "x0x.agent-sign.v2.ml-dsa-65"
  const APPROVAL_CONTEXT := "x0x-symphony-approval-v1"
  const APPROVAL_CONSUMED_CONTEXT := "x0x-symphony-approval-consumed-v1"

  /** The canonical content payload: exactly the fields an approval binds to. */
  datatype Payload = Payload(body: Json, commands: Json, description: string, title: string)

  /** SHA-256 of a serialized record, and base64 decoding. */
  datatype Crypto = Crypto(
    contentDigest: Payload -> string,
    eventDigest: ApprovalEvent -> string,
    consumedDigest: ConsumedPayload -> string,
    decode: string -> Option<Bytes>)

  /******* Claims and shards *******/

  datatype ShardRole = Primary | Backup(index: nat) | ManualM1

  datatype Shard = Shard(primary: AgentId, backups: seq<AgentId>, claimTtlMs: nat, createdViewEpoch: nat)

  datatype Claim = Claim(
    issueId: Option<IssueId>, owner: AgentId, at: Timestamp, heartbeatAt: Timestamp,
    role: ShardRole, signature: Option<Envelope>)

  function NewClaim(issueId: Option<IssueId>, owner: AgentId, at: Timestamp, role: ShardRole): Claim {
    Claim(issueId, owner, at, at, role, None)
  }

  /** ADR-0002 precedence rank, saturating like `usize`; lower ranks win. */
  function Rank(role: ShardRole): nat {
    match role
    case Primary => 0
    case Backup(index) => Min(index + 1, U64_MAX)
    case ManualM1 => U64_MAX
  }

  /******* Issues *******/

  datatype ReasonCode =
    | OperatorCancelled | RunnerFailed | ExpiredHeartbeat | Conflict | RetryExhausted
    | InsufficientTrust | NetworkDispatchDisabled | AwaitingApproval | ApprovalVerifierUnconfigured
    | MissingVerifiedSignature | InvalidSignature | VerifyTransportError | UnknownSigner
    | UntrustedSigner | BlockedSigner | Shutdown | OtherReason

  datatype ReleaseReason = ReleaseReason(code: ReasonCode, detail: string)

  datatype IssueState = Todo | InProgress | Blocked | Review | Done | Custom(name: string)

  /** Preserved adapter metadata. A release reason is kept as the value it encodes. */
  datatype Json = JNull | JText(text: string) | JReason(reason: ReleaseReason) | JOther(raw: string)

  datatype ExtraKey = Body | Commands | IssueSource | Source | BlockedReason | TaskState | Assignee | OtherKey(name: string)

  datatype Provenance = Verified(signer: AgentId) | Invalid(reason: string) | TransportError(reason: string)

  datatype Handoff = Handoff(issueId: Option<IssueId>, summary: string, signer: Option<AgentId>, signature: Option<Envelope>)

  datatype Issue = Issue(
    id: IssueId, title: string, description: string, state: IssueState, claim: Option<Claim>,
    handoff: Option<Handoff>, shard: Option<Shard>, extra: map<ExtraKey, Json>,
    provenance: Option<Provenance>)

  /******* Approvals *******/

  datatype Verdict = Approve | Deny

  datatype ApprovalEvent = ApprovalEvent(
    issueId: IssueId, contentHash: string, signer: AgentId, verdict: Verdict, approvedAt: Timestamp,
    approver: AgentId, claimId: Option<string>, signature: Option<Envelope>)

  datatype ConsumedPayload = ConsumedPayload(
    issueId: IssueId, contentHash: string, signer: AgentId, nonce: string, consumedAt: Timestamp)

  datatype ApprovalConsumed = ApprovalConsumed(payload: ConsumedPayload, signature: Envelope)

  /** What an approval is bound to; the claim id is deliberately not part of it. */
  datatype BindingKey = BindingKey(issueId: IssueId, contentHash: string, signer: AgentId)

  datatype ApprovalState = ApprovalState(events: seq<ApprovalEvent>, consumed: seq<ApprovalConsumed>)
}
