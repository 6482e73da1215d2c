/** Signature verification with a cache of definite answers. */
module VerifyCache {
  import opened Domain

  datatype VerifyOutcome = Valid | Invalid(reason: string) | TransportError(reason: string)

  datatype Failure =
    | WrongAlgorithm | WrongContext | WrongDigest | BadKeyEncoding | Unresolved | KeyMismatch | BadSignatureEncoding
    | ClientFailed | Rejected(reason: string) | Transport(reason: string)

  datatype Verification = Passed | Failed(failure: Failure)

  datatype Codec = Codec(digest: Bytes -> string, decode: string -> Option<Bytes>)

  /** One call, with the answers the key resolver and the signing client would give to it. */
  datatype Call = Call(
    issueId: IssueId, envelope: Envelope, context: string, payload: Bytes,
    resolve: Outcome<Bytes>, client: Outcome<VerifyOutcome>)

  datatype CacheKey = CacheKey(
    issueId: IssueId, context: string, payloadSha256: string, signature: string, publicKey: string, signer: AgentId)

  type Cache = map<CacheKey, VerifyOutcome>

  function KeyOf(o: Codec, c: Call): CacheKey {
    CacheKey(c.issueId, c.context, o.digest(c.payload), c.envelope.signature, c.envelope.publicKey, c.envelope.signer)
  }

  /** The checks before the cache is consulted; the signer's key is resolved afresh each time. */
  function Precheck(o: Codec, c: Call): Option<Failure> {
    if c.envelope.algorithm != SIGN_ALGORITHM then Some(WrongAlgorithm)
    else if c.envelope.context != c.context then Some(WrongContext)
    else if c.envelope.payloadSha256 != o.digest(c.payload) then Some(WrongDigest)
    else if o.decode(c.envelope.publicKey).None? then Some(BadKeyEncoding)
    else if c.resolve.Err? then Some(Unresolved)
    else if o.decode(c.envelope.publicKey) != Some(c.resolve.value) then Some(KeyMismatch)
    else if o.decode(c.envelope.signature).None? then Some(BadSignatureEncoding)
    else None
  }

  function ToResult(outcome: VerifyOutcome): Verification {
    match outcome
    case Valid => Passed
    case Invalid(reason) => Failed(Rejected(reason))
    case TransportError(reason) => Failed(Transport(reason))
  }

  /** What the call would answer without a cache. */
  function Uncached(o: Codec, c: Call): Verification {
    if Precheck(o, c).Some? then Failed(Precheck(o, c).value)
    else if c.client.Err? then Failed(ClientFailed)
    else ToResult(c.client.value)
  }

  predicate Hits(o: Codec, cache: Cache, c: Call) { Precheck(o, c).None? && KeyOf(o, c) in cache }

  function Cached(o: Codec, cache: Cache, c: Call): Verification {
    if Hits(o, cache, c) then ToResult(cache[KeyOf(o, c)]) else Uncached(o, c)
  }

  /** The client itself gives this call a definite answer. */
  predicate Definite(o: Codec, c: Call) { Precheck(o, c).None? && c.client.Ok? && !c.client.value.TransportError? }

  function Remember(o: Codec, cache: Cache, c: Call): Cache {
    if !Hits(o, cache, c) && Definite(o, c) then cache[KeyOf(o, c) := c.client.value] else cache
  }

  class Verifier {
    var cache: Cache

    constructor ()
      ensures cache == map[]
    {
      cache := map[];
    }

    method VerifyEnvelope(o: Codec, c: Call) returns (r: Verification)
      modifies this
      ensures r == Cached(o, old(cache), c)
      ensures cache == Remember(o, old(cache), c)
    {
      var failure := Precheck(o, c);
      if failure.Some? {
        return Failed(failure.value);
      }
      var key := KeyOf(o, c);
      if key in cache {
        return ToResult(cache[key]);
      }
      if c.client.Err? {
        return Failed(ClientFailed);
      }
      if !c.client.value.TransportError? {
        cache := cache[key := c.client.value];
      }
      r := ToResult(c.client.value);
    }
  }

  /******* Transparency over every run *******/

  function After(o: Codec, run: seq<Call>): Cache {
    if run == [] then map[] else Remember(o, After(o, run[..|run| - 1]), run[|run| - 1])
  }

  /** Entries are definite answers that were given for that very key. */
  lemma {:induction false} EntriesWereGiven(o: Codec, run: seq<Call>, key: CacheKey)
    requires key in After(o, run)
    ensures exists k :: 0 <= k < |run| && Definite(o, run[k]) && KeyOf(o, run[k]) == key
                        && run[k].client == Ok(After(o, run)[key])
  {
    var before, last := run[..|run| - 1], run[|run| - 1];
    if key in After(o, before) {
      EntriesWereGiven(o, before, key);
      var k :| 0 <= k < |before| && Definite(o, before[k]) && KeyOf(o, before[k]) == key
               && before[k].client == Ok(After(o, before)[key]);
      assert run[k] == before[k];
    } else {
      assert Definite(o, run[|run| - 1]) && KeyOf(o, last) == key;
    }
  }

  /** Definite answers are a function of what is verified, and no two payloads in play share a digest. */
  ghost predicate Honest(o: Codec, calls: seq<Call>, truth: (string, Bytes, Bytes, Bytes) -> VerifyOutcome) {
    && (forall i :: 0 <= i < |calls| && Definite(o, calls[i])
                    ==> calls[i].client.value == Answered(o, calls[i], truth))
    && (forall i, j :: 0 <= i < |calls| && 0 <= j < |calls| && o.digest(calls[i].payload) == o.digest(calls[j].payload)
                       ==> calls[i].payload == calls[j].payload)
  }

  function Answered(o: Codec, c: Call, truth: (string, Bytes, Bytes, Bytes) -> VerifyOutcome): VerifyOutcome
    requires Precheck(o, c).None?
  {
    truth(c.context, c.payload, o.decode(c.envelope.signature).value, o.decode(c.envelope.publicKey).value)
  }

  /** A cached read differs from an uncached one only by giving the true answer where the client would
      have failed to give any. */
  lemma CacheIsTransparent(o: Codec, run: seq<Call>, c: Call, truth: (string, Bytes, Bytes, Bytes) -> VerifyOutcome)
    requires Honest(o, run + [c], truth)
    ensures var cached := Cached(o, After(o, run), c);
            cached == Uncached(o, c)
            || (Precheck(o, c).None? && !Definite(o, c) && cached == ToResult(Answered(o, c, truth)))
  {
    var calls := run + [c];
    if Hits(o, After(o, run), c) {
      var key := KeyOf(o, c);
      EntriesWereGiven(o, run, key);
      var k :| 0 <= k < |run| && Definite(o, run[k]) && KeyOf(o, run[k]) == key && run[k].client == Ok(After(o, run)[key]);
      assert calls[k] == run[k] && calls[|run|] == c;
      assert run[k].payload == c.payload;
      assert run[k].client.value == Answered(o, c, truth);
    }
  }

  /** A pass always rests on the signer's key as it resolves now, never on an old resolution. */
  lemma PassNeedsCurrentKey(o: Codec, cache: Cache, c: Call)
    requires Cached(o, cache, c) == Passed
    ensures c.resolve.Ok? && o.decode(c.envelope.publicKey) == Some(c.resolve.value)
    ensures c.envelope.payloadSha256 == o.digest(c.payload) && c.envelope.context == c.context
  {
  }
}
