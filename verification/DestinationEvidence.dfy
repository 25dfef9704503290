/**
 The verifier of signed destination evidence: a chain of guards over a trust setting, an approval, a lookup and the
 evidence, every failure of which gives the outcome UNKNOWN.  Keys, digests and signatures are ideal.
 */
module DestinationEvidence {
  import opened Primitives
  import opened OrderedText
  import Graph = EvidenceGraph

  // ----- exact keys -----------------------------------------------------------------------------

  /** Both key lists are sorted and compared place by place. */
  method ExactKeys(actual: seq<string>, expected: seq<string>) returns (same: bool)
    requires NoRepeats(actual) && NoRepeats(expected)
    ensures same <==> Elements(actual) == Elements(expected)
  {
    LexIsStrictOrder(Elements(actual));
    LexIsStrictOrder(Elements(expected));
    SortDistinctCanonical(actual, expected, LEX);
    var left, right := SortDistinct(actual, LEX), SortDistinct(expected, LEX);
    if |left| != |right| {
      return false;
    }
    for i := 0 to |left|
      invariant left[..i] == right[..i]
    {
      if left[i] != right[i] {
        assert left != right;
        return false;
      }
    }
    assert left[..|left|] == left && right[..|left|] == right;
    same := true;
  }

  // ----- data -----------------------------------------------------------------------------------

  /** A value that came in as JSON: refused by the canonical walk, with other than the expected keys, or of the
      expected shape. */
  datatype Checked<+T> = NotCanonical | WrongKeys | Shaped(value: T)

  /** A public key text, with the raw key it encodes. */
  datatype PublicKey = PublicKey(raw: string, isPem: bool, isEd25519: bool)

  datatype Trust = Trust(
    destinationIdentity: string, destinationKeyId: string, destinationKey: PublicKey, approvalIssuer: string,
    approvalKeyId: string, approvalKey: PublicKey, clockId: string, maximumAge: real)

  datatype Lookup = Lookup(
    requestId: string, challenge: string, requestedAt: Stamp, clockId: string, fenceId: Option<string>)

  /** The business state a purchase order was approved in, in canonical form. */
  type BusinessState = Graph.Plain

  function OrderVersion(s: BusinessState): Option<real> {
    if s.Members? && "orderVersion" in s.members then
      match s.members["orderVersion"]
      case Leaf(Number(number)) => Some(number)
      case _ => None
    else None
  }

  datatype Binding = Binding(destination: string, stateDigest: string, state: BusinessState, details: string)

  datatype Action = Action(issuer: string, issuerKeyId: string, actionDigest: string, nonce: string, details: string)

  /** The signed part of a gate pass. */
  datatype GateContent = GateContent(gatePassId: string, action: Action, details: string)

  datatype GatePass = GatePass(content: GateContent, keyId: string, signature: Signature<GateContent>)

  datatype Approval = Approval(
    approvalId: string, request: string, binding: Binding, gatePass: GatePass, decisionReceipt: string)

  /** What the record digest of an execution covers. */
  datatype Record = Record(
    approvalId: string, gatePassId: string, actionDigest: string, requestDigest: Digest<string>, binding: Binding,
    nonce: string, transactionId: string, version: real)

  datatype Fence = Fence(
    fenceId: string, gatePassId: string, idempotencyId: string, completed: bool, sequence: real)

  datatype Claim = ClaimsExecuted | ClaimsAbsent | ClaimsOther(text: string)

  datatype Payload = Payload(
    schema: string, destinationIdentity: string, approvalId: string, gatePassId: string, actionDigest: string,
    requestDigest: Digest<string>, stateDigest: string, state: BusinessState, idempotencyId: string,
    transactionId: Option<string>, claim: Claim, version: Option<real>, recordDigest: Option<Digest<Record>>,
    lookup: Checked<Lookup>, observedAt: Stamp, clockId: string, authoritative: bool, sequence: real,
    fence: Option<Checked<Fence>>, syntheticOnly: bool, sameHost: bool)

  /** The signed part of the evidence. */
  datatype Unsigned = Unsigned(schema: string, algorithm: string, keyId: string, payload: Checked<Payload>)

  datatype Evidence = Evidence(content: Unsigned, signature: Signature<Unsigned>)

  datatype Outcome = Executed | Absent | Unknown

  datatype Reason =
    | TrustInvalid | LookupInvalid | EvidenceNotCanonical | ApprovalInvalid | EnvelopeInvalid | SignatureInvalid
    | PayloadInvalid | BindingInvalid | Stale | FenceRequired | FenceInvalid | RecordInvalid | UnfencedAbsence
    | OutcomeInvalid | SignedDestinationVerified

  datatype Verdict = Verdict(verified: bool, outcome: Outcome, reason: Reason)

  const SCHEMA := "atg.destination-evidence.synthetic.v1"
  const CLOCK := "mission-03-fixed-test-clock"

  // ----- the guards -----------------------------------------------------------------------------

  predicate IsUuid(s: string) {
    |s| == 36 && forall i :: 0 <= i < 36 ==>
      if i == 8 || i == 13 || i == 18 || i == 23 then s[i] == '-' else IsHexDigit(s[i])
  }

  predicate IsIdentity(s: string) {
    0 < |s| <= 240
  }

  predicate IsTrustValid(t: Trust) {
    && t.clockId == CLOCK && IsSafeInteger(t.maximumAge) && 0.0 <= t.maximumAge <= 60000.0
    && IsIdentity(t.destinationIdentity) && IsIdentity(t.destinationKeyId) && IsIdentity(t.approvalIssuer)
    && IsIdentity(t.approvalKeyId)
    && t.destinationKey.isPem && t.destinationKey.isEd25519 && t.approvalKey.isPem && t.approvalKey.isEd25519
    && t.destinationKey.raw != t.approvalKey.raw
  }

  predicate IsLookupValid(q: Checked<Lookup>) {
    && q.Shaped? && IsUuid(q.value.requestId) && IsUuid(q.value.challenge) && q.value.requestedAt.Iso?
    && q.value.clockId == CLOCK && (q.value.fenceId.Some? ==> IsUuid(q.value.fenceId.value))
  }

  /** `authority` is the test that the gate pass, its decision and the binding belong together. */
  predicate VerifyDestinationApproval(authority: Approval -> bool, a: Checked<Approval>, t: Trust) {
    && IsTrustValid(t) && a.Shaped?
    && var v := a.value;
    && v.approvalId == v.gatePass.content.gatePassId
    && v.binding.destination == t.destinationIdentity
    && v.gatePass.content.action.issuer == t.approvalIssuer
    && v.gatePass.content.action.issuerKeyId == t.approvalKeyId
    && v.gatePass.keyId == t.approvalKeyId
    && authority(v)
    && Verifies(v.gatePass.content, v.gatePass.signature, t.approvalKey.raw)
  }

  function DestinationRecordDigest(a: Approval, transactionId: string, version: real): Digest<Record> {
    Sha256(Record(
      a.approvalId, a.gatePass.content.gatePassId, a.gatePass.content.action.actionDigest, Sha256(a.request), a.binding,
      a.gatePass.content.action.nonce, transactionId, version))
  }

  predicate IsEnvelopeValid(e: Evidence, t: Trust) {
    e.content.schema == SCHEMA && e.content.algorithm == "Ed25519" && e.content.keyId == t.destinationKeyId
  }

  predicate IsBound(p: Payload, a: Approval, t: Trust, q: Lookup) {
    && p.schema == SCHEMA && p.destinationIdentity == t.destinationIdentity && p.approvalId == a.approvalId
    && p.gatePassId == a.gatePass.content.gatePassId && p.actionDigest == a.gatePass.content.action.actionDigest
    && p.requestDigest == Sha256(a.request) && p.stateDigest == a.binding.stateDigest && p.state == a.binding.state
    && p.idempotencyId == a.gatePass.content.action.nonce && p.syntheticOnly && p.sameHost && p.authoritative
    && p.clockId == t.clockId && p.lookup == Shaped(q) && IsSafeInteger(p.sequence) && p.sequence >= 0.0
  }

  predicate IsFresh(p: Payload, q: Lookup, t: Trust, now: Stamp) {
    && now.Iso? && p.observedAt.Iso? && q.requestedAt.Iso?
    && q.requestedAt.ms <= p.observedAt.ms <= now.ms
    && (now.ms - q.requestedAt.ms) as real <= t.maximumAge
  }

  predicate IsFenceValid(f: Checked<Fence>, p: Payload, a: Approval, q: Lookup) {
    && f.Shaped? && IsUuid(f.value.fenceId) && Some(f.value.fenceId) == q.fenceId
    && f.value.gatePassId == a.gatePass.content.gatePassId
    && f.value.idempotencyId == a.gatePass.content.action.nonce && f.value.completed
    && IsSafeInteger(f.value.sequence) && 1.0 <= f.value.sequence <= p.sequence
  }

  predicate IsExecutionRecord(p: Payload, a: Approval) {
    && p.sequence >= 1.0 && p.transactionId.Some? && IsUuid(p.transactionId.value)
    && OrderVersion(a.binding.state).Some? && p.version == Some(OrderVersion(a.binding.state).value + 1.0)
    && p.recordDigest == Some(DestinationRecordDigest(a, p.transactionId.value, p.version.value))
  }

  predicate IsFencedAbsence(p: Payload, q: Lookup) {
    p.transactionId.None? && p.version.None? && p.recordDigest.None? && q.fenceId.Some? && p.fence.Some?
  }

  function Fails(reason: Reason): Verdict {
    Verdict(false, Unknown, reason)
  }

  /** The guards on the outcome, once everything else is in order. */
  function JudgeOutcome(p: Payload, a: Approval, q: Lookup): Verdict {
    match p.claim
    case ClaimsExecuted =>
      if IsExecutionRecord(p, a) then Verdict(true, Executed, SignedDestinationVerified) else Fails(RecordInvalid)
    case ClaimsAbsent =>
      if IsFencedAbsence(p, q) then Verdict(true, Absent, SignedDestinationVerified) else Fails(UnfencedAbsence)
    case ClaimsOther(_) => Fails(OutcomeInvalid)
  }

  function JudgePayload(p: Payload, a: Approval, t: Trust, q: Lookup, now: Stamp): Verdict {
    if !IsLookupValid(p.lookup) then Fails(LookupInvalid)
    else if !IsBound(p, a, t, q) then Fails(BindingInvalid)
    else if !IsFresh(p, q, t, now) then Fails(Stale)
    else if q.fenceId.Some? && p.fence.None? then Fails(FenceRequired)
    else if p.fence.Some? && !IsFenceValid(p.fence.value, p, a, q) then Fails(FenceInvalid)
    else JudgeOutcome(p, a, q)
  }

  function VerifyDestinationEvidence(
    authority: Approval -> bool, input: Checked<Evidence>, a: Checked<Approval>, trust: Checked<Trust>,
    expected: Checked<Lookup>, now: Stamp): Verdict
  {
    if !trust.Shaped? || !IsTrustValid(trust.value) then Fails(TrustInvalid)
    else if !IsLookupValid(expected) then Fails(LookupInvalid)
    else if input.NotCanonical? then Fails(EvidenceNotCanonical)
    else if !VerifyDestinationApproval(authority, a, trust.value) then Fails(ApprovalInvalid)
    else if input.WrongKeys? || !IsEnvelopeValid(input.value, trust.value) then Fails(EnvelopeInvalid)
    else if !Verifies(input.value.content, input.value.signature, trust.value.destinationKey.raw)
    then Fails(SignatureInvalid)
    else if !input.value.content.payload.Shaped? then Fails(PayloadInvalid)
    else JudgePayload(input.value.content.payload.value, a.value, trust.value, expected.value, now)
  }

  // ----- what verified evidence says ------------------------------------------------------------

  /** Everything but the clock: the evidence would be verified at some time. */
  predicate IsSound(authority: Approval -> bool, e: Evidence, a: Approval, t: Trust, q: Lookup) {
    && IsTrustValid(t) && IsLookupValid(Shaped(q)) && VerifyDestinationApproval(authority, Shaped(a), t)
    && IsEnvelopeValid(e, t) && Verifies(e.content, e.signature, t.destinationKey.raw)
    && e.content.payload.Shaped?
    && var p := e.content.payload.value;
    && IsBound(p, a, t, q)
    && (q.fenceId.Some? ==> p.fence.Some?) && (p.fence.Some? ==> IsFenceValid(p.fence.value, p, a, q))
    && match p.claim
       case ClaimsExecuted => IsExecutionRecord(p, a)
       case ClaimsAbsent => IsFencedAbsence(p, q)
       case ClaimsOther(_) => false
  }

  lemma PayloadVerifiedExactly(p: Payload, a: Approval, t: Trust, q: Lookup, now: Stamp)
    ensures JudgePayload(p, a, t, q, now).verified <==>
      && IsLookupValid(p.lookup) && IsBound(p, a, t, q) && IsFresh(p, q, t, now)
      && (q.fenceId.Some? ==> p.fence.Some?) && (p.fence.Some? ==> IsFenceValid(p.fence.value, p, a, q))
      && JudgeOutcome(p, a, q).verified
  {
  }

  /** The instants from the observation to the end of the maximum age, both included. */
  predicate InInterval(e: Evidence, t: Trust, q: Lookup, now: int) {
    && e.content.payload.Shaped? && e.content.payload.value.observedAt.Iso? && q.requestedAt.Iso?
    && q.requestedAt.ms <= e.content.payload.value.observedAt.ms
    && e.content.payload.value.observedAt.ms <= now <= q.requestedAt.ms + t.maximumAge.Floor
  }

  /** Evidence is verified exactly when it is sound and the clock reads an instant of its interval. */
  lemma VerifiedExactlyInInterval(authority: Approval -> bool, e: Evidence, a: Approval, t: Trust, q: Lookup, now: int)
    ensures VerifyDestinationEvidence(authority, Shaped(e), Shaped(a), Shaped(t), Shaped(q), Iso(now)).verified <==>
      IsSound(authority, e, a, t, q) && InInterval(e, t, q, now)
  {
    if e.content.payload.Shaped? {
      PayloadVerifiedExactly(e.content.payload.value, a, t, q, Iso(now));
      if q.requestedAt.Iso? {
        assert (now - q.requestedAt.ms) as real <= t.maximumAge <==> now - q.requestedAt.ms <= t.maximumAge.Floor;
      }
    }
  }

  /** A verdict is verified exactly when it names an outcome; every failure is UNKNOWN, and only a canonical instant
      can be a check time. */
  lemma FailureIsUnknown(authority: Approval -> bool, input: Checked<Evidence>, a: Checked<Approval>,
                         trust: Checked<Trust>, expected: Checked<Lookup>, now: Stamp)
    ensures var v := VerifyDestinationEvidence(authority, input, a, trust, expected, now);
      && (v.verified <==> !v.outcome.Unknown?)
      && (v.verified <==> v.reason.SignedDestinationVerified?)
      && (v.verified ==> now.Iso? && input.Shaped? && a.Shaped? && trust.Shaped? && expected.Shaped?)
  {
  }

  lemma VerifiedIsSound(authority: Approval -> bool, e: Evidence, a: Approval, t: Trust, q: Lookup, now: Stamp)
    requires VerifyDestinationEvidence(authority, Shaped(e), Shaped(a), Shaped(t), Shaped(q), now).verified
    ensures IsSound(authority, e, a, t, q) && IsFresh(e.content.payload.value, q, t, now)
  {
    PayloadVerifiedExactly(e.content.payload.value, a, t, q, now);
  }

  /** ABSENT: the destination signed a completed fence for this lookup, this gate pass and this nonce, and no record. */
  lemma AbsentNeedsItsFence(authority: Approval -> bool, e: Evidence, a: Approval, t: Trust, q: Lookup, now: Stamp)
    requires VerifyDestinationEvidence(authority, Shaped(e), Shaped(a), Shaped(t), Shaped(q), now).outcome.Absent?
    ensures var p := e.content.payload.value;
      && e.signature == Signed(t.destinationKey.raw, e.content)
      && p.fence.Some? && p.fence.value.Shaped? && p.fence.value.value.completed
      && q.fenceId == Some(p.fence.value.value.fenceId)
      && p.fence.value.value.gatePassId == a.approvalId
      && p.fence.value.value.idempotencyId == a.gatePass.content.action.nonce
      && 1.0 <= p.fence.value.value.sequence <= p.sequence
      && p.transactionId.None? && p.version.None? && p.recordDigest.None?
  {
    VerifiedIsSound(authority, e, a, t, q, now);
  }

  /** EXECUTED: the record is the next version of the approved order, and its digest covers the transaction. */
  lemma ExecutedFixesRecord(authority: Approval -> bool, e: Evidence, a: Approval, t: Trust, q: Lookup, now: Stamp)
    requires VerifyDestinationEvidence(authority, Shaped(e), Shaped(a), Shaped(t), Shaped(q), now).outcome.Executed?
    ensures var p := e.content.payload.value;
      && e.signature == Signed(t.destinationKey.raw, e.content)
      && OrderVersion(a.binding.state).Some? && p.version == Some(OrderVersion(a.binding.state).value + 1.0)
      && p.transactionId.Some?
      && p.recordDigest == Some(DestinationRecordDigest(a, p.transactionId.value, p.version.value))
  {
    VerifiedIsSound(authority, e, a, t, q, now);
  }

  /** Evidence serves one lookup and one approved action: whatever else it is verified against agrees on both. */
  lemma ServesOneApprovalAndLookup(
    authority: Approval -> bool, e: Evidence, a: Approval, b: Approval, t: Trust, q: Lookup, r: Lookup, now: Stamp,
    later: Stamp)
    requires VerifyDestinationEvidence(authority, Shaped(e), Shaped(a), Shaped(t), Shaped(q), now).verified
    requires VerifyDestinationEvidence(authority, Shaped(e), Shaped(b), Shaped(t), Shaped(r), later).verified
    ensures q == r
    ensures a.approvalId == b.approvalId && a.request == b.request && a.binding.state == b.binding.state
    ensures a.gatePass.content.gatePassId == b.gatePass.content.gatePassId
    ensures a.gatePass.content.action.actionDigest == b.gatePass.content.action.actionDigest
    ensures a.gatePass.content.action.nonce == b.gatePass.content.action.nonce
    ensures e.content.payload.value.claim.ClaimsExecuted? ==> a.binding == b.binding
  {
    VerifiedIsSound(authority, e, a, t, q, now);
    VerifiedIsSound(authority, e, b, t, r, later);
  }

  /** Equal record digests mean the same transaction on the same binding. */
  lemma RecordDigestDeterminesTransaction(
    authority: Approval -> bool, e: Evidence, f: Evidence, a: Approval, b: Approval, t: Trust, q: Lookup, r: Lookup,
    now: Stamp, later: Stamp)
    requires VerifyDestinationEvidence(authority, Shaped(e), Shaped(a), Shaped(t), Shaped(q), now).outcome.Executed?
    requires VerifyDestinationEvidence(authority, Shaped(f), Shaped(b), Shaped(t), Shaped(r), later).outcome.Executed?
    requires e.content.payload.value.recordDigest == f.content.payload.value.recordDigest
    ensures e.content.payload.value.transactionId == f.content.payload.value.transactionId
    ensures a.binding == b.binding && a.request == b.request && a.approvalId == b.approvalId
  {
    VerifiedIsSound(authority, e, a, t, q, now);
    VerifiedIsSound(authority, f, b, t, r, later);
  }

  /** Under the same signature no other payload is verified: evidence cannot be altered. */
  lemma AlteredEvidenceRefused(
    authority: Approval -> bool, e: Evidence, altered: Unsigned, a: Approval, b: Approval, t: Trust, q: Lookup,
    r: Lookup, now: Stamp, later: Stamp)
    requires VerifyDestinationEvidence(authority, Shaped(e), Shaped(a), Shaped(t), Shaped(q), now).verified
    requires altered != e.content
    ensures !VerifyDestinationEvidence(
      authority, Shaped(e.(content := altered)), Shaped(b), Shaped(t), Shaped(r), later).verified
  {
    VerifiedIsSound(authority, e, a, t, q, now);
  }

  /** The approval's signer and the destination's signer are different keys, so neither can speak for the other. */
  lemma RolesAreDistinct(authority: Approval -> bool, e: Evidence, a: Approval, t: Trust, q: Lookup, now: Stamp)
    requires VerifyDestinationEvidence(authority, Shaped(e), Shaped(a), Shaped(t), Shaped(q), now).verified
    ensures a.gatePass.signature == Signed(t.approvalKey.raw, a.gatePass.content)
    ensures e.signature == Signed(t.destinationKey.raw, e.content)
    ensures a.gatePass.signature.key != e.signature.key
  {
    VerifiedIsSound(authority, e, a, t, q, now);
  }
}
