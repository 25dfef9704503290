/**
 Agent standing: a signer that builds a key challenge, a delegation and a proof for one exact request, and a
 verifier of about thirty checks that decides whether a GatePass may be evaluated at all.
 */
module AgentStanding {
  import opened Primitives
  import opened OrderedText

  // ----- entities -------------------------------------------------------------------------------

  datatype PrincipalType = Individual | Organisation

  datatype Assurance = S0 | S1 | S2 | S3 | S4 | S5

  datatype EvidenceType =
    | AgentIdentity | AccountOrPlatformIdentity | AgentPublicKey | PrincipalIdentity
    | OrganisationSponsor | AccountableHumanSponsor | DelegationEvidence | RevocationStatus

  datatype Evidence = Evidence(kind: EvidenceType, reference: string, present: bool, localFixtureOnly: bool)

  datatype Resource = Resource(name: string, quantity: real)

  datatype Limit = Limit(name: string, maximum: real)

  datatype Request = Request(
    requestIdentifier: string,
    agent: string,
    principal: Option<string>,
    purpose: string,
    action: string,
    amount: Option<real>,
    currency: Option<string>,
    resources: seq<Resource>,
    counterparty: Option<string>,
    session: Option<string>,
    run: Option<string>)

  /** The exact action a request stands for; its digest is what everything is bound to. */
  datatype RequestEvidence = RequestEvidence(
    requestIdentifier: string, purpose: string, action: string, amount: Option<real>,
    currency: Option<string>, resources: seq<Resource>, counterparty: Option<string>,
    session: Option<string>, run: Option<string>)

  datatype Envelope = Envelope(
    agent: string, session: string, run: string, principal: Option<string>, mandateReference: string,
    evidenceReference: string, evidence: Digest<RequestEvidence>, operation: string,
    arguments: RequestEvidence, target: string, amount: Option<real>, currency: Option<string>, nonce: string)

  type RequestDigest = Digest<Envelope>

  datatype ChallengeBody = ChallengeBody(
    version: string, nonce: Option<string>, agent: string, keyReference: string, digest: RequestDigest,
    session: Option<string>, run: Option<string>)

  datatype Revocation = Active | Revoked | Unknown

  datatype DelegationBody = DelegationBody(
    version: string,
    identifier: Option<string>,
    issuer: Option<string>,
    issuerKeyReference: Option<string>,
    agent: Option<string>,
    principal: Option<string>,
    purposes: seq<string>,
    actions: seq<string>,
    maximumAmount: Option<real>,
    currency: Option<string>,
    limits: seq<Limit>,
    counterparties: Option<seq<string>>,
    issuedAt: Option<Stamp>,
    expiresAt: Option<Stamp>,
    revocation: Revocation,
    revocationReference: Option<string>,
    depth: Option<real>,
    maximumDepth: Option<real>,
    digest: Option<RequestDigest>,
    session: Option<string>,
    run: Option<string>)

  datatype ProofBody = ProofBody(
    version: string,
    proofIdentifier: string,
    agent: string,
    keyReference: string,
    category: string,
    account: Option<string>,
    principal: Option<string>,
    principalType: Option<PrincipalType>,
    organisationSponsor: Option<string>,
    humanSponsor: Option<string>,
    delegation: Delegation,
    challenge: Challenge,
    digest: RequestDigest,
    session: Option<string>,
    run: Option<string>,
    evidence: seq<Evidence>,
    assurance: Assurance,
    limitations: seq<string>)

  /** Everything a key can sign here. */
  datatype Payload =
    | ChallengePayload(challenge: ChallengeBody)
    | DelegationPayload(delegation: DelegationBody)
    | ProofPayload(proof: ProofBody)

  datatype Metadata = Metadata(
    algorithm: string, keyId: string, signedAt: Stamp, payloadHash: Digest<Payload>,
    localFixtureOnly: bool, publicFixture: bool, productionCustody: bool, signature: Signature<Payload>)

  datatype Challenge = Challenge(body: ChallengeBody, metadata: Option<Metadata>)
  datatype Delegation = Delegation(body: DelegationBody, metadata: Option<Metadata>)
  datatype Proof = Proof(body: ProofBody, metadata: Metadata)

  datatype Claim = Claim(agent: string, account: Option<string>)

  // ----- the registries -------------------------------------------------------------------------

  const ALGORITHM := "ed25519-local-demo"
  const REFERENCE_TIME_MS: int := 1785661200000   // 2026-08-02T09:00:00.000Z
  const AGENT_INDIVIDUAL_KEY := "fixture-key://agent-individual-001"
  const AGENT_ORGANISATION_KEY := "fixture-key://agent-organisation-001"
  const PRINCIPAL_INDIVIDUAL_KEY := "fixture-key://principal-individual-001"
  const PRINCIPAL_ORGANISATION_KEY := "fixture-key://principal-organisation-001"
  const INDIVIDUAL_AGENT := "synthetic_agent_individual_001"
  const ORGANISATION_AGENT := "synthetic_agent_organisation_001"
  const NORTHSTAR_AGENT := "agent:northstar-retail:procurement:04"
  const INDIVIDUAL_PRINCIPAL := "synthetic_principal_individual_001"
  const ORGANISATION_PRINCIPAL := "synthetic_organisation_sponsor_001"
  const NORTHSTAR_ORGANISATION := "ORG-NORTHSTAR-RETAIL-SYNTHETIC"
  const ACCOUNTABLE_HUMAN := "fixture://accountable-human-sponsors/sponsor_001"
  const INDIVIDUAL_ACCOUNT := "synthetic_platform_account_individual_001"
  const ORGANISATION_ACCOUNT := "synthetic_platform_account_organisation_001"

  /** The key behind a key reference. */
  function FixtureKey(reference: string): Option<string> {
    if reference == AGENT_INDIVIDUAL_KEY then Some("agent-standing-agent-individual-001")
    else if reference == AGENT_ORGANISATION_KEY then Some("agent-standing-agent-organisation-001")
    else if reference == PRINCIPAL_INDIVIDUAL_KEY then Some("agent-standing-principal-individual-001")
    else if reference == PRINCIPAL_ORGANISATION_KEY then Some("agent-standing-principal-organisation-001")
    else None
  }

  datatype AgentRecord = AgentRecord(keyReference: string, account: string)

  function AgentRegistry(agent: string): Option<AgentRecord> {
    if agent == INDIVIDUAL_AGENT then Some(AgentRecord(AGENT_INDIVIDUAL_KEY, INDIVIDUAL_ACCOUNT))
    else if agent == ORGANISATION_AGENT || agent == NORTHSTAR_AGENT then
      Some(AgentRecord(AGENT_ORGANISATION_KEY, ORGANISATION_ACCOUNT))
    else None
  }

  datatype PrincipalRecord =
    PrincipalRecord(principalType: PrincipalType, issuerKeyReference: string, humanSponsor: Option<string>)

  function PrincipalRegistry(principal: string): Option<PrincipalRecord> {
    if principal == INDIVIDUAL_PRINCIPAL then
      Some(PrincipalRecord(Individual, PRINCIPAL_INDIVIDUAL_KEY, None))
    else if principal == ORGANISATION_PRINCIPAL || principal == NORTHSTAR_ORGANISATION then
      Some(PrincipalRecord(Organisation, PRINCIPAL_ORGANISATION_KEY, Some(ACCOUNTABLE_HUMAN)))
    else None
  }

  // ----- the request digest ---------------------------------------------------------------------

  predicate BlankFree(s: Option<string>) {
    s.Some? ==> NonBlank(s.value)
  }

  /** What the canonical action envelope insists on; it throws on any other request. */
  predicate WellFormed(r: Request) {
    && NonBlank(r.agent) && NonBlank(r.action)
    && BlankFree(r.session) && BlankFree(r.run) && BlankFree(r.counterparty) && BlankFree(r.principal)
    && (r.amount.Some? ==> r.amount.value >= 0.0)
    && (r.amount.None? <==> r.currency.None?)
    && (r.currency.Some? ==> IsCurrency(r.currency.value))
  }

  function OrNotSupplied(s: Option<string>): string {
    if s.Some? then s.value else "not_supplied"
  }

  function EvidenceOf(r: Request): RequestEvidence {
    RequestEvidence(r.requestIdentifier, r.purpose, r.action, r.amount, r.currency, r.resources,
                    r.counterparty, r.session, r.run)
  }

  function EnvelopeOf(r: Request): Envelope {
    Envelope(r.agent, OrNotSupplied(r.session), OrNotSupplied(r.run), r.principal,
             "standing-request://" + r.requestIdentifier + "/principal",
             "evidence://local/agent-standing/" + r.requestIdentifier,
             Sha256(EvidenceOf(r)), r.action, EvidenceOf(r), OrNotSupplied(r.counterparty),
             if r.amount.Some? then Some(r.amount.value / 100.0) else None, r.currency,
             "nonce_agent_standing_" + r.requestIdentifier)
  }

  function DigestOf(r: Request): RequestDigest {
    Sha256(EnvelopeOf(r))
  }

  /** The digest pins down every field of the request. */
  lemma DigestDeterminesRequest(r: Request, s: Request)
    requires DigestOf(r) == DigestOf(s)
    ensures r == s
  {
    assert EnvelopeOf(r) == EnvelopeOf(s);
    assert EvidenceOf(r) == EvidenceOf(s);
  }

  // ----- signing --------------------------------------------------------------------------------

  function SignMetadata(p: Payload, key: string, signedAt: Stamp): Metadata {
    Metadata(ALGORITHM, key, signedAt, Sha256(p), true, true, false, Signed(key, p))
  }

  predicate VerifySignatureMetadata(p: Payload, m: Option<Metadata>, key: string) {
    m.Some? && m.value.algorithm == ALGORITHM && m.value.keyId == key && m.value.payloadHash == Sha256(p)
    && m.value.localFixtureOnly && m.value.publicFixture && !m.value.productionCustody
    && Verifies(p, m.value.signature, key)
  }

  // ----- the single checks ----------------------------------------------------------------------

  /** One verification: the claim, the request, the presented proof and the check time. */
  datatype Case = Case(claim: Claim, request: Request, proof: Proof, checkedAt: int)

  predicate HasEvidence(evidence: seq<Evidence>, kind: EvidenceType, reference: string) {
    exists i :: 0 <= i < |evidence| && evidence[i] == Evidence(kind, reference, true, true)
  }

  function AgentKey(p: Proof): Option<string> {
    FixtureKey(p.body.keyReference)
  }

  predicate IdentityEvidencePresent(c: Case) {
    var p := c.proof.body;
    var known := AgentRegistry(p.agent);
    && known.Some?
    && p.agent == c.claim.agent
    && p.keyReference == known.value.keyReference
    && p.account == Some(known.value.account)
    && c.claim.account == p.account
    && HasEvidence(p.evidence, AgentIdentity, "fixture://agent-registry/" + p.agent)
    && HasEvidence(p.evidence, AgentPublicKey, p.keyReference)
  }

  predicate ChallengePresent(p: Proof) {
    p.body.challenge.body.nonce.Some? && p.body.challenge.metadata.Some?
  }

  predicate KeyControlChallengeValid(p: Proof) {
    var ch := p.body.challenge;
    && AgentKey(p).Some? && ChallengePresent(p)
    && ch.body.agent == p.body.agent
    && ch.body.keyReference == p.body.keyReference
    && VerifySignatureMetadata(ChallengePayload(ch.body), ch.metadata, AgentKey(p).value)
  }

  predicate ProofSignatureValid(p: Proof) {
    AgentKey(p).Some? && VerifySignatureMetadata(ProofPayload(p.body), Some(p.metadata), AgentKey(p).value)
  }

  function KnownPrincipal(p: Proof): Option<PrincipalRecord> {
    if p.body.principal.None? then None else PrincipalRegistry(p.body.principal.value)
  }

  predicate PrincipalEvidencePresent(c: Case) {
    var p := c.proof.body;
    var known := KnownPrincipal(c.proof);
    && known.Some?
    && p.principalType == Some(known.value.principalType)
    && p.principal == c.request.principal
    && HasEvidence(p.evidence, PrincipalIdentity, "fixture://principal-registry/" + p.principal.value)
  }

  predicate OrganisationSponsorPresent(p: Proof) {
    var known := KnownPrincipal(p);
    p.body.principalType == Some(Organisation) ==>
      && known.Some? && known.value.principalType == Organisation
      && p.body.organisationSponsor.Some?
      && p.body.organisationSponsor == p.body.principal
      && HasEvidence(p.body.evidence, OrganisationSponsor,
                     "fixture://organisation-sponsors/" + p.body.organisationSponsor.value)
  }

  predicate AccountableHumanSponsorPresent(p: Proof) {
    var known := KnownPrincipal(p);
    p.body.principalType == Some(Organisation) ==>
      && known.Some? && known.value.humanSponsor.Some?
      && p.body.humanSponsor == known.value.humanSponsor
      && HasEvidence(p.body.evidence, AccountableHumanSponsor, p.body.humanSponsor.value)
  }

  function OrMissing(s: Option<string>): string {
    if s.Some? then s.value else "missing"
  }

  predicate HasDelegation(d: Delegation) {
    var b := d.body;
    && b.identifier.Some? && b.issuer.Some? && b.issuerKeyReference.Some? && b.agent.Some? && b.principal.Some?
    && b.issuedAt.Some? && b.expiresAt.Some? && b.revocationReference.Some?
    && b.depth.Some? && b.maximumDepth.Some? && b.digest.Some? && d.metadata.Some?
  }

  predicate DelegationPresent(p: Proof) {
    && HasDelegation(p.body.delegation)
    && HasEvidence(p.body.evidence, DelegationEvidence,
                   "fixture://delegations/" + OrMissing(p.body.delegation.body.identifier))
  }

  predicate DelegationSignatureValid(p: Proof) {
    var d := p.body.delegation;
    && DelegationPresent(p) && FixtureKey(d.body.issuerKeyReference.value).Some?
    && VerifySignatureMetadata(DelegationPayload(d.body), d.metadata,
                               FixtureKey(d.body.issuerKeyReference.value).value)
  }

  predicate IssuerMatches(p: Proof) {
    var d := p.body.delegation.body;
    var expected := if p.body.principalType == Some(Organisation) then p.body.organisationSponsor
                    else p.body.principal;
    var known := KnownPrincipal(p);
    d.issuer == expected && known.Some? && d.issuerKeyReference == Some(known.value.issuerKeyReference)
  }

  predicate StartedBy(s: Option<Stamp>, at: int) {
    s.Some? && s.value.Parse().Some? && s.value.Parse().value <= at
  }

  predicate StillRunning(s: Option<Stamp>, at: int) {
    s.Some? && s.value.Parse().Some? && at < s.value.Parse().value
  }

  predicate AmountWithinLimit(r: Request, d: DelegationBody) {
    r.amount.Some? ==>
      && IsInteger(r.amount.value) && r.amount.value >= 0.0
      && d.maximumAmount.Some? && IsInteger(d.maximumAmount.value)
      && d.maximumAmount.value >= r.amount.value
      && d.currency == r.currency
  }

  function FindLimit(limits: seq<Limit>, name: string): Option<Limit> {
    if limits == [] then None
    else if limits[0].name == name then Some(limits[0])
    else FindLimit(limits[1..], name)
  }

  predicate ResourcesWithinLimits(r: Request, d: DelegationBody) {
    forall i :: 0 <= i < |r.resources| ==>
      var limit := FindLimit(d.limits, r.resources[i].name);
      r.resources[i].quantity >= 0.0 && limit.Some? && r.resources[i].quantity <= limit.value.maximum
  }

  predicate CounterpartyPermitted(r: Request, d: DelegationBody) {
    r.counterparty.None? || d.counterparties.None? || r.counterparty.value in d.counterparties.value
  }

  predicate DepthValid(d: DelegationBody) {
    && d.depth.Some? && IsInteger(d.depth.value) && d.maximumDepth.Some? && IsInteger(d.maximumDepth.value)
    && 0.0 <= d.depth.value <= d.maximumDepth.value
  }

  predicate ExactRequestBindingValid(c: Case) {
    var digest := DigestOf(c.request);
    && c.proof.body.digest == digest && c.proof.body.challenge.body.digest == digest
    && c.proof.body.delegation.body.digest == Some(digest)
  }

  predicate SessionBindingValid(c: Case) {
    var s := c.request.session;
    c.proof.body.session == s && c.proof.body.challenge.body.session == s && c.proof.body.delegation.body.session == s
  }

  predicate RunBindingValid(c: Case) {
    var r := c.request.run;
    c.proof.body.run == r && c.proof.body.challenge.body.run == r && c.proof.body.delegation.body.run == r
  }

  predicate RequiredEvidencePresent(p: Proof) {
    var b := p.body;
    && HasEvidence(b.evidence, AgentIdentity, "fixture://agent-registry/" + b.agent)
    && HasEvidence(b.evidence, AgentPublicKey, b.keyReference)
    && (b.account.Some? ==>
          HasEvidence(b.evidence, AccountOrPlatformIdentity, "fixture://platform-accounts/" + b.account.value))
    && b.principal.Some?
    && HasEvidence(b.evidence, PrincipalIdentity, "fixture://principal-registry/" + b.principal.value)
    && b.delegation.body.identifier.Some?
    && HasEvidence(b.evidence, DelegationEvidence, "fixture://delegations/" + b.delegation.body.identifier.value)
    && (b.principalType == Some(Organisation) ==>
          && b.organisationSponsor.Some?
          && HasEvidence(b.evidence, OrganisationSponsor,
                         "fixture://organisation-sponsors/" + b.organisationSponsor.value)
          && b.humanSponsor.Some?
          && HasEvidence(b.evidence, AccountableHumanSponsor, b.humanSponsor.value))
  }

  predicate RevocationEvidencePresent(p: Proof) {
    var reference := p.body.delegation.body.revocationReference;
    reference.Some? && HasEvidence(p.body.evidence, RevocationStatus, reference.value)
  }

  // ----- the reason codes -----------------------------------------------------------------------

  datatype Reason =
    | AllChecksPassed | ProofMissing | AgentIdentityEvidenceMissing | AgentKeyUnknown
    | KeyChallengeMissing | KeyChallengeInvalid | ProofSignatureInvalid | PrincipalEvidenceMissing
    | OrganisationSponsorMissing | AccountableHumanSponsorMissing | DelegationMissing
    | DelegationSignatureInvalid | DelegationAgentMismatch | DelegationPrincipalMismatch
    | DelegationIssuerMismatch | DelegationNotYetActive | DelegationExpired | DelegationRevoked
    | DelegationRevocationUnknown | PurposeOutOfScope | ActionOutOfScope | AmountLimitExceeded
    | ResourceLimitExceeded | CounterpartyNotPermitted | DelegationDepthExceeded | RequestDigestMismatch
    | SessionBindingMismatch | RunBindingMismatch | RequiredEvidenceMissing | AssuranceClaimMismatch
    | RuntimeAttestationNotImplemented

  /** What the verifier finds out about a case; each field is one of its local truth values. */
  datatype Findings = Findings(
    identityEvidence: bool, agentKeyKnown: bool, challengePresent: bool, challengeValid: bool,
    proofSignature: bool, principalEvidence: bool, organisationSponsor: bool, humanSponsor: bool,
    delegationPresent: bool, delegationSignature: bool, agentMatches: bool, principalMatches: bool,
    issuerMatches: bool, started: bool, unexpired: bool, revocation: Revocation,
    purposeAllowed: bool, actionAllowed: bool, amountAllowed: bool, resourcesAllowed: bool,
    counterpartyAllowed: bool, depthAllowed: bool, requestBinding: bool, sessionBinding: bool,
    runBinding: bool, requiredEvidence: bool, declared: Assurance, verified: Assurance)

  function Examine(c: Case): Findings {
    var p := c.proof;
    var d := p.body.delegation.body;
    Findings(
      IdentityEvidencePresent(c), AgentKey(p).Some?, ChallengePresent(p), KeyControlChallengeValid(p),
      ProofSignatureValid(p), PrincipalEvidencePresent(c), OrganisationSponsorPresent(p),
      AccountableHumanSponsorPresent(p), DelegationPresent(p), DelegationSignatureValid(p),
      d.agent == Some(p.body.agent), d.principal == p.body.principal, IssuerMatches(p),
      StartedBy(d.issuedAt, c.checkedAt), StillRunning(d.expiresAt, c.checkedAt), d.revocation,
      c.request.purpose in d.purposes, c.request.action in d.actions, AmountWithinLimit(c.request, d),
      ResourcesWithinLimits(c.request, d), CounterpartyPermitted(c.request, d), DepthValid(d),
      ExactRequestBindingValid(c), SessionBindingValid(c), RunBindingValid(c),
      RequiredEvidencePresent(p) && RevocationEvidencePresent(p), p.body.assurance, VerifiedAssurance(c))
  }

  /** The level the evidence supports: the highest rung whose own conditions and those below it hold. */
  function VerifiedAssurance(c: Case): Assurance {
    var p := c.proof;
    var key := IdentityEvidencePresent(c) && KeyControlChallengeValid(p) && ProofSignatureValid(p);
    var delegated := key && PrincipalEvidencePresent(c) && DelegationPresent(p) && DelegationSignatureValid(p);
    if delegated && p.body.principalType == Some(Organisation) && OrganisationSponsorPresent(p)
       && AccountableHumanSponsorPresent(p) then S4
    else if delegated then S3
    else if key then S2
    else if AccountEvidencePresent(p) then S1
    else S0
  }

  predicate AccountEvidencePresent(p: Proof) {
    p.body.account.Some?
    && HasEvidence(p.body.evidence, AccountOrPlatformIdentity, "fixture://platform-accounts/" + p.body.account.value)
  }

  /** The finding that gives each reason: the one table of the verifier. */
  predicate Given(f: Findings, r: Reason) {
    match r
    case AgentIdentityEvidenceMissing => !f.identityEvidence
    case AgentKeyUnknown => !f.agentKeyKnown
    case KeyChallengeMissing => !f.challengePresent
    case KeyChallengeInvalid => f.challengePresent && !f.challengeValid
    case ProofSignatureInvalid => !f.proofSignature
    case PrincipalEvidenceMissing => !f.principalEvidence
    case OrganisationSponsorMissing => !f.organisationSponsor
    case AccountableHumanSponsorMissing => !f.humanSponsor
    case DelegationMissing => !f.delegationPresent
    case DelegationSignatureInvalid => f.delegationPresent && !f.delegationSignature
    case DelegationAgentMismatch => f.delegationPresent && !f.agentMatches
    case DelegationPrincipalMismatch => f.delegationPresent && !f.principalMatches
    case DelegationIssuerMismatch => f.delegationPresent && !f.issuerMatches
    case DelegationNotYetActive => f.delegationPresent && !f.started
    case DelegationExpired => f.delegationPresent && !f.unexpired
    case DelegationRevoked => f.delegationPresent && f.revocation == Revoked
    case DelegationRevocationUnknown => f.delegationPresent && f.revocation == Unknown
    case PurposeOutOfScope => f.delegationPresent && !f.purposeAllowed
    case ActionOutOfScope => f.delegationPresent && !f.actionAllowed
    case AmountLimitExceeded => f.delegationPresent && !f.amountAllowed
    case ResourceLimitExceeded => f.delegationPresent && !f.resourcesAllowed
    case CounterpartyNotPermitted => f.delegationPresent && !f.counterpartyAllowed
    case DelegationDepthExceeded => f.delegationPresent && !f.depthAllowed
    case RequestDigestMismatch => !f.requestBinding
    case SessionBindingMismatch => !f.sessionBinding
    case RunBindingMismatch => !f.runBinding
    case RequiredEvidenceMissing => !f.requiredEvidence
    case RuntimeAttestationNotImplemented => f.declared == S5
    case AssuranceClaimMismatch => f.declared != f.verified
    case AllChecksPassed => false
    case ProofMissing => false
  }

  const CHECKS := 29

  /** The turn at which the check behind a reason is made. */
  function Turn(r: Reason): nat {
    match r
    case AgentIdentityEvidenceMissing => 0
    case AgentKeyUnknown => 1
    case KeyChallengeMissing => 2
    case KeyChallengeInvalid => 3
    case ProofSignatureInvalid => 4
    case PrincipalEvidenceMissing => 5
    case OrganisationSponsorMissing => 6
    case AccountableHumanSponsorMissing => 7
    case DelegationMissing => 8
    case DelegationSignatureInvalid => 9
    case DelegationAgentMismatch => 10
    case DelegationPrincipalMismatch => 11
    case DelegationIssuerMismatch => 12
    case DelegationNotYetActive => 13
    case DelegationExpired => 14
    case DelegationRevoked => 15
    case DelegationRevocationUnknown => 16
    case PurposeOutOfScope => 17
    case ActionOutOfScope => 18
    case AmountLimitExceeded => 19
    case ResourceLimitExceeded => 20
    case CounterpartyNotPermitted => 21
    case DelegationDepthExceeded => 22
    case RequestDigestMismatch => 23
    case SessionBindingMismatch => 24
    case RunBindingMismatch => 25
    case RequiredEvidenceMissing => 26
    case RuntimeAttestationNotImplemented => 27
    case AssuranceClaimMismatch => 28
    case AllChecksPassed => CHECKS
    case ProofMissing => CHECKS + 1
  }

  const BY_TURN: Order<Reason> := (q, r) => Turn(q) < Turn(r)

  lemma TurnIsStrictOrder(d: set<Reason>)
    ensures StrictOrderOn(BY_TURN, d)
  {
    forall x, y | x in d && y in d && x != y ensures BY_TURN(x, y) || BY_TURN(y, x) {
      TurnsDiffer(x, y);
    }
  }

  lemma TurnsDiffer(q: Reason, r: Reason)
    ensures Turn(q) == Turn(r) <==> q == r
  {
  }

  function GivenSet(f: Findings): set<Reason> {
    set r: Reason | Given(f, r)
  }

  /** The reasons given, in the order of their checks. */
  ghost function AllReasons(f: Findings): seq<Reason> {
    TurnIsStrictOrder(GivenSet(f));
    InOrder(GivenSet(f), BY_TURN)
  }

  const ACTIVITY_REASONS: set<Reason> := {
    DelegationNotYetActive, DelegationExpired, DelegationRevoked, DelegationRevocationUnknown}

  const SCOPE_REASONS: set<Reason> := {
    PurposeOutOfScope, ActionOutOfScope, AmountLimitExceeded, ResourceLimitExceeded,
    CounterpartyNotPermitted, DelegationDepthExceeded}

  lemma AllReasonsGiven(f: Findings, r: Reason)
    ensures r in AllReasons(f) <==> Given(f, r)
  {
    TurnIsStrictOrder(GivenSet(f));
    assert r in AllReasons(f) <==> r in Elements(AllReasons(f));
  }

  /** No reason is given twice, so removing repeats changes nothing. */
  lemma ReasonsDistinct(f: Findings)
    ensures NoRepeats(AllReasons(f)) && Distinct(AllReasons(f)) == AllReasons(f)
  {
    TurnIsStrictOrder(GivenSet(f));
    var s := AllReasons(f);
    forall i, j | 0 <= i < j < |s| ensures s[i] != s[j] {
      assert BY_TURN(s[i], s[j]);
    }
    DistinctOfDistinct(s);
  }

  /** The two checks that are read off the list of reasons.  A scope is only looked at with a delegation, so without
      one the scope check stays true. */
  lemma ListedChecksExactly(f: Findings)
    ensures ChecksOf(f, AllReasons(f)).delegationActive <==>
      f.delegationPresent && f.started && f.unexpired && f.revocation == Active
    ensures ChecksOf(f, AllReasons(f)).scopeAndLimitsValid <==>
      (f.delegationPresent ==> ScopeHolds(f))
  {
    MentionedActivity(f);
    MentionedScope(f);
  }

  lemma MentionedExactly(f: Findings, some: set<Reason>)
    ensures Mentions(AllReasons(f), some) <==> exists r :: r in some && Given(f, r)
  {
    var reasons := AllReasons(f);
    forall r ensures r in reasons <==> Given(f, r) {
      AllReasonsGiven(f, r);
    }
    if exists r :: r in some && Given(f, r) {
      var r :| r in some && Given(f, r);
      var i :| 0 <= i < |reasons| && reasons[i] == r;
    }
  }

  lemma MentionedBy(f: Findings, some: set<Reason>, r: Reason)
    requires r in some && Given(f, r)
    ensures Mentions(AllReasons(f), some)
  {
    MentionedExactly(f, some);
  }

  lemma ActivityMentioned(f: Findings)
    requires f.delegationPresent && !(f.started && f.unexpired && f.revocation == Active)
    ensures Mentions(AllReasons(f), ACTIVITY_REASONS)
  {
    if !f.started {
      MentionedBy(f, ACTIVITY_REASONS, DelegationNotYetActive);
    } else if !f.unexpired {
      MentionedBy(f, ACTIVITY_REASONS, DelegationExpired);
    } else if f.revocation == Revoked {
      MentionedBy(f, ACTIVITY_REASONS, DelegationRevoked);
    } else {
      MentionedBy(f, ACTIVITY_REASONS, DelegationRevocationUnknown);
    }
  }

  lemma ActivityReason(f: Findings, r: Reason)
    requires r in ACTIVITY_REASONS && Given(f, r)
    ensures f.delegationPresent && !(f.started && f.unexpired && f.revocation == Active)
  {
  }

  lemma MentionedActivity(f: Findings)
    ensures Mentions(AllReasons(f), ACTIVITY_REASONS) <==>
      f.delegationPresent && !(f.started && f.unexpired && f.revocation == Active)
  {
    if Mentions(AllReasons(f), ACTIVITY_REASONS) {
      MentionedExactly(f, ACTIVITY_REASONS);
      var r :| r in ACTIVITY_REASONS && Given(f, r);
      ActivityReason(f, r);
    } else if f.delegationPresent && !(f.started && f.unexpired && f.revocation == Active) {
      ActivityMentioned(f);
    }
  }

  lemma ScopeMentioned(f: Findings)
    requires f.delegationPresent && !ScopeHolds(f)
    ensures Mentions(AllReasons(f), SCOPE_REASONS)
  {
    if !f.purposeAllowed {
      MentionedBy(f, SCOPE_REASONS, PurposeOutOfScope);
    } else if !f.actionAllowed {
      MentionedBy(f, SCOPE_REASONS, ActionOutOfScope);
    } else if !f.amountAllowed {
      MentionedBy(f, SCOPE_REASONS, AmountLimitExceeded);
    } else if !f.resourcesAllowed {
      MentionedBy(f, SCOPE_REASONS, ResourceLimitExceeded);
    } else if !f.counterpartyAllowed {
      MentionedBy(f, SCOPE_REASONS, CounterpartyNotPermitted);
    } else {
      MentionedBy(f, SCOPE_REASONS, DelegationDepthExceeded);
    }
  }

  lemma ScopeReason(f: Findings, r: Reason)
    requires r in SCOPE_REASONS && Given(f, r)
    ensures f.delegationPresent && !ScopeHolds(f)
  {
  }

  lemma MentionedScope(f: Findings)
    ensures Mentions(AllReasons(f), SCOPE_REASONS) <==> f.delegationPresent && !ScopeHolds(f)
  {
    if Mentions(AllReasons(f), SCOPE_REASONS) {
      MentionedExactly(f, SCOPE_REASONS);
      var r :| r in SCOPE_REASONS && Given(f, r);
      ScopeReason(f, r);
    } else if f.delegationPresent && !ScopeHolds(f) {
      ScopeMentioned(f);
    }
  }

  // ----- the verifier ---------------------------------------------------------------------------

  /** The reasons given by the first `k` checks have been pushed, in order. */
  ghost predicate PushedUpTo(f: Findings, k: nat, s: seq<Reason>) {
    Ascending(s, BY_TURN) && forall r :: r in s <==> Turn(r) < k && Given(f, r)
  }

  /** One check, at its turn: its reason is pushed when it fails. */
  method PushNext(f: Findings, reasons: seq<Reason>, ghost k: nat, r: Reason, failed: bool) returns (s: seq<Reason>)
    requires k == Turn(r) && failed == Given(f, r) && PushedUpTo(f, k, reasons)
    ensures PushedUpTo(f, k + 1, s)
  {
    s := reasons;
    if failed {
      s := s + [r];
    }
    forall q ensures q in s <==> Turn(q) < k + 1 && Given(f, q) {
      TurnsDiffer(q, r);
    }
    forall i, j | 0 <= i < j < |s| ensures BY_TURN(s[i], s[j]) {
      assert j == |reasons| ==> s[i] in reasons;
    }
  }

  lemma PushedAll(f: Findings, s: seq<Reason>)
    requires PushedUpTo(f, CHECKS, s)
    ensures s == AllReasons(f)
  {
    TurnIsStrictOrder(GivenSet(f));
    forall r ensures r in Elements(s) <==> r in GivenSet(f) {
      assert Given(f, r) ==> Turn(r) < CHECKS;
    }
    AscendingUnique(s, AllReasons(f), BY_TURN);
  }

  method PushAgentReasons(f: Findings) returns (s: seq<Reason>)
    ensures PushedUpTo(f, 5, s)
  {
    s := [];
    s := PushNext(f, s, 0, AgentIdentityEvidenceMissing, !f.identityEvidence);
    s := PushNext(f, s, 1, AgentKeyUnknown, !f.agentKeyKnown);
    s := PushNext(f, s, 2, KeyChallengeMissing, !f.challengePresent);
    s := PushNext(f, s, 3, KeyChallengeInvalid, f.challengePresent && !f.challengeValid);
    s := PushNext(f, s, 4, ProofSignatureInvalid, !f.proofSignature);
  }

  method PushPrincipalReasons(f: Findings, reasons: seq<Reason>) returns (s: seq<Reason>)
    requires PushedUpTo(f, 5, reasons)
    ensures PushedUpTo(f, 8, s)
  {
    s := PushNext(f, reasons, 5, PrincipalEvidenceMissing, !f.principalEvidence);
    s := PushNext(f, s, 6, OrganisationSponsorMissing, !f.organisationSponsor);
    s := PushNext(f, s, 7, AccountableHumanSponsorMissing, !f.humanSponsor);
  }

  method PushDelegationReasons(f: Findings, reasons: seq<Reason>) returns (s: seq<Reason>)
    requires PushedUpTo(f, 8, reasons)
    ensures PushedUpTo(f, 13, s)
  {
    s := PushNext(f, reasons, 8, DelegationMissing, !f.delegationPresent);
    s := PushNext(f, s, 9, DelegationSignatureInvalid, f.delegationPresent && !f.delegationSignature);
    s := PushNext(f, s, 10, DelegationAgentMismatch, f.delegationPresent && !f.agentMatches);
    s := PushNext(f, s, 11, DelegationPrincipalMismatch, f.delegationPresent && !f.principalMatches);
    s := PushNext(f, s, 12, DelegationIssuerMismatch, f.delegationPresent && !f.issuerMatches);
  }

  method PushActivityReasons(f: Findings, reasons: seq<Reason>) returns (s: seq<Reason>)
    requires PushedUpTo(f, 13, reasons)
    ensures PushedUpTo(f, 17, s)
  {
    s := PushNext(f, reasons, 13, DelegationNotYetActive, f.delegationPresent && !f.started);
    s := PushNext(f, s, 14, DelegationExpired, f.delegationPresent && !f.unexpired);
    s := PushNext(f, s, 15, DelegationRevoked, f.delegationPresent && f.revocation == Revoked);
    s := PushNext(f, s, 16, DelegationRevocationUnknown, f.delegationPresent && f.revocation == Unknown);
  }

  method PushScopeReasons(f: Findings, reasons: seq<Reason>) returns (s: seq<Reason>)
    requires PushedUpTo(f, 17, reasons)
    ensures PushedUpTo(f, 20, s)
  {
    s := PushNext(f, reasons, 17, PurposeOutOfScope, f.delegationPresent && !f.purposeAllowed);
    s := PushNext(f, s, 18, ActionOutOfScope, f.delegationPresent && !f.actionAllowed);
    s := PushNext(f, s, 19, AmountLimitExceeded, f.delegationPresent && !f.amountAllowed);
  }

  method PushLimitReasons(f: Findings, reasons: seq<Reason>) returns (s: seq<Reason>)
    requires PushedUpTo(f, 20, reasons)
    ensures PushedUpTo(f, 23, s)
  {
    s := PushNext(f, reasons, 20, ResourceLimitExceeded, f.delegationPresent && !f.resourcesAllowed);
    s := PushNext(f, s, 21, CounterpartyNotPermitted, f.delegationPresent && !f.counterpartyAllowed);
    s := PushNext(f, s, 22, DelegationDepthExceeded, f.delegationPresent && !f.depthAllowed);
  }

  method PushBindingReasons(f: Findings, reasons: seq<Reason>) returns (s: seq<Reason>)
    requires PushedUpTo(f, 23, reasons)
    ensures PushedUpTo(f, 26, s)
  {
    s := PushNext(f, reasons, 23, RequestDigestMismatch, !f.requestBinding);
    s := PushNext(f, s, 24, SessionBindingMismatch, !f.sessionBinding);
    s := PushNext(f, s, 25, RunBindingMismatch, !f.runBinding);
  }

  method PushLevelReasons(f: Findings, reasons: seq<Reason>) returns (s: seq<Reason>)
    requires PushedUpTo(f, 26, reasons)
    ensures PushedUpTo(f, 29, s)
  {
    s := PushNext(f, reasons, 26, RequiredEvidenceMissing, !f.requiredEvidence);
    s := PushNext(f, s, 27, RuntimeAttestationNotImplemented, f.declared == S5);
    s := PushNext(f, s, 28, AssuranceClaimMismatch, f.declared != f.verified);
  }

  /** The ladder of levels, climbed by reassignment. */
  method ComputeVerifiedAssurance(c: Case) returns (assurance: Assurance)
    ensures assurance == VerifiedAssurance(c)
  {
    var p := c.proof;
    assurance := S0;
    if AccountEvidencePresent(p) {
      assurance := S1;
    }
    if IdentityEvidencePresent(c) && KeyControlChallengeValid(p) && ProofSignatureValid(p) {
      assurance := S2;
    }
    if assurance == S2 && PrincipalEvidencePresent(c) && DelegationPresent(p) && DelegationSignatureValid(p) {
      assurance := S3;
    }
    if assurance == S3 && p.body.principalType == Some(Organisation) && OrganisationSponsorPresent(p)
       && AccountableHumanSponsorPresent(p) {
      assurance := S4;
    }
  }

  datatype Outcome = StandingVerified | StandingRefused | StandingUnverifiable

  datatype Checks = Checks(
    identityEvidencePresent: bool, keyControlChallengeValid: bool, proofSignatureValid: bool,
    principalEvidencePresent: bool, delegationPresent: bool, delegationSignatureValid: bool,
    delegationActive: bool, scopeAndLimitsValid: bool, exactRequestBindingValid: bool,
    sessionRunBindingValid: bool, allRequiredEvidencePresent: bool)

  datatype Receipt = Receipt(
    outcome: Outcome, reasons: seq<Reason>, checks: Checks, verifiedAssurance: Assurance,
    requestDigest: RequestDigest, gatePassEvaluationMayBegin: bool)

  /** The canonical envelope throws on a request that is not well formed. */
  datatype Evaluation = Threw | Decided(receipt: Receipt)

  const NO_CHECKS := Checks(false, false, false, false, false, false, false, false, false, false, false)

  /** No check gives a reason. */
  ghost predicate Verified(c: Case) {
    AllReasons(Examine(c)) == []
  }

  function CheckTime(checkedAt: Option<Stamp>): int {
    if checkedAt.Some? && checkedAt.value.Parse().Some? then checkedAt.value.Parse().value else REFERENCE_TIME_MS
  }

  /** `createDecisionReceipt`: a GatePass evaluation may begin only after a verified standing. */
  function DecisionReceipt(outcome: Outcome, reasons: seq<Reason>, checks: Checks, assurance: Assurance,
                           digest: RequestDigest): Receipt {
    Receipt(outcome, reasons, checks, assurance, digest, outcome == StandingVerified)
  }

  /** The reasons given when there is no proof to look at. */
  const NO_PROOF_REASONS := [
    ProofMissing, AgentIdentityEvidenceMissing, KeyChallengeMissing, PrincipalEvidenceMissing, DelegationMissing,
    RequiredEvidenceMissing]

  ghost function ReceiptFor(c: Case): Receipt {
    var f := Examine(c);
    DecisionReceipt(
      if Verified(c) then StandingVerified else StandingRefused,
      if Verified(c) then [AllChecksPassed] else AllReasons(f),
      ChecksOf(f, AllReasons(f)), VerifiedAssurance(c), DigestOf(c.request))
  }

  /** The whole verification.  `Threw` is the exception of the canonical action envelope. */
  ghost function Evaluate(claim: Claim, request: Request, proof: Option<Proof>, checkedAt: Option<Stamp>): Evaluation {
    if !WellFormed(request) then Threw
    else if proof.None? then
      Decided(DecisionReceipt(
        StandingUnverifiable, NO_PROOF_REASONS, NO_CHECKS, if claim.account.None? then S0 else S1, DigestOf(request)))
    else Decided(ReceiptFor(Case(claim, request, proof.value, CheckTime(checkedAt))))
  }

  /** The verification of a case, check by check. */
  method ExamineCase(c: Case) returns (r: Receipt)
    ensures r == ReceiptFor(c)
  {
    var f := Examine(c);
    var reasons := PushAgentReasons(f);
    reasons := PushPrincipalReasons(f, reasons);
    reasons := PushDelegationReasons(f, reasons);
    reasons := PushActivityReasons(f, reasons);
    reasons := PushScopeReasons(f, reasons);
    reasons := PushLimitReasons(f, reasons);
    reasons := PushBindingReasons(f, reasons);
    reasons := PushLevelReasons(f, reasons);
    PushedAll(f, reasons);
    ReasonsDistinct(f);
    var assurance := ComputeVerifiedAssurance(c);
    var outcome := if |reasons| == 0 then StandingVerified else StandingRefused;
    r := DecisionReceipt(
      outcome, if outcome == StandingVerified then [AllChecksPassed] else Distinct(reasons), ChecksOf(f, reasons),
      assurance, DigestOf(c.request));
  }

  method EvaluateAgentStanding(claim: Claim, request: Request, proof: Option<Proof>, checkedAt: Option<Stamp>)
    returns (e: Evaluation)
    ensures e == Evaluate(claim, request, proof, checkedAt)
  {
    if !WellFormed(request) {
      return Threw;
    }
    if proof.None? {
      return Decided(DecisionReceipt(
        StandingUnverifiable, NO_PROOF_REASONS, NO_CHECKS, if claim.account.None? then S0 else S1, DigestOf(request)));
    }
    var receipt := ExamineCase(Case(claim, request, proof.value, CheckTime(checkedAt)));
    e := Decided(receipt);
  }

  predicate Mentions(reasons: seq<Reason>, some: set<Reason>) {
    exists i :: 0 <= i < |reasons| && reasons[i] in some
  }

  function ChecksOf(f: Findings, reasons: seq<Reason>): Checks {
    Checks(f.identityEvidence, f.challengeValid, f.proofSignature,
           f.principalEvidence && f.organisationSponsor && f.humanSponsor,
           f.delegationPresent, f.delegationSignature,
           f.delegationPresent && !Mentions(reasons, ACTIVITY_REASONS),
           !Mentions(reasons, SCOPE_REASONS),
           f.requestBinding, f.sessionBinding && f.runBinding, f.requiredEvidence)
  }

  // ----- soundness ------------------------------------------------------------------------------

  /** All checks of the verifier, said of the case itself. */
  predicate Sound(c: Case) {
    var p := c.proof;
    var d := p.body.delegation.body;
    && IdentityEvidencePresent(c) && KeyControlChallengeValid(p) && ProofSignatureValid(p)
    && PrincipalEvidencePresent(c) && OrganisationSponsorPresent(p) && AccountableHumanSponsorPresent(p)
    && DelegationSignatureValid(p)
    && d.agent == Some(p.body.agent) && d.principal == p.body.principal && IssuerMatches(p)
    && StartedBy(d.issuedAt, c.checkedAt) && StillRunning(d.expiresAt, c.checkedAt) && d.revocation == Active
    && c.request.purpose in d.purposes && c.request.action in d.actions && AmountWithinLimit(c.request, d)
    && ResourcesWithinLimits(c.request, d) && CounterpartyPermitted(c.request, d) && DepthValid(d)
    && ExactRequestBindingValid(c) && SessionBindingValid(c) && RunBindingValid(c)
    && RequiredEvidencePresent(p) && RevocationEvidencePresent(p)
    && p.body.assurance == if p.body.principalType == Some(Organisation) then S4 else S3
  }

  lemma NoReasonGiven(f: Findings)
    ensures AllReasons(f) == [] <==> forall r :: !Given(f, r)
  {
    forall r ensures r in AllReasons(f) <==> Given(f, r) {
      AllReasonsGiven(f, r);
    }
    assert AllReasons(f) != [] ==> AllReasons(f)[0] in AllReasons(f);
  }

  predicate IdentityHolds(f: Findings) {
    && f.identityEvidence && f.agentKeyKnown && f.challengePresent && f.challengeValid && f.proofSignature
    && f.principalEvidence && f.organisationSponsor && f.humanSponsor
  }

  predicate DelegationHolds(f: Findings) {
    && f.delegationPresent && f.delegationSignature && f.agentMatches && f.principalMatches && f.issuerMatches
    && f.started && f.unexpired && f.revocation == Active
  }

  predicate ScopeHolds(f: Findings) {
    && f.purposeAllowed && f.actionAllowed && f.amountAllowed && f.resourcesAllowed && f.counterpartyAllowed
    && f.depthAllowed
  }

  predicate BindingsHold(f: Findings) {
    f.requestBinding && f.sessionBinding && f.runBinding && f.requiredEvidence && f.declared != S5
    && f.declared == f.verified
  }

  lemma IdentityFollows(f: Findings)
    requires forall r :: !Given(f, r)
    ensures IdentityHolds(f)
  {
    assert !Given(f, AgentIdentityEvidenceMissing) && !Given(f, AgentKeyUnknown) && !Given(f, KeyChallengeMissing);
    assert !Given(f, KeyChallengeInvalid) && !Given(f, ProofSignatureInvalid) && !Given(f, PrincipalEvidenceMissing);
    assert !Given(f, OrganisationSponsorMissing) && !Given(f, AccountableHumanSponsorMissing);
  }

  lemma DelegationFollows(f: Findings)
    requires forall r :: !Given(f, r)
    ensures DelegationHolds(f)
  {
    assert !Given(f, DelegationMissing) && !Given(f, DelegationSignatureInvalid) && !Given(f, DelegationAgentMismatch);
    assert !Given(f, DelegationPrincipalMismatch) && !Given(f, DelegationIssuerMismatch);
    assert !Given(f, DelegationNotYetActive) && !Given(f, DelegationExpired);
    assert !Given(f, DelegationRevoked) && !Given(f, DelegationRevocationUnknown);
  }

  lemma ScopeFollows(f: Findings)
    requires f.delegationPresent && forall r :: !Given(f, r)
    ensures ScopeHolds(f)
  {
    assert !Given(f, PurposeOutOfScope) && !Given(f, ActionOutOfScope) && !Given(f, AmountLimitExceeded);
    assert !Given(f, ResourceLimitExceeded) && !Given(f, CounterpartyNotPermitted);
    assert !Given(f, DelegationDepthExceeded);
  }

  lemma BindingsFollow(f: Findings)
    requires forall r :: !Given(f, r)
    ensures BindingsHold(f)
  {
    assert !Given(f, RequestDigestMismatch) && !Given(f, SessionBindingMismatch) && !Given(f, RunBindingMismatch);
    assert !Given(f, RequiredEvidenceMissing) && !Given(f, RuntimeAttestationNotImplemented);
    assert !Given(f, AssuranceClaimMismatch);
  }

  lemma NothingGiven(f: Findings)
    ensures AllReasons(f) == [] <==> IdentityHolds(f) && DelegationHolds(f) && ScopeHolds(f) && BindingsHold(f)
  {
    NoReasonGiven(f);
    if forall r :: !Given(f, r) {
      IdentityFollows(f);
      DelegationFollows(f);
      ScopeFollows(f);
      BindingsFollow(f);
    }
  }

  /** A standing is verified exactly when every check of the case holds, and then the level is S4 for an
      organisation and S3 for an individual. */
  lemma VerifiedIffSound(c: Case)
    ensures Verified(c) <==> Sound(c)
    ensures Verified(c) ==> VerifiedAssurance(c) == c.proof.body.assurance
    ensures Verified(c) ==>
      ChecksOf(Examine(c), []) == Checks(true, true, true, true, true, true, true, true, true, true, true)
  {
    NothingGiven(Examine(c));
  }

  /** The key registered for an agent, and for the principal as an issuer. */
  function RegisteredAgentKey(agent: string): Option<string> {
    var known := AgentRegistry(agent);
    if known.Some? then FixtureKey(known.value.keyReference) else None
  }

  function RegisteredIssuerKey(principal: Option<string>): Option<string> {
    var known := if principal.Some? then PrincipalRegistry(principal.value) else None;
    if known.Some? then FixtureKey(known.value.issuerKeyReference) else None
  }

  ghost predicate SignedBy(m: Option<Metadata>, key: Option<string>, p: Payload) {
    m.Some? && key.Some? && m.value.signature == Signed(key.value, p)
  }

  /** Soundness: behind a verified standing the key registered for the principal signed a delegation that
      names this agent, principal, exact request, session and run, allows the purpose and the action and is
      in force; and the key registered for the claimed agent signed a challenge for that request and a proof
      that embeds both. */
  lemma StandingSound(c: Case)
    requires Verified(c)
    ensures var p := c.proof.body;
            var d := p.delegation.body;
            && SignedBy(p.delegation.metadata, RegisteredIssuerKey(c.request.principal), DelegationPayload(d))
            && d.agent == Some(c.claim.agent) && d.principal == c.request.principal
            && d.digest == Some(DigestOf(c.request)) && d.session == c.request.session && d.run == c.request.run
            && c.request.purpose in d.purposes && c.request.action in d.actions
            && StartedBy(d.issuedAt, c.checkedAt) && StillRunning(d.expiresAt, c.checkedAt)
            && d.revocation == Active
    ensures var p := c.proof.body;
            && SignedBy(p.challenge.metadata, RegisteredAgentKey(c.claim.agent), ChallengePayload(p.challenge.body))
            && p.challenge.body.agent == c.claim.agent && p.challenge.body.nonce.Some?
            && p.challenge.body.digest == DigestOf(c.request)
            && SignedBy(Some(c.proof.metadata), RegisteredAgentKey(c.claim.agent), ProofPayload(p))
            && p.agent == c.claim.agent && p.digest == DigestOf(c.request)
  {
    VerifiedIffSound(c);
  }

  function SignatureIn(m: Option<Metadata>): Option<Signature<Payload>> {
    if m.Some? then Some(m.value.signature) else None
  }

  /** A delegation signature cannot be kept over an altered delegation, and serves one request only. */
  lemma DelegationServesOneRequest(a: Case, b: Case)
    requires Verified(a) && Verified(b)
    requires SignatureIn(a.proof.body.delegation.metadata) == SignatureIn(b.proof.body.delegation.metadata)
    ensures a.proof.body.delegation.body == b.proof.body.delegation.body && a.request == b.request
  {
    VerifiedIffSound(a);
    VerifiedIffSound(b);
    DigestDeterminesRequest(a.request, b.request);
  }

  /** The same for the key challenge. */
  lemma ChallengeServesOneRequest(a: Case, b: Case)
    requires Verified(a) && Verified(b)
    requires SignatureIn(a.proof.body.challenge.metadata) == SignatureIn(b.proof.body.challenge.metadata)
    ensures a.proof.body.challenge.body == b.proof.body.challenge.body && a.request == b.request
  {
    VerifiedIffSound(a);
    VerifiedIffSound(b);
    DigestDeterminesRequest(a.request, b.request);
  }

  /** The same for the proof, which covers everything: whatever verifies under one proof signature is the
      same proof for the same request and claim. */
  lemma ProofServesOneRequest(a: Case, b: Case)
    requires Verified(a) && Verified(b) && a.proof.metadata.signature == b.proof.metadata.signature
    ensures a.proof.body == b.proof.body && a.request == b.request && a.claim == b.claim
  {
    VerifiedIffSound(a);
    VerifiedIffSound(b);
    DigestDeterminesRequest(a.request, b.request);
  }

  /** Altering anything a verified proof signs, while keeping its signature, is refused. */
  lemma AlteredProofRefused(c: Case, altered: ProofBody)
    requires Verified(c) && altered != c.proof.body
    ensures !Verified(c.(proof := c.proof.(body := altered)))
  {
    if Verified(c.(proof := c.proof.(body := altered))) {
      ProofServesOneRequest(c, c.(proof := c.proof.(body := altered)));
    }
  }

  // ----- the signer -----------------------------------------------------------------------------

  /** The options a caller may override, and the fixed texts of the proof's limitations. */
  datatype Options = Options(maximumAmount: real, issuedAt: Stamp, expiresAt: Stamp, limitations: seq<string>)

  function Max(a: real, b: real): real {
    if a < b then b else a
  }

  function AgentKeyReference(t: PrincipalType): string {
    if t == Organisation then AGENT_ORGANISATION_KEY else AGENT_INDIVIDUAL_KEY
  }

  function IssuerKeyReference(t: PrincipalType): string {
    if t == Organisation then PRINCIPAL_ORGANISATION_KEY else PRINCIPAL_INDIVIDUAL_KEY
  }

  function AccountIdentity(t: PrincipalType): string {
    if t == Organisation then ORGANISATION_ACCOUNT else INDIVIDUAL_ACCOUNT
  }

  function RequiredFixtureKey(t: PrincipalType, issuer: bool): string {
    if issuer then
      if t == Organisation then "agent-standing-principal-organisation-001"
      else "agent-standing-principal-individual-001"
    else
      if t == Organisation then "agent-standing-agent-organisation-001"
      else "agent-standing-agent-individual-001"
  }

  function CreateChallenge(r: Request, t: PrincipalType): Challenge {
    var body := ChallengeBody("atg.agent-standing-key-challenge.local.v1",
                              Some("challenge_" + r.requestIdentifier + "_nonce_v1"), r.agent,
                              AgentKeyReference(t), DigestOf(r), r.session, r.run);
    Challenge(body, Some(SignMetadata(ChallengePayload(body), RequiredFixtureKey(t, false), Iso(1785660960000))))
  }

  function LimitsFor(resources: seq<Resource>): (limits: seq<Limit>)
    ensures |limits| == |resources|
    ensures forall i :: 0 <= i < |resources| ==>
              limits[i] == Limit(resources[i].name, Max(resources[i].quantity, 10.0))
  {
    seq(|resources|, i requires 0 <= i < |resources| =>
      Limit(resources[i].name, Max(resources[i].quantity, 10.0)))
  }

  function DelegationIdentifier(r: Request): string {
    "delegation_" + r.requestIdentifier
  }

  function CreateDelegation(r: Request, t: PrincipalType, o: Options): Delegation {
    var body := DelegationBody(
      "atg.agent-standing-delegation.local.v1", Some(DelegationIdentifier(r)), r.principal,
      Some(IssuerKeyReference(t)), Some(r.agent), r.principal, [r.purpose], [r.action],
      Some(o.maximumAmount), r.currency, LimitsFor(r.resources),
      if r.counterparty.None? then None else Some([r.counterparty.value]),
      Some(o.issuedAt), Some(o.expiresAt), Active, Some("fixture://revocations/" + DelegationIdentifier(r)),
      Some(0.0), Some(1.0), Some(DigestOf(r)), r.session, r.run);
    Delegation(body, Some(SignMetadata(DelegationPayload(body), RequiredFixtureKey(t, true), o.issuedAt)))
  }

  function EvidenceRef(kind: EvidenceType, reference: string): Evidence {
    Evidence(kind, reference, true, true)
  }

  function CreateEvidence(r: Request, t: PrincipalType): seq<Evidence> {
    [EvidenceRef(AgentIdentity, "fixture://agent-registry/" + r.agent),
     EvidenceRef(AccountOrPlatformIdentity, "fixture://platform-accounts/" + AccountIdentity(t)),
     EvidenceRef(AgentPublicKey, AgentKeyReference(t)),
     EvidenceRef(PrincipalIdentity, "fixture://principal-registry/" + OrMissing(r.principal))]
    + (if t == Organisation then
         [EvidenceRef(OrganisationSponsor, "fixture://organisation-sponsors/" + OrMissing(r.principal)),
          EvidenceRef(AccountableHumanSponsor, ACCOUNTABLE_HUMAN)]
       else [])
    + [EvidenceRef(DelegationEvidence, "fixture://delegations/" + DelegationIdentifier(r)),
       EvidenceRef(RevocationStatus, "fixture://revocations/" + DelegationIdentifier(r))]
  }

  function CreateProofBody(r: Request, t: PrincipalType, o: Options): ProofBody {
    ProofBody(
      "atg.agent-standing-proof.local.v1", "standing_proof_" + r.requestIdentifier, r.agent,
      AgentKeyReference(t), "tool_calling_agent", Some(AccountIdentity(t)), r.principal, Some(t),
      if t == Organisation then r.principal else None,
      if t == Organisation then Some(ACCOUNTABLE_HUMAN) else None,
      CreateDelegation(r, t, o), CreateChallenge(r, t), DigestOf(r), r.session, r.run,
      CreateEvidence(r, t), if t == Organisation then S4 else S3, o.limitations)
  }

  function CreateSignedStandingProof(r: Request, t: PrincipalType, o: Options): Proof {
    var body := CreateProofBody(r, t, o);
    Proof(body, SignMetadata(ProofPayload(body), RequiredFixtureKey(t, false), Iso(1785661020000)))
  }

  /** The signed proof put back before the verifier, with the claim that goes with it. */
  function RoundTripCase(r: Request, t: PrincipalType, o: Options, at: int): Case {
    Case(Claim(r.agent, Some(AccountIdentity(t))), r, CreateSignedStandingProof(r, t, o), at)
  }

  // ----- the round trip -------------------------------------------------------------------------

  predicate RegisteredFor(r: Request, t: PrincipalType) {
    && AgentRegistry(r.agent) == Some(AgentRecord(AgentKeyReference(t), AccountIdentity(t)))
    && r.principal.Some?
    && PrincipalRegistry(r.principal.value).Some?
    && PrincipalRegistry(r.principal.value).value.principalType == t
  }

  predicate InForce(o: Options, at: int) {
    StartedBy(Some(o.issuedAt), at) && StillRunning(Some(o.expiresAt), at)
  }

  predicate AmountFits(r: Request, o: Options) {
    r.amount.Some? ==>
      IsInteger(r.amount.value) && IsInteger(o.maximumAmount) && 0.0 <= r.amount.value <= o.maximumAmount
  }

  /** Each entry fits the limit made from the first entry of its name. */
  predicate ResourcesFit(r: Request) {
    forall i :: 0 <= i < |r.resources| ==>
      0.0 <= r.resources[i].quantity <= Max(FirstQuantity(r.resources, r.resources[i].name), 10.0)
  }

  function FirstQuantity(resources: seq<Resource>, name: string): real {
    if resources == [] then 0.0
    else if resources[0].name == name then resources[0].quantity
    else FirstQuantity(resources[1..], name)
  }

  lemma {:induction false} FirstLimit(resources: seq<Resource>, name: string)
    requires exists i :: 0 <= i < |resources| && resources[i].name == name
    ensures FindLimit(LimitsFor(resources), name) == Some(Limit(name, Max(FirstQuantity(resources, name), 10.0)))
  {
    if resources[0].name != name {
      assert LimitsFor(resources)[1..] == LimitsFor(resources[1..]);
      var i :| 0 <= i < |resources| && resources[i].name == name;
      assert resources[1..][i - 1] == resources[i];
      FirstLimit(resources[1..], name);
    }
  }

  lemma LimitsRoundTrip(r: Request, t: PrincipalType, o: Options)
    ensures ResourcesWithinLimits(r, CreateDelegation(r, t, o).body) <==> ResourcesFit(r)
  {
    forall i | 0 <= i < |r.resources|
      ensures FindLimit(LimitsFor(r.resources), r.resources[i].name)
              == Some(Limit(r.resources[i].name, Max(FirstQuantity(r.resources, r.resources[i].name), 10.0)))
    {
      FirstLimit(r.resources, r.resources[i].name);
    }
  }

  lemma KeysKnown(t: PrincipalType)
    ensures FixtureKey(AgentKeyReference(t)) == Some(RequiredFixtureKey(t, false))
    ensures FixtureKey(IssuerKeyReference(t)) == Some(RequiredFixtureKey(t, true))
  {
    assert |AGENT_INDIVIDUAL_KEY| == 34 && |AGENT_ORGANISATION_KEY| == 36;
    assert |PRINCIPAL_INDIVIDUAL_KEY| == 38 && |PRINCIPAL_ORGANISATION_KEY| == 40;
  }

  lemma EvidenceCreated(r: Request, t: PrincipalType)
    ensures var e := CreateEvidence(r, t);
            && HasEvidence(e, AgentIdentity, "fixture://agent-registry/" + r.agent)
            && HasEvidence(e, AccountOrPlatformIdentity, "fixture://platform-accounts/" + AccountIdentity(t))
            && HasEvidence(e, AgentPublicKey, AgentKeyReference(t))
            && HasEvidence(e, PrincipalIdentity, "fixture://principal-registry/" + OrMissing(r.principal))
            && HasEvidence(e, DelegationEvidence, "fixture://delegations/" + DelegationIdentifier(r))
            && HasEvidence(e, RevocationStatus, "fixture://revocations/" + DelegationIdentifier(r))
  {
    var e := CreateEvidence(r, t);
    assert e[0] == EvidenceRef(AgentIdentity, "fixture://agent-registry/" + r.agent);
    assert e[1] == EvidenceRef(AccountOrPlatformIdentity, "fixture://platform-accounts/" + AccountIdentity(t));
    assert e[2] == EvidenceRef(AgentPublicKey, AgentKeyReference(t));
    assert e[3] == EvidenceRef(PrincipalIdentity, "fixture://principal-registry/" + OrMissing(r.principal));
    assert e[|e| - 2] == EvidenceRef(DelegationEvidence, "fixture://delegations/" + DelegationIdentifier(r));
    assert e[|e| - 1] == EvidenceRef(RevocationStatus, "fixture://revocations/" + DelegationIdentifier(r));
  }

  lemma SponsorEvidenceCreated(r: Request)
    ensures var e := CreateEvidence(r, Organisation);
            && HasEvidence(e, OrganisationSponsor, "fixture://organisation-sponsors/" + OrMissing(r.principal))
            && HasEvidence(e, AccountableHumanSponsor, ACCOUNTABLE_HUMAN)
  {
    var e := CreateEvidence(r, Organisation);
    assert e[4] == EvidenceRef(OrganisationSponsor, "fixture://organisation-sponsors/" + OrMissing(r.principal));
    assert e[5] == EvidenceRef(AccountableHumanSponsor, ACCOUNTABLE_HUMAN);
  }

  /** The parts of the verification that cannot fail on a proof the signer made. */
  lemma SignedPartsVerify(r: Request, t: PrincipalType, o: Options)
    ensures var p := CreateSignedStandingProof(r, t, o);
            && AgentKey(p).Some? && ChallengePresent(p) && KeyControlChallengeValid(p) && ProofSignatureValid(p)
  {
    KeysKnown(t);
    EvidenceCreated(r, t);
  }

  lemma SignedDelegationVerifies(r: Request, t: PrincipalType, o: Options)
    ensures var p := CreateSignedStandingProof(r, t, o);
            && (r.principal.Some? ==> DelegationSignatureValid(p) && RevocationEvidencePresent(p))
            && (DelegationPresent(p) ==> r.principal.Some?)
  {
    KeysKnown(t);
    EvidenceCreated(r, t);
  }

  lemma ScopeRoundTrip(r: Request, t: PrincipalType, o: Options)
    ensures var d := CreateDelegation(r, t, o).body;
            && r.purpose in d.purposes && r.action in d.actions && CounterpartyPermitted(r, d) && DepthValid(d)
            && (AmountWithinLimit(r, d) <==> AmountFits(r, o))
  {
    assert IsInteger(0.0) && IsInteger(1.0);
  }

  lemma BindingsRoundTrip(r: Request, t: PrincipalType, o: Options, at: int)
    ensures var c := RoundTripCase(r, t, o, at);
            && ExactRequestBindingValid(c) && SessionBindingValid(c) && RunBindingValid(c)
            && c.proof.body.delegation.body.agent == Some(r.agent)
            && c.proof.body.delegation.body.principal == c.proof.body.principal
  {
  }

  lemma IdentityRoundTrip(r: Request, t: PrincipalType, o: Options, at: int)
    ensures IdentityEvidencePresent(RoundTripCase(r, t, o, at)) <==>
              AgentRegistry(r.agent) == Some(AgentRecord(AgentKeyReference(t), AccountIdentity(t)))
  {
    EvidenceCreated(r, t);
  }

  lemma PrincipalRoundTrip(r: Request, t: PrincipalType, o: Options, at: int)
    ensures PrincipalEvidencePresent(RoundTripCase(r, t, o, at)) <==>
              r.principal.Some? && PrincipalRegistry(r.principal.value).Some?
              && PrincipalRegistry(r.principal.value).value.principalType == t
  {
    EvidenceCreated(r, t);
  }

  lemma PrincipalRecords(principal: string)
    requires PrincipalRegistry(principal).Some?
    ensures var known := PrincipalRegistry(principal).value;
            && known.issuerKeyReference == IssuerKeyReference(known.principalType)
            && (known.principalType == Organisation ==> known.humanSponsor == Some(ACCOUNTABLE_HUMAN))
  {
  }

  lemma SponsorsRoundTrip(r: Request, t: PrincipalType, o: Options)
    requires RegisteredFor(r, t)
    ensures var p := CreateSignedStandingProof(r, t, o);
            OrganisationSponsorPresent(p) && AccountableHumanSponsorPresent(p) && IssuerMatches(p)
  {
    PrincipalRecords(r.principal.value);
    if t == Organisation {
      SponsorEvidenceCreated(r);
    }
  }

  lemma EvidenceRoundTrip(r: Request, t: PrincipalType, o: Options)
    requires r.principal.Some?
    ensures RequiredEvidencePresent(CreateSignedStandingProof(r, t, o))
  {
    EvidenceCreated(r, t);
    if t == Organisation {
      SponsorEvidenceCreated(r);
    }
  }

  /** The round trip: a freshly signed proof is verified for its own request exactly when the agent and the
      principal are registered for the sponsor type, the delegation is in force at the check time, the
      amount is absent or a whole number within the maximum, and each resource entry fits. */
  lemma RoundTrip(r: Request, t: PrincipalType, o: Options, at: int)
    ensures Verified(RoundTripCase(r, t, o, at)) <==>
              RegisteredFor(r, t) && InForce(o, at) && AmountFits(r, o) && ResourcesFit(r)
  {
    var c := RoundTripCase(r, t, o, at);
    VerifiedIffSound(c);
    SignedPartsVerify(r, t, o);
    SignedDelegationVerifies(r, t, o);
    ScopeRoundTrip(r, t, o);
    LimitsRoundTrip(r, t, o);
    BindingsRoundTrip(r, t, o, at);
    IdentityRoundTrip(r, t, o, at);
    PrincipalRoundTrip(r, t, o, at);
    if RegisteredFor(r, t) {
      SponsorsRoundTrip(r, t, o);
      EvidenceRoundTrip(r, t, o);
    }
  }

  /** In the verifier's own words: for a request the signer takes, evaluating what it signed answers STANDING_VERIFIED
      under exactly that condition, and STANDING_REFUSED otherwise.  For any other request signer and verifier throw. */
  lemma RoundTripOutcome(r: Request, t: PrincipalType, o: Options, checkedAt: Option<Stamp>)
    ensures var claim := Claim(r.agent, Some(AccountIdentity(t)));
      var e := Evaluate(claim, r, Some(CreateSignedStandingProof(r, t, o)), checkedAt);
      if WellFormed(r) then
        e.Decided? && e.receipt.outcome ==
          (if RegisteredFor(r, t) && InForce(o, CheckTime(checkedAt)) && AmountFits(r, o) && ResourcesFit(r)
           then StandingVerified else StandingRefused)
      else e.Threw?
  {
    RoundTrip(r, t, o, CheckTime(checkedAt));
  }
}
