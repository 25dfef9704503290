/**
 The business policy contract: what a policy must look like, how old evidence may be, how much an action may
 cost, and how the single outcomes join into ACCEPT, REFER or REJECT.
 */
module BusinessPolicy {
  import opened Primitives
  import opened OrderedText

  // ----- entities -------------------------------------------------------------------------------

  datatype Outcome = Accept | Refer | Reject

  datatype Tier = Routine | Elevated | High | Prohibited

  /** The four known conditions; a rule may carry any other text. */
  datatype Condition = ProhibitedOrOutOfScope | HumanReviewAmountBand | CustomerImpact | DefaultRoutine
                     | UnknownCondition(text: string)

  datatype RiskRule = RiskRule(ruleId: string, condition: Condition, tier: Tier, outcome: Outcome)

  datatype FreshnessRule = FreshnessRule(
    ruleId: string, evidenceType: string, maximumAgeSeconds: real,
    missingOutcome: Outcome, staleOutcome: Outcome, invalidOutcome: Outcome, futureDatedOutcome: Outcome)

  datatype Band = Band(ruleId: string, minimum: real, maximum: real, outcome: Outcome)

  datatype PolicyStatus = ActivePolicy | InactivePolicy | RevokedPolicy

  datatype Body = Body(
    schema: string, policyId: string, policyVersion: string, organisation: string, owner: string,
    effectiveAt: Stamp, expiresAt: Option<Stamp>,
    actionTypes: seq<string>, tools: seq<string>, operations: seq<string>, supplierIds: seq<string>,
    counterparties: seq<string>, recipients: seq<string>, destinations: seq<string>,
    supplierAccounts: seq<string>, environments: seq<string>,
    currency: string, automaticMaximum: real, absoluteMaximum: real, maximumQuantity: real,
    band: Band, prohibitedActions: seq<string>,
    contactPermitted: bool, maximumDiscount: real, maximumRefund: real, maximumCancellation: real,
    requiredEvidence: seq<string>, freshnessRules: seq<FreshnessRule>,
    dutiesSeparated: bool, requesterMayApprove: bool, additionalApprovalAbove: real,
    riskRules: seq<RiskRule>, status: PolicyStatus, revocationReference: Option<string>,
    minimumTrustedTime: Stamp, localOnly: bool, syntheticOnly: bool, createsAuthority: bool)

  datatype Policy = Policy(body: Body, digest: Digest<Body>)

  /** A number of a request: nothing keeps it finite. */
  datatype Number = Num(value: real) | NaN | Infinite(negative: bool)

  datatype Action = Action(actionType: string, supplierId: string, currency: string, quantity: Number)

  datatype Impact = NoImpact | Indirect | CustomerFacing

  datatype Context = Context(
    destination: string, supplierAccount: string, counterparty: string, recipient: string, environment: string,
    impact: Impact, contactRequested: bool, discount: Number, refund: Number, cancellation: Number,
    approvalReference: Option<string>, authorityExpansion: bool, claimsPolicyApproval: bool)

  datatype ObservationStatus = ValidEvidence | MissingEvidence | InvalidEvidence

  datatype Observation = Observation(
    evidenceType: string, reference: string, status: ObservationStatus,
    issuedAt: Option<Stamp>, observedAt: Option<Stamp>, expiresAt: Option<Stamp>)

  /** A trusted clock; `reading` is absent when it throws or gives no usable time. */
  datatype Clock = NoClock | TrustedClock(clockId: string, reading: Option<int>)

  // ----- joining outcomes -----------------------------------------------------------------------

  function Severity(o: Outcome): nat {
    match o
    case Accept => 0
    case Refer => 1
    case Reject => 2
  }

  predicate AtMost(a: Outcome, b: Outcome) {
    Severity(a) <= Severity(b)
  }

  function CombineOutcomes(outcomes: seq<Outcome>): Outcome {
    if Reject in outcomes then Reject else if Refer in outcomes then Refer else Accept
  }

  /** The combination is the least upper bound in ACCEPT < REFER < REJECT. */
  lemma CombineIsJoin(outcomes: seq<Outcome>, bound: Outcome)
    ensures forall o :: o in outcomes ==> AtMost(o, CombineOutcomes(outcomes))
    ensures (forall o :: o in outcomes ==> AtMost(o, bound)) ==> AtMost(CombineOutcomes(outcomes), bound)
  {
  }

  // ----- a well-formed policy -------------------------------------------------------------------

  const SCHEMA := "atg.business-policy-contract.local.v1"
  const KNOWN_CONDITIONS: set<Condition> :=
    {ProhibitedOrOutOfScope, HumanReviewAmountBand, CustomerImpact, DefaultRoutine}

  function KnownTier(c: Condition): Tier
    requires c in KNOWN_CONDITIONS
  {
    match c
    case ProhibitedOrOutOfScope => Prohibited
    case HumanReviewAmountBand => High
    case CustomerImpact => Elevated
    case _ => Routine
  }

  function KnownOutcome(c: Condition): Outcome
    requires c in KNOWN_CONDITIONS
  {
    match c
    case ProhibitedOrOutOfScope => Reject
    case HumanReviewAmountBand => Refer
    case CustomerImpact => Refer
    case _ => Accept
  }

  predicate RiskRulesValid(rules: seq<RiskRule>) {
    && |rules| == 4
    && |set r | r in rules :: r.condition| == 4
    && |set r | r in rules :: r.ruleId| == 4
    && forall r :: r in rules ==>
         NonBlank(r.ruleId) && r.condition in KNOWN_CONDITIONS
         && r.tier == KnownTier(r.condition) && r.outcome == KnownOutcome(r.condition)
  }

  function EvidenceTypes(rules: seq<FreshnessRule>): set<string> {
    set r | r in rules :: r.evidenceType
  }

  predicate FreshnessRulesValid(rules: seq<FreshnessRule>, required: seq<string>) {
    && |rules| == |required|
    && |Elements(required)| == |required|
    && |EvidenceTypes(rules)| == |rules|
    && |set r | r in rules :: r.ruleId| == |rules|
    && forall r :: r in rules ==>
         r.evidenceType in required && NonBlank(r.ruleId)
         && IsSafeInteger(r.maximumAgeSeconds) && r.maximumAgeSeconds >= 0.0
  }

  predicate IsWellFormedPolicy(p: Body) {
    && p.schema == SCHEMA
    && NonBlank(p.policyId) && NonBlank(p.policyVersion) && NonBlank(p.organisation) && NonBlank(p.owner)
    && p.effectiveAt.Parse().Some?
    && (p.expiresAt.Some? ==> p.expiresAt.value.Parse().Some?
                              && p.expiresAt.value.Parse().value > p.effectiveAt.Parse().value)
    && p.minimumTrustedTime.Parse().Some?
    && IsCurrency(p.currency)
    && IsSafeInteger(p.automaticMaximum) && IsSafeInteger(p.absoluteMaximum)
    && 0.0 <= p.automaticMaximum <= p.absoluteMaximum
    && IsSafeInteger(p.maximumQuantity) && p.maximumQuantity > 0.0
    && IsSafeInteger(p.band.minimum) && IsSafeInteger(p.band.maximum)
    && p.band.minimum == p.automaticMaximum + 1.0 && p.band.maximum == p.absoluteMaximum
    && p.band.outcome == Refer && NonBlank(p.band.ruleId)
    && |p.tools| > 0 && |p.operations| > 0
    && !p.contactPermitted && p.dutiesSeparated && !p.requesterMayApprove
    && p.localOnly && p.syntheticOnly && !p.createsAuthority
    && (if p.status == RevokedPolicy then p.revocationReference.Some? && NonBlank(p.revocationReference.value)
        else p.revocationReference.None?)
    && RiskRulesValid(p.riskRules)
    && FreshnessRulesValid(p.freshnessRules, p.requiredEvidence)
  }

  // ----- pigeonhole -----------------------------------------------------------------------------

  /** A subset as large as the whole is the whole. */
  lemma {:induction false} SubsetOfSameSize<T>(a: set<T>, b: set<T>)
    requires a <= b && |a| == |b|
    ensures a == b
  {
    if x :| x in b && x !in a {
      SubsetNotLarger(a, b - {x});
    }
  }

  lemma {:induction false} SubsetNotLarger<T>(a: set<T>, b: set<T>)
    requires a <= b
    ensures |a| <= |b|
  {
    if x :| x in a {
      SubsetNotLarger(a - {x}, b - {x});
    }
  }

  /** Four rules with four distinct known conditions: every known condition has its rule. */
  lemma EveryConditionHasRule(rules: seq<RiskRule>, c: Condition) returns (k: nat)
    requires RiskRulesValid(rules) && c in KNOWN_CONDITIONS
    ensures k < |rules| && rules[k].condition == c
  {
    var present := set r | r in rules :: r.condition;
    assert |KNOWN_CONDITIONS| == 4;
    SubsetOfSameSize(present, KNOWN_CONDITIONS);
    var r :| r in rules && r.condition == c;
    k :| 0 <= k < |rules| && rules[k] == r;
  }

  /** The freshness rules cover the required evidence types exactly. */
  lemma RulesCoverRequired(rules: seq<FreshnessRule>, required: seq<string>)
    requires FreshnessRulesValid(rules, required)
    ensures EvidenceTypes(rules) == Elements(required)
  {
    SubsetOfSameSize(EvidenceTypes(rules), Elements(required));
  }

  /** ... one rule for each type. */
  lemma {:induction false} DistinctTypes(rules: seq<FreshnessRule>)
    ensures |EvidenceTypes(rules)| <= |rules|
    ensures |EvidenceTypes(rules)| == |rules| ==>
              forall i, j :: 0 <= i < j < |rules| ==> rules[i].evidenceType != rules[j].evidenceType
  {
    if rules != [] {
      var front, last := rules[..|rules| - 1], rules[|rules| - 1];
      DistinctTypes(front);
      assert EvidenceTypes(rules) == EvidenceTypes(front) + {last.evidenceType} by {
        assert rules == front + [last];
      }
      if last.evidenceType in EvidenceTypes(front) {
        assert EvidenceTypes(rules) == EvidenceTypes(front);
      }
    }
  }

  // ----- comparing numbers ----------------------------------------------------------------------

  /** `>`, `>=` and `<=`; with NaN none of them holds. */
  predicate Exceeds(n: Number, limit: real) {
    (n.Num? && n.value > limit) || n == Infinite(false)
  }

  predicate Reaches(n: Number, limit: real) {
    (n.Num? && n.value >= limit) || n == Infinite(false)
  }

  predicate StaysWithin(n: Number, limit: real) {
    (n.Num? && n.value <= limit) || n == Infinite(true)
  }

  // ----- risk -----------------------------------------------------------------------------------

  datatype Risk = Risk(tier: Tier, outcome: Outcome, ruleIds: seq<string>)

  function FindRule(rules: seq<RiskRule>, c: Condition): Option<RiskRule> {
    if rules == [] then None
    else if rules[0].condition == c then Some(rules[0])
    else FindRule(rules[1..], c)
  }

  lemma {:induction false} FindRuleFinds(rules: seq<RiskRule>, c: Condition)
    requires exists k :: 0 <= k < |rules| && rules[k].condition == c
    ensures FindRule(rules, c).Some? && FindRule(rules, c).value in rules && FindRule(rules, c).value.condition == c
  {
    if rules[0].condition != c {
      var k :| 0 <= k < |rules| && rules[k].condition == c;
      assert rules[1..][k - 1] == rules[k];
      FindRuleFinds(rules[1..], c);
    }
  }

  function RiskFor(p: Body, c: Condition): Risk {
    var rule := FindRule(p.riskRules, c);
    if rule.None? then Risk(Prohibited, Reject, ["POLICY_UNKNOWN_RISK_RULE"])
    else Risk(rule.value.tier, rule.value.outcome, [rule.value.ruleId])
  }

  /** In a well-formed policy the branch for an unknown rule is never taken. */
  lemma RiskForKnown(p: Body, c: Condition)
    requires RiskRulesValid(p.riskRules) && c in KNOWN_CONDITIONS
    ensures FindRule(p.riskRules, c).Some?
    ensures RiskFor(p, c).tier == KnownTier(c) && RiskFor(p, c).outcome == KnownOutcome(c)
    ensures exists r :: r in p.riskRules && r.condition == c && RiskFor(p, c).ruleIds == [r.ruleId]
  {
    var k := EveryConditionHasRule(p.riskRules, c);
    FindRuleFinds(p.riskRules, c);
  }

  /** The tests of scope other than the amount. */
  predicate OutOfScope(p: Body, a: Action, x: Context) {
    || a.actionType !in p.actionTypes || a.supplierId !in p.supplierIds
    || x.counterparty !in p.counterparties || x.recipient !in p.recipients
    || x.destination !in p.destinations || x.supplierAccount !in p.supplierAccounts
    || x.environment !in p.environments || a.currency != p.currency
    || Exceeds(a.quantity, p.maximumQuantity)
    || x.contactRequested || Exceeds(x.discount, p.maximumDiscount) || Exceeds(x.refund, p.maximumRefund)
    || Exceeds(x.cancellation, p.maximumCancellation) || x.authorityExpansion || x.claimsPolicyApproval
    || a.actionType in p.prohibitedActions
  }

  function ClassifyBusinessRisk(p: Body, a: Action, amount: Number, x: Context): Risk {
    if OutOfScope(p, a, x) || Exceeds(amount, p.absoluteMaximum) then RiskFor(p, ProhibitedOrOutOfScope)
    else if Reaches(amount, p.band.minimum) && StaysWithin(amount, p.band.maximum)
    then RiskFor(p, HumanReviewAmountBand)
    else if x.impact != NoImpact then RiskFor(p, CustomerImpact)
    else RiskFor(p, DefaultRoutine)
  }

  /** An amount that neither the review band nor the absolute maximum stops. */
  predicate Unstopped(p: Body, amount: Number) {
    match amount
    case Num(value) => value < p.automaticMaximum + 1.0 && value <= p.absoluteMaximum
    case NaN => true
    case Infinite(negative) => negative
  }

  /** The amount bands of a well-formed policy, for every amount. */
  lemma RiskBands(p: Body, a: Action, amount: Number, x: Context)
    requires IsWellFormedPolicy(p)
    ensures var r := ClassifyBusinessRisk(p, a, amount, x);
            && (r.outcome == Reject <==> OutOfScope(p, a, x) || Exceeds(amount, p.absoluteMaximum))
            && (r.tier == Prohibited <==> r.outcome == Reject)
            && (r.tier == High <==> !OutOfScope(p, a, x) && amount.Num?
                                    && p.automaticMaximum + 1.0 <= amount.value <= p.absoluteMaximum)
            && (r.outcome == Accept <==> !OutOfScope(p, a, x) && x.impact == NoImpact && Unstopped(p, amount))
            && (r.tier == Routine <==> r.outcome == Accept)
  {
    RiskForKnown(p, ProhibitedOrOutOfScope);
    RiskForKnown(p, HumanReviewAmountBand);
    RiskForKnown(p, CustomerImpact);
    RiskForKnown(p, DefaultRoutine);
  }

  /** For whole amounts there is no gap: in scope and without impact an amount is accepted exactly up to the
      automatic maximum, referred above it up to the absolute maximum, and rejected above that. */
  lemma WholeAmountsSplit(p: Body, a: Action, amount: real, x: Context)
    requires IsWellFormedPolicy(p) && !OutOfScope(p, a, x) && x.impact == NoImpact && IsInteger(amount)
    ensures ClassifyBusinessRisk(p, a, Num(amount), x).outcome
            == if amount <= p.automaticMaximum then Accept
               else if amount <= p.absoluteMaximum then Refer
               else Reject
  {
    RiskBands(p, a, Num(amount), x);
    assert amount > p.automaticMaximum ==> amount.Floor > p.automaticMaximum.Floor;
  }

  lemma NoWholeNumberBetween(m: real, x: real)
    requires IsInteger(m) && m < x < m + 1.0
    ensures !IsInteger(x)
  {
    assert x.Floor < m.Floor + 1;
  }

  /** An amount is accepted although it does not stay within the automatic maximum exactly when it is not a number, or
      falls strictly within the one minor unit between that maximum and the review band, which only a fractional amount
      can do. */
  lemma FractionalGap(p: Body, a: Action, amount: Number, x: Context)
    requires IsWellFormedPolicy(p) && !OutOfScope(p, a, x) && x.impact == NoImpact
    ensures ClassifyBusinessRisk(p, a, amount, x).outcome == Accept && !StaysWithin(amount, p.automaticMaximum) <==>
              amount.NaN? || (amount.Num? && p.automaticMaximum < amount.value < p.automaticMaximum + 1.0
                              && amount.value <= p.absoluteMaximum)
    ensures amount.Num? && p.automaticMaximum < amount.value < p.automaticMaximum + 1.0 ==> !IsInteger(amount.value)
  {
    RiskBands(p, a, amount, x);
    if amount.Num? && p.automaticMaximum < amount.value < p.automaticMaximum + 1.0 {
      NoWholeNumberBetween(p.automaticMaximum, amount.value);
    }
  }

  // ----- the age of evidence --------------------------------------------------------------------

  datatype Freshness = Fresh | Stale | Missing | Invalid | FutureDated | Malformed

  datatype Evaluation = Evaluation(
    evidenceType: string, ruleId: string, state: Freshness, outcome: Outcome, ageSeconds: Option<int>)

  function ParseOptional(s: Option<Stamp>): Option<int> {
    if s.Some? then s.value.Parse() else None
  }

  predicate WellDated(o: Observation) {
    var issued := ParseOptional(o.issuedAt);
    var observed := ParseOptional(o.observedAt);
    && issued.Some? && observed.Some?
    && (o.expiresAt.Some? ==> ParseOptional(o.expiresAt).Some?)
    && issued.value <= observed.value
  }

  function EvaluateObservation(rule: FreshnessRule, o: Option<Observation>, now: int): Evaluation {
    if o.None? || o.value.status == MissingEvidence then
      Evaluation(rule.evidenceType, rule.ruleId, Missing, rule.missingOutcome, None)
    else if o.value.status == InvalidEvidence then
      Evaluation(rule.evidenceType, rule.ruleId, Invalid, rule.invalidOutcome, None)
    else if !WellDated(o.value) then
      Evaluation(rule.evidenceType, rule.ruleId, Malformed, Reject, None)
    else
      var issued := ParseOptional(o.value.issuedAt).value;
      var observed := ParseOptional(o.value.observedAt).value;
      if issued > now || observed > now then
        Evaluation(rule.evidenceType, rule.ruleId, FutureDated, rule.futureDatedOutcome, None)
      else
        var age := (now - issued) / 1000;
        if (o.value.expiresAt.Some? && now >= ParseOptional(o.value.expiresAt).value)
           || age as real > rule.maximumAgeSeconds then
          Evaluation(rule.evidenceType, rule.ruleId, Stale, rule.staleOutcome, Some(age))
        else
          Evaluation(rule.evidenceType, rule.ruleId, Fresh, Accept, Some(age))
  }

  function FindObservation(os: seq<Observation>, evidenceType: string): Option<Observation> {
    if os == [] then None
    else if os[0].evidenceType == evidenceType then Some(os[0])
    else FindObservation(os[1..], evidenceType)
  }

  /** From when an observation counts, and from when it no longer does. */
  function CountsFrom(o: Observation): int
    requires WellDated(o)
  {
    ParseOptional(o.observedAt).value
  }

  function CountsUntil(rule: FreshnessRule, o: Observation): int
    requires WellDated(o)
  {
    var byAge := ParseOptional(o.issuedAt).value + 1000 * (rule.maximumAgeSeconds.Floor + 1);
    if o.expiresAt.Some? && ParseOptional(o.expiresAt).value < byAge then ParseOptional(o.expiresAt).value
    else byAge
  }

  predicate Datable(o: Option<Observation>) {
    o.Some? && o.value.status == ValidEvidence && WellDated(o.value)
  }

  /** An observation that is valid and well dated is future-dated, then fresh, then stale, as the clock moves
      over the two times; any other observation never changes its state. */
  lemma ThreePhases(rule: FreshnessRule, o: Option<Observation>, now: int)
    requires IsInteger(rule.maximumAgeSeconds) && rule.maximumAgeSeconds >= 0.0
    ensures Datable(o) ==>
      EvaluateObservation(rule, o, now).state ==
        if now < CountsFrom(o.value) then FutureDated
        else if now < CountsUntil(rule, o.value) then Fresh
        else Stale
    ensures !Datable(o) ==>
      EvaluateObservation(rule, o, now).state !in {FutureDated, Fresh, Stale}
      && forall later :: EvaluateObservation(rule, o, later) == EvaluateObservation(rule, o, now)
  {
    if Datable(o) {
      AgeBound(now - ParseOptional(o.value.issuedAt).value, rule.maximumAgeSeconds);
    }
  }

  /** Whole seconds of age against a whole maximum, in milliseconds. */
  lemma AgeBound(elapsed: int, maximum: real)
    requires IsInteger(maximum)
    ensures (elapsed / 1000) as real > maximum <==> elapsed >= 1000 * (maximum.Floor + 1)
  {
    var m := maximum.Floor;
    assert (elapsed / 1000) as real > maximum <==> elapsed / 1000 > m;
  }

  datatype Decay = Decay(
    available: bool, outcome: Outcome, reasonCodes: seq<string>, ruleIds: seq<string>, evaluations: seq<Evaluation>)

  function FailedClock(reason: string): Decay {
    Decay(false, Reject, [reason], ["EVIDENCE-CLOCK-FAIL-CLOSED-001"], [])
  }

  function UpperChar(c: char): char {
    if 'a' <= c <= 'z' then (c as int - 32) as char else c
  }

  function Upper(s: string): string {
    seq(|s|, i requires 0 <= i < |s| => UpperChar(s[i]))
  }

  function StateName(f: Freshness): string {
    match f
    case Fresh => "FRESH"
    case Stale => "STALE"
    case Missing => "MISSING"
    case Invalid => "INVALID"
    case FutureDated => "FUTURE_DATED"
    case Malformed => "MALFORMED"
  }

  function Evaluations(rules: seq<FreshnessRule>, os: seq<Observation>, now: int): (r: seq<Evaluation>)
    ensures |r| == |rules|
    ensures forall k :: 0 <= k < |rules| ==>
      r[k] == EvaluateObservation(rules[k], FindObservation(os, rules[k].evidenceType), now)
  {
    seq(|rules|, k requires 0 <= k < |rules| =>
      EvaluateObservation(rules[k], FindObservation(os, rules[k].evidenceType), now))
  }

  function OutcomesOf(es: seq<Evaluation>): (r: seq<Outcome>)
    ensures |r| == |es|
    ensures forall k :: 0 <= k < |es| ==> r[k] == es[k].outcome
  {
    seq(|es|, k requires 0 <= k < |es| => es[k].outcome)
  }

  function RuleIdsOf(es: seq<Evaluation>): seq<string> {
    seq(|es|, k requires 0 <= k < |es| => es[k].ruleId)
  }

  function DecayReasons(es: seq<Evaluation>): seq<string> {
    if es == [] then []
    else (if es[0].state == Fresh then []
          else ["EVIDENCE_" + Upper(es[0].evidenceType) + "_" + StateName(es[0].state)]) + DecayReasons(es[1..])
  }

  /** The clock has a reading that is not before the minimum trusted time. */
  predicate ClockUsable(p: Body, clock: Clock) {
    clock.TrustedClock? && clock.reading.Some?
    && !(p.minimumTrustedTime.Parse().Some? && clock.reading.value < p.minimumTrustedTime.Parse().value)
  }

  function EvaluateEvidenceDecay(p: Body, os: seq<Observation>, clock: Clock): Decay {
    if clock.NoClock? || clock.reading.None? then FailedClock("CLOCK_UNAVAILABLE")
    else if !ClockUsable(p, clock) then FailedClock("CLOCK_ROLLBACK_DETECTED")
    else
      var es := Evaluations(p.freshnessRules, os, clock.reading.value);
      var reasons := DecayReasons(es);
      Decay(true, CombineOutcomes(OutcomesOf(es)),
            if |reasons| == 0 then ["EVIDENCE_FRESHNESS_VERIFIED"] else reasons, RuleIdsOf(es), es)
  }

  // ----- the whole evaluation -------------------------------------------------------------------

  datatype PolicyEvaluation = PolicyEvaluation(
    outcome: Outcome, reasonCodes: seq<string>, ruleIds: seq<string>, risk: Risk, decay: Decay)

  /** The approval that a high tier asks for when no reference is given. */
  predicate NeedsApproval(p: Body, amount: Number, x: Context, risk: Risk) {
    risk.tier == High && x.approvalReference.None? && Exceeds(amount, p.additionalApprovalAbove)
  }

  function PolicyOutcome(p: Body, a: Action, amount: Number, x: Context, os: seq<Observation>, clock: Clock): Outcome {
    var risk := ClassifyBusinessRisk(p, a, amount, x);
    var joined := CombineOutcomes([risk.outcome, EvaluateEvidenceDecay(p, os, clock).outcome]);
    if NeedsApproval(p, amount, x, risk) then CombineOutcomes([joined, Refer]) else joined
  }

  method EvaluateBusinessPolicy(p: Body, a: Action, amount: Number, x: Context, os: seq<Observation>, clock: Clock)
    returns (e: PolicyEvaluation)
    ensures e.risk == ClassifyBusinessRisk(p, a, amount, x)
    ensures e.decay == EvaluateEvidenceDecay(p, os, clock)
    ensures e.outcome == PolicyOutcome(p, a, amount, x, os, clock)
    ensures var extra := NeedsApproval(p, amount, x, e.risk);
            && e.reasonCodes == Distinct(e.decay.reasonCodes + (if extra then ["ADDITIONAL_APPROVAL_REQUIRED"] else [])
                                         + [TierReason(e.risk.tier)])
            && e.ruleIds == Distinct(e.risk.ruleIds + e.decay.ruleIds
                                     + (if extra then ["SOD-ADDITIONAL-APPROVAL-001"] else []))
  {
    var risk := ClassifyBusinessRisk(p, a, amount, x);
    var decay := EvaluateEvidenceDecay(p, os, clock);
    var reasonCodes := decay.reasonCodes;
    var ruleIds := risk.ruleIds + decay.ruleIds;
    var outcome := CombineOutcomes([risk.outcome, decay.outcome]);
    if NeedsApproval(p, amount, x, risk) {
      outcome := CombineOutcomes([outcome, Refer]);
      reasonCodes := reasonCodes + ["ADDITIONAL_APPROVAL_REQUIRED"];
      ruleIds := ruleIds + ["SOD-ADDITIONAL-APPROVAL-001"];
    } else {
      assert reasonCodes + [] == reasonCodes && ruleIds + [] == ruleIds;
    }
    reasonCodes := reasonCodes + [TierReason(risk.tier)];
    e := PolicyEvaluation(outcome, Distinct(reasonCodes), Distinct(ruleIds), risk, decay);
  }

  function TierReason(t: Tier): string {
    match t
    case Prohibited => "PROHIBITED_ACTION_TIER"
    case High => "HUMAN_REVIEW_AMOUNT_BAND"
    case Elevated => "CUSTOMER_IMPACT_REVIEW_REQUIRED"
    case Routine => "ROUTINE_POLICY_RULES_PASSED"
  }

  // ----- when the policy accepts ----------------------------------------------------------------

  /** The extra approval is asked for where the outcome is REFER or REJECT already. */
  lemma ExtraApprovalChangesNothing(p: Body, a: Action, amount: Number, x: Context, os: seq<Observation>, clock: Clock)
    requires IsWellFormedPolicy(p)
    ensures PolicyOutcome(p, a, amount, x, os, clock)
      == CombineOutcomes([ClassifyBusinessRisk(p, a, amount, x).outcome, EvaluateEvidenceDecay(p, os, clock).outcome])
  {
    var risk := ClassifyBusinessRisk(p, a, amount, x);
    RiskBands(p, a, amount, x);
    assert risk.tier == High ==> risk.outcome != Accept;
  }

  /** The outcome is the join of the risk outcome with the outcome of every freshness rule; without a usable
      clock it is REJECT.  The extra approval never changes it. */
  lemma OutcomeIsJoin(p: Body, a: Action, amount: Number, x: Context, os: seq<Observation>, clock: Clock)
    requires IsWellFormedPolicy(p)
    ensures var risk := ClassifyBusinessRisk(p, a, amount, x);
            PolicyOutcome(p, a, amount, x, os, clock) ==
              if ClockUsable(p, clock) then
                CombineOutcomes([risk.outcome] + OutcomesOf(Evaluations(p.freshnessRules, os, clock.reading.value)))
              else Reject
  {
    ExtraApprovalChangesNothing(p, a, amount, x, os, clock);
    if ClockUsable(p, clock) {
      var os' := OutcomesOf(Evaluations(p.freshnessRules, os, clock.reading.value));
      var risk := ClassifyBusinessRisk(p, a, amount, x);
      assert forall o :: o in [risk.outcome] + os' <==> o == risk.outcome || o in os';
    }
  }

  function EvaluationOf(rules: seq<FreshnessRule>, os: seq<Observation>, now: int, k: nat): Evaluation
    requires k < |rules|
  {
    EvaluateObservation(rules[k], FindObservation(os, rules[k].evidenceType), now)
  }

  predicate AllAccepted(rules: seq<FreshnessRule>, os: seq<Observation>, now: int) {
    forall k :: 0 <= k < |rules| ==> EvaluationOf(rules, os, now, k).outcome == Accept
  }

  predicate AllFresh(rules: seq<FreshnessRule>, os: seq<Observation>, now: int) {
    forall k :: 0 <= k < |rules| ==> EvaluationOf(rules, os, now, k).state == Fresh
  }

  predicate RoutineAction(p: Body, a: Action, amount: Number, x: Context) {
    !OutOfScope(p, a, x) && x.impact == NoImpact && Unstopped(p, amount)
  }

  /** The whole condition for ACCEPT, for every well-formed policy. */
  lemma AcceptExactly(p: Body, a: Action, amount: Number, x: Context, os: seq<Observation>, clock: Clock)
    requires IsWellFormedPolicy(p)
    ensures PolicyOutcome(p, a, amount, x, os, clock) == Accept <==>
              RoutineAction(p, a, amount, x) && ClockUsable(p, clock)
              && AllAccepted(p.freshnessRules, os, clock.reading.value)
  {
    OutcomeIsJoin(p, a, amount, x, os, clock);
    RiskBands(p, a, amount, x);
    if ClockUsable(p, clock) {
      var es := Evaluations(p.freshnessRules, os, clock.reading.value);
      AcceptedEvaluations(p.freshnessRules, os, clock.reading.value);
      var risk := ClassifyBusinessRisk(p, a, amount, x);
      assert forall o :: o in [risk.outcome] + OutcomesOf(es) <==> o == risk.outcome || o in OutcomesOf(es);
    }
  }

  lemma AcceptedEvaluations(rules: seq<FreshnessRule>, os: seq<Observation>, now: int)
    ensures CombineOutcomes(OutcomesOf(Evaluations(rules, os, now))) == Accept <==> AllAccepted(rules, os, now)
  {
    var outcomes := OutcomesOf(Evaluations(rules, os, now));
    if CombineOutcomes(outcomes) == Accept {
      forall k | 0 <= k < |rules| ensures EvaluationOf(rules, os, now, k).outcome == Accept {
        assert outcomes[k] in outcomes;
      }
    } else {
      var o :| o in outcomes && o != Accept;
      var k :| 0 <= k < |outcomes| && outcomes[k] == o;
      assert EvaluationOf(rules, os, now, k).outcome == o;
    }
  }

  // ----- what ACCEPT says about the evidence ----------------------------------------------------

  /** The declared types of a freshness rule promise this; the well-formedness test does not look at it. */
  predicate LapseRefused(r: FreshnessRule) {
    r.missingOutcome != Accept && r.staleOutcome != Accept && r.invalidOutcome != Accept
    && r.futureDatedOutcome != Accept
  }

  predicate NoLapseAccepted(rules: seq<FreshnessRule>) {
    forall k :: 0 <= k < |rules| ==> LapseRefused(rules[k])
  }

  /** An observation that is fresh at `now`. */
  function FreshAt(evidenceType: string, now: int): Observation {
    Observation(evidenceType, "", ValidEvidence, Some(Iso(now)), Some(Iso(now)), None)
  }

  /** One that shows the lapse a rule accepts. */
  function LapseAt(r: FreshnessRule, now: int): Observation {
    var o := FreshAt(r.evidenceType, now);
    if r.missingOutcome == Accept then o.(status := MissingEvidence)
    else if r.invalidOutcome == Accept then o.(status := InvalidEvidence)
    else if r.staleOutcome == Accept then o.(expiresAt := Some(Iso(now)))
    else o.(issuedAt := Some(Iso(now + 1)), observedAt := Some(Iso(now + 1)))
  }

  lemma FreshAccepted(r: FreshnessRule, now: int)
    requires r.maximumAgeSeconds >= 0.0
    ensures EvaluateObservation(r, Some(FreshAt(r.evidenceType, now)), now).outcome == Accept
  {
  }

  lemma LapseAccepted(r: FreshnessRule, now: int)
    requires !LapseRefused(r)
    ensures var e := EvaluateObservation(r, Some(LapseAt(r, now)), now); e.outcome == Accept && e.state != Fresh
  {
  }

  lemma {:induction false} FindsOwn(os: seq<Observation>, k: nat)
    requires k < |os| && forall i, j :: 0 <= i < j < |os| ==> os[i].evidenceType != os[j].evidenceType
    ensures FindObservation(os, os[k].evidenceType) == Some(os[k])
  {
    if k > 0 {
      FindsOwn(os[1..], k - 1);
    }
  }

  /** Evidence that is fresh for every rule but the `j`-th, whose lapse is accepted. */
  lemma LapsingEvidence(rules: seq<FreshnessRule>, j: nat, now: int) returns (os: seq<Observation>)
    requires j < |rules| && !LapseRefused(rules[j])
    requires forall k :: 0 <= k < |rules| ==> rules[k].maximumAgeSeconds >= 0.0
    requires forall i, k :: 0 <= i < k < |rules| ==> rules[i].evidenceType != rules[k].evidenceType
    ensures AllAccepted(rules, os, now) && !AllFresh(rules, os, now)
  {
    os := seq(|rules|, k requires 0 <= k < |rules| =>
      if k == j then LapseAt(rules[k], now) else FreshAt(rules[k].evidenceType, now));
    forall k | 0 <= k < |rules| ensures EvaluationOf(rules, os, now, k).outcome == Accept {
      FindsOwn(os, k);
      if k == j {
        LapseAccepted(rules[k], now);
      } else {
        FreshAccepted(rules[k], now);
      }
    }
    FindsOwn(os, j);
    LapseAccepted(rules[j], now);
    assert EvaluationOf(rules, os, now, j).state != Fresh;
  }

  lemma NoLapseAcceptedMeansFresh(rules: seq<FreshnessRule>, os: seq<Observation>, now: int)
    requires NoLapseAccepted(rules)
    ensures AllAccepted(rules, os, now) <==> AllFresh(rules, os, now)
  {
    forall k | 0 <= k < |rules|
      ensures EvaluationOf(rules, os, now, k).outcome == Accept <==> EvaluationOf(rules, os, now, k).state == Fresh
    {
      assert LapseRefused(rules[k]);
    }
  }

  /** Accepted evidence is fresh evidence, at any one reading and whatever the evidence, if and only if no rule of the
      policy accepts a lapse. */
  lemma AcceptedMeansFreshExactly(p: Body, now: int)
    requires IsWellFormedPolicy(p)
    ensures (forall os :: AllAccepted(p.freshnessRules, os, now) ==> AllFresh(p.freshnessRules, os, now))
      <==> NoLapseAccepted(p.freshnessRules)
  {
    var rules := p.freshnessRules;
    if NoLapseAccepted(rules) {
      forall os | AllAccepted(rules, os, now) ensures AllFresh(rules, os, now) {
        NoLapseAcceptedMeansFresh(rules, os, now);
      }
    } else {
      var j :| 0 <= j < |rules| && !LapseRefused(rules[j]);
      DistinctTypes(rules);
      forall k | 0 <= k < |rules| ensures rules[k].maximumAgeSeconds >= 0.0 {
        assert rules[k] in rules;
      }
      var os := LapsingEvidence(rules, j, now);
    }
  }

  lemma RuleForRequired(rules: seq<FreshnessRule>, required: seq<string>, evidenceType: string) returns (k: nat)
    requires FreshnessRulesValid(rules, required) && evidenceType in required
    ensures k < |rules| && rules[k].evidenceType == evidenceType
  {
    RulesCoverRequired(rules, required);
    assert evidenceType in EvidenceTypes(rules);
    var r :| r in rules && r.evidenceType == evidenceType;
    k :| 0 <= k < |rules| && rules[k] == r;
  }

  lemma RefusedLapseMeansFresh(rules: seq<FreshnessRule>, os: seq<Observation>, now: int, k: nat)
    requires k < |rules| && AllAccepted(rules, os, now)
    ensures EvaluationOf(rules, os, now, k).outcome == Accept
    ensures LapseRefused(rules[k]) ==> EvaluationOf(rules, os, now, k).state == Fresh
  {
  }

  /** ACCEPT means that for every required evidence type its rule accepts what was found, which is fresh evidence unless
      that rule accepts a lapse. */
  lemma AcceptCoversRequired(p: Body, a: Action, amount: Number, x: Context, os: seq<Observation>, clock: Clock,
                             evidenceType: string) returns (k: nat)
    requires IsWellFormedPolicy(p)
    requires PolicyOutcome(p, a, amount, x, os, clock) == Accept && evidenceType in p.requiredEvidence
    ensures k < |p.freshnessRules| && p.freshnessRules[k].evidenceType == evidenceType && clock.TrustedClock?
    ensures clock.reading.Some?
    ensures var e := EvaluationOf(p.freshnessRules, os, clock.reading.value, k);
            e.outcome == Accept && (LapseRefused(p.freshnessRules[k]) ==> e.state == Fresh)
  {
    AcceptExactly(p, a, amount, x, os, clock);
    k := RuleForRequired(p.freshnessRules, p.requiredEvidence, evidenceType);
    RefusedLapseMeansFresh(p.freshnessRules, os, clock.reading.value, k);
  }

  /** A high tier is referred or rejected, whether or not an approval reference is given. */
  lemma HighNeverAccepts(p: Body, a: Action, amount: Number, x: Context, os: seq<Observation>, clock: Clock)
    requires IsWellFormedPolicy(p) && ClassifyBusinessRisk(p, a, amount, x).tier == High
    ensures PolicyOutcome(p, a, amount, x, os, clock) != Accept
    ensures forall reference ::
      PolicyOutcome(p, a, amount, x.(approvalReference := reference), os, clock)
      == PolicyOutcome(p, a, amount, x, os, clock)
  {
    RiskBands(p, a, amount, x);
    OutcomeIsJoin(p, a, amount, x, os, clock);
    forall reference
      ensures PolicyOutcome(p, a, amount, x.(approvalReference := reference), os, clock)
              == PolicyOutcome(p, a, amount, x, os, clock)
    {
      OutcomeIsJoin(p, a, amount, x.(approvalReference := reference), os, clock);
    }
  }

  // ----- the instants at which the policy accepts -----------------------------------------------

  /** From when a rule accepts a datable observation: at once if it accepts one that is still to come. */
  function AcceptedFrom(rule: FreshnessRule, o: Option<Observation>): Option<int>
    requires Datable(o)
  {
    if rule.futureDatedOutcome == Accept then None else Some(CountsFrom(o.value))
  }

  /** Until when: for ever if it accepts a stale one. */
  function AcceptedUntil(rule: FreshnessRule, o: Option<Observation>): Option<int>
    requires Datable(o)
  {
    var start, end := CountsFrom(o.value), CountsUntil(rule, o.value);
    if rule.staleOutcome == Accept then None
    else if rule.futureDatedOutcome == Accept && end < start then Some(start)
    else Some(end)
  }

  /** The outcome for what no clock reading changes. */
  function TimelessOutcome(rule: FreshnessRule, o: Option<Observation>): Outcome {
    if o.None? || o.value.status == MissingEvidence then rule.missingOutcome
    else if o.value.status == InvalidEvidence then rule.invalidOutcome
    else Reject
  }

  lemma RuleInterval(rule: FreshnessRule, o: Option<Observation>, now: int)
    requires IsInteger(rule.maximumAgeSeconds) && rule.maximumAgeSeconds >= 0.0
    ensures Datable(o) ==>
      (EvaluateObservation(rule, o, now).outcome == Accept <==>
         (AcceptedFrom(rule, o).Some? ==> AcceptedFrom(rule, o).value <= now)
         && (AcceptedUntil(rule, o).Some? ==> now < AcceptedUntil(rule, o).value))
    ensures !Datable(o) ==> EvaluateObservation(rule, o, now).outcome == TimelessOutcome(rule, o)
  {
    ThreePhases(rule, o, now);
  }

  /** The latest of the minimum trusted time and the times from which the rules accept. */
  function Opens(rules: seq<FreshnessRule>, os: seq<Observation>, least: int): int {
    if rules == [] then least
    else
      var o := FindObservation(os, rules[0].evidenceType);
      var rest := Opens(rules[1..], os, least);
      if Datable(o) && AcceptedFrom(rules[0], o).Some? && rest < AcceptedFrom(rules[0], o).value
      then AcceptedFrom(rules[0], o).value else rest
  }

  /** The earliest of the times until which the rules accept; there may be none. */
  function Closes(rules: seq<FreshnessRule>, os: seq<Observation>): Option<int> {
    if rules == [] then None
    else
      var o := FindObservation(os, rules[0].evidenceType);
      var rest := Closes(rules[1..], os);
      if Datable(o) && AcceptedUntil(rules[0], o).Some?
         && (rest.None? || AcceptedUntil(rules[0], o).value < rest.value)
      then AcceptedUntil(rules[0], o) else rest
  }

  /** No rule meets something that it refuses at every reading. */
  predicate CanAccept(rules: seq<FreshnessRule>, os: seq<Observation>) {
    forall k :: 0 <= k < |rules| ==>
      var o := FindObservation(os, rules[k].evidenceType);
      Datable(o) || TimelessOutcome(rules[k], o) == Accept
  }

  predicate Within(now: int, opens: int, closes: Option<int>) {
    opens <= now && (closes.Some? ==> now < closes.value)
  }

  predicate AgesAreWhole(rules: seq<FreshnessRule>) {
    forall k :: 0 <= k < |rules| ==> IsInteger(rules[k].maximumAgeSeconds) && rules[k].maximumAgeSeconds >= 0.0
  }

  lemma {:induction false} AcceptedWithin(rules: seq<FreshnessRule>, os: seq<Observation>, least: int, now: int)
    requires AgesAreWhole(rules) && CanAccept(rules, os)
    ensures least <= now && AllAccepted(rules, os, now) <==> Within(now, Opens(rules, os, least), Closes(rules, os))
  {
    if rules != [] {
      var o := FindObservation(os, rules[0].evidenceType);
      RuleInterval(rules[0], o, now);
      assert CanAccept(rules[1..], os) by {
        assert forall k :: 0 <= k < |rules| - 1 ==> rules[1..][k] == rules[k + 1];
      }
      AcceptedWithin(rules[1..], os, least, now);
      FirstAndRest(rules, os, now);
    }
  }

  lemma FirstAndRest(rules: seq<FreshnessRule>, os: seq<Observation>, now: int)
    requires rules != []
    ensures AllAccepted(rules, os, now) <==>
      EvaluationOf(rules, os, now, 0).outcome == Accept && AllAccepted(rules[1..], os, now)
  {
    assert forall k :: 0 <= k < |rules| - 1 ==>
      EvaluationOf(rules[1..], os, now, k) == EvaluationOf(rules, os, now, k + 1);
    if AllAccepted(rules[1..], os, now) && EvaluationOf(rules, os, now, 0).outcome == Accept {
      forall k | 0 <= k < |rules| ensures EvaluationOf(rules, os, now, k).outcome == Accept {
        assert k > 0 ==> EvaluationOf(rules[1..], os, now, k - 1).outcome == Accept;
      }
    }
  }

  lemma AcceptedCanAccept(rules: seq<FreshnessRule>, os: seq<Observation>, now: int)
    requires AgesAreWhole(rules) && AllAccepted(rules, os, now)
    ensures CanAccept(rules, os)
  {
    forall k | 0 <= k < |rules|
      ensures var o := FindObservation(os, rules[k].evidenceType);
              Datable(o) || TimelessOutcome(rules[k], o) == Accept
    {
      RuleInterval(rules[k], FindObservation(os, rules[k].evidenceType), now);
      assert EvaluationOf(rules, os, now, k).outcome == Accept;
    }
  }

  /** With everything but the clock fixed, the readings at which a policy accepts are one interval, whatever its rules
      say of lapses: closed at the latest of the minimum trusted time and the times from which the rules accept, open at
      the earliest time until which they do, if there is one; or there is no such reading at all. */
  lemma AcceptedInstantsFormInterval(p: Body, a: Action, amount: Number, x: Context, os: seq<Observation>,
                                     clockId: string, now: int)
    requires IsWellFormedPolicy(p)
    ensures PolicyOutcome(p, a, amount, x, os, TrustedClock(clockId, Some(now))) == Accept <==>
              && RoutineAction(p, a, amount, x) && CanAccept(p.freshnessRules, os)
              && Within(now, Opens(p.freshnessRules, os, p.minimumTrustedTime.Parse().value),
                        Closes(p.freshnessRules, os))
  {
    var rules, least := p.freshnessRules, p.minimumTrustedTime.Parse().value;
    AcceptExactly(p, a, amount, x, os, TrustedClock(clockId, Some(now)));
    if CanAccept(rules, os) {
      AcceptedWithin(rules, os, least, now);
    } else if AllAccepted(rules, os, now) {
      AcceptedCanAccept(rules, os, now);
    }
  }

  // ----- the registry ---------------------------------------------------------------------------

  datatype Reference = Reference(policyId: string, policyVersion: string, digest: Digest<Body>)

  datatype Resolution = Refused(reason: string) | Resolved(policy: Policy)

  predicate IntegrityHolds(p: Policy) {
    p.digest == Sha256(p.body)
  }

  /** The last policy registered under an id. */
  function LastRegistered(policies: seq<Policy>, id: string): Option<Policy> {
    if policies == [] then None
    else if policies[|policies| - 1].body.policyId == id then Some(policies[|policies| - 1])
    else LastRegistered(policies[..|policies| - 1], id)
  }

  class BusinessPolicyRegistry {
    var policies: map<string, Policy>

    constructor (given: seq<Policy>)
      ensures IsRegistryOf(policies, given)
    {
      policies := map[];
      new;
      var k := 0;
      while k < |given|
        invariant 0 <= k <= |given|
        invariant forall id :: id in policies <==> LastRegistered(given[..k], id).Some?
        invariant forall id :: id in policies ==> Some(policies[id]) == LastRegistered(given[..k], id)
      {
        assert given[..k + 1][..k] == given[..k];
        policies := policies[given[k].body.policyId := given[k]];
        k := k + 1;
      }
      assert given[..k] == given;
    }

    method Resolve(reference: Reference, evaluatedAt: Stamp) returns (r: Resolution)
      ensures r == ResolveIn(policies, reference, evaluatedAt)
    {
      if reference.policyId !in policies {
        return Refused("POLICY_UNKNOWN");
      }
      var policy := policies[reference.policyId];
      if reference.policyVersion != policy.body.policyVersion {
        return Refused("POLICY_VERSION_MISMATCH");
      }
      if reference.digest != policy.digest {
        return Refused("POLICY_DIGEST_MISMATCH");
      }
      if !IntegrityHolds(policy) || !IsWellFormedPolicy(policy.body) {
        return Refused("POLICY_MALFORMED");
      }
      var now := evaluatedAt.Parse();
      if now.None? {
        return Refused("POLICY_MALFORMED");
      }
      if now.value < policy.body.effectiveAt.Parse().value {
        return Refused("POLICY_NOT_YET_EFFECTIVE");
      }
      if policy.body.expiresAt.Some? && now.value >= policy.body.expiresAt.value.Parse().value {
        return Refused("POLICY_EXPIRED");
      }
      if policy.body.status == InactivePolicy {
        return Refused("POLICY_INACTIVE");
      }
      if policy.body.status == RevokedPolicy {
        return Refused("POLICY_REVOKED");
      }
      r := Resolved(policy);
    }
  }

  /** The decision of the registry as a table of causes, the first that applies. */
  function ResolveIn(policies: map<string, Policy>, reference: Reference, at: Stamp): Resolution {
    if reference.policyId !in policies then Refused("POLICY_UNKNOWN")
    else
      var p := policies[reference.policyId];
      if p.body.policyVersion != reference.policyVersion then Refused("POLICY_VERSION_MISMATCH")
      else if p.digest != reference.digest then Refused("POLICY_DIGEST_MISMATCH")
      else if !IntegrityHolds(p) || !IsWellFormedPolicy(p.body) || at.Parse().None? then Refused("POLICY_MALFORMED")
      else if at.Parse().value < p.body.effectiveAt.Parse().value then Refused("POLICY_NOT_YET_EFFECTIVE")
      else if p.body.expiresAt.Some? && p.body.expiresAt.value.Parse().value <= at.Parse().value
      then Refused("POLICY_EXPIRED")
      else if p.body.status == InactivePolicy then Refused("POLICY_INACTIVE")
      else if p.body.status == RevokedPolicy then Refused("POLICY_REVOKED")
      else Resolved(p)
  }

  /** What the constructor makes of the policies it is given. */
  ghost predicate IsRegistryOf(policies: map<string, Policy>, given: seq<Policy>) {
    && (forall id :: id in policies <==> LastRegistered(given, id).Some?)
    && (forall id :: id in policies ==> Some(policies[id]) == LastRegistered(given, id))
  }

  lemma {:induction false} LastRegisteredHasId(given: seq<Policy>, id: string)
    requires LastRegistered(given, id).Some?
    ensures LastRegistered(given, id).value.body.policyId == id
  {
    if given[|given| - 1].body.policyId != id {
      LastRegisteredHasId(given[..|given| - 1], id);
    }
  }

  /** The one reference that names a policy. */
  function ReferenceTo(p: Policy): Reference {
    Reference(p.body.policyId, p.body.policyVersion, p.digest)
  }

  predicate InForce(p: Body, at: Stamp)
    requires IsWellFormedPolicy(p)
  {
    && p.status == ActivePolicy
    && at.Parse().Some?
    && p.effectiveAt.Parse().value <= at.Parse().value
    && (p.expiresAt.Some? ==> at.Parse().value < p.expiresAt.value.Parse().value)
  }

  /** A registry answers with a policy exactly when that policy is the last one given under its id, is intact, well
      formed and in force, and the reference is the one that names it. */
  lemma ResolvesExactly(given: seq<Policy>, policies: map<string, Policy>, reference: Reference, at: Stamp, p: Policy)
    requires IsRegistryOf(policies, given)
    ensures ResolveIn(policies, reference, at) == Resolved(p) <==>
      && LastRegistered(given, p.body.policyId) == Some(p)
      && reference == ReferenceTo(p)
      && IntegrityHolds(p) && IsWellFormedPolicy(p.body) && InForce(p.body, at)
  {
    if reference.policyId in policies {
      LastRegisteredHasId(given, reference.policyId);
    }
  }

  /** A resolved reference pins down the policy: any two registries that resolve it give the same one, and
      that policy is intact, well formed, active and in force. */
  lemma ReferencePinsPolicy(one: map<string, Policy>, two: map<string, Policy>, reference: Reference, at: Stamp,
                            later: Stamp)
    requires ResolveIn(one, reference, at).Resolved? && ResolveIn(two, reference, later).Resolved?
    ensures ResolveIn(one, reference, at) == ResolveIn(two, reference, later)
    ensures var p := ResolveIn(one, reference, at).policy;
            && reference.digest == Sha256(p.body) && IsWellFormedPolicy(p.body) && p.body.status == ActivePolicy
            && at.Parse().Some? && p.body.effectiveAt.Parse().value <= at.Parse().value
            && (p.body.expiresAt.Some? ==> at.Parse().value < p.body.expiresAt.value.Parse().value)
  {
  }
}
