/**
 The policy and the evidence the program ships with, as values: they show that the conditions of the business policy
 results can be met, and that the gap between the automatic maximum and the review band is real.
 */
module DefaultPolicy {
  import opened Primitives
  import opened OrderedText
  import opened BusinessPolicy

  // Times in milliseconds.
  const EFFECTIVE := Iso(1788220800000)
  const EXPIRES := Iso(1819756800000)
  const MINIMUM_TRUSTED_TIME := Iso(1788339540000)
  const REFERENCE_TIME := 1788339600000

  /** The rules with the given ids, evidence types, maximum ages and outcomes of a lapse, place by place. */
  function FreshnessRulesOf(ids: seq<string>, types: seq<string>, ages: seq<real>, lapses: seq<Outcome>)
    : (r: seq<FreshnessRule>)
    requires |ids| == |types| == |ages| == |lapses|
    ensures |r| == |ids|
    ensures forall k :: 0 <= k < |ids| ==>
      r[k] == FreshnessRule(ids[k], types[k], ages[k], lapses[k], lapses[k], Reject, Reject)
  {
    seq(|ids|, k requires 0 <= k < |ids| =>
      FreshnessRule(ids[k], types[k], ages[k], lapses[k], lapses[k], Reject, Reject))
  }

  function RiskRulesOf(ids: seq<string>, conditions: seq<Condition>): (r: seq<RiskRule>)
    requires |ids| == |conditions| && forall k :: 0 <= k < |conditions| ==> conditions[k] in KNOWN_CONDITIONS
    ensures |r| == |ids|
    ensures forall k :: 0 <= k < |ids| ==>
      r[k] == RiskRule(ids[k], conditions[k], KnownTier(conditions[k]), KnownOutcome(conditions[k]))
  {
    seq(|ids|, k requires 0 <= k < |ids| =>
      RiskRule(ids[k], conditions[k], KnownTier(conditions[k]), KnownOutcome(conditions[k])))
  }

  const POLICY_ID := "policy.synthetic-buyer.procurement.v1"
  const VERSION := "1.0.0"
  const ORGANISATION := "ORG-NORTHSTAR-RETAIL-SYNTHETIC"
  const FIXTURE := "fixture://northstar"
  const OWNER := FIXTURE + "/policy-owner/procurement-director"
  const BAND_ID := "AMOUNT-REVIEW-001"
  const REQUIRED: seq<string> := [
    "human_authority", "human_approval", "agent_standing", "mandate", "procurement_evidence"]
  const FRESHNESS_IDS: seq<string> := [
    "FRESH-HUMAN-AUTHORITY-001", "FRESH-HUMAN-APPROVAL-001", "FRESH-AGENT-STANDING-001", "FRESH-MANDATE-001",
    "FRESH-PROCUREMENT-EVIDENCE-001"]
  const AGES: seq<real> := [3600.0, 3600.0, 600.0, 3600.0, 300.0]
  const LAPSES: seq<Outcome> := [Reject, Refer, Reject, Reject, Refer]
  const RISK_IDS: seq<string> := ["RISK-PROHIBITED-001", "RISK-HIGH-001", "RISK-ELEVATED-001", "RISK-ROUTINE-001"]
  const CONDITIONS: seq<Condition> := [ProhibitedOrOutOfScope, HumanReviewAmountBand, CustomerImpact, DefaultRoutine]

  const FRESHNESS_RULES := FreshnessRulesOf(FRESHNESS_IDS, REQUIRED, AGES, LAPSES)
  const RISK_RULES := RiskRulesOf(RISK_IDS, CONDITIONS)

  const BODY := Body(
    SCHEMA, POLICY_ID, VERSION, ORGANISATION, OWNER, EFFECTIVE, Some(EXPIRES),
    ["purchase"], ["atg.evaluate_action"], ["evaluate_exact_action"], ["SUP-HARBOUR-001"], ["supplier_a"],
    ["approved_supplier"], ["approved_warehouse"], ["approved_supplier_account"],
    ["local_synthetic_procurement_simulation"], "GBP", 500000.0, 1000000.0, 100.0,
    Band(BAND_ID, 500001.0, 1000000.0, Refer),
    ["customer_communication", "payment", "settlement", "supplier_account_change", "authority_expansion",
     "policy_administration"],
    false, 0.0, 0.0, 0.0, REQUIRED,
    FRESHNESS_RULES, true, false, 500000.0, RISK_RULES, ActivePolicy, None,
    MINIMUM_TRUSTED_TIME, true, true, false)

  const DEFAULT := Policy(BODY, Sha256(BODY))

  /** Valid observations made at the reference time, one for each evidence type. */
  function ObservationsOf(types: seq<string>, references: seq<string>, issued: seq<int>, expires: seq<int>)
    : (r: seq<Observation>)
    requires |types| == |references| == |issued| == |expires|
    ensures |r| == |types|
    ensures forall k :: 0 <= k < |types| ==>
      r[k] == Observation(
        types[k], references[k], ValidEvidence, Some(Iso(issued[k])), Some(Iso(REFERENCE_TIME)), Some(Iso(expires[k])))
  {
    seq(|types|, k requires 0 <= k < |types| =>
      Observation(
        types[k], references[k], ValidEvidence, Some(Iso(issued[k])), Some(Iso(REFERENCE_TIME)), Some(Iso(expires[k]))))
  }

  const REFERENCES: seq<string> := [
    FIXTURE + "/human-authority/EMP-NORTHSTAR-0042", FIXTURE + "/human-approval/EMP-NORTHSTAR-0042",
    FIXTURE + "/agent-standing/procurement-agent-04", FIXTURE + "/mandate/procurement-purchase-v1",
    FIXTURE + "/procurement-evidence/001"]
  const ISSUED: seq<int> := [1788339300000, 1788339300000, 1788339480000, 1788339300000, 1788339480000]
  const EVIDENCE_EXPIRES: seq<int> := [1788368400000, 1788368400000, 1788341400000, 1788368400000, 1788340380000]

  const FRESH_EVIDENCE := ObservationsOf(REQUIRED, REFERENCES, ISSUED, EVIDENCE_EXPIRES)

  /** A purchase within every scope of the policy. */
  const PURCHASE := Action("purchase", "SUP-HARBOUR-001", "GBP", Num(10.0))
  const CONTEXT := Context(
    "approved_warehouse", "approved_supplier_account", "supplier_a", "approved_supplier",
    "local_synthetic_procurement_simulation", NoImpact, false, Num(0.0), Num(0.0), Num(0.0), None,
    false, false)

  // ----- well-formedness ------------------------------------------------------------------------

  predicate TextsPresent(ids: seq<string>) {
    NoRepeats(ids) && forall k :: 0 <= k < |ids| ==> NonBlank(ids[k])
  }

  lemma RiskCounts(ids: seq<string>, conditions: seq<Condition>)
    requires |ids| == |conditions| && NoRepeats(ids) && NoRepeats(conditions)
    requires forall k :: 0 <= k < |conditions| ==> conditions[k] in KNOWN_CONDITIONS
    ensures |set r | r in RiskRulesOf(ids, conditions) :: r.condition| == |conditions|
    ensures |set r | r in RiskRulesOf(ids, conditions) :: r.ruleId| == |ids|
  {
    var rules := RiskRulesOf(ids, conditions);
    assert (set r | r in rules :: r.condition) == Elements(conditions) by {
      forall k | 0 <= k < |ids| ensures conditions[k] in (set r | r in rules :: r.condition) {
        assert rules[k] in rules;
      }
    }
    assert (set r | r in rules :: r.ruleId) == Elements(ids) by {
      forall k | 0 <= k < |ids| ensures ids[k] in (set r | r in rules :: r.ruleId) {
        assert rules[k] in rules;
      }
    }
    DistinctCount(ids);
    DistinctCount(conditions);
  }

  lemma RiskRulesAreValid(ids: seq<string>, conditions: seq<Condition>)
    requires |ids| == |conditions| == 4 && TextsPresent(ids) && NoRepeats(conditions)
    requires forall k :: 0 <= k < |conditions| ==> conditions[k] in KNOWN_CONDITIONS
    ensures RiskRulesValid(RiskRulesOf(ids, conditions))
  {
    RiskCounts(ids, conditions);
  }

  lemma FreshnessCounts(ids: seq<string>, types: seq<string>, rules: seq<FreshnessRule>)
    requires |ids| == |types| == |rules| && NoRepeats(ids) && NoRepeats(types)
    requires forall k :: 0 <= k < |rules| ==> rules[k].ruleId == ids[k] && rules[k].evidenceType == types[k]
    ensures |EvidenceTypes(rules)| == |rules| == |Elements(types)|
    ensures |set r | r in rules :: r.ruleId| == |rules|
  {
    assert EvidenceTypes(rules) == Elements(types) by {
      forall k | 0 <= k < |types| ensures types[k] in EvidenceTypes(rules) {
        assert rules[k] in rules;
      }
    }
    assert (set r | r in rules :: r.ruleId) == Elements(ids) by {
      forall k | 0 <= k < |ids| ensures ids[k] in (set r | r in rules :: r.ruleId) {
        assert rules[k] in rules;
      }
    }
    DistinctCount(ids);
    DistinctCount(types);
  }

  lemma FreshnessRulesAreValid(ids: seq<string>, types: seq<string>, ages: seq<real>, lapses: seq<Outcome>)
    requires |ids| == |types| == |ages| == |lapses| && TextsPresent(ids) && NoRepeats(types)
    requires forall k :: 0 <= k < |ages| ==> IsSafeInteger(ages[k]) && ages[k] >= 0.0
    ensures FreshnessRulesValid(FreshnessRulesOf(ids, types, ages, lapses), types)
    ensures (forall k :: 0 <= k < |lapses| ==> lapses[k] != Accept) ==>
      NoLapseAccepted(FreshnessRulesOf(ids, types, ages, lapses))
  {
    FreshnessCounts(ids, types, FreshnessRulesOf(ids, types, ages, lapses));
  }

  lemma {:induction false} DistinctCount<T>(s: seq<T>)
    requires NoRepeats(s)
    ensures |Elements(s)| == |s|
  {
    if s != [] {
      var front, last := s[..|s| - 1], s[|s| - 1];
      DistinctCount(front);
      assert Elements(s) == Elements(front) + {last};
    }
  }

  lemma RiskTexts()
    ensures TextsPresent(RISK_IDS)
  {
    forall k | 0 <= k < |RISK_IDS| ensures NonBlank(RISK_IDS[k]) {
      StartsNonBlank(RISK_IDS[k]);
    }
  }

  lemma FreshnessTexts()
    ensures TextsPresent(FRESHNESS_IDS)
  {
    assert FRESHNESS_IDS[1][6] != FRESHNESS_IDS[2][6];
    forall k | 0 <= k < |FRESHNESS_IDS| ensures NonBlank(FRESHNESS_IDS[k]) {
      StartsNonBlank(FRESHNESS_IDS[k]);
    }
  }

  lemma OwnerIsText()
    ensures NonBlank(OWNER)
  {
    assert FIXTURE[0] == 'f';
    assert OWNER[0] == 'f';
  }

  lemma BodyTexts()
    ensures NonBlank(POLICY_ID) && NonBlank(VERSION) && NonBlank(ORGANISATION) && NonBlank(OWNER) && NonBlank(BAND_ID)
  {
    OwnerIsText();
    StartsNonBlank(POLICY_ID);
    StartsNonBlank(VERSION);
    StartsNonBlank(ORGANISATION);
    StartsNonBlank(BAND_ID);
  }

  lemma DefaultLapses()
    ensures forall k :: 0 <= k < |AGES| ==> IsSafeInteger(AGES[k]) && AGES[k] >= 0.0
    ensures forall k :: 0 <= k < |LAPSES| ==> LAPSES[k] != Accept
  {
  }

  lemma DefaultRules()
    ensures RiskRulesValid(RISK_RULES)
    ensures FreshnessRulesValid(FRESHNESS_RULES, REQUIRED) && NoLapseAccepted(FRESHNESS_RULES)
  {
    RiskTexts();
    FreshnessTexts();
    RiskRulesAreValid(RISK_IDS, CONDITIONS);
    DefaultLapses();
    FreshnessRulesAreValid(FRESHNESS_IDS, REQUIRED, AGES, LAPSES);
  }

  /** The shipped policy is well formed, with rules as typed. */
  lemma DefaultIsWellFormed()
    ensures IsWellFormedPolicy(BODY) && NoLapseAccepted(BODY.freshnessRules)
  {
    DefaultRules();
    BodyTexts();
  }

  /** ... so that the reference to it resolves, from its effective time up to its expiry. */
  lemma DefaultResolves(at: Stamp)
    ensures ResolveIn(map[POLICY_ID := DEFAULT], ReferenceTo(DEFAULT), at) == Resolved(DEFAULT) <==>
      at.Parse().Some? && EFFECTIVE.ms <= at.Parse().value < EXPIRES.ms
  {
    DefaultIsWellFormed();
    assert LastRegistered([DEFAULT], POLICY_ID) == Some(DEFAULT);
    ResolvesExactly([DEFAULT], map[POLICY_ID := DEFAULT], ReferenceTo(DEFAULT), at, DEFAULT);
  }

  // ----- a purchase above the automatic maximum -------------------------------------------------

  lemma EvidenceIsFresh()
    ensures AllFresh(FRESHNESS_RULES, FRESH_EVIDENCE, REFERENCE_TIME)
  {
    forall k | 0 <= k < |FRESHNESS_RULES|
      ensures EvaluationOf(FRESHNESS_RULES, FRESH_EVIDENCE, REFERENCE_TIME, k).state == Fresh
    {
      FindsOwn(FRESH_EVIDENCE, k);
    }
  }

  lemma PurchaseInScope()
    ensures !OutOfScope(BODY, PURCHASE, CONTEXT) && CONTEXT.impact == NoImpact
  {
  }

  /** The shipped policy at the reference time, with the fresh evidence: accepted is exactly what nothing stops. */
  lemma FreshPurchaseAccepted(amount: Number, clockId: string)
    ensures var clock := TrustedClock(clockId, Some(REFERENCE_TIME));
      PolicyOutcome(BODY, PURCHASE, amount, CONTEXT, FRESH_EVIDENCE, clock) == Accept <==> Unstopped(BODY, amount)
  {
    DefaultIsWellFormed();
    PurchaseInScope();
    EvidenceIsFresh();
    NoLapseAcceptedMeansFresh(FRESHNESS_RULES, FRESH_EVIDENCE, REFERENCE_TIME);
    AcceptExactly(BODY, PURCHASE, amount, CONTEXT, FRESH_EVIDENCE, TrustedClock(clockId, Some(REFERENCE_TIME)));
  }

  /** The gap is not empty: with the shipped policy, its fresh evidence and a clock at the reference time, half a minor
      unit above the automatic maximum and an amount that is no number are accepted without review, while one whole unit
      above is not. */
  lemma HalfUnitAboveMaximumAccepted(clockId: string)
    ensures var clock := TrustedClock(clockId, Some(REFERENCE_TIME));
      && PolicyOutcome(BODY, PURCHASE, Num(BODY.automaticMaximum + 0.5), CONTEXT, FRESH_EVIDENCE, clock) == Accept
      && PolicyOutcome(BODY, PURCHASE, NaN, CONTEXT, FRESH_EVIDENCE, clock) == Accept
      && PolicyOutcome(BODY, PURCHASE, Num(BODY.automaticMaximum + 1.0), CONTEXT, FRESH_EVIDENCE, clock) != Accept
  {
    FreshPurchaseAccepted(Num(BODY.automaticMaximum + 0.5), clockId);
    FreshPurchaseAccepted(NaN, clockId);
    FreshPurchaseAccepted(Num(BODY.automaticMaximum + 1.0), clockId);
  }

  // ----- a policy that accepts lapses -----------------------------------------------------------

  const LENIENT_RULES := FreshnessRulesOf(FRESHNESS_IDS, REQUIRED, AGES, [Accept, Accept, Accept, Accept, Accept])
  const LENIENT := BODY.(freshnessRules := LENIENT_RULES)
  const LENIENT_POLICY := Policy(LENIENT, Sha256(LENIENT))

  lemma LenientRulesAreValid()
    ensures FreshnessRulesValid(LENIENT_RULES, REQUIRED)
  {
    FreshnessTexts();
    FreshnessRulesAreValid(FRESHNESS_IDS, REQUIRED, AGES, [Accept, Accept, Accept, Accept, Accept]);
  }

  /** The shipped policy with rules that accept missing and stale evidence is well formed as well. */
  lemma LenientIsWellFormed()
    ensures IsWellFormedPolicy(LENIENT)
  {
    DefaultIsWellFormed();
    LenientRulesAreValid();
  }

  /** ... and is resolved as verified. */
  lemma LenientResolves(at: Stamp)
    ensures ResolveIn(map[POLICY_ID := LENIENT_POLICY], ReferenceTo(LENIENT_POLICY), at) == Resolved(LENIENT_POLICY)
      <==> at.Parse().Some? && EFFECTIVE.ms <= at.Parse().value < EXPIRES.ms
  {
    LenientIsWellFormed();
    assert LastRegistered([LENIENT_POLICY], POLICY_ID) == Some(LENIENT_POLICY);
    ResolvesExactly(
      [LENIENT_POLICY], map[POLICY_ID := LENIENT_POLICY], ReferenceTo(LENIENT_POLICY), at, LENIENT_POLICY);
  }

  lemma NothingAccepted(now: int)
    ensures AllAccepted(LENIENT_RULES, [], now)
  {
    forall k | 0 <= k < |LENIENT_RULES| ensures EvaluationOf(LENIENT_RULES, [], now, k).outcome == Accept {
    }
  }

  /** It accepts a purchase without any evidence, at every reading from the minimum trusted time on. */
  lemma LenientAcceptsWithoutEvidence(clockId: string, now: int)
    requires now >= MINIMUM_TRUSTED_TIME.ms
    ensures PolicyOutcome(LENIENT, PURCHASE, Num(1.0), CONTEXT, [], TrustedClock(clockId, Some(now))) == Accept
  {
    LenientIsWellFormed();
    PurchaseInScope();
    NothingAccepted(now);
    AcceptExactly(LENIENT, PURCHASE, Num(1.0), CONTEXT, [], TrustedClock(clockId, Some(now)));
  }
}
