/**
 The verification of one action descriptor: the base rules give a risk level and the reasons that ask for human
 approval, a policy profile is applied to them, and a receipt is written.
 */
module VerifyBeforeAction {
  import opened Primitives

  datatype ApprovalStatus = NotRequested | Requested | Approved | Rejected

  /** A descriptor whose fields have their declared types; optional ones may be absent. */
  datatype Descriptor = Descriptor(
    actionType: string, description: string, actor: string, target: string, cost: Option<real>,
    publicAction: Option<bool>, externalCommitment: Option<bool>, moneyMovement: Option<bool>,
    legalSensitive: Option<bool>, customerFacing: Option<bool>, rollbackPlan: Option<string>,
    status: Option<ApprovalStatus>)

  datatype Risk = LowRisk | MediumRisk | HighRisk | BlockedRisk

  datatype Profile = Standard | Strict | Regulated

  datatype ApprovalReason =
    | IsPublic | IsCommitment | IsLegal | IsCustomerFacing | HasCost | MovesMoney | LacksRollbackPlan | WasRejected
    | ProfileAsks(profile: Profile)

  datatype CheckName =
    | PublicCheck | CommitmentCheck | LegalCheck | CustomerCheck | CostCheck | MoneyCheck | RollbackCheck
    | ApprovalCheck | ThresholdCheck | ProfileCheck

  datatype Severity = LowSeverity | MediumSeverity | HighSeverity

  datatype Check = Check(name: CheckName, passed: bool, severity: Severity)

  datatype Evaluation = Evaluation(
    risk: Risk, approvalRequired: bool, reasons: seq<ApprovalReason>, checks: seq<Check>)

  datatype Receipt = Receipt(
    receiptId: string, timestamp: string, actionType: string, actor: string, target: string, description: string,
    allowed: bool, approvalRequired: bool, reasons: seq<ApprovalReason>, risk: Risk, profile: Profile,
    checks: seq<Check>)

  // ----- the base rules -------------------------------------------------------------------------

  /** What the validation asks beyond the types. */
  predicate IsValid(d: Descriptor) {
    && NonBlank(d.actionType) && NonBlank(d.description) && NonBlank(d.actor) && NonBlank(d.target)
    && (d.cost.Some? ==> d.cost.value >= 0.0)
  }

  function CostOf(d: Descriptor): real {
    if d.cost.Some? then d.cost.value else 0.0
  }

  function StatusOf(d: Descriptor): ApprovalStatus {
    if d.status.Some? then d.status.value else NotRequested
  }

  predicate HasPlan(d: Descriptor) {
    d.rollbackPlan.Some? && NonBlank(d.rollbackPlan.value)
  }

  /** One of the traits that ask for approval by themselves. */
  predicate IsSensitive(d: Descriptor) {
    || d.publicAction == Some(true) || d.externalCommitment == Some(true) || d.legalSensitive == Some(true)
    || d.customerFacing == Some(true) || CostOf(d) > 0.0 || d.moneyMovement == Some(true)
  }

  /** What the verification blocks outright. */
  predicate IsBlockedAction(d: Descriptor) {
    StatusOf(d) == Rejected || (d.moneyMovement == Some(true) && StatusOf(d) != Approved)
  }

  /** The checks made and the reasons given so far. */
  datatype Progress = Progress(checks: seq<Check>, reasons: seq<ApprovalReason>)

  function Checked(p: Progress, check: Check): Progress {
    p.(checks := p.checks + [check])
  }

  function ReasonedIf(p: Progress, condition: bool, reason: ApprovalReason): Progress {
    if condition then p.(reasons := p.reasons + [reason]) else p
  }

  /** One trait that asks for approval. */
  function Trait(p: Progress, present: bool, name: CheckName, reason: ApprovalReason): Progress {
    ReasonedIf(Checked(p, Check(name, !present, HighSeverity)), present, reason)
  }

  function PublicTraits(d: Descriptor): Progress {
    var p := Trait(Progress([], []), d.publicAction == Some(true), PublicCheck, IsPublic);
    Trait(p, d.externalCommitment == Some(true), CommitmentCheck, IsCommitment)
  }

  function SensitiveTraits(d: Descriptor): Progress {
    var p := Trait(PublicTraits(d), d.legalSensitive == Some(true), LegalCheck, IsLegal);
    var q := Trait(p, d.customerFacing == Some(true), CustomerCheck, IsCustomerFacing);
    var r := Trait(q, CostOf(d) > 0.0, CostCheck, HasCost);
    Trait(r, d.moneyMovement == Some(true), MoneyCheck, MovesMoney)
  }

  function PlanChecked(d: Descriptor): Progress {
    var noted := !HasPlan(d) && (IsSensitive(d) || CostOf(d) != 0.0);
    var p := Checked(
      SensitiveTraits(d), Check(RollbackCheck, HasPlan(d), if noted then MediumSeverity else LowSeverity));
    ReasonedIf(p, !HasPlan(d), LacksRollbackPlan)
  }

  function AllChecked(d: Descriptor): Progress {
    var required := IsSensitive(d) || !HasPlan(d);
    Checked(
      PlanChecked(d),
      Check(ApprovalCheck, StatusOf(d) == Approved || !required, if required then HighSeverity else LowSeverity))
  }

  /** The level of an action. */
  function RiskOf(d: Descriptor): Risk {
    if IsBlockedAction(d) then BlockedRisk
    else if IsSensitive(d) then HighRisk
    else if !HasPlan(d) then MediumRisk
    else LowRisk
  }

  /** What the base rules find. */
  function Assessment(d: Descriptor): Evaluation {
    var p := ReasonedIf(AllChecked(d), StatusOf(d) == Rejected, WasRejected);
    Evaluation(RiskOf(d), RiskOf(d) != LowRisk, p.reasons, p.checks)
  }

  method AddApprovalCheck(
    checks: seq<Check>, reasons: seq<ApprovalReason>, condition: bool, name: CheckName, reason: ApprovalReason)
    returns (nextChecks: seq<Check>, nextReasons: seq<ApprovalReason>)
    ensures Progress(nextChecks, nextReasons) == Trait(Progress(checks, reasons), condition, name, reason)
  {
    nextChecks := checks + [Check(name, !condition, HighSeverity)];
    nextReasons := reasons;
    if condition {
      nextReasons := nextReasons + [reason];
    }
  }

  predicate IsLowRiskCandidate(d: Descriptor) {
    && CostOf(d) == 0.0 && d.publicAction != Some(true) && d.externalCommitment != Some(true)
    && d.moneyMovement != Some(true) && d.legalSensitive != Some(true) && d.customerFacing != Some(true)
  }

  method AddTraits(d: Descriptor) returns (checks: seq<Check>, reasons: seq<ApprovalReason>)
    ensures Progress(checks, reasons) == SensitiveTraits(d)
  {
    checks, reasons := [], [];
    checks, reasons := AddApprovalCheck(checks, reasons, d.publicAction == Some(true), PublicCheck, IsPublic);
    checks, reasons := AddApprovalCheck(
      checks, reasons, d.externalCommitment == Some(true), CommitmentCheck, IsCommitment);
    checks, reasons := AddApprovalCheck(checks, reasons, d.legalSensitive == Some(true), LegalCheck, IsLegal);
    checks, reasons := AddApprovalCheck(
      checks, reasons, d.customerFacing == Some(true), CustomerCheck, IsCustomerFacing);
    checks, reasons := AddApprovalCheck(checks, reasons, CostOf(d) > 0.0, CostCheck, HasCost);
    var moneyMovement := d.moneyMovement == Some(true);
    checks := checks + [Check(MoneyCheck, !moneyMovement, HighSeverity)];
    if moneyMovement {
      reasons := reasons + [MovesMoney];
    }
  }

  method AddPlanAndApproval(d: Descriptor, checks: seq<Check>, reasons: seq<ApprovalReason>)
    returns (nextChecks: seq<Check>, nextReasons: seq<ApprovalReason>)
    requires Progress(checks, reasons) == SensitiveTraits(d)
    ensures Progress(nextChecks, nextReasons) == AllChecked(d)
    ensures |nextReasons| > 0 <==> IsSensitive(d) || !HasPlan(d)
  {
    var missingRollbackNeedsApproval := !HasPlan(d) && (|reasons| > 0 || !IsLowRiskCandidate(d));
    nextReasons := reasons;
    nextChecks := checks + [
      Check(RollbackCheck, HasPlan(d), if missingRollbackNeedsApproval then MediumSeverity else LowSeverity)];
    if !HasPlan(d) {
      nextReasons := nextReasons + [LacksRollbackPlan];
    }
    var required := |nextReasons| > 0;
    nextChecks := nextChecks + [
      Check(ApprovalCheck, StatusOf(d) == Approved || !required, if required then HighSeverity else LowSeverity)];
  }

  /** The base rules, step by step. */
  method EvaluateRisk(d: Descriptor) returns (e: Evaluation)
    ensures e == Assessment(d)
  {
    var checks, reasons := AddTraits(d);
    var hasInitialHighRisk := |reasons| > 0;
    checks, reasons := AddPlanAndApproval(d, checks, reasons);
    var status := StatusOf(d);
    if status == Rejected {
      return Evaluation(
        BlockedRisk, true, if |reasons| > 0 then reasons + [WasRejected] else [WasRejected], checks);
    }
    if d.moneyMovement == Some(true) && status != Approved {
      return Evaluation(BlockedRisk, true, reasons, checks);
    }
    if |reasons| > 0 {
      return Evaluation(if hasInitialHighRisk then HighRisk else MediumRisk, true, reasons, checks);
    }
    e := Evaluation(LowRisk, false, [], checks);
  }

  /** For a validated descriptor the second test on a missing plan adds nothing: the candidates for low risk are exactly
      the actions that are not sensitive. */
  lemma CandidatesAreNotSensitive(d: Descriptor)
    requires IsValid(d)
    ensures IsLowRiskCandidate(d) <==> !IsSensitive(d)
  {
  }

  // ----- profiles and receipts ------------------------------------------------------------------

  /** The threshold of the stricter profiles. */
  function AtThreshold(e: Evaluation, profile: Profile): Evaluation {
    if profile == Standard || (e.risk != MediumRisk && e.risk != HighRisk) then e
    else
      e.(approvalRequired := true,
         reasons := if ProfileAsks(profile) in e.reasons then e.reasons else e.reasons + [ProfileAsks(profile)],
         checks := e.checks + [
           Check(ThresholdCheck, false, if e.risk == MediumRisk then MediumSeverity else HighSeverity)])
  }

  function ApplyPolicyProfile(e: Evaluation, profile: Profile): Evaluation {
    var next := AtThreshold(e, profile);
    next.(checks := next.checks + [
            Check(ProfileCheck, true, if profile == Standard then LowSeverity else MediumSeverity)])
  }

  function CreateReceipt(d: Descriptor, e: Evaluation, profile: Profile, id: string, time: string): Receipt {
    var approvalGranted := d.status == Some(Approved);
    Receipt(
      id, time, d.actionType, d.actor, d.target, d.description,
      e.risk != BlockedRisk && (!e.approvalRequired || approvalGranted), e.approvalRequired, e.reasons, e.risk, profile,
      e.checks)
  }

  /** The receipt a valid descriptor has to get. */
  function ReceiptOf(d: Descriptor, profile: Profile, id: string, time: string): Receipt {
    CreateReceipt(d, ApplyPolicyProfile(Assessment(d), profile), profile, id, time)
  }

  /** The named profile; none given is the standard one, and any other name throws. */
  function ResolvePolicyProfile(name: Option<string>): Option<Profile> {
    match name
    case None => Some(Standard)
    case Some(text) =>
      if text == "standard" then Some(Standard)
      else if text == "strict" then Some(Strict)
      else if text == "regulated" then Some(Regulated)
      else None
  }

  /** `None` is an exception: of the validation, or for an unknown profile. */
  function Verification(d: Descriptor, name: Option<string>, id: string, time: string): Option<Receipt> {
    var profile := ResolvePolicyProfile(name);
    if IsValid(d) && profile.Some? then Some(ReceiptOf(d, profile.value, id, time)) else None
  }

  method VerifyAction(d: Descriptor, name: Option<string>, id: string, time: string) returns (r: Option<Receipt>)
    ensures r == Verification(d, name, id, time)
  {
    if !IsValid(d) {
      return None;
    }
    var evaluation := EvaluateRisk(d);
    var profile := ResolvePolicyProfile(name);
    if profile.None? {
      return None;
    }
    r := Some(CreateReceipt(d, ApplyPolicyProfile(evaluation, profile.value), profile.value, id, time));
  }

  // ----- what a receipt says --------------------------------------------------------------------

  /** An action is allowed exactly when it is approved, or needs no approval and was not rejected. */
  lemma AllowedExactly(d: Descriptor, profile: Profile, id: string, time: string)
    ensures ReceiptOf(d, profile, id, time).allowed <==>
      StatusOf(d) == Approved || (StatusOf(d) != Rejected && !IsSensitive(d) && HasPlan(d))
  {
  }

  /** The profile never changes a decision: what the stricter ones ask for, the base rules ask for already. */
  lemma ProfileDecidesNothing(d: Descriptor, one: Profile, two: Profile, id: string, time: string)
    ensures var r, s := ReceiptOf(d, one, id, time), ReceiptOf(d, two, id, time);
      r.allowed == s.allowed && r.risk == s.risk && r.approvalRequired == s.approvalRequired
  {
  }

  /** Reasons are given exactly when approval is required, which is for every level but the low one. */
  lemma ReasonsExactlyWhenRequired(d: Descriptor, profile: Profile, id: string, time: string)
    ensures var r := ReceiptOf(d, profile, id, time);
      (r.reasons != [] <==> r.approvalRequired) && (r.approvalRequired <==> r.risk != LowRisk)
  {
  }

  /** The level blocked is given exactly to rejected actions and to money movements without approval. */
  lemma BlockedExactly(d: Descriptor, profile: Profile, id: string, time: string)
    ensures ReceiptOf(d, profile, id, time).risk == BlockedRisk <==> IsBlockedAction(d)
  {
  }

  /** `e` is at most as open as `d`: it is sensitive if `d` is, has a plan only if `d` has one, and is not further on
      the way to approval. */
  predicate NoMoreOpen(d: Descriptor, e: Descriptor) {
    && (IsSensitive(d) ==> IsSensitive(e)) && (HasPlan(e) ==> HasPlan(d))
    && (StatusOf(e) == Approved ==> StatusOf(d) == Approved) && (StatusOf(d) == Rejected ==> StatusOf(e) == Rejected)
  }

  /** Adding traits, or withdrawing the plan or the approval, never allows an action. */
  lemma DoubtNeverAllows(d: Descriptor, e: Descriptor, one: Profile, two: Profile, id: string, time: string)
    requires NoMoreOpen(d, e) && ReceiptOf(e, two, id, time).allowed
    ensures ReceiptOf(d, one, id, time).allowed
  {
    AllowedExactly(d, one, id, time);
    AllowedExactly(e, two, id, time);
  }
}
