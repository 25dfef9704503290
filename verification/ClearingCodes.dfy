/**
 The vocabulary of the clearing engines: decisions with their priority, reason codes, and the texts both are
 written as.  The engines are stated over any list of texts that is in alphabetical order and made of plain
 tokens; the list the engines use is shown to be one.
 */
module ClearingCodes {
  import opened OrderedText
  import opened Tokens

  datatype Decision =
    | AcceptWithLimits
    | RequireMoreEvidence
    | RequireHumanApproval
    | RequireIdentityVerification
    | ClarifyPaymentIntent
    | CapSpendLimit
    | RefuseTransaction
    | KeepBlocked
    | CreateReceiptOnly
    | DraftOnlyNotExecuted

  datatype Reason =
    | MissingHumanApproval
    | MissingEvidence
    | WeakOrMissingIdentity
    | PaymentIntentUnclear
    | RefusalgraphHighCaution
    | RefusalgraphCriticalCaution
    | HighRiskAction
    | MoneyMovementRequested
    | PaymentRequested
    | BillingRequested
    | SettlementRequested
    | AutomaticPurchaseRequested
    | DeploymentRequested
    | PublishingRequested
    | CustomerFacingAction
    | SignupRequested
    | PrivateDataAccessRequested
    | ExternalConnectionRequested
    | LowRiskReceiptOnly
    | UnknownOrUnclearIntent
    | DraftOnlyReason

  function DecisionPriority(d: Decision): nat {
    match d
    case AcceptWithLimits => 7
    case RequireMoreEvidence => 4
    case RequireHumanApproval => 2
    case RequireIdentityVerification => 3
    case ClarifyPaymentIntent => 5
    case CapSpendLimit => 6
    case RefuseTransaction => 0
    case KeepBlocked => 1
    case CreateReceiptOnly => 8
    case DraftOnlyNotExecuted => 9
  }

  /** Where a reason's text stands in the vocabulary. */
  function ReasonPlace(r: Reason): nat {
    match r
    case AutomaticPurchaseRequested => 1
    case BillingRequested => 2
    case CustomerFacingAction => 6
    case DeploymentRequested => 7
    case DraftOnlyReason => 8
    case ExternalConnectionRequested => 9
    case HighRiskAction => 10
    case LowRiskReceiptOnly => 12
    case MissingEvidence => 13
    case MissingHumanApproval => 14
    case MoneyMovementRequested => 15
    case PaymentIntentUnclear => 16
    case PaymentRequested => 17
    case PrivateDataAccessRequested => 18
    case PublishingRequested => 19
    case RefusalgraphCriticalCaution => 20
    case RefusalgraphHighCaution => 21
    case SettlementRequested => 26
    case SignupRequested => 27
    case UnknownOrUnclearIntent => 28
    case WeakOrMissingIdentity => 29
  }

  /** Where a decision's text stands in the vocabulary.  One text is both a reason and a decision. */
  function DecisionPlace(d: Decision): nat {
    match d
    case AcceptWithLimits => 0
    case CapSpendLimit => 3
    case ClarifyPaymentIntent => 4
    case CreateReceiptOnly => 5
    case DraftOnlyNotExecuted => 8
    case KeepBlocked => 11
    case RefuseTransaction => 22
    case RequireHumanApproval => 23
    case RequireIdentityVerification => 24
    case RequireMoreEvidence => 25
  }

  const SIZE := 30

  /** Plain tokens in strictly alphabetical order. */
  predicate IsVocabulary(v: seq<string>) {
    && |v| == SIZE
    && AllPlain(v)
    && Climbs(v)
  }

  predicate AllPlain(v: seq<string>) {
    forall i :: 0 <= i < |v| ==> IsPlainToken(v[i])
  }

  predicate Climbs(v: seq<string>) {
    forall i :: 0 < i < |v| ==> LexLess(v[i - 1], v[i])
  }

  function ReasonText(v: seq<string>, r: Reason): string
    requires |v| == SIZE
  {
    v[ReasonPlace(r)]
  }

  function DecisionText(v: seq<string>, d: Decision): string
    requires |v| == SIZE
  {
    v[DecisionPlace(d)]
  }

  lemma {:induction false} ClimbsFar(v: seq<string>, j: nat, k: nat)
    requires Climbs(v) && j < k < |v|
    ensures LexLess(v[j], v[k])
  {
    assert LexLess(v[k - 1], v[k]);
    if j < k - 1 {
      ClimbsFar(v, j, k - 1);
      LexTransitive(v[j], v[k - 1], v[k]);
    }
  }

  /** Texts are in the order of their places, so different places hold different texts. */
  lemma PlacesOrder(v: seq<string>, j: nat, k: nat)
    requires IsVocabulary(v) && j < SIZE && k < SIZE
    ensures LexLess(v[j], v[k]) <==> j < k
    ensures v[j] == v[k] <==> j == k
  {
    LexIrreflexive(v[j]);
    if j < k {
      ClimbsFar(v, j, k);
      if LexLess(v[k], v[j]) {
        LexTransitive(v[j], v[k], v[j]);
      }
    } else if k < j {
      ClimbsFar(v, k, j);
      if LexLess(v[j], v[k]) {
        LexTransitive(v[j], v[k], v[j]);
      }
    }
  }

  lemma ReasonPlacesDiffer(q: Reason, r: Reason)
    ensures ReasonPlace(q) == ReasonPlace(r) <==> q == r
  {
  }

  lemma DecisionPlacesDiffer(c: Decision, d: Decision)
    ensures DecisionPlace(c) == DecisionPlace(d) <==> c == d
  {
  }

  lemma PrioritiesDiffer(c: Decision, d: Decision)
    ensures DecisionPriority(c) == DecisionPriority(d) <==> c == d
  {
  }
}
