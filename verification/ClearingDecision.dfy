/**
 The clearing decision engine.  A request is first read: every status text becomes the value its token stands
 for.  From the reading the engine derives reason codes, selects a decision and lists the required next steps.
 */
module ClearingDecision {
  import opened Primitives
  import opened OrderedText
  import opened ClearingCodes

  datatype Category =
    | FinancialAction | Payment | Billing | Settlement | AutomaticPurchase | Deployment | Publishing
    | CustomerCommunication | Signup | DataAccess | PrivateDataAccess | ExternalConnection
    | InternalAction | OtherCategory

  datatype ActionType =
    | InitiatePayment | PayForTask | BuyService | EnableBilling | SettleTransaction | PurchaseAutomatically
    | DeployCode | PublishContent | EmailCustomer | EnableSignup | AccessData | AccessPrivateData
    | ConnectExternalSystem | InternalReview | OtherAction

  datatype Level = LowLevel | MediumLevel | HighLevel | BlockedLevel | OtherLevel

  datatype Approval = Approved | NotRequired | NotApproved

  datatype Caution = NoCaution | LowCaution | MediumCaution | HighCaution | CriticalCaution

  datatype RefusalCode =
    | NoApprovalRefusal | NoEvidenceRefusal | WeakIdentityRefusal | UnclearIntentRefusal | HighRiskRefusal
    | MoneyRefusal | BillingRefusal | PurchaseRefusal | DeploymentRefusal | PublishingRefusal | CustomerRefusal
    | SignupRefusal | ExternalRefusal | UnknownRefusal | DataAccessRefusal | PrivateDataRefusal | PolicyRefusal

  /** A count as it arrives: the query may hand over any number. */
  datatype Count = NotFinite | Finite(value: real)

  /** The result of the RefusalGraph query. */
  datatype QueryResult = QueryResult(
    caution: Caution, count: Count, codes: seq<RefusalCode>, draftOnly: bool, privateData: bool,
    networkLookup: bool, externalLookup: bool, paymentOrFee: bool)

  /** What the tokens of a request say. */
  datatype Reading = Reading(
    category: Category, action: ActionType, risk: Level, impact: Level, approval: Approval,
    evidenceHeld: bool, identityVerified: bool, intentStated: bool, query: QueryResult)

  datatype ClearingDecision = ClearingDecision(
    decision: Decision, actionAllowed: bool, actionBlocked: bool, approvalRequired: bool,
    evidenceRequired: bool, identityRequired: bool, intentRequired: bool, spendLimit: bool,
    caution: Caution, count: nat, reasonCodes: seq<Reason>, nextSteps: seq<Decision>, createdAt: Stamp)

  // ----- the conditions -------------------------------------------------------------------------

  predicate IsProtected(c: Category) {
    !c.InternalAction? && !c.OtherCategory?
  }

  predicate IsMoneyCategory(c: Category) {
    c.FinancialAction? || c.Payment? || c.Billing? || c.Settlement? || c.AutomaticPurchase?
  }

  predicate IsMoneyType(a: ActionType) {
    a.InitiatePayment? || a.PayForTask? || a.BuyService? || a.EnableBilling? || a.SettleTransaction?
    || a.PurchaseAutomatically?
  }

  predicate IsMoneyAction(q: Reading) {
    IsMoneyCategory(q.category) || IsMoneyType(q.action)
  }

  predicate IsHighImpact(q: Reading) {
    q.risk.HighLevel? || q.risk.BlockedLevel? || q.impact.HighLevel?
  }

  predicate IsLowRisk(q: Reading) {
    q.risk.LowLevel? && q.impact.LowLevel? && (q.query.caution.NoCaution? || q.query.caution.LowCaution?)
  }

  predicate IsSafeQuery(r: QueryResult) {
    r.draftOnly && !r.privateData && !r.networkLookup && !r.externalLookup && !r.paymentOrFee
  }

  predicate AsksPayment(q: Reading) {
    q.category.Payment? || q.action.InitiatePayment? || q.action.PayForTask? || q.action.BuyService?
  }

  predicate AsksBilling(q: Reading) {
    q.category.Billing? || q.action.EnableBilling?
  }

  predicate AsksSettlement(q: Reading) {
    q.category.Settlement? || q.action.SettleTransaction?
  }

  predicate AsksPurchase(q: Reading) {
    q.category.AutomaticPurchase? || q.action.PurchaseAutomatically?
  }

  predicate AsksDeployment(q: Reading) {
    q.category.Deployment? || q.action.DeployCode?
  }

  predicate AsksPublishing(q: Reading) {
    q.category.Publishing? || q.action.PublishContent?
  }

  predicate AsksCustomerContact(q: Reading) {
    q.category.CustomerCommunication? || q.action.EmailCustomer?
  }

  predicate AsksSignup(q: Reading) {
    q.category.Signup? || q.action.EnableSignup?
  }

  predicate AsksData(q: Reading) {
    q.category.PrivateDataAccess? || q.action.AccessPrivateData? || q.category.DataAccess? || q.action.AccessData?
  }

  predicate AsksConnection(q: Reading) {
    q.category.ExternalConnection? || q.action.ConnectExternalSystem?
  }

  predicate IsUnclear(q: Reading) {
    !IsSafeQuery(q.query) || (q.category.OtherCategory? && q.action.OtherAction?)
  }

  predicate LacksIntent(q: Reading) {
    IsMoneyAction(q) && !q.intentStated
  }

  /** The reason code a refusal code of the query is carried over as. */
  function CarriedAs(code: RefusalCode): Reason {
    match code
    case NoApprovalRefusal => MissingHumanApproval
    case NoEvidenceRefusal => MissingEvidence
    case WeakIdentityRefusal => WeakOrMissingIdentity
    case UnclearIntentRefusal => PaymentIntentUnclear
    case HighRiskRefusal => HighRiskAction
    case MoneyRefusal => MoneyMovementRequested
    case BillingRefusal => BillingRequested
    case PurchaseRefusal => AutomaticPurchaseRequested
    case DeploymentRefusal => DeploymentRequested
    case PublishingRefusal => PublishingRequested
    case CustomerRefusal => CustomerFacingAction
    case SignupRefusal => SignupRequested
    case ExternalRefusal => ExternalConnectionRequested
    case UnknownRefusal => UnknownOrUnclearIntent
    case DataAccessRefusal => PrivateDataAccessRequested
    case PrivateDataRefusal => PrivateDataAccessRequested
    case PolicyRefusal => UnknownOrUnclearIntent
  }

  predicate Carries(codes: seq<RefusalCode>, r: Reason) {
    exists i :: 0 <= i < |codes| && CarriedAs(codes[i]) == r
  }

  /** The reading alone, without the query's refusal codes, gives reason `r`. */
  predicate States(q: Reading, r: Reason) {
    match r
    case MissingHumanApproval => q.approval.NotApproved?
    case MissingEvidence => !q.evidenceHeld
    case WeakOrMissingIdentity => !q.identityVerified
    case PaymentIntentUnclear => LacksIntent(q)
    case RefusalgraphHighCaution => q.query.caution.HighCaution?
    case RefusalgraphCriticalCaution => q.query.caution.CriticalCaution?
    case HighRiskAction => IsHighImpact(q)
    case MoneyMovementRequested => IsMoneyAction(q)
    case PaymentRequested => AsksPayment(q)
    case BillingRequested => AsksBilling(q)
    case SettlementRequested => AsksSettlement(q)
    case AutomaticPurchaseRequested => AsksPurchase(q)
    case DeploymentRequested => AsksDeployment(q)
    case PublishingRequested => AsksPublishing(q)
    case CustomerFacingAction => AsksCustomerContact(q)
    case SignupRequested => AsksSignup(q)
    case PrivateDataAccessRequested => AsksData(q)
    case ExternalConnectionRequested => AsksConnection(q)
    case LowRiskReceiptOnly => IsLowRisk(q)
    case UnknownOrUnclearIntent => IsUnclear(q)
    case DraftOnlyReason => true
  }

  predicate Gives(q: Reading, r: Reason) {
    States(q, r) || Carries(q.query.codes, r)
  }

  // ----- lists in a fixed order -----------------------------------------------------------------

  const BY_PLACE: Order<Reason> := (q, r) => ReasonPlace(q) < ReasonPlace(r)
  const BY_PRIORITY: Order<Decision> := (c, d) => DecisionPriority(c) < DecisionPriority(d)

  function ReasonSet(q: Reading): set<Reason> {
    set r: Reason | Gives(q, r)
  }

  lemma PlaceIsStrictOrder(d: set<Reason>)
    ensures StrictOrderOn(BY_PLACE, d)
  {
    forall x, y | x in d && y in d && x != y ensures BY_PLACE(x, y) || BY_PLACE(y, x) {
      ReasonPlacesDiffer(x, y);
    }
  }

  lemma PriorityIsStrictOrder(d: set<Decision>)
    ensures StrictOrderOn(BY_PRIORITY, d)
  {
    forall x, y | x in d && y in d && x != y ensures BY_PRIORITY(x, y) || BY_PRIORITY(y, x) {
      PrioritiesDiffer(x, y);
    }
  }

  ghost function ReasonCodes(q: Reading): seq<Reason> {
    PlaceIsStrictOrder(ReasonSet(q));
    InOrder(ReasonSet(q), BY_PLACE)
  }

  // ----- the decision ---------------------------------------------------------------------------

  function SelectDecision(q: Reading, codes: seq<Reason>): Decision {
    if !IsSafeQuery(q.query) then KeepBlocked
    else if q.query.caution.CriticalCaution? then RefuseTransaction
    else if q.query.caution.HighCaution? then RequireHumanApproval
    else if MissingHumanApproval in codes && (IsHighImpact(q) || IsProtected(q.category)) then RequireHumanApproval
    else if MissingEvidence in codes then RequireMoreEvidence
    else if WeakOrMissingIdentity in codes then RequireIdentityVerification
    else if PaymentIntentUnclear in codes then ClarifyPaymentIntent
    else if IsProtected(q.category) && !q.approval.Approved? then RequireHumanApproval
    else if IsHighImpact(q) then RequireHumanApproval
    else if
      && (q.risk.LowLevel? || q.risk.MediumLevel?)
      && (q.impact.LowLevel? || q.impact.MediumLevel?)
      && (q.approval.Approved? || (!IsProtected(q.category) && q.approval.NotRequired?))
      && (q.query.caution.NoCaution? || q.query.caution.LowCaution?)
    then AcceptWithLimits
    else KeepBlocked
  }

  predicate NeedsStep(decision: Decision, codes: seq<Reason>, step: Decision) {
    || (step == decision && decision != AcceptWithLimits)
    || (step == RequireHumanApproval && MissingHumanApproval in codes)
    || (step == RequireMoreEvidence && MissingEvidence in codes)
    || (step == RequireIdentityVerification && WeakOrMissingIdentity in codes)
    || (step == ClarifyPaymentIntent && PaymentIntentUnclear in codes)
    || step == CreateReceiptOnly
    || step == DraftOnlyNotExecuted
  }

  function StepSet(decision: Decision, codes: seq<Reason>): set<Decision> {
    set step: Decision | NeedsStep(decision, codes, step)
  }

  ghost function NextSteps(decision: Decision, codes: seq<Reason>): seq<Decision> {
    PriorityIsStrictOrder(StepSet(decision, codes));
    InOrder(StepSet(decision, codes), BY_PRIORITY)
  }

  const MOST_SIGNALS := 1_000_000

  function SafeCount(c: Count): nat {
    if c.NotFinite? || c.value <= 0.0 then 0
    else if c.value.Floor > MOST_SIGNALS then MOST_SIGNALS
    else c.value.Floor
  }

  /** A time is kept in its canonical form; what cannot be parsed becomes the text "unknown". */
  function SafeTimestamp(s: Stamp): Stamp {
    match s.Parse()
    case Some(ms) => Iso(ms)
    case None => Unreadable("unknown")
  }

  ghost function Decide(q: Reading, time: Stamp): ClearingDecision {
    var codes := ReasonCodes(q);
    Assemble(q, time, codes, SelectDecision(q, codes), NextSteps(SelectDecision(q, codes), codes))
  }

  function Assemble(q: Reading, time: Stamp, codes: seq<Reason>, d: Decision, steps: seq<Decision>): ClearingDecision {
    ClearingDecision(
      d, d.AcceptWithLimits?, !d.AcceptWithLimits?, d.RequireHumanApproval?,
      MissingEvidence in codes, WeakOrMissingIdentity in codes, PaymentIntentUnclear in codes,
      IsMoneyAction(q) && (q.risk.HighLevel? || q.impact.HighLevel?),
      q.query.caution, SafeCount(q.query.count), codes, steps, SafeTimestamp(time))
  }

  // ----- the engine, step by step ---------------------------------------------------------------

  function When<T(==)>(condition: bool, x: T): set<T> {
    if condition then {x} else {}
  }

  method AddRefusalCodes(codes: set<Reason>, refusals: seq<RefusalCode>) returns (r: set<Reason>)
    ensures r == codes + CarriedSet(refusals)
  {
    r := codes;
    for i := 0 to |refusals|
      invariant r == codes + CarriedSet(refusals[..i])
    {
      CarriedNext(refusals, i);
      r := r + {CarriedAs(refusals[i])};
    }
    assert refusals[..|refusals|] == refusals;
  }

  function CarriedSet(refusals: seq<RefusalCode>): set<Reason> {
    set r: Reason | Carries(refusals, r)
  }

  lemma CarriedNext(refusals: seq<RefusalCode>, i: nat)
    requires i < |refusals|
    ensures CarriedSet(refusals[..i + 1]) == CarriedSet(refusals[..i]) + {CarriedAs(refusals[i])}
  {
    forall x ensures Carries(refusals[..i + 1], x) <==> Carries(refusals[..i], x) || x == CarriedAs(refusals[i]) {
      if Carries(refusals[..i], x) {
        var k :| 0 <= k < i && CarriedAs(refusals[..i][k]) == x;
        assert refusals[..i + 1][k] == refusals[k];
      }
      if Carries(refusals[..i + 1], x) {
        var k :| 0 <= k < i + 1 && CarriedAs(refusals[..i + 1][k]) == x;
        assert k < i ==> refusals[..i][k] == refusals[k];
      }
      assert refusals[..i + 1][i] == refusals[i];
    }
  }

  /** The turn at which the engine considers a reason. */
  function Turn(r: Reason): nat {
    match r
    case MissingHumanApproval => 0
    case MissingEvidence => 1
    case WeakOrMissingIdentity => 2
    case PaymentIntentUnclear => 3
    case RefusalgraphHighCaution => 4
    case RefusalgraphCriticalCaution => 5
    case HighRiskAction => 6
    case MoneyMovementRequested => 7
    case PaymentRequested => 8
    case BillingRequested => 9
    case SettlementRequested => 10
    case AutomaticPurchaseRequested => 11
    case DeploymentRequested => 12
    case PublishingRequested => 13
    case CustomerFacingAction => 14
    case SignupRequested => 15
    case PrivateDataAccessRequested => 16
    case ExternalConnectionRequested => 17
    case LowRiskReceiptOnly => 18
    case UnknownOrUnclearIntent => 19
    case DraftOnlyReason => 20
  }

  ghost function StatedBefore(q: Reading, turn: nat): set<Reason> {
    set r: Reason | Turn(r) < turn && States(q, r)
  }

  lemma TurnsDiffer(q: Reason, r: Reason)
    ensures Turn(q) == Turn(r) <==> q == r
  {
  }

  /** `if (condition) codes.add(r)`, at the turn of `r`. */
  method AddNext(q: Reading, ghost base: set<Reason>, codes: set<Reason>, ghost turn: nat, r: Reason, condition: bool)
    returns (s: set<Reason>)
    requires turn == Turn(r) && codes == base + StatedBefore(q, turn) && condition == States(q, r)
    ensures s == base + StatedBefore(q, turn + 1)
  {
    s := if condition then codes + {r} else codes;
    forall x ensures x in StatedBefore(q, turn + 1) <==> x in StatedBefore(q, turn) || (condition && x == r) {
      TurnsDiffer(x, r);
    }
  }

  method AddActionReasonCodes(q: Reading, ghost base: set<Reason>, codes: set<Reason>) returns (s: set<Reason>)
    requires codes == base + StatedBefore(q, 7)
    ensures s == base + StatedBefore(q, 18)
  {
    s := codes;
    s := AddNext(q, base, s, 7, MoneyMovementRequested, IsMoneyAction(q));
    s := AddNext(q, base, s, 8, PaymentRequested, AsksPayment(q));
    s := AddNext(q, base, s, 9, BillingRequested, AsksBilling(q));
    s := AddNext(q, base, s, 10, SettlementRequested, AsksSettlement(q));
    s := AddNext(q, base, s, 11, AutomaticPurchaseRequested, AsksPurchase(q));
    s := AddPublicReasonCodes(q, base, s);
  }

  /** `addActionReasonCodes`, from deployment on. */
  method AddPublicReasonCodes(q: Reading, ghost base: set<Reason>, codes: set<Reason>) returns (s: set<Reason>)
    requires codes == base + StatedBefore(q, 12)
    ensures s == base + StatedBefore(q, 18)
  {
    s := codes;
    s := AddNext(q, base, s, 12, DeploymentRequested, AsksDeployment(q));
    s := AddNext(q, base, s, 13, PublishingRequested, AsksPublishing(q));
    s := AddNext(q, base, s, 14, CustomerFacingAction, AsksCustomerContact(q));
    s := AddAccessReasonCodes(q, base, s);
  }

  /** `addActionReasonCodes`, from signup on. */
  method AddAccessReasonCodes(q: Reading, ghost base: set<Reason>, codes: set<Reason>) returns (s: set<Reason>)
    requires codes == base + StatedBefore(q, 15)
    ensures s == base + StatedBefore(q, 18)
  {
    s := codes;
    s := AddNext(q, base, s, 15, SignupRequested, AsksSignup(q));
    s := AddNext(q, base, s, 16, PrivateDataAccessRequested, AsksData(q));
    s := AddNext(q, base, s, 17, ExternalConnectionRequested, AsksConnection(q));
  }

  /** Texts are sorted by code unit, which for a vocabulary is the order of places. */
  function ByText(v: seq<string>): Order<Reason>
    requires |v| == SIZE
  {
    (q, r) => LexLess(ReasonText(v, q), ReasonText(v, r))
  }

  lemma TextOrderIsPlaceOrder(v: seq<string>, s: seq<Reason>)
    requires IsVocabulary(v)
    ensures SortDistinct(s, ByText(v)) == SortDistinct(s, BY_PLACE)
  {
    PlaceIsStrictOrder(Elements(s));
    forall x, y | x in s && y in s ensures BY_PLACE(x, y) == ByText(v)(x, y) {
      PlacesOrder(v, ReasonPlace(x), ReasonPlace(y));
    }
    SortAgrees(s, BY_PLACE, ByText(v));
  }

  /** The distinct values of a set, sorted by their texts. */
  method SortByText(v: seq<string>, codes: set<Reason>) returns (r: seq<Reason>)
    requires IsVocabulary(v)
    ensures Elements(r) == codes && Ascending(r, BY_PLACE)
  {
    var spread := Spread(codes);
    TextOrderIsPlaceOrder(v, spread);
    PlaceIsStrictOrder(Elements(spread));
    SortDistinctSorts(spread, BY_PLACE);
    r := SortDistinct(spread, ByText(v));
  }

  lemma AllStated(q: Reading, base: set<Reason>, s: set<Reason>)
    requires base == CarriedSet(q.query.codes)
    requires s == base + StatedBefore(q, 20) + {DraftOnlyReason}
    ensures s == ReasonSet(q)
  {
    forall x ensures x in s <==> Gives(q, x) {
      TurnsDiffer(x, DraftOnlyReason);
      assert Turn(x) <= Turn(DraftOnlyReason);
    }
  }

  /** The reasons that come from the statuses and the caution level. */
  method AddStatusReasonCodes(q: Reading) returns (s: set<Reason>)
    ensures s == StatedBefore(q, 6)
  {
    ghost var base: set<Reason> := {};
    s := {};
    s := AddNext(q, base, s, 0, MissingHumanApproval, q.approval.NotApproved?);
    s := AddNext(q, base, s, 1, MissingEvidence, !q.evidenceHeld);
    s := AddNext(q, base, s, 2, WeakOrMissingIdentity, !q.identityVerified);
    s := AddNext(q, base, s, 3, PaymentIntentUnclear, LacksIntent(q));
    s := AddNext(q, base, s, 4, RefusalgraphHighCaution, q.query.caution.HighCaution?);
    s := AddNext(q, base, s, 5, RefusalgraphCriticalCaution, q.query.caution.CriticalCaution?);
  }

  method DeriveReasonCodes(v: seq<string>, q: Reading) returns (codes: seq<Reason>)
    requires IsVocabulary(v)
    ensures codes == ReasonCodes(q)
  {
    var s := AddStatusReasonCodes(q);
    s := AddRefusalCodes(s, q.query.codes);
    ghost var base := CarriedSet(q.query.codes);
    s := AddNext(q, base, s, 6, HighRiskAction, IsHighImpact(q));
    s := AddActionReasonCodes(q, base, s);
    s := AddNext(q, base, s, 18, LowRiskReceiptOnly, IsLowRisk(q));
    s := AddNext(q, base, s, 19, UnknownOrUnclearIntent, IsUnclear(q));
    s := s + {DraftOnlyReason};
    AllStated(q, base, s);
    codes := SortByText(v, s);
    PlaceIsStrictOrder(s);
    AscendingUnique(codes, ReasonCodes(q), BY_PLACE);
  }

  /** The distinct values of a set, sorted by priority. */
  method SortByPriority(steps: set<Decision>) returns (r: seq<Decision>)
    ensures Elements(r) == steps && Ascending(r, BY_PRIORITY)
  {
    var spread := Spread(steps);
    PriorityIsStrictOrder(Elements(spread));
    SortDistinctSorts(spread, BY_PRIORITY);
    r := SortDistinct(spread, BY_PRIORITY);
  }

  method DeriveRequiredNextSteps(decision: Decision, codes: seq<Reason>) returns (steps: seq<Decision>)
    ensures steps == NextSteps(decision, codes)
  {
    var s := When(decision != AcceptWithLimits, decision);
    s := s + When(MissingHumanApproval in codes, RequireHumanApproval);
    s := s + When(MissingEvidence in codes, RequireMoreEvidence);
    s := s + When(WeakOrMissingIdentity in codes, RequireIdentityVerification);
    s := s + When(PaymentIntentUnclear in codes, ClarifyPaymentIntent);
    s := s + {CreateReceiptOnly} + {DraftOnlyNotExecuted};
    assert s == StepSet(decision, codes);
    steps := SortByPriority(s);
    PriorityIsStrictOrder(s);
    AscendingUnique(steps, NextSteps(decision, codes), BY_PRIORITY);
  }

  method CreateAgentClearingDecision(v: seq<string>, q: Reading, time: Stamp) returns (d: ClearingDecision)
    requires IsVocabulary(v)
    ensures d == Decide(q, time)
  {
    var codes := DeriveReasonCodes(v, q);
    var decision := SelectDecision(q, codes);
    var steps := DeriveRequiredNextSteps(decision, codes);
    d := Assemble(q, time, codes, decision, steps);
  }

  // ----- when an action is allowed --------------------------------------------------------------

  lemma CodesAreGiven(q: Reading, r: Reason)
    ensures r in ReasonCodes(q) <==> Gives(q, r)
  {
    PlaceIsStrictOrder(ReasonSet(q));
    assert r in ReasonCodes(q) <==> r in Elements(ReasonCodes(q));
  }

  lemma StepsAreNeeded(d: Decision, codes: seq<Reason>, step: Decision)
    ensures step in NextSteps(d, codes) <==> NeedsStep(d, codes, step)
  {
    PriorityIsStrictOrder(StepSet(d, codes));
    assert step in NextSteps(d, codes) <==> step in Elements(NextSteps(d, codes));
  }

  predicate IsAcceptable(l: Level) {
    l.LowLevel? || l.MediumLevel?
  }

  /** Everything that has to be in order for an action to be allowed. */
  predicate InOrderToAllow(q: Reading) {
    && IsSafeQuery(q.query)
    && (q.query.caution.NoCaution? || q.query.caution.LowCaution?)
    && IsAcceptable(q.risk) && IsAcceptable(q.impact)
    && (if IsProtected(q.category) then q.approval.Approved? && !Carries(q.query.codes, MissingHumanApproval)
        else !q.approval.NotApproved?)
    && q.evidenceHeld && !Carries(q.query.codes, MissingEvidence)
    && q.identityVerified && !Carries(q.query.codes, WeakOrMissingIdentity)
    && (IsMoneyAction(q) ==> q.intentStated) && !Carries(q.query.codes, PaymentIntentUnclear)
  }

  /** The exact condition under which the engine allows an action. */
  lemma AllowedExactly(q: Reading, time: Stamp)
    ensures Decide(q, time).actionAllowed <==> InOrderToAllow(q)
    ensures Decide(q, time).actionBlocked == !Decide(q, time).actionAllowed
  {
    CodesAreGiven(q, MissingHumanApproval);
    CodesAreGiven(q, MissingEvidence);
    CodesAreGiven(q, WeakOrMissingIdentity);
    CodesAreGiven(q, PaymentIntentUnclear);
  }

  function LevelRank(l: Level): nat {
    match l
    case LowLevel => 0
    case MediumLevel => 1
    case HighLevel => 2
    case BlockedLevel => 3
    case OtherLevel => 4
  }

  function CautionRank(c: Caution): nat {
    match c
    case NoCaution => 0
    case LowCaution => 1
    case MediumCaution => 2
    case HighCaution => 3
    case CriticalCaution => 4
  }

  /** `p` differs from `q` only towards more doubt: risk, impact and caution are no lower, every refusal code is
      still there, nothing that was missing is supplied, and no protection is dropped. */
  predicate NoSafer(p: Reading, q: Reading) {
    && LevelRank(p.risk) >= LevelRank(q.risk)
    && LevelRank(p.impact) >= LevelRank(q.impact)
    && CautionRank(p.query.caution) >= CautionRank(q.query.caution)
    && (forall i :: 0 <= i < |q.query.codes| ==> q.query.codes[i] in p.query.codes)
    && (p.approval == q.approval || p.approval.NotApproved? || q.approval.Approved?)
    && (p.evidenceHeld ==> q.evidenceHeld)
    && (p.identityVerified ==> q.identityVerified)
    && (p.intentStated ==> q.intentStated)
    && (IsProtected(q.category) ==> IsProtected(p.category))
    && (IsMoneyAction(q) ==> IsMoneyAction(p))
    && (IsSafeQuery(p.query) ==> IsSafeQuery(q.query))
  }

  lemma CarriesMore(few: seq<RefusalCode>, many: seq<RefusalCode>, r: Reason)
    requires forall i :: 0 <= i < |few| ==> few[i] in many
    ensures Carries(few, r) ==> Carries(many, r)
  {
    if Carries(few, r) {
      var i :| 0 <= i < |few| && CarriedAs(few[i]) == r;
      var k :| 0 <= k < |many| && many[k] == few[i];
      assert CarriedAs(many[k]) == r;
    }
  }

  /** Two runs: more doubt never turns a blocked request into an allowed one. */
  lemma DoubtNeverAllows(p: Reading, q: Reading, time: Stamp, later: Stamp)
    requires NoSafer(p, q) && Decide(p, later).actionAllowed
    ensures Decide(q, time).actionAllowed
  {
    AllowedExactly(p, later);
    AllowedExactly(q, time);
    CarriesMore(q.query.codes, p.query.codes, MissingHumanApproval);
    CarriesMore(q.query.codes, p.query.codes, MissingEvidence);
    CarriesMore(q.query.codes, p.query.codes, WeakOrMissingIdentity);
    CarriesMore(q.query.codes, p.query.codes, PaymentIntentUnclear);
  }

  /** Which decision is taken: an unsafe query keeps the request blocked, a critical caution refuses it and nothing
      else does, a requirement is named only for a gap that is there, and gaps are named in a fixed order. */
  lemma DecisionNamesFirstGap(q: Reading, time: Stamp)
    ensures var d := Decide(q, time);
      && (!IsSafeQuery(q.query) ==> d.decision == KeepBlocked)
      && (d.decision == RefuseTransaction <==> IsSafeQuery(q.query) && q.query.caution.CriticalCaution?)
      && (d.decision == RequireMoreEvidence ==> d.evidenceRequired)
      && (d.decision == RequireIdentityVerification ==> d.identityRequired && !d.evidenceRequired)
      && (d.decision == ClarifyPaymentIntent ==> d.intentRequired && !d.identityRequired && !d.evidenceRequired)
      && (d.decision == AcceptWithLimits ==> !d.evidenceRequired && !d.identityRequired && !d.intentRequired)
      && (d.decision == RequireHumanApproval ==>
            q.query.caution.HighCaution? || IsHighImpact(q) || IsProtected(q.category))
      && d.decision != CapSpendLimit && d.decision != CreateReceiptOnly && d.decision != DraftOnlyNotExecuted
  {
  }

  /** The approval requirement is relaxed only outside the protected categories. */
  lemma RelaxedOnlyUnprotected(q: Reading, time: Stamp)
    requires Decide(q, time).actionAllowed && !q.approval.Approved?
    ensures q.approval.NotRequired? && !IsProtected(q.category)
  {
    AllowedExactly(q, time);
  }

  // ----- what the decision says about itself ----------------------------------------------------

  /** Next steps come in strictly rising priority and always end with the receipt and the draft mark. */
  lemma StepsRise(q: Reading, time: Stamp)
    ensures Ascending(Decide(q, time).nextSteps, BY_PRIORITY)
    ensures |Decide(q, time).nextSteps| >= 2
    ensures Decide(q, time).nextSteps[|Decide(q, time).nextSteps| - 2..] == [CreateReceiptOnly, DraftOnlyNotExecuted]
  {
    var d := Decide(q, time);
    PriorityIsStrictOrder(StepSet(d.decision, d.reasonCodes));
    StepsAreNeeded(d.decision, d.reasonCodes, CreateReceiptOnly);
    StepsAreNeeded(d.decision, d.reasonCodes, DraftOnlyNotExecuted);
    EndsWithTwo(d.nextSteps);
  }

  lemma {:induction false} PriorityGap(s: seq<Decision>, i: nat, j: nat)
    requires Ascending(s, BY_PRIORITY) && i <= j < |s|
    ensures DecisionPriority(s[j]) >= DecisionPriority(s[i]) + (j - i)
    decreases j
  {
    if i < j {
      PriorityGap(s, i, j - 1);
      assert BY_PRIORITY(s[j - 1], s[j]);
    }
  }

  lemma EndsWithTwo(s: seq<Decision>)
    requires Ascending(s, BY_PRIORITY) && CreateReceiptOnly in s && DraftOnlyNotExecuted in s
    ensures |s| >= 2 && s[|s| - 2..] == [CreateReceiptOnly, DraftOnlyNotExecuted]
  {
    var i :| 0 <= i < |s| && s[i] == CreateReceiptOnly;
    var j :| 0 <= j < |s| && s[j] == DraftOnlyNotExecuted;
    PriorityGap(s, j, |s| - 1);
    PriorityGap(s, i, |s| - 1);
  }

  /** A requirement is flagged exactly when its step is listed, except that human approval is flagged only when it
      is the decision. */
  lemma FlagsMatchSteps(q: Reading, time: Stamp)
    ensures var d := Decide(q, time);
      && (d.evidenceRequired <==> RequireMoreEvidence in d.nextSteps)
      && (d.identityRequired <==> RequireIdentityVerification in d.nextSteps)
      && (d.intentRequired <==> ClarifyPaymentIntent in d.nextSteps)
      && (RequireHumanApproval in d.nextSteps <==> d.approvalRequired || MissingHumanApproval in d.reasonCodes)
      && (d.actionBlocked <==> d.decision in d.nextSteps)
  {
    var d := Decide(q, time);
    StepsAreNeeded(d.decision, d.reasonCodes, RequireMoreEvidence);
    StepsAreNeeded(d.decision, d.reasonCodes, RequireIdentityVerification);
    StepsAreNeeded(d.decision, d.reasonCodes, ClarifyPaymentIntent);
    StepsAreNeeded(d.decision, d.reasonCodes, RequireHumanApproval);
    StepsAreNeeded(d.decision, d.reasonCodes, d.decision);
  }

  /** For a query result made by hand, any codes with any caution: an allowed action lists human approval as a next step
      exactly when that code is among them.  The RefusalGraph gives no such result; see `AllowedAsksForNothing`. */
  lemma AllowedYetApprovalListed(q: Reading, time: Stamp)
    requires Decide(q, time).actionAllowed
    ensures RequireHumanApproval in Decide(q, time).nextSteps <==> Carries(q.query.codes, MissingHumanApproval)
  {
    AllowedExactly(q, time);
    FlagsMatchSteps(q, time);
    CodesAreGiven(q, MissingHumanApproval);
  }

  /** Such a result can be handed to the engine: it checks the result's flags, not that codes and caution agree. */
  lemma AllowedYetApprovalListedExample(time: Stamp)
    ensures exists q :: Decide(q, time).actionAllowed && RequireHumanApproval in Decide(q, time).nextSteps
  {
    var query := QueryResult(NoCaution, Finite(1.0), [NoApprovalRefusal], true, false, false, false, false);
    var q := Reading(InternalAction, InternalReview, LowLevel, LowLevel, NotRequired, true, true, true, query);
    assert forall i :: 0 <= i < |query.codes| ==> CarriedAs(query.codes[i]) == MissingHumanApproval;
    assert CarriedAs(query.codes[0]) == MissingHumanApproval;
    AllowedExactly(q, time);
    AllowedYetApprovalListed(q, time);
  }
}
