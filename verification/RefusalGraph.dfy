/**
 The RefusalGraph query: signals of earlier refusals that match a request are aggregated into refusal codes, the most
 frequent first, and into a caution level.  The level is computed from the codes, which ties the two together.
 */
module RefusalGraph {
  import opened OrderedText
  import opened Tokens
  import opened ClearingCodes
  import opened ClearingDecision
  import opened ClearingRequest

  /** The texts of a stored signal.  A refusal code that is not a known one does not appear in `codes`. */
  datatype Signal = Signal(
    category: string, action: string, status: string, refusalType: string, codes: seq<RefusalCode>, risk: string,
    impact: string, evidence: string, approval: string)

  datatype RefusalType = IdentityUnclear | IntentUnclear | HighRiskType | OtherType

  /** What the tokens of a signal say. */
  datatype Refusal = Refusal(
    codes: seq<RefusalCode>, kind: RefusalType, risk: Level, impact: Level, evidenceGap: bool, approvalGap: bool)

  // ----- which signals match --------------------------------------------------------------------

  function SafeCategory(text: string): string {
    var t := SafeToken(text);
    if t == "financial_action" || t == "publishing" || t == "customer_communication" || t == "deployment"
      || t == "data_access" || t == "external_connection" || t == "signup" || t == "billing"
      || t == "automatic_purchase" || t == "high_risk_action"
    then t else "other"
  }

  function SafeAction(text: string): string {
    var t := SafeToken(text);
    if t == "initiate_payment" || t == "publish_content" || t == "buy_service" || t == "email_customer"
      || t == "access_data" || t == "deploy_code" || t == "enable_billing" || t == "enable_signup"
      || t == "connect_external_system" || t == "automatic_purchase"
    then t else "other"
  }

  predicate IsLocalMatch(s: Signal, category: string, action: string) {
    && (SafeToken(s.status) == "draft_only" || SafeToken(s.status) == "local_only")
    && SafeCategory(s.category) == category
    && (action == "other" || SafeAction(s.action) == "other" || SafeAction(s.action) == action)
  }

  function ReadSignal(s: Signal): Refusal {
    var t, e, a := SafeToken(s.refusalType), SafeToken(s.evidence), SafeToken(s.approval);
    Refusal(
      s.codes,
      if t == "identity_unclear" then IdentityUnclear
      else if t == "payment_intent_unclear" then IntentUnclear
      else if t == "high_risk_action" then HighRiskType
      else OtherType,
      ReadLevel(SafeToken(s.risk)), ReadLevel(SafeToken(s.impact)),
      e == "missing" || e == "incomplete" || e == "insufficient" || e == "hash_only_incomplete",
      a == "not_requested" || a == "rejected" || a == "missing")
  }

  /** The readings of the signals that match, in order. */
  function Matches(signals: seq<Signal>, category: string, action: string): seq<Refusal> {
    if signals == [] then []
    else
      var front, last := Matches(signals[..|signals| - 1], category, action), signals[|signals| - 1];
      if IsLocalMatch(last, category, action) then front + [ReadSignal(last)] else front
  }

  // ----- aggregation ----------------------------------------------------------------------------

  predicate IsHighRisk(s: Refusal) {
    || s.risk.HighLevel? || s.risk.BlockedLevel? || s.impact.HighLevel? || s.kind.HighRiskType?
    || HighRiskRefusal in s.codes
  }

  /** A signal gives its own codes, and those its statuses stand for. */
  predicate SignalGives(s: Refusal, c: RefusalCode) {
    || c in s.codes
    || (c == NoEvidenceRefusal && s.evidenceGap)
    || (c == NoApprovalRefusal && s.approvalGap)
    || (c == WeakIdentityRefusal && s.kind.IdentityUnclear?)
    || (c == UnclearIntentRefusal && s.kind.IntentUnclear?)
    || (c == HighRiskRefusal && IsHighRisk(s))
  }

  /** In how many signals a code is given. */
  function Frequency(matches: seq<Refusal>, c: RefusalCode): nat {
    if matches == [] then 0
    else
      var before := Frequency(matches[..|matches| - 1], c);
      if SignalGives(matches[|matches| - 1], c) then before + 1 else before
  }

  /** The alphabetical place of a code's text. */
  function CodePlace(c: RefusalCode): nat {
    match c
    case PurchaseRefusal => 0
    case BillingRefusal => 1
    case CustomerRefusal => 2
    case DataAccessRefusal => 3
    case DeploymentRefusal => 4
    case ExternalRefusal => 5
    case HighRiskRefusal => 6
    case NoEvidenceRefusal => 7
    case NoApprovalRefusal => 8
    case MoneyRefusal => 9
    case UnclearIntentRefusal => 10
    case PolicyRefusal => 11
    case PrivateDataRefusal => 12
    case PublishingRefusal => 13
    case SignupRefusal => 14
    case UnknownRefusal => 15
    case WeakIdentityRefusal => 16
  }

  lemma CodePlacesDiffer(c: RefusalCode, d: RefusalCode)
    ensures CodePlace(c) == CodePlace(d) <==> c == d
  {
  }

  /** The more frequent code first, then alphabetically. */
  function ByFrequency(frequencies: map<RefusalCode, nat>): Order<RefusalCode> {
    (c, d) => c in frequencies && d in frequencies
      && (frequencies[c] > frequencies[d] || (frequencies[c] == frequencies[d] && CodePlace(c) < CodePlace(d)))
  }

  lemma FrequencyIsStrictOrder(frequencies: map<RefusalCode, nat>)
    ensures StrictOrderOn(ByFrequency(frequencies), frequencies.Keys)
  {
    var less := ByFrequency(frequencies);
    forall x, y | x in frequencies.Keys && y in frequencies.Keys && x != y ensures less(x, y) || less(y, x) {
      CodePlacesDiffer(x, y);
    }
  }

  function Frequencies(matches: seq<Refusal>): map<RefusalCode, nat> {
    map c: RefusalCode | Frequency(matches, c) > 0 :: Frequency(matches, c)
  }

  ghost function AggregatedCodes(matches: seq<Refusal>): seq<RefusalCode> {
    FrequencyIsStrictOrder(Frequencies(matches));
    InOrder(Frequencies(matches).Keys, ByFrequency(Frequencies(matches)))
  }

  function UniqueCodes(s: Refusal): set<RefusalCode> {
    set c: RefusalCode | SignalGives(s, c)
  }

  /** The codes of one signal, each once: a set that the statuses add to. */
  method CollectCodes(s: Refusal) returns (codes: set<RefusalCode>)
    ensures codes == UniqueCodes(s)
  {
    codes := Elements(s.codes);
    if s.evidenceGap {
      codes := codes + {NoEvidenceRefusal};
    }
    if s.approvalGap {
      codes := codes + {NoApprovalRefusal};
    }
    if s.kind == IdentityUnclear {
      codes := codes + {WeakIdentityRefusal};
    }
    if s.kind == IntentUnclear {
      codes := codes + {UnclearIntentRefusal};
    }
    if IsHighRisk(s) {
      codes := codes + {HighRiskRefusal};
    }
  }

  /** One more for each code of the set. */
  function Bumped(frequencies: map<RefusalCode, nat>, codes: set<RefusalCode>): map<RefusalCode, nat> {
    map c | c in frequencies.Keys + codes ::
      (if c in frequencies then frequencies[c] else 0) + (if c in codes then 1 else 0)
  }

  method AddCodes(frequencies: map<RefusalCode, nat>, codes: set<RefusalCode>) returns (r: map<RefusalCode, nat>)
    ensures r == Bumped(frequencies, codes)
  {
    r := frequencies;
    var rest := codes;
    ghost var done: set<RefusalCode> := {};
    assert Bumped(frequencies, {}) == frequencies;
    while rest != {}
      invariant rest + done == codes && rest !! done && r == Bumped(frequencies, done)
      decreases rest
    {
      var c :| c in rest;
      BumpOne(frequencies, done, c);
      r := r[c := (if c in r then r[c] else 0) + 1];
      rest, done := rest - {c}, done + {c};
    }
    assert done == codes;
  }

  lemma BumpOne(frequencies: map<RefusalCode, nat>, done: set<RefusalCode>, c: RefusalCode)
    requires c !in done
    ensures var m := Bumped(frequencies, done);
      m[c := (if c in m then m[c] else 0) + 1] == Bumped(frequencies, done + {c})
  {
  }

  lemma FrequenciesNext(matches: seq<Refusal>, i: nat)
    requires i < |matches|
    ensures Frequencies(matches[..i + 1]) == Bumped(Frequencies(matches[..i]), UniqueCodes(matches[i]))
  {
    assert matches[..i + 1][..i] == matches[..i];
  }

  method AggregateRefusalReasonCodes(matches: seq<Refusal>) returns (codes: seq<RefusalCode>)
    ensures codes == AggregatedCodes(matches)
  {
    var frequencies: map<RefusalCode, nat> := map[];
    for i := 0 to |matches|
      invariant frequencies == Frequencies(matches[..i])
    {
      FrequenciesNext(matches, i);
      var unique := CollectCodes(matches[i]);
      frequencies := AddCodes(frequencies, unique);
    }
    assert matches[..|matches|] == matches;
    var spread := Spread(frequencies.Keys);
    FrequencyIsStrictOrder(frequencies);
    SortDistinctIsInOrder(spread, ByFrequency(frequencies));
    codes := SortDistinct(spread, ByFrequency(frequencies));
  }

  // ----- the answer -----------------------------------------------------------------------------

  predicate IsControlGap(c: RefusalCode) {
    c == NoApprovalRefusal || c == NoEvidenceRefusal || c == WeakIdentityRefusal || c == UnclearIntentRefusal
  }

  function HighRiskCount(matches: seq<Refusal>): nat {
    if matches == [] then 0
    else
      var before := HighRiskCount(matches[..|matches| - 1]);
      if IsHighRisk(matches[|matches| - 1]) then before + 1 else before
  }

  function CautionLevel(matches: nat, codes: seq<RefusalCode>, highRisk: nat): Caution {
    if matches == 0 then NoCaution
    else if highRisk >= 3 then CriticalCaution
    else if highRisk > 0 || PolicyRefusal in codes then HighCaution
    else if matches >= 2 || (exists c :: c in codes && IsControlGap(c)) then MediumCaution
    else LowCaution
  }

  function AnswerWith(matches: seq<Refusal>, codes: seq<RefusalCode>): QueryResult {
    QueryResult(
      CautionLevel(|matches|, codes, HighRiskCount(matches)), Finite(|matches| as real), codes,
      true, false, false, false, false)
  }

  ghost function Answer(matches: seq<Refusal>): QueryResult {
    AnswerWith(matches, AggregatedCodes(matches))
  }

  method QueryRefusalGraphSignals(category: string, action: string, signals: seq<Signal>) returns (r: QueryResult)
    ensures r == Answer(Matches(signals, SafeCategory(category), SafeAction(action)))
  {
    var matches := Matches(signals, SafeCategory(category), SafeAction(action));
    var codes := AggregateRefusalReasonCodes(matches);
    r := AnswerWith(matches, codes);
  }

  // ----- what every answer keeps ----------------------------------------------------------------

  /** The codes of an answer are exactly those some matching signal gives, each once. */
  lemma CodesOfAnswer(matches: seq<Refusal>, c: RefusalCode)
    ensures c in Answer(matches).codes <==> exists s :: s in matches && SignalGives(s, c)
    ensures NoRepeats(Answer(matches).codes)
  {
    FrequencyIsStrictOrder(Frequencies(matches));
    var codes := AggregatedCodes(matches);
    FrequencyPositive(matches, c);
    assert c in codes <==> c in Elements(codes);
    forall i, j | 0 <= i < j < |codes| ensures codes[i] != codes[j] {
      assert ByFrequency(Frequencies(matches))(codes[i], codes[j]);
    }
  }

  lemma {:induction false} FrequencyPositive(matches: seq<Refusal>, c: RefusalCode)
    ensures Frequency(matches, c) > 0 <==> exists s :: s in matches && SignalGives(s, c)
  {
    if matches != [] {
      var front, last := matches[..|matches| - 1], matches[|matches| - 1];
      FrequencyPositive(front, c);
      assert forall s :: s in matches <==> s in front || s == last;
    }
  }

  /** A later code is never more frequent, and of two equally frequent ones the alphabetically first comes first. */
  lemma CodesByFrequency(matches: seq<Refusal>, i: nat, j: nat)
    requires i < j < |Answer(matches).codes|
    ensures var c, d := Answer(matches).codes[i], Answer(matches).codes[j];
      Frequency(matches, c) > Frequency(matches, d)
      || (Frequency(matches, c) == Frequency(matches, d) && CodePlace(c) < CodePlace(d))
  {
    FrequencyIsStrictOrder(Frequencies(matches));
    assert ByFrequency(Frequencies(matches))(AggregatedCodes(matches)[i], AggregatedCodes(matches)[j]);
  }

  lemma GapRaisesCaution(matches: seq<Refusal>, c: RefusalCode)
    requires c in Answer(matches).codes && IsControlGap(c)
    ensures CautionRank(Answer(matches).caution) >= CautionRank(MediumCaution)
  {
    CodesOfAnswer(matches, c);
  }

  lemma RiskRaisesCaution(matches: seq<Refusal>, c: RefusalCode)
    requires c in Answer(matches).codes && (c == PolicyRefusal || c == HighRiskRefusal)
    ensures CautionRank(Answer(matches).caution) >= CautionRank(HighCaution)
  {
    CodesOfAnswer(matches, c);
    if c == HighRiskRefusal {
      var s :| s in matches && SignalGives(s, HighRiskRefusal);
      HighRiskCounted(matches, s);
    }
  }

  lemma NoMatchNoCaution(matches: seq<Refusal>)
    ensures IsSafeQuery(Answer(matches))
    ensures Answer(matches).caution.NoCaution? <==> matches == []
    ensures matches == [] ==> Answer(matches).codes == []
  {
    if Answer(matches).codes != [] {
      CodesOfAnswer(matches, Answer(matches).codes[0]);
    }
  }

  /** Codes and caution are tied: a control gap makes the caution at least medium, a high risk or a policy refusal at
      least high, and without a match there is neither. */
  lemma CautionCoversCodes(matches: seq<Refusal>)
    ensures var r := Answer(matches);
      && IsSafeQuery(r)
      && (forall c :: c in r.codes && IsControlGap(c) ==> CautionRank(r.caution) >= CautionRank(MediumCaution))
      && (PolicyRefusal in r.codes || HighRiskRefusal in r.codes ==> CautionRank(r.caution) >= CautionRank(HighCaution))
      && (r.caution.NoCaution? <==> matches == [])
      && (matches == [] ==> r.codes == [])
  {
    NoMatchNoCaution(matches);
    forall c | c in Answer(matches).codes && IsControlGap(c)
      ensures CautionRank(Answer(matches).caution) >= CautionRank(MediumCaution)
    {
      GapRaisesCaution(matches, c);
    }
    if PolicyRefusal in Answer(matches).codes {
      RiskRaisesCaution(matches, PolicyRefusal);
    } else if HighRiskRefusal in Answer(matches).codes {
      RiskRaisesCaution(matches, HighRiskRefusal);
    }
  }

  lemma {:induction false} HighRiskCounted(matches: seq<Refusal>, s: Refusal)
    requires s in matches && IsHighRisk(s)
    ensures HighRiskCount(matches) > 0
  {
    var front, last := matches[..|matches| - 1], matches[|matches| - 1];
    assert s == last || s in front;
    if s != last {
      HighRiskCounted(front, s);
    }
  }

  lemma GapOnlyFromGap(codes: seq<RefusalCode>, r: Reason)
    requires r == MissingHumanApproval || r == MissingEvidence || r == WeakOrMissingIdentity
      || r == PaymentIntentUnclear
    requires Carries(codes, r)
    ensures exists c :: c in codes && IsControlGap(c)
  {
    var i :| 0 <= i < |codes| && CarriedAs(codes[i]) == r;
    assert codes[i] in codes && IsControlGap(codes[i]);
  }

  lemma LowCautionNoGap(matches: seq<Refusal>, c: RefusalCode)
    requires Answer(matches).caution.NoCaution? || Answer(matches).caution.LowCaution?
    ensures c in Answer(matches).codes ==> !IsControlGap(c)
  {
    if c in Answer(matches).codes && IsControlGap(c) {
      GapRaisesCaution(matches, c);
    }
  }

  /** An answer with caution none or low carries no control gap over into the reason codes. */
  lemma LowCautionCarriesNoGap(matches: seq<Refusal>, r: Reason)
    requires Answer(matches).caution.NoCaution? || Answer(matches).caution.LowCaution?
    requires r == MissingHumanApproval || r == MissingEvidence || r == WeakOrMissingIdentity
      || r == PaymentIntentUnclear
    ensures !Carries(Answer(matches).codes, r)
  {
    if Carries(Answer(matches).codes, r) {
      GapOnlyFromGap(Answer(matches).codes, r);
      var c :| c in Answer(matches).codes && IsControlGap(c);
      LowCautionNoGap(matches, c);
    }
  }
}
