/**
 From decision to receipt.  The pipeline writes a decision out as texts and the receipt engine reads them back;
 what is proved is that this loses nothing: a record comes back unchanged exactly when it is settled, and every
 decision and every receipt is settled.
 */
module ClearingPipeline {
  import opened Primitives
  import opened OrderedText
  import opened Tokens
  import opened ClearingCodes
  import opened ClearingDecision
  import opened ClearingRequest
  import opened ClearingReceipt
  import opened RefusalGraph

  function CautionText(c: Caution): string {
    match c
    case NoCaution => "none"
    case LowCaution => "low"
    case MediumCaution => "medium"
    case HighCaution => "high"
    case CriticalCaution => "critical"
  }

  function ReasonTexts(v: seq<string>, codes: seq<Reason>): (r: seq<string>)
    requires |v| == SIZE
    ensures |r| == |codes| && forall i :: 0 <= i < |r| ==> r[i] == ReasonText(v, codes[i])
  {
    seq(|codes|, i requires 0 <= i < |codes| => ReasonText(v, codes[i]))
  }

  function DecisionTexts(v: seq<string>, steps: seq<Decision>): (r: seq<string>)
    requires |v| == SIZE
    ensures |r| == |steps| && forall i :: 0 <= i < |r| ==> r[i] == DecisionText(v, steps[i])
  {
    seq(|steps|, i requires 0 <= i < |steps| => DecisionText(v, steps[i]))
  }

  /** `toReceiptInput`: the engine's flags are all false and its status is the draft. */
  function ToReceiptInput(v: seq<string>, d: ClearingDecision): ReceiptInput
    requires |v| == SIZE
  {
    ReceiptInput(
      DecisionText(v, d.decision), d.actionAllowed, d.actionBlocked, d.approvalRequired, d.evidenceRequired,
      d.identityRequired, d.intentRequired, d.spendLimit, CautionText(d.caution), Finite(d.count as real),
      ReasonTexts(v, d.reasonCodes), DecisionTexts(v, d.nextSteps), false, false, false, false, false,
      "draft_only", d.createdAt)
  }

  /** A record the receipt engine has nothing to add to. */
  predicate Settled(d: ClearingDecision) {
    && d.actionBlocked == !d.actionAllowed
    && (d.actionAllowed ==> d.decision == AcceptWithLimits)
    && (d.decision == RequireHumanApproval ==> d.approvalRequired)
    && d.count <= MOST_SIGNALS
    && Ascending(d.reasonCodes, BY_PLACE) && DraftOnlyReason in d.reasonCodes
    && (d.decision == DraftOnlyNotExecuted ==> UnknownOrUnclearIntent in d.reasonCodes)
    && Ascending(d.nextSteps, BY_PRIORITY) && DraftOnlyNotExecuted in d.nextSteps && CreateReceiptOnly in d.nextSteps
    && (d.createdAt.Iso? || d.createdAt == Unreadable("unknown"))
  }

  lemma ReasonTextReadsBack(v: seq<string>, r: Reason)
    requires IsVocabulary(v)
    ensures SafeToken(ReasonText(v, r)) == ReasonText(v, r)
    ensures IsReasonText(v, ReasonText(v, r)) && ReasonOf(v, ReasonText(v, r)) == r
  {
    SafeTokenFixedPoint(ReasonText(v, r));
    assert IsReasonText(v, ReasonText(v, r));
    ReasonTextsDiffer(v, r, ReasonOf(v, ReasonText(v, r)));
  }

  lemma DecisionTextReadsBack(v: seq<string>, d: Decision)
    requires IsVocabulary(v)
    ensures SafeToken(DecisionText(v, d)) == DecisionText(v, d)
    ensures IsDecisionText(v, DecisionText(v, d)) && DecisionOf(v, DecisionText(v, d)) == d
    ensures SafeDecision(v, DecisionText(v, d)) == d
  {
    SafeTokenFixedPoint(DecisionText(v, d));
    assert IsDecisionText(v, DecisionText(v, d));
    DecisionTextsDiffer(v, d, DecisionOf(v, DecisionText(v, d)));
  }

  lemma PlainLiteral(s: string)
    requires IsWord(s) && |s| <= 64
    ensures SafeToken(s) == s
  {
    WordIsPlain(s);
    SafeTokenFixedPoint(s);
  }

  lemma CautionReadsBack(c: Caution)
    ensures ReadCaution(SafeToken(CautionText(c))) == c
  {
    PlainLiteral(CautionText(c));
  }

  lemma DraftStatusIsPlain()
    ensures SafeToken("draft_only") == "draft_only"
  {
    WordIsPlain("draft");
    WordIsPlain("only");
    JoinIsPlain("draft", "only");
    assert "draft_only" == "draft" + "_" + "only";
    SafeTokenFixedPoint("draft_only");
  }

  /** Reason texts are all recognised, and filter back to the reasons they came from. */
  lemma ReasonsFilterBack(v: seq<string>, codes: seq<Reason>)
    requires IsVocabulary(v)
    ensures FilteredReasons(v, ReasonTexts(v, codes)) == Elements(codes)
  {
    var texts := ReasonTexts(v, codes);
    forall x | x in texts ensures IsReasonText(v, SafeToken(x)) {
      var i :| 0 <= i < |texts| && texts[i] == x;
      ReasonTextReadsBack(v, codes[i]);
    }
    forall r ensures Mentions(texts, ReasonText(v, r)) <==> r in codes {
      if Mentions(texts, ReasonText(v, r)) {
        var x :| x in texts && SafeToken(x) == ReasonText(v, r);
        var i :| 0 <= i < |texts| && texts[i] == x;
        ReasonTextReadsBack(v, codes[i]);
        ReasonTextsDiffer(v, r, codes[i]);
      }
      if r in codes {
        var i :| 0 <= i < |codes| && codes[i] == r;
        assert texts[i] in texts;
        ReasonTextReadsBack(v, r);
      }
    }
  }

  lemma StepsFilterBack(v: seq<string>, steps: seq<Decision>)
    requires IsVocabulary(v)
    ensures FilteredSteps(v, DecisionTexts(v, steps)) == Elements(steps)
  {
    var texts := DecisionTexts(v, steps);
    forall x | x in texts ensures IsDecisionText(v, SafeToken(x)) {
      var i :| 0 <= i < |texts| && texts[i] == x;
      DecisionTextReadsBack(v, steps[i]);
    }
    forall d ensures Mentions(texts, DecisionText(v, d)) <==> d in steps {
      if Mentions(texts, DecisionText(v, d)) {
        var x :| x in texts && SafeToken(x) == DecisionText(v, d);
        var i :| 0 <= i < |texts| && texts[i] == x;
        DecisionTextReadsBack(v, steps[i]);
        DecisionTextsDiffer(v, d, steps[i]);
      }
      if d in steps {
        var i :| 0 <= i < |steps| && steps[i] == d;
        assert texts[i] in texts;
        DecisionTextReadsBack(v, d);
      }
    }
  }

  lemma CountReadsBack(n: nat)
    requires n <= MOST_SIGNALS
    ensures SafeCount(Finite(n as real)) == n
  {
  }

  lemma TimeReadsBack(s: Stamp)
    ensures SafeTimestamp(s) == s <==> s.Iso? || s == Unreadable("unknown")
  {
  }

  lemma FilledIsSettled(v: seq<string>, x: ReceiptInput, safe: bool, codes: seq<Reason>, steps: seq<Decision>)
    requires IsVocabulary(v)
    requires Ascending(codes, BY_PLACE) && DraftOnlyReason in codes
    requires Ascending(steps, BY_PRIORITY) && DraftOnlyNotExecuted in steps && CreateReceiptOnly in steps
    requires !safe || SafeDecision(v, x.decision) == DraftOnlyNotExecuted ==> UnknownOrUnclearIntent in codes
    ensures Settled(Fill(v, x, safe, codes, steps))
  {
    TimeReadsBack(SafeTimestamp(x.createdAt));
  }

  /** Whatever it is handed, the engine writes a settled record. */
  lemma ReceiptsAreSettled(v: seq<string>, x: ReceiptInput)
    requires IsVocabulary(v)
    ensures Settled(Receipt(v, x))
  {
    var safe := IsSafeDecision(x);
    var reasonSet, stepSet := ReceiptReasons(v, x, safe), ReceiptSteps(v, x);
    PlaceIsStrictOrder(reasonSet);
    PriorityIsStrictOrder(stepSet);
    var codes, steps := InOrder(reasonSet, BY_PLACE), InOrder(stepSet, BY_PRIORITY);
    assert forall r :: r in codes <==> r in Elements(codes);
    assert forall d :: d in steps <==> d in Elements(steps);
    FilledIsSettled(v, x, safe, codes, steps);
  }

  lemma SettledLists(v: seq<string>, d: ClearingDecision)
    requires IsVocabulary(v) && Settled(d)
    ensures ReceiptReasons(v, ToReceiptInput(v, d), true) == Elements(d.reasonCodes)
    ensures ReceiptSteps(v, ToReceiptInput(v, d)) == Elements(d.nextSteps)
  {
    ReasonsFilterBack(v, d.reasonCodes);
    StepsFilterBack(v, d.nextSteps);
    DecisionTextReadsBack(v, d.decision);
  }

  /** A record comes back from the receipt engine unchanged exactly when it is settled. */
  lemma UnchangedExactlyWhenSettled(v: seq<string>, d: ClearingDecision)
    requires IsVocabulary(v)
    ensures Receipt(v, ToReceiptInput(v, d)) == d <==> Settled(d)
  {
    var x := ToReceiptInput(v, d);
    ReceiptsAreSettled(v, x);
    if Settled(d) {
      DraftStatusIsPlain();
      SettledLists(v, d);
      PlaceIsStrictOrder(Elements(d.reasonCodes));
      PriorityIsStrictOrder(Elements(d.nextSteps));
      AscendingUnique(d.reasonCodes, InOrder(Elements(d.reasonCodes), BY_PLACE), BY_PLACE);
      AscendingUnique(d.nextSteps, InOrder(Elements(d.nextSteps), BY_PRIORITY), BY_PRIORITY);
      FilledBack(v, d);
    }
  }

  lemma FilledBack(v: seq<string>, d: ClearingDecision)
    requires IsVocabulary(v) && Settled(d)
    ensures Fill(v, ToReceiptInput(v, d), true, d.reasonCodes, d.nextSteps) == d
  {
    DecisionTextReadsBack(v, d.decision);
    CautionReadsBack(d.caution);
    CountReadsBack(d.count);
    TimeReadsBack(d.createdAt);
  }

  lemma DecisionsAreSettled(q: Reading, time: Stamp)
    ensures Settled(Decide(q, time))
  {
    var d := Decide(q, time);
    CodesAreGiven(q, DraftOnlyReason);
    StepsAreNeeded(d.decision, d.reasonCodes, CreateReceiptOnly);
    StepsAreNeeded(d.decision, d.reasonCodes, DraftOnlyNotExecuted);
    PlaceIsStrictOrder(ReasonSet(q));
    PriorityIsStrictOrder(StepSet(d.decision, d.reasonCodes));
  }

  /** The receipt preserves the decision: every field, and both lists as identical sequences. */
  lemma ReceiptPreservesDecision(v: seq<string>, q: Reading, time: Stamp)
    requires IsVocabulary(v)
    ensures Receipt(v, ToReceiptInput(v, Decide(q, time))) == Decide(q, time)
  {
    DecisionsAreSettled(q, time);
    UnchangedExactlyWhenSettled(v, Decide(q, time));
  }

  /** A receipt of a receipt is the same receipt, whatever the first one was made from. */
  lemma ReceiptIdempotent(v: seq<string>, x: ReceiptInput)
    requires IsVocabulary(v)
    ensures Receipt(v, ToReceiptInput(v, Receipt(v, x))) == Receipt(v, x)
  {
    ReceiptsAreSettled(v, x);
    UnchangedExactlyWhenSettled(v, Receipt(v, x));
  }

  // ----- the pipeline ---------------------------------------------------------------------------

  /** The answer of the RefusalGraph to a request, over the signals given. */
  ghost function QueryFor(r: Request, signals: seq<Signal>): QueryResult {
    Answer(Matches(signals, SafeCategory(r.category), SafeAction(r.action)))
  }

  /** The request is read together with that answer and its caution level. */
  ghost function PipelineReading(r: Request, signals: seq<Signal>): Reading {
    ReadWith(r, QueryFor(r, signals))
  }

  function ReadWith(r: Request, query: QueryResult): Reading {
    Read(r.(caution := CautionText(query.caution)), query)
  }

  lemma ReadWithKeepsQuery(r: Request, query: QueryResult)
    ensures ReadWith(r, query).query == query
  {
    CautionReadsBack(query.caution);
  }

  /** The pipeline: one request, the signals to ask, a decision and its receipt. */
  method RunAgentClearingPipelineDemo(v: seq<string>, r: Request, signals: seq<Signal>, time: Stamp)
    returns (query: QueryResult, decision: ClearingDecision, receipt: ClearingDecision)
    requires IsVocabulary(v)
    ensures query == QueryFor(r, signals)
    ensures decision == Decide(PipelineReading(r, signals), time)
    ensures receipt == decision
  {
    query := QueryRefusalGraphSignals(r.category, r.action, signals);
    var q := ReadWith(r, query);
    decision := CreateAgentClearingDecision(v, q, time);
    receipt := CreateAgentClearingReceipt(v, ToReceiptInput(v, decision));
    ReceiptPreservesDecision(v, q, time);
  }

  /** What has to be in order for a reading whose query result is an answer of the RefusalGraph: its refusal codes do
      not appear, because a code that would block comes with a caution that blocks already. */
  predicate InOrderGivenCaution(q: Reading) {
    && (q.query.caution.NoCaution? || q.query.caution.LowCaution?)
    && IsAcceptable(q.risk) && IsAcceptable(q.impact)
    && (if IsProtected(q.category) then q.approval.Approved? else !q.approval.NotApproved?)
    && q.evidenceHeld && q.identityVerified && (IsMoneyAction(q) ==> q.intentStated)
  }

  /** With an answer of the RefusalGraph the exact condition is free of refusal codes. */
  lemma AllowedExactlyOnAnswer(q: Reading, matches: seq<Refusal>, time: Stamp)
    requires q.query == Answer(matches)
    ensures Decide(q, time).actionAllowed <==> InOrderGivenCaution(q)
  {
    AllowedExactly(q, time);
    CautionCoversCodes(matches);
    if q.query.caution.NoCaution? || q.query.caution.LowCaution? {
      LowCautionCarriesNoGap(matches, MissingHumanApproval);
      LowCautionCarriesNoGap(matches, MissingEvidence);
      LowCautionCarriesNoGap(matches, WeakOrMissingIdentity);
      LowCautionCarriesNoGap(matches, PaymentIntentUnclear);
    }
  }

  lemma PipelineAllowsExactly(r: Request, signals: seq<Signal>, time: Stamp)
    ensures Decide(PipelineReading(r, signals), time).actionAllowed
      <==> InOrderGivenCaution(PipelineReading(r, signals))
  {
    ReadWithKeepsQuery(r, QueryFor(r, signals));
    AllowedExactlyOnAnswer(
      PipelineReading(r, signals), Matches(signals, SafeCategory(r.category), SafeAction(r.action)), time);
  }

  lemma AllowedGivesNoGap(q: Reading, matches: seq<Refusal>, time: Stamp, r: Reason)
    requires q.query == Answer(matches) && Decide(q, time).actionAllowed
    requires r == MissingHumanApproval || r == MissingEvidence || r == WeakOrMissingIdentity
      || r == PaymentIntentUnclear
    ensures r !in Decide(q, time).reasonCodes
  {
    AllowedExactlyOnAnswer(q, matches, time);
    LowCautionCarriesNoGap(matches, r);
    CodesAreGiven(q, r);
  }

  /** An action the pipeline allows asks for nothing: its next steps are the receipt and the draft mark, alone. */
  lemma AllowedAsksForNothing(q: Reading, matches: seq<Refusal>, time: Stamp)
    requires q.query == Answer(matches) && Decide(q, time).actionAllowed
    ensures Decide(q, time).nextSteps == [CreateReceiptOnly, DraftOnlyNotExecuted]
  {
    var d := Decide(q, time);
    AllowedGivesNoGap(q, matches, time, MissingHumanApproval);
    AllowedGivesNoGap(q, matches, time, MissingEvidence);
    AllowedGivesNoGap(q, matches, time, WeakOrMissingIdentity);
    AllowedGivesNoGap(q, matches, time, PaymentIntentUnclear);
    TwoStepsRemain(d.decision, d.reasonCodes);
  }

  lemma TwoStepsRemain(d: Decision, codes: seq<Reason>)
    requires d == AcceptWithLimits
    requires MissingHumanApproval !in codes && MissingEvidence !in codes
    requires WeakOrMissingIdentity !in codes && PaymentIntentUnclear !in codes
    ensures NextSteps(d, codes) == [CreateReceiptOnly, DraftOnlyNotExecuted]
  {
    var two := [CreateReceiptOnly, DraftOnlyNotExecuted];
    assert Elements(two) == StepSet(d, codes);
    PriorityIsStrictOrder(StepSet(d, codes));
    AscendingUnique(NextSteps(d, codes), two, BY_PRIORITY);
  }
}
