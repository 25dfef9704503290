/**
 The batch runner: requests are converted, put through the pipeline one after the other and recorded in an
 append-only ledger; the results are then counted.  The signals found for each request in the local store and the
 ids of the records it produces are given.
 */
module ClearingBatch {
  import opened Primitives
  import opened OrderedText
  import opened Tokens
  import opened ClearingCodes
  import opened ClearingDecision
  import opened StandardTexts
  import opened RequestTexts
  import opened ClearingRequest
  import opened RefusalGraph
  import opened ClearingPipeline

  datatype BatchRequest = BatchRequest(
    intentCategory: string, actionCategory: string, requestedAction: string, risk: string, evidence: string,
    approval: string, createdAt: Stamp)

  /** One request with what the rest of the system answers for it. */
  datatype Item = Item(request: BatchRequest, signals: seq<Signal>, recordIds: seq<string>)

  datatype Result = Result(decision: ClearingDecision, caution: Caution, ledgerIds: seq<string>)

  // ----- conversion -----------------------------------------------------------------------------

  /** The batch runner cuts its tokens at 96. */
  function BatchToken(s: string): string {
    Cut(Clean(Lower(s)), 96)
  }

  const KEPT_CATEGORIES: set<Category> := {
    Publishing, CustomerCommunication, Deployment, DataAccess, ExternalConnection, Signup, Billing, AutomaticPurchase}

  const BATCH_ACTIONS: set<ActionType> := {
    InitiatePayment, PublishContent, BuyService, EmailCustomer, AccessData, DeployCode, EnableBilling, EnableSignup,
    ConnectExternalSystem, PurchaseAutomatically}

  const BATCH_MONEY: set<ActionType> := {InitiatePayment, BuyService, EnableBilling, PurchaseAutomatically}

  /** A category text the batch runner lets through and the decision engine does not know. */
  function HighRisk(): string {
    Join("high", Join("risk", "action"))
  }

  function PipelineCategory(text: string): string {
    var token := BatchToken(text);
    if token == CategoryText(Payment) || token == "purchase" || token == CategoryText(Settlement) then
      CategoryText(FinancialAction)
    else if (exists c :: c in KEPT_CATEGORIES && token == CategoryText(c)) || token == HighRisk() then token
    else CategoryText(OtherCategory)
  }

  predicate IsBatchAction(token: string) {
    exists a :: a in BATCH_ACTIONS && token == ActionText(a)
  }

  /** The first of the two candidates that is a known action. */
  function SafeActionType(actionCategory: string, requestedAction: string): string {
    if IsBatchAction(BatchToken(actionCategory)) then BatchToken(actionCategory)
    else if IsBatchAction(BatchToken(requestedAction)) then BatchToken(requestedAction)
    else ActionText(OtherAction)
  }

  function SafeRisk(text: string): string {
    var token := BatchToken(text);
    if token == "low" || token == "medium" then token else "high"
  }

  function SafeEvidence(text: string): string {
    var token := BatchToken(text);
    if token == "complete" || token == "sufficient" || token == "verified" then "complete"
    else if token == "missing" then "missing"
    else "incomplete"
  }

  function SafeApproval(text: string): string {
    var token := BatchToken(text);
    if token == "approved" || token == "not_required" then token else "missing"
  }

  predicate IsBatchMoneyAction(action: string) {
    exists a :: a in BATCH_MONEY && action == ActionText(a)
  }

  function IntentFor(action: string): string {
    if IsBatchMoneyAction(action) then "unclear" else "not_applicable"
  }

  function VerifiedLocally(): string {
    "verified_locally"
  }

  /** The caution text is filled in by the pipeline. */
  function ToPipelineRequest(b: BatchRequest): Request {
    var action := SafeActionType(b.actionCategory, b.requestedAction);
    Request(
      PipelineCategory(b.intentCategory), action, SafeRisk(b.risk), SafeRisk(b.risk), SafeEvidence(b.evidence),
      SafeApproval(b.approval), VerifiedLocally(), IntentFor(action), "")
  }

  ghost function ReadItem(x: Item): Reading {
    PipelineReading(ToPipelineRequest(x.request), x.signals)
  }

  ghost function QueryOf(x: Item): QueryResult {
    QueryFor(ToPipelineRequest(x.request), x.signals)
  }

  function MatchesOf(x: Item): seq<Refusal> {
    var r := ToPipelineRequest(x.request);
    Matches(x.signals, SafeCategory(r.category), SafeAction(r.action))
  }

  // ----- money actions are never allowed --------------------------------------------------------

  /** A token that is short, as every known one is, was not cut. */
  lemma ShortTokenIsPlain(s: string)
    requires |BatchToken(s)| < 63
    ensures IsPlainToken(BatchToken(s))
  {
    CleanCanonical(Lower(s));
    LowerNoUpper(s);
    CleanNoUpper(Lower(s));
  }

  lemma TextStays(text: string)
    requires IsPlainToken(text)
    ensures BatchToken(text) == text
  {
    SafeTokenFixedPoint(text);
  }

  /** The chosen text is that of an action, and the engine takes the same ones for money actions. */
  lemma ChosenActionIsNamed(actionCategory: string, requestedAction: string) returns (a: ActionType)
    ensures SafeActionType(actionCategory, requestedAction) == ActionText(a)
    ensures IsMoneyType(a) <==> IsBatchMoneyAction(ActionText(a))
  {
    var action := SafeActionType(actionCategory, requestedAction);
    if IsBatchAction(action) {
      a :| a in BATCH_ACTIONS && action == ActionText(a);
    } else {
      a := OtherAction;
    }
    MoneyActionsAgree(a);
  }

  lemma MoneyActionsAgree(a: ActionType)
    requires a in BATCH_ACTIONS || a == OtherAction
    ensures IsMoneyType(a) <==> IsBatchMoneyAction(ActionText(a))
  {
    if IsBatchMoneyAction(ActionText(a)) {
      var b :| b in BATCH_MONEY && ActionText(a) == ActionText(b);
      ActionTextsDiffer(a, b);
    }
  }

  lemma ActionReads(b: BatchRequest)
    ensures IsMoneyType(ReadAction(SafeToken(SafeActionType(b.actionCategory, b.requestedAction))))
      <==> IsBatchMoneyAction(SafeActionType(b.actionCategory, b.requestedAction))
  {
    var a := ChosenActionIsNamed(b.actionCategory, b.requestedAction);
    ActionTextsAreRead(a, ActionText(a));
    TextStays(ActionText(a));
  }

  lemma IntentIsPlain(action: string)
    ensures IsPlainToken(IntentFor(action))
    ensures ReadIntent(IntentFor(action)) <==> !IsBatchMoneyAction(action)
  {
    WordIsPlain("unclear");
    WordIsPlain("not");
    WordIsPlain("applicable");
    JoinIsPlain("not", "applicable");
    assert "not_applicable" == "not" + "_" + "applicable";
  }

  lemma IntentReads(action: string)
    ensures ReadIntent(SafeToken(IntentFor(action))) <==> !IsBatchMoneyAction(action)
  {
    IntentIsPlain(action);
    TextStays(IntentFor(action));
  }

  lemma UnstatedMoneyBlocked(q: Reading, time: Stamp)
    requires IsMoneyAction(q) && !q.intentStated
    ensures !Decide(q, time).actionAllowed && PaymentIntentUnclear in Decide(q, time).reasonCodes
  {
    AllowedExactly(q, time);
    CodesAreGiven(q, PaymentIntentUnclear);
  }

  /** A request whose action is a payment, a purchase, billing or an automatic purchase is never allowed. */
  lemma MoneyNeverAllowed(x: Item, time: Stamp)
    requires IsBatchMoneyAction(SafeActionType(x.request.actionCategory, x.request.requestedAction))
    ensures !Decide(ReadItem(x), time).actionAllowed
    ensures PaymentIntentUnclear in Decide(ReadItem(x), time).reasonCodes
  {
    ItemReads(x.request, QueryOf(x));
    UnstatedMoneyBlocked(ReadItem(x), time);
  }

  // ----- when a batch request is allowed --------------------------------------------------------

  lemma RiskIsWord(s: string)
    ensures IsPlainToken(SafeRisk(s))
    ensures IsAcceptable(ReadLevel(SafeRisk(s))) <==> BatchToken(s) == "low" || BatchToken(s) == "medium"
  {
    WordIsPlain("low");
    WordIsPlain("medium");
    WordIsPlain("high");
  }

  predicate IsCompleteEvidence(token: string) {
    token == "complete" || token == "sufficient" || token == "verified"
  }

  lemma EvidenceIsWord(s: string)
    ensures IsPlainToken(SafeEvidence(s))
    ensures ReadEvidence(SafeEvidence(s)) <==> IsCompleteEvidence(BatchToken(s))
  {
    WordIsPlain("complete");
    WordIsPlain("missing");
    WordIsPlain("incomplete");
  }

  lemma ApprovalIsPlain(s: string)
    ensures IsPlainToken(SafeApproval(s))
    ensures ReadApproval(SafeApproval(s)) == ReadApproval(BatchToken(s))
  {
    WordIsPlain("missing");
    if |BatchToken(s)| < 63 {
      ShortTokenIsPlain(s);
    }
  }

  lemma VerifiedLocallyReads()
    ensures IsPlainToken(VerifiedLocally()) && ReadIdentity(VerifiedLocally())
  {
    WordIsPlain("verified");
    WordIsPlain("locally");
    JoinIsPlain("verified", "locally");
    assert VerifiedLocally() == "verified" + "_" + "locally";
  }

  lemma RiskReads(s: string)
    ensures IsAcceptable(ReadLevel(SafeToken(SafeRisk(s)))) <==> BatchToken(s) == "low" || BatchToken(s) == "medium"
  {
    RiskIsWord(s);
    TextStays(SafeRisk(s));
  }

  lemma EvidenceReads(s: string)
    ensures ReadEvidence(SafeToken(SafeEvidence(s))) <==> IsCompleteEvidence(BatchToken(s))
  {
    EvidenceIsWord(s);
    TextStays(SafeEvidence(s));
  }

  lemma ApprovalReads(s: string)
    ensures ReadApproval(SafeToken(SafeApproval(s))) == ReadApproval(BatchToken(s))
  {
    ApprovalIsPlain(s);
    TextStays(SafeApproval(s));
  }

  lemma IdentityReads()
    ensures ReadIdentity(SafeToken(VerifiedLocally()))
  {
    VerifiedLocallyReads();
    TextStays(VerifiedLocally());
  }

  /** The intents that put a request into a protected category. */
  predicate IsGuardedIntent(token: string) {
    || token == CategoryText(Payment) || token == "purchase" || token == CategoryText(Settlement)
    || exists c :: c in KEPT_CATEGORIES && token == CategoryText(c)
  }

  lemma HighRiskIsNoCategory()
    ensures IsPlainToken(HighRisk()) && ReadCategory(HighRisk()) == OtherCategory
    ensures !IsGuardedIntent(HighRisk())
  {
    Phrase3("high", "risk", "action");
    assert MarkOf(HighRisk()) == Mark(16, 'h', 'n');
    forall c ensures CategoryText(c) != HighRisk() {
      CategoryTextHasMark(c);
    }
  }

  lemma UnguardedReads(s: string)
    requires !IsGuardedIntent(BatchToken(s))
    ensures IsPlainToken(PipelineCategory(s)) && ReadCategory(PipelineCategory(s)) == OtherCategory
  {
    HighRiskIsNoCategory();
    CategoryTextsAreRead(OtherCategory, "");
  }

  lemma GuardedIsNamed(s: string) returns (c: Category)
    requires IsGuardedIntent(BatchToken(s))
    ensures PipelineCategory(s) == CategoryText(c) && IsProtected(c)
  {
    var token := BatchToken(s);
    if token == CategoryText(Payment) || token == "purchase" || token == CategoryText(Settlement) {
      c := FinancialAction;
    } else {
      c :| c in KEPT_CATEGORIES && token == CategoryText(c);
    }
  }

  lemma CategoryReads(s: string)
    ensures IsProtected(ReadCategory(SafeToken(PipelineCategory(s)))) <==> IsGuardedIntent(BatchToken(s))
  {
    if IsGuardedIntent(BatchToken(s)) {
      var c := GuardedIsNamed(s);
      CategoryTextsAreRead(c, "");
    } else {
      UnguardedReads(s);
    }
    TextStays(PipelineCategory(s));
  }

  lemma ItemReads(b: BatchRequest, query: QueryResult)
    ensures var q := ReadWith(ToPipelineRequest(b), query);
      && (IsAcceptable(q.risk) <==> BatchToken(b.risk) == "low" || BatchToken(b.risk) == "medium")
      && q.impact == q.risk
      && (q.evidenceHeld <==> IsCompleteEvidence(BatchToken(b.evidence)))
      && q.approval == ReadApproval(BatchToken(b.approval))
      && q.identityVerified
      && (IsProtected(q.category) <==> IsGuardedIntent(BatchToken(b.intentCategory)))
      && (q.intentStated <==> !IsBatchMoneyAction(SafeActionType(b.actionCategory, b.requestedAction)))
      && (IsMoneyType(q.action) <==> IsBatchMoneyAction(SafeActionType(b.actionCategory, b.requestedAction)))
      && q.query == query
  {
    RiskReads(b.risk);
    EvidenceReads(b.evidence);
    ApprovalReads(b.approval);
    IdentityReads();
    CategoryReads(b.intentCategory);
    ActionReads(b);
    IntentReads(SafeActionType(b.actionCategory, b.requestedAction));
    ReadWithKeepsQuery(ToPipelineRequest(b), query);
  }

  /** The exact condition, on the texts of the request and the caution the RefusalGraph answers. */
  lemma BatchAllowedExactly(x: Item, time: Stamp)
    ensures Decide(ReadItem(x), time).actionAllowed <==>
      && (QueryOf(x).caution.NoCaution? || QueryOf(x).caution.LowCaution?)
      && (BatchToken(x.request.risk) == "low" || BatchToken(x.request.risk) == "medium")
      && IsCompleteEvidence(BatchToken(x.request.evidence))
      && !IsBatchMoneyAction(SafeActionType(x.request.actionCategory, x.request.requestedAction))
      && (if IsGuardedIntent(BatchToken(x.request.intentCategory))
          then ReadApproval(BatchToken(x.request.approval)).Approved?
          else !ReadApproval(BatchToken(x.request.approval)).NotApproved?)
  {
    ItemReads(x.request, QueryOf(x));
    AllowedExactlyOnAnswer(ReadItem(x), MatchesOf(x), time);
  }

  /** An allowed batch request asks for nothing more. */
  lemma BatchAllowedAsksForNothing(x: Item, time: Stamp)
    requires Decide(ReadItem(x), time).actionAllowed
    ensures Decide(ReadItem(x), time).nextSteps == [CreateReceiptOnly, DraftOnlyNotExecuted]
  {
    ReadWithKeepsQuery(ToPipelineRequest(x.request), QueryOf(x));
    AllowedAsksForNothing(ReadItem(x), MatchesOf(x), time);
  }

  lemma WordStays(s: string)
    requires IsWord(s) && |s| <= 64
    ensures BatchToken(s) == s
  {
    WordIsPlain(s);
    TextStays(s);
  }

  /** A text with the mark of "other" names nothing in particular. */
  lemma OtherIsOrdinary(s: string)
    requires s != "" && MarkOf(s) == Mark(5, 'o', 'r') && BatchToken(s) == s
    ensures !IsGuardedIntent(BatchToken(s)) && !IsBatchMoneyAction(SafeActionType(s, s))
  {
    forall c | s == CategoryText(c) ensures c == OtherCategory {
      CategoryTextHasMark(c);
    }
    forall a | s == ActionText(a) ensures a == OtherAction {
      ActionTextHasMark(a);
    }
    MoneyActionsAgree(OtherAction);
  }

  lemma OrdinaryIsAllowed(x: Item, time: Stamp)
    requires x.signals == [] && BatchToken(x.request.risk) == "low" && BatchToken(x.request.evidence) == "complete"
    requires BatchToken(x.request.approval) == "approved" && !IsGuardedIntent(BatchToken(x.request.intentCategory))
    requires !IsBatchMoneyAction(SafeActionType(x.request.actionCategory, x.request.requestedAction))
    ensures Decide(ReadItem(x), time).actionAllowed
  {
    NoMatchNoCaution(MatchesOf(x));
    BatchAllowedExactly(x, time);
  }

  lemma PlainWords()
    ensures IsWord("other") && IsWord("low") && IsWord("complete") && IsWord("approved")
  {
  }

  /** There are allowed requests: an approved one of low risk with complete evidence and no signal against it. */
  lemma SomeRequestIsAllowed(b: BatchRequest, recordIds: seq<string>, time: Stamp)
    requires b.intentCategory == b.actionCategory == b.requestedAction == "other"
    requires b.risk == "low" && b.evidence == "complete" && b.approval == "approved"
    ensures Decide(ReadItem(Item(b, [], recordIds)), time).actionAllowed
  {
    PlainWords();
    WordStays(b.intentCategory);
    OtherIsOrdinary(b.intentCategory);
    WordStays(b.risk);
    WordStays(b.evidence);
    WordStays(b.approval);
    OrdinaryIsAllowed(Item(b, [], recordIds), time);
  }

  // ----- the ledger -----------------------------------------------------------------------------

  /** A record whose id is already there is not added. */
  function AddRecord(ledger: seq<string>, id: string): seq<string> {
    if id in ledger then ledger else ledger + [id]
  }

  function AddAll(ledger: seq<string>, ids: seq<string>): seq<string> {
    if ids == [] then ledger else AddRecord(AddAll(ledger, ids[..|ids| - 1]), ids[|ids| - 1])
  }

  /** The records of `ledger` whose ids were not there before. */
  function NewIn(ledger: seq<string>, before: set<string>): seq<string> {
    if ledger == [] then []
    else
      var rest := NewIn(ledger[..|ledger| - 1], before);
      if ledger[|ledger| - 1] in before then rest else rest + [ledger[|ledger| - 1]]
  }

  /** Adding records only appends, keeps ids unique and takes in every id offered. */
  lemma {:induction false} AddAllAppends(ledger: seq<string>, ids: seq<string>)
    requires NoRepeats(ledger)
    ensures var after := AddAll(ledger, ids);
      && |after| >= |ledger| && after[..|ledger|] == ledger
      && NoRepeats(after)
      && forall x :: x in after <==> x in ledger || x in ids
  {
    if ids != [] {
      var front, last := ids[..|ids| - 1], ids[|ids| - 1];
      AddAllAppends(ledger, front);
      assert ids == front + [last];
      var middle := AddAll(ledger, front);
      assert (middle + [last])[..|ledger|] == middle[..|ledger|];
    }
  }

  lemma {:induction false} NothingNew(s: seq<string>, before: set<string>)
    requires forall x :: x in s ==> x in before
    ensures NewIn(s, before) == []
  {
    if s != [] {
      NothingNew(s[..|s| - 1], before);
    }
  }

  /** What is new after appending is what was appended. */
  lemma {:induction false} NewIsSuffix(s: seq<string>, t: seq<string>, before: set<string>)
    requires forall x :: x in s ==> x in before
    requires forall x :: x in t ==> x !in before
    ensures NewIn(s + t, before) == t
  {
    if t == [] {
      assert s + t == s;
      NothingNew(s, before);
    } else {
      var front, last := t[..|t| - 1], t[|t| - 1];
      assert (s + t)[..|s + t| - 1] == s + front && (s + t)[|s + t| - 1] == last;
      NewIsSuffix(s, front, before);
      assert t == front + [last];
    }
  }

  lemma NewAfterAdding(ledger: seq<string>, ids: seq<string>)
    requires NoRepeats(ledger)
    ensures ledger + NewIn(AddAll(ledger, ids), Elements(ledger)) == AddAll(ledger, ids)
  {
    AddAllAppends(ledger, ids);
    var after := AddAll(ledger, ids);
    var added := after[|ledger|..];
    assert after == ledger + added;
    forall x | x in added ensures x !in Elements(ledger) {
      var k :| 0 <= k < |added| && added[k] == x;
      assert after[|ledger| + k] == x;
      assert forall i :: 0 <= i < |ledger| ==> after[i] == ledger[i];
    }
    NewIsSuffix(ledger, added, Elements(ledger));
  }

  // ----- the run --------------------------------------------------------------------------------

  /** The ledger before item `i` is processed. */
  function LedgerBefore(items: seq<Item>, i: nat): seq<string>
    requires i <= |items|
  {
    if i == 0 then [] else AddAll(LedgerBefore(items, i - 1), items[i - 1].recordIds)
  }

  ghost function DecisionOn(x: Item): ClearingDecision {
    Decide(ReadItem(x), x.request.createdAt)
  }

  ghost function ResultOf(items: seq<Item>, i: nat): Result
    requires i < |items|
  {
    var x := items[i];
    var before := LedgerBefore(items, i);
    Result(DecisionOn(x), QueryOf(x).caution,
           NewIn(AddAll(before, x.recordIds), Elements(before)))
  }

  lemma {:induction false} LedgerUnique(items: seq<Item>, i: nat)
    requires i <= |items|
    ensures NoRepeats(LedgerBefore(items, i))
  {
    if i > 0 {
      LedgerUnique(items, i - 1);
      AddAllAppends(LedgerBefore(items, i - 1), items[i - 1].recordIds);
    }
  }

  function Concat(results: seq<Result>): seq<string> {
    if results == [] then [] else Concat(results[..|results| - 1]) + results[|results| - 1].ledgerIds
  }

  method RunItem(v: seq<string>, x: Item) returns (caution: Caution, decision: ClearingDecision)
    requires IsVocabulary(v)
    ensures caution == QueryOf(x).caution && decision == DecisionOn(x)
  {
    var request := ToPipelineRequest(x.request);
    var query, receipt;
    query, decision, receipt := RunAgentClearingPipelineDemo(v, request, x.signals, x.request.createdAt);
    caution := query.caution;
  }

  method AddRecords(ledger: seq<string>, ids: seq<string>) returns (next: seq<string>)
    ensures next == AddAll(ledger, ids)
  {
    next := ledger;
    for i := 0 to |ids|
      invariant next == AddAll(ledger, ids[..i])
    {
      assert ids[..i + 1][..i] == ids[..i];
      next := AddRecord(next, ids[i]);
    }
    assert ids[..|ids|] == ids;
  }

  method ProcessRequest(v: seq<string>, x: Item, ledger: seq<string>)
    returns (result: Result, next: seq<string>)
    requires IsVocabulary(v)
    ensures next == AddAll(ledger, x.recordIds)
    ensures result == Result(DecisionOn(x), QueryOf(x).caution, NewIn(next, Elements(ledger)))
  {
    var caution, decision := RunItem(v, x);
    var before := Elements(ledger);
    next := AddRecords(ledger, x.recordIds);
    result := Result(decision, caution, NewIn(next, before));
  }

  /** The results so far are those of the first items, in order. */
  ghost predicate ResultsOf(items: seq<Item>, results: seq<Result>)
    requires |results| <= |items|
  {
    forall i :: 0 <= i < |results| ==> results[i] == ResultOf(items, i)
  }

  lemma ResultAdded(items: seq<Item>, results: seq<Result>, result: Result)
    requires |results| < |items| && ResultsOf(items, results) && result == ResultOf(items, |results|)
    ensures ResultsOf(items, results + [result])
  {
    forall i | 0 <= i <= |results| ensures (results + [result])[i] == ResultOf(items, i) {
      if i < |results| {
        assert (results + [result])[i] == results[i];
      }
    }
  }

  lemma LedgerStep(items: seq<Item>, results: seq<Result>, ledger: seq<string>, result: Result, next: seq<string>)
    requires |results| < |items| && ledger == LedgerBefore(items, |results|) && Concat(results) == ledger
    requires next == AddAll(ledger, items[|results|].recordIds)
    requires result.ledgerIds == NewIn(next, Elements(ledger))
    ensures Concat(results + [result]) == next == LedgerBefore(items, |results| + 1)
  {
    LedgerUnique(items, |results|);
    NewAfterAdding(ledger, items[|results|].recordIds);
    assert (results + [result])[..|results|] == results;
  }

  method RunBatchAgentClearingRequests(v: seq<string>, items: seq<Item>)
    returns (results: seq<Result>, ledger: seq<string>)
    requires IsVocabulary(v)
    ensures |results| == |items| && ResultsOf(items, results)
    ensures ledger == LedgerBefore(items, |items|)
    ensures NoRepeats(ledger) && Concat(results) == ledger
  {
    ledger, results := [], [];
    for i := 0 to |items|
      invariant ledger == LedgerBefore(items, i)
      invariant |results| == i && ResultsOf(items, results)
      invariant Concat(results) == ledger
    {
      var result, next := ProcessRequest(v, items[i], ledger);
      ResultAdded(items, results, result);
      LedgerStep(items, results, ledger, result, next);
      ledger, results := next, results + [result];
    }
    LedgerUnique(items, |items|);
  }

  lemma {:induction false} UniqueParts(head: seq<string>, mid: seq<string>, whole: seq<string>, id: string)
    requires head + mid <= whole && NoRepeats(whole) && id in head
    ensures id !in mid
  {
    var a :| 0 <= a < |head| && head[a] == id;
    assert whole[a] == (head + mid)[a];
    assert forall b :: 0 <= b < |mid| ==> mid[b] == (head + mid)[|head| + b] && mid[b] == whole[|head| + b];
  }

  /** No record is claimed by two requests. */
  lemma {:induction false} LedgerIdsDisjoint(results: seq<Result>, i: nat, j: nat, id: string)
    requires NoRepeats(Concat(results)) && i < j < |results|
    requires id in results[i].ledgerIds
    ensures id !in results[j].ledgerIds
  {
    ConcatSplit(results, j);
    ConcatHolds(results[..j], i, id);
    UniqueParts(Concat(results[..j]), results[j].ledgerIds, Concat(results), id);
  }

  lemma {:induction false} ConcatHolds(results: seq<Result>, i: nat, id: string)
    requires i < |results| && id in results[i].ledgerIds
    ensures id in Concat(results)
    decreases |results|
  {
    if i < |results| - 1 {
      assert results[..|results| - 1][i] == results[i];
      ConcatHolds(results[..|results| - 1], i, id);
    }
  }

  lemma {:induction false} ConcatSplit(results: seq<Result>, j: nat)
    requires j < |results|
    ensures Concat(results[..j]) + results[j].ledgerIds <= Concat(results)
    decreases |results|
  {
    if j < |results| - 1 {
      var front := results[..|results| - 1];
      assert front[..j] == results[..j] && front[j] == results[j];
      ConcatSplit(front, j);
    }
  }

  // ----- the counts -----------------------------------------------------------------------------

  function Count(results: seq<Result>, p: Result -> bool): nat {
    if results == [] then 0 else Count(results[..|results| - 1], p) + if p(results[|results| - 1]) then 1 else 0
  }

  const ALLOWED: Result -> bool := (r: Result) => r.decision.actionAllowed
  const BLOCKED: Result -> bool := (r: Result) => r.decision.actionBlocked
  const APPROVAL: Result -> bool := (r: Result) => r.decision.approvalRequired
  const HIGH: Result -> bool := (r: Result) => r.caution.HighCaution?
  const CRITICAL: Result -> bool := (r: Result) => r.caution.CriticalCaution?

  /** What the engine guarantees of each result. */
  predicate Consistent(r: Result) {
    && (r.decision.actionBlocked <==> !r.decision.actionAllowed)
    && (r.decision.approvalRequired ==> r.decision.actionBlocked)
    && (r.decision.actionAllowed ==> r.caution.NoCaution? || r.caution.LowCaution?)
  }

  lemma ResultConsistent(items: seq<Item>, i: nat)
    requires i < |items|
    ensures Consistent(ResultOf(items, i))
  {
    var q := ReadItem(items[i]);
    ItemReads(items[i].request, QueryOf(items[i]));
    AllowedExactly(q, items[i].request.createdAt);
  }

  lemma {:induction false} ConsistentCounts(results: seq<Result>)
    requires forall i :: 0 <= i < |results| ==> Consistent(results[i])
    ensures Count(results, ALLOWED) + Count(results, BLOCKED) == |results|
    ensures Count(results, APPROVAL) <= Count(results, BLOCKED)
    ensures Count(results, ALLOWED) + Count(results, HIGH) + Count(results, CRITICAL) <= |results|
  {
    if results != [] {
      ConsistentCounts(results[..|results| - 1]);
    }
  }

  /** Conservation over every run: nothing is counted twice or lost. */
  lemma BatchConserves(items: seq<Item>, results: seq<Result>)
    requires |results| <= |items| && ResultsOf(items, results)
    ensures Count(results, ALLOWED) + Count(results, BLOCKED) == |results|
    ensures Count(results, APPROVAL) <= Count(results, BLOCKED)
    ensures Count(results, ALLOWED) + Count(results, HIGH) + Count(results, CRITICAL) <= |results|
  {
    forall i | 0 <= i < |results| ensures Consistent(results[i]) {
      ResultConsistent(items, i);
    }
    ConsistentCounts(results);
  }

  // ----- the next steps of a batch --------------------------------------------------------------

  const BY_TEXT_PLACE: Order<Decision> := (c, d) => DecisionPlace(c) < DecisionPlace(d)

  predicate Some(results: seq<Result>, p: Result -> bool) {
    exists r :: r in results && p(r)
  }

  function BatchSteps(results: seq<Result>): set<Decision> {
    When(Some(results, APPROVAL), RequireHumanApproval) + When(Some(results, BLOCKED), KeepBlocked)
    + When(Some(results, ALLOWED), CreateReceiptOnly) + {DraftOnlyNotExecuted}
  }

  lemma SomeNext(results: seq<Result>, i: nat, p: Result -> bool)
    requires i < |results|
    ensures Some(results[..i + 1], p) <==> Some(results[..i], p) || p(results[i])
  {
    assert results[..i + 1] == results[..i] + [results[i]];
    assert forall r :: r in results[..i + 1] <==> r in results[..i] || r == results[i];
  }

  function StepsFrom(d: ClearingDecision): set<Decision> {
    When(d.approvalRequired, RequireHumanApproval) + When(d.actionBlocked, KeepBlocked)
    + When(d.actionAllowed, CreateReceiptOnly)
  }

  lemma BatchStepsNext(results: seq<Result>, i: nat, values: set<Decision>)
    requires i < |results| && values + {DraftOnlyNotExecuted} == BatchSteps(results[..i])
    ensures values + StepsFrom(results[i].decision) + {DraftOnlyNotExecuted} == BatchSteps(results[..i + 1])
  {
    SomeNext(results, i, APPROVAL);
    SomeNext(results, i, BLOCKED);
    SomeNext(results, i, ALLOWED);
    assert BatchSteps(results[..i + 1]) == BatchSteps(results[..i]) + StepsFrom(results[i].decision);
  }

  method AddSteps(values: set<Decision>, d: ClearingDecision) returns (r: set<Decision>)
    ensures r == values + StepsFrom(d)
  {
    r := values;
    if d.approvalRequired {
      r := r + {RequireHumanApproval};
    }
    if d.actionBlocked {
      r := r + {KeepBlocked};
    }
    if d.actionAllowed {
      r := r + {CreateReceiptOnly};
    }
  }

  method AggregateNextSteps(v: seq<string>, results: seq<Result>) returns (steps: seq<Decision>)
    requires IsVocabulary(v)
    ensures Elements(steps) == BatchSteps(results) && Ascending(steps, BY_TEXT_PLACE)
  {
    var values: set<Decision> := {};
    for i := 0 to |results|
      invariant values + {DraftOnlyNotExecuted} == BatchSteps(results[..i])
    {
      BatchStepsNext(results, i, values);
      values := AddSteps(values, results[i].decision);
    }
    assert results[..|results|] == results;
    var spread := Spread(values + {DraftOnlyNotExecuted});
    TextOrderOfSteps(v, spread);
    steps := SortDistinct(spread, StepsByText(v));
  }

  function StepsByText(v: seq<string>): Order<Decision>
    requires |v| == SIZE
  {
    (c, d) => LexLess(DecisionText(v, c), DecisionText(v, d))
  }

  lemma TextOrderOfSteps(v: seq<string>, s: seq<Decision>)
    requires IsVocabulary(v)
    ensures var r := SortDistinct(s, StepsByText(v)); Elements(r) == Elements(s) && Ascending(r, BY_TEXT_PLACE)
  {
    assert StrictOrderOn(BY_TEXT_PLACE, Elements(s)) by {
      forall x, y | x in Elements(s) && y in Elements(s) && x != y ensures BY_TEXT_PLACE(x, y) || BY_TEXT_PLACE(y, x) {
        DecisionPlacesDiffer(x, y);
      }
    }
    forall x, y | x in s && y in s ensures BY_TEXT_PLACE(x, y) == StepsByText(v)(x, y) {
      PlacesOrder(v, DecisionPlace(x), DecisionPlace(y));
    }
    SortAgrees(s, BY_TEXT_PLACE, StepsByText(v));
    SortDistinctSorts(s, BY_TEXT_PLACE);
  }
}
