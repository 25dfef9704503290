/**
 The clearing receipt engine: it reads every text of its input again, drops what it does not know, marks that it
 did, and keeps its two lists sorted.
 */
module ClearingReceipt {
  import opened Primitives
  import opened OrderedText
  import opened Tokens
  import opened ClearingCodes
  import opened ClearingDecision
  import opened ClearingRequest

  /** What the receipt engine is handed: texts, and flags nobody has checked. */
  datatype ReceiptInput = ReceiptInput(
    decision: string, actionAllowed: bool, actionBlocked: bool, approvalRequired: bool, evidenceRequired: bool,
    identityRequired: bool, intentRequired: bool, spendLimit: bool, caution: string, count: Count,
    reasonCodes: seq<string>, nextSteps: seq<string>, privateData: bool, networkLookup: bool,
    externalLookup: bool, paymentOrFee: bool, actionExecuted: bool, status: string, createdAt: Stamp)

  // ----- reading codes --------------------------------------------------------------------------

  predicate IsReasonText(v: seq<string>, token: string)
    requires |v| == SIZE
  {
    exists r: Reason :: ReasonText(v, r) == token
  }

  predicate IsDecisionText(v: seq<string>, token: string)
    requires |v| == SIZE
  {
    exists d: Decision :: DecisionText(v, d) == token
  }

  lemma ReasonTextsDiffer(v: seq<string>, q: Reason, r: Reason)
    requires IsVocabulary(v)
    ensures ReasonText(v, q) == ReasonText(v, r) <==> q == r
  {
    PlacesOrder(v, ReasonPlace(q), ReasonPlace(r));
    ReasonPlacesDiffer(q, r);
  }

  lemma DecisionTextsDiffer(v: seq<string>, c: Decision, d: Decision)
    requires IsVocabulary(v)
    ensures DecisionText(v, c) == DecisionText(v, d) <==> c == d
  {
    PlacesOrder(v, DecisionPlace(c), DecisionPlace(d));
    DecisionPlacesDiffer(c, d);
  }

  function ReasonOf(v: seq<string>, token: string): (r: Reason)
    requires IsVocabulary(v) && IsReasonText(v, token)
    ensures ReasonText(v, r) == token
  {
    assert forall q, r :: ReasonText(v, q) == ReasonText(v, r) ==> q == r by {
      forall q, r ensures ReasonText(v, q) == ReasonText(v, r) ==> q == r {
        ReasonTextsDiffer(v, q, r);
      }
    }
    var r: Reason :| ReasonText(v, r) == token;
    r
  }

  function DecisionOf(v: seq<string>, token: string): (d: Decision)
    requires IsVocabulary(v) && IsDecisionText(v, token)
    ensures DecisionText(v, d) == token
  {
    assert forall c, d :: DecisionText(v, c) == DecisionText(v, d) ==> c == d by {
      forall c, d ensures DecisionText(v, c) == DecisionText(v, d) ==> c == d {
        DecisionTextsDiffer(v, c, d);
      }
    }
    var d: Decision :| DecisionText(v, d) == token;
    d
  }

  /** A text that is no decision counts as the draft mark. */
  function SafeDecision(v: seq<string>, text: string): Decision
    requires IsVocabulary(v)
  {
    if IsDecisionText(v, SafeToken(text)) then DecisionOf(v, SafeToken(text)) else DraftOnlyNotExecuted
  }

  // ----- filtering ------------------------------------------------------------------------------

  predicate Mentions(values: seq<string>, text: string) {
    exists x :: x in values && SafeToken(x) == text
  }

  /** Some value is no reason text. */
  predicate StrayReason(v: seq<string>, values: seq<string>)
    requires |v| == SIZE
  {
    exists x :: x in values && !IsReasonText(v, SafeToken(x))
  }

  predicate StrayStep(v: seq<string>, values: seq<string>)
    requires |v| == SIZE
  {
    exists x :: x in values && !IsDecisionText(v, SafeToken(x))
  }

  function MentionedReasons(v: seq<string>, values: seq<string>): set<Reason>
    requires |v| == SIZE
  {
    set r: Reason | Mentions(values, ReasonText(v, r))
  }

  function MentionedSteps(v: seq<string>, values: seq<string>): set<Decision>
    requires |v| == SIZE
  {
    set d: Decision | Mentions(values, DecisionText(v, d))
  }

  /** The reasons named in a list, and "unknown" when something else was. */
  function FilteredReasons(v: seq<string>, values: seq<string>): set<Reason>
    requires |v| == SIZE
  {
    MentionedReasons(v, values) + When(StrayReason(v, values), UnknownOrUnclearIntent)
  }

  /** The decisions named in a list, and the draft mark when something else was. */
  function FilteredSteps(v: seq<string>, values: seq<string>): set<Decision>
    requires |v| == SIZE
  {
    MentionedSteps(v, values) + When(StrayStep(v, values), DraftOnlyNotExecuted)
  }

  lemma NextReason(v: seq<string>, values: seq<string>, i: nat)
    requires IsVocabulary(v) && i < |values|
    ensures var token := SafeToken(values[i]);
      MentionedReasons(v, values[..i + 1]) == MentionedReasons(v, values[..i])
        + if IsReasonText(v, token) then {ReasonOf(v, token)} else {}
  {
    var token := SafeToken(values[i]);
    forall r ensures Mentions(values[..i + 1], ReasonText(v, r)) <==>
      Mentions(values[..i], ReasonText(v, r)) || (IsReasonText(v, token) && r == ReasonOf(v, token))
    {
      if IsReasonText(v, token) {
        ReasonTextsDiffer(v, r, ReasonOf(v, token));
      }
    }
  }

  lemma NextStep(v: seq<string>, values: seq<string>, i: nat)
    requires IsVocabulary(v) && i < |values|
    ensures var token := SafeToken(values[i]);
      MentionedSteps(v, values[..i + 1]) == MentionedSteps(v, values[..i])
        + if IsDecisionText(v, token) then {DecisionOf(v, token)} else {}
  {
    var token := SafeToken(values[i]);
    forall d ensures Mentions(values[..i + 1], DecisionText(v, d)) <==>
      Mentions(values[..i], DecisionText(v, d)) || (IsDecisionText(v, token) && d == DecisionOf(v, token))
    {
      if IsDecisionText(v, token) {
        DecisionTextsDiffer(v, d, DecisionOf(v, token));
      }
    }
  }

  method FilterReasonCodes(v: seq<string>, values: seq<string>) returns (codes: seq<Reason>)
    requires IsVocabulary(v)
    ensures Elements(codes) == FilteredReasons(v, values) && Ascending(codes, BY_PLACE)
  {
    var output: set<Reason> := {};
    var unsafeValueFound := false;
    for i := 0 to |values|
      invariant output == MentionedReasons(v, values[..i])
      invariant unsafeValueFound == StrayReason(v, values[..i])
    {
      NextReason(v, values, i);
      var token := SafeToken(values[i]);
      if IsReasonText(v, token) {
        output := output + {ReasonOf(v, token)};
      } else {
        unsafeValueFound := true;
      }
    }
    assert values[..|values|] == values;
    if unsafeValueFound {
      output := output + {UnknownOrUnclearIntent};
    }
    codes := SortByText(v, output);
  }

  method FilterNextSteps(v: seq<string>, values: seq<string>) returns (steps: seq<Decision>)
    requires IsVocabulary(v)
    ensures Elements(steps) == FilteredSteps(v, values) && Ascending(steps, BY_PRIORITY)
  {
    var output: set<Decision> := {};
    var unsafeValueFound := false;
    for i := 0 to |values|
      invariant output == MentionedSteps(v, values[..i])
      invariant unsafeValueFound == StrayStep(v, values[..i])
    {
      NextStep(v, values, i);
      var token := SafeToken(values[i]);
      if IsDecisionText(v, token) {
        output := output + {DecisionOf(v, token)};
      } else {
        unsafeValueFound := true;
      }
    }
    assert values[..|values|] == values;
    if unsafeValueFound {
      output := output + {DraftOnlyNotExecuted};
    }
    steps := SortByPriority(output);
  }

  // ----- adding to a sorted list ----------------------------------------------------------------

  /** The comparison of `addSorted`: two decisions by priority, other texts alphabetically. */
  predicate Before(v: seq<string>, a: string, b: string)
    requires IsVocabulary(v)
  {
    if IsDecisionText(v, a) && IsDecisionText(v, b)
    then DecisionPriority(DecisionOf(v, a)) < DecisionPriority(DecisionOf(v, b))
    else LexLess(a, b)
  }

  /** Only one reason is also a decision, so reasons compare alphabetically. */
  lemma ReasonsCompareByPlace(v: seq<string>, q: Reason, r: Reason)
    requires IsVocabulary(v)
    ensures Before(v, ReasonText(v, q), ReasonText(v, r)) <==> ReasonPlace(q) < ReasonPlace(r)
  {
    var a, b := ReasonText(v, q), ReasonText(v, r);
    PlacesOrder(v, ReasonPlace(q), ReasonPlace(r));
    if IsDecisionText(v, a) && IsDecisionText(v, b) {
      var c, d := DecisionOf(v, a), DecisionOf(v, b);
      PlacesOrder(v, ReasonPlace(q), DecisionPlace(c));
      PlacesOrder(v, ReasonPlace(r), DecisionPlace(d));
    }
  }

  lemma DecisionsCompareByPriority(v: seq<string>, c: Decision, d: Decision)
    requires IsVocabulary(v)
    ensures Before(v, DecisionText(v, c), DecisionText(v, d)) <==> DecisionPriority(c) < DecisionPriority(d)
  {
    assert IsDecisionText(v, DecisionText(v, c)) && IsDecisionText(v, DecisionText(v, d));
    DecisionTextsDiffer(v, c, DecisionOf(v, DecisionText(v, c)));
    DecisionTextsDiffer(v, d, DecisionOf(v, DecisionText(v, d)));
  }

  function ReasonsBefore(v: seq<string>): Order<Reason>
    requires IsVocabulary(v)
  {
    (q, r) => Before(v, ReasonText(v, q), ReasonText(v, r))
  }

  function StepsBefore(v: seq<string>): Order<Decision>
    requires IsVocabulary(v)
  {
    (c, d) => Before(v, DecisionText(v, c), DecisionText(v, d))
  }

  method AddSortedReason(v: seq<string>, values: seq<Reason>, value: Reason) returns (r: seq<Reason>)
    requires IsVocabulary(v)
    ensures Elements(r) == Elements(values) + {value} && Ascending(r, BY_PLACE)
  {
    r := if value in values then values else values + [value];
    assert Elements(r) == Elements(values) + {value};
    PlaceIsStrictOrder(Elements(r));
    forall x, y | x in r && y in r ensures BY_PLACE(x, y) == ReasonsBefore(v)(x, y) {
      ReasonsCompareByPlace(v, x, y);
    }
    SortAgrees(r, BY_PLACE, ReasonsBefore(v));
    SortDistinctSorts(r, BY_PLACE);
    r := SortDistinct(r, ReasonsBefore(v));
  }

  method AddSortedStep(v: seq<string>, values: seq<Decision>, value: Decision) returns (r: seq<Decision>)
    requires IsVocabulary(v)
    ensures Elements(r) == Elements(values) + {value} && Ascending(r, BY_PRIORITY)
  {
    r := if value in values then values else values + [value];
    assert Elements(r) == Elements(values) + {value};
    PriorityIsStrictOrder(Elements(r));
    forall x, y | x in r && y in r ensures BY_PRIORITY(x, y) == StepsBefore(v)(x, y) {
      DecisionsCompareByPriority(v, x, y);
    }
    SortAgrees(r, BY_PRIORITY, StepsBefore(v));
    SortDistinctSorts(r, BY_PRIORITY);
    r := SortDistinct(r, StepsBefore(v));
  }

  // ----- the receipt ----------------------------------------------------------------------------

  predicate IsSafeDecision(x: ReceiptInput) {
    && (SafeToken(x.status) == "draft_only" || SafeToken(x.status) == "local_only")
    && !x.privateData && !x.networkLookup && !x.externalLookup && !x.paymentOrFee && !x.actionExecuted
  }

  function ReceiptReasons(v: seq<string>, x: ReceiptInput, safe: bool): set<Reason>
    requires IsVocabulary(v)
  {
    FilteredReasons(v, x.reasonCodes)
    + When(!safe || SafeDecision(v, x.decision) == DraftOnlyNotExecuted, UnknownOrUnclearIntent)
    + {DraftOnlyReason}
  }

  function ReceiptSteps(v: seq<string>, x: ReceiptInput): set<Decision>
    requires IsVocabulary(v)
  {
    FilteredSteps(v, x.nextSteps) + {DraftOnlyNotExecuted, CreateReceiptOnly}
  }

  function Fill(v: seq<string>, x: ReceiptInput, safe: bool, codes: seq<Reason>, steps: seq<Decision>): ClearingDecision
    requires IsVocabulary(v)
  {
    var d := if safe then SafeDecision(v, x.decision) else DraftOnlyNotExecuted;
    var allowed := safe && d == AcceptWithLimits && x.actionAllowed && !x.actionBlocked;
    ClearingDecision(
      d, allowed, !allowed, d == RequireHumanApproval || x.approvalRequired, x.evidenceRequired,
      x.identityRequired, x.intentRequired, x.spendLimit, ReadCaution(SafeToken(x.caution)), SafeCount(x.count),
      codes, steps, SafeTimestamp(x.createdAt))
  }

  ghost function Receipt(v: seq<string>, x: ReceiptInput): ClearingDecision
    requires IsVocabulary(v)
  {
    var safe := IsSafeDecision(x);
    PlaceIsStrictOrder(ReceiptReasons(v, x, safe));
    PriorityIsStrictOrder(ReceiptSteps(v, x));
    Fill(v, x, safe, InOrder(ReceiptReasons(v, x, safe), BY_PLACE), InOrder(ReceiptSteps(v, x), BY_PRIORITY))
  }

  method CreateAgentClearingReceipt(v: seq<string>, x: ReceiptInput) returns (receipt: ClearingDecision)
    requires IsVocabulary(v)
    ensures receipt == Receipt(v, x)
  {
    var safe := IsSafeDecision(x);
    var codes := FilterReasonCodes(v, x.reasonCodes);
    var steps := FilterNextSteps(v, x.nextSteps);
    if !safe || SafeDecision(v, x.decision) == DraftOnlyNotExecuted {
      codes := AddSortedReason(v, codes, UnknownOrUnclearIntent);
    }
    codes := AddSortedReason(v, codes, DraftOnlyReason);
    steps := AddSortedStep(v, steps, DraftOnlyNotExecuted);
    assert CreateReceiptOnly in steps <==> CreateReceiptOnly in Elements(steps);
    if CreateReceiptOnly !in steps {
      steps := AddSortedStep(v, steps, CreateReceiptOnly);
    }
    assert Elements(codes) == ReceiptReasons(v, x, safe);
    assert Elements(steps) == ReceiptSteps(v, x);
    PlaceIsStrictOrder(Elements(codes));
    PriorityIsStrictOrder(Elements(steps));
    AscendingUnique(codes, InOrder(ReceiptReasons(v, x, safe), BY_PLACE), BY_PLACE);
    AscendingUnique(steps, InOrder(ReceiptSteps(v, x), BY_PRIORITY), BY_PRIORITY);
    receipt := Fill(v, x, safe, codes, steps);
  }

  /** A receipt allows an action only if its input was safe, named acceptance, and said so twice. */
  lemma ReceiptAllowsExactly(v: seq<string>, x: ReceiptInput)
    requires IsVocabulary(v)
    ensures Receipt(v, x).actionAllowed <==>
      IsSafeDecision(x) && SafeToken(x.decision) == DecisionText(v, AcceptWithLimits)
      && x.actionAllowed && !x.actionBlocked
  {
    var token := SafeToken(x.decision);
    if token == DecisionText(v, AcceptWithLimits) {
      assert IsDecisionText(v, token);
      DecisionTextsDiffer(v, AcceptWithLimits, DecisionOf(v, token));
    }
  }
}
