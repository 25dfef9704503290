/**
 Evidence bundles: ids become references, enumerated texts are checked, flags are reconciled with the decision and
 the next steps are completed and sorted.
 */
module EvidenceBundle {
  import opened Primitives
  import opened OrderedText
  import opened Tokens
  import opened KnownTexts
  import opened References

  /** The single ids a bundle links to. */
  datatype Links = Links(
    pipeline: Option<string>, batch: Option<string>, request: Option<string>, decision: Option<string>,
    receipt: Option<string>, verification: Option<string>, query: Option<string>, report: Option<string>)

  datatype BundleInput = BundleInput(
    bundleType: string, sourceId: string, links: Links, signalIds: Option<seq<Option<string>>>,
    ledgerIds: Option<seq<Option<string>>>, feeIds: Option<seq<Option<string>>>, decision: Option<string>,
    caution: Option<string>, approvalRequired: Option<bool>, actionAllowed: Option<bool>, actionBlocked: Option<bool>,
    receiptStatus: Option<string>, verificationResult: Option<string>, evidenceStatus: Option<string>,
    nextSteps: Option<seq<string>>, createdAt: Stamp)

  /** What the summary sentence of a bundle names, in its order. */
  datatype EvidenceSummary = EvidenceSummary(
    bundleType: string, evidenceStatus: string, decision: string, caution: string, signals: nat, records: nat,
    fees: nat, receiptPresent: bool, verificationPresent: bool)

  datatype Bundle = Bundle(
    bundleId: string, bundleType: string, sourceId: string, links: Links, signalIds: seq<string>,
    ledgerIds: seq<string>, feeIds: seq<string>, decision: string, caution: string, approvalRequired: bool,
    actionAllowed: bool, actionBlocked: bool, receiptStatus: string, verificationResult: string,
    verificationPassed: bool, verificationFailed: bool, feeCount: nat, signalCount: nat, evidenceStatus: string,
    summary: EvidenceSummary, nextSteps: seq<string>, createdAt: Stamp)

  /** The single texts a bundle distinguishes. */
  datatype Words = Words(
    unknownBundle: string, unknown: string, notPresent: string, keepLocal: string, doNotExecute: string,
    humanApproval: string, blocked: string, refused: string, valid: string, draft: string, local: string,
    invalid: string)

  /** The texts a bundle knows. */
  datatype Lists = Lists(
    types: set<string>, decisions: set<string>, cautions: set<string>, verifications: set<string>,
    statuses: set<string>, steps: set<string>, words: Words)

  /** What is needed of the texts: known ones are their own tokens, fallbacks are known, the receipt statuses are
      tokens and differ, and the two fixed steps are in alphabetical order. */
  predicate AreKnown(l: Lists) {
    && IsKnownSet(l.types, l.words.unknownBundle)
    && IsKnownSet(l.decisions, l.words.unknown)
    && IsKnownSet(l.cautions, l.words.unknown)
    && IsKnownSet(l.verifications, l.words.notPresent)
    && IsKnownSet(l.statuses, l.words.unknown)
    && AreTokens(l.steps) && Always(l.words) <= l.steps
    && LexLess(l.words.doNotExecute, l.words.keepLocal)
    && AreTokens({l.words.draft, l.words.local, l.words.invalid})
    && l.words.invalid != l.words.draft && l.words.invalid != l.words.local
  }

  function Always(w: Words): set<string> {
    {w.keepLocal, w.doNotExecute}
  }

  function OrEmpty(text: Option<string>): string {
    if text.Some? then text.value else ""
  }

  // ----- references -----------------------------------------------------------------------------

  function OptionalReference(sha: string -> string, kind: string, id: Option<string>): Option<string>
    requires IsHash(sha)
  {
    if IsEntry(id) then Some(SafeReference(sha, kind, id.value)) else None
  }

  function SafeLinks(sha: string -> string, k: Links): Links
    requires IsHash(sha)
  {
    Links(
      OptionalReference(sha, "pipeline", k.pipeline), OptionalReference(sha, "batch", k.batch),
      OptionalReference(sha, "clearing_request", k.request), OptionalReference(sha, "clearing_decision", k.decision),
      OptionalReference(sha, "clearing_receipt", k.receipt), OptionalReference(sha, "verification", k.verification),
      OptionalReference(sha, "refusalgraph_query", k.query), OptionalReference(sha, "report", k.report))
  }

  function IdList(sha: string -> string, kind: string, ids: Option<seq<Option<string>>>): seq<string>
    requires IsHash(sha)
  {
    if ids.Some? then SafeReferenceList(sha, kind, ids.value) else []
  }

  lemma OptionalReferenceSettles(sha: string -> string, kind: string, id: Option<string>)
    requires IsHash(sha)
    ensures OptionalReference(sha, kind, OptionalReference(sha, kind, id)) == OptionalReference(sha, kind, id)
  {
    if IsEntry(id) {
      SafeReferenceSettles(sha, kind, id.value);
      ReferenceNotBlank(kind, SafeReference(sha, kind, id.value));
    }
  }

  lemma LinksSettle(sha: string -> string, k: Links)
    requires IsHash(sha)
    ensures SafeLinks(sha, SafeLinks(sha, k)) == SafeLinks(sha, k)
  {
    OptionalReferenceSettles(sha, "pipeline", k.pipeline);
    OptionalReferenceSettles(sha, "batch", k.batch);
    OptionalReferenceSettles(sha, "clearing_request", k.request);
    OptionalReferenceSettles(sha, "clearing_decision", k.decision);
    OptionalReferenceSettles(sha, "clearing_receipt", k.receipt);
    OptionalReferenceSettles(sha, "verification", k.verification);
    OptionalReferenceSettles(sha, "refusalgraph_query", k.query);
    OptionalReferenceSettles(sha, "report", k.report);
  }

  lemma IdListSettles(sha: string -> string, kind: string, ids: Option<seq<Option<string>>>)
    requires IsHash(sha)
    ensures IdList(sha, kind, Some(Entries(IdList(sha, kind, ids)))) == IdList(sha, kind, ids)
  {
    if ids.Some? {
      ListShape(sha, kind, ids.value);
    }
    ListSettlesExactly(sha, kind, IdList(sha, kind, ids));
  }

  // ----- next steps -----------------------------------------------------------------------------

  /** The known steps among the tokens of the values, in the order in which they come. */
  function KnownSteps(known: set<string>, values: seq<string>): seq<string> {
    if values == [] then []
    else
      var front, step := KnownSteps(known, values[..|values| - 1]), Token(values[|values| - 1], LIMIT);
      if step in known && step !in front then front + [step] else front
  }

  /** The known steps together with those that are always listed, sorted. */
  ghost function Completed(known: set<string>, always: set<string>, values: seq<string>): seq<string> {
    LexIsStrictOrder(Elements(KnownSteps(known, values)) + always);
    InOrder(Elements(KnownSteps(known, values)) + always, LEX)
  }

  ghost function SafeNextSteps(w: Words, known: set<string>, values: Option<seq<string>>): seq<string> {
    if values.Some? then Completed(known, Always(w), values.value) else [w.doNotExecute, w.keepLocal]
  }

  method NextSteps(w: Words, known: set<string>, values: Option<seq<string>>) returns (output: seq<string>)
    ensures output == SafeNextSteps(w, known, values)
  {
    if values.None? {
      return [w.doNotExecute, w.keepLocal];
    }
    output := KnownSteps(known, values.value);
    if w.keepLocal !in output {
      output := output + [w.keepLocal];
    }
    if w.doNotExecute !in output {
      output := output + [w.doNotExecute];
    }
    assert Elements(output) == Elements(KnownSteps(known, values.value)) + Always(w);
    LexIsStrictOrder(Elements(output));
    SortDistinctIsInOrder(output, LEX);
    output := SortDistinct(output, LEX);
  }

  lemma {:induction false} KnownStepsOfKnown(known: set<string>, values: seq<string>)
    requires AreTokens(known) && forall x :: x in values ==> x in known
    ensures Elements(KnownSteps(known, values)) == Elements(values)
  {
    if values != [] {
      var front, last := values[..|values| - 1], values[|values| - 1];
      assert forall x :: x in values <==> x in front || x == last;
      KnownStepsOfKnown(known, front);
      TokenFixedPoint(last, LIMIT);
      var before, after := KnownSteps(known, front), KnownSteps(known, values);
      assert last in before <==> last in Elements(before);
      assert forall x :: x in after <==> x in Elements(before) || x == last;
    }
  }

  lemma {:induction false} KnownStepsAreKnown(known: set<string>, values: seq<string>)
    ensures forall x :: x in KnownSteps(known, values) ==> x in known
  {
    if values != [] {
      KnownStepsAreKnown(known, values[..|values| - 1]);
    }
  }

  /** A completed list of known steps is left alone when it is completed again. */
  lemma CompletedSettles(known: set<string>, always: set<string>, s: seq<string>)
    requires AreTokens(known) && always <= Elements(s) <= known && Ascending(s, LEX)
    ensures Completed(known, always, s) == s
  {
    assert forall x :: x in s <==> x in Elements(s);
    KnownStepsOfKnown(known, s);
    assert Elements(KnownSteps(known, s)) + always == Elements(s);
    LexIsStrictOrder(Elements(s));
    AscendingUnique(Completed(known, always, s), s, LEX);
  }

  /** Next steps are sorted, known, and always hold the two local ones. */
  lemma NextStepsShape(w: Words, known: set<string>, values: Option<seq<string>>)
    requires Always(w) <= known && LexLess(w.doNotExecute, w.keepLocal)
    ensures var s := SafeNextSteps(w, known, values); Ascending(s, LEX) && Always(w) <= Elements(s) <= known
  {
    if values.Some? {
      KnownStepsAreKnown(known, values.value);
      LexIsStrictOrder(Elements(KnownSteps(known, values.value)) + Always(w));
    }
  }

  lemma NextStepsSettle(w: Words, known: set<string>, values: Option<seq<string>>)
    requires AreTokens(known) && Always(w) <= known && LexLess(w.doNotExecute, w.keepLocal)
    ensures SafeNextSteps(w, known, Some(SafeNextSteps(w, known, values))) == SafeNextSteps(w, known, values)
  {
    NextStepsShape(w, known, values);
    CompletedSettles(known, Always(w), SafeNextSteps(w, known, values));
  }

  // ----- the bundle -----------------------------------------------------------------------------

  predicate BlockingDecision(l: Lists, decision: string) {
    decision == l.words.blocked || decision == l.words.refused
  }

  function SafeReceiptStatus(l: Lists, status: Option<string>, receiptPresent: bool): string {
    if !receiptPresent then l.words.notPresent
    else
      var token := Token(OrEmpty(status), LIMIT);
      if token == l.words.draft || token == l.words.local then token else l.words.invalid
  }

  function BundleId(sha: string -> string, sourceId: string): string
    requires IsHash(sha)
  {
    "clearing_evidence_bundle_" + sha(sourceId)[..24]
  }

  function SafeTimestamp(l: Lists, s: Stamp): Stamp {
    match s.Parse()
    case Some(ms) => Iso(ms)
    case None => Unreadable(l.words.unknown)
  }

  function Assemble(sha: string -> string, l: Lists, x: BundleInput, decision: string, verification: string,
                    steps: seq<string>): Bundle
    requires IsHash(sha)
  {
    var links := SafeLinks(sha, x.links);
    var signalIds, feeIds := IdList(sha, "signal", x.signalIds), IdList(sha, "fee_event", x.feeIds);
    var ledgerIds := IdList(sha, "ledger_record", x.ledgerIds);
    var bundleType := SafeEnum(x.bundleType, l.types, l.words.unknownBundle);
    var caution := SafeEnum(OrEmpty(x.caution), l.cautions, l.words.unknown);
    var status := SafeEnum(OrEmpty(x.evidenceStatus), l.statuses, l.words.unknown);
    var blocked := x.actionBlocked == Some(true) || BlockingDecision(l, decision);
    Bundle(
      BundleId(sha, x.sourceId), bundleType, SafeReference(sha, "source", x.sourceId), links, signalIds, ledgerIds,
      feeIds, decision, caution,
      x.approvalRequired == Some(true) || decision == l.words.humanApproval,
      x.actionAllowed == Some(true) && !blocked, blocked,
      SafeReceiptStatus(l, x.receiptStatus, links.receipt.Some?), verification, verification == l.words.valid,
      verification != l.words.valid && verification != l.words.notPresent, |feeIds|, |signalIds|,
      status,
      EvidenceSummary(
        bundleType, status, decision, caution, |signalIds|, |ledgerIds|, |feeIds|, links.receipt.Some?,
        links.verification.Some?),
      steps, SafeTimestamp(l, x.createdAt))
  }

  ghost function BundleOf(sha: string -> string, l: Lists, x: BundleInput): Bundle
    requires IsHash(sha)
  {
    Assemble(
      sha, l, x, SafeEnum(OrEmpty(x.decision), l.decisions, l.words.unknown),
      SafeEnum(OrEmpty(x.verificationResult), l.verifications, l.words.notPresent),
      SafeNextSteps(l.words, l.steps, x.nextSteps))
  }

  method CreateClearingEvidenceBundle(sha: string -> string, l: Lists, x: BundleInput) returns (b: Bundle)
    requires IsHash(sha)
    ensures b == BundleOf(sha, l, x)
  {
    var decision := SafeEnum(OrEmpty(x.decision), l.decisions, l.words.unknown);
    var verification := SafeEnum(OrEmpty(x.verificationResult), l.verifications, l.words.notPresent);
    var steps := NextSteps(l.words, l.steps, x.nextSteps);
    b := Assemble(sha, l, x, decision, verification, steps);
  }

  // ----- bundling again -------------------------------------------------------------------------

  /** A bundle handed in as the input of the next one. */
  function AsInput(b: Bundle): BundleInput {
    BundleInput(
      b.bundleType, b.sourceId, b.links, Some(Entries(b.signalIds)), Some(Entries(b.ledgerIds)),
      Some(Entries(b.feeIds)), Some(b.decision), Some(b.caution), Some(b.approvalRequired), Some(b.actionAllowed),
      Some(b.actionBlocked), Some(b.receiptStatus), Some(b.verificationResult), Some(b.evidenceStatus),
      Some(b.nextSteps), b.createdAt)
  }

  /** Every field that is read again says what it will be read as, and the derived fields agree with it. */
  ghost predicate Settled(sha: string -> string, l: Lists, b: Bundle)
    requires IsHash(sha)
  {
    && SettledTexts(l, b)
    && SettledIds(sha, b)
    && SettledFlags(l, b)
    && SafeReceiptStatus(l, Some(b.receiptStatus), b.links.receipt.Some?) == b.receiptStatus
    && SafeTimestamp(l, b.createdAt) == b.createdAt
  }

  ghost predicate SettledTexts(l: Lists, b: Bundle) {
    && b.bundleType in l.types && b.decision in l.decisions && b.caution in l.cautions
    && b.verificationResult in l.verifications && b.evidenceStatus in l.statuses
    && SafeNextSteps(l.words, l.steps, Some(b.nextSteps)) == b.nextSteps
  }

  ghost predicate SettledIds(sha: string -> string, b: Bundle)
    requires IsHash(sha)
  {
    && IsReference("source", b.sourceId)
    && SafeLinks(sha, b.links) == b.links
    && IdList(sha, "signal", Some(Entries(b.signalIds))) == b.signalIds
    && IdList(sha, "ledger_record", Some(Entries(b.ledgerIds))) == b.ledgerIds
    && IdList(sha, "fee_event", Some(Entries(b.feeIds))) == b.feeIds
  }

  /** The summary that goes with the other fields of a bundle. */
  function SummaryOf(b: Bundle): EvidenceSummary {
    EvidenceSummary(
      b.bundleType, b.evidenceStatus, b.decision, b.caution, |b.signalIds|, |b.ledgerIds|, |b.feeIds|,
      b.links.receipt.Some?, b.links.verification.Some?)
  }

  ghost predicate SettledFlags(l: Lists, b: Bundle) {
    && (b.decision == l.words.humanApproval ==> b.approvalRequired)
    && (BlockingDecision(l, b.decision) ==> b.actionBlocked)
    && !(b.actionAllowed && b.actionBlocked)
    && (b.verificationPassed <==> b.verificationResult == l.words.valid)
    && (b.verificationFailed <==> b.verificationResult != l.words.valid && b.verificationResult != l.words.notPresent)
    && b.feeCount == |b.feeIds| && b.signalCount == |b.signalIds|
    && b.summary == SummaryOf(b)
  }

  lemma TextSettles(text: string, known: set<string>, fallback: string)
    requires IsKnownSet(known, fallback)
    ensures SafeEnum(text, known, fallback) in known
  {
    EnumReadsBack(text, known, fallback);
  }

  lemma StatusSettles(l: Lists, status: Option<string>, present: bool)
    requires AreTokens({l.words.draft, l.words.local, l.words.invalid})
    requires l.words.invalid != l.words.draft && l.words.invalid != l.words.local
    ensures var s := SafeReceiptStatus(l, status, present); SafeReceiptStatus(l, Some(s), present) == s
  {
    var s := SafeReceiptStatus(l, status, present);
    if present {
      assert s in {l.words.draft, l.words.local, l.words.invalid};
      TokenFixedPoint(s, LIMIT);
    }
  }

  lemma BundleTexts(sha: string -> string, l: Lists, x: BundleInput)
    requires IsHash(sha) && AreKnown(l)
    ensures SettledTexts(l, BundleOf(sha, l, x))
  {
    TextSettles(x.bundleType, l.types, l.words.unknownBundle);
    TextSettles(OrEmpty(x.decision), l.decisions, l.words.unknown);
    TextSettles(OrEmpty(x.caution), l.cautions, l.words.unknown);
    TextSettles(OrEmpty(x.verificationResult), l.verifications, l.words.notPresent);
    TextSettles(OrEmpty(x.evidenceStatus), l.statuses, l.words.unknown);
    NextStepsSettle(l.words, l.steps, x.nextSteps);
  }

  lemma BundleIds(sha: string -> string, l: Lists, x: BundleInput)
    requires IsHash(sha)
    ensures SettledIds(sha, BundleOf(sha, l, x))
  {
    SafeReferenceSettles(sha, "source", x.sourceId);
    LinksSettle(sha, x.links);
    IdListSettles(sha, "signal", x.signalIds);
    IdListSettles(sha, "ledger_record", x.ledgerIds);
    IdListSettles(sha, "fee_event", x.feeIds);
  }

  lemma BundleFlags(sha: string -> string, l: Lists, x: BundleInput)
    requires IsHash(sha)
    ensures SettledFlags(l, BundleOf(sha, l, x))
  {
  }

  lemma TimeSettles(l: Lists, s: Stamp)
    ensures SafeTimestamp(l, SafeTimestamp(l, s)) == SafeTimestamp(l, s)
  {
  }

  lemma StatusOfKnown(l: Lists, status: Option<string>, present: bool)
    requires AreKnown(l)
    ensures var s := SafeReceiptStatus(l, status, present); SafeReceiptStatus(l, Some(s), present) == s
  {
    StatusSettles(l, status, present);
  }

  lemma BundleStatus(sha: string -> string, l: Lists, x: BundleInput)
    requires IsHash(sha) && AreKnown(l)
    ensures var b := BundleOf(sha, l, x);
      && SafeReceiptStatus(l, Some(b.receiptStatus), b.links.receipt.Some?) == b.receiptStatus
      && SafeTimestamp(l, b.createdAt) == b.createdAt
  {
    StatusOfKnown(l, x.receiptStatus, SafeLinks(sha, x.links).receipt.Some?);
    TimeSettles(l, x.createdAt);
  }

  /** Every bundle is settled; in particular no bundle is both allowed and blocked. */
  lemma BundlesAreSettled(sha: string -> string, l: Lists, x: BundleInput)
    requires IsHash(sha) && AreKnown(l)
    ensures Settled(sha, l, BundleOf(sha, l, x))
  {
    BundleTexts(sha, l, x);
    BundleIds(sha, l, x);
    BundleFlags(sha, l, x);
    BundleStatus(sha, l, x);
  }

  /** Bundling a bundle changes nothing but the bundle id exactly when the bundle is settled. */
  lemma RebundlingFixesSettled(sha: string -> string, l: Lists, b: Bundle)
    requires IsHash(sha) && AreKnown(l)
    ensures BundleOf(sha, l, AsInput(b)).(bundleId := b.bundleId) == b <==> Settled(sha, l, b)
  {
    EnumReadsBack(b.bundleType, l.types, l.words.unknownBundle);
    EnumReadsBack(b.decision, l.decisions, l.words.unknown);
    EnumReadsBack(b.caution, l.cautions, l.words.unknown);
    EnumReadsBack(b.verificationResult, l.verifications, l.words.notPresent);
    EnumReadsBack(b.evidenceStatus, l.statuses, l.words.unknown);
    SafeReferenceSettles(sha, "source", b.sourceId);
    BundlesAreSettled(sha, l, AsInput(b));
  }

  /** Bundling a bundle is a fixed point on every field but the id, and on the id as well from the second time on. */
  lemma RebundlingIsFixed(sha: string -> string, l: Lists, x: BundleInput)
    requires IsHash(sha) && AreKnown(l)
    ensures var b := BundleOf(sha, l, x);
      var again := BundleOf(sha, l, AsInput(b));
      again == b.(bundleId := again.bundleId) && BundleOf(sha, l, AsInput(again)) == again
  {
    var b := BundleOf(sha, l, x);
    var again := BundleOf(sha, l, AsInput(b));
    BundlesAreSettled(sha, l, x);
    RebundlingFixesSettled(sha, l, b);
    BundlesAreSettled(sha, l, AsInput(b));
    RebundlingFixesSettled(sha, l, again);
  }

  /** The exact flags: a bundle repeats an allowance unless it is blocked, by its flag or by its decision. */
  lemma BundleAllowsExactly(sha: string -> string, l: Lists, x: BundleInput)
    requires IsHash(sha)
    ensures var b := BundleOf(sha, l, x);
      && b.actionAllowed ==
         (x.actionAllowed == Some(true) && x.actionBlocked != Some(true) && !BlockingDecision(l, b.decision))
      && !(b.actionAllowed && b.actionBlocked)
      && !(b.verificationPassed && b.verificationFailed)
      && (b.verificationPassed || b.verificationFailed || b.verificationResult == l.words.notPresent)
  {
  }
}
