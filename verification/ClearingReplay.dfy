/**
 Comparison of a recorded clearing artifact with its replay.  Both snapshots are normalised; an incomplete one has
 no normal form.  The comparison is shown to be equality of normal forms.
 */
module ClearingReplay {
  import opened Primitives
  import opened KnownTexts
  import opened References

  datatype SafetyField =
    | PrivateDataIncluded | NetworkLookupPerformed | ExternalLookupPerformed | TrackingTriggered | AnalyticsTriggered
    | PaymentOrFeeTriggered | BillingTriggered | SettlementTriggered | MachineToMachineFeeTriggered | ActionExecuted
    | Published

  function SafetyFields(): seq<SafetyField> {
    [PrivateDataIncluded, NetworkLookupPerformed, ExternalLookupPerformed, TrackingTriggered, AnalyticsTriggered,
     PaymentOrFeeTriggered, BillingTriggered, SettlementTriggered, MachineToMachineFeeTriggered, ActionExecuted,
     Published]
  }

  /** A snapshot as it arrives; a field that is missing or of the wrong type is `None`. */
  datatype Snapshot = Snapshot(
    decision: Option<string>, caution: Option<string>, approvalRequired: Option<bool>, actionAllowed: Option<bool>,
    actionBlocked: Option<bool>, receiptId: Option<string>, verification: Option<string>,
    signalIds: Option<seq<Option<string>>>, ledgerIds: Option<seq<Option<string>>>, feeIds: Option<seq<Option<string>>>,
    safety: Option<map<SafetyField, bool>>)

  datatype Normal = Normal(
    decision: string, caution: string, approvalRequired: bool, actionAllowed: bool, actionBlocked: bool,
    receiptId: string, verification: string, signalIds: seq<string>, ledgerIds: seq<string>, feeIds: seq<string>,
    safetyKey: seq<bool>)

  /** The texts known for decisions, caution levels and verification results. */
  datatype Lists = Lists(decisions: set<string>, cautions: set<string>, verifications: set<string>)

  const UNKNOWN := "unknown"

  predicate AreKnown(l: Lists) {
    IsKnownSet(l.decisions, UNKNOWN) && IsKnownSet(l.cautions, UNKNOWN) && IsKnownSet(l.verifications, UNKNOWN)
  }

  // ----- normalisation --------------------------------------------------------------------------

  predicate HasFields(s: Snapshot) {
    s.decision.Some? && s.caution.Some? && s.approvalRequired.Some? && s.actionAllowed.Some? && s.actionBlocked.Some?
    && s.receiptId.Some? && s.verification.Some? && s.signalIds.Some? && s.ledgerIds.Some? && s.feeIds.Some?
  }

  predicate HasSafety(safety: Option<map<SafetyField, bool>>) {
    safety.Some? && forall f :: f in SafetyFields() ==> f in safety.value
  }

  predicate IsComplete(s: Snapshot) {
    HasFields(s) && HasSafety(s.safety)
  }

  function SafetyKey(safety: map<SafetyField, bool>): (key: seq<bool>)
    requires forall f :: f in SafetyFields() ==> f in safety
    ensures |key| == |SafetyFields()|
  {
    seq(|SafetyFields()|, i requires 0 <= i < |SafetyFields()| && forall f :: f in SafetyFields() ==> f in safety =>
      safety[SafetyFields()[i]])
  }

  /** Stops at the first field that is not there. */
  method NormalizeSafety(safety: Option<map<SafetyField, bool>>) returns (values: Option<seq<bool>>)
    ensures values == if HasSafety(safety) then Some(SafetyKey(safety.value)) else None
  {
    if safety.None? {
      return None;
    }
    var fields, key := SafetyFields(), [];
    for i := 0 to |fields|
      invariant |key| == i
      invariant forall k :: 0 <= k < i ==> fields[k] in safety.value && key[k] == safety.value[fields[k]]
    {
      if fields[i] !in safety.value {
        assert fields[i] in SafetyFields();
        return None;
      }
      key := key + [safety.value[fields[i]]];
    }
    assert key == SafetyKey(safety.value);
    values := Some(key);
  }

  function NormalForm(sha: string -> string, l: Lists, s: Snapshot): Normal
    requires IsHash(sha) && IsComplete(s)
  {
    Normal(
      SafeEnum(s.decision.value, l.decisions, UNKNOWN), SafeEnum(s.caution.value, l.cautions, UNKNOWN),
      s.approvalRequired.value, s.actionAllowed.value, s.actionBlocked.value,
      SafeReference(sha, "clearing_receipt", s.receiptId.value),
      SafeEnum(s.verification.value, l.verifications, UNKNOWN), SafeReferenceList(sha, "signal", s.signalIds.value),
      SafeReferenceList(sha, "ledger_record", s.ledgerIds.value), SafeReferenceList(sha, "fee_event", s.feeIds.value),
      SafetyKey(s.safety.value))
  }

  /** An absent snapshot is `None` as well. */
  function Normalize(sha: string -> string, l: Lists, s: Option<Snapshot>): Option<Normal>
    requires IsHash(sha)
  {
    if s.Some? && IsComplete(s.value) then Some(NormalForm(sha, l, s.value)) else None
  }

  method NormalizeSnapshot(sha: string -> string, l: Lists, s: Option<Snapshot>) returns (n: Option<Normal>)
    requires IsHash(sha)
    ensures n == Normalize(sha, l, s)
  {
    if s.None? || !HasFields(s.value) {
      return None;
    }
    var safety := NormalizeSafety(s.value.safety);
    if safety.None? {
      return None;
    }
    n := Some(NormalForm(sha, l, s.value));
  }

  // ----- comparison -----------------------------------------------------------------------------

  datatype Mismatch =
    | DecisionMismatch | CautionMismatch | ApprovalMismatch | AllowedMismatch | BlockedMismatch | ReceiptMismatch
    | VerificationMismatch | SignalsMismatch | LedgerMismatch | FeesMismatch | SafetyMismatch
    | OriginalIncomplete | ReplayedIncomplete

  datatype Status = Consistent | Mismatched | Incomplete

  /** The outcome, with the single match flags the report shows. */
  datatype Comparison = Comparison(
    receiptMatch: bool, verificationMatch: bool, refusalgraphMatch: bool, ledgerMatch: bool, feeMatch: bool,
    safetyMatch: bool, consistent: bool, reasons: seq<Mismatch>, status: Status)

  predicate Differs(a: Normal, b: Normal, m: Mismatch) {
    match m
    case DecisionMismatch => a.decision != b.decision
    case CautionMismatch => a.caution != b.caution
    case ApprovalMismatch => a.approvalRequired != b.approvalRequired
    case AllowedMismatch => a.actionAllowed != b.actionAllowed
    case BlockedMismatch => a.actionBlocked != b.actionBlocked
    case ReceiptMismatch => a.receiptId != b.receiptId
    case VerificationMismatch => a.verification != b.verification
    case SignalsMismatch => a.signalIds != b.signalIds
    case LedgerMismatch => a.ledgerIds != b.ledgerIds
    case FeesMismatch => a.feeIds != b.feeIds
    case SafetyMismatch => a.safetyKey != b.safetyKey
    case OriginalIncomplete => false
    case ReplayedIncomplete => false
  }

  const MISMATCHES := 11

  function MismatchAt(k: nat): Mismatch
    requires k < MISMATCHES
  {
    match k
    case 0 => DecisionMismatch
    case 1 => CautionMismatch
    case 2 => ApprovalMismatch
    case 3 => AllowedMismatch
    case 4 => BlockedMismatch
    case 5 => ReceiptMismatch
    case 6 => VerificationMismatch
    case 7 => SignalsMismatch
    case 8 => LedgerMismatch
    case 9 => FeesMismatch
    case _ => SafetyMismatch
  }

  /** The differences among the first `k` components, in order. */
  function Differences(a: Normal, b: Normal, k: nat): seq<Mismatch>
    requires k <= MISMATCHES
  {
    if k == 0 then []
    else if Differs(a, b, MismatchAt(k - 1)) then Differences(a, b, k - 1) + [MismatchAt(k - 1)]
    else Differences(a, b, k - 1)
  }

  function Compare(a: Option<Normal>, b: Option<Normal>): Comparison {
    if a.Some? && b.Some? then
      var reasons := Differences(a.value, b.value, MISMATCHES);
      Comparison(
        a.value.receiptId == b.value.receiptId, a.value.verification == b.value.verification,
        a.value.signalIds == b.value.signalIds, a.value.ledgerIds == b.value.ledgerIds,
        a.value.feeIds == b.value.feeIds, a.value.safetyKey == b.value.safetyKey,
        reasons == [], reasons, if reasons == [] then Consistent else Mismatched)
    else
      Comparison(false, false, false, false, false, false, false, IncompleteReasons(a.None?, b.None?), Incomplete)
  }

  function IncompleteReasons(original: bool, replayed: bool): seq<Mismatch> {
    (if original then [OriginalIncomplete] else []) + (if replayed then [ReplayedIncomplete] else [])
  }

  method PushNext(a: Normal, b: Normal, reasons: seq<Mismatch>, k: nat, m: Mismatch, matches: bool)
    returns (r: seq<Mismatch>)
    requires k < MISMATCHES && m == MismatchAt(k) && matches == !Differs(a, b, m) && reasons == Differences(a, b, k)
    ensures r == Differences(a, b, k + 1)
  {
    r := reasons;
    if !matches {
      r := r + [m];
    }
  }

  /** The first half: the values of the decision. */
  method CompareValues(a: Normal, b: Normal) returns (reasons: seq<Mismatch>)
    ensures reasons == Differences(a, b, 5)
  {
    reasons := PushNext(a, b, [], 0, DecisionMismatch, a.decision == b.decision);
    reasons := PushNext(a, b, reasons, 1, CautionMismatch, a.caution == b.caution);
    reasons := PushNext(a, b, reasons, 2, ApprovalMismatch, a.approvalRequired == b.approvalRequired);
    reasons := PushNext(a, b, reasons, 3, AllowedMismatch, a.actionAllowed == b.actionAllowed);
    reasons := PushNext(a, b, reasons, 4, BlockedMismatch, a.actionBlocked == b.actionBlocked);
  }

  method CompareLists(a: Normal, b: Normal, before: seq<Mismatch>) returns (reasons: seq<Mismatch>)
    requires before == Differences(a, b, 7)
    ensures reasons == Differences(a, b, 10)
  {
    reasons := PushNext(a, b, before, 7, SignalsMismatch, a.signalIds == b.signalIds);
    reasons := PushNext(a, b, reasons, 8, LedgerMismatch, a.ledgerIds == b.ledgerIds);
    reasons := PushNext(a, b, reasons, 9, FeesMismatch, a.feeIds == b.feeIds);
  }

  method CompareClearingReplayArtifacts(sha: string -> string, l: Lists, original: Option<Snapshot>,
                                        replayed: Option<Snapshot>)
    returns (c: Comparison)
    requires IsHash(sha)
    ensures c == Compare(Normalize(sha, l, original), Normalize(sha, l, replayed))
  {
    var first := NormalizeSnapshot(sha, l, original);
    var second := NormalizeSnapshot(sha, l, replayed);
    c := CompareNormal(first, second);
  }

  method CompareNormal(first: Option<Normal>, second: Option<Normal>) returns (c: Comparison)
    ensures c == Compare(first, second)
  {
    if first.None? || second.None? {
      return Comparison(
        false, false, false, false, false, false, false, IncompleteReasons(first.None?, second.None?), Incomplete);
    }
    var a, b := first.value, second.value;
    var reasons := CompareValues(a, b);
    var receiptMatch := a.receiptId == b.receiptId;
    reasons := PushNext(a, b, reasons, 5, ReceiptMismatch, receiptMatch);
    var verificationMatch := a.verification == b.verification;
    reasons := PushNext(a, b, reasons, 6, VerificationMismatch, verificationMatch);
    reasons := CompareLists(a, b, reasons);
    var safetyMatch := a.safetyKey == b.safetyKey;
    reasons := PushNext(a, b, reasons, 10, SafetyMismatch, safetyMatch);
    c := Comparison(
      receiptMatch, verificationMatch, a.signalIds == b.signalIds, a.ledgerIds == b.ledgerIds, a.feeIds == b.feeIds,
      safetyMatch, reasons == [], reasons,
      if reasons == [] then Consistent else Mismatched);
  }

  // ----- comparison is equality of normal forms -------------------------------------------------

  lemma {:induction false} DifferencesFound(a: Normal, b: Normal, k: nat, j: nat)
    requires j < k <= MISMATCHES
    ensures MismatchAt(j) in Differences(a, b, k) <==> Differs(a, b, MismatchAt(j))
  {
    if j < k - 1 {
      DifferencesFound(a, b, k - 1, j);
    } else {
      LaterNotFound(a, b, k - 1, j);
    }
  }

  lemma {:induction false} LaterNotFound(a: Normal, b: Normal, k: nat, j: nat)
    requires k <= j < MISMATCHES
    ensures MismatchAt(j) !in Differences(a, b, k)
  {
    if k > 0 {
      LaterNotFound(a, b, k - 1, j);
    }
  }

  lemma {:induction false} NoDifferences(a: Normal, b: Normal, k: nat)
    requires k <= MISMATCHES
    ensures Differences(a, b, k) == [] <==> forall j :: 0 <= j < k ==> !Differs(a, b, MismatchAt(j))
  {
    if k > 0 {
      NoDifferences(a, b, k - 1);
      assert k - 1 < k;
    }
  }

  lemma EqualWithoutDifferences(a: Normal, b: Normal)
    ensures (forall j :: 0 <= j < MISMATCHES ==> !Differs(a, b, MismatchAt(j))) <==> a == b
  {
    if forall j :: 0 <= j < MISMATCHES ==> !Differs(a, b, MismatchAt(j)) {
      assert !Differs(a, b, MismatchAt(0)) && !Differs(a, b, MismatchAt(1)) && !Differs(a, b, MismatchAt(2));
      assert !Differs(a, b, MismatchAt(3)) && !Differs(a, b, MismatchAt(4)) && !Differs(a, b, MismatchAt(5));
      assert !Differs(a, b, MismatchAt(6)) && !Differs(a, b, MismatchAt(7)) && !Differs(a, b, MismatchAt(8));
      assert !Differs(a, b, MismatchAt(9)) && !Differs(a, b, MismatchAt(10));
    }
  }

  /** A replay is consistent exactly when both snapshots are complete and have the same normal form, and exactly
      when there is no mismatch to report. */
  lemma ConsistentIffNormalFormsEqual(a: Option<Normal>, b: Option<Normal>)
    ensures Compare(a, b).consistent <==> a.Some? && a == b
    ensures Compare(a, b).consistent <==> Compare(a, b).reasons == []
    ensures Compare(a, b).status.Incomplete? <==> a.None? || b.None?
    ensures Compare(a, b).status.Consistent? <==> Compare(a, b).consistent
  {
    if a.Some? && b.Some? {
      NoDifferences(a.value, b.value, MISMATCHES);
      EqualWithoutDifferences(a.value, b.value);
    }
  }

  /** Every mismatch is reported, and nothing else. */
  lemma MismatchesAreExact(a: Normal, b: Normal, j: nat)
    requires j < MISMATCHES
    ensures MismatchAt(j) in Compare(Some(a), Some(b)).reasons <==> Differs(a, b, MismatchAt(j))
  {
    DifferencesFound(a, b, MISMATCHES, j);
  }

  ghost predicate ConsistentReplay(sha: string -> string, l: Lists, a: Option<Snapshot>, b: Option<Snapshot>)
    requires IsHash(sha)
  {
    Compare(Normalize(sha, l, a), Normalize(sha, l, b)).consistent
  }

  /** On complete snapshots, being consistent is an equivalence; an incomplete one is consistent with nothing. */
  lemma ConsistencyIsEquivalence(sha: string -> string, l: Lists, a: Option<Snapshot>, b: Option<Snapshot>,
                                 c: Option<Snapshot>)
    requires IsHash(sha)
    ensures ConsistentReplay(sha, l, a, a) <==> a.Some? && IsComplete(a.value)
    ensures ConsistentReplay(sha, l, a, b) ==> ConsistentReplay(sha, l, b, a)
    ensures ConsistentReplay(sha, l, a, b) && ConsistentReplay(sha, l, b, c) ==> ConsistentReplay(sha, l, a, c)
    ensures ConsistentReplay(sha, l, a, b) ==>
      a.Some? && IsComplete(a.value) && b.Some? && IsComplete(b.value)
  {
    var x, y, z := Normalize(sha, l, a), Normalize(sha, l, b), Normalize(sha, l, c);
    ConsistentIffNormalFormsEqual(x, x);
    ConsistentIffNormalFormsEqual(x, y);
    ConsistentIffNormalFormsEqual(y, x);
    ConsistentIffNormalFormsEqual(y, z);
    ConsistentIffNormalFormsEqual(x, z);
  }

  // ----- what the comparison does not see -------------------------------------------------------

  /** The two lists stand for the same references: reordering, repeating, blank entries and pseudonyms may differ. */
  ghost predicate SameIds(sha: string -> string, kind: string, a: Option<seq<Option<string>>>,
                          b: Option<seq<Option<string>>>)
    requires IsHash(sha)
  {
    (a.Some? <==> b.Some?) && (a.Some? ==> ReferenceSet(sha, kind, a.value) == ReferenceSet(sha, kind, b.value))
  }

  /** Snapshots that differ only in how their id lists are written have the same normal form. */
  lemma IdListsByReferencesOnly(sha: string -> string, l: Lists, a: Snapshot, b: Snapshot)
    requires IsHash(sha)
    requires b == a.(signalIds := b.signalIds, ledgerIds := b.ledgerIds, feeIds := b.feeIds)
    requires SameIds(sha, "signal", a.signalIds, b.signalIds)
    requires SameIds(sha, "ledger_record", a.ledgerIds, b.ledgerIds)
    requires SameIds(sha, "fee_event", a.feeIds, b.feeIds)
    ensures Normalize(sha, l, Some(a)) == Normalize(sha, l, Some(b))
    ensures IsComplete(a) ==> ConsistentReplay(sha, l, Some(a), Some(b))
  {
    if IsComplete(a) {
      ListsEqualIffSameReferences(sha, "signal", a.signalIds.value, b.signalIds.value);
      ListsEqualIffSameReferences(sha, "ledger_record", a.ledgerIds.value, b.ledgerIds.value);
      ListsEqualIffSameReferences(sha, "fee_event", a.feeIds.value, b.feeIds.value);
    }
    ConsistentIffNormalFormsEqual(Normalize(sha, l, Some(a)), Normalize(sha, l, Some(b)));
  }

  // ----- normalising twice ----------------------------------------------------------------------

  /** A normal form, written as a snapshot again. */
  function AsSnapshot(n: Normal): Snapshot
    requires |n.safetyKey| == |SafetyFields()|
  {
    Snapshot(
      Some(n.decision), Some(n.caution), Some(n.approvalRequired), Some(n.actionAllowed), Some(n.actionBlocked),
      Some(n.receiptId), Some(n.verification), Some(Entries(n.signalIds)), Some(Entries(n.ledgerIds)),
      Some(Entries(n.feeIds)), Some(SafetyMap(n.safetyKey)))
  }

  function FieldPlace(f: SafetyField): nat {
    match f
    case PrivateDataIncluded => 0
    case NetworkLookupPerformed => 1
    case ExternalLookupPerformed => 2
    case TrackingTriggered => 3
    case AnalyticsTriggered => 4
    case PaymentOrFeeTriggered => 5
    case BillingTriggered => 6
    case SettlementTriggered => 7
    case MachineToMachineFeeTriggered => 8
    case ActionExecuted => 9
    case Published => 10
  }

  lemma FieldPlaces(i: nat)
    requires i < |SafetyFields()|
    ensures FieldPlace(SafetyFields()[i]) == i
  {
  }

  function SafetyMap(key: seq<bool>): map<SafetyField, bool>
    requires |key| == |SafetyFields()|
  {
    map f: SafetyField | true :: key[FieldPlace(f)]
  }

  lemma SafetyReadsBack(key: seq<bool>)
    requires |key| == |SafetyFields()|
    ensures SafetyKey(SafetyMap(key)) == key
  {
    var again := SafetyKey(SafetyMap(key));
    forall i | 0 <= i < |key| ensures again[i] == key[i] {
      FieldPlaces(i);
    }
  }

  lemma ListReadsBack(sha: string -> string, kind: string, values: seq<Option<string>>)
    requires IsHash(sha)
    ensures SafeReferenceList(sha, kind, Entries(SafeReferenceList(sha, kind, values)))
      == SafeReferenceList(sha, kind, values)
  {
    ListShape(sha, kind, values);
    ListSettlesExactly(sha, kind, SafeReferenceList(sha, kind, values));
  }

  /** Every component is its own normal form. */
  ghost predicate IsNormal(sha: string -> string, l: Lists, n: Normal)
    requires IsHash(sha)
  {
    && SafeEnum(n.decision, l.decisions, UNKNOWN) == n.decision
    && SafeEnum(n.caution, l.cautions, UNKNOWN) == n.caution
    && SafeEnum(n.verification, l.verifications, UNKNOWN) == n.verification
    && SafeReference(sha, "clearing_receipt", n.receiptId) == n.receiptId
    && SafeReferenceList(sha, "signal", Entries(n.signalIds)) == n.signalIds
    && SafeReferenceList(sha, "ledger_record", Entries(n.ledgerIds)) == n.ledgerIds
    && SafeReferenceList(sha, "fee_event", Entries(n.feeIds)) == n.feeIds
    && |n.safetyKey| == |SafetyFields()|
  }

  lemma NormalFormsAreNormal(sha: string -> string, l: Lists, s: Snapshot)
    requires IsHash(sha) && AreKnown(l) && IsComplete(s)
    ensures IsNormal(sha, l, NormalForm(sha, l, s))
  {
    EnumReadsBack(s.decision.value, l.decisions, UNKNOWN);
    EnumReadsBack(s.caution.value, l.cautions, UNKNOWN);
    EnumReadsBack(s.verification.value, l.verifications, UNKNOWN);
    SafeReferenceSettles(sha, "clearing_receipt", s.receiptId.value);
    ListReadsBack(sha, "signal", s.signalIds.value);
    ListReadsBack(sha, "ledger_record", s.ledgerIds.value);
    ListReadsBack(sha, "fee_event", s.feeIds.value);
  }

  lemma NormalIsFixed(sha: string -> string, l: Lists, n: Normal, s: Snapshot)
    requires IsHash(sha) && IsNormal(sha, l, n) && IsComplete(s)
    requires s == AsSnapshot(n)
    ensures NormalForm(sha, l, s) == n
  {
    assert SafetyKey(s.safety.value) == n.safetyKey by {
      SafetyReadsBack(n.safetyKey);
    }
  }

  /** Normalising a normal form changes nothing. */
  lemma NormalFormIsNormal(sha: string -> string, l: Lists, s: Snapshot)
    requires IsHash(sha) && AreKnown(l) && IsComplete(s)
    ensures var n := NormalForm(sha, l, s); IsComplete(AsSnapshot(n)) && NormalForm(sha, l, AsSnapshot(n)) == n
  {
    var n := NormalForm(sha, l, s);
    NormalFormsAreNormal(sha, l, s);
    NormalIsFixed(sha, l, n, AsSnapshot(n));
  }

  /** So a complete snapshot is consistent with its own normal form. */
  lemma ConsistentWithNormalForm(sha: string -> string, l: Lists, s: Snapshot)
    requires IsHash(sha) && AreKnown(l) && IsComplete(s)
    ensures ConsistentReplay(sha, l, Some(s), Some(AsSnapshot(NormalForm(sha, l, s))))
  {
    NormalFormIsNormal(sha, l, s);
    ConsistentIffNormalFormsEqual(Some(NormalForm(sha, l, s)), Some(NormalForm(sha, l, s)));
  }
}
