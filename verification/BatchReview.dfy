/**
 The batch review of a directory: every file adds to the counters of one shared summary and to the list of
 results.  The counters move before the approval pack is made, and one handler catches whatever fails, so that a
 failing pack would be counted twice; the counters are shown to agree with the list of results exactly when no
 pack fails, and making a pack does not fail.
 */
module BatchReview {
  import opened Primitives
  import opened VerifyBeforeAction

  datatype ReviewStatus = Pending | NothingPending

  datatype Pack = Pack(
    checkedAt: string, actionType: string, actor: string, target: string, description: string, allowed: bool,
    risk: Risk, approvalRequired: bool, profile: Profile, approvalReason: seq<ApprovalReason>, review: ReviewStatus,
    receiptId: string)

  /** Every receipt has its pack: the code only copies fields and chooses between constants. */
  function CreateApprovalPack(r: Receipt): Pack {
    Pack(
      r.timestamp, r.actionType, r.actor, r.target, r.description, r.allowed, r.risk, r.approvalRequired, r.profile,
      r.reasons, if r.approvalRequired then Pending else NothingPending, r.receiptId)
  }

  /** The step of the review that makes a pack, or fails to. */
  type PackStep = Receipt -> Option<Pack>

  const PACK_STEP: PackStep := (r: Receipt) => Some(CreateApprovalPack(r))

  /** What a file turns out to be: not JSON, JSON whose fields do not have their types, or a descriptor with the id and
      time its receipt would get and whether that receipt could be saved. */
  datatype Content =
    NotJson | Mistyped | Described(action: Descriptor, receiptId: string, time: string, canBeSaved: bool)

  datatype File = File(name: string, content: Content)

  datatype Options = Options(profile: Option<string>, saveReceipts: bool, includeApprovalPack: bool)

  datatype Status = Valid(receipt: Receipt, receiptSaved: bool, pack: Option<Pack>) | Invalid | Malformed

  datatype Result = Result(name: string, status: Status)

  function ReceiptFor(content: Content, options: Options): Option<Receipt> {
    if content.Described? then Verification(content.action, options.profile, content.receiptId, content.time) else None
  }

  /** The file gets as far as its counters. */
  predicate Counted(content: Content, options: Options) {
    ReceiptFor(content, options).Some? && (options.saveReceipts ==> content.canBeSaved)
  }

  /** The pack step fails after the counters have moved. */
  predicate PackFails(content: Content, options: Options, step: PackStep) {
    Counted(content, options) && options.includeApprovalPack && step(ReceiptFor(content, options).value).None?
  }

  function StatusOf(content: Content, options: Options, step: PackStep): Status {
    if content.NotJson? then Malformed
    else if !Counted(content, options) || PackFails(content, options, step) then Invalid
    else
      var receipt := ReceiptFor(content, options).value;
      Valid(receipt, options.saveReceipts, if options.includeApprovalPack then step(receipt) else None)
  }

  /** The result a file has to get. */
  function ResultOf(file: File, options: Options, step: PackStep): Result {
    Result(file.name, StatusOf(file.content, options, step))
  }

  function ResultsOf(files: seq<File>, options: Options, step: PackStep): (r: seq<Result>)
    ensures |r| == |files| && forall i :: 0 <= i < |files| ==> r[i] == ResultOf(files[i], options, step)
  {
    seq(|files|, i requires 0 <= i < |files| => ResultOf(files[i], options, step))
  }

  // ----- counting results -----------------------------------------------------------------------

  datatype Class =
    | OfValid | OfInvalid | OfMalformed | OfAllowed | OfBlocked | OfApproval
    | OfRisk(risk: Risk) | OfProfile(profile: Profile)

  predicate IsOf(r: Result, c: Class) {
    match c
    case OfInvalid => r.status.Invalid?
    case OfMalformed => r.status.Malformed?
    case OfValid => r.status.Valid?
    case OfAllowed => r.status.Valid? && r.status.receipt.allowed
    case OfBlocked => r.status.Valid? && !r.status.receipt.allowed
    case OfApproval => r.status.Valid? && r.status.receipt.approvalRequired
    case OfRisk(risk) => r.status.Valid? && r.status.receipt.risk == risk
    case OfProfile(profile) => r.status.Valid? && r.status.receipt.profile == profile
  }

  function Count(results: seq<Result>, c: Class): nat {
    if results == [] then 0
    else
      var before := Count(results[..|results| - 1], c);
      if IsOf(results[|results| - 1], c) then before + 1 else before
  }

  ghost function Sum(m: map<Profile, nat>): nat
    decreases m.Keys
  {
    if m.Keys == {} then 0
    else
      var k :| k in m.Keys;
      m[k] + Sum(m - {k})
  }

  lemma {:induction false} SumWithout(m: map<Profile, nat>, k: Profile)
    requires k in m
    ensures Sum(m) == m[k] + Sum(m - {k})
    decreases m.Keys
  {
    var j :| j in m.Keys && Sum(m) == m[j] + Sum(m - {j});
    if j != k {
      SumWithout(m - {j}, k);
      SumWithout(m - {k}, j);
      assert m - {j} - {k} == m - {k} - {j};
    }
  }

  /** The value of a key that may be missing. */
  function At(m: map<Profile, nat>, k: Profile): nat {
    if k in m then m[k] else 0
  }

  lemma SumOneMore(m: map<Profile, nat>, k: Profile)
    ensures Sum(m[k := At(m, k) + 1]) == Sum(m) + 1
  {
    var n := m[k := At(m, k) + 1];
    SumWithout(n, k);
    if k in m {
      SumWithout(m, k);
      assert n - {k} == m - {k};
    } else {
      assert n - {k} == m;
    }
  }

  ghost predicate ProfilesAgree(m: map<Profile, nat>, results: seq<Result>) {
    (forall p :: At(m, p) == Count(results, OfProfile(p))) && Sum(m) == Count(results, OfValid)
  }

  function CountNext(before: nat, r: Result, c: Class): nat {
    if IsOf(r, c) then before + 1 else before
  }

  lemma CountAppend(results: seq<Result>, r: Result, c: Class)
    ensures Count(results + [r], c) == CountNext(Count(results, c), r, c)
  {
    assert (results + [r])[..|results|] == results;
  }

  lemma ProfilesNext(m: map<Profile, nat>, results: seq<Result>, r: Result)
    requires ProfilesAgree(m, results) && r.status.Valid?
    ensures var p := r.status.receipt.profile; ProfilesAgree(m[p := At(m, p) + 1], results + [r])
  {
    var p := r.status.receipt.profile;
    SumOneMore(m, p);
    CountAppend(results, r, OfValid);
    forall q ensures At(m[p := At(m, p) + 1], q) == Count(results + [r], OfProfile(q)) {
      CountAppend(results, r, OfProfile(q));
    }
  }

  lemma ProfilesSkip(m: map<Profile, nat>, results: seq<Result>, r: Result)
    requires ProfilesAgree(m, results) && !r.status.Valid?
    ensures ProfilesAgree(m, results + [r])
  {
    CountAppend(results, r, OfValid);
    forall q ensures At(m, q) == Count(results + [r], OfProfile(q)) {
      CountAppend(results, r, OfProfile(q));
    }
  }

  /** The counters of a summary, other than the files and the profiles. */
  datatype Counts = Counts(
    valid: nat, invalid: nat, malformed: nat, allowed: nat, blocked: nat, approval: nat, high: nat, medium: nat,
    low: nat)

  function CountsOf(results: seq<Result>): Counts {
    Counts(
      Count(results, OfValid), Count(results, OfInvalid), Count(results, OfMalformed), Count(results, OfAllowed),
      Count(results, OfBlocked), Count(results, OfApproval), Count(results, OfRisk(HighRisk)),
      Count(results, OfRisk(MediumRisk)), Count(results, OfRisk(LowRisk)))
  }

  function OneMoreIf(n: nat, condition: bool): nat {
    if condition then n + 1 else n
  }

  function CountedReceipt(c: Counts, r: Receipt): Counts {
    Counts(
      c.valid + 1, c.invalid, c.malformed, OneMoreIf(c.allowed, r.allowed), OneMoreIf(c.blocked, !r.allowed),
      OneMoreIf(c.approval, r.approvalRequired), OneMoreIf(c.high, r.risk == HighRisk),
      OneMoreIf(c.medium, r.risk == MediumRisk), OneMoreIf(c.low, r.risk == LowRisk))
  }

  lemma AppendStatus(results: seq<Result>, r: Result)
    ensures Count(results + [r], OfValid) == CountNext(Count(results, OfValid), r, OfValid)
    ensures Count(results + [r], OfInvalid) == CountNext(Count(results, OfInvalid), r, OfInvalid)
    ensures Count(results + [r], OfMalformed) == CountNext(Count(results, OfMalformed), r, OfMalformed)
  {
    CountAppend(results, r, OfValid);
    CountAppend(results, r, OfInvalid);
    CountAppend(results, r, OfMalformed);
  }

  lemma AppendOutcome(results: seq<Result>, r: Result)
    ensures Count(results + [r], OfAllowed) == CountNext(Count(results, OfAllowed), r, OfAllowed)
    ensures Count(results + [r], OfBlocked) == CountNext(Count(results, OfBlocked), r, OfBlocked)
    ensures Count(results + [r], OfApproval) == CountNext(Count(results, OfApproval), r, OfApproval)
  {
    CountAppend(results, r, OfAllowed);
    CountAppend(results, r, OfBlocked);
    CountAppend(results, r, OfApproval);
  }

  lemma AppendRisk(results: seq<Result>, r: Result, risk: Risk)
    ensures Count(results + [r], OfRisk(risk)) == CountNext(Count(results, OfRisk(risk)), r, OfRisk(risk))
  {
    CountAppend(results, r, OfRisk(risk));
  }

  function NextCounts(b: Counts, r: Result): Counts {
    Counts(
      CountNext(b.valid, r, OfValid), CountNext(b.invalid, r, OfInvalid), CountNext(b.malformed, r, OfMalformed),
      CountNext(b.allowed, r, OfAllowed), CountNext(b.blocked, r, OfBlocked), CountNext(b.approval, r, OfApproval),
      CountNext(b.high, r, OfRisk(HighRisk)), CountNext(b.medium, r, OfRisk(MediumRisk)),
      CountNext(b.low, r, OfRisk(LowRisk)))
  }

  lemma CountsNext(results: seq<Result>, r: Result)
    ensures CountsOf(results + [r]) == NextCounts(CountsOf(results), r)
  {
    AppendStatus(results, r);
    AppendOutcome(results, r);
    AppendRisk(results, r, HighRisk);
    AppendRisk(results, r, MediumRisk);
    AppendRisk(results, r, LowRisk);
  }

  /** What one more result does to the counts. */
  lemma CountsAppend(results: seq<Result>, r: Result)
    ensures var before, after := CountsOf(results), CountsOf(results + [r]);
      match r.status
      case Malformed => after == before.(malformed := before.malformed + 1)
      case Invalid => after == before.(invalid := before.invalid + 1)
      case Valid(receipt, _, _) => after == CountedReceipt(before, receipt)
  {
    CountsNext(results, r);
  }

  // ----- the summary ----------------------------------------------------------------------------

  class Summary {
    var totalFiles: nat
    var validActions: nat
    var invalidActions: nat
    var allowedCount: nat
    var blockedCount: nat
    var approvalRequiredCount: nat
    var highRiskCount: nat
    var mediumRiskCount: nat
    var lowRiskCount: nat
    var malformedJsonCount: nat
    var policyProfileCounts: map<Profile, nat>

    ghost function View(): Counts
      reads this
    {
      Counts(
        validActions, invalidActions, malformedJsonCount, allowedCount, blockedCount, approvalRequiredCount,
        highRiskCount, mediumRiskCount, lowRiskCount)
    }

    /** Every counter is the number of results of its class. */
    ghost predicate Agrees(results: seq<Result>)
      reads this
    {
      View() == CountsOf(results) && ProfilesAgree(policyProfileCounts, results)
    }

    constructor (files: nat)
      ensures totalFiles == files && Agrees([])
    {
      totalFiles, validActions, invalidActions, malformedJsonCount := files, 0, 0, 0;
      allowedCount, blockedCount, approvalRequiredCount := 0, 0, 0;
      highRiskCount, mediumRiskCount, lowRiskCount := 0, 0, 0;
      policyProfileCounts := map[];
    }

    method CountReceipt(receipt: Receipt)
      modifies this
      ensures View() == CountedReceipt(old(View()), receipt) && totalFiles == old(totalFiles)
      ensures policyProfileCounts ==
        old(policyProfileCounts)[receipt.profile := At(old(policyProfileCounts), receipt.profile) + 1]
    {
      validActions := validActions + 1;
      if receipt.allowed {
        allowedCount := allowedCount + 1;
      } else {
        blockedCount := blockedCount + 1;
      }
      if receipt.approvalRequired {
        approvalRequiredCount := approvalRequiredCount + 1;
      }
      if receipt.risk == HighRisk {
        highRiskCount := highRiskCount + 1;
      } else if receipt.risk == MediumRisk {
        mediumRiskCount := mediumRiskCount + 1;
      } else if receipt.risk == LowRisk {
        lowRiskCount := lowRiskCount + 1;
      }
      policyProfileCounts := policyProfileCounts[receipt.profile := At(policyProfileCounts, receipt.profile) + 1];
    }
  }

  // ----- the review -----------------------------------------------------------------------------

  /** What the counters have seen of a file: its result, after a valid one when its pack step failed. */
  function Entries(file: File, options: Options, step: PackStep): seq<Result> {
    var result := ResultOf(file, options, step);
    if PackFails(file.content, options, step)
    then [Result(file.name, Valid(ReceiptFor(file.content, options).value, options.saveReceipts, None)), result]
    else [result]
  }

  function AllEntries(files: seq<File>, options: Options, step: PackStep): seq<Result> {
    if files == [] then []
    else AllEntries(files[..|files| - 1], options, step) + Entries(files[|files| - 1], options, step)
  }

  /** The files whose pack step fails. */
  function PackFailures(files: seq<File>, options: Options, step: PackStep): nat {
    if files == [] then 0
    else
      var before := PackFailures(files[..|files| - 1], options, step);
      if PackFails(files[|files| - 1].content, options, step) then before + 1 else before
  }

  method CountInvalid(summary: Summary, ghost seen: seq<Result>, result: Result)
    requires summary.Agrees(seen) && result.status.Invalid?
    modifies summary
    ensures summary.Agrees(seen + [result]) && summary.totalFiles == old(summary.totalFiles)
  {
    summary.invalidActions := summary.invalidActions + 1;
    CountsAppend(seen, result);
    ProfilesSkip(summary.policyProfileCounts, seen, result);
  }

  method CountMalformed(summary: Summary, ghost seen: seq<Result>, result: Result)
    requires summary.Agrees(seen) && result.status.Malformed?
    modifies summary
    ensures summary.Agrees(seen + [result]) && summary.totalFiles == old(summary.totalFiles)
  {
    summary.malformedJsonCount := summary.malformedJsonCount + 1;
    CountsAppend(seen, result);
    ProfilesSkip(summary.policyProfileCounts, seen, result);
  }

  method CountValid(summary: Summary, ghost seen: seq<Result>, ghost result: Result, receipt: Receipt)
    requires summary.Agrees(seen) && result.status.Valid? && result.status.receipt == receipt
    modifies summary
    ensures summary.Agrees(seen + [result]) && summary.totalFiles == old(summary.totalFiles)
  {
    CountsAppend(seen, result);
    ProfilesNext(summary.policyProfileCounts, seen, result);
    summary.CountReceipt(receipt);
  }

  method ReviewBatchFile(file: File, options: Options, step: PackStep, summary: Summary, ghost seen: seq<Result>)
    returns (result: Result)
    requires summary.Agrees(seen)
    modifies summary
    ensures result == ResultOf(file, options, step)
    ensures summary.Agrees(seen + Entries(file, options, step)) && summary.totalFiles == old(summary.totalFiles)
  {
    if file.content.NotJson? {
      result := Result(file.name, Malformed);
      CountMalformed(summary, seen, result);
      return;
    }
    ghost var seen' := seen;
    var verified := None;
    if file.content.Described? {
      verified := VerifyAction(file.content.action, options.profile, file.content.receiptId, file.content.time);
    }
    if verified.Some? && (!options.saveReceipts || file.content.canBeSaved) {
      var receipt := verified.value;
      ghost var first := Entries(file, options, step)[0];
      CountValid(summary, seen, first, receipt);
      var pack := None;
      if options.includeApprovalPack {
        pack := step(receipt);
      }
      if !options.includeApprovalPack || pack.Some? {
        result := Result(file.name, Valid(receipt, options.saveReceipts, pack));
        return;
      }
      seen' := seen + [first];
    }
    result := Result(file.name, Invalid);
    CountInvalid(summary, seen', result);
    assert seen' + [result] == seen + Entries(file, options, step);
  }

  lemma OneMoreFile(files: seq<File>, i: nat, options: Options, step: PackStep)
    requires i < |files|
    ensures ResultsOf(files[..i + 1], options, step)
      == ResultsOf(files[..i], options, step) + [ResultOf(files[i], options, step)]
    ensures AllEntries(files[..i + 1], options, step)
      == AllEntries(files[..i], options, step) + Entries(files[i], options, step)
  {
    assert files[..i + 1][..i] == files[..i];
  }

  method ReviewBatchWith(files: seq<File>, options: Options, step: PackStep)
    returns (summary: Summary, results: seq<Result>)
    ensures fresh(summary) && summary.totalFiles == |files|
    ensures results == ResultsOf(files, options, step)
    ensures summary.Agrees(AllEntries(files, options, step))
  {
    summary := new Summary(|files|);
    results := [];
    for i := 0 to |files|
      invariant fresh(summary) && summary.totalFiles == |files|
      invariant results == ResultsOf(files[..i], options, step)
      invariant summary.Agrees(AllEntries(files[..i], options, step))
    {
      OneMoreFile(files, i, options, step);
      var result := ReviewBatchFile(files[i], options, step, summary, AllEntries(files[..i], options, step));
      results := results + [result];
    }
    assert files[..|files|] == files;
  }

  /** The review with the pack step of the program: an unknown profile throws before any file is read, and otherwise
      the counters agree with the results. */
  method ReviewBatch(files: seq<File>, options: Options) returns (review: Option<Summary>, results: seq<Result>)
    ensures review.Some? <==> ResolvePolicyProfile(options.profile).Some?
    ensures review.Some? ==>
      && fresh(review.value) && review.value.totalFiles == |results|
      && results == ResultsOf(files, options, PACK_STEP) && review.value.Agrees(results)
  {
    if ResolvePolicyProfile(options.profile).None? {
      return None, [];
    }
    var summary;
    summary, results := ReviewBatchWith(files, options, PACK_STEP);
    PackStepNeverFails(files, options);
    EntriesAreResults(files, options, PACK_STEP);
    review := Some(summary);
  }

  lemma {:induction false} EntriesLength(files: seq<File>, options: Options, step: PackStep)
    ensures |AllEntries(files, options, step)| == |files| + PackFailures(files, options, step)
  {
    if files != [] {
      EntriesLength(files[..|files| - 1], options, step);
    }
  }

  lemma {:induction false} EntriesAreResults(files: seq<File>, options: Options, step: PackStep)
    requires PackFailures(files, options, step) == 0
    ensures AllEntries(files, options, step) == ResultsOf(files, options, step)
  {
    if files != [] {
      EntriesAreResults(files[..|files| - 1], options, step);
    }
  }

  lemma {:induction false} PackStepNeverFails(files: seq<File>, options: Options)
    ensures PackFailures(files, options, PACK_STEP) == 0
  {
    if files != [] {
      PackStepNeverFails(files[..|files| - 1], options);
    }
  }

  /** Whatever makes the packs: the class counters exceed the files by the failed packs, and the counters agree with
      the results if and only if no pack fails. */
  lemma AgreesExactlyWithoutFailure(
    files: seq<File>, options: Options, step: PackStep, summary: Summary, results: seq<Result>)
    requires summary.Agrees(AllEntries(files, options, step)) && results == ResultsOf(files, options, step)
    ensures summary.validActions + summary.invalidActions + summary.malformedJsonCount
      == |results| + PackFailures(files, options, step)
    ensures summary.Agrees(results) <==> PackFailures(files, options, step) == 0
  {
    EntriesLength(files, options, step);
    CountsConserve(AllEntries(files, options, step));
    CountsConserve(results);
    if PackFailures(files, options, step) == 0 {
      EntriesAreResults(files, options, step);
    }
  }

  // ----- what the counts say --------------------------------------------------------------------

  /** Every file is in exactly one class, and every valid one is allowed or blocked. */
  lemma {:induction false} CountsConserve(results: seq<Result>)
    ensures Count(results, OfValid) + Count(results, OfInvalid) + Count(results, OfMalformed) == |results|
    ensures Count(results, OfAllowed) + Count(results, OfBlocked) == Count(results, OfValid)
    ensures Count(results, OfApproval) <= Count(results, OfValid)
  {
    if results != [] {
      CountsConserve(results[..|results| - 1]);
    }
  }

  lemma {:induction false} RisksConserve(results: seq<Result>)
    ensures Count(results, OfRisk(HighRisk)) + Count(results, OfRisk(MediumRisk)) + Count(results, OfRisk(LowRisk))
      + Count(results, OfRisk(BlockedRisk)) == Count(results, OfValid)
  {
    if results != [] {
      RisksConserve(results[..|results| - 1]);
    }
  }

  lemma {:induction false} NoneCounted(results: seq<Result>, c: Class)
    ensures Count(results, c) == 0 <==> forall r :: r in results ==> !IsOf(r, c)
  {
    if results != [] {
      var front, last := results[..|results| - 1], results[|results| - 1];
      NoneCounted(front, c);
      assert forall r :: r in results <==> r in front || r == last;
    }
  }

  /** A file that is counted although its action is blocked: rejected, or a money movement without approval. */
  predicate IsBlockedFile(f: File, options: Options) {
    Counted(f.content, options) && IsBlockedAction(f.content.action)
  }

  function BlockedFiles(files: seq<File>, options: Options): nat {
    if files == [] then 0
    else
      var before := BlockedFiles(files[..|files| - 1], options);
      if IsBlockedFile(files[|files| - 1], options) then before + 1 else before
  }

  lemma BlockedFileExactly(f: File, options: Options)
    ensures IsOf(ResultOf(f, options, PACK_STEP), OfRisk(BlockedRisk)) <==> IsBlockedFile(f, options)
  {
    if Counted(f.content, options) {
      var c := f.content;
      BlockedExactly(c.action, ResolvePolicyProfile(options.profile).value, c.receiptId, c.time);
    }
  }

  lemma {:induction false} BlockedFilesCounted(files: seq<File>, options: Options)
    ensures Count(ResultsOf(files, options, PACK_STEP), OfRisk(BlockedRisk)) == BlockedFiles(files, options)
  {
    if files != [] {
      var n := |files| - 1;
      BlockedFilesCounted(files[..n], options);
      BlockedFileExactly(files[n], options);
      var results := ResultsOf(files, options, PACK_STEP);
      assert results[..n] == ResultsOf(files[..n], options, PACK_STEP);
    }
  }

  lemma {:induction false} NoBlockedFiles(files: seq<File>, options: Options)
    ensures BlockedFiles(files, options) == 0 <==> forall f :: f in files ==> !IsBlockedFile(f, options)
  {
    if files != [] {
      var front, last := files[..|files| - 1], files[|files| - 1];
      NoBlockedFiles(front, options);
      assert forall f :: f in files <==> f in front || f == last;
    }
  }

  /** In every review the three risk counters fall short of the valid actions by the counted files whose action was
      rejected or moves money without approval, so that they add up exactly when there is no such file. */
  lemma RiskCountersExact(files: seq<File>, options: Options, summary: Summary)
    requires summary.Agrees(ResultsOf(files, options, PACK_STEP))
    ensures var risks := summary.highRiskCount + summary.mediumRiskCount + summary.lowRiskCount;
      && risks + BlockedFiles(files, options) == summary.validActions
      && (risks == summary.validActions <==> forall f :: f in files ==> !IsBlockedFile(f, options))
  {
    RisksConserve(ResultsOf(files, options, PACK_STEP));
    BlockedFilesCounted(files, options);
    NoBlockedFiles(files, options);
  }

  /** Such a file: a rejected action, otherwise ordinary. */
  const REJECTED_FILE := File(
    "action.json",
    Described(
      Descriptor("publish", "newsletter", "agent", "list", None, None, None, None, None, None, None, Some(Rejected)),
      "atg_1", "2026-09-02T09:00:00.000Z", true))

  lemma RejectedFileIsBlocked(options: Options)
    requires ResolvePolicyProfile(options.profile).Some?
    ensures IsBlockedFile(REJECTED_FILE, options)
  {
    StartsNonBlank(REJECTED_FILE.content.action.actionType);
    StartsNonBlank(REJECTED_FILE.content.action.description);
    StartsNonBlank(REJECTED_FILE.content.action.actor);
    StartsNonBlank(REJECTED_FILE.content.action.target);
  }

  /** Its review counts one valid action, and none of the risk counters has it. */
  lemma BlockedRiskIsUncounted(options: Options, summary: Summary)
    requires ResolvePolicyProfile(options.profile).Some?
    requires summary.Agrees(ResultsOf([REJECTED_FILE], options, PACK_STEP))
    ensures summary.validActions == 1
    ensures summary.highRiskCount + summary.mediumRiskCount + summary.lowRiskCount == 0
  {
    RejectedFileIsBlocked(options);
    OneBlockedFile(REJECTED_FILE, options);
    RiskCountersExact([REJECTED_FILE], options, summary);
    CountsConserve(ResultsOf([REJECTED_FILE], options, PACK_STEP));
  }

  lemma OneBlockedFile(f: File, options: Options)
    requires IsBlockedFile(f, options)
    ensures BlockedFiles([f], options) == 1
  {
    assert [f][..0] == [];
  }

  /** The counters of every review: nothing is lost and no file is counted in two classes. */
  lemma ReviewConserves(summary: Summary, results: seq<Result>)
    requires summary.Agrees(results)
    ensures summary.validActions + summary.invalidActions + summary.malformedJsonCount == |results|
    ensures summary.allowedCount + summary.blockedCount == summary.validActions
    ensures Sum(summary.policyProfileCounts) == summary.validActions
    ensures summary.approvalRequiredCount <= summary.validActions
    ensures summary.highRiskCount + summary.mediumRiskCount + summary.lowRiskCount
      + Count(results, OfRisk(BlockedRisk)) == summary.validActions
  {
    CountsConserve(results);
    RisksConserve(results);
  }
}
