/**
 The texts evidence bundles know.  They meet what the bundle theorems ask of them.
 */
module BundleTexts {
  import opened Tokens
  import opened KnownTexts
  import opened ClearingCodes
  import opened StandardTexts
  import Replay = ClearingReplay
  import opened ReplayTexts
  import opened EvidenceBundle

  function UnknownBundle(): string {
    Join("unknown", Join("local", "bundle"))
  }

  function RunTypes(): set<string> {
    {Join("single", Join("clearing", "run")), Join("batch", Join("clearing", "run"))}
  }

  function PartTypes(): set<string> {
    {Join("receipt", Join("verification", "bundle")), Join("refusalgraph", Join("query", "bundle")), UnknownBundle()}
  }

  function KnownTypes(): set<string> {
    RunTypes() + PartTypes()
  }

  function LocalStatuses(): set<string> {
    {Join("draft", "only"), Join("local", "only"), "incomplete", Join("locally", "verified")}
  }

  function OpenStatuses(): set<string> {
    {Join("verification", "failed"), Join("approval", "required"), "blocked", Replay.UNKNOWN}
  }

  function KnownStatuses(): set<string> {
    LocalStatuses() + OpenStatuses()
  }

  function KeepLocal(): string {
    Join("keep", Join("local", "only"))
  }

  function DoNotExecute(): string {
    Join("do", Join("not", "execute"))
  }

  function FinalApproval(): string {
    Join("Gareth", Join("final", Join("approval", "required")))
  }

  function LocalSteps(): set<string> {
    {KeepLocal(), DoNotExecute()} + OutsideSteps() + {FinalApproval()}
  }

  function OutsideSteps(): set<string> {
    {Join("do", Join("not", Join("verify", "externally"))), Join("do", Join("not", Join("trigger", "fee")))}
  }

  ghost function KnownStepTexts(v: seq<string>): set<string>
    requires |v| == SIZE
  {
    DecisionTexts(v) + LocalSteps()
  }

  ghost function StandardWords(v: seq<string>): Words
    requires |v| == SIZE
  {
    Words(
      UnknownBundle(), Replay.UNKNOWN, Join("not", "present"), KeepLocal(), DoNotExecute(),
      DecisionText(v, RequireHumanApproval), DecisionText(v, KeepBlocked), DecisionText(v, RefuseTransaction),
      Join("locally", "valid"), Join("draft", "only"), Join("local", "only"), "invalid")
  }

  ghost function StandardLists(v: seq<string>): Lists
    requires |v| == SIZE
  {
    Lists(KnownTypes(), KnownDecisions(v), KnownCautions(), KnownVerifications(), KnownStatuses(), KnownStepTexts(v),
          StandardWords(v))
  }

  lemma RunTypesAreTokens()
    ensures AreTokens(RunTypes())
  {
    Phrase3("single", "clearing", "run");
    Phrase3("batch", "clearing", "run");
  }

  lemma PartTypesAreTokens()
    ensures AreTokens(PartTypes())
  {
    Phrase3("receipt", "verification", "bundle");
    Phrase3("refusalgraph", "query", "bundle");
    Phrase3("unknown", "local", "bundle");
  }

  lemma TypesKnown()
    ensures IsKnownSet(KnownTypes(), UnknownBundle())
  {
    RunTypesAreTokens();
    PartTypesAreTokens();
    TokensJoin(RunTypes(), PartTypes());
  }

  lemma LocalStatusesAreTokens()
    ensures AreTokens(LocalStatuses())
  {
    Phrase2("draft", "only");
    Phrase2("local", "only");
    WordIsPlain("incomplete");
    Phrase2("locally", "verified");
  }

  lemma OpenStatusesAreTokens()
    ensures AreTokens(OpenStatuses())
  {
    Phrase2("verification", "failed");
    Phrase2("approval", "required");
    WordIsPlain("blocked");
    WordIsPlain(Replay.UNKNOWN);
  }

  lemma StatusesKnown()
    ensures IsKnownSet(KnownStatuses(), Replay.UNKNOWN)
  {
    LocalStatusesAreTokens();
    OpenStatusesAreTokens();
    TokensJoin(LocalStatuses(), OpenStatuses());
  }

  lemma FinalApprovalIsToken()
    ensures AreTokens({FinalApproval()})
  {
    Phrase3("final", "approval", "required");
  }

  lemma InnerStepsAreTokens()
    ensures AreTokens({KeepLocal(), DoNotExecute()})
  {
    Phrase3("keep", "local", "only");
    Phrase3("do", "not", "execute");
  }

  lemma OutsideStepsAreTokens()
    ensures AreTokens(OutsideSteps())
  {
    Phrase4("do", "not", "verify", "externally");
    Phrase4("do", "not", "trigger", "fee");
  }

  lemma StepTextsAreTokens(v: seq<string>)
    requires IsVocabulary(v)
    ensures AreTokens(KnownStepTexts(v))
  {
    InnerStepsAreTokens();
    OutsideStepsAreTokens();
    FinalApprovalIsToken();
    TokensJoin({KeepLocal(), DoNotExecute()}, OutsideSteps());
    TokensJoin({KeepLocal(), DoNotExecute()} + OutsideSteps(), {FinalApproval()});
    DecisionTextsAreTokens(v);
    TokensJoin(DecisionTexts(v), LocalSteps());
  }

  lemma ReceiptStatusesDiffer()
    ensures AreTokens({Join("draft", "only"), Join("local", "only"), "invalid"})
    ensures "invalid" != Join("draft", "only") && "invalid" != Join("local", "only")
  {
    Phrase2("draft", "only");
    Phrase2("local", "only");
    WordIsPlain("invalid");
    assert "invalid"[0] == 'i' && Join("draft", "only")[0] == 'd' && Join("local", "only")[0] == 'l';
  }

  lemma NotPresentKnown()
    ensures IsKnownSet(KnownVerifications(), Join("not", "present"))
  {
    VerificationsKnown();
  }

  /** The lists and words bundles use meet what the bundle theorems ask of them. */
  lemma StandardBundleTextsKnown(v: seq<string>)
    requires IsVocabulary(v)
    ensures AreKnown(StandardLists(v))
  {
    TypesKnown();
    DecisionsKnown(v);
    CautionsKnown();
    NotPresentKnown();
    StatusesKnown();
    StepTextsAreTokens(v);
    ReceiptStatusesDiffer();
    assert Always(StandardWords(v)) <= KnownStepTexts(v);
  }
}
