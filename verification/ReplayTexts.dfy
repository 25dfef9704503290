/**
 The texts the replay comparison knows: decisions, caution levels and verification results.  All are their own
 tokens, as the comparison needs.
 */
module ReplayTexts {
  import opened Tokens
  import opened ClearingCodes
  import opened StandardTexts
  import opened ClearingReplay
  import opened KnownTexts

  ghost function DecisionTexts(v: seq<string>): set<string>
    requires |v| == SIZE
  {
    set d: Decision | true :: DecisionText(v, d)
  }

  ghost function KnownDecisions(v: seq<string>): set<string>
    requires |v| == SIZE
  {
    DecisionTexts(v) + {UNKNOWN}
  }

  function KnownCautions(): set<string> {
    {"none", "low", "medium", "high", "critical", UNKNOWN}
  }

  function LocalResults(): set<string> {
    {Join("locally", "valid"), Join("locally", "invalid"), Join("not", "present"), UNKNOWN}
  }

  function DetectionResults(): set<string> {
    {Join("missing", Join("required", "fields")), Join("unsafe", Join("flags", "detected")),
     Join("private", Join("data", "detected"))}
  }

  function OtherResults(): set<string> {
    {Join("decision", Join("link", "missing")), DraftResult()}
  }

  function DraftResult(): string {
    Join("draft", Join("only", Join("not", Join("externally", "verified"))))
  }

  function KnownVerifications(): set<string> {
    LocalResults() + DetectionResults() + OtherResults()
  }

  lemma DecisionTextsAreTokens(v: seq<string>)
    requires IsVocabulary(v)
    ensures AreTokens(DecisionTexts(v))
  {
    forall t | t in DecisionTexts(v) ensures Canonical(t) && |t| <= LIMIT {
      var d: Decision :| DecisionText(v, d) == t;
      assert IsPlainToken(v[DecisionPlace(d)]);
    }
  }

  lemma DecisionsKnown(v: seq<string>)
    requires IsVocabulary(v)
    ensures IsKnownSet(KnownDecisions(v), UNKNOWN)
  {
    DecisionTextsAreTokens(v);
  }

  lemma CautionsKnown()
    ensures IsKnownSet(KnownCautions(), UNKNOWN)
  {
    WordIsPlain("none");
    WordIsPlain("low");
    WordIsPlain("medium");
    WordIsPlain("high");
    WordIsPlain("critical");
    WordIsPlain(UNKNOWN);
  }

  lemma LocalResultsPlain()
    ensures forall t :: t in LocalResults() ==> IsPhrase(t)
  {
    Phrase2("locally", "valid");
    Phrase2("locally", "invalid");
    Phrase2("not", "present");
    WordIsPlain(UNKNOWN);
  }

  lemma DraftResultPlain()
    ensures IsPhrase(DraftResult())
  {
  }

  lemma DetectionResultsPlain()
    ensures forall t :: t in DetectionResults() ==> IsPhrase(t)
  {
    Phrase3("missing", "required", "fields");
    Phrase3("unsafe", "flags", "detected");
    Phrase3("private", "data", "detected");
  }

  lemma OtherResultsPlain()
    ensures forall t :: t in OtherResults() ==> IsPhrase(t)
  {
    Phrase3("decision", "link", "missing");
    DraftResultPlain();
  }

  lemma VerificationsKnown()
    ensures IsKnownSet(KnownVerifications(), UNKNOWN)
  {
    LocalResultsPlain();
    DetectionResultsPlain();
    OtherResultsPlain();
  }

  /** The lists the comparison uses meet what its theorems ask of them. */
  lemma StandardListsKnown()
    ensures IsVocabulary(Standard())
    ensures AreKnown(Lists(KnownDecisions(Standard()), KnownCautions(), KnownVerifications()))
  {
    StandardIsVocabulary();
    DecisionsKnown(Standard());
    CautionsKnown();
    VerificationsKnown();
  }
}
