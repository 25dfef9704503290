/**
 How a clearing request is read: each status is a free text, taken by its token; a token outside the known ones
 counts as the most doubtful value.
 */
module ClearingRequest {
  import opened Tokens
  import opened ClearingDecision
  import opened RequestTexts

  /** The texts of a request and of the caution level that came with the query result. */
  datatype Request = Request(
    category: string, action: string, risk: string, impact: string, evidence: string, approval: string,
    identity: string, intent: string, caution: string)

  function ReadLevel(token: string): Level {
    if token == "low" then LowLevel
    else if token == "medium" then MediumLevel
    else if token == "high" then HighLevel
    else if token == "blocked" then BlockedLevel
    else OtherLevel
  }

  function ReadApproval(token: string): Approval {
    if token == "approved" then Approved else if token == "not_required" then NotRequired else NotApproved
  }

  predicate ReadEvidence(token: string) {
    token == "complete" || token == "sufficient" || token == "verified" || token == "hash_only"
  }

  predicate ReadIdentity(token: string) {
    token == "verified" || token == "verified_locally"
  }

  predicate ReadIntent(token: string) {
    token == "clear" || token == "declared" || token == "not_applicable"
  }

  function ReadCaution(token: string): Caution {
    if token == "none" then NoCaution
    else if token == "low" then LowCaution
    else if token == "medium" then MediumCaution
    else if token == "critical" then CriticalCaution
    else HighCaution
  }

  function Read(r: Request, query: QueryResult): Reading {
    Reading(
      ReadCategory(SafeToken(r.category)), ReadAction(SafeToken(r.action)),
      ReadLevel(SafeToken(r.risk)), ReadLevel(SafeToken(r.impact)), ReadApproval(SafeToken(r.approval)),
      ReadEvidence(SafeToken(r.evidence)), ReadIdentity(SafeToken(r.identity)), ReadIntent(SafeToken(r.intent)),
      query.(caution := ReadCaution(SafeToken(r.caution))))
  }

  /** The request with every text replaced by its token. */
  function Normalised(r: Request): Request {
    Request(
      SafeToken(r.category), SafeToken(r.action), SafeToken(r.risk), SafeToken(r.impact), SafeToken(r.evidence),
      SafeToken(r.approval), SafeToken(r.identity), SafeToken(r.intent), SafeToken(r.caution))
  }

  // ----- reading what is already normalised -----------------------------------------------------

  /** A token that a second application changes is too long to be a known one, before and after. */
  lemma UnsettledTokensAreLong(s: string)
    ensures SafeToken(SafeToken(s)) == SafeToken(s)
      || (|SafeToken(s)| >= 63 && |SafeToken(SafeToken(s))| >= 63)
  {
    SafeTokenShape(s);
    SafeTokenStable(s);
    var whole, t := Clean(Lower(s)), SafeToken(s);
    if SafeToken(t) != t {
      CleanCanonical(Lower(s));
      CleanTrailing(t);
    }
  }

  lemma LongTokenNoCategory(t: string)
    requires |t| >= 63
    ensures ReadCategory(t) == OtherCategory
  {
    CategoryTextHasMark(ReadCategory(t));
  }

  lemma LongTokenNoAction(t: string)
    requires |t| >= 63
    ensures ReadAction(t) == OtherAction
  {
    ActionTextHasMark(ReadAction(t));
  }

  lemma LongTokenNoLevel(t: string)
    requires |t| >= 63
    ensures ReadLevel(t) == OtherLevel && ReadApproval(t) == NotApproved && ReadCaution(t) == HighCaution
    ensures !ReadEvidence(t) && !ReadIdentity(t) && !ReadIntent(t)
  {
  }

  lemma CategoryReadsAlike(s: string)
    ensures ReadCategory(SafeToken(SafeToken(s))) == ReadCategory(SafeToken(s))
  {
    UnsettledTokensAreLong(s);
    if SafeToken(SafeToken(s)) != SafeToken(s) {
      LongTokenNoCategory(SafeToken(s));
      LongTokenNoCategory(SafeToken(SafeToken(s)));
    }
  }

  lemma ActionReadsAlike(s: string)
    ensures ReadAction(SafeToken(SafeToken(s))) == ReadAction(SafeToken(s))
  {
    UnsettledTokensAreLong(s);
    if SafeToken(SafeToken(s)) != SafeToken(s) {
      LongTokenNoAction(SafeToken(s));
      LongTokenNoAction(SafeToken(SafeToken(s)));
    }
  }

  lemma StatusReadsAlike(s: string)
    ensures var t, u := SafeToken(s), SafeToken(SafeToken(s));
      && ReadLevel(u) == ReadLevel(t) && ReadApproval(u) == ReadApproval(t) && ReadCaution(u) == ReadCaution(t)
      && ReadEvidence(u) == ReadEvidence(t) && ReadIdentity(u) == ReadIdentity(t) && ReadIntent(u) == ReadIntent(t)
  {
    UnsettledTokensAreLong(s);
    if SafeToken(SafeToken(s)) != SafeToken(s) {
      LongTokenNoLevel(SafeToken(s));
      LongTokenNoLevel(SafeToken(SafeToken(s)));
    }
  }

  /** Normalising a request beforehand changes nothing the engine sees, although a token need not be stable. */
  lemma NormalisedReadsAlike(r: Request, query: QueryResult)
    ensures Read(Normalised(r), query) == Read(r, query)
  {
    CategoryReadsAlike(r.category);
    ActionReadsAlike(r.action);
    StatusReadsAlike(r.risk);
    StatusReadsAlike(r.impact);
    StatusReadsAlike(r.approval);
    StatusReadsAlike(r.evidence);
    StatusReadsAlike(r.identity);
    StatusReadsAlike(r.intent);
    StatusReadsAlike(r.caution);
  }
}
