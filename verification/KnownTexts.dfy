/**
 Enumerated texts: a text counts as its case-preserving token when that is known, and as a fallback otherwise.
 */
module KnownTexts {
  import opened Tokens

  const LIMIT := 96

  /** All the texts are their own tokens. */
  predicate AreTokens(known: set<string>) {
    forall t :: t in known ==> Canonical(t) && |t| <= LIMIT
  }

  /** Known texts are their own tokens, and the fallback is one of them. */
  predicate IsKnownSet(known: set<string>, fallback: string) {
    fallback in known && AreTokens(known)
  }

  function SafeEnum(text: string, known: set<string>, fallback: string): string {
    if Token(text, LIMIT) in known then Token(text, LIMIT) else fallback
  }

  /** The result is known, and the known texts are exactly those that are left alone. */
  lemma EnumReadsBack(text: string, known: set<string>, fallback: string)
    requires IsKnownSet(known, fallback)
    ensures SafeEnum(text, known, fallback) in known
    ensures SafeEnum(text, known, fallback) == text <==> text in known
    ensures SafeEnum(SafeEnum(text, known, fallback), known, fallback) == SafeEnum(text, known, fallback)
  {
    TokenFixedPoint(text, LIMIT);
    TokenFixedPoint(SafeEnum(text, known, fallback), LIMIT);
  }

  lemma TokensJoin(a: set<string>, b: set<string>)
    requires AreTokens(a) && AreTokens(b)
    ensures AreTokens(a + b)
  {
  }
}
