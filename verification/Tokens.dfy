/**
 `safeToken`: trim, lower-case, replace every run of other characters by one underscore, strip the
 underscores at the ends, cut.  The module proves which texts it leaves alone and how often it has to be
 applied before it does.
 */
module Tokens {
  import opened Primitives

  predicate IsTokenChar(c: char) {
    'a' <= c <= 'z' || 'A' <= c <= 'Z' || '0' <= c <= '9'
  }

  function LowerChar(c: char): char {
    if 'A' <= c <= 'Z' then (c as int + 32) as char else c
  }

  function Lower(s: string): (r: string)
    ensures |r| == |s|
    ensures forall i :: 0 <= i < |s| ==> r[i] == LowerChar(s[i])
  {
    seq(|s|, i requires 0 <= i < |s| => LowerChar(s[i]))
  }

  function TrimStart(s: string): (r: string)
    ensures |r| <= |s|
  {
    if s != "" && IsSpace(s[0]) then TrimStart(s[1..]) else s
  }

  function TrimEnd(s: string): (r: string)
    ensures |r| <= |s|
  {
    if s != "" && IsSpace(s[|s| - 1]) then TrimEnd(s[..|s| - 1]) else s
  }

  function Trim(s: string): string {
    TrimEnd(TrimStart(s))
  }

  /** Every maximal run of other characters becomes one underscore. */
  function Collapse(s: string): (r: string)
    ensures |r| <= |s|
    decreases |s|
  {
    if s == "" then ""
    else if IsTokenChar(s[0]) then [s[0]] + Collapse(s[1..])
    else "_" + Collapse(SkipRun(s))
  }

  /** What follows the first run of other characters. */
  function SkipRun(s: string): (r: string)
    ensures |r| <= |s|
    ensures s != "" && !IsTokenChar(s[0]) ==> |r| < |s|
    ensures r != "" ==> IsTokenChar(r[0])
  {
    if s == "" || IsTokenChar(s[0]) then s else SkipRun(s[1..])
  }

  function StripStart(s: string): (r: string)
    ensures |r| <= |s|
  {
    if s != "" && s[0] == '_' then StripStart(s[1..]) else s
  }

  function StripEnd(s: string): (r: string)
    ensures |r| <= |s|
  {
    if s != "" && s[|s| - 1] == '_' then StripEnd(s[..|s| - 1]) else s
  }

  function Cut(s: string, limit: nat): string {
    if |s| <= limit then s else s[..limit]
  }

  /** Everything but the cut. */
  function Clean(s: string): string {
    StripEnd(StripStart(Collapse(Trim(s))))
  }

  /** The token that keeps the case of letters. */
  function Token(s: string, limit: nat): string {
    Cut(Clean(s), limit)
  }

  /** The lower-case token of the clearing engines. */
  function SafeToken(s: string): string {
    Cut(Clean(Lower(s)), 64)
  }

  // ----- the shape of a token -------------------------------------------------------------------

  /** Token characters with single underscores between them; an underscore may end the text. */
  predicate Spaced(s: string) {
    && (forall i :: 0 <= i < |s| ==> IsTokenChar(s[i]) || s[i] == '_')
    && (forall i :: 0 < i < |s| && s[i] == '_' ==> s[i - 1] != '_')
  }

  predicate NoLeading(s: string) {
    s != "" ==> s[0] != '_'
  }

  predicate NoTrailing(s: string) {
    s != "" ==> s[|s| - 1] != '_'
  }

  /** A text that cleaning does not change. */
  predicate Canonical(s: string) {
    Spaced(s) && NoLeading(s) && NoTrailing(s)
  }

  lemma {:induction false} CollapseSpaced(s: string)
    ensures Spaced(Collapse(s))
    ensures s != "" && IsTokenChar(s[0]) ==> Collapse(s) != "" && Collapse(s)[0] == s[0]
    decreases |s|
  {
    if s == "" {
    } else if IsTokenChar(s[0]) {
      CollapseSpaced(s[1..]);
    } else {
      var rest := SkipRun(s);
      CollapseSpaced(rest);
    }
  }

  lemma {:induction false} StripStartSpaced(s: string)
    requires Spaced(s)
    ensures Spaced(StripStart(s)) && NoLeading(StripStart(s))
  {
    if s != "" && s[0] == '_' {
      var t := s[1..];
      forall i | 0 < i < |t| && t[i] == '_' ensures t[i - 1] != '_' {
        assert s[i + 1] == '_';
      }
      StripStartSpaced(t);
    }
  }

  lemma {:induction false} StripEndSpaced(s: string)
    requires Spaced(s) && NoLeading(s)
    ensures Canonical(StripEnd(s))
  {
    if s != "" && s[|s| - 1] == '_' {
      StripEndSpaced(s[..|s| - 1]);
    }
  }

  /** Cleaning always gives a canonical text. */
  lemma CleanCanonical(s: string)
    ensures Canonical(Clean(s))
  {
    CollapseSpaced(Trim(s));
    StripStartSpaced(Collapse(Trim(s)));
    StripEndSpaced(StripStart(Collapse(Trim(s))));
  }

  // ----- the texts that are left alone ----------------------------------------------------------

  lemma SpaceIsNoTokenChar(c: char)
    ensures IsSpace(c) ==> !IsTokenChar(c) && c != '_'
  {
  }

  lemma SpacedIsTrimmed(s: string)
    requires Spaced(s)
    ensures Trim(s) == s
  {
    if s != "" {
      SpaceIsNoTokenChar(s[0]);
      SpaceIsNoTokenChar(s[|s| - 1]);
    }
  }

  lemma {:induction false} SpacedIsCollapsed(s: string)
    requires Spaced(s)
    ensures Collapse(s) == s
  {
    if s != "" {
      var t := s[1..];
      assert s == [s[0]] + t;
      forall i | 0 < i < |t| && t[i] == '_' ensures t[i - 1] != '_' {
        assert s[i + 1] == '_';
      }
      SpacedIsCollapsed(t);
      if s[0] == '_' {
        assert t != "" ==> t[0] == s[1] && IsTokenChar(t[0]);
        assert SkipRun(t) == t;
      }
    }
  }

  /** Cleaning changes nothing exactly when the text is canonical. */
  lemma CleanFixedPoint(s: string)
    ensures Clean(s) == s <==> Canonical(s)
  {
    if Canonical(s) {
      SpacedIsTrimmed(s);
      SpacedIsCollapsed(s);
    }
    CleanCanonical(s);
  }

  /** A text that ends in a single underscore loses only that. */
  lemma CleanTrailing(s: string)
    requires Spaced(s) && NoLeading(s) && s != "" && s[|s| - 1] == '_'
    ensures Clean(s) == s[..|s| - 1] && Canonical(s[..|s| - 1])
  {
    SpacedIsTrimmed(s);
    SpacedIsCollapsed(s);
    var t := s[..|s| - 1];
    assert |s| > 1 && s[|s| - 2] != '_';
    assert StripStart(s) == s && StripEnd(t) == t;
  }

  // ----- applying it again ----------------------------------------------------------------------

  /** The output: at most `limit` characters, all of the token alphabet, no underscore in front and no two
      together. */
  lemma TokenShape(s: string, limit: nat)
    ensures |Token(s, limit)| <= limit && Spaced(Token(s, limit)) && NoLeading(Token(s, limit))
  {
    CleanCanonical(s);
  }

  /** A token is its own token unless the cut fell right behind an underscore. */
  lemma TokenStable(s: string, limit: nat)
    ensures Token(Token(s, limit), limit) == Token(s, limit) <==>
              !(|Clean(s)| > limit > 0 && Clean(s)[limit - 1] == '_')
  {
    CleanCanonical(s);
    var t := Token(s, limit);
    if |Clean(s)| > limit > 0 && Clean(s)[limit - 1] == '_' {
      CleanTrailing(t);
    } else {
      CleanFixedPoint(t);
    }
  }

  /** Two applications are always enough. */
  lemma TokenSettlesAfterTwo(s: string, limit: nat)
    ensures Token(Token(Token(s, limit), limit), limit) == Token(Token(s, limit), limit)
  {
    CleanCanonical(s);
    var t := Token(s, limit);
    if t != "" && t[|t| - 1] == '_' {
      CleanTrailing(t);
      CleanFixedPoint(t[..|t| - 1]);
    } else {
      CleanFixedPoint(t);
    }
  }

  /** Exactly the canonical texts within the limit are left alone. */
  lemma TokenFixedPoint(s: string, limit: nat)
    ensures Token(s, limit) == s <==> Canonical(s) && |s| <= limit
  {
    CleanFixedPoint(s);
    CleanCanonical(s);
  }

  // ----- the lower-case token -------------------------------------------------------------------

  predicate NoUpper(s: string) {
    forall i :: 0 <= i < |s| ==> !('A' <= s[i] <= 'Z')
  }

  lemma LowerNoUpper(s: string)
    ensures NoUpper(Lower(s))
    ensures NoUpper(s) ==> Lower(s) == s
  {
  }

  lemma {:induction false} CollapseNoUpper(s: string)
    requires NoUpper(s)
    ensures NoUpper(Collapse(s))
    decreases |s|
  {
    if s == "" {
    } else if IsTokenChar(s[0]) {
      CollapseNoUpper(s[1..]);
    } else {
      SkipRunNoUpper(s);
      CollapseNoUpper(SkipRun(s));
    }
  }

  lemma {:induction false} SkipRunNoUpper(s: string)
    requires NoUpper(s)
    ensures NoUpper(SkipRun(s))
  {
    if s != "" && !IsTokenChar(s[0]) {
      SkipRunNoUpper(s[1..]);
    }
  }

  lemma {:induction false} TrimNoUpper(s: string)
    requires NoUpper(s)
    ensures NoUpper(TrimStart(s)) && NoUpper(TrimEnd(s))
  {
    if s != "" {
      TrimNoUpper(s[1..]);
      TrimNoUpper(s[..|s| - 1]);
    }
  }

  lemma {:induction false} StripNoUpper(s: string)
    requires NoUpper(s)
    ensures NoUpper(StripStart(s)) && NoUpper(StripEnd(s))
  {
    if s != "" {
      StripNoUpper(s[1..]);
      StripNoUpper(s[..|s| - 1]);
    }
  }

  lemma CleanNoUpper(s: string)
    requires NoUpper(s)
    ensures NoUpper(Clean(s))
  {
    TrimNoUpper(s);
    TrimNoUpper(TrimStart(s));
    CollapseNoUpper(Trim(s));
    StripNoUpper(Collapse(Trim(s)));
    StripNoUpper(StripStart(Collapse(Trim(s))));
  }

  /** The output of the lower-case token, and its second and later applications. */
  lemma SafeTokenShape(s: string)
    ensures |SafeToken(s)| <= 64 && Spaced(SafeToken(s)) && NoLeading(SafeToken(s)) && NoUpper(SafeToken(s))
    ensures SafeToken(SafeToken(s)) == Token(SafeToken(s), 64)
  {
    TokenShape(Lower(s), 64);
    LowerNoUpper(s);
    CleanNoUpper(Lower(s));
    LowerNoUpper(SafeToken(s));
  }

  /** Three applications equal two. */
  lemma SafeTokenSettlesAfterTwo(s: string)
    ensures SafeToken(SafeToken(SafeToken(s))) == SafeToken(SafeToken(s))
  {
    SafeTokenShape(s);
    SafeTokenShape(SafeToken(s));
    TokenSettlesAfterTwo(Lower(s), 64);
  }

  /** One application is already stable, except when the cut at 64 fell right behind an underscore. */
  lemma SafeTokenStable(s: string)
    ensures SafeToken(SafeToken(s)) == SafeToken(s) <==>
              !(|Clean(Lower(s))| > 64 && Clean(Lower(s))[63] == '_')
  {
    SafeTokenShape(s);
    TokenStable(Lower(s), 64);
  }

  /** The texts the lower-case token leaves alone. */
  predicate IsPlainToken(s: string) {
    Canonical(s) && |s| <= 64 && NoUpper(s)
  }

  lemma SafeTokenFixedPoint(s: string)
    ensures SafeToken(s) == s <==> IsPlainToken(s)
  {
    if SafeToken(s) == s {
      SafeTokenShape(s);
      TokenFixedPoint(s, 64);
    }
    if IsPlainToken(s) {
      LowerNoUpper(s);
      TokenFixedPoint(s, 64);
    }
  }

  // ----- tokens made of words -------------------------------------------------------------------

  predicate IsWord(s: string) {
    s != "" && forall i :: 0 <= i < |s| ==> 'a' <= s[i] <= 'z'
  }

  lemma WordIsPlain(s: string)
    requires IsWord(s) && |s| <= 64
    ensures IsPlainToken(s)
  {
  }

  lemma JoinIsPlain(a: string, b: string)
    requires IsPlainToken(a) && IsPlainToken(b) && a != "" && b != "" && |a| + 1 + |b| <= 64
    ensures IsPlainToken(a + "_" + b)
  {
    var r := a + "_" + b;
    forall i | 0 < i < |r| && r[i] == '_' ensures r[i - 1] != '_' {
      if i > |a| {
        assert r[i] == b[i - |a| - 1];
        assert i > |a| + 1 ==> r[i - 1] == b[i - |a| - 2];
      }
    }
  }
}
