/**
 Pseudonymous references: an id becomes its kind, the word "reference" and twenty hex digits of its hash; a text
 that already has that form is kept.  Lists of ids become sorted lists of distinct references.
 */
module References {
  import opened Primitives
  import opened OrderedText

  const REFERENCE_DIGITS := 20

  /** What is assumed of the hash: a text of 64 hex digits.  Nothing rests on its being injective. */
  ghost predicate IsHash(sha: string -> string) {
    forall s :: |sha(s)| == 64 && forall i :: 0 <= i < |sha(s)| ==> IsHexDigit(sha(s)[i])
  }

  function Prefix(kind: string): string {
    kind + "_reference_"
  }

  predicate IsReference(kind: string, s: string) {
    && |s| == |Prefix(kind)| + REFERENCE_DIGITS
    && s[..|Prefix(kind)|] == Prefix(kind)
    && forall i :: |Prefix(kind)| <= i < |s| ==> IsHexDigit(s[i])
  }

  function SafeReference(sha: string -> string, kind: string, value: string): string
    requires |sha(value)| >= REFERENCE_DIGITS
  {
    if IsReference(kind, value) then value else Prefix(kind) + sha(value)[..REFERENCE_DIGITS]
  }

  /** The result is a reference of the kind; making a reference of it again changes nothing. */
  lemma SafeReferenceSettles(sha: string -> string, kind: string, value: string)
    requires IsHash(sha)
    ensures IsReference(kind, SafeReference(sha, kind, value))
    ensures SafeReference(sha, kind, SafeReference(sha, kind, value)) == SafeReference(sha, kind, value)
    ensures SafeReference(sha, kind, value) == value <==> IsReference(kind, value)
  {
    var r := SafeReference(sha, kind, value);
    if !IsReference(kind, value) {
      var digits := sha(value)[..REFERENCE_DIGITS];
      assert r[..|Prefix(kind)|] == Prefix(kind);
      forall i | |Prefix(kind)| <= i < |r| ensures IsHexDigit(r[i]) {
        assert r[i] == digits[i - |Prefix(kind)|] && digits[i - |Prefix(kind)|] == sha(value)[i - |Prefix(kind)|];
      }
    }
  }

  lemma ReferenceNotBlank(kind: string, s: string)
    requires IsReference(kind, s)
    ensures NonBlank(s)
  {
    var last := s[|s| - 1];
    assert IsHexDigit(last) && !IsSpace(last);
  }

  /** An entry of an id list that counts: a text with something in it. */
  predicate IsEntry(v: Option<string>) {
    v.Some? && NonBlank(v.value)
  }

  /** The references a list stands for. */
  ghost function ReferenceSet(sha: string -> string, kind: string, values: seq<Option<string>>): set<string>
    requires IsHash(sha)
  {
    set v | v in values && IsEntry(v) :: SafeReference(sha, kind, v.value)
  }

  /** The references in the order of the entries. */
  function Referenced(sha: string -> string, kind: string, values: seq<Option<string>>): seq<string>
    requires IsHash(sha)
  {
    if values == [] then []
    else
      var front := Referenced(sha, kind, values[..|values| - 1]);
      var last := values[|values| - 1];
      if IsEntry(last) then front + [SafeReference(sha, kind, last.value)] else front
  }

  function SafeReferenceList(sha: string -> string, kind: string, values: seq<Option<string>>): seq<string>
    requires IsHash(sha)
  {
    SortDistinct(Referenced(sha, kind, values), LEX)
  }

  lemma {:induction false} ReferencedElements(sha: string -> string, kind: string, values: seq<Option<string>>)
    requires IsHash(sha)
    ensures Elements(Referenced(sha, kind, values)) == ReferenceSet(sha, kind, values)
  {
    if values != [] {
      var front, last := values[..|values| - 1], values[|values| - 1];
      ReferencedElements(sha, kind, front);
      assert forall v :: v in values <==> v in front || v == last;
      var before, after := Referenced(sha, kind, front), Referenced(sha, kind, values);
      if IsEntry(last) {
        assert forall x :: x in after <==> x in before || x == SafeReference(sha, kind, last.value);
        SetGrows(sha, kind, front, last, values);
      } else {
        assert ReferenceSet(sha, kind, values) == ReferenceSet(sha, kind, front);
      }
    }
  }

  lemma SetGrows(sha: string -> string, kind: string, front: seq<Option<string>>, last: Option<string>,
                 values: seq<Option<string>>)
    requires IsHash(sha) && IsEntry(last)
    requires forall v :: v in values <==> v in front || v == last
    ensures ReferenceSet(sha, kind, values) == ReferenceSet(sha, kind, front) + {SafeReference(sha, kind, last.value)}
  {
    assert last in values;
  }

  /** Two lists come out the same exactly when they stand for the same set of references. */
  lemma ListsEqualIffSameReferences(sha: string -> string, kind: string, a: seq<Option<string>>, b: seq<Option<string>>)
    requires IsHash(sha)
    ensures SafeReferenceList(sha, kind, a) == SafeReferenceList(sha, kind, b)
      <==> ReferenceSet(sha, kind, a) == ReferenceSet(sha, kind, b)
  {
    ReferencedElements(sha, kind, a);
    ReferencedElements(sha, kind, b);
    LexIsStrictOrder(ReferenceSet(sha, kind, a));
    LexIsStrictOrder(ReferenceSet(sha, kind, b));
    SortDistinctCanonical(Referenced(sha, kind, a), Referenced(sha, kind, b), LEX);
  }

  /** A normalised list is strictly ascending and holds references of its kind only. */
  lemma ListShape(sha: string -> string, kind: string, values: seq<Option<string>>)
    requires IsHash(sha)
    ensures Ascending(SafeReferenceList(sha, kind, values), LEX)
    ensures Elements(SafeReferenceList(sha, kind, values)) == ReferenceSet(sha, kind, values)
    ensures forall x :: x in SafeReferenceList(sha, kind, values) ==> IsReference(kind, x)
  {
    ReferencedElements(sha, kind, values);
    LexIsStrictOrder(ReferenceSet(sha, kind, values));
    SortDistinctSorts(Referenced(sha, kind, values), LEX);
    var r := SafeReferenceList(sha, kind, values);
    forall x | x in r ensures IsReference(kind, x) {
      assert x in Elements(r);
      var v :| v in values && IsEntry(v) && SafeReference(sha, kind, v.value) == x;
      SafeReferenceSettles(sha, kind, v.value);
    }
  }

  // ----- what does not matter -------------------------------------------------------------------

  /** Neither order nor repetition matters. */
  lemma ReorderingIsInvisible(sha: string -> string, kind: string, a: seq<Option<string>>, b: seq<Option<string>>)
    requires IsHash(sha) && forall v :: v in a <==> v in b
    ensures SafeReferenceList(sha, kind, a) == SafeReferenceList(sha, kind, b)
  {
    assert ReferenceSet(sha, kind, a) == ReferenceSet(sha, kind, b);
    ListsEqualIffSameReferences(sha, kind, a, b);
  }

  /** Blank entries and entries that are no texts do not matter. */
  lemma BlanksAreInvisible(sha: string -> string, kind: string, a: seq<Option<string>>, blank: Option<string>,
                           b: seq<Option<string>>)
    requires IsHash(sha) && !IsEntry(blank)
    ensures SafeReferenceList(sha, kind, a + [blank] + b) == SafeReferenceList(sha, kind, a + b)
  {
    assert forall v :: v in a + [blank] + b <==> v in a + b || v == blank;
    assert ReferenceSet(sha, kind, a + [blank] + b) == ReferenceSet(sha, kind, a + b);
    ListsEqualIffSameReferences(sha, kind, a + [blank] + b, a + b);
  }

  /** An entry may already have been replaced by its reference. */
  ghost predicate Pseudonymised(sha: string -> string, kind: string, before: Option<string>, after: Option<string>)
    requires IsHash(sha)
  {
    after == before || (IsEntry(before) && after == Some(SafeReference(sha, kind, before.value)))
  }

  lemma PseudonymsStandAlike(sha: string -> string, kind: string, a: seq<Option<string>>, b: seq<Option<string>>,
                             x: string)
    requires IsHash(sha) && |a| == |b| && forall i :: 0 <= i < |a| ==> Pseudonymised(sha, kind, a[i], b[i])
    ensures x in ReferenceSet(sha, kind, a) <==> x in ReferenceSet(sha, kind, b)
  {
    if x in ReferenceSet(sha, kind, a) {
      var v :| v in a && IsEntry(v) && SafeReference(sha, kind, v.value) == x;
      var i :| 0 <= i < |a| && a[i] == v;
      assert Pseudonymised(sha, kind, a[i], b[i]);
      SafeReferenceSettles(sha, kind, v.value);
      ReferenceNotBlank(kind, x);
      assert b[i] in b && IsEntry(b[i]) && SafeReference(sha, kind, b[i].value) == x;
    }
    if x in ReferenceSet(sha, kind, b) {
      var v :| v in b && IsEntry(v) && SafeReference(sha, kind, v.value) == x;
      var i :| 0 <= i < |b| && b[i] == v;
      assert Pseudonymised(sha, kind, a[i], b[i]);
      if a[i] != b[i] {
        SafeReferenceSettles(sha, kind, a[i].value);
      }
      assert a[i] in a && IsEntry(a[i]) && SafeReference(sha, kind, a[i].value) == x;
    }
  }

  /** Ids that were pseudonymised beforehand give the same list. */
  lemma PseudonymsAreInvisible(sha: string -> string, kind: string, a: seq<Option<string>>, b: seq<Option<string>>)
    requires IsHash(sha) && |a| == |b| && forall i :: 0 <= i < |a| ==> Pseudonymised(sha, kind, a[i], b[i])
    ensures SafeReferenceList(sha, kind, a) == SafeReferenceList(sha, kind, b)
  {
    forall x ensures x in ReferenceSet(sha, kind, a) <==> x in ReferenceSet(sha, kind, b) {
      PseudonymsStandAlike(sha, kind, a, b, x);
    }
    ListsEqualIffSameReferences(sha, kind, a, b);
  }

  function Entries(s: seq<string>): (r: seq<Option<string>>)
    ensures |r| == |s| && forall i :: 0 <= i < |r| ==> r[i] == Some(s[i])
  {
    seq(|s|, i requires 0 <= i < |s| => Some(s[i]))
  }

  /** A normalised list is its own normal form; nothing else is. */
  lemma ListSettlesExactly(sha: string -> string, kind: string, s: seq<string>)
    requires IsHash(sha)
    ensures SafeReferenceList(sha, kind, Entries(s)) == s
      <==> Ascending(s, LEX) && forall x :: x in s ==> IsReference(kind, x)
  {
    var values := Entries(s);
    ListShape(sha, kind, values);
    if Ascending(s, LEX) && forall x :: x in s ==> IsReference(kind, x) {
      forall x ensures x in ReferenceSet(sha, kind, values) <==> x in s {
        if x in ReferenceSet(sha, kind, values) {
          var v :| v in values && IsEntry(v) && SafeReference(sha, kind, v.value) == x;
          var i :| 0 <= i < |values| && values[i] == v;
          assert s[i] in s;
        }
        if x in s {
          var i :| 0 <= i < |s| && s[i] == x;
          ReferenceNotBlank(kind, x);
          assert values[i] in values && IsEntry(values[i]) && SafeReference(sha, kind, values[i].value) == x;
        }
      }
      LexIsStrictOrder(Elements(s));
      assert Elements(s) == Elements(SafeReferenceList(sha, kind, values));
      AscendingUnique(s, SafeReferenceList(sha, kind, values), LEX);
    }
  }
}
