/**
 From a value of unknown shape to the verifier of destination evidence: the walk refuses what is no finite tree, the
 keys at each level are compared exactly, and what is left is read by name.  The verdict depends on the canonical form
 of the value alone, and nothing in a verified value can be changed under its signature.
 */
module EvidenceInput {
  import opened Primitives
  import opened OrderedText
  import opened EvidenceGraph
  import opened DestinationEvidence

  /** What texts stand for: a signature, the digest of a request, the digest of a record, a time. */
  datatype Texts = Texts(
    signature: string -> Signature<Unsigned>, request: string -> Digest<string>, record: string -> Digest<Record>,
    time: string -> Stamp)

  /** The expected keys at the four levels, in the order of the fields of the model. */
  datatype Keys = Keys(envelope: seq<string>, payload: seq<string>, lookup: seq<string>, fence: seq<string>)

  predicate AreKeys(k: Keys) {
    && |k.envelope| == 5 && |k.payload| == 21 && |k.lookup| == 5 && |k.fence| == 5
    && NoRepeats(k.envelope) && NoRepeats(k.payload) && NoRepeats(k.lookup) && NoRepeats(k.fence)
  }

  const ENVELOPE_KEYS: seq<string> := ["schema", "algorithm", "keyId", "payload", "signature"]
  const LOOKUP_KEYS: seq<string> := ["requestId", "challenge", "requestedAt", "clockId", "fenceId"]
  const FENCE_KEYS: seq<string> := ["fenceId", "gatePassId", "idempotencyId", "completed", "sequence"]
  const PAYLOAD_KEYS: seq<string> := [
    "schema", "destinationIdentity", "approvalId", "gatePassId", "actionDigest", "approvedRequestDigest",
    "approvedBusinessStateDigest", "approvedBusinessState", "idempotencyId", "transactionId", "outcome",
    "resultingRecordVersion", "recordDigest", "lookup", "observedAt", "clockId", "authoritativeLookup",
    "destinationSequence", "fence", "syntheticOnly", "sameHost"]
  const KEYS := Keys(ENVELOPE_KEYS, PAYLOAD_KEYS, LOOKUP_KEYS, FENCE_KEYS)

  const PAYLOAD_MARKS: seq<Mark> := [
    Mark(6, 's', 'a'), Mark(19, 'd', 'y'), Mark(10, 'a', 'd'), Mark(10, 'g', 'd'), Mark(12, 'a', 't'),
    Mark(21, 'a', 't'), Mark(27, 'a', 't'), Mark(21, 'a', 'e'), Mark(13, 'i', 'd'), Mark(13, 't', 'd'),
    Mark(7, 'o', 'e'), Mark(22, 'r', 'n'), Mark(12, 'r', 't'), Mark(6, 'l', 'p'), Mark(10, 'o', 't'),
    Mark(7, 'c', 'd'), Mark(19, 'a', 'p'), Mark(19, 'd', 'e'), Mark(5, 'f', 'e'), Mark(13, 's', 'y'),
    Mark(8, 's', 't')]

  lemma PayloadMarks(i: nat)
    requires i < 21
    ensures PAYLOAD_KEYS[i] != "" && MarkOf(PAYLOAD_KEYS[i]) == PAYLOAD_MARKS[i]
  {
  }

  lemma PayloadKeysDiffer(i: nat, j: nat)
    requires i < j < 21
    ensures PAYLOAD_KEYS[i] != PAYLOAD_KEYS[j]
  {
    PayloadMarks(i);
    PayloadMarks(j);
    MarksDiffer(i, j);
  }

  lemma MarksDiffer(i: nat, j: nat)
    requires i < j < 21
    ensures PAYLOAD_MARKS[i] != PAYLOAD_MARKS[j]
  {
  }

  lemma PayloadKeysAreDistinct()
    ensures NoRepeats(PAYLOAD_KEYS)
  {
    forall i, j | 0 <= i < j < |PAYLOAD_KEYS| ensures PAYLOAD_KEYS[i] != PAYLOAD_KEYS[j] {
      PayloadKeysDiffer(i, j);
    }
  }

  lemma ShortListsAreDistinct()
    ensures NoRepeats(ENVELOPE_KEYS) && NoRepeats(LOOKUP_KEYS) && NoRepeats(FENCE_KEYS)
  {
  }

  /** The keys of the program are lists of this kind. */
  lemma KeysAreKeys()
    ensures AreKeys(KEYS)
  {
    PayloadKeysAreDistinct();
    ShortListsAreDistinct();
  }

  // ----- reading one level ----------------------------------------------------------------------

  predicate HasKeys(p: Plain, keys: seq<string>) {
    p.Members? && !p.isArray && p.members.Keys == Elements(keys)
  }

  /** The keys of an object as a list, in some order, against the expected ones.  An accepted array has index names only
      (`ArrayNamesAreIndices`), so that it never has expected keys. */
  method CheckKeys(p: Plain, keys: seq<string>) returns (same: bool)
    requires NoRepeats(keys)
    ensures same <==> HasKeys(p, keys)
  {
    if !p.Members? || p.isArray {
      return false;
    }
    var actual := Spread(p.members.Keys);
    same := ExactKeys(actual, keys);
  }

  lemma ArrayNamesAreIndices(h: Heap, v: Value, t: Json)
    requires Denotes(h, v, t) && t.Node? && t.isArray
    ensures forall i :: 0 <= i < |t.fields| ==> IsIndexText(t.fields[i].name)
  {
    var vis := Visible(h[v.id]);
    forall i | 0 <= i < |t.fields| ensures IsIndexText(t.fields[i].name) {
      assert vis[i] in vis;
    }
  }

  function At(p: Plain, keys: seq<string>, i: nat): Plain
    requires HasKeys(p, keys) && i < |keys|
  {
    assert keys[i] in Elements(keys);
    p.members[keys[i]]
  }

  predicate IsText(p: Plain) {
    p.Leaf? && p.scalar.Text?
  }

  predicate IsNumber(p: Plain) {
    p.Leaf? && p.scalar.Number?
  }

  predicate IsTruth(p: Plain) {
    p.Leaf? && p.scalar.Truth?
  }

  predicate IsNull(p: Plain) {
    p == Leaf(Null)
  }

  function TextOf(p: Plain): string
    requires IsText(p)
  {
    p.scalar.text
  }

  function TextOrNull(p: Plain): Option<string>
    requires IsText(p) || IsNull(p)
  {
    if IsText(p) then Some(p.scalar.text) else None
  }

  /** Two objects with the same keys and the same members. */
  lemma SameMembers(p: Plain, q: Plain, keys: seq<string>)
    requires HasKeys(p, keys) && HasKeys(q, keys)
    requires forall i :: 0 <= i < |keys| ==> At(p, keys, i) == At(q, keys, i)
    ensures p == q
  {
    forall name | name in p.members ensures p.members[name] == q.members[name] {
      assert name in Elements(keys);
      var i :| 0 <= i < |keys| && keys[i] == name;
      assert At(p, keys, i) == At(q, keys, i);
    }
    assert p.members == q.members;
  }

  // ----- lookup and fence -----------------------------------------------------------------------

  predicate IsTypedLookup(k: Keys, p: Plain)
    requires AreKeys(k) && HasKeys(p, k.lookup)
  {
    && (forall i :: 0 <= i < 4 ==> IsText(At(p, k.lookup, i)))
    && (IsText(At(p, k.lookup, 4)) || IsNull(At(p, k.lookup, 4)))
  }

  function ReadLookup(x: Texts, k: Keys, p: Plain): Checked<Lookup>
    requires AreKeys(k)
  {
    if !HasKeys(p, k.lookup) || !IsTypedLookup(k, p) then WrongKeys
    else
      Shaped(Lookup(
        TextOf(At(p, k.lookup, 0)), TextOf(At(p, k.lookup, 1)), x.time(TextOf(At(p, k.lookup, 2))),
        TextOf(At(p, k.lookup, 3)), TextOrNull(At(p, k.lookup, 4))))
  }

  predicate IsTypedFence(k: Keys, p: Plain)
    requires AreKeys(k) && HasKeys(p, k.fence)
  {
    && (forall i :: 0 <= i < 3 ==> IsText(At(p, k.fence, i)))
    && IsTruth(At(p, k.fence, 3)) && IsNumber(At(p, k.fence, 4))
  }

  function ReadFence(k: Keys, p: Plain): Checked<Fence>
    requires AreKeys(k)
  {
    if !HasKeys(p, k.fence) || !IsTypedFence(k, p) then WrongKeys
    else
      Shaped(Fence(
        TextOf(At(p, k.fence, 0)), TextOf(At(p, k.fence, 1)), TextOf(At(p, k.fence, 2)),
        At(p, k.fence, 3).scalar.truth, At(p, k.fence, 4).scalar.number))
  }

  /** The decoding of texts loses nothing. */
  ghost predicate Faithful(x: Texts) {
    && (forall s, t :: x.request(s) == x.request(t) ==> s == t)
    && (forall s, t :: x.record(s) == x.record(t) ==> s == t)
    && (forall s, t :: x.time(s) == x.time(t) ==> s == t)
  }

  /** Such decodings exist. */
  lemma SomeTextsAreFaithful() returns (x: Texts)
    ensures Faithful(x)
  {
    x := Texts(s => OtherBytes(s), s => OtherText(s), s => OtherText(s), s => Unreadable(s));
  }

  lemma LookupReadsOnce(x: Texts, k: Keys, p: Plain, q: Plain)
    requires AreKeys(k) && Faithful(x)
    requires ReadLookup(x, k, p).Shaped? && ReadLookup(x, k, p) == ReadLookup(x, k, q)
    ensures p == q
  {
    forall i | 0 <= i < |k.lookup| ensures At(p, k.lookup, i) == At(q, k.lookup, i) {
      assert i == 0 || i == 1 || i == 2 || i == 3 || i == 4;
    }
    SameMembers(p, q, k.lookup);
  }

  lemma FenceReadsOnce(k: Keys, p: Plain, q: Plain)
    requires AreKeys(k)
    requires ReadFence(k, p).Shaped? && ReadFence(k, p) == ReadFence(k, q)
    ensures p == q
  {
    forall i | 0 <= i < |k.fence| ensures At(p, k.fence, i) == At(q, k.fence, i) {
      assert i == 0 || i == 1 || i == 2 || i == 3 || i == 4;
    }
    SameMembers(p, q, k.fence);
  }

  // ----- payload --------------------------------------------------------------------------------

  predicate IsTextPlace(i: nat) {
    i < 7 || i == 8 || i == 10 || i == 14 || i == 15
  }

  predicate IsTruthPlace(i: nat) {
    i == 16 || i == 19 || i == 20
  }

  predicate IsTypedPayload(k: Keys, p: Plain)
    requires AreKeys(k) && HasKeys(p, k.payload)
  {
    && (forall i :: 0 <= i < 21 && IsTextPlace(i) ==> IsText(At(p, k.payload, i)))
    && (forall i :: 0 <= i < 21 && IsTruthPlace(i) ==> IsTruth(At(p, k.payload, i)))
    && (IsText(At(p, k.payload, 9)) || IsNull(At(p, k.payload, 9)))
    && (IsNumber(At(p, k.payload, 11)) || IsNull(At(p, k.payload, 11)))
    && (IsText(At(p, k.payload, 12)) || IsNull(At(p, k.payload, 12)))
    && IsNumber(At(p, k.payload, 17))
  }

  function ClaimOf(text: string): Claim {
    if text == "EXECUTED" then ClaimsExecuted else if text == "ABSENT" then ClaimsAbsent else ClaimsOther(text)
  }

  function NumberOrNull(p: Plain): Option<real>
    requires IsNumber(p) || IsNull(p)
  {
    if IsNumber(p) then Some(p.scalar.number) else None
  }

  function RecordOrNull(x: Texts, p: Plain): Option<Digest<Record>>
    requires IsText(p) || IsNull(p)
  {
    if IsText(p) then Some(x.record(p.scalar.text)) else None
  }

  function ReadOptionalFence(k: Keys, p: Plain): Option<Checked<Fence>>
    requires AreKeys(k)
  {
    if IsNull(p) then None else Some(ReadFence(k, p))
  }

  function TextAt(k: Keys, p: Plain, i: nat): string
    requires AreKeys(k) && HasKeys(p, k.payload) && IsTypedPayload(k, p) && i < 21 && IsTextPlace(i)
  {
    TextOf(At(p, k.payload, i))
  }

  function TruthAt(k: Keys, p: Plain, i: nat): bool
    requires AreKeys(k) && HasKeys(p, k.payload) && IsTypedPayload(k, p) && i < 21 && IsTruthPlace(i)
  {
    At(p, k.payload, i).scalar.truth
  }

  /** The payload whose lookup and fence have been read. */
  function PayloadWith(x: Texts, k: Keys, p: Plain, lookup: Checked<Lookup>, fence: Option<Checked<Fence>>): Payload
    requires AreKeys(k) && HasKeys(p, k.payload) && IsTypedPayload(k, p)
  {
    Payload(
      TextAt(k, p, 0), TextAt(k, p, 1), TextAt(k, p, 2), TextAt(k, p, 3), TextAt(k, p, 4),
      x.request(TextAt(k, p, 5)), TextAt(k, p, 6), At(p, k.payload, 7), TextAt(k, p, 8),
      TextOrNull(At(p, k.payload, 9)), ClaimOf(TextAt(k, p, 10)), NumberOrNull(At(p, k.payload, 11)),
      RecordOrNull(x, At(p, k.payload, 12)), lookup, x.time(TextAt(k, p, 14)), TextAt(k, p, 15), TruthAt(k, p, 16),
      At(p, k.payload, 17).scalar.number, fence, TruthAt(k, p, 19), TruthAt(k, p, 20))
  }

  function ReadPayload(x: Texts, k: Keys, p: Plain): Checked<Payload>
    requires AreKeys(k)
  {
    if !HasKeys(p, k.payload) || !IsTypedPayload(k, p) then WrongKeys
    else
      Shaped(PayloadWith(
        x, k, p, ReadLookup(x, k, At(p, k.payload, 13)), ReadOptionalFence(k, At(p, k.payload, 18))))
  }

  /** Both have the keys and types of a payload, and are read as the same one. */
  ghost predicate ReadAlike(x: Texts, k: Keys, p: Plain, q: Plain)
    requires AreKeys(k)
  {
    && Faithful(x) && HasKeys(p, k.payload) && IsTypedPayload(k, p) && HasKeys(q, k.payload) && IsTypedPayload(k, q)
    && ReadPayload(x, k, p) == ReadPayload(x, k, q)
  }

  lemma FirstPlacesAlike(x: Texts, k: Keys, p: Plain, q: Plain)
    requires AreKeys(k) && ReadAlike(x, k, p, q)
    ensures forall i :: 0 <= i < 9 ==> At(p, k.payload, i) == At(q, k.payload, i)
  {
    forall i | 0 <= i < 9 ensures At(p, k.payload, i) == At(q, k.payload, i) {
      assert i != 7 ==> TextAt(k, p, i) == TextAt(k, q, i) by {
        assert i == 0 || i == 1 || i == 2 || i == 3 || i == 4 || i == 5 || i == 6 || i == 7 || i == 8;
      }
    }
  }

  lemma MiddlePlacesAlike(x: Texts, k: Keys, p: Plain, q: Plain)
    requires AreKeys(k) && ReadAlike(x, k, p, q)
    ensures forall i :: 9 <= i < 13 ==> At(p, k.payload, i) == At(q, k.payload, i)
  {
    assert TextAt(k, p, 10) == TextAt(k, q, 10);
    forall i | 9 <= i < 13 ensures At(p, k.payload, i) == At(q, k.payload, i) {
      assert i == 9 || i == 10 || i == 11 || i == 12;
    }
  }

  lemma LastPlacesAlike(x: Texts, k: Keys, p: Plain, q: Plain)
    requires AreKeys(k) && ReadAlike(x, k, p, q)
    ensures forall i :: 14 <= i < 21 && i != 18 ==> At(p, k.payload, i) == At(q, k.payload, i)
  {
    forall i | 14 <= i < 21 && i != 18 ensures At(p, k.payload, i) == At(q, k.payload, i) {
      assert i == 14 || i == 15 || i == 16 || i == 17 || i == 19 || i == 20;
    }
  }

  lemma NestedPlacesAlike(x: Texts, k: Keys, p: Plain, q: Plain)
    requires AreKeys(k) && ReadAlike(x, k, p, q)
    requires var v := ReadPayload(x, k, p).value; v.lookup.Shaped? && (v.fence.Some? ==> v.fence.value.Shaped?)
    ensures At(p, k.payload, 13) == At(q, k.payload, 13) && At(p, k.payload, 18) == At(q, k.payload, 18)
  {
    LookupReadsOnce(x, k, At(p, k.payload, 13), At(q, k.payload, 13));
    if !IsNull(At(p, k.payload, 18)) {
      FenceReadsOnce(k, At(p, k.payload, 18), At(q, k.payload, 18));
    }
  }

  /** A payload that is well shaped throughout is read from one form only. */
  lemma PayloadReadsOnce(x: Texts, k: Keys, p: Plain, q: Plain)
    requires AreKeys(k) && Faithful(x) && ReadPayload(x, k, p).Shaped? && ReadPayload(x, k, p) == ReadPayload(x, k, q)
    requires var v := ReadPayload(x, k, p).value; v.lookup.Shaped? && (v.fence.Some? ==> v.fence.value.Shaped?)
    ensures p == q
  {
    FirstPlacesAlike(x, k, p, q);
    MiddlePlacesAlike(x, k, p, q);
    LastPlacesAlike(x, k, p, q);
    NestedPlacesAlike(x, k, p, q);
    forall i | 0 <= i < |k.payload| ensures At(p, k.payload, i) == At(q, k.payload, i) {
      assert i < 9 || 9 <= i < 13 || i == 13 || i == 18 || (14 <= i < 21 && i != 18);
    }
    SameMembers(p, q, k.payload);
  }

  // ----- envelope -------------------------------------------------------------------------------

  predicate IsTypedEnvelope(k: Keys, p: Plain)
    requires AreKeys(k) && HasKeys(p, k.envelope)
  {
    && IsText(At(p, k.envelope, 0)) && IsText(At(p, k.envelope, 1)) && IsText(At(p, k.envelope, 2))
    && IsText(At(p, k.envelope, 4))
  }

  function EvidenceWith(x: Texts, k: Keys, p: Plain, payload: Checked<Payload>): Evidence
    requires AreKeys(k) && HasKeys(p, k.envelope) && IsTypedEnvelope(k, p)
  {
    Evidence(
      Unsigned(TextOf(At(p, k.envelope, 0)), TextOf(At(p, k.envelope, 1)), TextOf(At(p, k.envelope, 2)), payload),
      x.signature(TextOf(At(p, k.envelope, 4))))
  }

  function ReadEvidence(x: Texts, k: Keys, p: Plain): Checked<Evidence>
    requires AreKeys(k)
  {
    if !HasKeys(p, k.envelope) || !IsTypedEnvelope(k, p) then WrongKeys
    else Shaped(EvidenceWith(x, k, p, ReadPayload(x, k, At(p, k.envelope, 3))))
  }

  // ----- the same, step by step -----------------------------------------------------------------

  method TakeLookup(x: Texts, k: Keys, p: Plain) returns (r: Checked<Lookup>)
    requires AreKeys(k)
    ensures r == ReadLookup(x, k, p)
  {
    var same := CheckKeys(p, k.lookup);
    r := if same then ReadLookup(x, k, p) else WrongKeys;
  }

  method TakeFence(k: Keys, p: Plain) returns (r: Option<Checked<Fence>>)
    requires AreKeys(k)
    ensures r == ReadOptionalFence(k, p)
  {
    if IsNull(p) {
      return None;
    }
    var same := CheckKeys(p, k.fence);
    r := Some(if same then ReadFence(k, p) else WrongKeys);
  }

  method TakePayload(x: Texts, k: Keys, p: Plain) returns (r: Checked<Payload>)
    requires AreKeys(k)
    ensures r == ReadPayload(x, k, p)
  {
    var same := CheckKeys(p, k.payload);
    if !same || !IsTypedPayload(k, p) {
      return WrongKeys;
    }
    var lookup := TakeLookup(x, k, At(p, k.payload, 13));
    var fence := TakeFence(k, At(p, k.payload, 18));
    r := Shaped(PayloadWith(x, k, p, lookup, fence));
  }

  method TakeEvidence(x: Texts, k: Keys, p: Plain) returns (r: Checked<Evidence>)
    requires AreKeys(k)
    ensures r == ReadEvidence(x, k, p)
  {
    var same := CheckKeys(p, k.envelope);
    if !same || !IsTypedEnvelope(k, p) {
      return WrongKeys;
    }
    var payload := TakePayload(x, k, At(p, k.envelope, 3));
    r := Shaped(EvidenceWith(x, k, p, payload));
  }

  // ----- the boundary ---------------------------------------------------------------------------

  /** The form of an accepted value. */
  ghost function FormOfValue(h: Heap, v: Value): (p: Plain)
    requires Closed(h) && InHeap(h, v) && Accepts(h, v, {})
    ensures HasForm(h, v, p)
  {
    AcceptsIffFiniteTree(h, v);
    var t :| Denotes(h, v, t);
    Form(t)
  }

  /** What the verifier is given of a value. */
  ghost function InputOf(x: Texts, k: Keys, h: Heap, v: Value): Checked<Evidence>
    requires AreKeys(k) && Closed(h) && InHeap(h, v)
  {
    if Accepts(h, v, {}) then ReadEvidence(x, k, FormOfValue(h, v)) else NotCanonical
  }

  ghost function VerdictOn(
    authority: Approval -> bool, x: Texts, k: Keys, h: Heap, v: Value, a: Checked<Approval>, trust: Checked<Trust>,
    expected: Checked<Lookup>, now: Stamp): Verdict
    requires AreKeys(k) && Closed(h) && InHeap(h, v)
  {
    VerifyDestinationEvidence(authority, InputOf(x, k, h, v), a, trust, expected, now)
  }

  method TakeInput(x: Texts, k: Keys, h: Heap, v: Value) returns (r: Checked<Evidence>)
    requires AreKeys(k) && Closed(h) && InHeap(h, v)
    ensures r == InputOf(x, k, h, v)
  {
    var ok := InspectRoot(h, v);
    AcceptsIffAcceptable(h, v);
    if !ok {
      return NotCanonical;
    }
    var p := Canonicalize(h, v, {});
    FormUnique(h, v, p, FormOfValue(h, v));
    r := TakeEvidence(x, k, p);
  }

  /** The walk, the keys and the guards together. */
  method VerifyInput(
    authority: Approval -> bool, x: Texts, k: Keys, h: Heap, v: Value, a: Checked<Approval>, trust: Checked<Trust>,
    expected: Checked<Lookup>, now: Stamp) returns (r: Verdict)
    requires AreKeys(k) && Closed(h) && InHeap(h, v)
    ensures r == VerdictOn(authority, x, k, h, v, a, trust, expected, now)
  {
    var input := TakeInput(x, k, h, v);
    r := VerifyDestinationEvidence(authority, input, a, trust, expected, now);
  }

  // ----- what the verdict depends on ------------------------------------------------------------

  /** Two values, in whatever heaps, that denote trees of one form get the same verdict: sharing, prototypes and the
      order of keys play no part. */
  lemma SameFormSameVerdict(
    authority: Approval -> bool, x: Texts, k: Keys, g: Heap, u: Value, h: Heap, v: Value, p: Plain,
    a: Checked<Approval>, trust: Checked<Trust>, expected: Checked<Lookup>, now: Stamp)
    requires AreKeys(k) && Closed(g) && InHeap(g, u) && Closed(h) && InHeap(h, v)
    requires HasForm(g, u, p) && HasForm(h, v, p)
    ensures VerdictOn(authority, x, k, g, u, a, trust, expected, now)
      == VerdictOn(authority, x, k, h, v, a, trust, expected, now)
  {
    InputIsRead(x, k, g, u, p);
    InputIsRead(x, k, h, v, p);
  }

  lemma InputIsRead(x: Texts, k: Keys, h: Heap, v: Value, p: Plain)
    requires AreKeys(k) && Closed(h) && InHeap(h, v) && HasForm(h, v, p)
    ensures Accepts(h, v, {}) && InputOf(x, k, h, v) == ReadEvidence(x, k, p)
  {
    var t :| Denotes(h, v, t) && Form(t) == p;
    TreeImpliesAcceptable(h, v, t);
    AcceptsIffAcceptable(h, v);
    FormUnique(h, v, p, FormOfValue(h, v));
  }

  /** The four levels have exactly their keys. */
  predicate HasAllKeys(k: Keys, p: Plain)
    requires AreKeys(k)
  {
    && HasKeys(p, k.envelope)
    && HasKeys(At(p, k.envelope, 3), k.payload)
    && var payload := At(p, k.envelope, 3);
    && HasKeys(At(payload, k.payload, 13), k.lookup)
    && (IsNull(At(payload, k.payload, 18)) || HasKeys(At(payload, k.payload, 18), k.fence))
  }

  lemma VerifiedIsShaped(
    authority: Approval -> bool, x: Texts, k: Keys, h: Heap, v: Value, a: Checked<Approval>, trust: Checked<Trust>,
    expected: Checked<Lookup>, now: Stamp)
    requires AreKeys(k) && Closed(h) && InHeap(h, v)
    requires VerdictOn(authority, x, k, h, v, a, trust, expected, now).verified
    ensures a.Shaped? && trust.Shaped? && expected.Shaped? && Accepts(h, v, {}) && InputOf(x, k, h, v).Shaped?
    ensures IsSound(authority, InputOf(x, k, h, v).value, a.value, trust.value, expected.value)
  {
    var input := InputOf(x, k, h, v);
    FailureIsUnknown(authority, input, a, trust, expected, now);
    VerifiedIsSound(authority, input.value, a.value, trust.value, expected.value, now);
  }

  /** A verified value is a finite tree with exactly the expected keys at all four levels. */
  lemma VerifiedHasAllKeys(
    authority: Approval -> bool, x: Texts, k: Keys, h: Heap, v: Value, a: Checked<Approval>, trust: Checked<Trust>,
    expected: Checked<Lookup>, now: Stamp)
    requires AreKeys(k) && Closed(h) && InHeap(h, v)
    requires VerdictOn(authority, x, k, h, v, a, trust, expected, now).verified
    ensures Acceptable(h, v) && exists p :: HasForm(h, v, p) && HasAllKeys(k, p)
  {
    VerifiedIsShaped(authority, x, k, h, v, a, trust, expected, now);
    AcceptsIffAcceptable(h, v);
    assert HasForm(h, v, FormOfValue(h, v)) && HasAllKeys(k, FormOfValue(h, v));
  }

  /** Evidence that is well shaped throughout is read from one form only, if the signature texts agree. */
  lemma EvidenceReadsOnce(x: Texts, k: Keys, p: Plain, q: Plain)
    requires AreKeys(k) && Faithful(x) && HasAllKeys(k, p)
    requires ReadEvidence(x, k, p).Shaped? && ReadEvidence(x, k, q).Shaped?
    requires ReadEvidence(x, k, p).value.content == ReadEvidence(x, k, q).value.content
    requires At(p, k.envelope, 4) == At(q, k.envelope, 4)
    requires var c := ReadEvidence(x, k, p).value.content.payload;
      c.Shaped? && c.value.lookup.Shaped? && (c.value.fence.Some? ==> c.value.fence.value.Shaped?)
    ensures p == q
  {
    PayloadReadsOnce(x, k, At(p, k.envelope, 3), At(q, k.envelope, 3));
    forall i | 0 <= i < |k.envelope| ensures At(p, k.envelope, i) == At(q, k.envelope, i) {
      assert i == 0 || i == 1 || i == 2 || i == 3 || i == 4;
    }
    SameMembers(p, q, k.envelope);
  }

  /** Under one signature text no two forms are verified, whatever they are shown with: nothing in verified evidence, at
      any depth, can be changed, added or left out. */
  lemma AlteredInputRefused(
    authority: Approval -> bool, x: Texts, k: Keys, g: Heap, u: Value, h: Heap, v: Value, p: Plain, q: Plain,
    a: Checked<Approval>, b: Checked<Approval>, trust: Checked<Trust>, expected: Checked<Lookup>,
    other: Checked<Lookup>, now: Stamp, later: Stamp)
    requires AreKeys(k) && Faithful(x) && Closed(g) && InHeap(g, u) && Closed(h) && InHeap(h, v)
    requires HasForm(g, u, p) && HasForm(h, v, q) && p != q
    requires VerdictOn(authority, x, k, g, u, a, trust, expected, now).verified
    requires HasKeys(p, k.envelope) && (HasKeys(q, k.envelope) ==> At(p, k.envelope, 4) == At(q, k.envelope, 4))
    ensures !VerdictOn(authority, x, k, h, v, b, trust, other, later).verified
  {
    InputIsRead(x, k, g, u, p);
    InputIsRead(x, k, h, v, q);
    VerifiedIsShaped(authority, x, k, g, u, a, trust, expected, now);
    if VerdictOn(authority, x, k, h, v, b, trust, other, later).verified {
      VerifiedIsShaped(authority, x, k, h, v, b, trust, other, later);
      EvidenceReadsOnce(x, k, p, q);
    }
  }
}
