/**
 The ideal primitives the modules share.  A digest is a term that carries what was hashed, so two digests
 agree only when their contents do; a signature is a term that carries its key and its content, so it
 verifies exactly for that key and that content.  Texts that no hash or key produced are the other case.
 */
module Primitives {

  datatype Option<+T> = None | Some(value: T)

  /** A time text: the canonical ISO form of a number of milliseconds, another text that can be parsed, or a
      text that cannot. */
  datatype Stamp = Iso(ms: int) | Loose(text: string, ms: int) | Unreadable(text: string) {
    function Parse(): Option<int> {
      match this
      case Iso(t) => Some(t)
      case Loose(_, t) => Some(t)
      case Unreadable(_) => None
    }
  }

  datatype Digest<+P> = Sha256(content: P) | OtherText(text: string)

  datatype Signature<+P> = Signed(key: string, content: P) | OtherBytes(bytes: string)

  predicate Verifies<P(==)>(content: P, signature: Signature<P>, key: string) {
    signature == Signed(key, content)
  }

  /** The white space that `trim` removes. */
  predicate IsSpace(c: char) {
    c == ' ' || '\t' <= c <= '\r' || c == '\U{00A0}' || c == '\U{1680}' || '\U{2000}' <= c <= '\U{200A}'
    || c == '\U{2028}' || c == '\U{2029}' || c == '\U{202F}' || c == '\U{205F}' || c == '\U{3000}'
    || c == '\U{FEFF}'
  }

  /** `value.trim() !== ""`. */
  predicate NonBlank(s: string) {
    exists i :: 0 <= i < |s| && !IsSpace(s[i])
  }

  lemma StartsNonBlank(s: string)
    requires |s| > 0 && !IsSpace(s[0])
    ensures NonBlank(s)
  {
  }

  predicate IsInteger(r: real) {
    r == r.Floor as real
  }

  const LARGEST_SAFE := 9007199254740991.0

  /** `Number.isSafeInteger`. */
  predicate IsSafeInteger(r: real) {
    IsInteger(r) && -LARGEST_SAFE <= r <= LARGEST_SAFE
  }

  /** Three capital letters. */
  predicate IsCurrency(c: string) {
    |c| == 3 && forall i :: 0 <= i < 3 ==> 'A' <= c[i] <= 'Z'
  }

  predicate IsHexDigit(c: char) {
    'a' <= c <= 'f' || '0' <= c <= '9'
  }

  /** What tells known texts apart: texts with different marks differ. */
  datatype Mark = Mark(length: nat, first: char, last: char)

  function MarkOf(s: string): Mark
    requires s != ""
  {
    Mark(|s|, s[0], s[|s| - 1])
  }
}
