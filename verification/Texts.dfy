/** Shapes of text that several components share, and the digests they compare. */
module Texts {

  predicate AlphaNumeric(c: char) {
    'a' <= c <= 'z' || '0' <= c <= '9'
  }

  predicate IsHex(c: char) {
    '0' <= c <= '9' || 'a' <= c <= 'f'
  }

  predicate AllHex(s: string) {
    forall i :: 0 <= i < |s| ==> IsHex(s[i])
  }

  predicate IsCommit(s: string) {
    |s| == 40 && AllHex(s)
  }

  predicate IsHex64(s: string) {
    |s| == 64 && AllHex(s)
  }

  // An opaque task id.
  predicate ValidId(id: string) {
    8 <= |id| <= 64 && AlphaNumeric(id[0]) && forall i :: 1 <= i < |id| ==> AlphaNumeric(id[i]) || id[i] == '-'
  }

  // The hash tells these texts apart.
  ghost predicate NoCollision(hash: string -> string, texts: set<string>) {
    forall a, b :: a in texts && b in texts && hash(a) == hash(b) ==> a == b
  }
}
