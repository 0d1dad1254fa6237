/** Substring containment, as `String.prototype.includes`. */
module Text {

  predicate IsPrefix(p: string, s: string) {
    |p| <= |s| && s[..|p|] == p
  }

  /** `s.includes(sub)`: `sub` occurs in `s` at some position. */
  predicate Contains(s: string, sub: string) {
    exists i :: 0 <= i <= |s| && IsPrefix(sub, s[i..])
  }

  /** Every string includes the empty string. */
  lemma ContainsEmpty(s: string)
    ensures Contains(s, "")
  {
    assert IsPrefix("", s[0..]);
  }

  /**
   * The pages' search test `field.toLowerCase().includes(term.toLowerCase())`,
   * with lower-casing an arbitrary total function.
   */
  predicate Matches(lower: string -> string, field: string, term: string) {
    Contains(lower(field), lower(term))
  }

  /** When lower-casing maps "" to "", the empty term matches every field. */
  lemma EmptyTermMatches(lower: string -> string, field: string)
    requires lower("") == ""
    ensures Matches(lower, field, "")
  {
    ContainsEmpty(lower(field));
  }
}
