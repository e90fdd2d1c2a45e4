/** Character classes and substring predicates shared by the string-handling modules. */
module Strings {

  /** An ASCII decimal digit (Go's regexp class `\d` and strconv's digits). */
  predicate IsDigit(c: char) {
    '0' <= c <= '9'
  }

  predicate AllDigits(s: string) {
    forall i | 0 <= i < |s| :: IsDigit(s[i])
  }

  /** ASCII white space as recognised by strings.TrimSpace. */
  predicate IsSpace(c: char) {
    c == ' ' || c == '\t' || c == '\n' || c == '\r' || c == '\U{B}' || c == '\U{C}'
  }

  predicate HasPrefix(s: string, prefix: string) {
    |prefix| <= |s| && s[..|prefix|] == prefix
  }

  /** `sub` starts at index `i` of `s`. */
  predicate OccursAt(sub: string, s: string, i: int) {
    0 <= i && i + |sub| <= |s| && s[i..i + |sub|] == sub
  }

  /** `sub` occurs in `s` at some start index (the reading of strings.Contains). */
  predicate Occurs(sub: string, s: string) {
    exists i | 0 <= i <= |s| - |sub| :: OccursAt(sub, s, i)
  }

  /** Reference definition: `sub` is some contiguous slice of `s`. */
  predicate IsSubstring(sub: string, s: string) {
    exists i, j | 0 <= i <= j <= |s| :: s[i..j] == sub
  }

  lemma OccursIsSubstring(sub: string, s: string)
    ensures Occurs(sub, s) <==> IsSubstring(sub, s)
  {
    if Occurs(sub, s) {
      var i :| 0 <= i <= |s| - |sub| && OccursAt(sub, s, i);
      assert s[i..i + |sub|] == sub;
    }
    if IsSubstring(sub, s) {
      var i, j :| 0 <= i <= j <= |s| && s[i..j] == sub;
      assert OccursAt(sub, s, i);
    }
  }

  /** A prefix of `s` occurs in `s`. */
  lemma PrefixOccurs(prefix: string, s: string)
    requires HasPrefix(s, prefix)
    ensures Occurs(prefix, s)
  {
    assert OccursAt(prefix, s, 0);
  }

  /** Anything that occurs in `s` occurs in every extension of `s`. */
  lemma OccursInConcat(sub: string, s: string, t: string)
    requires Occurs(sub, s)
    ensures Occurs(sub, s + t)
  {
    var i :| 0 <= i <= |s| - |sub| && OccursAt(sub, s, i);
    assert (s + t)[i..i + |sub|] == s[i..i + |sub|];
    assert OccursAt(sub, s + t, i);
  }
}
