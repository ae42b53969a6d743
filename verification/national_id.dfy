/** The national-ID check of the profile form: the regular expression
    `^[a-zA-Z0-9]{6,12}$`, anchored at both ends. */
module NationalId {

  const MinLength: nat := 6
  const MaxLength: nat := 12

  /** The character class `[a-zA-Z0-9]` (ASCII letters and digits only). */
  predicate InClass(c: char)
  {
    'a' <= c <= 'z' || 'A' <= c <= 'Z' || '0' <= c <= '9'
  }

  /** The language of the pattern: 6 to 12 characters, all in the class. */
  predicate Valid(id: string)
  {
    && MinLength <= |id| <= MaxLength
    && forall i :: 0 <= i < |id| ==> InClass(id[i])
  }

  /** `regex.test(id)`, run the way a backtracking matcher runs the pattern:
      consume class characters greedily up to the upper bound, then demand the
      lower bound and the end of input. */
  method Test(id: string) returns (matched: bool)
    ensures matched <==> Valid(id)
  {
    var n := 0;
    while n < |id| && n < MaxLength && InClass(id[n])
      invariant 0 <= n <= |id| && n <= MaxLength
      invariant forall i :: 0 <= i < n ==> InClass(id[i])
    {
      n := n + 1;
    }
    matched := n == |id| && MinLength <= n;
  }
}
