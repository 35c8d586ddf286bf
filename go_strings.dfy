/** The few functions of Go's `strings` and `unicode` packages that the core relies on.
    A Go string is modelled as `string`; each character stands for one byte where the
    caller works on bytes (the markers and field names involved are all ASCII). */
module GoStrings {

  /** `strings.HasPrefix(s, prefix)`. */
  predicate HasPrefix(s: string, prefix: string) {
    |prefix| <= |s| && s[..|prefix|] == prefix
  }

  /** `pat` occurs in `s` starting at index `i`. */
  predicate Occurs(s: string, pat: string, i: int) {
    0 <= i && i + |pat| <= |s| && s[i..i + |pat|] == pat
  }

  /** `strings.Index(s, pat)`: the first index where `pat` occurs in `s`, or -1. */
  function Index(s: string, pat: string): (r: int)
    ensures -1 <= r <= |s|
    ensures r == -1 <==> forall i :: !Occurs(s, pat, i)
    ensures r >= 0 ==> Occurs(s, pat, r) && forall i :: 0 <= i < r ==> !Occurs(s, pat, i)
  {
    IndexFrom(s, pat, 0)
  }

  function IndexFrom(s: string, pat: string, from: nat): (r: int)
    requires from <= |s| + 1
    requires forall i :: 0 <= i < from ==> !Occurs(s, pat, i)
    ensures -1 <= r <= |s|
    ensures r == -1 <==> forall i :: !Occurs(s, pat, i)
    ensures r >= 0 ==> Occurs(s, pat, r) && forall i :: 0 <= i < r ==> !Occurs(s, pat, i)
    decreases |s| + 1 - from
  {
    if from + |pat| > |s| then
      assert forall i :: !Occurs(s, pat, i) by {
        forall i ensures !Occurs(s, pat, i) {
          if 0 <= i < from {
          }
        }
      }
      -1
    else if s[from..from + |pat|] == pat then
      assert Occurs(s, pat, from);
      from
    else IndexFrom(s, pat, from + 1)
  }

  /** An occurrence in a suffix is an occurrence in the whole string, shifted. */
  lemma {:induction false} OccursInSuffix(s: string, pat: string, k: nat, i: int)
    requires k <= |s| && 0 <= i
    ensures Occurs(s[k..], pat, i) <==> Occurs(s, pat, i + k)
  {
    if i + |pat| <= |s| - k {
      assert s[k..][i..i + |pat|] == s[i + k..i + k + |pat|];
    }
  }

  /** An occurrence in a prefix is an occurrence that ends within the prefix. */
  lemma {:induction false} OccursInPrefix(s: string, pat: string, u: nat, i: int)
    requires u <= |s|
    ensures Occurs(s[..u], pat, i) <==> Occurs(s, pat, i) && i + |pat| <= u
  {
    if 0 <= i && i + |pat| <= u {
      assert s[..u][i..i + |pat|] == s[i..i + |pat|];
    }
  }

  /** Searching from `k` on, when nothing occurs before `k`. */
  lemma {:induction false} IndexInSuffix(s: string, pat: string, k: nat)
    requires k <= |s|
    requires forall i :: 0 <= i < k ==> !Occurs(s, pat, i)
    ensures Index(s, pat) == if Index(s[k..], pat) == -1 then -1 else Index(s[k..], pat) + k
  {
    var r := Index(s[k..], pat);
    forall i | 0 <= i
      ensures Occurs(s[k..], pat, i) <==> Occurs(s, pat, i + k)
    {
      OccursInSuffix(s, pat, k, i);
    }
    if r == -1 {
      forall j ensures !Occurs(s, pat, j) {
        if j >= k {
          assert !Occurs(s[k..], pat, j - k);
        }
      }
    } else {
      assert Occurs(s, pat, r + k);
      forall j | 0 <= j < r + k ensures !Occurs(s, pat, j) {
        if j >= k {
          assert !Occurs(s[k..], pat, j - k);
        }
      }
    }
  }

  /** `unicode.IsSpace`: the characters with the Unicode White_Space property. */
  predicate IsSpace(c: char) {
    c == ' ' || '\t' <= c <= '\r' || c == '\U{0085}' || c == '\U{00A0}' || c == '\U{1680}'
    || '\U{2000}' <= c <= '\U{200A}' || c == '\U{2028}' || c == '\U{2029}' || c == '\U{202F}'
    || c == '\U{205F}' || c == '\U{3000}'
  }

  /** The number of white-space characters `s` starts with. */
  function LeadingSpace(s: string): (n: nat)
    ensures n <= |s|
    ensures forall i :: 0 <= i < n ==> IsSpace(s[i])
    ensures n == |s| || !IsSpace(s[n])
  {
    if s == [] || !IsSpace(s[0]) then 0 else 1 + LeadingSpace(s[1..])
  }

  /** The length of `s` once its trailing white space is cut off. */
  function TrimmedEnd(s: string): (n: nat)
    ensures n <= |s|
    ensures forall i :: n <= i < |s| ==> IsSpace(s[i])
    ensures n == 0 || !IsSpace(s[n - 1])
  {
    if s == [] || !IsSpace(s[|s| - 1]) then |s| else TrimmedEnd(s[..|s| - 1])
  }

  /** `strings.TrimSpace`: `s` without its leading and trailing white space. The result is
      the slice of `s` that starts after its leading white space, everything cut off at
      either end is white space, and the result neither starts nor ends with white space. */
  function TrimSpace(s: string): (r: string)
    ensures LeadingSpace(s) + |r| <= |s|
    ensures r == s[LeadingSpace(s)..LeadingSpace(s) + |r|]
    ensures forall i :: LeadingSpace(s) + |r| <= i < |s| ==> IsSpace(s[i])
    ensures r == [] || (!IsSpace(r[0]) && !IsSpace(r[|r| - 1]))
  {
    var rest := s[LeadingSpace(s)..];
    rest[..TrimmedEnd(rest)]
  }

  /** A string is blank when trimming leaves nothing: it is empty or all white space. */
  lemma {:induction false} BlankIffAllSpace(s: string)
    ensures TrimSpace(s) == [] <==> forall i :: 0 <= i < |s| ==> IsSpace(s[i])
  {
    if forall i :: 0 <= i < |s| ==> IsSpace(s[i]) {
      AllSpaceTrimsToEmpty(s);
    }
  }

  lemma {:induction false} AllSpaceTrimsToEmpty(s: string)
    requires forall i :: 0 <= i < |s| ==> IsSpace(s[i])
    ensures LeadingSpace(s) == |s|
    ensures TrimSpace(s) == []
  {
    if s != [] {
      AllSpaceTrimsToEmpty(s[1..]);
    }
  }
}
