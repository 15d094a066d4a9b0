/** The string operations the pipeline relies on: ASCII upper-casing
    (`String.toUpperCase` under an English locale), substring search
    (`String.contains`), `equalsIgnoreCase` and the blank test of bean
    validation's `@NotBlank`. */
module Text {

  predicate IsLowerAscii(c: char) {
    'a' <= c <= 'z'
  }

  /** Upper-cases one ASCII letter; every other character is left alone. */
  function UpperChar(c: char): (u: char)
    ensures IsLowerAscii(c) ==> 'A' <= u <= 'Z' && u as int + 32 == c as int
    ensures !IsLowerAscii(c) ==> u == c
    ensures !IsLowerAscii(u)
  {
    if IsLowerAscii(c) then (c as int - 32) as char else c
  }

  function ToUpper(s: string): (u: string)
    ensures |u| == |s|
  {
    seq(|s|, i requires 0 <= i < |s| => UpperChar(s[i]))
  }

  /** A string holding no lower-case ASCII letter. */
  predicate IsUpper(s: string) {
    forall i :: 0 <= i < |s| ==> !IsLowerAscii(s[i])
  }

  lemma ToUpperIsUpper(s: string)
    ensures IsUpper(ToUpper(s))
  {
  }

  /** Upper-casing fixes every string that is already upper case; in
      particular it is idempotent. */
  lemma ToUpperFixesUpper(s: string)
    requires IsUpper(s)
    ensures ToUpper(s) == s
  {
  }

  lemma ToUpperIdempotent(s: string)
    ensures ToUpper(ToUpper(s)) == ToUpper(s)
  {
    ToUpperIsUpper(s);
    ToUpperFixesUpper(ToUpper(s));
  }

  /** Upper-casing works character by character, so it commutes with
      taking a prefix. */
  lemma ToUpperPrefix(s: string, n: nat)
    requires n <= |s|
    ensures ToUpper(s)[..n] == ToUpper(s[..n])
  {
  }

  /** `a.equalsIgnoreCase(b)` for ASCII text. */
  predicate EqualsIgnoreCase(a: string, b: string) {
    ToUpper(a) == ToUpper(b)
  }

  predicate StartsWith(s: string, prefix: string) {
    |prefix| <= |s| && s[..|prefix|] == prefix
  }

  /** `s.contains(sub)`: some suffix of `s` starts with `sub`. */
  predicate Contains(s: string, sub: string)
    decreases |s|
  {
    StartsWith(s, sub) || (|sub| < |s| && Contains(s[1..], sub))
  }

  /** `sub` occurs in `s` starting at index `i`. */
  predicate OccursAt(s: string, sub: string, i: int) {
    0 <= i && i + |sub| <= |s| && s[i..i + |sub|] == sub
  }

  /** The recursive search agrees with the index-based meaning of
      containment, in both directions. */
  lemma {:induction false} ContainsIffOccurs(s: string, sub: string)
    ensures Contains(s, sub) <==> exists i :: OccursAt(s, sub, i)
    decreases |s|
  {
    if Contains(s, sub) {
      if StartsWith(s, sub) {
        assert OccursAt(s, sub, 0);
      } else {
        ContainsIffOccurs(s[1..], sub);
        var j :| OccursAt(s[1..], sub, j);
        assert s[1..][j..j + |sub|] == s[j + 1..j + 1 + |sub|];
        assert OccursAt(s, sub, j + 1);
      }
    }
    if exists i :: OccursAt(s, sub, i) {
      var i :| OccursAt(s, sub, i);
      if i == 0 {
        assert StartsWith(s, sub);
      } else {
        assert s[1..][i - 1..i - 1 + |sub|] == s[i..i + |sub|];
        assert OccursAt(s[1..], sub, i - 1);
        ContainsIffOccurs(s[1..], sub);
      }
    }
  }

  /** Containment is transitive: an occurrence of `k` inside an occurrence
      of `sub` is an occurrence of `k` in `s`. */
  lemma ContainsTransitive(s: string, sub: string, k: string)
    requires Contains(s, sub) && Contains(sub, k)
    ensures Contains(s, k)
  {
    ContainsIffOccurs(s, sub);
    ContainsIffOccurs(sub, k);
    var i :| OccursAt(s, sub, i);
    var j :| OccursAt(sub, k, j);
    assert s[i..i + |sub|] == sub;
    assert j + |k| <= |sub|;
    forall t | 0 <= t < |k|
      ensures s[i + j + t] == k[t]
    {
      assert sub[j..j + |k|][t] == sub[j + t];
      assert sub[j + t] == s[i..i + |sub|][j + t];
    }
    assert s[i + j..i + j + |k|] == k;
    assert OccursAt(s, k, i + j);
    ContainsIffOccurs(s, k);
  }

  /** A string built around `mid` contains it. */
  lemma ContainsInfix(a: string, mid: string, b: string)
    ensures Contains(a + mid + b, mid)
  {
    var s := a + mid + b;
    assert s[|a|..|a| + |mid|] == mid;
    assert OccursAt(s, mid, |a|);
    ContainsIffOccurs(s, mid);
  }

  /** Nothing longer than `s` occurs in it. */
  lemma NotContainsLonger(s: string, sub: string)
    requires |s| < |sub|
    ensures !Contains(s, sub)
  {
  }

  /** `@NotBlank`: trimming removes every character up to U+0020 from both
      ends, and the value is blank when nothing is left. */
  predicate IsBlank(s: string) {
    forall i :: 0 <= i < |s| ==> s[i] <= ' '
  }
}
