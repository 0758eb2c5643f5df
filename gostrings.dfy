/** The parts of Go's `strings` and `strconv` packages that the rule
    predicates use. Strings are sequences of characters. */
module GoStrings {

  /** `strings.HasPrefix(s, prefix)`. */
  predicate HasPrefix(s: string, prefix: string) {
    |prefix| <= |s| && s[..|prefix|] == prefix
  }

  /** `substr` occurs in `s` starting at index `i`. */
  predicate OccursAt(s: string, substr: string, i: nat) {
    i + |substr| <= |s| && s[i..i + |substr|] == substr
  }

  /** `strings.Contains(s, substr)`, scanning `s` from the left. */
  predicate Contains(s: string, substr: string)
    decreases |s|
  {
    HasPrefix(s, substr) || (0 < |s| && Contains(s[1..], substr))
  }

  /** The scan finds `substr` exactly when it occurs somewhere in `s`
      (so the empty string is contained in every string). */
  lemma {:induction false} ContainsIffOccurs(s: string, substr: string)
    ensures Contains(s, substr) <==> exists i: nat :: OccursAt(s, substr, i)
    decreases |s|
  {
    if HasPrefix(s, substr) {
      assert OccursAt(s, substr, 0);
    } else if 0 < |s| {
      ContainsIffOccurs(s[1..], substr);
      if Contains(s[1..], substr) {
        var j: nat :| OccursAt(s[1..], substr, j);
        assert s[1..][j..j + |substr|] == s[j + 1..j + 1 + |substr|];
        assert OccursAt(s, substr, j + 1);
      } else if i: nat :| OccursAt(s, substr, i) {
        assert i != 0;
        assert i - 1 + |substr| <= |s[1..]|;
        forall k | 0 <= k < |substr| ensures s[1..][i - 1..i - 1 + |substr|][k] == substr[k] {
          assert s[i..i + |substr|][k] == substr[k];
        }
        assert OccursAt(s[1..], substr, i - 1);
      }
    } else {
      assert forall i: nat :: !OccursAt(s, substr, i);
    }
  }

  /** `strconv.FormatBool(b)`. */
  function FormatBool(b: bool): (r: string)
    ensures r == "true" || r == "false"
  {
    if b then "true" else "false"
  }

  /** The Latin letters 'A'..'Z' are mapped to 'a'..'z'; every other
      character is kept. */
  function LowerChar(c: char): char {
    if 'A' <= c <= 'Z' then (c as int + 32) as char else c
  }

  /** `strings.ToLower(s)`, restricted to the ASCII letters. */
  function ToLower(s: string): string {
    seq(|s|, i requires 0 <= i < |s| => LowerChar(s[i]))
  }

  /** Two strings that differ only in the case of their letters. */
  predicate SameUpToCase(a: string, b: string) {
    |a| == |b| && forall i :: 0 <= i < |a| ==> LowerChar(a[i]) == LowerChar(b[i])
  }

  lemma ContainsItself(s: string)
    ensures Contains(s, s)
  {
    assert s[0..|s|] == s;
  }

  /** Two strings lower-case to the same string exactly when they differ
      only in letter case. */
  lemma ToLowerSameUpToCase(a: string, b: string)
    ensures ToLower(a) == ToLower(b) <==> SameUpToCase(a, b)
  {
    if ToLower(a) == ToLower(b) {
      assert |a| == |ToLower(a)|;
      forall i | 0 <= i < |a| ensures LowerChar(a[i]) == LowerChar(b[i]) {
        assert ToLower(a)[i] == ToLower(b)[i];
      }
    }
  }
}
