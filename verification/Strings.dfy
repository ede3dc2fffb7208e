/** The tests of Python strings that several modules make, and decimal numbers. */
module Strings {

  /** `str.endswith`. */
  predicate EndsWith(s: string, suffix: string) {
    |suffix| <= |s| && s[|s| - |suffix|..] == suffix
  }

  /** `part in s`. */
  predicate Within(s: string, part: string) {
    part <= s || (s != "" && Within(s[1..], part))
  }

  predicate PartAt(s: string, part: string, i: nat) {
    i + |part| <= |s| && s[i..i + |part|] == part
  }

  /** One string is in another exactly when it stands at some place of it. */
  lemma {:induction false} WithinMeans(s: string, part: string)
    ensures Within(s, part) <==> exists i: nat :: PartAt(s, part, i)
  {
    if part <= s {
      assert PartAt(s, part, 0);
    } else {
      assert !PartAt(s, part, 0);
      if s != "" {
        WithinMeans(s[1..], part);
        forall i: nat ensures PartAt(s[1..], part, i) <==> PartAt(s, part, i + 1) {
          PartBehind(s, part, i);
        }
        if i: nat :| PartAt(s, part, i) {
          assert i > 0 && PartAt(s[1..], part, i - 1);
        }
      }
    }
  }

  lemma PartBehind(s: string, part: string, i: nat)
    requires s != ""
    ensures PartAt(s[1..], part, i) <==> PartAt(s, part, i + 1)
  {
    if i + 1 + |part| <= |s| {
      assert s[1..][i..i + |part|] == s[i + 1..i + 1 + |part|];
    }
  }

  /** `str.removesuffix`. */
  function RemoveSuffix(s: string, suffix: string): string {
    if EndsWith(s, suffix) then s[..|s| - |suffix|] else s
  }

  predicate IsDigit(c: char) {
    '0' <= c <= '9'
  }

  predicate IsDecimal(t: string) {
    t != "" && forall i :: 0 <= i < |t| ==> IsDigit(t[i])
  }

  function DecimalValue(t: string): nat
    requires forall i :: 0 <= i < |t| ==> IsDigit(t[i])
  {
    if t == "" then 0
    else
      assert IsDigit(t[|t| - 1]);
      10 * DecimalValue(t[..|t| - 1]) + (t[|t| - 1] as int - '0' as int)
  }
}
