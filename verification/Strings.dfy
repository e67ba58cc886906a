/** The parts of Go's `strings` package the driver relies on, over strings as sequences of characters. */
module Strings {

  /** `strings.ReplaceAll` for a non-empty pattern: one scan from the left, matches never overlapping. */
  function ReplaceAll(s: string, old_: string, new_: string): string
    requires old_ != ""
  {
    if |s| < |old_| then s
    else if s[..|old_|] == old_ then new_ + ReplaceAll(s[|old_|..], old_, new_)
    else [s[0]] + ReplaceAll(s[1..], old_, new_)
  }

  /** `strings.HasPrefix`. */
  predicate HasPrefix(s: string, prefix: string) {
    prefix <= s
  }

  /** `strings.HasSuffix`. */
  predicate HasSuffix(s: string, suffix: string) {
    |suffix| <= |s| && s[|s| - |suffix|..] == suffix
  }

  /** `strings.TrimSuffix`: at most one copy of the suffix is removed. */
  function TrimSuffix(s: string, suffix: string): string {
    if HasSuffix(s, suffix) then s[..|s| - |suffix|] else s
  }

  /** `strings.ContainsAny`. */
  predicate ContainsAny(s: string, chars: string) {
    exists i | 0 <= i < |s| :: s[i] in chars
  }

  /** The first element of `strings.SplitN(s, sep, 2)` for a one-character separator. */
  function BeforeFirst(s: string, sep: char): string {
    if s == "" || s[0] == sep then "" else [s[0]] + BeforeFirst(s[1..], sep)
  }

  lemma {:induction false} BeforeFirstIs(s: string, sep: char)
    ensures var front := BeforeFirst(s, sep);
            front <= s && sep !in front && (sep in s <==> |front| < |s|) && (|front| < |s| ==> s[|front|] == sep)
  {
    if s != "" && s[0] != sep {
      BeforeFirstIs(s[1..], sep);
      assert s == [s[0]] + s[1..];
    }
  }

  /** Number of occurrences of a character. */
  function Count(c: char, s: string): nat {
    if s == "" then 0 else (if s[0] == c then 1 else 0) + Count(c, s[1..])
  }

  lemma {:induction false} CountConcat(c: char, a: string, b: string)
    ensures Count(c, a + b) == Count(c, a) + Count(c, b)
  {
    if a == "" {
      assert a + b == b;
    } else {
      assert (a + b)[1..] == a[1..] + b;
      CountConcat(c, a[1..], b);
    }
  }

  lemma {:induction false} CountMember(c: char, s: string, p: nat)
    requires p < |s| && s[p] == c
    ensures Count(c, s[..p + 1]) == Count(c, s[..p]) + 1
  {
    assert s[..p + 1] == s[..p] + [c];
    CountConcat(c, s[..p], [c]);
  }

  lemma {:induction false} CountMonotone(c: char, s: string, i: nat, j: nat)
    requires i <= j <= |s|
    ensures Count(c, s[..i]) <= Count(c, s[..j])
  {
    assert s[..j] == s[..i] + s[i..j];
    CountConcat(c, s[..i], s[i..j]);
  }

  /** A suffix taken off and put back: with a fixed suffix, trimming is injective on the strings that carry it. */
  lemma TrimSuffixRestores(s: string, suffix: string)
    requires HasSuffix(s, suffix)
    ensures TrimSuffix(s, suffix) + suffix == s
  {
  }

  lemma TrimSuffixOfConcat(s: string, suffix: string)
    ensures HasSuffix(s + suffix, suffix) && TrimSuffix(s + suffix, suffix) == s
  {
  }
}
