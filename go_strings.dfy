/** The two functions of Go's `strings` package that the token exchange relies on,
    over Dafny strings. */
module GoStrings {

  /** `strings.HasSuffix`: `suffix` is the tail of `s`. */
  predicate HasSuffix(s: string, suffix: string) {
    |suffix| <= |s| && s[|s| - |suffix|..] == suffix
  }

  /** `strings.CutSuffix`: `s` with ONE trailing occurrence of `suffix` removed,
      and whether there was one to remove. */
  function CutSuffix(s: string, suffix: string): (r: (string, bool))
    ensures r.1 <==> HasSuffix(s, suffix)
    ensures r.1 ==> r.0 + suffix == s
    ensures !r.1 ==> r.0 == s
  {
    if HasSuffix(s, suffix) then (s[..|s| - |suffix|], true) else (s, false)
  }

  /** Cutting a suffix undoes appending it. */
  lemma CutSuffixOfAppended(t: string, suffix: string)
    ensures CutSuffix(t + suffix, suffix) == (t, true)
  {
    assert (t + suffix)[|t|..] == suffix;
    assert (t + suffix)[..|t|] == t;
  }
}
