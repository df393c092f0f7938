/** The two functions of Go's `strings` package the core relies on. */
module Strings {

  /** `strings.IndexByte`: the index of the first `c` in `s`, or -1 when `s` has none. */
  function IndexByte(s: string, c: char): (i: int)
    ensures -1 <= i < |s|
    ensures i == -1 <==> c !in s
    ensures 0 <= i ==> s[i] == c && c !in s[..i]
  {
    if |s| == 0 then -1
    else if s[0] == c then 0
    else
      var j := IndexByte(s[1..], c);
      assert s[1..][..if j < 0 then 0 else j] == s[1..1 + if j < 0 then 0 else j];
      if j == -1 then -1 else j + 1
  }

  /** Splitting at the first `c` finds the end of a prefix that has no `c`. */
  lemma {:induction false} IndexByteOfJoin(k: string, c: char, v: string)
    requires c !in k
    ensures IndexByte(k + [c] + v, c) == |k|
  {
    var s := k + [c] + v;
    assert s[|k|] == c;
    assert s[..|k|] == k;
  }

  /** `strings.HasPrefix`. */
  predicate HasPrefix(s: string, prefix: string)
  {
    |prefix| <= |s| && s[..|prefix|] == prefix
  }
}
