/** The JavaScript string built-ins the core relies on, on `seq<char>`. */
module Strings {

  /** `s.includes(sub)`: `sub` occurs in `s` at some position. */
  predicate Includes(s: string, sub: string)
    decreases |s|
  {
    sub <= s || (s != [] && Includes(s[1..], sub))
  }

  /** Whatever `s` includes, it contains that needle's first character. */
  lemma {:induction false} IncludesHead(s: string, sub: string)
    requires sub != [] && Includes(s, sub)
    ensures sub[0] in s
    decreases |s|
  {
    if !(sub <= s) {
      IncludesHead(s[1..], sub);
    }
  }

  /** `s.replace(/\\/g, '/')`: every backslash becomes a forward slash. */
  function ForwardSlashes(s: string): (r: string)
    ensures |r| == |s|
    ensures '\\' !in r
    ensures forall i :: 0 <= i < |s| && s[i] != '\\' ==> r[i] == s[i]
    ensures forall i :: 0 <= i < |s| ==> (r[i] == '/' <==> s[i] == '/' || s[i] == '\\')
    decreases |s|
  {
    if s == [] then []
    else [if s[0] == '\\' then '/' else s[0]] + ForwardSlashes(s[1..])
  }

  /** `s.lastIndexOf(c)` for a one-character needle: the position of the
      last `c`, or -1 when `c` does not occur. */
  function LastIndexOf(s: string, c: char): (r: int)
    ensures -1 <= r < |s|
    ensures r == -1 <==> c !in s
    ensures r >= 0 ==> s[r] == c
    ensures forall j :: r < j < |s| ==> s[j] != c
    decreases |s|
  {
    if s == [] then -1
    else if s[|s| - 1] == c then |s| - 1
    else LastIndexOf(s[..|s| - 1], c)
  }
}
