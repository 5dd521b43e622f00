/** Vocabulary for stating properties of driver traces: how often an action
    occurs, whether one action always comes before another, and the
    one-or-nothing piece that a flag-gated driver call contributes. */
module Traces {
  import opened Hardware

  /** The number of times `a` occurs in `s`. */
  function Count(s: seq<Action>, a: Action): (n: nat)
    ensures n <= |s|
    ensures n == 0 <==> a !in s
  {
    if s == [] then 0
    else (if s[0] == a then 1 else 0) + Count(s[1..], a)
  }

  /** Every occurrence of `a` in `s` comes strictly before every occurrence of `b`. */
  predicate Before(s: seq<Action>, a: Action, b: Action)
  {
    forall i, j :: 0 <= i < |s| && 0 <= j < |s| && s[i] == a && s[j] == b ==> i < j
  }

  /** What a call guarded by `flag` contributes to the trace: `a` once, or nothing. */
  function Gate(flag: bool, a: Action): (s: seq<Action>)
    ensures |s| == (if flag then 1 else 0)
    ensures Count(s, a) == |s|
    ensures forall b :: b != a ==> b !in s
  {
    if flag then [a] else []
  }

  lemma {:induction false} CountAppend(s: seq<Action>, t: seq<Action>, a: Action)
    ensures Count(s + t, a) == Count(s, a) + Count(t, a)
  {
    if s == [] {
      assert s + t == t;
    } else {
      assert (s + t)[1..] == s[1..] + t;
      CountAppend(s[1..], t, a);
    }
  }
}
