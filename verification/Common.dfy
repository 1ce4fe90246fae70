/** Small shared vocabulary. */
module Common {

  datatype Option<+T> = None | Some(value: T)

  function Min(a: int, b: int): int {
    if a <= b then a else b
  }

  function Max(a: int, b: int): int {
    if a >= b then a else b
  }

  ghost predicate NoDup<T>(s: seq<T>) {
    forall i, j :: 0 <= i < j < |s| ==> s[i] != s[j]
  }

  function Elems<T>(s: seq<T>): set<T> {
    set x | x in s
  }

  /** Six links of a chain, one by one and as sequences. */
  lemma SixLinks<S, A>(linked: (S, A, S) -> bool, s0: S, s1: S, s2: S, s3: S, s4: S, s5: S, s6: S,
                       a0: A, a1: A, a2: A, a3: A, a4: A, a5: A)
    requires linked(s0, a0, s1) && linked(s1, a1, s2) && linked(s2, a2, s3)
    requires linked(s3, a3, s4) && linked(s4, a4, s5) && linked(s5, a5, s6)
    ensures var ss, acts := [s0, s1, s2, s3, s4, s5, s6], [a0, a1, a2, a3, a4, a5];
            forall k :: 0 <= k < 6 ==> linked(ss[k], acts[k], ss[k + 1])
  {}

  lemma ThreeMoreLinks<S, A>(linked: (S, A, S) -> bool, ss: seq<S>, acts: seq<A>,
                             s0: S, s1: S, s2: S, a0: A, a1: A, a2: A)
    requires |ss| == |acts| + 1 && forall k :: 0 <= k < |acts| ==> linked(ss[k], acts[k], ss[k + 1])
    requires linked(ss[|acts|], a0, s0) && linked(s0, a1, s1) && linked(s1, a2, s2)
    ensures var tt, more := ss + [s0, s1, s2], acts + [a0, a1, a2];
            |tt| == |more| + 1 && forall k :: 0 <= k < |more| ==> linked(tt[k], more[k], tt[k + 1])
  {
    var tt, more := ss + [s0, s1, s2], acts + [a0, a1, a2];
    forall k | 0 <= k < |more| ensures linked(tt[k], more[k], tt[k + 1]) {
      if k < |acts| {
        assert linked(ss[k], acts[k], ss[k + 1]);
      }
    }
  }
}
