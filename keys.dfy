/**
 * Keys built by joining two strings with ':', as both the response caches and the Redis
 * bytecode cache do: the join is injective on the side that holds no ':'.
 */
module ColonKeys {
  /** In `a + ":" + b` with no ':' in `a`, the first ':' is at `|a|`. */
  lemma FirstColon(a: string, b: string)
    requires ':' !in a
    ensures (a + ":" + b)[|a|] == ':'
    ensures forall i :: 0 <= i < |a| ==> (a + ":" + b)[i] != ':'
  {
    assert forall i :: 0 <= i < |a| ==> (a + ":" + b)[i] == a[i];
  }

  /** In `a + ":" + b` with no ':' in `b`, the last ':' is `|b|` from the end. */
  lemma LastColon(a: string, b: string)
    requires ':' !in b
    ensures (a + ":" + b)[|a|] == ':'
    ensures forall i :: |a| < i < |a| + 1 + |b| ==> (a + ":" + b)[i] != ':'
  {
    assert forall i :: |a| < i < |a| + 1 + |b| ==> (a + ":" + b)[i] == b[i - |a| - 1];
  }

  /** Joining two parts with ':' loses nothing when the left part holds no ':'. */
  lemma JoinLeftInjective(a1: string, b1: string, a2: string, b2: string)
    requires ':' !in a1 && ':' !in a2
    requires a1 + ":" + b1 == a2 + ":" + b2
    ensures a1 == a2 && b1 == b2
  {
    var s := a1 + ":" + b1;
    FirstColon(a1, b1);
    FirstColon(a2, b2);
    assert |a1| == |a2|;
    assert a1 == s[..|a1|] == a2;
    assert b1 == s[|a1| + 1..] == b2;
  }

  /** Joining two parts with ':' loses nothing when the right part holds no ':'. */
  lemma JoinRightInjective(a1: string, b1: string, a2: string, b2: string)
    requires ':' !in b1 && ':' !in b2
    requires a1 + ":" + b1 == a2 + ":" + b2
    ensures a1 == a2 && b1 == b2
  {
    var s := a1 + ":" + b1;
    LastColon(a1, b1);
    LastColon(a2, b2);
    assert |a1| == |a2|;
    assert a1 == s[..|a1|] == a2;
    assert b1 == s[|a1| + 1..] == b2;
  }
}
