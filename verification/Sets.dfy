/** Counting with finite sets. */
module Sets {
  lemma {:induction false} Smaller<T>(a: set<T>, b: set<T>)
    requires a <= b
    ensures |a| <= |b|
  {
    if a != {} {
      var x :| x in a;
      Smaller(a - {x}, b - {x});
    }
  }

  /** The `n` numbers from `from` on. */
  ghost function Range(from: nat, n: nat): (r: set<nat>)
    ensures |r| == n && forall x: nat :: x in r <==> from <= x < from + n
  {
    if n == 0 then {} else Range(from, n - 1) + {from + n - 1}
  }

  /** A list without repetitions has as many elements as its set. */
  lemma {:induction false} Elements<T>(s: seq<T>)
    requires forall i, k | 0 <= i < k < |s| :: s[i] != s[k]
    ensures |set i | 0 <= i < |s| :: s[i]| == |s|
  {
    if s != [] {
      var r := s[..|s| - 1];
      Elements(r);
      assert (set i | 0 <= i < |s| :: s[i]) == (set i | 0 <= i < |r| :: r[i]) + {s[|s| - 1]};
    }
  }

  /** Distinct numbers below `n`, none of them `w`. */
  lemma Pigeonhole(s: seq<nat>, n: nat, w: nat)
    requires w < n && forall i | 0 <= i < |s| :: s[i] < n && s[i] != w
    requires forall i, k | 0 <= i < k < |s| :: s[i] != s[k]
    ensures |s| < n
  {
    Elements(s);
    Smaller(set i | 0 <= i < |s| :: s[i], Range(0, n) - {w});
  }
}
