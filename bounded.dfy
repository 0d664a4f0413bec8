/** The bounded log window shared by both sides: the server keeps the last 200
    entries and serves the last 50, the dashboard keeps the last 50. */
module Bounded {

  /** The last `n` elements of `s` (all of `s` when it is shorter), in order:
      Python's `s[-n:]` and JavaScript's `s.slice(-n)` for n >= 1. */
  function Last<T>(s: seq<T>, n: nat): (r: seq<T>)
    ensures |r| == if |s| <= n then |s| else n
  {
    if |s| <= n then s else s[|s| - n..]
  }

  /** A window of `n` followed by one new element is the window of `n + 1`
      over the extended sequence: appending after a trim equals trimming after
      the append. */
  lemma {:induction false} LastThenAppend<T>(s: seq<T>, e: T, n: nat)
    ensures Last(s, n) + [e] == Last(s + [e], n + 1)
  {
    var a, b := Last(s, n) + [e], Last(s + [e], n + 1);
    assert |a| == |b|;
    forall i | 0 <= i < |a| ensures a[i] == b[i] {
      if i < |a| - 1 {
        assert a[i] == s[|s| - (|a| - 1) + i];
      }
    }
  }

  /** Trimming is forgetful only of the front: trimming a trimmed prefix and
      extending it gives the same window as trimming the whole history. */
  lemma {:induction false} LastOfLast<T>(s: seq<T>, t: seq<T>, n: nat)
    ensures Last(Last(s, n) + t, n) == Last(s + t, n)
  {
    var a, b := Last(Last(s, n) + t, n), Last(s + t, n);
    var w := Last(s, n);
    assert |a| == |b|;
    forall i | 0 <= i < |a| ensures a[i] == b[i] {
      var k := |w + t| - |a| + i;
      assert a[i] == (w + t)[k];
      var j := |s + t| - |b| + i;
      assert b[i] == (s + t)[j];
      if k < |w| {
        assert (w + t)[k] == w[k] == s[|s| - |w| + k];
      }
    }
  }

  /** A narrower window of a window is the narrower window of the whole. */
  lemma {:induction false} LastOfWider<T>(s: seq<T>, m: nat, n: nat)
    requires n <= m
    ensures Last(Last(s, m), n) == Last(s, n)
  {
    var w := Last(s, m);
    var a, b := Last(w, n), Last(s, n);
    assert |a| == |b|;
    forall i | 0 <= i < |a| ensures a[i] == b[i] {
      assert a[i] == w[|w| - |a| + i];
    }
  }
}
