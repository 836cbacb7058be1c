/** The pacing rule both playlist players apply after starting a cut: how
    long to wait before starting the next one, in milliseconds. */
module Pacing {

  import opened Catalog

  /** A topplay cut looks at the entry after it, with no wrap-around: at the
      last index the lookup raises `IndexError`. */
  predicate NextKnown(p: seq<Cut>, i: nat)
    requires i < |p|
  {
    p[i].topplay ==> i + 1 < |p|
  }

  /** The wait after starting `p[i]`: its segue point for a normal cut; for
      a topplay cut, the segue point less the next cut's intro ramp when
      the ramp is the shorter, and no wait otherwise. */
  function Delay(p: seq<Cut>, i: nat): (r: int)
    requires i < |p| && NextKnown(p, i)
  {
    if !p[i].topplay then p[i].timers.segueBegin
    else if Ramp(p[i + 1]) < p[i].timers.segueBegin then p[i].timers.segueBegin - Ramp(p[i + 1])
    else 0
  }

  /** A normal cut hands over at its segue point. */
  lemma NormalDelay(p: seq<Cut>, i: nat)
    requires i < |p| && !p[i].topplay
    ensures Delay(p, i) == p[i].timers.segueBegin
  {
  }

  /** After a topplay cut the wait is never negative, the next cut's ramp
      ends no earlier than the topplay cut's segue point, and whenever it
      actually waits the ramp ends exactly on the segue point. */
  lemma TopplayDelay(p: seq<Cut>, i: nat)
    requires i < |p| && p[i].topplay && i + 1 < |p|
    ensures Delay(p, i) >= 0
    ensures Delay(p, i) + Ramp(p[i + 1]) >= p[i].timers.segueBegin
    ensures Delay(p, i) > 0 ==> Delay(p, i) + Ramp(p[i + 1]) == p[i].timers.segueBegin
    ensures Ramp(p[i + 1]) >= 0 ==> Delay(p, i) <= if p[i].timers.segueBegin > 0 then p[i].timers.segueBegin else 0
    ensures Ramp(p[i + 1]) >= p[i].timers.segueBegin ==> Delay(p, i) == 0
  {
  }

  /** `sleep` rejects a negative length; only a normal cut with a negative
      segue point can ask for one. */
  lemma NegativeOnlyIfNormal(p: seq<Cut>, i: nat)
    requires i < |p| && NextKnown(p, i) && Delay(p, i) < 0
    ensures !p[i].topplay && p[i].timers.segueBegin < 0
  {
  }

  /** Worked cases for a topplay cut with its segue at 52000 ms: a next cut
      with a 2000 ms ramp starts 50000 ms later, one whose 60000 ms ramp
      outlasts the segue starts at once. */
  lemma TopplayExamples(a: Cut, b: Cut, c: Cut)
    requires a.topplay && a.timers.segueBegin == 52000
    requires b.timers.introBegin == 0 && b.timers.introEnd == 2000
    requires c.timers.introBegin == 0 && c.timers.introEnd == 60000
    ensures Delay([a, b], 0) == 50000
    ensures Delay([a, c], 0) == 0
  {
  }

  /** Every entry of a pass can be paced: no topplay cut in last place, no
      negative wait. */
  ghost predicate PassPaced(p: seq<Cut>)
  {
    forall i :: 0 <= i < |p| ==> NextKnown(p, i) && Delay(p, i) >= 0
  }

  /** The waits of one whole pass. */
  function PassDelays(p: seq<Cut>): (r: seq<int>)
    requires PassPaced(p)
    ensures |r| == |p| && forall k :: 0 <= k < |p| ==> r[k] == Delay(p, k)
  {
    seq(|p|, k requires 0 <= k < |p| => Delay(p, k))
  }

  /** The waits of `m` passes of the endless replay loop, which starts over
      from index 0 after every pass. */
  function Replay(p: seq<Cut>, m: nat): (r: seq<int>)
    requires PassPaced(p)
  {
    if m == 0 then [] else PassDelays(p) + Replay(p, m - 1)
  }

  /** Wait r of pass q of the replay (counting from 0) is the wait after
      entry r. */
  lemma {:induction false} ReplayIndex(p: seq<Cut>, m: nat, q: nat, r: nat)
    requires PassPaced(p) && q < m && r < |p|
    ensures |Replay(p, m)| == m * |p|
    ensures q * |p| + r < m * |p|
    ensures Replay(p, m)[q * |p| + r] == Delay(p, r)
  {
    var n := |p|;
    ReplayLength(p, m);
    PassOffset(q, m, n, r);
    var rest := Replay(p, m - 1);
    assert Replay(p, m) == PassDelays(p) + rest;
    if q > 0 {
      ReplayIndex(p, m - 1, q - 1, r);
      assert Replay(p, m)[q * n + r] == rest[(q - 1) * n + r];
    }
  }

  /** Position r of pass q lies inside m passes of n entries, one pass
      further on than position r of pass q - 1. */
  lemma PassOffset(q: nat, m: nat, n: nat, r: nat)
    requires q < m && r < n
    ensures q * n + r < m * n
    ensures q > 0 ==> (q - 1) * n + r + n == q * n + r
  {
    assert (q + 1) * n == q * n + n;
    MulMonotone(q + 1, m, n);
    if q > 0 {
      assert (q - 1) * n + n == q * n;
    }
  }

  lemma {:induction false} MulMonotone(a: nat, b: nat, n: nat)
    requires a <= b
    ensures a * n <= b * n
    decreases b - a
  {
    if a < b {
      MulMonotone(a, b - 1, n);
      assert (b - 1) * n + n == b * n;
    }
  }

  lemma {:induction false} ReplayLength(p: seq<Cut>, m: nat)
    requires PassPaced(p)
    ensures |Replay(p, m)| == m * |p|
  {
    if m > 0 {
      ReplayLength(p, m - 1);
      assert (m - 1) * |p| + |p| == m * |p|;
    }
  }
}
