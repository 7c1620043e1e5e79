/**
 * Python's `collections.deque(maxlen=cap)` as a sequence value: appending to
 * a full deque discards its oldest (leftmost) element. The tracker's pending
 * buffers (cap 1000), recent-diff windows (cap 32) and the latency window
 * (cap 100) are all of this kind.
 */
module BoundedDeque {

  /** The last `n` elements of `s`, or all of `s` when it is shorter. */
  function LastN<T>(s: seq<T>, n: nat): (r: seq<T>)
    ensures |r| == if |s| <= n then |s| else n
    ensures r == s[|s| - |r|..]
  {
    if |s| <= n then s else s[|s| - n..]
  }

  /** `d.append(x)` on a deque bounded by `cap`. */
  function Append<T>(d: seq<T>, x: T, cap: nat): (r: seq<T>)
    requires |d| <= cap
    ensures r == LastN(d + [x], cap)
    ensures |r| <= cap
  {
    if cap == 0 then []
    else if |d| < cap then d + [x]
    else d[1..] + [x]
  }

  /** Appending the elements of `xs` one at a time, oldest first. */
  function AppendAll<T>(d: seq<T>, xs: seq<T>, cap: nat): (r: seq<T>)
    requires |d| <= cap
    ensures |r| <= cap
    decreases |xs|
  {
    if xs == [] then d else AppendAll(Append(d, xs[0], cap), xs[1..], cap)
  }

  /** Keeping the last `n` twice is keeping the last `n` once, even with more appended in between. */
  lemma LastNOfLastN<T>(a: seq<T>, b: seq<T>, n: nat)
    ensures LastN(LastN(a, n) + b, n) == LastN(a + b, n)
  {
    var c := LastN(a, n);
    var k := |a| - |c|;
    assert a + b == a[..k] + (c + b);
    if |c + b| <= n {
      assert |a| <= n || |b| == 0;
    }
  }

  /**
   * A bounded deque that receives a stream of appends holds exactly the most
   * recent `cap` elements of everything it was given, in arrival order.
   */
  lemma {:induction false} AppendAllKeepsMostRecent<T>(d: seq<T>, xs: seq<T>, cap: nat)
    requires |d| <= cap
    ensures AppendAll(d, xs, cap) == LastN(d + xs, cap)
    decreases |xs|
  {
    if xs == [] {
      assert d + xs == d;
    } else {
      var d' := Append(d, xs[0], cap);
      calc {
        AppendAll(d, xs, cap);
        AppendAll(d', xs[1..], cap);
        { AppendAllKeepsMostRecent(d', xs[1..], cap); }
        LastN(d' + xs[1..], cap);
        { LastNOfLastN(d + [xs[0]], xs[1..], cap); }
        LastN(d + [xs[0]] + xs[1..], cap);
        { assert d + [xs[0]] + xs[1..] == d + xs; }
        LastN(d + xs, cap);
      }
    }
  }
}
