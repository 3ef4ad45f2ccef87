/** The fixed-capacity FIFO buffer that holds finished runs: a `deque` created with a
    maximum length, which silently drops its oldest item when an append would overflow it. */
module BoundedHistory {

  /** The maximum number of finished runs the telemetry store keeps. */
  const Capacity: nat := 50

  function Min(a: nat, b: nat): nat {
    if a <= b then a else b
  }

  /** The `cap` most recent items of `s` (all of `s` when it is shorter), oldest first. */
  function Newest<T>(s: seq<T>, cap: nat): (r: seq<T>)
    ensures |r| == Min(|s|, cap)
    ensures forall i :: 0 <= i < |r| ==> r[i] == s[|s| - |r| + i]
  {
    s[|s| - Min(|s|, cap)..]
  }

  /** Appending `x` at the newest end of a buffer bounded by `cap`. */
  function Push<T>(h: seq<T>, x: T, cap: nat): (r: seq<T>)
    ensures |r| == Min(|h| + 1, cap)
    ensures |h| < cap ==> r == h + [x]
    ensures 0 < cap ==> r[|r| - 1] == x
    ensures forall i :: 0 <= i < |r| - 1 ==> r[i] == h[|h| + 1 - |r| + i]
  {
    Newest(h + [x], cap)
  }

  /** Appending to a full buffer drops exactly its oldest entry and keeps the order of the
      rest; appending to a buffer with room drops nothing. */
  lemma PushEvictsOldest<T>(h: seq<T>, x: T)
    ensures |h| <= Capacity ==> |Push(h, x, Capacity)| <= Capacity
    ensures |h| == Capacity ==> Push(h, x, Capacity) == h[1..] + [x]
    ensures |h| < Capacity ==> Push(h, x, Capacity) == h + [x]
  {
    if |h| == Capacity {
      var r := Push(h, x, Capacity);
      assert |r| == Capacity;
      assert forall i :: 0 <= i < |r| ==> r[i] == (h[1..] + [x])[i];
    }
  }

  /** Appending the items of `xs` one after another, oldest first. */
  function PushAll<T>(h: seq<T>, xs: seq<T>, cap: nat): seq<T>
    decreases |xs|
  {
    if xs == [] then h else PushAll(Push(h, xs[0], cap), xs[1..], cap)
  }

  /** Keeping the newest `cap` items of a buffer and then adding more keeps the same items as
      never having dropped any. */
  lemma NewestAbsorbs<T>(s: seq<T>, t: seq<T>, cap: nat)
    ensures Newest(Newest(s, cap) + t, cap) == Newest(s + t, cap)
  {
    var u := Newest(s, cap) + t;
    var a := Newest(u, cap);
    var b := Newest(s + t, cap);
    assert |a| == |b|;
    forall i | 0 <= i < |a|
      ensures a[i] == b[i]
    {
      var j := |u| - |a| + i;
      var k := |s + t| - |b| + i;
      if j < |Newest(s, cap)| {
        assert u[j] == Newest(s, cap)[j];
        assert k == |s| - Min(|s|, cap) + j;
      } else {
        assert u[j] == t[j - |Newest(s, cap)|];
        assert k - |s| == j - |Newest(s, cap)|;
      }
    }
  }

  /** Whatever series of runs is appended, the buffer ends up holding exactly the most
      recent `cap` of all items ever appended, in arrival order. */
  lemma {:induction false} PushAllKeepsMostRecent<T>(h: seq<T>, xs: seq<T>, cap: nat)
    requires |h| <= cap
    ensures PushAll(h, xs, cap) == Newest(h + xs, cap)
    ensures |PushAll(h, xs, cap)| <= cap
    decreases |xs|
  {
    if xs == [] {
      assert h + xs == h;
    } else {
      var h' := Push(h, xs[0], cap);
      PushAllKeepsMostRecent(h', xs[1..], cap);
      NewestAbsorbs(h + [xs[0]], xs[1..], cap);
      assert h + [xs[0]] + xs[1..] == h + xs;
    }
  }
}
