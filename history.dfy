/**
 * The bounded histories: `collections.deque(maxlen=cap)` used only through `append` and
 * `clear`. Appending to a full deque drops the oldest element.
 */
module History {

  function Min(x: int, y: int): (m: int) { if x <= y then x else y }

  /** The newest `cap` elements of everything ever appended, oldest first. */
  function Window<T>(stream: seq<T>, cap: nat): (w: seq<T>)
    ensures |w| == Min(|stream|, cap)
  {
    stream[|stream| - Min(|stream|, cap)..]
  }

  /** `deque.append(x)` on a deque bounded by `cap`. */
  function Push<T>(s: seq<T>, x: T, cap: nat): (r: seq<T>)
    requires 0 < cap && |s| <= cap
    ensures |r| == Min(|s| + 1, cap) && |r| <= cap
    ensures r[|r| - 1] == x
  {
    if |s| < cap then s + [x] else s[1..] + [x]
  }

  /** The first append to an empty history. */
  lemma PushEmpty<T>(x: T, cap: nat)
    requires 0 < cap
    ensures Push([], x, cap) == [x]
  {
    assert [] + [x] == [x];
  }

  /** One append keeps the newest `cap` elements of the history followed by `x`. */
  lemma PushIsWindow<T>(s: seq<T>, x: T, cap: nat)
    requires 0 < cap && |s| <= cap
    ensures Push(s, x, cap) == Window(s + [x], cap)
  {
    if |s| == cap {
      assert s[1..] + [x] == (s + [x])[1..];
    }
  }

  /** Appending a run of elements one by one. */
  function PushAll<T>(s: seq<T>, xs: seq<T>, cap: nat): (r: seq<T>)
    requires 0 < cap && |s| <= cap
    ensures |r| <= cap
    decreases |xs|
  {
    if xs == [] then s else PushAll(Push(s, xs[0], cap), xs[1..], cap)
  }

  /** Appending to the window of a stream gives the window of the longer stream. */
  lemma PushWindow<T>(stream: seq<T>, x: T, cap: nat)
    requires 0 < cap
    ensures Push(Window(stream, cap), x, cap) == Window(stream + [x], cap)
  {
    var w := Window(stream, cap);
    var n := |stream|;
    if n < cap {
      assert w == stream;
    } else {
      assert w + [x] == (stream + [x])[n - cap..];
      assert Window(w + [x], cap) == (stream + [x])[n + 1 - cap..];
    }
  }

  /**
   * A bounded history holds exactly the newest `cap` elements of everything appended to it
   * since it was last cleared: nothing is reordered and only the oldest elements are lost.
   */
  lemma {:induction false} PushAllWindow<T>(stream: seq<T>, xs: seq<T>, cap: nat)
    requires 0 < cap
    ensures PushAll(Window(stream, cap), xs, cap) == Window(stream + xs, cap)
    decreases |xs|
  {
    if xs != [] {
      PushWindow(stream, xs[0], cap);
      PushAllWindow(stream + [xs[0]], xs[1..], cap);
      assert stream + [xs[0]] + xs[1..] == stream + xs;
    } else {
      assert stream + xs == stream;
    }
  }

  /** Starting from an empty (just cleared) history. */
  lemma FromEmpty<T>(xs: seq<T>, cap: nat)
    requires 0 < cap
    ensures PushAll([], xs, cap) == Window(xs, cap)
    ensures |xs| <= cap ==> PushAll([], xs, cap) == xs
  {
    PushAllWindow([], xs, cap);
    assert [] + xs == xs;
  }
}
