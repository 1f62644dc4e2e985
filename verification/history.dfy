/** The bounded quote history (App.tsx:151): newest first, at most fifty entries,
    the oldest dropped when full. */
module History {

  const Capacity: nat := 50

  function Min(a: int, b: int): int {
    if a <= b then a else b
  }

  /** `[newQuote, ...history].slice(0, 50)`. */
  function Push<T>(x: T, h: seq<T>): (r: seq<T>)
    ensures |r| == Min(|h| + 1, Capacity)
    ensures r[0] == x
    ensures r[1..] == h[..Min(|h|, Capacity - 1)]
  {
    ([x] + h)[..Min(|h| + 1, Capacity)]
  }

  /** The entries in reverse order (newest last becomes newest first). */
  function Reverse<T>(s: seq<T>): (r: seq<T>)
    ensures |r| == |s|
    ensures forall i :: 0 <= i < |s| ==> r[i] == s[|s| - 1 - i]
  {
    if s == [] then [] else Reverse(s[1..]) + [s[0]]
  }

  /** The history after the calculations `xs` (oldest first) were pushed onto `h`. */
  function PushAll<T>(h: seq<T>, xs: seq<T>): seq<T> {
    if xs == [] then h else Push(xs[|xs| - 1], PushAll(h, xs[..|xs| - 1]))
  }

  /** Sliding-window view of the history: after any run of calculations, the history is
      the most recent fifty quotes overall, newest first. With no calculation at all, a
      history over capacity (one read back from storage) is left as it was. */
  lemma {:induction false} PushAllWindow<T>(h: seq<T>, xs: seq<T>)
    requires |h| <= Capacity || xs != []
    ensures PushAll(h, xs) == (Reverse(xs) + h)[..Min(|xs| + |h|, Capacity)]
    decreases |xs|
  {
    if xs != [] {
      var init, x := xs[..|xs| - 1], xs[|xs| - 1];
      var w := PushAll(h, init);
      if |h| <= Capacity || init != [] {
        PushAllWindow(h, init);
      } else {
        assert w == h;
      }
      var full := Reverse(xs) + h;
      var r := PushAll(h, xs);
      assert r == Push(x, w);
      assert |r| == Min(|xs| + |h|, Capacity);
      forall i | 0 <= i < |r|
        ensures r[i] == full[i]
      {
        if i == 0 {
          assert full[0] == Reverse(xs)[0] == x;
        } else {
          assert r[i] == w[i - 1];
          assert w[i - 1] == (Reverse(init) + h)[i - 1];
          if i - 1 < |init| {
            assert Reverse(init)[i - 1] == init[|init| - i] == xs[|xs| - 1 - i];
          }
        }
      }
    }
  }
}
