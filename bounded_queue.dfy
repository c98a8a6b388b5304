/**
 * Python's `collections.deque(maxlen=n)` as the processors use it: `append`
 * on a full deque drops the oldest element, so the deque always holds the
 * last `n` values appended.
 */
module BoundedQueue {

  function Min(a: int, b: int): int { if a < b then a else b }

  /** The last `n` elements of `s` (all of them when there are fewer). */
  function Last<T>(s: seq<T>, n: nat): (r: seq<T>)
    ensures |r| == Min(|s|, n)
  {
    s[|s| - Min(|s|, n)..]
  }

  /** `d.append(x)` on a deque with `maxlen == n` holding `q`. */
  function Push<T>(q: seq<T>, x: T, n: nat): (r: seq<T>)
    ensures |r| == Min(|q| + 1, n)
    ensures n >= 1 ==> r[|r| - 1] == x
    ensures |q| < n ==> r == q + [x]
    ensures |q| == n >= 1 ==> r == q[1..] + [x]
    ensures forall i :: 0 <= i < |r| - 1 ==> r[i] == q[|q| + 1 - |r| + i]
  {
    var s := q + [x];
    if |s| > n then s[|s| - n..] else s
  }

  /** Appending to the window of a stream gives the window of the longer stream. */
  lemma PushKeepsLastWindow<T>(stream: seq<T>, x: T, n: nat)
    ensures Push(Last(stream, n), x, n) == Last(stream + [x], n)
  {
    var w := Last(stream, n);
    var r := Push(w, x, n);
    var l := Last(stream + [x], n);
    assert |r| == |l|;
    forall i | 0 <= i < |r|
      ensures r[i] == l[i]
    {
      if i < |r| - 1 {
        assert r[i] == w[|w| + 1 - |r| + i];
      }
    }
  }
}
