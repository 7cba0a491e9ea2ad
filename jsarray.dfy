/** The part of JavaScript's Array.prototype.slice the block pagination uses. */
module JsArray {

  function Min(a: int, b: int): int { if a <= b then a else b }

  /** How slice normalises one index against a length: a negative index
      counts back from the end, and the result is clamped to [0, len]. */
  function RelativeIndex(i: int, len: nat): (r: nat)
    ensures r <= len
  {
    if i < 0 then (if len + i < 0 then 0 else len + i)
    else if i < len then i
    else len
  }

  function Max(a: int, b: int): int { if a >= b then a else b }

  /** Where an index of slice lands before clamping: a negative index counts
      back from the end. */
  function FromEnd(i: int, len: nat): int { if i < 0 then len + i else i }

  /** `s.slice(start, end)`: the elements at the positions from `start` up to,
      not including, `end`, either counted back from the end when negative. */
  function Slice<T>(s: seq<T>, start: int, end: int): (r: seq<T>)
    ensures |r| == Max(0, Min(FromEnd(end, |s|), |s|) - Max(FromEnd(start, |s|), 0))
    ensures forall k :: 0 <= k < |r| ==> r[k] == s[Max(FromEnd(start, |s|), 0) + k]
    ensures 0 <= start ==> forall k :: 0 <= k < |r| ==> start + k < |s| && r[k] == s[start + k]
    ensures 0 <= start <= end ==> |r| == Min(end, |s|) - Min(start, |s|)
    ensures start >= |s| ==> r == []
  {
    var lo := RelativeIndex(start, |s|);
    var hi := RelativeIndex(end, |s|);
    if lo < hi then s[lo..hi] else []
  }

  /** A window over five elements: offset 1, limit 2 yields the second and third. */
  lemma SliceExample<T>(t0: T, t1: T, t2: T, t3: T, t4: T)
    ensures Slice([t0, t1, t2, t3, t4], 1, 1 + 2) == [t1, t2]
  {
  }

  /** Negative bounds count from the end: `slice(-2, 48)` over three
      elements is the last two, and `slice(0, -1)` drops the last. */
  lemma SliceFromEnd<T>(t0: T, t1: T, t2: T)
    ensures Slice([t0, t1, t2], -2, 48) == [t1, t2]
    ensures Slice([t0, t1, t2], 0, -1) == [t0, t1]
  {
  }
}
