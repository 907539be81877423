/**
 Python's sequence indexing and slicing, which the program relies on for
 `s[a:b]`, `s[:-trim]`, `s[:3]` and `" +-"[strand]`: negative positions count
 from the end, and slice bounds are clamped to `[0, len(s)]`.
 */
module PySeq {

  function Min(a: int, b: int): int { if a <= b then a else b }

  function Max(a: int, b: int): int { if a >= b then a else b }

  /** Where Python puts one slice bound `k` of a sequence of length `n`. */
  function Bound(k: int, n: nat): (r: nat)
    ensures r <= n
  {
    if k < 0 then Max(n + k, 0) else Min(k, n)
  }

  /** A bound inside the sequence stays put, one past the end is clamped to it, and a negative one counts from the end, stopping at 0. */
  lemma BoundCases(k: int, n: nat)
    ensures 0 <= k <= n ==> Bound(k, n) == k
    ensures n < k ==> Bound(k, n) == n
    ensures k < 0 && 0 <= n + k ==> Bound(k, n) == n + k
    ensures n + k < 0 ==> Bound(k, n) == 0
  {
  }

  /** `s[a:b]`: the elements from the normalised start up to the normalised stop. */
  function Slice<T>(s: seq<T>, a: int, b: int): (r: seq<T>)
    ensures |r| == Max(Bound(b, |s|) - Bound(a, |s|), 0)
  {
    var lo, hi := Bound(a, |s|), Bound(b, |s|);
    if lo < hi then s[lo..hi] else []
  }

  /** Element `k` of a slice is element `k` past the normalised start. */
  lemma SliceElements<T>(s: seq<T>, a: int, b: int)
    ensures forall k :: 0 <= k < |Slice(s, a, b)| ==> Slice(s, a, b)[k] == s[Bound(a, |s|) + k]
  {
  }

  /** `s[a:]` */
  function From<T>(s: seq<T>, a: int): seq<T>
  {
    Slice(s, a, |s|)
  }

  /** `s[:b]` */
  function Upto<T>(s: seq<T>, b: int): seq<T>
  {
    Slice(s, 0, b)
  }

  /** `s[k]`, where a negative `k` counts from the end. */
  function Index<T>(s: seq<T>, k: int): T
    requires -|s| <= k < |s|
  {
    if k < 0 then s[|s| + k] else s[k]
  }

  /** Within bounds, a Python slice is the ordinary subsequence, and it is empty once the start passes the stop. */
  lemma SliceWithin<T>(s: seq<T>, a: int, b: int)
    requires 0 <= a && 0 <= b <= |s|
    ensures Slice(s, a, b) == if a < b then s[a..b] else []
  {
    BoundCases(a, |s|);
    BoundCases(b, |s|);
  }

  /**
   `s[:-t]` drops the last `t` elements when `0 < t`, keeps nothing when
   `t == 0` (because `-0 == 0`), and keeps the first `-t` elements when `t < 0`.
   */
  lemma DropLast<T>(s: seq<T>, t: int)
    ensures 0 < t <= |s| ==> Slice(s, 0, -t) == s[..|s| - t]
    ensures |s| < t ==> Slice(s, 0, -t) == []
    ensures t == 0 ==> Slice(s, 0, -t) == []
    ensures t < 0 ==> Slice(s, 0, -t) == s[..Min(-t, |s|)]
  {
    BoundCases(0, |s|);
    BoundCases(-t, |s|);
  }

}
