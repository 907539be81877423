/**
 The circular slice `cslice(s, i, j)` (glimmerize.py:18-24): a window `[i, j)`
 over a sequence read as a circle, where a negative start wraps backward
 across the origin and a stop past the end wraps forward; in both wrapped
 cases the request is clamped so that no base is taken twice.
 */
module Circular {
  import opened PySeq

  function Abs(x: int): nat { if x < 0 then -x else x }

  /** `cslice(s, i, j)`, with every slice taken under Python's rules. */
  function Cslice<T>(s: seq<T>, i: int, j: int): seq<T>
  {
    if i < 0 then From(s, Max(|s| - Abs(i), j)) + Upto(s, j)
    else if j > |s| then From(s, i) + Upto(s, Min(i, j - |s|))
    else Slice(s, i, j)
  }

  /** A window that wraps: it starts before the origin, or it ends past the end. */
  predicate Wraps(n: nat, i: int, j: int)
  {
    (i < 0 <= j <= n) || (0 <= i <= n < j)
  }

  /**
   The offset that element 0 of a wrapped window is read from, before
   reduction modulo `n`: the requested start when the request fits in the
   circle, otherwise the clamp turns the window into a full turn that starts
   at `j` (backward) or at `i` (forward).
   */
  function WrapStart(n: nat, i: int, j: int): int
  {
    if j - i <= n then i else if i < 0 then j else i
  }

  /**
   Offset `x` brought back into `[0, n)` by at most one turn of the circle;
   this is `x mod n` for every offset a window can reach (see `TurnIsMod`).
   */
  function Turn(x: int, n: nat): int
  {
    if x < 0 then x + n else if x < n then x else x - n
  }

  /** The position of the sequence that element `k` of a wrapped window `[i, j)` comes from. */
  function Origin(n: nat, i: int, j: int, k: int): int
  {
    Turn(WrapStart(n, i, j) + k, n)
  }

  lemma MulMonotone(a: int, b: int, n: int)
    requires a <= b && 0 < n
    ensures a * n <= b * n
  {
    assert (b - a) * n >= 0;
    assert (b - a) * n == b * n - a * n;
  }

  /** The remainder is the unique `r` in `[0, n)` with `x == q * n + r`. */
  lemma ModUnique(x: int, n: int, q: int, r: int)
    requires 0 < n && 0 <= r < n && x == q * n + r
    ensures x % n == r
  {
    var q', r' := x / n, x % n;
    assert x == q' * n + r' && 0 <= r' < n;
    if q' < q {
      assert (q - 1) * n == q * n - n;
      MulMonotone(q', q - 1, n);
    } else if q' > q {
      assert (q + 1) * n == q * n + n;
      MulMonotone(q + 1, q', n);
    }
    assert q' == q;
  }

  /** For an offset less than one turn away from `[0, n)`, one turn is reduction modulo `n`. */
  lemma TurnIsMod(x: int, n: nat)
    requires 0 < n && 0 <= x + n && x < 2 * n
    ensures Turn(x, n) == x % n
  {
    if x < 0 {
      ModUnique(x, n, -1, x + n);
    } else if x < n {
      ModUnique(x, n, 0, x);
    } else {
      ModUnique(x, n, 1, x - n);
    }
  }

  /** Requests that stay inside the sequence are plain Python slices (glimmerize.py:23-24). */
  lemma CsliceDirect<T>(s: seq<T>, i: int, j: int)
    requires 0 <= i && 0 <= j <= |s|
    ensures Cslice(s, i, j) == if i < j then s[i..j] else []
  {
    SliceWithin(s, i, j);
  }

  /**
   A window that starts before the origin is a tail of the sequence followed
   by its head (glimmerize.py:19-20); it holds `min(j - i, n)` bases, and when
   the request fits in the circle element `k` is base `(i + k) mod n`.
   */
  lemma {:induction false} CsliceBackward<T>(s: seq<T>, i: int, j: int)
    requires i < 0 <= j <= |s|
    ensures Cslice(s, i, j) == s[Max(|s| + i, j)..] + s[..j]
    ensures |Cslice(s, i, j)| == Min(j - i, |s|)
    ensures j - i <= |s| ==> forall k :: 0 <= k < j - i ==> Cslice(s, i, j)[k] == s[Turn(i + k, |s|)]
  {
    var n := |s|;
    var m := Max(n - Abs(i), j);
    SliceWithin(s, m, n);
    SliceWithin(s, 0, j);
    assert From(s, m) == s[m..];
    assert Upto(s, j) == s[..j];
    var r := Cslice(s, i, j);
    assert r == s[m..] + s[..j];
    if j - i <= n {
      forall k | 0 <= k < j - i
        ensures r[k] == s[Turn(i + k, n)]
      {
        if k < n - m {
          assert r[k] == s[m + k];
        } else {
          assert r[k] == s[k - (n - m)];
        }
      }
    }
  }

  /**
   A window that ends past the end of the sequence is a tail of the sequence
   followed by its head (glimmerize.py:21-22); it holds `min(j - i, n)` bases,
   and when the request fits in the circle element `k` is base `(i + k) mod n`.
   */
  lemma {:induction false} CsliceForward<T>(s: seq<T>, i: int, j: int)
    requires 0 <= i <= |s| < j
    ensures Cslice(s, i, j) == s[i..] + s[..Min(i, j - |s|)]
    ensures |Cslice(s, i, j)| == Min(j - i, |s|)
    ensures j - i <= |s| ==> forall k :: 0 <= k < j - i ==> Cslice(s, i, j)[k] == s[Turn(i + k, |s|)]
  {
    var n := |s|;
    var m := Min(i, j - n);
    SliceWithin(s, i, n);
    SliceWithin(s, 0, m);
    assert From(s, i) == s[i..];
    assert Upto(s, m) == s[..m];
    var r := Cslice(s, i, j);
    assert r == s[i..] + s[..m];
    if j - i <= n {
      forall k | 0 <= k < j - i
        ensures r[k] == s[Turn(i + k, n)]
      {
        if k < n - i {
          assert r[k] == s[i + k];
        } else {
          assert r[k] == s[k - (n - i)];
        }
      }
    }
  }

  /**
   A wrapped request wider than the whole circle is clamped to exactly one
   turn: a rotation of the sequence, holding every base once.
   */
  lemma {:induction false} CsliceOverWide<T>(s: seq<T>, i: int, j: int)
    requires Wraps(|s|, i, j) && |s| < j - i
    ensures Cslice(s, i, j) == s[WrapStart(|s|, i, j)..] + s[..WrapStart(|s|, i, j)]
    ensures multiset(Cslice(s, i, j)) == multiset(s)
  {
    var n, b := |s|, WrapStart(|s|, i, j);
    if i < 0 {
      CsliceBackward(s, i, j);
      assert b == j && Max(n + i, j) == j;
    } else {
      CsliceForward(s, i, j);
      assert b == i && Min(i, j - n) == i;
    }
    assert Cslice(s, i, j) == s[b..] + s[..b];
    assert s == s[..b] + s[b..];
  }

  /** Element `k` of a clamped full turn is base `(WrapStart + k) mod n`. */
  lemma {:induction false} OverWideOrigins<T>(s: seq<T>, i: int, j: int)
    requires Wraps(|s|, i, j) && |s| < j - i
    ensures forall k :: 0 <= k < |s| ==> Cslice(s, i, j)[k] == s[Turn(WrapStart(|s|, i, j) + k, |s|)]
  {
    var n, b := |s|, WrapStart(|s|, i, j);
    CsliceOverWide(s, i, j);
    var r := Cslice(s, i, j);
    assert r == s[b..] + s[..b];
    forall k | 0 <= k < n
      ensures r[k] == s[Turn(b + k, n)]
    {
      if k < n - b {
        assert r[k] == s[b + k];
      } else {
        assert r[k] == s[k - (n - b)];
      }
    }
  }

  /**
   The elements from `i` up to position `j`, read around the circle:
   `min(j - i, n)` of them, element `k` being base `(i + k) mod n` when the
   request fits in the circle and the whole rotation starting at `j` when it
   does not.
   */
  lemma CsliceEnding<T>(s: seq<T>, i: int, j: int)
    requires i <= j && 0 <= j <= |s|
    ensures |Cslice(s, i, j)| == Min(j - i, |s|)
    ensures j - i <= |s| ==> forall k :: 0 <= k < j - i ==> Cslice(s, i, j)[k] == s[Turn(i + k, |s|)]
    ensures |s| < j - i ==> Cslice(s, i, j) == s[j..] + s[..j]
  {
    var n := |s|;
    if 0 <= i {
      CsliceDirect(s, i, j);
      forall k | 0 <= k < j - i
        ensures Cslice(s, i, j)[k] == s[Turn(i + k, n)]
      {
      }
    } else {
      CsliceBackward(s, i, j);
      if n < j - i {
        CsliceOverWide(s, i, j);
      }
    }
  }

  /** Every element of a wrapped window is read from the position `Origin` names. */
  lemma {:induction false} CsliceOrigins<T>(s: seq<T>, i: int, j: int)
    requires 0 < |s| && Wraps(|s|, i, j)
    ensures |Cslice(s, i, j)| == Min(j - i, |s|)
    ensures forall k :: 0 <= k < |Cslice(s, i, j)| ==>
      0 <= Origin(|s|, i, j, k) < |s| && Cslice(s, i, j)[k] == s[Origin(|s|, i, j, k)]
  {
    var n, r := |s|, Cslice(s, i, j);
    if i < 0 { CsliceBackward(s, i, j); } else { CsliceForward(s, i, j); }
    if n < j - i {
      OverWideOrigins(s, i, j);
    }
    forall k | 0 <= k < |r|
      ensures 0 <= Origin(n, i, j, k) < n && r[k] == s[Origin(n, i, j, k)]
    {
      assert Origin(n, i, j, k) == Turn(WrapStart(n, i, j) + k, n);
      if j - i <= n {
        assert WrapStart(n, i, j) == i;
        assert r[k] == s[Turn(i + k, n)];
      }
    }
  }

  /** Distinct elements of a wrapped window come from distinct positions. */
  lemma OriginsDistinct(n: nat, i: int, j: int, k1: int, k2: int)
    requires 0 < n && Wraps(n, i, j) && 0 <= k1 < k2 < Min(j - i, n)
    ensures Origin(n, i, j, k1) != Origin(n, i, j, k2)
  {
    var b := WrapStart(n, i, j);
  }

  /**
   A wrapped window never takes the same base twice: its elements come from
   pairwise distinct positions inside the sequence.
   */
  lemma CsliceNoRepeat<T>(s: seq<T>, i: int, j: int)
    requires 0 < |s| && Wraps(|s|, i, j)
    ensures forall k :: 0 <= k < |Cslice(s, i, j)| ==>
      0 <= Origin(|s|, i, j, k) < |s| && Cslice(s, i, j)[k] == s[Origin(|s|, i, j, k)]
    ensures forall k1, k2 :: 0 <= k1 < k2 < |Cslice(s, i, j)| ==> Origin(|s|, i, j, k1) != Origin(|s|, i, j, k2)
  {
    CsliceOrigins(s, i, j);
    forall k1, k2 | 0 <= k1 < k2 < |Cslice(s, i, j)|
      ensures Origin(|s|, i, j, k1) != Origin(|s|, i, j, k2)
    {
      OriginsDistinct(|s|, i, j, k1, k2);
    }
  }

}
