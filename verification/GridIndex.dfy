/** Row-major positions: an outer and an inner coordinate as one number, and back. The nested loops of
    the repackers compute such positions; that they stay in range and determine their coordinates is
    what makes every position be written exactly once. */
module GridIndex {
  /** Position of (a, b) in rows of length n. */
  function At(a: int, n: int, b: int): int { a * n + b }

  lemma {:induction false} MulMonotone(a: int, b: int, n: int)
    requires a <= b && 0 <= n
    ensures a * n <= b * n
  {
    assert (b - a) * n >= 0;
  }

  lemma {:induction false} AtInRange(a: int, m: int, n: int, b: int)
    requires 0 <= a < m && 0 <= b < n
    ensures 0 <= At(a, n, b) < m * n
  {
    MulMonotone(a + 1, m, n);
    MulMonotone(0, a, n);
    assert (a + 1) * n == a * n + n;
  }

  /** A position determines both coordinates. */
  lemma {:induction false} AtUnique(a: int, b: int, c: int, d: int, n: int)
    requires 0 <= b < n && 0 <= d < n && At(a, n, b) == At(c, n, d)
    ensures a == c && b == d
  {
    assert (a + 1) * n == a * n + n && (c + 1) * n == c * n + n;
    if a < c {
      MulMonotone(a + 1, c, n);
    } else if c < a {
      MulMonotone(c + 1, a, n);
    }
  }

  /** Every position has coordinates. */
  lemma {:induction false} AtSplit(k: int, m: int, n: int)
    requires 0 <= k < m * n && 0 < n
    ensures 0 <= k / n < m && 0 <= k % n < n && At(k / n, n, k % n) == k
  {
    if k / n >= m { MulMonotone(m, k / n, n); }
  }

  // ---- copying into a grid ----

  /** The value at a position, compared without asking whether the position exists. */
  ghost predicate IsValueAt<T>(data: seq<T>, i: int, v: T) { 0 <= i < |data| && data[i] == v }

  /** Positions whose coordinates are in `done` hold the value of their origin and have been written
      once more; the others are as before. */
  ghost predicate Written<C, T>(data: seq<T>, coords: seq<C>, origin: C -> int, before: seq<T>, after: seq<T>,
                                writes: seq<nat>, writes': seq<nat>, done: C -> bool)
  {
    && |after| == |before| == |writes| == |writes'| && |coords| <= |after|
    && (forall k :: 0 <= k < |coords| ==>
          if done(coords[k]) then IsValueAt(data, origin(coords[k]), after[k]) && writes'[k] == writes[k] + 1
          else after[k] == before[k] && writes'[k] == writes[k])
    && (forall k :: |coords| <= k < |after| ==> after[k] == before[k] && writes'[k] == writes[k])
  }

  /** Two rounds of assignments to different positions. */
  lemma {:induction false} WrittenBoth<C, T>(data: seq<T>, coords: seq<C>, origin: C -> int, a: seq<T>, b: seq<T>,
                                             c: seq<T>, w0: seq<nat>, w1: seq<nat>, w2: seq<nat>, first: C -> bool,
                                             second: C -> bool, both: C -> bool)
    requires Written(data, coords, origin, a, b, w0, w1, first) && Written(data, coords, origin, b, c, w1, w2, second)
    requires forall k :: 0 <= k < |coords| ==> (both(coords[k]) <==> first(coords[k]) || second(coords[k]))
    requires forall k :: 0 <= k < |coords| ==> !(first(coords[k]) && second(coords[k]))
    ensures Written(data, coords, origin, a, c, w0, w2, both)
  {
  }
}
