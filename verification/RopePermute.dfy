/** Reordering query and key weights: the rows of each rotary pair, next to each other before, end up half
    the rotary rows apart; nothing is lost. */
module RopePermute {
  import opened GridIndex

  /** Heads of headDim rows, each row with one value per input feature. */
  datatype Layout = Layout(heads: int, headDim: int, features: int, rotary: int)

  predicate LayoutOk(l: Layout) {
    0 <= l.heads && 0 < l.headDim && 0 <= l.features && 0 <= l.rotary <= l.headDim && l.rotary % 2 == 0
  }

  lemma {:induction false} ShareInRange(n: int, factor: real)
    requires 0 <= n && 0.0 <= factor <= 1.0
    ensures 0 <= (n as real * factor).Floor <= n
  {
    assert n as real * (1.0 - factor) >= 0.0;
    assert n as real * factor == n as real - n as real * (1.0 - factor);
  }

  /** The rotary rows of a head: the given share of them, rounded down to an even number. */
  function RotaryDim(headDim: int, factor: real): (d: int)
    requires 0 <= headDim && 0.0 <= factor <= 1.0
    ensures 0 <= d <= headDim && d % 2 == 0
  {
    ShareInRange(headDim, factor);
    RoundDownToEven((headDim as real * factor).Floor)
  }

  function RoundDownToEven(d: int): (e: int)
    requires 0 <= d
    ensures 0 <= e <= d && e % 2 == 0
  {
    if d % 2 != 0 then d / 2 * 2 else d
  }

  function Cell(l: Layout, h: int, r: int, f: int): int { At(At(h, l.headDim, r), l.features, f) }

  predicate InGrid(l: Layout, h: int, r: int, f: int) { 0 <= h < l.heads && 0 <= r < l.headDim && 0 <= f < l.features }

  function Total(l: Layout): int { l.heads * l.headDim * l.features }

  /** The index as the nested loops compute it. */
  lemma {:induction false} CellIndex(l: Layout, h: int, r: int, f: int)
    ensures Cell(l, h, r, f) == h * l.headDim * l.features + r * l.features + f
  {
  }

  lemma {:induction false} CellInRange(l: Layout, h: int, r: int, f: int)
    requires LayoutOk(l) && InGrid(l, h, r, f)
    ensures 0 <= Cell(l, h, r, f) < Total(l)
  {
    AtInRange(h, l.heads, l.headDim, r);
    AtInRange(At(h, l.headDim, r), l.heads * l.headDim, l.features, f);
  }

  lemma {:induction false} CellUnique(l: Layout, h: int, r: int, f: int, h': int, r': int, f': int)
    requires LayoutOk(l) && InGrid(l, h, r, f) && InGrid(l, h', r', f') && Cell(l, h, r, f) == Cell(l, h', r', f')
    ensures h == h' && r == r' && f == f'
  {
    AtUnique(At(h, l.headDim, r), f, At(h', l.headDim, r'), f', l.features);
    AtUnique(h, r, h', r', l.headDim);
  }

  lemma {:induction false} CellSplit(l: Layout, k: int) returns (h: int, r: int, f: int)
    requires LayoutOk(l) && 0 <= k < Total(l)
    ensures InGrid(l, h, r, f) && Cell(l, h, r, f) == k
  {
    if l.features <= 0 { MulMonotone(0, l.heads, l.headDim); }
    assert 0 < l.features;
    AtSplit(k, l.heads * l.headDim, l.features);
    AtSplit(k / l.features, l.heads, l.headDim);
    h, r, f := k / l.features / l.headDim, k / l.features % l.headDim, k % l.features;
  }

  // ---- the permutation of rows ----

  /** Even rotary rows come first, then the odd ones; the others stay. */
  function SourceRow(l: Layout, r: int): int {
    if r < l.rotary / 2 then 2 * r else if r < l.rotary then 2 * (r - l.rotary / 2) + 1 else r
  }

  function TargetRow(l: Layout, r: int): int {
    if r >= l.rotary then r else if r % 2 == 0 then r / 2 else l.rotary / 2 + r / 2
  }

  /** The row reorder is a bijection, with an inverse, and fixes the rows that are not rotary. */
  lemma {:induction false} RowsBijective(l: Layout, r: int)
    requires LayoutOk(l) && 0 <= r < l.headDim
    ensures 0 <= SourceRow(l, r) < l.headDim && 0 <= TargetRow(l, r) < l.headDim
    ensures TargetRow(l, SourceRow(l, r)) == r && SourceRow(l, TargetRow(l, r)) == r
    ensures r >= l.rotary ==> SourceRow(l, r) == r
  {
  }

  /** Every value of the result is the value of the source row at the same head and feature. */
  ghost predicate Permuted<T>(l: Layout, data: seq<T>, result: seq<T>)
    requires LayoutOk(l) && |data| == |result| && Total(l) <= |data|
  {
    forall h, r, f :: InGrid(l, h, r, f) ==> CellFrom(l, data, result, h, r, f)
  }

  ghost predicate CellFrom<T>(l: Layout, data: seq<T>, result: seq<T>, h: int, r: int, f: int)
    requires LayoutOk(l) && |data| == |result| && Total(l) <= |data| && InGrid(l, h, r, f)
  {
    CellInRange(l, h, r, f);
    RowsBijective(l, r);
    CellInRange(l, h, SourceRow(l, r), f);
    result[Cell(l, h, r, f)] == data[Cell(l, h, SourceRow(l, r), f)]
  }

  /** Nothing is lost: the inverse row reorder gives back every value of the original. */
  lemma {:induction false} PermutedBack<T>(l: Layout, data: seq<T>, result: seq<T>, h: int, r: int, f: int)
    requires LayoutOk(l) && |data| == |result| && Total(l) <= |data| && Permuted(l, data, result) && InGrid(l, h, r, f)
    ensures 0 <= Cell(l, h, r, f) < |data| && 0 <= Cell(l, h, TargetRow(l, r), f) < |data|
    ensures data[Cell(l, h, r, f)] == result[Cell(l, h, TargetRow(l, r), f)]
  {
    RowsBijective(l, r);
    CellInRange(l, h, r, f);
    CellInRange(l, h, TargetRow(l, r), f);
    assert CellFrom(l, data, result, h, TargetRow(l, r), f);
  }

  /** The original is determined by the result. */
  lemma {:induction false} PermutedInjective<T>(l: Layout, a: seq<T>, b: seq<T>, result: seq<T>)
    requires LayoutOk(l) && |a| == |b| == |result| == Total(l) && Permuted(l, a, result) && Permuted(l, b, result)
    ensures a == b
  {
    forall k | 0 <= k < |a| ensures a[k] == b[k] {
      var h, r, f := CellSplit(l, k);
      PermutedBack(l, a, result, h, r, f);
      PermutedBack(l, b, result, h, r, f);
    }
  }

  /** The two rows of each rotary pair, next to each other before, are half the rotary rows apart. */
  lemma {:induction false} PairsSplit<T>(l: Layout, data: seq<T>, result: seq<T>, h: int, i: int, f: int)
    requires LayoutOk(l) && |data| == |result| && Total(l) <= |data| && Permuted(l, data, result)
    requires 0 <= h < l.heads && 0 <= i < l.rotary / 2 && 0 <= f < l.features
    ensures var base, half := h * l.headDim * l.features + f, l.rotary / 2;
            var even, odd := base + (2 * i) * l.features, base + (2 * i + 1) * l.features;
            var first, second := base + i * l.features, base + (half + i) * l.features;
            && 0 <= even < |data| && 0 <= odd < |data| && 0 <= first < |data| && 0 <= second < |data|
            && result[first] == data[even] && result[second] == data[odd]
  {
    var half := l.rotary / 2;
    assert CellFrom(l, data, result, h, i, f) && CellFrom(l, data, result, h, half + i, f);
    CellInRange(l, h, i, f);
    CellInRange(l, h, half + i, f);
    CellInRange(l, h, 2 * i, f);
    CellInRange(l, h, 2 * i + 1, f);
    CellIndex(l, h, i, f);
    CellIndex(l, h, half + i, f);
    CellIndex(l, h, 2 * i, f);
    CellIndex(l, h, 2 * i + 1, f);
  }

  // ---- the loops ----

  datatype Coord = Coord(h: int, r: int, f: int)

  /** The coordinates of every position of the grid. */
  ghost predicate CoordsOk(l: Layout, coords: seq<Coord>) {
    LayoutOk(l) && |coords| == Total(l) && forall k :: 0 <= k < |coords| ==> CoordOk(l, coords[k], k)
  }

  ghost predicate CoordOk(l: Layout, c: Coord, k: int) { InGrid(l, c.h, c.r, c.f) && Cell(l, c.h, c.r, c.f) == k }

  lemma {:induction false} CoordsExist(l: Layout) returns (coords: seq<Coord>)
    requires LayoutOk(l)
    ensures CoordsOk(l, coords)
  {
    MulMonotone(0, l.heads, l.headDim);
    MulMonotone(0, l.heads * l.headDim, l.features);
    coords := CoordsUpTo(l, Total(l));
  }

  lemma {:induction false} CoordsUpTo(l: Layout, n: nat) returns (coords: seq<Coord>)
    requires LayoutOk(l) && n <= Total(l)
    ensures |coords| == n && forall k :: 0 <= k < n ==> CoordOk(l, coords[k], k)
  {
    coords := [];
    if n > 0 {
      coords := CoordsUpTo(l, n - 1);
      var h, r, f := CellSplit(l, n - 1);
      coords := coords + [Coord(h, r, f)];
    }
  }

  lemma {:induction false} CoordsAt(l: Layout, coords: seq<Coord>, h: int, r: int, f: int)
    requires CoordsOk(l, coords) && InGrid(l, h, r, f)
    ensures 0 <= Cell(l, h, r, f) < |coords| && coords[Cell(l, h, r, f)] == Coord(h, r, f)
  {
    CellInRange(l, h, r, f);
    var c := coords[Cell(l, h, r, f)];
    assert CoordOk(l, c, Cell(l, h, r, f));
    CellUnique(l, h, r, f, c.h, c.r, c.f);
  }

  // Sets of positions: a cell, a column, the first n columns of a head, the first n heads.

  ghost function OneCell(h: int, r: int, f: int): Coord -> bool { (c: Coord) => c == Coord(h, r, f) }

  ghost function Column(h: int, f: int): Coord -> bool { (c: Coord) => c.h == h && c.f == f }

  ghost function Columns(h: int, n: int): Coord -> bool { (c: Coord) => c.h == h && 0 <= c.f < n }

  ghost function Heads(n: int): Coord -> bool { (c: Coord) => 0 <= c.h < n }

  /** Where the value of a position comes from. */
  ghost function Origin(l: Layout): Coord -> int { (c: Coord) => Cell(l, c.h, SourceRow(l, c.r), c.f) }

  /** One assignment: the value of the source row goes to (h, r, f). */
  method Assign<T>(l: Layout, data: seq<T>, result: array<T>, h: int, r: int, f: int, ghost coords: seq<Coord>,
                   ghost writes: seq<nat>)
    returns (ghost writes': seq<nat>)
    requires CoordsOk(l, coords) && InGrid(l, h, r, f) && Total(l) <= |data| && |data| == result.Length == |writes|
    modifies result
    ensures Written(data, coords, Origin(l), old(result[..]), result[..], writes, writes', OneCell(h, r, f))
  {
    CoordsAt(l, coords, h, r, f);
    RowsBijective(l, r);
    CellInRange(l, h, SourceRow(l, r), f);
    CellIndex(l, h, r, f);
    CellIndex(l, h, SourceRow(l, r), f);
    var dstIdx := h * l.headDim * l.features + r * l.features + f;
    var srcIdx := h * l.headDim * l.features + SourceRow(l, r) * l.features + f;
    result[dstIdx] := data[srcIdx];
    writes' := writes[dstIdx := writes[dstIdx] + 1];
    forall k | 0 <= k < |coords| && k != dstIdx ensures coords[k] != Coord(h, r, f) {
      assert CoordOk(l, coords[k], k);
    }
  }

  /** Rows done after `i` pairs, and after the rows below `i` when only single rows are left. */
  predicate PairDone(l: Layout, r: int, i: int) { 0 <= r < i || l.rotary / 2 <= r < l.rotary / 2 + i }

  ghost function InColumn(h: int, f: int,
                          rows: int -> bool): Coord -> bool { (c: Coord) => c.h == h && c.f == f && rows(c.r) }

  /** The two assignments of one pair: an even row and an odd one. */
  method AssignPair<T>(l: Layout, data: seq<T>, result: array<T>, h: int, f: int, i: int, ghost coords: seq<Coord>,
                       ghost writes: seq<nat>)
    returns (ghost writes': seq<nat>)
    requires CoordsOk(l, coords) && 0 <= h < l.heads && 0 <= f < l.features && 0 <= i < l.rotary / 2
    requires Total(l) <= |data| && |data| == result.Length == |writes|
    modifies result
    ensures Written(data, coords, Origin(l), old(result[..]), result[..], writes, writes',
                    InColumn(h, f, r => r == i || r == l.rotary / 2 + i))
  {
    var one := Assign(l, data, result, h, i, f, coords, writes);
    ghost var mid := result[..];
    writes' := Assign(l, data, result, h, l.rotary / 2 + i, f, coords, one);
    WrittenBoth(data, coords, Origin(l), old(result[..]), mid, result[..], writes, one, writes',
                OneCell(h, i, f), OneCell(h, l.rotary / 2 + i, f),
                    InColumn(h, f, r => r == i || r == l.rotary / 2 + i));
  }

  /** All rows of one head at one feature. */
  method PermuteColumn<T>(l: Layout, data: seq<T>, result: array<T>, h: int, f: int, ghost coords: seq<Coord>,
                          ghost writes: seq<nat>)
    returns (ghost writes': seq<nat>)
    requires CoordsOk(l, coords) && 0 <= h < l.heads && 0 <= f < l.features
    requires Total(l) <= |data| && |data| == result.Length == |writes|
    modifies result
    ensures Written(data, coords, Origin(l), old(result[..]), result[..], writes, writes', Column(h, f))
  {
    writes' := writes;
    ghost var start := result[..];
    for i := 0 to l.rotary / 2
      invariant Written(data, coords, Origin(l), start, result[..], writes, writes',
                        InColumn(h, f, r => PairDone(l, r, i)))
    {
      ghost var before, w := result[..], writes';
      writes' := AssignPair(l, data, result, h, f, i, coords, writes');
      WrittenBoth(data, coords, Origin(l), start, before, result[..], writes, w, writes',
                  InColumn(h, f, r => PairDone(l, r, i)),
                  InColumn(h, f, r => r == i || r == l.rotary / 2 + i), InColumn(h, f, r => PairDone(l, r, i + 1)));
    }
    for i := l.rotary to l.headDim
      invariant Written(data, coords, Origin(l), start, result[..], writes, writes', InColumn(h, f, r => 0 <= r < i))
    {
      ghost var before, w := result[..], writes';
      writes' := Assign(l, data, result, h, i, f, coords, writes');
      WrittenBoth(data, coords, Origin(l), start, before, result[..], writes, w, writes',
                  InColumn(h, f, r => 0 <= r < i),
                  OneCell(h, i, f), InColumn(h, f, r => 0 <= r < i + 1));
    }
    forall k | 0 <= k < |coords| ensures 0 <= coords[k].r < l.headDim {
      assert CoordOk(l, coords[k], k);
    }
  }

  /** The whole tensor: each position of the grid is written exactly once, with the value of its
      source row; positions outside whole heads are left alone. */
  method Permute<T(0)>(l: Layout, data: seq<T>)
    returns (result: array<T>, ghost writes: seq<nat>, ghost coords: seq<Coord>)
    requires LayoutOk(l) && Total(l) <= |data|
    ensures fresh(result) && result.Length == |data| == |writes| && CoordsOk(l, coords)
    ensures Permuted(l, data, result[..])
    ensures forall k :: 0 <= k < |writes| ==> writes[k] == if k < Total(l) then 1 else 0
  {
    result := new T[|data|];
    coords := CoordsExist(l);
    writes := seq(|data|, _ => 0);
    ghost var start, none := result[..], writes;
    for h := 0 to l.heads
      invariant Written(data, coords, Origin(l), start, result[..], none, writes, Heads(h))
    {
      ghost var before, w := result[..], writes;
      for f := 0 to l.features
        invariant Written(data, coords, Origin(l), before, result[..], w, writes, Columns(h, f))
      {
        ghost var mid, v := result[..], writes;
        writes := PermuteColumn(l, data, result, h, f, coords, writes);
        WrittenBoth(data, coords, Origin(l), before, mid, result[..], w, v, writes,
                    Columns(h, f), Column(h, f), Columns(h, f + 1));
      }
      forall k | 0 <= k < |coords| ensures 0 <= coords[k].f < l.features
          && 0 <= coords[k].h < l.heads { assert CoordOk(l, coords[k], k); }
      WrittenBoth(data, coords, Origin(l), start, before, result[..], none, w, writes,
                  Heads(h), Columns(h, l.features), Heads(h + 1));
    }
    forall h, r, f | InGrid(l, h, r, f) ensures CellFrom(l, data, result[..], h, r, f) {
      CoordsAt(l, coords, h, r, f);
      RowsBijective(l, r);
      CellInRange(l, h, SourceRow(l, r), f);
    }
    forall k | 0 <= k < |coords| ensures writes[k] == 1 { assert CoordOk(l, coords[k], k); }
  }

  lemma {:induction false} WholeHeads(out: int, headDim: int, features: int)
    requires 0 <= out && 0 < headDim && 0 <= features
    ensures out / headDim * headDim * features <= out * features
    ensures out % headDim == 0 ==> out / headDim * headDim * features == out * features
  {
    MulMonotone(out / headDim * headDim, out, features);
  }

  /** The repacker: a bias has one feature, a weight has its second dimension. When headDim divides the
      first dimension every position is written exactly once. */
  method Repack<T(0)>(headDim: int, factor: real, out: int, features: int, data: seq<T>)
    returns (result: array<T>, ghost l: Layout, ghost writes: seq<nat>)
    requires 0 < headDim && 0.0 <= factor <= 1.0 && 0 <= out && 0 <= features && |data| == out * features
    ensures l == Layout(out / headDim, headDim, features, RotaryDim(headDim, factor)) && LayoutOk(l)
    ensures fresh(result) && result.Length == |data| == |writes| && Total(l) <= |data| && Permuted(l, data, result[..])
    ensures out % headDim == 0 ==> Total(l) == |data| && forall k :: 0 <= k < |writes| ==> writes[k] == 1
  {
    var layout := Layout(out / headDim, headDim, features, RotaryDim(headDim, factor));
    l := layout;
    WholeHeads(out, headDim, features);
    ghost var coords;
    result, writes, coords := Permute(layout, data);
  }
}
