/** Repacking a patch embedding: from the channels of each pixel side by side to one plane of pixels for
    each channel, with the exact inverse. */
module PatchRepack {
  import opened Wrappers
  import opened GridIndex

  /** Rows of patch * patch pixels with their channels. */
  datatype Shape = Shape(rows: int, channels: int, patch: int)

  predicate ShapeOk(s: Shape) { 0 <= s.rows && 0 <= s.channels && 0 <= s.patch }

  function Pixels(s: Shape): int { s.patch * s.patch }

  function FlatDim(s: Shape): int { s.channels * Pixels(s) }

  function Total(s: Shape): int { s.rows * FlatDim(s) }

  /** Row o, channel c, pixel p. */
  datatype Coord = Coord(o: int, c: int, p: int)

  predicate InShape(s: Shape, x: Coord) { 0 <= x.o < s.rows && 0 <= x.c < s.channels && 0 <= x.p < Pixels(s) }

  /** Position with the pixels outermost, and with the channels outermost. */
  function PixelMajor(s: Shape, x: Coord): int { At(x.o, FlatDim(s), At(x.p, s.channels, x.c)) }

  function ChannelMajor(s: Shape, x: Coord): int { At(x.o, FlatDim(s), At(x.c, Pixels(s), x.p)) }

  lemma {:induction false} PixelInRange(s: Shape, x: Coord)
    requires ShapeOk(s) && InShape(s, x)
    ensures 0 <= PixelMajor(s, x) < Total(s)
  {
    AtInRange(x.p, Pixels(s), s.channels, x.c);
    assert Pixels(s) * s.channels == FlatDim(s);
    AtInRange(x.o, s.rows, FlatDim(s), At(x.p, s.channels, x.c));
  }

  lemma {:induction false} ChannelInRange(s: Shape, x: Coord)
    requires ShapeOk(s) && InShape(s, x)
    ensures 0 <= ChannelMajor(s, x) < Total(s)
  {
    AtInRange(x.c, s.channels, Pixels(s), x.p);
    AtInRange(x.o, s.rows, FlatDim(s), At(x.c, Pixels(s), x.p));
  }

  lemma {:induction false} ChannelUnique(s: Shape, x: Coord, y: Coord)
    requires ShapeOk(s) && InShape(s, x) && InShape(s, y) && ChannelMajor(s, x) == ChannelMajor(s, y)
    ensures x == y
  {
    AtInRange(x.c, s.channels, Pixels(s), x.p);
    AtInRange(y.c, s.channels, Pixels(s), y.p);
    AtUnique(x.o, At(x.c, Pixels(s), x.p), y.o, At(y.c, Pixels(s), y.p), FlatDim(s));
    AtUnique(x.c, x.p, y.c, y.p, Pixels(s));
  }

  lemma {:induction false} PixelUnique(s: Shape, x: Coord, y: Coord)
    requires ShapeOk(s) && InShape(s, x) && InShape(s, y) && PixelMajor(s, x) == PixelMajor(s, y)
    ensures x == y
  {
    AtInRange(x.p, Pixels(s), s.channels, x.c);
    AtInRange(y.p, Pixels(s), s.channels, y.c);
    assert Pixels(s) * s.channels == FlatDim(s);
    AtUnique(x.o, At(x.p, s.channels, x.c), y.o, At(y.p, s.channels, y.c), FlatDim(s));
    AtUnique(x.p, x.c, y.p, y.c, s.channels);
  }

  lemma {:induction false} PositiveParts(s: Shape, k: int)
    requires ShapeOk(s) && 0 <= k < Total(s)
    ensures 0 < FlatDim(s) && 0 < Pixels(s) && 0 < s.channels
  {
    MulMonotone(0, s.patch, s.patch);
    MulMonotone(0, s.channels, Pixels(s));
    assert FlatDim(s) == 0 ==> Total(s) == 0;
  }

  /** The coordinates of a position in channel-major order. */
  function ChannelCoord(s: Shape, k: int): (x: Coord)
    requires ShapeOk(s) && 0 <= k < Total(s)
    ensures InShape(s, x) && ChannelMajor(s, x) == k
  {
    PositiveParts(s, k);
    AtSplit(k, s.rows, FlatDim(s));
    AtSplit(k % FlatDim(s), s.channels, Pixels(s));
    Coord(k / FlatDim(s), k % FlatDim(s) / Pixels(s), k % FlatDim(s) % Pixels(s))
  }

  /** The coordinates of a position in pixel-major order. */
  function PixelCoord(s: Shape, k: int): (x: Coord)
    requires ShapeOk(s) && 0 <= k < Total(s)
    ensures InShape(s, x) && PixelMajor(s, x) == k
  {
    PositiveParts(s, k);
    AtSplit(k, s.rows, FlatDim(s));
    assert Pixels(s) * s.channels == FlatDim(s);
    AtSplit(k % FlatDim(s), Pixels(s), s.channels);
    Coord(k / FlatDim(s), k % FlatDim(s) % s.channels, k % FlatDim(s) / s.channels)
  }

  // ---- what the repacked tensor holds ----

  /** The value of every pixel and channel has moved to its channel-major position. */
  ghost predicate Repacked<T>(s: Shape, data: seq<T>, result: seq<T>)
    requires ShapeOk(s)
  {
    |result| == |data| == Total(s) && forall x :: InShape(s, x) ==> Moved(s, data, result, x)
  }

  ghost predicate Moved<T>(s: Shape, data: seq<T>, result: seq<T>, x: Coord)
    requires ShapeOk(s) && |result| == |data| == Total(s) && InShape(s, x)
  {
    PixelInRange(s, x);
    ChannelInRange(s, x);
    result[ChannelMajor(s, x)] == data[PixelMajor(s, x)]
  }

  /** The value of channel `c` of pixel (y, x): behind those of the pixel's other channels before, and in
      the plane of its channel afterwards. */
  lemma {:induction false} PixelMoved<T>(s: Shape, data: seq<T>, result: seq<T>, o: int, c: int, y: int, x: int)
    requires ShapeOk(s) && Repacked(s, data, result)
    requires 0 <= o < s.rows && 0 <= c < s.channels && 0 <= y < s.patch && 0 <= x < s.patch
    ensures var base := o * (s.channels * (s.patch * s.patch));
            var from, to := base + (y * s.patch + x) * s.channels + c,
                            base + c * (s.patch * s.patch) + y * s.patch + x;
            0 <= from < |data| && 0 <= to < |result| && result[to] == data[from]
  {
    AtInRange(y, s.patch, s.patch, x);
    var coord := Coord(o, c, y * s.patch + x);
    PixelInRange(s, coord);
    ChannelInRange(s, coord);
    assert Moved(s, data, result, coord);
  }

  /** The way back: from channel-major to pixel-major order. */
  function Unpack<T>(s: Shape, packed: seq<T>): (data: seq<T>)
    requires ShapeOk(s) && |packed| == Total(s)
    ensures |data| == |packed|
  {
    seq(|packed|, k requires 0 <= k < |packed| =>
      var x := PixelCoord(s, k);
      ChannelInRange(s, x);
      packed[ChannelMajor(s, x)])
  }

  /** The repack has an exact inverse: every tensor is the repack of its unpacking, and of nothing else. */
  lemma {:induction false} RepackInverse<T>(s: Shape, data: seq<T>, packed: seq<T>)
    requires ShapeOk(s) && |data| == |packed| == Total(s)
    ensures Repacked(s, data, packed) <==> data == Unpack(s, packed)
  {
    if Repacked(s, data, packed) {
      forall k | 0 <= k < |data| ensures data[k] == Unpack(s, packed)[k] {
        assert Moved(s, data, packed, PixelCoord(s, k));
      }
    }
    if data == Unpack(s, packed) {
      forall x | InShape(s, x) ensures Moved(s, data, packed, x) {
        PixelInRange(s, x);
        PixelUnique(s, x, PixelCoord(s, PixelMajor(s, x)));
      }
    }
  }

  // ---- the loops ----

  /** The coordinates of every position of the result. */
  ghost predicate CoordsOk(s: Shape, coords: seq<Coord>)
    requires ShapeOk(s)
  {
    |coords| == Total(s) && forall k :: 0 <= k < |coords| ==> CoordOk(s, coords[k], k)
  }

  ghost predicate CoordOk(s: Shape, x: Coord, k: int) { InShape(s, x) && ChannelMajor(s, x) == k }

  lemma {:induction false} CoordsExist(s: Shape) returns (coords: seq<Coord>)
    requires ShapeOk(s)
    ensures CoordsOk(s, coords)
  {
    MulMonotone(0, s.patch, s.patch);
    MulMonotone(0, s.channels, Pixels(s));
    MulMonotone(0, s.rows, FlatDim(s));
    coords := seq(Total(s), k requires 0 <= k < Total(s) => ChannelCoord(s, k));
  }

  lemma {:induction false} CoordsAt(s: Shape, coords: seq<Coord>, x: Coord)
    requires ShapeOk(s) && CoordsOk(s, coords) && InShape(s, x)
    ensures 0 <= ChannelMajor(s, x) < |coords| && coords[ChannelMajor(s, x)] == x
  {
    ChannelInRange(s, x);
    assert CoordOk(s, coords[ChannelMajor(s, x)], ChannelMajor(s, x));
    ChannelUnique(s, x, coords[ChannelMajor(s, x)]);
  }

  ghost function Origin(s: Shape): Coord -> int { (x: Coord) => PixelMajor(s, x) }

  // Sets of positions: one, the first n channels of a pixel, the first n pixels of a row, the first n rows.

  ghost function One(x: Coord): Coord -> bool { (y: Coord) => y == x }

  ghost function Channels(o: int, p: int, n: int): Coord -> bool { (y: Coord) => y.o == o && y.p == p && 0 <= y.c < n }

  ghost function PixelsOf(o: int, n: int): Coord -> bool { (y: Coord) => y.o == o && 0 <= y.p < n }

  ghost function Rows(n: int): Coord -> bool { (y: Coord) => 0 <= y.o < n }

  lemma {:induction false} InnerIndex(s: Shape, o: int, y: int, x: int, c: int)
    ensures var at := Coord(o, c, y * s.patch + x);
            && PixelMajor(s, at) == o * FlatDim(s) + (y * s.patch + x) * s.channels + c
            && ChannelMajor(s, at) == o * FlatDim(s) + c * Pixels(s) + y * s.patch + x
  {
  }

  /** All channels of one pixel of one row. */
  method RepackPixel<T>(s: Shape, data: seq<T>, repacked: array<T>, o: int, y: int, x: int, ghost coords: seq<Coord>,
                        ghost writes: seq<nat>)
    returns (ghost writes': seq<nat>)
    requires ShapeOk(s) && CoordsOk(s, coords) && 0 <= o < s.rows && 0 <= y < s.patch && 0 <= x < s.patch
    requires |data| == repacked.Length == |writes| == Total(s)
    modifies repacked
    ensures Written(data, coords, Origin(s), old(repacked[..]), repacked[..], writes, writes',
                    Channels(o, y * s.patch + x, s.channels))
  {
    writes' := writes;
    ghost var start, p := repacked[..], y * s.patch + x;
    AtInRange(y, s.patch, s.patch, x);
    var perChannel := s.patch * s.patch;
    var base := o * (s.channels * perChannel);
    var inPixelBase := base + (y * s.patch + x) * s.channels;
    for c := 0 to s.channels
      invariant Written(data, coords, Origin(s), start, repacked[..], writes, writes', Channels(o, p, c))
    {
      ghost var before, w, at := repacked[..], writes', Coord(o, c, p);
      InnerIndex(s, o, y, x, c);
      PixelInRange(s, at);
      CoordsAt(s, coords, at);
      var src := inPixelBase + c;
      var dst := base + c * perChannel + y * s.patch + x;
      repacked[dst] := data[src];
      writes' := writes'[dst := writes'[dst] + 1];
      forall k | 0 <= k < |coords| && k != dst ensures coords[k] != at {
        assert CoordOk(s, coords[k], k);
      }
      WrittenBoth(data, coords, Origin(s), start, before, repacked[..], writes, w, writes', Channels(o, p, c), One(at),
                  Channels(o, p, c + 1));
    }
  }

  /** All pixels of one row. */
  method RepackRow<T>(s: Shape, data: seq<T>, repacked: array<T>, o: int, ghost coords: seq<Coord>,
                      ghost writes: seq<nat>)
    returns (ghost writes': seq<nat>)
    requires ShapeOk(s) && CoordsOk(s, coords) && 0 <= o < s.rows && |data| == repacked.Length == |writes| == Total(s)
    modifies repacked
    ensures Written(data, coords, Origin(s), old(repacked[..]), repacked[..], writes, writes', PixelsOf(o, Pixels(s)))
  {
    writes' := writes;
    ghost var start := repacked[..];
    forall k | 0 <= k < |coords| ensures InShape(s, coords[k]) { assert CoordOk(s, coords[k], k); }
    for y := 0 to s.patch
      invariant Written(data, coords, Origin(s), start, repacked[..], writes, writes', PixelsOf(o, y * s.patch))
    {
      for x := 0 to s.patch
        invariant Written(data, coords, Origin(s), start, repacked[..], writes, writes', PixelsOf(o, y * s.patch + x))
      {
        ghost var before, w, p := repacked[..], writes', y * s.patch + x;
        MulMonotone(0, y, s.patch);
        writes' := RepackPixel(s, data, repacked, o, y, x, coords, writes');
        WrittenBoth(data, coords, Origin(s), start, before, repacked[..], writes, w, writes',
                    PixelsOf(o, p), Channels(o, p, s.channels), PixelsOf(o, p + 1));
      }
      assert (y + 1) * s.patch == y * s.patch + s.patch;
    }
  }

  datatype ShapeError = WrongRank(rank: nat) | WrongInputDim(got: int, want: int) | WrongSize(got: int, want: int)

  /** Repack the weights, after checking their shape. Every position is written exactly once. */
  method Repack<T(0)>(data: seq<T>, srcShape: seq<int>, channels: int, patch: int)
    returns (res: Result<array<T>, ShapeError>, ghost writes: seq<nat>)
    requires 0 <= channels && 0 <= patch && forall d :: d in srcShape ==> 0 <= d
    ensures res.Ok? <==>
              |srcShape| == 2 && srcShape[1] == channels * patch * patch && |data| == srcShape[0] * srcShape[1]
    ensures res.Ok? ==> var s := Shape(srcShape[0], channels, patch);
                        && ShapeOk(s) && fresh(res.value) && Repacked(s, data, res.value[..])
                        && |writes| == |data| && forall k :: 0 <= k < |writes| ==> writes[k] == 1
    ensures |srcShape| != 2 ==> res == Err(WrongRank(|srcShape|))
  {
    writes := [];
    if |srcShape| != 2 {
      return Err(WrongRank(|srcShape|)), writes;
    }
    var outDim, flatInputDim := srcShape[0], srcShape[1];
    var expectedInputDim := channels * patch * patch;
    if flatInputDim != expectedInputDim {
      return Err(WrongInputDim(flatInputDim, expectedInputDim)), writes;
    }
    var expectedSize := outDim * flatInputDim;
    if |data| != expectedSize {
      return Err(WrongSize(|data|, expectedSize)), writes;
    }
    assert outDim in srcShape;
    var s := Shape(outDim, channels, patch);
    SameFlat(channels, patch);
    var repacked: array<T>;
    repacked, writes := RepackAll(s, data);
    return Ok(repacked), writes;
  }

  lemma {:induction false} SameFlat(channels: int, patch: int)
    ensures channels * patch * patch == channels * (patch * patch)
  {
  }

  method RepackAll<T(0)>(s: Shape, data: seq<T>) returns (repacked: array<T>, ghost writes: seq<nat>)
    requires ShapeOk(s) && |data| == Total(s)
    ensures fresh(repacked) && Repacked(s, data, repacked[..])
    ensures |writes| == |data| && forall k :: 0 <= k < |writes| ==> writes[k] == 1
  {
    repacked := new T[|data|];
    ghost var coords := CoordsExist(s);
    writes := seq(|data|, _ => 0);
    ghost var start, none := repacked[..], writes;
    forall k | 0 <= k < |coords| ensures InShape(s, coords[k]) { assert CoordOk(s, coords[k], k); }
    for o := 0 to s.rows
      invariant Written(data, coords, Origin(s), start, repacked[..], none, writes, Rows(o))
    {
      ghost var before, w := repacked[..], writes;
      writes := RepackRow(s, data, repacked, o, coords, writes);
      WrittenBoth(data, coords, Origin(s), start, before, repacked[..], none, w, writes, Rows(o),
                  PixelsOf(o, Pixels(s)), Rows(o + 1));
    }
    forall x | InShape(s, x) ensures Moved(s, data, repacked[..], x) {
      PixelInRange(s, x);
      CoordsAt(s, coords, x);
    }
  }
}
