/** The mask as a flat table laid out row by row, and key rows with the rotation applied to them so
    far: what each operation of the cache does to the rows, and that they agree with the cells after
    every one of them, also after a shift that failed half way. */
module KeyRows {
  import opened Wrappers
  import opened CacheCells

  // ---- the mask ----

  function Length(cur: Range): int { cur.max - cur.min + 1 }

  /** Row `i`, column `j` of a table stored row by row. */
  predicate EntryOf(mask: seq<bool>, length: nat, i: nat, j: nat, b: bool) {
    i * length + j < |mask| && mask[i * length + j] == b
  }

  // ---- counting the scan ----

  ghost function Locs(locs: seq<int>): set<int> { set x | x in locs }

  lemma {:induction false} AscendingCard(locs: seq<int>, S: set<int>)
    requires forall k, l :: 0 <= k < l < |locs| ==> locs[k] < locs[l]
    requires forall x :: x in S <==> x in locs
    ensures |S| == |locs|
  {
    if locs == [] {
      assert forall x :: x !in S;
    } else {
      var n := |locs| - 1;
      assert locs == locs[..n] + [locs[n]];
      AscendingCard(locs[..n], S - {locs[n]});
    }
  }

  /** The locations below `n` that the window of an evaluated sequence still needs. */
  ghost function InWindow(cells: seq<Cell>, sid: int, from: int, inBatch: bool, n: nat): set<int>
    requires n <= |cells|
  {
    set i | 0 <= i < n && inBatch && sid in cells[i].seqs && cells[i].pos >= from
  }

  /** The range grown by those locations. */
  ghost function ExtendAll(cells: seq<Cell>, sid: int, from: int, inBatch: bool, n: nat, r: Range): Range
    requires n <= |cells|
  {
    if n == 0 then r
    else
      var r' := ExtendAll(cells, sid, from, inBatch, n - 1, r);
      if inBatch && sid in cells[n - 1].seqs && cells[n - 1].pos >= from then Extend(r', n - 1) else r'
  }

  lemma {:induction false} ExtendAllBounds(cells: seq<Cell>, sid: int, from: int, inBatch: bool, n: nat, r: Range,
                                           S: set<int>)
    requires n <= |cells| <= MAX_INT && Bounds(r, S) && forall x :: x in S ==> 0 <= x
    ensures Bounds(ExtendAll(cells, sid, from, inBatch, n, r), S + InWindow(cells, sid, from, inBatch, n))
  {
    if n == 0 {
      assert S + InWindow(cells, sid, from, inBatch, 0) == S;
    } else {
      var T := S + InWindow(cells, sid, from, inBatch, n - 1);
      ExtendAllBounds(cells, sid, from, inBatch, n - 1, r, S);
      if inBatch && sid in cells[n - 1].seqs && cells[n - 1].pos >= from {
        ExtendBounds(ExtendAll(cells, sid, from, inBatch, n - 1, r), T, n - 1);
        assert S + InWindow(cells, sid, from, inBatch, n) == T + {n - 1};
      } else {
        assert S + InWindow(cells, sid, from, inBatch, n) == T;
      }
    }
  }

  /** Locations without holders do not matter. */
  lemma {:induction false} ExtendAllSkips(cells: seq<Cell>, sid: int, from: int, inBatch: bool, m: nat, n: nat,
                                          r: Range)
    requires m <= n <= |cells|
    requires forall i :: m <= i < n ==> sid !in cells[i].seqs
    ensures ExtendAll(cells, sid, from, inBatch, n, r) == ExtendAll(cells, sid, from, inBatch, m, r)
    decreases n
  {
    if m < n { ExtendAllSkips(cells, sid, from, inBatch, m, n - 1, r); }
  }

  /** Scanning from the first to the last holder gives the same range as scanning everything. */
  lemma {:induction false} TightWithin(cells: seq<Cell>, sid: int, lo: nat, hi: nat)
    requires lo <= hi <= |cells| <= MAX_INT
    requires forall i :: 0 <= i < |cells| && sid in cells[i].seqs ==> lo <= i < hi
    ensures TightUpTo(cells, sid, lo) == EMPTY_RANGE
    ensures TightUpTo(cells, sid, hi) == Tight(cells, sid)
  {
    assert HoldersUpTo(cells, sid, lo) == {};
    assert HoldersUpTo(cells, sid, hi) == Holders(cells, sid);
    BoundsUnique(TightUpTo(cells, sid, hi), Tight(cells, sid), Holders(cells, sid));
  }

  /** `sid` taken out of a cell whose position lies below `bound`. */
  function Drop(c: Cell, sid: int, bound: int): Cell {
    if sid in c.seqs && c.pos < bound then Cell(c.pos, c.seqs - {sid}) else c
  }

  function Dropped(cells: seq<Cell>, sid: int, bound: int): seq<Cell> {
    seq(|cells|, i requires 0 <= i < |cells| => Drop(cells[i], sid, bound))
  }

  /** The eviction loop step by step: the final cells, and the two ranges after each location. */
  lemma {:induction false} EvictPlan(was: seq<Cell>, sid: int, low: int, memory: int, window: int, inBatch: bool,
                  start: Range, lo: nat, hi: nat)
    returns (end: seq<Cell>, ranges: seq<Range>, curs: seq<Range>)
    requires lo <= hi <= |was| <= MAX_INT
    requires forall i :: 0 <= i < |was| && sid in was[i].seqs ==> lo <= i < hi
    ensures end == Dropped(was, sid, low - memory) && |ranges| == |curs| == |was| + 1
    ensures forall i :: 0 <= i < |was| ==>
              end[i] == if sid in was[i].seqs && was[i].pos < low - memory then Cell(was[i].pos, was[i].seqs - {sid})
                  else was[i]
    ensures forall i :: 0 <= i < |was| ==>
              ranges[i + 1] == if sid in was[i].seqs && was[i].pos >= low - memory then Extend(ranges[i], i)
                  else ranges[i]
    ensures forall i :: 0 <= i < |was| ==>
              curs[i + 1] == if inBatch && sid in was[i].seqs && was[i].pos >= low - window then Extend(curs[i], i)
                  else curs[i]
    ensures ranges[lo] == EMPTY_RANGE && ranges[hi] == Tight(end, sid)
    ensures curs[lo] == start && curs[hi] == ExtendAll(was, sid, low - window, inBatch, |was|, start)
  {
    end := Dropped(was, sid, low - memory);
    ranges := seq(|was| + 1, i requires 0 <= i <= |was| => TightUpTo(Dropped(was, sid, low - memory), sid, i));
    curs := seq(|was| + 1, i requires 0 <= i <= |was| => ExtendAll(was, sid, low - window, inBatch, i, start));
    TightWithin(end, sid, lo, hi);
    ExtendAllSkips(was, sid, low - window, inBatch, 0, lo, start);
    ExtendAllSkips(was, sid, low - window, inBatch, hi, |was|, start);
  }

  /** The range of `sid` after each location of the finished cells. */
  lemma {:induction false} TightPlan(cells: seq<Cell>, sid: int) returns (ranges: seq<Range>)
    requires |cells| <= MAX_INT
    ensures |ranges| == |cells| + 1 && ranges[0] == EMPTY_RANGE && ranges[|cells|] == Tight(cells, sid)
    ensures forall i :: 0 <= i < |cells| ==>
              ranges[i + 1] == if sid in cells[i].seqs then Extend(ranges[i], i) else ranges[i]
  {
    ranges := seq(|cells| + 1, i requires 0 <= i <= |cells| => TightUpTo(cells, sid, i));
  }

  // ---- the current range ----

  function Padded(r: Range, pad: int): Range
    requires pad > 0
  {
    Range(RoundDown(r.min, pad), RoundUp(r.max + 1, pad) - 1)
  }

  /** Rounding moves a bound by less than the padding, and not below zero. */
  lemma {:induction false} RoundsNear(x: int, pad: int)
    requires pad > 0
    ensures RoundDown(x, pad) <= x < RoundDown(x, pad) + pad && x <= RoundUp(x, pad) < x + pad
    ensures x >= 0 ==> RoundDown(x, pad) >= 0
  {
    assert x == x / pad * pad + x % pad;
    assert x + pad - 1 == (x + pad - 1) / pad * pad + (x + pad - 1) % pad;
    if x >= 0 { MulStep(0, x / pad, pad); }
  }

  /** Padding widens a range by less than the padding, aligns it, and stays inside cells whose number is
      aligned. */
  lemma {:induction false} PaddedInside(r: Range, pad: int, size: int)
    requires pad > 0 && size % pad == 0 && 0 <= r.min <= r.max + 1 <= size
    ensures var p := Padded(r, pad);
            && 0 <= p.min <= r.min < p.min + pad && r.max <= p.max < r.max + pad && p.max + 1 <= size
            && p.min % pad == 0 && (p.max + 1) % pad == 0
  {
    var min, max := RoundDown(r.min, pad), RoundUp(r.max + 1, pad);
    assert min % pad == 0 && max % pad == 0 by {
      RoundingIdempotent(r.min, pad);
      RoundingIdempotent(r.max + 1, pad);
    }
    assert max <= size by { RoundUpInside(r.max + 1, pad, size); }
    RoundsNear(r.min, pad);
    RoundsNear(r.max + 1, pad);
    assert Padded(r, pad) == Range(min, max - 1);
  }

  /** An aligned bound is its own padding. */
  lemma {:induction false} AlignedAlready(x: int, pad: int)
    requires pad > 0 && x % pad == 0
    ensures RoundDown(x, pad) == x && RoundUp(x, pad) == x
  {
    DivUnique(x + pad - 1, x / pad, pad);
  }

  lemma {:induction false} BoundsInside(r: Range, S: set<int>, x: int, size: nat)
    requires Bounds(r, S) && x in S && forall y :: y in S ==> 0 <= y < size
    ensures 0 <= r.min <= r.max < size
    ensures forall y :: y in S ==> r.min <= y <= r.max
  {
  }

  /** Collected locations are as many as the unused cells allow. */
  lemma {:induction false} FirstFreeCard(cells: seq<Cell>, n: nat, locs: seq<int>)
    requires FirstFree(cells, n, locs)
    ensures |locs| <= |Free(cells)|
    ensures forall k :: 0 <= k < |locs| ==> 0 <= locs[k] < |cells|
  {
    var S := Locs(locs);
    AscendingCard(locs, S);
    SubsetCard(S, Free(cells));
  }

  // ---- the rows of the mask ----

  ghost function MaskRow(cells: seq<Cell>, cur: Range, e: Entry, causal: bool, chunk: int,
                         window: int): (row: seq<bool>)
    requires 0 <= e.pos && 0 <= cur.min <= cur.max + 1 <= |cells|
    ensures |row| == Length(cur)
  {
    seq(Length(cur), j requires 0 <= j < Length(cur) => Masked(cells[cur.min + j], e, causal, chunk, window))
  }

  ghost function Flatten(rows: seq<seq<bool>>): seq<bool> {
    if rows == [] then [] else Flatten(rows[..|rows| - 1]) + rows[|rows| - 1]
  }

  /** Laid out row by row, entry (i, j) sits at i * length + j. */
  lemma {:induction false} FlattenAt(rows: seq<seq<bool>>, length: nat, i: nat, j: nat)
    requires forall k :: 0 <= k < |rows| ==> |rows[k]| == length
    requires i < |rows| && j < length
    ensures |Flatten(rows)| == |rows| * length
    ensures EntryOf(Flatten(rows), length, i, j, rows[i][j])
  {
    var n := |rows| - 1;
    FlattenLength(rows[..n], length);
    assert |Flatten(rows)| == n * length + length;
    assert (n + 1) * length == n * length + length;
    if i < n {
      FlattenAt(rows[..n], length, i, j);
    }
  }

  lemma {:induction false} FlattenLength(rows: seq<seq<bool>>, length: nat)
    requires forall k :: 0 <= k < |rows| ==> |rows[k]| == length
    ensures |Flatten(rows)| == |rows| * length
  {
    if rows != [] {
      var n := |rows| - 1;
      FlattenLength(rows[..n], length);
      assert (n + 1) * length == n * length + length;
    }
  }

  ghost function MaskRows(cells: seq<Cell>, cur: Range, batch: seq<Entry>, except: seq<int>,
                          chunk: int, window: int, n: nat): (rows: seq<seq<bool>>)
    requires n <= |batch| && forall e :: e in batch ==> 0 <= e.pos
    requires 0 <= cur.min <= cur.max + 1 <= |cells|
    ensures |rows| == n && forall k :: 0 <= k < n ==> |rows[k]| == Length(cur)
  {
    seq(n, i requires 0 <= i < n => MaskRow(cells, cur, batch[i], i !in except, chunk, window))
  }

  lemma {:induction false} MaskRowsStep(cells: seq<Cell>, cur: Range, batch: seq<Entry>, except: seq<int>,
                     chunk: int, window: int, n: nat)
    requires n < |batch| && forall e :: e in batch ==> 0 <= e.pos
    requires 0 <= cur.min <= cur.max + 1 <= |cells|
    ensures Flatten(MaskRows(cells, cur, batch, except, chunk, window, n + 1))
         == Flatten(MaskRows(cells, cur, batch, except, chunk, window, n))
            + MaskRow(cells, cur, batch[n], n !in except, chunk, window)
    ensures |Flatten(MaskRows(cells, cur, batch, except, chunk, window, n))| == n * Length(cur)
  {
    var rows := MaskRows(cells, cur, batch, except, chunk, window, n + 1);
    assert rows[..n] == MaskRows(cells, cur, batch, except, chunk, window, n);
    FlattenLength(rows[..n], Length(cur));
  }

  /** The whole table: one row per token of the batch, one column per location of the range. */
  ghost function MaskOf(cells: seq<Cell>, cur: Range, batch: seq<Entry>, except: seq<int>, chunk: int,
                        window: int): seq<bool>
    requires forall e :: e in batch ==> 0 <= e.pos
    requires 0 <= cur.min <= cur.max + 1 <= |cells|
  {
    Flatten(MaskRows(cells, cur, batch, except, chunk, window, |batch|))
  }

  /** Entry (i, j) of the table is the mask bit of token `i` for the cell at location `j`. */
  lemma {:induction false} MaskEntry(cells: seq<Cell>, cur: Range, batch: seq<Entry>, except: seq<int>, chunk: int,
                                     window: int, i: nat, j: nat)
    requires forall e :: e in batch ==> 0 <= e.pos
    requires 0 <= cur.min <= cur.max + 1 <= |cells|
    requires i < |batch| && cur.min <= j <= cur.max
    ensures |MaskOf(cells, cur, batch, except, chunk, window)| == |batch| * Length(cur)
    ensures EntryOf(MaskOf(cells, cur, batch, except, chunk, window), Length(cur), i, j - cur.min,
                    Masked(cells[j], batch[i], i !in except, chunk, window))
  {
    var rows := MaskRows(cells, cur, batch, except, chunk, window, |batch|);
    FlattenAt(rows, Length(cur), i, j - cur.min);
    assert rows[i] == MaskRow(cells, cur, batch[i], i !in except, chunk, window);
  }

  /** The finished part of the table before each row. */
  lemma {:induction false} MaskPlan(cells: seq<Cell>, cur: Range, batch: seq<Entry>, except: seq<int>, chunk: int,
                                    window: int)
    returns (parts: seq<seq<bool>>)
    requires forall e :: e in batch ==> 0 <= e.pos
    requires 0 <= cur.min <= cur.max + 1 <= |cells|
    ensures |parts| == |batch| + 1 && parts[0] == []
    ensures forall i :: 0 <= i < |batch| ==>
              parts[i + 1] == parts[i] + MaskRow(cells, cur, batch[i], i !in except, chunk, window)
              && |parts[i]| + Length(cur) <= |batch| * Length(cur)
    ensures |parts[|batch|]| == |batch| * Length(cur)
    ensures parts[|batch|] == MaskOf(cells, cur, batch, except, chunk, window)
  {
    parts := seq(|batch| + 1, i requires 0 <= i <= |batch| =>
      Flatten(MaskRows(cells, cur, batch, except, chunk, window, i)));
    forall i | 0 <= i < |batch|
      ensures parts[i + 1] == parts[i] + MaskRow(cells, cur, batch[i], i !in except, chunk, window)
      ensures |parts[i]| + Length(cur) <= |batch| * Length(cur)
    {
      MaskRowsStep(cells, cur, batch, except, chunk, window, i);
      MulStep(i, |batch|, Length(cur));
    }
    FlattenLength(MaskRows(cells, cur, batch, except, chunk, window, |batch|), Length(cur));
  }

  /** The cells before each token of the batch is stored. */
  lemma {:induction false} CellPlan(cells: seq<Cell>, batch: seq<Entry>, locs: seq<int>) returns (cs: seq<seq<Cell>>)
    requires |locs| == |batch| && forall k :: 0 <= k < |locs| ==> 0 <= locs[k] < |cells|
    ensures |cs| == |batch| + 1 && cs[0] == cells && cs[|batch|] == Placed(cells, batch, locs, |batch|)
    ensures forall i :: 0 <= i < |batch| ==>
              |cs[i]| == |cells| && cs[i + 1] == cs[i][locs[i] := Cell(batch[i].pos, {batch[i].sid})]
  {
    cs := seq(|batch| + 1, i requires 0 <= i <= |batch| => Placed(cells, batch, locs, i));
  }

  /** The ranges before each token of the batch is stored. */
  lemma {:induction false} RangePlan(ranges: map<int, Range>, batch: seq<Entry>, locs: seq<int>)
    returns (rs: seq<map<int, Range>>)
    requires |locs| == |batch|
    ensures |rs| == |batch| + 1 && rs[0] == ranges && rs[|batch|] == Grown(ranges, batch, locs, |batch|)
    ensures forall i :: 0 <= i < |batch| ==> rs[i + 1] == GrowOne(rs[i], batch[i].sid, locs[i])
  {
    rs := seq(|batch| + 1, i requires 0 <= i <= |batch| => Grown(ranges, batch, locs, i));
    forall i | 0 <= i < |batch| ensures rs[i + 1] == GrowOne(rs[i], batch[i].sid, locs[i]) {
      assert rs[i + 1] == Grown(ranges, batch, locs, i + 1);
    }
  }

  /** The current range before each token of the batch is stored. */
  lemma {:induction false} CurPlan(cur: Range, locs: seq<int>, S: set<int>) returns (curs: seq<Range>)
    requires Bounds(cur, S) && forall x :: x in S ==> 0 <= x
    requires forall k :: 0 <= k < |locs| ==> 0 <= locs[k] <= MAX_INT
    ensures |curs| == |locs| + 1 && curs[0] == cur && Bounds(curs[|locs|], S + Locs(locs))
    ensures forall i :: 0 <= i < |locs| ==> curs[i + 1] == Extend(curs[i], locs[i])
  {
    curs := seq(|locs| + 1, i requires 0 <= i <= |locs| => ExtendBy(cur, locs, i));
    ExtendByBounds(cur, locs, |locs|, S);
    assert locs[..|locs|] == locs;
  }

  function ExtendBy(r: Range, locs: seq<int>, n: nat): Range
    requires n <= |locs|
  {
    if n == 0 then r else Extend(ExtendBy(r, locs, n - 1), locs[n - 1])
  }

  lemma {:induction false} ExtendByBounds(r: Range, locs: seq<int>, n: nat, S: set<int>)
    requires n <= |locs| && Bounds(r, S) && forall x :: x in S ==> 0 <= x
    requires forall k :: 0 <= k < |locs| ==> 0 <= locs[k] <= MAX_INT
    ensures Bounds(ExtendBy(r, locs, n), S + Locs(locs[..n]))
  {
    if n == 0 {
      assert S + Locs(locs[..0]) == S;
    } else {
      ExtendByBounds(r, locs, n - 1, S);
      assert locs[..n] == locs[..n - 1] + [locs[n - 1]];
      assert S + Locs(locs[..n]) == S + Locs(locs[..n - 1]) + {locs[n - 1]};
      ExtendBounds(ExtendBy(r, locs, n - 1), S + Locs(locs[..n - 1]), locs[n - 1]);
    }
  }

  // ---- key rows ----

  /** One stored key: what it encodes and by how much it was rotated. */
  datatype KeyRow = KeyRow(content: int, rotation: int)

  function Rotate(r: KeyRow, amount: int): KeyRow { KeyRow(r.content, r.rotation + amount) }

  /** The first `n` source rows written to their locations. */
  function RowsSet<T>(rows: seq<T>, locs: seq<int>, src: seq<T>, n: nat): (r: seq<T>)
    requires n <= |locs| && n <= |src|
    requires forall k :: 0 <= k < |locs| ==> 0 <= locs[k] < |rows|
    ensures |r| == |rows|
  {
    if n == 0 then rows else RowsSet(rows, locs, src, n - 1)[locs[n - 1] := src[n - 1]]
  }

  lemma {:induction false} RowsSetAt<T>(rows: seq<T>, locs: seq<int>, src: seq<T>, n: nat)
    requires n <= |locs| && n <= |src|
    requires forall k :: 0 <= k < |locs| ==> 0 <= locs[k] < |rows|
    requires forall k, l :: 0 <= k < l < |locs| ==> locs[k] < locs[l]
    ensures forall k :: 0 <= k < n ==> RowsSet(rows, locs, src, n)[locs[k]] == src[k]
    ensures forall i :: 0 <= i < |rows| && i !in locs[..n] ==> RowsSet(rows, locs, src, n)[i] == rows[i]
  {
    if n > 0 {
      RowsSetAt(rows, locs, src, n - 1);
      assert locs[..n] == locs[..n - 1] + [locs[n - 1]];
    }
  }

  /** The rows of a layer, zeros before its first use. */
  function LayerRows<T>(layers: map<int, seq<T>>, layer: int, size: nat, zero: T): (r: seq<T>)
    requires forall l :: l in layers ==> |layers[l]| == size
    ensures |r| == size
  {
    if layer in layers then layers[layer] else seq(size, _ => zero)
  }

  const ZERO_ROW := KeyRow(0, 0)

  /** The keys of a batch, each rotated to the position of its token. */
  function RotatedKeys(batch: seq<Entry>, contents: seq<int>): (r: seq<KeyRow>)
    requires |contents| == |batch|
    ensures |r| == |batch|
  {
    seq(|batch|, i requires 0 <= i < |batch| => KeyRow(contents[i], batch[i].pos))
  }

  predicate Moved(c: Cell, sid: int, begin: int) { sid in c.seqs && c.pos >= begin }

  /** The keys of moved cells before location `n` rotated once, everything else as it was. */
  ghost function RotatedUpTo(rows: seq<KeyRow>, cells: seq<Cell>, sid: int, begin: int, amount: int,
                             n: int): (r: seq<KeyRow>)
    requires |rows| == |cells|
  {
    seq(|rows|, i requires 0 <= i < |rows| =>
      if i < n && Moved(cells[i], sid, begin) then Rotate(rows[i], amount) else rows[i])
  }

  /** A view of consecutive rows, each rotated by its own offset, copied back in place. */
  function RotateView(rows: seq<KeyRow>, at: int, offsets: seq<int>): (r: seq<KeyRow>) {
    seq(|rows|, i requires 0 <= i < |rows| =>
      if at <= i < at + |offsets| then Rotate(rows[i], offsets[i - at]) else rows[i])
  }

  /** A tile whose offset vector was trimmed to its first and last moved cell. */
  lemma {:induction false} TileRotates(rows: seq<KeyRow>, cells: seq<Cell>, sid: int, begin: int, amount: int,
                    start: nat, offsets: seq<int>, first: nat, last: nat)
    requires |rows| == |cells| && start + |offsets| <= |cells| && first <= last < |offsets|
    requires forall i :: start <= i < start + |offsets| ==>
               offsets[i - start] == if Moved(cells[i], sid, begin) then amount else 0
    requires forall i :: start <= i < start + |offsets| && !(first <= i - start <= last) ==>
        !Moved(cells[i], sid, begin)
    ensures RotateView(RotatedUpTo(rows, cells, sid, begin, amount, start), start + first, offsets[first..last + 1])
         == RotatedUpTo(rows, cells, sid, begin, amount, start + |offsets|)
  {
    var r := RotateView(RotatedUpTo(rows, cells, sid, begin, amount, start), start + first, offsets[first..last + 1]);
    forall i | 0 <= i < |rows|
      ensures r[i] == RotatedUpTo(rows, cells, sid, begin, amount, start + |offsets|)[i]
    {
      if start <= i < start + |offsets| {
        assert offsets[i - start] == if Moved(cells[i], sid, begin) then amount else 0;
      }
    }
  }

  /** Tiles without a moved cell are skipped, and so is everything outside the range. */
  lemma {:induction false} SkipRotates(rows: seq<KeyRow>, cells: seq<Cell>, sid: int, begin: int, amount: int, m: int,
                                       n: int)
    requires |rows| == |cells| && m <= n
    requires forall i :: 0 <= i < |cells| && m <= i < n ==> !Moved(cells[i], sid, begin)
    ensures RotatedUpTo(rows, cells, sid, begin, amount, m) == RotatedUpTo(rows, cells, sid, begin, amount, n)
  {
  }

  /** The keys of all layers, each rotated up to location `n`. */
  ghost predicate AllRotated(before: map<int, seq<KeyRow>>, after: map<int, seq<KeyRow>>, cells: seq<Cell>,
                             sid: int, begin: int, amount: int, n: int)
    requires forall l :: l in before ==> |before[l]| == |cells|
  {
    && after.Keys == before.Keys
    && forall l :: l in after ==> after[l] == RotatedUpTo(before[l], cells, sid, begin, amount, n)
  }

  lemma {:induction false} AllSame(layers: map<int, seq<KeyRow>>, cells: seq<Cell>, sid: int, begin: int, amount: int)
    requires forall l :: l in layers ==> |layers[l]| == |cells|
    ensures AllRotated(layers, layers, cells, sid, begin, amount, 0)
  {
  }

  lemma {:induction false} AllSkip(before: map<int, seq<KeyRow>>, after: map<int, seq<KeyRow>>, cells: seq<Cell>,
                sid: int, begin: int, amount: int, m: int, n: int)
    requires forall l :: l in before ==> |before[l]| == |cells|
    requires AllRotated(before, after, cells, sid, begin, amount, m)
    requires forall i :: 0 <= i < |cells| && (m <= i < n || n <= i < m) ==> !Moved(cells[i], sid, begin)
    ensures AllRotated(before, after, cells, sid, begin, amount, n)
  {
    forall l | l in after ensures after[l] == RotatedUpTo(before[l], cells, sid, begin, amount, n) {
      if m <= n {
        SkipRotates(before[l], cells, sid, begin, amount, m, n);
      } else {
        SkipRotates(before[l], cells, sid, begin, amount, n, m);
      }
    }
  }

  /** One tile of every layer. */
  lemma {:induction false} AllTile(before: map<int, seq<KeyRow>>, was: map<int, seq<KeyRow>>,
                                   after: map<int, seq<KeyRow>>, cells: seq<Cell>, sid: int, begin: int, amount: int,
                                   start: nat, offsets: seq<int>, first: nat, last: nat)
    requires forall l :: l in before ==> |before[l]| == |cells|
    requires AllRotated(before, was, cells, sid, begin, amount, start) && after.Keys == was.Keys
    requires start + |offsets| <= |cells| && first <= last < |offsets|
    requires forall i :: start <= i < start + |offsets| ==>
               offsets[i - start] == if Moved(cells[i], sid, begin) then amount else 0
    requires forall i :: start <= i < start + |offsets| && !(first <= i - start <= last) ==>
        !Moved(cells[i], sid, begin)
    requires forall l :: l in after ==> after[l] == RotateView(was[l], start + first, offsets[first..last + 1])
    ensures AllRotated(before, after, cells, sid, begin, amount, start + |offsets|)
  {
    forall l | l in after ensures after[l] == RotatedUpTo(before[l], cells, sid, begin, amount, start + |offsets|) {
      TileRotates(before[l], cells, sid, begin, amount, start, offsets, first, last);
    }
  }

  // ---- keys agree with the metadata ----

  /** Outside `pending`, the key of every cell in use is rotated to the cell's position. */
  ghost predicate RowsOk(cells: seq<Cell>, rows: seq<KeyRow>, pending: set<int>) {
    && |rows| == |cells|
    && forall i :: 0 <= i < |cells| && i !in pending && cells[i].seqs != {} ==> rows[i].rotation == cells[i].pos
  }

  lemma {:induction false} SlideKeepsRows(m: Meta, batch: seq<Entry>, memory: int, rows: seq<KeyRow>)
    requires |m.cells| <= MAX_INT && RowsOk(m.cells, rows, {})
    ensures RowsOk(SlidMeta(m, batch, memory).cells, rows, {})
  {
    var cells' := SlidMeta(m, batch, memory).cells;
    forall i | 0 <= i < |cells'| && cells'[i].seqs != {} ensures rows[i].rotation == cells'[i].pos {
      var t := Pick(cells'[i].seqs);
      assert t in m.cells[i].seqs;
    }
  }

  /** Storing the metadata of a batch leaves only its own rows pending; putting its keys, rotated
      to their positions, settles them. */
  lemma {:induction false} PutSettlesRows(cells: seq<Cell>, batch: seq<Entry>, locs: seq<int>, rows: seq<KeyRow>,
                                          src: seq<KeyRow>)
    requires RowsOk(cells, rows, {}) && |batch| == |locs| == |src|
    requires forall k :: 0 <= k < |locs| ==> 0 <= locs[k] < |cells|
    requires forall k, l :: 0 <= k < l < |locs| ==> locs[k] < locs[l]
    requires forall k :: 0 <= k < |src| ==> src[k].rotation == batch[k].pos
    ensures RowsOk(Placed(cells, batch, locs, |batch|), rows, Locs(locs))
    ensures RowsOk(Placed(cells, batch, locs, |batch|), RowsSet(rows, locs, src, |src|), {})
  {
    PlacedAt(cells, batch, locs, |batch|);
    RowsSetAt(rows, locs, src, |src|);
    assert locs[..|batch|] == locs;
    forall k | 0 <= k < |locs|
      ensures RowsSet(rows, locs, src, |src|)[locs[k]].rotation == Placed(cells, batch, locs, |batch|)[locs[k]].pos
    {
      assert src[k].rotation == batch[k].pos;
    }
  }

  lemma {:induction false} CopyKeepsRows(m: Meta, src: int, dst: int, len: int, rows: seq<KeyRow>)
    requires |m.cells| <= MAX_INT && RowsOk(m.cells, rows, {})
    ensures RowsOk(CopiedMeta(m, src, dst, len).cells, rows, {})
  {
    var cells' := CopiedMeta(m, src, dst, len).cells;
    forall i | 0 <= i < |cells'| && cells'[i].seqs != {} ensures m.cells[i].seqs != {} {
      var t := Pick(cells'[i].seqs);
      assert (if t == dst && t !in m.cells[i].seqs then src else t) in m.cells[i].seqs;
    }
  }

  /** After a removal that gets through, rotating the moved cells by the same offset keeps
      every key at its cell's position. */
  lemma {:induction false} RemoveKeepsRows(m: Meta, sid: int, begin: int, end: int, rows: seq<KeyRow>)
    requires |m.cells| <= MAX_INT && RowsOk(m.cells, rows, {}) && PositionsOk(m.cells)
    requires 0 <= begin <= end <= MAX_INT32 && !RemoveBlocked(m.cells, sid, begin, end)
    ensures var cells' := RemovedMeta(m, sid, begin, end).cells;
            RowsOk(cells', if end == MAX_INT32 then rows
                           else RotatedUpTo(rows, cells', sid, begin, begin - end, |cells'|), {})
  {
    var cells' := RemovedMeta(m, sid, begin, end).cells;
    var rows' := if end == MAX_INT32 then rows else RotatedUpTo(rows, cells', sid, begin, begin - end, |cells'|);
    forall i | 0 <= i < |cells'| && cells'[i].seqs != {}
      ensures rows'[i].rotation == cells'[i].pos
    {
      assert cells'[i] == RemoveCell(m.cells[i], sid, begin, end);
      var t := Pick(cells'[i].seqs);
      assert t in m.cells[i].seqs;
      assert !Blocks(m.cells[i], sid, begin, end);
    }
  }

  /** Each row is as it was or, in a moved cell, rotated once: so it is after a failed shift. */
  ghost predicate PartlyRotated(before: seq<KeyRow>, after: seq<KeyRow>, cells: seq<Cell>, sid: int, begin: int,
                                amount: int) {
    && |before| == |after| == |cells|
    && forall i :: 0 <= i < |cells| ==>
         after[i] == before[i] || (Moved(cells[i], sid, begin) && after[i] == Rotate(before[i], amount))
  }

  /** Clearing the sequence after any failed removal restores the agreement: the rows in doubt
      belonged to it alone. */
  lemma {:induction false} ClearRestoresRows(m: Meta, sid: int, begin: int, end: int, rows: seq<KeyRow>,
                                             rows': seq<KeyRow>)
    requires |m.cells| <= MAX_INT && RowsOk(m.cells, rows, {}) && PositionsOk(m.cells)
    requires 0 <= begin <= end < MAX_INT32
    requires if RemoveBlocked(m.cells, sid, begin, end) then rows' == rows
             else PartlyRotated(rows, rows', RemovedMeta(m, sid, begin, end).cells, sid, begin, begin - end)
    ensures RowsOk(RemovedMeta(RemovedMeta(m, sid, begin, end), sid, 0, MAX_INT32).cells, rows', {})
  {
    var m1 := RemovedMeta(m, sid, begin, end);
    var cells' := RemovedMeta(m1, sid, 0, MAX_INT32).cells;
    var n := StuckAt(m.cells, sid, begin, end, 0);
    var n1 := StuckAt(m1.cells, sid, 0, MAX_INT32, 0);
    forall i | 0 <= i < |m.cells| ensures m1.cells[i].seqs != {} ==> 0 <= m1.cells[i].pos < MAX_INT32 {
      if m1.cells[i].seqs != {} {
        var t := Pick(m1.cells[i].seqs);
        assert t in m.cells[i].seqs;
      }
    }
    assert n1 == |m1.cells|;
    forall i | 0 <= i < |cells'| && cells'[i].seqs != {}
      ensures rows'[i].rotation == cells'[i].pos
    {
      assert cells'[i] == RemoveCell(m1.cells[i], sid, 0, MAX_INT32);
      var t := Pick(cells'[i].seqs);
      assert t != sid && t in m1.cells[i].seqs && t in m.cells[i].seqs;
      assert i < n ==> !Blocks(m.cells[i], sid, begin, end);
      assert m1.cells[i].pos == m.cells[i].pos;
    }
  }
}
