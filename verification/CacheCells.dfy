/** The metadata of the causal cache as values: what each operation does to the
    whole row of cells. The class in CausalCache.dfy is proved against these. */
module CacheCells {
  import opened Wrappers

  const MAX_INT32: int := 0x7fff_ffff
  const MAX_INT: int := 0x7fff_ffff_ffff_ffff

  /** One storage location: the position it holds and the sequences that refer to it. */
  datatype Cell = Cell(pos: int, seqs: set<int>)

  /** An inclusive span of locations. */
  datatype Range = Range(min: int, max: int)

  /** One token of a batch. */
  datatype Entry = Entry(sid: int, pos: int)

  const EMPTY_RANGE := Range(MAX_INT, 0)

  function Min(a: int, b: int): int { if a < b then a else b }

  function Max(a: int, b: int): int { if a < b then b else a }

  /** The range that also takes in location `i`. */
  function Extend(r: Range, i: int): Range {
    Range(Min(r.min, i), Max(r.max, i))
  }

  // ---- reading the cells ----

  ghost function Holders(cells: seq<Cell>, sid: int): set<int> {
    set i | 0 <= i < |cells| && sid in cells[i].seqs
  }

  ghost function Free(cells: seq<Cell>): set<int> {
    set i | 0 <= i < |cells| && cells[i].seqs == {}
  }

  /** Sequence `sid` has a cell for position `p`. */
  ghost predicate Has(cells: seq<Cell>, sid: int, p: int) {
    exists i :: 0 <= i < |cells| && sid in cells[i].seqs && cells[i].pos == p
  }

  /** No sequence stores one position twice. */
  ghost predicate Distinct(cells: seq<Cell>) {
    forall i, j, sid :: 0 <= i < j < |cells| && sid in cells[i].seqs && sid in cells[j].seqs
      ==> cells[i].pos != cells[j].pos
  }

  /** Every cell in use holds a position below the sentinel. */
  ghost predicate PositionsOk(cells: seq<Cell>) {
    forall i :: 0 <= i < |cells| && cells[i].seqs != {} ==> 0 <= cells[i].pos < MAX_INT32
  }

  /** `r` is the tightest range around the locations in `S`. */
  ghost predicate Bounds(r: Range, S: set<int>) {
    if S == {} then r == EMPTY_RANGE
    else r.min in S && r.max in S && forall i :: i in S ==> r.min <= i <= r.max
  }

  ghost predicate RangeOk(r: Range, size: nat) {
    r == EMPTY_RANGE || 0 <= r.min <= r.max < size
  }

  /** The ranges kept per sequence never miss a cell and never leave the array. */
  ghost predicate RangesCover(cells: seq<Cell>, ranges: map<int, Range>) {
    && (forall i, sid :: 0 <= i < |cells| && sid in cells[i].seqs ==>
          sid in ranges && ranges[sid].min <= i <= ranges[sid].max)
    && (forall sid :: sid in ranges ==> RangeOk(ranges[sid], |cells|))
  }

  // ---- the batch ----

  ghost predicate InBatch(batch: seq<Entry>, sid: int) {
    exists i :: 0 <= i < |batch| && batch[i].sid == sid
  }

  ghost predicate IsBatchMin(batch: seq<Entry>, sid: int, p: int) {
    && Entry(sid, p) in batch
    && forall e :: e in batch && e.sid == sid ==> p <= e.pos
  }

  ghost predicate IsLast(cells: seq<Cell>, sid: int, last: int) {
    && 0 <= last
    && (forall i :: 0 <= i < |cells| && sid in cells[i].seqs ==> cells[i].pos <= last)
    && (last == 0 || Has(cells, sid, last))
  }

  /** The position below which `sid` may forget tokens, before the memory size is
      subtracted: the oldest position of the batch for its own sequences, one past the
      newest stored position for the others. */
  ghost predicate IsLowest(cells: seq<Cell>, batch: seq<Entry>, sid: int, low: int) {
    if InBatch(batch, sid) then IsBatchMin(batch, sid, low) else IsLast(cells, sid, low - 1)
  }

  lemma {:induction false} LowestUnique(cells: seq<Cell>, batch: seq<Entry>, sid: int, a: int, b: int)
    requires IsLowest(cells, batch, sid, a) && IsLowest(cells, batch, sid, b)
    ensures a == b
  {
    if InBatch(batch, sid) {
      assert Entry(sid, a) in batch && Entry(sid, b) in batch;
    } else {
      if a - 1 != 0 { assert Has(cells, sid, a - 1); }
      if b - 1 != 0 { assert Has(cells, sid, b - 1); }
    }
  }

  lemma {:induction false} BatchMinExists(batch: seq<Entry>, sid: int) returns (p: int)
    requires InBatch(batch, sid)
    ensures IsBatchMin(batch, sid, p)
  {
    var n := |batch| - 1;
    if InBatch(batch[..n], sid) {
      p := BatchMinExists(batch[..n], sid);
      if batch[n].sid == sid && batch[n].pos < p { p := batch[n].pos; }
    } else {
      p := batch[n].pos;
      assert forall i :: 0 <= i < n ==> batch[..n][i] == batch[i];
    }
    assert batch == batch[..n] + [batch[n]];
  }

  lemma {:induction false} LastExists(cells: seq<Cell>, sid: int) returns (last: int)
    ensures IsLast(cells, sid, last)
  {
    last := 0;
    if cells != [] {
      var n := |cells| - 1;
      last := LastExists(cells[..n], sid);
      if last != 0 {
        var i :| 0 <= i < n && sid in cells[..n][i].seqs && cells[..n][i].pos == last;
        assert cells[i].pos == last;
      }
      if sid in cells[n].seqs && cells[n].pos > last { last := cells[n].pos; }
      forall i | 0 <= i < |cells| && sid in cells[i].seqs ensures cells[i].pos <= last {
        if i < n { assert cells[..n][i] == cells[i]; }
      }
    }
  }

  ghost function LowestOf(cells: seq<Cell>, batch: seq<Entry>, sid: int): (low: int)
    ensures IsLowest(cells, batch, sid, low)
  {
    assert exists low :: IsLowest(cells, batch, sid, low) by {
      if InBatch(batch, sid) {
        var p := BatchMinExists(batch, sid);
        assert IsLowest(cells, batch, sid, p);
      } else {
        var last := LastExists(cells, sid);
        assert IsLowest(cells, batch, sid, last + 1);
      }
    }
    var low :| IsLowest(cells, batch, sid, low);
    low
  }

  ghost function LowestMap(cells: seq<Cell>, batch: seq<Entry>, dom: set<int>): map<int, int> {
    map sid | sid in dom :: LowestOf(cells, batch, sid)
  }

  // ---- what the operations do to the cells ----

  /** Forget, for every sequence with a lowest position, what lies beyond the memory. */
  function EvictCell(c: Cell, low: map<int, int>, memory: int): Cell {
    Cell(c.pos, set sid | sid in c.seqs && !(sid in low && c.pos < low[sid] - memory))
  }

  function Evicted(cells: seq<Cell>, low: map<int, int>, memory: int): (r: seq<Cell>) {
    seq(|cells|, i requires 0 <= i < |cells| => EvictCell(cells[i], low, memory))
  }

  /** The first `n` batch tokens written to their locations. */
  ghost function Placed(cells: seq<Cell>, batch: seq<Entry>, locs: seq<int>, n: nat): (r: seq<Cell>)
    requires n <= |batch| && n <= |locs|
    requires forall k :: 0 <= k < |locs| ==> 0 <= locs[k] < |cells|
    ensures |r| == |cells|
  {
    if n == 0 then cells
    else Placed(cells, batch, locs, n - 1)[locs[n - 1] := Cell(batch[n - 1].pos, {batch[n - 1].sid})]
  }

  /** `locs` is what a scan for `n` unused cells collects. */
  ghost predicate FirstFree(cells: seq<Cell>, n: nat, locs: seq<int>) {
    && |locs| == (if n == 0 then 1 else n)
    && (forall k :: 0 <= k < |locs| ==> locs[k] in Free(cells))
    && (forall k, l :: 0 <= k < l < |locs| ==> locs[k] < locs[l])
    && (forall i :: i in Free(cells) && i <= locs[|locs| - 1] ==> i in locs)
  }

  function CopyCell(c: Cell, src: int, dst: int, len: int): Cell {
    var kept := c.seqs - {dst};
    Cell(c.pos, if src in kept && c.pos < len then kept + {dst} else kept)
  }

  function Copied(cells: seq<Cell>, src: int, dst: int, len: int): (r: seq<Cell>) {
    seq(|cells|, i requires 0 <= i < |cells| => CopyCell(cells[i], src, dst, len))
  }

  function Offset(begin: int, end: int): int {
    if end != MAX_INT32 then begin - end else 0
  }

  function RemoveCell(c: Cell, sid: int, begin: int, end: int): Cell {
    if sid !in c.seqs then c
    else if begin <= c.pos < end then Cell(c.pos, c.seqs - {sid})
    else if c.pos >= end then Cell(c.pos + Offset(begin, end), c.seqs)
    else c
  }

  /** A cell that would have to move although another sequence still uses it. */
  predicate Blocks(c: Cell, sid: int, begin: int, end: int) {
    sid in c.seqs && !(begin <= c.pos < end) && c.pos >= end && exists t :: t in c.seqs && t != sid
  }

  /** The removal applied to the cells before location `n` only. */
  function RemovedUpTo(cells: seq<Cell>, sid: int, begin: int, end: int, n: nat): (r: seq<Cell>) {
    seq(|cells|, i requires 0 <= i < |cells| =>
      if i < n then RemoveCell(cells[i], sid, begin, end) else cells[i])
  }

  /** The first location from `from` on where the removal gets stuck, or the number of cells. */
  function StuckAt(cells: seq<Cell>, sid: int, begin: int, end: int, from: nat): (n: nat)
    requires from <= |cells|
    ensures from <= n <= |cells|
    ensures n < |cells| ==> Blocks(cells[n], sid, begin, end)
    ensures forall i :: from <= i < n ==> !Blocks(cells[i], sid, begin, end)
    decreases |cells| - from
  {
    if from < |cells| && !Blocks(cells[from], sid, begin, end)
    then StuckAt(cells, sid, begin, end, from + 1)
    else from
  }

  predicate RemoveBlocked(cells: seq<Cell>, sid: int, begin: int, end: int) {
    StuckAt(cells, sid, begin, end, 0) < |cells|
  }

  // ---- the attention mask ----

  /** Whether the cell is hidden from the batch token `e`. */
  predicate Masked(c: Cell, e: Entry, causal: bool, chunk: int, window: int)
    requires 0 <= e.pos
  {
    || e.sid !in c.seqs
    || (causal && c.pos > e.pos)
    || (chunk > 0 && c.pos < e.pos - e.pos % chunk)
    || c.pos < e.pos - window
  }

  function RoundDown(length: int, pad: int): int
    requires pad > 0
  {
    length / pad * pad
  }

  function RoundUp(length: int, pad: int): int
    requires pad > 0
  {
    (length + pad - 1) / pad * pad
  }

  // ---- the whole metadata ----

  datatype Meta = Meta(cells: seq<Cell>, ranges: map<int, Range>)

  ghost function HoldersUpTo(cells: seq<Cell>, sid: int, n: nat): set<int>
    requires n <= |cells|
  {
    set i | 0 <= i < n && sid in cells[i].seqs
  }

  /** The tightest range around the cells of `sid` among the first `n`. */
  ghost function TightUpTo(cells: seq<Cell>, sid: int, n: nat): (r: Range)
    requires n <= |cells| <= MAX_INT
    ensures Bounds(r, HoldersUpTo(cells, sid, n))
  {
    if n == 0 then EMPTY_RANGE
    else
      var r := TightUpTo(cells, sid, n - 1);
      if sid in cells[n - 1].seqs then
        ExtendBounds(r, HoldersUpTo(cells, sid, n - 1), n - 1);
        assert HoldersUpTo(cells, sid, n) == HoldersUpTo(cells, sid, n - 1) + {n - 1};
        Extend(r, n - 1)
      else
        assert HoldersUpTo(cells, sid, n) == HoldersUpTo(cells, sid, n - 1);
        r
  }

  ghost function Tight(cells: seq<Cell>, sid: int): (r: Range)
    requires |cells| <= MAX_INT
    ensures Bounds(r, Holders(cells, sid))
  {
    assert Holders(cells, sid) == HoldersUpTo(cells, sid, |cells|);
    TightUpTo(cells, sid, |cells|)
  }

  lemma {:induction false} BoundsUnique(a: Range, b: Range, S: set<int>)
    requires Bounds(a, S) && Bounds(b, S)
    ensures a == b
  {
  }

  /** Window sliding: with unlimited memory nothing happens. */
  ghost function SlidMeta(m: Meta, batch: seq<Entry>, memory: int): (r: Meta)
    requires |m.cells| <= MAX_INT
    ensures |r.cells| == |m.cells|
  {
    if memory == MAX_INT32 then m
    else
      var cells := Evicted(m.cells, LowestMap(m.cells, batch, m.ranges.Keys), memory);
      Meta(cells, map sid | sid in m.ranges :: Tight(cells, sid))
  }

  /** The locations an ongoing batch has to look at before its own tokens are stored. */
  ghost function Touched(m: Meta, batch: seq<Entry>, window: int, memory: int): (S: set<int>) {
    if memory == MAX_INT32 then
      set i | 0 <= i < |m.cells| && InSomeRange(m.ranges, batch, i)
    else
      set i | 0 <= i < |m.cells| && InSomeWindow(m, batch, window, i)
  }

  ghost predicate InSomeRange(ranges: map<int, Range>, batch: seq<Entry>, i: int) {
    exists sid :: sid in ranges && InBatch(batch, sid) && ranges[sid].min <= i <= ranges[sid].max
  }

  ghost predicate InSomeWindow(m: Meta, batch: seq<Entry>, window: int, i: int)
    requires 0 <= i < |m.cells|
  {
    exists sid :: sid in m.cells[i].seqs && InBatch(batch, sid)
      && m.cells[i].pos >= LowestOf(m.cells, batch, sid) - window
  }

  function GrowOne(ranges: map<int, Range>, sid: int, loc: int): map<int, Range> {
    ranges[sid := Extend(if sid in ranges then ranges[sid] else EMPTY_RANGE, loc)]
  }

  /** The ranges after the first `n` tokens were stored. */
  ghost function Grown(ranges: map<int, Range>, batch: seq<Entry>, locs: seq<int>, n: nat): map<int, Range>
    requires n <= |batch| && n <= |locs|
  {
    if n == 0 then ranges
    else GrowOne(Grown(ranges, batch, locs, n - 1), batch[n - 1].sid, locs[n - 1])
  }

  ghost function PlacedMeta(m: Meta, batch: seq<Entry>, locs: seq<int>): Meta
    requires |batch| <= |locs|
    requires forall k :: 0 <= k < |locs| ==> 0 <= locs[k] < |m.cells|
  {
    Meta(Placed(m.cells, batch, locs, |batch|), Grown(m.ranges, batch, locs, |batch|))
  }

  ghost function CopiedMeta(m: Meta, src: int, dst: int, len: int): Meta
    requires |m.cells| <= MAX_INT
  {
    var cells := Copied(m.cells, src, dst, len);
    Meta(cells, m.ranges[dst := Tight(cells, dst)])
  }

  /** A removal that gets stuck leaves the cells before the obstacle changed and the ranges as they were. */
  ghost function RemovedMeta(m: Meta, sid: int, begin: int, end: int): (r: Meta)
    requires |m.cells| <= MAX_INT
    ensures |r.cells| == |m.cells|
  {
    var n := StuckAt(m.cells, sid, begin, end, 0);
    var cells := RemovedUpTo(m.cells, sid, begin, end, n);
    if n < |m.cells| then Meta(cells, m.ranges)
    else if Holders(cells, sid) == {} then Meta(cells, m.ranges - {sid})
    else Meta(cells, m.ranges[sid := Tight(cells, sid)])
  }

  // ---- facts about the operations ----

  /** Writing to distinct locations: each one ends with its own token, the rest are untouched. */
  lemma {:induction false} PlacedAt(cells: seq<Cell>, batch: seq<Entry>, locs: seq<int>, n: nat)
    requires n <= |batch| && n <= |locs|
    requires forall k :: 0 <= k < |locs| ==> 0 <= locs[k] < |cells|
    requires forall k, l :: 0 <= k < l < |locs| ==> locs[k] < locs[l]
    ensures forall k :: 0 <= k < n ==> Placed(cells, batch, locs, n)[locs[k]] == Cell(batch[k].pos, {batch[k].sid})
    ensures forall i :: 0 <= i < |cells| && i !in locs[..n] ==> Placed(cells, batch, locs, n)[i] == cells[i]
  {
    if n > 0 {
      PlacedAt(cells, batch, locs, n - 1);
      var before := Placed(cells, batch, locs, n - 1);
      var after := Placed(cells, batch, locs, n);
      assert after == before[locs[n - 1] := Cell(batch[n - 1].pos, {batch[n - 1].sid})];
      forall i | 0 <= i < |cells| && i !in locs[..n]
        ensures after[i] == cells[i]
      {
        assert locs[n - 1] in locs[..n];
        assert locs[..n] == locs[..n - 1] + [locs[n - 1]];
      }
    }
  }

  lemma {:induction false} ExtendBounds(r: Range, S: set<int>, i: int)
    requires Bounds(r, S) && 0 <= i <= MAX_INT && forall x :: x in S ==> 0 <= x
    ensures Bounds(Extend(r, i), S + {i})
  {
    assert i in S + {i};
    if S != {} {
      assert r.min in S + {i} && r.max in S + {i};
    }
  }

  /** Rounding an already rounded range changes nothing, so the mask can be rebuilt in place. */
  lemma {:induction false} RoundingIdempotent(x: int, pad: int)
    requires pad > 0
    ensures RoundDown(RoundDown(x, pad), pad) == RoundDown(x, pad)
    ensures RoundUp(RoundUp(x, pad), pad) == RoundUp(x, pad)
    ensures RoundDown(x, pad) <= x <= RoundUp(x, pad)
    ensures RoundUp(x, pad) % pad == 0 && RoundDown(x, pad) % pad == 0
  {
    var q := x / pad;
    assert (q * pad) / pad == q && (q * pad) % pad == 0 by { MulDiv(q, pad); }
    var u := (x + pad - 1) / pad;
    assert (u * pad) / pad == u && (u * pad) % pad == 0 by { MulDiv(u, pad); }
    assert (u * pad + pad - 1) / pad == u by { DivUnique(u * pad + pad - 1, u, pad); }
  }

  lemma {:induction false} DivUnique(x: int, q: int, d: int)
    requires d > 0 && q * d <= x < q * d + d
    ensures x / d == q
  {
    MulStep(x / d, q, d);
    MulStep(q, x / d, d);
    assert x == x / d * d + x % d;
  }

  lemma {:induction false} MulDiv(q: int, d: int)
    requires d > 0
    ensures (q * d) / d == q && (q * d) % d == 0
  {
    DivUnique(q * d, q, d);
  }

  lemma {:induction false} MulStep(a: int, b: int, d: int)
    requires 0 <= d
    ensures a < b ==> a * d + d <= b * d
    ensures a <= b ==> a * d <= b * d
  {
    if a < b {
      assert (b - a - 1) * d >= 0;
      assert b * d == a * d + d + (b - a - 1) * d;
    }
  }

  /** A padded upper bound stays inside an array whose length is a multiple of the padding. */
  lemma {:induction false} RoundUpInside(x: int, pad: int, size: int)
    requires pad > 0 && x <= size && size % pad == 0
    ensures RoundUp(x, pad) <= size
  {
    var n := size / pad;
    var u := (x + pad - 1) / pad;
    assert size == n * pad;
    assert u * pad <= x + pad - 1;
    MulStep(n, u, pad);
    MulStep(u, n, pad);
  }
}
