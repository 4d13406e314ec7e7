/** Remembered ranges miss no cell, errors included; the narrowed mask hides nothing. */
module CausalRanges {
  import opened CacheCells

  ghost predicate Sound(m: Meta) {
    |m.cells| <= MAX_INT && RangesCover(m.cells, m.ranges) && PositionsOk(m.cells)
  }

  lemma {:induction false} TightCovers(cells: seq<Cell>, sid: int)
    requires |cells| <= MAX_INT
    ensures RangeOk(Tight(cells, sid), |cells|)
    ensures forall i :: 0 <= i < |cells| && sid in cells[i].seqs ==>
              Tight(cells, sid).min <= i <= Tight(cells, sid).max
  {
    var r := Tight(cells, sid);
    var S := Holders(cells, sid);
    if S == {} {
      assert r == EMPTY_RANGE;
    } else {
      assert r.min in S && r.max in S;
    }
    forall i | 0 <= i < |cells| && sid in cells[i].seqs
      ensures r.min <= i <= r.max
    {
      assert i in S;
    }
  }

  lemma {:induction false} SlidSound(m: Meta, batch: seq<Entry>, memory: int)
    requires Sound(m)
    ensures Sound(SlidMeta(m, batch, memory))
    ensures SlidMeta(m, batch, memory).ranges.Keys == m.ranges.Keys
  {
    var m' := SlidMeta(m, batch, memory);
    if memory != MAX_INT32 {
      forall i, sid | 0 <= i < |m'.cells| && sid in m'.cells[i].seqs
        ensures sid in m'.ranges && m'.ranges[sid].min <= i <= m'.ranges[sid].max
      {
        assert sid in m.cells[i].seqs;
        TightCovers(m'.cells, sid);
      }
      forall sid | sid in m'.ranges
        ensures RangeOk(m'.ranges[sid], |m'.cells|)
      {
        TightCovers(m'.cells, sid);
      }
    }
  }

  lemma {:induction false} PlacedSound(m: Meta, batch: seq<Entry>, locs: seq<int>, n: nat)
    requires Sound(m) && n <= |batch| && n <= |locs|
    requires forall k :: 0 <= k < |locs| ==> 0 <= locs[k] < |m.cells|
    requires forall e :: e in batch ==> 0 <= e.pos < MAX_INT32
    ensures Sound(Meta(Placed(m.cells, batch, locs, n), Grown(m.ranges, batch, locs, n)))
  {
    if n > 0 {
      PlacedSound(m, batch, locs, n - 1);
      assert batch[n - 1] in batch;
      var sid, loc := batch[n - 1].sid, locs[n - 1];
      var before := Grown(m.ranges, batch, locs, n - 1);
      var after := Grown(m.ranges, batch, locs, n);
      assert RangeOk(after[sid], |m.cells|) && after[sid].min <= loc <= after[sid].max;
      assert sid in before ==> after[sid].min <= before[sid].min && before[sid].max <= after[sid].max;
    }
  }

  lemma {:induction false} CopiedSound(m: Meta, src: int, dst: int, len: int)
    requires Sound(m)
    ensures Sound(CopiedMeta(m, src, dst, len))
  {
    var m' := CopiedMeta(m, src, dst, len);
    forall i, sid | 0 <= i < |m'.cells| && sid in m'.cells[i].seqs
      ensures sid in m'.ranges && m'.ranges[sid].min <= i <= m'.ranges[sid].max
    {
      if sid == dst {
        TightCovers(m'.cells, dst);
      } else {
        assert sid in m.cells[i].seqs;
      }
    }
    TightCovers(m'.cells, dst);
  }

  lemma {:induction false} RemovedSound(m: Meta, sid: int, begin: int, end: int)
    requires Sound(m) && 0 <= begin <= end <= MAX_INT32
    ensures Sound(RemovedMeta(m, sid, begin, end))
  {
    var m' := RemovedMeta(m, sid, begin, end);
    forall i, t | 0 <= i < |m'.cells| && t in m'.cells[i].seqs
      ensures t in m'.ranges && m'.ranges[t].min <= i <= m'.ranges[t].max
    {
      assert t in m.cells[i].seqs;
      if t == sid && !RemoveBlocked(m.cells, sid, begin, end) {
        assert i in Holders(m'.cells, sid);
        TightCovers(m'.cells, sid);
      }
    }
    TightCovers(m'.cells, sid);
  }

  // ---- narrowing the mask ----

  /** A cell that a token of the batch may attend to, whether or not causality is lifted for it. */
  ghost predicate Attended(cells: seq<Cell>, e: Entry, causal: bool, chunk: int, window: int, i: int)
    requires 0 <= e.pos
  {
    0 <= i < |cells| && !Masked(cells[i], e, causal, chunk, window)
  }

  /** Sliding never drops a cell that some token of the batch can see: for every cell of
      the whole cache the mask bit is the same before and after. */
  lemma {:induction false} SlidingKeepsMask(m: Meta, batch: seq<Entry>, window: int, memory: int, k: int, i: int,
                         causal: bool, chunk: int)
    requires Sound(m) && window <= memory
    requires 0 <= k < |batch| && 0 <= batch[k].pos && 0 <= i < |m.cells|
    ensures Masked(SlidMeta(m, batch, memory).cells[i], batch[k], causal, chunk, window)
         == Masked(m.cells[i], batch[k], causal, chunk, window)
  {
    var sid := batch[k].sid;
    if memory != MAX_INT32 && sid in m.ranges {
      var low := LowestMap(m.cells, batch, m.ranges.Keys);
      assert IsBatchMin(batch, sid, low[sid]);
      assert batch[k] in batch;
    }
  }

  /** Every cell that a token of the batch attends to lies in any range that spans the touched
      locations and the new ones, so the narrowed mask agrees with the mask over the whole cache. */
  lemma {:induction false} NarrowingSound(m: Meta, batch: seq<Entry>, locs: seq<int>, window: int, memory: int,
                       cur: Range, k: int, i: int, causal: bool, chunk: int)
    requires Sound(m) && window <= memory && |batch| <= |locs|
    requires FirstFree(SlidMeta(m, batch, memory).cells, |batch|, locs)
    requires forall x :: x in Touched(m, batch, window, memory) || x in locs ==> cur.min <= x <= cur.max
    requires 0 <= k < |batch| && 0 <= batch[k].pos
    requires Attended(PlacedMeta(SlidMeta(m, batch, memory), batch, locs).cells, batch[k], causal, chunk, window, i)
    ensures cur.min <= i <= cur.max
  {
    var s := SlidMeta(m, batch, memory);
    PlacedAt(s.cells, batch, locs, |batch|);
    if i !in locs {
      assert i !in locs[..|batch|];
      var sid := batch[k].sid;
      assert sid in s.cells[i].seqs && s.cells[i].pos >= batch[k].pos - window;
      assert sid in m.cells[i].seqs && s.cells[i].pos == m.cells[i].pos;
      assert InBatch(batch, sid);
      if memory == MAX_INT32 {
        assert InSomeRange(m.ranges, batch, i);
      } else {
        assert IsBatchMin(batch, sid, LowestOf(m.cells, batch, sid));
        assert batch[k] in batch;
        assert InSomeWindow(m, batch, window, i);
      }
      assert i in Touched(m, batch, window, memory);
    }
  }
}
