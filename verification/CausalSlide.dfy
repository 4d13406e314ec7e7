/** The sliding loop visits the sequences of the cache in any order; these lemmas carry it from the
    first sequence to the result of SlidMeta, together with the ranges that the batch has to look at
    and the lowest position that each sequence is about to use. */
module CausalSlide {
  import opened CacheCells
  import opened CausalRanges
  import opened KeyRows

  /** The oldest position a sequence is about to use, and whether the batch evaluates it. */
  datatype Lowest = Lowest(pos: int, curBatch: bool)

  ghost predicate LowestOk(m: Meta, batch: seq<Entry>, lowest: map<int, Lowest>) {
    && (forall sid :: sid in lowest ==> IsLowest(m.cells, batch, sid, lowest[sid].pos))
    && (forall sid :: sid in lowest ==> (lowest[sid].curBatch <==> InBatch(batch, sid)))
    && (forall sid :: InBatch(batch, sid) || sid in m.ranges ==> sid in lowest)
  }

  /** The thresholds of the sequences handled so far. */
  ghost function Handled(m: Meta, lowest: map<int, Lowest>, done: set<int>): map<int, int> {
    map sid | sid in lowest && sid in done && sid in m.ranges :: lowest[sid].pos
  }

  ghost function Needed(m: Meta, lowest: map<int, Lowest>, done: set<int>, window: int): set<int> {
    set i | 0 <= i < |m.cells| && NeededBy(m, lowest, done, window, i)
  }

  ghost predicate NeededBy(m: Meta, lowest: map<int, Lowest>, done: set<int>, window: int, i: int)
    requires 0 <= i < |m.cells|
  {
    exists sid :: sid in done && sid in lowest && lowest[sid].curBatch && sid in m.cells[i].seqs
      && m.cells[i].pos >= lowest[sid].pos - window
  }

  ghost predicate SlideInv(m: Meta, lowest: map<int, Lowest>, done: set<int>, memory: int, window: int,
                           now: Meta, cur: Range) {
    && |m.cells| <= MAX_INT
    && now.cells == Evicted(m.cells, Handled(m, lowest, done), memory)
    && now.ranges.Keys == m.ranges.Keys
    && (forall sid :: sid in m.ranges ==>
          now.ranges[sid] == if sid in done then Tight(now.cells, sid) else m.ranges[sid])
    && Bounds(cur, Needed(m, lowest, done, window))
  }

  lemma {:induction false} SlideStart(m: Meta, lowest: map<int, Lowest>, memory: int, window: int)
    requires |m.cells| <= MAX_INT
    ensures SlideInv(m, lowest, {}, memory, window, m, EMPTY_RANGE)
  {
    var low := Handled(m, lowest, {});
    forall i | 0 <= i < |m.cells| ensures EvictCell(m.cells[i], low, memory) == m.cells[i] {
      assert EvictCell(m.cells[i], low, memory).seqs == m.cells[i].seqs;
    }
    assert Evicted(m.cells, low, memory) == m.cells;
    assert Needed(m, lowest, {}, window) == {};
  }

  lemma {:induction false} TightFrame(a: seq<Cell>, b: seq<Cell>, sid: int)
    requires |a| == |b| <= MAX_INT
    requires forall i :: 0 <= i < |a| ==> (sid in a[i].seqs <==> sid in b[i].seqs)
    ensures Tight(a, sid) == Tight(b, sid)
  {
    assert Holders(a, sid) == Holders(b, sid);
    BoundsUnique(Tight(a, sid), Tight(b, sid), Holders(a, sid));
  }

  lemma {:induction false} EvictMore(m: Meta, lowest: map<int, Lowest>, done: set<int>, sid: int, memory: int,
                  now: seq<Cell>, now': seq<Cell>)
    requires now == Evicted(m.cells, Handled(m, lowest, done), memory)
    requires sid in lowest && sid in m.ranges && sid !in done
    requires now' == Dropped(now, sid, lowest[sid].pos - memory)
    ensures now' == Evicted(m.cells, Handled(m, lowest, done + {sid}), memory)
  {
    var low, low' := Handled(m, lowest, done), Handled(m, lowest, done + {sid});
    forall i | 0 <= i < |m.cells| ensures now'[i] == EvictCell(m.cells[i], low', memory) {
      assert now[i] == EvictCell(m.cells[i], low, memory);
      assert now'[i] == Drop(now[i], sid, lowest[sid].pos - memory);
      assert now'[i].seqs == EvictCell(m.cells[i], low', memory).seqs;
    }
  }

  lemma {:induction false} NeedMore(m: Meta, lowest: map<int, Lowest>, done: set<int>, sid: int, memory: int,
                                    window: int, now: seq<Cell>, cur: Range, cur': Range)
    requires |m.cells| <= MAX_INT && now == Evicted(m.cells, Handled(m, lowest, done), memory)
    requires sid in lowest && sid in m.ranges && sid !in done
    requires Bounds(cur, Needed(m, lowest, done, window))
    requires cur' == ExtendAll(now, sid, lowest[sid].pos - window, lowest[sid].curBatch, |now|, cur)
    ensures Bounds(cur', Needed(m, lowest, done + {sid}, window))
  {
    var N := Needed(m, lowest, done, window);
    var W := InWindow(now, sid, lowest[sid].pos - window, lowest[sid].curBatch, |now|);
    ExtendAllBounds(now, sid, lowest[sid].pos - window, lowest[sid].curBatch, |now|, cur, N);
    forall i | 0 <= i < |m.cells|
      ensures i in W <==> lowest[sid].curBatch && sid in m.cells[i].seqs && m.cells[i].pos >= lowest[sid].pos - window
    {
      assert now[i] == EvictCell(m.cells[i], Handled(m, lowest, done), memory);
    }
    assert N + W == Needed(m, lowest, done + {sid}, window);
  }

  /** Handling one more sequence that has a range. */
  lemma {:induction false} SlideOne(m: Meta, lowest: map<int, Lowest>, done: set<int>, sid: int,
                 memory: int, window: int, now: Meta, cur: Range, now': Meta, cur': Range)
    requires SlideInv(m, lowest, done, memory, window, now, cur)
    requires sid in lowest && sid !in done && sid in m.ranges
    requires now'.cells == Dropped(now.cells, sid, lowest[sid].pos - memory)
    requires now'.ranges == now.ranges[sid := Tight(now'.cells, sid)]
    requires cur' == ExtendAll(now.cells, sid, lowest[sid].pos - window, lowest[sid].curBatch, |now.cells|, cur)
    ensures SlideInv(m, lowest, done + {sid}, memory, window, now', cur')
  {
    EvictMore(m, lowest, done, sid, memory, now.cells, now'.cells);
    NeedMore(m, lowest, done, sid, memory, window, now.cells, cur, cur');
    forall t | t in m.ranges && t in done && t != sid
      ensures Tight(now.cells, t) == Tight(now'.cells, t)
    {
      TightFrame(now.cells, now'.cells, t);
    }
  }

  lemma {:induction false} DroppedSound(m: Meta, sid: int, bound: int, m': Meta)
    requires Sound(m) && sid in m.ranges
    requires m'.cells == Dropped(m.cells, sid, bound)
    requires m'.ranges == m.ranges[sid := Tight(m'.cells, sid)]
    ensures Sound(m')
  {
    TightCovers(m'.cells, sid);
  }

  /** What EvictSequence does to the metadata and to the current range. */
  ghost predicate RoundOf(now: Meta, cur: Range, sid: int, low: Lowest, memory: int, window: int, now': Meta,
                          cur': Range)
    requires |now.cells| <= MAX_INT
  {
    && now'.cells == Dropped(now.cells, sid, low.pos - memory)
    && now'.ranges == now.ranges[sid := Tight(now'.cells, sid)]
    && cur' == ExtendAll(now.cells, sid, low.pos - window, low.curBatch, |now.cells|, cur)
  }

  lemma {:induction false} RoundKeeps(m: Meta, lowest: map<int, Lowest>, done: set<int>, sid: int,
                   memory: int, window: int, now: Meta, cur: Range, now': Meta, cur': Range)
    requires Sound(now) && SlideInv(m, lowest, done, memory, window, now, cur)
    requires sid in lowest && sid !in done && sid in now.ranges
    requires RoundOf(now, cur, sid, lowest[sid], memory, window, now', cur')
    ensures Sound(now') && SlideInv(m, lowest, done + {sid}, memory, window, now', cur')
  {
    DroppedSound(now, sid, lowest[sid].pos - memory, now');
    SlideOne(m, lowest, done, sid, memory, window, now, cur, now', cur');
  }

  /** A sequence without a range has no cells and changes nothing. */
  lemma {:induction false} SlideNone(m: Meta, lowest: map<int, Lowest>, done: set<int>, sid: int,
                  memory: int, window: int, now: Meta, cur: Range)
    requires SlideInv(m, lowest, done, memory, window, now, cur) && RangesCover(m.cells, m.ranges)
    requires sid !in m.ranges
    ensures SlideInv(m, lowest, done + {sid}, memory, window, now, cur)
  {
    assert Handled(m, lowest, done + {sid}) == Handled(m, lowest, done);
    assert Needed(m, lowest, done + {sid}, window) == Needed(m, lowest, done, window);
  }

  lemma {:induction false} SlideEnd(m: Meta, batch: seq<Entry>, lowest: map<int, Lowest>,
                 memory: int, window: int, now: Meta, cur: Range)
    requires SlideInv(m, lowest, lowest.Keys, memory, window, now, cur) && RangesCover(m.cells, m.ranges)
    requires LowestOk(m, batch, lowest) && memory != MAX_INT32
    ensures now == SlidMeta(m, batch, memory)
    ensures Bounds(cur, Touched(m, batch, window, memory))
  {
    forall sid | sid in lowest ensures lowest[sid].pos == LowestOf(m.cells, batch, sid) {
      LowestUnique(m.cells, batch, sid, lowest[sid].pos, LowestOf(m.cells, batch, sid));
    }
    assert Handled(m, lowest, lowest.Keys) == LowestMap(m.cells, batch, m.ranges.Keys);
    assert now.ranges == SlidMeta(m, batch, memory).ranges;
    assert Needed(m, lowest, lowest.Keys, window) == Touched(m, batch, window, memory);
  }

  // ---- unlimited memory: the ranges of the batch's sequences ----

  ghost function InRanges(m: Meta, batch: seq<Entry>, n: nat): set<int>
    requires n <= |batch|
  {
    set i | 0 <= i < |m.cells| && InSomeRange(m.ranges, batch[..n], i)
  }

  /** Taking in the range of one more token's sequence. */
  lemma {:induction false} RangesStep(m: Meta, batch: seq<Entry>, n: nat, cur: Range)
    requires n < |batch| && |m.cells| <= MAX_INT && RangesCover(m.cells, m.ranges)
    requires Bounds(cur, InRanges(m, batch, n))
    ensures batch[n].sid !in m.ranges ==> Bounds(cur, InRanges(m, batch, n + 1))
    ensures batch[n].sid in m.ranges ==>
              var r := m.ranges[batch[n].sid];
              Bounds(Range(Min(cur.min, r.min), Max(cur.max, r.max)), InRanges(m, batch, n + 1))
  {
    var sid := batch[n].sid;
    var S, S' := InRanges(m, batch, n), InRanges(m, batch, n + 1);
    assert batch[..n + 1] == batch[..n] + [batch[n]];
    forall t ensures InBatch(batch[..n + 1], t) <==> InBatch(batch[..n], t) || t == sid {
      if InBatch(batch[..n], t) {
        var i :| 0 <= i < n && batch[..n][i].sid == t;
        assert batch[..n + 1][i].sid == t;
      }
      assert batch[..n + 1][n].sid == sid;
      if InBatch(batch[..n + 1], t) && t != sid {
        var i :| 0 <= i < n + 1 && batch[..n + 1][i].sid == t;
        assert batch[..n][i].sid == t;
      }
    }
    if sid in m.ranges && m.ranges[sid] != EMPTY_RANGE {
      var r := m.ranges[sid];
      forall i | 0 <= i < |m.cells| ensures i in S' <==> i in S || r.min <= i <= r.max {
        if r.min <= i <= r.max { assert InSomeRange(m.ranges, batch[..n + 1], i); }
      }
      assert r.min in S' && r.max in S';
    } else {
      assert S' == S;
    }
  }
}
