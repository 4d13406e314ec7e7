/** The plain view of the causal cache: one interval of positions for each sequence. */
module CausalView {
  import opened CacheCells
  import opened CausalRanges

  /** The stored positions lo, lo+1, ..., hi-1. */
  datatype Span = Span(lo: int, hi: int)

  type View = map<int, Span>

  const NOTHING := Span(0, 0)

  function At(v: View, sid: int): Span { if sid in v then v[sid] else NOTHING }

  ghost predicate InSpans(cells: seq<Cell>, v: View) {
    forall i, sid :: 0 <= i < |cells| && sid in cells[i].seqs ==>
      At(v, sid).lo <= cells[i].pos < At(v, sid).hi
  }

  /** The cells hold exactly the positions of the view, each once. */
  ghost predicate Rep(cells: seq<Cell>, v: View) {
    && Distinct(cells)
    && InSpans(cells, v)
    && forall sid, p :: At(v, sid).lo <= p < At(v, sid).hi ==> Has(cells, sid, p)
  }

  // ---- the operations on views ----

  function Trim(s: Span, memory: int): Span { Span(Max(s.lo, s.hi - memory), s.hi) }

  function SlideView(v: View, memory: int): View {
    if memory == MAX_INT32 then v else map sid | sid in v :: Trim(v[sid], memory)
  }

  /** The view after the first `n` tokens of the batch. */
  function GrowView(v: View, batch: seq<Entry>, n: nat): View
    requires n <= |batch|
  {
    if n == 0 then v
    else
      var g := GrowView(v, batch, n - 1);
      var s := At(g, batch[n - 1].sid);
      g[batch[n - 1].sid := Span(s.lo, s.hi + 1)]
  }

  /** Every token takes the next position of its sequence. */
  predicate Continues(v: View, batch: seq<Entry>) {
    forall k :: 0 <= k < |batch| ==> TakesNext(v, batch, k)
  }

  predicate TakesNext(v: View, batch: seq<Entry>, k: nat)
    requires k < |batch|
  {
    batch[k].pos == At(GrowView(v, batch, k), batch[k].sid).hi
  }

  /** Keep the positions below `n`. */
  function Cut(s: Span, n: int): Span {
    if Min(s.hi, n) <= s.lo then NOTHING else Span(s.lo, Min(s.hi, n))
  }

  /** Drop the positions in [begin, end) and close the gap. */
  function Close(s: Span, begin: int, end: int): Span {
    if s.hi <= begin then s
    else if s.hi <= end then Cut(s, begin)
    else Span(if s.lo <= begin then s.lo else Max(begin, s.lo - (end - begin)), s.hi - (end - begin))
  }

  // ---- the batch against the view ----

  lemma {:induction false} GrowFacts(v: View, batch: seq<Entry>, n: nat, sid: int)
    requires n <= |batch| && Continues(v, batch)
    ensures At(GrowView(v, batch, n), sid).lo == At(v, sid).lo
    ensures At(v, sid).hi <= At(GrowView(v, batch, n), sid).hi
    ensures forall p :: At(v, sid).hi <= p < At(GrowView(v, batch, n), sid).hi <==> Entry(sid, p) in batch[..n]
  {
    if n > 0 {
      var e := batch[n - 1];
      GrowFacts(v, batch, n - 1, sid);
      GrowStep(v, batch, n, sid);
      assert TakesNext(v, batch, n - 1);
      assert batch[..n] == batch[..n - 1] + [e];
      forall p
        ensures Entry(sid, p) in batch[..n] <==> Entry(sid, p) in batch[..n - 1] || Entry(sid, p) == e
      {
      }
    }
  }

  lemma {:induction false} GrowStep(v: View, batch: seq<Entry>, n: nat, sid: int)
    requires 0 < n <= |batch|
    ensures var before := At(GrowView(v, batch, n - 1), sid);
            At(GrowView(v, batch, n), sid) ==
              if sid == batch[n - 1].sid then Span(before.lo, before.hi + 1) else before
  {
  }

  /** For a sequence that stores something, what the sliding code computes is the end of its interval. */
  lemma {:induction false} LowestIsEnd(m: Meta, v: View, batch: seq<Entry>, sid: int)
    requires Rep(m.cells, v) && Continues(v, batch)
    requires 0 <= At(v, sid).lo < At(v, sid).hi || InBatch(batch, sid)
    ensures LowestOf(m.cells, batch, sid) == At(v, sid).hi
  {
    var s := At(v, sid);
    var low := LowestOf(m.cells, batch, sid);
    if InBatch(batch, sid) {
      GrowFacts(v, batch, |batch|, sid);
      assert batch[..|batch|] == batch;
      assert Entry(sid, low) in batch;
      assert Entry(sid, s.hi) in batch;
    } else {
      assert Has(m.cells, sid, s.hi - 1);
      assert IsLast(m.cells, sid, low - 1);
      if low - 1 != 0 { assert Has(m.cells, sid, low - 1); }
    }
  }

  /** Sliding refines trimming every interval to the memory size. */
  lemma {:induction false} SlideRefines(m: Meta, v: View, batch: seq<Entry>, memory: int)
    requires Sound(m) && Rep(m.cells, v) && Continues(v, batch)
    requires forall sid :: sid in v ==> 0 <= v[sid].lo
    ensures Rep(SlidMeta(m, batch, memory).cells, SlideView(v, memory))
  {
    if memory != MAX_INT32 {
      var m' := SlidMeta(m, batch, memory);
      var v' := SlideView(v, memory);
      var low := LowestMap(m.cells, batch, m.ranges.Keys);
      forall i, sid | 0 <= i < |m.cells| && sid in m.cells[i].seqs
        ensures sid in m'.cells[i].seqs <==> m.cells[i].pos >= At(v, sid).hi - memory
      {
        LowestIsEnd(m, v, batch, sid);
      }
      forall sid, p | At(v', sid).lo <= p < At(v', sid).hi
        ensures Has(m'.cells, sid, p)
      {
        assert Has(m.cells, sid, p);
        var i :| 0 <= i < |m.cells| && sid in m.cells[i].seqs && m.cells[i].pos == p;
        assert sid in m'.cells[i].seqs && m'.cells[i].pos == p;
      }
    }
  }

  /** Trimming moves only lower ends, so the batch still continues the view. */
  lemma {:induction false} SlideGrow(v: View, batch: seq<Entry>, memory: int, n: nat, sid: int)
    requires n <= |batch|
    ensures At(GrowView(SlideView(v, memory), batch, n), sid).hi == At(GrowView(v, batch, n), sid).hi
  {
    if n > 0 {
      SlideGrow(v, batch, memory, n - 1, sid);
      SlideGrow(v, batch, memory, n - 1, batch[n - 1].sid);
    }
  }

  lemma {:induction false} SlideContinues(v: View, batch: seq<Entry>, memory: int)
    requires Continues(v, batch)
    ensures Continues(SlideView(v, memory), batch)
  {
    forall k | 0 <= k < |batch|
      ensures TakesNext(SlideView(v, memory), batch, k)
    {
      assert TakesNext(v, batch, k);
      SlideGrow(v, batch, memory, k, batch[k].sid);
    }
  }

  /** Storing a batch in free cells refines appending to the intervals. */
  lemma {:induction false} PlaceOne(cells: seq<Cell>, v: View, loc: int, e: Entry)
    requires Rep(cells, v) && 0 <= loc < |cells| && cells[loc].seqs == {}
    requires At(v, e.sid).lo <= At(v, e.sid).hi == e.pos
    ensures Rep(cells[loc := Cell(e.pos, {e.sid})], v[e.sid := Span(At(v, e.sid).lo, e.pos + 1)])
  {
    var cells' := cells[loc := Cell(e.pos, {e.sid})];
    var v' := v[e.sid := Span(At(v, e.sid).lo, e.pos + 1)];
    forall i, t | 0 <= i < |cells'| && t in cells'[i].seqs
      ensures At(v', t).lo <= cells'[i].pos < At(v', t).hi
      ensures i != loc && t == e.sid ==> cells'[i].pos < e.pos
    {
      if i != loc { assert At(v, t).lo <= cells[i].pos < At(v, t).hi; }
    }
    assert Distinct(cells');
    forall t, p | At(v', t).lo <= p < At(v', t).hi
      ensures Has(cells', t, p)
    {
      if t == e.sid && p == e.pos {
        assert t in cells'[loc].seqs && cells'[loc].pos == p;
      } else {
        assert Has(cells, t, p);
        var i :| 0 <= i < |cells| && t in cells[i].seqs && cells[i].pos == p;
        assert cells'[i] == cells[i];
      }
    }
  }

  lemma {:induction false} PlaceRefines(cells: seq<Cell>, v: View, batch: seq<Entry>, locs: seq<int>, n: nat)
    requires Rep(cells, v) && Continues(v, batch) && n <= |batch| <= |locs|
    requires forall k :: 0 <= k < |locs| ==> 0 <= locs[k] < |cells| && cells[locs[k]].seqs == {}
    requires forall k, l :: 0 <= k < l < |locs| ==> locs[k] < locs[l]
    requires forall sid :: sid in v ==> v[sid].lo <= v[sid].hi
    ensures Rep(Placed(cells, batch, locs, n), GrowView(v, batch, n))
  {
    if n > 0 {
      PlaceRefines(cells, v, batch, locs, n - 1);
      var c, g := Placed(cells, batch, locs, n - 1), GrowView(v, batch, n - 1);
      var loc, e := locs[n - 1], batch[n - 1];
      assert c[loc].seqs == {} by {
        PlacedAt(cells, batch, locs, n - 1);
        assert loc !in locs[..n - 1];
      }
      assert At(g, e.sid).lo <= At(g, e.sid).hi == e.pos by {
        GrowFacts(v, batch, n - 1, e.sid);
        assert TakesNext(v, batch, n - 1);
      }
      PlaceOne(c, g, loc, e);
    }
  }

  /** The sequence that a cell entry of `sid` was copied from. */
  function Origin(src: int, dst: int, sid: int): int { if sid == dst then src else sid }

  lemma {:induction false} CopiedFrom(cells: seq<Cell>, src: int, dst: int, len: int, i: nat, sid: int)
    requires i < |cells| && src != dst && sid in Copied(cells, src, dst, len)[i].seqs
    ensures Origin(src, dst, sid) in cells[i].seqs && Copied(cells, src, dst, len)[i].pos == cells[i].pos
    ensures sid == dst ==> cells[i].pos < len
  {
  }

  lemma {:induction false} CopiedHas(cells: seq<Cell>, src: int, dst: int, len: int, sid: int, p: int)
    requires src != dst && Has(cells, Origin(src, dst, sid), p) && (sid == dst ==> p < len)
    ensures Has(Copied(cells, src, dst, len), sid, p)
  {
    var from, cells' := Origin(src, dst, sid), Copied(cells, src, dst, len);
    var i :| 0 <= i < |cells| && from in cells[i].seqs && cells[i].pos == p;
    assert sid in cells'[i].seqs && cells'[i].pos == p;
  }

  /** What CopyPrefix promises: the target holds the source's positions below `len`, and
      every other sequence is untouched. */
  lemma {:induction false} CopyRefines(m: Meta, v: View, src: int, dst: int, len: int)
    requires Sound(m) && Rep(m.cells, v) && src != dst
    ensures Rep(CopiedMeta(m, src, dst, len).cells, v[dst := Cut(At(v, src), len)])
  {
    var cells' := Copied(m.cells, src, dst, len);
    var v' := v[dst := Cut(At(v, src), len)];
    forall sid, p | At(v', sid).lo <= p < At(v', sid).hi ensures Has(cells', sid, p) {
      CopiedHas(m.cells, src, dst, len, sid, p);
    }
    forall i, sid | 0 <= i < |cells'| && sid in cells'[i].seqs
      ensures At(v', sid).lo <= cells'[i].pos < At(v', sid).hi
    {
      CopiedFrom(m.cells, src, dst, len, i, sid);
      assert At(v, Origin(src, dst, sid)).lo <= m.cells[i].pos < At(v, Origin(src, dst, sid)).hi;
    }
    forall i, j, sid | 0 <= i < j < |cells'| && sid in cells'[i].seqs && sid in cells'[j].seqs
      ensures cells'[i].pos != cells'[j].pos
    {
      CopiedFrom(m.cells, src, dst, len, i, sid);
      CopiedFrom(m.cells, src, dst, len, j, sid);
    }
  }

  // ---- removal ----

  lemma {:induction false} RemoveDistinct(m: Meta, sid: int, begin: int, end: int)
    requires Sound(m) && Distinct(m.cells) && 0 <= begin <= end <= MAX_INT32
    requires !RemoveBlocked(m.cells, sid, begin, end)
    ensures Distinct(RemovedMeta(m, sid, begin, end).cells)
  {
    var cells' := RemovedMeta(m, sid, begin, end).cells;
    forall i, j, t | 0 <= i < j < |cells'| && t in cells'[i].seqs && t in cells'[j].seqs
      ensures cells'[i].pos != cells'[j].pos
    {
      assert cells'[i] == RemoveCell(m.cells[i], sid, begin, end);
      assert cells'[j] == RemoveCell(m.cells[j], sid, begin, end);
      assert t in m.cells[i].seqs && t in m.cells[j].seqs;
      assert !Blocks(m.cells[i], sid, begin, end) && !Blocks(m.cells[j], sid, begin, end);
    }
  }

  /** The position map of a sequence after a removal that gets through: positions before the
      range stay, positions after it move down by its length. */
  lemma {:induction false} RemoveMovesPositions(m: Meta, sid: int, begin: int, end: int, p: int)
    requires Sound(m) && Distinct(m.cells) && 0 <= begin <= end <= MAX_INT32
    requires !RemoveBlocked(m.cells, sid, begin, end)
    ensures Has(RemovedMeta(m, sid, begin, end).cells, sid, p) <==>
              if p < begin then Has(m.cells, sid, p)
              else end != MAX_INT32 && Has(m.cells, sid, p + (end - begin))
  {
    var cells' := RemovedMeta(m, sid, begin, end).cells;
    var q := if p < begin then p else p + (end - begin);
    assert forall i :: 0 <= i < |cells'| ==> cells'[i] == RemoveCell(m.cells[i], sid, begin, end);
    if Has(cells', sid, p) {
      var i :| 0 <= i < |cells'| && sid in cells'[i].seqs && cells'[i].pos == p;
      assert sid in m.cells[i].seqs;
      assert m.cells[i].pos == q;
    }
    if Has(m.cells, sid, q) && (p < begin || end != MAX_INT32) {
      var i :| 0 <= i < |m.cells| && sid in m.cells[i].seqs && m.cells[i].pos == q;
      assert sid in cells'[i].seqs && cells'[i].pos == p;
    }
  }

  /** Blocked or not, a removal leaves every other sequence's cells and positions alone. */
  lemma {:induction false} RemoveSparesOthers(m: Meta, sid: int, begin: int, end: int, i: int, t: int)
    requires Sound(m) && 0 <= i < |m.cells| && t != sid
    ensures t in RemovedMeta(m, sid, begin, end).cells[i].seqs <==> t in m.cells[i].seqs
    ensures t in m.cells[i].seqs ==> RemovedMeta(m, sid, begin, end).cells[i].pos == m.cells[i].pos
    ensures t in m.ranges ==> t in RemovedMeta(m, sid, begin, end).ranges
                              && RemovedMeta(m, sid, begin, end).ranges[t] == m.ranges[t]
  {
    var n := StuckAt(m.cells, sid, begin, end, 0);
    assert i < n ==> !Blocks(m.cells[i], sid, begin, end);
  }

  /** Truncation always gets through. */
  lemma {:induction false} TruncateNeverBlocked(m: Meta, sid: int, begin: int)
    requires Sound(m)
    ensures !RemoveBlocked(m.cells, sid, begin, MAX_INT32)
  {
    assert forall i :: 0 <= i < |m.cells| ==> !Blocks(m.cells[i], sid, begin, MAX_INT32);
  }

  /** A removal gets stuck exactly when another sequence shares a token behind the removed range. */
  lemma {:induction false} BlockedIff(cells: seq<Cell>, sid: int, begin: int, end: int)
    requires 0 <= begin <= end
    ensures RemoveBlocked(cells, sid, begin, end) <==>
              exists i, t :: 0 <= i < |cells| && sid in cells[i].seqs && t in cells[i].seqs
                             && t != sid && cells[i].pos >= end
  {
    var n := StuckAt(cells, sid, begin, end, 0);
    if n < |cells| {
      var t :| t in cells[n].seqs && t != sid;
      assert sid in cells[n].seqs && cells[n].pos >= end;
    }
    if i, t :| 0 <= i < |cells| && sid in cells[i].seqs && t in cells[i].seqs && t != sid && cells[i].pos >= end {
      assert Blocks(cells[i], sid, begin, end);
    }
  }

  lemma {:induction false} RemoveRefines(m: Meta, v: View, sid: int, begin: int, end: int)
    requires Sound(m) && Rep(m.cells, v) && 0 <= begin <= end <= MAX_INT32
    requires !RemoveBlocked(m.cells, sid, begin, end)
    requires 0 <= At(v, sid).lo <= At(v, sid).hi <= MAX_INT32
    ensures Rep(RemovedMeta(m, sid, begin, end).cells, v[sid := Close(At(v, sid), begin, end)])
  {
    var cells' := RemovedMeta(m, sid, begin, end).cells;
    var v' := v[sid := Close(At(v, sid), begin, end)];
    assert forall i :: 0 <= i < |cells'| ==> cells'[i] == RemoveCell(m.cells[i], sid, begin, end);
    forall t, p | At(v', t).lo <= p < At(v', t).hi
      ensures Has(cells', t, p)
    {
      if t == sid {
        RemoveMovesPositions(m, sid, begin, end, p);
      } else {
        assert Has(m.cells, t, p);
        var i :| 0 <= i < |m.cells| && t in m.cells[i].seqs && m.cells[i].pos == p;
        RemoveSparesOthers(m, sid, begin, end, i, t);
        assert t in cells'[i].seqs;
      }
    }
    forall i, t | 0 <= i < |cells'| && t in cells'[i].seqs
      ensures At(v', t).lo <= cells'[i].pos < At(v', t).hi
    {
      assert cells'[i] == RemoveCell(m.cells[i], sid, begin, end);
      assert t in m.cells[i].seqs && At(v, t).lo <= m.cells[i].pos < At(v, t).hi;
      if t != sid { RemoveSparesOthers(m, sid, begin, end, i, t); }
    }
    RemoveDistinct(m, sid, begin, end);
  }

  /** Clearing a sequence after a failed removal wipes whatever was left of it. */
  lemma {:induction false} ClearRefines(m: Meta, v: View, sid: int, begin: int, end: int)
    requires Sound(m) && Rep(m.cells, v) && 0 <= begin <= end <= MAX_INT32
    ensures Rep(RemovedMeta(RemovedMeta(m, sid, begin, end), sid, 0, MAX_INT32).cells, v[sid := NOTHING])
  {
    var m1 := RemovedMeta(m, sid, begin, end);
    RemovedSound(m, sid, begin, end);
    TruncateNeverBlocked(m1, sid, 0);
    var m2 := RemovedMeta(m1, sid, 0, MAX_INT32);
    var v' := v[sid := NOTHING];
    forall i, t | 0 <= i < |m.cells|
      ensures t in m2.cells[i].seqs <==> t != sid && t in m.cells[i].seqs
      ensures t != sid && t in m.cells[i].seqs ==> m2.cells[i].pos == m.cells[i].pos
    {
      if t != sid {
        RemoveSparesOthers(m, sid, begin, end, i, t);
        RemoveSparesOthers(m1, sid, 0, MAX_INT32, i, t);
      } else {
        assert m2.cells[i] == RemoveCell(m1.cells[i], sid, 0, MAX_INT32);
      }
    }
    forall i, t | 0 <= i < |m2.cells| && t in m2.cells[i].seqs
      ensures At(v', t).lo <= m2.cells[i].pos < At(v', t).hi
    {
      assert t != sid && t in m.cells[i].seqs;
      assert At(v', t) == At(v, t) && At(v, t).lo <= m.cells[i].pos < At(v, t).hi;
    }
    assert Distinct(m2.cells);
    forall t, p | At(v', t).lo <= p < At(v', t).hi
      ensures Has(m2.cells, t, p)
    {
      assert Has(m.cells, t, p);
      var i :| 0 <= i < |m.cells| && t in m.cells[i].seqs && m.cells[i].pos == p;
      assert t in m2.cells[i].seqs && m2.cells[i].pos == p;
    }
  }
}
