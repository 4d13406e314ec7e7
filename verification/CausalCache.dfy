/** The causal KV cache as the object it is: cells, ranges and rows updated in place. Every method is
    proved against the value-level operations of CacheCells, and the calls a runner makes keep the
    object in step with its plain view, its mask rows exact and its keys at their positions. */
module CausalCache {
  import opened Wrappers
  import opened CacheCells
  import opened CausalRanges
  import opened CausalRuns
  import opened CausalSlide
  import opened CausalView
  import opened KeyRows
  import opened KeyRuns

  datatype RemoveResult = Removed | Shared | ShiftFailed

  class Causal {
    const cfg: Config
    const canShift: bool
    const cells: array<Cell>
    var cellRanges: map<int, Range>

    // current forward pass
    var curBatch: seq<Entry>
    var curLoc: seq<int>
    var curCellRange: Range
    var curMask: seq<bool>
    var except: seq<int>
    var curLayer: int

    // storage, one row per cell and layer
    var keys: map<int, seq<KeyRow>>
    var values: map<int, seq<int>>

    ghost function M(): Meta
      reads `cellRanges, cells
    {
      Meta(cells[..], cellRanges)
    }

    ghost predicate Valid()
      reads `cellRanges, `keys, `values, cells
    {
      && ValidConfig(cfg) && cells.Length == cfg.size <= MAX_INT
      && Sound(M())
      && (forall l :: l in keys ==> |keys[l]| == cells.Length)
      && (forall l :: l in values ==> |values[l]| == cells.Length)
    }

    /** The current range lies inside the cells and is aligned to the padding. */
    ghost predicate RangeAligned()
      reads `curCellRange
    {
      && cfg.padding > 0 && 0 <= curCellRange.min <= curCellRange.max + 1 <= cells.Length
      && curCellRange.min % cfg.padding == 0 && (curCellRange.max + 1) % cfg.padding == 0
    }

    ghost predicate BatchOk()
      reads `curBatch
    {
      forall e :: e in curBatch ==> 0 <= e.pos < MAX_INT32
    }

    /** The mask in place is the one defined by the cells, the range and the exceptions. */
    ghost predicate MaskBuilt()
      reads `curCellRange, `curBatch, `except, `curMask, cells
    {
      && RangeAligned() && BatchOk()
      && curMask == MaskOf(cells[..], curCellRange, curBatch, except, cfg.chunk, cfg.window)
    }

    /** One location for each token of the batch. */
    ghost predicate LocsOk()
      reads `curLoc, `curBatch
    {
      && |curLoc| == |curBatch|
      && (forall k :: 0 <= k < |curLoc| ==> 0 <= curLoc[k] < cells.Length)
      && (forall k, l :: 0 <= k < l < |curLoc| ==> curLoc[k] < curLoc[l])
    }

    /** A new cache, initialized with sizes that Init accepted. */
    constructor (cfg: Config, canShift: bool)
      requires ValidConfig(cfg) && cfg.size <= MAX_INT
      ensures Valid() && this.cfg == cfg && this.canShift == canShift && fresh(cells)
      ensures M() == EmptyMeta(cfg.size) && keys == map[] && values == map[]
    {
      this.cfg, this.canShift := cfg, canShift;
      cells := new Cell[cfg.size](_ => Cell(0, {}));
      cellRanges, curCellRange := map[], Range(0, 0);
      curBatch, curLoc, curMask, except, curLayer := [], [], [], [], 0;
      keys, values := map[], map[];
      new;
      assert cells[..] == EmptyMeta(cfg.size).cells;
    }

    /** Places for a batch of `n` tokens: the first unused cells, or nothing if there are too few. */
    method FindLocs(n: nat) returns (r: Option<seq<int>>)
      ensures r.Some? ==> FirstFree(cells[..], n, r.value)
      ensures r.None? ==> |Free(cells[..])| < Max(n, 1)
    {
      var loc: seq<int> := [];
      for i := 0 to cells.Length
        invariant loc == FreeBelow(cells[..], i) && |loc| < Max(n, 1)
      {
        if cells[i].seqs == {} {
          loc := loc + [i];
          if |loc| >= n {
            CollectedIsFirst(cells[..], n, i + 1);
            return Some(loc);
          }
        }
      }
      FreeBelowCard(cells[..], cells.Length);
      assert Free(cells[..]) == FreeSet(cells[..], cells.Length);
      return None;
    }

    /** Forget what `sid` no longer needs, retighten its range, and grow the current range by
        what the batch still needs of it. */
    method EvictSequence(sid: int, low: int, inBatch: bool)
      requires cells.Length <= MAX_INT && sid in cellRanges && RangeOk(cellRanges[sid], cells.Length)
      requires forall i :: 0 <= i < cells.Length && sid in cells[i].seqs ==>
                 cellRanges[sid].min <= i <= cellRanges[sid].max
      modifies cells, `cellRanges, `curCellRange
      ensures cells[..] == Dropped(old(cells[..]), sid, low - cfg.memory)
      ensures cellRanges == old(cellRanges)[sid := Tight(cells[..], sid)]
      ensures curCellRange == ExtendAll(old(cells[..]), sid, low - cfg.window, inBatch, cells.Length, old(curCellRange))
    {
      ghost var was := cells[..];
      var range := EMPTY_RANGE;
      var oldRange := cellRanges[sid];
      ghost var lo := if oldRange.min <= oldRange.max then oldRange.min else 0;
      ghost var hi := if oldRange.min <= oldRange.max then oldRange.max + 1 else 0;
      ghost var end, ranges, curs := EvictPlan(was, sid, low, cfg.memory, cfg.window, inBatch, curCellRange, lo, hi);
      ghost var k := lo;
      var i := oldRange.min;
      while i <= oldRange.max
        invariant cellRanges == old(cellRanges)
        invariant lo <= k <= hi && (i <= oldRange.max ==> k == i) && (i > oldRange.max ==> k == hi)
        invariant forall j :: 0 <= j < k ==> cells[j] == end[j]
        invariant forall j :: k <= j < cells.Length ==> cells[j] == was[j]
        invariant range == ranges[k] && curCellRange == curs[k]
      {
        if sid in cells[i].seqs {
          if cells[i].pos < low - cfg.memory {
            cells[i] := Cell(cells[i].pos, cells[i].seqs - {sid});
          } else {
            range := Extend(range, i);
          }
          if inBatch && cells[i].pos >= low - cfg.window {
            curCellRange := Extend(curCellRange, i);
          }
        }
        i, k := i + 1, k + 1;
      }
      assert cells[..] == end;
      cellRanges := cellRanges[sid := range];
    }

    /** The lowest position of every sequence of the batch. */
    method BatchLowest() returns (lowest: map<int, Lowest>)
      ensures forall sid :: sid in lowest <==> InBatch(curBatch, sid)
      ensures forall sid :: sid in lowest ==> lowest[sid].curBatch && IsBatchMin(curBatch, sid, lowest[sid].pos)
    {
      lowest := map[];
      for i := 0 to |curBatch|
        invariant forall sid :: sid in lowest <==> exists k :: 0 <= k < i && curBatch[k].sid == sid
        invariant forall sid :: sid in lowest ==>
                    lowest[sid].curBatch
                    && (exists k :: 0 <= k < i && curBatch[k] == Entry(sid, lowest[sid].pos))
                    && forall k :: 0 <= k < i && curBatch[k].sid == sid ==> lowest[sid].pos <= curBatch[k].pos
      {
        var e := curBatch[i];
        if e.sid !in lowest {
          lowest := lowest[e.sid := Lowest(e.pos, true)];
        } else if e.pos < lowest[e.sid].pos {
          lowest := lowest[e.sid := Lowest(e.pos, lowest[e.sid].curBatch)];
        }
      }
    }

    /** The newest position stored for `sid`, or 0. */
    method LastPosition(sid: int) returns (last: int)
      requires sid in cellRanges && RangeOk(cellRanges[sid], cells.Length)
      requires forall i :: 0 <= i < cells.Length && sid in cells[i].seqs ==>
                 cellRanges[sid].min <= i <= cellRanges[sid].max
      ensures IsLast(cells[..], sid, last)
    {
      last := 0;
      var r := cellRanges[sid];
      var i := r.min;
      while i <= r.max
        invariant 0 <= last && (last == 0 || Has(cells[..], sid, last))
        invariant r.min <= i && forall j :: 0 <= j < cells.Length && j < i && sid in cells[j].seqs ==>
            cells[j].pos <= last
      {
        if sid in cells[i].seqs && cells[i].pos > last {
          last := cells[i].pos;
          assert cells[..][i].pos == last;
        }
        i := i + 1;
      }
    }

    /** Lowest positions also for the sequences that the batch does not evaluate. */
    method AllLowest() returns (lowest: map<int, Lowest>)
      requires Valid()
      ensures LowestOk(M(), curBatch, lowest)
    {
      lowest := BatchLowest();
      var todo := cellRanges.Keys;
      while todo != {}
        invariant todo <= cellRanges.Keys
        invariant forall sid :: sid in cellRanges && sid !in todo ==> sid in lowest
        invariant forall sid :: sid in lowest ==> IsLowest(cells[..], curBatch, sid, lowest[sid].pos)
        invariant forall sid :: sid in lowest ==> (lowest[sid].curBatch <==> InBatch(curBatch, sid))
        invariant forall sid :: InBatch(curBatch, sid) ==> sid in lowest
      {
        ghost var x := Pick(todo);
        var sid :| sid in todo;
        todo := todo - {sid};
        if sid !in lowest {
          var last := LastPosition(sid);
          lowest := lowest[sid := Lowest(last + 1, false)];
        }
      }
    }

    /** Without a sliding window the batch looks at everything its sequences span. */
    method SpanRanges()
      requires Valid() && curCellRange == EMPTY_RANGE
      modifies `curCellRange
      ensures Bounds(curCellRange, InRanges(M(), curBatch, |curBatch|))
    {
      ghost var m := M();
      assert InRanges(m, curBatch, 0) == {};
      for i := 0 to |curBatch|
        invariant Bounds(curCellRange, InRanges(m, curBatch, i))
      {
        RangesStep(m, curBatch, i, curCellRange);
        if curBatch[i].sid in cellRanges {
          var r := cellRanges[curBatch[i].sid];
          curCellRange := Range(Min(curCellRange.min, r.min), Max(curCellRange.max, r.max));
        }
      }
    }

    /** One round of the eviction loop that started from the metadata `m`. */
    method EvictNext(sid: int, lowest: map<int, Lowest>, ghost m: Meta, ghost done: set<int>)
      requires Sound(M()) && RangesCover(m.cells, m.ranges) && sid in lowest && sid !in done
      requires SlideInv(m, lowest, done, cfg.memory, cfg.window, M(), curCellRange)
      modifies cells, `cellRanges, `curCellRange
      ensures Sound(M())
      ensures SlideInv(m, lowest, done + {sid}, cfg.memory, cfg.window, M(), curCellRange)
    {
      ghost var now, cur := M(), curCellRange;
      if sid in cellRanges {
        EvictSequence(sid, lowest[sid].pos, lowest[sid].curBatch);
        RoundKeeps(m, lowest, done, sid, cfg.memory, cfg.window, now, cur, M(), curCellRange);
      } else {
        SlideNone(m, lowest, done, sid, cfg.memory, cfg.window, now, cur);
      }
    }

    /** Evict, sequence by sequence, what lies beyond the memory. */
    method EvictAll(lowest: map<int, Lowest>)
      requires Sound(M()) && curCellRange == EMPTY_RANGE
      modifies cells, `cellRanges, `curCellRange
      ensures SlideInv(old(M()), lowest, lowest.Keys, cfg.memory, cfg.window, M(), curCellRange)
    {
      ghost var m := M();
      ghost var done := {};
      var todo := lowest.Keys;
      SlideStart(m, lowest, cfg.memory, cfg.window);
      while todo != {}
        invariant todo <= lowest.Keys && done == lowest.Keys - todo && Sound(M())
        invariant SlideInv(m, lowest, done, cfg.memory, cfg.window, M(), curCellRange)
      {
        ghost var x := Pick(todo);
        var sid :| sid in todo;
        EvictNext(sid, lowest, m, done);
        todo, done := todo - {sid}, done + {sid};
      }
      assert done == lowest.Keys;
    }

    /** Slide every window and compute which locations the batch has to look at. */
    method UpdateSlidingWindow()
      requires Valid()
      modifies cells, `cellRanges, `curCellRange
      ensures Valid()
      ensures M() == SlidMeta(old(M()), curBatch, cfg.memory)
      ensures Bounds(curCellRange, Touched(old(M()), curBatch, cfg.window, cfg.memory))
    {
      SlidSound(M(), curBatch, cfg.memory);
      curCellRange := EMPTY_RANGE;
      if cfg.memory == MAX_INT32 {
        SpanRanges();
        assert curBatch[..|curBatch|] == curBatch;
        assert InRanges(M(), curBatch, |curBatch|) == Touched(M(), curBatch, cfg.window, cfg.memory);
      } else {
        var lowest := AllLowest();
        ghost var m := M();
        EvictAll(lowest);
        SlideEnd(m, curBatch, lowest, cfg.memory, cfg.window, M(), curCellRange);
      }
    }

    /** Write the batch's metadata to its locations. */
    method Place(locs: seq<int>, ghost S: set<int>)
      requires cells.Length <= MAX_INT && |locs| == |curBatch|
      requires forall k :: 0 <= k < |locs| ==> 0 <= locs[k] < cells.Length
      requires Bounds(curCellRange, S) && forall x :: x in S ==> 0 <= x
      modifies cells, `cellRanges, `curCellRange
      ensures M() == PlacedMeta(old(M()), curBatch, locs)
      ensures Bounds(curCellRange, S + Locs(locs))
    {
      ghost var cs := CellPlan(cells[..], curBatch, locs);
      ghost var rs := RangePlan(cellRanges, curBatch, locs);
      ghost var curs := CurPlan(curCellRange, locs, S);
      for i := 0 to |locs|
        invariant cells[..] == cs[i] && cellRanges == rs[i] && curCellRange == curs[i]
      {
        var sid, loc := curBatch[i].sid, locs[i];
        cells[loc] := Cell(curBatch[i].pos, {sid});
        var r := if sid in cellRanges then cellRanges[sid] else EMPTY_RANGE;
        cellRanges := cellRanges[sid := Extend(r, loc)];
        curCellRange := Extend(curCellRange, loc);
      }
    }

    /** The mask over the current range, row by row. */
    method MaskTable() returns (table: seq<bool>)
      requires BatchOk() && 0 <= curCellRange.min <= curCellRange.max + 1 <= cells.Length
      ensures table == MaskOf(cells[..], curCellRange, curBatch, except, cfg.chunk, cfg.window)
    {
      var length := curCellRange.max - curCellRange.min + 1;
      MulStep(0, |curBatch|, length);
      ghost var parts := MaskPlan(cells[..], curCellRange, curBatch, except, cfg.chunk, cfg.window);
      var mask := new bool[|curBatch| * length](_ => false);
      var base := 0;
      for i := 0 to |curBatch|
        invariant base == |parts[i]| <= mask.Length && mask[..base] == parts[i]
        invariant forall k :: base <= k < mask.Length ==> !mask[k]
      {
        FillMaskRow(mask, base, i);
        base := base + length;
      }
      return mask[..];
    }

    /** Pad the current range and lay out the mask over it. */
    method BuildMask()
      requires cfg.padding > 0 && cells.Length % cfg.padding == 0 && BatchOk()
      requires 0 <= curCellRange.min <= curCellRange.max + 1 <= cells.Length
      modifies `curCellRange, `curMask
      ensures MaskBuilt()
      ensures curCellRange == Padded(old(curCellRange), cfg.padding)
      ensures curCellRange.min <= old(curCellRange).min < curCellRange.min + cfg.padding
      ensures old(curCellRange).max <= curCellRange.max < old(curCellRange).max + cfg.padding
    {
      PaddedInside(curCellRange, cfg.padding, cells.Length);
      curCellRange := Range(RoundDown(curCellRange.min, cfg.padding), RoundUp(curCellRange.max + 1, cfg.padding) - 1);
      curMask := MaskTable();
    }

    /** The inner loop: hide from token `i` what it must not see. */
    method FillMaskRow(mask: array<bool>, base: nat, i: nat)
      requires i < |curBatch| && 0 <= curBatch[i].pos
      requires 0 <= curCellRange.min <= curCellRange.max + 1 <= cells.Length
      requires base + Length(curCellRange) <= mask.Length
      requires forall k :: base <= k < mask.Length ==> !mask[k]
      modifies mask
      ensures mask[..base + Length(curCellRange)]
           == old(mask[..base]) + MaskRow(cells[..], curCellRange, curBatch[i], i !in except, cfg.chunk, cfg.window)
      ensures forall k :: base + Length(curCellRange) <= k < mask.Length ==> !mask[k]
    {
      var enabled := i !in except;
      ghost var row := MaskRow(cells[..], curCellRange, curBatch[i], enabled, cfg.chunk, cfg.window);
      for j := curCellRange.min to curCellRange.max + 1
        invariant mask[..base] == old(mask[..base])
        invariant forall k :: base <= k < base + j - curCellRange.min ==> mask[k] == row[k - base]
        invariant forall k :: base + j - curCellRange.min <= k < mask.Length ==> !mask[k]
      {
        assert row[j - curCellRange.min] == Masked(cells[j], curBatch[i], enabled, cfg.chunk, cfg.window);
        if curBatch[i].sid !in cells[j].seqs
          || (enabled && cells[j].pos > curBatch[i].pos)
          || (cfg.chunk > 0 && cells[j].pos < curBatch[i].pos - curBatch[i].pos % cfg.chunk)
          || cells[j].pos < curBatch[i].pos - cfg.window
        {
          mask[base + (j - curCellRange.min)] := true;
        }
      }
      ghost var n := Length(curCellRange);
      assert mask[base..base + n] == row;
      assert mask[..base + n] == mask[..base] + mask[base..base + n];
    }

    /** Slide the windows and look for unused cells. */
    method MakeRoom() returns (ok: bool)
      requires Valid() && curBatch != []
      modifies cells, `cellRanges, `curCellRange, `curLoc
      ensures Valid() && M() == SlidMeta(old(M()), curBatch, cfg.memory)
      ensures ok <==> |Free(cells[..])| >= |curBatch|
      ensures ok ==> FirstFree(cells[..], |curBatch|, curLoc) && LocsOk()
      ensures Bounds(curCellRange, Touched(old(M()), curBatch, cfg.window, cfg.memory))
    {
      UpdateSlidingWindow();
      var locs := FindLocs(|curBatch|);
      ok := locs.Some?;
      if ok {
        curLoc := locs.value;
        FirstFreeCard(cells[..], |curBatch|, curLoc);
      }
    }

    /** Store the batch at the locations found for it. */
    method PlaceBatch(ghost m: Meta)
      requires Valid() && BatchOk() && LocsOk() && curBatch != [] && |m.cells| <= MAX_INT
      requires FirstFree(cells[..], |curBatch|, curLoc) && M() == SlidMeta(m, curBatch, cfg.memory)
      requires Bounds(curCellRange, Touched(m, curBatch, cfg.window, cfg.memory))
      requires |Free(cells[..])| >= |curBatch| && |m.cells| == cells.Length
      modifies cells, `cellRanges, `curCellRange
      ensures Valid() && Outcome(cfg, m, curBatch, true, M(), curLoc)
      ensures Spans(cfg, m, curBatch, curLoc, curCellRange)
      ensures 0 <= curCellRange.min <= curCellRange.max < cells.Length
    {
      ghost var T := Touched(m, curBatch, cfg.window, cfg.memory);
      PlacedSound(M(), curBatch, curLoc, |curBatch|);
      Place(curLoc, T);
      assert curLoc[0] in T + Locs(curLoc);
      BoundsInside(curCellRange, T + Locs(curLoc), curLoc[0], cells.Length);
      BoundsSpan(cfg, m, curBatch, curLoc, curCellRange, T + Locs(curLoc));
    }

    /** Slide the windows, find room for the batch, and store its metadata. */
    method StoreBatch() returns (ok: bool)
      requires Valid() && BatchOk() && curBatch != []
      modifies cells, `cellRanges, `curCellRange, `curLoc
      ensures Valid() && Outcome(cfg, old(M()), curBatch, ok, M(), curLoc)
      ensures ok ==> LocsOk() && Spans(cfg, old(M()), curBatch, curLoc, curCellRange)
      ensures ok ==> 0 <= curCellRange.min <= curCellRange.max < cells.Length
    {
      ghost var m := M();
      ok := MakeRoom();
      if ok { PlaceBatch(m); }
    }

    /** Begin a forward pass. Unless it only reserves memory, the windows slide, the batch is
        stored in the first unused cells, and the mask is built over the range it looks at. */
    method StartForward(batch: seq<Entry>, reserve: bool) returns (ok: bool)
      requires Valid() && batch != [] && forall e :: e in batch ==> 0 <= e.pos < MAX_INT32
      modifies cells, `cellRanges, `curBatch, `curLoc, `curCellRange, `curMask, `except
      ensures Valid() && curBatch == batch && except == []
      ensures reserve ==> ok && M() == old(M()) && curCellRange == Range(0, cells.Length - 1)
      ensures !reserve ==> Outcome(cfg, old(M()), batch, ok, M(), curLoc)
      ensures !reserve && ok ==> LocsOk() && Spans(cfg, old(M()), batch, curLoc, curCellRange)
      ensures ok ==> MaskBuilt()
    {
      curBatch, except := batch, [];
      ok := FindRange(reserve);
      if ok {
        BuildMask();
      }
    }

    /** The locations of the batch and the range it looks at. */
    method FindRange(reserve: bool) returns (ok: bool)
      requires Valid() && BatchOk() && curBatch != []
      modifies cells, `cellRanges, `curLoc, `curCellRange
      ensures Valid() && (ok ==> 0 <= curCellRange.min <= curCellRange.max + 1 <= cells.Length)
      ensures reserve ==> ok && M() == old(M())
      ensures reserve ==> curCellRange == Range(0, cells.Length - 1) == Padded(curCellRange, cfg.padding)
      ensures !reserve ==> Outcome(cfg, old(M()), curBatch, ok, M(), curLoc)
      ensures !reserve && ok ==> LocsOk() && Spans(cfg, old(M()), curBatch, curLoc, curCellRange)
    {
      if reserve {
        ReserveRange();
        ok := true;
      } else {
        ok := StoreBatch();
      }
    }

    /** Without storing anything, pretend that the batch needs every cell. */
    method ReserveRange()
      requires Valid()
      modifies `curLoc, `curCellRange
      ensures curCellRange == Range(0, cells.Length - 1) == Padded(curCellRange, cfg.padding)
      ensures curLoc == seq(|curBatch|, i => i)
    {
      curLoc := seq(|curBatch|, i => i);
      curCellRange := Range(0, cells.Length - 1);
      AlignedAlready(0, cfg.padding);
      AlignedAlready(cells.Length, cfg.padding);
    }

    /** Lift causality for some tokens of the current batch; the range the mask covers stays. */
    method SetCausal(exceptions: seq<int>, rebuild: bool)
      requires Valid() && MaskBuilt()
      modifies `except, `curMask, `curCellRange
      ensures except == exceptions && curCellRange == old(curCellRange)
      ensures rebuild || exceptions == old(except) ==> MaskBuilt()
      ensures !rebuild ==> curMask == old(curMask)
    {
      if except != exceptions {
        except := exceptions;
        if rebuild {
          AlignedAlready(curCellRange.min, cfg.padding);
          AlignedAlready(curCellRange.max + 1, cfg.padding);
          BuildMask();
        }
      }
    }

    /** One pass over the cells: `dst` leaves those it had and joins those of the prefix. */
    method CopyCells(src: int, dst: int, len: int) returns (range: Range)
      requires cells.Length <= MAX_INT
      modifies cells
      ensures cells[..] == Copied(old(cells[..]), src, dst, len) && range == Tight(cells[..], dst)
    {
      ghost var was := cells[..];
      ghost var end := Copied(was, src, dst, len);
      ghost var ranges := TightPlan(end, dst);
      range := EMPTY_RANGE;
      for i := 0 to cells.Length
        invariant range == ranges[i]
        invariant forall j :: 0 <= j < i ==> cells[j] == end[j]
        invariant forall j :: i <= j < cells.Length ==> cells[j] == was[j]
      {
        if dst in cells[i].seqs {
          cells[i] := Cell(cells[i].pos, cells[i].seqs - {dst});
        }
        assert cells[i].seqs == was[i].seqs - {dst};
        if src in cells[i].seqs && cells[i].pos < len {
          cells[i] := Cell(cells[i].pos, cells[i].seqs + {dst});
          range := Extend(range, i);
        }
        assert cells[i] == CopyCell(was[i], src, dst, len);
      }
      assert cells[..] == end;
    }

    /** Let `dst` share the cells of `src` below position `len`, instead of whatever it had. */
    method CopyPrefix(src: int, dst: int, len: int)
      requires Valid()
      modifies cells, `cellRanges
      ensures Valid()
      ensures M() == CopiedMeta(old(M()), src, dst, len)
    {
      CopiedSound(M(), src, dst, len);
      var range := CopyCells(src, dst, len);
      cellRanges := cellRanges[dst := range];
    }

    /** Whether the window of a token at `pos` is still stored for `sid`. */
    method CanResume(sid: int, pos: int) returns (r: bool)
      requires Valid()
      ensures r <==> CanResumeCells(cfg, cells[..], sid, pos)
    {
      if cfg.memory == MAX_INT32 {
        return true;
      }
      if sid !in cellRanges {
        return false;
      }
      var range := cellRanges[sid];
      var first, last := MAX_INT32, -1;
      var i := range.min;
      while i <= range.max
        invariant range.min <= i
        invariant if last == -1 then first == MAX_INT32 else Has(cells[..], sid, first) && Has(cells[..], sid, last)
        invariant forall j :: 0 <= j < cells.Length && j < i && sid in cells[j].seqs ==>
                    first <= cells[j].pos <= last && 0 <= last
      {
        if sid in cells[i].seqs {
          assert 0 <= cells[..][i].pos < MAX_INT32;
          first := Min(first, cells[i].pos);
          last := Max(last, cells[i].pos);
          assert Has(cells[..], sid, cells[i].pos);
        }
        i := i + 1;
      }
      assert forall p :: Has(cells[..], sid, p) ==> first <= p <= last && 0 <= last;
      if last == -1 {
        return false;
      }
      var windowStart := Max(0, pos - cfg.window);
      return windowStart >= first && pos <= last + 1;
    }

    method SetLayer(layer: int)
      modifies `curLayer
      ensures curLayer == layer
    {
      curLayer := layer;
    }

    /** Store the keys and values of the current batch in the current layer: the location of each token
        gets its value and its key, rotated to the position of the token, and no other row changes. */
    method Put(contents: seq<int>, vals: seq<int>)
      requires Valid() && LocsOk() && |contents| == |vals| == |curBatch|
      modifies `keys, `values
      ensures Valid() && keys.Keys == old(keys).Keys + {curLayer} && values.Keys == old(values).Keys + {curLayer}
      ensures keys[curLayer] == RowsSet(LayerRows(old(keys), curLayer, cells.Length, ZERO_ROW),
                                        curLoc, RotatedKeys(curBatch, contents), |curBatch|)
      ensures forall k :: 0 <= k < |curBatch| ==>
                keys[curLayer][curLoc[k]] == KeyRow(contents[k], curBatch[k].pos)
                && values[curLayer][curLoc[k]] == vals[k]
      ensures forall i :: 0 <= i < cells.Length && i !in curLoc ==>
                keys[curLayer][i] == (if curLayer in old(keys) then old(keys)[curLayer][i] else ZERO_ROW)
                && values[curLayer][i] == if curLayer in old(values) then old(values)[curLayer][i] else 0
      ensures forall l :: l in old(keys) && l != curLayer ==> keys[l] == old(keys)[l]
      ensures forall l :: l in old(values) && l != curLayer ==> values[l] == old(values)[l]
    {
      var keyRows := LayerRows(keys, curLayer, cells.Length, ZERO_ROW);
      var valueRows := LayerRows(values, curLayer, cells.Length, 0);
      keys := keys[curLayer := RowsSet(keyRows, curLoc, RotatedKeys(curBatch, contents), |curBatch|)];
      values := values[curLayer := RowsSet(valueRows, curLoc, vals, |curBatch|)];
      RowsSetAt(keyRows, curLoc, RotatedKeys(curBatch, contents), |curBatch|);
      RowsSetAt(valueRows, curLoc, vals, |curBatch|);
      assert curLoc[..|curBatch|] == curLoc;
    }

    /** The offsets for one tile of cells, and the first and last of them that are set. */
    method TileOffsets(sid: int, begin: int, amount: int, start: nat, size: nat)
      returns (offsets: seq<int>, first: int, last: int)
      requires start + size <= cells.Length
      ensures |offsets| == size && first < size && (first >= 0 ==> first <= last < size)
      ensures forall i :: start <= i < start + size ==>
                offsets[i - start] == if Moved(cells[i], sid, begin) then amount else 0
      ensures forall i :: start <= i < start + size && Moved(cells[i], sid, begin) ==>
                0 <= first <= i - start <= last
    {
      offsets, first, last := [], -1, 0;
      for i := 0 to size
        invariant |offsets| == i && first < i && (first >= 0 ==> first <= last < i)
        invariant forall k :: start <= k < start + i ==>
                    offsets[k - start] == if Moved(cells[k], sid, begin) then amount else 0
        invariant forall k :: start <= k < start + i && Moved(cells[k], sid, begin) ==> 0 <= first <= k - start <= last
      {
        var c := cells[start + i];
        if sid in c.seqs && c.pos >= begin {
          offsets := offsets + [amount];
          if first < 0 {
            first := i;
          }
          last := i;
        } else {
          offsets := offsets + [0];
        }
      }
    }

    /** Rotate one tile of every layer's keys. The backend may fail at any layer while the rotations
        are being prepared; only when all of them are prepared are they computed. */
    method RotateTile(at: nat, offsets: seq<int>) returns (ok: bool)
      requires Valid()
      modifies `keys
      ensures keys.Keys == old(keys).Keys
      ensures ok ==> forall l :: l in keys ==> keys[l] == RotateView(old(keys)[l], at, offsets)
      ensures !ok ==> keys == old(keys)
    {
      var todo, prepared := keys.Keys, keys;
      while todo != {}
        invariant keys == old(keys) && todo <= keys.Keys == prepared.Keys
        invariant forall l :: l in keys ==>
                    prepared[l] == if l in todo then keys[l] else RotateView(keys[l], at, offsets)
      {
        ghost var x := Pick(todo);
        var layer :| layer in todo;
        var failed: bool := *;
        if failed {
          return false;
        }
        prepared := prepared[layer := RotateView(prepared[layer], at, offsets)];
        todo := todo - {layer};
      }
      keys := prepared;
      return true;
    }

    /** One round of the shift: the cells from `start` on, at most a batch of them. */
    method ShiftTile(sid: int, begin: int, amount: int, start: nat, size: nat, ghost before: map<int, seq<KeyRow>>)
      returns (ok: bool)
      requires Valid() && start + size <= cells.Length && forall l :: l in before ==> |before[l]| == cells.Length
      requires AllRotated(before, keys, cells[..], sid, begin, amount, start)
      modifies `keys
      ensures AllRotated(before, keys, cells[..], sid, begin, amount, if ok then start + size else start)
    {
      ghost var cs := cells[..];
      var offsets, first, last := TileOffsets(sid, begin, amount, start, size);
      if first < 0 {
        AllSkip(before, keys, cs, sid, begin, amount, start, start + size);
        return true;
      }
      ghost var was := keys;
      ok := RotateTile(start + first, offsets[first..last + 1]);
      if ok {
        AllTile(before, was, keys, cs, sid, begin, amount, start, offsets, first, last);
      }
    }

    /** Rotate the keys of the cells of `sid` from position `begin` on, tile by tile. When it fails, all
        layers have been rotated up to the same tile. */
    method Shift(sid: int, begin: int, amount: int) returns (ok: bool, ghost upTo: int)
      requires Valid() && cfg.maxBatch > 0 && sid in cellRanges && cellRanges[sid] != EMPTY_RANGE
      modifies `keys
      ensures Valid() && keys.Keys == old(keys).Keys
      ensures AllRotated(old(keys), keys, cells[..], sid, begin, amount, upTo) && (ok ==> upTo == cells.Length)
      ensures !canShift ==> !ok && keys == old(keys)
    {
      if !canShift {
        AllSame(keys, cells[..], sid, begin, amount);
        return false, 0;
      }
      ghost var cs, before := cells[..], keys;
      var range := cellRanges[sid];
      var start := range.min;
      AllSame(keys, cs, sid, begin, amount);
      AllSkip(before, keys, cs, sid, begin, amount, 0, start);
      while start <= range.max
        invariant 0 <= start && AllRotated(before, keys, cs, sid, begin, amount, start)
        decreases range.max - start
      {
        var size := Min(range.max - start + 1, cfg.maxBatch);
        ok := ShiftTile(sid, begin, amount, start, size, before);
        if !ok {
          return false, start;
        }
        AllSkip(before, keys, cs, sid, begin, amount, start + size, start + cfg.maxBatch);
        start := start + cfg.maxBatch;
      }
      AllSkip(before, keys, cs, sid, begin, amount, start, cells.Length);
      return true, cells.Length;
    }

    /** The metadata pass of a removal. It stops at the first token behind the removed range
        that another sequence shares. */
    method RemoveCells(sid: int, begin: int, end: int) returns (stuck: bool, range: Range)
      requires cells.Length <= MAX_INT
      modifies cells
      ensures stuck <==> RemoveBlocked(old(cells[..]), sid, begin, end)
      ensures cells[..] == RemovedUpTo(old(cells[..]), sid, begin, end, StuckAt(old(cells[..]), sid, begin, end, 0))
      ensures !stuck ==> range == Tight(cells[..], sid)
    {
      ghost var was := cells[..];
      ghost var n := StuckAt(was, sid, begin, end, 0);
      ghost var final := RemovedUpTo(was, sid, begin, end, n);
      ghost var ranges := TightPlan(final, sid);
      range := EMPTY_RANGE;
      for i := 0 to cells.Length
        invariant i <= n && range == ranges[i]
        invariant forall j :: 0 <= j < i ==> cells[j] == final[j]
        invariant forall j :: i <= j < cells.Length ==> cells[j] == was[j]
      {
        if sid in cells[i].seqs {
          if begin <= cells[i].pos < end {
            cells[i] := Cell(cells[i].pos, cells[i].seqs - {sid});
          } else {
            if cells[i].pos >= end {
              if exists t | t in cells[i].seqs :: t != sid {
                assert Blocks(was[i], sid, begin, end) && i == n;
                assert cells[..] == final;
                return true, range;
              }
              cells[i] := Cell(cells[i].pos + Offset(begin, end), cells[i].seqs);
            }
            range := Extend(range, i);
          }
        }
        assert !Blocks(was[i], sid, begin, end) && i < n;
        assert cells[i] == RemoveCell(was[i], sid, begin, end) == final[i];
      }
      assert cells[..] == final;
      return false, range;
    }

    /** After the metadata of a removal: the keys behind the removed range. */
    method ShiftBehind(sid: int, begin: int, end: int) returns (r: RemoveResult, ghost upTo: int)
      requires Valid() && cfg.maxBatch > 0 && sid in cellRanges && cellRanges[sid] != EMPTY_RANGE
      modifies `keys
      ensures Valid() && r != Shared && keys.Keys == old(keys).Keys
      ensures end == MAX_INT32 ==> r == Removed && keys == old(keys)
      ensures end != MAX_INT32 ==> AllRotated(old(keys), keys, cells[..], sid, begin, begin - end, upTo)
                                   && (r == Removed ==> upTo == cells.Length)
    {
      r, upTo := Removed, cells.Length;
      if end != MAX_INT32 {
        var ok;
        ok, upTo := Shift(sid, end + Offset(begin, end), Offset(begin, end));
        if !ok {
          r := ShiftFailed;
        }
      }
    }

    /** Drop the positions [begin, end) of `sid` and move the later ones down; with `end` at the
        sentinel, drop everything from `begin` on. */
    method Remove(sid: int, begin: int, end: int) returns (r: RemoveResult, ghost upTo: int)
      requires Valid() && cfg.maxBatch > 0 && 0 <= begin <= end <= MAX_INT32
      modifies cells, `cellRanges, `keys
      ensures Valid()
      ensures M() == RemovedMeta(old(M()), sid, begin, end)
      ensures r == Shared <==> RemoveBlocked(old(cells[..]), sid, begin, end)
      ensures end == MAX_INT32 ==> r == Removed && keys == old(keys)
      ensures r == Shared ==> keys == old(keys)
      ensures keys.Keys == old(keys).Keys
      ensures r != Shared && end != MAX_INT32 ==>
                AllRotated(old(keys), keys, cells[..], sid, begin, begin - end, upTo)
                && (r == Removed ==> upTo == cells.Length)
    {
      ghost var m := M();
      RemovedSound(m, sid, begin, end);
      var stuck, range := RemoveCells(sid, begin, end);
      upTo := cells.Length;
      if stuck {
        return Shared, upTo;
      }
      if range == EMPTY_RANGE {
        cellRanges := cellRanges - {sid};
        AllSame(keys, cells[..], sid, begin, begin - end);
        AllSkip(keys, keys, cells[..], sid, begin, begin - end, 0, upTo);
        return Removed, upTo;
      }
      cellRanges := cellRanges[sid := range];
      r, upTo := ShiftBehind(sid, begin, end);
    }
  }

  // ---- the rows of the mask ----

  /** The mask does not hide the cell at location `j` from token `t`. */
  predicate Shown(cur: Range, mask: seq<bool>, t: nat, j: int) {
    cur.min <= j <= cur.max && EntryOf(mask, Length(cur), t, j - cur.min, false)
  }

  /** The mask row of a token shows exactly the cells that hold its sequence at a position of its
      window, and there is exactly one such cell for each position of the window. */
  ghost predicate RowShowsWindow(cfg: Config, cells: seq<Cell>, cur: Range, mask: seq<bool>, t: nat, e: Entry)
    requires 0 <= e.pos && 0 <= cur.min <= cur.max + 1 <= |cells|
  {
    && (forall j :: cur.min <= j <= cur.max ==>
          (Shown(cur, mask, t, j) <==> e.sid in cells[j].seqs && Floor(cfg, e.pos) <= cells[j].pos <= e.pos))
    && (forall q :: Floor(cfg, e.pos) <= q <= e.pos ==> ShownOnce(cells, cur, mask, t, q))
  }

  /** So it is for every token of the batch. */
  ghost predicate WindowsShown(cfg: Config, cells: seq<Cell>, cur: Range, mask: seq<bool>, batch: seq<Entry>) {
    && 0 <= cur.min <= cur.max + 1 <= |cells|
    && forall t :: 0 <= t < |batch| ==> 0 <= batch[t].pos && RowShowsWindow(cfg, cells, cur, mask, t, batch[t])
  }

  ghost predicate ShownOnce(cells: seq<Cell>, cur: Range, mask: seq<bool>, t: nat, q: int)
    requires 0 <= cur.min <= cur.max + 1 <= |cells|
  {
    exists j :: Shown(cur, mask, t, j) && cells[j].pos == q
                && forall i :: Shown(cur, mask, t, i) && cells[i].pos == q ==> i == j
  }

  lemma {:induction false} ShownIsAttended(cfg: Config, cells: seq<Cell>, cur: Range, batch: seq<Entry>, t: nat, j: int)
    requires (forall e :: e in batch ==> 0 <= e.pos) && 0 <= cur.min <= cur.max + 1 <= |cells| && t < |batch|
    ensures 0 <= batch[t].pos
    ensures Shown(cur, MaskOf(cells, cur, batch, [], cfg.chunk, cfg.window), t, j)
            <==> cur.min <= j <= cur.max && Attended(cells, batch[t], true, cfg.chunk, cfg.window, j)
  {
    assert batch[t] in batch;
    if cur.min <= j <= cur.max { MaskEntry(cells, cur, batch, [], cfg.chunk, cfg.window, t, j); }
  }

  /** A token whose causality was lifted sees the later positions of its sequence too; for the others
      nothing changes, and nobody sees past the window or the chunk. */
  lemma {:induction false} ExceptionsSeeLater(cfg: Config, cells: seq<Cell>, cur: Range, batch: seq<Entry>,
                                              except: seq<int>, t: nat, j: int)
    requires (forall e :: e in batch ==> 0 <= e.pos) && 0 <= cur.min <= cur.max + 1 <= |cells| && t < |batch|
    requires PositionsOk(cells) && 0 <= batch[t].pos && cur.min <= j <= cur.max
    ensures Shown(cur, MaskOf(cells, cur, batch, except, cfg.chunk, cfg.window), t, j)
            <==> batch[t].sid in cells[j].seqs && Floor(cfg, batch[t].pos) <= cells[j].pos
                 && (t in except || cells[j].pos <= batch[t].pos)
  {
    MaskEntry(cells, cur, batch, except, cfg.chunk, cfg.window, t, j);
  }

  /** What is shown on cells is shown in the table. */
  lemma {:induction false} MaskRowExact(cfg: Config, cells: seq<Cell>, cur: Range, batch: seq<Entry>, t: nat)
    requires (forall e :: e in batch ==> 0 <= e.pos) && 0 <= cur.min <= cur.max + 1 <= |cells| && t < |batch|
    requires PositionsOk(cells) && 0 <= batch[t].pos && ShowsExactly(cfg, cells, cur, batch[t])
    ensures RowShowsWindow(cfg, cells, cur, MaskOf(cells, cur, batch, [], cfg.chunk, cfg.window), t, batch[t])
  {
    var e, mask := batch[t], MaskOf(cells, cur, batch, [], cfg.chunk, cfg.window);
    forall j ensures Shown(cur, mask, t, j)
                     <==> cur.min <= j <= cur.max && Attended(cells, e, true, cfg.chunk, cfg.window, j) {
      ShownIsAttended(cfg, cells, cur, batch, t, j);
    }
    forall q | Floor(cfg, e.pos) <= q <= e.pos ensures ShownOnce(cells, cur, mask, t, q) {
      assert ShownAt(cfg, cells, e, q);
      var j :| Attended(cells, e, true, cfg.chunk, cfg.window, j) && cells[j].pos == q;
      assert Shown(cur, mask, t, j);
    }
  }

  // ---- the calls of a runner ----

  /** The object holds what the view says. */
  ghost predicate In(ca: Causal, ids: set<int>, v: View)
    reads ca, ca.cells
  {
    ca.Valid() && ca.cfg.maxBatch > 0 && Inv(ca.cfg, ids, ca.M(), v)
  }

  /** In each of the layers the key of every cell in use, but for the pending ones, is rotated to the
      cell's position. */
  ghost predicate KeysAt(ca: Causal, layers: set<int>, pending: set<int>)
    requires ca.Valid()
    reads ca, ca.cells
  {
    forall l :: l in layers ==> RowsOk(ca.cells[..], LayerRows(ca.keys, l, ca.cells.Length, ZERO_ROW), pending)
  }

  /** Init: a cache with the sizes derived from the window, the memory and the limits, or the error
      that the memory is below the window. */
  method Create(window: int, memory: int, chunk: int, padding: int, maxSequences: int, capacity: int, maxBatch: int,
                canShift: bool, ghost ids: set<int>, ghost layers: set<int>)
    returns (r: Result<Causal, InitError>)
    requires 0 <= window <= MAX_INT32 && 0 <= memory <= MAX_INT32 && 0 <= padding
    requires 0 <= maxSequences && 0 <= capacity && 0 < maxBatch && |ids| <= maxSequences
    requires var c := InitSizes(window, memory, chunk, padding, maxSequences, capacity, maxBatch);
             c.Ok? ==> c.value.size <= MAX_INT
    ensures r.Ok? ==> fresh(r.value) && fresh(r.value.cells) && In(r.value, ids, map[]) && KeysAt(r.value, layers, {})
    ensures match InitSizes(window, memory, chunk, padding, maxSequences, capacity, maxBatch)
            case Ok(c) => r.Ok? && r.value.cfg == c
            case Err(e) => r == Err(e)
  {
    match InitSizes(window, memory, chunk, padding, maxSequences, capacity, maxBatch) {
      case Err(e) => return Err(e);
      case Ok(c) =>
        var ca := new Causal(c, canShift);
        EveryReachableState(c, ids, [EmptyMeta(c.size)], [], 0);
        return Ok(ca);
    }
  }

  lemma {:induction false} StoredBatch(cfg: Config, ids: set<int>, m: Meta, v: View, batch: seq<Entry>, m': Meta,
                                       locs: seq<int>)
    requires Inv(cfg, ids, m, v) && Allowed(cfg, ids, v, Forward(batch)) && |m.cells| <= MAX_INT
    requires Outcome(cfg, m, batch, true, m', locs)
    ensures Inv(cfg, ids, m', ViewStep(cfg, v, Forward(batch))) && forall e :: e in batch ==> 0 <= e.pos
    ensures forall k :: 0 <= k < |batch| ==> m'.cells[locs[k]] == Cell(batch[k].pos, {batch[k].sid})
    ensures forall t, cur :: 0 <= t < |batch| && Spans(cfg, m, batch, locs, cur) ==>
        ShowsExactly(cfg, m'.cells, cur, batch[t])
  {
    BatchPositions(v, batch);
    ForwardKeepsInv(cfg, ids, m, v, batch, locs);
    PlacedAt(SlidMeta(m, batch, cfg.memory).cells, batch, locs, |batch|);
    forall t, cur | 0 <= t < |batch| && Spans(cfg, m, batch, locs, cur)
      ensures batch[t] in batch && ShowsExactly(cfg, m'.cells, cur, batch[t])
    {
      assert batch[t] in batch;
      MaskExact(cfg, ids, m, v, batch, locs, cur, t);
    }
  }

  /** A stored batch, with the mask rows of its tokens. */
  lemma {:induction false} StoredRows(cfg: Config, ids: set<int>, m: Meta, v: View, batch: seq<Entry>, m': Meta,
                                      locs: seq<int>, cur: Range)
    requires Inv(cfg, ids, m, v) && Allowed(cfg, ids, v, Forward(batch)) && |m.cells| <= MAX_INT
    requires Outcome(cfg, m, batch, true, m', locs) && Spans(cfg, m, batch, locs, cur)
    requires 0 <= cur.min <= cur.max + 1 <= |m'.cells|
    ensures Inv(cfg, ids, m', ViewStep(cfg, v, Forward(batch))) && forall e :: e in batch ==> 0 <= e.pos
    ensures forall k :: 0 <= k < |batch| ==> m'.cells[locs[k]] == Cell(batch[k].pos, {batch[k].sid})
    ensures WindowsShown(cfg, m'.cells, cur, MaskOf(m'.cells, cur, batch, [], cfg.chunk, cfg.window), batch)
  {
    StoredBatch(cfg, ids, m, v, batch, m', locs);
    forall t | 0 <= t < |batch|
      ensures 0 <= batch[t].pos
      ensures RowShowsWindow(cfg, m'.cells, cur, MaskOf(m'.cells, cur, batch, [], cfg.chunk, cfg.window), t, batch[t])
    {
      assert batch[t] in batch;
      MaskRowExact(cfg, m'.cells, cur, batch, t);
    }
  }

  /** Starting a permitted batch never fails. */
  method StartPermitted(ca: Causal, batch: seq<Entry>, ghost ids: set<int>, ghost v: View) returns (ok: bool)
    requires In(ca, ids, v) && Allowed(ca.cfg, ids, v, Forward(batch))
    modifies ca, ca.cells
    ensures ok && ca.Valid() && ca.curBatch == batch && ca.except == [] && ca.keys == old(ca.keys) && ca.MaskBuilt()
        && ca.LocsOk()
    ensures Outcome(ca.cfg, old(ca.M()), batch, true, ca.M(), ca.curLoc)
    ensures Spans(ca.cfg, old(ca.M()), batch, ca.curLoc, ca.curCellRange)
  {
    BatchPositions(v, batch);
    NeverFull(ca.cfg, ids, ca.M(), v, batch);
    ok := ca.StartForward(batch, false);
  }

  /** The same, with the mask row of each token of the batch. */
  method StartWithMask(ca: Causal, batch: seq<Entry>, ghost ids: set<int>, ghost v: View) returns (ok: bool)
    requires In(ca, ids, v) && Allowed(ca.cfg, ids, v, Forward(batch))
    modifies ca, ca.cells
    ensures ok && In(ca, ids, ViewStep(ca.cfg, v, Forward(batch))) && ca.curBatch == batch && ca.keys == old(ca.keys)
        && ca.LocsOk()
    ensures Outcome(ca.cfg, old(ca.M()), batch, true, ca.M(), ca.curLoc)
    ensures ca.RangeAligned() && WindowsShown(ca.cfg, ca.cells[..], ca.curCellRange, ca.curMask, batch)
    ensures forall k :: 0 <= k < |batch| ==> ca.cells[ca.curLoc[k]] == Cell(batch[k].pos, {batch[k].sid})
  {
    ghost var m := ca.M();
    ok := StartPermitted(ca, batch, ids, v);
    StoredRows(ca.cfg, ids, m, v, batch, ca.M(), ca.curLoc, ca.curCellRange);
  }

  /** Starting a permitted batch never fails, and afterwards the mask row of each of its tokens shows
      exactly one cell for each position of the token's window. Only the batch's keys are pending. */
  method Evaluate(ca: Causal, batch: seq<Entry>, ghost ids: set<int>, ghost v: View, ghost layers: set<int>)
    returns (ok: bool, ghost v': View)
    requires In(ca, ids, v) && KeysAt(ca, layers, {}) && Allowed(ca.cfg, ids, v, Forward(batch))
    modifies ca, ca.cells
    ensures ok && v' == ViewStep(ca.cfg, v, Forward(batch)) && In(ca, ids, v') && ca.curBatch == batch && ca.LocsOk()
    ensures ca.RangeAligned() && WindowsShown(ca.cfg, ca.cells[..], ca.curCellRange, ca.curMask, batch)
    ensures KeysAt(ca, layers, Locs(ca.curLoc))
    ensures forall k :: 0 <= k < |batch| ==> ca.cells[ca.curLoc[k]] == Cell(batch[k].pos, {batch[k].sid})
  {
    ghost var m, keys := ca.M(), ca.keys;
    ok := StartWithMask(ca, batch, ids, v);
    LayersPending(ca.cfg, m, batch, ca.M(), ca.curLoc, keys, layers);
    v' := ViewStep(ca.cfg, v, Forward(batch));
  }

  lemma {:induction false} LayersPending(cfg: Config, m: Meta, batch: seq<Entry>, m': Meta, locs: seq<int>,
                                         keys: map<int, seq<KeyRow>>, layers: set<int>)
    requires |m.cells| <= MAX_INT && Outcome(cfg, m, batch, true, m', locs)
    requires forall l :: l in keys ==> |keys[l]| == |m.cells|
    requires forall l :: l in layers ==> RowsOk(m.cells, LayerRows(keys, l, |m.cells|, ZERO_ROW), {})
    ensures forall l :: l in layers ==> RowsOk(m'.cells, LayerRows(keys, l, |m.cells|, ZERO_ROW), Locs(locs))
  {
    forall l | l in layers ensures RowsOk(m'.cells, LayerRows(keys, l, |m.cells|, ZERO_ROW), Locs(locs)) {
      PendingKeys(cfg, m, batch, m', locs, LayerRows(keys, l, |m.cells|, ZERO_ROW));
    }
  }

  lemma {:induction false} PendingKeys(cfg: Config, m: Meta, batch: seq<Entry>, m': Meta, locs: seq<int>,
                                       rows: seq<KeyRow>)
    requires |m.cells| <= MAX_INT && Outcome(cfg, m, batch, true, m', locs) && RowsOk(m.cells, rows, {})
    ensures RowsOk(m'.cells, rows, Locs(locs))
  {
    SlideKeepsRows(m, batch, cfg.memory, rows);
    PutSettlesRows(SlidMeta(m, batch, cfg.memory).cells, batch, locs, rows,
                   seq(|batch|, i requires 0 <= i < |batch| => KeyRow(0, batch[i].pos)));
  }

  /** Putting the batch's keys into a layer settles that layer. */
  method PutLayer(ca: Causal, layer: int, contents: seq<int>, vals: seq<int>, ghost layers: set<int>,
                  ghost done: set<int>)
    requires ca.Valid() && ca.LocsOk() && |contents| == |vals| == |ca.curBatch| && done <= layers
        && layer in layers - done
    requires KeysAt(ca, done, {}) && KeysAt(ca, layers - done, Locs(ca.curLoc))
    requires forall k :: 0 <= k < |ca.curBatch| ==> ca.cells[ca.curLoc[k]].pos == ca.curBatch[k].pos
    modifies ca
    ensures ca.Valid() && ca.LocsOk() && ca.M() == old(ca.M()) && ca.curBatch == old(ca.curBatch)
        && ca.curLoc == old(ca.curLoc)
    ensures KeysAt(ca, done + {layer}, {}) && KeysAt(ca, layers - done - {layer}, Locs(ca.curLoc))
  {
    ghost var keys := ca.keys;
    ca.SetLayer(layer);
    ca.Put(contents, vals);
    SettledKeys(ca.cells[..], ca.curBatch, ca.curLoc, LayerRows(keys, layer, ca.cells.Length, ZERO_ROW), contents);
    OtherLayers(ca.cells[..], keys, ca.keys, layer, done, {});
    OtherLayers(ca.cells[..], keys, ca.keys, layer, layers - done - {layer}, Locs(ca.curLoc));
  }

  lemma {:induction false} OtherLayers(cells: seq<Cell>, keys: map<int, seq<KeyRow>>, keys': map<int, seq<KeyRow>>,
                                       layer: int, layers: set<int>, pending: set<int>)
    requires layer !in layers && keys'.Keys == keys.Keys + {layer}
    requires (forall l :: l in keys ==> |keys[l]| == |cells|) && forall l :: l in keys' ==> |keys'[l]| == |cells|
    requires forall l :: l in keys && l != layer ==> keys'[l] == keys[l]
    requires forall l :: l in layers ==> RowsOk(cells, LayerRows(keys, l, |cells|, ZERO_ROW), pending)
    ensures forall l :: l in layers ==> RowsOk(cells, LayerRows(keys', l, |cells|, ZERO_ROW), pending)
  {
  }

  lemma {:induction false} SettledKeys(cells: seq<Cell>, batch: seq<Entry>, locs: seq<int>, rows: seq<KeyRow>,
                                       contents: seq<int>)
    requires |contents| == |batch| == |locs| && RowsOk(cells, rows, Locs(locs))
    requires forall k :: 0 <= k < |locs| ==> 0 <= locs[k] < |cells| && cells[locs[k]].pos == batch[k].pos
    requires forall k, l :: 0 <= k < l < |locs| ==> locs[k] < locs[l]
    ensures RowsOk(cells, RowsSet(rows, locs, RotatedKeys(batch, contents), |batch|), {})
  {
    var src := RotatedKeys(batch, contents);
    RowsSetAt(rows, locs, src, |src|);
    assert locs[..|batch|] == locs;
    forall i | 0 <= i < |cells| && cells[i].seqs != {}
      ensures RowsSet(rows, locs, src, |src|)[i].rotation == cells[i].pos {
      if i in locs {
        var k :| 0 <= k < |locs| && locs[k] == i;
        assert src[k].rotation == batch[k].pos;
      }
    }
  }

  /** Reuse the first `n` positions of a sequence if the cache can resume there, else none. */
  method Load(ca: Causal, sid: int, n: int, ghost ids: set<int>, ghost v: View, ghost layers: set<int>)
    returns (past: int, ghost v': View)
    requires In(ca, ids, v) && KeysAt(ca, layers, {}) && Allowed(ca.cfg, ids, v, Op.Load(sid, n))
    modifies ca, ca.cells
    ensures v' == ViewStep(ca.cfg, v, Op.Load(sid, n)) && In(ca, ids, v') && KeysAt(ca, layers, {})
    ensures past == if n > 0 && CanResumeView(ca.cfg, At(v, sid), n) then n else 0
    ensures At(v', sid).hi <= past
  {
    ghost var m := ca.M();
    past := n;
    if n > 0 {
      var ok := ca.CanResume(sid, n);
      if !ok {
        past := 0;
      }
    }
    ResumeRefines(ca.cfg, m.cells, v, sid, n);
    TruncateNeverBlocked(m, sid, past);
    var r, upTo := ca.Remove(sid, past, MAX_INT32);
    v' := ViewStep(ca.cfg, v, Op.Load(sid, n));
    StepKeepsInv(ca.cfg, ids, m, v, Op.Load(sid, n), ca.M());
    forall l | l in layers ensures RowsOk(ca.cells[..], LayerRows(ca.keys, l, ca.cells.Length, ZERO_ROW), {}) {
      LoadKeepsRows(ca.cfg, m, sid, n, LayerRows(ca.keys, l, ca.cells.Length, ZERO_ROW));
    }
  }

  /** Share a prefix of another sequence, and then reuse what the cache can resume from. */
  method Fork(ca: Causal, src: int, dst: int, len: int, n: int, ghost ids: set<int>, ghost v: View,
              ghost layers: set<int>)
    returns (past: int, ghost v': View)
    requires In(ca, ids, v) && KeysAt(ca, layers, {}) && Allowed(ca.cfg, ids, v, Op.Fork(src, dst, len, n))
    modifies ca, ca.cells
    ensures v' == ViewStep(ca.cfg, v, Op.Fork(src, dst, len, n)) && In(ca, ids, v') && KeysAt(ca, layers, {})
    ensures past == n || past == 0
  {
    ghost var m := ca.M();
    ca.CopyPrefix(src, dst, len);
    ghost var m1 := ca.M();
    past := n;
    if n > 0 {
      var ok := ca.CanResume(dst, n);
      if !ok {
        past := 0;
      }
    }
    TruncateNeverBlocked(m1, dst, past);
    var r, upTo := ca.Remove(dst, past, MAX_INT32);
    v' := ViewStep(ca.cfg, v, Op.Fork(src, dst, len, n));
    StepKeepsInv(ca.cfg, ids, m, v, Op.Fork(src, dst, len, n), ca.M());
    forall l | l in layers ensures RowsOk(ca.cells[..], LayerRows(ca.keys, l, ca.cells.Length, ZERO_ROW), {}) {
      CopyKeepsRows(m, src, dst, len, LayerRows(ca.keys, l, ca.cells.Length, ZERO_ROW));
      CopiedSound(m, src, dst, len);
      LoadKeepsRows(ca.cfg, m1, dst, n, LayerRows(ca.keys, l, ca.cells.Length, ZERO_ROW));
    }
  }

  /** Remove a middle part of a sequence, or all of it when that is refused or fails half way. */
  method RemoveOrClear(ca: Causal, sid: int, begin: int, end: int, ghost layers: set<int>) returns (ok: bool)
    requires ca.Valid() && ca.cfg.maxBatch > 0 && 0 <= begin <= end < MAX_INT32 && layers <= ca.keys.Keys
    modifies ca, ca.cells
    ensures ca.Valid() && ca.keys.Keys == old(ca.keys).Keys
    ensures Step(ca.cfg, old(ca.M()), Discard(sid, begin, end, ok), ca.M())
    ensures forall l :: l in layers ==>
              KeyStep(ca.cfg, old(ca.M()), old(ca.keys)[l], Discard(sid, begin, end, ok), [], ca.M(), ca.keys[l])
  {
    var r, upTo := ca.Remove(sid, begin, end);
    ok := r == Removed;
    if !ok {
      ghost var n;
      r, n := ca.Remove(sid, 0, MAX_INT32);
    }
  }

  /** Discard a middle part of a sequence; when that is refused or fails half way, drop the sequence. */
  method ShiftOut(ca: Causal, sid: int, begin: int, end: int, ghost ids: set<int>, ghost v: View,
                  ghost layers: set<int>)
    returns (ok: bool, ghost v': View)
    requires In(ca, ids, v) && KeysAt(ca, layers, {}) && layers <= ca.keys.Keys
    requires Allowed(ca.cfg, ids, v, Discard(sid, begin, end, true))
    modifies ca, ca.cells
    ensures v' == ViewStep(ca.cfg, v, Discard(sid, begin, end, ok)) && In(ca, ids, v') && KeysAt(ca, layers, {})
  {
    ghost var m, keys := ca.M(), ca.keys;
    assert forall l :: l in layers ==> LayerRows(keys, l, ca.cells.Length, ZERO_ROW) == keys[l];
    ok := RemoveOrClear(ca, sid, begin, end, layers);
    v' := ViewStep(ca.cfg, v, Discard(sid, begin, end, ok));
    StepKeepsInv(ca.cfg, ids, m, v, Discard(sid, begin, end, ok), ca.M());
    LayersShifted(ca.cfg, ids, m, v, Discard(sid, begin, end, ok), ca.M(), keys, ca.keys, layers);
  }

  lemma {:induction false} LayersShifted(cfg: Config, ids: set<int>, m: Meta, v: View, op: Op, m': Meta,
                                         keys: map<int, seq<KeyRow>>, keys': map<int, seq<KeyRow>>, layers: set<int>)
    requires Inv(cfg, ids, m, v) && Allowed(cfg, ids, v, op) && |m.cells| <= MAX_INT && layers <= keys.Keys
        && layers <= keys'.Keys
    requires forall l :: l in layers ==> |keys[l]| == |m.cells| && RowsOk(m.cells, keys[l], {})
    requires forall l :: l in layers ==> KeyStep(cfg, m, keys[l], op, [], m', keys'[l])
    ensures forall l :: l in layers ==> RowsOk(m'.cells, keys'[l], {})
  {
    forall l | l in layers ensures RowsOk(m'.cells, keys'[l], {}) {
      KeyStepKeepsRows(cfg, ids, m, v, keys[l], op, [], m', keys'[l]);
    }
  }
}
