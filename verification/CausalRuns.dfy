/** Whole runs of the causal cache: storage suffices, and windows are seen exactly. */
module CausalRuns {
  import opened Wrappers
  import opened CacheCells
  import opened CausalRanges
  import opened CausalView

  // ---- configuration ----

  datatype Config = Config(window: int, memory: int, chunk: int, padding: int,
                           maxSequences: int, capacity: int, maxBatch: int, size: int)

  /** Two's complement truncation to 32 bits. */
  function Int32(x: int): int { (x + 0x8000_0000) % 0x1_0000_0000 - 0x8000_0000 }

  datatype InitError = MemoryBelowWindow(memory: int, window: int)

  /** The sizes that Init derives; a window or memory of 0 means unset, a padding of 0 means 1. */
  function InitSizes(window: int, memory: int, chunk: int, padding: int,
                     maxSequences: int, capacity: int, maxBatch: int): (r: Result<Config, InitError>)
    requires 0 <= window <= MAX_INT32 && 0 <= memory <= MAX_INT32 && 0 <= padding
    requires 0 <= maxSequences && 0 <= capacity && 0 <= maxBatch
    ensures r.Ok? ==> ValidConfig(r.value)
  {
    var pad := if padding == 0 then 1 else padding;
    var w := if window == 0 then MAX_INT32 else window;
    var m0 := if memory == 0 then w else memory;
    var m1 := if m0 != MAX_INT32 && maxSequences > 1 then Max(m0, Int32(w + 1)) else m0;
    var m := if m1 >= capacity then MAX_INT32 else m1;
    if m < w then Err(MemoryBelowWindow(m, w))
    else
      var size := if m == MAX_INT32 then maxSequences * capacity else maxSequences * m + maxBatch;
      RoundingIdempotent(size, pad);
      assert maxSequences * capacity >= 0 && maxSequences * m >= 0 by {
        MulStep(0, maxSequences, capacity);
        MulStep(0, maxSequences, m);
      }
      Ok(Config(w, m, chunk, pad, maxSequences, capacity, maxBatch, RoundUp(size, pad)))
  }

  /** What Init guarantees about the sizes. */
  ghost predicate ValidConfig(c: Config) {
    && 0 < c.window <= c.memory <= MAX_INT32
    && 0 < c.padding && 0 <= c.size && c.size % c.padding == 0
    && 0 <= c.maxSequences && 0 <= c.capacity && 0 <= c.maxBatch
    && c.size >= if c.memory == MAX_INT32 then c.maxSequences * c.capacity
                 else c.maxSequences * c.memory + c.maxBatch
  }

  /** The sizes in use: the memory asked for, one position more than the window when sequences can be
      shared, and no bound at all when that would exceed the capacity; storage for all sequences and a
      batch, to the next multiple of the padding. The only refusal is a memory below the window that
      nothing raised. */
  lemma {:induction false} InitSizesExact(window: int, memory: int, chunk: int, padding: int,
                                          maxSequences: int, capacity: int, maxBatch: int)
    requires 0 <= window <= MAX_INT32 && 0 <= memory <= MAX_INT32 && 0 <= padding
    requires 0 <= maxSequences && 0 <= capacity && 0 <= maxBatch
    ensures var limit := if window == 0 then MAX_INT32 else window;
            match InitSizes(window, memory, chunk, padding, maxSequences, capacity, maxBatch)
            case Err(e) =>
              && memory != 0 && memory < limit && memory < capacity && (maxSequences <= 1 || limit == MAX_INT32)
              && e == MemoryBelowWindow(memory, limit)
            case Ok(c) =>
              var asked := if memory == 0 then limit else memory;
              var kept := if maxSequences > 1 then Max(asked, limit + 1) else asked;
              && !(memory != 0 && memory < limit && memory < capacity && (maxSequences <= 1 || limit == MAX_INT32))
              && c.window == limit
              && c.memory == (if asked == MAX_INT32 || kept >= capacity then MAX_INT32 else kept)
              && c.size - c.padding < (if c.memory == MAX_INT32 then maxSequences * capacity
                                       else maxSequences * c.memory + maxBatch) <= c.size
  {
    match InitSizes(window, memory, chunk, padding, maxSequences, capacity, maxBatch)
    case Err(e) =>
    case Ok(c) =>
      var need := if c.memory == MAX_INT32 then maxSequences * capacity else maxSequences * c.memory + maxBatch;
      assert c.size == RoundUp(need, c.padding);
      RoundedUpBy(need, c.padding);
  }

  lemma {:induction false} RoundedUpBy(n: int, pad: int)
    requires 0 < pad
    ensures n <= RoundUp(n, pad) < n + pad
  {
  }

  // ---- the callers' operations ----

  /** What a runner does with the cache: evaluate a batch; reuse a prefix of length `n` of a
      sequence (or drop it when the cache cannot resume there); fork a prefix first; discard
      a middle part, clearing the sequence if that is refused. */
  datatype Op =
    | Forward(batch: seq<Entry>)
    | Load(sid: int, n: int)
    | Fork(src: int, dst: int, len: int, n: int)
    | Discard(sid: int, begin: int, end: int, ok: bool)

  /** CanResume read off the cells: something at or before the start of the next window is
      stored, and something at or after the position before `pos`. */
  ghost predicate CanResumeCells(cfg: Config, cells: seq<Cell>, sid: int, pos: int) {
    || cfg.memory == MAX_INT32
    || ((exists p :: Has(cells, sid, p) && p <= Max(0, pos - cfg.window))
        && (exists p :: Has(cells, sid, p) && pos <= p + 1))
  }

  ghost predicate Step(cfg: Config, m: Meta, op: Op, m': Meta)
    requires |m.cells| <= MAX_INT
  {
    match op
    case Forward(batch) =>
      var s := SlidMeta(m, batch, cfg.memory);
      if |Free(s.cells)| < |batch| then m' == s
      else exists locs :: FirstFree(s.cells, |batch|, locs) && |batch| <= |locs|
                          && m' == PlacedMeta(s, batch, locs)
    case Load(sid, n) =>
      m' == LoadMeta(cfg, m, sid, n)
    case Fork(src, dst, len, n) =>
      m' == LoadMeta(cfg, CopiedMeta(m, src, dst, len), dst, n)
    case Discard(sid, begin, end, ok) =>
      if ok then !RemoveBlocked(m.cells, sid, begin, end) && m' == RemovedMeta(m, sid, begin, end)
      else m' == RemovedMeta(RemovedMeta(m, sid, begin, end), sid, 0, MAX_INT32)
  }

  /** What StartForward does to the metadata: the batch is stored in the first unused cells,
      or there are too few of them and only the windows slide. */
  ghost predicate Outcome(cfg: Config, m: Meta, batch: seq<Entry>, ok: bool, m': Meta, locs: seq<int>)
    requires |m.cells| <= MAX_INT
  {
    var s := SlidMeta(m, batch, cfg.memory);
    && (ok <==> |Free(s.cells)| >= |batch|)
    && if ok then |locs| == |batch| && FirstFree(s.cells, |batch|, locs) && m' == PlacedMeta(s, batch, locs)
       else m' == s
  }

  lemma {:induction false} OutcomeIsStep(cfg: Config, m: Meta, batch: seq<Entry>, ok: bool, m': Meta, locs: seq<int>)
    requires |m.cells| <= MAX_INT && Outcome(cfg, m, batch, ok, m', locs)
    ensures Step(cfg, m, Forward(batch), m')
  {
  }

  /** A range that takes in everything the batch touches and all of its own locations. */
  ghost predicate Spans(cfg: Config, m: Meta, batch: seq<Entry>, locs: seq<int>, r: Range) {
    forall x :: x in Touched(m, batch, cfg.window, cfg.memory) || x in locs ==> r.min <= x <= r.max
  }

  lemma {:induction false} BoundsSpan(cfg: Config, m: Meta, batch: seq<Entry>, locs: seq<int>, r: Range, S: set<int>)
    requires Bounds(r, S) && Touched(m, batch, cfg.window, cfg.memory) <= S && forall x :: x in locs ==> x in S
    ensures Spans(cfg, m, batch, locs, r)
  {
  }

  ghost function LoadMeta(cfg: Config, m: Meta, sid: int, n: int): (r: Meta)
    requires |m.cells| <= MAX_INT
  {
    RemovedMeta(m, sid, if n > 0 && CanResumeCells(cfg, m.cells, sid, n) then n else 0, MAX_INT32)
  }

  // ---- the same on views ----

  predicate CanResumeView(cfg: Config, s: Span, n: int) {
    cfg.memory == MAX_INT32 || (s.lo < s.hi && s.lo <= Max(0, n - cfg.window) && n <= s.hi)
  }

  function LoadView(cfg: Config, v: View, sid: int, n: int): View {
    var s := At(v, sid);
    v[sid := Close(s, if n > 0 && CanResumeView(cfg, s, n) then n else 0, MAX_INT32)]
  }

  function ViewStep(cfg: Config, v: View, op: Op): View {
    match op
    case Forward(batch) => GrowView(SlideView(v, cfg.memory), batch, |batch|)
    case Load(sid, n) => LoadView(cfg, v, sid, n)
    case Fork(src, dst, len, n) => LoadView(cfg, v[dst := Cut(At(v, src), len)], dst, n)
    case Discard(sid, begin, end, ok) =>
      v[sid := if ok then Close(At(v, sid), begin, end) else NOTHING]
  }

  /** The protocol, stated on what the caller knows. */
  ghost predicate Allowed(cfg: Config, ids: set<int>, v: View, op: Op) {
    match op
    case Forward(batch) =>
      && 1 <= |batch| <= cfg.maxBatch && Continues(v, batch)
      && forall e :: e in batch ==>
           e.sid in ids && e.pos < if cfg.memory == MAX_INT32 then Min(cfg.capacity, MAX_INT32) else MAX_INT32
    case Load(sid, n) => sid in ids && 0 <= n <= MAX_INT32
    case Fork(src, dst, len, n) => dst in ids && src != dst && 0 <= len && 0 <= n <= MAX_INT32
    case Discard(sid, begin, end, ok) =>
      sid in ids && 0 <= begin <= end < MAX_INT32 && (ok ==> ReadyFor(cfg, Close(At(v, sid), begin, end)))
  }

  // ---- the invariant ----

  /** The stored interval reaches back far enough for the window of the next token. */
  ghost predicate ReadyFor(cfg: Config, s: Span) {
    && 0 <= s.lo <= s.hi <= MAX_INT32
    && (s.lo == 0 || s.lo <= s.hi - cfg.window)
    && (cfg.memory == MAX_INT32 ==> s.lo == 0 && s.hi <= cfg.capacity)
  }

  ghost predicate Ready(cfg: Config, ids: set<int>, v: View) {
    v.Keys <= ids && forall sid :: sid in v ==> ReadyFor(cfg, v[sid])
  }

  ghost predicate Inv(cfg: Config, ids: set<int>, m: Meta, v: View) {
    && ValidConfig(cfg) && |ids| <= cfg.maxSequences && |m.cells| == cfg.size
    && Sound(m) && Rep(m.cells, v) && Ready(cfg, ids, v)
  }

  // ---- counting ----

  ghost function Slice(P: set<Entry>, sid: int): set<Entry> {
    set e | e in P && e.sid == sid
  }

  lemma {:induction false} IntervalCard(P: set<Entry>, sid: int, lo: int, hi: int)
    requires forall e :: e in P ==> e.sid == sid && lo <= e.pos < hi
    ensures |P| <= Max(0, hi - lo)
    decreases hi - lo
  {
    if hi <= lo {
      assert P == {};
    } else {
      var P' := P - {Entry(sid, hi - 1)};
      IntervalCard(P', sid, lo, hi - 1);
      SubsetCard(P, P' + {Entry(sid, hi - 1)});
    }
  }

  /** At most `M` entries for each of the ids make at most |ids|*M entries. */
  lemma {:induction false} Pigeonhole(P: set<Entry>, ids: set<int>, M: nat)
    requires forall e :: e in P ==> e.sid in ids
    requires forall sid :: sid in ids ==> |Slice(P, sid)| <= M
    ensures |P| <= |ids| * M
  {
    if ids == {} {
      assert P == {};
    } else {
      var sid := Pick(ids);
      var rest := P - Slice(P, sid);
      forall t | t in ids - {sid} ensures |Slice(rest, t)| <= M {
        assert Slice(rest, t) == Slice(P, t);
      }
      Pigeonhole(rest, ids - {sid}, M);
      assert P == rest + Slice(P, sid);
      OneMore(|ids - {sid}|, M);
    }
  }

  lemma {:induction false} OneMore(n: nat, M: nat)
    ensures (n + 1) * M == n * M + M
  {
  }

  ghost function Stored(cells: seq<Cell>): set<Entry> {
    set i, sid | 0 <= i < |cells| && sid in cells[i].seqs :: Entry(sid, cells[i].pos)
  }

  ghost function Used(cells: seq<Cell>): set<int> {
    set i | 0 <= i < |cells| && cells[i].seqs != {}
  }

  /** Every cell in use accounts for an entry of its own. */
  lemma {:induction false} UsedCard(cells: seq<Cell>)
    requires Distinct(cells)
    ensures |Used(cells)| <= |Stored(cells)|
  {
    if cells != [] {
      var n := |cells| - 1;
      var front := cells[..n];
      forall i | 0 <= i < n ensures front[i] == cells[i] {}
      UsedCard(front);
      if cells[n].seqs == {} {
        assert Used(cells) == Used(front);
        SubsetCard(Stored(front), Stored(cells));
      } else {
        var sid := Pick(cells[n].seqs);
        var e := Entry(sid, cells[n].pos);
        assert e !in Stored(front);
        assert Used(cells) == Used(front) + {n};
        assert e in Stored(cells);
        SubsetCard(Stored(front) + {e}, Stored(cells));
      }
    }
  }

  lemma {:induction false} FreeCard(cells: seq<Cell>)
    ensures |Free(cells)| + |Used(cells)| == |cells|
  {
    if cells != [] {
      var n := |cells| - 1;
      FreeCard(cells[..n]);
      FreeOfFront(cells);
      assert n !in Free(cells[..n]) && n !in Used(cells[..n]);
    }
  }

  lemma {:induction false} FreeOfFront(cells: seq<Cell>)
    requires cells != []
    ensures var n := |cells| - 1;
            && Free(cells) == Free(cells[..n]) + (if cells[n].seqs == {} then {n} else {})
            && Used(cells) == Used(cells[..n]) + (if cells[n].seqs == {} then {} else {n})
  {
    forall i | 0 <= i < |cells| - 1 ensures cells[..|cells| - 1][i] == cells[i] {}
  }

  ghost function Entries(batch: seq<Entry>): set<Entry> { set e | e in batch }

  /** A batch that continues the view brings as many new entries as it has tokens. */
  lemma {:induction false} BatchCard(v: View, batch: seq<Entry>, n: nat)
    requires n <= |batch| && Continues(v, batch)
    ensures |Entries(batch[..n])| == n
  {
    if n > 0 {
      BatchCard(v, batch, n - 1);
      GrowFacts(v, batch, n - 1, batch[n - 1].sid);
      assert TakesNext(v, batch, n - 1);
      assert batch[..n] == batch[..n - 1] + [batch[n - 1]];
      assert Entries(batch[..n]) == Entries(batch[..n - 1]) + {batch[n - 1]};
      assert batch[n - 1] !in batch[..n - 1];
    }
  }

  lemma {:induction false} BatchIsNew(v: View, batch: seq<Entry>, e: Entry)
    requires Continues(v, batch) && e in batch
    ensures At(v, e.sid).hi <= e.pos
  {
    var k :| 0 <= k < |batch| && batch[k] == e;
    assert TakesNext(v, batch, k);
    GrowFacts(v, batch, k, e.sid);
  }

  /** Without sliding, what is stored and what arrives fits into the capacities together. */
  lemma {:induction false} NeverFullUnlimited(cfg: Config, ids: set<int>, cells: seq<Cell>, v: View, batch: seq<Entry>)
    requires ValidConfig(cfg) && cfg.memory == MAX_INT32 && |ids| <= cfg.maxSequences && |cells| == cfg.size
    requires Rep(cells, v) && Ready(cfg, ids, v) && Allowed(cfg, ids, v, Forward(batch))
    ensures |Free(cells)| >= |batch|
  {
    UsedCard(cells);
    FreeCard(cells);
    BatchCard(v, batch, |batch|);
    assert batch[..|batch|] == batch;
    var old_, new_ := Stored(cells), Entries(batch);
    forall e | e in old_ ensures e.sid in ids && 0 <= e.pos < cfg.capacity && e.pos < At(v, e.sid).hi {
      assert At(v, e.sid).lo <= e.pos < At(v, e.sid).hi;
      assert e.sid in v;
    }
    forall e | e in new_ ensures e.sid in ids && 0 <= e.pos < cfg.capacity && At(v, e.sid).hi <= e.pos {
      BatchIsNew(v, batch, e);
    }
    assert old_ !! new_;
    SlicesFit(old_ + new_, ids, cfg.capacity);
    MulStep(|ids|, cfg.maxSequences, cfg.capacity);
  }

  lemma {:induction false} SlicesFit(P: set<Entry>, ids: set<int>, capacity: nat)
    requires forall e :: e in P ==> e.sid in ids && 0 <= e.pos < capacity
    ensures |P| <= |ids| * capacity
  {
    forall sid | sid in ids ensures |Slice(P, sid)| <= capacity {
      IntervalCard(Slice(P, sid), sid, 0, capacity);
    }
    Pigeonhole(P, ids, capacity);
  }

  /** With sliding, every sequence keeps at most a memory's worth of cells. */
  lemma {:induction false} NeverFullSliding(cfg: Config, ids: set<int>, cells: seq<Cell>, v: View)
    requires ValidConfig(cfg) && cfg.memory != MAX_INT32 && |ids| <= cfg.maxSequences && |cells| == cfg.size
    requires Rep(cells, v) && v.Keys <= ids
    requires forall sid :: sid in v ==> v[sid].hi - v[sid].lo <= cfg.memory
    ensures |Free(cells)| >= cfg.maxBatch
  {
    UsedCard(cells);
    FreeCard(cells);
    var P := Stored(cells);
    assert forall e :: e in P ==> At(v, e.sid).lo <= e.pos < At(v, e.sid).hi;
    forall sid | sid in ids ensures |Slice(P, sid)| <= cfg.memory {
      IntervalCard(Slice(P, sid), sid, At(v, sid).lo, At(v, sid).hi);
    }
    Pigeonhole(P, ids, cfg.memory);
    MulStep(|ids|, cfg.maxSequences, cfg.memory);
  }

  /** Capacity theorem: a permitted batch always finds enough unused cells. */
  lemma {:induction false} NeverFull(cfg: Config, ids: set<int>, m: Meta, v: View, batch: seq<Entry>)
    requires Inv(cfg, ids, m, v) && Allowed(cfg, ids, v, Forward(batch))
    ensures |Free(SlidMeta(m, batch, cfg.memory).cells)| >= |batch|
  {
    SlideRefines(m, v, batch, cfg.memory);
    if cfg.memory == MAX_INT32 {
      NeverFullUnlimited(cfg, ids, m.cells, v, batch);
    } else {
      NeverFullSliding(cfg, ids, SlidMeta(m, batch, cfg.memory).cells, SlideView(v, cfg.memory));
    }
  }

  // ---- every run ----

  lemma {:induction false} ResumeRefines(cfg: Config, cells: seq<Cell>, v: View, sid: int, pos: int)
    requires Rep(cells, v)
    ensures CanResumeCells(cfg, cells, sid, pos) <==> CanResumeView(cfg, At(v, sid), pos)
  {
    var s := At(v, sid);
    if s.lo < s.hi {
      assert Has(cells, sid, s.lo) && Has(cells, sid, s.hi - 1);
    }
  }

  /** A cache that slides its window can resume at a position exactly when the whole window before
      that position is still stored. */
  lemma {:induction false} ResumeMeansWindowStored(cfg: Config, cells: seq<Cell>, v: View, sid: int, n: int)
    requires Rep(cells, v) && cfg.memory != MAX_INT32 && 0 < n && 0 < cfg.window
    ensures CanResumeCells(cfg, cells, sid, n) <==> forall p :: Max(0, n - cfg.window) <= p < n ==> Has(cells, sid, p)
  {
    ResumeRefines(cfg, cells, v, sid, n);
    var s := At(v, sid);
    if forall p :: Max(0, n - cfg.window) <= p < n ==> Has(cells, sid, p) {
      StoredInSpan(cells, v, sid, Max(0, n - cfg.window));
      StoredInSpan(cells, v, sid, n - 1);
    }
  }

  /** After the middle of a sequence is removed, the window of its next token is still stored exactly
      when the oldest position left, moved down with the tokens behind the range if it is among them,
      is not after the start of that window. */
  lemma {:induction false} WindowAfterRemovalIff(cfg: Config, m: Meta, v: View, sid: int, begin: int, end: int)
    requires Sound(m) && Rep(m.cells, v) && 0 < cfg.window && !RemoveBlocked(m.cells, sid, begin, end)
    requires 0 <= begin <= end < At(v, sid).hi <= MAX_INT32 && 0 <= At(v, sid).lo < At(v, sid).hi
    ensures var lo, next := At(v, sid).lo, At(v, sid).hi - (end - begin);
            var oldest := if lo <= begin then lo else Max(begin, lo - (end - begin));
            (forall p :: Max(0, next - cfg.window) <= p < next ==> Has(RemovedMeta(m, sid, begin, end).cells, sid, p))
            <==> oldest <= Max(0, next - cfg.window)
  {
    var cells' := RemovedMeta(m, sid, begin, end).cells;
    var v' := v[sid := Close(At(v, sid), begin, end)];
    RemoveRefines(m, v, sid, begin, end);
    assert At(v', sid) == Close(At(v, sid), begin, end);
    var first := Max(0, At(v', sid).hi - cfg.window);
    if Has(cells', sid, first) { StoredInSpan(cells', v', sid, first); }
  }

  /** That is the condition under which a runner may discard the middle of a sequence in a cache that
      slides its window; without a window it always may. */
  lemma {:induction false} DiscardAllowedIff(cfg: Config, s: Span, begin: int, end: int)
    requires ReadyFor(cfg, s) && 0 <= begin <= end < s.hi
    ensures var next := s.hi - (end - begin);
            var oldest := if s.lo <= begin then s.lo else Max(begin, s.lo - (end - begin));
            ReadyFor(cfg, Close(s, begin, end)) <==> oldest <= Max(0, next - cfg.window)
    ensures cfg.memory == MAX_INT32 ==> ReadyFor(cfg, Close(s, begin, end))
  {
  }

  /** With a window of 4 and the positions 6 to 9 stored, removing position 7 makes 9 the next position and
      leaves 6, 7 and 8, although its window begins at 5. */
  lemma {:induction false} WindowLost()
    ensures var cfg, s := Config(4, 4, 0, 1, 2, 64, 64, 72), Span(6, 10);
            ValidConfig(cfg) && ReadyFor(cfg, s) && Close(s, 7, 8) == Span(6, 9) && !ReadyFor(cfg, Close(s, 7, 8))
  {
  }

  lemma {:induction false} StoredInSpan(cells: seq<Cell>, v: View, sid: int, p: int)
    requires Rep(cells, v) && Has(cells, sid, p)
    ensures At(v, sid).lo <= p < At(v, sid).hi
  {
  }

  lemma {:induction false} LoadKeepsInv(cfg: Config, ids: set<int>, m: Meta, v: View, sid: int, n: int)
    requires ValidConfig(cfg) && |ids| <= cfg.maxSequences && |m.cells| == cfg.size
    requires Sound(m) && Rep(m.cells, v) && v.Keys <= ids + {sid} && sid in ids && 0 <= n <= MAX_INT32
    requires forall t :: t in v && t != sid ==> ReadyFor(cfg, v[t])
    requires 0 <= At(v, sid).lo <= At(v, sid).hi <= MAX_INT32
    requires cfg.memory == MAX_INT32 ==> At(v, sid).lo == 0 && At(v, sid).hi <= cfg.capacity
    ensures Inv(cfg, ids, LoadMeta(cfg, m, sid, n), LoadView(cfg, v, sid, n))
  {
    ResumeRefines(cfg, m.cells, v, sid, n);
    var k := if n > 0 && CanResumeCells(cfg, m.cells, sid, n) then n else 0;
    TruncateNeverBlocked(m, sid, k);
    RemoveRefines(m, v, sid, k, MAX_INT32);
    RemovedSound(m, sid, k, MAX_INT32);
  }

  lemma {:induction false} ForwardKeepsInv(cfg: Config, ids: set<int>, m: Meta, v: View, batch: seq<Entry>,
                                           locs: seq<int>)
    requires Inv(cfg, ids, m, v) && Allowed(cfg, ids, v, Forward(batch)) && |batch| <= |locs|
    requires FirstFree(SlidMeta(m, batch, cfg.memory).cells, |batch|, locs)
    ensures Inv(cfg, ids, PlacedMeta(SlidMeta(m, batch, cfg.memory), batch, locs),
                ViewStep(cfg, v, Forward(batch)))
  {
    var s := SlidMeta(m, batch, cfg.memory);
    var sv := SlideView(v, cfg.memory);
    SlideRefines(m, v, batch, cfg.memory);
    SlidSound(m, batch, cfg.memory);
    SlideContinues(v, batch, cfg.memory);
    PlaceRefines(s.cells, sv, batch, locs, |batch|);
    forall e | e in batch ensures 0 <= e.pos { GrowFacts(v, batch, |batch|, e.sid); BatchPositions(v, batch); }
    PlacedSound(s, batch, locs, |batch|);
    var g := GrowView(sv, batch, |batch|);
    GrowKeys(sv, batch, |batch|, ids);
    forall sid | sid in g ensures ReadyFor(cfg, g[sid]) {
      GrowFacts(sv, batch, |batch|, sid);
      assert batch[..|batch|] == batch;
      var h := At(sv, sid).hi;
      assert At(v, sid).hi == h;
      if h < g[sid].hi { assert Entry(sid, g[sid].hi - 1) in batch; }
    }
  }

  lemma {:induction false} BatchPositions(v: View, batch: seq<Entry>)
    requires Continues(v, batch) && forall sid :: sid in v ==> 0 <= v[sid].hi
    ensures forall e :: e in batch ==> 0 <= e.pos
  {
    forall k | 0 <= k < |batch| ensures 0 <= batch[k].pos {
      assert TakesNext(v, batch, k);
      GrowFacts(v, batch, k, batch[k].sid);
    }
  }

  lemma {:induction false} GrowKeys(v: View, batch: seq<Entry>, n: nat, ids: set<int>)
    requires n <= |batch| && v.Keys <= ids && forall e :: e in batch ==> e.sid in ids
    ensures GrowView(v, batch, n).Keys <= ids
  {
    if n > 0 {
      GrowKeys(v, batch, n - 1, ids);
      assert batch[n - 1] in batch;
    }
  }

  /** Every permitted operation keeps the cells an exact image of the plain view. */
  lemma {:induction false} StepKeepsInv(cfg: Config, ids: set<int>, m: Meta, v: View, op: Op, m': Meta)
    requires Inv(cfg, ids, m, v) && Allowed(cfg, ids, v, op) && Step(cfg, m, op, m')
    ensures Inv(cfg, ids, m', ViewStep(cfg, v, op))
  {
    match op
    case Forward(batch) =>
      NeverFull(cfg, ids, m, v, batch);
      var s := SlidMeta(m, batch, cfg.memory);
      var locs :| FirstFree(s.cells, |batch|, locs) && |batch| <= |locs| && m' == PlacedMeta(s, batch, locs);
      ForwardKeepsInv(cfg, ids, m, v, batch, locs);
    case Load(sid, n) =>
      LoadKeepsInv(cfg, ids, m, v, sid, n);
    case Fork(src, dst, len, n) =>
      CopyRefines(m, v, src, dst, len);
      CopiedSound(m, src, dst, len);
      LoadKeepsInv(cfg, ids, CopiedMeta(m, src, dst, len), v[dst := Cut(At(v, src), len)], dst, n);
    case Discard(sid, begin, end, ok) =>
      RemovedSound(m, sid, begin, end);
      if ok {
        RemoveRefines(m, v, sid, begin, end);
      } else {
        ClearRefines(m, v, sid, begin, end);
        RemovedSound(RemovedMeta(m, sid, begin, end), sid, 0, MAX_INT32);
      }
  }

  ghost function EmptyMeta(size: nat): Meta {
    Meta(seq(size, i => Cell(0, {})), map[])
  }

  ghost function ViewAfter(cfg: Config, ops: seq<Op>): View {
    if ops == [] then map[]
    else ViewStep(cfg, ViewAfter(cfg, ops[..|ops| - 1]), ops[|ops| - 1])
  }

  /** A run: each operation is permitted by the view so far and takes one state to the next. */
  ghost predicate Run(cfg: Config, ids: set<int>, ms: seq<Meta>, ops: seq<Op>) {
    && ValidConfig(cfg) && |ids| <= cfg.maxSequences && cfg.size <= MAX_INT
    && |ms| == |ops| + 1 && ms[0] == EmptyMeta(cfg.size)
    && forall k :: 0 <= k < |ops| ==> RunStep(cfg, ids, ms, ops, k)
  }

  ghost predicate RunStep(cfg: Config, ids: set<int>, ms: seq<Meta>, ops: seq<Op>, k: nat)
    requires k < |ops| && |ms| == |ops| + 1
  {
    && Allowed(cfg, ids, ViewAfter(cfg, ops[..k]), ops[k])
    && |ms[k].cells| <= MAX_INT && Step(cfg, ms[k], ops[k], ms[k + 1])
  }

  lemma {:induction false} RunStepKeeps(cfg: Config, ids: set<int>, ms: seq<Meta>, ops: seq<Op>, k: nat)
    requires k < |ops| && |ms| == |ops| + 1 && RunStep(cfg, ids, ms, ops, k)
    requires Inv(cfg, ids, ms[k], ViewAfter(cfg, ops[..k]))
    ensures Inv(cfg, ids, ms[k + 1], ViewAfter(cfg, ops[..k + 1]))
  {
    assert ops[..k + 1][..k] == ops[..k];
    StepKeepsInv(cfg, ids, ms[k], ViewAfter(cfg, ops[..k]), ops[k], ms[k + 1]);
  }

  lemma {:induction false} EveryReachableState(cfg: Config, ids: set<int>, ms: seq<Meta>, ops: seq<Op>, k: nat)
    requires Run(cfg, ids, ms, ops) && k <= |ops|
    ensures Inv(cfg, ids, ms[k], ViewAfter(cfg, ops[..k]))
  {
    if k > 0 {
      EveryReachableState(cfg, ids, ms, ops, k - 1);
      RunStepKeeps(cfg, ids, ms, ops, k - 1);
    }
  }

  // ---- no permitted operation is stuck ----

  /** The unused locations below `n`, in order. */
  function FreeBelow(cells: seq<Cell>, n: nat): (locs: seq<int>)
    requires n <= |cells|
  {
    if n == 0 then [] else FreeBelow(cells, n - 1) + if cells[n - 1].seqs == {} then [n - 1] else []
  }

  ghost function FreeSet(cells: seq<Cell>, n: nat): set<int>
    requires n <= |cells|
  {
    set i | 0 <= i < n && cells[i].seqs == {}
  }

  lemma {:induction false} FreeBelowOrder(cells: seq<Cell>, n: nat)
    requires n <= |cells|
    ensures forall k :: 0 <= k < |FreeBelow(cells, n)| ==> FreeBelow(cells, n)[k] in FreeSet(cells, n)
    ensures forall k, l :: 0 <= k < l < |FreeBelow(cells, n)| ==> FreeBelow(cells, n)[k] < FreeBelow(cells, n)[l]
  {
    if n > 0 { FreeBelowOrder(cells, n - 1); }
  }

  lemma {:induction false} FreeBelowAll(cells: seq<Cell>, n: nat, i: int)
    requires n <= |cells| && i in FreeSet(cells, n)
    ensures i in FreeBelow(cells, n)
  {
    if i < n - 1 { FreeBelowAll(cells, n - 1, i); }
  }

  lemma {:induction false} FreeSetStep(cells: seq<Cell>, n: nat)
    requires 0 < n <= |cells|
    ensures n - 1 !in FreeSet(cells, n - 1)
    ensures FreeSet(cells, n) == FreeSet(cells, n - 1) + (if cells[n - 1].seqs == {} then {n - 1} else {})
  {
  }

  lemma {:induction false} FreeBelowCard(cells: seq<Cell>, n: nat)
    requires n <= |cells|
    ensures |FreeBelow(cells, n)| == |FreeSet(cells, n)|
  {
    if n > 0 {
      FreeBelowCard(cells, n - 1);
      FreeSetStep(cells, n);
    } else {
      assert FreeSet(cells, 0) == {};
    }
  }

  /** What a scan has collected when it has enough. */
  lemma {:induction false} CollectedIsFirst(cells: seq<Cell>, n: nat, i: nat)
    requires i <= |cells| && |FreeBelow(cells, i)| == Max(n, 1)
    ensures FirstFree(cells, n, FreeBelow(cells, i))
  {
    var locs := FreeBelow(cells, i);
    FreeBelowOrder(cells, i);
    forall j | j in Free(cells) && j <= locs[|locs| - 1] ensures j in locs {
      FreeBelowAll(cells, i, j);
    }
  }

  lemma {:induction false} FirstFreeExists(cells: seq<Cell>, n: nat) returns (locs: seq<int>)
    requires 0 < n <= |Free(cells)|
    ensures FirstFree(cells, n, locs)
  {
    FreeBelowCard(cells, |cells|);
    assert Free(cells) == FreeSet(cells, |cells|);
    var i := EnoughBelow(cells, n, |cells|);
    CollectedIsFirst(cells, n, i);
    locs := FreeBelow(cells, i);
  }

  lemma {:induction false} EnoughBelow(cells: seq<Cell>, n: nat, k: nat) returns (i: nat)
    requires k <= |cells| && n <= |FreeBelow(cells, k)|
    ensures i <= k && |FreeBelow(cells, i)| == n
  {
    if |FreeBelow(cells, k)| == n {
      i := k;
    } else {
      i := EnoughBelow(cells, n, k - 1);
    }
  }

  /** A permitted forward pass, load or fork always has a next state. */
  lemma {:induction false} StepExists(cfg: Config, ids: set<int>, m: Meta, v: View, op: Op) returns (m': Meta)
    requires Inv(cfg, ids, m, v) && Allowed(cfg, ids, v, op) && |m.cells| <= MAX_INT && !op.Discard?
    ensures Step(cfg, m, op, m')
  {
    match op {
      case Forward(batch) =>
        NeverFull(cfg, ids, m, v, batch);
        var s := SlidMeta(m, batch, cfg.memory);
        var locs := FirstFreeExists(s.cells, |batch|);
        m' := PlacedMeta(s, batch, locs);
      case Load(sid, n) =>
        m' := LoadMeta(cfg, m, sid, n);
      case Fork(src, dst, len, n) =>
        m' := LoadMeta(cfg, CopiedMeta(m, src, dst, len), dst, n);
    }
  }

  // ---- what the mask shows ----

  /** The oldest position a token may attend to. */
  function Floor(cfg: Config, p: int): int
    requires 0 <= p
  {
    Max(Max(0, p - cfg.window), if cfg.chunk > 0 then p - p % cfg.chunk else 0)
  }

  /** In the mask row of a token at position `p`, exactly one location of the current range
      shows each position from the floor up to `p`, and nothing else shows. */
  ghost predicate ShowsExactly(cfg: Config, cells: seq<Cell>, cur: Range, e: Entry)
    requires 0 <= e.pos
  {
    && (forall j :: Attended(cells, e, true, cfg.chunk, cfg.window, j) ==>
          cur.min <= j <= cur.max && Floor(cfg, e.pos) <= cells[j].pos <= e.pos)
    && (forall q :: Floor(cfg, e.pos) <= q <= e.pos ==> ShownAt(cfg, cells, e, q))
    && (forall i, j ::
          (Attended(cells, e, true, cfg.chunk, cfg.window, i)
           && Attended(cells, e, true, cfg.chunk, cfg.window, j)
           && cells[i].pos == cells[j].pos) ==> i == j)
  }

  ghost predicate ShownAt(cfg: Config, cells: seq<Cell>, e: Entry, q: int)
    requires 0 <= e.pos
  {
    exists j :: Attended(cells, e, true, cfg.chunk, cfg.window, j) && cells[j].pos == q
  }

  lemma {:induction false} MaskExact(cfg: Config, ids: set<int>, m: Meta, v: View, batch: seq<Entry>, locs: seq<int>,
                  cur: Range, k: nat)
    requires Inv(cfg, ids, m, v) && Allowed(cfg, ids, v, Forward(batch)) && |batch| <= |locs|
    requires FirstFree(SlidMeta(m, batch, cfg.memory).cells, |batch|, locs)
    requires Spans(cfg, m, batch, locs, cur)
    requires k < |batch| && 0 <= batch[k].pos
    ensures ShowsExactly(cfg, PlacedMeta(SlidMeta(m, batch, cfg.memory), batch, locs).cells, cur, batch[k])
  {
    var e := batch[k];
    var cells := PlacedMeta(SlidMeta(m, batch, cfg.memory), batch, locs).cells;
    var g := ViewStep(cfg, v, Forward(batch));
    ForwardKeepsInv(cfg, ids, m, v, batch, locs);
    assert Rep(cells, g);
    forall j | Attended(cells, e, true, cfg.chunk, cfg.window, j)
      ensures cur.min <= j <= cur.max
    {
      NarrowingSound(m, batch, locs, cfg.window, cfg.memory, cur, k, j, true, cfg.chunk);
    }
    SpanCoversWindow(cfg, ids, v, batch, k);
    forall q | Floor(cfg, e.pos) <= q <= e.pos ensures ShownAt(cfg, cells, e, q) {
      assert Has(cells, e.sid, q);
      var j :| 0 <= j < |cells| && e.sid in cells[j].seqs && cells[j].pos == q;
      assert Attended(cells, e, true, cfg.chunk, cfg.window, j);
    }
  }

  /** After sliding and growing, the interval of a batch token's sequence holds its whole window. */
  lemma {:induction false} SpanCoversWindow(cfg: Config, ids: set<int>, v: View, batch: seq<Entry>, k: nat)
    requires ValidConfig(cfg) && Ready(cfg, ids, v) && Allowed(cfg, ids, v, Forward(batch)) && k < |batch|
    ensures var s := At(ViewStep(cfg, v, Forward(batch)), batch[k].sid);
            s.lo <= Max(0, batch[k].pos - cfg.window) && batch[k].pos < s.hi
  {
    var sv := SlideView(v, cfg.memory);
    SlideContinues(v, batch, cfg.memory);
    var sid := batch[k].sid;
    GrowFacts(sv, batch, |batch|, sid);
    GrowFacts(sv, batch, k, sid);
    assert TakesNext(sv, batch, k);
    assert batch[..|batch|] == batch;
    assert batch[k] in batch && batch[k].pos >= At(sv, sid).hi;
  }

  /** Main theorem. In every run, every permitted batch is stored, and then every token of it
      sees exactly one cell for each position of its window. */
  lemma {:induction false} EveryBatchSeesItsWindow(cfg: Config, ids: set<int>, ms: seq<Meta>, ops: seq<Op>, k: nat,
                                batch: seq<Entry>, cur: Range, t: nat) returns (locs: seq<int>)
    requires Run(cfg, ids, ms, ops) && k < |ops| && ops[k] == Forward(batch) && t < |batch|
    ensures |ms[k].cells| <= MAX_INT && |batch| <= |locs|
    ensures FirstFree(SlidMeta(ms[k], batch, cfg.memory).cells, |batch|, locs)
    ensures ms[k + 1] == PlacedMeta(SlidMeta(ms[k], batch, cfg.memory), batch, locs)
    ensures 0 <= batch[t].pos
    ensures Spans(cfg, ms[k], batch, locs, cur) ==> ShowsExactly(cfg, ms[k + 1].cells, cur, batch[t])
  {
    var v := ViewAfter(cfg, ops[..k]);
    EveryReachableState(cfg, ids, ms, ops, k);
    assert RunStep(cfg, ids, ms, ops, k);
    NeverFull(cfg, ids, ms[k], v, batch);
    var s := SlidMeta(ms[k], batch, cfg.memory);
    locs :| FirstFree(s.cells, |batch|, locs) && |batch| <= |locs| && ms[k + 1] == PlacedMeta(s, batch, locs);
    BatchPositions(v, batch);
    assert batch[t] in batch;
    if Spans(cfg, ms[k], batch, locs, cur) {
      MaskExact(cfg, ids, ms[k], v, batch, locs, cur, t);
    }
  }
}
