/** Whole runs of the causal cache: the key and the value of each token in use are its own. */
module KeyRuns {
  import opened CacheCells
  import opened CausalRanges
  import opened CausalView
  import opened CausalRuns
  import opened KeyRows

  /** What an operation does to the key rows of one layer, next to what it does to the cells. A batch
      brings the contents of its keys. */
  ghost predicate KeyStep(cfg: Config, m: Meta, rows: seq<KeyRow>, op: Op, contents: seq<int>, m': Meta,
                          rows': seq<KeyRow>)
    requires |m.cells| <= MAX_INT && |rows| == |m.cells|
  {
    Step(cfg, m, op, m') &&
    match op
    case Forward(batch) => exists locs :: PutAt(cfg, m, rows, batch, locs, contents, m', rows')
    case Load(_, _) => rows' == rows
    case Fork(_, _, _, _) => rows' == rows
    case Discard(sid, begin, end, ok) =>
      var cells' := RemovedMeta(m, sid, begin, end).cells;
      if ok then rows' == RotatedUpTo(rows, cells', sid, begin, begin - end, |cells'|)
      else if RemoveBlocked(m.cells, sid, begin, end) then rows' == rows
      else PartlyRotated(rows, rows', cells', sid, begin, begin - end)
  }

  /** The batch is stored and its keys are put, rotated to the batch's positions. */
  ghost predicate PutAt(cfg: Config, m: Meta, rows: seq<KeyRow>, batch: seq<Entry>, locs: seq<int>,
                        contents: seq<int>, m': Meta, rows': seq<KeyRow>)
    requires |m.cells| <= MAX_INT && |rows| == |m.cells|
  {
    && Outcome(cfg, m, batch, true, m', locs) && |contents| == |batch| == |locs|
    && (forall k :: 0 <= k < |locs| ==> 0 <= locs[k] < |rows|)
    && rows' == RowsSet(rows, locs, RotatedKeys(batch, contents), |batch|)
  }

  lemma {:induction false} KeyStepKeepsRows(cfg: Config, ids: set<int>, m: Meta, v: View, rows: seq<KeyRow>, op: Op,
                         contents: seq<int>, m': Meta, rows': seq<KeyRow>)
    requires Inv(cfg, ids, m, v) && Allowed(cfg, ids, v, op)
    requires RowsOk(m.cells, rows, {}) && KeyStep(cfg, m, rows, op, contents, m', rows')
    ensures RowsOk(m'.cells, rows', {})
  {
    match op
    case Forward(batch) =>
      var locs :| PutAt(cfg, m, rows, batch, locs, contents, m', rows');
      SlideKeepsRows(m, batch, cfg.memory, rows);
      PutSettlesRows(SlidMeta(m, batch, cfg.memory).cells, batch, locs, rows, RotatedKeys(batch, contents));
    case Load(sid, n) =>
      LoadKeepsRows(cfg, m, sid, n, rows);
    case Fork(src, dst, len, n) =>
      CopyKeepsRows(m, src, dst, len, rows);
      CopiedSound(m, src, dst, len);
      LoadKeepsRows(cfg, CopiedMeta(m, src, dst, len), dst, n, rows);
    case Discard(sid, begin, end, ok) =>
      if ok {
        RemoveKeepsRows(m, sid, begin, end, rows);
      } else {
        ClearRestoresRows(m, sid, begin, end, rows, rows');
      }
  }

  lemma {:induction false} LoadKeepsRows(cfg: Config, m: Meta, sid: int, n: int, rows: seq<KeyRow>)
    requires Sound(m) && RowsOk(m.cells, rows, {}) && 0 <= n <= MAX_INT32
    ensures RowsOk(LoadMeta(cfg, m, sid, n).cells, rows, {})
  {
    var k := if n > 0 && CanResumeCells(cfg, m.cells, sid, n) then n else 0;
    TruncateNeverBlocked(m, sid, k);
    RemoveKeepsRows(m, sid, k, MAX_INT32, rows);
  }

  // ---- what was put for a token ----

  /** What the batch brings for a token, or else what was there before. */
  function Brought(batch: seq<Entry>, data: seq<int>, e: Entry, before: int): int
    requires |batch| == |data|
  {
    if batch == [] then before
    else
      var n := |batch| - 1;
      if batch[n] == e then data[n] else Brought(batch[..n], data[..n], e, before)
  }

  /** What was put for the token that is at position `e.pos` of sequence `e.sid` after the operations,
      followed backwards through removals and forks. */
  function PutFor(ops: seq<Op>, puts: seq<seq<int>>, e: Entry): int
    requires |puts| == |ops|
  {
    if ops == [] then 0
    else
      var n := |ops| - 1;
      match ops[n]
      case Forward(batch) =>
        var before := PutFor(ops[..n], puts[..n], e);
        if |puts[n]| == |batch| then Brought(batch, puts[n], e, before) else before
      case Load(_, _) => PutFor(ops[..n], puts[..n], e)
      case Fork(src, dst, _, _) => PutFor(ops[..n], puts[..n], if e.sid == dst then Entry(src, e.pos) else e)
      case Discard(sid, begin, end, ok) =>
        PutFor(ops[..n], puts[..n],
               if ok && e.sid == sid && e.pos >= begin then Entry(sid, e.pos + (end - begin)) else e)
  }

  /** What was put, seen from after an operation. */
  ghost function PutAfter(op: Op, data: seq<int>, put: Entry -> int): Entry -> int {
    match op
    case Forward(batch) => (e: Entry) => if |data| == |batch| then Brought(batch, data, e, put(e)) else put(e)
    case Load(_, _) => put
    case Fork(src, dst, _, _) => (e: Entry) => put(if e.sid == dst then Entry(src, e.pos) else e)
    case Discard(sid, begin, end, ok) =>
      (e: Entry) => put(if ok && e.sid == sid && e.pos >= begin then Entry(sid, e.pos + (end - begin)) else e)
  }

  /** Every cell in use stores what was put for the token, for each sequence that shares it. */
  ghost predicate DataOk(cells: seq<Cell>, data: seq<int>, put: Entry -> int) {
    && |data| == |cells|
    && forall i, sid :: 0 <= i < |cells| && sid in cells[i].seqs ==> data[i] == put(Entry(sid, cells[i].pos))
  }

  /** The data of a batch written to its locations; every other operation leaves the data where it is. */
  ghost predicate DataStep(cfg: Config, m: Meta, data: seq<int>, op: Op, put: seq<int>, m': Meta, data': seq<int>)
    requires |m.cells| <= MAX_INT && |data| == |m.cells|
  {
    Step(cfg, m, op, m') &&
    match op
    case Forward(batch) => exists locs :: DataAt(cfg, m, data, batch, locs, put, m', data')
    case _ => data' == data
  }

  ghost predicate DataAt(cfg: Config, m: Meta, data: seq<int>, batch: seq<Entry>, locs: seq<int>, put: seq<int>,
                         m': Meta, data': seq<int>)
    requires |m.cells| <= MAX_INT && |data| == |m.cells|
  {
    && Outcome(cfg, m, batch, true, m', locs) && |put| == |batch| == |locs|
    && (forall k :: 0 <= k < |locs| ==> 0 <= locs[k] < |data|)
    && data' == RowsSet(data, locs, put, |batch|)
  }

  function ContentsOf(rows: seq<KeyRow>): (data: seq<int>)
    ensures |data| == |rows|
  {
    seq(|rows|, i requires 0 <= i < |rows| => rows[i].content)
  }

  /** Rotating changes no content: the contents of the keys are data that only batches write. */
  lemma {:induction false} KeyStepIsDataStep(cfg: Config, m: Meta, rows: seq<KeyRow>, op: Op, contents: seq<int>,
                                             m': Meta, rows': seq<KeyRow>)
    requires |m.cells| <= MAX_INT && |rows| == |m.cells| && KeyStep(cfg, m, rows, op, contents, m', rows')
    ensures |rows'| == |rows| && DataStep(cfg, m, ContentsOf(rows), op, contents, m', ContentsOf(rows'))
  {
    match op
    case Forward(batch) =>
      var locs :| PutAt(cfg, m, rows, batch, locs, contents, m', rows');
      ContentsSet(rows, batch, locs, contents, |batch|);
      assert DataAt(cfg, m, ContentsOf(rows), batch, locs, contents, m', ContentsOf(rows'));
    case _ =>
      assert ContentsOf(rows') == ContentsOf(rows);
  }

  lemma {:induction false} ContentsSet(rows: seq<KeyRow>, batch: seq<Entry>, locs: seq<int>, contents: seq<int>, n: nat)
    requires |contents| == |batch| == |locs| && n <= |batch|
    requires forall k :: 0 <= k < |locs| ==> 0 <= locs[k] < |rows|
    ensures ContentsOf(RowsSet(rows, locs, RotatedKeys(batch, contents), n))
         == RowsSet(ContentsOf(rows), locs, contents, n)
  {
    if n > 0 { ContentsSet(rows, batch, locs, contents, n - 1); }
  }

  // ---- each operation ----

  /** The tokens of a batch that continues the view are distinct. */
  lemma {:induction false} BatchDistinct(v: View, batch: seq<Entry>, i: nat, j: nat)
    requires Continues(v, batch) && i < j < |batch|
    ensures batch[i] != batch[j]
  {
    GrowFacts(v, batch, j, batch[j].sid);
    assert TakesNext(v, batch, j) && TakesNext(v, batch, i);
    GrowFacts(v, batch, i, batch[i].sid);
    assert batch[..j][i] == batch[i];
  }

  lemma {:induction false} BroughtAt(batch: seq<Entry>, data: seq<int>, k: nat, before: int)
    requires |batch| == |data| && k < |batch| && forall i, j :: 0 <= i < j < |batch| ==> batch[i] != batch[j]
    ensures Brought(batch, data, batch[k], before) == data[k]
  {
    var n := |batch| - 1;
    if k < n { BroughtAt(batch[..n], data[..n], k, before); }
  }

  lemma {:induction false} NotBrought(batch: seq<Entry>, data: seq<int>, e: Entry, before: int)
    requires |batch| == |data| && e !in batch
    ensures Brought(batch, data, e, before) == before
  {
    if batch != [] { NotBrought(batch[..|batch| - 1], data[..|batch| - 1], e, before); }
  }

  lemma {:induction false} BatchKeepsData(cfg: Config, ids: set<int>, m: Meta, v: View, batch: seq<Entry>,
                                          locs: seq<int>, data: seq<int>, new_: seq<int>, m': Meta, put: Entry -> int)
    requires Inv(cfg, ids, m, v) && Allowed(cfg, ids, v, Forward(batch)) && |m.cells| <= MAX_INT
    requires DataOk(m.cells, data, put)
    requires Outcome(cfg, m, batch, true, m', locs) && |new_| == |batch| == |locs|
    requires forall k :: 0 <= k < |locs| ==> 0 <= locs[k] < |data|
    ensures DataOk(m'.cells, RowsSet(data, locs, new_, |batch|), PutAfter(Forward(batch), new_, put))
  {
    var cells, data' := SlidMeta(m, batch, cfg.memory).cells, RowsSet(data, locs, new_, |batch|);
    PlacedAt(cells, batch, locs, |batch|);
    RowsSetAt(data, locs, new_, |batch|);
    assert locs[..|batch|] == locs;
    forall i, sid | 0 <= i < |m'.cells| && sid in m'.cells[i].seqs
      ensures data'[i] == Brought(batch, new_, Entry(sid, m'.cells[i].pos), put(Entry(sid, m'.cells[i].pos)))
    {
      var e := Entry(sid, m'.cells[i].pos);
      if i in locs {
        var k :| 0 <= k < |locs| && locs[k] == i;
        assert e == batch[k];
        forall a, b | 0 <= a < b < |batch| ensures batch[a] != batch[b] { BatchDistinct(v, batch, a, b); }
        BroughtAt(batch, new_, k, put(e));
      } else {
        assert sid in m.cells[i].seqs && m.cells[i].pos == e.pos;
        if e in batch { BatchIsNew(v, batch, e); }
        NotBrought(batch, new_, e, put(e));
      }
    }
  }

  lemma {:induction false} LoadKeepsData(cfg: Config, m: Meta, sid: int, n: int, data: seq<int>, put: Entry -> int)
    requires Sound(m) && DataOk(m.cells, data, put) && 0 <= n <= MAX_INT32
    ensures DataOk(LoadMeta(cfg, m, sid, n).cells, data, put)
  {
    var k := if n > 0 && CanResumeCells(cfg, m.cells, sid, n) then n else 0;
    TruncateNeverBlocked(m, sid, k);
    forall i | 0 <= i < |m.cells|
      ensures LoadMeta(cfg, m, sid, n).cells[i] == RemoveCell(m.cells[i], sid, k, MAX_INT32) {}
  }

  lemma {:induction false} CopyKeepsData(m: Meta, src: int, dst: int, len: int, n: int, data: seq<int>,
                                         put: Entry -> int)
    requires |m.cells| <= MAX_INT && src != dst && DataOk(m.cells, data, put)
    ensures DataOk(CopiedMeta(m, src, dst, len).cells, data, PutAfter(Fork(src, dst, len, n), [], put))
  {
  }

  /** Where a token was before a removal that did not have to stop at its cell. */
  lemma {:induction false} RemovedFrom(c: Cell, sid: int, begin: int, end: int, t: int)
    requires 0 <= begin <= end < MAX_INT32 && !Blocks(c, sid, begin, end) && t in RemoveCell(c, sid, begin, end).seqs
    ensures var p := RemoveCell(c, sid, begin, end).pos;
            t in c.seqs && c.pos == if t == sid && p >= begin then p + (end - begin) else p
  {
  }

  lemma {:induction false} RemoveKeepsData(m: Meta, sid: int, begin: int, end: int, data: seq<int>, put: Entry -> int)
    requires |m.cells| <= MAX_INT && DataOk(m.cells, data, put)
    requires 0 <= begin <= end < MAX_INT32 && !RemoveBlocked(m.cells, sid, begin, end)
    ensures DataOk(RemovedMeta(m, sid, begin, end).cells, data, PutAfter(Discard(sid, begin, end, true), [], put))
  {
    var cells', put' := RemovedMeta(m, sid, begin, end).cells, PutAfter(Discard(sid, begin, end, true), [], put);
    forall i, t | 0 <= i < |cells'| && t in cells'[i].seqs ensures data[i] == put'(Entry(t, cells'[i].pos)) {
      assert cells'[i] == RemoveCell(m.cells[i], sid, begin, end) && !Blocks(m.cells[i], sid, begin, end);
      RemovedFrom(m.cells[i], sid, begin, end, t);
      assert data[i] == put(Entry(t, m.cells[i].pos));
    }
  }

  lemma {:induction false} ClearKeepsData(m: Meta, sid: int, begin: int, end: int, data: seq<int>, put: Entry -> int)
    requires Sound(m) && DataOk(m.cells, data, put) && 0 <= begin <= end < MAX_INT32
    ensures DataOk(RemovedMeta(RemovedMeta(m, sid, begin, end), sid, 0, MAX_INT32).cells, data, put)
  {
    var m1 := RemovedMeta(m, sid, begin, end);
    var m2 := RemovedMeta(m1, sid, 0, MAX_INT32);
    RemovedSound(m, sid, begin, end);
    TruncateNeverBlocked(m1, sid, 0);
    forall i, t | 0 <= i < |m2.cells| && t in m2.cells[i].seqs
      ensures t in m.cells[i].seqs && m2.cells[i].pos == m.cells[i].pos
    {
      assert m2.cells[i] == RemoveCell(m1.cells[i], sid, 0, MAX_INT32);
      assert t != sid;
      RemoveSparesOthers(m, sid, begin, end, i, t);
      RemoveSparesOthers(m1, sid, 0, MAX_INT32, i, t);
    }
  }

  lemma {:induction false} StepKeepsData(cfg: Config, ids: set<int>, m: Meta, v: View, op: Op, data: seq<int>,
                                         new_: seq<int>, m': Meta, data': seq<int>, put: Entry -> int)
    requires Inv(cfg, ids, m, v) && Allowed(cfg, ids, v, op) && |m.cells| <= MAX_INT && DataOk(m.cells, data, put)
    requires DataStep(cfg, m, data, op, new_, m', data')
    ensures DataOk(m'.cells, data', PutAfter(op, new_, put))
  {
    match op
    case Forward(batch) =>
      var locs :| DataAt(cfg, m, data, batch, locs, new_, m', data');
      BatchKeepsData(cfg, ids, m, v, batch, locs, data, new_, m', put);
    case Load(sid, n) =>
      LoadKeepsData(cfg, m, sid, n, data, put);
    case Fork(src, dst, len, n) =>
      CopyKeepsData(m, src, dst, len, n, data, put);
      CopiedSound(m, src, dst, len);
      LoadKeepsData(cfg, CopiedMeta(m, src, dst, len), dst, n, data, PutAfter(op, new_, put));
    case Discard(sid, begin, end, ok) =>
      if ok {
        RemoveKeepsData(m, sid, begin, end, data, put);
      } else {
        ClearKeepsData(m, sid, begin, end, data, put);
      }
  }

  // ---- every run ----

  ghost predicate KeyRunStep(cfg: Config, ms: seq<Meta>, rs: seq<seq<KeyRow>>, ops: seq<Op>, puts: seq<seq<int>>,
                             k: nat)
    requires k < |ops| == |puts| && |ms| == |rs| == |ops| + 1
  {
    |rs[k]| == |ms[k].cells| <= MAX_INT && KeyStep(cfg, ms[k], rs[k], ops[k], puts[k], ms[k + 1], rs[k + 1])
  }

  /** In every run each used cell's key carries the rotation of the cell's position, whatever was
      shifted, shared, evicted or refused on the way. */
  lemma {:induction false} EveryKeyAtItsPosition(cfg: Config, ids: set<int>, ms: seq<Meta>, rs: seq<seq<KeyRow>>,
                                                 ops: seq<Op>, puts: seq<seq<int>>, k: nat)
    requires Run(cfg, ids, ms, ops) && |rs| == |ms| && k <= |ops| == |puts|
    requires |rs[0]| == cfg.size && forall i :: 0 <= i < |ops| ==> KeyRunStep(cfg, ms, rs, ops, puts, i)
    ensures RowsOk(ms[k].cells, rs[k], {})
  {
    if k > 0 {
      EveryKeyAtItsPosition(cfg, ids, ms, rs, ops, puts, k - 1);
      EveryReachableState(cfg, ids, ms, ops, k - 1);
      assert RunStep(cfg, ids, ms, ops, k - 1) && KeyRunStep(cfg, ms, rs, ops, puts, k - 1);
      KeyStepKeepsRows(cfg, ids, ms[k - 1], ViewAfter(cfg, ops[..k - 1]), rs[k - 1], ops[k - 1], puts[k - 1], ms[k],
                       rs[k]);
    }
  }

  ghost predicate DataRunStep(cfg: Config, ms: seq<Meta>, ds: seq<seq<int>>, ops: seq<Op>, puts: seq<seq<int>>, k: nat)
    requires k < |ops| == |puts| && |ms| == |ds| == |ops| + 1
  {
    |ds[k]| == |ms[k].cells| <= MAX_INT && DataStep(cfg, ms[k], ds[k], ops[k], puts[k], ms[k + 1], ds[k + 1])
  }

  /** In every run each used cell stores the value that was put for its token, and so it does for every
      sequence that shares the cell. */
  lemma {:induction false} EveryValueOfItsToken(cfg: Config, ids: set<int>, ms: seq<Meta>, ds: seq<seq<int>>,
                                                ops: seq<Op>, puts: seq<seq<int>>, k: nat)
    requires Run(cfg, ids, ms, ops) && |ds| == |ms| && k <= |ops| == |puts|
    requires |ds[0]| == cfg.size && forall i :: 0 <= i < |ops| ==> DataRunStep(cfg, ms, ds, ops, puts, i)
    ensures |ds[k]| == |ms[k].cells|
    ensures forall i, sid :: 0 <= i < |ds[k]| && sid in ms[k].cells[i].seqs ==>
              ds[k][i] == PutFor(ops[..k], puts[..k], Entry(sid, ms[k].cells[i].pos))
  {
    if k > 0 {
      var n, before := k - 1, e => PutFor(ops[..k - 1], puts[..k - 1], e);
      EveryValueOfItsToken(cfg, ids, ms, ds, ops, puts, n);
      EveryReachableState(cfg, ids, ms, ops, n);
      assert RunStep(cfg, ids, ms, ops, n) && DataRunStep(cfg, ms, ds, ops, puts, n);
      assert DataOk(ms[n].cells, ds[n], before);
      StepKeepsData(cfg, ids, ms[n], ViewAfter(cfg, ops[..n]), ops[n], ds[n], puts[n], ms[k], ds[k], before);
      assert ops[..k][..n] == ops[..n] && puts[..k][..n] == puts[..n];
      forall e ensures PutFor(ops[..k], puts[..k], e) == PutAfter(ops[n], puts[n], before)(e) {}
    }
  }

  /** In every run the key of each used cell is the key that was put for its token, rotated to the
      position where the token is now. */
  lemma {:induction false} EveryKeyOfItsToken(cfg: Config, ids: set<int>, ms: seq<Meta>, rs: seq<seq<KeyRow>>,
                                              ops: seq<Op>, puts: seq<seq<int>>, k: nat)
    requires Run(cfg, ids, ms, ops) && |rs| == |ms| && k <= |ops| == |puts|
    requires |rs[0]| == cfg.size && forall i :: 0 <= i < |ops| ==> KeyRunStep(cfg, ms, rs, ops, puts, i)
    ensures |rs[k]| == |ms[k].cells|
    ensures forall i, sid :: 0 <= i < |rs[k]| && sid in ms[k].cells[i].seqs ==>
              var pos := ms[k].cells[i].pos;
              rs[k][i] == KeyRow(PutFor(ops[..k], puts[..k], Entry(sid, pos)), pos)
  {
    var ds := seq(|rs|, j requires 0 <= j < |rs| => ContentsOf(rs[j]));
    forall j | 0 <= j < |ops| ensures DataRunStep(cfg, ms, ds, ops, puts, j) {
      assert KeyRunStep(cfg, ms, rs, ops, puts, j);
      KeyStepIsDataStep(cfg, ms[j], rs[j], ops[j], puts[j], ms[j + 1], rs[j + 1]);
    }
    EveryValueOfItsToken(cfg, ids, ms, ds, ops, puts, k);
    EveryKeyAtItsPosition(cfg, ids, ms, rs, ops, puts, k);
  }
}
