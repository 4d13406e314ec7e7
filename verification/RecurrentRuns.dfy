/** Forward passes over the recurrent state: slots for new sequences, private slots for shared ones,
    new rows buffer by buffer, and checkpoints captured along the way. After every pass the state of
    each sequence is the fold of exactly the tokens it holds. */
module RecurrentRuns {
  import opened Wrappers
  import opened SlotTable
  import opened CheckpointRing
  import opened RecurrentState

  // ---- slots for the batch ----

  function AssignUpTo(st: RState, seqs: seq<int>, n: nat): RState
    requires n <= |seqs|
  {
    if n == 0 then st else Assigned(AssignUpTo(st, seqs, n - 1), seqs[n - 1])
  }

  function DetachUpTo(st: RState, seqs: seq<int>, n: nat): RState
    requires n <= |seqs|
  {
    if n == 0 then st else Detached(DetachUpTo(st, seqs, n - 1), seqs[n - 1])
  }

  function WorldAssignUpTo(w: World, seqs: seq<int>, n: nat): (r: World)
    requires n <= |seqs|
    ensures r.st == AssignUpTo(w.st, seqs, n) && r.hist == w.hist
  {
    if n == 0 then w else WorldAssigned(WorldAssignUpTo(w, seqs, n - 1), seqs[n - 1])
  }

  function WorldDetachUpTo(w: World, seqs: seq<int>, n: nat): (r: World)
    requires n <= |seqs|
    ensures r.st == DetachUpTo(w.st, seqs, n) && r.hist == w.hist
  {
    if n == 0 then w else WorldDetached(WorldDetachUpTo(w, seqs, n - 1), seqs[n - 1])
  }

  /** Only sequences of `ids` hold slots, and there are at least as many slots as ids. */
  ghost predicate Within(w: World, ids: set<int>) {
    w.st.slots.slotOf.Keys <= ids && |ids| <= N(w.st)
  }

  lemma {:induction false} RoomToAssign(w: World, ids: set<int>, sid: int)
    requires SlotsOk(w.st.slots) && Within(w, ids) && sid in ids && sid !in w.st.slots.slotOf
    ensures w.st.slots.free != []
  {
    SubsetCard(w.st.slots.slotOf.Keys + {sid}, ids);
    AllocNeverFails(w.st.slots);
  }

  lemma {:induction false} RoomToDetach(w: World, ids: set<int>, sid: int)
    requires SlotsOk(w.st.slots) && Within(w, ids) && Shared(w.st.slots, sid)
    ensures w.st.slots.free != []
  {
    SubsetCard(w.st.slots.slotOf.Keys, ids);
    AllocNeverFails(w.st.slots);
  }

  /** What one step of the batch preparation keeps: coherence, the slots and the agreement of all sequences. */
  ghost predicate StepKeeps(m: Model, w: World, w': World, ids: set<int>) {
    && Coherent(m, w') && Within(w', ids) && w.st.slots.slotOf.Keys <= w'.st.slots.slotOf.Keys
    && forall s :: Synced(w, s) ==> Synced(w', s)
  }

  lemma {:induction false} AssignOneKeeps(m: Model, w: World, ids: set<int>, sid: int)
    requires Coherent(m, w) && Within(w, ids) && sid in ids
    ensures StepKeeps(m, w, WorldAssigned(w, sid), ids) && sid in WorldAssigned(w, sid).st.slots.slotOf
  {
    if sid !in w.st.slots.slotOf {
      RoomToAssign(w, ids, sid);
      AssignKeeps(m, w, sid);
    }
  }

  lemma {:induction false} DetachOneKeeps(m: Model, w: World, ids: set<int>, sid: int)
    requires Coherent(m, w) && Within(w, ids)
    ensures StepKeeps(m, w, WorldDetached(w, sid), ids) && !Shared(WorldDetached(w, sid).st.slots, sid)
    ensures forall t :: t in w.st.slots.slotOf && !Shared(w.st.slots, t) ==> !Shared(WorldDetached(w, sid).st.slots, t)
  {
    if Shared(w.st.slots, sid) {
      RoomToDetach(w, ids, sid);
      DetachKeeps(m, w, sid);
      TopIsFree(w.st.slots);
      forall t | t in w.st.slots.slotOf && !Shared(w.st.slots, t) ensures !Shared(Detach(w.st.slots, sid), t) {
        StaysPrivate(w.st.slots, sid, t);
      }
    }
  }

  lemma {:induction false} StaysPrivate(s: Slots, sid: int, t: int)
    requires SlotsOk(s) && Shared(s, sid) && s.free != [] && t in s.slotOf && !Shared(s, t)
    ensures !Shared(Detach(s, sid), t)
  {
    TopIsFree(s);
    UsedSlot(s, t);
  }

  /** Assigning never fails, keeps coherence, and gives every sequence of the batch a slot. */
  lemma {:induction false} AssignAllKeeps(m: Model, w: World, ids: set<int>, seqs: seq<int>, n: nat)
    requires Coherent(m, w) && Within(w, ids) && n <= |seqs| && forall i :: 0 <= i < |seqs| ==> seqs[i] in ids
    ensures StepKeeps(m, w, WorldAssignUpTo(w, seqs, n), ids)
    ensures forall i :: 0 <= i < n ==> seqs[i] in WorldAssignUpTo(w, seqs, n).st.slots.slotOf
  {
    if n > 0 {
      var w1, w2 := WorldAssignUpTo(w, seqs, n - 1), WorldAssignUpTo(w, seqs, n);
      AssignAllKeeps(m, w, ids, seqs, n - 1);
      AssignOneKeeps(m, w1, ids, seqs[n - 1]);
      forall i | 0 <= i < n ensures seqs[i] in w2.st.slots.slotOf {
        if i < n - 1 { assert seqs[i] in w1.st.slots.slotOf.Keys; }
      }
    }
  }

  /** Detaching never fails, keeps coherence, and makes the slots of the batch private. */
  lemma {:induction false} DetachAllKeeps(m: Model, w: World, ids: set<int>, seqs: seq<int>, n: nat)
    requires Coherent(m, w) && Within(w, ids) && n <= |seqs|
    requires forall i :: 0 <= i < |seqs| ==> seqs[i] in w.st.slots.slotOf
    ensures StepKeeps(m, w, WorldDetachUpTo(w, seqs, n), ids)
    ensures forall i :: 0 <= i < n ==> !Shared(WorldDetachUpTo(w, seqs, n).st.slots, seqs[i])
  {
    if n > 0 {
      var w1, w2 := WorldDetachUpTo(w, seqs, n - 1), WorldDetachUpTo(w, seqs, n);
      DetachAllKeeps(m, w, ids, seqs, n - 1);
      DetachOneKeeps(m, w1, ids, seqs[n - 1]);
      forall i | 0 <= i < n ensures !Shared(w2.st.slots, seqs[i]) {
        if i < n - 1 { assert seqs[i] in w1.st.slots.slotOf.Keys; }
      }
    }
  }

  function SlotFor(st: RState, sid: int): int {
    if sid in st.slots.slotOf then st.slots.slotOf[sid] else -1
  }

  function CurSlots(st: RState, seqs: seq<int>): (xs: seq<int>)
    ensures |xs| == |seqs|
  {
    seq(|seqs|, i requires 0 <= i < |seqs| => SlotFor(st, seqs[i]))
  }

  ghost predicate AllDistinct(xs: seq<int>) {
    forall i, j :: 0 <= i < j < |xs| ==> xs[i] != xs[j]
  }

  /** Private slots of distinct sequences are distinct. */
  lemma {:induction false} PrivateDistinct(st: RState, seqs: seq<int>)
    requires SlotsOk(st.slots) && AllDistinct(seqs)
    requires forall i :: 0 <= i < |seqs| ==> seqs[i] in st.slots.slotOf && !Shared(st.slots, seqs[i])
    ensures AllDistinct(CurSlots(st, seqs))
    ensures forall i :: 0 <= i < |seqs| ==>
        0 <= CurSlots(st, seqs)[i] < N(st) && st.slots.refs[CurSlots(st, seqs)[i]] == 1
  {
    forall i | 0 <= i < |seqs|
      ensures 0 <= CurSlots(st, seqs)[i] < N(st) && st.slots.refs[CurSlots(st, seqs)[i]] == 1
    {
      UsedSlot(st.slots, seqs[i]);
    }
    forall i, j | 0 <= i < j < |seqs| ensures CurSlots(st, seqs)[i] != CurSlots(st, seqs)[j] {
      OnlyUser(st.slots, seqs[i], seqs[j]);
    }
  }

  // ---- rows and checkpoints ----

  /** Buffers, rings, and the ring entries claimed so far during one pass. */
  datatype PState = PState(bufs: map<Buf, seq<Row>>, rings: map<int, Ring>, idxs: map<int, int>)

  function RingIn(rings: map<int, Ring>, count: nat, x: int): Ring {
    if x in rings then rings[x] else NewRing(count)
  }

  function BufRows(bufs: map<Buf, seq<Row>>, b: Buf, n: nat): seq<Row> {
    if b in bufs then bufs[b] else seq(n, _ => 0)
  }

  /** The first `k` new rows written to their slots. */
  function SetRows(rows: seq<Row>, xs: seq<int>, src: seq<Row>, k: nat): (r: seq<Row>)
    requires k <= |xs| && k <= |src|
    ensures |r| == |rows|
  {
    if k == 0 then rows
    else
      var r := SetRows(rows, xs, src, k - 1);
      if 0 <= xs[k - 1] < |rows| then r[xs[k - 1] := src[k - 1]] else r
  }

  lemma {:induction false} SetRowsAt(rows: seq<Row>, xs: seq<int>, src: seq<Row>, k: nat)
    requires k <= |xs| && k <= |src| && AllDistinct(xs) && forall i :: 0 <= i < |xs| ==> 0 <= xs[i] < |rows|
    ensures forall i :: 0 <= i < k ==> SetRows(rows, xs, src, k)[xs[i]] == src[i]
    ensures forall x :: 0 <= x < |rows| && x !in xs ==> SetRows(rows, xs, src, k)[x] == rows[x]
  {
    if k > 0 { SetRowsAt(rows, xs, src, k - 1); }
  }

  /** Put a row into the checkpoint of this pass, claiming a ring entry the first time. */
  function CaptureOne(ps: PState, count: nat, x: int, pos: int, b: Buf, row: Row): PState {
    var ring := RingIn(ps.rings, count, x);
    var idx := if x in ps.idxs then ps.idxs[x] else ring.next;
    if count == 0 || !(0 <= idx < |ring.entries|) || !(0 <= ring.next < |ring.entries|) then ps
    else
      var ring1 := if x in ps.idxs then ring else Recorded(ring, pos);
      var e := ring1.entries[idx];
      ps.(rings := ps.rings[x := ring1.(entries := ring1.entries[idx := e.(rows := e.rows[b := row])])],
          idxs := ps.idxs[x := idx])
  }

  function CaptureUpTo(ps: PState, count: nat, xs: seq<int>, plan: seq<int>, b: Buf, rows: seq<Row>, k: nat): PState
    requires k <= |plan| <= |xs| && |plan| <= |rows|
  {
    if k == 0 then ps
    else
      var p := CaptureUpTo(ps, count, xs, plan, b, rows, k - 1);
      if plan[k - 1] < 0 then p else CaptureOne(p, count, xs[k - 1], plan[k - 1], b, rows[k - 1])
  }

  /** New state for one buffer: rows first, then the checkpoints. */
  function UpdateBuf(ps: PState, n: nat, count: nat, xs: seq<int>, plan: seq<int>, b: Buf, rows: seq<Row>): PState
    requires |plan| <= |xs| == |rows|
  {
    CaptureUpTo(ps.(bufs := ps.bufs[b := SetRows(BufRows(ps.bufs, b, n), xs, rows, |xs|)]),
                count, xs, plan, b, rows, |plan|)
  }

  ghost predicate SameAt(p: PState, q: PState, x: int) {
    && (x in p.rings <==> x in q.rings) && (x in p.rings ==> p.rings[x] == q.rings[x])
    && (x in p.idxs <==> x in q.idxs) && (x in p.idxs ==> p.idxs[x] == q.idxs[x])
  }

  lemma {:induction false} CaptureOneFrame(p: PState, q: PState, count: nat, x: int, pos: int, b: Buf, row: Row)
    ensures CaptureOne(p, count, x, pos, b, row).bufs == p.bufs
    ensures forall y :: y != x ==> SameAt(p, CaptureOne(p, count, x, pos, b, row), y)
    ensures SameAt(p, q, x) ==> SameAt(CaptureOne(p, count, x, pos, b, row), CaptureOne(q, count, x, pos, b, row), x)
  {
  }

  /** Captures go to their own slot's ring only. */
  lemma {:induction false} CaptureFrame(ps: PState, count: nat, xs: seq<int>, plan: seq<int>, b: Buf, rows: seq<Row>,
                                        k: nat)
    requires k <= |plan| <= |xs| && |plan| <= |rows|
    ensures CaptureUpTo(ps, count, xs, plan, b, rows, k).bufs == ps.bufs
    ensures forall x :: x !in xs[..k] ==> SameAt(ps, CaptureUpTo(ps, count, xs, plan, b, rows, k), x)
  {
    if k > 0 {
      CaptureFrame(ps, count, xs, plan, b, rows, k - 1);
      assert xs[..k] == xs[..k - 1] + [xs[k - 1]];
      CaptureOneFrame(CaptureUpTo(ps, count, xs, plan, b, rows, k - 1), ps, count, xs[k - 1], plan[k - 1], b,
                      rows[k - 1]);
    }
  }

  /** The slot of index `i` ends as if only its own capture had happened. */
  lemma {:induction false} CaptureAt(ps: PState, count: nat, xs: seq<int>, plan: seq<int>, b: Buf, rows: seq<Row>,
                                     k: nat, i: nat)
    requires i < k <= |plan| <= |xs| && |plan| <= |rows| && AllDistinct(xs)
    ensures SameAt(if plan[i] < 0 then ps else CaptureOne(ps, count, xs[i], plan[i], b, rows[i]),
                   CaptureUpTo(ps, count, xs, plan, b, rows, k), xs[i])
  {
    var p := CaptureUpTo(ps, count, xs, plan, b, rows, k - 1);
    if i < k - 1 {
      CaptureAt(ps, count, xs, plan, b, rows, k - 1, i);
      CaptureOneFrame(p, ps, count, xs[k - 1], plan[k - 1], b, rows[k - 1]);
    } else {
      CaptureFrame(ps, count, xs, plan, b, rows, i);
      assert xs[i] !in xs[..i];
      CaptureOneFrame(ps, p, count, xs[i], plan[i], b, rows[i]);
    }
  }

  // ---- the invariant inside a pass ----

  /** The fixed data of a pass: slots, histories before and after, and planned checkpoint positions
      (negative for none; empty when checkpoints are off). */
  datatype Pass = Pass(xs: seq<int>, before: seq<seq<Token>>, after: seq<seq<Token>>, plan: seq<int>)

  ghost predicate PassOk(p: Pass, w: World) {
    && |p.xs| == |p.before| == |p.after| && (|p.plan| == |p.xs| || p.plan == [])
    && AllDistinct(p.xs)
    && (forall i :: 0 <= i < |p.xs| ==> 0 <= p.xs[i] < N(w.st) && S(w, p.xs[i]) == p.before[i])
    && (forall i :: 0 <= i < |p.xs| ==> p.before[i] <= p.after[i] && |p.after[i]| <= MAX_INT32)
    && (forall i :: 0 <= i < |p.plan| ==> p.plan[i] < 0 || p.plan[i] == |p.after[i]| - 1)
  }

  /** Buffers in `done` carry the new rows in the batch's slots; everything else is as it was. */
  ghost predicate RowsMid(m: Model, w: World, p: Pass, done: set<Buf>, bufs: map<Buf, seq<Row>>)
    requires PassOk(p, w)
  {
    && bufs.Keys <= m.bufs && (forall b :: b in bufs ==> |bufs[b]| == N(w.st))
    && (forall b, x :: b in m.bufs && x !in p.xs ==> RowAt(bufs, b, x) == RowAt(w.st.bufs, b, x))
    && (forall b, i :: b in m.bufs && 0 <= i < |p.xs| ==>
          RowAt(bufs, b, p.xs[i]) == Fold(m, b, if b in done then p.after[i] else p.before[i]))
  }

  /** The ring of a batch slot: untouched, or with one entry claimed for the new position that
      already holds the rows of the buffers in `done`. */
  ghost predicate RingMid(m: Model, r0: Ring, r: Ring, claimed: bool, idx: int, pos: int, h: seq<Token>,
                          done: set<Buf>) {
    if !claimed then r == r0
    else
      && |r.entries| == |r0.entries| && 0 <= idx < |r.entries|
      && (forall j :: 0 <= j < |r.entries| && j != idx ==> r.entries[j] == r0.entries[j])
      && r.entries[idx].pos == pos == r.lastPos
      && (forall b :: b in done ==> b in r.entries[idx].rows && r.entries[idx].rows[b] == Fold(m, b, h))
  }

  ghost predicate RingShape(m: Model, r: Ring, count: nat) {
    |r.entries| == count && RingOk(r) && forall i :: 0 <= i < |r.entries| ==> r.entries[i].rows.Keys <= m.bufs
  }

  ghost predicate RingsMid(m: Model, w: World, p: Pass, done: set<Buf>, ps: PState)
    requires PassOk(p, w)
  {
    && (forall x :: x in ps.rings ==> 0 <= x < N(w.st) && RingShape(m, ps.rings[x], w.st.count))
    && (forall x :: x !in p.xs ==> RingIn(ps.rings, w.st.count, x) == RingOf(w.st, x))
    && (forall i :: 0 <= i < |p.xs| ==> SlotMid(m, w, p, done, ps, i))
  }

  ghost predicate SlotMid(m: Model, w: World, p: Pass, done: set<Buf>, q: PState, i: nat)
    requires PassOk(p, w) && i < |p.xs|
  {
    var x := p.xs[i];
    && (x in q.idxs <==> i < |p.plan| && p.plan[i] >= 0 && done != {} && w.st.count > 0)
    && RingMid(m, RingOf(w.st, x), RingIn(q.rings, w.st.count, x), x in q.idxs,
               if x in q.idxs then q.idxs[x] else -1, |p.after[i]| - 1, p.after[i], done)
  }

  lemma {:induction false} RowsStep(m: Model, w: World, p: Pass, done: set<Buf>, bufs: map<Buf, seq<Row>>, b: Buf,
                                    rows: seq<Row>)
    requires PassOk(p, w) && RowsMid(m, w, p, done, bufs) && b in m.bufs && |rows| == |p.xs|
    requires forall i :: 0 <= i < |rows| ==> rows[i] == Fold(m, b, p.after[i])
    ensures RowsMid(m, w, p, done + {b}, bufs[b := SetRows(BufRows(bufs, b, N(w.st)), p.xs, rows, |p.xs|)])
  {
    var old_ := BufRows(bufs, b, N(w.st));
    SetRowsAt(old_, p.xs, rows, |p.xs|);
    var bufs' := bufs[b := SetRows(old_, p.xs, rows, |p.xs|)];
    forall c, x | c in m.bufs && x !in p.xs ensures RowAt(bufs', c, x) == RowAt(w.st.bufs, c, x) {
      assert RowAt(bufs, c, x) == RowAt(w.st.bufs, c, x);
    }
    forall c, i | c in m.bufs && 0 <= i < |p.xs|
      ensures RowAt(bufs', c, p.xs[i]) == Fold(m, c, if c in done + {b} then p.after[i] else p.before[i])
    {
      if c != b { assert RowAt(bufs', c, p.xs[i]) == RowAt(bufs, c, p.xs[i]); }
    }
  }

  /** One capture into a ring. */
  lemma {:induction false} CaptureRing(m: Model, r0: Ring, ps: PState, count: nat, x: int, pos: int, b: Buf, row: Row,
                                       h: seq<Token>, done: set<Buf>)
    requires count > 0 && b in m.bufs && row == Fold(m, b, h) && RingShape(m, RingIn(ps.rings, count, x), count)
    requires RingMid(m, r0, RingIn(ps.rings, count, x), x in ps.idxs,
                     if x in ps.idxs then ps.idxs[x] else -1, pos, h, done)
    requires x in ps.idxs <==> done != {}
    ensures var q := CaptureOne(ps, count, x, pos, b, row);
            && x in q.idxs && x in q.rings && RingShape(m, q.rings[x], count)
            && RingMid(m, r0, q.rings[x], true, q.idxs[x], pos, h, done + {b})
  {
    var ring := RingIn(ps.rings, count, x);
    RecordedOk(ring, pos);
    var idx := if x in ps.idxs then ps.idxs[x] else ring.next;
    var ring1 := if x in ps.idxs then ring else Recorded(ring, pos);
    var e := ring1.entries[idx];
    var q := CaptureOne(ps, count, x, pos, b, row);
    assert q.rings[x] == ring1.(entries := ring1.entries[idx := e.(rows := e.rows[b := row])]);
    assert LiveBelow(q.rings[x].entries, count) == LiveBelow(ring1.entries, count);
  }

  lemma {:induction false} SlotStep(m: Model, w: World, p: Pass, done: set<Buf>, ps: PState, b: Buf, rows: seq<Row>,
                                    i: nat)
    requires PassOk(p, w) && RingsMid(m, w, p, done, ps) && b in m.bufs && |rows| == |p.xs| && i < |p.xs|
    requires rows[i] == Fold(m, b, p.after[i])
    ensures var q := CaptureUpTo(ps, w.st.count, p.xs, p.plan, b, rows, |p.plan|);
            SlotMid(m, w, p, done + {b}, q, i) && (p.xs[i] in q.rings ==> RingShape(m, q.rings[p.xs[i]], w.st.count))
  {
    NewRingClean(w.st.count);
    assert SlotMid(m, w, p, done, ps, i);
    CaptureFrame(ps, w.st.count, p.xs, p.plan, b, rows, |p.plan|);
    if i < |p.plan| {
      CaptureAt(ps, w.st.count, p.xs, p.plan, b, rows, |p.plan|, i);
      if p.plan[i] >= 0 && w.st.count > 0 {
        CaptureRing(m, RingOf(w.st, p.xs[i]), ps, w.st.count, p.xs[i], p.plan[i], b, rows[i], p.after[i], done);
      }
    } else {
      assert p.xs[i] !in p.xs[..|p.plan|];
    }
  }

  /** Updating one more buffer. */
  lemma {:induction false} RingsStep(m: Model, w: World, p: Pass, done: set<Buf>, ps: PState, b: Buf, rows: seq<Row>)
    requires PassOk(p, w) && RingsMid(m, w, p, done, ps) && b in m.bufs && |rows| == |p.xs|
    requires forall i :: 0 <= i < |rows| ==> rows[i] == Fold(m, b, p.after[i])
    ensures RingsMid(m, w, p, done + {b}, UpdateBuf(ps, N(w.st), w.st.count, p.xs, p.plan, b, rows))
  {
    var ps1 := ps.(bufs := ps.bufs[b := SetRows(BufRows(ps.bufs, b, N(w.st)), p.xs, rows, |p.xs|)]);
    assert RingsMid(m, w, p, done, ps1) by {
      forall i | 0 <= i < |p.xs| ensures SlotMid(m, w, p, done, ps1, i) { assert SlotMid(m, w, p, done, ps, i); }
    }
    var q := CaptureUpTo(ps1, w.st.count, p.xs, p.plan, b, rows, |p.plan|);
    CaptureFrame(ps1, w.st.count, p.xs, p.plan, b, rows, |p.plan|);
    forall i | 0 <= i < |p.xs|
      ensures SlotMid(m, w, p, done + {b}, q, i) && (p.xs[i] in q.rings ==> RingShape(m, q.rings[p.xs[i]], w.st.count))
    {
      SlotStep(m, w, p, done, ps1, b, rows, i);
    }
    forall x | x !in p.xs ensures SameAt(ps1, q, x) {
      assert x !in p.xs[..|p.plan|];
    }
    forall x | x in q.rings ensures 0 <= x < N(w.st) && RingShape(m, q.rings[x], w.st.count) {
      if x in p.xs {
        var i :| 0 <= i < |p.xs| && p.xs[i] == x;
      } else {
        assert SameAt(ps1, q, x);
      }
    }
  }

  // ---- the end of a pass ----

  /** Values stored under the first `k` keys. */
  function PutAll(base: map<int, seq<Token>>, keys: seq<int>, vals: seq<seq<Token>>, k: nat): map<int, seq<Token>>
    requires k <= |keys| && k <= |vals|
  {
    if k == 0 then base else PutAll(base, keys, vals, k - 1)[keys[k - 1] := vals[k - 1]]
  }

  lemma {:induction false} PutAllAt(base: map<int, seq<Token>>, keys: seq<int>, vals: seq<seq<Token>>, k: nat)
    requires k <= |keys| && k <= |vals| && AllDistinct(keys)
    ensures forall i :: 0 <= i < k ==>
        keys[i] in PutAll(base, keys, vals, k) && PutAll(base, keys, vals, k)[keys[i]] == vals[i]
    ensures forall x :: x !in keys ==> (x in PutAll(base, keys, vals, k) <==> x in base)
    ensures forall x :: x !in keys && x in base ==> PutAll(base, keys, vals, k)[x] == base[x]
  {
    if k > 0 { PutAllAt(base, keys, vals, k - 1); }
  }

  function WorldPassed(w: World, seqs: seq<int>, p: Pass, ps: PState): World
    requires |seqs| == |p.xs| == |p.after|
  {
    World(w.st.(bufs := ps.bufs, rings := ps.rings),
          PutAll(w.hist, seqs, p.after, |seqs|), PutAll(w.seen, p.xs, p.after, |seqs|))
  }

  lemma {:induction false} RingEnd(m: Model, r0: Ring, r: Ring, claimed: bool, idx: int, before: seq<Token>,
                                   after: seq<Token>)
    requires RingMatches(m, r0, before) && before <= after && after != []
    requires RingMid(m, r0, r, claimed, idx, |after| - 1, after, m.bufs)
    ensures RingMatches(m, r, after)
  {
    forall i | 0 <= i < |r.entries| && Live(r.entries[i]) ensures CkptMatches(m, r.entries[i], after) {
      if claimed && i == idx {
        assert after[..|after| - 1 + 1] == after;
      } else {
        assert CkptMatches(m, r0.entries[i], before);
        assert after[..r.entries[i].pos + 1] == before[..r.entries[i].pos + 1];
      }
    }
  }

  lemma {:induction false} SlotEnd(m: Model, w: World, p: Pass, ps: PState, i: nat)
    requires Coherent(m, w) && PassOk(p, w) && i < |p.xs| && p.after[i] != [] && w.st.slots.refs[p.xs[i]] > 0
    requires RowsMid(m, w, p, m.bufs, ps.bufs) && RingsMid(m, w, p, m.bufs, ps)
    ensures RowsMatch(m, ps.bufs, p.xs[i], p.after[i])
    ensures RingMatches(m, RingIn(ps.rings, w.st.count, p.xs[i]), p.after[i])
  {
    var x := p.xs[i];
    assert SlotCoherent(m, w, x) && SlotMid(m, w, p, m.bufs, ps, i);
    RingEnd(m, RingOf(w.st, x), RingIn(ps.rings, w.st.count, x), x in ps.idxs,
            if x in ps.idxs then ps.idxs[x] else -1, p.before[i], p.after[i]);
  }

  ghost predicate PrivateBatch(st: RState, seqs: seq<int>, xs: seq<int>) {
    && AllDistinct(seqs) && xs == CurSlots(st, seqs)
    && forall i :: 0 <= i < |seqs| ==> seqs[i] in st.slots.slotOf && !Shared(st.slots, seqs[i])
  }

  /** No other sequence uses a slot of the batch. */
  lemma {:induction false} NotOfBatch(st: RState, seqs: seq<int>, xs: seq<int>, t: int)
    requires SlotsOk(st.slots) && PrivateBatch(st, seqs, xs) && t !in seqs && t in st.slots.slotOf
    ensures st.slots.slotOf[t] !in xs
  {
    if st.slots.slotOf[t] in xs {
      var i :| 0 <= i < |xs| && xs[i] == st.slots.slotOf[t];
      OnlyUser(st.slots, seqs[i], t);
    }
  }

  /** After the pass the batch holds and has seen the longer histories, the others what they had. */
  lemma {:induction false} PassHistories(w: World, seqs: seq<int>, p: Pass, ps: PState)
    requires SlotsOk(w.st.slots) && PassOk(p, w) && PrivateBatch(w.st, seqs, p.xs)
    ensures var w' := WorldPassed(w, seqs, p, ps);
            && (forall i :: 0 <= i < |seqs| ==> H(w', seqs[i]) == p.after[i] == S(w', p.xs[i]))
            && (forall t :: t !in seqs ==> H(w', t) == H(w, t))
            && (forall x :: x !in p.xs ==> S(w', x) == S(w, x))
  {
    PutHistories(w, seqs, p, ps);
  }

  lemma {:induction false} PutHistories(w: World, seqs: seq<int>, p: Pass, ps: PState)
    requires |seqs| == |p.xs| == |p.after| && AllDistinct(seqs) && AllDistinct(p.xs)
    ensures var w' := WorldPassed(w, seqs, p, ps);
            && (forall i :: 0 <= i < |seqs| ==> H(w', seqs[i]) == p.after[i] == S(w', p.xs[i]))
            && (forall t :: t !in seqs ==> H(w', t) == H(w, t))
            && (forall x :: x !in p.xs ==> S(w', x) == S(w, x))
  {
    PutAllAt(w.hist, seqs, p.after, |seqs|);
    PutAllAt(w.seen, p.xs, p.after, |seqs|);
  }

  lemma {:induction false} PassHolds(w: World, seqs: seq<int>, p: Pass, ps: PState)
    requires SlotsOk(w.st.slots) && HoldsPrefix(w) && PassOk(p, w) && PrivateBatch(w.st, seqs, p.xs)
    ensures HoldsPrefix(WorldPassed(w, seqs, p, ps))
  {
    var w' := WorldPassed(w, seqs, p, ps);
    PassHistories(w, seqs, p, ps);
    forall t | t in w.st.slots.slotOf ensures H(w', t) <= S(w', w.st.slots.slotOf[t]) {
      if t in seqs {
        var i :| 0 <= i < |seqs| && seqs[i] == t;
        assert p.xs[i] == w.st.slots.slotOf[t];
      } else {
        NotOfBatch(w.st, seqs, p.xs, t);
      }
    }
  }

  lemma {:induction false} PassSlot(m: Model, w: World, seqs: seq<int>, p: Pass, ps: PState, i: nat)
    requires Coherent(m, w) && PassOk(p, w) && PrivateBatch(w.st, seqs, p.xs) && i < |p.xs| && p.after[i] != []
    requires RowsMid(m, w, p, m.bufs, ps.bufs) && RingsMid(m, w, p, m.bufs, ps)
    ensures SlotCoherent(m, WorldPassed(w, seqs, p, ps), p.xs[i])
  {
    PassHistories(w, seqs, p, ps);
    PrivateDistinct(w.st, seqs);
    SlotEnd(m, w, p, ps, i);
  }

  lemma {:induction false} PassOther(m: Model, w: World, seqs: seq<int>, p: Pass, ps: PState, x: int)
    requires SlotsOk(w.st.slots) && PassOk(p, w) && PrivateBatch(w.st, seqs, p.xs) && x !in p.xs
    requires RowsMid(m, w, p, m.bufs, ps.bufs) && RingsMid(m, w, p, m.bufs, ps)
    ensures SameSlot(m, w, WorldPassed(w, seqs, p, ps), x)
  {
    PassHistories(w, seqs, p, ps);
  }

  lemma {:induction false} PassShape(m: Model, w: World, p: Pass, ps: PState)
    requires Shape(m, w.st) && PassOk(p, w) && RowsMid(m, w, p, m.bufs, ps.bufs) && RingsMid(m, w, p, m.bufs, ps)
    ensures Shape(m, w.st.(bufs := ps.bufs, rings := ps.rings))
  {
  }

  /** When every buffer has been updated, the cache is coherent with the longer histories. */
  lemma {:induction false} PassEnd(m: Model, w: World, seqs: seq<int>, p: Pass, ps: PState)
    requires Coherent(m, w) && PassOk(p, w) && PrivateBatch(w.st, seqs, p.xs)
    requires forall i :: 0 <= i < |p.xs| ==> p.after[i] != []
    requires RowsMid(m, w, p, m.bufs, ps.bufs) && RingsMid(m, w, p, m.bufs, ps)
    ensures Coherent(m, WorldPassed(w, seqs, p, ps))
  {
    var w' := WorldPassed(w, seqs, p, ps);
    PassHolds(w, seqs, p, ps);
    PassShape(m, w, p, ps);
    forall x | 0 <= x < N(w.st) && x !in p.xs ensures SameSlot(m, w, w', x) {
      PassOther(m, w, seqs, p, ps, x);
    }
    forall x | 0 <= x < N(w.st) && x in p.xs ensures SlotCoherent(m, w', x) {
      var i :| 0 <= i < |p.xs| && p.xs[i] == x;
      PassSlot(m, w, seqs, p, ps, i);
    }
    OnlySlots(m, w, w', set x | x in p.xs);
  }

  // ---- the updates of a pass ----

  /** The rows a model computes for one buffer from the rows it reads. */
  function NewRows(m: Model, b: Buf, bufs: map<Buf, seq<Row>>, xs: seq<int>, toks: seq<seq<Token>>): (r: seq<Row>)
    requires |xs| == |toks|
    ensures |r| == |xs|
  {
    seq(|xs|, i requires 0 <= i < |xs| => FoldFrom(m, b, RowAt(bufs, b, xs[i]), toks[i]))
  }

  function UpdateAll(m: Model, ps: PState, n: nat, count: nat, xs: seq<int>, plan: seq<int>,
                     toks: seq<seq<Token>>, order: seq<Buf>, k: nat): PState
    requires k <= |order| && |plan| <= |xs| == |toks|
  {
    if k == 0 then ps
    else
      var q := UpdateAll(m, ps, n, count, xs, plan, toks, order, k - 1);
      UpdateBuf(q, n, count, xs, plan, order[k - 1], NewRows(m, order[k - 1], q.bufs, xs, toks))
  }

  ghost function Done(order: seq<Buf>): set<Buf> { set b | b in order }

  ghost predicate OnceEach(order: seq<Buf>, bufs: set<Buf>) {
    Done(order) == bufs && forall i, j :: 0 <= i < j < |order| ==> order[i] != order[j]
  }

  /** What holds while a pass updates its buffers. */
  ghost predicate Mid(m: Model, w: World, p: Pass, done: set<Buf>, q: PState)
    requires PassOk(p, w)
  {
    RowsMid(m, w, p, done, q.bufs) && RingsMid(m, w, p, done, q)
  }

  lemma {:induction false} MidStep(m: Model, w: World, p: Pass, done: set<Buf>, q: PState, b: Buf,
                                   toks: seq<seq<Token>>)
    requires Shape(m, w.st) && PassOk(p, w) && Mid(m, w, p, done, q) && b in m.bufs && b !in done && |toks| == |p.xs|
    requires forall i :: 0 <= i < |p.xs| ==> p.after[i] == p.before[i] + toks[i]
    ensures Mid(m, w, p, done + {b}, UpdateBuf(q, N(w.st), w.st.count, p.xs, p.plan, b,
                                               NewRows(m, b, q.bufs, p.xs, toks)))
  {
    var rows := NewRows(m, b, q.bufs, p.xs, toks);
    forall i | 0 <= i < |p.xs| ensures rows[i] == Fold(m, b, p.after[i]) {
      FoldAppend(m, b, p.before[i], toks[i]);
    }
    RowsStep(m, w, p, done, q.bufs, b, rows);
    RingsStep(m, w, p, done, q, b, rows);
    CaptureFrame(q.(bufs := q.bufs[b := SetRows(BufRows(q.bufs, b, N(w.st)), p.xs, rows, |p.xs|)]),
                 w.st.count, p.xs, p.plan, b, rows, |p.plan|);
  }

  lemma {:induction false} NextBuf(order: seq<Buf>, bufs: set<Buf>, k: nat)
    requires OnceEach(order, bufs) && 0 < k <= |order|
    ensures order[k - 1] in bufs && order[k - 1] !in Done(order[..k - 1])
    ensures Done(order[..k]) == Done(order[..k - 1]) + {order[k - 1]}
  {
    assert order[k - 1] in Done(order);
    assert order[..k] == order[..k - 1] + [order[k - 1]];
  }

  lemma {:induction false} UpdateAllMid(m: Model, w: World, p: Pass, toks: seq<seq<Token>>, order: seq<Buf>, k: nat)
    requires Coherent(m, w) && PassOk(p, w) && |toks| == |p.xs| && k <= |order| && OnceEach(order, m.bufs)
    requires forall i :: 0 <= i < |p.xs| ==> p.after[i] == p.before[i] + toks[i] && w.st.slots.refs[p.xs[i]] > 0
    ensures Mid(m, w, p, Done(order[..k]),
                UpdateAll(m, PState(w.st.bufs, w.st.rings, map[]), N(w.st), w.st.count, p.xs, p.plan, toks, order, k))
  {
    if k == 0 {
      UpdatesStart(m, w, p);
      assert Done(order[..0]) == {};
    } else {
      UpdateAllMid(m, w, p, toks, order, k - 1);
      NextBuf(order, m.bufs, k);
      MidStep(m, w, p, Done(order[..k - 1]),
              UpdateAll(m, PState(w.st.bufs, w.st.rings, map[]), N(w.st), w.st.count, p.xs, p.plan, toks, order, k - 1),
              order[k - 1], toks);
    }
  }

  lemma {:induction false} UpdatesStart(m: Model, w: World, p: Pass)
    requires Coherent(m, w) && PassOk(p, w)
    requires forall i :: 0 <= i < |p.xs| ==> w.st.slots.refs[p.xs[i]] > 0
    ensures RowsMid(m, w, p, {}, w.st.bufs) && RingsMid(m, w, p, {}, PState(w.st.bufs, w.st.rings, map[]))
  {
    forall i | 0 <= i < |p.xs| ensures RowsMatch(m, w.st.bufs, p.xs[i], p.before[i]) {
      assert SlotCoherent(m, w, p.xs[i]);
    }
  }

  // ---- the whole pass ----

  /** When a checkpoint is due: not before `minPos`, and `interval` after the last one. */
  datatype Due = Due(minPos: int, interval: int)

  function PlanAt(due: Due, ring: Ring, pos: int): int {
    if pos < due.minPos then -1
    else if ring.lastPos < 0 || pos - ring.lastPos >= due.interval then pos
    else -1
  }

  /** Planning looks at, and if need be creates, the ring of every slot that is far enough along. */
  function PlannedRings(due: Due, st: RState, xs: seq<int>, poss: seq<int>, k: nat): map<int, Ring>
    requires k <= |xs| && k <= |poss|
  {
    if k == 0 then st.rings
    else
      var rings := PlannedRings(due, st, xs, poss, k - 1);
      if poss[k - 1] < due.minPos then rings else rings[xs[k - 1] := RingIn(rings, st.count, xs[k - 1])]
  }

  function PlanFor(due: Due, st: RState, xs: seq<int>, poss: seq<int>): (plan: seq<int>)
    requires |xs| == |poss|
    ensures |plan| == |xs| || plan == []
    ensures forall i :: 0 <= i < |plan| ==> plan[i] < 0 || plan[i] == poss[i]
  {
    if st.count == 0 then []
    else seq(|xs|, i requires 0 <= i < |xs| => PlanAt(due, RingOf(st, xs[i]), poss[i]))
  }

  function Planned(due: Due, st: RState, xs: seq<int>, poss: seq<int>): RState
    requires |xs| == |poss|
  {
    if st.count == 0 then st else st.(rings := PlannedRings(due, st, xs, poss, |xs|))
  }

  lemma {:induction false} PlannedSame(due: Due, st: RState, xs: seq<int>, poss: seq<int>, k: nat)
    requires k <= |xs| && k <= |poss|
    ensures forall x :: RingIn(PlannedRings(due, st, xs, poss, k), st.count, x) == RingOf(st, x)
    ensures forall x :: x in PlannedRings(due, st, xs, poss, k) ==> x in st.rings || x in xs
  {
    if k > 0 { PlannedSame(due, st, xs, poss, k - 1); }
  }

  lemma {:induction false} PlanKeeps(m: Model, w: World, due: Due, xs: seq<int>, poss: seq<int>)
    requires Coherent(m, w) && |xs| == |poss| && forall i :: 0 <= i < |xs| ==> 0 <= xs[i] < N(w.st)
    ensures Coherent(m, w.(st := Planned(due, w.st, xs, poss)))
  {
    PlannedSame(due, w.st, xs, poss, |xs|);
    NewRingClean(w.st.count);
    var w' := w.(st := Planned(due, w.st, xs, poss));
    forall x | x in w'.st.rings ensures 0 <= x < N(w.st) && w'.st.rings[x] == RingOf(w.st, x) {
      assert w'.st.rings[x] == RingIn(w'.st.rings, w.st.count, x);
    }
    OnlySlots(m, w, w', {});
  }

  /** The histories of the batch with their new tokens. */
  function Longer(w: World, seqs: seq<int>, toks: seq<seq<Token>>): (r: seq<seq<Token>>)
    requires |seqs| == |toks|
    ensures |r| == |seqs|
  {
    seq(|seqs|, i requires 0 <= i < |seqs| => H(w, seqs[i]) + toks[i])
  }

  function LastPositions(w: World, seqs: seq<int>, toks: seq<seq<Token>>): (r: seq<int>)
    requires |seqs| == |toks|
    ensures |r| == |seqs|
  {
    seq(|seqs|, i requires 0 <= i < |seqs| => |H(w, seqs[i])| + |toks[i]| - 1)
  }

  function WorldPlanned(w: World, due: Due, xs: seq<int>, poss: seq<int>): World
    requires |xs| == |poss|
  {
    w.(st := Planned(due, w.st, xs, poss))
  }

  /** The state once every sequence of the batch has a slot and checkpoints are planned. */
  function Started(w: World, due: Due, seqs: seq<int>, toks: seq<seq<Token>>): (r: World)
    requires |seqs| == |toks|
    ensures r.hist == w.hist
  {
    var w1 := WorldAssignUpTo(w, seqs, |seqs|);
    WorldPlanned(w1, due, CurSlots(w1.st, seqs), LastPositions(w, seqs, toks))
  }

  /** The state right before the first update: slots assigned, checkpoints planned, slots private. */
  function Prepared(w: World, due: Due, seqs: seq<int>, toks: seq<seq<Token>>): (r: World)
    requires |seqs| == |toks|
    ensures r.hist == w.hist
  {
    WorldDetachUpTo(Started(w, due, seqs, toks), seqs, |seqs|)
  }

  function PassOf(w: World, due: Due, seqs: seq<int>, toks: seq<seq<Token>>): (p: Pass)
    requires |seqs| == |toks|
    ensures |p.xs| == |p.before| == |p.after| == |seqs| && |p.plan| <= |seqs|
  {
    var w1 := WorldAssignUpTo(w, seqs, |seqs|);
    var xs := CurSlots(Prepared(w, due, seqs, toks).st, seqs);
    Pass(xs, seq(|seqs|, i requires 0 <= i < |seqs| => H(w, seqs[i])), Longer(w, seqs, toks),
         PlanFor(due, w1.st, CurSlots(w1.st, seqs), LastPositions(w, seqs, toks)))
  }

  /** A forward pass: prepare, then update every buffer in some order. */
  function AfterPass(m: Model, w: World, due: Due, seqs: seq<int>, toks: seq<seq<Token>>, order: seq<Buf>): World
    requires |seqs| == |toks|
  {
    var w2, p := Prepared(w, due, seqs, toks), PassOf(w, due, seqs, toks);
    WorldPassed(w2, seqs, p,
                UpdateAll(m, PState(w2.st.bufs, w2.st.rings, map[]), N(w2.st), w2.st.count, p.xs, p.plan, toks, order,
                          |order|))
  }

  ghost predicate BatchOk(w: World, ids: set<int>, seqs: seq<int>, toks: seq<seq<Token>>) {
    && |seqs| == |toks| && AllDistinct(seqs)
    && forall i :: 0 <= i < |seqs| ==>
         seqs[i] in ids && Synced(w, seqs[i]) && toks[i] != [] && |H(w, seqs[i])| + |toks[i]| <= MAX_INT32
  }

  lemma {:induction false} StepsKeep(m: Model, w: World, w1: World, w2: World, ids: set<int>)
    requires StepKeeps(m, w, w1, ids) && StepKeeps(m, w1, w2, ids)
    ensures StepKeeps(m, w, w2, ids)
  {
  }

  lemma {:induction false} StartedKeeps(m: Model, w: World, ids: set<int>, due: Due, seqs: seq<int>,
                                        toks: seq<seq<Token>>)
    requires Coherent(m, w) && Within(w, ids) && BatchOk(w, ids, seqs, toks)
    ensures StepKeeps(m, w, Started(w, due, seqs, toks), ids)
    ensures forall i :: 0 <= i < |seqs| ==> seqs[i] in Started(w, due, seqs, toks).st.slots.slotOf
  {
    var w1 := WorldAssignUpTo(w, seqs, |seqs|);
    AssignAllKeeps(m, w, ids, seqs, |seqs|);
    forall i | 0 <= i < |seqs| ensures 0 <= CurSlots(w1.st, seqs)[i] < N(w1.st) { UsedSlot(w1.st.slots, seqs[i]); }
    PlanKeeps(m, w1, due, CurSlots(w1.st, seqs), LastPositions(w, seqs, toks));
  }

  lemma {:induction false} PreparedKeeps(m: Model, w: World, ids: set<int>, due: Due, seqs: seq<int>,
                                         toks: seq<seq<Token>>)
    requires Coherent(m, w) && Within(w, ids) && BatchOk(w, ids, seqs, toks)
    ensures StepKeeps(m, w, Prepared(w, due, seqs, toks), ids)
    ensures PrivateBatch(Prepared(w, due, seqs, toks).st, seqs, PassOf(w, due, seqs, toks).xs)
  {
    var w1, w2 := Started(w, due, seqs, toks), Prepared(w, due, seqs, toks);
    StartedKeeps(m, w, ids, due, seqs, toks);
    DetachAllKeeps(m, w1, ids, seqs, |seqs|);
    StepsKeep(m, w, w1, w2, ids);
    forall i | 0 <= i < |seqs| ensures seqs[i] in w2.st.slots.slotOf { assert seqs[i] in w1.st.slots.slotOf.Keys; }
  }

  /** Preparing a pass never runs out of slots and keeps every sequence's state; afterwards the
      slots of the batch are private and distinct. */
  lemma {:induction false} PreparedOk(m: Model, w: World, ids: set<int>, due: Due, seqs: seq<int>,
                                      toks: seq<seq<Token>>)
    requires Coherent(m, w) && Within(w, ids) && BatchOk(w, ids, seqs, toks)
    ensures var w2, p := Prepared(w, due, seqs, toks), PassOf(w, due, seqs, toks);
            && StepKeeps(m, w, w2, ids) && PassOk(p, w2) && PrivateBatch(w2.st, seqs, p.xs)
            && (forall i :: 0 <= i < |p.xs| ==> w2.st.slots.refs[p.xs[i]] == 1)
  {
    var w2, p := Prepared(w, due, seqs, toks), PassOf(w, due, seqs, toks);
    PreparedKeeps(m, w, ids, due, seqs, toks);
    PrivateDistinct(w2.st, seqs);
    forall i | 0 <= i < |seqs| ensures S(w2, p.xs[i]) == p.before[i] {
      assert Synced(w, seqs[i]) && Synced(w2, seqs[i]);
    }
  }

  /** What a pass promises: the batch holds, and its rows are those of, the longer histories; no
      other sequence changes. */
  ghost predicate Passed(w: World, w': World, seqs: seq<int>, toks: seq<seq<Token>>)
    requires |seqs| == |toks|
  {
    && (forall i :: 0 <= i < |seqs| ==> H(w', seqs[i]) == H(w, seqs[i]) + toks[i] && Synced(w', seqs[i]))
    && (forall t :: t !in seqs ==> H(w', t) == H(w, t) && (Synced(w, t) ==> Synced(w', t)))
  }

  lemma {:induction false} OthersSynced(w: World, w2: World, seqs: seq<int>, p: Pass, ps: PState, t: int)
    requires SlotsOk(w2.st.slots) && PassOk(p, w2) && PrivateBatch(w2.st, seqs, p.xs) && t !in seqs && Synced(w2, t)
    ensures Synced(WorldPassed(w2, seqs, p, ps), t)
  {
    PassHistories(w2, seqs, p, ps);
    if t in w2.st.slots.slotOf { NotOfBatch(w2.st, seqs, p.xs, t); }
  }

  lemma {:induction false} PassedHistories(w: World, w2: World, seqs: seq<int>, toks: seq<seq<Token>>, p: Pass,
                                           ps: PState)
    requires SlotsOk(w2.st.slots) && PassOk(p, w2) && PrivateBatch(w2.st, seqs, p.xs) && |seqs| == |toks|
    requires w2.hist == w.hist && p.after == Longer(w, seqs, toks) && forall t :: Synced(w, t) ==> Synced(w2, t)
    ensures Passed(w, WorldPassed(w2, seqs, p, ps), seqs, toks)
  {
    var w' := WorldPassed(w2, seqs, p, ps);
    PassHistories(w2, seqs, p, ps);
    forall t | t !in seqs && Synced(w, t) ensures Synced(w', t) {
      OthersSynced(w, w2, seqs, p, ps, t);
    }
    forall i | 0 <= i < |seqs| ensures Synced(w', seqs[i]) && H(w', seqs[i]) == H(w, seqs[i]) + toks[i] {
      BatchSynced(w, w2, seqs, toks, p, ps, i);
    }
  }

  lemma {:induction false} BatchSynced(w: World, w2: World, seqs: seq<int>, toks: seq<seq<Token>>, p: Pass,
                                       ps: PState, i: nat)
    requires SlotsOk(w2.st.slots) && PassOk(p, w2) && PrivateBatch(w2.st, seqs, p.xs) && |seqs| == |toks| && i < |seqs|
    requires p.after == Longer(w, seqs, toks)
    ensures Synced(WorldPassed(w2, seqs, p, ps), seqs[i])
    ensures H(WorldPassed(w2, seqs, p, ps), seqs[i]) == H(w, seqs[i]) + toks[i]
  {
    PassHistories(w2, seqs, p, ps);
    assert p.xs[i] == w2.st.slots.slotOf[seqs[i]];
  }

  lemma {:induction false} PassKeeps(m: Model, w: World, ids: set<int>, due: Due, seqs: seq<int>,
                                     toks: seq<seq<Token>>, order: seq<Buf>)
    requires Coherent(m, w) && Within(w, ids) && BatchOk(w, ids, seqs, toks) && OnceEach(order, m.bufs)
    ensures Coherent(m, AfterPass(m, w, due, seqs, toks, order)) && Within(AfterPass(m, w, due, seqs, toks, order), ids)
    ensures Passed(w, AfterPass(m, w, due, seqs, toks, order), seqs, toks)
  {
    var w2, p := Prepared(w, due, seqs, toks), PassOf(w, due, seqs, toks);
    var q := UpdateAll(m, PState(w2.st.bufs, w2.st.rings, map[]), N(w2.st), w2.st.count, p.xs, p.plan, toks, order,
                       |order|);
    PreparedOk(m, w, ids, due, seqs, toks);
    UpdateAllMid(m, w2, p, toks, order, |order|);
    assert order[..|order|] == order;
    PassEnd(m, w2, seqs, p, q);
    PassedHistories(w, w2, seqs, toks, p, q);
  }

  // ---- going back to a prefix ----

  /** The checkpoint that a sequence would go back to, or -1. */
  function Resume(st: RState, sid: int, target: int): int {
    if target > 0 && sid in st.slots.slotOf && st.slots.slotOf[sid] in st.rings
    then BestIn(st.rings[st.slots.slotOf[sid]].entries, target)
    else -1
  }

  /** How many tokens remain when a sequence goes back to at most `target` of them. */
  function ResumeTo(st: RState, sid: int, target: int): int {
    if Resume(st, sid, target) >= 0 && HasCheckpoint(st, sid, Resume(st, sid, target))
    then st.rings[st.slots.slotOf[sid]].entries[Resume(st, sid, target)].pos + 1
    else 0
  }

  /** Roll back to the best checkpoint, or clear the sequence when there is none. */
  ghost function WorldBack(w: World, sid: int, target: int): World
    requires InRange(w.st.slots)
  {
    if Resume(w.st, sid, target) >= 0 then WorldRestored(w, sid, Resume(w.st, sid, target)) else WorldCleared(w, sid)
  }

  lemma {:induction false} ResumeCheckpoint(st: RState, sid: int, target: int)
    requires Resume(st, sid, target) >= 0
    ensures HasCheckpoint(st, sid, Resume(st, sid, target))
    ensures 0 < ResumeTo(st, sid, target) <= target
    ensures forall i :: HasCheckpoint(st, sid, i) && st.rings[st.slots.slotOf[sid]].entries[i].pos < target ==>
              st.rings[st.slots.slotOf[sid]].entries[i].pos < ResumeTo(st, sid, target)
  {
    BestIsHighest(st.rings[st.slots.slotOf[sid]].entries, target, |st.rings[st.slots.slotOf[sid]].entries|);
  }

  lemma {:induction false} WithinAfterBack(w: World, ids: set<int>, sid: int, target: int)
    requires SlotsOk(w.st.slots) && Within(w, ids)
    ensures Within(WorldBack(w, sid, target), ids)
    ensures forall t :: t != sid ==> H(WorldBack(w, sid, target), t) == H(w, t)
  {
  }

  /** Rolling back leaves tokens, rows and checkpoints of the sequence at the same prefix, the
      longest one below the target for which there is a checkpoint; other sequences keep theirs. */
  lemma {:induction false} BackKeeps(m: Model, w: World, ids: set<int>, sid: int, target: int)
    requires Coherent(m, w) && Within(w, ids) && target <= |H(w, sid)|
    ensures Coherent(m, WorldBack(w, sid, target)) && Within(WorldBack(w, sid, target), ids)
    ensures 0 <= ResumeTo(w.st, sid, target) <= |H(w, sid)|
    ensures H(WorldBack(w, sid, target), sid) == H(w, sid)[..ResumeTo(w.st, sid, target)]
    ensures Synced(WorldBack(w, sid, target), sid)
    ensures forall t :: t != sid && Synced(w, t) ==> Synced(WorldBack(w, sid, target), t)
  {
    var idx := Resume(w.st, sid, target);
    WithinAfterBack(w, ids, sid, target);
    if idx >= 0 {
      ResumeCheckpoint(w.st, sid, target);
      if Shared(w.st.slots, sid) { RoomToDetach(w, ids, sid); }
      RestoreKeeps(m, w, sid, idx);
    } else {
      ClearKeeps(m, w, sid);
    }
  }

  /** A pass for which a checkpoint is planned leaves it behind, in a slot of the sequence's own. */
  lemma {:induction false} CheckpointLeft(m: Model, w: World, ids: set<int>, due: Due, g: int, toks: seq<Token>,
                                          order: seq<Buf>)
    requires Coherent(m, w) && Within(w, ids) && BatchOk(w, ids, [g], [toks]) && OnceEach(order, m.bufs)
    requires m.bufs != {} && w.st.count > 0 && PassOf(w, due, [g], [toks]).plan != []
        && PassOf(w, due, [g], [toks]).plan[0] >= 0
    ensures var st := AfterPass(m, w, due, [g], [toks], order).st;
            && g in st.slots.slotOf && 0 <= st.slots.slotOf[g] < N(st) && st.slots.refs[st.slots.slotOf[g]] == 1
            && var r := RingOf(st, st.slots.slotOf[g]);
               r.lastPos == |H(w, g)| + |toks| - 1 && exists i :: 0 <= i < |r.entries| && r.entries[i].pos == r.lastPos
  {
    var w2, p := Prepared(w, due, [g], [toks]), PassOf(w, due, [g], [toks]);
    var q := UpdateAll(m, PState(w2.st.bufs, w2.st.rings, map[]), N(w2.st), w2.st.count, p.xs, p.plan, [toks], order,
                       |order|);
    PreparedOk(m, w, ids, due, [g], [toks]);
    UpdateAllMid(m, w2, p, [toks], order, |order|);
    assert order[..|order|] == order;
    CountPrepared(w, due, [g], [toks]);
    assert SlotMid(m, w2, p, m.bufs, q, 0) && p.xs[0] in q.idxs;
    assert p.after[0] == H(w, g) + toks;
  }

  lemma {:induction false} CountPrepared(w: World, due: Due, seqs: seq<int>, toks: seq<seq<Token>>)
    requires |seqs| == |toks|
    ensures Prepared(w, due, seqs, toks).st.count == w.st.count
  {
    CountAssigned(w.st, seqs, |seqs|);
    CountDetached(Started(w, due, seqs, toks).st, seqs, |seqs|);
  }

  lemma {:induction false} CountAssigned(st: RState, seqs: seq<int>, k: nat)
    requires k <= |seqs|
    ensures AssignUpTo(st, seqs, k).count == st.count
  {
    if k > 0 { CountAssigned(st, seqs, k - 1); }
  }

  lemma {:induction false} CountDetached(st: RState, seqs: seq<int>, k: nat)
    requires k <= |seqs|
    ensures DetachUpTo(st, seqs, k).count == st.count && N(DetachUpTo(st, seqs, k)) == N(st)
  {
    if k > 0 { CountDetached(st, seqs, k - 1); }
  }

  // ---- forking onto a slot with checkpoints ----

  /** No checkpoints stay behind in an unused slot when the target leaves a slot of its own: there are
      none, or going back in the fork makes a private copy in that very slot. */
  ghost predicate ForkSafe(st: RState, src: int, dst: int, target: int)
    requires InRange(st.slots)
  {
    !LeavesStale(st, dst) || Resume(Forked(st, src, dst), dst, target) >= 0
  }

  /** The same with the target's checkpoints forgotten first. */
  function Tidied(w: World, dst: int): World {
    if dst in w.st.slots.slotOf && w.st.slots.slotOf[dst] in w.st.rings then
      var y := w.st.slots.slotOf[dst];
      w.(st := w.st.(rings := w.st.rings[y := ResetRing(w.st.rings[y])]))
    else w
  }

  lemma {:induction false} TidiedKeeps(m: Model, w: World, dst: int)
    requires Coherent(m, w) && LeavesStale(w.st, dst)
    ensures Coherent(m, Tidied(w, dst)) && !LeavesStale(Tidied(w, dst).st, dst)
  {
    var y := w.st.slots.slotOf[dst];
    NewRingClean(w.st.count);
    assert SlotCoherent(m, w, y);
    ResetRingOk(w.st.rings[y]);
    var w' := Tidied(w, dst);
    assert RingOf(w'.st, y) == ResetRing(w.st.rings[y]);
    OnlySlot(m, w, w', y);
  }

  lemma {:induction false} CopyOverReset(src: Ring, dst: Ring)
    requires |src.entries| == |dst.entries|
    ensures CopiedRing(src, ResetRing(dst)) == CopiedRing(src, dst)
  {
  }

  /** Where the slots are after the only user of a slot was made a fork of another sequence. */
  lemma {:induction false} ForkedFrom(s: Slots, src: int, dst: int)
    requires SlotsOk(s) && src != dst && dst in s.slotOf && 0 <= s.slotOf[dst] < |s.refs| && s.refs[s.slotOf[dst]] == 1
    ensures var y, s1 := s.slotOf[dst], Release(s, dst);
            && s1.free == s.free + [y] && s1.refs == s.refs[y := 0] && SlotsOk(s1)
            && (src in s.slotOf ==> src in s1.slotOf && 0 <= s.slotOf[src] < |s.refs| && s.slotOf[src] != y)
            && (src in s.slotOf ==>
                  var s2 := Share(s1, src, dst);
                  && SlotsOk(s2) && Top(s2) == y && s2.free == s1.free && s2.slotOf[dst] == s.slotOf[src]
                  && s2.refs[s.slotOf[src]] > 1 && s2.refs[y] == 0)
  {
    ReleaseOk(s, dst);
    if src in s.slotOf {
      UsedSlot(s, src);
      OnlyUser(s, dst, src);
      ShareOk(Release(s, dst), src, dst);
    }
  }

  /** Going back in the fork copies over the checkpoints that stayed behind. */
  lemma {:induction false} CopyCovers(st: RState, dst: int, y: int)
    requires StOk(st) && Shared(st.slots, dst) && st.slots.free != [] && Top(st.slots) == y && 0 <= y < N(st)
    requires st.slots.slotOf[dst] != y && y in st.rings
    requires exists target :: Resume(st, dst, target) >= 0
    ensures Detached(st.(rings := st.rings[y := ResetRing(st.rings[y])]), dst) == Detached(st, dst)
  {
    var x := st.slots.slotOf[dst];
    var target :| Resume(st, dst, target) >= 0;
    BestIsHighest(st.rings[x].entries, target, |st.rings[x].entries|);
    LiveCard(st.rings[x].entries, |st.rings[x].entries|);
    CopyOverReset(st.rings[x], st.rings[y]);
    var st0 := st.(rings := st.rings[y := ResetRing(st.rings[y])]);
    assert CopyCheckpoints(st0, x, y) == CopyCheckpoints(st, x, y);
  }

  lemma {:induction false} StaleTaken(m: Model, w: World, src: int, dst: int, len: int, target: int)
    requires Coherent(m, w) && src != dst && 0 <= len && LeavesStale(w.st, dst)
    requires Resume(Forked(w.st, src, dst), dst, target) >= 0
    ensures var st, st0 := Forked(w.st, src, dst), Forked(Tidied(w, dst).st, src, dst);
            && Resume(st0, dst, target) == Resume(st, dst, target) && Detached(st0, dst) == Detached(st, dst)
            && Shared(st.slots, dst) && CanAlloc(st) && st0.slots == st.slots
            && ResumeTo(st0, dst, target) == ResumeTo(st, dst, target)
  {
    var y, st := w.st.slots.slotOf[dst], Forked(w.st, src, dst);
    NewRingClean(w.st.count);
    ForkedFrom(w.st.slots, src, dst);
    ForkedTidied(w, src, dst);
    ResumeElsewhere(st, y, ResetRing(st.rings[y]), dst, target);
    CopyCovers(st, dst, y);
  }

  lemma {:induction false} ForkedTidied(w: World, src: int, dst: int)
    requires InRange(w.st.slots) && dst in w.st.slots.slotOf && w.st.slots.slotOf[dst] in w.st.rings
    ensures var y, st := w.st.slots.slotOf[dst], Forked(w.st, src, dst);
            Forked(Tidied(w, dst).st, src, dst) == st.(rings := st.rings[y := ResetRing(st.rings[y])])
  {
  }

  lemma {:induction false} ResumeElsewhere(st: RState, y: int, ring: Ring, sid: int, target: int)
    requires sid in st.slots.slotOf && st.slots.slotOf[sid] != y
    ensures var st0 := st.(rings := st.rings[y := ring]);
            Resume(st0, sid, target) == Resume(st, sid, target)
                && ResumeTo(st0, sid, target) == ResumeTo(st, sid, target)
  {
  }

  lemma {:induction false} SameBack(f: World, f0: World, dst: int, target: int)
    requires InRange(f.st.slots) && Shared(f.st.slots, dst) && CanAlloc(f.st) && f0.st.slots == f.st.slots
    requires Resume(f0.st, dst, target) == Resume(f.st, dst, target) >= 0 && Detached(f0.st, dst) == Detached(f.st, dst)
    requires f0.hist == f.hist && f0.seen == f.seen
    ensures WorldBack(f0, dst, target) == WorldBack(f, dst, target)
  {
    assert WorldDetached(f0, dst) == WorldDetached(f, dst);
  }

  /** A slot that the next new sequence gets offers checkpoints of the history `told`. */
  ghost predicate OnOffer(m: Model, w: World, y: int, told: seq<Token>) {
    && Shape(m, w.st) && CanAlloc(w.st) && Top(w.st.slots) == y && y in w.st.rings
    && !RingClean(w.st.rings[y]) && RingMatches(m, w.st.rings[y], told)
  }

  /** The slots after the fork was cleared again. */
  lemma {:induction false} UnsafeSlots(s: Slots, src: int, dst: int)
    requires SlotsOk(s) && src != dst && dst in s.slotOf && 0 <= s.slotOf[dst] < |s.refs| && s.refs[s.slotOf[dst]] == 1
    ensures var y, s1 := s.slotOf[dst], Release(s, dst);
            && SlotsOk(s1) && s1.free == s.free + [y] && s1.refs[y] == 0 && dst !in s1.slotOf
            && (src in s.slotOf ==> src in s1.slotOf && 0 <= s1.slotOf[src] < |s1.refs|)
            && (src in s.slotOf ==>
                  var s2 := Share(s1, src, dst);
                  dst in s2.slotOf && s2.refs[s2.slotOf[dst]] > 1 && Release(s2, dst) == s1)
  {
    ForkedFrom(s, src, dst);
    if src in s.slotOf {
      var s1 := Release(s, dst);
      UsedSlot(s1, src);
      var s2 := Share(s1, src, dst);
      assert s2.slotOf - {dst} == s1.slotOf;
    }
  }

  /** After an unsafe fork the old tokens of the target are on offer, and the state is not coherent. */
  lemma {:induction false} UnsafeFork(m: Model, w: World, src: int, dst: int, len: int, target: int)
    requires Coherent(m, w) && src != dst && 0 <= len && !ForkSafe(w.st, src, dst, target)
    ensures var w' := WorldBack(WorldForked(w, src, dst, len), dst, target);
            && OnOffer(m, w', w.st.slots.slotOf[dst], S(w, w.st.slots.slotOf[dst]))
            && dst !in w'.st.slots.slotOf && H(w', dst) == [] && !Coherent(m, w')
  {
    var y, f := w.st.slots.slotOf[dst], WorldForked(w, src, dst, len);
    var w' := WorldBack(f, dst, target);
    NewRingClean(w.st.count);
    UnsafeSlots(w.st.slots, src, dst);
    assert w'.st == w.st.(slots := Release(w.st.slots, dst));
    UnsafeState(m, w, w', dst);
  }

  lemma {:induction false} UnsafeState(m: Model, w: World, w': World, dst: int)
    requires Coherent(m, w) && LeavesStale(w.st, dst) && SlotsOk(Release(w.st.slots, dst))
    requires w'.st == w.st.(slots := Release(w.st.slots, dst))
    ensures OnOffer(m, w', w.st.slots.slotOf[dst], S(w, w.st.slots.slotOf[dst])) && !Coherent(m, w')
  {
    var y := w.st.slots.slotOf[dst];
    NewRingClean(w.st.count);
    assert SlotCoherent(m, w, y);
    assert RingOf(w'.st, y) == RingOf(w.st, y);
    assert !SlotCoherent(m, w', y);
  }

  // ---- what a new sequence makes of such checkpoints ----

  lemma {:induction false} NoCapture(ps: PState, count: nat, xs: seq<int>, plan: seq<int>, b: Buf, rows: seq<Row>,
                                     k: nat)
    requires k <= |plan| <= |xs| && |plan| <= |rows| && forall i :: 0 <= i < |plan| ==> plan[i] < 0
    ensures CaptureUpTo(ps, count, xs, plan, b, rows, k) == ps
  {
    if k > 0 { NoCapture(ps, count, xs, plan, b, rows, k - 1); }
  }

  lemma {:induction false} NothingCaptured(m: Model, ps: PState, n: nat, count: nat, xs: seq<int>, plan: seq<int>,
                                           toks: seq<seq<Token>>, order: seq<Buf>, k: nat)
    requires k <= |order| && |plan| <= |xs| == |toks| && forall i :: 0 <= i < |plan| ==> plan[i] < 0
    requires forall b :: b in ps.bufs ==> |ps.bufs[b]| == n
    ensures var q := UpdateAll(m, ps, n, count, xs, plan, toks, order, k);
            q.rings == ps.rings && forall b :: b in q.bufs ==> |q.bufs[b]| == n
  {
    if k > 0 {
      NothingCaptured(m, ps, n, count, xs, plan, toks, order, k - 1);
      var q := UpdateAll(m, ps, n, count, xs, plan, toks, order, k - 1);
      var b, rows := order[k - 1], NewRows(m, order[k - 1], q.bufs, xs, toks);
      NoCapture(q.(bufs := q.bufs[b := SetRows(BufRows(q.bufs, b, n), xs, rows, |xs|)]), count, xs, plan, b, rows,
                |plan|);
    }
  }

  /** A new sequence whose first tokens leave no checkpoint: it gets the slot on top and the rings stay. */
  lemma {:induction false} QuietPass(m: Model, due: Due, w: World, y: int, g: int, toks: seq<Token>, order: seq<Buf>)
    requires Shape(m, w.st) && CanAlloc(w.st) && Top(w.st.slots) == y && g !in w.st.slots.slotOf && H(w, g) == []
    requires toks != [] && (y in w.st.rings || |toks| - 1 < due.minPos) && PlanAt(due, RingOf(w.st, y), |toks| - 1) < 0
    ensures var w' := AfterPass(m, w, due, [g], [toks], order);
            && w'.st.slots == Alloc(w.st.slots, g) && w'.st.rings == w.st.rings && w'.st.count == w.st.count
                && H(w', g) == toks
            && (forall b :: b in w'.st.bufs ==> |w'.st.bufs[b]| == N(w.st))
  {
    TopIsFree(w.st.slots);
    var w1 := WorldAssigned(w, g);
    assert WorldAssignUpTo(w, [g], 1) == w1 by { assert WorldAssignUpTo(w, [g], 0) == w; }
    assert CurSlots(w1.st, [g]) == [y];
    var poss := LastPositions(w, [g], [toks]);
    assert PlannedRings(due, w1.st, [y], poss, 1)
        == w.st.rings by { assert PlannedRings(due, w1.st, [y], poss, 0) == w.st.rings; }
    assert Started(w, due, [g], [toks]) == w1;
    assert WorldDetachUpTo(w1, [g], 1) == w1 by { assert WorldDetachUpTo(w1, [g], 0) == w1; }
    var p := PassOf(w, due, [g], [toks]);
    NothingCaptured(m, PState(w1.st.bufs, w1.st.rings, map[]), N(w.st), w.st.count, [y], p.plan, [toks], order,
                    |order|);
    assert p.after[0] == toks by { assert [] + toks == toks; }
    assert PutAll(w.hist, [g], p.after, 1) == w.hist[g := toks] by { assert PutAll(w.hist, [g], p.after, 0) == w.hist; }
  }

  ghost predicate HasBelow(r: Ring, target: int) {
    exists i :: 0 <= i < |r.entries| && 0 <= r.entries[i].pos < target
  }

  /** Going back writes the rows of whatever the checkpoints of the slot hold. */
  lemma {:induction false} BackToTold(m: Model, w: World, y: int, told: seq<Token>, g: int, target: int)
    requires SlotsOk(w.st.slots) && g in w.st.slots.slotOf && w.st.slots.slotOf[g] == y && !Shared(w.st.slots, g)
    requires y in w.st.rings && RingMatches(m, w.st.rings[y], told) && HasBelow(w.st.rings[y], target)
    requires 0 < target <= |H(w, g)| && forall b :: b in w.st.bufs ==> |w.st.bufs[b]| == N(w.st)
    ensures var n, w' := ResumeTo(w.st, g, target), WorldBack(w, g, target);
            && 0 < n <= target && n <= |told| && H(w', g) == H(w, g)[..n]
            && g in w'.st.slots.slotOf && w'.st.slots.slotOf[g] == y && RowsMatch(m, w'.st.bufs, y, told[..n])
  {
    var idx := Resume(w.st, g, target);
    BestIsHighest(w.st.rings[y].entries, target, |w.st.rings[y].entries|);
    var e := w.st.rings[y].entries[idx];
    assert CkptMatches(m, e, told);
    UsedSlot(w.st.slots, g);
    WrittenBack(m, w.st.bufs, N(w.st), e, y, told);
    assert WorldBack(w, g, target) == WorldRestoredHere(w, g, idx);
  }

  /** The harm: such a sequence goes back to a checkpoint that it never left. It then counts its own
      first tokens as evaluated, while its rows are those of the tokens of another history; they are
      right exactly when the two histories lead to the same rows. */
  lemma {:induction false} StaleRestored(m: Model, due: Due, w: World, y: int, told: seq<Token>, g: int,
                                         toks: seq<Token>, order: seq<Buf>, target: int)
    requires OnOffer(m, w, y, told) && g !in w.st.slots.slotOf && H(w, g) == [] && toks != []
    requires PlanAt(due, w.st.rings[y], |toks| - 1) < 0 && 0 < target <= |toks| && HasBelow(w.st.rings[y], target)
    ensures var w2 := AfterPass(m, w, due, [g], [toks], order);
            var n, w3 := ResumeTo(w2.st, g, target), WorldBack(w2, g, target);
            && SlotsOk(w2.st.slots) && H(w2, g) == toks
            && 0 < n <= target && n <= |told| && H(w3, g) == toks[..n] && g in w3.st.slots.slotOf
            && RowsMatch(m, w3.st.bufs, w3.st.slots.slotOf[g], told[..n])
            && (RowsMatch(m, w3.st.bufs, w3.st.slots.slotOf[g], H(w3, g))
                <==> forall b :: b in m.bufs ==> Fold(m, b, told[..n]) == Fold(m, b, toks[..n]))
  {
    TopIsFree(w.st.slots);
    QuietPass(m, due, w, y, g, toks, order);
    AllocOk(w.st.slots, g);
    BackToTold(m, AfterPass(m, w, due, [g], [toks], order), y, told, g, target);
  }
}
