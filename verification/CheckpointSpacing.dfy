/** How far apart the checkpoints of a recurrent cache are, over whole runs and without looking at how
    a pass plans them: any two live checkpoints of a slot are at least an interval apart and none lies
    below the first position that is worth one; and after every forward pass each sequence of the batch
    is either still below that position or has a checkpoint less than an interval behind its last token. */
module CheckpointSpacing {
  import opened Wrappers
  import opened CacheCells
  import opened CheckpointRing
  import opened SlotTable
  import opened RecurrentState
  import opened RecurrentRuns
  import opened HybridRuns

  ghost predicate HasLive(r: Ring, p: int) {
    exists i :: 0 <= i < |r.entries| && r.entries[i].pos == p && 0 <= p
  }

  /** Checkpoints at least an interval apart, none too early, and `lastPos` the last of them. */
  ghost predicate Spaced(due: Due, r: Ring) {
    && (r.lastPos >= 0 ==> HasLive(r, r.lastPos))
    && (forall i :: 0 <= i < |r.entries| && Live(r.entries[i]) ==>
          due.minPos <= r.entries[i].pos <= r.lastPos < CheckpointRing.MAX_INT32)
    && (forall i, j :: 0 <= i < j < |r.entries| && Live(r.entries[i]) && Live(r.entries[j]) ==>
          due.interval <= r.entries[i].pos - r.entries[j].pos || due.interval <= r.entries[j].pos - r.entries[i].pos)
  }

  ghost predicate AllSpaced(due: Due, st: RState) {
    forall x :: x in st.rings ==> Spaced(due, st.rings[x])
  }

  /** The last checkpoint of the slot that the sequence has; negative when there is none. */
  function LastOf(st: RState, sid: int): int { RingOf(st, SlotFor(st, sid)).lastPos }

  ghost predicate SameLast(a: int, b: int) { a == b || (a < 0 && b < 0) }

  // ---- rings ----

  lemma {:induction false} CopiedSpaced(due: Due, src: Ring, dst: Ring)
    requires Spaced(due, src)
    ensures Spaced(due, CopiedRing(src, dst))
  {
    if src.lastPos >= 0 {
      var i :| 0 <= i < |src.entries| && src.entries[i].pos == src.lastPos;
      assert CopiedRing(src, dst).entries[i].pos == src.lastPos;
    }
  }

  /** Dropping the entries after one of them, and with them the bookkeeping. */
  lemma {:induction false} PrunedTo(r: Ring, i: nat)
    requires i < |r.entries| && Live(r.entries[i]) && CheckpointRing.PositionsOk(r)
    ensures var p := r.entries[i].pos;
            Pruned(r, p).entries == PrunedEntries(r.entries, p) && Pruned(r, p).lastPos == p
  {
    var es := PrunedEntries(r.entries, r.entries[i].pos);
    assert es[i] == r.entries[i];
    ScanMeaning(es, |es|);
  }

  lemma {:induction false} PrunedSpaced(due: Due, r: Ring, i: nat)
    requires Spaced(due, r) && i < |r.entries| && Live(r.entries[i])
    ensures Spaced(due, Pruned(r, r.entries[i].pos))
  {
    PrunedTo(r, i);
    assert PrunedEntries(r.entries, r.entries[i].pos)[i] == r.entries[i];
  }

  /** A ring without live entries has no last position. */
  lemma {:induction false} CleanHasNoLast(due: Due, r: Ring)
    requires Spaced(due, r) && RingClean(r)
    ensures r.lastPos < 0
  {
  }

  /** The entry that a pass claims is far enough behind the ones before it. */
  lemma {:induction false} ClaimedSpaced(m: Model, due: Due, r0: Ring, r: Ring, idx: int, pos: int, h: seq<Token>)
    requires Spaced(due, r0) && RingMid(m, r0, r, true, idx, pos, h, m.bufs)
    requires due.minPos <= pos < CheckpointRing.MAX_INT32 && 0 <= pos
    requires r0.lastPos < 0 || pos - r0.lastPos >= due.interval
    requires forall i :: 0 <= i < |r0.entries| && Live(r0.entries[i]) ==> r0.entries[i].pos <= pos
    ensures Spaced(due, r)
  {
    assert r.entries[idx].pos == r.lastPos == pos;
    forall j | 0 <= j < |r.entries| && j != idx && Live(r.entries[j])
      ensures due.minPos <= r.entries[j].pos && due.interval <= pos - r.entries[j].pos
    {
      assert r.entries[j] == r0.entries[j];
    }
  }

  // ---- preparing a pass ----

  lemma {:induction false} AssignSameRings(st: RState, seqs: seq<int>, n: nat)
    requires n <= |seqs|
    ensures AssignUpTo(st, seqs, n).rings == st.rings && AssignUpTo(st, seqs, n).count == st.count
  {
    if n > 0 { AssignSameRings(st, seqs, n - 1); }
  }

  lemma {:induction false} PlannedSpaced(due: Due, st: RState, xs: seq<int>, poss: seq<int>, k: nat)
    requires k <= |xs| && k <= |poss| && AllSpaced(due, st)
    ensures forall x :: x in PlannedRings(due, st, xs, poss, k) ==> Spaced(due, PlannedRings(due, st, xs, poss, k)[x])
  {
    if k > 0 { PlannedSpaced(due, st, xs, poss, k - 1); }
  }

  lemma {:induction false} DetachedSpaced(due: Due, st: RState, sid: int)
    requires AllSpaced(due, st)
    ensures AllSpaced(due, Detached(st, sid))
  {
    if Shared(st.slots, sid) && CanAlloc(st) {
      var x, y := st.slots.slotOf[sid], Top(st.slots);
      if x in st.rings { CopiedSpaced(due, st.rings[x], RingOf(st, y)); }
    }
  }

  /** Making a slot private keeps the last checkpoint of every sequence. */
  lemma {:induction false} DetachOneLast(m: Model, due: Due, w: World, ids: set<int>, sid: int, t: int)
    requires Coherent(m, w) && Within(w, ids) && AllSpaced(due, w.st) && t in w.st.slots.slotOf
    ensures SameLast(LastOf(w.st, t), LastOf(Detached(w.st, sid), t))
  {
    if Shared(w.st.slots, sid) {
      RoomToDetach(w, ids, sid);
      TopIsFree(w.st.slots);
      var x, y := w.st.slots.slotOf[sid], Top(w.st.slots);
      assert SlotCoherent(m, w, y);
      if t == sid && !(w.st.count != 0 && x in w.st.rings && w.st.rings[x].size != 0) {
        EmptyHasNoLast(m, due, w, x);
        if y in w.st.rings { CleanHasNoLast(due, w.st.rings[y]); }
      }
    }
  }

  lemma {:induction false} EmptyHasNoLast(m: Model, due: Due, w: World, x: int)
    requires Coherent(m, w) && AllSpaced(due, w.st)
    requires w.st.count == 0 || x !in w.st.rings || w.st.rings[x].size == 0
    ensures RingOf(w.st, x).lastPos < 0
  {
    if x in w.st.rings {
      LiveCard(w.st.rings[x].entries, |w.st.rings[x].entries|);
    }
  }

  lemma {:induction false} DetachAllLast(m: Model, due: Due, w: World, ids: set<int>, seqs: seq<int>, n: nat, t: int)
    requires Coherent(m, w) && Within(w, ids) && AllSpaced(due, w.st) && t in w.st.slots.slotOf && n <= |seqs|
    requires forall i :: 0 <= i < |seqs| ==> seqs[i] in w.st.slots.slotOf
    ensures AllSpaced(due, DetachUpTo(w.st, seqs, n))
    ensures SameLast(LastOf(w.st, t), LastOf(DetachUpTo(w.st, seqs, n), t))
  {
    if n > 0 {
      var w1 := WorldDetachUpTo(w, seqs, n - 1);
      DetachAllLast(m, due, w, ids, seqs, n - 1, t);
      DetachAllKeeps(m, w, ids, seqs, n - 1);
      assert t in w1.st.slots.slotOf.Keys;
      DetachOneLast(m, due, w1, ids, seqs[n - 1], t);
      DetachedSpaced(due, w1.st, seqs[n - 1]);
    }
  }

  lemma {:induction false} DetachAllSpaced(due: Due, st: RState, seqs: seq<int>, n: nat)
    requires AllSpaced(due, st) && n <= |seqs|
    ensures AllSpaced(due, DetachUpTo(st, seqs, n))
  {
    if n > 0 {
      DetachAllSpaced(due, st, seqs, n - 1);
      DetachedSpaced(due, DetachUpTo(st, seqs, n - 1), seqs[n - 1]);
    }
  }

  /** What planning promises for a sequence of the batch, in terms of the ring it has right before the
      updates: a checkpoint at the last position, or none because none is due. */
  lemma {:induction false} PlannedFor(m: Model, due: Due, w: World, ids: set<int>, seqs: seq<int>,
                                      toks: seq<seq<Token>>, i: nat)
    requires Coherent(m, w) && Within(w, ids) && BatchOk(w, ids, seqs, toks) && AllSpaced(due, w.st)
    requires i < |seqs| && w.st.count > 0
    ensures var w2, p := Prepared(w, due, seqs, toks), PassOf(w, due, seqs, toks);
            var last, pos := RingOf(w2.st, p.xs[i]).lastPos, |p.after[i]| - 1;
            && |p.plan| == |seqs| && AllSpaced(due, w2.st)
            && (p.plan[i] >= 0 ==> due.minPos <= pos && (last < 0 || pos - last >= due.interval))
            && (p.plan[i] < 0 ==> pos < due.minPos || (last >= 0 && pos - last < due.interval))
  {
    var w1, ws := WorldAssignUpTo(w, seqs, |seqs|), Started(w, due, seqs, toks);
    var xs, poss := CurSlots(w1.st, seqs), LastPositions(w, seqs, toks);
    AssignSameRings(w.st, seqs, |seqs|);
    StartedKeeps(m, w, ids, due, seqs, toks);
    PlannedSpaced(due, w1.st, xs, poss, |xs|);
    PlannedSame(due, w1.st, xs, poss, |xs|);
    DetachAllLast(m, due, ws, ids, seqs, |seqs|, seqs[i]);
    assert RingOf(ws.st, xs[i]) == RingOf(w1.st, xs[i]);
  }

  lemma {:induction false} PreparedSpaced(m: Model, due: Due, w: World, seqs: seq<int>, toks: seq<seq<Token>>)
    requires AllSpaced(due, w.st) && |seqs| == |toks|
    ensures AllSpaced(due, Prepared(w, due, seqs, toks).st)
  {
    var w1 := WorldAssignUpTo(w, seqs, |seqs|);
    var xs, poss := CurSlots(w1.st, seqs), LastPositions(w, seqs, toks);
    AssignSameRings(w.st, seqs, |seqs|);
    PlannedSpaced(due, w1.st, xs, poss, |xs|);
    DetachAllSpaced(due, Started(w, due, seqs, toks).st, seqs, |seqs|);
  }

  // ---- a pass ----

  /** A checkpoint less than an interval behind the last of `n` tokens, unless that is still too early. */
  ghost predicate Near(due: Due, r: Ring, n: int) {
    n - 1 < due.minPos || exists p :: HasLive(r, p) && p <= n - 1 < p + Max(due.interval, 1)
  }

  /** Either a checkpoint is taken at position `pos` and it is due, or it is not due. */
  ghost predicate WellPlanned(due: Due, r0: Ring, planned: bool, pos: int) {
    if planned then due.minPos <= pos && (r0.lastPos < 0 || pos - r0.lastPos >= due.interval)
    else pos < due.minPos || (r0.lastPos >= 0 && pos - r0.lastPos < due.interval)
  }

  /** The ring of one slot of the batch after the updates. */
  lemma {:induction false} SlotSpaced(m: Model, due: Due, w: World, p: Pass, q: PState, i: nat)
    requires Coherent(m, w) && AllSpaced(due, w.st) && PassOk(p, w) && i < |p.xs| && w.st.slots.refs[p.xs[i]] > 0
    requires SlotMid(m, w, p, m.bufs, q, i) && |p.before[i]| < |p.after[i]|
    requires w.st.count > 0 ==>
               |p.plan| == |p.xs| && WellPlanned(due, RingOf(w.st, p.xs[i]), p.plan[i] >= 0, |p.after[i]| - 1)
    ensures var r := RingIn(q.rings, w.st.count, p.xs[i]);
            Spaced(due, r) && (m.bufs != {} && w.st.count > 0 ==> Near(due, r, |p.after[i]|))
  {
    var x, pos := p.xs[i], |p.after[i]| - 1;
    var r0, r := RingOf(w.st, x), RingIn(q.rings, w.st.count, x);
    if x in q.idxs {
      forall j | 0 <= j < |r0.entries| && Live(r0.entries[j]) ensures r0.entries[j].pos <= pos {
        LastIsStored(m, w, x, r0.entries[j].pos);
      }
      ClaimedSpaced(m, due, r0, r, q.idxs[x], pos, p.after[i]);
      assert HasLive(r, pos);
    } else if m.bufs != {} && w.st.count > 0 && pos >= due.minPos {
      assert HasLive(r0, r0.lastPos);
      LastIsStored(m, w, x, r0.lastPos);
    }
  }

  lemma {:induction false} LastIsStored(m: Model, w: World, x: int, p: int)
    requires Coherent(m, w) && 0 <= x < N(w.st) && w.st.slots.refs[x] > 0 && HasLive(RingOf(w.st, x), p)
    ensures p < |S(w, x)|
  {
    assert SlotCoherent(m, w, x);
    var r := RingOf(w.st, x);
    var i :| 0 <= i < |r.entries| && r.entries[i].pos == p;
    assert CkptMatches(m, r.entries[i], S(w, x));
  }

  /** All rings after the updates. */
  lemma {:induction false} RingsSpaced(m: Model, due: Due, w: World, p: Pass, q: PState)
    requires Coherent(m, w) && AllSpaced(due, w.st) && PassOk(p, w) && RingsMid(m, w, p, m.bufs, q)
    requires forall i :: 0 <= i < |p.xs| ==> w.st.slots.refs[p.xs[i]] > 0 && |p.before[i]| < |p.after[i]|
    requires w.st.count > 0 ==> |p.plan| == |p.xs| && forall i :: 0 <= i < |p.xs| ==>
               WellPlanned(due, RingOf(w.st, p.xs[i]), p.plan[i] >= 0, |p.after[i]| - 1)
    ensures AllSpaced(due, w.st.(rings := q.rings))
    ensures m.bufs != {} && w.st.count > 0 ==> forall i :: 0 <= i < |p.xs| ==>
              Near(due, RingIn(q.rings, w.st.count, p.xs[i]), |p.after[i]|)
  {
    forall i | 0 <= i < |p.xs|
      ensures Spaced(due, RingIn(q.rings, w.st.count, p.xs[i]))
      ensures m.bufs != {} && w.st.count > 0 ==> Near(due, RingIn(q.rings, w.st.count, p.xs[i]), |p.after[i]|)
    {
      assert SlotMid(m, w, p, m.bufs, q, i);
      SlotSpaced(m, due, w, p, q, i);
    }
    forall x | x in q.rings ensures Spaced(due, q.rings[x]) {
      if x in p.xs {
        var i :| 0 <= i < |p.xs| && p.xs[i] == x;
      } else {
        assert RingIn(q.rings, w.st.count, x) == RingOf(w.st, x);
      }
    }
  }

  lemma {:induction false} AllPlanned(m: Model, due: Due, w: World, ids: set<int>, seqs: seq<int>,
                                      toks: seq<seq<Token>>)
    requires Coherent(m, w) && Within(w, ids) && BatchOk(w, ids, seqs, toks) && AllSpaced(due, w.st)
    ensures var w2, p := Prepared(w, due, seqs, toks), PassOf(w, due, seqs, toks);
            && AllSpaced(due, w2.st) && w2.st.count == w.st.count
            && (forall i :: 0 <= i < |seqs| ==> |p.before[i]| < |p.after[i]| == |H(w, seqs[i])| + |toks[i]|)
            && (w.st.count > 0 ==> |p.plan| == |p.xs| && forall i :: 0 <= i < |p.xs| ==>
                  WellPlanned(due, RingOf(w2.st, p.xs[i]), p.plan[i] >= 0, |p.after[i]| - 1))
  {
    var w2, p := Prepared(w, due, seqs, toks), PassOf(w, due, seqs, toks);
    PreparedSpaced(m, due, w, seqs, toks);
    CountPrepared(w, due, seqs, toks);
    if w.st.count > 0 {
      AssignSameRings(w.st, seqs, |seqs|);
      forall i | 0 <= i < |p.xs|
        ensures WellPlanned(due, RingOf(w2.st, p.xs[i]), p.plan[i] >= 0, |p.after[i]| - 1)
      {
        PlannedFor(m, due, w, ids, seqs, toks, i);
      }
    }
  }

  /** The updates of a pass have all been made. */
  lemma {:induction false} UpdatesMade(m: Model, w: World, ids: set<int>, due: Due, seqs: seq<int>,
                                       toks: seq<seq<Token>>, order: seq<Buf>)
    returns (q: PState)
    requires Coherent(m, w) && Within(w, ids) && BatchOk(w, ids, seqs, toks) && OnceEach(order, m.bufs)
    ensures var w2, p := Prepared(w, due, seqs, toks), PassOf(w, due, seqs, toks);
            && Coherent(m, w2) && PassOk(p, w2) && PrivateBatch(w2.st, seqs, p.xs) && Mid(m, w2, p, m.bufs, q)
            && (forall i :: 0 <= i < |p.xs| ==> w2.st.slots.refs[p.xs[i]] > 0)
            && AfterPass(m, w, due, seqs, toks, order) == WorldPassed(w2, seqs, p, q)
  {
    var w2, p := Prepared(w, due, seqs, toks), PassOf(w, due, seqs, toks);
    q := UpdateAll(m, PState(w2.st.bufs, w2.st.rings, map[]), N(w2.st), w2.st.count, p.xs, p.plan, toks, order,
                   |order|);
    PreparedOk(m, w, ids, due, seqs, toks);
    UpdateAllMid(m, w2, p, toks, order, |order|);
    assert order[..|order|] == order;
  }

  lemma {:induction false} UpdatesSpaced(m: Model, w: World, ids: set<int>, due: Due, seqs: seq<int>,
                                         toks: seq<seq<Token>>, order: seq<Buf>)
    returns (q: PState)
    requires Coherent(m, w) && Within(w, ids) && BatchOk(w, ids, seqs, toks) && OnceEach(order, m.bufs)
    requires AllSpaced(due, w.st)
    ensures var w2, p := Prepared(w, due, seqs, toks), PassOf(w, due, seqs, toks);
            && AllSpaced(due, w2.st.(rings := q.rings)) && w2.st.count == w.st.count
            && AfterPass(m, w, due, seqs, toks, order) == WorldPassed(w2, seqs, p, q)
            && (m.bufs != {} && w.st.count > 0 ==> forall i :: 0 <= i < |p.xs| ==>
                  Near(due, RingIn(q.rings, w2.st.count, p.xs[i]), |p.after[i]|))
  {
    q := UpdatesMade(m, w, ids, due, seqs, toks, order);
    AllPlanned(m, due, w, ids, seqs, toks);
    RingsSpaced(m, due, Prepared(w, due, seqs, toks), PassOf(w, due, seqs, toks), q);
  }

  lemma {:induction false} BatchSlots(m: Model, w: World, ids: set<int>, due: Due, seqs: seq<int>,
                                      toks: seq<seq<Token>>, i: nat)
    requires Coherent(m, w) && Within(w, ids) && BatchOk(w, ids, seqs, toks) && i < |seqs|
    ensures var w2, p := Prepared(w, due, seqs, toks), PassOf(w, due, seqs, toks);
            && seqs[i] in w2.st.slots.slotOf && p.xs[i] == w2.st.slots.slotOf[seqs[i]]
            && |p.after[i]| == |H(w, seqs[i])| + |toks[i]|
  {
    PreparedKeeps(m, w, ids, due, seqs, toks);
  }

  /** A pass keeps the checkpoints apart, and leaves one near the end of every sequence of the batch. */
  lemma {:induction false} PassSpaced(m: Model, w: World, ids: set<int>, due: Due, seqs: seq<int>,
                                      toks: seq<seq<Token>>, order: seq<Buf>)
    requires Coherent(m, w) && Within(w, ids) && BatchOk(w, ids, seqs, toks) && OnceEach(order, m.bufs)
    requires AllSpaced(due, w.st)
    ensures var w' := AfterPass(m, w, due, seqs, toks, order);
            && AllSpaced(due, w'.st) && w'.st.count == w.st.count
            && forall i :: 0 <= i < |seqs| && m.bufs != {} && w.st.count > 0 ==>
                 seqs[i] in w'.st.slots.slotOf
                 && Near(due, RingOf(w'.st, w'.st.slots.slotOf[seqs[i]]), |H(w, seqs[i])| + |toks[i]|)
  {
    var w2, p := Prepared(w, due, seqs, toks), PassOf(w, due, seqs, toks);
    var q := UpdatesSpaced(m, w, ids, due, seqs, toks, order);
    var w' := WorldPassed(w2, seqs, p, q);
    assert AllSpaced(due, w'.st) by { assert w'.st.rings == q.rings; }
    forall i | 0 <= i < |seqs| && m.bufs != {} && w.st.count > 0
      ensures seqs[i] in w'.st.slots.slotOf
      ensures Near(due, RingOf(w'.st, w'.st.slots.slotOf[seqs[i]]), |H(w, seqs[i])| + |toks[i]|)
    {
      BatchSlots(m, w, ids, due, seqs, toks, i);
    }
  }

  // ---- going back and forking ----

  lemma {:induction false} ClearedSpaced(due: Due, st: RState, sid: int)
    requires InRange(st.slots) && AllSpaced(due, st)
    ensures AllSpaced(due, Cleared(st, sid)) && Cleared(st, sid).count == st.count
  {
  }

  lemma {:induction false} RestoredSpaced(due: Due, st: RState, sid: int, idx: int)
    requires AllSpaced(due, st) && HasCheckpoint(st, sid, idx)
    ensures AllSpaced(due, RestoredHere(st, sid, idx)) && RestoredHere(st, sid, idx).count == st.count
  {
    var x := st.slots.slotOf[sid];
    assert x in st.rings && Spaced(due, st.rings[x]);
    PrunedSpaced(due, st.rings[x], idx);
  }

  lemma {:induction false} BackSpaced(due: Due, w: World, sid: int, target: int)
    requires InRange(w.st.slots) && AllSpaced(due, w.st)
    ensures AllSpaced(due, WorldBack(w, sid, target).st) && WorldBack(w, sid, target).st.count == w.st.count
  {
    var idx := Resume(w.st, sid, target);
    if idx < 0 {
      ClearedSpaced(due, w.st, sid);
    } else {
      var w1 := WorldDetached(w, sid);
      DetachedSpaced(due, w.st, sid);
      if HasCheckpoint(w1.st, sid, idx) { RestoredSpaced(due, w1.st, sid, idx); }
    }
  }

  // ---- every run ----

  lemma {:induction false} StepSpaced(c: HConfig, h: Hybrid, op: HOp, h': Hybrid)
    requires StepsTo(c, h, op, h') && AllSpaced(c.due, h.w.st)
    ensures AllSpaced(c.due, h'.w.st) && h'.w.st.count == h.w.st.count
  {
    match op
    case HPass(batch, tokens, order) =>
      BatchFits(c, h, batch, tokens);
      PassSpaced(c.model, h.w, c.ids, c.due, SeqsOf(batch), ToksOf(batch, tokens), order);
    case HBack(sid, target) => BackSpaced(c.due, h.w, sid, target);
    case HFork(src, dst, len, target) =>
      ForkedSlots(h.w.st.slots, src, dst);
      BackSpaced(c.due, WorldForked(h.w, src, dst, len), dst, target);
  }

  /** In every run, up to the first unsafe fork, the checkpoints of each slot are at least an interval
      apart, and none of them lies below the first position worth a checkpoint. */
  lemma {:induction false} CheckpointsApart(c: HConfig, hs: seq<Hybrid>, ops: seq<HOp>, slots: nat, count: nat, k: nat)
    requires HRun(c, hs, ops, slots, count) && k <= |ops| && SafeSoFar(hs, ops, k)
    ensures AllSpaced(c.due, hs[k].w.st) && hs[k].w.st.count == count
  {
    if k > 0 {
      CheckpointsApart(c, hs, ops, slots, count, k - 1);
      EveryHybridState(c, hs, ops, slots, count, k - 1);
      assert HRunStep(c, hs, ops, k - 1) && SafeAt(hs, ops, k - 1);
      StepSpaced(c, hs[k - 1], ops[k - 1], hs[k]);
    }
  }

  lemma {:induction false} PassNear(c: HConfig, h: Hybrid, op: HOp, h': Hybrid, i: nat)
    requires StepsTo(c, h, op, h') && op.HPass? && AllSpaced(c.due, h.w.st) && i < |SeqsOf(op.batch)|
    requires c.model.bufs != {} && h.w.st.count > 0
    ensures var sid := SeqsOf(op.batch)[i];
            && sid in h'.w.st.slots.slotOf
            && Near(c.due, RingOf(h'.w.st, h'.w.st.slots.slotOf[sid]), |H(h'.w, sid)|)
  {
    var xs, toks := SeqsOf(op.batch), ToksOf(op.batch, op.tokens);
    BatchFits(c, h, op.batch, op.tokens);
    PassSpaced(c.model, h.w, c.ids, c.due, xs, toks, op.order);
    PassKeeps(c.model, h.w, c.ids, c.due, xs, toks, op.order);
    assert H(h'.w, xs[i]) == H(h.w, xs[i]) + toks[i];
  }

  /** In every run, after a forward pass each sequence of the batch can go back to less than an interval
      behind its last token, unless it is not yet long enough for any checkpoint. */
  lemma {:induction false} CheckpointNear(c: HConfig, hs: seq<Hybrid>, ops: seq<HOp>, slots: nat, count: nat, k: nat,
                                          e: Entry)
    requires HRun(c, hs, ops, slots, count) && k < |ops| && SafeSoFar(hs, ops, k)
    requires ops[k].HPass? && e in ops[k].batch && c.model.bufs != {} && count > 0
    ensures var w := hs[k + 1].w;
            && e.sid in w.st.slots.slotOf
            && Near(c.due, RingOf(w.st, w.st.slots.slotOf[e.sid]), |H(w, e.sid)|)
  {
    var batch := ops[k].batch;
    CheckpointsApart(c, hs, ops, slots, count, k);
    EveryHybridState(c, hs, ops, slots, count, k);
    assert HRunStep(c, hs, ops, k);
    assert batch[..|batch|] == batch;
    InSeqs(batch, |batch|, e);
    var i :| 0 <= i < |SeqsOf(batch)| && SeqsOf(batch)[i] == e.sid;
    PassNear(c, hs[k], ops[k], hs[k + 1], i);
  }

  lemma {:induction false} InSeqs(batch: seq<Entry>, n: nat, e: Entry)
    requires n <= |batch| && e in batch[..n]
    ensures e.sid in SeqsUpTo(batch, n)
  {
    if n > 0 && e != batch[n - 1] {
      assert e in batch[..n - 1];
      InSeqs(batch, n - 1, e);
    }
  }
}
