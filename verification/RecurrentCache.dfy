/** The hybrid cache as the object it is: slot table, state buffers and checkpoints updated in
    place next to a causal cache. Every method is proved against the value-level operations, and the
    calls a runner makes on the object are steps of the joint system, so what holds in every run of
    that system holds for the object. */
module RecurrentCache {
  import opened Wrappers
  import opened CacheCells
  import opened CausalView
  import C = CausalCache
  import K = CausalRuns
  import opened SlotTable
  import opened CheckpointRing
  import opened RecurrentState
  import opened RecurrentRuns
  import opened HybridRuns

  // ---- facts about the value-level operations ----

  function ZeroAll(bufs: map<Buf, seq<Row>>, slots: seq<int>): map<Buf, seq<Row>> {
    map b | b in bufs :: SetRows(bufs[b], slots, seq(|slots|, _ => 0), |slots|)
  }

  lemma {:induction false} SetRowsPrefix(rows: seq<Row>, xs: seq<int>, src: seq<Row>, x: int, v: Row, k: nat)
    requires k <= |xs| && k <= |src|
    ensures SetRows(rows, xs + [x], src + [v], k) == SetRows(rows, xs, src, k)
  {
    if k > 0 { SetRowsPrefix(rows, xs, src, x, v, k - 1); }
  }

  /** Zeroing several slots at once, or one after the other. */
  lemma {:induction false} ZeroOneMore(bufs: map<Buf, seq<Row>>, slots: seq<int>, x: int)
    ensures ZeroAll(bufs, slots + [x]) == ZeroRows(ZeroAll(bufs, slots), x)
  {
    forall b | b in bufs ensures ZeroAll(bufs, slots + [x])[b] == ZeroRows(ZeroAll(bufs, slots), x)[b] {
      SetRowsPrefix(bufs[b], slots, seq(|slots|, _ => 0), x, 0, |slots|);
      assert seq(|slots| + 1, _ => 0) == seq(|slots|, _ => 0) + [0];
    }
  }

  /** Some sequence of the batch finds no slot. */
  ghost predicate OutOfSlots(st: RState, seqs: seq<int>) {
    exists i :: 0 <= i < |seqs| && NoSlotAt(st, seqs, i)
  }

  ghost predicate NoSlotAt(st: RState, seqs: seq<int>, i: nat)
    requires i < |seqs|
  {
    seqs[i] !in AssignUpTo(st, seqs, i).slots.slotOf && AssignUpTo(st, seqs, i).slots.free == []
  }

  /** With at most as many sequences as slots this never happens. */
  lemma {:induction false} AssignNeverStuck(m: Model, w: World, ids: set<int>, seqs: seq<int>)
    requires Coherent(m, w) && Within(w, ids) && forall i :: 0 <= i < |seqs| ==> seqs[i] in ids
    ensures !OutOfSlots(w.st, seqs)
  {
    forall i | 0 <= i < |seqs| ensures !NoSlotAt(w.st, seqs, i) {
      AssignAllKeeps(m, w, ids, seqs, i);
      if seqs[i] !in AssignUpTo(w.st, seqs, i).slots.slotOf {
        RoomToAssign(WorldAssignUpTo(w, seqs, i), ids, seqs[i]);
      }
    }
  }

  /** Some sequence of the batch shares its slot and finds no unused one. */
  ghost predicate CannotDetach(st: RState, seqs: seq<int>) {
    exists i :: 0 <= i < |seqs| && NoSpare(DetachUpTo(st, seqs, i), seqs[i])
  }

  ghost predicate NoSpare(st: RState, sid: int) {
    Shared(st.slots, sid) && st.slots.free == []
  }

  lemma {:induction false} DetachNeverStuck(m: Model, w: World, ids: set<int>, seqs: seq<int>)
    requires Coherent(m, w) && Within(w, ids) && forall i :: 0 <= i < |seqs| ==> seqs[i] in w.st.slots.slotOf
    ensures !CannotDetach(w.st, seqs)
  {
    forall i | 0 <= i < |seqs| ensures !NoSpare(DetachUpTo(w.st, seqs, i), seqs[i]) {
      DetachAllKeeps(m, w, ids, seqs, i);
      if Shared(DetachUpTo(w.st, seqs, i).slots, seqs[i]) {
        RoomToDetach(WorldDetachUpTo(w, seqs, i), ids, seqs[i]);
      }
    }
  }

  lemma {:induction false} DetachedSeqs(st: RState, seqs: seq<int>, k: nat)
    requires k <= |seqs|
    ensures DetachUpTo(st, seqs, k).slots.slotOf.Keys == st.slots.slotOf.Keys
  {
    if k > 0 { DetachedSeqs(st, seqs, k - 1); }
  }

  lemma {:induction false} NoneShared(st: RState, seqs: seq<int>, k: nat)
    requires k <= |seqs| && forall i :: 0 <= i < k ==> !Shared(st.slots, seqs[i])
    ensures DetachUpTo(st, seqs, k) == st
  {
    if k > 0 { NoneShared(st, seqs, k - 1); }
  }

  lemma {:induction false} CurSlotsStep(st: RState, st': RState, seqs: seq<int>, i: nat)
    requires i < |seqs| && AllDistinct(seqs)
    requires forall t :: t != seqs[i] ==> SlotFor(st', t) == SlotFor(st, t)
    ensures CurSlots(st', seqs) == CurSlots(st, seqs)[i := SlotFor(st', seqs[i])]
  {
  }

  lemma {:induction false} WriteBackNone(bufs: map<Buf, seq<Row>>, n: nat, rows: map<Buf, Row>, x: int)
    ensures WriteBack(bufs, n, rows - rows.Keys, x) == bufs
  {
    assert rows - rows.Keys == map[];
  }

  /** One more row written back. */
  lemma {:induction false} WriteBackStep(bufs: map<Buf, seq<Row>>, n: nat, rows: map<Buf, Row>, todo: set<Buf>,
                                         x: int, b: Buf)
    requires (forall c :: c in bufs ==> |bufs[c]| == n) && 0 <= x < n && b in todo && todo <= rows.Keys
    ensures WriteBack(bufs, n, rows - (todo - {b}), x)
            == WriteBack(bufs, n, rows - todo, x)[b := BufRows(WriteBack(bufs, n, rows - todo, x), b, n)[x := rows[b]]]
  {
    var done := rows - todo;
    assert rows - (todo - {b}) == done[b := rows[b]];
    WriteBackOne(bufs, n, done, x, b, rows[b]);
  }

  lemma {:induction false} WriteBackOne(bufs: map<Buf, seq<Row>>, n: nat, rows: map<Buf, Row>, x: int, b: Buf, row: Row)
    requires (forall c :: c in bufs ==> |bufs[c]| == n) && 0 <= x < n && b !in rows
    ensures WriteBack(bufs, n, rows[b := row], x)
            == WriteBack(bufs, n, rows, x)[b := BufRows(WriteBack(bufs, n, rows, x), b, n)[x := row]]
  {
  }

  lemma {:induction false} SameCurSlots(st: RState, st': RState, seqs: seq<int>)
    requires st.slots == st'.slots
    ensures CurSlots(st, seqs) == CurSlots(st', seqs)
  {
  }

  /** Writing consecutive rows as one block, or one row after the other. */
  lemma {:induction false} BlockIsRows(rows: seq<Row>, xs: seq<int>, src: seq<Row>, start: nat, k: nat)
    requires |xs| == |src| && k <= |xs| && start + |xs| <= |rows| && forall i :: 0 <= i < |xs| ==> xs[i] == start + i
    ensures SetRows(rows, xs, src, k) == rows[..start] + src[..k] + rows[start + k..]
  {
    if k > 0 {
      BlockIsRows(rows, xs, src, start, k - 1);
      assert src[..k] == src[..k - 1] + [src[k - 1]];
      assert (rows[..start] + src[..k - 1] + rows[start + k - 1..])[start + k - 1 := src[k - 1]]
             == rows[..start] + src[..k] + rows[start + k..];
    }
  }

  /** Creating a buffer before its first update changes nothing. */
  lemma {:induction false} BufferFirst(ps: PState, n: nat, count: nat, xs: seq<int>, plan: seq<int>, b: Buf,
                                       rows: seq<Row>)
    requires |plan| <= |xs| == |rows|
    ensures UpdateBuf(ps.(bufs := ps.bufs[b := BufRows(ps.bufs, b, n)]), n, count, xs, plan, b, rows)
            == UpdateBuf(ps, n, count, xs, plan, b, rows)
  {
    var rows' := SetRows(BufRows(ps.bufs, b, n), xs, rows, |xs|);
    assert ps.bufs[b := BufRows(ps.bufs, b, n)][b := rows'] == ps.bufs[b := rows'];
  }

  lemma {:induction false} PrunedInRange(r: Ring, pos: int)
    requires r.entries != []
    ensures |Pruned(r, pos).entries| == |r.entries| && 0 <= Pruned(r, pos).next < |r.entries|
  {
    ScanInRange(PrunedEntries(r.entries, pos), |r.entries|);
  }

  lemma {:induction false} ShiftedInRange(r: Ring, begin: int, end: int)
    requires r.entries != []
    ensures |ShiftedRing(r, begin, end).entries| == |r.entries| && 0 <= ShiftedRing(r, begin, end).next < |r.entries|
  {
    ScanInRange(ShiftedEntries(r.entries, begin, end), |r.entries|);
  }

  lemma {:induction false} ScanInRange(entries: seq<Ckpt>, n: nat)
    requires n <= |entries| && entries != []
    ensures -1 <= ScanUpTo(entries, n).next < |entries| && 0 <= ScanUpTo(entries, n).minIdx < |entries|
  {
    if n > 0 { ScanInRange(entries, n - 1); }
  }

  /** What a model computes: each row advanced by the tokens of its sequence. */
  function Advanced(m: Model, b: Buf, rows: seq<Row>, toks: seq<seq<Token>>): (r: seq<Row>)
    requires |rows| == |toks|
    ensures |r| == |rows|
  {
    seq(|rows|, i requires 0 <= i < |rows| => FoldFrom(m, b, rows[i], toks[i]))
  }

  /** The state after a batch with these sequences and last positions has been started. */
  function StartedState(due: Due, st: RState, seqs: seq<int>, poss: seq<int>): RState
    requires |seqs| == |poss|
  {
    var st1 := AssignUpTo(st, seqs, |seqs|);
    Planned(due, st1, CurSlots(st1, seqs), poss)
  }

  function StartedPlan(due: Due, st: RState, seqs: seq<int>, poss: seq<int>): (plan: seq<int>)
    requires |seqs| == |poss|
    ensures |plan| <= |seqs|
  {
    var st1 := AssignUpTo(st, seqs, |seqs|);
    PlanFor(due, st1, CurSlots(st1, seqs), poss)
  }

  /** The state after a middle range of a sequence was removed: its checkpoints move along. */
  function Shifted(st: RState, sid: int, begin: int, end: int): RState {
    var st1 := Detached(st, sid);
    if sid !in st1.slots.slotOf || st1.slots.slotOf[sid] !in st1.rings then st1
    else
      var x := st1.slots.slotOf[sid];
      st1.(rings := st1.rings[x := ShiftedRing(st1.rings[x], begin, end)])
  }

  /** Every buffer has a row in the checkpoint. */
  predicate Complete(st: RState, sid: int, idx: int)
    requires HasCheckpoint(st, sid, idx)
  {
    forall b :: b in st.bufs ==> b in st.rings[st.slots.slotOf[sid]].entries[idx].rows
  }

  /** A complete checkpoint is complete in the private copy, at the same position. */
  lemma {:induction false} DetachedComplete(st: RState, sid: int, idx: int)
    requires HasCheckpoint(st, sid, idx) && Complete(st, sid, idx) && HasCheckpoint(Detached(st, sid), sid, idx)
    requires forall x :: x in st.rings ==> |st.rings[x].entries| == st.count
    requires Shared(st.slots, sid) && CanAlloc(st) && forall t :: t in st.slots.slotOf ==>
        st.slots.slotOf[t] != Top(st.slots)
    requires RingClean(RingOf(st, Top(st.slots))) || st.rings[st.slots.slotOf[sid]].size > 0
    ensures Complete(Detached(st, sid), sid, idx)
    ensures Detached(st, sid).rings[Detached(st, sid).slots.slotOf[sid]].entries[idx].pos
            == st.rings[st.slots.slotOf[sid]].entries[idx].pos
  {
    var x, y := st.slots.slotOf[sid], Top(st.slots);
    if st.count != 0 && st.rings[x].size != 0 {
      assert Detached(st, sid).rings[y] == CopiedRing(st.rings[x], RingOf(st, y));
    }
  }

  /** Checkpoint `idx` is complete and stays so when the slot is made private. */
  ghost predicate CanGoBack(st: RState, sid: int, idx: int) {
    && HasCheckpoint(st, sid, idx) && Complete(st, sid, idx)
    && (Shared(st.slots, sid) && CanAlloc(st) ==>
          && HasCheckpoint(Detached(st, sid), sid, idx)
          && (RingClean(RingOf(st, Top(st.slots))) || st.rings[st.slots.slotOf[sid]].size > 0)
          && forall t :: t in st.slots.slotOf ==> st.slots.slotOf[t] != Top(st.slots))
  }

  /** The pending restore is a checkpoint of the slot the sequence has now. */
  ghost predicate Fresh(st: RState, sid: int, pending: map<int, Restore>) {
    && sid in pending && HasCheckpoint(st, sid, pending[sid].idx)
    && pending[sid].slot == st.slots.slotOf[sid]
    && pending[sid].pos == st.rings[st.slots.slotOf[sid]].entries[pending[sid].idx].pos
  }

  /** A fresh and complete restore that was asked for has been carried out. */
  ghost predicate RestoredTail(st: RState, sid: int, pending: map<int, Restore>, asked: bool, r: RemoveOutcome,
                               st': RState) {
    asked && Fresh(st, sid, pending) && CanGoBack(st, sid, pending[sid].idx) ==>
    r == Done && st' == Restored(st, sid, pending[sid].idx)
  }

  datatype RemoveOutcome = Done | NotSupported | KvRefused(why: C.RemoveResult) | NoSpareSlot

  datatype StartResult = Started | KvFull | UnevenBatch | NoSlots

  class Recurrent {
    const kv: C.Causal
    const count: nat
    const due: Due

    // slots
    var slotForSeq: map<int, int>
    const refCount: array<int>
    var freeSlots: seq<int>

    // state and checkpoints
    var bufs: map<Buf, seq<Row>>
    var checkpoints: map<int, Ring>
    var pendingRestore: map<int, Restore>

    // current forward pass
    var curSeqs: seq<int>
    var curSlots: seq<int>
    var curSeqTokens: int
    var plan: seq<int>
    var claimed: map<int, int>
    var writableEnsured: bool
    var writableFailed: bool

    ghost function Table(): Slots
      reads `slotForSeq, `freeSlots, refCount
    {
      Slots(slotForSeq, refCount[..], freeSlots)
    }

    ghost function St(): RState
      reads `slotForSeq, `freeSlots, `bufs, `checkpoints, refCount
    {
      RState(Table(), bufs, checkpoints, count)
    }

    /** Slot numbers are in range. */
    ghost predicate TableOk()
      reads `slotForSeq, `freeSlots, refCount
    {
      && (forall sid :: sid in slotForSeq ==> 0 <= slotForSeq[sid] < refCount.Length)
      && (forall k :: 0 <= k < |freeSlots| ==> 0 <= freeSlots[k] < refCount.Length)
    }

    /** Buffers have a row for every slot. */
    ghost predicate BufsOk()
      reads `bufs
    {
      forall b :: b in bufs ==> |bufs[b]| == refCount.Length
    }

    /** Rings have one entry per checkpoint and write inside themselves. */
    ghost predicate RingsOk()
      reads `checkpoints
    {
      forall x :: x in checkpoints ==>
          |checkpoints[x].entries| == count && (count > 0 ==> 0 <= checkpoints[x].next < count)
    }

    constructor (kv: C.Causal, maxSequences: nat, count: nat, due: Due)
      ensures this.kv == kv && this.count == count && this.due == due && fresh(refCount)
      ensures St() == RState(Initial(maxSequences), map[], map[], count) && pendingRestore == map[]
      ensures TableOk() && BufsOk() && RingsOk()
    {
      this.kv, this.count, this.due := kv, count, due;
      refCount := new int[maxSequences](_ => 0);
      slotForSeq, bufs, checkpoints, pendingRestore := map[], map[], map[], map[];
      curSeqs, curSlots, curSeqTokens, plan, claimed := [], [], 0, [], map[];
      writableEnsured, writableFailed := false, false;
      new;
      freeSlots := [];
      var i := maxSequences;
      while i > 0
        invariant 0 <= i <= maxSequences && freeSlots == seq(maxSequences - i, k => maxSequences - 1 - k)
        invariant slotForSeq == map[] && bufs == map[] && checkpoints == map[] && pendingRestore == map[]
        invariant fresh(refCount) && refCount[..] == seq(maxSequences, _ => 0)
        modifies `freeSlots
      {
        i := i - 1;
        freeSlots := freeSlots + [i];
      }
    }

    method AllocSlot() returns (slot: int, ok: bool)
      modifies `freeSlots
      ensures ok <==> old(freeSlots) != []
      ensures ok ==> slot == old(Top(Table())) && freeSlots == old(Popped(Table()))
      ensures !ok ==> freeSlots == old(freeSlots)
    {
      if |freeSlots| == 0 {
        return 0, false;
      }
      slot := freeSlots[|freeSlots| - 1];
      freeSlots := freeSlots[..|freeSlots| - 1];
      ok := true;
    }

    /** A slot of its own for a sequence without one. */
    method TakeSlot(sid: int) returns (slot: int, ok: bool)
      requires TableOk() && sid !in slotForSeq
      modifies `slotForSeq, `freeSlots, refCount
      ensures TableOk() && (ok <==> old(freeSlots) != [])
      ensures ok ==> slot == old(Top(Table())) && 0 <= slot < refCount.Length && Table() == Alloc(old(Table()), sid)
      ensures !ok ==> Table() == old(Table())
    {
      slot, ok := AllocSlot();
      if ok {
        slotForSeq := slotForSeq[sid := slot];
        refCount[slot] := 1;
      }
    }

    /** Zero rows in every buffer that exists. */
    method ZeroSlots(slots: seq<int>)
      modifies `bufs
      ensures bufs == ZeroAll(old(bufs), slots) && (old(BufsOk()) ==> BufsOk())
    {
      var todo := bufs.Keys;
      while todo != {}
        invariant todo <= bufs.Keys == old(bufs).Keys
        invariant forall b :: b in bufs ==> bufs[b] == if b in todo then old(bufs)[b] else ZeroAll(old(bufs), slots)[b]
        decreases |todo|
      {
        var b :| b in todo;
        bufs := bufs[b := SetRows(bufs[b], slots, seq(|slots|, _ => 0), |slots|)];
        todo := todo - {b};
      }
    }

    /** The slot of a sequence, a new one if it has none. */
    method FindSlot(sid: int) returns (slot: int, ok: bool, isNew: bool)
      requires TableOk()
      modifies `slotForSeq, `freeSlots, refCount
      ensures TableOk() && (isNew <==> sid !in old(slotForSeq)) && (ok <==> !isNew || old(freeSlots) != [])
      ensures ok && isNew ==>
          slot == old(Top(Table())) && 0 <= slot < refCount.Length && Table() == Alloc(old(Table()), sid)
      ensures !ok || !isNew ==> Table() == old(Table())
      ensures ok ==> sid in slotForSeq && slotForSeq[sid] == slot
    {
      isNew := sid !in slotForSeq;
      if isNew {
        slot, ok := TakeSlot(sid);
      } else {
        slot, ok := slotForSeq[sid], true;
      }
    }

    /** The first `i` sequences of the batch have slots; the new ones are still to be zeroed. */
    ghost predicate Assigning(st: RState, i: nat, newSlots: seq<int>)
      reads `slotForSeq, `freeSlots, `bufs, `curSeqs, `curSlots, refCount
    {
      && TableOk() && bufs == st.bufs && N(st) == refCount.Length && |curSlots| == i <= |curSeqs|
      && AssignUpTo(st, curSeqs, i) == RState(Table(), ZeroAll(bufs, newSlots), st.rings, st.count)
      && forall j :: 0 <= j < i ==> curSeqs[j] in slotForSeq && curSlots[j] == slotForSeq[curSeqs[j]]
    }

    method AssignNext(i: nat, newSlots: seq<int>, ghost st: RState) returns (ok: bool, newSlots': seq<int>)
      requires Assigning(st, i, newSlots) && i < |curSeqs|
      modifies `slotForSeq, `freeSlots, `curSlots, refCount
      ensures if ok then Assigning(st, i + 1, newSlots') else NoSlotAt(st, curSeqs, i)
      ensures TableOk()
    {
      newSlots' := newSlots;
      var slot, isNew;
      slot, ok, isNew := FindSlot(curSeqs[i]);
      if !ok {
        return;
      }
      if isNew {
        ZeroOneMore(bufs, newSlots, slot);
        newSlots' := newSlots + [slot];
      }
      curSlots := curSlots + [slot];
    }

    /** A slot for every sequence of the batch; new slots are zeroed. */
    method AssignSlots() returns (ok: bool)
      requires TableOk() && BufsOk()
      modifies `slotForSeq, `freeSlots, `bufs, `curSlots, refCount
      ensures TableOk() && BufsOk()
      ensures ok ==> St() == AssignUpTo(old(St()), curSeqs, |curSeqs|)
      ensures ok ==> curSlots == CurSlots(St(), curSeqs) && forall i :: 0 <= i < |curSeqs| ==> curSeqs[i] in slotForSeq
      ensures !ok ==> OutOfSlots(old(St()), curSeqs)
    {
      ghost var st := St();
      curSlots := [];
      var newSlots: seq<int> := [];
      for i := 0 to |curSeqs|
        invariant Assigning(st, i, newSlots)
      {
        ok, newSlots := AssignNext(i, newSlots, st);
        if !ok {
          return;
        }
      }
      ZeroSlots(newSlots);
      return true;
    }

    // ---- the start of a pass ----

    /** The sequences of the batch in order of appearance, and their numbers of tokens. */
    method CollectSeqs(batch: seq<Entry>) returns (counts: map<int, int>)
      requires batch != []
      modifies `curSeqs
      ensures curSeqs == SeqsOf(batch) && curSeqs != []
      ensures forall i :: 0 <= i < |curSeqs| ==>
          curSeqs[i] in counts && counts[curSeqs[i]] == CountUpTo(batch, |batch|, curSeqs[i])
    {
      counts := map[];
      curSeqs := [];
      for i := 0 to |batch|
        invariant curSeqs == SeqsUpTo(batch, i) && (i > 0 ==> curSeqs != [])
        invariant forall sid :: sid in counts <==> sid in curSeqs
        invariant forall sid :: CountUpTo(batch, i, sid) == if sid in counts then counts[sid] else 0
      {
        var s := batch[i].sid;
        if s !in counts {
          curSeqs := curSeqs + [s];
        }
        counts := counts[s := (if s in counts then counts[s] else 0) + 1];
      }
      forall i | 0 <= i < |curSeqs|
        ensures curSeqs[i] in counts && counts[curSeqs[i]] == CountUpTo(batch, |batch|, curSeqs[i])
      {
        var sid := curSeqs[i];
        assert sid in curSeqs;
        assert CountUpTo(batch, |batch|, sid) == if sid in counts then counts[sid] else 0;
      }
    }

    /** Whether each sequence of the batch has as many tokens as the others. */
    method CheckEven(batch: seq<Entry>, counts: map<int, int>) returns (even: bool)
      requires curSeqs == SeqsOf(batch) && curSeqs != []
      requires forall i :: 0 <= i < |curSeqs| ==>
          curSeqs[i] in counts && counts[curSeqs[i]] == CountUpTo(batch, |batch|, curSeqs[i])
      modifies `curSeqTokens
      ensures even <==> EvenBatch(batch)
      ensures even ==> curSeqTokens == |batch| / |curSeqs|
    {
      var want := |batch| / |curSeqs|;
      for i := 0 to |curSeqs|
        invariant forall j :: 0 <= j < i ==> counts[curSeqs[j]] == want
      {
        if counts[curSeqs[i]] != want {
          assert curSeqs[i] in curSeqs;
          return false;
        }
      }
      curSeqTokens := want;
      forall sid | sid in curSeqs ensures CountUpTo(batch, |batch|, sid) == want {
        var j :| 0 <= j < |curSeqs| && curSeqs[j] == sid;
      }
      return true;
    }

    /** The highest position of each sequence of the batch. */
    method HighestPositions(batch: seq<Entry>) returns (highest: map<int, int>)
      requires forall e :: e in batch ==> 0 <= e.pos
      ensures forall sid :: LastUpTo(batch, |batch|, sid) == if sid in highest then highest[sid] else -1
    {
      highest := map[];
      for i := 0 to |batch|
        invariant forall sid :: LastUpTo(batch, i, sid) == if sid in highest then highest[sid] else -1
      {
        assert batch[i] in batch;
        if batch[i].sid !in highest || batch[i].pos > highest[batch[i].sid] {
          highest := highest[batch[i].sid := batch[i].pos];
        }
      }
    }

    /** The ring of a slot, created when it does not exist yet. */
    method CheckpointStore(slot: int) returns (ring: Ring)
      requires RingsOk()
      modifies `checkpoints
      ensures RingsOk() && ring == RingIn(old(checkpoints), count, slot)
      ensures checkpoints == old(checkpoints)[slot := ring]
    {
      if slot !in checkpoints {
        checkpoints := checkpoints[slot := NewRing(count)];
      }
      ring := checkpoints[slot];
    }

    /** Whether a slot at this position leaves a checkpoint: the position, or -1. */
    method PlanOne(slot: int, pos: int) returns (planned: int)
      requires RingsOk()
      modifies `checkpoints
      ensures RingsOk() && planned == PlanAt(due, RingIn(old(checkpoints), count, slot), pos)
      ensures checkpoints == if pos < due.minPos then old(checkpoints)
                             else old(checkpoints)[slot := RingIn(old(checkpoints), count, slot)]
    {
      if pos < due.minPos {
        return -1;
      }
      var ring := CheckpointStore(slot);
      planned := if ring.lastPos < 0 || pos - ring.lastPos >= due.interval then pos else -1;
    }

    /** Decide for each sequence of the batch whether this pass leaves a checkpoint. */
    method PlanCheckpoints(batch: seq<Entry>)
      requires |curSlots| == |curSeqs| && RingsOk() && 0 <= due.minPos && forall e :: e in batch ==> 0 <= e.pos
      modifies `plan, `claimed, `checkpoints
      ensures RingsOk() && claimed == map[]
      ensures plan == PlanFor(due, old(St()), curSlots, LastOf(batch, curSeqs))
      ensures St() == Planned(due, old(St()), curSlots, LastOf(batch, curSeqs))
    {
      claimed := map[];
      ghost var st, poss := St(), LastOf(batch, curSeqs);
      plan := [];
      if count == 0 || |curSeqs| == 0 {
        return;
      }
      var highest := HighestPositions(batch);
      for i := 0 to |curSeqs|
        invariant claimed == map[] && Planning(st, poss, i)
      {
        PlanNext(i, if curSeqs[i] in highest then highest[curSeqs[i]] else -1, st, poss);
      }
    }

    /** Plan for one more sequence of the batch, whose highest position is `pos`. */
    method PlanNext(i: nat, pos: int, ghost st: RState, ghost poss: seq<int>)
      requires Planning(st, poss, i) && i < |curSlots| && pos == poss[i] && st.count == count
      modifies `plan, `checkpoints
      ensures Planning(st, poss, i + 1)
    {
      PlannedSame(due, st, curSlots, poss, i);
      var planned := PlanOne(curSlots[i], pos);
      plan := plan + [planned];
    }

    /** Planning has dealt with the first `i` sequences of the batch. */
    ghost predicate Planning(st: RState, poss: seq<int>, i: nat)
      reads `checkpoints, `plan, `curSlots
    {
      && RingsOk() && |plan| == i <= |curSlots| == |poss|
      && checkpoints == PlannedRings(due, st, curSlots, poss, i)
      && forall j :: 0 <= j < i ==> plan[j] == PlanAt(due, RingOf(st, curSlots[j]), poss[j])
    }

    ghost predicate Ok()
      reads `slotForSeq, `freeSlots, `bufs, `checkpoints, refCount
    {
      TableOk() && BufsOk() && RingsOk() && 0 <= due.minPos
    }

    method FinalizeStart(batch: seq<Entry>)
      requires |curSlots| == |curSeqs| && RingsOk() && 0 <= due.minPos && forall e :: e in batch ==> 0 <= e.pos
      modifies `plan, `claimed, `checkpoints, `writableEnsured, `writableFailed
      ensures RingsOk() && claimed == map[] && !writableEnsured && !writableFailed
      ensures plan == PlanFor(due, old(St()), curSlots, LastOf(batch, curSeqs))
      ensures St() == Planned(due, old(St()), curSlots, LastOf(batch, curSeqs))
    {
      writableEnsured, writableFailed := false, false;
      PlanCheckpoints(batch);
    }

    /** The sequences of the batch, which must have the same number of tokens each. */
    method SelectSeqs(batch: seq<Entry>) returns (even: bool)
      requires batch != []
      modifies `curSeqs, `curSeqTokens
      ensures curSeqs == SeqsOf(batch) && (even <==> EvenBatch(batch))
      ensures even ==> curSeqTokens == |batch| / |SeqsOf(batch)|
    {
      var single := IsSingle(batch);
      if single {
        curSeqs, curSeqTokens := [batch[0].sid], |batch|;
        return true;
      }
      var counts := CollectSeqs(batch);
      even := CheckEven(batch, counts);
    }

    /** The recurrent part of StartForward, once the causal cache has taken the batch. */
    method StartSlots(batch: seq<Entry>, reserve: bool) returns (r: StartResult)
      requires Ok() && batch != [] && forall e :: e in batch ==> 0 <= e.pos
      modifies `slotForSeq, `freeSlots, `bufs, `checkpoints, refCount
      modifies `curSeqs, `curSlots, `curSeqTokens, `plan, `claimed, `writableEnsured, `writableFailed
      ensures Ok() && r != KvFull && curSeqs == SeqsOf(batch)
      ensures r == UnevenBatch <==> !EvenBatch(batch)
      ensures r == UnevenBatch ==> St() == old(St())
      ensures r == NoSlots ==> !reserve && OutOfSlots(old(St()), curSeqs)
      ensures r == Started ==> |curSlots| == |curSeqs| && claimed == map[] && !writableEnsured && !writableFailed
      ensures r == Started ==> curSeqTokens == |batch| / |curSeqs|
      ensures r == Started && !reserve ==>
                && St() == StartedState(due, old(St()), curSeqs, LastOf(batch, curSeqs))
                && plan == StartedPlan(due, old(St()), curSeqs, LastOf(batch, curSeqs))
                && curSlots == CurSlots(St(), curSeqs) && forall i :: 0 <= i < |curSeqs| ==> curSeqs[i] in slotForSeq
      ensures r == Started && reserve ==>
                && curSlots == seq(|curSeqs|, i => i)
                && St() == Planned(due, old(St()), curSlots, LastOf(batch, curSeqs))
                && plan == PlanFor(due, old(St()), curSlots, LastOf(batch, curSeqs))
    {
      var even := SelectSeqs(batch);
      if !even {
        return UnevenBatch;
      }
      if reserve {
        curSlots := seq(|curSeqs|, i => i);
      } else {
        var ok := AssignSlots();
        if !ok {
          return NoSlots;
        }
      }
      FinalizeStart(batch);
      return Started;
    }

    /** Whether all tokens belong to one sequence. */
    method IsSingle(batch: seq<Entry>) returns (single: bool)
      requires batch != []
      ensures single ==> SeqsOf(batch) == [batch[0].sid] && EvenBatch(batch)
    {
      for i := 1 to |batch|
        invariant forall k :: 0 <= k < i ==> batch[k].sid == batch[0].sid
      {
        if batch[i].sid != batch[0].sid {
          return false;
        }
      }
      OneSequence(batch, |batch|, batch[0].sid);
      return true;
    }

    /** Start a pass: first the causal cache, then the slots. When the sequences of the batch differ
        in length the recurrent state is refused after the causal cache has taken the batch. */
    method StartForward(batch: seq<Entry>, reserve: bool) returns (r: StartResult)
      requires Ok() && kv.Valid() && batch != [] && forall e :: e in batch ==> 0 <= e.pos < CacheCells.MAX_INT32
      modifies kv, kv.cells, `slotForSeq, `freeSlots, `bufs, `checkpoints, refCount
      modifies `curSeqs, `curSlots, `curSeqTokens, `plan, `claimed, `writableEnsured, `writableFailed
      ensures Ok() && kv.Valid()
      ensures !reserve ==> K.Outcome(kv.cfg, old(kv.M()), batch, r != KvFull, kv.M(), kv.curLoc)
      ensures r == KvFull ==> !reserve && St() == old(St())
      ensures r == UnevenBatch <==> r != KvFull && !EvenBatch(batch)
      ensures r == UnevenBatch ==> St() == old(St())
      ensures reserve ==> kv.M() == old(kv.M()) && r != KvFull && r != NoSlots
      ensures r == NoSlots ==> OutOfSlots(old(St()), SeqsOf(batch))
      ensures r == Started ==>
                && curSeqs == SeqsOf(batch) && curSeqTokens == |batch| / |SeqsOf(batch)|
                && claimed == map[] && !writableEnsured && !writableFailed
      ensures r == Started && reserve ==>
                && curSlots == seq(|curSeqs|, i => i)
                && St() == Planned(due, old(St()), curSlots, LastOf(batch, curSeqs))
                && plan == PlanFor(due, old(St()), curSlots, LastOf(batch, curSeqs))
      ensures r == Started && !reserve ==>
                && St() == StartedState(due, old(St()), curSeqs, LastOf(batch, curSeqs))
                && plan == StartedPlan(due, old(St()), curSeqs, LastOf(batch, curSeqs))
                && curSlots == CurSlots(St(), curSeqs) && forall i :: 0 <= i < |curSeqs| ==> curSeqs[i] in slotForSeq
    {
      var took := kv.StartForward(batch, reserve);
      if !took {
        return KvFull;
      }
      r := StartSlots(batch, reserve);
    }

    // ---- copy on write ----

    method CopyRecurrentState(src: int, dst: int)
      requires BufsOk() && 0 <= src < refCount.Length && 0 <= dst < refCount.Length
      modifies `bufs
      ensures BufsOk() && bufs == CopyRows(old(bufs), src, dst)
    {
      var todo := bufs.Keys;
      while todo != {}
        invariant BufsOk() && todo <= bufs.Keys == old(bufs).Keys
        invariant forall b :: b in bufs ==> bufs[b] == if b in todo then old(bufs)[b]
            else CopyRows(old(bufs), src, dst)[b]
        decreases |todo|
      {
        var b :| b in todo;
        bufs := bufs[b := bufs[b][dst := bufs[b][src]]];
        todo := todo - {b};
      }
    }

    method CopyRing(src: int, dst: int)
      requires RingsOk()
      modifies `checkpoints
      ensures RingsOk() && checkpoints == CopyCheckpoints(old(St()), src, dst)
    {
      if count == 0 || src !in checkpoints || checkpoints[src].size == 0 {
        return;
      }
      var from := checkpoints[src];
      var to := CheckpointStore(dst);
      ghost var before := to.entries;
      to := to.(size := from.size, next := from.next, lastPos := from.lastPos);
      for i := 0 to |from.entries|
        invariant to == Ring(to.entries, from.size, from.next, from.lastPos) && |to.entries| == count
        invariant forall j :: 0 <= j < count ==>
                    to.entries[j] == if j < i then Ckpt(from.entries[j].pos, before[j].rows + from.entries[j].rows)
                                     else before[j]
      {
        to := to.(entries := to.entries[i := Ckpt(from.entries[i].pos, to.entries[i].rows + from.entries[i].rows)]);
      }
      assert to == CopiedRing(from, RingOf(old(St()), dst));
      checkpoints := checkpoints[dst := to];
    }

    /** Give a sequence that shares its slot a private copy of it. */
    method DetachSlot(sid: int) returns (ok: bool)
      requires Ok()
      modifies `slotForSeq, `freeSlots, `bufs, `checkpoints, refCount
      ensures Ok()
      ensures !ok <==> NoSpare(old(St()), sid)
      ensures St() == if ok then Detached(old(St()), sid) else old(St())
    {
      if sid !in slotForSeq || refCount[slotForSeq[sid]] <= 1 {
        return true;
      }
      var slot := slotForSeq[sid];
      var newSlot;
      newSlot, ok := AllocSlot();
      if !ok {
        return;
      }
      CopyRecurrentState(slot, newSlot);
      CopyRing(slot, newSlot);
      refCount[slot] := refCount[slot] - 1;
      refCount[newSlot] := 1;
      slotForSeq := slotForSeq[sid := newSlot];
    }

    /** Private slots for all sequences of the batch. */
    method EnsureWritable() returns (ok: bool)
      requires Ok() && curSlots == CurSlots(St(), curSeqs) && AllDistinct(curSeqs)
      modifies `slotForSeq, `freeSlots, `bufs, `checkpoints, `curSlots, refCount
      ensures Ok()
      ensures ok ==> St() == DetachUpTo(old(St()), curSeqs, |curSeqs|) && curSlots == CurSlots(St(), curSeqs)
      ensures !ok ==> CannotDetach(old(St()), curSeqs)
    {
      ghost var st := St();
      for i := 0 to |curSeqs|
        invariant Ok() && St() == DetachUpTo(st, curSeqs, i) && curSlots == CurSlots(St(), curSeqs)
      {
        ghost var before := St();
        ok := DetachSlot(curSeqs[i]);
        if !ok {
          assert NoSpare(DetachUpTo(st, curSeqs, i), curSeqs[i]);
          return;
        }
        CurSlotsStep(before, St(), curSeqs, i);
        if curSeqs[i] in slotForSeq {
          curSlots := curSlots[i := slotForSeq[curSeqs[i]]];
        }
      }
      ok := true;
    }

    /** The first use of the state in a pass makes the slots private; later uses repeat its outcome. */
    method EnsureWritableOnce() returns (ok: bool)
      requires Ok() && curSlots == CurSlots(St(), curSeqs) && AllDistinct(curSeqs)
      requires !writableEnsured ==> !writableFailed
      modifies `slotForSeq, `freeSlots, `bufs, `checkpoints, `curSlots, `writableEnsured, `writableFailed, refCount
      ensures Ok() && writableEnsured && ok == !writableFailed
      ensures old(writableEnsured) ==>
          St() == old(St()) && curSlots == old(curSlots) && writableFailed == old(writableFailed)
      ensures !old(writableEnsured) && ok ==>
                St() == DetachUpTo(old(St()), curSeqs, |curSeqs|) && curSlots == CurSlots(St(), curSeqs)
      ensures !old(writableEnsured) && !ok ==> CannotDetach(old(St()), curSeqs)
    {
      if !writableEnsured {
        var needed := NeedsWritable();
        if needed {
          ok := EnsureWritable();
          writableFailed := !ok;
        } else {
          NoneShared(St(), curSeqs, |curSeqs|);
        }
        writableEnsured := true;
      }
      ok := !writableFailed;
    }

    method NeedsWritable() returns (needed: bool)
      requires TableOk()
      ensures needed <==> exists i :: 0 <= i < |curSeqs| && Shared(Table(), curSeqs[i])
    {
      for i := 0 to |curSeqs|
        invariant TableOk() && forall j :: 0 <= j < i ==> !Shared(Table(), curSeqs[j])
      {
        var sid := curSeqs[i];
        if sid in slotForSeq && refCount[slotForSeq[sid]] > 1 {
          return true;
        }
      }
      return false;
    }

    // ---- reading and writing rows ----

    /** Where the current slots start, when they are consecutive and in order. */
    method ContiguousSlots() returns (start: int, ok: bool)
      ensures ok <==> curSlots != [] && forall i :: 0 <= i < |curSlots| ==> curSlots[i] == curSlots[0] + i
      ensures ok ==> start == curSlots[0]
    {
      if |curSlots| == 0 {
        return 0, false;
      }
      start := curSlots[0];
      for i := 0 to |curSlots|
        invariant forall j :: 0 <= j < i ==> curSlots[j] == start + j
      {
        if curSlots[i] != start + i {
          return 0, false;
        }
      }
      ok := true;
    }

    ghost predicate SlotsInRange()
      reads `curSlots
    {
      forall i :: 0 <= i < |curSlots| ==> 0 <= curSlots[i] < refCount.Length
    }

    /** A buffer, created with zeros on first use. */
    method Buffer(b: Buf)
      requires BufsOk()
      modifies `bufs
      ensures BufsOk() && bufs == old(bufs)[b := BufRows(old(bufs), b, refCount.Length)]
    {
      if b !in bufs {
        bufs := bufs[b := seq(refCount.Length, _ => 0)];
      }
    }

    /** The rows of the current slots: one view of consecutive rows, or row by row. */
    method CurrentSlotRows(b: Buf) returns (rows: seq<Row>)
      requires BufsOk() && SlotsInRange() && b in bufs
      ensures |rows| == |curSlots| && forall i :: 0 <= i < |curSlots| ==> rows[i] == bufs[b][curSlots[i]]
    {
      var start, ok := ContiguousSlots();
      if ok {
        assert curSlots[|curSlots| - 1] == start + |curSlots| - 1;
        return bufs[b][start..start + |curSlots|];
      }
      var all, xs := bufs[b], curSlots;
      return seq(|xs|, i requires 0 <= i < |xs| && 0 <= xs[i] < |all| => all[xs[i]]);
    }

    /** New rows for the current slots: written to one view, or row by row. */
    method WriteCurrentSlotRows(b: Buf, src: seq<Row>)
      requires BufsOk() && SlotsInRange() && b in bufs && |src| == |curSlots|
      modifies `bufs
      ensures BufsOk() && bufs == old(bufs)[b := SetRows(old(bufs)[b], curSlots, src, |src|)]
    {
      var start, ok := ContiguousSlots();
      var rows := bufs[b];
      if ok {
        assert curSlots[|curSlots| - 1] == start + |curSlots| - 1;
        BlockIsRows(rows, curSlots, src, start, |src|);
        assert src[..|src|] == src;
        bufs := bufs[b := rows[..start] + src + rows[start + |src|..]];
      } else {
        bufs := bufs[b := SetRows(rows, curSlots, src, |src|)];
      }
    }

    // ---- checkpoints along the way ----

    ghost function P(): PState
      reads `bufs, `checkpoints, `claimed
    {
      PState(bufs, checkpoints, claimed)
    }

    ghost predicate ClaimsOk()
      reads `claimed
    {
      forall x :: x in claimed ==> 0 <= claimed[x] < count
    }

    /** The ring entry of this pass for a slot, claimed on first use. */
    method CheckpointIndex(slot: int, pos: int) returns (idx: int)
      requires RingsOk() && ClaimsOk() && count > 0
      modifies `checkpoints, `claimed
      ensures RingsOk() && ClaimsOk() && slot in claimed && idx == claimed[slot]
      ensures if slot in old(claimed) then claimed == old(claimed) && checkpoints == old(checkpoints)
              else idx == RingIn(old(checkpoints), count, slot).next && claimed == old(claimed)[slot := idx]
                   && checkpoints == old(checkpoints)[slot := Recorded(RingIn(old(checkpoints), count, slot), pos)]
    {
      if slot in claimed {
        return claimed[slot];
      }
      var ring := CheckpointStore(slot);
      idx := ring.next;
      checkpoints := checkpoints[slot := Recorded(ring, pos)];
      claimed := claimed[slot := idx];
    }

    /** Save one new row in the checkpoint of this pass. */
    method CaptureRow(slot: int, pos: int, b: Buf, row: Row)
      requires RingsOk() && ClaimsOk() && count > 0 && (slot in claimed ==> slot in checkpoints)
      modifies `checkpoints, `claimed
      ensures RingsOk() && ClaimsOk() && slot in claimed && slot in checkpoints
      ensures P() == CaptureOne(old(P()), count, slot, pos, b, row)
    {
      var idx := CheckpointIndex(slot, pos);
      var ring := checkpoints[slot];
      var e := ring.entries[idx];
      checkpoints := checkpoints[slot := ring.(entries := ring.entries[idx := e.(rows := e.rows[b := row])])];
    }

    /** Save the new rows of every sequence for which a checkpoint is planned. */
    method Capture(b: Buf, src: seq<Row>)
      requires RingsOk() && ClaimsOk() && claimed.Keys <= checkpoints.Keys && |plan| <= |curSlots| == |src|
          && (count == 0 ==> plan == [])
      modifies `checkpoints, `claimed
      ensures RingsOk() && ClaimsOk() && claimed.Keys <= checkpoints.Keys
      ensures P() == CaptureUpTo(old(P()), count, curSlots, plan, b, src, |plan|)
    {
      for i := 0 to |plan|
        invariant RingsOk() && ClaimsOk() && claimed.Keys <= checkpoints.Keys
        invariant P() == CaptureUpTo(old(P()), count, curSlots, plan, b, src, i)
      {
        if plan[i] >= 0 {
          ghost var before := P();
          CaptureRow(curSlots[i], plan[i], b, src[i]);
          CaptureOneFrame(before, before, count, curSlots[i], plan[i], b, src[i]);
          assert forall x :: x in claimed && x != curSlots[i] ==> SameAt(before, P(), x);
        }
      }
    }

    ghost predicate InPass()
      reads `bufs, `checkpoints, `claimed, `curSlots, `plan
    {
      && BufsOk() && RingsOk() && ClaimsOk() && claimed.Keys <= checkpoints.Keys && SlotsInRange()
      && |plan| <= |curSlots| && (count == 0 ==> plan == [])
    }

    /** New state of the batch for one buffer. */
    method UpdateState(b: Buf, src: seq<Row>)
      requires InPass() && |src| == |curSlots|
      modifies `bufs, `checkpoints, `claimed
      ensures InPass() && P() == UpdateBuf(old(P()), refCount.Length, count, curSlots, plan, b, src)
    {
      ghost var ps := P();
      Buffer(b);
      WriteCurrentSlotRows(b, src);
      assert bufs == ps.bufs[b := SetRows(BufRows(ps.bufs, b, refCount.Length), curSlots, src, |curSlots|)];
      assert P() == ps.(bufs := bufs);
      Capture(b, src);
    }

    /** The state of the batch for one buffer, as the model reads it. */
    method ReadState(b: Buf) returns (rows: seq<Row>, ok: bool)
      requires Ok() && curSlots == CurSlots(St(), curSeqs) && AllDistinct(curSeqs)
      requires (!writableEnsured ==> !writableFailed) && forall i :: 0 <= i < |curSeqs| ==> curSeqs[i] in slotForSeq
      modifies `slotForSeq, `freeSlots, `bufs, `checkpoints, `curSlots, `writableEnsured, `writableFailed, refCount
      ensures Ok() && writableEnsured && ok == !writableFailed
      ensures old(writableEnsured) ==> ok == !old(writableFailed)
      ensures !ok && !old(writableEnsured) ==> CannotDetach(old(St()), curSeqs)
      ensures ok ==>
                var st := if old(writableEnsured) then old(St()) else DetachUpTo(old(St()), curSeqs, |curSeqs|);
                && St() == st.(bufs := st.bufs[b := BufRows(st.bufs, b, refCount.Length)])
                && curSlots == CurSlots(St(), curSeqs) && SlotsInRange() && forall i :: 0 <= i < |curSeqs| ==>
                    curSeqs[i] in slotForSeq
      ensures ok ==> |rows| == |curSlots| && forall i :: 0 <= i < |rows| ==> rows[i] == RowAt(bufs, b, curSlots[i])
    {
      ghost var st := St();
      ok := EnsureWritableOnce();
      if !ok {
        return [], false;
      }
      DetachedSeqs(st, curSeqs, |curSeqs|);
      Buffer(b);
      forall i | 0 <= i < |curSeqs| ensures curSeqs[i] in slotForSeq && 0 <= curSlots[i] < refCount.Length {
        assert curSeqs[i] in st.slots.slotOf;
      }
      rows := CurrentSlotRows(b);
    }

    ghost predicate Running(toks: seq<seq<Token>>)
      reads `slotForSeq, `freeSlots, `bufs, `checkpoints, `claimed, `curSeqs, `curSlots, `plan, `writableEnsured,
          `writableFailed, refCount
    {
      && Ok() && ClaimsOk() && claimed.Keys <= checkpoints.Keys
      && curSlots == CurSlots(St(), curSeqs) && AllDistinct(curSeqs)
      && (forall i :: 0 <= i < |curSeqs| ==> curSeqs[i] in slotForSeq)
      && (!writableEnsured ==> !writableFailed && claimed == map[]) && |toks| == |curSeqs|
      && |plan| <= |curSeqs| && (count == 0 ==> plan == [])
    }

    /** The state on which the next update works: slots are private from the first use on. */
    ghost function Writable(): RState
      reads `slotForSeq, `freeSlots, `bufs, `checkpoints, `curSeqs, `writableEnsured, refCount
    {
      if writableEnsured then St() else DetachUpTo(St(), curSeqs, |curSeqs|)
    }

    /** Advance the rows that were read by the tokens and write them back. */
    method AdvanceRows(m: Model, b: Buf, toks: seq<seq<Token>>, rows: seq<Row>, ghost st: RState)
      requires Running(toks) && writableEnsured && SlotsInRange() && |rows| == |curSlots|
      requires forall i :: 0 <= i < |rows| ==> rows[i] == RowAt(st.bufs, b, curSlots[i])
      requires bufs == st.bufs[b := BufRows(st.bufs, b, refCount.Length)] && checkpoints == st.rings
      modifies `bufs, `checkpoints, `claimed
      ensures Running(toks)
      ensures P() == UpdateBuf(PState(st.bufs, st.rings, old(claimed)), refCount.Length, count,
                               curSlots, plan, b, NewRows(m, b, st.bufs, curSlots, toks))
    {
      ghost var was := claimed;
      var src := Advanced(m, b, rows, toks);
      assert src == NewRows(m, b, st.bufs, curSlots, toks);
      UpdateState(b, src);
      BufferFirst(PState(st.bufs, st.rings, was), refCount.Length, count, curSlots, plan, b, src);
    }

    /** One recurrent layer of a model: read the rows, advance them by the tokens, write them back. */
    method RunLayer(m: Model, b: Buf, toks: seq<seq<Token>>) returns (ok: bool)
      requires Running(toks)
      modifies `slotForSeq, `freeSlots, `bufs, `checkpoints, `curSlots, `writableEnsured, `writableFailed, `claimed,
          refCount
      ensures ok ==> Running(toks) && writableEnsured && !writableFailed && Table() == old(Writable()).slots
      ensures ok ==>
          P() == UpdateBuf(PState(old(Writable()).bufs, old(Writable()).rings, old(claimed)), refCount.Length, count,
                                      curSlots, plan, b, NewRows(m, b, old(Writable()).bufs, curSlots, toks))
      ensures ok == !writableFailed && (old(writableEnsured) ==> writableFailed == old(writableFailed))
      ensures !ok && !old(writableEnsured) ==> CannotDetach(old(St()), curSeqs)
    {
      ghost var st := Writable();
      var rows;
      rows, ok := ReadState(b);
      if ok {
        AdvanceRows(m, b, toks, rows, st);
      }
    }

    /** All recurrent layers of a model, buffer by buffer. */
    method RunLayers(m: Model, order: seq<Buf>, toks: seq<seq<Token>>) returns (ok: bool)
      requires Running(toks) && !writableEnsured && order != []
      modifies `slotForSeq, `freeSlots, `bufs, `checkpoints, `curSlots, `writableEnsured, `writableFailed, `claimed,
          refCount
      ensures !ok ==> CannotDetach(old(St()), curSeqs)
      ensures ok ==>
                var st := DetachUpTo(old(St()), curSeqs, |curSeqs|);
                && Ok() && Table() == st.slots && curSlots == CurSlots(st, curSeqs)
                && P() == UpdateAll(m, PState(st.bufs, st.rings, map[]), refCount.Length, count, curSlots, plan, toks,
                                    order, |order|)
    {
      ghost var st := DetachUpTo(St(), curSeqs, |curSeqs|);
      ghost var ps, xs := PState(st.bufs, st.rings, map[]), CurSlots(st, curSeqs);
      ok := RunLayer(m, order[0], toks);
      if !ok {
        return;
      }
      SameCurSlots(St(), st, curSeqs);
      assert P() == UpdateAll(m, ps, refCount.Length, count, xs, plan, toks, order, 1);
      for k := 1 to |order|
        invariant ok && Running(toks) && Table() == st.slots && writableEnsured && !writableFailed && curSlots == xs
        invariant P() == UpdateAll(m, ps, refCount.Length, count, xs, plan, toks, order, k)
      {
        ok := RunLayer(m, order[k], toks);
        SameCurSlots(St(), st, curSeqs);
      }
    }

    // ---- sharing a prefix ----

    /** Give up the slot of a sequence. */
    method ReleaseSlot(sid: int) returns (unused: bool)
      requires TableOk() && sid in slotForSeq
      modifies `slotForSeq, `freeSlots, refCount
      ensures TableOk() && Table() == Release(old(Table()), sid)
      ensures unused <==> old(refCount[slotForSeq[sid]]) <= 1
    {
      var slot := slotForSeq[sid];
      refCount[slot] := refCount[slot] - 1;
      unused := refCount[slot] <= 0;
      if unused {
        refCount[slot] := 0;
        freeSlots := freeSlots + [slot];
      }
      slotForSeq := slotForSeq - {sid};
    }

    /** The target joins the slot of the source; the checkpoints of a slot it leaves stay behind. */
    method CopyPrefix(src: int, dst: int, len: int)
      requires Ok() && kv.Valid() && src != dst
      modifies kv, kv.cells, `slotForSeq, `freeSlots, refCount
      ensures Ok() && kv.Valid() && kv.M() == CopiedMeta(old(kv.M()), src, dst, len)
      ensures InRange(old(Table())) && St() == Forked(old(St()), src, dst)
    {
      kv.CopyPrefix(src, dst, len);
      JoinSlot(src, dst);
    }

    method JoinSlot(src: int, dst: int)
      requires TableOk() && src != dst
      modifies `slotForSeq, `freeSlots, refCount
      ensures TableOk() && InRange(old(Table())) && St() == Forked(old(St()), src, dst)
    {
      if dst in slotForSeq {
        var unused := ReleaseSlot(dst);
      }
      if src in slotForSeq {
        var slot := slotForSeq[src];
        slotForSeq := slotForSeq[dst := slot];
        refCount[slot] := refCount[slot] + 1;
      }
    }

    // ---- going back ----

    ghost predicate PendingOk()
      reads `pendingRestore
    {
      forall sid :: sid in pendingRestore ==> 0 <= pendingRestore[sid].slot < refCount.Length
    }

    /** Look for the best checkpoint below the target and remember it for the Remove that follows. */
    method PrepareRestore(sid: int, target: int) returns (n: int, ok: bool)
      requires Ok() && PendingOk()
      modifies `pendingRestore
      ensures PendingOk()
      ensures ok <==> Resume(St(), sid, target) >= 0
      ensures ok ==> n == ResumeTo(St(), sid, target) && HasCheckpoint(St(), sid, Resume(St(), sid, target))
      ensures pendingRestore ==
                if ok then old(pendingRestore)[sid := Restore(slotForSeq[sid], Resume(St(), sid, target), n - 1)]
                else old(pendingRestore)
      ensures !ok ==> n == 0
    {
      if target <= 0 || sid !in slotForSeq || slotForSeq[sid] !in checkpoints {
        return 0, false;
      }
      var slot := slotForSeq[sid];
      var idx := BestIn(checkpoints[slot].entries, target);
      BestIsHighest(checkpoints[slot].entries, target, |checkpoints[slot].entries|);
      if idx < 0 {
        return 0, false;
      }
      var pos := checkpoints[slot].entries[idx].pos;
      pendingRestore := pendingRestore[sid := Restore(slot, idx, pos)];
      return pos + 1, true;
    }

    method HasCheckpointBelow(sid: int, pos: int) returns (r: bool)
      requires Ok()
      ensures r <==> Resume(St(), sid, pos) >= 0
    {
      r := pos > 0 && sid in slotForSeq && slotForSeq[sid] in checkpoints
           && BestIn(checkpoints[slotForSeq[sid]].entries, pos) >= 0;
    }

    method CanResume(sid: int, pos: int) returns (r: bool)
      requires Ok() && kv.Valid()
      ensures r <==> K.CanResumeCells(kv.cfg, kv.cells[..], sid, pos) && (pos == 0 || Resume(St(), sid, pos) >= 0)
    {
      r := kv.CanResume(sid, pos);
      if r && pos != 0 {
        r := HasCheckpointBelow(sid, pos);
      }
    }

    /** The entry is there, live, and has a row for every buffer. */
    predicate RestoreReady(r: Restore)
      reads `checkpoints, `bufs
    {
      && r.slot in checkpoints && 0 <= r.idx < |checkpoints[r.slot].entries|
      && Live(checkpoints[r.slot].entries[r.idx])
      && forall b :: b in bufs ==> b in checkpoints[r.slot].entries[r.idx].rows
    }

    method WriteRow(b: Buf, slot: int, row: Row)
      requires BufsOk() && 0 <= slot < refCount.Length
      modifies `bufs
      ensures BufsOk() && bufs == old(bufs)[b := BufRows(old(bufs), b, refCount.Length)[slot := row]]
    {
      Buffer(b);
      bufs := bufs[b := bufs[b][slot := row]];
    }

    /** Write the rows of a checkpoint into a slot, creating buffers that do not exist. */
    method WriteRows(rows: map<Buf, Row>, slot: int)
      requires BufsOk() && 0 <= slot < refCount.Length
      modifies `bufs
      ensures BufsOk() && bufs == WriteBack(old(bufs), refCount.Length, rows, slot)
    {
      var todo := rows.Keys;
      WriteBackNone(bufs, refCount.Length, rows, slot);
      while todo != {}
        invariant BufsOk() && todo <= rows.Keys && bufs == WriteBack(old(bufs), refCount.Length, rows - todo, slot)
        decreases |todo|
      {
        var b :| b in todo;
        WriteBackStep(old(bufs), refCount.Length, rows, todo, slot, b);
        WriteRow(b, slot, rows[b]);
        todo := todo - {b};
      }
      assert rows - {} == rows;
    }

    /** Write the rows of a checkpoint back and forget the later checkpoints of its slot. */
    method ApplyRestore(r: Restore) returns (ok: bool)
      requires Ok() && 0 <= r.slot < refCount.Length
      modifies `bufs, `checkpoints
      ensures Ok() && (ok <==> old(RestoreReady(r)))
      ensures ok ==> bufs == WriteBack(old(bufs), refCount.Length, old(checkpoints)[r.slot].entries[r.idx].rows, r.slot)
      ensures ok ==> checkpoints == old(checkpoints)[r.slot := Pruned(old(checkpoints)[r.slot], r.pos)]
      ensures !ok ==> bufs == old(bufs) && checkpoints == old(checkpoints)
    {
      ok := RestoreReady(r);
      if !ok {
        return;
      }
      WriteRows(checkpoints[r.slot].entries[r.idx].rows, r.slot);
      PrunedInRange(checkpoints[r.slot], r.pos);
      checkpoints := checkpoints[r.slot := Pruned(checkpoints[r.slot], r.pos)];
    }

    /** Remove a middle range: the causal cache closes the gap, private checkpoints move along. */
    method RemoveMiddle(sid: int, begin: int, end: int) returns (r: RemoveOutcome)
      requires Ok() && PendingOk() && kv.Valid() && kv.cfg.maxBatch > 0 && 0 < begin <= end < CacheCells.MAX_INT32
      modifies kv, kv.cells, `slotForSeq, `freeSlots, `bufs, `checkpoints, `pendingRestore, refCount
      ensures Ok() && PendingOk() && kv.Valid() && kv.M() == RemovedMeta(old(kv.M()), sid, begin, end)
          && r != NotSupported
      ensures r.KvRefused? ==> r.why != C.Removed && St() == old(St()) && pendingRestore == old(pendingRestore)
      ensures r == KvRefused(C.Shared) <==> CacheCells.RemoveBlocked(old(kv.cells[..]), sid, begin, end)
      ensures !r.KvRefused? ==>
          pendingRestore == old(pendingRestore) - {sid} && (r == NoSpareSlot <==> NoSpare(old(St()), sid))
      ensures r == Done ==> St() == Shifted(old(St()), sid, begin, end)
      ensures r == NoSpareSlot ==> St() == old(St())
    {
      var removed, upTo := kv.Remove(sid, begin, end);
      if removed != C.Removed {
        return KvRefused(removed);
      }
      pendingRestore := pendingRestore - {sid};
      var ok := DetachSlot(sid);
      if !ok {
        return NoSpareSlot;
      }
      ShiftCheckpoints(sid, begin, end);
      return Done;
    }

    method ShiftCheckpoints(sid: int, begin: int, end: int)
      requires RingsOk()
      modifies `checkpoints
      ensures RingsOk()
      ensures checkpoints == if sid in slotForSeq && slotForSeq[sid] in old(checkpoints)
                             then old(checkpoints)[slotForSeq[sid] :=
                                 ShiftedRing(old(checkpoints)[slotForSeq[sid]], begin, end)]
                             else old(checkpoints)
    {
      if sid in slotForSeq && slotForSeq[sid] in checkpoints {
        var slot := slotForSeq[sid];
        var ring := checkpoints[slot];
        if count > 0 {
          ShiftedInRange(ring, begin, end);
        }
        checkpoints := checkpoints[slot := ShiftedRing(ring, begin, end)];
      }
    }

    /** The checkpoint remembered for a sequence is the one that Remove from `begin` on asks for. */
    predicate PendingFor(sid: int, begin: int)
      reads `pendingRestore, `checkpoints, `bufs
    {
      sid in pendingRestore && pendingRestore[sid].pos + 1 == begin && RestoreReady(pendingRestore[sid])
    }

    /** Make the slot to be restored private, taking the pending restore along. */
    method DetachPending(sid: int) returns (ok: bool)
      requires Ok() && PendingOk() && sid in pendingRestore
      modifies `slotForSeq, `freeSlots, `bufs, `checkpoints, `pendingRestore, refCount
      ensures Ok() && PendingOk() && (!ok <==> NoSpare(old(St()), sid))
      ensures St() == if ok then Detached(old(St()), sid) else old(St())
      ensures ok ==> pendingRestore == if Shared(old(Table()), sid)
                                       then old(pendingRestore)[sid :=
                                           old(pendingRestore)[sid].(slot := slotForSeq[sid])]
                                       else old(pendingRestore)
      ensures !ok ==> pendingRestore == old(pendingRestore)
    {
      var shared := sid in slotForSeq && refCount[slotForSeq[sid]] > 1;
      ok := DetachSlot(sid);
      if ok && shared {
        pendingRestore := pendingRestore[sid := pendingRestore[sid].(slot := slotForSeq[sid])];
      }
    }

    /** The restore pending for a sequence is checkpoint `idx` of its slot. */
    ghost predicate PendingIs(sid: int, idx: int)
      reads `pendingRestore, `slotForSeq, `checkpoints, `freeSlots, `bufs, refCount
    {
      && sid in pendingRestore && HasCheckpoint(St(), sid, idx)
      && pendingRestore[sid] == Restore(slotForSeq[sid], idx, checkpoints[slotForSeq[sid]].entries[idx].pos)
    }

    /** Carry out the pending restore, now that the slot is private and the causal cache truncated. */
    method FinishRestore(sid: int, ghost idx: int) returns (ok: bool)
      requires Ok() && PendingOk() && sid in pendingRestore
      modifies `bufs, `checkpoints, `pendingRestore
      ensures Ok() && PendingOk() && pendingRestore == old(pendingRestore) - {sid}
      ensures old(PendingIs(sid, idx)) && Complete(old(St()), sid, idx) ==>
          ok && St() == RestoredHere(old(St()), sid, idx)
    {
      var restore := pendingRestore[sid];
      pendingRestore := pendingRestore - {sid};
      ok := ApplyRestore(restore);
    }

    /** The same, knowing that a complete checkpoint stays complete on the way. */
    method DetachForRestore(sid: int, ghost idx: int) returns (ok: bool)
      requires Ok() && PendingOk() && sid in pendingRestore && idx == pendingRestore[sid].idx
      modifies `slotForSeq, `freeSlots, `bufs, `checkpoints, `pendingRestore, refCount
      ensures Ok() && PendingOk() && (!ok <==> NoSpare(old(St()), sid))
      ensures St() == if ok then Detached(old(St()), sid) else old(St())
      ensures sid in pendingRestore && pendingRestore - {sid} == old(pendingRestore) - {sid}
      ensures !ok ==> pendingRestore == old(pendingRestore)
      ensures ok && Fresh(old(St()), sid, old(pendingRestore)) && CanGoBack(old(St()), sid, idx) ==>
          PendingIs(sid, idx) && Complete(St(), sid, idx)
    {
      ghost var st, pend := St(), pendingRestore;
      ok := DetachPending(sid);
      if ok && Fresh(st, sid, pend) && CanGoBack(st, sid, idx) {
        if Shared(st.slots, sid) { DetachedComplete(st, sid, idx); }
      }
    }

    /** Go back to the checkpoint that was prepared: in a private slot, with the causal cache truncated. */
    method TakeBack(sid: int, begin: int) returns (r: RemoveOutcome)
      requires Ok() && PendingOk() && kv.Valid() && kv.cfg.maxBatch > 0 && 0 < begin <= CacheCells.MAX_INT32
      requires PendingFor(sid, begin)
      modifies kv, kv.cells, `slotForSeq, `freeSlots, `bufs, `checkpoints, `pendingRestore, refCount
      ensures Ok() && PendingOk() && kv.Valid()
      ensures r == NoSpareSlot <==> NoSpare(old(St()), sid)
      ensures r == NoSpareSlot ==> St() == old(St()) && kv.M() == old(kv.M())
      ensures r == Done ==> kv.M() == RemovedMeta(old(kv.M()), sid, begin, CacheCells.MAX_INT32)
      ensures !r.KvRefused? && pendingRestore == old(pendingRestore) - if r == NoSpareSlot then {} else {sid}
      ensures r == NoSpareSlot || RestoredTail(old(St()), sid, old(pendingRestore), true, r, St())
    {
      ghost var idx := pendingRestore[sid].idx;
      var ok := DetachForRestore(sid, idx);
      if !ok {
        return NoSpareSlot;
      }
      var removed, upTo := kv.Remove(sid, begin, CacheCells.MAX_INT32);
      ok := FinishRestore(sid, idx);
      return if ok then Done else NotSupported;
    }

    /** Remove everything from `begin` on: go back to the checkpoint that was prepared for it. */
    method RemoveTail(sid: int, begin: int) returns (r: RemoveOutcome)
      requires Ok() && PendingOk() && kv.Valid() && kv.cfg.maxBatch > 0 && 0 < begin <= CacheCells.MAX_INT32
      modifies kv, kv.cells, `slotForSeq, `freeSlots, `bufs, `checkpoints, `pendingRestore, refCount
      ensures Ok() && PendingOk() && kv.Valid()
      ensures !old(PendingFor(sid, begin)) ==> r == NotSupported && St() == old(St()) && kv.M() == old(kv.M())
      ensures !r.KvRefused? && pendingRestore == old(pendingRestore) - if r == NoSpareSlot || !old(PendingFor(sid,
                                                                          begin)) then {} else {sid}
      ensures r == NoSpareSlot <==> old(PendingFor(sid, begin)) && NoSpare(old(St()), sid)
      ensures r == NoSpareSlot ==> St() == old(St()) && kv.M() == old(kv.M())
      ensures r == Done ==> kv.M() == RemovedMeta(old(kv.M()), sid, begin, CacheCells.MAX_INT32)
      ensures r == NoSpareSlot || RestoredTail(old(St()), sid, old(pendingRestore), old(PendingFor(sid, begin)), r,
                                               St())
    {
      if !PendingFor(sid, begin) {
        return NotSupported;
      }
      r := TakeBack(sid, begin);
    }

    /** The sequence gives up its slot; an unused slot loses its checkpoints. */
    method DropSlot(sid: int)
      requires Ok()
      modifies `slotForSeq, `freeSlots, `checkpoints, refCount
      ensures Ok() && InRange(old(Table())) && St() == Cleared(old(St()), sid)
    {
      if sid in slotForSeq {
        var slot := slotForSeq[sid];
        var unused := ReleaseSlot(sid);
        if unused && slot in checkpoints {
          checkpoints := checkpoints[slot := ResetRing(checkpoints[slot])];
        }
      }
    }

    /** Remove everything: the sequence gives up its slot, and the last user clears its checkpoints. */
    method RemoveAll(sid: int, end: int) returns (r: RemoveOutcome)
      requires Ok() && PendingOk() && kv.Valid() && kv.cfg.maxBatch > 0 && 0 <= end <= CacheCells.MAX_INT32
      modifies kv, kv.cells, `slotForSeq, `freeSlots, `checkpoints, `pendingRestore, refCount
      ensures Ok() && PendingOk() && kv.Valid() && kv.M() == RemovedMeta(old(kv.M()), sid, 0, end)
      ensures r == Done || (r.KvRefused? && r.why != C.Removed)
      ensures r == KvRefused(C.Shared) <==> CacheCells.RemoveBlocked(old(kv.cells[..]), sid, 0, end)
      ensures end == CacheCells.MAX_INT32 ==> r == Done
      ensures r == Done ==>
          InRange(old(Table())) && St() == Cleared(old(St()), sid) && pendingRestore == old(pendingRestore) - {sid}
      ensures r != Done ==> St() == old(St()) && pendingRestore == old(pendingRestore)
    {
      var removed, upTo := kv.Remove(sid, 0, end);
      if removed != C.Removed {
        return KvRefused(removed);
      }
      pendingRestore := pendingRestore - {sid};
      DropSlot(sid);
      return Done;
    }

    /** Remove positions of a sequence: a middle range, the tail, or everything. Where it is refused the
        causal cache may have changed, never the recurrent state. */
    method Remove(sid: int, begin: int, end: int) returns (r: RemoveOutcome)
      requires Ok() && PendingOk() && kv.Valid() && kv.cfg.maxBatch > 0 && 0 <= begin <= end <= CacheCells.MAX_INT32
      modifies kv, kv.cells, `slotForSeq, `freeSlots, `bufs, `checkpoints, `pendingRestore, refCount
      ensures Ok() && PendingOk() && kv.Valid()
      // what is refused
      ensures r.KvRefused? ==> r.why != C.Removed && end != CacheCells.MAX_INT32
      ensures begin == 0 || end != CacheCells.MAX_INT32 ==>
                (r == KvRefused(C.Shared) <==> CacheCells.RemoveBlocked(old(kv.cells[..]), sid, begin, end))
      ensures r == NoSpareSlot ==> begin > 0 && NoSpare(old(St()), sid)
      ensures r == NoSpareSlot || r.KvRefused? ==> St() == old(St())
      ensures r.KvRefused? ==> pendingRestore == old(pendingRestore)
      // a middle range
      ensures begin > 0 && end != CacheCells.MAX_INT32 ==>
                && r != NotSupported && kv.M() == RemovedMeta(old(kv.M()), sid, begin, end)
                && (!r.KvRefused? ==> pendingRestore == old(pendingRestore) - {sid})
                && (!r.KvRefused? ==> (r == NoSpareSlot <==> NoSpare(old(St()), sid)))
                && (r == Done ==> St() == Shifted(old(St()), sid, begin, end))
      // the tail
      ensures begin > 0 && end == CacheCells.MAX_INT32 ==>
                && (r == NoSpareSlot <==> old(PendingFor(sid, begin)) && NoSpare(old(St()), sid))
                && (!old(PendingFor(sid, begin)) ==> r == NotSupported && St() == old(St()))
                && (!old(PendingFor(sid, begin)) || r == NoSpareSlot ==>
                      kv.M() == old(kv.M()) && pendingRestore == old(pendingRestore))
                && (r == Done ==> kv.M() == RemovedMeta(old(kv.M()), sid, begin, end)
                                  && pendingRestore == old(pendingRestore) - {sid})
                && (r == NoSpareSlot || RestoredTail(old(St()), sid, old(pendingRestore), old(PendingFor(sid, begin)),
                                                     r, St()))
      // everything
      ensures begin == 0 && end == CacheCells.MAX_INT32 ==> r == Done
      ensures begin == 0 ==> (r == Done || r.KvRefused?) && kv.M() == RemovedMeta(old(kv.M()), sid, 0, end)
      ensures begin == 0 && r == Done ==>
                && InRange(old(Table())) && St() == Cleared(old(St()), sid)
                && pendingRestore == old(pendingRestore) - {sid}
    {
      if begin > 0 && end != CacheCells.MAX_INT32 {
        r := RemoveMiddle(sid, begin, end);
      } else if begin > 0 {
        r := RemoveTail(sid, begin);
      } else {
        r := RemoveAll(sid, end);
      }
    }
  }

  /** What PrepareRestore remembers for the Remove that follows. */
  datatype Restore = Restore(slot: int, idx: int, pos: int)

  // ---- the calls of a runner ----

  // ---- planned positions ----

  lemma {:induction false} LastIsEnd(v: View, batch: seq<Entry>, n: nat, sid: int)
    requires n <= |batch| && Continues(v, batch) && 0 <= At(v, sid).hi
    ensures LastUpTo(batch, n, sid) == if CountUpTo(batch, n, sid) > 0 then At(GrowView(v, batch, n), sid).hi - 1
        else -1
  {
    if n > 0 {
      LastIsEnd(v, batch, n - 1, sid);
      GrowCounts(v, batch, n - 1, sid);
      assert TakesNext(v, batch, n - 1);
    }
  }

  /** The highest batch position of a sequence is that of its last token. */
  lemma {:induction false} PlannedPositions(c: HConfig, h: Hybrid, batch: seq<Entry>, tokens: seq<Token>)
    requires HInv(c, h) && Continues(h.v, batch) && |tokens| == |batch|
    ensures LastOf(batch, SeqsOf(batch)) == LastPositions(h.w, SeqsOf(batch), ToksOf(batch, tokens))
  {
    var xs := SeqsOf(batch);
    SeqsMeaning(batch, |batch|);
    forall i | 0 <= i < |xs|
      ensures LastOf(batch, xs)[i] == LastPositions(h.w, xs, ToksOf(batch, tokens))[i]
    {
      assert xs[i] in xs && SameTokens(h, xs[i]);
      LastIsEnd(h.v, batch, |batch|, xs[i]);
      GrowCounts(h.v, batch, |batch|, xs[i]);
    }
  }

  // ---- what the slots promise before a call ----

  lemma {:induction false} StartedWorld(m: Model, w: World, ids: set<int>, due: Due, seqs: seq<int>,
                                        toks: seq<seq<Token>>)
    requires Coherent(m, w) && Within(w, ids) && BatchOk(w, ids, seqs, toks)
    ensures !OutOfSlots(w.st, seqs)
    ensures StartedState(due, w.st, seqs, LastPositions(w, seqs, toks)) == RecurrentRuns.Started(w, due, seqs, toks).st
    ensures !CannotDetach(RecurrentRuns.Started(w, due, seqs, toks).st, seqs)
  {
    AssignNeverStuck(m, w, ids, seqs);
    StartedKeeps(m, w, ids, due, seqs, toks);
    DetachNeverStuck(m, RecurrentRuns.Started(w, due, seqs, toks), ids, seqs);
  }

  /** What the updates of a pass leave behind is the state after the pass. */
  lemma {:induction false} PassState(m: Model, w: World, due: Due, seqs: seq<int>, toks: seq<seq<Token>>,
                                     order: seq<Buf>, st: RState, q: PState)
    requires |seqs| == |toks| && q.bufs == st.bufs && q.rings == st.rings
    requires var st2, p := Prepared(w, due, seqs, toks).st, PassOf(w, due, seqs, toks);
             && st.slots == st2.slots && st.count == st2.count
             && q == UpdateAll(m, PState(st2.bufs, st2.rings, map[]), N(st2), st2.count, p.xs, p.plan, toks, order,
                               |order|)
    ensures st == AfterPass(m, w, due, seqs, toks, order).st
  {
  }

  lemma {:induction false} ReadyToGoBack(m: Model, w: World, ids: set<int>, sid: int, idx: int)
    requires Coherent(m, w) && Within(w, ids) && HasCheckpoint(w.st, sid, idx)
    ensures CanGoBack(w.st, sid, idx) && !NoSpare(w.st, sid)
  {
    var x := w.st.slots.slotOf[sid];
    UsedSlot(w.st.slots, sid);
    assert SlotCoherent(m, w, x) && CkptMatches(m, w.st.rings[x].entries[idx], S(w, x));
    if Shared(w.st.slots, sid) {
      RoomToDetach(w, ids, sid);
      TopIsFree(w.st.slots);
      assert SlotCoherent(m, w, Top(w.st.slots));
      DetachedCheckpoint(m, w, sid, idx);
    }
  }

  // ---- the calls ----

  /** The object is in the state `h` of the joint system. */
  ghost predicate In(rc: Recurrent, c: HConfig, h: Hybrid)
    reads rc, rc.refCount, rc.kv, rc.kv.cells
  {
    && rc.Ok() && rc.PendingOk() && rc.kv.Valid() && rc.kv.cfg == c.kv && rc.due == c.due && c.kv.maxBatch > 0
    && rc.kv.M() == h.m && rc.St() == h.w.st
  }

  /** The checkpoint to go back to, if any, can be restored. */
  ghost predicate CanResumeAt(st: RState, sid: int, target: int) {
    Resume(st, sid, target) >= 0 ==> CanGoBack(st, sid, Resume(st, sid, target)) && !NoSpare(st, sid)
  }

  /** Go back to at most `target` tokens: to a checkpoint if there is one, else to nothing. */
  method GoBack(rc: Recurrent, sid: int, target: int, ghost w: World)
    requires rc.Ok() && rc.PendingOk() && rc.kv.Valid() && rc.kv.cfg.maxBatch > 0 && rc.St() == w.st
        && InRange(w.st.slots)
    requires CanResumeAt(w.st, sid, target) && target <= CacheCells.MAX_INT32
    modifies rc, rc.refCount, rc.kv, rc.kv.cells
    ensures rc.Ok() && rc.PendingOk() && rc.kv.Valid() && rc.St() == WorldBack(w, sid, target).st
    ensures rc.kv.M() == RemovedMeta(old(rc.kv.M()), sid, ResumeTo(w.st, sid, target), CacheCells.MAX_INT32)
  {
    var n, ok := rc.PrepareRestore(sid, target);
    if ok {
      ghost var idx := Resume(w.st, sid, target);
      ResumeCheckpoint(w.st, sid, target);
      assert rc.PendingFor(sid, n) && Fresh(rc.St(), sid, rc.pendingRestore);
      var r := rc.Remove(sid, n, CacheCells.MAX_INT32);
    } else {
      var r := rc.Remove(sid, 0, CacheCells.MAX_INT32);
    }
  }

  lemma {:induction false} CoherentResumes(m: Model, w: World, ids: set<int>, sid: int, target: int)
    requires Coherent(m, w) && Within(w, ids)
    ensures CanResumeAt(w.st, sid, target)
  {
    if Resume(w.st, sid, target) >= 0 {
      ResumeCheckpoint(w.st, sid, target);
      ReadyToGoBack(m, w, ids, sid, Resume(w.st, sid, target));
    }
  }

  /** The runner's cache load is the step HBack. */
  method Load(rc: Recurrent, sid: int, target: int, ghost c: HConfig, ghost h: Hybrid) returns (ghost h': Hybrid)
    requires HInv(c, h) && In(rc, c, h) && SlotsOk(h.w.st.slots) && HAllowed(c, h, HBack(sid, target))
        && |h.m.cells| <= MAX_INT
    modifies rc, rc.refCount, rc.kv, rc.kv.cells
    ensures HStep(c, h, HBack(sid, target), h') && HInv(c, h') && In(rc, c, h')
  {
    assert SameTokens(h, sid);
    CoherentResumes(c.model, h.w, c.ids, sid, target);
    GoBack(rc, sid, target, h.w);
    h' := Hybrid(rc.kv.M(), K.ViewStep(c.kv, h.v, KvOp(h, HBack(sid, target))), WorldStep(c, h.w, HBack(sid, target)));
    BackInStep(c, h, HBack(sid, target), h');
  }

  lemma {:induction false} LoadIsRemove(kv: K.Config, m: Meta, sid: int, n: int)
    requires kv.memory == CacheCells.MAX_INT32 && 0 <= n && |m.cells| <= MAX_INT
    ensures K.LoadMeta(kv, m, sid, n) == RemovedMeta(m, sid, n, CacheCells.MAX_INT32)
  {
  }

  /** Also in a fork whose target left checkpoints behind. */
  lemma {:induction false} ForkResumes(m: Model, w: World, ids: set<int>, src: int, dst: int, len: int, target: int)
    requires Coherent(m, w) && Within(w, ids) && src != dst && dst in ids && 0 <= len
    ensures CanResumeAt(Forked(w.st, src, dst), dst, target)
  {
    if !LeavesStale(w.st, dst) {
      ForkKeeps(m, w, src, dst, len);
      WithinAfterFork(w, ids, src, dst, len);
      CoherentResumes(m, WorldForked(w, src, dst, len), ids, dst, target);
    } else if Resume(Forked(w.st, src, dst), dst, target) >= 0 {
      TidiedKeeps(m, w, dst);
      ForkKeeps(m, Tidied(w, dst), src, dst, len);
      WithinAfterFork(Tidied(w, dst), ids, src, dst, len);
      CoherentResumes(m, WorldForked(Tidied(w, dst), src, dst, len), ids, dst, target);
      StaleTaken(m, w, src, dst, len, target);
      TidiedResumes(m, w, src, dst, target);
    }
  }

  lemma {:induction false} TidiedResumes(m: Model, w: World, src: int, dst: int, target: int)
    requires Coherent(m, w) && src != dst && LeavesStale(w.st, dst)
    requires Resume(Forked(w.st, src, dst), dst, target) >= 0
    requires CanResumeAt(Forked(Tidied(w, dst).st, src, dst), dst, target)
    requires var st, st0 := Forked(w.st, src, dst), Forked(Tidied(w, dst).st, src, dst);
             && Resume(st0, dst, target) == Resume(st, dst, target) && Detached(st0, dst) == Detached(st, dst)
             && Shared(st.slots, dst) && CanAlloc(st) && st0.slots == st.slots
    ensures CanResumeAt(Forked(w.st, src, dst), dst, target)
  {
    var st := Forked(w.st, src, dst);
    NewRingClean(w.st.count);
    ForkedFrom(w.st.slots, src, dst);
    ForkedTidied(w, src, dst);
    var r := st.rings[st.slots.slotOf[dst]];
    BestIsHighest(r.entries, target, |r.entries|);
    LiveCard(r.entries, |r.entries|);
  }

  /** Forking a prefix, then going back in the fork. */
  method ForkBack(rc: Recurrent, src: int, dst: int, len: int, target: int, ghost c: HConfig, ghost w: World)
    requires rc.Ok() && rc.PendingOk() && rc.kv.Valid() && rc.kv.cfg.maxBatch > 0 && rc.St() == w.st
    requires Coherent(c.model, w) && Within(w, c.ids) && src != dst && dst in c.ids && 0 <= len
    requires target <= CacheCells.MAX_INT32
    modifies rc, rc.refCount, rc.kv, rc.kv.cells
    ensures rc.Ok() && rc.PendingOk() && rc.kv.Valid() && InRange(Forked(w.st, src, dst).slots)
    ensures rc.St() == WorldBack(WorldForked(w, src, dst, len), dst, target).st
    ensures rc.kv.M() == RemovedMeta(CopiedMeta(old(rc.kv.M()), src, dst, len), dst,
                                     ResumeTo(Forked(w.st, src, dst), dst, target), CacheCells.MAX_INT32)
  {
    ForkedSlots(w.st.slots, src, dst);
    ForkResumes(c.model, w, c.ids, src, dst, len, target);
    rc.CopyPrefix(src, dst, len);
    GoBack(rc, dst, target, WorldForked(w, src, dst, len));
  }

  /** Forking a prefix and going back in the fork is the step HFork, whether it is safe or not; it
      keeps the joint invariant exactly when it is. */
  method Fork(rc: Recurrent, src: int, dst: int, len: int, target: int, ghost c: HConfig, ghost h: Hybrid)
    returns (ghost h': Hybrid)
    requires HInv(c, h) && In(rc, c, h) && SlotsOk(h.w.st.slots) && HAllowed(c, h, HFork(src, dst, len, target))
        && |h.m.cells| <= MAX_INT
    modifies rc, rc.refCount, rc.kv, rc.kv.cells
    ensures HStep(c, h, HFork(src, dst, len, target), h') && In(rc, c, h')
    ensures HInv(c, h') <==> ForkSafe(h.w.st, src, dst, target)
  {
    ghost var op := HFork(src, dst, len, target);
    assert SameTokens(h, src);
    ForkBack(rc, src, dst, len, target, c, h.w);
    LoadIsRemove(c.kv, CopiedMeta(h.m, src, dst, len), dst, ResumeTo(Forked(h.w.st, src, dst), dst, target));
    h' := Hybrid(rc.kv.M(), K.ViewStep(c.kv, h.v, KvOp(h, op)), WorldStep(c, h.w, op));
    ForkInStep(c, h, op, h');
  }

  /** What the joint invariant promises about the start of a permitted batch. */
  lemma {:induction false} StartReady(c: HConfig, h: Hybrid, batch: seq<Entry>, tokens: seq<Token>)
    requires HInv(c, h) && |h.m.cells| <= MAX_INT && |tokens| == |batch|
        && K.Allowed(c.kv, c.ids, h.v, K.Forward(batch))
    ensures |Free(SlidMeta(h.m, batch, c.kv.memory).cells)| >= |batch| && !OutOfSlots(h.w.st, SeqsOf(batch))
    ensures var seqs, toks := SeqsOf(batch), ToksOf(batch, tokens);
            && StartedState(c.due, h.w.st, seqs, LastOf(batch, seqs))
                == RecurrentRuns.Started(h.w, c.due, seqs, toks).st
            && StartedPlan(c.due, h.w.st, seqs, LastOf(batch, seqs)) == PassOf(h.w, c.due, seqs, toks).plan
            && !CannotDetach(RecurrentRuns.Started(h.w, c.due, seqs, toks).st, seqs)
    ensures AllDistinct(SeqsOf(batch)) && forall e :: e in batch ==> 0 <= e.pos < CacheCells.MAX_INT32
  {
    K.NeverFull(c.kv, c.ids, h.m, h.v, batch);
    BatchFits(c, h, batch, tokens);
    StartedWorld(c.model, h.w, c.ids, c.due, SeqsOf(batch), ToksOf(batch, tokens));
    PlannedPositions(c, h, batch, tokens);
    SeqsMeaning(batch, |batch|);
    K.BatchPositions(h.v, batch);
  }

  /** Starting a permitted, even batch never fails. */
  method StartBatch(rc: Recurrent, batch: seq<Entry>, tokens: seq<Token>, ghost c: HConfig, ghost h: Hybrid)
    returns (r: StartResult)
    requires HInv(c, h) && In(rc, c, h) && |h.m.cells| <= MAX_INT && |tokens| == |batch|
    requires EvenBatch(batch) && K.Allowed(c.kv, c.ids, h.v, K.Forward(batch))
    modifies rc, rc.refCount, rc.kv, rc.kv.cells
    ensures r == Started && rc.kv.Valid() && rc.PendingOk()
    ensures K.Step(c.kv, h.m, K.Forward(batch), rc.kv.M())
    ensures rc.curSeqs == SeqsOf(batch) && rc.Running(ToksOf(batch, tokens)) && !rc.writableEnsured
    ensures rc.St() == RecurrentRuns.Started(h.w, c.due, SeqsOf(batch), ToksOf(batch, tokens)).st
    ensures rc.plan == PassOf(h.w, c.due, SeqsOf(batch), ToksOf(batch, tokens)).plan
  {
    StartReady(c, h, batch, tokens);
    r := rc.StartForward(batch, false);
    K.OutcomeIsStep(c.kv, h.m, batch, true, rc.kv.M(), rc.kv.curLoc);
  }

  /** The layers of a started batch. */
  method Advance(rc: Recurrent, m: Model, order: seq<Buf>, toks: seq<seq<Token>>, ghost w: World) returns (ok: bool)
    requires rc.Running(toks) && !rc.writableEnsured && order != []
    requires rc.St() == RecurrentRuns.Started(w, rc.due, rc.curSeqs, toks).st
    requires rc.plan == PassOf(w, rc.due, rc.curSeqs, toks).plan && !CannotDetach(rc.St(), rc.curSeqs)
    modifies rc`slotForSeq, rc`freeSlots, rc`bufs, rc`checkpoints, rc`curSlots, rc`writableEnsured, rc`writableFailed,
        rc`claimed, rc.refCount
    ensures ok && rc.Ok() && rc.St() == AfterPass(m, w, rc.due, rc.curSeqs, toks, order).st
  {
    ghost var st := rc.St();
    CountDetached(st, rc.curSeqs, |rc.curSeqs|);
    ok := rc.RunLayers(m, order, toks);
    PassState(m, w, rc.due, rc.curSeqs, toks, order, rc.St(), rc.P());
  }

  /** Starting the batch and running the layers. */
  method RunBatch(rc: Recurrent, m: Model, batch: seq<Entry>, tokens: seq<Token>, order: seq<Buf>, ghost c: HConfig,
                  ghost h: Hybrid)
    returns (ok: bool)
    requires HInv(c, h) && In(rc, c, h) && |h.m.cells| <= MAX_INT && |tokens| == |batch| && order != []
    requires EvenBatch(batch) && K.Allowed(c.kv, c.ids, h.v, K.Forward(batch))
    modifies rc, rc.refCount, rc.kv, rc.kv.cells
    ensures ok && rc.Ok() && rc.PendingOk() && rc.kv.Valid() && K.Step(c.kv, h.m, K.Forward(batch), rc.kv.M())
    ensures rc.St() == AfterPass(m, h.w, c.due, SeqsOf(batch), ToksOf(batch, tokens), order).st
  {
    var toks := ToksOf(batch, tokens);
    StartReady(c, h, batch, tokens);
    var r := StartBatch(rc, batch, tokens, c, h);
    ok := Advance(rc, m, order, toks, h.w);
  }

  /** A forward pass of a model over an even batch is the step HPass; it never fails. */
  method Evaluate(rc: Recurrent, m: Model, batch: seq<Entry>, tokens: seq<Token>, order: seq<Buf>, ghost c: HConfig,
                  ghost h: Hybrid)
    returns (ok: bool, ghost h': Hybrid)
    requires HInv(c, h) && In(rc, c, h) && SlotsOk(h.w.st.slots) && HAllowed(c, h, HPass(batch, tokens, order))
        && |h.m.cells| <= MAX_INT
    requires m == c.model && order != []
    modifies rc, rc.refCount, rc.kv, rc.kv.cells
    ensures ok && HStep(c, h, HPass(batch, tokens, order), h') && HInv(c, h') && In(rc, c, h')
  {
    ok := RunBatch(rc, m, batch, tokens, order, c, h);
    h' := Hybrid(rc.kv.M(), K.ViewStep(c.kv, h.v, K.Forward(batch)), WorldStep(c, h.w, HPass(batch, tokens, order)));
    PassInStep(c, h, HPass(batch, tokens, order), h');
  }
}
