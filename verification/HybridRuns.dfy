/** Whole runs of the hybrid cache: both of its parts stay at the same tokens. */
module HybridRuns {
  import opened Wrappers
  import opened CacheCells
  import opened CausalView
  import K = CausalRuns
  import opened SlotTable
  import opened CheckpointRing
  import opened RecurrentState
  import opened RecurrentRuns

  // ---- a batch as the recurrent layers see it ----

  /** The sequences of the first `n` batch tokens, in the order of their first token. */
  function SeqsUpTo(batch: seq<Entry>, n: nat): seq<int>
    requires n <= |batch|
  {
    if n == 0 then []
    else
      var xs := SeqsUpTo(batch, n - 1);
      if batch[n - 1].sid in xs then xs else xs + [batch[n - 1].sid]
  }

  function SeqsOf(batch: seq<Entry>): seq<int> { SeqsUpTo(batch, |batch|) }

  function CountUpTo(batch: seq<Entry>, n: nat, sid: int): nat
    requires n <= |batch|
  {
    if n == 0 then 0 else CountUpTo(batch, n - 1, sid) + if batch[n - 1].sid == sid then 1 else 0
  }

  function ToksUpTo(batch: seq<Entry>, tokens: seq<Token>, n: nat, sid: int): (r: seq<Token>)
    requires n <= |batch| == |tokens|
    ensures |r| == CountUpTo(batch, n, sid)
  {
    if n == 0 then []
    else ToksUpTo(batch, tokens, n - 1, sid) + if batch[n - 1].sid == sid then [tokens[n - 1]] else []
  }

  function ToksOf(batch: seq<Entry>, tokens: seq<Token>): (r: seq<seq<Token>>)
    requires |batch| == |tokens|
    ensures |r| == |SeqsOf(batch)|
  {
    var xs := SeqsOf(batch);
    seq(|xs|, i requires 0 <= i < |xs| => ToksUpTo(batch, tokens, |batch|, xs[i]))
  }

  /** Recurrent layers need the same number of tokens for every sequence of a batch. */
  predicate EvenBatch(batch: seq<Entry>) {
    forall sid :: sid in SeqsOf(batch) ==>
      SeqsOf(batch) != [] && CountUpTo(batch, |batch|, sid) == |batch| / |SeqsOf(batch)|
  }

  lemma {:induction false} SeqsMeaning(batch: seq<Entry>, n: nat)
    requires n <= |batch|
    ensures AllDistinct(SeqsUpTo(batch, n)) && (n > 0 ==> SeqsUpTo(batch, n) != [])
    ensures forall sid :: sid in SeqsUpTo(batch, n) <==> CountUpTo(batch, n, sid) > 0
    ensures forall sid :: CountUpTo(batch, n, sid) > 0 ==> exists k :: 0 <= k < n && batch[k].sid == sid
  {
    if n > 0 {
      SeqsMeaning(batch, n - 1);
      forall sid | CountUpTo(batch, n, sid) > 0 ensures exists k :: 0 <= k < n && batch[k].sid == sid {
        if batch[n - 1].sid != sid { assert CountUpTo(batch, n - 1, sid) > 0; }
      }
    }
  }

  /** All tokens of one sequence: the fast path. */
  lemma {:induction false} OneSequence(batch: seq<Entry>, n: nat, sid: int)
    requires 0 < n <= |batch| && forall k :: 0 <= k < n ==> batch[k].sid == sid
    ensures SeqsUpTo(batch, n) == [sid] && CountUpTo(batch, n, sid) == n
  {
    if n > 1 { OneSequence(batch, n - 1, sid); }
  }

  /** The last position of a sequence among the first `n` batch tokens, -1 without any. */
  function LastUpTo(batch: seq<Entry>, n: nat, sid: int): int
    requires n <= |batch|
  {
    if n == 0 then -1
    else
      var last := LastUpTo(batch, n - 1, sid);
      if batch[n - 1].sid == sid && batch[n - 1].pos > last then batch[n - 1].pos else last
  }

  function LastOf(batch: seq<Entry>, seqs: seq<int>): (r: seq<int>)
    ensures |r| == |seqs|
  {
    seq(|seqs|, i requires 0 <= i < |seqs| => LastUpTo(batch, |batch|, seqs[i]))
  }

  // ---- the joint system ----

  lemma {:induction false} GrowCounts(v: View, batch: seq<Entry>, n: nat, sid: int)
    requires n <= |batch|
    ensures At(GrowView(v, batch, n), sid).hi == At(v, sid).hi + CountUpTo(batch, n, sid)
    ensures At(GrowView(v, batch, n), sid).lo == At(v, sid).lo
  {
    if n > 0 { GrowCounts(v, batch, n - 1, sid); }
  }

  // ---- the joint state ----

  /** The metadata of the causal cache, its plain view, and the recurrent state with its histories. */
  datatype Hybrid = Hybrid(m: Meta, v: View, w: World)

  datatype HConfig = HConfig(kv: K.Config, model: Model, ids: set<int>, due: Due)

  ghost predicate SameTokens(h: Hybrid, sid: int) {
    At(h.v, sid) == Span(0, |H(h.w, sid)|)
  }

  ghost predicate HInv(c: HConfig, h: Hybrid) {
    && c.kv.memory == CacheCells.MAX_INT32
    && K.Inv(c.kv, c.ids, h.m, h.v) && Coherent(c.model, h.w) && Within(h.w, c.ids)
    && forall sid :: Synced(h.w, sid) && SameTokens(h, sid)
  }

  /** What the runner does: evaluate a batch, go back to a prefix of a sequence, or fork a prefix
      into another sequence and go back there. */
  datatype HOp =
    | HPass(batch: seq<Entry>, tokens: seq<Token>, order: seq<Buf>)
    | HBack(sid: int, target: int)
    | HFork(src: int, dst: int, len: int, target: int)

  /** The causal cache is truncated to where the recurrent state can go back to. */
  ghost function KvOp(h: Hybrid, op: HOp): K.Op
    requires InRange(h.w.st.slots)
  {
    match op
    case HPass(batch, _, _) => K.Forward(batch)
    case HBack(sid, target) => K.Load(sid, ResumeTo(h.w.st, sid, target))
    case HFork(src, dst, len, target) => K.Fork(src, dst, len, ResumeTo(Forked(h.w.st, src, dst), dst, target))
  }

  ghost function WorldStep(c: HConfig, w: World, op: HOp): World
    requires SlotsOk(w.st.slots) && (op.HFork? ==> op.src != op.dst) && (op.HPass? ==> |op.tokens| == |op.batch|)
  {
    match op
    case HPass(batch, tokens, order) => AfterPass(c.model, w, c.due, SeqsOf(batch), ToksOf(batch, tokens), order)
    case HBack(sid, target) => WorldBack(w, sid, target)
    case HFork(src, dst, len, target) =>
      ForkedSlots(w.st.slots, src, dst);
      WorldBack(WorldForked(w, src, dst, len), dst, target)
  }

  ghost predicate HAllowed(c: HConfig, h: Hybrid, op: HOp)
    requires InRange(h.w.st.slots)
  {
    && K.Allowed(c.kv, c.ids, h.v, KvOp(h, op))
    && match op
       case HPass(batch, tokens, order) => |tokens| == |batch| && EvenBatch(batch) && OnceEach(order, c.model.bufs)
       case HBack(sid, target) => target <= |H(h.w, sid)|
       case HFork(src, dst, len, target) => target <= Min(len, |H(h.w, src)|)
  }

  ghost predicate HStep(c: HConfig, h: Hybrid, op: HOp, h': Hybrid)
    requires SlotsOk(h.w.st.slots) && HAllowed(c, h, op) && |h.m.cells| <= MAX_INT
  {
    && K.Step(c.kv, h.m, KvOp(h, op), h'.m)
    && h'.v == K.ViewStep(c.kv, h.v, KvOp(h, op))
    && h'.w == WorldStep(c, h.w, op)
  }

  /** A permitted operation on a state that satisfies the invariant, and the state after it. */
  ghost predicate StepsTo(c: HConfig, h: Hybrid, op: HOp, h': Hybrid) {
    HInv(c, h) && |h.m.cells| <= MAX_INT && HAllowed(c, h, op) && HStep(c, h, op, h')
  }

  // ---- each operation keeps the two in step ----

  lemma {:induction false} BatchFits(c: HConfig, h: Hybrid, batch: seq<Entry>, tokens: seq<Token>)
    requires HInv(c, h) && |h.m.cells| <= MAX_INT && |tokens| == |batch|
        && K.Allowed(c.kv, c.ids, h.v, K.Forward(batch))
    ensures BatchOk(h.w, c.ids, SeqsOf(batch), ToksOf(batch, tokens))
  {
    SeqsMeaning(batch, |batch|);
    var xs := SeqsOf(batch);
    forall i | 0 <= i < |xs|
      ensures xs[i] in c.ids && CountUpTo(batch, |batch|, xs[i]) > 0
      ensures |H(h.w, xs[i])| + CountUpTo(batch, |batch|, xs[i]) <= CheckpointRing.MAX_INT32
    {
      assert xs[i] in xs;
      var k :| 0 <= k < |batch| && batch[k].sid == xs[i];
      assert batch[k] in batch;
      assert SameTokens(h, xs[i]);
      GrowCounts(h.v, batch, |batch|, xs[i]);
      GrowFacts(h.v, batch, |batch|, xs[i]);
      assert batch[..|batch|] == batch;
      assert Entry(xs[i], At(GrowView(h.v, batch, |batch|), xs[i]).hi - 1) in batch;
    }
  }

  lemma {:induction false} PassTokens(c: HConfig, h: Hybrid, op: HOp, w': World, sid: int)
    requires op.HPass? && |op.tokens| == |op.batch| && SameTokens(h, sid) && Synced(h.w, sid)
    requires Passed(h.w, w', SeqsOf(op.batch), ToksOf(op.batch, op.tokens))
    ensures Synced(w', sid) && At(GrowView(h.v, op.batch, |op.batch|), sid) == Span(0, |H(w', sid)|)
  {
    var xs, toks := SeqsOf(op.batch), ToksOf(op.batch, op.tokens);
    SeqsMeaning(op.batch, |op.batch|);
    GrowCounts(h.v, op.batch, |op.batch|, sid);
    if sid in xs {
      var i :| 0 <= i < |xs| && xs[i] == sid;
      assert H(w', xs[i]) == H(h.w, xs[i]) + toks[i];
    }
  }

  lemma {:induction false} PassInStep(c: HConfig, h: Hybrid, op: HOp, h': Hybrid)
    requires StepsTo(c, h, op, h') && op.HPass?
    ensures HInv(c, h')
  {
    var xs, toks := SeqsOf(op.batch), ToksOf(op.batch, op.tokens);
    BatchFits(c, h, op.batch, op.tokens);
    K.StepKeepsInv(c.kv, c.ids, h.m, h.v, KvOp(h, op), h'.m);
    PassKeeps(c.model, h.w, c.ids, c.due, xs, toks, op.order);
    forall sid ensures Synced(h'.w, sid) && SameTokens(h', sid) {
      PassTokens(c, h, op, h'.w, sid);
    }
  }

  lemma {:induction false} CutSpan(kv: K.Config, v: View, sid: int, n: int)
    requires kv.memory == CacheCells.MAX_INT32 && At(v, sid).lo == 0 && 0 <= n <= At(v, sid).hi <= CacheCells.MAX_INT32
    ensures At(K.LoadView(kv, v, sid, n), sid) == Span(0, n)
    ensures forall t :: t != sid ==> At(K.LoadView(kv, v, sid, n), t) == At(v, t)
  {
  }

  lemma {:induction false} BackInStep(c: HConfig, h: Hybrid, op: HOp, h': Hybrid)
    requires StepsTo(c, h, op, h') && op.HBack?
    ensures HInv(c, h')
  {
    var n := ResumeTo(h.w.st, op.sid, op.target);
    K.StepKeepsInv(c.kv, c.ids, h.m, h.v, KvOp(h, op), h'.m);
    BackKeeps(c.model, h.w, c.ids, op.sid, op.target);
    assert SameTokens(h, op.sid) && n <= |H(h.w, op.sid)|;
    assert op.sid in h.v ==> K.ReadyFor(c.kv, h.v[op.sid]);
    CutSpan(c.kv, h.v, op.sid, n);
    WithinAfterBack(h.w, c.ids, op.sid, op.target);
    forall sid ensures Synced(h'.w, sid) && SameTokens(h', sid) {
      assert Synced(h.w, sid) && SameTokens(h, sid);
    }
  }

  lemma {:induction false} WithinAfterFork(w: World, ids: set<int>, src: int, dst: int, len: int)
    requires SlotsOk(w.st.slots) && Within(w, ids) && src != dst && dst in ids && 0 <= len
    ensures Within(WorldForked(w, src, dst, len), ids)
    ensures forall t :: t != dst ==> H(WorldForked(w, src, dst, len), t) == H(w, t)
    ensures forall t :: t != dst && Synced(w, t) ==> Synced(WorldForked(w, src, dst, len), t)
    ensures H(WorldForked(w, src, dst, len), dst) == Prefix(H(w, src), len)
  {
    ForkedSlots(w.st.slots, src, dst);
  }

  lemma {:induction false} ForkSpans(c: HConfig, h: Hybrid, op: HOp, n: int)
    requires HInv(c, h) && op.HFork? && 0 <= op.len && 0 <= n <= |Prefix(H(h.w, op.src), op.len)|
    ensures var v' := K.LoadView(c.kv, h.v[op.dst := Cut(At(h.v, op.src), op.len)], op.dst, n);
            && At(v', op.dst) == Span(0, n) && forall t :: t != op.dst ==> At(v', t) == At(h.v, t)
  {
    assert SameTokens(h, op.src);
    assert op.src in h.v ==> K.ReadyFor(c.kv, h.v[op.src]);
    CutSpan(c.kv, h.v[op.dst := Cut(At(h.v, op.src), op.len)], op.dst, n);
  }

  /** Forking the recurrent state and rolling the fork back. */
  lemma {:induction false} ForkWorld(c: HConfig, w: World, ids: set<int>, op: HOp)
    requires Coherent(c.model, w) && Within(w, ids) && op.HFork? && op.src != op.dst && op.dst in ids && 0 <= op.len
    requires op.target <= Min(op.len, |H(w, op.src)|) && !LeavesStale(w.st, op.dst) && forall t :: Synced(w, t)
    ensures var f := WorldForked(w, op.src, op.dst, op.len);
            var n := ResumeTo(f.st, op.dst, op.target);
            var w' := WorldBack(f, op.dst, op.target);
            && Coherent(c.model, w') && Within(w', ids) && (forall t :: Synced(w', t))
            && 0 <= n <= |Prefix(H(w, op.src), op.len)|
            && |H(w', op.dst)| == n && forall t :: t != op.dst ==> H(w', t) == H(w, t)
  {
    var f := WorldForked(w, op.src, op.dst, op.len);
    ForkKeeps(c.model, w, op.src, op.dst, op.len);
    WithinAfterFork(w, ids, op.src, op.dst, op.len);
    BackKeeps(c.model, f, ids, op.dst, op.target);
    WithinAfterBack(f, ids, op.dst, op.target);
    forall t ensures Synced(WorldBack(f, op.dst, op.target), t) {
      assert Synced(w, t);
    }
  }

  /** The target's own slot is left with checkpoints, but going back in the fork takes it again. */
  lemma {:induction false} TakenWorld(c: HConfig, w: World, op: HOp)
    requires Coherent(c.model, w) && op.HFork? && op.src != op.dst && 0 <= op.len
    requires LeavesStale(w.st, op.dst) && ForkSafe(w.st, op.src, op.dst, op.target)
    ensures var w0 := Tidied(w, op.dst);
            var f, f0 := WorldForked(w, op.src, op.dst, op.len), WorldForked(w0, op.src, op.dst, op.len);
            && WorldBack(f, op.dst, op.target) == WorldBack(f0, op.dst, op.target)
            && ResumeTo(f.st, op.dst, op.target) == ResumeTo(f0.st, op.dst, op.target)
  {
    StaleTaken(c.model, w, op.src, op.dst, op.len, op.target);
    ForkedSlots(w.st.slots, op.src, op.dst);
    SameBack(WorldForked(w, op.src, op.dst, op.len), WorldForked(Tidied(w, op.dst), op.src, op.dst, op.len), op.dst,
             op.target);
  }

  lemma {:induction false} TidiedSame(w: World, ids: set<int>, dst: int)
    requires Within(w, ids) && forall t :: Synced(w, t)
    ensures Within(Tidied(w, dst), ids) && forall t :: Synced(Tidied(w, dst), t)
  {
    forall t ensures Synced(Tidied(w, dst), t) {
      assert Synced(w, t);
    }
  }

  /** A safe fork keeps the recurrent side in order. */
  lemma {:induction false} SafeForkWorld(c: HConfig, w: World, ids: set<int>, op: HOp)
    requires Coherent(c.model, w) && Within(w, ids) && op.HFork? && op.src != op.dst && op.dst in ids && 0 <= op.len
    requires op.target <= Min(op.len, |H(w, op.src)|) && ForkSafe(w.st, op.src, op.dst, op.target)
        && forall t :: Synced(w, t)
    ensures var f := WorldForked(w, op.src, op.dst, op.len);
            var n := ResumeTo(f.st, op.dst, op.target);
            var w' := WorldBack(f, op.dst, op.target);
            && Coherent(c.model, w') && Within(w', ids) && (forall t :: Synced(w', t))
            && 0 <= n <= |Prefix(H(w, op.src), op.len)|
            && |H(w', op.dst)| == n && forall t :: t != op.dst ==> H(w', t) == H(w, t)
  {
    if LeavesStale(w.st, op.dst) {
      var w0 := Tidied(w, op.dst);
      TakenWorld(c, w, op);
      TidiedKeeps(c.model, w, op.dst);
      TidiedSame(w, ids, op.dst);
      ForkWorld(c, w0, ids, op);
    } else {
      ForkWorld(c, w, ids, op);
    }
  }

  /** A fork keeps the joint invariant exactly when it is safe. */
  lemma {:induction false} ForkInStep(c: HConfig, h: Hybrid, op: HOp, h': Hybrid)
    requires StepsTo(c, h, op, h') && op.HFork?
    ensures HInv(c, h') <==> ForkSafe(h.w.st, op.src, op.dst, op.target)
    ensures K.Inv(c.kv, c.ids, h'.m, h'.v)
  {
    K.StepKeepsInv(c.kv, c.ids, h.m, h.v, KvOp(h, op), h'.m);
    if ForkSafe(h.w.st, op.src, op.dst, op.target) {
      SafeForkInStep(c, h, op, h');
    } else {
      UnsafeFork(c.model, h.w, op.src, op.dst, op.len, op.target);
    }
  }

  lemma {:induction false} SafeForkInStep(c: HConfig, h: Hybrid, op: HOp, h': Hybrid)
    requires StepsTo(c, h, op, h') && op.HFork?
    requires ForkSafe(h.w.st, op.src, op.dst, op.target) && K.Inv(c.kv, c.ids, h'.m, h'.v)
    ensures HInv(c, h')
  {
    SafeForkWorld(c, h.w, c.ids, op);
    ForkSpans(c, h, op, ResumeTo(Forked(h.w.st, op.src, op.dst), op.dst, op.target));
    forall sid ensures SameTokens(h', sid) {
      assert SameTokens(h, sid);
    }
  }

  // ---- every run ----

  function EmptyWorld(slots: nat, count: nat): World {
    World(RState(Initial(slots), map[], map[], count), map[], map[])
  }

  ghost predicate HRun(c: HConfig, hs: seq<Hybrid>, ops: seq<HOp>, slots: nat, count: nat) {
    && c.kv.memory == CacheCells.MAX_INT32 && K.ValidConfig(c.kv) && c.kv.size <= MAX_INT
    && |c.ids| <= c.kv.maxSequences == slots
    && |hs| == |ops| + 1 && hs[0] == Hybrid(K.EmptyMeta(c.kv.size), map[], EmptyWorld(slots, count))
    && forall k :: 0 <= k < |ops| ==> HRunStep(c, hs, ops, k)
  }

  ghost predicate HRunStep(c: HConfig, hs: seq<Hybrid>, ops: seq<HOp>, k: nat)
    requires k < |ops| && |hs| == |ops| + 1
  {
    && SlotsOk(hs[k].w.st.slots) && |hs[k].m.cells| <= MAX_INT
    && HAllowed(c, hs[k], ops[k]) && HStep(c, hs[k], ops[k], hs[k + 1])
  }

  lemma {:induction false} StartsEmpty(c: HConfig, h: Hybrid, slots: nat, count: nat)
    requires c.kv.memory == CacheCells.MAX_INT32 && K.ValidConfig(c.kv) && c.kv.size <= MAX_INT
    requires |c.ids| <= c.kv.maxSequences == slots
    requires h == Hybrid(K.EmptyMeta(c.kv.size), map[], EmptyWorld(slots, count))
    ensures HInv(c, h)
  {
    InitialOk(slots);
    NewRingClean(count);
    assert K.Inv(c.kv, c.ids, h.m, h.v) by {
      K.EveryReachableState(c.kv, c.ids, [h.m], [], 0);
    }
  }

  /** Every operation but an unsafe fork keeps the joint invariant. */
  lemma {:induction false} HStepKeeps(c: HConfig, h: Hybrid, op: HOp, h': Hybrid)
    requires StepsTo(c, h, op, h') && SafeStep(h, op)
    ensures HInv(c, h')
  {
    match op
    case HPass(_, _, _) => PassInStep(c, h, op, h');
    case HBack(_, _) => BackInStep(c, h, op, h');
    case HFork(_, _, _, _) => ForkInStep(c, h, op, h');
  }

  ghost predicate SafeStep(h: Hybrid, op: HOp)
    requires InRange(h.w.st.slots)
  {
    op.HFork? ==> ForkSafe(h.w.st, op.src, op.dst, op.target)
  }

  ghost predicate SafeAt(hs: seq<Hybrid>, ops: seq<HOp>, j: nat)
    requires j < |ops| && |hs| == |ops| + 1
  {
    InRange(hs[j].w.st.slots) && SafeStep(hs[j], ops[j])
  }

  /** No fork among the first `k` operations was unsafe. */
  ghost predicate SafeSoFar(hs: seq<Hybrid>, ops: seq<HOp>, k: nat)
    requires k <= |ops| && |hs| == |ops| + 1
  {
    forall j :: 0 <= j < k ==> SafeAt(hs, ops, j)
  }

  /** In every run the invariant holds at every point up to the first unsafe fork. */
  lemma {:induction false} EveryHybridState(c: HConfig, hs: seq<Hybrid>, ops: seq<HOp>, slots: nat, count: nat, k: nat)
    requires HRun(c, hs, ops, slots, count) && k <= |ops| && SafeSoFar(hs, ops, k)
    ensures HInv(c, hs[k])
  {
    if k == 0 {
      StartsEmpty(c, hs[0], slots, count);
    } else {
      EveryHybridState(c, hs, ops, slots, count, k - 1);
      assert HRunStep(c, hs, ops, k - 1) && SafeAt(hs, ops, k - 1);
      RunStepKeeps(c, hs, ops, k - 1);
    }
  }

  lemma {:induction false} RunStepKeeps(c: HConfig, hs: seq<Hybrid>, ops: seq<HOp>, k: nat)
    requires k < |ops| && |hs| == |ops| + 1 && HInv(c, hs[k]) && HRunStep(c, hs, ops, k) && SafeAt(hs, ops, k)
    ensures HInv(c, hs[k + 1])
  {
    HStepKeeps(c, hs[k], ops[k], hs[k + 1]);
  }

  /** What the two caches agree on: the causal cache stores exactly the positions of the sequence's
      tokens, the recurrent rows of the sequence are the fold of these tokens, and a live checkpoint
      at position p holds the fold of the first p + 1 of them. */
  ghost predicate Agree(c: HConfig, h: Hybrid, sid: int) {
    var t := H(h.w, sid);
    && (forall p :: Has(h.m.cells, sid, p) <==> 0 <= p < |t|)
    && (t != [] ==> sid in h.w.st.slots.slotOf)
    && (sid in h.w.st.slots.slotOf ==>
          && RowsMatch(c.model, h.w.st.bufs, h.w.st.slots.slotOf[sid], t)
          && RingMatches(c.model, RingOf(h.w.st, h.w.st.slots.slotOf[sid]), t))
  }

  /** Main theorem. At every point of every run up to the first unsafe fork there is, for each
      sequence, one token history on which the two caches agree. */
  lemma {:induction false} CachesAgree(c: HConfig, hs: seq<Hybrid>, ops: seq<HOp>, slots: nat, count: nat, k: nat,
                                       sid: int)
    requires HRun(c, hs, ops, slots, count) && k <= |ops|
    ensures SafeSoFar(hs, ops, k) ==> Agree(c, hs[k], sid)
  {
    if SafeSoFar(hs, ops, k) {
      EveryHybridState(c, hs, ops, slots, count, k);
      AgreeInside(c, hs[k], sid);
    }
  }

  lemma {:induction false} AgreeInside(c: HConfig, h: Hybrid, sid: int)
    requires HInv(c, h)
    ensures Agree(c, h, sid)
  {
    assert Synced(h.w, sid) && SameTokens(h, sid);
    if sid in h.w.st.slots.slotOf {
      UsedSlot(h.w.st.slots, sid);
      assert SlotCoherent(c.model, h.w, h.w.st.slots.slotOf[sid]);
    }
  }

  /** A permitted operation always has a next state. */
  lemma {:induction false} HStepExists(c: HConfig, h: Hybrid, op: HOp) returns (h': Hybrid)
    requires K.Inv(c.kv, c.ids, h.m, h.v) && SlotsOk(h.w.st.slots) && |h.m.cells| <= MAX_INT && HAllowed(c, h, op)
    ensures HStep(c, h, op, h') && K.Inv(c.kv, c.ids, h'.m, h'.v) && |h'.m.cells| == |h.m.cells|
  {
    var m' := K.StepExists(c.kv, c.ids, h.m, h.v, KvOp(h, op));
    h' := Hybrid(m', K.ViewStep(c.kv, h.v, KvOp(h, op)), WorldStep(c, h.w, op));
    K.StepKeepsInv(c.kv, c.ids, h.m, h.v, KvOp(h, op), m');
  }
}
