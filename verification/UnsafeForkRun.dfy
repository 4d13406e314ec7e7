/** A concrete run of the hybrid cache in which an unsafe fork does harm. A short prompt and a long one
    are evaluated, the short one is forked onto the long one, a new prompt is evaluated in the fork, and
    going back in it finds the checkpoint of the long prompt, which stayed behind in the slot. */
module UnsafeForkRun {
  import opened CacheCells
  import opened CausalView
  import K = CausalRuns
  import opened SlotTable
  import opened CheckpointRing
  import opened RecurrentState
  import opened RecurrentRuns
  import opened HybridRuns

  /** The first `n` positions of a sequence as a batch, all with the same token. */
  function Prompt(sid: int, n: nat): (batch: seq<Entry>)
    ensures |batch| == n
  {
    seq(n, i => Entry(sid, i))
  }

  function Same(n: nat, v: Token): (h: seq<Token>)
    ensures |h| == n
  {
    seq(n, _ => v)
  }

  lemma {:induction false} PromptTokens(sid: int, n: nat, v: Token, k: nat)
    requires k <= n
    ensures ToksUpTo(Prompt(sid, n), Same(n, v), k, sid) == Same(k, v)
  {
    if k > 0 { PromptTokens(sid, n, v, k - 1); }
  }

  lemma {:induction false} PromptBatch(sid: int, n: nat, v: Token)
    requires n > 0
    ensures SeqsOf(Prompt(sid, n)) == [sid] && EvenBatch(Prompt(sid, n))
        && ToksOf(Prompt(sid, n), Same(n, v)) == [Same(n, v)]
  {
    OneSequence(Prompt(sid, n), n, sid);
    PromptTokens(sid, n, v, n);
  }

  lemma {:induction false} PromptContinues(v: View, sid: int, n: nat)
    requires At(v, sid) == Span(0, 0)
    ensures Continues(v, Prompt(sid, n)) && At(GrowView(v, Prompt(sid, n), n), sid) == Span(0, n)
  {
    forall k | 0 <= k <= n ensures At(GrowView(v, Prompt(sid, n), k), sid) == Span(0, k) {
      GrowCounts(v, Prompt(sid, n), k, sid);
      PromptCount(sid, n, k);
    }
  }

  lemma {:induction false} PromptCount(sid: int, n: nat, k: nat)
    requires k <= n
    ensures CountUpTo(Prompt(sid, n), k, sid) == k
  {
    if k > 0 { PromptCount(sid, n, k - 1); }
  }

  /** Rows are sums of tokens, and checkpoints are due from position 16 on, 1280 positions apart. */
  const ADDER := Model({Rec(0)}, (b: Buf, row: Row, tok: Token) => row + tok)

  const SMALL := HConfig(K.Config(CacheCells.MAX_INT32, CacheCells.MAX_INT32, 0, 1, 2, 64, 64, 128), ADDER, {0, 1},
                         Due(16, 1280))

  lemma {:induction false} Sums(n: nat, v: Token)
    requires v == 0 || v == 1
    ensures Fold(ADDER, Rec(0), Same(n, v)) == if v == 0 then 0 else n
  {
    if n > 0 {
      Sums(n - 1, v);
      assert Same(n, v)[..n - 1] == Same(n - 1, v);
    }
  }

  function PromptOp(sid: int, n: nat, v: Token): HOp { HPass(Prompt(sid, n), Same(n, v), [Rec(0)]) }

  /** A sequence that holds nothing takes its first tokens. */
  lemma {:induction false} FirstTokens(h: Hybrid, sid: int, n: nat, v: Token) returns (h': Hybrid)
    requires K.Inv(SMALL.kv, SMALL.ids, h.m, h.v) && SlotsOk(h.w.st.slots)
    requires sid in SMALL.ids && 0 < n <= 64 && At(h.v, sid) == Span(0, 0)
    ensures HAllowed(SMALL, h, PromptOp(sid, n, v)) && HStep(SMALL, h, PromptOp(sid, n, v), h')
    ensures K.Inv(SMALL.kv, SMALL.ids, h'.m, h'.v) && At(h'.v, sid) == Span(0, n)
    ensures h'.w == AfterPass(ADDER, h.w, SMALL.due, [sid], [Same(n, v)], [Rec(0)])
  {
    PromptBatch(sid, n, v);
    PromptContinues(h.v, sid, n);
    h' := HStepExists(SMALL, h, PromptOp(sid, n, v));
  }

  lemma {:induction false} OnlyBuffer()
    ensures OnceEach([Rec(0)], ADDER.bufs)
  {
    assert forall b :: b in Done([Rec(0)]) <==> b == Rec(0);
  }

  lemma {:induction false} FirstPlan(w: World, sid: int)
    requires sid !in w.st.slots.slotOf && CanAlloc(w.st) && w.st.rings == map[] && w.st.count > 0 && H(w, sid) == []
    ensures PassOf(w, SMALL.due, [sid], [Same(17, 1)]).plan == [16]
  {
    var w1 := WorldAssigned(w, sid);
    assert WorldAssignUpTo(w, [sid], 1) == w1 by { assert WorldAssignUpTo(w, [sid], 0) == w; }
    assert CurSlots(w1.st, [sid]) == [Top(w.st.slots)];
  }

  /** A new sequence with 17 tokens leaves a checkpoint. */
  lemma {:induction false} LongPrompt(h: Hybrid, w': World, sid: int)
    requires HInv(SMALL, h) && sid in SMALL.ids && sid !in h.w.st.slots.slotOf && CanAlloc(h.w.st)
    requires h.w.st.rings == map[] && h.w.st.count > 0
        && w' == AfterPass(ADDER, h.w, SMALL.due, [sid], [Same(17, 1)], [Rec(0)])
    ensures sid in w'.st.slots.slotOf && LeavesStale(w'.st, sid)
    ensures var r := RingOf(w'.st, w'.st.slots.slotOf[sid]);
            r.lastPos == 16 && exists i :: 0 <= i < |r.entries| && r.entries[i].pos == 16
  {
    OnlyBuffer();
    assert Synced(h.w, sid);
    FirstPlan(h.w, sid);
    CheckpointLeft(ADDER, h.w, SMALL.ids, SMALL.due, sid, Same(17, 1), [Rec(0)]);
  }

  /** Wherever this step stands in a run, it is one of the run. */
  ghost predicate Takes(c: HConfig, h: Hybrid, op: HOp, h': Hybrid) {
    forall hs, ops, k: nat :: k < |ops| && |hs| == |ops| + 1 && hs[k] == h && ops[k] == op && hs[k + 1] == h' ==>
      HRunStep(c, hs, ops, k)
  }

  lemma {:induction false} StepTaken(c: HConfig, h: Hybrid, op: HOp, h': Hybrid)
    requires SlotsOk(h.w.st.slots) && |h.m.cells| <= MAX_INT && HAllowed(c, h, op) && HStep(c, h, op, h')
    ensures Takes(c, h, op, h')
  {
  }

  /** A short prompt of sequence 1 left no checkpoint, and sequence 0 has not begun. */
  ghost predicate ShortDone(h: Hybrid) {
    HInv(SMALL, h) && 0 !in h.w.st.slots.slotOf && CanAlloc(h.w.st) && h.w.st.rings == map[] && h.w.st.count == 32
  }

  /** Sequence 0 holds a long prompt and has a slot of its own with the checkpoint at 16. */
  ghost predicate LongDone(w: World) {
    && Coherent(ADDER, w) && Synced(w, 0)
    && H(w, 0) == Same(17, 1) && 0 in w.st.slots.slotOf && LeavesStale(w.st, 0)
    && RingOf(w.st, w.st.slots.slotOf[0]).lastPos == 16 && HasBelow(RingOf(w.st, w.st.slots.slotOf[0]), 17)
  }

  /** Sequence 0 holds nothing, and its checkpoint is on offer to the next new sequence. */
  ghost predicate ForkDone(w: World) {
    && 0 !in w.st.slots.slotOf && H(w, 0) == [] && CanAlloc(w.st)
    && var y := Top(w.st.slots);
       OnOffer(ADDER, w, y, Same(17, 1)) && w.st.rings[y].lastPos == 16 && HasBelow(w.st.rings[y], 17)
  }

  /** Sequence 0 holds a new prompt, and going back in it would bring the wrong rows. */
  ghost predicate PromptDone(w: World) {
    && SlotsOk(w.st.slots) && H(w, 0) == Same(18, 0)
    && var w5 := WorldBack(w, 0, 17);
       0 in w5.st.slots.slotOf && !RowsMatch(ADDER, w5.st.bufs, w5.st.slots.slotOf[0], H(w5, 0))
  }

  /** The causal cache is in order and stores `n` positions of sequence 0. */
  ghost predicate KvHas(h: Hybrid, n: int) {
    K.Inv(SMALL.kv, SMALL.ids, h.m, h.v) && |h.m.cells| <= MAX_INT && At(h.v, 0) == Span(0, n)
  }

  /** A short prompt of sequence 1, in an empty cache. */
  lemma {:induction false} ShortFirst() returns (h0: Hybrid, h1: Hybrid)
    ensures h0 == Hybrid(K.EmptyMeta(128), map[], EmptyWorld(2, 32))
    ensures Takes(SMALL, h0, PromptOp(1, 5, 0), h1) && ShortDone(h1)
  {
    h0 := Hybrid(K.EmptyMeta(128), map[], EmptyWorld(2, 32));
    StartsEmpty(SMALL, h0, 2, 32);
    OnlyBuffer();
    h1 := FirstTokens(h0, 1, 5, 0);
    HStepKeeps(SMALL, h0, PromptOp(1, 5, 0), h1);
    ShortPrompt(h1.w);
    StepTaken(SMALL, h0, PromptOp(1, 5, 0), h1);
  }

  lemma {:induction false} ShortPrompt(w: World)
    requires w == AfterPass(ADDER, EmptyWorld(2, 32), SMALL.due, [1], [Same(5, 0)], [Rec(0)])
    ensures 0 !in w.st.slots.slotOf && CanAlloc(w.st) && w.st.rings == map[] && w.st.count == 32
  {
    InitialOk(2);
    QuietPass(ADDER, SMALL.due, EmptyWorld(2, 32), 0, 1, Same(5, 0), [Rec(0)]);
  }

  /** A long prompt of sequence 0, which leaves a checkpoint. */
  lemma {:induction false} LongSecond(h1: Hybrid) returns (h2: Hybrid)
    requires ShortDone(h1)
    ensures Takes(SMALL, h1, PromptOp(0, 17, 1), h2) && HInv(SMALL, h2) && LongDone(h2.w)
  {
    OnlyBuffer();
    assert SameTokens(h1, 0);
    h2 := FirstTokens(h1, 0, 17, 1);
    HStepKeeps(SMALL, h1, PromptOp(0, 17, 1), h2);
    LongPrompt(h1, h2.w, 0);
    QuietHistory(h1.w, h2.w);
    StepTaken(SMALL, h1, PromptOp(0, 17, 1), h2);
  }

  lemma {:induction false} QuietHistory(w: World, w': World)
    requires Coherent(ADDER, w) && Within(w, {0, 1}) && 0 !in w.st.slots.slotOf && Synced(w, 0)
    requires w' == AfterPass(ADDER, w, SMALL.due, [0], [Same(17, 1)], [Rec(0)])
    ensures H(w', 0) == Same(17, 1)
  {
    OnlyBuffer();
    PassKeeps(ADDER, w, {0, 1}, SMALL.due, [0], [Same(17, 1)], [Rec(0)]);
    assert [] + Same(17, 1) == Same(17, 1);
  }

  /** The fork of the short prompt onto the long one, not to reuse anything. */
  lemma {:induction false} ForkThird(h2: Hybrid) returns (h3: Hybrid)
    requires HInv(SMALL, h2) && LongDone(h2.w)
    ensures Takes(SMALL, h2, HFork(1, 0, 3, 0), h3)
    ensures InRange(h2.w.st.slots) && !SafeStep(h2, HFork(1, 0, 3, 0)) && KvHas(h3, 0) && ForkDone(h3.w)
  {
    h3 := HStepExists(SMALL, h2, HFork(1, 0, 3, 0));
    ForkSpans(SMALL, h2, HFork(1, 0, 3, 0), 0);
    ForkedWorld(h2.w);
    StepTaken(SMALL, h2, HFork(1, 0, 3, 0), h3);
  }

  lemma {:induction false} ForkedWorld(w: World)
    requires LongDone(w)
    ensures !ForkSafe(w.st, 1, 0, 0) && ForkDone(WorldBack(WorldForked(w, 1, 0, 3), 0, 0))
  {
    UnsafeFork(ADDER, w, 1, 0, 3, 0);
  }

  /** A new prompt of sequence 0, and going back in it, as far as the recurrent state is concerned. */
  lemma {:induction false} WrongRows(w: World)
    requires ForkDone(w)
    ensures PromptDone(AfterPass(ADDER, w, SMALL.due, [0], [Same(18, 0)], [Rec(0)]))
  {
    StaleRestored(ADDER, SMALL.due, w, Top(w.st.slots), Same(17, 1), 0, Same(18, 0), [Rec(0)], 17);
    FoldsDiffer(ResumeTo(AfterPass(ADDER, w, SMALL.due, [0], [Same(18, 0)], [Rec(0)]).st, 0, 17));
  }

  lemma {:induction false} FoldsDiffer(n: nat)
    requires 0 < n <= 17
    ensures !forall b :: b in ADDER.bufs ==> Fold(ADDER, b, Same(17, 1)[..n]) == Fold(ADDER, b, Same(18, 0)[..n])
  {
    assert Same(17, 1)[..n] == Same(n, 1) && Same(18, 0)[..n] == Same(n, 0);
    Sums(n, 0);
    Sums(n, 1);
    assert Rec(0) in ADDER.bufs;
  }

  lemma {:induction false} NewPrompt(h3: Hybrid) returns (h4: Hybrid)
    requires KvHas(h3, 0) && ForkDone(h3.w)
    ensures Takes(SMALL, h3, PromptOp(0, 18, 0), h4) && KvHas(h4, 18) && PromptDone(h4.w)
  {
    h4 := FirstTokens(h3, 0, 18, 0);
    WrongRows(h3.w);
    StepTaken(SMALL, h3, PromptOp(0, 18, 0), h4);
  }

  lemma {:induction false} WrongBack(h4: Hybrid) returns (h5: Hybrid)
    requires KvHas(h4, 18) && PromptDone(h4.w) && 0 <= ResumeTo(h4.w.st, 0, 17) <= CacheCells.MAX_INT32
    ensures Takes(SMALL, h4, HBack(0, 17), h5) && !Agree(SMALL, h5, 0)
  {
    h5 := HStepExists(SMALL, h4, HBack(0, 17));
    StepTaken(SMALL, h4, HBack(0, 17), h5);
  }

  lemma {:induction false} ResumeInRange(st: RState, sid: int, target: int)
    requires target <= CacheCells.MAX_INT32
    ensures 0 <= ResumeTo(st, sid, target) <= CacheCells.MAX_INT32
  {
    if Resume(st, sid, target) >= 0 { ResumeCheckpoint(st, sid, target); }
  }

  ghost predicate Steps(c: HConfig, hs: seq<Hybrid>, ops: seq<HOp>) {
    |hs| == |ops| + 1 && forall k :: 0 <= k < |ops| ==> HRunStep(c, hs, ops, k)
  }

  lemma {:induction false} TakenAt(c: HConfig, hs: seq<Hybrid>, ops: seq<HOp>, k: nat)
    requires k < |ops| && |hs| == |ops| + 1 && Takes(c, hs[k], ops[k], hs[k + 1])
    ensures HRunStep(c, hs, ops, k)
  {
    var here := HRunStep(c, hs, ops, k);
    assert here;
  }

  lemma {:induction false} FiveSteps(c: HConfig, h0: Hybrid, h1: Hybrid, h2: Hybrid, h3: Hybrid, h4: Hybrid, h5: Hybrid,
                                     o0: HOp, o1: HOp, o2: HOp, o3: HOp, o4: HOp)
    requires Takes(c, h0, o0, h1) && Takes(c, h1, o1, h2) && Takes(c, h2, o2, h3)
    requires Takes(c, h3, o3, h4) && Takes(c, h4, o4, h5)
    ensures Steps(c, [h0, h1, h2, h3, h4, h5], [o0, o1, o2, o3, o4])
  {
    var hs, ops := [h0, h1, h2, h3, h4, h5], [o0, o1, o2, o3, o4];
    assert forall k :: 0 <= k < 5 ==> Takes(c, hs[k], ops[k], hs[k + 1]);
    AllTaken(c, hs, ops);
  }

  lemma {:induction false} AllTaken(c: HConfig, hs: seq<Hybrid>, ops: seq<HOp>)
    requires |hs| == |ops| + 1 && forall k :: 0 <= k < |ops| ==> Takes(c, hs[k], ops[k], hs[k + 1])
    ensures Steps(c, hs, ops)
  {
    forall k | 0 <= k < |ops| ensures HRunStep(c, hs, ops, k) {
      TakenAt(c, hs, ops, k);
    }
  }

  lemma {:induction false} SmallRun(hs: seq<Hybrid>, ops: seq<HOp>)
    requires Steps(SMALL, hs, ops) && hs[0] == Hybrid(K.EmptyMeta(128), map[], EmptyWorld(2, 32))
    ensures HRun(SMALL, hs, ops, 2, 32)
  {
  }

  /** The second half, from the state that the unsafe fork starts from. */
  lemma {:induction false} ForkOn(h2: Hybrid) returns (h3: Hybrid, h4: Hybrid, h5: Hybrid)
    requires HInv(SMALL, h2) && LongDone(h2.w)
    ensures Takes(SMALL, h2, HFork(1, 0, 3, 0), h3) && !SafeStep(h2, HFork(1, 0, 3, 0))
    ensures Takes(SMALL, h3, PromptOp(0, 18, 0), h4) && Takes(SMALL, h4, HBack(0, 17), h5) && !Agree(SMALL, h5, 0)
  {
    h3 := ForkThird(h2);
    h4 := NewPrompt(h3);
    ResumeInRange(h4.w.st, 0, 17);
    h5 := WrongBack(h4);
  }

  /** A run in which an unsafe fork does harm: sequence 0 ends with tokens of its new prompt in the
      causal cache and rows of its old prompt in the recurrent state. */
  lemma {:induction false} UnsafeForkHarms() returns (hs: seq<Hybrid>, ops: seq<HOp>)
    ensures |ops| == 5 && HRun(SMALL, hs, ops, 2, 32) && !Agree(SMALL, hs[5], 0)
    ensures ops[2] == HFork(1, 0, 3, 0) && !SafeAt(hs, ops, 2)
  {
    var h0, h1 := ShortFirst();
    var h2 := LongSecond(h1);
    var h3, h4, h5 := ForkOn(h2);
    FiveSteps(SMALL, h0, h1, h2, h3, h4, h5, PromptOp(1, 5, 0), PromptOp(0, 17, 1), HFork(1, 0, 3, 0),
              PromptOp(0, 18, 0), HBack(0, 17));
    hs := [h0, h1, h2, h3, h4, h5];
    ops := [PromptOp(1, 5, 0), PromptOp(0, 17, 1), HFork(1, 0, 3, 0), PromptOp(0, 18, 0), HBack(0, 17)];
    SmallRun(hs, ops);
  }
}
