/** Recurrent state next to the KV cache: rows per slot, checkpoints per slot, and what makes
    them coherent with the tokens each sequence holds. */
module RecurrentState {
  import opened Wrappers
  import opened SlotTable
  import opened CheckpointRing

  type Token = int

  /** A recurrent model: its buffers, and how one token changes a row of a buffer. */
  datatype Model = Model(bufs: set<Buf>, step: (Buf, Row, Token) -> Row)

  /** The row that a history leads to; a fresh row is zero. */
  function Fold(m: Model, b: Buf, h: seq<Token>): Row {
    if h == [] then 0 else m.step(b, Fold(m, b, h[..|h| - 1]), h[|h| - 1])
  }

  function FoldFrom(m: Model, b: Buf, row: Row, toks: seq<Token>): Row {
    if toks == [] then row else m.step(b, FoldFrom(m, b, row, toks[..|toks| - 1]), toks[|toks| - 1])
  }

  lemma {:induction false} FoldAppend(m: Model, b: Buf, h: seq<Token>, toks: seq<Token>)
    ensures FoldFrom(m, b, Fold(m, b, h), toks) == Fold(m, b, h + toks)
  {
    if toks == [] {
      assert h + toks == h;
    } else {
      var n := |toks| - 1;
      FoldAppend(m, b, h, toks[..n]);
      assert (h + toks)[..|h + toks| - 1] == h + toks[..n];
    }
  }

  /** The slots, the rows of every buffer allocated so far, and the checkpoint rings. */
  datatype RState = RState(slots: Slots, bufs: map<Buf, seq<Row>>, rings: map<int, Ring>, count: nat)

  function N(st: RState): nat { |st.slots.refs| }

  function RingOf(st: RState, x: int): Ring {
    if x in st.rings then st.rings[x] else NewRing(st.count)
  }

  /** A buffer that does not exist yet reads as zeros. */
  function RowAt(bufs: map<Buf, seq<Row>>, b: Buf, x: int): Row {
    if b in bufs && 0 <= x < |bufs[b]| then bufs[b][x] else 0
  }

  ghost predicate StOk(st: RState) {
    && SlotsOk(st.slots)
    && (forall b :: b in st.bufs ==> |st.bufs[b]| == N(st))
    && (forall x :: x in st.rings ==> 0 <= x < N(st) && |st.rings[x].entries| == st.count && RingOk(st.rings[x]))
  }

  // ---- the steps that operations are made of ----

  function ZeroRows(bufs: map<Buf, seq<Row>>, x: int): map<Buf, seq<Row>> {
    map b | b in bufs :: if 0 <= x < |bufs[b]| then bufs[b][x := 0] else bufs[b]
  }

  function CopyRows(bufs: map<Buf, seq<Row>>, x: int, y: int): map<Buf, seq<Row>> {
    map b | b in bufs :: if 0 <= x < |bufs[b]| && 0 <= y < |bufs[b]| then bufs[b][y := bufs[b][x]] else bufs[b]
  }

  /** Positions and bookkeeping of the source; its rows over whatever the target entries had. */
  function CopiedRing(src: Ring, dst: Ring): Ring {
    src.(entries := seq(|src.entries|, i requires 0 <= i < |src.entries| =>
      Ckpt(src.entries[i].pos,
           (if i < |dst.entries| then dst.entries[i].rows else map[]) + src.entries[i].rows)))
  }

  function CopyCheckpoints(st: RState, x: int, y: int): map<int, Ring> {
    if st.count == 0 || x !in st.rings || st.rings[x].size == 0 then st.rings
    else st.rings[y := CopiedRing(st.rings[x], RingOf(st, y))]
  }

  predicate CanAlloc(st: RState) {
    st.slots.free != [] && 0 <= Top(st.slots) < N(st)
  }

  /** A zeroed slot for a sequence without one. */
  function Assigned(st: RState, sid: int): RState {
    if sid in st.slots.slotOf || !CanAlloc(st) then st
    else st.(slots := Alloc(st.slots, sid), bufs := ZeroRows(st.bufs, Top(st.slots)))
  }

  /** A private copy of the slot for a sequence that shares one. */
  function Detached(st: RState, sid: int): RState {
    if Shared(st.slots, sid) && CanAlloc(st) then
      var x, y := st.slots.slotOf[sid], Top(st.slots);
      RState(Detach(st.slots, sid), CopyRows(st.bufs, x, y), CopyCheckpoints(st, x, y), st.count)
    else st
  }

  // ---- coherence ----

  /** The state together with two histories: the tokens each sequence's KV cache holds, and the
      tokens that the rows of each slot have seen. */
  datatype World = World(st: RState, hist: map<int, seq<Token>>, seen: map<int, seq<Token>>)

  function H(w: World, sid: int): seq<Token> { if sid in w.hist then w.hist[sid] else [] }

  function S(w: World, x: int): seq<Token> { if x in w.seen then w.seen[x] else [] }

  ghost predicate RowsMatch(m: Model, bufs: map<Buf, seq<Row>>, x: int, h: seq<Token>) {
    forall b :: b in m.bufs ==> RowAt(bufs, b, x) == Fold(m, b, h)
  }

  /** A checkpoint at `pos` holds, for every buffer, the row of the first pos + 1 tokens. */
  ghost predicate CkptMatches(m: Model, e: Ckpt, h: seq<Token>) {
    0 <= e.pos < |h| && forall b :: b in m.bufs ==> b in e.rows && e.rows[b] == Fold(m, b, h[..e.pos + 1])
  }

  ghost predicate RingMatches(m: Model, r: Ring, h: seq<Token>) {
    forall i :: 0 <= i < |r.entries| && Live(r.entries[i]) ==> CkptMatches(m, r.entries[i], h)
  }

  ghost predicate RingClean(r: Ring) {
    forall i :: 0 <= i < |r.entries| ==> !Live(r.entries[i])
  }

  ghost predicate KnownRows(m: Model, st: RState) {
    && st.bufs.Keys <= m.bufs
    && forall x, i :: x in st.rings && 0 <= i < |st.rings[x].entries| ==> st.rings[x].entries[i].rows.Keys <= m.bufs
  }

  ghost predicate SlotMatches(m: Model, w: World, x: int) {
    && |S(w, x)| <= MAX_INT32
    && RowsMatch(m, w.st.bufs, x, S(w, x)) && RingMatches(m, RingOf(w.st, x), S(w, x))
  }

  /** Each sequence holds a prefix of what its slot has seen, and nothing without a slot. */
  ghost predicate HoldsPrefix(w: World) {
    && (forall sid :: sid in w.st.slots.slotOf ==> H(w, sid) <= S(w, w.st.slots.slotOf[sid]))
    && (forall sid :: sid !in w.st.slots.slotOf ==> H(w, sid) == [])
  }

  ghost predicate Shape(m: Model, st: RState) { StOk(st) && KnownRows(m, st) }

  /** Rows and checkpoints of every slot in use agree with what the slot has seen, unused slots
      carry no checkpoints, and each sequence holds a prefix of what its slot has seen. */
  ghost predicate Coherent(m: Model, w: World) {
    && Shape(m, w.st)
    && (forall x :: 0 <= x < N(w.st) ==> SlotCoherent(m, w, x))
    && HoldsPrefix(w)
  }

  ghost predicate SlotCoherent(m: Model, w: World, x: int)
    requires 0 <= x < N(w.st)
  {
    if w.st.slots.refs[x] > 0 then SlotMatches(m, w, x) else RingClean(RingOf(w.st, x))
  }

  /** The recurrent state of the sequence is that of exactly the tokens its KV cache holds. */
  ghost predicate Synced(w: World, sid: int) {
    sid in w.st.slots.slotOf ==> H(w, sid) == S(w, w.st.slots.slotOf[sid])
  }

  lemma {:induction false} UsedSlot(s: Slots, sid: int)
    requires SlotsOk(s) && sid in s.slotOf
    ensures 0 <= s.slotOf[sid] < |s.refs| && s.refs[s.slotOf[sid]] > 0
  {
    assert sid in Users(s, s.slotOf[sid]);
  }

  lemma {:induction false} TopIsFree(s: Slots)
    requires SlotsOk(s) && s.free != []
    ensures 0 <= Top(s) < |s.refs| && s.refs[Top(s)] == 0
    ensures forall sid :: sid in s.slotOf ==> s.slotOf[sid] != Top(s)
  {
    forall sid | sid in s.slotOf ensures s.slotOf[sid] != Top(s) {
      UsedSlot(s, sid);
    }
  }

  lemma {:induction false} NewRingClean(n: nat)
    ensures RingClean(NewRing(n)) && RingOk(NewRing(n)) && |NewRing(n).entries| == n
  {
    assert LiveBelow(NewRing(n).entries, n) == {};
  }

  // ---- each step keeps coherence ----

  ghost predicate SameSlot(m: Model, w: World, w': World, x: int) {
    S(w', x) == S(w, x) && RingOf(w'.st, x) == RingOf(w.st, x)
    && forall b :: b in m.bufs ==> RowAt(w'.st.bufs, b, x) == RowAt(w.st.bufs, b, x)
  }

  /** A step that touches the contents of the slots in `Y` only, and brings no other slot in or out of use. */
  lemma {:induction false} OnlySlots(m: Model, w: World, w': World, Y: set<int>)
    requires Coherent(m, w) && Shape(m, w'.st) && N(w'.st) == N(w.st) && HoldsPrefix(w')
    requires forall x :: 0 <= x < N(w.st) && x !in Y ==> SameSlot(m, w, w', x)
    requires forall x :: 0 <= x < N(w.st) && x !in Y ==> (w'.st.slots.refs[x] > 0 <==> w.st.slots.refs[x] > 0)
    requires forall x :: 0 <= x < N(w.st) && x in Y ==> SlotCoherent(m, w', x)
    ensures Coherent(m, w')
  {
    forall x | 0 <= x < N(w.st) ensures SlotCoherent(m, w', x) {
      if x !in Y {
        assert SlotCoherent(m, w, x) && SameSlot(m, w, w', x);
      }
    }
  }

  lemma {:induction false} OnlySlot(m: Model, w: World, w': World, y: int)
    requires Coherent(m, w) && Shape(m, w'.st) && N(w'.st) == N(w.st) && HoldsPrefix(w')
    requires forall x :: 0 <= x < N(w.st) && x != y ==> SameSlot(m, w, w', x)
    requires forall x :: 0 <= x < N(w.st) && x != y ==> (w'.st.slots.refs[x] > 0 <==> w.st.slots.refs[x] > 0)
    requires 0 <= y < N(w.st) ==> SlotCoherent(m, w', y)
    ensures Coherent(m, w')
  {
    OnlySlots(m, w, w', {y});
  }

  function WorldAssigned(w: World, sid: int): World {
    if sid in w.st.slots.slotOf || !CanAlloc(w.st) then w
    else World(Assigned(w.st, sid), w.hist, w.seen[Top(w.st.slots) := []])
  }

  lemma {:induction false} AssignedSlot(m: Model, w: World, sid: int)
    requires Coherent(m, w) && sid !in w.st.slots.slotOf && CanAlloc(w.st) && w.st.slots.refs[Top(w.st.slots)] == 0
    ensures SlotMatches(m, WorldAssigned(w, sid), Top(w.st.slots))
    ensures forall x :: x != Top(w.st.slots) ==> SameSlot(m, w, WorldAssigned(w, sid), x)
  {
    var y := Top(w.st.slots);
    assert SlotCoherent(m, w, y);
    assert RingOf(WorldAssigned(w, sid).st, y) == RingOf(w.st, y);
  }

  lemma {:induction false} AssignedShape(m: Model, st: RState, sid: int)
    requires Shape(m, st) && sid !in st.slots.slotOf && CanAlloc(st)
    ensures Shape(m, Assigned(st, sid))
  {
    AllocOk(st.slots, sid);
  }

  lemma {:induction false} AssignKeeps(m: Model, w: World, sid: int)
    requires Coherent(m, w) && sid !in w.st.slots.slotOf && w.st.slots.free != []
    ensures CanAlloc(w.st) && Coherent(m, WorldAssigned(w, sid)) && Synced(WorldAssigned(w, sid), sid)
    ensures forall t :: t in w.st.slots.slotOf ==>
              S(WorldAssigned(w, sid), w.st.slots.slotOf[t]) == S(w, w.st.slots.slotOf[t])
  {
    TopIsFree(w.st.slots);
    AssignedShape(m, w.st, sid);
    AssignedSlot(m, w, sid);
    OnlySlot(m, w, WorldAssigned(w, sid), Top(w.st.slots));
  }

  function WorldDetached(w: World, sid: int): World {
    if Shared(w.st.slots, sid) && CanAlloc(w.st)
    then World(Detached(w.st, sid), w.hist, w.seen[Top(w.st.slots) := S(w, w.st.slots.slotOf[sid])])
    else w
  }

  lemma {:induction false} CopiedRingOk(src: Ring, dst: Ring)
    requires RingOk(src)
    ensures RingOk(CopiedRing(src, dst)) && |CopiedRing(src, dst).entries| == |src.entries|
    ensures forall i :: 0 <= i < |src.entries| ==> CopiedRing(src, dst).entries[i].pos == src.entries[i].pos
  {
    var r := CopiedRing(src, dst);
    assert LiveBelow(r.entries, |r.entries|) == LiveBelow(src.entries, |src.entries|);
  }

  lemma {:induction false} CopiedRingMatches(m: Model, src: Ring, dst: Ring, h: seq<Token>)
    requires RingOk(src) && RingMatches(m, src, h)
    requires forall i :: 0 <= i < |src.entries| ==> src.entries[i].rows.Keys <= m.bufs
    requires forall i :: 0 <= i < |dst.entries| ==> dst.entries[i].rows.Keys <= m.bufs
    ensures RingMatches(m, CopiedRing(src, dst), h)
    ensures forall i :: 0 <= i < |src.entries| ==> CopiedRing(src, dst).entries[i].rows.Keys <= m.bufs
  {
    CopiedRingOk(src, dst);
    forall i | 0 <= i < |src.entries| && Live(src.entries[i])
      ensures CkptMatches(m, CopiedRing(src, dst).entries[i], h)
    {
      assert CkptMatches(m, src.entries[i], h);
    }
  }

  /** The target ring of a copy, for the coherence of the new slot. */
  lemma {:induction false} CopyMatches(m: Model, st: RState, x: int, y: int, h: seq<Token>)
    requires StOk(st) && KnownRows(m, st) && 0 <= x < N(st) && 0 <= y < N(st) && x != y
    requires RingMatches(m, RingOf(st, x), h) && RingClean(RingOf(st, y))
    ensures var st' := st.(rings := CopyCheckpoints(st, x, y));
            && RingMatches(m, RingOf(st', y), h)
            && (forall z :: z != y ==> RingOf(st', z) == RingOf(st, z))
            && StOk(st') && KnownRows(m, st')
            && (forall i :: 0 <= i < st.count && Live(RingOf(st, x).entries[i]) ==>
                  RingOf(st', y).entries[i].pos == RingOf(st, x).entries[i].pos)
  {
    NewRingClean(st.count);
    var st' := st.(rings := CopyCheckpoints(st, x, y));
    if st.count == 0 || x !in st.rings || st.rings[x].size == 0 {
      if x in st.rings {
        LiveCard(st.rings[x].entries, |st.rings[x].entries|);
      }
    } else {
      var src, dst := st.rings[x], RingOf(st, y);
      CopiedRingOk(src, dst);
      CopiedRingMatches(m, src, dst, h);
      assert RingOf(st', y) == CopiedRing(src, dst);
    }
  }

  lemma {:induction false} CopiedRows(bufs: map<Buf, seq<Row>>, n: nat, x: int, y: int, b: Buf, z: int)
    requires forall c :: c in bufs ==> |bufs[c]| == n
    requires 0 <= x < n && 0 <= y < n
    ensures RowAt(CopyRows(bufs, x, y), b, z) == RowAt(bufs, b, if z == y then x else z)
  {
  }

  lemma {:induction false} DetachedSlot(m: Model, w: World, sid: int)
    requires Coherent(m, w) && Shared(w.st.slots, sid) && CanAlloc(w.st) && w.st.slots.refs[Top(w.st.slots)] == 0
    ensures SlotMatches(m, WorldDetached(w, sid), Top(w.st.slots))
    ensures forall z :: 0 <= z < N(w.st) && z != Top(w.st.slots) ==> SameSlot(m, w, WorldDetached(w, sid), z)
  {
    var w' := WorldDetached(w, sid);
    var x, y := w.st.slots.slotOf[sid], Top(w.st.slots);
    assert SlotCoherent(m, w, x) && SlotCoherent(m, w, y);
    CopyMatches(m, w.st, x, y, S(w, x));
    var st1 := w.st.(rings := CopyCheckpoints(w.st, x, y));
    forall z | 0 <= z < N(w.st)
      ensures RingOf(w'.st, z) == RingOf(st1, z)
      ensures forall b :: b in m.bufs ==> RowAt(w'.st.bufs, b, z) == RowAt(w.st.bufs, b, if z == y then x else z)
    {
      forall b | b in m.bufs ensures RowAt(w'.st.bufs, b, z) == RowAt(w.st.bufs, b, if z == y then x else z) {
        CopiedRows(w.st.bufs, N(w.st), x, y, b, z);
      }
    }
  }

  lemma {:induction false} DetachedShape(m: Model, w: World, sid: int)
    requires Coherent(m, w) && Shared(w.st.slots, sid) && CanAlloc(w.st) && w.st.slots.refs[Top(w.st.slots)] == 0
    ensures Shape(m, Detached(w.st, sid))
  {
    var x, y := w.st.slots.slotOf[sid], Top(w.st.slots);
    assert SlotCoherent(m, w, x) && SlotCoherent(m, w, y);
    CopyMatches(m, w.st, x, y, S(w, x));
    DetachOk(w.st.slots, sid);
  }

  lemma {:induction false} DetachKeeps(m: Model, w: World, sid: int)
    requires Coherent(m, w) && Shared(w.st.slots, sid) && w.st.slots.free != []
    ensures CanAlloc(w.st) && Coherent(m, WorldDetached(w, sid))
    ensures forall t :: t in w.st.slots.slotOf ==>
              t in WorldDetached(w, sid).st.slots.slotOf
              && S(WorldDetached(w, sid), WorldDetached(w, sid).st.slots.slotOf[t]) == S(w, w.st.slots.slotOf[t])
    ensures WorldDetached(w, sid).st.slots.refs[Top(w.st.slots)] == 1
  {
    TopIsFree(w.st.slots);
    DetachedShape(m, w, sid);
    DetachedSlot(m, w, sid);
    OnlySlot(m, w, WorldDetached(w, sid), Top(w.st.slots));
  }

  // ---- CopyPrefix ----

  /** The target gives up its own slot, checkpoints and all, and joins the source's slot. */
  ghost function Forked(st: RState, src: int, dst: int): RState
    requires InRange(st.slots)
  {
    var slots := if dst in st.slots.slotOf then Release(st.slots, dst) else st.slots;
    st.(slots := if src in slots.slotOf then Share(slots, src, dst) else slots)
  }

  function Prefix(h: seq<Token>, len: int): seq<Token> {
    if 0 <= len < |h| then h[..len] else h
  }

  ghost function WorldForked(w: World, src: int, dst: int, len: int): World
    requires InRange(w.st.slots)
  {
    World(Forked(w.st, src, dst), w.hist[dst := Prefix(H(w, src), len)], w.seen)
  }

  /** The target is the last user of a slot that still carries checkpoints. */
  ghost predicate LeavesStale(st: RState, dst: int) {
    && dst in st.slots.slotOf && 0 <= st.slots.slotOf[dst] < N(st) && st.slots.refs[st.slots.slotOf[dst]] == 1
    && !RingClean(RingOf(st, st.slots.slotOf[dst]))
  }

  lemma {:induction false} ForkedSlots(s: Slots, src: int, dst: int)
    requires SlotsOk(s) && src != dst
    ensures var s1 := if dst in s.slotOf then Release(s, dst) else s;
            var s2 := if src in s1.slotOf then Share(s1, src, dst) else s1;
            && SlotsOk(s2) && |s2.refs| == |s.refs|
            && (forall x :: 0 <= x < |s.refs| && s2.refs[x] > 0 ==> s.refs[x] > 0)
            && (forall x :: 0 <= x < |s.refs| && s2.refs[x] == 0 && s.refs[x] > 0 ==>
                  dst in s.slotOf && x == s.slotOf[dst] && s.refs[x] == 1)
            && (dst in s.slotOf && s.refs[s.slotOf[dst]] == 1 ==> s2.refs[s.slotOf[dst]] == 0)
  {
    var s1 := if dst in s.slotOf then Release(s, dst) else s;
    if dst in s.slotOf {
      ReleaseOk(s, dst);
      UsedSlot(s, dst);
    }
    if src in s1.slotOf {
      ShareOk(s1, src, dst);
      UsedSlot(s, src);
      UsedSlot(s1, src);
    }
  }

  lemma {:induction false} ForkHolds(m: Model, w: World, src: int, dst: int, len: int)
    requires SlotsOk(w.st.slots) && HoldsPrefix(w) && src != dst && 0 <= len
    ensures HoldsPrefix(WorldForked(w, src, dst, len))
  {
    var w' := WorldForked(w, src, dst, len);
    var s, s' := w.st.slots, w'.st.slots;
    forall sid | sid in s'.slotOf ensures H(w', sid) <= S(w', s'.slotOf[sid]) {
      if sid != dst { assert sid in s.slotOf && s'.slotOf[sid] == s.slotOf[sid]; }
    }
  }

  lemma {:induction false} ForkKeeps(m: Model, w: World, src: int, dst: int, len: int)
    requires Coherent(m, w) && src != dst && 0 <= len && !LeavesStale(w.st, dst)
    ensures Coherent(m, WorldForked(w, src, dst, len))
  {
    var w' := WorldForked(w, src, dst, len);
    ForkedSlots(w.st.slots, src, dst);
    ForkHolds(m, w, src, dst, len);
    var y := if dst in w.st.slots.slotOf then w.st.slots.slotOf[dst] else -1;
    assert 0 <= y < N(w.st) ==> SlotCoherent(m, w, y) && SameSlot(m, w, w', y);
    OnlySlot(m, w, w', y);
  }

  /** CopyPrefix keeps the coherence exactly when the target does not leave checkpoints behind in
      a slot that becomes unused. */
  lemma {:induction false} ForkKeepsIff(m: Model, w: World, src: int, dst: int, len: int)
    requires Coherent(m, w) && src != dst && 0 <= len
    ensures Coherent(m, WorldForked(w, src, dst, len)) <==> !LeavesStale(w.st, dst)
  {
    if LeavesStale(w.st, dst) {
      var x := w.st.slots.slotOf[dst];
      var st' := WorldForked(w, src, dst, len).st;
      ForkedSlots(w.st.slots, src, dst);
      assert st'.slots.refs[x] == 0 && RingOf(st', x) == RingOf(w.st, x);
      assert !SlotCoherent(m, WorldForked(w, src, dst, len), x);
    } else {
      ForkKeeps(m, w, src, dst, len);
    }
  }

  // ---- Remove from position 0 ----

  ghost function Cleared(st: RState, sid: int): RState
    requires InRange(st.slots)
  {
    if sid !in st.slots.slotOf then st
    else
      var x := st.slots.slotOf[sid];
      st.(slots := Release(st.slots, sid),
          rings := if st.slots.refs[x] <= 1 && x in st.rings then st.rings[x := ResetRing(st.rings[x])] else st.rings)
  }

  ghost function WorldCleared(w: World, sid: int): World
    requires InRange(w.st.slots)
  {
    World(Cleared(w.st, sid), w.hist - {sid}, w.seen)
  }

  lemma {:induction false} ResetRingOk(r: Ring)
    requires RingOk(r)
    ensures RingOk(ResetRing(r)) && RingClean(ResetRing(r)) && |ResetRing(r).entries| == |r.entries|
  {
    assert LiveBelow(ResetRing(r).entries, |r.entries|) == {};
  }

  lemma {:induction false} ClearedShape(m: Model, st: RState, sid: int)
    requires Shape(m, st) && sid in st.slots.slotOf
    ensures Shape(m, Cleared(st, sid))
    ensures Cleared(st, sid).slots.refs[st.slots.slotOf[sid]] == 0 ==>
        RingClean(RingOf(Cleared(st, sid), st.slots.slotOf[sid]))
  {
    ReleaseOk(st.slots, sid);
    UsedSlot(st.slots, sid);
    NewRingClean(st.count);
    if st.slots.slotOf[sid] in st.rings { ResetRingOk(st.rings[st.slots.slotOf[sid]]); }
  }

  lemma {:induction false} ClearedHolds(w: World, sid: int)
    requires SlotsOk(w.st.slots) && HoldsPrefix(w)
    ensures HoldsPrefix(WorldCleared(w, sid))
    ensures forall t :: t != sid && Synced(w, t) ==> Synced(WorldCleared(w, sid), t)
  {
    var w' := WorldCleared(w, sid);
    forall t | t != sid ensures t in w'.st.slots.slotOf <==> t in w.st.slots.slotOf {}
  }

  lemma {:induction false} ClearKeeps(m: Model, w: World, sid: int)
    requires Coherent(m, w)
    ensures Coherent(m, WorldCleared(w, sid))
    ensures forall t :: t != sid && Synced(w, t) ==> Synced(WorldCleared(w, sid), t)
  {
    var w' := WorldCleared(w, sid);
    ClearedHolds(w, sid);
    var y := -1;
    if sid in w.st.slots.slotOf {
      y := w.st.slots.slotOf[sid];
      ClearedShape(m, w.st, sid);
      UsedSlot(w.st.slots, sid);
      assert SlotCoherent(m, w, y);
      assert SlotCoherent(m, w', y);
    }
    OnlySlot(m, w, w', y);
  }

  // ---- PrepareRestore, then Remove to the end ----

  /** The rows of a checkpoint written back into slot `x`. */
  function WriteBack(bufs: map<Buf, seq<Row>>, n: nat, rows: map<Buf, Row>, x: int): map<Buf, seq<Row>> {
    map b | b in bufs.Keys + rows.Keys ::
      var old_ := if b in bufs then bufs[b] else seq(n, _ => 0);
      if b in rows && 0 <= x < |old_| then old_[x := rows[b]] else old_
  }

  /** Checkpoint `idx` of the sequence's slot: what Remove restores after making the slot private. */
  predicate HasCheckpoint(st: RState, sid: int, idx: int) {
    && sid in st.slots.slotOf && st.slots.slotOf[sid] in st.rings
    && 0 <= idx < |st.rings[st.slots.slotOf[sid]].entries| && Live(st.rings[st.slots.slotOf[sid]].entries[idx])
  }

  /** Rows written back, later checkpoints forgotten, in the slot the sequence has. */
  function RestoredHere(st: RState, sid: int, idx: int): RState
    requires HasCheckpoint(st, sid, idx)
  {
    var x := st.slots.slotOf[sid];
    var e := st.rings[x].entries[idx];
    st.(bufs := WriteBack(st.bufs, N(st), e.rows, x), rings := st.rings[x := Pruned(st.rings[x], e.pos)])
  }

  function WorldRestoredHere(w: World, sid: int, idx: int): World
    requires HasCheckpoint(w.st, sid, idx)
  {
    var x := w.st.slots.slotOf[sid];
    var n := w.st.rings[x].entries[idx].pos + 1;
    World(RestoredHere(w.st, sid, idx), w.hist[sid := Prefix(H(w, sid), n)], w.seen[x := Prefix(S(w, x), n)])
  }

  function Restored(st: RState, sid: int, idx: int): RState {
    var st1 := Detached(st, sid);
    if HasCheckpoint(st1, sid, idx) then RestoredHere(st1, sid, idx) else st1
  }

  function WorldRestored(w: World, sid: int, idx: int): World {
    var w1 := WorldDetached(w, sid);
    if HasCheckpoint(w1.st, sid, idx) then WorldRestoredHere(w1, sid, idx) else w1
  }

  lemma {:induction false} PrunedMatches(m: Model, r: Ring, h: seq<Token>, p: int)
    requires RingOk(r) && RingMatches(m, r, h) && |h| <= MAX_INT32 && 0 <= p < |h|
    ensures RingOk(Pruned(r, p)) && RingMatches(m, Pruned(r, p), h[..p + 1])
    ensures |Pruned(r, p).entries| == |r.entries|
    ensures forall i :: 0 <= i < |r.entries| ==> Pruned(r, p).entries[i].rows == r.entries[i].rows
  {
    if r.entries == [] {
      assert LiveBelow([], 0) == {};
    } else {
      var es := PrunedEntries(r.entries, p);
      forall i | 0 <= i < |es|
        ensures es[i].pos < MAX_INT32
        ensures Live(es[i]) ==> CkptMatches(m, es[i], h[..p + 1])
      {
        if Live(r.entries[i]) {
          assert CkptMatches(m, r.entries[i], h);
          if r.entries[i].pos <= p {
            assert h[..p + 1][..r.entries[i].pos + 1] == h[..r.entries[i].pos + 1];
          }
        }
      }
      RebuiltExact(es, p);
    }
  }

  lemma {:induction false} WrittenBack(m: Model, bufs: map<Buf, seq<Row>>, n: nat, e: Ckpt, x: int, h: seq<Token>)
    requires (forall b :: b in bufs ==> |bufs[b]| == n) && 0 <= x < n && CkptMatches(m, e, h)
    ensures RowsMatch(m, WriteBack(bufs, n, e.rows, x), x, h[..e.pos + 1])
    ensures forall y, b :: y != x && b in m.bufs ==> RowAt(WriteBack(bufs, n, e.rows, x), b, y) == RowAt(bufs, b, y)
  {
  }

  /** The slot that is restored, when only this sequence uses it. */
  lemma {:induction false} RestoredSlot(m: Model, w: World, sid: int, idx: int)
    requires Coherent(m, w) && HasCheckpoint(w.st, sid, idx)
    ensures var x := w.st.slots.slotOf[sid];
            var p := w.st.rings[x].entries[idx].pos;
            var w' := WorldRestoredHere(w, sid, idx);
            && 0 <= x < N(w.st) && w.st.slots.refs[x] > 0 && p < |S(w, x)|
            && S(w', x) == S(w, x)[..p + 1] && SlotMatches(m, w', x)
  {
    var x := w.st.slots.slotOf[sid];
    var r := w.st.rings[x];
    var e := r.entries[idx];
    UsedSlot(w.st.slots, sid);
    assert SlotCoherent(m, w, x) && CkptMatches(m, e, S(w, x));
    PrunedMatches(m, r, S(w, x), e.pos);
    WrittenBack(m, w.st.bufs, N(w.st), e, x, S(w, x));
    assert RingOf(RestoredHere(w.st, sid, idx), x) == Pruned(r, e.pos);
  }

  lemma {:induction false} RestoredOthers(m: Model, w: World, sid: int, idx: int)
    requires Coherent(m, w) && HasCheckpoint(w.st, sid, idx)
    ensures forall y :: y != w.st.slots.slotOf[sid] ==> SameSlot(m, w, WorldRestoredHere(w, sid, idx), y)
  {
    var x := w.st.slots.slotOf[sid];
    var e := w.st.rings[x].entries[idx];
    UsedSlot(w.st.slots, sid);
    assert SlotCoherent(m, w, x) && CkptMatches(m, e, S(w, x));
    WrittenBack(m, w.st.bufs, N(w.st), e, x, S(w, x));
  }

  lemma {:induction false} RestoredShape(m: Model, w: World, sid: int, idx: int)
    requires Coherent(m, w) && HasCheckpoint(w.st, sid, idx)
    ensures Shape(m, RestoredHere(w.st, sid, idx))
  {
    var x := w.st.slots.slotOf[sid];
    var r := w.st.rings[x];
    UsedSlot(w.st.slots, sid);
    assert SlotCoherent(m, w, x) && CkptMatches(m, r.entries[idx], S(w, x));
    PrunedMatches(m, r, S(w, x), r.entries[idx].pos);
    assert r.entries[idx].rows.Keys <= m.bufs;
  }

  /** Restoring in a slot that only this sequence uses. */
  lemma {:induction false} RestorePrivate(m: Model, w: World, sid: int, idx: int)
    requires Coherent(m, w) && HasCheckpoint(w.st, sid, idx) && !Shared(w.st.slots, sid)
    requires w.st.rings[w.st.slots.slotOf[sid]].entries[idx].pos < |H(w, sid)|
    ensures Coherent(m, WorldRestoredHere(w, sid, idx)) && Synced(WorldRestoredHere(w, sid, idx), sid)
    ensures forall t :: t != sid && Synced(w, t) ==> Synced(WorldRestoredHere(w, sid, idx), t)
  {
    var w' := WorldRestoredHere(w, sid, idx);
    var x := w.st.slots.slotOf[sid];
    RestoredSlot(m, w, sid, idx);
    RestoredOthers(m, w, sid, idx);
    RestoredShape(m, w, sid, idx);
    forall t | t in w.st.slots.slotOf && t != sid ensures S(w', w.st.slots.slotOf[t]) == S(w, w.st.slots.slotOf[t]) {
      OnlyUser(w.st.slots, sid, t);
      assert SameSlot(m, w, w', w.st.slots.slotOf[t]);
    }
    OnlySlot(m, w, w', x);
  }

  lemma {:induction false} OnlyUser(s: Slots, sid: int, t: int)
    requires SlotsOk(s) && sid in s.slotOf && t in s.slotOf && t != sid && !Shared(s, sid)
    ensures s.slotOf[t] != s.slotOf[sid]
  {
    var x := s.slotOf[sid];
    UsedSlot(s, sid);
    if s.slotOf[t] == x {
      SubsetCard({sid, t}, Users(s, x));
    }
  }

  /** Making the slot private first keeps the checkpoint where it was. */
  lemma {:induction false} DetachedCheckpoint(m: Model, w: World, sid: int, idx: int)
    requires Coherent(m, w) && HasCheckpoint(w.st, sid, idx) && Shared(w.st.slots, sid) && w.st.slots.free != []
    ensures var st1 := WorldDetached(w, sid).st;
            && HasCheckpoint(st1, sid, idx) && !Shared(st1.slots, sid)
            && st1.rings[st1.slots.slotOf[sid]].entries[idx].pos == w.st.rings[w.st.slots.slotOf[sid]].entries[idx].pos
  {
    TopIsFree(w.st.slots);
    var x, y := w.st.slots.slotOf[sid], Top(w.st.slots);
    assert SlotCoherent(m, w, x);
    LiveCard(w.st.rings[x].entries, |w.st.rings[x].entries|);
    CopiedRingOk(w.st.rings[x], RingOf(w.st, y));
    assert Detached(w.st, sid).rings[y] == CopiedRing(w.st.rings[x], RingOf(w.st, y));
  }

  /** A private copy, if need be, in which the checkpoint is where it was. */
  lemma {:induction false} ReadyToRestore(m: Model, w: World, sid: int, idx: int)
    requires Coherent(m, w) && HasCheckpoint(w.st, sid, idx)
    requires Shared(w.st.slots, sid) ==> w.st.slots.free != []
    ensures var w1 := WorldDetached(w, sid);
            && Coherent(m, w1) && HasCheckpoint(w1.st, sid, idx) && !Shared(w1.st.slots, sid)
            && w1.st.rings[w1.st.slots.slotOf[sid]].entries[idx].pos
               == w.st.rings[w.st.slots.slotOf[sid]].entries[idx].pos
            && w1.hist == w.hist && forall t :: Synced(w, t) ==> Synced(w1, t)
  {
    if Shared(w.st.slots, sid) {
      DetachKeeps(m, w, sid);
      DetachedCheckpoint(m, w, sid, idx);
    }
  }

  /** Restoring a checkpoint leaves the recurrent state and the KV cache at the same prefix, also
      when the slot had been shared; the other sequences keep theirs. */
  lemma {:induction false} RestoreKeeps(m: Model, w: World, sid: int, idx: int)
    requires Coherent(m, w) && HasCheckpoint(w.st, sid, idx)
    requires Shared(w.st.slots, sid) ==> w.st.slots.free != []
    requires w.st.rings[w.st.slots.slotOf[sid]].entries[idx].pos < |H(w, sid)|
    ensures Coherent(m, WorldRestored(w, sid, idx)) && Synced(WorldRestored(w, sid, idx), sid)
    ensures H(WorldRestored(w, sid, idx), sid) == H(w, sid)[..w.st.rings[w.st.slots.slotOf[sid]].entries[idx].pos + 1]
    ensures forall t :: t != sid && Synced(w, t) ==> Synced(WorldRestored(w, sid, idx), t)
  {
    var w1 := WorldDetached(w, sid);
    ReadyToRestore(m, w, sid, idx);
    RestorePrivate(m, w1, sid, idx);
    assert WorldRestored(w, sid, idx) == WorldRestoredHere(w1, sid, idx);
  }
}
