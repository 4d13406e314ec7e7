/** The checkpoints of a slot, as values and updated in place. */
module CheckpointRing {
  import opened Wrappers

  const MAX_INT32: int := 0x7fff_ffff

  /** A buffer of recurrent state: the convolution or the recurrent rows of a layer. */
  datatype Buf = Conv(layer: int) | Rec(layer: int)

  type Row = int

  datatype Ckpt = Ckpt(pos: int, rows: map<Buf, Row>)

  /** An entry with a negative position is unused, `size` counts the others, and `next` is the entry that
      the next checkpoint overwrites. */
  datatype Ring = Ring(entries: seq<Ckpt>, size: int, next: int, lastPos: int)

  predicate Live(e: Ckpt) { e.pos >= 0 }

  ghost function LiveBelow(entries: seq<Ckpt>, n: nat): set<int>
    requires n <= |entries|
  {
    set i | 0 <= i < n && Live(entries[i])
  }

  /** The write position is inside the ring, and `size` never understates the live entries. */
  ghost predicate RingOk(r: Ring) {
    && (r.entries != [] ==> 0 <= r.next < |r.entries|)
    && |LiveBelow(r.entries, |r.entries|)| <= r.size <= |r.entries|
  }

  function NewRing(n: nat): Ring {
    Ring(seq(n, _ => Ckpt(-1, map[])), 0, 0, -1)
  }

  function Unused(e: Ckpt): Ckpt { e.(pos := -1) }

  function ResetRing(r: Ring): Ring {
    Ring(seq(|r.entries|, i requires 0 <= i < |r.entries| => Unused(r.entries[i])), 0, 0, -1)
  }

  /** Recording claims the entry at `next` for position `pos`. */
  function Recorded(r: Ring, pos: int): Ring
    requires r.entries != [] ==> 0 <= r.next < |r.entries|
  {
    if r.entries == [] then r
    else Ring(r.entries[r.next := r.entries[r.next].(pos := pos)],
              if r.size < |r.entries| then r.size + 1 else r.size,
              (r.next + 1) % |r.entries|, pos)
  }

  // ---- one pass over the entries ----

  /** Live entries seen, first unused index, lowest live position and its index, highest one. */
  datatype Scan = Scan(size: int, next: int, minPos: int, minIdx: int, maxPos: int)

  function ScanOne(s: Scan, e: Ckpt, i: int): Scan {
    if e.pos >= 0 then
      Scan(s.size + 1, s.next,
           if e.pos < s.minPos then e.pos else s.minPos,
           if e.pos < s.minPos then i else s.minIdx,
           if e.pos > s.maxPos then e.pos else s.maxPos)
    else s.(next := if s.next == -1 then i else s.next)
  }

  function ScanUpTo(entries: seq<Ckpt>, n: nat): Scan
    requires n <= |entries|
  {
    if n == 0 then Scan(0, -1, MAX_INT32, 0, -1) else ScanOne(ScanUpTo(entries, n - 1), entries[n - 1], n - 1)
  }

  /** What the pass finds, in terms of the entries. */
  ghost predicate ScanIs(entries: seq<Ckpt>, n: nat, s: Scan)
    requires n <= |entries|
  {
    && s.size == |LiveBelow(entries, n)|
    && (if s.next == -1 then forall i :: 0 <= i < n ==> Live(entries[i]) else 0 <= s.next < n && !Live(entries[s.next]))
    && (if s.size == 0 then s.minPos == MAX_INT32 && s.maxPos == -1
        else 0 <= s.minIdx < n && entries[s.minIdx].pos == s.minPos >= 0)
    && (forall i :: 0 <= i < n && Live(entries[i]) ==> 0 < s.size && s.minPos <= entries[i].pos <= s.maxPos)
  }

  lemma {:induction false} ScanStep(entries: seq<Ckpt>, n: nat, s: Scan)
    requires n < |entries| && ScanIs(entries, n, s) && entries[n].pos < MAX_INT32
    ensures ScanIs(entries, n + 1, ScanOne(s, entries[n], n))
  {
    if Live(entries[n]) {
      assert LiveBelow(entries, n + 1) == LiveBelow(entries, n) + {n};
    } else {
      assert LiveBelow(entries, n + 1) == LiveBelow(entries, n);
    }
  }

  lemma {:induction false} ScanMeaning(entries: seq<Ckpt>, n: nat)
    requires n <= |entries| && forall i :: 0 <= i < |entries| ==> entries[i].pos < MAX_INT32
    ensures ScanIs(entries, n, ScanUpTo(entries, n))
  {
    if n == 0 {
      assert LiveBelow(entries, 0) == {};
    } else {
      ScanMeaning(entries, n - 1);
      ScanStep(entries, n - 1, ScanUpTo(entries, n - 1));
    }
  }

  /** The bookkeeping after entries were dropped or moved: write next into the first unused entry,
      or over the oldest one. */
  function Rebuilt(entries: seq<Ckpt>, lastPos: int): Ring {
    var s := ScanUpTo(entries, |entries|);
    if s.size == 0 then Ring(entries, 0, 0, -1)
    else Ring(entries, s.size, if s.next != -1 then s.next else s.minIdx, lastPos)
  }

  function PruneEntry(e: Ckpt, pos: int): Ckpt { if e.pos > pos then Unused(e) else e }

  function PrunedEntries(entries: seq<Ckpt>, pos: int): (r: seq<Ckpt>) {
    seq(|entries|, i requires 0 <= i < |entries| => PruneEntry(entries[i], pos))
  }

  function Pruned(r: Ring, pos: int): Ring {
    if r.entries == [] then Ring([], 0, 0, -1) else Rebuilt(PrunedEntries(r.entries, pos), pos)
  }

  function ShiftEntry(e: Ckpt, begin: int, end: int): Ckpt {
    if e.pos < 0 then e
    else if begin <= e.pos < end then Unused(e)
    else if e.pos >= end then e.(pos := e.pos + begin - end)
    else e
  }

  function ShiftedEntries(entries: seq<Ckpt>, begin: int, end: int): (r: seq<Ckpt>) {
    seq(|entries|, i requires 0 <= i < |entries| => ShiftEntry(entries[i], begin, end))
  }

  function ShiftedRing(r: Ring, begin: int, end: int): Ring {
    if r.entries == [] then Ring([], 0, 0, -1)
    else
      var entries := ShiftedEntries(r.entries, begin, end);
      Rebuilt(entries, ScanUpTo(entries, |entries|).maxPos)
  }

  ghost predicate PositionsOk(r: Ring) {
    forall i :: 0 <= i < |r.entries| ==> r.entries[i].pos < MAX_INT32
  }

  /** After a rebuild the size is exact again and the next write hits an unused entry, or the
      oldest checkpoint when there is none. */
  lemma {:induction false} RebuiltExact(entries: seq<Ckpt>, lastPos: int)
    requires entries != [] && forall i :: 0 <= i < |entries| ==> entries[i].pos < MAX_INT32
    ensures var r := Rebuilt(entries, lastPos);
            && RingOk(r) && r.entries == entries && r.size == |LiveBelow(entries, |entries|)|
            && (Live(entries[r.next]) ==>
                  forall i :: 0 <= i < |entries| ==> Live(entries[i]) && entries[r.next].pos <= entries[i].pos)
  {
    ScanMeaning(entries, |entries|);
    LiveCard(entries, |entries|);
  }

  lemma {:induction false} LiveCard(entries: seq<Ckpt>, n: nat)
    requires n <= |entries|
    ensures |LiveBelow(entries, n)| <= n
    ensures |LiveBelow(entries, n)| == 0 ==> forall i :: 0 <= i < n ==> !Live(entries[i])
  {
    if n > 0 {
      LiveCard(entries, n - 1);
      if Live(entries[n - 1]) {
        assert LiveBelow(entries, n) == LiveBelow(entries, n - 1) + {n - 1};
      } else {
        assert LiveBelow(entries, n) == LiveBelow(entries, n - 1);
      }
    }
  }

  lemma {:induction false} RecordedOk(r: Ring, pos: int)
    requires RingOk(r)
    ensures RingOk(Recorded(r, pos))
  {
    if r.entries != [] {
      var r' := Recorded(r, pos);
      var n := |r.entries|;
      assert LiveBelow(r'.entries, n) <= LiveBelow(r.entries, n) + {r.next};
      SubsetCard(LiveBelow(r'.entries, n), LiveBelow(r.entries, n) + {r.next});
      LiveCard(r'.entries, n);
    }
  }

  // ---- what the operations leave behind ----

  /** Position `p` has a checkpoint. */
  ghost predicate Holds(entries: seq<Ckpt>, p: int) {
    exists i :: 0 <= i < |entries| && entries[i].pos == p && 0 <= p
  }

  function RecordAll(r: Ring, poss: seq<int>): Ring
    requires r.entries != [] && 0 <= r.next < |r.entries|
    ensures var r' := RecordAll(r, poss); |r'.entries| == |r.entries| && 0 <= r'.next < |r.entries|
  {
    if poss == [] then r else Recorded(RecordAll(r, poss[..|poss| - 1]), poss[|poss| - 1])
  }

  /** The entry written `d + 1` records ago, around the end of the ring. */
  function Back(next: int, d: int, n: int): int {
    if d < next then next - 1 - d else next - 1 - d + n
  }

  /** The ring after `poss` were recorded: the last of them, going back from the write position. */
  ghost predicate Written(r: Ring, n: nat, poss: seq<int>) {
    && |r.entries| == n && 0 <= r.next < n && r.size == (if |poss| < n then |poss| else n)
    && (poss != [] ==> r.lastPos == poss[|poss| - 1])
    && (forall d :: 0 <= d < n && d < |poss| ==> r.entries[Back(r.next, d, n)].pos == poss[|poss| - 1 - d])
    && (forall d :: |poss| <= d < n ==> r.entries[Back(r.next, d, n)].pos == -1)
  }

  lemma {:induction false} AroundTheEnd(next: nat, n: nat)
    requires next < n
    ensures (next + 1) % n == if next + 1 < n then next + 1 else 0
  {
  }

  lemma {:induction false} WrittenStep(r: Ring, n: nat, poss: seq<int>, pos: int)
    requires Written(r, n, poss)
    ensures Written(Recorded(r, pos), n, poss + [pos])
  {
    var r' := Recorded(r, pos);
    AroundTheEnd(r.next, n);
    forall d | 0 <= d < n
      ensures r'.entries[Back(r'.next, d, n)].pos
              == if d == 0 then pos else r.entries[Back(r.next, d - 1, n)].pos
    {
      assert Back(r'.next, d, n) == if d == 0 then r.next else Back(r.next, d - 1, n);
    }
  }

  lemma {:induction false} RecordedBack(n: nat, poss: seq<int>)
    requires 0 < n
    ensures Written(RecordAll(NewRing(n), poss), n, poss)
  {
    if poss != [] {
      var k := |poss| - 1;
      RecordedBack(n, poss[..k]);
      WrittenStep(RecordAll(NewRing(n), poss[..k]), n, poss[..k], poss[k]);
      assert poss == poss[..k] + [poss[k]];
    }
  }

  /** A ring of `n` entries holds exactly the last `n` positions that were recorded, and counts them. */
  lemma {:induction false} LatestKept(n: nat, poss: seq<int>, p: int)
    requires 0 < n && 0 <= p
    ensures RecordAll(NewRing(n), poss).size == if |poss| < n then |poss| else n
    ensures Holds(RecordAll(NewRing(n), poss).entries, p)
            <==> exists j :: 0 <= j < |poss| && |poss| - n <= j && poss[j] == p
  {
    var r := RecordAll(NewRing(n), poss);
    RecordedBack(n, poss);
    if Holds(r.entries, p) {
      var i :| 0 <= i < n && r.entries[i].pos == p;
      var d := if i < r.next then r.next - 1 - i else r.next - 1 - i + n;
      assert Back(r.next, d, n) == i && 0 <= d < |poss|;
      assert poss[|poss| - 1 - d] == p;
    }
    if j :| 0 <= j < |poss| && |poss| - n <= j && poss[j] == p {
      assert r.entries[Back(r.next, |poss| - 1 - j, n)].pos == p;
    }
  }

  /** Pruning keeps exactly the checkpoints up to a position. */
  lemma {:induction false} PrunedHolds(entries: seq<Ckpt>, pos: int, p: int)
    ensures Holds(PrunedEntries(entries, pos), p) <==> p <= pos && Holds(entries, p)
  {
    var es := PrunedEntries(entries, pos);
    if Holds(es, p) {
      var i :| 0 <= i < |es| && es[i].pos == p;
      assert entries[i].pos == p;
    }
    if p <= pos && Holds(entries, p) {
      var i :| 0 <= i < |entries| && entries[i].pos == p;
      assert es[i].pos == p;
    }
  }

  /** Removing the positions [begin, end): checkpoints before them stay, those behind move down by the
      length of the range, those inside are gone. */
  lemma {:induction false} ShiftedHolds(entries: seq<Ckpt>, begin: int, end: int, p: int)
    requires 0 <= begin <= end
    ensures Holds(ShiftedEntries(entries, begin, end), p)
            <==> 0 <= p && Holds(entries, if p < begin then p else p + (end - begin))
  {
    var es, q := ShiftedEntries(entries, begin, end), if p < begin then p else p + (end - begin);
    if Holds(es, p) {
      var i :| 0 <= i < |es| && es[i].pos == p;
      assert entries[i].pos == q;
    }
    if 0 <= p && Holds(entries, q) {
      var i :| 0 <= i < |entries| && entries[i].pos == q;
      assert es[i].pos == p;
    }
  }

  /** After a removal the last position on record is that of the last checkpoint left. */
  lemma {:induction false} ShiftedLast(r: Ring, begin: int, end: int)
    requires 0 <= begin <= end && PositionsOk(r)
    ensures var r' := ShiftedRing(r, begin, end);
            && (forall p :: Holds(r'.entries, p) ==> p <= r'.lastPos)
            && (r'.lastPos < 0 || Holds(r'.entries, r'.lastPos))
  {
    if r.entries != [] {
      var es := ShiftedEntries(r.entries, begin, end);
      ScanMeaning(es, |es|);
      MaxIsHeld(es, |es|);
    }
  }

  lemma {:induction false} MaxIsHeld(entries: seq<Ckpt>, n: nat)
    requires n <= |entries|
    ensures var m := ScanUpTo(entries, n).maxPos; m == -1 || Holds(entries, m)
  {
    if n > 0 { MaxIsHeld(entries, n - 1); }
  }

  // ---- the checkpoint to go back to ----

  /** The live checkpoint with the highest position below the target, first one first; -1 for none. */
  function BestUpTo(entries: seq<Ckpt>, target: int, n: nat): int
    requires n <= |entries|
  {
    if n == 0 then -1
    else
      var best := BestUpTo(entries, target, n - 1);
      if 0 <= entries[n - 1].pos < target && (!(0 <= best < |entries|) || entries[n - 1].pos > entries[best].pos)
          then n - 1 else best
  }

  function BestIn(entries: seq<Ckpt>, target: int): int { BestUpTo(entries, target, |entries|) }

  lemma {:induction false} BestIsHighest(entries: seq<Ckpt>, target: int, n: nat)
    requires n <= |entries|
    ensures var best := BestUpTo(entries, target, n);
            && -1 <= best < n && (best >= 0 ==> 0 <= entries[best].pos < target)
            && forall i :: 0 <= i < n && 0 <= entries[i].pos < target ==>
                best >= 0 && entries[i].pos <= entries[best].pos
  {
    if n > 0 { BestIsHighest(entries, target, n - 1); }
  }

  // ---- the object ----

  class SlotCheckpointStore {
    const entries: array<Ckpt>
    var size: int
    var next: int
    var lastPos: int

    ghost function R(): Ring
      reads this, entries
    {
      Ring(entries[..], size, next, lastPos)
    }

    constructor (n: nat)
      ensures R() == NewRing(n) && RingOk(R()) && fresh(entries)
    {
      entries := new Ckpt[n](_ => Ckpt(-1, map[]));
      size, next, lastPos := 0, 0, -1;
      new;
      assert entries[..] == NewRing(n).entries;
      assert LiveBelow(entries[..], n) == {};
    }

    method Reset()
      modifies this, entries
      ensures R() == ResetRing(old(R()))
    {
      size, next, lastPos := 0, 0, -1;
      for i := 0 to entries.Length
        invariant size == 0 && next == 0 && lastPos == -1
        invariant forall j :: 0 <= j < entries.Length ==>
                    entries[j] == if j < i then Unused(old(entries[j])) else old(entries[j])
      {
        entries[i] := entries[i].(pos := -1);
      }
      assert entries[..] == ResetRing(old(R())).entries;
    }

    /** Claim the next entry; its index, or -1 for a ring without entries. */
    method Record(pos: int) returns (idx: int)
      requires RingOk(R())
      modifies this, entries
      ensures R() == Recorded(old(R()), pos) && RingOk(R())
      ensures idx == if entries.Length == 0 then -1 else old(next)
    {
      RecordedOk(R(), pos);
      if entries.Length == 0 {
        return -1;
      }
      idx := next;
      next := (next + 1) % entries.Length;
      if size < entries.Length {
        size := size + 1;
      }
      entries[idx] := entries[idx].(pos := pos);
      lastPos := pos;
    }

    /** The live checkpoint with the highest position below the target. */
    method BestIndex(target: int) returns (idx: int, pos: int, ok: bool)
      ensures ok <==> exists i :: 0 <= i < entries.Length && 0 <= entries[i].pos < target
      ensures ok ==> 0 <= idx < entries.Length && entries[idx].pos == pos && 0 <= pos < target
                     && forall i :: 0 <= i < entries.Length && entries[i].pos < target ==> entries[i].pos <= pos
      ensures idx == BestIn(entries[..], target) && (!ok ==> idx == -1 && pos == -1)
    {
      idx, pos := -1, -1;
      for i := 0 to entries.Length
        invariant idx < 0 ==> idx == -1 && pos == -1
        invariant idx == BestUpTo(entries[..], target, i)
        invariant idx >= 0 ==> idx < i && entries[idx].pos == pos && 0 <= pos < target
        invariant forall j :: 0 <= j < i && 0 <= entries[j].pos < target ==> idx >= 0 && entries[j].pos <= pos
      {
        if 0 <= entries[i].pos < target && entries[i].pos > pos {
          idx, pos := i, entries[i].pos;
        }
      }
      ok := idx >= 0;
    }

    /** Forget every checkpoint after `pos`. */
    method PruneAfter(pos: int)
      modifies this, entries
      ensures R() == Pruned(old(R()), pos)
    {
      if entries.Length == 0 {
        size, next, lastPos := 0, 0, -1;
        return;
      }
      ghost var es := PrunedEntries(entries[..], pos);
      var live, hole, minPos, minIdx := 0, -1, MAX_INT32, 0;
      ghost var maxPos := -1;
      for i := 0 to entries.Length
        invariant unchanged(this)
        invariant Scan(live, hole, minPos, minIdx, maxPos) == ScanUpTo(es, i)
        invariant forall j :: 0 <= j < entries.Length ==> entries[j] == if j < i then es[j] else old(entries[j])
      {
        if entries[i].pos > pos {
          entries[i] := entries[i].(pos := -1);
        }
        if entries[i].pos >= 0 {
          live := live + 1;
          maxPos := if entries[i].pos > maxPos then entries[i].pos else maxPos;
          if entries[i].pos < minPos {
            minPos, minIdx := entries[i].pos, i;
          }
        } else if hole == -1 {
          hole := i;
        }
      }
      assert entries[..] == es;
      size := live;
      if live == 0 {
        next, lastPos := 0, -1;
        return;
      }
      next, lastPos := if hole != -1 then hole else minIdx, pos;
    }

    /** Forget the checkpoints in [begin, end) and move the later ones down. */
    method ShiftRange(begin: int, end: int)
      modifies this, entries
      ensures R() == ShiftedRing(old(R()), begin, end)
    {
      if entries.Length == 0 {
        size, next, lastPos := 0, 0, -1;
        return;
      }
      ghost var es := ShiftedEntries(entries[..], begin, end);
      var offset := begin - end;
      var live, hole, minPos, maxPos, minIdx := 0, -1, MAX_INT32, -1, 0;
      for i := 0 to entries.Length
        invariant unchanged(this)
        invariant Scan(live, hole, minPos, minIdx, maxPos) == ScanUpTo(es, i)
        invariant forall j :: 0 <= j < entries.Length ==> entries[j] == if j < i then es[j] else old(entries[j])
      {
        if entries[i].pos >= 0 {
          if begin <= entries[i].pos < end {
            entries[i] := entries[i].(pos := -1);
          } else if entries[i].pos >= end {
            entries[i] := entries[i].(pos := entries[i].pos + offset);
          }
        }
        if entries[i].pos >= 0 {
          live := live + 1;
          if entries[i].pos < minPos {
            minPos, minIdx := entries[i].pos, i;
          }
          if entries[i].pos > maxPos {
            maxPos := entries[i].pos;
          }
        } else if hole == -1 {
          hole := i;
        }
      }
      assert entries[..] == es;
      size := live;
      if live == 0 {
        next, lastPos := 0, -1;
        return;
      }
      next, lastPos := if hole != -1 then hole else minIdx, maxPos;
    }
  }
}
