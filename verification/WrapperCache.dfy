/** Several causal caches driven as one; a batch that one of them refuses is unwound from the
    caches that had already taken it. */
module WrapperCache {
  import opened CacheCells
  import opened CausalRanges
  import opened CausalView
  import opened CausalRuns
  import opened CausalCache

  /** The removals that unwind the first `n` tokens of a batch. */
  ghost function Unwound(m: Meta, batch: seq<Entry>, n: nat): (r: Meta)
    requires |m.cells| <= MAX_INT && n <= |batch|
    ensures |r.cells| == |m.cells|
  {
    if n == 0 then m
    else RemovedMeta(Unwound(m, batch, n - 1), batch[n - 1].sid, batch[n - 1].pos, MAX_INT32)
  }

  lemma {:induction false} UnwoundSound(m: Meta, batch: seq<Entry>, n: nat)
    requires Sound(m) && n <= |batch| && forall e :: e in batch ==> 0 <= e.pos < MAX_INT32
    ensures Sound(Unwound(m, batch, n))
  {
    if n > 0 {
      UnwoundSound(m, batch, n - 1);
      assert batch[n - 1] in batch;
      RemovedSound(Unwound(m, batch, n - 1), batch[n - 1].sid, batch[n - 1].pos, MAX_INT32);
    }
  }

  /** Whether a token of the batch lies at or before position `p` of `sid`. */
  ghost predicate Undone(batch: seq<Entry>, n: nat, sid: int, p: int)
    requires n <= |batch|
  {
    exists k :: 0 <= k < n && batch[k].sid == sid && batch[k].pos <= p
  }

  /** Unwinding removes exactly the entries at or after a token of the batch, from every cell,
      and moves nothing. */
  lemma {:induction false} UnwoundExactly(m: Meta, batch: seq<Entry>, n: nat, i: int, sid: int)
    requires Sound(m) && n <= |batch| && 0 <= i < |m.cells|
    requires forall e :: e in batch ==> 0 <= e.pos < MAX_INT32
    ensures var c := Unwound(m, batch, n).cells[i];
            (sid in c.seqs <==> sid in m.cells[i].seqs && !Undone(batch, n, sid, m.cells[i].pos))
            && (c.seqs != {} ==> c.pos == m.cells[i].pos)
  {
    if n > 0 {
      var before := Unwound(m, batch, n - 1);
      UnwoundExactly(m, batch, n - 1, i, sid);
      UnwoundSound(m, batch, n - 1);
      var e := batch[n - 1];
      TruncateNeverBlocked(before, e.sid, e.pos);
      var c, d := before.cells[i], Unwound(m, batch, n).cells[i];
      assert d == RemoveCell(c, e.sid, e.pos, MAX_INT32);
      assert c.seqs != {} ==> c.pos < MAX_INT32;
      assert Undone(batch, n, sid, m.cells[i].pos)
          <==> Undone(batch, n - 1, sid, m.cells[i].pos) || (e.sid == sid && e.pos <= m.cells[i].pos);
      assert sid in c.seqs ==> c.pos == m.cells[i].pos;
      assert d.seqs <= c.seqs;
    }
  }

  /** A cache that took the batch and was then unwound holds exactly what it held before the batch,
      up to what had slid out of its windows. */
  lemma {:induction false} UnwindRestores(cfg: Config, ids: set<int>, m: Meta, v: View, batch: seq<Entry>, m': Meta,
                                          locs: seq<int>)
    requires Inv(cfg, ids, m, v) && Continues(v, batch) && forall e :: e in batch ==> 0 <= e.pos < MAX_INT32
    requires Outcome(cfg, m, batch, true, m', locs)
    ensures |m'.cells| <= MAX_INT && Sound(m')
    ensures Rep(Unwound(m', batch, |batch|).cells, SlideView(v, cfg.memory))
  {
    var s, sv := SlidMeta(m, batch, cfg.memory), SlideView(v, cfg.memory);
    SlideRefines(m, v, batch, cfg.memory);
    SlidSound(m, batch, cfg.memory);
    SlideContinues(v, batch, cfg.memory);
    PlaceRefines(s.cells, sv, batch, locs, |batch|);
    PlacedSound(s, batch, locs, |batch|);
    UnwindRep(m', sv, batch);
  }

  /** One cell before and after: what remains are the entries of the old view. */
  lemma {:induction false} UnwoundCell(m: Meta, v: View, batch: seq<Entry>, i: int, sid: int)
    requires Sound(m) && Continues(v, batch) && InSpans(m.cells, GrowView(v, batch, |batch|))
    requires 0 <= i < |m.cells| && forall e :: e in batch ==> 0 <= e.pos < MAX_INT32
    ensures var c := Unwound(m, batch, |batch|).cells[i];
            (sid in c.seqs <==> sid in m.cells[i].seqs && m.cells[i].pos < At(v, sid).hi)
            && (sid in c.seqs ==> c.pos == m.cells[i].pos && At(v, sid).lo <= c.pos)
  {
    GrowFacts(v, batch, |batch|, sid);
    UnwoundExactly(m, batch, |batch|, i, sid);
    if sid in m.cells[i].seqs {
      UndoneIffNew(v, batch, sid, m.cells[i].pos);
    }
  }

  lemma {:induction false} UnwindRep(m: Meta, v: View, batch: seq<Entry>)
    requires Sound(m) && Continues(v, batch) && Rep(m.cells, GrowView(v, batch, |batch|))
    requires forall e :: e in batch ==> 0 <= e.pos < MAX_INT32
    ensures Rep(Unwound(m, batch, |batch|).cells, v)
  {
    var cells := Unwound(m, batch, |batch|).cells;
    forall i, sid | 0 <= i < |cells| && sid in cells[i].seqs
      ensures At(v, sid).lo <= cells[i].pos < At(v, sid).hi
    {
      UnwoundCell(m, v, batch, i, sid);
    }
    forall i, j, sid | 0 <= i < j < |cells| && sid in cells[i].seqs && sid in cells[j].seqs
      ensures cells[i].pos != cells[j].pos
    {
      UnwoundCell(m, v, batch, i, sid);
      UnwoundCell(m, v, batch, j, sid);
    }
    forall sid, p | At(v, sid).lo <= p < At(v, sid).hi ensures Has(cells, sid, p) {
      GrowFacts(v, batch, |batch|, sid);
      assert Has(m.cells, sid, p);
      var i :| 0 <= i < |m.cells| && sid in m.cells[i].seqs && m.cells[i].pos == p;
      UnwoundCell(m, v, batch, i, sid);
    }
  }

  /** Among the positions the grown interval holds, those at or after a token are the new ones. */
  lemma {:induction false} UndoneIffNew(v: View, batch: seq<Entry>, sid: int, p: int)
    requires Continues(v, batch) && p < At(GrowView(v, batch, |batch|), sid).hi
    ensures Undone(batch, |batch|, sid, p) <==> At(v, sid).hi <= p
  {
    GrowFacts(v, batch, |batch|, sid);
    assert batch[..|batch|] == batch;
    if At(v, sid).hi <= p {
      assert Entry(sid, p) in batch;
    }
    if Undone(batch, |batch|, sid, p) {
      var k :| 0 <= k < |batch| && batch[k].sid == sid && batch[k].pos <= p;
      BatchIsNew(v, batch, batch[k]);
    }
  }

  /** The batch was stored. */
  ghost predicate Took(cfg: Config, m: Meta, batch: seq<Entry>, m': Meta)
    requires |m.cells| <= MAX_INT
  {
    |m'.cells| <= MAX_INT && exists locs :: Outcome(cfg, m, batch, true, m', locs)
  }

  /** There was no room: only the windows slid. */
  ghost predicate Refused(cfg: Config, m: Meta, batch: seq<Entry>, m': Meta)
    requires |m.cells| <= MAX_INT
  {
    exists locs :: Outcome(cfg, m, batch, false, m', locs)
  }

  /** The pass was begun: the batch was stored, or nothing changed because it only reserves memory. */
  ghost predicate Begun(cfg: Config, m: Meta, batch: seq<Entry>, reserve: bool, m': Meta)
    requires |m.cells| <= MAX_INT
  {
    |m'.cells| <= MAX_INT && if reserve then m' == m else Took(cfg, m, batch, m')
  }

  class Wrapper {
    const caches: seq<Causal>
    var curType: int

    ghost predicate Valid()
      reads caches, set c <- caches :: c.cells
    {
      && (forall i :: 0 <= i < |caches| ==> caches[i].Valid() && caches[i].cfg.maxBatch > 0)
      && (forall i, j :: 0 <= i < j < |caches| ==> caches[i] != caches[j] && caches[i].cells != caches[j].cells)
    }

    constructor (caches: seq<Causal>)
      requires forall i :: 0 <= i < |caches| ==> caches[i].Valid() && caches[i].cfg.maxBatch > 0
      requires forall i, j :: 0 <= i < j < |caches| ==> caches[i] != caches[j] && caches[i].cells != caches[j].cells
      ensures Valid() && this.caches == caches
    {
      this.caches, this.curType := caches, 0;
    }

    /** Undo the batch in one cache, token by token. */
    method UnwindOne(j: nat, batch: seq<Entry>)
      requires Valid() && j < |caches| && forall e :: e in batch ==> 0 <= e.pos < MAX_INT32
      modifies caches[j], caches[j].cells
      ensures Valid() && |old(caches[j].M()).cells| <= MAX_INT
      ensures caches[j].M() == Unwound(old(caches[j].M()), batch, |batch|)
      ensures forall k :: 0 <= k < |caches| && k != j ==> caches[k].M() == old(caches[k].M())
    {
      var c := caches[j];
      ghost var m := c.M();
      for k := 0 to |batch|
        invariant c.Valid() && c.M() == Unwound(m, batch, k)
      {
        assert batch[k] in batch;
        var r, upTo := c.Remove(batch[k].sid, batch[k].pos, MAX_INT32);
      }
    }

    /** Undo the batch in the first `n` caches, the last one first. */
    method Unwind(n: nat, batch: seq<Entry>)
      requires Valid() && n <= |caches| && forall e :: e in batch ==> 0 <= e.pos < MAX_INT32
      modifies caches, set c <- caches :: c.cells
      ensures Valid()
      ensures forall j :: 0 <= j < n ==>
                |old(caches[j].M()).cells| <= MAX_INT
                && caches[j].M() == Unwound(old(caches[j].M()), batch, |batch|)
      ensures forall j :: n <= j < |caches| ==> caches[j].M() == old(caches[j].M())
    {
      var j := n;
      while j > 0
        invariant 0 <= j <= n && Valid()
        invariant forall k :: 0 <= k < |caches| ==> |old(caches[k].M()).cells| <= MAX_INT
        invariant forall k :: 0 <= k < |caches| ==>
                    caches[k].M() == if j <= k < n then Unwound(old(caches[k].M()), batch, |batch|)
                                     else old(caches[k].M())
      {
        j := j - 1;
        UnwindOne(j, batch);
      }
    }

    /** Begin the pass in one cache. */
    method StartOne(i: nat, batch: seq<Entry>, reserve: bool) returns (ok: bool)
      requires Valid() && i < |caches| && batch != [] && forall e :: e in batch ==> 0 <= e.pos < MAX_INT32
      modifies caches[i], caches[i].cells
      ensures Valid() && |old(caches[i].M()).cells| <= MAX_INT && (reserve ==> ok)
      ensures if ok then Begun(caches[i].cfg, old(caches[i].M()), batch, reserve, caches[i].M())
              else Refused(caches[i].cfg, old(caches[i].M()), batch, caches[i].M())
      ensures forall k :: 0 <= k < |caches| && k != i ==> caches[k].M() == old(caches[k].M())
    {
      var c := caches[i];
      ghost var m := c.M();
      ok := c.StartForward(batch, reserve);
      assert !reserve ==> Outcome(c.cfg, m, batch, ok, c.M(), c.curLoc);
    }

    /** Remove in one cache. */
    method RemoveOne(i: nat, sid: int, begin: int, end: int) returns (r: RemoveResult)
      requires Valid() && i < |caches| && 0 <= begin <= end <= MAX_INT32
      modifies caches[i], caches[i].cells
      ensures Valid() && |old(caches[i].M()).cells| <= MAX_INT
      ensures caches[i].M() == RemovedMeta(old(caches[i].M()), sid, begin, end)
      ensures end == MAX_INT32 ==> r == Removed
      ensures forall k :: 0 <= k < |caches| && k != i ==> caches[k].M() == old(caches[k].M())
    {
      ghost var upTo;
      r, upTo := caches[i].Remove(sid, begin, end);
    }

    /** Begin the pass in every cache, or in none: when one refuses, those before it are unwound. */
    method StartForward(batch: seq<Entry>, reserve: bool)
      returns (ok: bool, ghost failed: nat, ghost taken: seq<Meta>)
      requires Valid() && batch != [] && forall e :: e in batch ==> 0 <= e.pos < MAX_INT32
      modifies this, caches, set c <- caches :: c.cells
      ensures Valid() && failed <= |caches| && |taken| == failed && (ok <==> failed == |caches|) && (reserve ==> ok)
      ensures forall j :: 0 <= j < |caches| ==> |old(caches[j].M()).cells| <= MAX_INT
      ensures forall j :: 0 <= j < failed ==>
                Begun(caches[j].cfg, old(caches[j].M()), batch, reserve, taken[j])
      ensures forall j :: 0 <= j < failed ==> |taken[j].cells| <= MAX_INT
      ensures forall j :: 0 <= j < failed ==>
                caches[j].M() == if ok then taken[j] else Unwound(taken[j], batch, |batch|)
      ensures !ok ==> Refused(caches[failed].cfg, old(caches[failed].M()), batch, caches[failed].M())
      ensures forall j :: failed < j < |caches| ==> caches[j].M() == old(caches[j].M())
      ensures ok ==> curType == 0
    {
      taken := [];
      for i := 0 to |caches|
        invariant Valid() && |taken| == i
        invariant forall j :: 0 <= j < |caches| ==> |old(caches[j].M()).cells| <= MAX_INT
        invariant forall j :: 0 <= j < i ==> Begun(caches[j].cfg, old(caches[j].M()), batch, reserve, taken[j])
        invariant forall j :: 0 <= j < |caches| ==>
                    caches[j].M() == if j < i then taken[j] else old(caches[j].M())
      {
        var stored := StartOne(i, batch, reserve);
        if !stored {
          Unwind(i, batch);
          return false, i, taken;
        }
        taken := taken + [caches[i].M()];
      }
      curType := 0;
      return true, |caches|, taken;
    }

    /** A position is safe to resume from only if it is safe in every cache. */
    method CanResume(sid: int, pos: int) returns (r: bool)
      requires Valid()
      ensures r <==> forall c :: c in caches ==> CanResumeCells(c.cfg, c.cells[..], sid, pos)
    {
      for i := 0 to |caches|
        invariant forall j :: 0 <= j < i ==> CanResumeCells(caches[j].cfg, caches[j].cells[..], sid, pos)
      {
        var one := caches[i].CanResume(sid, pos);
        if !one {
          assert caches[i] in caches;
          return false;
        }
      }
      return true;
    }

    /** Remove in one cache after the other, up to the first that fails; truncation never does. */
    method Remove(sid: int, begin: int, end: int) returns (r: RemoveResult, ghost failed: nat)
      requires Valid() && 0 <= begin <= end <= MAX_INT32
      modifies caches, set c <- caches :: c.cells
      ensures Valid() && failed <= |caches| && (r == Removed <==> failed == |caches|)
      ensures end == MAX_INT32 ==> r == Removed
      ensures forall j :: 0 <= j < |caches| ==> |old(caches[j].M()).cells| <= MAX_INT
      ensures forall j :: 0 <= j < |caches| ==>
                caches[j].M() == if j <= failed then RemovedMeta(old(caches[j].M()), sid, begin, end)
                                 else old(caches[j].M())
    {
      for i := 0 to |caches|
        invariant Valid()
        invariant forall j :: 0 <= j < |caches| ==> |old(caches[j].M()).cells| <= MAX_INT
        invariant forall j :: 0 <= j < |caches| ==>
                    caches[j].M() == if j < i then RemovedMeta(old(caches[j].M()), sid, begin, end)
                                     else old(caches[j].M())
      {
        r := RemoveOne(i, sid, begin, end);
        if r != Removed {
          return r, i;
        }
      }
      return Removed, |caches|;
    }
  }

  // ---- the caches and their views ----

  /** The j-th cache holds what its view says. */
  ghost predicate InStep(w: Wrapper, j: nat, ids: set<int>, v: View)
    requires j < |w.caches|
    reads w, w.caches, set c <- w.caches :: c.cells
  {
    Inv(w.caches[j].cfg, ids, w.caches[j].M(), v)
  }

  lemma {:induction false} SlidInv(cfg: Config, ids: set<int>, m: Meta, v: View, batch: seq<Entry>)
    requires Inv(cfg, ids, m, v) && Continues(v, batch)
    ensures Inv(cfg, ids, SlidMeta(m, batch, cfg.memory), SlideView(v, cfg.memory))
  {
    SlideRefines(m, v, batch, cfg.memory);
    SlidSound(m, batch, cfg.memory);
  }

  lemma {:induction false} UnwoundInv(cfg: Config, ids: set<int>, m: Meta, v: View, batch: seq<Entry>, m': Meta)
    requires Inv(cfg, ids, m, v) && Continues(v, batch) && forall e :: e in batch ==> 0 <= e.pos < MAX_INT32
    requires |m.cells| <= MAX_INT && Took(cfg, m, batch, m')
    ensures Inv(cfg, ids, Unwound(m', batch, |batch|), SlideView(v, cfg.memory))
  {
    var locs :| Outcome(cfg, m, batch, true, m', locs);
    UnwindRestores(cfg, ids, m, v, batch, m', locs);
    SlidInv(cfg, ids, m, v, batch);
    UnwoundSound(m', batch, |batch|);
  }

  /** Where a cache that is permitted the batch may end up: with the batch, or slid and without it. */
  lemma {:induction false} BegunInv(cfg: Config, ids: set<int>, m: Meta, v: View, batch: seq<Entry>, m': Meta)
    requires Inv(cfg, ids, m, v) && Allowed(cfg, ids, v, Forward(batch)) && |m.cells| <= MAX_INT
    requires Took(cfg, m, batch, m')
    ensures Inv(cfg, ids, m', ViewStep(cfg, v, Forward(batch)))
  {
    var locs :| Outcome(cfg, m, batch, true, m', locs);
    ForwardKeepsInv(cfg, ids, m, v, batch, locs);
  }

  /** Every cache is in step as it is after the batch was refused by cache `failed`. */
  ghost predicate BackInStep(w: Wrapper, ids: set<int>, vs: seq<View>, failed: nat)
    requires failed < |vs| == |w.caches|
    reads w, w.caches, set c <- w.caches :: c.cells
  {
    && (forall j :: 0 <= j <= failed ==> InStep(w, j, ids, SlideView(vs[j], w.caches[j].cfg.memory)))
    && (forall j :: failed < j < |vs| ==> InStep(w, j, ids, vs[j]))
  }

  lemma {:induction false} RefusedNotAllowed(cfg: Config, ids: set<int>, m: Meta, v: View, batch: seq<Entry>, m': Meta)
    requires Inv(cfg, ids, m, v) && Continues(v, batch) && |m.cells| <= MAX_INT && Refused(cfg, m, batch, m')
    ensures !Allowed(cfg, ids, v, Forward(batch)) && Inv(cfg, ids, m', SlideView(v, cfg.memory))
  {
    if Allowed(cfg, ids, v, Forward(batch)) { NeverFull(cfg, ids, m, v, batch); }
    SlidInv(cfg, ids, m, v, batch);
  }

  /** After the unwinding each cache is where it was, slid. */
  lemma {:induction false} AllUnwound(w: Wrapper, batch: seq<Entry>, ids: set<int>, vs: seq<View>, before: seq<Meta>,
                                      taken: seq<Meta>)
    requires |taken| <= |before| == |vs| == |w.caches| && forall e :: e in batch ==> 0 <= e.pos < MAX_INT32
    requires forall j :: 0 <= j < |taken| ==> Inv(w.caches[j].cfg, ids, before[j], vs[j]) && Continues(vs[j], batch)
    requires forall j :: 0 <= j < |taken| ==>
               |before[j].cells| <= MAX_INT && Took(w.caches[j].cfg, before[j], batch, taken[j])
    requires forall j :: 0 <= j < |taken| ==> |taken[j].cells| <= MAX_INT
    requires forall j :: 0 <= j < |taken| ==> w.caches[j].M() == Unwound(taken[j], batch, |batch|)
    ensures forall j :: 0 <= j < |taken| ==> InStep(w, j, ids, SlideView(vs[j], w.caches[j].cfg.memory))
  {
    forall j | 0 <= j < |taken| ensures InStep(w, j, ids, SlideView(vs[j], w.caches[j].cfg.memory)) {
      UnwoundInv(w.caches[j].cfg, ids, before[j], vs[j], batch, taken[j]);
    }
  }

  /** What the caches hold. */
  ghost function Metas(w: Wrapper): (ms: seq<Meta>)
    reads w, w.caches, set c <- w.caches :: c.cells
    ensures |ms| == |w.caches| && forall j :: 0 <= j < |ms| ==> ms[j] == w.caches[j].M()
  {
    seq(|w.caches|, j requires 0 <= j < |w.caches| reads w, w.caches, set c <- w.caches :: c.cells => w.caches[j].M())
  }

  /** Starting a batch in caches that are in step with their views. When every cache permits it, every
      cache takes it. When one has no room, that one and those before it end in step with their slid
      views, as if the batch had never come, and those after it are as they were. */
  method StartInStep(w: Wrapper, batch: seq<Entry>, ghost ids: set<int>, ghost vs: seq<View>)
    returns (ok: bool, ghost failed: nat)
    requires w.Valid() && |vs| == |w.caches| && batch != [] && forall e :: e in batch ==> 0 <= e.pos < MAX_INT32
    requires forall j :: 0 <= j < |vs| ==> InStep(w, j, ids, vs[j]) && Continues(vs[j], batch)
    modifies w, w.caches, set c <- w.caches :: c.cells
    ensures w.Valid()
    ensures (forall j :: 0 <= j < |vs| ==> Allowed(w.caches[j].cfg, ids, vs[j], Forward(batch))) ==> ok
    ensures ok ==> forall j :: 0 <= j < |vs| && Allowed(w.caches[j].cfg, ids, vs[j], Forward(batch)) ==>
              InStep(w, j, ids, ViewStep(w.caches[j].cfg, vs[j], Forward(batch)))
    ensures !ok ==> failed < |vs| && !Allowed(w.caches[failed].cfg, ids, vs[failed], Forward(batch))
                    && BackInStep(w, ids, vs, failed)
  {
    ghost var taken;
    ghost var before := Metas(w);
    ok, failed, taken := w.StartForward(batch, false);
    if ok {
      forall j | 0 <= j < |vs| && Allowed(w.caches[j].cfg, ids, vs[j], Forward(batch))
        ensures InStep(w, j, ids, ViewStep(w.caches[j].cfg, vs[j], Forward(batch)))
      {
        BegunInv(w.caches[j].cfg, ids, old(w.caches[j].M()), vs[j], batch, taken[j]);
      }
    } else {
      RefusedNotAllowed(w.caches[failed].cfg, ids, old(w.caches[failed].M()), vs[failed], batch,
                        w.caches[failed].M());
      AllUnwound(w, batch, ids, vs, before, taken);
    }
  }
}
