/** The copy-on-write slot table of the recurrent cache as values: which slot a sequence uses, how many
    sequences use each slot, and the stack of the unused ones. */
module SlotTable {
  import opened Wrappers

  datatype Slots = Slots(slotOf: map<int, int>, refs: seq<int>, free: seq<int>)

  ghost function Users(s: Slots, x: int): set<int> {
    set sid | sid in s.slotOf && s.slotOf[sid] == x
  }

  ghost predicate InRange(s: Slots) {
    forall sid :: sid in s.slotOf ==> 0 <= s.slotOf[sid] < |s.refs|
  }

  ghost predicate RefsCount(s: Slots) {
    && InRange(s)
    && (forall x :: 0 <= x < |s.refs| ==> s.refs[x] == |Users(s, x)|)
  }

  /** The stack holds every slot without users once. */
  ghost predicate FreeExact(s: Slots) {
    && (forall k :: 0 <= k < |s.free| ==> 0 <= s.free[k] < |s.refs| && s.refs[s.free[k]] == 0)
    && (forall k, l :: 0 <= k < l < |s.free| ==> s.free[k] != s.free[l])
    && (forall x :: 0 <= x < |s.refs| && s.refs[x] == 0 ==> x in s.free)
  }

  ghost predicate SlotsOk(s: Slots) {
    RefsCount(s) && FreeExact(s)
  }

  // ---- operations ----

  /** All slots unused, the lowest on top. */
  function Initial(n: nat): (s: Slots) {
    Slots(map[], seq(n, _ => 0), seq(n, i => n - 1 - i))
  }

  function Top(s: Slots): int
    requires s.free != []
  {
    s.free[|s.free| - 1]
  }

  function Popped(s: Slots): seq<int>
    requires s.free != []
  {
    s.free[..|s.free| - 1]
  }

  /** A slot of its own for a sequence that has none. */
  function Alloc(s: Slots, sid: int): Slots
    requires s.free != [] && 0 <= Top(s) < |s.refs|
  {
    Slots(s.slotOf[sid := Top(s)], s.refs[Top(s) := 1], Popped(s))
  }

  predicate Shared(s: Slots, sid: int) {
    sid in s.slotOf && 0 <= s.slotOf[sid] < |s.refs| && s.refs[s.slotOf[sid]] > 1
  }

  /** A slot of its own for a sequence that shares one. */
  function Detach(s: Slots, sid: int): Slots
    requires Shared(s, sid) && s.free != [] && 0 <= Top(s) < |s.refs|
  {
    var x := s.slotOf[sid];
    Slots(s.slotOf[sid := Top(s)], s.refs[x := s.refs[x] - 1][Top(s) := 1], Popped(s))
  }

  /** The sequence gives up its slot. */
  function Release(s: Slots, sid: int): Slots
    requires sid in s.slotOf && 0 <= s.slotOf[sid] < |s.refs|
  {
    var x := s.slotOf[sid];
    if s.refs[x] - 1 <= 0 then Slots(s.slotOf - {sid}, s.refs[x := 0], s.free + [x])
    else Slots(s.slotOf - {sid}, s.refs[x := s.refs[x] - 1], s.free)
  }

  /** `dst` joins the slot of `src`. */
  function Share(s: Slots, src: int, dst: int): Slots
    requires src in s.slotOf && 0 <= s.slotOf[src] < |s.refs|
  {
    var x := s.slotOf[src];
    Slots(s.slotOf[dst := x], s.refs[x := s.refs[x] + 1], s.free)
  }

  // ---- every operation keeps the table exact ----

  lemma {:induction false} InitialOk(n: nat)
    ensures SlotsOk(Initial(n))
  {
    var s := Initial(n);
    forall x | 0 <= x < n ensures x in s.free && Users(s, x) == {} {
      assert s.free[n - 1 - x] == x;
    }
  }

  lemma {:induction false} UsersAfter(s: Slots, s': Slots, sid: int, x: int)
    requires forall t :: t != sid ==> (t in s.slotOf <==> t in s'.slotOf)
    requires forall t :: t in s.slotOf && t != sid ==> s'.slotOf[t] == s.slotOf[t]
    ensures |Users(s', x)| == |Users(s, x)|
              - (if sid in s.slotOf && s.slotOf[sid] == x then 1 else 0)
              + (if sid in s'.slotOf && s'.slotOf[sid] == x then 1 else 0)
  {
    forall t | t != sid ensures t in Users(s', x) <==> t in Users(s, x) {
      assert t in s.slotOf <==> t in s'.slotOf;
    }
    assert Users(s', x) - {sid} == Users(s, x) - {sid};
    CardWithout(Users(s, x), sid);
    CardWithout(Users(s', x), sid);
  }

  lemma {:induction false} AllocOk(s: Slots, sid: int)
    requires SlotsOk(s) && s.free != [] && sid !in s.slotOf
    ensures SlotsOk(Alloc(s, sid))
  {
    var s' := Alloc(s, sid);
    forall x | 0 <= x < |s.refs| ensures s'.refs[x] == |Users(s', x)| {
      UsersAfter(s, s', sid, x);
    }
    PoppedOk(s);
  }

  lemma {:induction false} PoppedOk(s: Slots)
    requires FreeExact(s) && s.free != []
    ensures Top(s) !in Popped(s)
    ensures forall x :: x in s.free ==> x == Top(s) || x in Popped(s)
  {
    assert s.free == Popped(s) + [Top(s)];
  }

  lemma {:induction false} DetachOk(s: Slots, sid: int)
    requires SlotsOk(s) && Shared(s, sid) && s.free != []
    ensures SlotsOk(Detach(s, sid))
    ensures forall t :: t in s.slotOf && t != sid ==> Detach(s, sid).slotOf[t] != Top(s)
  {
    var s' := Detach(s, sid);
    forall x | 0 <= x < |s.refs| ensures s'.refs[x] == |Users(s', x)| {
      UsersAfter(s, s', sid, x);
    }
    PoppedOk(s);
    forall t | t in s.slotOf ensures s.slotOf[t] != Top(s) {
      assert t in Users(s, s.slotOf[t]);
    }
  }

  lemma {:induction false} ReleaseOk(s: Slots, sid: int)
    requires SlotsOk(s) && sid in s.slotOf
    ensures SlotsOk(Release(s, sid))
  {
    var s' := Release(s, sid);
    var x := s.slotOf[sid];
    assert sid in Users(s, x);
    forall y | 0 <= y < |s.refs| ensures s'.refs[y] == |Users(s', y)| {
      UsersAfter(s, s', sid, y);
    }
  }

  lemma {:induction false} ShareOk(s: Slots, src: int, dst: int)
    requires SlotsOk(s) && src in s.slotOf && dst !in s.slotOf
    ensures SlotsOk(Share(s, src, dst))
  {
    var s' := Share(s, src, dst);
    assert src in Users(s, s.slotOf[src]);
    forall x | 0 <= x < |s.refs| ensures s'.refs[x] == |Users(s', x)| {
      UsersAfter(s, s', dst, x);
    }
  }

  // ---- a slot can always be found ----

  ghost function Below(s: Slots, n: int): set<int> {
    set sid | sid in s.slotOf && s.slotOf[sid] < n
  }

  ghost function Sum(refs: seq<int>): int {
    if refs == [] then 0 else Sum(refs[..|refs| - 1]) + refs[|refs| - 1]
  }

  lemma {:induction false} SumCounts(s: Slots, n: nat)
    requires RefsCount(s) && n <= |s.refs|
    ensures Sum(s.refs[..n]) == |Below(s, n)|
  {
    if n == 0 {
      forall sid ensures sid !in Below(s, 0) {
        if sid in s.slotOf { assert 0 <= s.slotOf[sid]; }
      }
      assert Below(s, 0) == {};
    } else {
      SumCounts(s, n - 1);
      assert s.refs[..n][..n - 1] == s.refs[..n - 1];
      assert Below(s, n) == Below(s, n - 1) + Users(s, n - 1);
      assert Below(s, n - 1) !! Users(s, n - 1);
    }
  }

  lemma {:induction false} SumAtLeast(refs: seq<int>, n: nat)
    requires n <= |refs| && forall x :: 0 <= x < |refs| ==> 1 <= refs[x]
    ensures Sum(refs[..n]) >= n
    ensures (exists x :: 0 <= x < n && refs[x] > 1) ==> Sum(refs[..n]) > n
  {
    if n > 0 {
      SumAtLeast(refs, n - 1);
      assert refs[..n][..n - 1] == refs[..n - 1];
    }
  }

  /** With at most as many sequences as slots, a new sequence and a sharing sequence both find
      an unused slot. */
  lemma {:induction false} AllocNeverFails(s: Slots)
    requires SlotsOk(s)
    requires |s.slotOf.Keys| < |s.refs|
             || (|s.slotOf.Keys| <= |s.refs| && exists x :: 0 <= x < |s.refs| && s.refs[x] > 1)
    ensures s.free != []
  {
    if s.free == [] {
      forall x | 0 <= x < |s.refs| ensures 1 <= s.refs[x] {
        assert s.refs[x] == |Users(s, x)|;
      }
      SumCounts(s, |s.refs|);
      SumAtLeast(s.refs, |s.refs|);
      assert s.refs[..|s.refs|] == s.refs;
      SubsetCard(Below(s, |s.refs|), s.slotOf.Keys);
    }
  }
}
