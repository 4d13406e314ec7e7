/** The smallest capacity factor at which the packer still places the most layers, for one group
    of devices after the other. */
module BestFit {
  import opened GreedyFit

  // ---- devices in groups ----

  /** What devices are grouped by. */
  datatype Key = Speed(integrated: bool) | Lib(library: string)

  /** Devices grouped by a key, groups in the order of their first device. */
  datatype Groups = Groups(keys: seq<Key>, lists: seq<seq<Device>>)

  function IndexOf(keys: seq<Key>, k: Key): (i: nat)
    ensures i <= |keys| && (i < |keys| ==> keys[i] == k) && (i == |keys| ==> k !in keys)
  {
    if keys == [] then 0 else if keys[0] == k then 0 else 1 + IndexOf(keys[1..], k)
  }

  function AddTo(g: Groups, k: Key, d: Device): (r: Groups)
    requires |g.keys| == |g.lists|
    ensures |r.keys| == |r.lists|
  {
    var i := IndexOf(g.keys, k);
    if i < |g.keys| then g.(lists := g.lists[i := g.lists[i] + [d]])
    else Groups(g.keys + [k], g.lists + [[d]])
  }

  function GroupUpTo(l: seq<Device>, key: Device -> Key, n: nat): (g: Groups)
    requires n <= |l|
    ensures |g.keys| == |g.lists|
  {
    if n == 0 then Groups([], []) else AddTo(GroupUpTo(l, key, n - 1), key(l[n - 1]), l[n - 1])
  }

  ghost predicate DistinctIds(l: seq<Device>) {
    forall i, j :: 0 <= i < j < |l| ==> l[i].id != l[j].id
  }

  /** Non-empty groups with one key each that together hold exactly the first `n` devices. */
  ghost predicate Grouped(l: seq<Device>, key: Device -> Key, n: nat, g: Groups)
    requires n <= |l|
  {
    && |g.keys| == |g.lists| && DistinctKeys(g.keys) && GroupsOk(l, key, n, g)
    && (forall k :: 0 <= k < n ==> InSome(l[k], g.lists))
  }

  ghost predicate GroupsOk(l: seq<Device>, key: Device -> Key, n: nat, g: Groups)
    requires n <= |l| && |g.keys| == |g.lists|
  {
    forall i :: 0 <= i < |g.lists| ==> GroupOk(l, key, n, g.keys[i], g.lists[i])
  }

  ghost predicate DistinctKeys(keys: seq<Key>) {
    forall i, j :: 0 <= i < j < |keys| ==> keys[i] != keys[j]
  }

  ghost predicate InSome(d: Device, lists: seq<seq<Device>>) {
    exists i :: 0 <= i < |lists| && d in lists[i]
  }

  ghost predicate GroupOk(l: seq<Device>, key: Device -> Key, n: nat, k: Key, group: seq<Device>)
    requires n <= |l|
  {
    && group != [] && DistinctIds(group)
    && forall d :: d in group ==> d in l[..n] && key(d) == k
  }

  lemma {:induction false} GroupStep(l: seq<Device>, key: Device -> Key, n: nat, k: Key, group: seq<Device>)
    requires n < |l| && DistinctIds(l) && key(l[n]) == k && (group == [] || GroupOk(l, key, n, k, group))
    ensures GroupOk(l, key, n + 1, k, group + [l[n]])
  {
    assert l[..n + 1] == l[..n] + [l[n]];
    forall i | 0 <= i < |group| ensures group[i].id != l[n].id {
      assert group[i] in l[..n];
      var j :| 0 <= j < n && l[..n][j] == group[i];
      assert l[j] == group[i];
    }
  }

  lemma {:induction false} AddedGroup(l: seq<Device>, key: Device -> Key, n: nat, g: Groups, i: nat)
    requires n < |l| && DistinctIds(l) && Grouped(l, key, n, g) && i < |AddTo(g, key(l[n]), l[n]).lists|
    ensures GroupOk(l, key, n + 1, AddTo(g, key(l[n]), l[n]).keys[i], AddTo(g, key(l[n]), l[n]).lists[i])
  {
    var at := IndexOf(g.keys, key(l[n]));
    assert l[..n + 1] == l[..n] + [l[n]];
    if i < |g.lists| { assert GroupOk(l, key, n, g.keys[i], g.lists[i]); }
    if i == at { GroupStep(l, key, n, key(l[n]), if at < |g.keys| then g.lists[at] else []); }
  }

  lemma {:induction false} AddedCovers(l: seq<Device>, key: Device -> Key, n: nat, g: Groups, k: nat)
    requires n < |l| && Grouped(l, key, n, g) && k <= n
    ensures InSome(l[k], AddTo(g, key(l[n]), l[n]).lists)
  {
    var r := AddTo(g, key(l[n]), l[n]);
    if k < n {
      var i :| 0 <= i < |g.lists| && l[k] in g.lists[i];
      assert l[k] in r.lists[i];
    } else {
      assert l[k] in r.lists[IndexOf(g.keys, key(l[n]))];
    }
  }

  lemma {:induction false} AddKeeps(l: seq<Device>, key: Device -> Key, n: nat, g: Groups)
    requires 0 < n <= |l| && DistinctIds(l) && Grouped(l, key, n - 1, g)
    ensures Grouped(l, key, n, AddTo(g, key(l[n - 1]), l[n - 1]))
  {
    var r := AddTo(g, key(l[n - 1]), l[n - 1]);
    forall i | 0 <= i < |r.lists| ensures GroupOk(l, key, n, r.keys[i], r.lists[i]) {
      AddedGroup(l, key, n - 1, g, i);
    }
    forall k | 0 <= k < n ensures InSome(l[k], r.lists) {
      AddedCovers(l, key, n - 1, g, k);
    }
  }

  lemma {:induction false} GroupingOk(l: seq<Device>, key: Device -> Key, n: nat)
    requires n <= |l| && DistinctIds(l)
    ensures Grouped(l, key, n, GroupUpTo(l, key, n))
  {
    if n > 0 {
      GroupingOk(l, key, n - 1);
      AddKeeps(l, key, n, GroupUpTo(l, key, n - 1));
    }
  }

  /** The devices with one key, in their order. */
  function Select(l: seq<Device>, key: Device -> Key, k: Key): seq<Device> {
    if l == [] then []
    else Select(l[..|l| - 1], key, k) + if key(l[|l| - 1]) == k then [l[|l| - 1]] else []
  }

  /** The keys in the order in which they first appear. */
  function FirstKeys(l: seq<Device>, key: Device -> Key): seq<Key> {
    if l == [] then []
    else
      var front, k := FirstKeys(l[..|l| - 1], key), key(l[|l| - 1]);
      if k in front then front else front + [k]
  }

  lemma {:induction false} OtherKeys(l: seq<Device>, key: Device -> Key, k: Key)
    requires k !in FirstKeys(l, key)
    ensures Select(l, key, k) == []
  {
    if l != [] { OtherKeys(l[..|l| - 1], key, k); }
  }

  /** The groups are those of the keys as they first appear, each with its devices in their order. */
  lemma {:induction false} GroupsInOrder(l: seq<Device>, key: Device -> Key, n: nat)
    requires n <= |l|
    ensures var g := GroupUpTo(l, key, n);
            && g.keys == FirstKeys(l[..n], key)
            && forall i :: 0 <= i < |g.lists| ==> g.lists[i] == Select(l[..n], key, g.keys[i])
    ensures DistinctKeys(GroupUpTo(l, key, n).keys)
  {
    if n > 0 {
      var d := l[n - 1];
      GroupsInOrder(l, key, n - 1);
      assert l[..n][..n - 1] == l[..n - 1];
      if key(d) !in GroupUpTo(l, key, n - 1).keys { OtherKeys(l[..n - 1], key, key(d)); }
    }
  }

  /** No device appears in two groups. */
  lemma {:induction false} GroupsApart(l: seq<Device>, key: Device -> Key, i: nat, j: nat, d: Device, e: Device)
    requires DistinctIds(l) && i < j < |GroupUpTo(l, key, |l|).lists|
    requires d in GroupUpTo(l, key, |l|).lists[i] && e in GroupUpTo(l, key, |l|).lists[j]
    ensures d.id != e.id
  {
    GroupingOk(l, key, |l|);
    var g := GroupUpTo(l, key, |l|);
    assert GroupOk(l, key, |l|, g.keys[i], g.lists[i]) && GroupOk(l, key, |l|, g.keys[j], g.lists[j]);
    assert l[..|l|] == l;
    var a :| 0 <= a < |l| && l[a] == d;
    var b :| 0 <= b < |l| && l[b] == e;
  }

  const Integrated: Device -> Key := (d: Device) => Speed(d.integrated)

  const Library: Device -> Key := (d: Device) => Lib(d.id.library)

  function PerfGroups(l: seq<Device>): seq<seq<Device>> { GroupUpTo(l, Integrated, |l|).lists }

  function LibraryGroups(l: seq<Device>): seq<seq<Device>> { GroupUpTo(l, Library, |l|).lists }

  /** Devices grouped by speed. */
  method ByPerformance(l: seq<Device>) returns (resp: seq<seq<Device>>)
    ensures resp == PerfGroups(l)
  {
    resp := [];
    var scores: seq<Key> := [];
    for n := 0 to |l|
      invariant Groups(scores, resp) == GroupUpTo(l, Integrated, n)
    {
      var i := Find(scores, Speed(l[n].integrated));
      if i < |scores| {
        resp := resp[i := resp[i] + [l[n]]];
      } else {
        scores, resp := scores + [Speed(l[n].integrated)], resp + [[l[n]]];
      }
    }
  }

  /** Devices grouped by library. */
  method ByLibrary(l: seq<Device>) returns (resp: seq<seq<Device>>)
    ensures resp == LibraryGroups(l)
  {
    resp := [];
    var libs: seq<Key> := [];
    for n := 0 to |l|
      invariant Groups(libs, resp) == GroupUpTo(l, Library, n)
    {
      var i := Find(libs, Lib(l[n].id.library));
      if i < |libs| {
        resp := resp[i := resp[i] + [l[n]]];
      } else {
        libs, resp := libs + [Lib(l[n].id.library)], resp + [[l[n]]];
      }
    }
  }

  method Find(keys: seq<Key>, k: Key) returns (i: nat)
    ensures i == IndexOf(keys, k)
  {
    i := 0;
    while i < |keys| && keys[i] != k
      invariant i <= |keys| && IndexOf(keys, k) == i + IndexOf(keys[i..], k)
    {
      i := i + 1;
    }
  }

  // ---- the search for the factor ----

  function CountAt(layers: LayerSizes, gpus: seq<Device>, factor: real, requested: int): nat
    requires 0.0 <= factor
  {
    Count(layers, Rooms(gpus, factor), requested)
  }

  lemma {:induction false} FactorMonotone(layers: LayerSizes, gpus: seq<Device>, c: real, c': real, requested: int)
    requires 0.0 <= c <= c'
    ensures CountAt(layers, gpus, c, requested) <= CountAt(layers, gpus, c', requested)
  {
    RoomsMonotone(gpus, c, c');
    CountMonotone(layers, Rooms(gpus, c), Rooms(gpus, c'), requested);
  }

  /** `factor` places as many layers as `most`, and no factor smaller by 1e-6 or more does. */
  ghost predicate LeastFactor(layers: LayerSizes, gpus: seq<Device>, requested: int, most: real, factor: real) {
    && 0.0 <= factor <= most
    && CountAt(layers, gpus, factor, requested) == CountAt(layers, gpus, most, requested)
    && forall c: real ::
         0.0 <= c <= most && CountAt(layers, gpus, c, requested) == CountAt(layers, gpus, most, requested) ==>
           factor - 0.000001 <= c
  }

  /** The least factor lies between `low` and `high`. */
  ghost predicate Bracket(layers: LayerSizes, gpus: seq<Device>, requested: int, most: real, low: real, high: real) {
    && 0.0 <= low < high <= most
    && CountAt(layers, gpus, high, requested) == CountAt(layers, gpus, most, requested)
    && (low > 0.0 ==> CountAt(layers, gpus, low, requested) < CountAt(layers, gpus, most, requested))
  }

  lemma {:induction false} LeastFound(layers: LayerSizes, gpus: seq<Device>, requested: int, most: real, low: real,
                                      high: real)
    requires Bracket(layers, gpus, requested, most, low, high) && high - low <= 0.000001
    ensures LeastFactor(layers, gpus, requested, most, high)
  {
    forall c: real | 0.0 <= c <= most && CountAt(layers, gpus, c, requested) == CountAt(layers, gpus, most, requested)
      ensures high - 0.000001 <= c
    {
      if c < low { FactorMonotone(layers, gpus, c, low, requested); }
    }
  }

  lemma {:induction false} Halved(layers: LayerSizes, gpus: seq<Device>, requested: int, most: real, low: real,
                                  high: real, mid: real)
    requires Bracket(layers, gpus, requested, most, low, high) && mid == (low + high) / 2.0
    ensures 0.0 < mid && high - mid == mid - low == (high - low) / 2.0
    ensures if CountAt(layers, gpus, mid, requested) == CountAt(layers, gpus, most, requested)
            then Bracket(layers, gpus, requested, most, low, mid)
            else Bracket(layers, gpus, requested, most, mid, high)
  {
    FactorMonotone(layers, gpus, mid, most, requested);
  }

  /** Binary search for the least factor that places the most layers; it always ends. */
  method FitGroup(layers: LayerSizes, gpus: seq<Device>, requested: int, most: real)
    returns (best: seq<GpuLayers>, ghost d: nat, ghost factor: real)
    requires gpus != [] && 0.0 < most
    ensures LeastFactor(layers, gpus, requested, most, factor)
    ensures Packed(best, layers, gpus, Rooms(gpus, factor), d, |layers| - CountAt(layers, gpus, most, requested))
    ensures Flat(best) == Range(|layers| - CountAt(layers, gpus, most, requested), |layers|)
  {
    var high, low := most, 0.0;
    best, d := Greedy(layers, gpus, high, requested);
    var maxNumGPU := Sum(best);
    while high - low > 0.000001
      invariant Bracket(layers, gpus, requested, most, low, high) && maxNumGPU == CountAt(layers, gpus, most, requested)
      invariant Packed(best, layers, gpus, Rooms(gpus, high), d, |layers| - maxNumGPU)
      invariant Flat(best) == Range(|layers| - maxNumGPU, |layers|)
      decreases (high - low) * 2000000.0
    {
      var mid := (low + high) / 2.0;
      var assignments, e := Greedy(layers, gpus, mid, requested);
      Halved(layers, gpus, requested, most, low, high, mid);
      var sum := Sum(assignments);
      assert sum == CountAt(layers, gpus, mid, requested);
      if sum == maxNumGPU {
        high, best, d := mid, assignments, e;
      } else {
        low := mid;
      }
    }
    factor := high;
    LeastFound(layers, gpus, requested, most, low, high);
  }

  // ---- what a placement is ----

  /** The total size of the listed layers. */
  function Load(layers: LayerSizes, ls: seq<int>): nat {
    if ls == [] then 0
    else (if 0 <= ls[0] < |layers| then layers[ls[0]] else 0) + Load(layers, ls[1..])
  }

  lemma {:induction false} LoadOfRange(layers: LayerSizes, n: nat, lo: nat, hi: nat)
    requires lo <= hi <= n <= |layers|
    ensures Load(layers, Range(lo, hi)) == Size(layers[..n], lo, hi)
    decreases hi - lo
  {
    if lo < hi {
      assert Range(lo, hi)[1..] == Range(lo + 1, hi);
      LoadOfRange(layers, n, lo + 1, hi);
    }
  }

  /** The load of a device is within its room at the factor. */
  ghost predicate Within(layers: LayerSizes, gpus: seq<Device>, factor: real, g: GpuLayers)
    requires 0.0 <= factor
  {
    exists d :: d in gpus && d.id == g.dev && Load(layers, g.layers) <= Room(d.free, factor)
  }

  ghost predicate DistinctDevs(list: seq<GpuLayers>) {
    forall i, j :: 0 <= i < j < |list| ==> list[i].dev != list[j].dev
  }

  /** Layers lo, ..., hi-1 in ascending order over devices of `gpus`, each at most once and within its room. */
  ghost predicate Placement(list: seq<GpuLayers>, layers: LayerSizes, gpus: seq<Device>, factor: real, lo: nat, hi: nat)
    requires 0.0 <= factor
  {
    && lo <= hi && Flat(list) == Range(lo, hi) && DistinctDevs(list)
    && forall k :: 0 <= k < |list| ==> Within(layers, gpus, factor, list[k])
  }

  lemma {:induction false} PackedWithin(list: seq<GpuLayers>, layers: LayerSizes, n: nat, gpus: seq<Device>,
                                        factor: real, d: nat, start: nat, k: nat)
    requires n <= |layers| && 0.0 <= factor && Packed(list, layers[..n], gpus, Rooms(gpus, factor), d, start)
        && k < |list|
    ensures Within(layers, gpus, factor, list[k])
  {
    var rooms := Rooms(gpus, factor);
    var lo, hi := Reach(layers[..n], rooms, d + k), Reach(layers[..n], rooms, d + k + 1);
    FillIsMost(layers[..n], hi, rooms[d + k], lo);
    LoadOfRange(layers, n, lo, hi);
    if k == 0 {
      SizeSplit(layers[..n], lo, start, hi);
      LoadOfRange(layers, n, start, hi);
    } else {
      assert list[k] == BlockOf(layers[..n], gpus, rooms, d + k);
    }
    assert gpus[d + k] in gpus;
  }

  lemma {:induction false} BlockDevs(layers: LayerSizes, gpus: seq<Device>, rooms: seq<nat>, d: nat, start: nat)
    requires d < |gpus| && |gpus| == |rooms| && start <= Reach(layers, rooms, d + 1) && DistinctIds(gpus)
    ensures DistinctDevs(Blocks(layers, gpus, rooms, d, start))
  {
    var list := Blocks(layers, gpus, rooms, d, start);
    forall k | 0 <= k < |list| ensures list[k].dev == gpus[d + k].id {
      if k > 0 { assert list[k] == BlockOf(layers, gpus, rooms, d + k); }
    }
  }

  lemma {:induction false} PackedPlacement(list: seq<GpuLayers>, layers: LayerSizes, n: nat, gpus: seq<Device>,
                                           factor: real, d: nat, start: nat)
    requires n <= |layers| && 0.0 <= factor && DistinctIds(gpus)
    requires Packed(list, layers[..n], gpus, Rooms(gpus, factor), d, start)
    ensures Placement(list, layers, gpus, factor, start, n)
  {
    PackedFlat(list, layers[..n], gpus, Rooms(gpus, factor), d, start);
    BlockDevs(layers[..n], gpus, Rooms(gpus, factor), d, start);
    forall k | 0 <= k < |list| ensures Within(layers, gpus, factor, list[k]) {
      PackedWithin(list, layers, n, gpus, factor, d, start, k);
    }
  }

  // ---- group after group ----

  /** The number of layers placed by the first `k` groups when each takes the most it can of what
      the groups before it left. */
  function FitUpTo(layers: LayerSizes, groups: seq<seq<Device>>, requested: int, most: real, k: nat): (n: nat)
    requires 0.0 <= most && k <= |groups|
    ensures n <= |layers|
  {
    if k == 0 then 0
    else
      var t := FitUpTo(layers, groups, requested, most, k - 1);
      t + CountAt(layers[..|layers| - t], groups[k - 1], most, requested - t)
  }

  function FitCount(layers: LayerSizes, groups: seq<seq<Device>>, requested: int, most: real): (n: nat)
    requires 0.0 <= most
    ensures n <= |layers|
  {
    FitUpTo(layers, groups, requested, most, |groups|)
  }

  /** Groups in a line, the first one last: it holds the last layers. */
  function Lined(groups: seq<seq<Device>>, k: nat): seq<Device>
    requires k <= |groups|
  {
    if k == 0 then [] else groups[k - 1] + Lined(groups, k - 1)
  }

  lemma {:induction false} FillPrefix(layers: LayerSizes, m: nat, hi: nat, room: nat)
    requires hi <= m <= |layers|
    ensures Fill(layers[..m], hi, room) == Fill(layers, hi, room)
  {
    if hi > 0 && layers[hi - 1] <= room { FillPrefix(layers, m, hi - 1, room - layers[hi - 1]); }
  }

  /** The devices behind come first, the ones in front get what they leave. */
  lemma {:induction false} ReachBehind(layers: LayerSizes, a: seq<nat>, b: seq<nat>, j: nat)
    requires j <= |b|
    ensures Reach(layers, a + b, |a| + j) == Reach(layers, b, j)
    decreases |b| - j
  {
    if j < |b| { ReachBehind(layers, a, b, j + 1); }
  }

  lemma {:induction false} ReachFront(layers: LayerSizes, a: seq<nat>, b: seq<nat>, j: nat)
    requires j <= |a|
    ensures Reach(layers, a + b, j) == Reach(layers[..Reach(layers, b, 0)], a, j)
    decreases |a| - j
  {
    var m := Reach(layers, b, 0);
    if j == |a| {
      ReachBehind(layers, a, b, 0);
    } else {
      ReachFront(layers, a, b, j + 1);
      assert (a + b)[j] == a[j];
      FillPrefix(layers, m, Reach(layers[..m], a, j + 1), a[j]);
    }
  }

  lemma {:induction false} CountFront(layers: LayerSizes, a: seq<Device>, b: seq<Device>, requested: int, most: real)
    requires 0.0 <= most
    ensures var t := Count(layers, Rooms(b, most), requested);
            Count(layers, Rooms(a + b, most), requested) == t + CountAt(layers[..|layers| - t], a, most, requested - t)
  {
    var t := Count(layers, Rooms(b, most), requested);
    assert Rooms(a + b, most) == Rooms(a, most) + Rooms(b, most);
    ReachFront(layers, Rooms(a, most), Rooms(b, most), 0);
    ReachFalls(layers, Rooms(a + b, most), |a|);
    ReachBehind(layers, Rooms(a, most), Rooms(b, most), 0);
  }

  /** Group after group is as good as all groups at once, in a line. */
  lemma {:induction false} FitIsCount(layers: LayerSizes, groups: seq<seq<Device>>, requested: int, most: real, k: nat)
    requires 0.0 <= most && k <= |groups|
    ensures FitUpTo(layers, groups, requested, most, k) == Count(layers, Rooms(Lined(groups, k), most), requested)
  {
    if k > 0 {
      FitIsCount(layers, groups, requested, most, k - 1);
      CountFront(layers, groups[k - 1], Lined(groups, k - 1), requested, most);
    }
  }

  /** Whatever the speeds, no in-order assignment to all devices, with the groups in a line, places
      more layers, up to the request; and as many can be placed. */
  lemma {:induction false} BestFitOptimal(layers: LayerSizes, groups: seq<seq<Device>>, requested: int, most: real)
    requires 0.0 <= most
    ensures var rooms := Rooms(Lined(groups, |groups|), most);
            && (forall cuts :: Fits(layers, rooms, cuts) && (requested < 0 || |layers| - cuts[0] <= requested) ==>
                  |layers| - cuts[0] <= FitCount(layers, groups, requested, most))
            && exists cuts :: Fits(layers, rooms, cuts)
                              && |layers| - cuts[0] >= FitCount(layers, groups, requested, most)
  {
    FitIsCount(layers, groups, requested, most, |groups|);
    GreedyOptimal(layers, Rooms(Lined(groups, |groups|), most), requested);
  }

  /** The largest factor tried: almost infinite space when a request must be met. */
  function Most(requested: int, force: bool): (r: real)
    ensures r == 1.0 || r == 1000.0
  {
    if requested >= 0 && force then 1000.0 else 1.0
  }

  /** The devices that have had their turn. */
  function Used(groups: seq<seq<Device>>, k: nat): seq<Device>
    requires k <= |groups|
  {
    if k == 0 then [] else Used(groups, k - 1) + groups[k - 1]
  }

  lemma {:induction false} UsedFrom(gpus: seq<Device>, k: nat, d: Device)
    requires DistinctIds(gpus) && k <= |PerfGroups(gpus)| && d in Used(PerfGroups(gpus), k)
    ensures exists i :: 0 <= i < k && d in PerfGroups(gpus)[i]
  {
    if d !in PerfGroups(gpus)[k - 1] { UsedFrom(gpus, k - 1, d); }
  }

  ghost predicate OnDevices(list: seq<GpuLayers>, devs: seq<Device>) {
    forall k :: 0 <= k < |list| ==> Named(list[k].dev, devs)
  }

  ghost predicate Named(id: DeviceID, devs: seq<Device>) {
    exists d :: d in devs && d.id == id
  }

  lemma {:induction false} GroupDevices(gpus: seq<Device>, k: nat)
    requires DistinctIds(gpus) && k < |PerfGroups(gpus)|
    ensures PerfGroups(gpus)[k] != [] && DistinctIds(PerfGroups(gpus)[k])
    ensures forall d :: d in PerfGroups(gpus)[k] ==> d in gpus
  {
    GroupingOk(gpus, Integrated, |gpus|);
    var g := GroupUpTo(gpus, Integrated, |gpus|);
    assert GroupOk(gpus, Integrated, |gpus|, g.keys[k], g.lists[k]);
    assert gpus[..|gpus|] == gpus;
  }

  lemma {:induction false} GroupUnused(gpus: seq<Device>, k: nat, id: DeviceID)
    requires DistinctIds(gpus) && k < |PerfGroups(gpus)| && Named(id, PerfGroups(gpus)[k])
    ensures !Named(id, Used(PerfGroups(gpus), k))
  {
    var groups := PerfGroups(gpus);
    var e: Device :| e in groups[k] && e.id == id;
    forall d | d in Used(groups, k) ensures d.id != id {
      UsedFrom(gpus, k, d);
      var i :| 0 <= i < k && d in groups[i];
      GroupsApart(gpus, Integrated, i, k, d, e);
    }
  }

  lemma {:induction false} WithinMore(layers: LayerSizes, devs: seq<Device>, gpus: seq<Device>, factor: real,
                                      most: real, g: GpuLayers)
    requires 0.0 <= factor <= most && Within(layers, devs, factor, g) && forall d :: d in devs ==> d in gpus
    ensures Within(layers, gpus, most, g) && Named(g.dev, devs)
  {
    var d :| d in devs && d.id == g.dev && Load(layers, g.layers) <= Room(d.free, factor);
    RoomMonotone(d.free, factor, most);
  }

  lemma {:induction false} RangesJoin(lo: int, mid: int, hi: int)
    requires lo <= mid <= hi
    ensures Range(lo, mid) + Range(mid, hi) == Range(lo, hi)
  {
  }

  /** The layers of one more group in front of those placed so far. */
  lemma {:induction false} Joined(best: seq<GpuLayers>, list: seq<GpuLayers>, layers: LayerSizes, gpus: seq<Device>,
                                  k: nat, factor: real, most: real, lo: nat, mid: nat)
    requires DistinctIds(gpus) && k < |PerfGroups(gpus)| && 0.0 <= factor <= most && mid <= |layers|
    requires Placement(best, layers, PerfGroups(gpus)[k], factor, lo, mid)
    requires Placement(list, layers, gpus, most, mid, |layers|) && OnDevices(list, Used(PerfGroups(gpus), k))
    ensures Placement(best + list, layers, gpus, most, lo, |layers|)
    ensures OnDevices(best + list, Used(PerfGroups(gpus), k + 1))
  {
    var groups := PerfGroups(gpus);
    GroupDevices(gpus, k);
    FlatAppend(best, list);
    RangesJoin(lo, mid, |layers|);
    forall i | 0 <= i < |best|
      ensures Within(layers, gpus, most, best[i]) && Named(best[i].dev, groups[k])
          && !Named(best[i].dev, Used(groups, k))
    {
      WithinMore(layers, groups[k], gpus, factor, most, best[i]);
      GroupUnused(gpus, k, best[i].dev);
    }
    forall i | 0 <= i < |best + list| ensures Named((best + list)[i].dev, Used(groups, k + 1)) {
      if i < |best| {
        var d: Device :| d in groups[k] && d.id == best[i].dev;
      } else {
        assert Named(list[i - |best|].dev, Used(groups, k));
        var d :| d in Used(groups, k) && d.id == list[i - |best|].dev;
      }
    }
  }

  /** The first `k` groups have taken `t` layers. */
  ghost predicate CountSoFar(t: nat, layers: LayerSizes, gpus: seq<Device>, requested: int, most: real, k: nat)
    requires 0.0 <= most && k <= |PerfGroups(gpus)|
  {
    t == FitUpTo(layers, PerfGroups(gpus), requested, most, k) && (requested >= 0 ==> t <= requested)
  }

  /** They are the last layers, on devices of these groups. */
  ghost predicate PlacedSoFar(list: seq<GpuLayers>, layers: LayerSizes, gpus: seq<Device>, most: real, k: nat)
    requires 0.0 <= most && k <= |PerfGroups(gpus)|
  {
    && |Flat(list)| <= |layers| && Placement(list, layers, gpus, most, |layers| - |Flat(list)|, |layers|)
    && OnDevices(list, Used(PerfGroups(gpus), k))
  }

  /** The k-th group takes from what the groups before it left, and `factor` is the least that does. */
  ghost predicate GroupFactor(layers: LayerSizes, gpus: seq<Device>, requested: int, most: real, k: nat, factor: real)
    requires 0.0 <= most && k < |PerfGroups(gpus)|
  {
    var t := FitUpTo(layers, PerfGroups(gpus), requested, most, k);
    LeastFactor(layers[..|layers| - t], PerfGroups(gpus)[k], requested - t, most, factor)
  }

  /** The least factor of each of the first groups. */
  ghost predicate LeastFactors(layers: LayerSizes, gpus: seq<Device>, requested: int, most: real, factors: seq<real>)
    requires 0.0 <= most && |factors| <= |PerfGroups(gpus)|
    decreases |factors|
  {
    var k := |factors| - 1;
    k < 0 || (GroupFactor(layers, gpus, requested, most, k, factors[k])
              && LeastFactors(layers, gpus, requested, most, factors[..k]))
  }

  /** A device of one of the first groups, within its room at the factor of its group. */
  ghost predicate AtFactor(g: GpuLayers, layers: LayerSizes, gpus: seq<Device>, factors: seq<real>)
    requires |factors| <= |PerfGroups(gpus)|
    decreases |factors|
  {
    var k := |factors| - 1;
    k >= 0 && ((0.0 <= factors[k] && Within(layers, PerfGroups(gpus)[k], factors[k], g))
               || AtFactor(g, layers, gpus, factors[..k]))
  }

  /** One least factor for each of the first groups, and every device within its own. */
  ghost predicate Factored(list: seq<GpuLayers>, layers: LayerSizes, gpus: seq<Device>, requested: int, most: real,
                           factors: seq<real>)
    requires 0.0 <= most && |factors| <= |PerfGroups(gpus)|
  {
    && LeastFactors(layers, gpus, requested, most, factors)
    && forall i :: 0 <= i < |list| ==> AtFactor(list[i], layers, gpus, factors)
  }

  lemma {:induction false} NextFactored(best: seq<GpuLayers>, list: seq<GpuLayers>, layers: LayerSizes,
                                        gpus: seq<Device>, requested: int, most: real, factors: seq<real>,
                                        factor: real, d: nat, n: nat, start: nat)
    requires DistinctIds(gpus) && 0.0 <= most && |factors| < |PerfGroups(gpus)| && n <= |layers|
    requires Factored(list, layers, gpus, requested, most, factors)
    requires GroupFactor(layers, gpus, requested, most, |factors|, factor)
    requires Packed(best, layers[..n], PerfGroups(gpus)[|factors|], Rooms(PerfGroups(gpus)[|factors|], factor), d,
                    start)
    ensures Factored(best + list, layers, gpus, requested, most, factors + [factor])
  {
    var k, fs := |factors|, factors + [factor];
    assert fs[..k] == factors && fs[k] == factor;
    GroupDevices(gpus, k);
    PackedPlacement(best, layers, n, PerfGroups(gpus)[k], factor, d, start);
    forall i | 0 <= i < |best + list| ensures AtFactor((best + list)[i], layers, gpus, fs) {
      if i < |best| {
        assert Within(layers, PerfGroups(gpus)[k], factor, best[i]);
      } else {
        assert AtFactor(list[i - |best|], layers, gpus, factors);
      }
    }
  }

  lemma {:induction false} NextPlaced(best: seq<GpuLayers>, list: seq<GpuLayers>, layers: LayerSizes, gpus: seq<Device>,
                                      k: nat, factor: real, most: real, d: nat, n: nat, c: nat)
    requires DistinctIds(gpus) && k < |PerfGroups(gpus)| && 0.0 <= factor <= most && c <= n
    requires PlacedSoFar(list, layers, gpus, most, k) && n == |layers| - |Flat(list)|
    requires Packed(best, layers[..n], PerfGroups(gpus)[k], Rooms(PerfGroups(gpus)[k], factor), d, n - c)
    ensures |Flat(best)| == c && |Flat(best + list)| == c + |Flat(list)|
    ensures PlacedSoFar(best + list, layers, gpus, most, k + 1)
  {
    GroupDevices(gpus, k);
    PackedPlacement(best, layers, n, PerfGroups(gpus)[k], factor, d, n - c);
    Joined(best, list, layers, gpus, k, factor, most, n - c, n);
    FlatAppend(best, list);
  }

  /** One more group: the layers left, what it takes of them, and the total. */
  lemma {:induction false} NextCount(layers: LayerSizes, gpus: seq<Device>, requested: int, most: real, k: nat, t: nat)
    requires 0.0 <= most && k < |PerfGroups(gpus)| && t <= |layers| && CountSoFar(t, layers, gpus, requested, most, k)
    ensures var c := CountAt(layers[..|layers| - t], PerfGroups(gpus)[k], most, requested - t);
            && t + c <= |layers| && CountSoFar(t + c, layers, gpus, requested, most, k + 1)
            && (requested >= 0 ==> c <= requested - t)
  {
  }

  /** The layers that are left, and how many are still asked for. */
  ghost predicate Left(list: seq<GpuLayers>, layers: LayerSizes, requested: int, rest: LayerSizes, left: int) {
    |Flat(list)| <= |layers| && rest == layers[..|layers| - |Flat(list)|] && left == requested - |Flat(list)|
  }

  lemma {:induction false} LessLeft(list: seq<GpuLayers>, list': seq<GpuLayers>, layers: LayerSizes, requested: int,
                                    rest: LayerSizes, left: int, sum: nat)
    requires Left(list, layers, requested, rest, left) && |Flat(list')| == |Flat(list)| + sum && sum <= |rest|
    ensures Left(list', layers, requested, rest[..|rest| - sum], left - sum)
  {
  }

  lemma {:induction false} FactorOf(t: nat, layers: LayerSizes, gpus: seq<Device>, requested: int, most: real, k: nat,
                                    factor: real)
    requires 0.0 <= most && k < |PerfGroups(gpus)| && t <= |layers| && CountSoFar(t, layers, gpus, requested, most, k)
    requires LeastFactor(layers[..|layers| - t], PerfGroups(gpus)[k], requested - t, most, factor)
    ensures GroupFactor(layers, gpus, requested, most, k, factor)
  {
  }

  /** The factor of one more group. */
  lemma {:induction false} NextFactors(best: seq<GpuLayers>, list: seq<GpuLayers>, layers: LayerSizes,
                                       gpus: seq<Device>, rest: LayerSizes, left: int, requested: int, most: real,
                                       factors: seq<real>, factor: real, d: nat, start: nat)
    requires DistinctIds(gpus) && |factors| < |PerfGroups(gpus)| && 0.0 <= most
    requires CountSoFar(|Flat(list)|, layers, gpus, requested, most, |factors|)
    requires Left(list, layers, requested, rest, left) && Factored(list, layers, gpus, requested, most, factors)
    requires LeastFactor(rest, PerfGroups(gpus)[|factors|], left, most, factor)
    requires Packed(best, rest, PerfGroups(gpus)[|factors|], Rooms(PerfGroups(gpus)[|factors|], factor), d, start)
    ensures Factored(best + list, layers, gpus, requested, most, factors + [factor])
  {
    FactorOf(|Flat(list)|, layers, gpus, requested, most, |factors|, factor);
    NextFactored(best, list, layers, gpus, requested, most, factors, factor, d, |rest|, start);
  }

  /** The share of one more group, in numbers. */
  lemma {:induction false} ShareCount(list: seq<GpuLayers>, list': seq<GpuLayers>, layers: LayerSizes,
                                      gpus: seq<Device>, k: nat, rest: LayerSizes, left: int, requested: int,
                                      most: real, c: nat)
    requires 0.0 <= most && k < |PerfGroups(gpus)| && CountSoFar(|Flat(list)|, layers, gpus, requested, most, k)
    requires Left(list, layers, requested, rest, left) && c == CountAt(rest, PerfGroups(gpus)[k], most, left)
    requires |Flat(list')| == c + |Flat(list)|
    ensures CountSoFar(|Flat(list')|, layers, gpus, requested, most, k + 1)
    ensures c <= |rest| && Left(list', layers, requested, rest[..|rest| - c], left - c)
    ensures (requested >= 0 <==> left >= 0) && (requested >= 0 ==> c <= left)
  {
    NextCount(layers, gpus, requested, most, k, |Flat(list)|);
    LessLeft(list, list', layers, requested, rest, left, c);
  }

  /** The share of one more group, in place. */
  lemma {:induction false} SharePlaced(best: seq<GpuLayers>, list: seq<GpuLayers>, layers: LayerSizes,
                                       gpus: seq<Device>, k: nat, rest: LayerSizes, left: int, requested: int,
                                       most: real, factor: real, d: nat, c: nat)
    requires DistinctIds(gpus) && k < |PerfGroups(gpus)| && 0.0 <= factor <= most && c <= |rest|
    requires PlacedSoFar(list, layers, gpus, most, k) && Left(list, layers, requested, rest, left)
    requires Packed(best, rest, PerfGroups(gpus)[k], Rooms(PerfGroups(gpus)[k], factor), d, |rest| - c)
    ensures |Flat(best)| == c && |Flat(best + list)| == c + |Flat(list)|
    ensures PlacedSoFar(best + list, layers, gpus, most, k + 1)
  {
    NextPlaced(best, list, layers, gpus, k, factor, most, d, |rest|, c);
  }

  /** One group takes its share of the layers that are left. */
  method FitNextGroup(list: seq<GpuLayers>, layers: LayerSizes, gpus: seq<Device>, k: nat, group: seq<Device>,
                      rest: LayerSizes, left: int, most: real, ghost requested: int, ghost factors: seq<real>)
    returns (list': seq<GpuLayers>, sum: nat, ghost factors': seq<real>)
    requires DistinctIds(gpus) && k < |PerfGroups(gpus)| && group == PerfGroups(gpus)[k] && 0.0 < most
    requires CountSoFar(|Flat(list)|, layers, gpus, requested, most, k) && PlacedSoFar(list, layers, gpus, most, k)
    requires Left(list, layers, requested, rest, left)
    requires |factors| == k && Factored(list, layers, gpus, requested, most, factors)
    ensures |factors'| == k + 1 && Factored(list', layers, gpus, requested, most, factors')
    ensures CountSoFar(|Flat(list')|, layers, gpus, requested, most, k + 1)
    ensures PlacedSoFar(list', layers, gpus, most, k + 1)
    ensures sum <= |rest| && Left(list', layers, requested, rest[..|rest| - sum], left - sum)
    ensures requested >= 0 <==> left >= 0
    ensures requested >= 0 ==> sum <= left
  {
    GroupDevices(gpus, k);
    var best, d, factor := FitGroup(rest, group, left, most);
    ghost var c := CountAt(rest, group, most, left);
    NextFactors(best, list, layers, gpus, rest, left, requested, most, factors, factor, d, |rest| - c);
    SharePlaced(best, list, layers, gpus, k, rest, left, requested, most, factor, d, c);
    ShareCount(list, best + list, layers, gpus, k, rest, left, requested, most, c);
    sum := Sum(best);
    list', factors' := best + list, factors + [factor];
  }

  /** All groups, one after the other. */
  method FitGroups(layers: LayerSizes, gpus: seq<Device>, requested: int, force: bool)
    returns (list: seq<GpuLayers>, ghost factors: seq<real>)
    requires DistinctIds(gpus)
    ensures |factors| == |PerfGroups(gpus)|
    ensures Factored(list, layers, gpus, requested, Most(requested, force), factors)
    ensures CountSoFar(|Flat(list)|, layers, gpus, requested, Most(requested, force), |PerfGroups(gpus)|)
    ensures PlacedSoFar(list, layers, gpus, Most(requested, force), |PerfGroups(gpus)|)
  {
    var groups := ByPerformance(gpus);
    var rest, left := layers, requested;
    list, factors := [], [];
    for k := 0 to |groups|
      invariant |factors| == k && Factored(list, layers, gpus, requested, Most(requested, force), factors)
      invariant CountSoFar(|Flat(list)|, layers, gpus, requested, Most(requested, force), k)
      invariant PlacedSoFar(list, layers, gpus, Most(requested, force), k)
      invariant Left(list, layers, requested, rest, left) && (requested >= 0 <==> left >= 0)
    {
      var sum;
      list, sum, factors := FitNextGroup(list, layers, gpus, k, groups[k], rest, left, Most(left, force), requested,
                                         factors);
      rest := rest[..|rest| - sum];
      left := left - sum;
    }
  }

  /** Each group of devices, in the order of their first device, takes the most layers it can with the
      least factor; the layers placed are the last ones, in order, each device at most once. */
  method FindBestFit(layers: LayerSizes, gpus: seq<Device>, requested: int, force: bool)
    returns (list: seq<GpuLayers>, ghost factors: seq<real>)
    requires DistinctIds(gpus)
    ensures |Flat(list)| == FitCount(layers, PerfGroups(gpus), requested, Most(requested, force))
    ensures Placement(list, layers, gpus, Most(requested, force), |layers| - |Flat(list)|, |layers|)
    ensures requested >= 0 ==> |Flat(list)| <= requested
    ensures |factors| == |PerfGroups(gpus)|
    ensures Factored(list, layers, gpus, requested, Most(requested, force), factors)
  {
    list, factors := FitGroups(layers, gpus, requested, force);
  }
}
