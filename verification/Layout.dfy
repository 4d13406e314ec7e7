/** From reported memory to a layout: packing onto as few devices as possible, keeping memory in
    reserve, and accounting for every layer. */
module Layout {
  import opened GreedyFit
  import opened BestFit

  // ---- assigning layers ----

  /** All devices treated as equally fast. */
  function Alike(gpus: seq<Device>): (r: seq<Device>)
    ensures |r| == |gpus|
  {
    seq(|gpus|, i requires 0 <= i < |gpus| => gpus[i].(integrated := false))
  }

  function Ranked(gpus: seq<Device>, requested: int, spread: bool): (r: seq<Device>)
    ensures |r| == |gpus|
  {
    if requested >= 0 || spread then Alike(gpus) else gpus
  }

  lemma {:induction false} RankedSame(layers: LayerSizes, gpus: seq<Device>, requested: int, spread: bool,
                                      factor: real, g: GpuLayers, n: nat)
    requires 0.0 <= factor && n <= |gpus| && Within(layers, Ranked(gpus, requested, spread)[..n], factor, g)
    ensures Within(layers, gpus, factor, g)
  {
    var r := Ranked(gpus, requested, spread);
    var d :| d in r[..n] && d.id == g.dev && Load(layers, g.layers) <= Room(d.free, factor);
    var i :| 0 <= i < n && r[..n][i] == d;
    assert gpus[i] in gpus && gpus[i].id == d.id && gpus[i].free == d.free;
  }

  /** How many layers the first `n` devices hold. */
  function PrefixFit(layers: LayerSizes, gpus: seq<Device>, n: nat, requested: int, force: bool): (c: nat)
    requires n <= |gpus|
    ensures c <= |layers|
  {
    FitCount(layers, PerfGroups(gpus[..n]), requested, Most(requested, force))
  }

  lemma {:induction false} DistinctPrefix(gpus: seq<Device>, n: nat)
    requires DistinctIds(gpus) && n <= |gpus|
    ensures DistinctIds(gpus[..n])
  {
  }

  /** The packing of the last layers onto the first `n` devices. */
  ghost predicate OnPrefix(list: seq<GpuLayers>, layers: LayerSizes, gpus: seq<Device>, n: nat, requested: int,
                           force: bool)
    requires n <= |gpus|
  {
    && |Flat(list)| == PrefixFit(layers, gpus, n, requested, force)
    && Placement(list, layers, gpus[..n], Most(requested, force), |layers| - |Flat(list)|, |layers|)
  }

  /** Only with all devices may a request be forced. */
  predicate MayForce(gpus: seq<Device>, n: nat, requireFull: bool) { n == |gpus| && !requireFull }

  /** How many layers the first 1, 2, ..., n devices hold. */
  function Counts(layers: LayerSizes, gpus: seq<Device>, requested: int, requireFull: bool, n: nat): (counts: seq<nat>)
    requires n <= |gpus|
    ensures |counts| == n
  {
    if n == 0 then []
    else
      Counts(layers, gpus, requested, requireFull, n - 1)
      + [PrefixFit(layers, gpus, n, requested, MayForce(gpus, n, requireFull))]
  }

  lemma {:induction false} CountsAt(layers: LayerSizes, gpus: seq<Device>, requested: int, requireFull: bool, n: nat,
                                    k: nat)
    requires 0 < k <= n <= |gpus|
    ensures Counts(layers, gpus, requested, requireFull, n)[k - 1]
        == PrefixFit(layers, gpus, k, requested, MayForce(gpus, k, requireFull))
  {
    if k < n { CountsAt(layers, gpus, requested, requireFull, n - 1, k); }
  }

  /** The number of devices to use: the first ones from index `i` on that hold all layers or all
      requested layers, else all devices. */
  function FirstFit(counts: seq<nat>, all: nat, requested: int, i: nat): (n: nat)
    requires i < |counts|
    ensures i < n <= |counts|
    decreases |counts| - i
  {
    if counts[i] == all || counts[i] == requested || i + 1 == |counts| then i + 1
    else FirstFit(counts, all, requested, i + 1)
  }

  /** It is the first such number above `i`. */
  lemma {:induction false} FirstFitIsFirst(counts: seq<nat>, all: nat, requested: int, i: nat, n: nat)
    requires i < |counts| && i < n <= FirstFit(counts, all, requested, i)
    ensures n < FirstFit(counts, all, requested, i) ==> counts[n - 1] != all && counts[n - 1] != requested
    ensures n == FirstFit(counts, all, requested, i) ==>
              counts[n - 1] == all || counts[n - 1] == requested || n == |counts|
    decreases |counts| - i
  {
    if i + 1 < n { FirstFitIsFirst(counts, all, requested, i + 1, n); }
  }

  function DeviceCount(layers: LayerSizes, gpus: seq<Device>, requested: int, requireFull: bool, lastUsed: nat,
                       spread: bool): (n: nat)
    requires lastUsed < |gpus|
    ensures 0 < n <= |gpus|
  {
    if spread then |gpus| else FirstFit(Counts(layers, gpus, requested, requireFull, |gpus|), |layers|, requested,
                                        lastUsed)
  }

  /** The space of the first `n` devices at a capacity factor, with the groups of one speed in a line. */
  function RoomsOf(gpus: seq<Device>, n: nat, factor: real): seq<nat>
    requires n <= |gpus| && 0.0 <= factor
  {
    Rooms(Lined(PerfGroups(gpus[..n]), |PerfGroups(gpus[..n])|), factor)
  }

  /** From one past the last device in use on, a smaller number of devices is not enough: no in-order
      assignment to them holds all layers, or as many as requested. */
  lemma {:induction false} FewestDevices(layers: LayerSizes, gpus: seq<Device>, requested: int, requireFull: bool,
                                         lastUsed: nat, n: nat, cuts: seq<nat>)
    requires lastUsed < |gpus|
    requires lastUsed < n < DeviceCount(layers, gpus, requested, requireFull, lastUsed, false)
    requires Fits(layers, RoomsOf(gpus, n, 1.0), cuts)
    ensures |layers| - cuts[0] < |layers| && (requested >= 0 ==> |layers| - cuts[0] < requested)
  {
    var rooms := RoomsOf(gpus, n, 1.0);
    FirstFitIsFirst(Counts(layers, gpus, requested, requireFull, |gpus|), |layers|, requested, lastUsed, n);
    CountsAt(layers, gpus, requested, requireFull, |gpus|, n);
    var groups := PerfGroups(gpus[..n]);
    FitIsCount(layers, groups, requested, 1.0, |groups|);
    StaysAhead(layers, rooms, cuts, 0);
  }

  /** The number chosen is enough: some in-order assignment to these devices holds all layers, or as
      many as requested, unless they are all the devices there are. */
  lemma {:induction false} EnoughDevices(layers: LayerSizes, gpus: seq<Device>, requested: int, requireFull: bool,
                                         lastUsed: nat)
    returns (n: nat, cuts: seq<nat>)
    requires lastUsed < |gpus| && requested <= |layers|
    ensures lastUsed < n <= |gpus| && n == DeviceCount(layers, gpus, requested, requireFull, lastUsed, false)
    ensures Fits(layers, RoomsOf(gpus, n, 1.0), cuts)
    ensures n == |gpus| || |layers| - cuts[0] == |layers| || (requested >= 0 && |layers| - cuts[0] >= requested)
  {
    n := DeviceCount(layers, gpus, requested, requireFull, lastUsed, false);
    FirstFitIsFirst(Counts(layers, gpus, requested, requireFull, |gpus|), |layers|, requested, lastUsed, n);
    CountsAt(layers, gpus, requested, requireFull, |gpus|, n);
    var groups := PerfGroups(gpus[..n]);
    FitIsCount(layers, groups, requested, 1.0, |groups|);
    cuts := GreedyCuts(layers, RoomsOf(gpus, n, 1.0));
    GreedyFits(layers, RoomsOf(gpus, n, 1.0));
  }

  function RoundCount(layers: LayerSizes, gpus: seq<Device>, requested: int, requireFull: bool, lastUsed: nat,
                      spread: bool): (c: nat)
    requires lastUsed < |gpus|
    ensures c <= |layers|
  {
    var n := DeviceCount(layers, gpus, requested, requireFull, lastUsed, spread);
    PrefixFit(layers, gpus, n, requested, MayForce(gpus, n, requireFull))
  }

  /** One round of packing: onto the devices that DeviceCount tells. */
  ghost predicate Round(list: seq<GpuLayers>, layers: LayerSizes, gpus: seq<Device>, requested: int,
                        requireFull: bool, lastUsed: nat, spread: bool)
    requires lastUsed < |gpus|
  {
    var n := DeviceCount(layers, gpus, requested, requireFull, lastUsed, spread);
    OnPrefix(list, layers, gpus, n, requested, MayForce(gpus, n, requireFull))
  }

  /** Pack onto the first `n` devices. */
  method PackOn(layers: LayerSizes, gpus: seq<Device>, n: nat, requested: int, requireFull: bool,
                ghost counts: seq<nat>)
    returns (list: seq<GpuLayers>, sum: nat)
    requires DistinctIds(gpus) && 0 < n <= |gpus| && counts == Counts(layers, gpus, requested, requireFull, |gpus|)
    ensures OnPrefix(list, layers, gpus, n, requested, MayForce(gpus, n, requireFull)) && sum == counts[n - 1]
  {
    DistinctPrefix(gpus, n);
    ghost var factors;
    list, factors := FindBestFit(layers, gpus[..n], requested, n == |gpus| && !requireFull);
    sum := Sum(list);
    CountsAt(layers, gpus, requested, requireFull, |gpus|, n);
  }

  /** Try the first devices from `lastUsed` on, then one more each time. */
  method PackPrefixes(layers: LayerSizes, gpus: seq<Device>, requested: int, requireFull: bool, lastUsed: nat,
                      ghost counts: seq<nat>)
    returns (list: seq<GpuLayers>, ghost n: nat)
    requires DistinctIds(gpus) && lastUsed < |gpus| && counts == Counts(layers, gpus, requested, requireFull, |gpus|)
    ensures n == FirstFit(counts, |layers|, requested, lastUsed)
    ensures OnPrefix(list, layers, gpus, n, requested, MayForce(gpus, n, requireFull))
  {
    var i := lastUsed;
    var sum;
    list, sum := PackOn(layers, gpus, i + 1, requested, requireFull, counts);
    while i + 1 < |gpus| && sum != |layers| && sum != requested
      invariant lastUsed <= i < |gpus| && FirstFit(counts, |layers|, requested, lastUsed)
          == FirstFit(counts, |layers|, requested, i)
      invariant sum == counts[i] && OnPrefix(list, layers, gpus, i + 1, requested, MayForce(gpus, i + 1, requireFull))
    {
      i := i + 1;
      list, sum := PackOn(layers, gpus, i + 1, requested, requireFull, counts);
    }
    n := i + 1;
  }

  /** One round: all devices at once, or as few as possible. */
  method PackRound(layers: LayerSizes, gpus: seq<Device>, requested: int, requireFull: bool, lastUsed: nat,
                   spread: bool)
    returns (list: seq<GpuLayers>)
    requires DistinctIds(gpus) && lastUsed < |gpus|
    ensures Round(list, layers, gpus, requested, requireFull, lastUsed, spread)
  {
    if spread {
      assert gpus[..|gpus|] == gpus;
      ghost var factors;
      list, factors := FindBestFit(layers, gpus, requested, !requireFull);
    } else {
      ghost var n;
      list, n := PackPrefixes(layers, gpus, requested, requireFull, lastUsed,
                              Counts(layers, gpus, requested, requireFull, |gpus|));
    }
  }

  method Rank(gpus: seq<Device>, requested: int, spread: bool) returns (r: seq<Device>)
    ensures r == Ranked(gpus, requested, spread) && (DistinctIds(gpus) ==> DistinctIds(r))
  {
    r := gpus;
    if requested >= 0 || spread {
      for i := 0 to |r|
        invariant |r| == |gpus|
        invariant forall j :: 0 <= j < |r| ==> r[j] == if j < i then gpus[j].(integrated := false) else gpus[j]
      {
        r := r[i := r[i].(integrated := false)];
      }
    }
  }

  /** All layers in one round, or, when they do not all fit, a second round without the output layer. */
  ghost predicate Assigned(list: seq<GpuLayers>, layers: LayerSizes, gpus: seq<Device>, requireFull: bool,
                           requested: int, lastUsed: nat, spread: bool)
    requires lastUsed < |gpus|
  {
    var ranked, req := Ranked(gpus, requested, spread), Min(|layers|, requested);
    if RoundCount(layers, ranked, req, requireFull, lastUsed, spread) == |layers|
    then Round(list, layers, ranked, req, requireFull, lastUsed, spread)
    else |layers| > 0 && Round(list, layers[..|layers| - 1], ranked, Min(|layers| - 1, req), requireFull, lastUsed,
                               spread)
  }

  function AssignCount(layers: LayerSizes, gpus: seq<Device>, requireFull: bool, requested: int, lastUsed: nat,
                       spread: bool): nat
    requires lastUsed < |gpus|
  {
    var ranked, req := Ranked(gpus, requested, spread), Min(|layers|, requested);
    if RoundCount(layers, ranked, req, requireFull, lastUsed, spread) == |layers| then |layers|
    else if |layers| == 0 then 0
    else RoundCount(layers[..|layers| - 1], ranked, Min(|layers| - 1, req), requireFull, lastUsed, spread)
  }

  /** What has been found out before a round: nothing, that the layers do not all fit, or the layout. */
  ghost predicate Before(round: int, list: seq<GpuLayers>, ls: LayerSizes, req: int, layers: LayerSizes,
                         gpus: seq<Device>, requireFull: bool, requested: int, lastUsed: nat, spread: bool)
    requires lastUsed < |gpus|
  {
    var all := RoundCount(layers, Ranked(gpus, requested, spread), Min(|layers|, requested), requireFull, lastUsed,
                          spread);
    if round == 0 then ls == layers && req == requested
    else if round == 1 then
      |layers| > 0 && ls == layers[..|layers| - 1] && req == Min(|layers|, requested) && all < |layers|
    else
      |layers| > 0 && all < |layers|
      && Round(list, layers[..|layers| - 1], Ranked(gpus, requested, spread),
               Min(|layers| - 1, Min(|layers|, requested)), requireFull, lastUsed, spread)
  }

  lemma {:induction false} AfterRound(round: nat, list: seq<GpuLayers>, list': seq<GpuLayers>, ls: LayerSizes, req: int,
                                      layers: LayerSizes, gpus: seq<Device>, requireFull: bool, requested: int,
                                      lastUsed: nat, spread: bool)
    requires round < 2 && lastUsed < |gpus|
    requires Before(round, list, ls, req, layers, gpus, requireFull, requested, lastUsed, spread)
    requires Round(list', ls, Ranked(gpus, requested, spread), Min(|ls|, req), requireFull, lastUsed, spread)
    ensures |Flat(list')| == |ls| ==> Assigned(list', layers, gpus, requireFull, requested, lastUsed, spread)
    ensures |Flat(list')| != |ls| ==>
              ls != [] && Before(round + 1, list', ls[..|ls| - 1], Min(|ls|, req), layers, gpus, requireFull, requested,
                                 lastUsed, spread)
  {
  }

  lemma {:induction false} AssignedCount(list: seq<GpuLayers>, layers: LayerSizes, gpus: seq<Device>,
                                         requireFull: bool, requested: int, lastUsed: nat, spread: bool)
    requires lastUsed < |gpus| && Assigned(list, layers, gpus, requireFull, requested, lastUsed, spread)
    ensures |Flat(list)| == AssignCount(layers, gpus, requireFull, requested, lastUsed, spread)
  {
  }

  /** Pack all layers; if they do not all fit, leave the output layer out and pack the rest. */
  method AssignLayers(layers: LayerSizes, gpus: seq<Device>, requireFull: bool, requested: int, lastUsed: nat,
                      spread: bool)
    returns (list: seq<GpuLayers>)
    requires DistinctIds(gpus) && lastUsed < |gpus|
    ensures Assigned(list, layers, gpus, requireFull, requested, lastUsed, spread)
    ensures |Flat(list)| == AssignCount(layers, gpus, requireFull, requested, lastUsed, spread)
  {
    var ranked := Rank(gpus, requested, spread);
    var ls, req := layers, requested;
    list := [];
    for round := 0 to 2
      invariant Before(round, list, ls, req, layers, gpus, requireFull, requested, lastUsed, spread)
    {
      ghost var before := list;
      list := PackRound(ls, ranked, Min(|ls|, req), requireFull, lastUsed, spread);
      AfterRound(round, before, list, ls, req, layers, gpus, requireFull, requested, lastUsed, spread);
      req := Min(|ls|, req);
      var sum := Sum(list);
      if sum == |ls| {
        AssignedCount(list, layers, gpus, requireFull, requested, lastUsed, spread);
        return;
      }
      ls := ls[..|ls| - 1];
    }
    AssignedCount(list, layers, gpus, requireFull, requested, lastUsed, spread);
  }

  // ---- what every layout looks like ----

  predicate Forced(requested: int, requireFull: bool) { requested >= 0 && !requireFull }

  /** Each device at most once; the layers are one contiguous ascending block, which holds the output
      layer only when it holds all layers; without a forced request every device has room for its layers. */
  ghost predicate Sane(list: seq<GpuLayers>, layers: LayerSizes, gpus: seq<Device>, forced: bool) {
    && DistinctDevs(list)
    && (exists lo: nat, hi: nat :: lo <= hi <= |layers| && Flat(list) == Range(lo, hi)
          && (hi == |layers| || hi == |layers| - 1) && (hi == |layers| && lo < hi ==> lo == 0))
    && (!forced ==> forall k :: 0 <= k < |list| ==> Within(layers, gpus, 1.0, list[k]))
  }

  lemma {:induction false} LoadOfPrefix(layers: LayerSizes, n: nat, ls: seq<int>)
    requires n <= |layers| && forall i :: 0 <= i < |ls| ==> 0 <= ls[i] < n
    ensures Load(layers[..n], ls) == Load(layers, ls)
  {
    if ls != [] { LoadOfPrefix(layers, n, ls[1..]); }
  }

  lemma {:induction false} InFlat(list: seq<GpuLayers>, k: nat)
    requires k < |list|
    ensures forall x :: x in list[k].layers ==> x in Flat(list)
  {
    if k > 0 {
      InFlat(list[1..], k - 1);
      assert list[1..][k - 1] == list[k];
    }
  }

  lemma {:induction false} InRange(lo: int, hi: int, x: int)
    requires lo <= hi && x in Range(lo, hi)
    ensures lo <= x < hi
  {
  }

  /** A device within its room for a prefix of the layers is so for all of them. */
  lemma {:induction false} RoomOverall(list: seq<GpuLayers>, layers: LayerSizes, m: nat, gpus: seq<Device>,
                                       requested: int, spread: bool, n: nat, factor: real, lo: nat, k: nat)
    requires m <= |layers| && n <= |gpus| && 0.0 <= factor && k < |list|
    requires Placement(list, layers[..m], Ranked(gpus, requested, spread)[..n], factor, lo, m)
    ensures Within(layers, gpus, factor, list[k])
  {
    InFlat(list, k);
    forall i | 0 <= i < |list[k].layers| ensures 0 <= list[k].layers[i] < m {
      var x := list[k].layers[i];
      assert x in list[k].layers;
      InRange(lo, m, x);
    }
    RankedSame(layers[..m], gpus, requested, spread, factor, list[k], n);
    LoadOfPrefix(layers, m, list[k].layers);
  }

  lemma {:induction false} RoundSane(list: seq<GpuLayers>, layers: LayerSizes, m: nat, gpus: seq<Device>,
                                     requireFull: bool, requested: int, req: int, lastUsed: nat, spread: bool)
    requires lastUsed < |gpus| && m <= |layers| && (m == |layers| || m == |layers| - 1) && (requested < 0 ==> req < 0)
    requires Round(list, layers[..m], Ranked(gpus, requested, spread), req, requireFull, lastUsed, spread)
    requires m == |layers| && m > 0 ==> |Flat(list)| == |layers|
    ensures Sane(list, layers, gpus, Forced(requested, requireFull))
  {
    var ranked := Ranked(gpus, requested, spread);
    var n := DeviceCount(layers[..m], ranked, req, requireFull, lastUsed, spread);
    var most := Most(req, n == |gpus| && !requireFull);
    var lo := m - |Flat(list)|;
    assert Placement(list, layers[..m], ranked[..n], most, lo, m);
    if !Forced(requested, requireFull) {
      forall k | 0 <= k < |list| ensures Within(layers, gpus, 1.0, list[k]) {
        RoomOverall(list, layers, m, gpus, requested, spread, n, most, lo, k);
      }
    }
  }

  lemma {:induction false} AssignedSane(list: seq<GpuLayers>, layers: LayerSizes, gpus: seq<Device>,
                                        requireFull: bool, requested: int, lastUsed: nat, spread: bool)
    requires lastUsed < |gpus| && Assigned(list, layers, gpus, requireFull, requested, lastUsed, spread)
    ensures Sane(list, layers, gpus, Forced(requested, requireFull))
  {
    var ranked, req := Ranked(gpus, requested, spread), Min(|layers|, requested);
    assert layers[..|layers|] == layers;
    if RoundCount(layers, ranked, req, requireFull, lastUsed, spread) == |layers| {
      RoundSane(list, layers, |layers|, gpus, requireFull, requested, req, lastUsed, spread);
    } else {
      RoundSane(list, layers, |layers| - 1, gpus, requireFull, requested, Min(|layers| - 1, req), lastUsed, spread);
    }
  }

  // ---- when everything fits ----

  /** Without a request, everything is placed whenever some in-order assignment of all layers fits. */
  lemma {:induction false} EverythingFits(layers: LayerSizes, gpus: seq<Device>, cuts: seq<nat>, force: bool)
    requires Fits(layers, RoomsOf(gpus, |gpus|, 1.0), cuts) && cuts[0] == 0
    ensures PrefixFit(layers, gpus, |gpus|, -1, force) == |layers|
  {
    var groups := PerfGroups(gpus[..|gpus|]);
    FitIsCount(layers, groups, -1, 1.0, |groups|);
    StaysAhead(layers, RoomsOf(gpus, |gpus|, 1.0), cuts, 0);
  }

  /** The layout then has all layers, on the fewest devices that hold them. */
  lemma {:induction false} EverythingAssigned(layers: LayerSizes, gpus: seq<Device>, cuts: seq<nat>,
                                              requireFull: bool, lastUsed: nat, spread: bool)
    requires lastUsed < |gpus| && cuts != [] && cuts[0] == 0
    requires Fits(layers, RoomsOf(Ranked(gpus, -1, spread), |gpus|, 1.0), cuts)
    ensures AssignCount(layers, gpus, requireFull, -1, lastUsed, spread) == |layers|
  {
    var ranked := Ranked(gpus, -1, spread);
    EverythingFits(layers, ranked, cuts, !requireFull);
    var counts := Counts(layers, ranked, -1, requireFull, |ranked|);
    CountsAt(layers, ranked, -1, requireFull, |ranked|, |ranked|);
    LastDeviceFits(counts, |layers|, lastUsed);
    var n := DeviceCount(layers, ranked, -1, requireFull, lastUsed, spread);
    CountsAt(layers, ranked, -1, requireFull, |ranked|, n);
  }

  /** Devices of one speed are one group, in their own order. */
  lemma {:induction false} OneSpeed(gpus: seq<Device>, n: nat)
    requires 0 < n <= |gpus| && forall i, j :: 0 <= i < j < |gpus| ==> gpus[i].integrated == gpus[j].integrated
    ensures GroupUpTo(gpus, Integrated, n) == Groups([Speed(gpus[0].integrated)], [gpus[..n]])
  {
    if n > 1 {
      OneSpeed(gpus, n - 1);
      assert gpus[..n] == gpus[..n - 1] + [gpus[n - 1]];
    } else {
      assert GroupUpTo(gpus, Integrated, 0) == Groups([], []);
      assert gpus[..1] == [gpus[0]];
    }
  }

  lemma {:induction false} OneSpeedInLine(gpus: seq<Device>, n: nat, factor: real)
    requires n <= |gpus| && forall i, j :: 0 <= i < j < |gpus| ==> gpus[i].integrated == gpus[j].integrated
    requires 0.0 <= factor
    ensures RoomsOf(gpus, n, factor) == Rooms(gpus[..n], factor)
  {
    var some := gpus[..n];
    if n == 0 {
      assert PerfGroups(some) == [];
    } else {
      OneSpeed(some, n);
      assert some[..n] == some && PerfGroups(some) == [some];
      assert Lined([some], 0) == [] && Lined([some], 1) == some + [];
      assert some + [] == some;
    }
  }

  /** With a number of layers asked for, or all devices to be used, speed does not matter: the devices
      are filled from the last one down, in their own order. */
  lemma {:induction false} SpeedIgnored(gpus: seq<Device>, requested: int, spread: bool, n: nat, factor: real)
    requires n <= |gpus| && 0.0 <= factor && (requested >= 0 || spread)
    ensures RoomsOf(Ranked(gpus, requested, spread), n, factor) == Rooms(gpus[..n], factor)
  {
    OneSpeedInLine(Ranked(gpus, requested, spread), n, factor);
  }

  /** A number of layers below all is met, without the output layer, whenever these layers fit into
      a thousand times the memory; unless everything has to fit, a request is forced. */
  lemma {:induction false} RequestMet(layers: LayerSizes, gpus: seq<Device>, cuts: seq<nat>, requested: int,
                                      lastUsed: nat, spread: bool)
    requires lastUsed < |gpus| && 0 <= requested < |layers|
    requires Fits(layers[..|layers| - 1], Rooms(gpus, 1000.0), cuts) && |layers| - 1 - cuts[0] >= requested
    ensures AssignCount(layers, gpus, false, requested, lastUsed, spread) == requested
  {
    var ranked, ls := Ranked(gpus, requested, spread), layers[..|layers| - 1];
    var n := DeviceCount(ls, ranked, requested, false, lastUsed, spread);
    assert gpus[..|gpus|] == gpus;
    SpeedIgnored(gpus, requested, spread, |gpus|, 1000.0);
    ForcedFits(ls, ranked, cuts, requested);
    CountAtMost(layers, ranked, requested, DeviceCount(layers, ranked, requested, false, lastUsed, spread));
    if !spread {
      var counts := Counts(ls, ranked, requested, false, |ranked|);
      CountsAt(ls, ranked, requested, false, |ranked|, |ranked|);
      FirstFitIsFirst(counts, |ls|, requested, lastUsed, n);
      CountsAt(ls, ranked, requested, false, |ranked|, n);
      CountAtMost(ls, ranked, requested, n);
    }
  }

  /** Never more than requested. */
  lemma {:induction false} CountAtMost(layers: LayerSizes, gpus: seq<Device>, requested: int, n: nat)
    requires 0 <= requested && n <= |gpus|
    ensures PrefixFit(layers, gpus, n, requested, MayForce(gpus, n, false)) <= requested
  {
    var groups := PerfGroups(gpus[..n]);
    FitIsCount(layers, groups, requested, Most(requested, MayForce(gpus, n, false)), |groups|);
  }

  lemma {:induction false} ForcedFits(layers: LayerSizes, gpus: seq<Device>, cuts: seq<nat>, requested: int)
    requires 0 <= requested && Fits(layers, RoomsOf(gpus, |gpus|, 1000.0), cuts) && |layers| - cuts[0] >= requested
    ensures PrefixFit(layers, gpus, |gpus|, requested, true) == requested
  {
    var groups := PerfGroups(gpus[..|gpus|]);
    FitIsCount(layers, groups, requested, 1000.0, |groups|);
    StaysAhead(layers, RoomsOf(gpus, |gpus|, 1000.0), cuts, 0);
  }

  lemma {:induction false} LastDeviceFits(counts: seq<nat>, all: nat, i: nat)
    requires i < |counts| && counts[|counts| - 1] == all
    ensures counts[FirstFit(counts, all, -1, i) - 1] == all
    decreases |counts| - i
  {
    if i + 1 < |counts| { LastDeviceFits(counts, all, i + 1); }
  }
}
