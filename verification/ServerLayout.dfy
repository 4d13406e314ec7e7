/** From a runner's memory report to the server's layout, and its accounting. */
module ServerLayout {
  import opened GreedyFit
  import opened BestFit
  import opened Layout

  const MEBIBYTE: nat := 1024 * 1024

  /** What the runner reported for one device, by layer. */
  datatype DeviceMemory = DeviceMemory(id: DeviceID, weights: seq<nat>, cache: seq<nat>, graph: nat)

  datatype BackendMemory = BackendMemory(inputWeights: nat, cpuWeights: seq<nat>, cpuCache: seq<nat>, cpuGraph: nat,
                                         gpus: seq<DeviceMemory>)

  /** Every device is reported for the same layers. */
  ghost predicate SameLayers(m: BackendMemory) {
    && |m.cpuCache| == |m.cpuWeights|
    && forall j :: 0 <= j < |m.gpus| ==> |m.gpus[j].weights| == |m.gpus[j].cache| == |m.cpuWeights|
  }

  // ---- the size of a layer ----

  /** What the first `n` devices hold of a layer. */
  function OnGpus(gpus: seq<DeviceMemory>, i: nat, n: nat): nat
    requires n <= |gpus| && forall j :: 0 <= j < |gpus| ==> i < |gpus[j].weights| && i < |gpus[j].cache|
  {
    if n == 0 then 0 else OnGpus(gpus, i, n - 1) + gpus[n - 1].weights[i] + gpus[n - 1].cache[i]
  }

  /** The size of every layer, wherever its parts are now. */
  ghost predicate SizesOf(m: BackendMemory, layers: LayerSizes)
    requires SameLayers(m)
  {
    && |layers| == |m.cpuWeights|
    && forall i :: 0 <= i < |layers| ==> layers[i] == OnGpus(m.gpus, i, |m.gpus|) + m.cpuWeights[i] + m.cpuCache[i]
  }

  method CollectSizes(m: BackendMemory) returns (layers: LayerSizes)
    requires SameLayers(m)
    ensures SizesOf(m, layers)
  {
    layers := [];
    for i := 0 to |m.cpuWeights|
      invariant |layers| == i
      invariant forall k :: 0 <= k < i ==> layers[k] == OnGpus(m.gpus, k, |m.gpus|) + m.cpuWeights[k] + m.cpuCache[k]
    {
      var size := 0;
      for j := 0 to |m.gpus|
        invariant size == OnGpus(m.gpus, i, j)
      {
        size := size + m.gpus[j].weights[i];
        size := size + m.gpus[j].cache[i];
      }
      layers := layers + [size + m.cpuWeights[i] + m.cpuCache[i]];
    }
  }

  // ---- memory in reserve ----

  function MinimumMemory(id: DeviceID): nat {
    if id.library == "Metal" then 512 * MEBIBYTE else 457 * MEBIBYTE
  }

  /** The first report about a device. */
  function ReportOf(gpus: seq<DeviceMemory>, id: DeviceID): (j: nat)
    ensures j <= |gpus| && (j < |gpus| ==> gpus[j].id == id) && forall k :: 0 <= k < j ==> gpus[k].id != id
  {
    if gpus == [] then 0 else if gpus[0].id == id then 0 else 1 + ReportOf(gpus[1..], id)
  }

  function Reserved(d: Device, graph: nat, backoff: real, overhead: nat): nat
    requires 0.0 <= backoff
  {
    Room(d.free, backoff) + MinimumMemory(d.id) + overhead + graph
  }

  /** What is left for layers on a device; nothing on a device that was not reported. */
  function Available(d: Device, m: BackendMemory, backoff: real, overhead: nat): nat
    requires 0.0 <= backoff
  {
    var j := ReportOf(m.gpus, d.id);
    if j == |m.gpus| then 0
    else
      var reserved := Reserved(d, m.gpus[j].graph, backoff, overhead);
      if d.free > reserved then d.free - reserved else 0
  }

  function Remaining(gl: seq<Device>, m: BackendMemory, backoff: real, overhead: nat): (r: seq<Device>)
    requires 0.0 <= backoff
    ensures |r| == |gl|
  {
    seq(|gl|, i requires 0 <= i < |gl| => gl[i].(free := Available(gl[i], m, backoff, overhead)))
  }

  /** The last device with a graph already on it, or the first device. */
  function LastUsed(gl: seq<Device>, m: BackendMemory, n: nat): (i: nat)
    requires n <= |gl|
    ensures i < n || i == 0
  {
    if n == 0 then 0
    else
      var j := ReportOf(m.gpus, gl[n - 1].id);
      if j < |m.gpus| && m.gpus[j].graph != 0 then n - 1 else LastUsed(gl, m, n - 1)
  }

  /** A graph was placed on the device. */
  predicate HasGraph(m: BackendMemory, id: DeviceID) {
    var j := ReportOf(m.gpus, id); j < |m.gpus| && m.gpus[j].graph != 0
  }

  lemma {:induction false} LastUsedIsLast(gl: seq<Device>, m: BackendMemory, n: nat)
    requires n <= |gl|
    ensures forall k :: LastUsed(gl, m, n) < k < n ==> !HasGraph(m, gl[k].id)
    ensures n > 0 && (exists k :: 0 <= k < n && HasGraph(m, gl[k].id)) ==> HasGraph(m, gl[LastUsed(gl, m, n)].id)
  {
    if n > 0 { LastUsedIsLast(gl, m, n - 1); }
  }

  /** However few devices would do, those that have a graph already stay among the ones to choose from. */
  lemma {:induction false} UsedDevicesStay(gl: seq<Device>, m: BackendMemory, layers: LayerSizes, o: Options,
                                           requested: int, backoff: real, k: nat)
    requires 0.0 <= backoff && k < |gl| && HasGraph(m, gl[k].id)
    ensures k < DeviceCount(layers, Remaining(gl, m, backoff, o.overhead), requested, o.requireFull,
                            LastUsed(gl, m, |gl|), o.spread)
  {
    LastUsedIsLast(gl, m, |gl|);
  }

  /** Take the reserve off every device of a group, and note the last one with a graph. */
  method Reserve(gl: seq<Device>, m: BackendMemory, backoff: real, overhead: nat)
    returns (r: seq<Device>, lastUsed: nat)
    requires 0.0 <= backoff
    ensures r == Remaining(gl, m, backoff, overhead) && lastUsed == LastUsed(gl, m, |gl|)
  {
    r, lastUsed := gl, 0;
    for i := 0 to |gl|
      invariant |r| == |gl| && lastUsed == LastUsed(gl, m, i)
      invariant forall k :: 0 <= k < |gl| ==> r[k] == if k < i then Remaining(gl, m, backoff, overhead)[k] else gl[k]
    {
      var j := FindReport(m.gpus, gl[i].id);
      if j < |m.gpus| {
        if m.gpus[j].graph != 0 {
          lastUsed := i;
        }
        var reserved := Reserved(gl[i], m.gpus[j].graph, backoff, overhead);
        r := r[i := r[i].(free := if gl[i].free > reserved then gl[i].free - reserved else 0)];
      } else {
        r := r[i := r[i].(free := 0)];
      }
    }
  }

  method FindReport(gpus: seq<DeviceMemory>, id: DeviceID) returns (j: nat)
    ensures j == ReportOf(gpus, id)
  {
    j := 0;
    while j < |gpus| && gpus[j].id != id
      invariant j <= |gpus| && ReportOf(gpus, id) == j + ReportOf(gpus[j..], id)
    {
      j := j + 1;
    }
  }

  // ---- building the layout ----

  /** The environment of a layout: options of the server and limits on what may be used. */
  datatype Options = Options(requireFull: bool, numGPU: int, spread: bool, overhead: nat)

  /** The list was assigned to the devices of one library group. */
  ghost predicate FromGroup(list: seq<GpuLayers>, layers: LayerSizes, gpus: seq<Device>, m: BackendMemory, o: Options,
                            backoff: real, g: nat)
    requires 0.0 <= backoff && g < |LibraryGroups(gpus)| && LibraryGroups(gpus)[g] != []
  {
    var gl := LibraryGroups(gpus)[g];
    Assigned(list, layers, Remaining(gl, m, backoff, o.overhead), o.requireFull, o.numGPU, LastUsed(gl, m, |gl|),
             o.spread)
  }

  /** How many layers a group of devices takes. */
  function GroupCount(layers: LayerSizes, gl: seq<Device>, m: BackendMemory, o: Options, backoff: real): nat
    requires 0.0 <= backoff && gl != []
  {
    AssignCount(layers, Remaining(gl, m, backoff, o.overhead), o.requireFull, o.numGPU, LastUsed(gl, m, |gl|), o.spread)
  }

  lemma {:induction false} LibraryGroup(gpus: seq<Device>, g: nat)
    requires DistinctIds(gpus) && g < |LibraryGroups(gpus)|
    ensures LibraryGroups(gpus)[g] != [] && DistinctIds(LibraryGroups(gpus)[g])
    ensures forall d :: d in LibraryGroups(gpus)[g] ==> d in gpus
  {
    GroupingOk(gpus, Library, |gpus|);
    var r := GroupUpTo(gpus, Library, |gpus|);
    assert GroupOk(gpus, Library, |gpus|, r.keys[g], r.lists[g]);
    assert gpus[..|gpus|] == gpus;
  }

  method GroupLayout(layers: LayerSizes, gpus: seq<Device>, gl: seq<Device>, m: BackendMemory, o: Options,
                     backoff: real, ghost g: nat)
    returns (list: seq<GpuLayers>)
    requires DistinctIds(gpus) && 0.0 <= backoff && g < |LibraryGroups(gpus)| && gl == LibraryGroups(gpus)[g]
        && gl != []
    ensures FromGroup(list, layers, gpus, m, o, backoff, g) && |Flat(list)| == GroupCount(layers, gl, m, o, backoff)
  {
    LibraryGroup(gpus, g);
    var avail, lastUsed := Reserve(gl, m, backoff, o.overhead);
    list := AssignLayers(layers, avail, o.requireFull, o.numGPU, lastUsed, o.spread);
  }

  /** The layout of library group `g`, or the empty one. */
  ghost predicate FromSome(list: seq<GpuLayers>, layers: LayerSizes, gpus: seq<Device>, m: BackendMemory, o: Options,
                           backoff: real, g: nat)
    requires 0.0 <= backoff
  {
    list == []
    || (g < |LibraryGroups(gpus)| && LibraryGroups(gpus)[g] != [] && FromGroup(list, layers, gpus, m, o, backoff, g))
  }

  /** The most layers that any of the first `k` groups takes. */
  function MostLayers(groups: seq<seq<Device>>, layers: LayerSizes, m: BackendMemory, o: Options, backoff: real,
                      k: nat): nat
    requires 0.0 <= backoff && k <= |groups|
  {
    if k == 0 then 0
    else Max(MostLayers(groups, layers, m, o, backoff, k - 1),
             if groups[k - 1] == [] then 0 else GroupCount(layers, groups[k - 1], m, o, backoff))
  }

  /** Among the layouts of the library groups, one with the most layers; empty when none places any. */
  method BuildLayout(gpus: seq<Device>, m: BackendMemory, o: Options, backoff: real)
    returns (list: seq<GpuLayers>, layers: LayerSizes, ghost from: nat)
    requires SameLayers(m) && DistinctIds(gpus) && 0.0 <= backoff
    ensures SizesOf(m, layers) && FromSome(list, layers, gpus, m, o, backoff, from)
    ensures |Flat(list)| == MostLayers(LibraryGroups(gpus), layers, m, o, backoff, |LibraryGroups(gpus)|)
  {
    layers := CollectSizes(m);
    var groups := ByLibrary(gpus);
    list, from := [], 0;
    for g := 0 to |groups|
      invariant FromSome(list, layers, gpus, m, o, backoff, from)
      invariant |Flat(list)| == MostLayers(groups, layers, m, o, backoff, g)
    {
      LibraryGroup(gpus, g);
      var libraryLayers := GroupLayout(layers, gpus, groups[g], m, o, backoff, g);
      var more := Sum(libraryLayers);
      var now := Sum(list);
      if more > now {
        list, from := libraryLayers, g;
      }
    }
  }

  // ---- what the layout promises ----

  /** The device has its layers, the backoff share, the minimum, the overhead and the graph in its free memory. */
  ghost predicate FitsWithReserve(g: GpuLayers, layers: LayerSizes, gpus: seq<Device>, m: BackendMemory, o: Options,
                                  backoff: real)
    requires 0.0 <= backoff
  {
    exists d :: d in gpus && d.id == g.dev && HasReserve(d, g, layers, m, o, backoff)
  }

  ghost predicate HasReserve(d: Device, g: GpuLayers, layers: LayerSizes, m: BackendMemory, o: Options, backoff: real)
    requires 0.0 <= backoff
  {
    var j := ReportOf(m.gpus, d.id);
    j < |m.gpus|
    && Load(layers, g.layers) + Room(d.free, backoff) + MinimumMemory(d.id) + o.overhead + m.gpus[j].graph <= d.free
  }

  /** No device is oversubscribed: each device used has room for its layers on top of its reserve;
      the layers form one block, and each device appears at most once. */
  lemma {:induction false} NeverOversubscribed(list: seq<GpuLayers>, layers: LayerSizes, gpus: seq<Device>,
                                               m: BackendMemory, o: Options, backoff: real, g: nat)
    requires SameLayers(m) && DistinctIds(gpus) && 0.0 <= backoff
    requires FromSome(list, layers, gpus, m, o, backoff, g)
    ensures DistinctDevs(list)
    ensures exists lo: nat, hi: nat :: lo <= hi <= |layers| && Flat(list) == Range(lo, hi)
              && (lo < hi ==> (hi == |layers| && lo == 0) || hi == |layers| - 1)
    ensures !Forced(o.numGPU, o.requireFull) ==>
              forall k :: 0 <= k < |list| && Load(layers, list[k].layers) > 0 ==>
                  FitsWithReserve(list[k], layers, gpus, m, o, backoff)
  {
    if list == [] {
      assert Flat(list) == Range(0, 0);
    } else {
      var gl := LibraryGroups(gpus)[g];
      var avail := Remaining(gl, m, backoff, o.overhead);
      AssignedSane(list, layers, avail, o.requireFull, o.numGPU, LastUsed(gl, m, |gl|), o.spread);
      LibraryGroup(gpus, g);
      if !Forced(o.numGPU, o.requireFull) {
        forall k | 0 <= k < |list| && Load(layers, list[k].layers) > 0
          ensures FitsWithReserve(list[k], layers, gpus, m, o, backoff) {
          ReserveKept(list[k], layers, gpus, gl, m, o, backoff);
        }
      }
    }
  }

  lemma {:induction false} ReserveKept(g: GpuLayers, layers: LayerSizes, gpus: seq<Device>, gl: seq<Device>,
                                       m: BackendMemory, o: Options, backoff: real)
    requires 0.0 <= backoff && (forall d :: d in gl ==> d in gpus) && Load(layers, g.layers) > 0
    requires Within(layers, Remaining(gl, m, backoff, o.overhead), 1.0, g)
    ensures FitsWithReserve(g, layers, gpus, m, o, backoff)
  {
    var avail := Remaining(gl, m, backoff, o.overhead);
    var a :| a in avail && a.id == g.dev && Load(layers, g.layers) <= Room(a.free, 1.0);
    var i :| 0 <= i < |avail| && avail[i] == a;
    assert gl[i] in gl && gl[i].id == g.dev;
    assert HasReserve(gl[i], g, layers, m, o, backoff);
  }

  // ---- checking the layout ----

  /** The total size of the first `n` layers that are, or are not, among the placed ones. */
  function Part(layers: LayerSizes, placed: seq<int>, n: nat, onGpu: bool): nat
    requires n <= |layers|
  {
    if n == 0 then 0 else Part(layers, placed, n - 1, onGpu) + if (n - 1 in placed) == onGpu then layers[n - 1] else 0
  }

  function Graphs(list: seq<GpuLayers>, m: BackendMemory, n: nat): nat
    requires n <= |list|
  {
    if n == 0 then 0
    else
      var j := ReportOf(m.gpus, list[n - 1].dev);
      Graphs(list, m, n - 1) + if j < |m.gpus| then m.gpus[j].graph else 0
  }

  /** The graphs of the reported devices among some. */
  function ReportedGraphs(gpus: seq<DeviceMemory>, devs: set<DeviceID>): nat {
    if gpus == [] then 0
    else (if gpus[0].id in devs then gpus[0].graph else 0) + ReportedGraphs(gpus[1..], devs)
  }

  lemma {:induction false} OneMoreGraph(gpus: seq<DeviceMemory>, devs: set<DeviceID>, id: DeviceID)
    requires id !in devs && forall i, j :: 0 <= i < j < |gpus| ==> gpus[i].id != gpus[j].id
    ensures var j := ReportOf(gpus, id);
            ReportedGraphs(gpus, devs + {id}) == ReportedGraphs(gpus, devs) + if j < |gpus| then gpus[j].graph else 0
  {
    if gpus != [] {
      if gpus[0].id == id {
        assert forall j :: 0 <= j < |gpus[1..]| ==> gpus[1..][j].id != id;
      }
      OneMoreGraph(gpus[1..], devs, id);
    }
  }

  lemma {:induction false} NoGraphs(gpus: seq<DeviceMemory>)
    ensures ReportedGraphs(gpus, {}) == 0
  {
    if gpus != [] { NoGraphs(gpus[1..]); }
  }

  /** The graphs of a layout are those of the reported devices that it uses, each once. */
  lemma {:induction false} GraphsOfUsed(list: seq<GpuLayers>, m: BackendMemory, n: nat)
    requires n <= |list| && DistinctDevs(list)
    requires forall i, j :: 0 <= i < j < |m.gpus| ==> m.gpus[i].id != m.gpus[j].id
    ensures Graphs(list, m, n) == ReportedGraphs(m.gpus, set k | 0 <= k < n :: list[k].dev)
  {
    var devs := set k | 0 <= k < n :: list[k].dev;
    if n == 0 {
      assert devs == {};
      NoGraphs(m.gpus);
    } else {
      var front := set k | 0 <= k < n - 1 :: list[k].dev;
      GraphsOfUsed(list, m, n - 1);
      assert devs == front + {list[n - 1].dev};
      OneMoreGraph(m.gpus, front, list[n - 1].dev);
    }
  }

  /** Every layer is counted exactly once: on the CPU or on a device. */
  lemma {:induction false} CountedOnce(layers: LayerSizes, placed: seq<int>, n: nat)
    requires n <= |layers|
    ensures Part(layers, placed, n, true) + Part(layers, placed, n, false) == Size(layers, 0, n)
  {
    if n > 0 {
      CountedOnce(layers, placed, n - 1);
      SizeSplit(layers, 0, n - 1, n);
      assert Size(layers, n - 1, n) == layers[n - 1];
    }
  }

  /** For a layout that is one block, the device part is the block's size. */
  lemma {:induction false} BlockPart(layers: LayerSizes, lo: nat, hi: nat, n: nat)
    requires lo <= hi <= |layers| && n <= |layers|
    ensures Part(layers, Range(lo, hi), n, true) == if n <= lo then 0 else Size(layers, lo, Min(n, hi))
  {
    if n > 0 {
      BlockPart(layers, lo, hi, n - 1);
      assert (n - 1) in Range(lo, hi) <==> lo <= n - 1 < hi by {
        if lo <= n - 1 < hi { assert Range(lo, hi)[n - 1 - lo] == n - 1; }
      }
      if lo < n <= hi {
        SizeSplit(layers, lo, n - 1, n);
        assert Size(layers, n - 1, n) == layers[n - 1];
      }
    }
  }

  /** What a built layout needs: its devices hold the layers of its block, and the processor the others. */
  lemma {:induction false} BuiltParts(list: seq<GpuLayers>, layers: LayerSizes, gpus: seq<Device>, m: BackendMemory,
                                      o: Options, backoff: real, g: nat)
    returns (lo: nat, hi: nat)
    requires SameLayers(m) && DistinctIds(gpus) && 0.0 <= backoff
    requires FromSome(list, layers, gpus, m, o, backoff, g)
    ensures lo <= hi <= |layers| && Flat(list) == Range(lo, hi)
    ensures Part(layers, Flat(list), |layers|, true) == Size(layers, lo, hi)
    ensures Part(layers, Flat(list), |layers|, false) == Size(layers, 0, lo) + Size(layers, hi, |layers|)
  {
    NeverOversubscribed(list, layers, gpus, m, o, backoff, g);
    lo, hi :| lo <= hi <= |layers| && Flat(list) == Range(lo, hi);
    BlockPart(layers, lo, hi, |layers|);
    CountedOnce(layers, Flat(list), |layers|);
    SizeSplit(layers, 0, lo, |layers|);
    SizeSplit(layers, lo, hi, |layers|);
  }

  /** The memory needs of a layout, layer by layer. */
  method Account(list: seq<GpuLayers>, layers: LayerSizes, m: BackendMemory) returns (cpuSize: nat, vramSize: nat)
    ensures cpuSize == m.inputWeights + m.cpuGraph + Part(layers, Flat(list), |layers|, false)
    ensures vramSize == Graphs(list, m, |list|) + Part(layers, Flat(list), |layers|, true)
    ensures cpuSize + vramSize == m.inputWeights + m.cpuGraph + Graphs(list, m, |list|) + Size(layers, 0, |layers|)
  {
    cpuSize, vramSize := m.inputWeights + m.cpuGraph, 0;
    for k := 0 to |list|
      invariant vramSize == Graphs(list, m, k)
    {
      var j := FindReport(m.gpus, list[k].dev);
      if j < |m.gpus| {
        vramSize := vramSize + m.gpus[j].graph;
      }
    }
    ghost var placed := Flat(list);
    for i := 0 to |layers|
      invariant cpuSize == m.inputWeights + m.cpuGraph + Part(layers, placed, i, false)
      invariant vramSize == Graphs(list, m, |list|) + Part(layers, placed, i, true)
    {
      var onGpu := IsPlaced(list, i);
      if onGpu {
        vramSize := vramSize + layers[i];
      } else {
        cpuSize := cpuSize + layers[i];
      }
    }
    CountedOnce(layers, placed, |layers|);
  }

  method IsPlaced(list: seq<GpuLayers>, i: int) returns (r: bool)
    ensures r <==> i in Flat(list)
  {
    for k := 0 to |list|
      invariant i !in Flat(list[..k])
    {
      assert list[..k + 1] == list[..k] + [list[k]];
      FlatAppend(list[..k], [list[k]]);
      assert Flat([list[k]]) == list[k].layers + Flat([]);
      for l := 0 to |list[k].layers|
        invariant i !in list[k].layers[..l]
      {
        if list[k].layers[l] == i {
          InFlat(list, k);
          return true;
        }
      }
    }
    assert list[..|list|] == list;
    return false;
  }

  datatype System = System(free: nat, swap: nat, total: nat, darwin: bool)

  datatype Verdict = Accepted | NeedsFull | NotEnoughMemory

  /** Refuse a layout that offloads too little when everything is required, or that needs more
      system memory than there is. Where memory is unified an oversized layout is not refused:
      offloading is switched off for later layouts, and this one stands. */
  method VerifyLayout(system: System, anyGpu: bool, list: seq<GpuLayers>, layers: LayerSizes, m: BackendMemory,
                      o: Options)
    returns (v: Verdict, numGPU: int)
    ensures v == NeedsFull <==> o.requireFull
                                && ((anyGpu && |Flat(list)| < |layers| && (o.numGPU < 0 || |Flat(list)| < o.numGPU))
                                    || m.inputWeights + m.cpuGraph + Part(layers, Flat(list), |layers|,
                                          false) > system.free)
    ensures v == NotEnoughMemory <==> v != NeedsFull && !system.darwin
                                      && m.inputWeights + m.cpuGraph + Part(layers, Flat(list), |layers|,
                                            false) > system.free + system.swap
    ensures numGPU == if v == Accepted && system.darwin
        && Graphs(list, m, |list|) + Part(layers, Flat(list), |layers|, true) > system.total
                      then 0 else o.numGPU
  {
    numGPU := o.numGPU;
    var cpuSize, vramSize := Account(list, layers, m);
    var sum := Sum(list);
    if o.requireFull {
      if anyGpu && sum < |layers| && (o.numGPU < 0 || sum < o.numGPU) {
        return NeedsFull, numGPU;
      }
      if cpuSize > system.free {
        return NeedsFull, numGPU;
      }
    }
    if !system.darwin {
      if cpuSize > system.free + system.swap {
        return NotEnoughMemory, numGPU;
      }
    } else if vramSize > system.total {
      numGPU := 0;
    }
    return Accepted, numGPU;
  }
}
