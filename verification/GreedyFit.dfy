/** Packing layers onto the devices of one group, last layer and last device first. */
module GreedyFit {
  datatype DeviceID = DeviceID(id: string, library: string)

  datatype Device = Device(id: DeviceID, free: nat, integrated: bool)

  /** The layers placed on one device. */
  datatype GpuLayers = GpuLayers(dev: DeviceID, layers: seq<int>)

  type LayerSizes = seq<nat>

  function Min(a: int, b: int): int { if a < b then a else b }

  function Max(a: int, b: int): int { if a < b then b else a }

  /** The space for layers on a device at a capacity factor; conversion to an integer truncates. */
  function Room(free: nat, capacity: real): (r: nat)
    requires 0.0 <= capacity
  {
    (free as real * capacity).Floor
  }

  function Rooms(gpus: seq<Device>, capacity: real): (r: seq<nat>)
    requires 0.0 <= capacity
    ensures |r| == |gpus|
  {
    seq(|gpus|, i requires 0 <= i < |gpus| => Room(gpus[i].free, capacity))
  }

  /** The total size of layers lo, ..., hi-1. */
  function Size(layers: LayerSizes, lo: nat, hi: nat): nat
    requires lo <= hi <= |layers|
    decreases hi - lo
  {
    if lo == hi then 0 else layers[lo] + Size(layers, lo + 1, hi)
  }

  lemma {:induction false} SizeSplit(layers: LayerSizes, lo: nat, mid: nat, hi: nat)
    requires lo <= mid <= hi <= |layers|
    ensures Size(layers, lo, hi) == Size(layers, lo, mid) + Size(layers, mid, hi)
    decreases mid - lo
  {
    if lo < mid { SizeSplit(layers, lo + 1, mid, hi); }
  }

  // ---- one device ----

  /** How far down one device reaches from `hi` with this much space. */
  function Fill(layers: LayerSizes, hi: nat, room: nat): (lo: nat)
    requires hi <= |layers|
    ensures lo <= hi
  {
    if hi == 0 || layers[hi - 1] > room then hi else Fill(layers, hi - 1, room - layers[hi - 1])
  }

  /** What one device takes fits, and it could not have taken one layer more. */
  lemma {:induction false} FillIsMost(layers: LayerSizes, hi: nat, room: nat, lo: nat)
    requires lo <= hi <= |layers|
    ensures Size(layers, lo, hi) <= room <==> Fill(layers, hi, room) <= lo
  {
    if lo < hi {
      SizeSplit(layers, lo, hi - 1, hi);
      if layers[hi - 1] <= room { FillIsMost(layers, hi - 1, room - layers[hi - 1], lo); }
    }
  }

  // ---- all devices of the group ----

  /** How far down devices j, j+1, ... reach when each takes as much as it can, the last one first. */
  function Reach(layers: LayerSizes, rooms: seq<nat>, j: nat): (lo: nat)
    requires j <= |rooms|
    ensures lo <= |layers|
    decreases |rooms| - j
  {
    if j == |rooms| then |layers| else Fill(layers, Reach(layers, rooms, j + 1), rooms[j])
  }

  lemma {:induction false} ReachFalls(layers: LayerSizes, rooms: seq<nat>, j: nat)
    requires j <= |rooms|
    ensures Reach(layers, rooms, 0) <= Reach(layers, rooms, j)
  {
    if j > 0 { ReachFalls(layers, rooms, j - 1); }
  }

  /** An in-order assignment of the last layers: device j takes cuts[j], ..., cuts[j+1]-1. */
  ghost predicate Fits(layers: LayerSizes, rooms: seq<nat>, cuts: seq<nat>) {
    && |cuts| == |rooms| + 1 && cuts[|rooms|] == |layers|
    && (forall j :: 0 <= j < |rooms| ==> cuts[j] <= cuts[j + 1])
    && (forall j :: 0 <= j <= |rooms| ==> cuts[j] <= |layers|)
    && (forall j :: 0 <= j < |rooms| ==> Size(layers, cuts[j], cuts[j + 1]) <= rooms[j])
  }

  /** Greedy stays ahead: no assignment that fits reaches further down, at any device. */
  lemma {:induction false} StaysAhead(layers: LayerSizes, rooms: seq<nat>, cuts: seq<nat>, j: nat)
    requires Fits(layers, rooms, cuts) && j <= |rooms|
    ensures Reach(layers, rooms, j) <= cuts[j]
    decreases |rooms| - j
  {
    if j < |rooms| {
      StaysAhead(layers, rooms, cuts, j + 1);
      var hi := Reach(layers, rooms, j + 1);
      if cuts[j] < hi {
        SizeSplit(layers, cuts[j], hi, cuts[j + 1]);
        FillIsMost(layers, hi, rooms[j], cuts[j]);
      }
    }
  }

  function GreedyCuts(layers: LayerSizes, rooms: seq<nat>): (cuts: seq<nat>)
    ensures |cuts| == |rooms| + 1
  {
    seq(|rooms| + 1, j requires 0 <= j <= |rooms| => Reach(layers, rooms, j))
  }

  lemma {:induction false} GreedyFits(layers: LayerSizes, rooms: seq<nat>)
    ensures Fits(layers, rooms, GreedyCuts(layers, rooms))
  {
    forall j | 0 <= j < |rooms|
      ensures Size(layers, Reach(layers, rooms, j), Reach(layers, rooms, j + 1)) <= rooms[j]
    {
      FillIsMost(layers, Reach(layers, rooms, j + 1), rooms[j], Reach(layers, rooms, j));
    }
  }

  /** The number of layers placed, at most the number requested when that is not negative. */
  function Count(layers: LayerSizes, rooms: seq<nat>, requested: int): (n: nat)
    ensures n <= |layers|
  {
    var n := |layers| - Reach(layers, rooms, 0);
    if requested < 0 then n else Min(n, requested)
  }

  /** The packer places the most layers of any in-order assignment that fits, up to the request;
      and as many as it places can be placed. */
  lemma {:induction false} GreedyOptimal(layers: LayerSizes, rooms: seq<nat>, requested: int)
    ensures forall cuts :: Fits(layers, rooms, cuts) && (requested < 0 || |layers| - cuts[0] <= requested) ==>
              |layers| - cuts[0] <= Count(layers, rooms, requested)
    ensures exists cuts :: Fits(layers, rooms, cuts) && |layers| - cuts[0] >= Count(layers, rooms, requested)
  {
    forall cuts | Fits(layers, rooms, cuts) ensures Reach(layers, rooms, 0) <= cuts[0] {
      StaysAhead(layers, rooms, cuts, 0);
    }
    GreedyFits(layers, rooms);
    assert |layers| - GreedyCuts(layers, rooms)[0] >= Count(layers, rooms, requested);
  }

  /** More space never places fewer layers. */
  lemma {:induction false} CountMonotone(layers: LayerSizes, rooms: seq<nat>, rooms': seq<nat>, requested: int)
    requires |rooms| == |rooms'| && forall j :: 0 <= j < |rooms| ==> rooms[j] <= rooms'[j]
    ensures Count(layers, rooms, requested) <= Count(layers, rooms', requested)
  {
    GreedyFits(layers, rooms);
    StaysAhead(layers, rooms', GreedyCuts(layers, rooms), 0);
  }

  lemma {:induction false} RoomsMonotone(gpus: seq<Device>, c: real, c': real)
    requires 0.0 <= c <= c'
    ensures forall j :: 0 <= j < |gpus| ==> Rooms(gpus, c)[j] <= Rooms(gpus, c')[j]
  {
    forall j | 0 <= j < |gpus| ensures Room(gpus[j].free, c) <= Room(gpus[j].free, c') {
      RoomMonotone(gpus[j].free, c, c');
    }
  }

  lemma {:induction false} RoomMonotone(free: nat, c: real, c': real)
    requires 0.0 <= c <= c'
    ensures Room(free, c) <= Room(free, c')
  {
    ScaleMonotone(free as real, c, c');
    FloorMonotone(free as real * c, free as real * c');
  }

  lemma {:induction false} FloorMonotone(x: real, y: real)
    requires x <= y
    ensures x.Floor <= y.Floor
  {
  }

  lemma {:induction false} ScaleMonotone(x: real, c: real, c': real)
    requires 0.0 <= x && c <= c'
    ensures x * c <= x * c'
  {
    assert x * (c' - c) >= 0.0;
  }

  // ---- lists of placed layers ----

  /** The numbers lo, lo+1, ..., hi-1. */
  function Range(lo: int, hi: int): (r: seq<int>)
    requires lo <= hi
    ensures |r| == hi - lo
  {
    seq(hi - lo, i => lo + i)
  }

  function Flat(list: seq<GpuLayers>): seq<int> {
    if list == [] then [] else list[0].layers + Flat(list[1..])
  }

  lemma {:induction false} FlatAppend(a: seq<GpuLayers>, b: seq<GpuLayers>)
    ensures Flat(a + b) == Flat(a) + Flat(b)
  {
    if a == [] {
      assert a + b == b;
    } else {
      FlatAppend(a[1..], b);
      assert (a + b)[1..] == a[1..] + b && (a + b)[0] == a[0];
      assert Flat(a + b) == a[0].layers + (Flat(a[1..]) + Flat(b));
    }
  }

  /** The number of layers in a list. */
  method Sum(list: seq<GpuLayers>) returns (sum: nat)
    ensures sum == |Flat(list)|
  {
    sum := 0;
    for i := 0 to |list|
      invariant sum == |Flat(list[..i])|
    {
      assert list[..i + 1] == list[..i] + [list[i]];
      FlatAppend(list[..i], [list[i]]);
      assert Flat([list[i]]) == list[i].layers + Flat([]);
      sum := sum + |list[i].layers|;
    }
    assert list[..|list|] == list;
  }

  // ---- the packer ----

  function BlockOf(layers: LayerSizes, gpus: seq<Device>, rooms: seq<nat>, j: nat): GpuLayers
    requires j < |gpus| == |rooms|
  {
    GpuLayers(gpus[j].id, Range(Reach(layers, rooms, j), Reach(layers, rooms, j + 1)))
  }

  /** Devices d, d+1, ... with the consecutive blocks that greedy packing gives them, down to `start`. */
  function Blocks(layers: LayerSizes, gpus: seq<Device>, rooms: seq<nat>, d: nat, start: nat): (list: seq<GpuLayers>)
    requires d < |gpus| == |rooms| && start <= Reach(layers, rooms, d + 1)
    ensures |list| == |gpus| - d
  {
    [GpuLayers(gpus[d].id, Range(start, Reach(layers, rooms, d + 1)))]
    + seq(|gpus| - d - 1, k requires 0 <= k < |gpus| - d - 1 => BlockOf(layers, gpus, rooms, d + 1 + k))
  }

  ghost predicate Packed(list: seq<GpuLayers>, layers: LayerSizes, gpus: seq<Device>, rooms: seq<nat>, d: nat,
                         start: nat) {
    && d < |gpus| == |rooms| && Reach(layers, rooms, d) <= start <= Reach(layers, rooms, d + 1)
    && list == Blocks(layers, gpus, rooms, d, start)
  }

  /** While packing: the current device has reached `i` and has `room` left. */
  ghost predicate Filling(list: seq<GpuLayers>, layers: LayerSizes, gpus: seq<Device>, rooms: seq<nat>, d: nat,
                          i: nat, room: int) {
    && i <= |layers| && 0 <= room && Packed(list, layers, gpus, rooms, d, i)
    && Fill(layers, i, room) == Reach(layers, rooms, d)
  }

  function Taken(list: seq<GpuLayers>, i: int): seq<GpuLayers>
    requires list != []
  {
    [list[0].(layers := [i] + list[0].layers)] + list[1..]
  }

  lemma {:induction false} Takes(list: seq<GpuLayers>, layers: LayerSizes, gpus: seq<Device>, rooms: seq<nat>, d: nat,
                                 i: nat, room: int)
    requires Filling(list, layers, gpus, rooms, d, i, room) && 0 < i && layers[i - 1] <= room
    ensures Filling(Taken(list, i - 1), layers, gpus, rooms, d, i - 1, room - layers[i - 1])
  {
    assert [i - 1] + Range(i, Reach(layers, rooms, d + 1)) == Range(i - 1, Reach(layers, rooms, d + 1));
  }

  lemma {:induction false} Spills(list: seq<GpuLayers>, layers: LayerSizes, gpus: seq<Device>, rooms: seq<nat>,
                                  d: nat, i: nat, room: int)
    requires Filling(list, layers, gpus, rooms, d, i, room) && 0 < i && layers[i - 1] > room
    ensures Reach(layers, rooms, d) == i
    ensures 0 < d ==> Filling([GpuLayers(gpus[d - 1].id, [])] + list, layers, gpus, rooms, d - 1, i, rooms[d - 1])
  {
    if 0 < d {
      assert list[0] == BlockOf(layers, gpus, rooms, d);
      assert [GpuLayers(gpus[d - 1].id, [])] + list == Blocks(layers, gpus, rooms, d - 1, i);
    }
  }

  lemma {:induction false} TailFlat(list: seq<GpuLayers>, layers: LayerSizes, gpus: seq<Device>, rooms: seq<nat>,
                                    d: nat, start: nat, k: nat)
    requires Packed(list, layers, gpus, rooms, d, start) && 1 <= k <= |list|
    ensures Flat(list[k..]) == Range(Reach(layers, rooms, d + k), |layers|)
    decreases |list| - k
  {
    if k < |list| {
      TailFlat(list, layers, gpus, rooms, d, start, k + 1);
      assert list[k] == BlockOf(layers, gpus, rooms, d + k);
      assert list[k..][1..] == list[k + 1..];
    }
  }

  /** A packing holds the last layers, in order. */
  lemma {:induction false} PackedFlat(list: seq<GpuLayers>, layers: LayerSizes, gpus: seq<Device>, rooms: seq<nat>,
                                      d: nat, start: nat)
    requires Packed(list, layers, gpus, rooms, d, start)
    ensures Flat(list) == Range(start, |layers|)
  {
    TailFlat(list, layers, gpus, rooms, d, start, 1);
    assert Flat(list) == list[0].layers + Flat(list[1..]);
  }

  /** Assign layers one by one, spilling over to the device before when one is full. */
  method Greedy(layers: LayerSizes, gpus: seq<Device>, capacity: real, requested: int)
    returns (list: seq<GpuLayers>, ghost d: nat)
    requires gpus != [] && 0.0 <= capacity
    ensures Packed(list, layers, gpus, Rooms(gpus, capacity), d,
                   |layers| - Count(layers, Rooms(gpus, capacity), requested))
    ensures Flat(list) == Range(|layers| - Count(layers, Rooms(gpus, capacity), requested), |layers|)
  {
    ghost var rooms := Rooms(gpus, capacity);
    var device := |gpus| - 1;
    list := [GpuLayers(gpus[device].id, [])];
    var freeSpace := Room(gpus[device].free, capacity);
    var i := |layers|;
    while i > 0
      invariant 0 <= i <= |layers| && 0 <= device < |gpus|
      invariant Filling(list, layers, gpus, rooms, device, i, freeSpace)
      invariant requested >= 0 ==> |layers| - i <= requested
    {
      if requested >= 0 && |layers| - i >= requested {
        break;
      }
      while layers[i - 1] > freeSpace
        invariant 0 <= device < |gpus| && Filling(list, layers, gpus, rooms, device, i, freeSpace)
        decreases device
      {
        Spills(list, layers, gpus, rooms, device, i, freeSpace);
        ReachFalls(layers, rooms, device);
        if device == 0 {
          PackedFlat(list, layers, gpus, rooms, 0, i);
          return list, 0;
        }
        device := device - 1;
        list := [GpuLayers(gpus[device].id, [])] + list;
        freeSpace := Room(gpus[device].free, capacity);
      }
      Takes(list, layers, gpus, rooms, device, i, freeSpace);
      list := Taken(list, i - 1);
      freeSpace := freeSpace - layers[i - 1];
      i := i - 1;
    }
    ReachFalls(layers, rooms, device);
    PackedFlat(list, layers, gpus, rooms, device, i);
    d := device;
  }
}
