/** The ordered table of altitude bands the ascent passes through, and the
    lookup that maps an altitude to the index of the band containing it. */
module Layers {

  datatype Option<T> = None | Some(value: T)

  /** A layer bound: a finite altitude in metres, or one of the two infinities
      the table uses at its ends. */
  datatype Bound = NegInf | Fin(x: real) | PosInf

  /** `altitude >= b`, as the comparison with -Infinity/Infinity evaluates. */
  predicate AtOrAbove(altitude: real, b: Bound)
  {
    match b
    case NegInf => true
    case Fin(x) => altitude >= x
    case PosInf => false
  }

  /** `altitude < b`, as the comparison with -Infinity/Infinity evaluates. */
  predicate Below(altitude: real, b: Bound)
  {
    match b
    case NegInf => false
    case Fin(x) => altitude < x
    case PosInf => true
  }

  /** The order of the extended reals. */
  predicate BoundLe(a: Bound, b: Bound)
  {
    match (a, b)
    case (NegInf, _) => true
    case (_, PosInf) => true
    case (Fin(x), Fin(y)) => x <= y
    case _ => false
  }

  predicate BoundLt(a: Bound, b: Bound)
  {
    BoundLe(a, b) && a != b
  }

  /** The names the layers are displayed under. */
  datatype LayerName =
    | Surface | Troposphere | Stratosphere | Mesosphere
    | Thermosphere | Exosphere | NearSpace | InnerSolarSystem
    | OuterSolarSystem | InterstellarSpace | DeepSpace | IntergalacticVoid
    | CosmicWeb | EdgeOfObservableUniverse

  /** A band `[minAlt, maxAlt)` with the metadata the renderer uses
      (the colour gradient is presentation only and is not kept). */
  datatype Layer = Layer(name: LayerName, minAlt: Bound, maxAlt: Bound, stars: nat, galaxies: nat, final: bool)

  predicate InBand(l: Layer, altitude: real)
  {
    AtOrAbove(altitude, l.minAlt) && Below(altitude, l.maxAlt)
  }

  const AU: real := 149600000000.0
  const LIGHT_YEAR: real := 9461000000000000.0
  const OBSERVABLE_UNIVERSE_RADIUS: real := 46.5 * 1000000000.0 * LIGHT_YEAR

  /** The number of layers in `Table`. */
  const LAYER_COUNT: nat := 14

  const Table: seq<Layer> := [
    Layer(Surface, NegInf, Fin(0.0), 0, 0, false),
    Layer(Troposphere, Fin(0.0), Fin(15000.0), 0, 0, false),
    Layer(Stratosphere, Fin(15000.0), Fin(50000.0), 0, 0, false),
    Layer(Mesosphere, Fin(50000.0), Fin(85000.0), 0, 0, false),
    Layer(Thermosphere, Fin(85000.0), Fin(600000.0), 5, 0, false),
    Layer(Exosphere, Fin(600000.0), Fin(10000000.0), 30, 0, false),
    Layer(NearSpace, Fin(10000000.0), Fin(AU / 2.0), 80, 0, false),
    Layer(InnerSolarSystem, Fin(AU / 2.0), Fin(5.0 * AU), 150, 0, false),
    Layer(OuterSolarSystem, Fin(5.0 * AU), Fin(50.0 * AU), 200, 0, false),
    Layer(InterstellarSpace, Fin(50.0 * AU), Fin(2.0 * LIGHT_YEAR), 300, 1, false),
    Layer(DeepSpace, Fin(2.0 * LIGHT_YEAR), Fin(1000000.0 * LIGHT_YEAR), 200, 5, false),
    Layer(IntergalacticVoid, Fin(1000000.0 * LIGHT_YEAR), Fin(1000000000.0 * LIGHT_YEAR), 50, 20, false),
    Layer(CosmicWeb, Fin(1000000000.0 * LIGHT_YEAR), Fin(OBSERVABLE_UNIVERSE_RADIUS * 0.9), 20, 50, false),
    Layer(EdgeOfObservableUniverse, Fin(OBSERVABLE_UNIVERSE_RADIUS * 0.9), PosInf, 5, 100, true)
  ]

  /** Each band ends where the next one begins. */
  ghost predicate Contiguous(layers: seq<Layer>)
  {
    forall i :: 0 <= i < |layers| - 1 ==> layers[i].maxAlt == layers[i + 1].minAlt
  }

  /** Every band `[minAlt, maxAlt)` is non-empty. */
  ghost predicate NonEmptyBands(layers: seq<Layer>)
  {
    forall i :: 0 <= i < |layers| ==> BoundLt(layers[i].minAlt, layers[i].maxAlt)
  }

  /** The table is a contiguous ascending partition of the whole real line
      whose only final layer is its last one. */
  ghost predicate IsPartition(layers: seq<Layer>)
  {
    && |layers| > 0
    && layers[0].minAlt == NegInf
    && layers[|layers| - 1].maxAlt == PosInf
    && Contiguous(layers)
    && NonEmptyBands(layers)
    && (forall i :: 0 <= i < |layers| ==> (layers[i].final <==> i == |layers| - 1))
  }

  lemma TableIsPartition()
    ensures |Table| == 14
    ensures IsPartition(Table)
  {
  }

  /** Bands are ascending: a band ends no higher than any later band begins. */
  lemma {:induction false} BandsAscend(layers: seq<Layer>, i: nat, j: nat)
    requires Contiguous(layers) && NonEmptyBands(layers)
    requires i < j < |layers|
    ensures BoundLe(layers[i].maxAlt, layers[j].minAlt)
    decreases j - i
  {
    if i + 1 < j {
      BandsAscend(layers, i + 1, j);
      assert BoundLt(layers[i + 1].minAlt, layers[i + 1].maxAlt);
    }
  }

  /** No altitude lies in two bands of a partition. */
  lemma BandsDisjoint(layers: seq<Layer>, altitude: real, i: nat, j: nat)
    requires Contiguous(layers) && NonEmptyBands(layers)
    requires i < |layers| && j < |layers|
    requires InBand(layers[i], altitude) && InBand(layers[j], altitude)
    ensures i == j
  {
    if i < j {
      BandsAscend(layers, i, j);
    } else if j < i {
      BandsAscend(layers, j, i);
    }
  }

  /** The index of the first band at or after `from` that contains `altitude`. */
  function FirstBandFrom(layers: seq<Layer>, altitude: real, from: nat): (r: Option<nat>)
    requires from <= |layers|
    ensures r.Some? ==> from <= r.value < |layers| && InBand(layers[r.value], altitude)
    ensures r.Some? ==> forall j :: from <= j < r.value ==> !InBand(layers[j], altitude)
    ensures r.None? ==> forall j :: from <= j < |layers| ==> !InBand(layers[j], altitude)
    decreases |layers| - from
  {
    if from == |layers| then None
    else if InBand(layers[from], altitude) then Some(from)
    else FirstBandFrom(layers, altitude, from + 1)
  }

  /** Any altitude at or above the start of band `k` of a partition lies in
      band `k` or a later one. */
  lemma {:induction false} PartitionCoversFrom(layers: seq<Layer>, altitude: real, k: nat)
    requires IsPartition(layers)
    requires k < |layers| && AtOrAbove(altitude, layers[k].minAlt)
    ensures FirstBandFrom(layers, altitude, k).Some?
    decreases |layers| - k
  {
    if !InBand(layers[k], altitude) {
      assert k + 1 < |layers|;
      assert layers[k].maxAlt == layers[k + 1].minAlt;
      PartitionCoversFrom(layers, altitude, k + 1);
    }
  }

  /** Every real altitude lies in some band of a partition. */
  lemma PartitionCovers(layers: seq<Layer>, altitude: real)
    requires IsPartition(layers)
    ensures FirstBandFrom(layers, altitude, 0).Some?
  {
    PartitionCoversFrom(layers, altitude, 0);
  }

  /** The index `getCurrentLayer` returns: the stored index when its band still
      holds the altitude, otherwise the first band that does, otherwise the last
      layer when the altitude reaches its lower bound, otherwise 0. */
  function Resolve(layers: seq<Layer>, stored: nat, altitude: real): (r: nat)
    requires stored < |layers|
    ensures r < |layers|
    ensures InBand(layers[stored], altitude) ==> r == stored
    ensures !InBand(layers[stored], altitude) && (exists j :: 0 <= j < |layers| && InBand(layers[j], altitude)) ==>
              InBand(layers[r], altitude) && forall j :: 0 <= j < r ==> !InBand(layers[j], altitude)
    ensures (forall j :: 0 <= j < |layers| ==> !InBand(layers[j], altitude)) ==>
              r == if AtOrAbove(altitude, layers[|layers| - 1].minAlt) then |layers| - 1 else 0
  {
    if InBand(layers[stored], altitude) then stored
    else match FirstBandFrom(layers, altitude, 0)
      case Some(i) => i
      case None => if AtOrAbove(altitude, layers[|layers| - 1].minAlt) then |layers| - 1 else 0
  }

  /** The fast path, the linear search and the two fallbacks of
      `getCurrentLayer`, with the stored index already known to be in range. */
  method GetCurrentLayer(layers: seq<Layer>, stored: nat, altitude: real) returns (r: nat)
    requires stored < |layers|
    ensures r == Resolve(layers, stored, altitude)
  {
    var cur := layers[stored];
    if AtOrAbove(altitude, cur.minAlt) && Below(altitude, cur.maxAlt) {
      return stored;
    }
    var i := 0;
    while i < |layers|
      invariant 0 <= i <= |layers|
      invariant FirstBandFrom(layers, altitude, i) == FirstBandFrom(layers, altitude, 0)
    {
      if AtOrAbove(altitude, layers[i].minAlt) && Below(altitude, layers[i].maxAlt) {
        return i;
      }
      i := i + 1;
    }
    if AtOrAbove(altitude, layers[|layers| - 1].minAlt) {
      return |layers| - 1;
    }
    return 0;
  }

  /** Over a partition the resolved band always contains the altitude, so
      neither fallback of the lookup is ever taken, and the band is the only
      one containing it. */
  lemma ResolveInBand(layers: seq<Layer>, stored: nat, altitude: real)
    requires IsPartition(layers) && stored < |layers|
    ensures InBand(layers[Resolve(layers, stored, altitude)], altitude)
    ensures forall j :: 0 <= j < |layers| && InBand(layers[j], altitude) ==> j == Resolve(layers, stored, altitude)
  {
    PartitionCovers(layers, altitude);
    var r := Resolve(layers, stored, altitude);
    forall j | 0 <= j < |layers| && InBand(layers[j], altitude)
      ensures j == r
    {
      BandsDisjoint(layers, altitude, j, r);
    }
  }

  /** Over the table, altitude 0 and above never resolves to "Surface":
      the ground level itself is in the Troposphere. */
  lemma NonNegativeAltitudeAboveSurface(stored: nat, altitude: real)
    requires stored < |Table| && altitude >= 0.0
    ensures Resolve(Table, stored, altitude) >= 1
    ensures Table[Resolve(Table, stored, altitude)].name != Surface
  {
    TableIsPartition();
    ResolveInBand(Table, stored, altitude);
  }

  /** Over the table the resolved band contains the altitude, and it is above
      "Surface" from altitude 0 up. */
  lemma TableResolveInBand(stored: nat, altitude: real)
    requires stored < |Table|
    ensures Resolve(Table, stored, altitude) < |Table| == LAYER_COUNT
    ensures InBand(Table[Resolve(Table, stored, altitude)], altitude)
    ensures altitude >= 0.0 ==> Resolve(Table, stored, altitude) >= 1
  {
    TableIsPartition();
    ResolveInBand(Table, stored, altitude);
  }

  /** Leaving the Mesosphere (index 3) at 500 km resolves to the
      Thermosphere band `[85000, 600000)`. */
  lemma ThermosphereExample()
    ensures Resolve(Table, 3, 500000.0) == 4
    ensures Table[4].name == Thermosphere
  {
    TableIsPartition();
    assert InBand(Table[4], 500000.0);
    ResolveInBand(Table, 3, 500000.0);
  }
}
