/** Who holds which lane (`api/app/sim/zones.py`). */
module Zones {
  import opened Common
  import opened BattleMap
  import opened BattleWorld

  datatype Occupancy = Occupancy(zoneId: string, counts: PerSide<nat>, laneCounts: PerSide<nat>, holder: Option<Side>)

  /** The side standing there alone. */
  function HolderOf(counts: PerSide<nat>): Option<Side> {
    if counts.north > 0 && counts.south == 0 then Some(North)
    else if counts.south > 0 && counts.north == 0 then Some(South)
    else None
  }

  predicate OnHotspot(config: MapConfig, zone: ZoneConfig, side: Side, unit: Unit) {
    IsAlive(unit) && unit.side == side && unit.kind == Mage && HotspotContains(config, zone, unit.position)
  }

  predicate InLane(zone: ZoneConfig, side: Side, unit: Unit) {
    IsAlive(unit) && unit.side == side && InZone(zone, unit.position)
  }

  /** Living mages of one side standing in one hotspot. */
  function HotspotCount(config: MapConfig, zone: ZoneConfig, side: Side, units: seq<Unit>): nat {
    if units == [] then 0
    else HotspotCount(config, zone, side, units[..|units| - 1])
         + if OnHotspot(config, zone, side, units[|units| - 1]) then 1 else 0
  }

  function LaneCount(zone: ZoneConfig, side: Side, units: seq<Unit>): nat {
    if units == [] then 0
    else LaneCount(zone, side, units[..|units| - 1]) + if InLane(zone, side, units[|units| - 1]) then 1 else 0
  }

  function HotspotCounts(config: MapConfig, zone: ZoneConfig, units: seq<Unit>): PerSide<nat> {
    PerSide(HotspotCount(config, zone, North, units), HotspotCount(config, zone, South, units))
  }

  function LaneCounts(zone: ZoneConfig, units: seq<Unit>): PerSide<nat> {
    PerSide(LaneCount(zone, North, units), LaneCount(zone, South, units))
  }

  function OccupancyOf(config: MapConfig, zone: ZoneConfig, units: seq<Unit>): Occupancy {
    var counts := HotspotCounts(config, zone, units);
    Occupancy(zone.id, counts, LaneCounts(zone, units), HolderOf(counts))
  }

  /** A lane is held by a side exactly when it has a living mage on the hotspot and the other has none. */
  lemma HeldMeansAloneOnHotspot(config: MapConfig, zone: ZoneConfig, units: seq<Unit>, side: Side)
    ensures OccupancyOf(config, zone, units).holder == Some(side)
      <==> ((exists u :: u in units && OnHotspot(config, zone, side, u))
            && !(exists u :: u in units && OnHotspot(config, zone, Opposing(side), u)))
  {
    CountedMeansPresent(config, zone, North, units);
    CountedMeansPresent(config, zone, South, units);
  }

  lemma {:induction false} CountedMeansPresent(config: MapConfig, zone: ZoneConfig, side: Side, units: seq<Unit>)
    ensures HotspotCount(config, zone, side, units) > 0
      <==> exists u :: u in units && OnHotspot(config, zone, side, u)
  {
    if units != [] {
      CountedMeansPresent(config, zone, side, units[..|units| - 1]);
      assert units == units[..|units| - 1] + [units[|units| - 1]];
    }
  }

  // ---- the one pass the server makes ----

  lemma {:induction false} FirstZoneIsContaining(zones: seq<ZoneConfig>, position: Vec2)
    ensures match ZoneContaining(zones, position)
            case Some(k) => k < |zones| && InZone(zones[k], position)
            case None => forall k :: 0 <= k < |zones| ==> !InZone(zones[k], position)
  {
    if zones != [] && !InZone(zones[0], position) {
      FirstZoneIsContaining(zones[1..], position);
      if ZoneContaining(zones[1..], position).None? {
        forall k | 0 <= k < |zones| ensures !InZone(zones[k], position) {
          if k > 0 { assert zones[k] == zones[1..][k - 1]; }
        }
      }
    }
  }

  lemma HotspotInsideZone(config: MapConfig, zone: ZoneConfig, position: Vec2)
    requires ZoneFits(config, zone) && HotspotContains(config, zone, position)
    ensures InZone(zone, position)
  {
  }

  lemma NeverInTwoZones(config: MapConfig, position: Vec2, i: nat, j: nat)
    requires ValidMap(config) && i < j < |config.zones|
    ensures !InZone(config.zones[i], position) || !InZone(config.zones[j], position)
  {
    assert ZonesApart(config.zones[i], config.zones[j]);
  }

  /** On a valid map a position is in at most one lane, so the first match is the only one. */
  lemma OnlyOneZone(config: MapConfig, position: Vec2, k: nat)
    requires ValidMap(config) && k < |config.zones|
    ensures InZone(config.zones[k], position) <==> ZoneContaining(config.zones, position) == Some(k)
  {
    FirstZoneIsContaining(config.zones, position);
    var found := ZoneContaining(config.zones, position);
    if found.Some? && found.value < k {
      NeverInTwoZones(config, position, found.value, k);
    } else if found.Some? && found.value > k {
      NeverInTwoZones(config, position, k, found.value);
    }
  }

  function Bump(counts: PerSide<nat>, side: Side): PerSide<nat> {
    counts.With(side, counts.At(side) + 1)
  }

  lemma CountsStep(config: MapConfig, zone: ZoneConfig, units: seq<Unit>, i: nat)
    requires i < |units|
    ensures HotspotCounts(config, zone, units[..i + 1])
         == if OnHotspot(config, zone, units[i].side, units[i])
            then Bump(HotspotCounts(config, zone, units[..i]), units[i].side)
            else HotspotCounts(config, zone, units[..i])
    ensures LaneCounts(zone, units[..i + 1])
         == if InLane(zone, units[i].side, units[i])
            then Bump(LaneCounts(zone, units[..i]), units[i].side)
            else LaneCounts(zone, units[..i])
  {
    assert units[..i + 1][..i] == units[..i];
    assert units[i].side == North || units[i].side == South;
  }

  /** Both tallies, after the first `i` units. */
  ghost predicate Tallied(config: MapConfig, units: seq<Unit>, i: nat,
                          onHotspot: seq<PerSide<nat>>, inLane: seq<PerSide<nat>>)
    requires i <= |units|
  {
    && |onHotspot| == |inLane| == |config.zones|
    && forall k :: 0 <= k < |config.zones| ==>
         && onHotspot[k] == HotspotCounts(config, config.zones[k], units[..i])
         && inLane[k] == LaneCounts(config.zones[k], units[..i])
  }

  lemma TallyStep(config: MapConfig, units: seq<Unit>, i: nat,
                  onHotspot: seq<PerSide<nat>>, inLane: seq<PerSide<nat>>)
    requires ValidMap(config) && i < |units| && Tallied(config, units, i, onHotspot, inLane)
    ensures var unit := units[i];
      var at := ZoneContaining(config.zones, unit.position);
      if !IsAlive(unit) || at.None? then Tallied(config, units, i + 1, onHotspot, inLane)
      else
        && at.value < |config.zones|
        && var k := at.value;
           var hot := unit.kind == Mage && HotspotContains(config, config.zones[k], unit.position);
           Tallied(config, units, i + 1,
                   if hot then onHotspot[k := Bump(onHotspot[k], unit.side)] else onHotspot,
                   inLane[k := Bump(inLane[k], unit.side)])
  {
    var unit := units[i];
    FirstZoneIsContaining(config.zones, unit.position);
    forall k | 0 <= k < |config.zones|
      ensures InZone(config.zones[k], unit.position) <==> ZoneContaining(config.zones, unit.position) == Some(k)
      ensures HotspotContains(config, config.zones[k], unit.position) ==> InZone(config.zones[k], unit.position)
    {
      OnlyOneZone(config, unit.position, k);
      if HotspotContains(config, config.zones[k], unit.position) {
        HotspotInsideZone(config, config.zones[k], unit.position);
      }
    }
    forall k | 0 <= k < |config.zones| { CountsStep(config, config.zones[k], units, i); }
  }

  /** `zone_occupancy`: one walk over the units finds what counting lane by lane would. */
  method ZoneOccupancy(config: MapConfig, units: seq<Unit>) returns (lanes: seq<Occupancy>)
    requires ValidMap(config)
    ensures |lanes| == |config.zones|
    ensures forall k :: 0 <= k < |lanes| ==> lanes[k] == OccupancyOf(config, config.zones[k], units)
  {
    var zones := config.zones;
    var onHotspot := seq(|zones|, _ => Both(0 as nat));
    var inLane := seq(|zones|, _ => Both(0 as nat));
    for i := 0 to |units|
      invariant Tallied(config, units, i, onHotspot, inLane)
    {
      TallyStep(config, units, i, onHotspot, inLane);
      var unit := units[i];
      var at := ZoneContaining(zones, unit.position);
      if IsAlive(unit) && at.Some? {
        var k := at.value;
        inLane := inLane[k := Bump(inLane[k], unit.side)];
        if unit.kind == Mage && HotspotContains(config, zones[k], unit.position) {
          onHotspot := onHotspot[k := Bump(onHotspot[k], unit.side)];
        }
      }
    }
    assert units[..|units|] == units;
    lanes := [];
    for k := 0 to |zones|
      invariant |lanes| == k
      invariant forall l :: 0 <= l < k ==> lanes[l] == OccupancyOf(config, zones[l], units)
    {
      lanes := lanes + [Occupancy(zones[k].id, onHotspot[k], inLane[k], HolderOf(onHotspot[k]))];
    }
  }
}
