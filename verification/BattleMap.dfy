/** The map as data (`api/app/sim/map.py`) and the orders it admits
    (`api/app/sim/orders.py`): lanes, hotspots, strips, bases and chip corners. */
module BattleMap {
  import opened Common

  datatype Span = Span(start: real, end: real) {
    predicate Contains(value: real) {
      start <= value < end
    }
    function Centre(): real {
      (start + end) / 2.0
    }
  }

  datatype ZoneConfig = ZoneConfig(id: string, lane: Span, extent: Span, pointsPerTick: real)
  datatype BaseConfig = BaseConfig(position: Vec2, maxHp: real, footprintRadius: real)
  datatype DeploymentStrip = DeploymentStrip(lane: Span, extent: Span)

  datatype MapConfig = MapConfig(
    id: string,
    width: real,
    height: real,
    zones: seq<ZoneConfig>,
    bases: PerSide<BaseConfig>,
    deployment: PerSide<DeploymentStrip>,
    chipWidth: real,
    chipHeight: real,
    hotspotSize: real)

  /** The shipped two-lane map. */
  const TWO_LANE_MAP: MapConfig := MapConfig(
    "two-lane", 375.0, 569.0,
    [ZoneConfig("W", Span(100.0, 469.0), Span(0.0, 160.0), 1.0),
     ZoneConfig("E", Span(100.0, 469.0), Span(215.0, 375.0), 1.0)],
    PerSide(BaseConfig(Vec2(187.5, 20.0), 1000.0, 24.0), BaseConfig(Vec2(187.5, 549.0), 1000.0, 24.0)),
    PerSide(DeploymentStrip(Span(40.0, 100.0), Span(0.0, 375.0)),
            DeploymentStrip(Span(469.0, 529.0), Span(0.0, 375.0))),
    115.0, 25.0, 60.0)

  // ---- validation ----

  predicate SpanWithin(span: Span, limit: real) {
    span.start < span.end && span.start >= 0.0 && span.end <= limit
  }

  predicate Overlaps(a: Span, b: Span) {
    a.start < b.end && b.start < a.end
  }

  predicate RectanglesOverlap(laneA: Span, extentA: Span, laneB: Span, extentB: Span) {
    Overlaps(laneA, laneB) && Overlaps(extentA, extentB)
  }

  /** One lane is coherent by itself. */
  predicate ZoneFits(config: MapConfig, zone: ZoneConfig) {
    && SpanWithin(zone.lane, config.height)
    && SpanWithin(zone.extent, config.width)
    && zone.pointsPerTick > 0.0
    && zone.extent.end - zone.extent.start >= config.hotspotSize
    && zone.lane.end - zone.lane.start >= config.hotspotSize
  }

  predicate ZonesApart(a: ZoneConfig, b: ZoneConfig) {
    a.id != b.id && !RectanglesOverlap(a.lane, a.extent, b.lane, b.extent)
  }

  predicate SideFits(config: MapConfig, side: Side) {
    var strip, base := config.deployment.At(side), config.bases.At(side);
    && SpanWithin(strip.lane, config.height)
    && SpanWithin(strip.extent, config.width)
    && (forall z :: z in config.zones ==> !RectanglesOverlap(strip.lane, strip.extent, z.lane, z.extent))
    && base.maxHp > 0.0
    && base.footprintRadius >= 0.0
    && 0.0 <= base.position.y <= config.height
  }

  /** What a battle may be fought on. */
  predicate ValidMap(config: MapConfig) {
    && config.width > 0.0 && config.height > 0.0
    && config.zones != []
    && config.chipWidth >= 0.0 && config.chipHeight >= 0.0
    && config.hotspotSize > 0.0
    && (forall i :: 0 <= i < |config.zones| ==> ZoneFits(config, config.zones[i]))
    && (forall i, j :: 0 <= i < j < |config.zones| ==> ZonesApart(config.zones[i], config.zones[j]))
    && SideFits(config, North) && SideFits(config, South)
  }

  method ValidateMapConfig(config: MapConfig) returns (ok: bool)
    ensures ok <==> ValidMap(config)
  {
    if config.width <= 0.0 || config.height <= 0.0 || config.zones == [] { return false; }
    if config.chipWidth < 0.0 || config.chipHeight < 0.0 || config.hotspotSize <= 0.0 { return false; }
    for i := 0 to |config.zones|
      invariant forall k :: 0 <= k < i ==> ZoneFits(config, config.zones[k])
      invariant forall k, l :: 0 <= k < l < i ==> ZonesApart(config.zones[k], config.zones[l])
    {
      var zone := config.zones[i];
      if !ZoneFits(config, zone) { return false; }
      for j := 0 to i
        invariant forall k :: 0 <= k < j ==> ZonesApart(config.zones[k], zone)
      {
        if !ZonesApart(config.zones[j], zone) { return false; }
      }
    }
    ok := SideFits(config, North) && SideFits(config, South);
  }

  lemma ShippedMapIsValid()
    ensures ValidMap(TWO_LANE_MAP)
  {
  }

  // ---- lanes and hotspots ----

  predicate InZone(zone: ZoneConfig, position: Vec2) {
    zone.lane.Contains(position.y) && zone.extent.Contains(position.x)
  }

  /** The first lane a position sits in, in map order. */
  function ZoneContaining(zones: seq<ZoneConfig>, position: Vec2): Option<nat> {
    if zones == [] then None
    else if InZone(zones[0], position) then Some(0)
    else match ZoneContaining(zones[1..], position)
      case None => None
      case Some(k) => Some(k + 1)
  }

  function ZoneById(zones: seq<ZoneConfig>, id: string): (found: Option<ZoneConfig>)
    ensures found.Some? ==> found.value in zones && found.value.id == id
    ensures found.None? ==> forall z :: z in zones ==> z.id != id
  {
    if zones == [] then None
    else if zones[0].id == id then Some(zones[0])
    else ZoneById(zones[1..], id)
  }

  function ZoneCentre(zone: ZoneConfig): Vec2 {
    Vec2(zone.extent.Centre(), zone.lane.Centre())
  }

  predicate HotspotContains(config: MapConfig, zone: ZoneConfig, position: Vec2) {
    var reach := config.hotspotSize / 2.0;
    var centre := ZoneCentre(zone);
    && Span(centre.x - reach, centre.x + reach).Contains(position.x)
    && Span(centre.y - reach, centre.y + reach).Contains(position.y)
  }

  // ---- orders ----

  datatype Order = HoldZone(zoneId: string) | DefendBase | PushEnemyBase

  predicate OrderLegal(order: Order, config: MapConfig) {
    order.HoldZone? ==> ZoneById(config.zones, order.zoneId).Some?
  }
}
