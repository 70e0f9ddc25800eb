/** Opening spots and stations (`api/app/sim/formation.py`, `map.py`): where each unit of a
    troop starts, and where its order has it stand. */
module Stations {
  import opened Common
  import opened BattleMap
  import opened Geometry
  import opened Coordination
  import opened Formation

  /** `_clamp_into`: inside the span by the inset, or its middle when that leaves no room. */
  function ClampInto(value: real, span: Span, inset: real): real {
    if span.start + inset > span.end - inset then span.Centre()
    else Min(span.end - inset, Max(span.start + inset, value))
  }

  // ---- the opening whistle ----

  /** Depth given up at the strip's far edge: all there is to spare under Defend, else none. */
  function GivenUp(config: MapConfig, side: Side, order: Order, shape: Shape): real {
    var strip := config.deployment.At(side);
    if order.DefendBase? then Max(0.0, (strip.lane.end - strip.lane.start) - 2.0 * INSET - shape.depth) else 0.0
  }

  function DeploymentAnchor(config: MapConfig, side: Side, order: Order, band: Span, shape: Shape): Vec2 {
    var strip := config.deployment.At(side);
    var farEdge := if side == North then strip.lane.end else strip.lane.start;
    var setback := INSET + GivenUp(config, side, order, shape) + shape.lead;
    Vec2(band.Centre(), if side == North then farEdge - setback else farEdge + setback)
  }

  /** One unit's opening position; `jitter` is its draw, scaled into [-1, 1]. */
  function DeploymentSpot(config: MapConfig, side: Side, anchor: Vec2, offset: Vec2, jitter: real): Vec2 {
    var strip := config.deployment.At(side);
    Vec2(ClampInto(anchor.x + offset.x + jitter, strip.extent, 0.0), ClampInto(anchor.y + offset.y, strip.lane, 0.0))
  }

  /** A troop at the opening whistle: its order, its part of the strip and its numbers. */
  datatype Muster = Muster(order: Order, band: Span, mages: nat, summons: nat) {

    function Width(): real { band.end - band.start }

    function Strength(): nat { mages + summons }

    function Places(): (slots: seq<Slot>)
      ensures |slots| == Strength()
    {
      Slots(order, mages, summons, Width())
    }

    function ShapeFor(side: Side): (shape: Shape)
      ensures |shape.offsets| == Strength()
    {
      DeriveFormation(order, side, mages, summons, Width())
    }
  }

  function StripDepth(config: MapConfig, side: Side): real {
    config.deployment.At(side).lane.end - config.deployment.At(side).lane.start
  }

  /** The troop's part lies in a strip with a front and a back, with room for a draw either way. */
  predicate InStrip(config: MapConfig, side: Side, m: Muster) {
    var strip := config.deployment.At(side);
    && strip.extent.start <= m.band.start && m.band.end <= strip.extent.end
    && m.Width() >= 2.0 * DEPLOY_JITTER
    && strip.lane.start <= strip.lane.end
  }

  predicate Drawn(jitter: real) {
    -DEPLOY_JITTER <= jitter <= DEPLOY_JITTER
  }

  /** Where slot `k` of a troop opens, given its draw. */
  function OpeningSpot(config: MapConfig, side: Side, m: Muster, k: nat, jitter: real): Vec2
    requires k < m.Strength()
  {
    var shape := m.ShapeFor(side);
    DeploymentSpot(config, side, DeploymentAnchor(config, side, m.order, m.band, shape), shape.offsets[k], jitter)
  }

  /** How far back from the edge it starts on slot `k` asks to stand. */
  function SetBack(config: MapConfig, side: Side, m: Muster, k: nat): real
    requires k < m.Strength()
  {
    INSET + GivenUp(config, side, m.order, m.ShapeFor(side)) + m.Places()[k].depth
  }

  /** A spot so far along the strip and so far back from the edge a side starts on. */
  function SpotAt(config: MapConfig, side: Side, x: real, back: real): Vec2 {
    var lane := config.deployment.At(side).lane;
    Vec2(x, if side == North then lane.end - back else lane.start + back)
  }

  lemma SlotDepthBounds(m: Muster, k: nat)
    requires k < m.Strength()
    ensures 0.0 <= m.Places()[k].depth <= Deepest(m.Places())
  {
    hide ColumnsFor, MageDepth, SlotAt, Deepest;
    forall j | 0 <= j < m.Strength() ensures m.Places()[j].depth >= 0.0 { SlotKeepsToBand(m, j); }
    DeepestBounds(m.Places());
  }

  /** A slot keeps half a column clear of its band's edges, or stands on its middle when the
      band is narrower than a column. */
  lemma SlotKeepsToBand(m: Muster, k: nat)
    requires k < m.Strength()
    ensures m.Places()[k].depth >= 0.0
    ensures m.Width() >= 0.0 ==> Abs(m.Places()[k].across) <= m.Width() / 2.0 - Min(INSET, m.Width() / 2.0)
  {
    hide SlotAt, MageDepth;
    var deep := MageDepth(m.order, m.summons, m.Width());
    MageDepthNotNegative(m.order, m.summons, m.Width());
    if k < m.mages {
      AcrossWithinColumns(k, ColumnsFor(m.mages, m.Width()), deep);
    } else {
      AcrossWithinColumns(k - m.mages, ColumnsFor(m.summons, m.Width()), 0.0);
    }
    if m.Width() >= FORMATION_SPACING {
      SlotsFitBand(m.order, m.mages, m.summons, m.Width(), k);
    } else {
      OneColumn(m.mages, m.Width());
      OneColumn(m.summons, m.Width());
    }
  }

  lemma OneColumn(count: nat, width: real)
    requires width < FORMATION_SPACING
    ensures ColumnsFor(count, width) == 1
  {
    var fits := (width / FORMATION_SPACING).Floor;
    assert width / FORMATION_SPACING < 1.0;
  }

  /** Every unit opens on its own slot, by its draw across and at its own depth, or at the back
      of the strip where its slot lies deeper than that. */
  lemma OpensOnItsSlot(config: MapConfig, side: Side, m: Muster, k: nat, jitter: real)
    requires k < m.Strength() && Drawn(jitter) && InStrip(config, side, m)
    ensures OpeningSpot(config, side, m, k, jitter)
         == SpotAt(config, side, m.band.Centre() + m.Places()[k].across + jitter,
                   Min(SetBack(config, side, m, k), StripDepth(config, side)))
    ensures SetBack(config, side, m, k) >= INSET
  {
    hide ColumnsFor, MageDepth, SlotAt, Deepest, Slots, GivenUp;
    SlotKeepsToBand(m, k);
    assert GivenUp(config, side, m.order, m.ShapeFor(side)) >= 0.0 by { GivesUpNothingLess(config, side, m); }
  }

  lemma GivesUpNothingLess(config: MapConfig, side: Side, m: Muster)
    ensures GivenUp(config, side, m.order, m.ShapeFor(side)) >= 0.0
    ensures INSET + GivenUp(config, side, m.order, m.ShapeFor(side)) + Deepest(m.Places()) <= StripDepth(config, side)
       <==> INSET + Deepest(m.Places()) <= StripDepth(config, side)
  {
    hide Slots, Deepest;
  }

  lemma {:induction false} SomeSlotIsDeepest(slots: seq<Slot>)
    requires slots != []
    ensures exists k :: 0 <= k < |slots| && slots[k].depth == Deepest(slots)
  {
    var front, last := slots[..|slots| - 1], |slots| - 1;
    if |slots| > 1 && Deepest(front) == Deepest(slots) {
      SomeSlotIsDeepest(front);
      var k :| 0 <= k < |front| && front[k].depth == Deepest(front);
      assert slots[k] == front[k];
    } else {
      assert slots[last].depth == Deepest(slots);
    }
  }

  /** The strip moves no unit of a troop from its slot, whatever the draws, exactly when the
      troop's deepest rank still fits in the strip. */
  lemma OpensUnmovedExactlyWhenItFits(config: MapConfig, side: Side, m: Muster)
    requires InStrip(config, side, m) && m.Strength() > 0
    ensures (forall k: nat, jitter: real :: k < m.Strength() && Drawn(jitter) ==>
               OpeningSpot(config, side, m, k, jitter)
               == SpotAt(config, side, m.band.Centre() + m.Places()[k].across + jitter, SetBack(config, side, m, k)))
       <==> INSET + m.ShapeFor(side).depth <= StripDepth(config, side)
  {
    hide OpeningSpot, InStrip, GivenUp, Slots, Deepest;
    GivesUpNothingLess(config, side, m);
    forall k: nat, jitter: real | k < m.Strength() && Drawn(jitter)
      ensures OpeningSpot(config, side, m, k, jitter)
           == SpotAt(config, side, m.band.Centre() + m.Places()[k].across + jitter, SetBack(config, side, m, k))
         <==> SetBack(config, side, m, k) <= StripDepth(config, side)
      ensures m.Places()[k].depth <= Deepest(m.Places())
    {
      OpensOnItsSlot(config, side, m, k, jitter);
      SlotDepthBounds(m, k);
    }
    SomeSlotIsDeepest(m.Places());
    var last :| 0 <= last < m.Strength() && m.Places()[last].depth == Deepest(m.Places());
    assert Drawn(0.0);
  }

  // ---- how near two units can open ----

  /** No draws bring slot `i` of one troop and slot `j` of another nearer than `gap`. */
  ghost predicate NeverNearer(plane: Plane, config: MapConfig, side: Side, a: Muster, b: Muster, i: nat, j: nat, gap: real)
    requires i < a.Strength() && j < b.Strength()
  {
    forall drawA: real, drawB: real :: Drawn(drawA) && Drawn(drawB) ==>
      Distance(plane, OpeningSpot(config, side, a, i, drawA), OpeningSpot(config, side, b, j, drawB)) >= gap
  }

  /** The least the draws can leave between two slots across, and what the strip leaves in depth. */
  function LeastAcross(a: Muster, b: Muster, i: nat, j: nat): real
    requires i < a.Strength() && j < b.Strength()
  {
    Max(0.0, Abs((b.band.Centre() + b.Places()[j].across) - (a.band.Centre() + a.Places()[i].across)) - 2.0 * DEPLOY_JITTER)
  }

  function LeftInDepth(config: MapConfig, side: Side, a: Muster, b: Muster, i: nat, j: nat): real
    requires i < a.Strength() && j < b.Strength()
  {
    Min(SetBack(config, side, b, j), StripDepth(config, side)) - Min(SetBack(config, side, a, i), StripDepth(config, side))
  }

  lemma SpotsGap(config: MapConfig, side: Side, x: real, y: real, back: real, behind: real)
    ensures SquaredGap(SpotAt(config, side, x, back), SpotAt(config, side, y, behind)) == Square(y - x) + Square(behind - back)
  {
    SquareOfOpposite(behind - back);
    hide Square;
    var p, q := SpotAt(config, side, x, back), SpotAt(config, side, y, behind);
    assert q.y - p.y == behind - back || q.y - p.y == -(behind - back);
  }

  /** The draws that bring two slots nearest across. */
  lemma DrawsMeet(gap: real) returns (drawA: real, drawB: real)
    ensures Drawn(drawA) && Drawn(drawB)
    ensures Abs(gap + drawB - drawA) == Max(0.0, Abs(gap) - 2.0 * DEPLOY_JITTER)
  {
    if gap >= 2.0 * DEPLOY_JITTER {
      drawA, drawB := DEPLOY_JITTER, -DEPLOY_JITTER;
    } else if gap <= -2.0 * DEPLOY_JITTER {
      drawA, drawB := -DEPLOY_JITTER, DEPLOY_JITTER;
    } else {
      drawA, drawB := gap / 2.0, -(gap / 2.0);
    }
  }

  lemma OpeningGap(plane: Plane, config: MapConfig, side: Side, a: Muster, b: Muster, i: nat, j: nat, drawA: real, drawB: real)
    requires ValidPlane(plane) && i < a.Strength() && j < b.Strength() && Drawn(drawA) && Drawn(drawB)
    requires InStrip(config, side, a) && InStrip(config, side, b)
    ensures var across := (b.band.Centre() + b.Places()[j].across) - (a.band.Centre() + a.Places()[i].across);
            var d := Distance(plane, OpeningSpot(config, side, a, i, drawA), OpeningSpot(config, side, b, j, drawB));
      d >= 0.0 && Square(d) == Square(across + drawB - drawA) + Square(LeftInDepth(config, side, a, b, i, j))
  {
    hide ValidPlane, Distance, Square, SquaredGap, OpeningSpot, SpotAt, InStrip, SetBack, StripDepth;
    OpensOnItsSlot(config, side, a, i, drawA);
    OpensOnItsSlot(config, side, b, j, drawB);
    var p, q := OpeningSpot(config, side, a, i, drawA), OpeningSpot(config, side, b, j, drawB);
    DistanceFacts(plane, p, q);
    SpotsGap(config, side, a.band.Centre() + a.Places()[i].across + drawA, b.band.Centre() + b.Places()[j].across + drawB,
             Min(SetBack(config, side, a, i), StripDepth(config, side)), Min(SetBack(config, side, b, j), StripDepth(config, side)));
  }

  /** How near two units can open, of one troop or of two, however deep: no nearer than `gap`
      whatever the draws exactly when what is left between their slots, across and in depth,
      already keeps them that far apart. */
  lemma NeverNearerExactly(plane: Plane, config: MapConfig, side: Side, a: Muster, b: Muster, i: nat, j: nat, gap: real)
    requires ValidPlane(plane) && gap >= 0.0 && i < a.Strength() && j < b.Strength()
    requires InStrip(config, side, a) && InStrip(config, side, b)
    ensures NeverNearer(plane, config, side, a, b, i, j, gap)
       <==> Square(LeastAcross(a, b, i, j)) + Square(LeftInDepth(config, side, a, b, i, j)) >= Square(gap)
  {
    hide ValidPlane, Distance, Square, OpeningSpot, InStrip, LeftInDepth, Slots;
    var across := (b.band.Centre() + b.Places()[j].across) - (a.band.Centre() + a.Places()[i].across);
    forall drawA: real, drawB: real | Drawn(drawA) && Drawn(drawB)
      ensures var d := Distance(plane, OpeningSpot(config, side, a, i, drawA), OpeningSpot(config, side, b, j, drawB));
        && (d >= gap <==> Square(across + drawB - drawA) + Square(LeftInDepth(config, side, a, b, i, j)) >= Square(gap))
        && Square(across + drawB - drawA) >= Square(LeastAcross(a, b, i, j))
    {
      OpeningGap(plane, config, side, a, b, i, j, drawA, drawB);
      SquaresOrder(gap, Distance(plane, OpeningSpot(config, side, a, i, drawA), OpeningSpot(config, side, b, j, drawB)));
      SquaresWithin(LeastAcross(a, b, i, j), across + drawB - drawA);
    }
    var drawA, drawB := DrawsMeet(across);
    SquaresWithin(across + drawB - drawA, LeastAcross(a, b, i, j));
  }

  /** So in a troop whose deepest rank fits the strip no two units open nearer than half a rank. */
  lemma TroopOpensSpread(plane: Plane, config: MapConfig, side: Side, m: Muster, i: nat, j: nat)
    requires ValidPlane(plane) && i < j < m.Strength() && InStrip(config, side, m)
    requires INSET + m.ShapeFor(side).depth <= StripDepth(config, side)
    ensures NeverNearer(plane, config, side, m, m, i, j, MAGE_SETBACK_PUSH)
  {
    SlotDepthBounds(m, i);
    SlotDepthBounds(m, j);
    SlotsApart(m.order, m.mages, m.summons, m.Width(), i, j);
    hide ValidPlane, Square, Slots, NeverNearer, Deepest;
    NeverNearerExactly(plane, config, side, m, m, i, j, MAGE_SETBACK_PUSH);
    var across, deep := LeastAcross(m, m, i, j), LeftInDepth(config, side, m, m, i, j);
    if Abs(deep) >= MAGE_SETBACK_PUSH { SquaresWithin(MAGE_SETBACK_PUSH, deep); } else { SquaresWithin(MAGE_SETBACK_PUSH, across); }
  }

  /** And of two troops whose parts do not overlap, however deep, no two units open nearer than
      half a column from each, less both draws. */
  lemma TroopsOpenSpread(plane: Plane, config: MapConfig, side: Side, a: Muster, b: Muster, i: nat, j: nat)
    requires ValidPlane(plane) && i < a.Strength() && j < b.Strength()
    requires InStrip(config, side, a) && InStrip(config, side, b) && a.band.end <= b.band.start
    ensures NeverNearer(plane, config, side, a, b, i, j, Min(INSET, a.Width() / 2.0) + Min(INSET, b.Width() / 2.0) - 2.0 * DEPLOY_JITTER)
  {
    SlotKeepsToBand(a, i);
    SlotKeepsToBand(b, j);
    hide ValidPlane, Square, Slots, NeverNearer, LeftInDepth;
    var gap := Min(INSET, a.Width() / 2.0) + Min(INSET, b.Width() / 2.0) - 2.0 * DEPLOY_JITTER;
    NeverNearerExactly(plane, config, side, a, b, i, j, gap);
    SquaresWithin(gap, LeastAcross(a, b, i, j));
  }

  /** But where two slots of one column both lie past the back of the strip, some draws open
      both units on one spot. */
  lemma TooDeepCanStack(plane: Plane, config: MapConfig, side: Side, m: Muster, i: nat, j: nat, gap: real)
    requires ValidPlane(plane) && i < j < m.Strength() && InStrip(config, side, m) && gap > 0.0
    requires m.Places()[i].across == m.Places()[j].across
    requires SetBack(config, side, m, i) >= StripDepth(config, side) && SetBack(config, side, m, j) >= StripDepth(config, side)
    ensures !NeverNearer(plane, config, side, m, m, i, j, gap)
  {
    hide ValidPlane, NeverNearer, Slots, SetBack;
    NeverNearerExactly(plane, config, side, m, m, i, j, gap);
    SquaresOrder(0.0, gap);
  }

  // ---- the chip corner ----

  predicate InChip(config: MapConfig, zone: ZoneConfig, position: Vec2) {
    && Span(zone.extent.start, zone.extent.start + config.chipWidth).Contains(position.x)
    && Span(zone.lane.start, zone.lane.start + config.chipHeight).Contains(position.y)
  }

  /** `clear_of_chip`: out by the nearer edge, east when level, of those that stay in the lane. */
  function ClearOfChip(config: MapConfig, zone: ZoneConfig, position: Vec2): Vec2 {
    var east, south := zone.extent.start + config.chipWidth, zone.lane.start + config.chipHeight;
    if !InChip(config, zone, position) then position
    else if east - position.x <= south - position.y && east < zone.extent.end then Vec2(east, position.y)
    else if south < zone.lane.end then Vec2(position.x, south)
    else Vec2(Min(east, zone.extent.end), position.y)
  }

  /** The chip leaves some of the lane free along one axis. */
  predicate ChipLeavesRoom(config: MapConfig, zone: ZoneConfig) {
    config.chipWidth < zone.extent.end - zone.extent.start || config.chipHeight < zone.lane.end - zone.lane.start
  }

  /** Stepping out of the chip corner keeps a position in its lane and out of the corner
      exactly when the chip is strictly smaller than the lane on at least one axis. */
  lemma ClearExactlyWhenThereIsRoom(config: MapConfig, zone: ZoneConfig, position: Vec2)
    requires InZone(zone, position) && InChip(config, zone, position)
    ensures InZone(zone, ClearOfChip(config, zone, position)) && !InChip(config, zone, ClearOfChip(config, zone, position))
       <==> ChipLeavesRoom(config, zone)
  {
  }

  // ---- stations ----

  function ObjectivePosition(config: MapConfig, side: Side, order: Order): Vec2 {
    match order
    case HoldZone(zoneId) =>
      (match ZoneById(config.zones, zoneId)
       case Some(zone) => ZoneCentre(zone)
       case None => config.bases.At(Opposing(side)).position)
    case DefendBase => Vec2(config.deployment.At(side).extent.Centre(), config.deployment.At(side).lane.Centre())
    case PushEnemyBase => config.bases.At(Opposing(side)).position
  }

  /** `station`, for an order the map admits. */
  function Station(config: MapConfig, side: Side, order: Order, offset: Vec2): Vec2
    requires OrderLegal(order, config)
  {
    var objective := ObjectivePosition(config, side, order);
    var spot := Vec2(objective.x + offset.x, objective.y + offset.y);
    match order
    case HoldZone(zoneId) =>
      var zone := ZoneById(config.zones, zoneId).value;
      ClearOfChip(config, zone, Vec2(ClampInto(spot.x, zone.extent, INSET), ClampInto(spot.y, zone.lane, INSET)))
    case DefendBase =>
      var strip := config.deployment.At(side);
      Vec2(ClampInto(spot.x, strip.extent, 0.0), ClampInto(spot.y, strip.lane, 0.0))
    case PushEnemyBase =>
      Vec2(ClampInto(spot.x, Span(0.0, config.width), INSET), ClampInto(spot.y, Span(0.0, config.height), INSET))
  }

  lemma ClampedInside(value: real, span: Span)
    requires span.start < span.end
    ensures span.Contains(ClampInto(value, span, INSET))
  {
  }

  lemma ZoneHasRoom(config: MapConfig, zone: ZoneConfig)
    requires ValidMap(config) && zone in config.zones
    ensures zone.extent.start < zone.extent.end && zone.lane.start < zone.lane.end
  {
    assert ZoneFits(config, zone);
  }

  lemma ClampedInZone(zone: ZoneConfig, spot: Vec2)
    requires zone.extent.Contains(spot.x) && zone.lane.Contains(spot.y)
    ensures InZone(zone, spot)
  {
  }

  lemma ClearAlready(config: MapConfig, zone: ZoneConfig, spot: Vec2)
    requires !InChip(config, zone, spot)
    ensures ClearOfChip(config, zone, spot) == spot
  {
  }

  /** However big a holding troop has grown, every one of its stations is in the lane it holds
      and out of the lane's chip corner. */
  lemma HoldingStationsScore(config: MapConfig, side: Side, zoneId: string, offset: Vec2)
    requires ValidMap(config) && OrderLegal(HoldZone(zoneId), config)
    requires ChipLeavesRoom(config, ZoneById(config.zones, zoneId).value)
    ensures var zone, stand := ZoneById(config.zones, zoneId).value, Station(config, side, HoldZone(zoneId), offset);
      InZone(zone, stand) && !InChip(config, zone, stand)
  {
    hide ClampInto, InChip, ClearOfChip, ChipLeavesRoom, InZone, ObjectivePosition;
    var zone := ZoneById(config.zones, zoneId).value;
    ZoneHasRoom(config, zone);
    var objective := ObjectivePosition(config, side, HoldZone(zoneId));
    ClampedInside(objective.x + offset.x, zone.extent);
    ClampedInside(objective.y + offset.y, zone.lane);
    var spot := Vec2(ClampInto(objective.x + offset.x, zone.extent, INSET), ClampInto(objective.y + offset.y, zone.lane, INSET));
    ClampedInZone(zone, spot);
    if InChip(config, zone, spot) { ClearExactlyWhenThereIsRoom(config, zone, spot); } else { ClearAlready(config, zone, spot); }
  }

  /** The offset of a troop's only mage under Hold: none at all. */
  lemma LoneMageIsTheOrigin(side: Side, zoneId: string, summons: nat, bandWidth: real)
    ensures DeriveFormation(HoldZone(zoneId), side, 1, summons, bandWidth).offsets[0] == Vec2(0.0, 0.0)
  {
    hide MageDepth;
    assert ColumnsFor(1, bandWidth) == 1;
    assert Slots(HoldZone(zoneId), 1, summons, bandWidth)[0] == SlotAt(0, 1, MageDepth(HoldZone(zoneId), summons, bandWidth));
  }

  lemma CentreStays(span: Span)
    requires span.start < span.end
    ensures ClampInto(span.Centre(), span, INSET) == span.Centre()
  {
  }

  /** A one-mage troop ordered to hold a lane stations its mage on the very middle of the
      hotspot exactly when the chip corner does not reach that far. */
  lemma LoneMageHoldsTheHotspot(config: MapConfig, side: Side, zoneId: string, summons: nat, bandWidth: real)
    requires ValidMap(config) && OrderLegal(HoldZone(zoneId), config)
    ensures var zone := ZoneById(config.zones, zoneId).value;
            var stand := Station(config, side, HoldZone(zoneId), DeriveFormation(HoldZone(zoneId), side, 1, summons, bandWidth).offsets[0]);
      && (stand == ZoneCentre(zone) <==> !InChip(config, zone, ZoneCentre(zone)))
      && (stand == ZoneCentre(zone) ==> HotspotContains(config, zone, stand))
  {
    hide DeriveFormation;
    LoneMageIsTheOrigin(side, zoneId, summons, bandWidth);
    var zone := ZoneById(config.zones, zoneId).value;
    assert ZoneFits(config, zone);
    CentreStays(zone.extent);
    CentreStays(zone.lane);
  }

  /** On the shipped map it never does. */
  lemma LoneMageHoldsOnShippedMap(side: Side, zoneId: string, summons: nat, bandWidth: real)
    requires OrderLegal(HoldZone(zoneId), TWO_LANE_MAP)
    ensures var zone := ZoneById(TWO_LANE_MAP.zones, zoneId).value;
            var stand := Station(TWO_LANE_MAP, side, HoldZone(zoneId), DeriveFormation(HoldZone(zoneId), side, 1, summons, bandWidth).offsets[0]);
      HotspotContains(TWO_LANE_MAP, zone, stand) && ChipLeavesRoom(TWO_LANE_MAP, zone)
  {
    hide DeriveFormation, Station;
    ShippedMapIsValid();
    LoneMageHoldsTheHotspot(TWO_LANE_MAP, side, zoneId, summons, bandWidth);
    var zone := ZoneById(TWO_LANE_MAP.zones, zoneId).value;
    assert zone == TWO_LANE_MAP.zones[0] || zone == TWO_LANE_MAP.zones[1];
  }
}
