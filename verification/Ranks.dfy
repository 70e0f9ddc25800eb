/** The shape of a troop, rank by rank, and where its orders have it stand. */
module Ranks {
  import opened Common
  import opened BattleMap
  import opened Geometry
  import opened Coordination
  import opened Formation
  import opened Stations

  /** A rank is as wide as it can be: no wider than the troop, the band or fourteen, and, short of
      those, never one column narrower than would fit. */
  lemma ColumnsExactly(count: nat, bandWidth: real)
    requires count > 0
    ensures var columns := ColumnsFor(count, bandWidth);
      && 1 <= columns <= 14 && columns <= count
      && (columns == 1 || columns as real * 24.0 <= bandWidth)
      && (columns == count || columns == 14 || (columns + 1) as real * 24.0 > bandWidth)
  {
    var fits := (bandWidth / FORMATION_SPACING).Floor;
    assert fits as real <= bandWidth / 24.0 < fits as real + 1.0;
  }

  /** Place `file` of rank `rank` in a block `columns` wide. */
  predicate InRank(slot: Slot, columns: nat, rank: nat, file: nat, front: real) {
    slot.across == 24.0 * file as real - 12.0 * (columns as real - 1.0) && slot.depth == front + 24.0 * rank as real
  }

  lemma SlotInRank(index: nat, columns: nat, rank: nat, file: nat, front: real)
    requires file < columns && index == columns * rank + file
    ensures InRank(SlotAt(index, columns, front), columns, rank, file, front)
  {
    RankAndFile(index, columns, rank, file);
    assert (index % columns) as real == file as real && (index / columns) as real == rank as real;
  }

  lemma RankAndFile(index: nat, columns: nat, rank: nat, file: nat)
    requires file < columns && index == columns * rank + file
    ensures index / columns == rank && index % columns == file
  {
    var q := index / columns;
    QuotientBounds(index, columns, q);
    assert columns * (q + 1) == columns * q + columns;
    if q < rank { MulOrders(columns, q + 1, rank); }
    assert columns * (rank + 1) == columns * rank + columns;
    if rank < q { MulOrders(columns, rank + 1, q); }
  }

  /** The summons of a troop fill one rank before the next, each rank centred on the band and one
      gap behind the last, the first at the front. */
  lemma SummonsFillRanks(order: Order, mages: nat, summons: nat, bandWidth: real, rank: nat, file: nat)
    requires var columns := ColumnsFor(summons, bandWidth); file < columns && columns * rank + file < summons
    ensures var columns := ColumnsFor(summons, bandWidth);
      InRank(Slots(order, mages, summons, bandWidth)[mages + columns * rank + file], columns, rank, file, 0.0)
  {
    hide ColumnsFor, MageDepth, SlotAt, InRank;
    var columns := ColumnsFor(summons, bandWidth);
    SlotInRank(columns * rank + file, columns, rank, file, 0.0);
  }

  /** And so do its mages, behind the last rank of summons by 24, or by 12 when ordered to push, or
      at the front when there are no summons. */
  lemma MagesFillRanks(order: Order, mages: nat, summons: nat, bandWidth: real, rank: nat, file: nat, lastRank: nat)
    requires var columns := ColumnsFor(mages, bandWidth); file < columns && columns * rank + file < mages
    requires var columns := ColumnsFor(summons, bandWidth); summons > 0 ==> columns * lastRank < summons <= columns * (lastRank + 1)
    ensures var columns := ColumnsFor(mages, bandWidth);
            var front := if summons == 0 then 0.0 else 24.0 * lastRank as real + if order == PushEnemyBase then 12.0 else 24.0;
      InRank(Slots(order, mages, summons, bandWidth)[columns * rank + file], columns, rank, file, front)
  {
    if summons > 0 { LastRank(summons, ColumnsFor(summons, bandWidth), lastRank); }
    assert MageDepth(order, summons, bandWidth)
        == if summons == 0 then 0.0 else 24.0 * lastRank as real + if order == PushEnemyBase then 12.0 else 24.0;
    hide ColumnsFor, MageDepth, SlotAt, InRank;
    var columns := ColumnsFor(mages, bandWidth);
    SlotInRank(columns * rank + file, columns, rank, file, MageDepth(order, summons, bandWidth));
  }

  lemma LastRank(count: nat, columns: nat, last: nat)
    requires columns >= 1 && columns * last < count <= columns * (last + 1)
    ensures Rows(count, columns) == last + 1
  {
    var file: nat := count - 1 - columns * last;
    assert columns * (last + 1) == columns * last + columns;
    RankAndFile(count - 1, columns, last, file);
    DivShift(count - 1, columns);
  }

  // ---- where orders have a troop stand ----

  /** A place kept `inset` inside a span, and otherwise as near as that allows. */
  predicate KeptInside(place: real, asked: real, span: Span, inset: real) {
    && (span.start + inset <= asked <= span.end - inset ==> place == asked)
    && (asked < span.start + inset <= span.end - inset ==> place == span.start + inset)
    && (span.start + inset <= span.end - inset < asked ==> place == span.end - inset)
  }

  lemma ClampKeepsInside(asked: real, span: Span, inset: real)
    ensures KeptInside(ClampInto(asked, span, inset), asked, span, inset)
  {
  }

  /** Pushing, a unit stands at the enemy base, its own place in the formation off it, kept twelve
      inside the map. */
  lemma PushStandsAtTheirBase(config: MapConfig, side: Side, offset: Vec2)
    ensures var stand, base := Station(config, side, PushEnemyBase, offset), config.bases.At(Opposing(side)).position;
      && KeptInside(stand.x, base.x + offset.x, Span(0.0, config.width), 12.0)
      && KeptInside(stand.y, base.y + offset.y, Span(0.0, config.height), 12.0)
  {
  }

  /** Defending, in the middle of its own strip, its own place off it, kept in the strip. */
  lemma DefendStandsInOwnStrip(config: MapConfig, side: Side, offset: Vec2)
    ensures var stand, strip := Station(config, side, DefendBase, offset), config.deployment.At(side);
      && KeptInside(stand.x, (strip.extent.start + strip.extent.end) / 2.0 + offset.x, strip.extent, 0.0)
      && KeptInside(stand.y, (strip.lane.start + strip.lane.end) / 2.0 + offset.y, strip.lane, 0.0)
  {
  }

  /** Holding, in the middle of its lane, its own place off it, kept twelve inside the lane, and out
      of the chip corner by the nearer edge that stays in it. */
  lemma HoldStandsInItsLane(config: MapConfig, side: Side, zoneId: string, offset: Vec2)
    requires OrderLegal(HoldZone(zoneId), config)
    ensures exists zone, spot: Vec2 ::
      && zone in config.zones && zone.id == zoneId
      && KeptInside(spot.x, (zone.extent.start + zone.extent.end) / 2.0 + offset.x, zone.extent, 12.0)
      && KeptInside(spot.y, (zone.lane.start + zone.lane.end) / 2.0 + offset.y, zone.lane, 12.0)
      && LeavesChip(config, zone, spot, Station(config, side, HoldZone(zoneId), offset))
  {
    var zone := ZoneById(config.zones, zoneId).value;
    var asked := Vec2(ZoneCentre(zone).x + offset.x, ZoneCentre(zone).y + offset.y);
    var spot := Vec2(ClampInto(asked.x, zone.extent, INSET), ClampInto(asked.y, zone.lane, INSET));
    ClampKeepsInside(asked.x, zone.extent, INSET);
    ClampKeepsInside(asked.y, zone.lane, INSET);
    ClearLeavesChip(config, zone, spot);
    hide ClampInto, KeptInside, LeavesChip, ClearOfChip;
    assert Station(config, side, HoldZone(zoneId), offset) == ClearOfChip(config, zone, spot);
  }

  /** Out of the corner from `spot`: nowhere if it is not in it; else straight out by the nearer of
      its two inner edges, east when level, of those that leave it in the lane. */
  predicate LeavesChip(config: MapConfig, zone: ZoneConfig, spot: Vec2, stand: Vec2) {
    var east, south := zone.extent.start + config.chipWidth, zone.lane.start + config.chipHeight;
    var inside := zone.extent.start <= spot.x < east && zone.lane.start <= spot.y < south;
    if !inside then stand == spot
    else if east < zone.extent.end && east - spot.x <= south - spot.y
      then stand == Vec2(east, spot.y)
    else if south < zone.lane.end then stand == Vec2(spot.x, south)
    else stand == Vec2(Min(east, zone.extent.end), spot.y)
  }

  lemma ClearLeavesChip(config: MapConfig, zone: ZoneConfig, spot: Vec2)
    ensures LeavesChip(config, zone, spot, ClearOfChip(config, zone, spot))
  {
  }

  /** Back from the edge a side starts on: north from the far end of its strip, south from the near
      one; and a defending troop gives up all the depth there is to spare. */
  lemma SetBackExactly(config: MapConfig, side: Side, m: Muster, k: nat)
    requires k < m.Strength()
    ensures var spare := StripDepth(config, side) - 24.0 - m.ShapeFor(side).depth;
      SetBack(config, side, m, k) == 12.0 + m.Places()[k].depth + if m.order == DefendBase && spare > 0.0 then spare else 0.0
  {
    hide Slots, Deepest;
  }
}
