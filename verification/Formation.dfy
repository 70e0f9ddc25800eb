/** Where a troop stands, derived from its order and nothing else
    (`api/app/sim/formation.py`): the block, the band, the opening spot and the station. */
module Formation {
  import opened Common
  import opened BattleMap
  import opened Geometry
  import opened Coordination

  const FORMATION_SPACING: real := 24.0
  const FORMATION_RANK_GAP: real := 24.0
  const MAGE_SETBACK_GUARDED: real := 24.0
  const MAGE_SETBACK_PUSH: real := 12.0
  const MAX_RANK_COLUMNS: nat := 14
  const DEPLOY_JITTER: real := 1.0
  const INSET: real := FORMATION_SPACING / 2.0

  datatype Slot = Slot(across: real, depth: real)

  datatype Shape = Shape(offsets: seq<Vec2>, depth: real, lead: real, columns: nat)

  // ---- the block ----

  function ColumnsFor(count: nat, bandWidth: real): (columns: nat)
    ensures 1 <= columns <= MAX_RANK_COLUMNS
    ensures count > 0 ==> columns <= count
    ensures bandWidth >= FORMATION_SPACING ==> columns as real * FORMATION_SPACING <= bandWidth || count == 0
  {
    if count == 0 then 1
    else
      var fits := (bandWidth / FORMATION_SPACING).Floor;
      var room := if fits > 1 then fits else 1;
      var wanted := if count < room then count else room;
      if wanted < MAX_RANK_COLUMNS then wanted else MAX_RANK_COLUMNS
  }

  function SlotAt(index: nat, columns: nat, depthStart: real): Slot
    requires columns >= 1
  {
    Slot(((index % columns) as real - (columns - 1) as real / 2.0) * FORMATION_SPACING,
         depthStart + (index / columns) as real * FORMATION_RANK_GAP)
  }

  function Block(count: nat, columns: nat, depthStart: real): (slots: seq<Slot>)
    requires columns >= 1
    ensures |slots| == count && forall k :: 0 <= k < count ==> slots[k] == SlotAt(k, columns, depthStart)
  {
    seq(count, k requires 0 <= k < count => SlotAt(k, columns, depthStart))
  }

  function Rows(count: nat, columns: nat): nat
    requires columns >= 1
  {
    (count + columns - 1) / columns
  }

  /** How deep the mage rank is set behind the front rank. */
  function MageDepth(order: Order, summons: nat, bandWidth: real): real {
    if summons == 0 then 0.0
    else
      (Rows(summons, ColumnsFor(summons, bandWidth)) as real - 1.0) * FORMATION_RANK_GAP
      + if order.PushEnemyBase? then MAGE_SETBACK_PUSH else MAGE_SETBACK_GUARDED
  }

  /** Every slot of a troop, mages first. */
  function Slots(order: Order, mages: nat, summons: nat, bandWidth: real): (slots: seq<Slot>)
    ensures |slots| == mages + summons
  {
    Block(mages, ColumnsFor(mages, bandWidth), MageDepth(order, summons, bandWidth))
    + Block(summons, ColumnsFor(summons, bandWidth), 0.0)
  }

  function Deepest(slots: seq<Slot>): real {
    if slots == [] then 0.0
    else if |slots| == 1 then slots[0].depth
    else Max(Deepest(slots[..|slots| - 1]), slots[|slots| - 1].depth)
  }

  function LaneOffset(side: Side, depth: real): real {
    if side == North then -depth else depth
  }

  /** Only Hold is built around its mage rank. */
  function OriginDepth(order: Order, summons: nat, bandWidth: real): real {
    if order.HoldZone? then MageDepth(order, summons, bandWidth) else 0.0
  }

  function DeriveFormation(order: Order, side: Side, mages: nat, summons: nat, bandWidth: real): (shape: Shape)
    ensures |shape.offsets| == mages + summons
  {
    var slots := Slots(order, mages, summons, bandWidth);
    var origin := OriginDepth(order, summons, bandWidth);
    Shape(seq(|slots|, k requires 0 <= k < |slots| => Vec2(slots[k].across, LaneOffset(side, slots[k].depth - origin))),
          Deepest(slots), origin, ColumnsFor(summons, bandWidth))
  }

  // ---- slots stand apart ----

  predicate Apart(a: Slot, b: Slot) {
    Abs(a.across - b.across) >= FORMATION_SPACING || Abs(a.depth - b.depth) >= MAGE_SETBACK_PUSH
  }

  lemma IndexFromSlot(i: nat, j: nat, columns: nat)
    requires columns >= 1 && i / columns == j / columns && i % columns == j % columns
    ensures i == j
  {
    assert i == columns * (i / columns) + i % columns;
    assert j == columns * (j / columns) + j % columns;
  }

  lemma WholeGap(a: int, b: int)
    requires a != b
    ensures Abs(a as real - b as real) >= 1.0
  {
    assert a - b >= 1 || b - a >= 1;
    assert (a - b) as real == a as real - b as real;
  }

  lemma BlockSlotsApart(i: nat, j: nat, columns: nat, depthStart: real)
    requires columns >= 1 && i != j
    ensures Apart(SlotAt(i, columns, depthStart), SlotAt(j, columns, depthStart))
  {
    if i / columns == j / columns && i % columns == j % columns { IndexFromSlot(i, j, columns); }
    if i % columns != j % columns {
      WholeGap(i % columns, j % columns);
    } else {
      WholeGap(i / columns, j / columns);
    }
  }

  /** The last rank of a block that holds a unit. */
  lemma RankWithinRows(index: nat, count: nat, columns: nat)
    requires columns >= 1 && index < count
    ensures index / columns <= Rows(count, columns) - 1
  {
    assert index + columns <= count + columns - 1;
    DivMonotone(index + columns, count + columns - 1, columns);
    assert (index + columns) / columns == index / columns + 1 by { DivShift(index, columns); }
  }

  lemma {:induction false} MulMonotone(d: nat, p: nat, q: nat)
    requires p <= q
    ensures d * p <= d * q
    decreases q - p
  {
    if p < q {
      MulMonotone(d, p, q - 1);
      assert d * q == d * (q - 1) + d;
    }
  }

  lemma MulOrders(d: nat, p: nat, q: nat)
    ensures p <= q ==> d * p <= d * q
  {
    if p <= q { MulMonotone(d, p, q); }
  }

  lemma DivMonotone(a: nat, b: nat, d: nat)
    requires a <= b && d >= 1
    ensures a / d <= b / d
  {
    var p, q := a / d, b / d;
    QuotientBounds(a, d, p);
    QuotientBounds(b, d, q);
    MulOrders(d, q + 1, p);
  }

  lemma QuotientBounds(x: nat, d: nat, q: nat)
    requires d >= 1 && q == x / d
    ensures d * q <= x < d * (q + 1)
  {
    assert x == d * q + x % d;
  }

  lemma DivShift(a: nat, d: nat)
    requires d >= 1
    ensures (a + d) / d == a / d + 1
  {
    var p, q := a / d, (a + d) / d;
    QuotientBounds(a, d, p);
    QuotientBounds(a + d, d, q);
    assert d * (p + 2) == d * (p + 1) + d && d * (p + 1) == d * p + d;
    MulOrders(d, q + 1, p + 1);
    MulOrders(d, p + 2, q);
  }

  /** Mages stand at least half a rank behind every summon. */
  lemma MagesBehindSummons(order: Order, i: nat, j: nat, mages: nat, summons: nat, bandWidth: real)
    requires i < mages && j < summons
    ensures SlotAt(i, ColumnsFor(mages, bandWidth), MageDepth(order, summons, bandWidth)).depth
         >= SlotAt(j, ColumnsFor(summons, bandWidth), 0.0).depth + MAGE_SETBACK_PUSH
  {
    hide ColumnsFor;
    var columns := ColumnsFor(summons, bandWidth);
    RankWithinRows(j, summons, columns);
    assert (j / columns) as real <= Rows(summons, columns) as real - 1.0;
    assert (i / ColumnsFor(mages, bandWidth)) as real >= 0.0;
  }

  /** Any two slots of any troop are a column apart across, or half a rank apart in depth. */
  lemma SlotsApart(order: Order, mages: nat, summons: nat, bandWidth: real, i: nat, j: nat)
    requires i < j < mages + summons
    ensures var slots := Slots(order, mages, summons, bandWidth); Apart(slots[i], slots[j])
  {
    hide ColumnsFor, MageDepth, SlotAt;
    var m, s := ColumnsFor(mages, bandWidth), ColumnsFor(summons, bandWidth);
    if j < mages {
      BlockSlotsApart(i, j, m, MageDepth(order, summons, bandWidth));
    } else if i >= mages {
      BlockSlotsApart(i - mages, j - mages, s, 0.0);
    } else {
      MagesBehindSummons(order, i, j - mages, mages, summons, bandWidth);
    }
  }

  lemma {:induction false} DeepestBounds(slots: seq<Slot>)
    requires forall k :: 0 <= k < |slots| ==> slots[k].depth >= 0.0
    ensures Deepest(slots) >= 0.0
    ensures forall k :: 0 <= k < |slots| ==> slots[k].depth <= Deepest(slots)
  {
    if |slots| > 1 { DeepestBounds(slots[..|slots| - 1]); }
  }

  /** A slot never reaches past the columns its rank was given. */
  lemma AcrossWithinColumns(index: nat, columns: nat, depthStart: real)
    requires columns >= 1
    ensures Abs(SlotAt(index, columns, depthStart).across) <= (columns - 1) as real * INSET
    ensures SlotAt(index, columns, depthStart).depth >= depthStart
  {
    var column := index % columns;
    assert 0 <= column <= columns - 1;
    assert (index / columns) as real >= 0.0;
    assert column as real <= (columns - 1) as real;
  }

  /** A troop fits its band: every slot keeps half a column clear of the band's edges. */
  lemma SlotsFitBand(order: Order, mages: nat, summons: nat, bandWidth: real, k: nat)
    requires bandWidth >= FORMATION_SPACING && k < mages + summons
    ensures var slot := Slots(order, mages, summons, bandWidth)[k];
      Abs(slot.across) <= bandWidth / 2.0 - INSET && slot.depth >= 0.0
  {
    hide SlotAt;
    var m, s := ColumnsFor(mages, bandWidth), ColumnsFor(summons, bandWidth);
    var deep := MageDepth(order, summons, bandWidth);
    assert deep >= 0.0 by { MageDepthNotNegative(order, summons, bandWidth); }
    if k < mages { AcrossWithinColumns(k, m, deep); } else { AcrossWithinColumns(k - mages, s, 0.0); }
  }

  lemma MageDepthNotNegative(order: Order, summons: nat, bandWidth: real)
    ensures MageDepth(order, summons, bandWidth) >= 0.0
  {
    if summons > 0 {
      var columns := ColumnsFor(summons, bandWidth);
      RankWithinRows(0, summons, columns);
      assert Rows(summons, columns) >= 1;
    }
  }

  // ---- the strip, shared ----

  /** Part `index` of `count` equal parts of a span. */
  function Part(span: Span, index: nat, count: nat): Span {
    var width := (span.end - span.start) / (if count > 1 then count else 1) as real;
    var start := span.start + Times(width, index as real);
    Span(start, start + width)
  }

  /** The strip in front of the lane a troop holds, or the whole strip. */
  function OrderSpan(config: MapConfig, side: Side, order: Order): Span {
    var strip := config.deployment.At(side).extent;
    match order
    case HoldZone(zoneId) =>
      (match ZoneById(config.zones, zoneId)
       case Some(zone) => Span(Max(strip.start, zone.extent.start), Min(strip.end, zone.extent.end))
       case None => strip)
    case DefendBase => strip
    case PushEnemyBase => strip
  }

  function DeploymentBand(config: MapConfig, side: Side, order: Order, index: nat, count: nat): Span {
    Part(OrderSpan(config, side, order), index, count)
  }

  lemma PartWidth(span: Span, count: nat, width: real)
    requires count >= 1 && width == (span.end - span.start) / (if count > 1 then count else 1) as real
    ensures Times(width, count as real) == span.end - span.start
    ensures span.end >= span.start ==> width >= 0.0
  {
    var n := count as real;
    assert n >= 1.0 && width == (span.end - span.start) / n;
    assert width * n == span.end - span.start;
    if width < 0.0 { assert Times(-width, n) > 0.0; }
  }

  lemma TimesNext(width: real, index: nat)
    ensures Times(width, (index + 1) as real) == Times(width, index as real) + width
  {
    assert (index + 1) as real == index as real + 1.0;
  }

  lemma {:induction false} TimesOrders(width: real, i: nat, j: nat)
    requires width >= 0.0 && i <= j
    ensures Times(width, i as real) <= Times(width, j as real)
    decreases j - i
  {
    if i < j {
      TimesNext(width, j - 1);
      TimesOrders(width, i, j - 1);
    }
  }

  /** The parts tile the span: the first starts where it starts, each ends where the next
      begins, the last ends where it ends, and no two overlap. */
  lemma PartsTile(span: Span, count: nat, i: nat, j: nat)
    requires count >= 1 && span.start <= span.end && i < count && j < count
    ensures Part(span, 0, count).start == span.start
    ensures i + 1 < count ==> Part(span, i, count).end == Part(span, i + 1, count).start
    ensures Part(span, count - 1, count).end == span.end
    ensures i < j ==> Part(span, i, count).end <= Part(span, j, count).start
    ensures span.start <= Part(span, i, count).start <= Part(span, i, count).end <= span.end
  {
    var width := (span.end - span.start) / (if count > 1 then count else 1) as real;
    PartWidth(span, count, width);
    hide Times;
    TimesNext(width, i);
    TimesNext(width, count - 1);
    TimesOrders(width, 0, i);
    TimesOrders(width, i + 1, count);
    if i < j { TimesOrders(width, i + 1, j); }
    assert Times(width, 0 as real) == 0.0;
  }

  // ---- the place each troop has among those that share its order ----

  function Count(orders: seq<Order>, order: Order): nat {
    if orders == [] then 0
    else Count(orders[..|orders| - 1], order) + if orders[|orders| - 1] == order then 1 else 0
  }

  function Shares(orders: seq<Order>): (shares: seq<(nat, nat)>)
    ensures |shares| == |orders|
  {
    seq(|orders|, k requires 0 <= k < |orders| => (Count(orders[..k], orders[k]), Count(orders, orders[k])))
  }

  function Tally(tally: map<Order, nat>, order: Order): nat {
    if order in tally then tally[order] else 0
  }

  /** The dictionary counts the first `n` orders. */
  ghost predicate Tallied(tally: map<Order, nat>, orders: seq<Order>, n: nat) {
    n <= |orders| && forall order :: Tally(tally, order) == Count(orders[..n], order)
  }

  lemma TallyNext(tally: map<Order, nat>, orders: seq<Order>, n: nat)
    requires n < |orders| && Tallied(tally, orders, n)
    ensures Tallied(tally[orders[n] := Tally(tally, orders[n]) + 1], orders, n + 1)
  {
    var next := tally[orders[n] := Tally(tally, orders[n]) + 1];
    forall order ensures Tally(next, order) == Count(orders[..n + 1], order) {
      CountNext(orders, n, order);
      assert Tally(tally, order) == Count(orders[..n], order);
    }
  }

  lemma CountNext(orders: seq<Order>, n: nat, order: Order)
    requires n < |orders|
    ensures Count(orders[..n + 1], order) == Count(orders[..n], order) + if orders[n] == order then 1 else 0
  {
    assert orders[..n + 1][..n] == orders[..n];
  }

  /** `_band_shares`: one pass to count, one to place. */
  method BandShares(orders: seq<Order>) returns (shares: seq<(nat, nat)>)
    ensures shares == Shares(orders)
  {
    hide Count, Tally;
    var totals: map<Order, nat> := map[];
    NothingTallied(orders);
    for i := 0 to |orders|
      invariant Tallied(totals, orders, i)
    {
      TallyNext(totals, orders, i);
      totals := totals[orders[i] := Tally(totals, orders[i]) + 1];
    }
    var placed: map<Order, nat> := map[];
    shares := [];
    for i := 0 to |orders|
      invariant Tallied(placed, orders, i)
      invariant shares == Shares(orders)[..i]
    {
      TallyNext(placed, orders, i);
      var index := Tally(placed, orders[i]);
      placed := placed[orders[i] := index + 1];
      shares := shares + [(index, Tally(totals, orders[i]))];
      assert orders[..|orders|] == orders;
      assert Shares(orders)[..i + 1] == Shares(orders)[..i] + [Shares(orders)[i]];
    }
    assert Shares(orders)[..|orders|] == Shares(orders);
  }

  lemma NothingTallied(orders: seq<Order>)
    ensures Tallied(map[], orders, 0)
  {
  }

  lemma {:induction false} CountGrows(orders: seq<Order>, order: Order, i: nat, j: nat)
    requires i <= j <= |orders|
    ensures Count(orders[..i], order) <= Count(orders[..j], order)
    ensures i < j && orders[i] == order ==> Count(orders[..i], order) < Count(orders[..j], order)
    decreases j - i
  {
    if i < j {
      CountGrows(orders, order, i, j - 1);
      assert orders[..j][..j - 1] == orders[..j - 1];
    }
  }

  /** Troops sharing an order share its stretch of the strip side by side: each gets a part of
      its own, within the stretch, and no two overlap. */
  lemma SharedBandsDoNotOverlap(config: MapConfig, side: Side, orders: seq<Order>, i: nat, j: nat)
    requires i < j < |orders| && orders[i] == orders[j]
    requires var span := OrderSpan(config, side, orders[i]); span.start <= span.end
    ensures var a, b := Shares(orders)[i], Shares(orders)[j];
      && a.0 < b.0 < a.1 && a.1 == b.1
      && DeploymentBand(config, side, orders[i], a.0, a.1).end <= DeploymentBand(config, side, orders[j], b.0, b.1).start
  {
    hide OrderSpan, Part;
    var order := orders[i];
    CountGrows(orders, order, i, j);
    CountGrows(orders, order, j, |orders|);
    assert orders[..|orders|] == orders;
    PartsTile(OrderSpan(config, side, order), Count(orders, order), Count(orders[..i], order), Count(orders[..j], order));
  }
}
