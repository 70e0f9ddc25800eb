/** The plan screen as a state machine (`client/src/plan/planReducer.ts`, `derive.ts`), over
    the catalogue the server judges the same plan by. */
module PlanEditor {
  import opened Common
  import opened Ordering
  import opened BattleMap
  import opened Plan
  import opened Runs

  /** The lanes a fresh troop is offered, in order. */
  const LANES: seq<string> := ["W", "E"]

  datatype Draft = Draft(troops: seq<PlannedTroop>, first: Option<string>, second: Option<string>)

  datatype SlotName = FirstSlot | SecondSlot

  datatype Edit =
    | FieldMage(mageId: string)
    | UnfieldMage(mageId: string)
    | AddSummon(mageId: string, summonId: string)
    | RemoveSummon(mageId: string, summonId: string)
    | SetOrder(mageId: string, order: Order)
    | EquipSpell(slot: SlotName, spellId: string)
    | ClearSpell(slot: SlotName)

  // ---- what the screen derives ----

  /** A summon the roster does not describe costs one. */
  function CostOf(cat: Catalog, id: string): int {
    match SummonById(cat.summons, id)
    case None => 1
    case Some(summon) => summon.capacityCost
  }

  function CostAll(cat: Catalog, ids: seq<string>): int {
    if ids == [] then 0 else CostAll(cat, ids[..|ids| - 1]) + CostOf(cat, ids[|ids| - 1])
  }

  function Capacity(cat: Catalog, mageId: string): int {
    match MageById(cat.mages, mageId)
    case None => 0
    case Some(mage) => mage.supportCapacity
  }

  function Unsupported(cat: Catalog, troop: PlannedTroop): int {
    var spare := Capacity(cat, troop.mageId) - CostAll(cat, troop.summonIds);
    if spare > 0 then spare else 0
  }

  function Remaining(cat: Catalog, troops: seq<PlannedTroop>, id: string): int {
    Owned(cat, id) - Used(troops, id)
  }

  /** `remainingSummons`: the roster's counts less what every troop has taken. */
  method RemainingSummons(cat: Catalog, troops: seq<PlannedTroop>) returns (remaining: map<string, int>)
    ensures forall id :: CountOf(remaining, id) == Remaining(cat, troops, id)
  {
    hide Used;
    remaining := cat.summonCounts;
    NothingUsed(troops);
    for i := 0 to |troops|
      invariant forall id :: CountOf(remaining, id) == Owned(cat, id) - Used(troops[..i], id)
    {
      var ids := troops[i].summonIds;
      ghost var before := remaining;
      for j := 0 to |ids|
        invariant forall id :: CountOf(remaining, id) == CountOf(before, id) - multiset(ids[..j])[id]
      {
        assert ids[..j + 1] == ids[..j] + [ids[j]];
        remaining := remaining[ids[j] := CountOf(remaining, ids[j]) - 1];
      }
      assert ids[..|ids|] == ids;
      forall id ensures Used(troops[..i + 1], id) == Used(troops[..i], id) + multiset(ids)[id] { UsedAppend(troops, i, id); }
    }
    assert troops[..|troops|] == troops;
  }

  lemma NothingUsed(troops: seq<PlannedTroop>)
    ensures forall id :: Used(troops[..0], id) == 0
  {
  }

  predicate CanEquip(cat: Catalog, d: Draft, spellId: string) {
    exists spell :: spell in cat.spells && spell.id == spellId && SpellEligible(cat, spell, Submitted(d))
  }

  /** The draft as it would be sent. */
  function Submitted(d: Draft): SubmittedPlan {
    SubmittedPlan(d.troops, [d.first, d.second])
  }

  // ---- the reducer ----

  function Fields(d: Draft, mageId: string): bool {
    exists t :: t in d.troops && t.mageId == mageId
  }

  /** As much of a default entourage as the pool still has, in order. */
  function Drawn(cat: Catalog, troops: seq<PlannedTroop>, wanted: seq<string>): seq<string> {
    if wanted == [] then []
    else
      var got, id := Drawn(cat, troops, wanted[..|wanted| - 1]), wanted[|wanted| - 1];
      if Remaining(cat, troops, id) - multiset(got)[id] <= 0 then got else got + [id]
  }

  method DrawEntourage(cat: Catalog, troops: seq<PlannedTroop>, wanted: seq<string>) returns (entourage: seq<string>)
    ensures entourage == Drawn(cat, troops, wanted)
  {
    var available := RemainingSummons(cat, troops);
    entourage := [];
    for i := 0 to |wanted|
      invariant entourage == Drawn(cat, troops, wanted[..i])
      invariant forall id :: CountOf(available, id) == Remaining(cat, troops, id) - multiset(entourage)[id]
    {
      assert wanted[..i + 1][..i] == wanted[..i];
      if CountOf(available, wanted[i]) <= 0 { continue; }
      available := available[wanted[i] := CountOf(available, wanted[i]) - 1];
      entourage := entourage + [wanted[i]];
    }
    assert wanted[..|wanted|] == wanted;
  }

  predicate Holds(troops: seq<PlannedTroop>, lane: string) {
    exists t :: t in troops && t.order == HoldZone(lane)
  }

  /** The first lane nobody has been sent to, else the base. */
  function FirstFreeOrder(troops: seq<PlannedTroop>, lanes: seq<string>): Order {
    if lanes == [] then DefendBase
    else if !Holds(troops, lanes[0]) then HoldZone(lanes[0])
    else FirstFreeOrder(troops, lanes[1..])
  }

  function FindTroop(troops: seq<PlannedTroop>, mageId: string): Option<PlannedTroop> {
    FindFirst((t: PlannedTroop) => t.mageId == mageId, troops)
  }

  function MapTroop(troops: seq<PlannedTroop>, mageId: string, change: PlannedTroop -> PlannedTroop): seq<PlannedTroop> {
    if troops == [] then []
    else [if troops[0].mageId == mageId then change(troops[0]) else troops[0]] + MapTroop(troops[1..], mageId, change)
  }

  function RemoveFirst(ids: seq<string>, id: string): seq<string> {
    if ids == [] then [] else if ids[0] == id then ids[1..] else [ids[0]] + RemoveFirst(ids[1..], id)
  }

  function WithSlot(d: Draft, slot: SlotName, value: Option<string>): Draft {
    if slot == FirstSlot then d.(first := value) else d.(second := value)
  }

  function InSlot(d: Draft, slot: SlotName): Option<string> {
    if slot == FirstSlot then d.first else d.second
  }

  function OtherSlot(slot: SlotName): SlotName {
    if slot == FirstSlot then SecondSlot else FirstSlot
  }

  function Adding(id: string): PlannedTroop -> PlannedTroop {
    (t: PlannedTroop) => t.(summonIds := t.summonIds + [id])
  }

  function Removing(id: string): PlannedTroop -> PlannedTroop {
    (t: PlannedTroop) => t.(summonIds := RemoveFirst(t.summonIds, id))
  }

  function Sending(order: Order): PlannedTroop -> PlannedTroop {
    (t: PlannedTroop) => t.(order := order)
  }

  function Reduce(cat: Catalog, d: Draft, edit: Edit): Draft {
    match edit
    case FieldMage(mageId) =>
      var mage := MageById(cat.mages, mageId);
      if Fields(d, mageId) || |d.troops| >= cat.mageCap || mage.None? then d
      else d.(troops := d.troops + [PlannedTroop(mageId, Drawn(cat, d.troops, mage.value.defaultEntourage), FirstFreeOrder(d.troops, LANES))])
    case UnfieldMage(mageId) => d.(troops := Filter((t: PlannedTroop) => t.mageId != mageId, d.troops))
    case AddSummon(mageId, id) =>
      var troop := FindTroop(d.troops, mageId);
      if troop.None? || Remaining(cat, d.troops, id) <= 0 || CostOf(cat, id) > Unsupported(cat, troop.value) then d
      else d.(troops := MapTroop(d.troops, mageId, Adding(id)))
    case RemoveSummon(mageId, id) => d.(troops := MapTroop(d.troops, mageId, Removing(id)))
    case SetOrder(mageId, order) => d.(troops := MapTroop(d.troops, mageId, Sending(order)))
    case EquipSpell(slot, spellId) =>
      if !CanEquip(cat, d, spellId) then d
      else
        var cleared := if InSlot(d, OtherSlot(slot)) == Some(spellId) then WithSlot(d, OtherSlot(slot), None) else d;
        WithSlot(cleared, slot, Some(spellId))
    case ClearSpell(slot) => WithSlot(d, slot, None)
  }

  // ---- what every edit keeps ----

  ghost predicate MagesDistinct(troops: seq<PlannedTroop>) {
    forall i, j :: 0 <= i < j < |troops| ==> troops[i].mageId != troops[j].mageId
  }

  ghost predicate PoolKept(cat: Catalog, troops: seq<PlannedTroop>) {
    forall id :: Used(troops, id) > 0 ==> Used(troops, id) <= Owned(cat, id)
  }

  predicate TroopFits(cat: Catalog, troop: PlannedTroop) {
    MageById(cat.mages, troop.mageId).Some? && CostAll(cat, troop.summonIds) <= Capacity(cat, troop.mageId)
  }

  /** Nothing overdrawn from the shared pool, and every troop within its mage's capacity. */
  ghost predicate Covered(cat: Catalog, troops: seq<PlannedTroop>) {
    PoolKept(cat, troops) && forall t :: t in troops ==> TroopFits(cat, t)
  }

  ghost predicate Kept(cat: Catalog, d: Draft) {
    && MagesDistinct(d.troops) && |d.troops| <= cat.mageCap
    && Covered(cat, d.troops)
    && (d.first.Some? ==> d.first != d.second)
  }

  ghost predicate CostsSensible(cat: Catalog) {
    forall id :: CostOf(cat, id) >= 0
  }

  /** Every mage's default entourage, drawn from the full pool, fits its mage. */
  ghost predicate EntouragesFit(cat: Catalog) {
    forall id :: MageById(cat.mages, id).Some? ==>
      CostAll(cat, Drawn(cat, [], MageById(cat.mages, id).value.defaultEntourage)) <= Capacity(cat, id)
  }

  // -- drawing --

  lemma {:induction false} DrawnWithinPool(cat: Catalog, troops: seq<PlannedTroop>, wanted: seq<string>, id: string)
    ensures var n := multiset(Drawn(cat, troops, wanted))[id]; n > 0 ==> n <= Remaining(cat, troops, id)
  {
    hide Remaining;
    if wanted != [] { DrawnWithinPool(cat, troops, wanted[..|wanted| - 1], id); }
  }

  lemma CostAppend(cat: Catalog, ids: seq<string>, id: string)
    ensures CostAll(cat, ids + [id]) == CostAll(cat, ids) + CostOf(cat, id)
  {
    assert (ids + [id])[..|ids|] == ids;
  }

  /** A smaller pool never draws a costlier entourage. */
  lemma {:induction false} SmallerPoolDrawsLess(cat: Catalog, troops: seq<PlannedTroop>, wanted: seq<string>)
    requires CostsSensible(cat)
    ensures CostAll(cat, Drawn(cat, troops, wanted)) <= CostAll(cat, Drawn(cat, [], wanted))
    ensures forall id :: Remaining(cat, troops, id) - multiset(Drawn(cat, troops, wanted))[id]
                      <= Remaining(cat, [], id) - multiset(Drawn(cat, [], wanted))[id]
  {
    hide Owned;
    if wanted != [] {
      var front, id := wanted[..|wanted| - 1], wanted[|wanted| - 1];
      SmallerPoolDrawsLess(cat, troops, front);
      CostAppend(cat, Drawn(cat, troops, front), id);
      CostAppend(cat, Drawn(cat, [], front), id);
    }
  }

  // -- every troop of a mage changed at once --

  /** A change to a mage's troops, place by place: whoever else is fielded is left alone. */
  lemma {:induction false} MapTroopAt(troops: seq<PlannedTroop>, mageId: string, change: PlannedTroop -> PlannedTroop)
    ensures |MapTroop(troops, mageId, change)| == |troops|
    ensures forall k :: 0 <= k < |troops| ==>
      MapTroop(troops, mageId, change)[k] == if troops[k].mageId == mageId then change(troops[k]) else troops[k]
  {
    if troops != [] { MapTroopAt(troops[1..], mageId, change); }
  }

  /** How many troops a mage leads. */
  function TroopsOf(troops: seq<PlannedTroop>, mageId: string): nat {
    if troops == [] then 0 else (if troops[0].mageId == mageId then 1 else 0) + TroopsOf(troops[1..], mageId)
  }

  lemma {:induction false} LeadsOne(troops: seq<PlannedTroop>, mageId: string)
    requires MagesDistinct(troops)
    ensures TroopsOf(troops, mageId) == if FindTroop(troops, mageId).Some? then 1 else 0
    ensures forall t :: t in troops && t.mageId == mageId ==> FindTroop(troops, mageId) == Some(t)
  {
    if troops != [] {
      LeadsOne(troops[1..], mageId);
      if troops[0].mageId == mageId { LeadsNone(troops[1..], mageId); }
    }
  }

  lemma {:induction false} LeadsNone(troops: seq<PlannedTroop>, mageId: string)
    requires forall t :: t in troops ==> t.mageId != mageId
    ensures TroopsOf(troops, mageId) == 0
  {
    if troops != [] { LeadsNone(troops[1..], mageId); }
  }

  lemma {:induction false} FoundTroop(troops: seq<PlannedTroop>, mageId: string)
    ensures FindTroop(troops, mageId).Some? ==>
      FindTroop(troops, mageId).value in troops && FindTroop(troops, mageId).value.mageId == mageId && TroopsOf(troops, mageId) >= 1
  {
    if troops != [] { FoundTroop(troops[1..], mageId); }
  }

  /** A summon added to a mage is added to every troop that mage leads. */
  lemma {:induction false} UsedAdding(troops: seq<PlannedTroop>, mageId: string, id: string, other: string)
    ensures Used(MapTroop(troops, mageId, Adding(id)), other)
         == Used(troops, other) + if other == id then TroopsOf(troops, mageId) else 0
  {
    if troops != [] {
      UsedAdding(troops[1..], mageId, id, other);
      MapTroopHead(troops, mageId, Adding(id));
    }
  }

  lemma MapTroopHead(troops: seq<PlannedTroop>, mageId: string, change: PlannedTroop -> PlannedTroop)
    requires troops != []
    ensures MapTroop(troops, mageId, change)[1..] == MapTroop(troops[1..], mageId, change)
  {
  }

  /** A change that takes no summon anywhere takes none in all. */
  lemma {:induction false} UsedShrinks(troops: seq<PlannedTroop>, mageId: string, change: PlannedTroop -> PlannedTroop, id: string)
    requires forall t :: multiset(change(t).summonIds)[id] <= multiset(t.summonIds)[id]
    ensures Used(MapTroop(troops, mageId, change), id) <= Used(troops, id)
  {
    if troops != [] {
      UsedShrinks(troops[1..], mageId, change, id);
      MapTroopHead(troops, mageId, change);
    }
  }

  /** A change that only lightens troops keeps everything covered. */
  lemma LightenedCovered(cat: Catalog, troops: seq<PlannedTroop>, mageId: string, change: PlannedTroop -> PlannedTroop)
    requires Covered(cat, troops)
    requires forall t, id :: multiset(change(t).summonIds)[id] <= multiset(t.summonIds)[id]
    requires forall t :: change(t).mageId == t.mageId && CostAll(cat, change(t).summonIds) <= CostAll(cat, t.summonIds)
    ensures Covered(cat, MapTroop(troops, mageId, change))
  {
    hide Used, Owned, CostAll;
    var after := MapTroop(troops, mageId, change);
    forall id | Used(after, id) > 0 ensures Used(after, id) <= Owned(cat, id) { UsedShrinks(troops, mageId, change, id); }
    MapTroopAt(troops, mageId, change);
    forall t | t in after ensures TroopFits(cat, t) {
      var k :| 0 <= k < |after| && after[k] == t;
      assert troops[k] in troops;
    }
  }

  lemma {:induction false} UsedFilter(keep: PlannedTroop -> bool, troops: seq<PlannedTroop>, id: string)
    ensures Used(Filter(keep, troops), id) <= Used(troops, id)
  {
    if troops != [] {
      UsedFilter(keep, troops[1..], id);
      assert ([troops[0]] + Filter(keep, troops[1..]))[1..] == Filter(keep, troops[1..]);
    }
  }

  lemma {:induction false} FilterStaysDistinct(keep: PlannedTroop -> bool, troops: seq<PlannedTroop>)
    requires MagesDistinct(troops)
    ensures MagesDistinct(Filter(keep, troops)) && |Filter(keep, troops)| <= |troops|
  {
    if troops != [] {
      FilterStaysDistinct(keep, troops[1..]);
      FilterMembers(keep, troops[1..]);
      var rest := Filter(keep, troops[1..]);
      forall k | 0 <= k < |rest| ensures rest[k].mageId != troops[0].mageId { assert rest[k] in troops[1..]; }
    }
  }

  lemma UnfieldCovered(cat: Catalog, d: Draft, mageId: string)
    requires Covered(cat, d.troops)
    ensures Covered(cat, Reduce(cat, d, UnfieldMage(mageId)).troops)
  {
    hide TroopFits, Used, Owned;
    var keep := (t: PlannedTroop) => t.mageId != mageId;
    FilterMembers(keep, d.troops);
    var left := Filter(keep, d.troops);
    forall id | Used(left, id) > 0 ensures Used(left, id) <= Owned(cat, id) { UsedFilter(keep, d.troops, id); }
  }

  // -- which edits keep the plan covered --

  predicate FieldRefused(cat: Catalog, d: Draft, mageId: string) {
    Fields(d, mageId) || |d.troops| >= cat.mageCap || MageById(cat.mages, mageId).None?
  }

  predicate AddRefused(cat: Catalog, d: Draft, mageId: string, id: string) {
    var troop := FindTroop(d.troops, mageId);
    troop.None? || Remaining(cat, d.troops, id) <= 0 || CostOf(cat, id) > Unsupported(cat, troop.value)
  }

  /** What the screen would have to check before an edit. Fielding: what is drawn fits. Adding:
      the pool has one for every troop the mage leads, and each of those has room. */
  predicate EditSafe(cat: Catalog, d: Draft, edit: Edit) {
    match edit
    case FieldMage(mageId) =>
      FieldRefused(cat, d, mageId)
      || CostAll(cat, Drawn(cat, d.troops, MageById(cat.mages, mageId).value.defaultEntourage)) <= Capacity(cat, mageId)
    case AddSummon(mageId, id) =>
      AddRefused(cat, d, mageId, id)
      || (TroopsOf(d.troops, mageId) <= Remaining(cat, d.troops, id)
          && forall t :: t in d.troops && t.mageId == mageId ==> CostAll(cat, t.summonIds) + CostOf(cat, id) <= Capacity(cat, mageId))
    case _ => true
  }

  lemma FieldKeepsExactly(cat: Catalog, d: Draft, mageId: string)
    requires Covered(cat, d.troops)
    ensures Covered(cat, Reduce(cat, d, FieldMage(mageId)).troops) <==> EditSafe(cat, d, FieldMage(mageId))
  {
    if !FieldRefused(cat, d, mageId) {
      hide Used, Owned, Drawn, CostAll;
      var wanted := MageById(cat.mages, mageId).value.defaultEntourage;
      var after := Reduce(cat, d, FieldMage(mageId)).troops;
      var troop := after[|d.troops|];
      assert after == d.troops + [troop] && troop in after;
      forall id | Used(after, id) > 0 ensures Used(after, id) <= Owned(cat, id) {
        assert after[..|d.troops|] == d.troops && after[..|d.troops| + 1] == after;
        UsedAppend(after, |d.troops|, id);
        DrawnWithinPool(cat, d.troops, wanted, id);
      }
    }
  }

  lemma AddKeepsExactly(cat: Catalog, d: Draft, mageId: string, id: string)
    requires Covered(cat, d.troops)
    ensures Covered(cat, Reduce(cat, d, AddSummon(mageId, id)).troops) <==> EditSafe(cat, d, AddSummon(mageId, id))
  {
    if !AddRefused(cat, d, mageId, id) {
      FoundTroop(d.troops, mageId);
      AddedPool(cat, d.troops, mageId, id);
      AddedFits(cat, d.troops, mageId, id);
    }
  }

  lemma AddedPool(cat: Catalog, troops: seq<PlannedTroop>, mageId: string, id: string)
    requires PoolKept(cat, troops) && TroopsOf(troops, mageId) >= 1
    ensures PoolKept(cat, MapTroop(troops, mageId, Adding(id))) <==> TroopsOf(troops, mageId) <= Remaining(cat, troops, id)
  {
    hide Used, Owned, TroopsOf, MapTroop;
    var after := MapTroop(troops, mageId, Adding(id));
    UsedAdding(troops, mageId, id, id);
    forall other | other != id ensures Used(after, other) == Used(troops, other) { UsedAdding(troops, mageId, id, other); }
  }

  lemma AddedFits(cat: Catalog, troops: seq<PlannedTroop>, mageId: string, id: string)
    requires forall t :: t in troops ==> TroopFits(cat, t)
    ensures (forall t :: t in MapTroop(troops, mageId, Adding(id)) ==> TroopFits(cat, t))
       <==> forall t :: t in troops && t.mageId == mageId ==> CostAll(cat, t.summonIds) + CostOf(cat, id) <= Capacity(cat, mageId)
  {
    hide CostAll, MapTroop;
    var after := MapTroop(troops, mageId, Adding(id));
    MapTroopAt(troops, mageId, Adding(id));
    forall k | 0 <= k < |troops|
      ensures TroopFits(cat, after[k])
         <==> troops[k].mageId == mageId ==> CostAll(cat, troops[k].summonIds) + CostOf(cat, id) <= Capacity(cat, mageId)
    {
      assert troops[k] in troops;
      CostAppend(cat, troops[k].summonIds, id);
    }
    forall t | t in troops ensures exists k :: 0 <= k < |after| && troops[k] == t && after[k] in after {
      var k :| 0 <= k < |troops| && troops[k] == t;
    }
  }

  lemma {:induction false} RemovingLightens(cat: Catalog, ids: seq<string>, id: string)
    requires CostsSensible(cat)
    ensures multiset(RemoveFirst(ids, id)) <= multiset(ids)
    ensures CostFront(cat, RemoveFirst(ids, id)) <= CostFront(cat, ids)
  {
    if ids != [] {
      assert ids == [ids[0]] + ids[1..];
      if ids[0] != id {
        RemovingLightens(cat, ids[1..], id);
        assert ([ids[0]] + RemoveFirst(ids[1..], id))[1..] == RemoveFirst(ids[1..], id);
      }
    }
  }

  /** The same sum, taken from the front. */
  function CostFront(cat: Catalog, ids: seq<string>): int {
    if ids == [] then 0 else CostOf(cat, ids[0]) + CostFront(cat, ids[1..])
  }

  lemma {:induction false} CostEitherWay(cat: Catalog, ids: seq<string>)
    ensures CostFront(cat, ids) == CostAll(cat, ids)
  {
    if |ids| == 1 {
    } else if ids != [] {
      var last := |ids| - 1;
      CostEitherWay(cat, ids[1..]);
      CostEitherWay(cat, ids[..last]);
      CostEitherWay(cat, ids[1..last]);
      assert ids[1..][..last - 1] == ids[1..last] && ids[..last][1..] == ids[1..last];
    }
  }

  lemma RemoveCovered(cat: Catalog, d: Draft, mageId: string, id: string)
    requires Covered(cat, d.troops) && CostsSensible(cat)
    ensures Covered(cat, Reduce(cat, d, RemoveSummon(mageId, id)).troops)
  {
    hide Covered, CostAll, CostFront, RemoveFirst;
    forall t ensures multiset(Removing(id)(t).summonIds) <= multiset(t.summonIds)
      ensures CostAll(cat, Removing(id)(t).summonIds) <= CostAll(cat, t.summonIds)
    {
      RemovingLightens(cat, t.summonIds, id);
      CostEitherWay(cat, t.summonIds);
      CostEitherWay(cat, RemoveFirst(t.summonIds, id));
    }
    LightenedCovered(cat, d.troops, mageId, Removing(id));
  }

  /** Which edits keep a plan covered, whoever is fielded and however often: exactly the safe
      ones. Only fielding and adding can break it. */
  lemma EditKeepsExactly(cat: Catalog, d: Draft, edit: Edit)
    requires Covered(cat, d.troops) && CostsSensible(cat)
    ensures Covered(cat, Reduce(cat, d, edit).troops) <==> EditSafe(cat, d, edit)
  {
    hide Covered;
    match edit
    case FieldMage(mageId) => FieldKeepsExactly(cat, d, mageId);
    case UnfieldMage(mageId) => UnfieldCovered(cat, d, mageId);
    case AddSummon(mageId, id) => AddKeepsExactly(cat, d, mageId, id);
    case RemoveSummon(mageId, id) => RemoveCovered(cat, d, mageId, id);
    case SetOrder(mageId, order) => LightenedCovered(cat, d.troops, mageId, Sending(order));
    case EquipSpell(slot, spellId) =>
    case ClearSpell(slot) =>
  }

  /** With no mage leading two troops, what the screen does check is enough. */
  lemma DistinctMeansSafe(cat: Catalog, d: Draft, edit: Edit)
    requires MagesDistinct(d.troops) && Covered(cat, d.troops) && CostsSensible(cat) && EntouragesFit(cat)
    ensures EditSafe(cat, d, edit)
  {
    hide CostAll, Drawn, Used, Owned;
    match edit
    case FieldMage(mageId) =>
      if !FieldRefused(cat, d, mageId) { SmallerPoolDrawsLess(cat, d.troops, MageById(cat.mages, mageId).value.defaultEntourage); }
    case AddSummon(mageId, id) =>
      FoundTroop(d.troops, mageId);
      LeadsOne(d.troops, mageId);
    case _ =>
  }

  /** No edit doubles a mage, grows a plan past the cap, or puts a spell in both slots. */
  lemma EditKeepsApart(cat: Catalog, d: Draft, edit: Edit)
    ensures var after := Reduce(cat, d, edit);
      && (MagesDistinct(d.troops) ==> MagesDistinct(after.troops))
      && (|d.troops| <= cat.mageCap ==> |after.troops| <= cat.mageCap)
      && ((d.first.Some? ==> d.first != d.second) ==> after.first.Some? ==> after.first != after.second)
  {
    hide Drawn, CanEquip, Unsupported, Remaining;
    match edit
    case FieldMage(mageId) =>
    case UnfieldMage(mageId) =>
      FilterShortens((t: PlannedTroop) => t.mageId != mageId, d.troops);
      if MagesDistinct(d.troops) { FilterStaysDistinct((t: PlannedTroop) => t.mageId != mageId, d.troops); }
    case AddSummon(mageId, id) => MappedApart(d.troops, mageId, Adding(id));
    case RemoveSummon(mageId, id) => MappedApart(d.troops, mageId, Removing(id));
    case SetOrder(mageId, order) => MappedApart(d.troops, mageId, Sending(order));
    case EquipSpell(slot, spellId) =>
    case ClearSpell(slot) =>
  }

  lemma MappedApart(troops: seq<PlannedTroop>, mageId: string, change: PlannedTroop -> PlannedTroop)
    requires forall t :: change(t).mageId == t.mageId
    ensures |MapTroop(troops, mageId, change)| == |troops|
    ensures MagesDistinct(troops) ==> MagesDistinct(MapTroop(troops, mageId, change))
  {
    MapTroopAt(troops, mageId, change);
  }

  lemma {:induction false} FilterShortens(keep: PlannedTroop -> bool, troops: seq<PlannedTroop>)
    ensures |Filter(keep, troops)| <= |troops|
  {
    if troops != [] { FilterShortens(keep, troops[1..]); }
  }

  /** No edit breaks a plan of distinct mages: they stay distinct and within the cap, no summon
      is overdrawn from the shared pool, every troop within its mage's capacity, and no spell
      in both slots. */
  lemma EveryEditKeeps(cat: Catalog, d: Draft, edit: Edit)
    requires Kept(cat, d) && CostsSensible(cat) && EntouragesFit(cat)
    ensures Kept(cat, Reduce(cat, d, edit))
  {
    hide Covered, Reduce, EditSafe, MagesDistinct;
    DistinctMeansSafe(cat, d, edit);
    EditKeepsExactly(cat, d, edit);
    EditKeepsApart(cat, d, edit);
  }

  ghost function Edited(cat: Catalog, d: Draft, edits: seq<Edit>): Draft {
    Fold((x: Draft, edit: Edit) => Reduce(cat, x, edit), d, edits)
  }

  /** After every edit of a session so far the plan is covered. */
  ghost predicate CoveredThroughout(cat: Catalog, d: Draft, edits: seq<Edit>)
    decreases |edits|
  {
    Covered(cat, d.troops) && (edits != [] ==> CoveredThroughout(cat, Reduce(cat, d, edits[0]), edits[1..]))
  }

  /** Every edit of a session is safe when it is made. */
  ghost predicate SafeThroughout(cat: Catalog, d: Draft, edits: seq<Edit>)
    decreases |edits|
  {
    edits != [] ==> EditSafe(cat, d, edits[0]) && SafeThroughout(cat, Reduce(cat, d, edits[0]), edits[1..])
  }

  /** A session from any covered plan, the server's suggestion included, keeps it covered
      exactly when each of its edits was safe. */
  lemma {:induction false} SessionKeepsExactly(cat: Catalog, d: Draft, edits: seq<Edit>)
    requires Covered(cat, d.troops) && CostsSensible(cat)
    ensures CoveredThroughout(cat, d, edits) <==> SafeThroughout(cat, d, edits)
    decreases |edits|
  {
    hide Covered, EditSafe, Reduce;
    if edits != [] {
      EditKeepsExactly(cat, d, edits[0]);
      if EditSafe(cat, d, edits[0]) { SessionKeepsExactly(cat, Reduce(cat, d, edits[0]), edits[1..]); }
    }
  }

  /** Any session from any plan of distinct mages keeps all of it, exactly when the roster's own
      entourages fit: short of that, clearing the plan and fielding the one that does not is a
      session that breaks it. */
  lemma EditingKeepsExactlyIfEntouragesFit(cat: Catalog, start: Draft)
    requires Kept(cat, start) && CostsSensible(cat) && cat.mageCap >= 1
    ensures EntouragesFit(cat) <==> forall edits :: Kept(cat, Edited(cat, start, edits))
  {
    hide Kept, Reduce;
    if EntouragesFit(cat) {
      var next := (x: Draft, edit: Edit) => Reduce(cat, x, edit);
      var holds := (x: Draft) => Kept(cat, x);
      forall x, edit | holds(x) ensures holds(next(x, edit)) { EveryEditKeeps(cat, x, edit); }
      forall edits ensures Kept(cat, Edited(cat, start, edits)) { FoldKeeps(next, holds, start, edits); }
    } else {
      var id :| MageById(cat.mages, id).Some?
        && CostAll(cat, Drawn(cat, [], MageById(cat.mages, id).value.defaultEntourage)) > Capacity(cat, id);
      var edits := UnfitFielded(cat, start, id);
      assert !Kept(cat, Edited(cat, start, edits));
    }
  }

  lemma EditedNext(cat: Catalog, d: Draft, edits: seq<Edit>)
    requires edits != []
    ensures Edited(cat, d, edits) == Edited(cat, Reduce(cat, d, edits[0]), edits[1..])
  {
    hide Reduce;
  }

  /** Unfielding everyone, then fielding a mage whose entourage does not fit. */
  lemma {:induction false} UnfitFielded(cat: Catalog, d: Draft, id: string) returns (edits: seq<Edit>)
    requires cat.mageCap >= 1 && MageById(cat.mages, id).Some?
    requires CostAll(cat, Drawn(cat, [], MageById(cat.mages, id).value.defaultEntourage)) > Capacity(cat, id)
    ensures !Kept(cat, Edited(cat, d, edits))
    decreases |d.troops|
  {
    hide CostAll, Drawn;
    if d.troops == [] {
      edits := [FieldMage(id)];
      var after := Reduce(cat, d, FieldMage(id));
      EditedNext(cat, d, edits);
      assert Edited(cat, after, []) == after;
      assert after.troops[0] in after.troops && !TroopFits(cat, after.troops[0]);
    } else {
      var first := UnfieldMage(d.troops[0].mageId);
      FilterShortens((t: PlannedTroop) => t.mageId != d.troops[0].mageId, d.troops[1..]);
      var rest := UnfitFielded(cat, Reduce(cat, d, first), id);
      edits := [first] + rest;
      EditedNext(cat, d, edits);
      assert edits[1..] == rest;
    }
  }

  // ---- what the server still has to check ----

  predicate SlotStranded(cat: Catalog, d: Draft, slot: Option<string>) {
    slot.Some? && !CanEquip(cat, d, slot.value)
  }

  lemma {:induction false} CostsAgree(cat: Catalog, ids: seq<string>)
    requires forall id :: id in ids ==> SummonById(cat.summons, id).Some?
    ensures CapacityUsed(cat, ids) == CostAll(cat, ids)
  {
    if ids != [] { CostsAgree(cat, ids[..|ids| - 1]); }
  }

  lemma {:induction false} SomebodyUses(troops: seq<PlannedTroop>, t: PlannedTroop, id: string)
    requires t in troops && id in t.summonIds
    ensures Used(troops, id) > 0
  {
    if t != troops[0] { SomebodyUses(troops[1..], t, id); }
  }

  ghost predicate SpellsDistinct(cat: Catalog) {
    forall a, b :: a in cat.spells && b in cat.spells && a.id == b.id ==> a == b
  }

  lemma {:induction false} SpellFound(spells: seq<SpellOption>, id: string)
    ensures SpellById(spells, id).None? ==> forall s :: s in spells ==> s.id != id
  {
    if spells != [] && spells[0].id != id { SpellFound(spells[1..], id); }
  }

  lemma SlotsAgree(cat: Catalog, d: Draft, slot: Option<string>)
    requires SpellsDistinct(cat)
    ensures SlotLegal(cat, Submitted(d), slot) <==> !SlotStranded(cat, d, slot)
  {
    hide SpellEligible;
    if slot.Some? { SpellFound(cat.spells, slot.value); }
  }

  /** Two programs, one rule book. A plan within cap, pool and capacity, as the screen keeps
      one, is a plan the server fields exactly when it has a troop, gives orders this map
      admits, supports every summon by school, and strands no spell. */
  lemma ServerAcceptsExactly(cat: Catalog, config: MapConfig, d: Draft)
    requires |d.troops| <= cat.mageCap && Covered(cat, d.troops) && SpellsDistinct(cat)
    ensures Legal(cat, config, Submitted(d))
       <==> (&& d.troops != []
             && (forall t :: t in d.troops ==> OrderLegal(t.order, config))
             && (forall t, id :: t in d.troops && id in t.summonIds ==> SummonSupported(cat, MageById(cat.mages, t.mageId).value, id))
             && !SlotStranded(cat, d, d.first) && !SlotStranded(cat, d, d.second))
  {
    hide Used, Owned, CostAll, CapacityUsed, SlotLegal, SlotStranded, SharesSchool, OrderLegal;
    SlotsAgree(cat, d, d.first);
    SlotsAgree(cat, d, d.second);
    forall t, id | t in d.troops && id in t.summonIds ensures Used(d.troops, id) <= Owned(cat, id) { SomebodyUses(d.troops, t, id); }
    forall t | t in d.troops && (forall id :: id in t.summonIds ==> SummonSupported(cat, MageById(cat.mages, t.mageId).value, id))
      ensures CapacityUsed(cat, t.summonIds) <= Capacity(cat, t.mageId)
    {
      CostsAgree(cat, t.summonIds);
    }
    assert Submitted(d).spellSlots[0] == d.first && Submitted(d).spellSlots[1] == d.second;
  }

  // ---- a new troop's order ----

  /** A new troop is sent to a lane nobody holds whenever there is one, the first such. */
  lemma {:induction false} NewTroopTakesFreeLane(troops: seq<PlannedTroop>, lanes: seq<string>)
    ensures match FirstFreeOrder(troops, lanes)
            case HoldZone(lane) => lane in lanes && !Holds(troops, lane)
            case DefendBase => forall lane :: lane in lanes ==> Holds(troops, lane)
            case PushEnemyBase => false
  {
    hide Holds;
    if lanes != [] && Holds(troops, lanes[0]) { NewTroopTakesFreeLane(troops, lanes[1..]); }
  }
}
