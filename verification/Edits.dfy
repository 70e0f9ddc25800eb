/** What each edit of the plan screen does, and what it leaves alone. */
module Edits {
  import opened Common
  import opened Ordering
  import opened BattleMap
  import opened Plan
  import opened PlanEditor

  predicate SpellsUntouched(d: Draft, e: Draft) { e.first == d.first && e.second == d.second }

  /** The smaller of what is wanted and what is left. */
  function AsManyAsLeft(wanted: nat, left: int): nat {
    if left <= 0 then 0 else if wanted < left then wanted else left
  }

  lemma {:induction false} DrawnAsManyAsLeft(cat: Catalog, troops: seq<PlannedTroop>, wanted: seq<string>, id: string)
    ensures multiset(Drawn(cat, troops, wanted))[id] == AsManyAsLeft(multiset(wanted)[id], Remaining(cat, troops, id))
  {
    hide Remaining;
    if wanted != [] {
      var front, last := wanted[..|wanted| - 1], wanted[|wanted| - 1];
      assert wanted == front + [last];
      DrawnAsManyAsLeft(cat, troops, front, id);
      DrawnAsManyAsLeft(cat, troops, front, last);
    }
  }

  /** Of each summon of a default entourage, as many as are wanted and left in the pool. */
  ghost predicate DrawnFrom(cat: Catalog, troops: seq<PlannedTroop>, wanted: seq<string>, got: seq<string>) {
    forall id :: multiset(got)[id] == AsManyAsLeft(multiset(wanted)[id], Owned(cat, id) - Used(troops, id))
  }

  /** The first lane nobody holds, or the base when every lane is held. */
  ghost predicate FreshOrder(troops: seq<PlannedTroop>, order: Order) {
    match order
    case HoldZone(lane) => lane in LANES && forall t :: t in troops ==> t.order != HoldZone(lane)
    case DefendBase => forall lane :: lane in LANES ==> exists t :: t in troops && t.order == HoldZone(lane)
    case PushEnemyBase => false
  }

  lemma DrawsFrom(cat: Catalog, troops: seq<PlannedTroop>, wanted: seq<string>)
    ensures DrawnFrom(cat, troops, wanted, Drawn(cat, troops, wanted))
  {
    hide Drawn, Owned, Used, AsManyAsLeft;
    forall id ensures multiset(Drawn(cat, troops, wanted))[id] == AsManyAsLeft(multiset(wanted)[id], Owned(cat, id) - Used(troops, id)) {
      DrawnAsManyAsLeft(cat, troops, wanted, id);
    }
  }

  lemma OrdersFresh(troops: seq<PlannedTroop>)
    ensures FreshOrder(troops, FirstFreeOrder(troops, LANES))
  {
    NewTroopTakesFreeLane(troops, LANES);
    hide FirstFreeOrder;
  }

  /** Fielding: one troop more, at the end, led by that mage, with its entourage as the pool allows,
      on a fresh order; refused when the mage is fielded, unknown or one too many. */
  lemma FieldingDoes(cat: Catalog, d: Draft, mageId: string)
    ensures var e := Reduce(cat, d, FieldMage(mageId));
      && SpellsUntouched(d, e)
      && (if (exists t :: t in d.troops && t.mageId == mageId) || |d.troops| >= cat.mageCap || MageById(cat.mages, mageId).None?
          then e == d
          else
            && |e.troops| == |d.troops| + 1 && e.troops[..|d.troops|] == d.troops
            && e.troops[|d.troops|].mageId == mageId
            && DrawnFrom(cat, d.troops, MageById(cat.mages, mageId).value.defaultEntourage, e.troops[|d.troops|].summonIds)
            && FreshOrder(d.troops, e.troops[|d.troops|].order))
  {
    hide Drawn, DrawnFrom, FreshOrder, FirstFreeOrder;
    OrdersFresh(d.troops);
    if MageById(cat.mages, mageId).Some? { DrawsFrom(cat, d.troops, MageById(cat.mages, mageId).value.defaultEntourage); }
  }

  /** Unfielding: that mage's troops go, every other stays, in order, and nothing else changes. */
  lemma UnfieldingDoes(cat: Catalog, d: Draft, mageId: string)
    ensures var e := Reduce(cat, d, UnfieldMage(mageId));
      && SpellsUntouched(d, e)
      && (forall t :: multiset(e.troops)[t] == if t.mageId == mageId then 0 else multiset(d.troops)[t])
      && InOrderOf(e.troops, d.troops)
  {
    var keep := (t: PlannedTroop) => t.mageId != mageId;
    FilterCounts(keep, d.troops);
    FilterInOrder(keep, d.troops);
  }

  /** Picked out of a list without changing places. */
  ghost predicate InOrderOf(picked: seq<PlannedTroop>, from: seq<PlannedTroop>)
    decreases |from|
  {
    picked == []
    || (from != [] && ((picked[0] == from[0] && InOrderOf(picked[1..], from[1..])) || InOrderOf(picked, from[1..])))
  }

  lemma {:induction false} FilterInOrder(keep: PlannedTroop -> bool, troops: seq<PlannedTroop>)
    ensures InOrderOf(Filter(keep, troops), troops)
  {
    if troops != [] {
      FilterInOrder(keep, troops[1..]);
      var picked := Filter(keep, troops);
      if keep(troops[0]) { assert picked[1..] == Filter(keep, troops[1..]); }
    }
  }

  /** Adding: when the first troop of the mage has room and the pool one left, every troop of the
      mage has one more of that summon, at the end; no other troop changes. Refused otherwise. */
  lemma AddingDoes(cat: Catalog, d: Draft, mageId: string, id: string)
    ensures var e := Reduce(cat, d, AddSummon(mageId, id));
      && SpellsUntouched(d, e) && |e.troops| == |d.troops|
      && (forall k :: 0 <= k < |d.troops| ==>
            e.troops[k] == if d.troops[k].mageId == mageId && !AddRefused(cat, d, mageId, id)
                           then d.troops[k].(summonIds := d.troops[k].summonIds + [id]) else d.troops[k])
  {
    MapTroopAt(d.troops, mageId, Adding(id));
    hide AddRefused;
    if AddRefused(cat, d, mageId, id) { assert Reduce(cat, d, AddSummon(mageId, id)) == d by { RefusedAdds(cat, d, mageId, id); } }
    else { assert Reduce(cat, d, AddSummon(mageId, id)).troops == MapTroop(d.troops, mageId, Adding(id)) by { TakenAdds(cat, d, mageId, id); } }
  }

  lemma RefusedAdds(cat: Catalog, d: Draft, mageId: string, id: string)
    requires AddRefused(cat, d, mageId, id)
    ensures Reduce(cat, d, AddSummon(mageId, id)) == d
  {
  }

  lemma TakenAdds(cat: Catalog, d: Draft, mageId: string, id: string)
    requires !AddRefused(cat, d, mageId, id)
    ensures Reduce(cat, d, AddSummon(mageId, id)) == d.(troops := MapTroop(d.troops, mageId, Adding(id)))
  {
  }

  /** What refuses an addition: no troop of that mage, none of that summon left, or the first such
      troop with less room than it costs. */
  lemma {:induction false} AddRefusedExactly(cat: Catalog, d: Draft, mageId: string, id: string, k: nat)
    requires k < |d.troops| && d.troops[k].mageId == mageId && forall j :: 0 <= j < k ==> d.troops[j].mageId != mageId
    requires CostsSensible(cat)
    ensures AddRefused(cat, d, mageId, id)
       <==> Used(d.troops, id) >= Owned(cat, id)
            || (CostOf(cat, id) > 0 && CostAll(cat, d.troops[k].summonIds) + CostOf(cat, id) > Capacity(cat, mageId))
  {
    hide Used, Owned, CostAll, CostOf, Capacity;
    FirstTroop(d.troops, mageId, k);
    assert CostOf(cat, id) >= 0;
  }

  lemma {:induction false} FirstTroop(troops: seq<PlannedTroop>, mageId: string, k: nat)
    requires k < |troops| && troops[k].mageId == mageId && forall j :: 0 <= j < k ==> troops[j].mageId != mageId
    ensures FindTroop(troops, mageId) == Some(troops[k])
  {
    if k > 0 { FirstTroop(troops[1..], mageId, k - 1); }
  }

  lemma {:induction false} RemoveFirstTakesOne(ids: seq<string>, id: string)
    ensures multiset(RemoveFirst(ids, id)) == if id in ids then multiset(ids) - multiset{id} else multiset(ids)
  {
    if ids != [] {
      assert ids == [ids[0]] + ids[1..];
      if ids[0] != id { RemoveFirstTakesOne(ids[1..], id); }
    }
  }

  /** Removing: every troop of the mage that has that summon has one fewer; nothing else changes. */
  lemma RemovingDoes(cat: Catalog, d: Draft, mageId: string, id: string, k: nat)
    requires k < |d.troops|
    ensures var e := Reduce(cat, d, RemoveSummon(mageId, id));
      && SpellsUntouched(d, e) && |e.troops| == |d.troops|
      && e.troops[k] == d.troops[k].(summonIds := e.troops[k].summonIds)
      && (if d.troops[k].mageId == mageId && id in d.troops[k].summonIds
          then multiset(e.troops[k].summonIds) == multiset(d.troops[k].summonIds) - multiset{id}
          else multiset(e.troops[k].summonIds) == multiset(d.troops[k].summonIds))
      && (d.troops[k].mageId != mageId ==> e.troops[k] == d.troops[k])
  {
    MapTroopAt(d.troops, mageId, Removing(id));
    RemoveFirstTakesOne(d.troops[k].summonIds, id);
  }

  /** Ordering: every troop of the mage has the new order; nothing else changes. */
  lemma OrderingDoes(cat: Catalog, d: Draft, mageId: string, order: Order, k: nat)
    requires k < |d.troops|
    ensures var e := Reduce(cat, d, SetOrder(mageId, order));
      && SpellsUntouched(d, e) && |e.troops| == |d.troops|
      && e.troops[k] == if d.troops[k].mageId == mageId then d.troops[k].(order := order) else d.troops[k]
  {
    MapTroopAt(d.troops, mageId, Sending(order));
  }

  /** What makes a spell one a plan may take: nothing, or a mage of that name fielded, or one with
      that tag. */
  ghost predicate MayTake(cat: Catalog, troops: seq<PlannedTroop>, spell: SpellOption) {
    match spell.needs
    case Always => true
    case Signature(id) => exists t :: t in troops && t.mageId == id && MageById(cat.mages, id).Some?
    case Tagged(tag) => exists t :: t in troops && MageById(cat.mages, t.mageId).Some? && tag in MageById(cat.mages, t.mageId).value.tags
  }

  lemma {:induction false} FieldedMagesAre(cat: Catalog, troops: seq<PlannedTroop>)
    ensures forall m :: m in FieldedMages(cat, troops) <==> exists t :: t in troops && MageById(cat.mages, t.mageId) == Some(m)
  {
    if troops != [] {
      FieldedMagesAre(cat, troops[1..]);
      assert forall t :: t in troops <==> t == troops[0] || t in troops[1..];
    }
  }

  lemma EligibleExactly(cat: Catalog, spell: SpellOption, plan: SubmittedPlan)
    ensures SpellEligible(cat, spell, plan) <==> MayTake(cat, plan.troops, spell)
  {
    FieldedMagesAre(cat, plan.troops);
    hide FieldedMages;
  }

  /** Equipping: a spell on the roster that the plan may take goes in the slot, and out of the other
      if it was there; any other changes nothing. No troop is touched. */
  lemma EquippingDoes(cat: Catalog, d: Draft, slot: SlotName, spellId: string)
    ensures var e := Reduce(cat, d, EquipSpell(slot, spellId));
            var may := exists spell :: spell in cat.spells && spell.id == spellId && MayTake(cat, d.troops, spell);
      && e.troops == d.troops
      && (!may ==> e == d)
      && (may && slot == FirstSlot ==> e.first == Some(spellId) && e.second == if d.second == Some(spellId) then None else d.second)
      && (may && slot == SecondSlot ==> e.second == Some(spellId) && e.first == if d.first == Some(spellId) then None else d.first)
  {
    forall spell ensures SpellEligible(cat, spell, Submitted(d)) <==> MayTake(cat, d.troops, spell) { EligibleExactly(cat, spell, Submitted(d)); }
    hide SpellEligible, MayTake;
  }

  /** Clearing a slot empties that slot and nothing else. */
  lemma ClearingDoes(cat: Catalog, d: Draft, slot: SlotName)
    ensures Reduce(cat, d, ClearSpell(slot)) == if slot == FirstSlot then d.(first := None) else d.(second := None)
  {
  }

  /** Adding a summon and removing it leaves every troop with the summons it had. */
  lemma AddThenRemove(cat: Catalog, d: Draft, mageId: string, id: string, k: nat)
    requires k < |d.troops| && !AddRefused(cat, d, mageId, id)
    ensures var e := Reduce(cat, Reduce(cat, d, AddSummon(mageId, id)), RemoveSummon(mageId, id));
      && |e.troops| == |d.troops| && SpellsUntouched(d, e)
      && e.troops[k].mageId == d.troops[k].mageId && e.troops[k].order == d.troops[k].order
      && multiset(e.troops[k].summonIds) == multiset(d.troops[k].summonIds)
  {
    AddingDoes(cat, d, mageId, id);
    RemovingDoes(cat, Reduce(cat, d, AddSummon(mageId, id)), mageId, id, k);
  }

  // ---- what the server admits ----

  /** What a list of summons costs its mage. */
  function CostTogether(cat: Catalog, ids: seq<string>): int {
    if ids == [] then 0
    else CostTogether(cat, ids[1..]) + match SummonById(cat.summons, ids[0]) case None => 0 case Some(s) => s.capacityCost
  }

  /** How many of one summon a list of troops fields. */
  function FieldedOf(troops: seq<PlannedTroop>, id: string): nat {
    if troops == [] then 0 else FieldedOf(troops[..|troops| - 1], id) + multiset(troops[|troops| - 1].summonIds)[id]
  }

  lemma {:induction false} CostsTogether(cat: Catalog, ids: seq<string>)
    ensures CapacityUsed(cat, ids) == CostTogether(cat, ids)
  {
    hide SummonById;
    if |ids| == 1 {
      assert ids[..0] == [] && ids[1..] == [];
    } else if ids != [] {
      var last := |ids| - 1;
      CostsTogether(cat, ids[1..]);
      CostsTogether(cat, ids[..last]);
      CostsTogether(cat, ids[1..last]);
      assert ids[1..][..last - 1] == ids[1..last] && ids[..last][1..] == ids[1..last];
    }
  }

  lemma {:induction false} FieldedIsUsed(troops: seq<PlannedTroop>, id: string)
    ensures FieldedOf(troops, id) == Used(troops, id)
  {
    if troops != [] {
      var last := |troops| - 1;
      FieldedIsUsed(troops[..last], id);
      UsedAppend(troops, last, id);
      assert troops[..last + 1] == troops;
    }
  }

  /** A troop the server admits: a mage it knows, ordered somewhere on the map, with summons it
      knows, each of a school of the mage's, that cost together no more than the mage supports. */
  ghost predicate TroopAdmitted(cat: Catalog, config: MapConfig, t: PlannedTroop) {
    && MageById(cat.mages, t.mageId).Some?
    && (t.order.HoldZone? ==> exists z :: z in config.zones && z.id == t.order.zoneId)
    && (forall id :: id in t.summonIds ==>
          SummonById(cat.summons, id).Some?
          && exists school :: school in SummonById(cat.summons, id).value.schools && school in MageById(cat.mages, t.mageId).value.schools)
    && CostTogether(cat, t.summonIds) <= MageById(cat.mages, t.mageId).value.supportCapacity
  }

  /** A plan is legal exactly when it fields a troop and no more than the cap, every troop is one to
      admit, no summon is fielded more often in all than it is owned, and every spell named is on
      the roster and one the plan may take. */
  lemma LegalExactly(cat: Catalog, config: MapConfig, plan: SubmittedPlan)
    ensures Legal(cat, config, plan)
      <==> (&& 1 <= |plan.troops| <= cat.mageCap
            && (forall t :: t in plan.troops ==> TroopAdmitted(cat, config, t))
            && (forall t, id :: t in plan.troops && id in t.summonIds ==> FieldedOf(plan.troops, id) <= Owned(cat, id))
            && (forall s :: s in plan.spellSlots && s.Some? ==>
                  SpellById(cat.spells, s.value).Some? && MayTake(cat, plan.troops, SpellById(cat.spells, s.value).value)))
  {
    forall t ensures TroopLegal(cat, config, t) <==> TroopAdmitted(cat, config, t) { AdmittedIsLegal(cat, config, t); }
    forall id ensures FieldedOf(plan.troops, id) == Used(plan.troops, id) { FieldedIsUsed(plan.troops, id); }
    forall spell ensures SpellEligible(cat, spell, plan) <==> MayTake(cat, plan.troops, spell) { EligibleExactly(cat, spell, plan); }
    hide TroopLegal, TroopAdmitted, Used, FieldedOf, Owned, SpellEligible, MayTake;
  }

  lemma AdmittedIsLegal(cat: Catalog, config: MapConfig, t: PlannedTroop)
    ensures TroopLegal(cat, config, t) <==> TroopAdmitted(cat, config, t)
  {
    CostsTogether(cat, t.summonIds);
    hide CapacityUsed, CostTogether, MageById;
  }
}
