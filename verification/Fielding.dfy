/** Who stands on the field when a battle opens: exactly what both plans list, side by side and
    in order, each at full strength. */
module Fielding {
  import opened Common
  import opened BattleMap
  import opened BattleWorld
  import opened Battle
  import opened Plan
  import opened Cards
  import opened Opening

  /** One line of a plan: the `place`-th of troop `troop`, its mage first, and the card it is. */
  datatype Line = Line(troop: nat, place: nat, typeId: string)

  function TroopLines(t: PlannedTroop, troop: nat): (lines: seq<Line>)
    ensures |lines| == |t.summonIds| + 1
    ensures lines[0] == Line(troop, 0, t.mageId)
    ensures forall k :: 0 <= k < |t.summonIds| ==> lines[k + 1] == Line(troop, k + 1, t.summonIds[k])
  {
    [Line(troop, 0, t.mageId)] + seq(|t.summonIds|, k requires 0 <= k < |t.summonIds| => Line(troop, k + 1, t.summonIds[k]))
  }

  /** A plan's lines, troop by troop, numbered from one. */
  function Lines(troops: seq<PlannedTroop>, from: nat): seq<Line> {
    if troops == [] then [] else TroopLines(troops[0], from + 1) + Lines(troops[1..], from + 1)
  }

  /** A member of an army as its line says, on the card of that name. */
  predicate EnlistedAs(m: Member, index: CardIndex, side: Side, line: Line) {
    && line.typeId in index && m.unitType == index[line.typeId]
    && m.unitType.kind == (if line.place == 0 then Mage else Summon)
    && m.side == side && m.troopId == TroopIdText(side, line.troop) && m.id == UnitIdText(side, line.troop, line.place)
  }

  ghost predicate Enlisted(members: seq<Member>, index: CardIndex, side: Side, lines: seq<Line>) {
    |members| == |lines| && forall k :: 0 <= k < |lines| ==> EnlistedAs(members[k], index, side, lines[k])
  }

  lemma {:induction false} ExpandAt(index: CardIndex, ids: seq<string>, kind: UnitKind)
    requires Expand(index, ids, kind).Ok?
    ensures var expanded := Expand(index, ids, kind).value;
      |expanded| == |ids| && forall k :: 0 <= k < |ids| ==> ids[k] in index && expanded[k] == index[ids[k]] && expanded[k].kind == kind
  {
    if ids != [] { ExpandAt(index, ids[1..], kind); }
  }

  lemma TroopEnlists(index: CardIndex, config: MapConfig, side: Side, t: PlannedTroop, troop: nat)
    requires BuildTroop(index, config, side, TroopSetup(t.order, [t.mageId], t.summonIds, troop)).Ok?
    ensures Enlisted(BuildTroop(index, config, side, TroopSetup(t.order, [t.mageId], t.summonIds, troop)).value, index, side, TroopLines(t, troop))
  {
    hide SupportFault, UnitIdText, TroopIdText, Expand, Members;
    ExpandAt(index, [t.mageId], Mage);
    ExpandAt(index, t.summonIds, Summon);
    assert [t.mageId][0] == t.mageId;
    MembersEnlist(index, side, t, troop, Expand(index, [t.mageId], Mage).value, Expand(index, t.summonIds, Summon).value);
  }

  lemma MembersEnlist(index: CardIndex, side: Side, t: PlannedTroop, troop: nat, mages: seq<UnitType>, summons: seq<UnitType>)
    requires |mages| == 1 && t.mageId in index && mages[0] == index[t.mageId] && mages[0].kind == Mage
    requires |summons| == |t.summonIds|
    requires forall k :: 0 <= k < |summons| ==> t.summonIds[k] in index && summons[k] == index[t.summonIds[k]] && summons[k].kind == Summon
    ensures Enlisted(Members(side, troop, mages + summons, 0), index, side, TroopLines(t, troop))
  {
    hide UnitIdText, TroopIdText, EnlistedAs, Members;
    var members, lines := Members(side, troop, mages + summons, 0), TroopLines(t, troop);
    forall k | 0 <= k < |lines| ensures EnlistedAs(members[k], index, side, lines[k]) {
      assert members[k] == Member(UnitIdText(side, troop, k), TroopIdText(side, troop), side, (mages + summons)[k]);
      OneEnlisted(index, side, members[k], lines[k], (mages + summons)[k]);
    }
  }

  lemma OneEnlisted(index: CardIndex, side: Side, m: Member, line: Line, card: UnitType)
    requires line.typeId in index && card == index[line.typeId] && card.kind == (if line.place == 0 then Mage else Summon)
    requires m == Member(UnitIdText(side, line.troop, line.place), TroopIdText(side, line.troop), side, card)
    ensures EnlistedAs(m, index, side, line)
  {
    hide UnitIdText, TroopIdText;
  }

  lemma {:induction false} ArmyEnlists(index: CardIndex, config: MapConfig, side: Side, troops: seq<PlannedTroop>, from: nat)
    requires BuildArmy(index, config, side, ArmyTroops(troops, from)).Ok?
    ensures Enlisted(BuildArmy(index, config, side, ArmyTroops(troops, from)).value, index, side, Lines(troops, from))
  {
    hide BuildTroop, Enlisted, TroopLines;
    if troops == [] {
      NobodyEnlisted(index, side);
    } else {
      var setups := ArmyTroops(troops, from);
      assert setups[1..] == ArmyTroops(troops[1..], from + 1);
      var first, rest := BuildTroop(index, config, side, setups[0]).value, BuildArmy(index, config, side, setups[1..]).value;
      TroopEnlists(index, config, side, troops[0], from + 1);
      ArmyEnlists(index, config, side, troops[1..], from + 1);
      EnlistedTogether(index, side, first, rest, TroopLines(troops[0], from + 1), Lines(troops[1..], from + 1));
    }
  }

  lemma NobodyEnlisted(index: CardIndex, side: Side)
    ensures Enlisted([], index, side, [])
  {
  }

  lemma EnlistedTogether(index: CardIndex, side: Side, a: seq<Member>, b: seq<Member>, x: seq<Line>, y: seq<Line>)
    requires Enlisted(a, index, side, x) && Enlisted(b, index, side, y)
    ensures Enlisted(a + b, index, side, x + y)
  {
    hide EnlistedAs;
  }

  /** A unit on the field as its line says: on its own card, at full strength. */
  ghost predicate FieldedAs(u: Unit, cards: seq<UnitType>, side: Side, line: Line) {
    && u.side == side && u.typeId == line.typeId
    && u.troopId == TroopIdText(side, line.troop) && u.id == UnitIdText(side, line.troop, line.place)
    && u.kind == (if line.place == 0 then Mage else Summon)
    && exists card :: card in cards && card.id == line.typeId && card.kind == u.kind
         && u.hp == card.maxHp && u.maxHp == card.maxHp && u.damage == card.damage && u.range == card.range && u.speed == card.speed
         && u.blocksMovement == card.blocksMovement && u.blockRadius == card.blockRadius
  }

  lemma {:induction false} ToUnitsAt(sim: Sim, config: MapConfig, armies: PerSide<seq<TroopSetup>>, seed: int, members: seq<Member>, from: nat)
    ensures var units := ToUnits(sim, config, armies, seed, members, from);
      |units| == |members| && forall k :: 0 <= k < |members| ==>
        units[k] == Unit(members[k].id, members[k].unitType.id, members[k].unitType.kind, members[k].side, members[k].troopId,
                         members[k].unitType.maxHp, members[k].unitType.damage, members[k].unitType.range, members[k].unitType.speed,
                         members[k].unitType.maxHp, sim.spot(config, armies, seed, from + k),
                         members[k].unitType.blocksMovement, members[k].unitType.blockRadius)
  {
    if members != [] { ToUnitsAt(sim, config, armies, seed, members[1..], from + 1); }
  }

  lemma EnlistedIsFielded(m: Member, u: Unit, cards: seq<UnitType>, index: CardIndex, side: Side, line: Line)
    requires Indexes(index, cards) && EnlistedAs(m, index, side, line)
    requires u.id == m.id && u.typeId == m.unitType.id && u.kind == m.unitType.kind && u.side == m.side && u.troopId == m.troopId
    requires u.maxHp == m.unitType.maxHp && u.hp == m.unitType.maxHp && u.damage == m.unitType.damage && u.range == m.unitType.range
    requires u.speed == m.unitType.speed && u.blocksMovement == m.unitType.blocksMovement && u.blockRadius == m.unitType.blockRadius
    ensures FieldedAs(u, cards, side, line)
  {
    hide UnitIdText, TroopIdText;
    var card := index[line.typeId];
    assert card in cards && card.id == line.typeId;
  }

  /** Both sides' lines fielded, north's and then south's, and nobody else. */
  ghost predicate FieldListed(units: seq<Unit>, cards: seq<UnitType>, north: seq<Line>, south: seq<Line>) {
    && |units| == |north| + |south|
    && (forall k :: 0 <= k < |north| ==> FieldedAs(units[k], cards, North, north[k]))
    && (forall k :: 0 <= k < |south| ==> FieldedAs(units[|north| + k], cards, South, south[k]))
  }

  lemma FieldIsListed(sim: Sim, types: UnitTypes, config: MapConfig, armies: PerSide<seq<TroopSetup>>, seed: int, index: CardIndex,
                      north: seq<Member>, south: seq<Member>, northLines: seq<Line>, southLines: seq<Line>)
    requires Indexes(index, types.cards)
    requires Enlisted(north, index, North, northLines) && Enlisted(south, index, South, southLines)
    ensures var units := ToUnits(sim, config, armies, seed, north + south, 0);
      && FieldListed(units, types.cards, northLines, southLines)
      && forall k :: 0 <= k < |units| ==> units[k].position == sim.spot(config, armies, seed, k)
  {
    hide EnlistedAs, Indexes, FieldedAs, ToUnits;
    ToUnitsAt(sim, config, armies, seed, north + south, 0);
    var units := ToUnits(sim, config, armies, seed, north + south, 0);
    forall k | 0 <= k < |north| ensures FieldedAs(units[k], types.cards, North, northLines[k]) {
      EnlistedIsFielded(north[k], units[k], types.cards, index, North, northLines[k]);
    }
    forall k | 0 <= k < |south| ensures FieldedAs(units[|north| + k], types.cards, South, southLines[k]) {
      assert (north + south)[|north| + k] == south[k];
      EnlistedIsFielded(south[k], units[|north| + k], types.cards, index, South, southLines[k]);
    }
  }

  /** What a world that opened was opened with. */
  lemma OpenedWith(sim: Sim, types: UnitTypes, config: MapConfig, armies: PerSide<seq<TroopSetup>>, carried: PerSide<real>, seed: int, simConfig: SimConfig)
    requires CreateWorld(sim, types, config, armies, carried, seed, simConfig).Ok?
    ensures CardsOf(types).Ok?
    ensures var index, world := CardsOf(types).value, CreateWorld(sim, types, config, armies, carried, seed, simConfig).value;
      && BuildArmy(index, config, North, armies.north).Ok? && BuildArmy(index, config, South, armies.south).Ok?
      && world.units == ToUnits(sim, config, armies, seed, BuildArmy(index, config, North, armies.north).value
                                                           + BuildArmy(index, config, South, armies.south).value, 0)
      && world.tick == 0 && world.zoneScore == Both(0.0) && world.pending == []
  {
    hide CardsOf, BuildArmy, ToUnits, IdsDistinct, ValidMap;
  }

  /** Two legal plans open a battle on exactly the units they list, north's and then south's,
      troop by troop, each mage before its summons, all at full strength and each on its own spot;
      on the carried bases, before the first tick, with nothing scored and nothing queued. */
  lemma PlansOpenAsListed(sim: Sim, cat: Catalog, types: UnitTypes, config: MapConfig, plans: PerSide<SubmittedPlan>,
                          carried: PerSide<real>, seed: int, simConfig: SimConfig)
    requires Coherent(cat, types) && ValidMap(config) && CarriedFault(config, carried).None?
    requires Legal(cat, config, plans.north) && Legal(cat, config, plans.south)
    ensures var armies := PerSide(ToArmySetup(plans.north), ToArmySetup(plans.south));
            var built := CreateWorld(sim, types, config, armies, carried, seed, simConfig);
      && built.Ok? && FieldListed(built.value.units, types.cards, Lines(plans.north.troops, 0), Lines(plans.south.troops, 0))
      && (forall k :: 0 <= k < |built.value.units| ==> built.value.units[k].position == sim.spot(config, armies, seed, k))
      && built.value.bases == carried && built.value.tick == 0 && built.value.zoneScore == Both(0.0) && built.value.pending == []
  {
    hide CreateWorld, CardsOf, Coherent, Legal, FieldListed, Enlisted, BuildArmy, Indexes, ToUnits, Lines, ValidMap, ArmyTroops, CarriedFault;
    LegalPlansOpen(sim, cat, types, config, plans, carried, seed, simConfig);
    var armies := PerSide(ToArmySetup(plans.north), ToArmySetup(plans.south));
    OpenedWith(sim, types, config, armies, carried, seed, simConfig);
    CardsExactlyWhenSound(types);
    var index := CardsOf(types).value;
    ArmyEnlists(index, config, North, plans.north.troops, 0);
    ArmyEnlists(index, config, South, plans.south.troops, 0);
    FieldIsListed(sim, types, config, armies, seed, index, BuildArmy(index, config, North, armies.north).value,
                  BuildArmy(index, config, South, armies.south).value, Lines(plans.north.troops, 0), Lines(plans.south.troops, 0));
  }

  // ---- the spells a plan takes ----

  /** The spells its slots name, in slot order, empty slots and unknown names left out. */
  function Named(cat: Catalog, slots: seq<Option<string>>): seq<SpellOption> {
    if slots == [] then []
    else (if slots[0].Some? && SpellById(cat.spells, slots[0].value).Some? then [SpellById(cat.spells, slots[0].value).value] else [])
         + Named(cat, slots[1..])
  }

  predicate PricedAs(cat: Catalog, mages: seq<MageOption>, taken: LoadoutSpell, spell: SpellOption) {
    && taken.spellId == spell.id && taken.name == spell.name && taken.cost == spell.cost
    && taken.effect == cat.effectText(spell, Contributors(mages, spell.tagsRead))
  }

  /** A loadout is the spells the slots name, in order, each under the catalogue's id, name and
      price, its text resolved from the fielded mages that carry the tags it reads. */
  lemma LoadoutAsSlotted(cat: Catalog, plan: SubmittedPlan)
    ensures var named, loadout := Named(cat, plan.spellSlots), ResolveLoadout(cat, plan);
      && |loadout| == |named|
      && forall k :: 0 <= k < |named| ==> PricedAs(cat, FieldedMages(cat, plan.troops), loadout[k], named[k])
  {
    SlotsResolve(cat, FieldedMages(cat, plan.troops), plan.spellSlots);
  }

  lemma {:induction false} SlotsResolve(cat: Catalog, mages: seq<MageOption>, slots: seq<Option<string>>)
    ensures var named, loadout := Named(cat, slots), ResolveSlots(cat, mages, slots);
      && |loadout| == |named|
      && forall k :: 0 <= k < |named| ==> PricedAs(cat, mages, loadout[k], named[k])
  {
    hide SpellById, Contributors;
    if slots != [] {
      SlotsResolve(cat, mages, slots[1..]);
      var rest := ResolveSlots(cat, mages, slots[1..]);
      hide PricedAs;
      if slots[0].Some? && SpellById(cat.spells, slots[0].value).Some? {
        var spell := SpellById(cat.spells, slots[0].value).value;
        assert ResolveSlots(cat, mages, slots)[1..] == rest;
        assert PricedAs(cat, mages, ResolveSlots(cat, mages, slots)[0], spell) by { FirstPriced(cat, mages, slots, spell); }
      }
    }
  }

  lemma FirstPriced(cat: Catalog, mages: seq<MageOption>, slots: seq<Option<string>>, spell: SpellOption)
    requires slots != [] && slots[0].Some? && SpellById(cat.spells, slots[0].value) == Some(spell)
    ensures ResolveSlots(cat, mages, slots) != [] && PricedAs(cat, mages, ResolveSlots(cat, mages, slots)[0], spell)
  {
    hide Contributors;
  }

  /** Who contributes to a spell: every fielded mage with every tag of its own that the spell reads. */
  lemma {:induction false} ContributorsExactly(mages: seq<MageOption>, tags: seq<string>, name: string, tag: string)
    ensures (name, tag) in Contributors(mages, tags) <==> tag in tags && exists m :: m in mages && m.name == name && tag in m.tags
  {
    if mages != [] {
      ContributorsExactly(mages[1..], tags, name, tag);
      TagsOf(mages[0], tags, name, tag);
    }
  }

  lemma {:induction false} TagsOf(mage: MageOption, tags: seq<string>, name: string, tag: string)
    ensures (name, tag) in ContributorsOf(mage, tags) <==> tag in tags && mage.name == name && tag in mage.tags
  {
    if tags != [] { TagsOf(mage, tags[1..], name, tag); }
  }
}
