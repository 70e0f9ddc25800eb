/** A battle's opening state (`create_world` in `api/app/sim/world.py`): what it
    refuses to build, and why two legal plans are never among it. */
module Opening {
  import opened Common
  import opened BattleMap
  import opened BattleWorld
  import opened Battle
  import opened Plan
  import opened SpellQueue
  import opened Cards

  datatype BuildFault =
    | BadMap | BadCards(fault: CardFault) | OrderNotOnMap | NotInTypes | WrongKind | NoMage | NoSupport | SameId | BaseSpent | BaseAboveMax

  // ---- ids ----

  function Digit(n: nat): char
    requires n < 10
  {
    ['0', '1', '2', '3', '4', '5', '6', '7', '8', '9'][n]
  }

  predicate IsDigit(c: char) { '0' <= c <= '9' }

  function Decimal(n: nat): (text: string)
    ensures text != [] && forall k :: 0 <= k < |text| ==> IsDigit(text[k])
  {
    if n < 10 then [Digit(n)] else Decimal(n / 10) + [Digit(n % 10)]
  }

  lemma DecimalLength(n: nat)
    ensures n < 10 <==> |Decimal(n)| == 1
  {
  }

  lemma {:induction false} DecimalInjective(a: nat, b: nat)
    requires Decimal(a) == Decimal(b)
    ensures a == b
  {
    var last := |Decimal(a)| - 1;
    DecimalLength(a);
    DecimalLength(b);
    assert Decimal(a)[last] == Digit(a % 10) && Decimal(b)[last] == Digit(b % 10);
    assert a % 10 == b % 10;
    if a >= 10 {
      assert Decimal(a)[..last] == Decimal(a / 10) && Decimal(b)[..last] == Decimal(b / 10);
      DecimalInjective(a / 10, b / 10);
    }
  }

  function TroopIdText(side: Side, index: nat): string {
    SideName(side) + "-" + Decimal(index)
  }

  function UnitIdText(side: Side, index: nat, member: nat): string {
    TroopIdText(side, index) + "-u" + Decimal(member)
  }

  lemma {:induction false} DigitsThenDash(a: string, b: string, a': string, b': string)
    requires forall k :: 0 <= k < |a| ==> IsDigit(a[k])
    requires forall k :: 0 <= k < |a'| ==> IsDigit(a'[k])
    requires a + "-" + b == a' + "-" + b'
    ensures a == a' && b == b'
  {
    var whole := a + "-" + b;
    assert whole[|a|] == '-' && (a' + "-" + b')[|a'|] == '-';
    assert forall k :: 0 <= k < |a'| ==> (a' + "-" + b')[k] == a'[k];
    assert forall k :: 0 <= k < |a| ==> whole[k] == a[k];
    assert (a' + "-" + b')[|a|] == '-' && whole[|a'|] == '-';
    assert whole[..|a|] == a && (a' + "-" + b')[..|a'|] == a';
    assert whole[|a| + 1..] == b && (a' + "-" + b')[|a'| + 1..] == b';
  }

  lemma UnitIdShape(side: Side, index: nat, member: nat)
    ensures |UnitIdText(side, index, member)| > 6
    ensures UnitIdText(side, index, member)[0] == SideName(side)[0]
    ensures UnitIdText(side, index, member)[6..] == Decimal(index) + "-" + ("u" + Decimal(member))
  {
    var head := SideName(side) + "-";
    assert |head| == 6;
    assert UnitIdText(side, index, member) == head + (Decimal(index) + "-" + ("u" + Decimal(member)));
  }

  /** No two members of a battle can share an id. */
  lemma UnitIdInjective(side: Side, index: nat, member: nat, side': Side, index': nat, member': nat)
    requires UnitIdText(side, index, member) == UnitIdText(side', index', member')
    ensures side == side' && index == index' && member == member'
  {
    UnitIdShape(side, index, member);
    UnitIdShape(side', index', member');
    DigitsThenDash(Decimal(index), "u" + Decimal(member), Decimal(index'), "u" + Decimal(member'));
    assert ("u" + Decimal(member))[1..] == Decimal(member) && ("u" + Decimal(member'))[1..] == Decimal(member');
    DecimalInjective(index, index');
    DecimalInjective(member, member');
  }

  // ---- rosters ----

  datatype Member = Member(id: string, troopId: string, side: Side, unitType: UnitType)

  /** `_expand`: every card named must exist and be of the kind it is listed as. */
  function Expand(types: CardIndex, ids: seq<string>, kind: UnitKind): Result<seq<UnitType>, BuildFault> {
    if ids == [] then Ok([])
    else if ids[0] !in types then Err(NotInTypes)
    else if types[ids[0]].kind != kind then Err(WrongKind)
    else match Expand(types, ids[1..], kind)
      case Err(e) => Err(e)
      case Ok(rest) => Ok([types[ids[0]]] + rest)
  }

  predicate SupportedByAny(mages: seq<UnitType>, summon: UnitType) {
    exists m :: m in mages && SharesSchool(m.schools, summon.schools)
  }

  function SupportFault(mages: seq<UnitType>, summons: seq<UnitType>): Option<BuildFault> {
    if mages == [] then Some(NoMage)
    else if exists s :: s in summons && !SupportedByAny(mages, s) then Some(NoSupport)
    else None
  }

  function Members(side: Side, index: nat, types: seq<UnitType>, from: nat): (members: seq<Member>)
    ensures |members| == |types|
    ensures forall k :: 0 <= k < |types| ==>
      members[k] == Member(UnitIdText(side, index, from + k), TroopIdText(side, index), side, types[k])
  {
    if types == [] then []
    else [Member(UnitIdText(side, index, from), TroopIdText(side, index), side, types[0])]
         + Members(side, index, types[1..], from + 1)
  }

  function BuildTroop(types: CardIndex, config: MapConfig, side: Side, setup: TroopSetup): Result<seq<Member>, BuildFault> {
    if !OrderLegal(setup.order, config) then Err(OrderNotOnMap)
    else match Expand(types, setup.mages, Mage)
      case Err(e) => Err(e)
      case Ok(mages) =>
        match Expand(types, setup.summons, Summon)
        case Err(e) => Err(e)
        case Ok(summons) =>
          if SupportFault(mages, summons).Some? then Err(SupportFault(mages, summons).value)
          else Ok(Members(side, setup.index, mages + summons, 0))
  }

  function BuildArmy(types: CardIndex, config: MapConfig, side: Side, setups: seq<TroopSetup>): Result<seq<Member>, BuildFault> {
    if setups == [] then Ok([])
    else match BuildTroop(types, config, side, setups[0])
      case Err(e) => Err(e)
      case Ok(first) =>
        match BuildArmy(types, config, side, setups[1..])
        case Err(e) => Err(e)
        case Ok(rest) => Ok(first + rest)
  }

  predicate IdsDistinct(members: seq<Member>) {
    forall i, j :: 0 <= i < j < |members| ==> members[i].id != members[j].id
  }

  function ToUnits(sim: Sim, config: MapConfig, armies: PerSide<seq<TroopSetup>>, seed: int,
                   members: seq<Member>, from: nat): seq<Unit> {
    if members == [] then []
    else
      var m, t := members[0], members[0].unitType;
      [Unit(m.id, t.id, t.kind, m.side, m.troopId, t.maxHp, t.damage, t.range, t.speed, t.maxHp,
            sim.spot(config, armies, seed, from), t.blocksMovement, t.blockRadius)]
      + ToUnits(sim, config, armies, seed, members[1..], from + 1)
  }

  /** `_carried_base_hp` on both sides. */
  function CarriedFault(config: MapConfig, carried: PerSide<real>): Option<BuildFault> {
    if carried.north <= 0.0 || carried.south <= 0.0 then Some(BaseSpent)
    else if carried.north > config.bases.north.maxHp || carried.south > config.bases.south.maxHp then Some(BaseAboveMax)
    else None
  }

  /** `create_world`: the opening state, or the first thing wrong with it. */
  function CreateWorld(sim: Sim, types: UnitTypes, config: MapConfig, armies: PerSide<seq<TroopSetup>>,
                       carried: PerSide<real>, seed: int, simConfig: SimConfig): Result<World, BuildFault> {
    if !ValidMap(config) then Err(BadMap)
    else if CardsOf(types).Err? then Err(BadCards(CardsOf(types).error))
    else match BuildArmy(CardsOf(types).value, config, North, armies.north)
      case Err(e) => Err(e)
      case Ok(north) =>
        match BuildArmy(CardsOf(types).value, config, South, armies.south)
        case Err(e) => Err(e)
        case Ok(south) =>
          if !IdsDistinct(north + south) then Err(SameId)
          else if CarriedFault(config, carried).Some? then Err(CarriedFault(config, carried).value)
          else Ok(World(0, ToUnits(sim, config, armies, seed, north + south, 0), carried, Both(0.0), [],
                        sim.deal(config, armies, seed, simConfig)))
  }

  // ---- legal plans always open ----

  /** The plan layer and an index of the simulation's cards describe the same cards. */
  ghost predicate Describes(cat: Catalog, types: CardIndex) {
    && (forall m :: m in cat.mages ==> m.id in types && types[m.id].kind == Mage && types[m.id].schools == m.schools)
    && (forall s :: s in cat.summons ==> s.id in types && types[s.id].kind == Summon && types[s.id].schools == s.schools)
  }

  /** Nothing is wrong with the cards by themselves, and the plan layer tells of the same ones. */
  ghost predicate Coherent(cat: Catalog, types: UnitTypes) {
    && SoundCards(types)
    && (forall m :: m in cat.mages ==> exists card :: card in types.cards && card.id == m.id && card.kind == Mage && card.schools == m.schools)
    && (forall s :: s in cat.summons ==> exists card :: card in types.cards && card.id == s.id && card.kind == Summon && card.schools == s.schools)
  }

  lemma CoherentDescribes(cat: Catalog, types: UnitTypes)
    requires Coherent(cat, types)
    ensures CardsOf(types).Ok? && Describes(cat, CardsOf(types).value)
  {
    hide CardsOf, SoundCards;
    CardsExactlyWhenSound(types);
  }

  lemma {:induction false} SummonsExpand(cat: Catalog, types: CardIndex, mage: MageOption, ids: seq<string>)
    requires Describes(cat, types) && mage in cat.mages
    requires forall id :: id in ids ==> SummonSupported(cat, mage, id)
    ensures Expand(types, ids, Summon).Ok?
    ensures forall t :: t in Expand(types, ids, Summon).value ==> SupportedByAny([types[mage.id]], t)
  {
    if ids != [] {
      SummonsExpand(cat, types, mage, ids[1..]);
      assert SummonSupported(cat, mage, ids[0]);
      var summon := SummonById(cat.summons, ids[0]).value;
      assert types[mage.id] in [types[mage.id]] && SharesSchool(types[mage.id].schools, types[summon.id].schools);
    }
  }

  lemma LegalTroopBuilds(cat: Catalog, types: CardIndex, config: MapConfig, side: Side, troop: PlannedTroop, index: nat)
    requires Describes(cat, types) && TroopLegal(cat, config, troop)
    ensures BuildTroop(types, config, side, TroopSetup(troop.order, [troop.mageId], troop.summonIds, index)).Ok?
  {
    var mage := MageById(cat.mages, troop.mageId).value;
    SummonsExpand(cat, types, mage, troop.summonIds);
    assert Expand(types, [troop.mageId][1..], Mage) == Ok([]);
    assert Expand(types, [troop.mageId], Mage) == Ok([types[mage.id]] + []);
    assert [types[mage.id]] + [] == [types[mage.id]];
  }

  lemma {:induction false} LegalArmyBuilds(cat: Catalog, types: CardIndex, config: MapConfig, side: Side,
                                           troops: seq<PlannedTroop>, from: nat)
    requires Describes(cat, types)
    requires forall t :: t in troops ==> TroopLegal(cat, config, t)
    ensures var army := BuildArmy(types, config, side, ArmyTroops(troops, from));
      && army.Ok? && IdsDistinct(army.value)
      && forall m :: m in army.value ==> exists i: nat, k: nat :: i > from && m.id == UnitIdText(side, i, k)
  {
    if troops != [] {
      var setups := ArmyTroops(troops, from);
      LegalTroopBuilds(cat, types, config, side, troops[0], from + 1);
      LegalArmyBuilds(cat, types, config, side, troops[1..], from + 1);
      assert setups[1..] == ArmyTroops(troops[1..], from + 1);
      var first := BuildTroop(types, config, side, setups[0]).value;
      var rest := BuildArmy(types, config, side, setups[1..]).value;
      JoinStaysDistinct(side, from + 1, first, rest);
    }
  }

  lemma JoinStaysDistinct(side: Side, index: nat, first: seq<Member>, rest: seq<Member>)
    requires forall k :: 0 <= k < |first| ==> first[k].id == UnitIdText(side, index, k)
    requires IdsDistinct(rest)
    requires forall m :: m in rest ==> exists i: nat, k: nat :: i > index && m.id == UnitIdText(side, i, k)
    ensures IdsDistinct(first + rest)
    ensures forall m :: m in first + rest ==> exists i: nat, k: nat :: i > index - 1 && m.id == UnitIdText(side, i, k)
  {
    var all := first + rest;
    forall i, j | 0 <= i < j < |all| ensures all[i].id != all[j].id {
      if j < |first| {
        if first[i].id == first[j].id { UnitIdInjective(side, index, i, side, index, j); }
      } else if i < |first| {
        assert all[j] in rest;
        var i': nat, k': nat :| i' > index && all[j].id == UnitIdText(side, i', k');
        if all[i].id == all[j].id { UnitIdInjective(side, index, i, side, i', k'); }
      }
    }
    forall m | m in all ensures exists i: nat, k: nat :: i > index - 1 && m.id == UnitIdText(side, i, k) {
      if m in first {
        var k :| 0 <= k < |first| && first[k] == m;
        assert m.id == UnitIdText(side, index, k);
      }
    }
  }

  lemma ArmiesDistinct(north: seq<Member>, south: seq<Member>)
    requires IdsDistinct(north) && IdsDistinct(south)
    requires forall m :: m in north ==> exists i: nat, k: nat :: m.id == UnitIdText(North, i, k)
    requires forall m :: m in south ==> exists i: nat, k: nat :: m.id == UnitIdText(South, i, k)
    ensures IdsDistinct(north + south)
  {
    var all := north + south;
    forall i, j | 0 <= i < j < |all| ensures all[i].id != all[j].id {
      if i < |north| <= j {
        assert all[i] in north && all[j] in south;
        var i': nat, k': nat :| all[i].id == UnitIdText(North, i', k');
        var i'': nat, k'': nat :| all[j].id == UnitIdText(South, i'', k'');
        if all[i].id == all[j].id { UnitIdInjective(North, i', k', South, i'', k''); }
      }
    }
  }

  /** Two plans the server accepted always open a battle, on any bases still standing. */
  lemma LegalPlansOpen(sim: Sim, cat: Catalog, types: UnitTypes, config: MapConfig, plans: PerSide<SubmittedPlan>,
                       carried: PerSide<real>, seed: int, simConfig: SimConfig)
    requires Coherent(cat, types) && ValidMap(config)
    requires Legal(cat, config, plans.north) && Legal(cat, config, plans.south)
    ensures var built := CreateWorld(sim, types, config, PerSide(ToArmySetup(plans.north), ToArmySetup(plans.south)),
                                     carried, seed, simConfig);
      if CarriedFault(config, carried).None? then built.Ok? && built.value.bases == carried
      else built == Err(CarriedFault(config, carried).value)
  {
    CoherentDescribes(cat, types);
    hide CardsOf, Coherent, Describes;
    var index := CardsOf(types).value;
    LegalArmyBuilds(cat, index, config, North, plans.north.troops, 0);
    LegalArmyBuilds(cat, index, config, South, plans.south.troops, 0);
    ArmiesDistinct(BuildArmy(index, config, North, ToArmySetup(plans.north)).value,
                   BuildArmy(index, config, South, ToArmySetup(plans.south)).value);
  }

  /** Whatever opens was fought on a coherent map with sound cards, on bases still standing and
      no healthier than full, by units whose ids are all distinct. */
  lemma OpenedMeansSound(sim: Sim, types: UnitTypes, config: MapConfig, armies: PerSide<seq<TroopSetup>>,
                         carried: PerSide<real>, seed: int, simConfig: SimConfig)
    requires CreateWorld(sim, types, config, armies, carried, seed, simConfig).Ok?
    ensures ValidMap(config) && SoundCards(types) && CarriedFault(config, carried).None?
    ensures var units := CreateWorld(sim, types, config, armies, carried, seed, simConfig).value.units;
            forall i, j :: 0 <= i < j < |units| ==> units[i].id != units[j].id
  {
    hide CardsOf, SoundCards, ValidMap, BuildArmy;
    CardsExactlyWhenSound(types);
    var index := CardsOf(types).value;
    UnitsKeepIds(sim, config, armies, seed, BuildArmy(index, config, North, armies.north).value
                                            + BuildArmy(index, config, South, armies.south).value, 0);
  }

  lemma {:induction false} UnitsKeepIds(sim: Sim, config: MapConfig, armies: PerSide<seq<TroopSetup>>, seed: int,
                                        members: seq<Member>, from: nat)
    ensures var units := ToUnits(sim, config, armies, seed, members, from);
            |units| == |members| && forall k :: 0 <= k < |units| ==> units[k].id == members[k].id
  {
    if members != [] { UnitsKeepIds(sim, config, armies, seed, members[1..], from + 1); }
  }
}
