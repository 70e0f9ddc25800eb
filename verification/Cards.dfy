/** The cards a battle is fought with (`api/app/sim/units.py`): what makes one incoherent,
    and the index the rest of the simulation looks them up in. */
module Cards {
  import opened Common
  import opened BattleWorld

  const SCHOOLS: seq<string> := ["fire", "stone", "artifice", "time", "necromancy", "neutral"]

  datatype UnitType = UnitType(
    id: string, kind: UnitKind, schools: seq<string>, maxHp: real, damage: real, range: real, speed: real,
    attackCooldownSeconds: real, supportCapacity: Option<int>, abilityId: Option<string>,
    emplacement: bool, blocksMovement: bool, blockRadius: real)

  type CardIndex = map<string, UnitType>

  datatype CardFault =
    | NoSchool | UnknownSchool | NoHp | NegativeDamage | NegativeRange | NegativeSpeed | NoCooldown
    | NoCapacity | EmplacedMage | MovingEmplacement | NoBlockRadius | DefinedTwice | UnknownAbility

  /** `_validate`: the first thing wrong with a card. */
  function FaultOf(card: UnitType): Option<CardFault> {
    if card.schools == [] then Some(NoSchool)
    else if exists school :: school in card.schools && school !in SCHOOLS then Some(UnknownSchool)
    else if card.maxHp <= 0.0 then Some(NoHp)
    else if card.damage < 0.0 then Some(NegativeDamage)
    else if card.range < 0.0 then Some(NegativeRange)
    else if card.speed < 0.0 then Some(NegativeSpeed)
    else if card.attackCooldownSeconds <= 0.0 then Some(NoCooldown)
    else if card.kind == Mage && (card.supportCapacity.None? || card.supportCapacity.value <= 0) then Some(NoCapacity)
    else if card.emplacement && card.kind != Summon then Some(EmplacedMage)
    else if card.emplacement && card.speed != 0.0 then Some(MovingEmplacement)
    else if card.blocksMovement && card.blockRadius <= 0.0 then Some(NoBlockRadius)
    else None
  }

  ghost predicate DistinctCards(cards: seq<UnitType>) {
    forall i, j :: 0 <= i < j < |cards| ==> cards[i].id != cards[j].id
  }

  /** The cards by id, or the first fault met going through them in order. */
  function Indexed(cards: seq<UnitType>): Result<CardIndex, CardFault> {
    if cards == [] then Ok(map[])
    else match Indexed(cards[..|cards| - 1])
      case Err(fault) => Err(fault)
      case Ok(index) =>
        var card := cards[|cards| - 1];
        if card.id in index then Err(DefinedTwice)
        else if FaultOf(card).Some? then Err(FaultOf(card).value)
        else Ok(index[card.id := card])
  }

  /** Every card is found under its own id, and nothing else is. */
  ghost predicate Indexes(index: CardIndex, cards: seq<UnitType>) {
    && (forall card :: card in cards ==> card.id in index && index[card.id] == card)
    && (forall id :: id in index ==> index[id] in cards && index[id].id == id)
  }

  /** Cards are indexed exactly when none is defined twice and none is faulty by itself. */
  lemma {:induction false} IndexedExactlyWhenSound(cards: seq<UnitType>)
    ensures Indexed(cards).Ok? <==> DistinctCards(cards) && forall card :: card in cards ==> FaultOf(card).None?
    ensures Indexed(cards).Ok? ==> Indexes(Indexed(cards).value, cards)
  {
    hide FaultOf;
    if cards != [] {
      var front, last := cards[..|cards| - 1], cards[|cards| - 1];
      IndexedExactlyWhenSound(front);
      assert cards == front + [last];
      if Indexed(front).Ok? && last.id in Indexed(front).value {
        var twin := Indexed(front).value[last.id];
        var i :| 0 <= i < |front| && front[i] == twin;
        assert cards[i].id == cards[|front|].id;
      }
    }
  }

  /** `build_unit_type_catalog`. */
  method BuildUnitTypeCatalog(cards: seq<UnitType>) returns (built: Result<CardIndex, CardFault>)
    ensures built == Indexed(cards)
  {
    hide FaultOf;
    var index: CardIndex := map[];
    for i := 0 to |cards|
      invariant Indexed(cards[..i]) == Ok(index)
    {
      assert cards[..i + 1][..i] == cards[..i];
      var card := cards[i];
      if card.id in index { FaultStays(cards, i + 1); return Err(DefinedTwice); }
      var fault := FaultOf(card);
      if fault.Some? { FaultStays(cards, i + 1); return Err(fault.value); }
      index := index[card.id := card];
    }
    assert cards[..|cards|] == cards;
    built := Ok(index);
  }

  lemma {:induction false} FaultStays(cards: seq<UnitType>, n: nat)
    requires n <= |cards| && Indexed(cards[..n]).Err?
    ensures Indexed(cards) == Indexed(cards[..n])
    decreases |cards| - n
  {
    if n == |cards| {
      assert cards[..n] == cards;
    } else {
      assert cards[..n + 1][..n] == cards[..n];
      FaultStays(cards, n + 1);
    }
  }

  /** What a battle brings: its cards, and the abilities it knows. */
  datatype UnitTypes = UnitTypes(cards: seq<UnitType>, abilityIds: set<string>)

  ghost predicate SoundCards(types: UnitTypes) {
    && DistinctCards(types.cards)
    && (forall card :: card in types.cards ==> FaultOf(card).None?)
    && (forall card :: card in types.cards ==> AbilityKnown(types, card))
  }

  predicate AbilityKnown(types: UnitTypes, card: UnitType) {
    card.abilityId.Some? ==> card.abilityId.value in types.abilityIds
  }

  /** The battle's index, or what is wrong with its cards. */
  function CardsOf(types: UnitTypes): Result<CardIndex, CardFault> {
    match Indexed(types.cards)
    case Err(fault) => Err(fault)
    case Ok(index) =>
      if exists card :: card in types.cards && !AbilityKnown(types, card) then Err(UnknownAbility) else Ok(index)
  }

  lemma CardsExactlyWhenSound(types: UnitTypes)
    ensures CardsOf(types).Ok? <==> SoundCards(types)
    ensures CardsOf(types).Ok? ==> Indexes(CardsOf(types).value, types.cards)
  {
    IndexedExactlyWhenSound(types.cards);
  }
}
