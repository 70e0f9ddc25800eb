/** A submitted plan (`api/app/match/plan.py`): reading it off the wire, storing it,
    refusing it, pricing its spells, and turning it into an army. */
module Plan {
  import opened Common
  import opened JsonText
  import opened BattleMap

  datatype PlannedTroop = PlannedTroop(mageId: string, summonIds: seq<string>, order: Order)

  datatype SubmittedPlan = SubmittedPlan(troops: seq<PlannedTroop>, spellSlots: seq<Option<string>>)

  datatype PlanError =
    | PlanRequired | TroopsNotArray | TroopNotObject | MageIdMissing | SummonsNotArray | SummonNotText
    | OrderMissing | HoldNamesNoZone | NotAnOrder | SlotsNotArray | TooManySlots | BadSlot
    | IllegalPlan | PlanningOver | AlreadyLocked | CannotStart

  // ---- the catalogue a plan is judged against ----

  datatype MageOption = MageOption(
    id: string, name: string, schools: seq<string>, tags: seq<string>,
    supportCapacity: int, defaultEntourage: seq<string>)

  datatype SummonOption = SummonOption(id: string, name: string, schools: seq<string>, capacityCost: int)

  datatype Requirement = Always | Signature(mageId: string) | Tagged(tag: string)

  datatype SpellOption = SpellOption(
    id: string, name: string, cost: real, text: string, needs: Requirement, tagsRead: seq<string>)

  datatype LoadoutSpell = LoadoutSpell(spellId: string, name: string, cost: real, effect: string)

  datatype Catalog = Catalog(
    mageCap: nat,
    spellSlots: nat,
    mages: seq<MageOption>,
    summons: seq<SummonOption>,
    summonCounts: map<string, int>,
    spells: seq<SpellOption>,
    /** The resolved sentence on a card, from the spell and its (mage, tag) contributors. */
    effectText: (SpellOption, seq<(string, string)>) -> string,
    /** The suggestion a seat is shown, as the wire carries it. */
    opening: (nat, MapConfig) -> Json)

  function MageById(mages: seq<MageOption>, id: string): (found: Option<MageOption>)
    ensures found.Some? ==> found.value in mages && found.value.id == id
  {
    if mages == [] then None else if mages[0].id == id then Some(mages[0]) else MageById(mages[1..], id)
  }

  function SummonById(summons: seq<SummonOption>, id: string): (found: Option<SummonOption>)
    ensures found.Some? ==> found.value in summons && found.value.id == id
  {
    if summons == [] then None else if summons[0].id == id then Some(summons[0]) else SummonById(summons[1..], id)
  }

  function SpellById(spells: seq<SpellOption>, id: string): (found: Option<SpellOption>)
    ensures found.Some? ==> found.value in spells && found.value.id == id
  {
    if spells == [] then None else if spells[0].id == id then Some(spells[0]) else SpellById(spells[1..], id)
  }

  // ---- parsing ----

  function ParseName(raw: Json, fault: PlanError): Result<string, PlanError> {
    if raw.JText? && Strip(raw.s) != [] then Ok(Strip(raw.s)) else Err(fault)
  }

  function ParseOrder(raw: Json): Result<Order, PlanError> {
    if !raw.JObject? then Err(OrderMissing)
    else
      var kind := Get(raw.fields, "kind");
      if kind == JText("holdZone") then
        match ParseName(Get(raw.fields, "zoneId"), HoldNamesNoZone)
        case Err(e) => Err(e)
        case Ok(zone) => Ok(HoldZone(zone))
      else if kind == JText("defendBase") then Ok(DefendBase)
      else if kind == JText("pushEnemyBase") then Ok(PushEnemyBase)
      else Err(NotAnOrder)
  }

  /** Reads every entry of an array, stopping at the first fault. */
  function ParseAll<T>(parse: Json -> Result<T, PlanError>, items: seq<Json>): Result<seq<T>, PlanError> {
    if items == [] then Ok([])
    else match parse(items[0])
      case Err(e) => Err(e)
      case Ok(first) =>
        match ParseAll(parse, items[1..])
        case Err(e) => Err(e)
        case Ok(rest) => Ok([first] + rest)
  }

  function ParseSummon(raw: Json): Result<string, PlanError> {
    ParseName(raw, SummonNotText)
  }

  function ParseTroop(raw: Json): Result<PlannedTroop, PlanError> {
    if !raw.JObject? then Err(TroopNotObject)
    else match ParseName(Get(raw.fields, "mageId"), MageIdMissing)
      case Err(e) => Err(e)
      case Ok(mage) =>
        var summons := GetOr(raw.fields, "summonIds", JArray([]));
        if !summons.JArray? then Err(SummonsNotArray)
        else match ParseAll(ParseSummon, summons.items)
          case Err(e) => Err(e)
          case Ok(ids) =>
            match ParseOrder(Get(raw.fields, "order"))
            case Err(e) => Err(e)
            case Ok(order) => Ok(PlannedTroop(mage, ids, order))
  }

  function ParseSlot(raw: Json): Result<Option<string>, PlanError> {
    if raw.JNull? then Ok(None)
    else match ParseName(raw, BadSlot)
      case Err(e) => Err(e)
      case Ok(id) => Ok(Some(id))
  }

  /** The first fault in the order the fields are read, or the plan. */
  function ParsedPlan(raw: Json, spellSlots: nat): Result<SubmittedPlan, PlanError> {
    if !raw.JObject? then Err(PlanRequired)
    else if !Get(raw.fields, "troops").JArray? then Err(TroopsNotArray)
    else match ParseAll(ParseTroop, Get(raw.fields, "troops").items)
      case Err(e) => Err(e)
      case Ok(troops) =>
        var slots := GetOr(raw.fields, "spellSlots", JArray([]));
        if !slots.JArray? then Err(SlotsNotArray)
        else if |slots.items| > spellSlots then Err(TooManySlots)
        else match ParseAll(ParseSlot, slots.items)
          case Err(e) => Err(e)
          case Ok(parsed) => Ok(SubmittedPlan(troops, parsed))
  }

  lemma {:induction false} ParseAllStep<T>(parse: Json -> Result<T, PlanError>, items: seq<Json>, i: nat)
    requires i < |items| && ParseAll(parse, items[..i]).Ok?
    ensures parse(items[i]).Err? ==> ParseAll(parse, items) == Err(parse(items[i]).error)
    ensures parse(items[i]).Ok? ==>
      ParseAll(parse, items[..i + 1]) == Ok(ParseAll(parse, items[..i]).value + [parse(items[i]).value])
  {
    if i > 0 {
      assert items[..i][1..] == items[1..][..i - 1];
      assert items[..i + 1][1..] == items[1..][..i];
      ParseAllStep(parse, items[1..], i - 1);
      if parse(items[i]).Ok? {
        var first, rest := parse(items[0]).value, ParseAll(parse, items[1..][..i - 1]).value;
        assert [first] + (rest + [parse(items[i]).value]) == ([first] + rest) + [parse(items[i]).value];
      }
    } else {
      assert items[..1][1..] == [];
      assert parse(items[0]).Ok? ==> [parse(items[0]).value] + [] == [] + [parse(items[0]).value];
    }
  }

  method ParseEach<T>(parse: Json -> Result<T, PlanError>, items: seq<Json>) returns (r: Result<seq<T>, PlanError>)
    ensures r == ParseAll(parse, items)
  {
    var done: seq<T> := [];
    for i := 0 to |items|
      invariant ParseAll(parse, items[..i]) == Ok(done)
    {
      ParseAllStep(parse, items, i);
      var entry := parse(items[i]);
      if entry.Err? { return Err(entry.error); }
      done := done + [entry.value];
    }
    assert items[..|items|] == items;
    r := Ok(done);
  }

  method ParsePlan(raw: Json, spellSlots: nat) returns (r: Result<SubmittedPlan, PlanError>)
    ensures r == ParsedPlan(raw, spellSlots)
  {
    if !raw.JObject? { return Err(PlanRequired); }
    var rawTroops := Get(raw.fields, "troops");
    if !rawTroops.JArray? { return Err(TroopsNotArray); }
    var troops := ParseEach(ParseTroop, rawTroops.items);
    if troops.Err? { return Err(troops.error); }
    var rawSlots := GetOr(raw.fields, "spellSlots", JArray([]));
    if !rawSlots.JArray? { return Err(SlotsNotArray); }
    if |rawSlots.items| > spellSlots { return Err(TooManySlots); }
    var slots := ParseEach(ParseSlot, rawSlots.items);
    if slots.Err? { return Err(slots.error); }
    r := Ok(SubmittedPlan(troops.value, slots.value));
  }

  // ---- storing ----

  function OrderToJson(order: Order): Json {
    match order
    case HoldZone(zone) => JObject(map["kind" := JText("holdZone"), "zoneId" := JText(zone)])
    case DefendBase => JObject(map["kind" := JText("defendBase")])
    case PushEnemyBase => JObject(map["kind" := JText("pushEnemyBase")])
  }

  function MapSeq<A, B>(f: A -> B, s: seq<A>): (t: seq<B>)
    ensures |t| == |s| && forall k :: 0 <= k < |s| ==> t[k] == f(s[k])
  {
    if s == [] then [] else [f(s[0])] + MapSeq(f, s[1..])
  }

  function TextToJson(id: string): Json {
    JText(id)
  }

  function TroopToJson(troop: PlannedTroop): Json {
    JObject(map["mageId" := JText(troop.mageId),
                "summonIds" := JArray(MapSeq(TextToJson, troop.summonIds)),
                "order" := OrderToJson(troop.order)])
  }

  function SlotToJson(slot: Option<string>): Json {
    if slot.Some? then JText(slot.value) else JNull
  }

  /** `plan_to_json`: only what the player chose. */
  function PlanToJson(plan: SubmittedPlan): Json {
    JObject(map["troops" := JArray(MapSeq(TroopToJson, plan.troops)), "spellSlots" := JArray(MapSeq(SlotToJson, plan.spellSlots))])
  }

  predicate TroopTidy(troop: PlannedTroop) {
    && IsName(troop.mageId)
    && (forall id :: id in troop.summonIds ==> IsName(id))
    && (troop.order.HoldZone? ==> IsName(troop.order.zoneId))
  }

  /** The plans the parser can produce. */
  predicate Tidy(plan: SubmittedPlan, spellSlots: nat) {
    && (forall t :: t in plan.troops ==> TroopTidy(t))
    && |plan.spellSlots| <= spellSlots
    && (forall s :: s in plan.spellSlots && s.Some? ==> IsName(s.value))
  }

  lemma ParsedNameIsName(raw: Json, fault: PlanError)
    ensures ParseName(raw, fault).Ok? ==> IsName(ParseName(raw, fault).value)
    ensures raw.JText? && IsName(raw.s) ==> ParseName(raw, fault) == Ok(raw.s)
  {
    if raw.JText? { StripGivesName(raw.s); }
  }

  /** Everything read off an array came from an entry that parsed. */
  lemma {:induction false} ParsedEntries<T>(parse: Json -> Result<T, PlanError>, items: seq<Json>)
    requires ParseAll(parse, items).Ok?
    ensures |ParseAll(parse, items).value| == |items|
    ensures forall k :: 0 <= k < |items| ==> parse(items[k]) == Ok(ParseAll(parse, items).value[k])
  {
    if items != [] { ParsedEntries(parse, items[1..]); }
  }

  /** An array written entry by entry reads back if each entry does. */
  lemma {:induction false} ArrayReadsBack<T>(parse: Json -> Result<T, PlanError>, write: T -> Json, s: seq<T>)
    requires forall k :: 0 <= k < |s| ==> parse(write(s[k])) == Ok(s[k])
    ensures ParseAll(parse, MapSeq(write, s)) == Ok(s)
  {
    if s != [] {
      ArrayReadsBack(parse, write, s[1..]);
      assert MapSeq(write, s)[1..] == MapSeq(write, s[1..]);
      assert s == [s[0]] + s[1..];
    }
  }

  lemma ParsedTroopIsTidy(raw: Json)
    requires ParseTroop(raw).Ok?
    ensures TroopTidy(ParseTroop(raw).value)
  {
    ParsedNameIsName(Get(raw.fields, "mageId"), MageIdMissing);
    var items := GetOr(raw.fields, "summonIds", JArray([])).items;
    ParsedEntries(ParseSummon, items);
    forall k | 0 <= k < |items| ensures IsName(ParseAll(ParseSummon, items).value[k]) {
      ParsedNameIsName(items[k], SummonNotText);
    }
    var order := Get(raw.fields, "order");
    ParsedNameIsName(Get(order.fields, "zoneId"), HoldNamesNoZone);
  }

  lemma OrderReadsBack(order: Order)
    requires order.HoldZone? ==> IsName(order.zoneId)
    ensures ParseOrder(OrderToJson(order)) == Ok(order)
  {
    match order
    case HoldZone(zone) =>
      assert Get(OrderToJson(order).fields, "kind") == JText("holdZone");
      ParsedNameIsName(JText(zone), HoldNamesNoZone);
    case DefendBase =>
      assert "defendBase" != "holdZone";
    case PushEnemyBase =>
      assert "pushEnemyBase"[0] != "holdZone"[0] && "pushEnemyBase"[0] != "defendBase"[0];
  }

  lemma TroopReadsBack(troop: PlannedTroop)
    requires TroopTidy(troop)
    ensures ParseTroop(TroopToJson(troop)) == Ok(troop)
  {
    var fields := TroopToJson(troop).fields;
    ParsedNameIsName(JText(troop.mageId), MageIdMissing);
    forall k | 0 <= k < |troop.summonIds|
      ensures ParseSummon(TextToJson(troop.summonIds[k])) == Ok(troop.summonIds[k])
    {
      ParsedNameIsName(JText(troop.summonIds[k]), SummonNotText);
    }
    ArrayReadsBack(ParseSummon, TextToJson, troop.summonIds);
    OrderReadsBack(troop.order);
    assert Get(fields, "mageId") == JText(troop.mageId);
    assert GetOr(fields, "summonIds", JArray([])) == JArray(MapSeq(TextToJson, troop.summonIds));
    assert Get(fields, "order") == OrderToJson(troop.order);
  }

  lemma SlotReadsBack(slot: Option<string>)
    requires slot.Some? ==> IsName(slot.value)
    ensures ParseSlot(SlotToJson(slot)) == Ok(slot)
  {
    if slot.Some? { ParsedNameIsName(JText(slot.value), BadSlot); }
  }

  /** The faults that are about the match and not about what was sent. */
  predicate AboutTheMatch(fault: PlanError) {
    fault == CannotStart || fault == PlanningOver || fault == AlreadyLocked
  }

  lemma {:induction false} EntryFaultsOnly<T>(parse: Json -> Result<T, PlanError>, items: seq<Json>)
    requires forall raw :: parse(raw).Err? ==> !AboutTheMatch(parse(raw).error)
    ensures ParseAll(parse, items).Err? ==> !AboutTheMatch(ParseAll(parse, items).error)
  {
    if items != [] { EntryFaultsOnly(parse, items[1..]); }
  }

  /** Reading a plan never reports a fault that is not about the plan. */
  lemma ParserNeverStarts(raw: Json, spellSlots: nat)
    ensures ParsedPlan(raw, spellSlots) != Err(CannotStart)
    ensures ParsedPlan(raw, spellSlots).Err? ==> !AboutTheMatch(ParsedPlan(raw, spellSlots).error)
  {
    forall entry ensures ParseTroop(entry).Err? ==> !AboutTheMatch(ParseTroop(entry).error) {
      if entry.JObject? && GetOr(entry.fields, "summonIds", JArray([])).JArray? {
        EntryFaultsOnly(ParseSummon, GetOr(entry.fields, "summonIds", JArray([])).items);
      }
    }
    if raw.JObject? && Get(raw.fields, "troops").JArray? {
      EntryFaultsOnly(ParseTroop, Get(raw.fields, "troops").items);
      if GetOr(raw.fields, "spellSlots", JArray([])).JArray? {
        EntryFaultsOnly(ParseSlot, GetOr(raw.fields, "spellSlots", JArray([])).items);
      }
    }
  }

  lemma TidyPlanReadsBack(plan: SubmittedPlan, spellSlots: nat)
    requires Tidy(plan, spellSlots)
    ensures ParsedPlan(PlanToJson(plan), spellSlots) == Ok(plan)
  {
    var fields := PlanToJson(plan).fields;
    assert Get(fields, "troops") == JArray(MapSeq(TroopToJson, plan.troops));
    assert GetOr(fields, "spellSlots", JArray([])) == JArray(MapSeq(SlotToJson, plan.spellSlots));
    forall k | 0 <= k < |plan.troops| ensures ParseTroop(TroopToJson(plan.troops[k])) == Ok(plan.troops[k]) {
      TroopReadsBack(plan.troops[k]);
    }
    ArrayReadsBack(ParseTroop, TroopToJson, plan.troops);
    forall k | 0 <= k < |plan.spellSlots| ensures ParseSlot(SlotToJson(plan.spellSlots[k])) == Ok(plan.spellSlots[k]) {
      SlotReadsBack(plan.spellSlots[k]);
    }
    ArrayReadsBack(ParseSlot, SlotToJson, plan.spellSlots);
  }

  lemma ParsedPlanIsTidy(raw: Json, spellSlots: nat)
    requires ParsedPlan(raw, spellSlots).Ok?
    ensures Tidy(ParsedPlan(raw, spellSlots).value, spellSlots)
  {
    var troops := Get(raw.fields, "troops").items;
    ParsedEntries(ParseTroop, troops);
    forall k | 0 <= k < |troops| ensures TroopTidy(ParseAll(ParseTroop, troops).value[k]) {
      ParsedTroopIsTidy(troops[k]);
    }
    var slots := GetOr(raw.fields, "spellSlots", JArray([])).items;
    ParsedEntries(ParseSlot, slots);
    var read := ParseAll(ParseSlot, slots).value;
    forall k | 0 <= k < |slots| && read[k].Some? ensures IsName(read[k].value) {
      ParsedNameIsName(slots[k], BadSlot);
    }
  }

  /** Whatever a phone sent, if it parsed at all, the stored plan reads back as itself. */
  lemma StoredPlanReadsBack(raw: Json, spellSlots: nat)
    requires ParsedPlan(raw, spellSlots).Ok?
    ensures ParsedPlan(PlanToJson(ParsedPlan(raw, spellSlots).value), spellSlots) == ParsedPlan(raw, spellSlots)
  {
    ParsedPlanIsTidy(raw, spellSlots);
    TidyPlanReadsBack(ParsedPlan(raw, spellSlots).value, spellSlots);
  }

  // ---- validation ----

  function FieldedMages(cat: Catalog, troops: seq<PlannedTroop>): seq<MageOption> {
    if troops == [] then []
    else match MageById(cat.mages, troops[0].mageId)
      case None => FieldedMages(cat, troops[1..])
      case Some(mage) => [mage] + FieldedMages(cat, troops[1..])
  }

  predicate SpellEligible(cat: Catalog, spell: SpellOption, plan: SubmittedPlan) {
    match spell.needs
    case Always => true
    case Signature(id) => exists m :: m in FieldedMages(cat, plan.troops) && m.id == id
    case Tagged(tag) => exists m :: m in FieldedMages(cat, plan.troops) && tag in m.tags
  }

  function Used(troops: seq<PlannedTroop>, id: string): nat {
    if troops == [] then 0 else multiset(troops[0].summonIds)[id] + Used(troops[1..], id)
  }

  function Owned(cat: Catalog, id: string): int {
    if id in cat.summonCounts then cat.summonCounts[id] else 0
  }

  function CapacityUsed(cat: Catalog, ids: seq<string>): int {
    if ids == [] then 0
    else CapacityUsed(cat, ids[..|ids| - 1])
         + match SummonById(cat.summons, ids[|ids| - 1]) case None => 0 case Some(s) => s.capacityCost
  }

  predicate SharesSchool(mage: seq<string>, summon: seq<string>) {
    exists school :: school in summon && school in mage
  }

  predicate SummonSupported(cat: Catalog, mage: MageOption, id: string) {
    var summon := SummonById(cat.summons, id);
    summon.Some? && SharesSchool(mage.schools, summon.value.schools)
  }

  predicate TroopLegal(cat: Catalog, config: MapConfig, troop: PlannedTroop) {
    var mage := MageById(cat.mages, troop.mageId);
    && mage.Some?
    && OrderLegal(troop.order, config)
    && (forall id :: id in troop.summonIds ==> SummonSupported(cat, mage.value, id))
    && CapacityUsed(cat, troop.summonIds) <= mage.value.supportCapacity
  }

  predicate SlotLegal(cat: Catalog, plan: SubmittedPlan, slot: Option<string>) {
    slot.Some? ==>
      var spell := SpellById(cat.spells, slot.value);
      spell.Some? && SpellEligible(cat, spell.value, plan)
  }

  /** A plan the server will field. The summon pool is the side's, so it is counted
      across every troop at once. */
  predicate Legal(cat: Catalog, config: MapConfig, plan: SubmittedPlan) {
    && 0 < |plan.troops| <= cat.mageCap
    && (forall t :: t in plan.troops ==> TroopLegal(cat, config, t))
    && (forall t, id :: t in plan.troops && id in t.summonIds ==> Used(plan.troops, id) <= Owned(cat, id))
    && (forall s :: s in plan.spellSlots ==> SlotLegal(cat, plan, s))
  }

  lemma {:induction false} UsedAppend(troops: seq<PlannedTroop>, i: nat, id: string)
    requires i < |troops|
    ensures Used(troops[..i + 1], id) == Used(troops[..i], id) + multiset(troops[i].summonIds)[id]
  {
    if i > 0 {
      assert troops[..i][1..] == troops[1..][..i - 1];
      assert troops[..i + 1][1..] == troops[1..][..i];
      UsedAppend(troops[1..], i - 1, id);
    } else {
      assert troops[..1][1..] == [];
    }
  }

  lemma {:induction false} UsedGrows(troops: seq<PlannedTroop>, i: nat, id: string)
    requires i <= |troops|
    ensures Used(troops[..i], id) <= Used(troops, id)
    decreases |troops| - i
  {
    if i < |troops| {
      UsedAppend(troops, i, id);
      UsedGrows(troops, i + 1, id);
    } else {
      assert troops[..i] == troops;
    }
  }

  function CountOf(used: map<string, int>, id: string): int {
    if id in used then used[id] else 0
  }

  /** The books after checking `i` troops and `j` summons of the next. */
  ghost predicate BooksAgree(used: map<string, int>, troops: seq<PlannedTroop>, i: nat, ids: seq<string>)
    requires i <= |troops|
  {
    forall id :: CountOf(used, id) == Used(troops[..i], id) + multiset(ids)[id]
  }

  lemma BooksStep(used: map<string, int>, troops: seq<PlannedTroop>, i: nat, ids: seq<string>, j: nat)
    requires i <= |troops| && j < |ids| && BooksAgree(used, troops, i, ids[..j])
    ensures BooksAgree(used[ids[j] := CountOf(used, ids[j]) + 1], troops, i, ids[..j + 1])
  {
    var id := ids[j];
    var after := used[id := CountOf(used, id) + 1];
    forall other ensures CountOf(after, other) == Used(troops[..i], other) + multiset(ids[..j + 1])[other] {
      PrefixCounts(ids, j, other);
      assert CountOf(used, other) == Used(troops[..i], other) + multiset(ids[..j])[other];
    }
  }

  lemma BooksClose(used: map<string, int>, troops: seq<PlannedTroop>, i: nat)
    requires i < |troops| && BooksAgree(used, troops, i, troops[i].summonIds)
    ensures BooksAgree(used, troops, i + 1, [])
  {
    forall id ensures Used(troops[..i + 1], id) == Used(troops[..i], id) + multiset(troops[i].summonIds)[id] {
      UsedAppend(troops, i, id);
    }
  }

  /** The pool still covers everything the first `i` troops field. */
  ghost predicate PoolCovers(cat: Catalog, troops: seq<PlannedTroop>, i: nat)
    requires i <= |troops|
  {
    forall k, id :: 0 <= k < i && id in troops[k].summonIds ==> Used(troops[..i], id) <= Owned(cat, id)
  }

  /** The first `j` summons of a troop are all its mage's to support, and all in the pool. */
  ghost predicate FitsUpTo(cat: Catalog, mage: MageOption, before: seq<PlannedTroop>, ids: seq<string>, j: nat)
    requires j <= |ids|
  {
    && (forall k :: 0 <= k < j ==> SummonSupported(cat, mage, ids[k]))
    && (forall k :: 0 <= k < j ==> Used(before, ids[k]) + multiset(ids[..j])[ids[k]] <= Owned(cat, ids[k]))
  }

  lemma PrefixCounts(ids: seq<string>, j: nat, id: string)
    requires j < |ids|
    ensures multiset(ids[..j + 1])[id] == multiset(ids[..j])[id] + if ids[j] == id then 1 else 0
    ensures multiset(ids[..j + 1])[id] <= multiset(ids)[id]
  {
    assert ids[..j + 1] == ids[..j] + [ids[j]];
    assert ids == ids[..j + 1] + ids[j + 1..];
  }

  lemma FitsStep(cat: Catalog, mage: MageOption, before: seq<PlannedTroop>, ids: seq<string>, j: nat)
    requires j < |ids| && FitsUpTo(cat, mage, before, ids, j)
    requires SummonSupported(cat, mage, ids[j])
    requires Used(before, ids[j]) + multiset(ids[..j])[ids[j]] + 1 <= Owned(cat, ids[j])
    ensures FitsUpTo(cat, mage, before, ids, j + 1)
  {
    forall k | 0 <= k < j + 1
      ensures Used(before, ids[k]) + multiset(ids[..j + 1])[ids[k]] <= Owned(cat, ids[k])
    {
      PrefixCounts(ids, j, ids[k]);
    }
  }

  lemma FitsNot(cat: Catalog, mage: MageOption, before: seq<PlannedTroop>, ids: seq<string>, j: nat)
    requires j < |ids|
    requires !SummonSupported(cat, mage, ids[j])
      || Used(before, ids[j]) + multiset(ids[..j])[ids[j]] + 1 > Owned(cat, ids[j])
    ensures !FitsUpTo(cat, mage, before, ids, |ids|)
  {
    PrefixCounts(ids, j, ids[j]);
    assert ids[..|ids|] == ids;
  }

  /** Judges one summon: known, still in the pool, and one this mage can support. */
  method CheckSummon(cat: Catalog, mage: MageOption, id: string, used: map<string, int>)
    returns (ok: bool, cost: int)
    ensures ok <==> SummonSupported(cat, mage, id) && CountOf(used, id) + 1 <= Owned(cat, id)
    ensures ok ==> SummonById(cat.summons, id).Some? && cost == SummonById(cat.summons, id).value.capacityCost
  {
    var summon := SummonById(cat.summons, id);
    if summon.None? { return false, 0; }
    if CountOf(used, id) + 1 > Owned(cat, id) { return false, 0; }
    return SharesSchool(mage.schools, summon.value.schools), summon.value.capacityCost;
  }

  lemma CapacityStep(cat: Catalog, ids: seq<string>, j: nat)
    requires j < |ids| && SummonById(cat.summons, ids[j]).Some?
    ensures CapacityUsed(cat, ids[..j + 1])
         == CapacityUsed(cat, ids[..j]) + SummonById(cat.summons, ids[j]).value.capacityCost
  {
    assert ids[..j + 1][..j] == ids[..j];
  }

  /** After `j` summons of the next troop: the books, the capacity spent, and nothing refused. */
  ghost predicate Checked(cat: Catalog, mage: MageOption, troops: seq<PlannedTroop>, i: nat, j: nat,
                          used: map<string, int>, capacity: int)
    requires i < |troops| && j <= |troops[i].summonIds|
  {
    var ids := troops[i].summonIds;
    && BooksAgree(used, troops, i, ids[..j])
    && capacity == CapacityUsed(cat, ids[..j])
    && FitsUpTo(cat, mage, troops[..i], ids, j)
  }

  lemma CheckedStep(cat: Catalog, mage: MageOption, troops: seq<PlannedTroop>, i: nat, j: nat,
                    used: map<string, int>, capacity: int)
    requires i < |troops| && j < |troops[i].summonIds|
    requires Checked(cat, mage, troops, i, j, used, capacity)
    requires SummonSupported(cat, mage, troops[i].summonIds[j])
    requires CountOf(used, troops[i].summonIds[j]) + 1 <= Owned(cat, troops[i].summonIds[j])
    ensures var id := troops[i].summonIds[j];
            Checked(cat, mage, troops, i, j + 1, used[id := CountOf(used, id) + 1],
                    capacity + SummonById(cat.summons, id).value.capacityCost)
  {
    var ids := troops[i].summonIds;
    FitsStep(cat, mage, troops[..i], ids, j);
    CapacityStep(cat, ids, j);
    BooksStep(used, troops, i, ids, j);
  }

  lemma CheckedAll(cat: Catalog, mage: MageOption, troops: seq<PlannedTroop>, i: nat,
                   used: map<string, int>, capacity: int)
    requires i < |troops| && Checked(cat, mage, troops, i, |troops[i].summonIds|, used, capacity)
    ensures BooksAgree(used, troops, i + 1, [])
    ensures capacity == CapacityUsed(cat, troops[i].summonIds)
    ensures FitsUpTo(cat, mage, troops[..i], troops[i].summonIds, |troops[i].summonIds|)
  {
    var ids := troops[i].summonIds;
    assert ids[..|ids|] == ids;
    BooksClose(used, troops, i);
  }

  /** Judges one troop's summons against the running pool. */
  method CheckSummons(cat: Catalog, mage: MageOption, troops: seq<PlannedTroop>, i: nat, used: map<string, int>)
    returns (ok: bool, after: map<string, int>)
    requires i < |troops| && BooksAgree(used, troops, i, [])
    ensures ok ==> BooksAgree(after, troops, i + 1, [])
    ensures ok <==>
      && FitsUpTo(cat, mage, troops[..i], troops[i].summonIds, |troops[i].summonIds|)
      && CapacityUsed(cat, troops[i].summonIds) <= mage.supportCapacity
  {
    after := used;
    var capacity := 0;
    for j := 0 to |troops[i].summonIds|
      invariant Checked(cat, mage, troops, i, j, after, capacity)
    {
      var id := troops[i].summonIds[j];
      var fits, cost := CheckSummon(cat, mage, id, after);
      if !fits {
        FitsNot(cat, mage, troops[..i], troops[i].summonIds, j);
        return false, after;
      }
      CheckedStep(cat, mage, troops, i, j, after, capacity);
      after := after[id := CountOf(after, id) + 1];
      capacity := capacity + cost;
    }
    CheckedAll(cat, mage, troops, i, after, capacity);
    ok := capacity <= mage.supportCapacity;
  }

  lemma PoolStep(cat: Catalog, mage: MageOption, troops: seq<PlannedTroop>, i: nat)
    requires i < |troops| && PoolCovers(cat, troops, i)
    requires FitsUpTo(cat, mage, troops[..i], troops[i].summonIds, |troops[i].summonIds|)
    ensures PoolCovers(cat, troops, i + 1)
    ensures forall id :: id in troops[i].summonIds ==> SummonSupported(cat, mage, id)
  {
    var ids := troops[i].summonIds;
    assert ids[..|ids|] == ids;
    forall k, id | 0 <= k < i + 1 && id in troops[k].summonIds
      ensures Used(troops[..i + 1], id) <= Owned(cat, id)
    {
      UsedAppend(troops, i, id);
      if id !in ids { assert multiset(ids)[id] == 0; }
    }
  }

  /** A troop the running check refuses makes the whole plan illegal. */
  lemma RefusedMeansIllegal(cat: Catalog, config: MapConfig, plan: SubmittedPlan, mage: MageOption, i: nat)
    requires i < |plan.troops| && MageById(cat.mages, plan.troops[i].mageId) == Some(mage)
    requires !FitsUpTo(cat, mage, plan.troops[..i], plan.troops[i].summonIds, |plan.troops[i].summonIds|)
      || CapacityUsed(cat, plan.troops[i].summonIds) > mage.supportCapacity
    ensures !Legal(cat, config, plan)
  {
    var troop := plan.troops[i];
    var ids := troop.summonIds;
    assert troop in plan.troops && ids[..|ids|] == ids;
    if TroopLegal(cat, config, troop) {
      var k :| 0 <= k < |ids| && Used(plan.troops[..i], ids[k]) + multiset(ids)[ids[k]] > Owned(cat, ids[k]);
      UsedAppend(plan.troops, i, ids[k]);
      UsedGrows(plan.troops, i + 1, ids[k]);
    }
  }

  /** The first `i` troops are legal one by one, and the pool covers them together. */
  ghost predicate LegalUpTo(cat: Catalog, config: MapConfig, plan: SubmittedPlan, i: nat)
    requires i <= |plan.troops|
  {
    && (forall k :: 0 <= k < i ==> TroopLegal(cat, config, plan.troops[k]))
    && PoolCovers(cat, plan.troops, i)
  }

  lemma LegalStep(cat: Catalog, config: MapConfig, plan: SubmittedPlan, mage: MageOption, i: nat)
    requires i < |plan.troops| && LegalUpTo(cat, config, plan, i)
    requires MageById(cat.mages, plan.troops[i].mageId) == Some(mage)
    requires OrderLegal(plan.troops[i].order, config)
    ensures var fits := FitsUpTo(cat, mage, plan.troops[..i], plan.troops[i].summonIds, |plan.troops[i].summonIds|)
                     && CapacityUsed(cat, plan.troops[i].summonIds) <= mage.supportCapacity;
            if fits then LegalUpTo(cat, config, plan, i + 1) else !Legal(cat, config, plan)
  {
    if FitsUpTo(cat, mage, plan.troops[..i], plan.troops[i].summonIds, |plan.troops[i].summonIds|)
      && CapacityUsed(cat, plan.troops[i].summonIds) <= mage.supportCapacity
    {
      PoolStep(cat, mage, plan.troops, i);
    } else {
      RefusedMeansIllegal(cat, config, plan, mage, i);
    }
  }

  /** The troop half of `validate_plan`. */
  method ValidateTroops(cat: Catalog, config: MapConfig, plan: SubmittedPlan) returns (ok: bool)
    ensures ok ==> LegalUpTo(cat, config, plan, |plan.troops|)
    ensures !ok ==> !Legal(cat, config, plan)
  {
    var used: map<string, int> := map[];
    for i := 0 to |plan.troops|
      invariant BooksAgree(used, plan.troops, i, [])
      invariant LegalUpTo(cat, config, plan, i)
    {
      var troop := plan.troops[i];
      var mage := MageById(cat.mages, troop.mageId);
      if mage.None? || !OrderLegal(troop.order, config) {
        assert troop in plan.troops && !TroopLegal(cat, config, troop);
        return false;
      }
      LegalStep(cat, config, plan, mage.value, i);
      var fits, after := CheckSummons(cat, mage.value, plan.troops, i, used);
      if !fits { return false; }
      used := after;
    }
    return true;
  }

  lemma LegalUpToAll(cat: Catalog, config: MapConfig, plan: SubmittedPlan)
    requires 0 < |plan.troops| <= cat.mageCap
    requires LegalUpTo(cat, config, plan, |plan.troops|)
    requires forall s :: s in plan.spellSlots ==> SlotLegal(cat, plan, s)
    ensures Legal(cat, config, plan)
  {
    assert plan.troops[..|plan.troops|] == plan.troops;
  }

  /** `validate_plan`: exactly the legal plans pass. */
  method ValidatePlan(cat: Catalog, config: MapConfig, plan: SubmittedPlan) returns (ok: bool)
    ensures ok <==> Legal(cat, config, plan)
  {
    if plan.troops == [] || |plan.troops| > cat.mageCap { return false; }
    var fielded := ValidateTroops(cat, config, plan);
    if !fielded { return false; }
    for i := 0 to |plan.spellSlots|
      invariant forall k :: 0 <= k < i ==> SlotLegal(cat, plan, plan.spellSlots[k])
    {
      if !SlotLegal(cat, plan, plan.spellSlots[i]) {
        assert plan.spellSlots[i] in plan.spellSlots;
        return false;
      }
    }
    LegalUpToAll(cat, config, plan);
    return true;
  }

  // ---- resolution ----

  function ContributorsOf(mage: MageOption, tags: seq<string>): seq<(string, string)> {
    if tags == [] then []
    else (if tags[0] in mage.tags then [(mage.name, tags[0])] else []) + ContributorsOf(mage, tags[1..])
  }

  function Contributors(mages: seq<MageOption>, tags: seq<string>): seq<(string, string)> {
    if mages == [] then [] else ContributorsOf(mages[0], tags) + Contributors(mages[1..], tags)
  }

  function ResolveSlots(cat: Catalog, mages: seq<MageOption>, slots: seq<Option<string>>): seq<LoadoutSpell> {
    if slots == [] then []
    else
      var rest := ResolveSlots(cat, mages, slots[1..]);
      if slots[0].None? then rest
      else match SpellById(cat.spells, slots[0].value)
        case None => rest
        case Some(spell) =>
          [LoadoutSpell(spell.id, spell.name, spell.cost, cat.effectText(spell, Contributors(mages, spell.tagsRead)))] + rest
  }

  /** `resolve_loadout`: the spells a plan takes into a round, priced by the server. */
  function ResolveLoadout(cat: Catalog, plan: SubmittedPlan): seq<LoadoutSpell> {
    ResolveSlots(cat, FieldedMages(cat, plan.troops), plan.spellSlots)
  }

  lemma {:induction false} LoadoutComesFromCatalog(cat: Catalog, mages: seq<MageOption>, slots: seq<Option<string>>)
    ensures forall s :: s in ResolveSlots(cat, mages, slots) ==>
              exists spell :: spell in cat.spells && spell.id == s.spellId && spell.cost == s.cost
  {
    if slots != [] {
      LoadoutComesFromCatalog(cat, mages, slots[1..]);
    }
  }

  // ---- sim input ----

  datatype TroopSetup = TroopSetup(order: Order, mages: seq<string>, summons: seq<string>, index: nat)

  function ArmyTroops(troops: seq<PlannedTroop>, from: nat): (setup: seq<TroopSetup>)
    ensures |setup| == |troops|
    ensures forall k :: 0 <= k < |troops| ==>
      setup[k] == TroopSetup(troops[k].order, [troops[k].mageId], troops[k].summonIds, from + k + 1)
  {
    if troops == [] then []
    else [TroopSetup(troops[0].order, [troops[0].mageId], troops[0].summonIds, from + 1)]
         + ArmyTroops(troops[1..], from + 1)
  }

  /** `to_army_setup`: an order, a mage and its summons per troop, and no positions. */
  function ToArmySetup(plan: SubmittedPlan): seq<TroopSetup> {
    ArmyTroops(plan.troops, 0)
  }

  // ---- the suggested default ----

  /** `default_plan`: the suggestion, read and judged like any other plan. */
  function DefaultPlan(cat: Catalog, config: MapConfig): Result<SubmittedPlan, PlanError> {
    match ParsedPlan(cat.opening(1, config), cat.spellSlots)
    case Err(e) => Err(e)
    case Ok(plan) => if Legal(cat, config, plan) then Ok(plan) else Err(IllegalPlan)
  }

  /** A catalogue whose own suggestion the server would accept on this map. */
  ghost predicate SuggestionLegal(cat: Catalog, config: MapConfig) {
    DefaultPlan(cat, config).Ok?
  }
}
