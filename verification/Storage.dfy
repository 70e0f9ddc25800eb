/** The record as it is stored (`api/app/match/run_record.py`, `to_json` and `from_json`):
    what is read back is what was written, so a stored run replays like the live one. */
module Storage {
  import opened Common
  import opened JsonText
  import opened Plan
  import opened Round
  import opened Recording

  // ---- single values ----

  function OfInt(n: int): Json { JNumber(n as real) }

  /** `int(...)` on a number, toward zero. */
  function AsInt(j: Json): Option<int> {
    if !j.JNumber? then None else Some(if j.n >= 0.0 then j.n.Floor else -((-j.n).Floor))
  }

  function AsNat(j: Json): Option<nat> {
    var n := AsInt(j);
    if n.Some? && n.value >= 0 then Some(n.value) else None
  }

  function AsReal(j: Json): Option<real> { if j.JNumber? then Some(j.n) else None }

  function AsText(j: Json): Option<string> { if j.JText? then Some(j.s) else None }

  function AsBool(j: Json): Option<bool> { if j.JBool? then Some(j.b) else None }

  function OfSide(side: Side): Json { JText(if side == North then "north" else "south") }

  function AsSide(j: Json): Option<Side> {
    if j == OfSide(North) then Some(North) else if j == OfSide(South) then Some(South) else None
  }

  function OfWinner(winner: Option<Side>): Json { if winner.Some? then OfSide(winner.value) else JNull }

  function AsWinner(j: Json): Option<Option<Side>> {
    if j == JNull then Some(None)
    else match AsSide(j) case None => None case Some(side) => Some(Some(side))
  }

  lemma ValuesReadBack(n: int, side: Side, winner: Option<Side>)
    ensures AsInt(OfInt(n)) == Some(n)
    ensures n >= 0 ==> AsNat(OfInt(n)) == Some(n)
    ensures AsSide(OfSide(side)) == Some(side)
    ensures AsWinner(OfWinner(winner)) == Some(winner)
  {
    assert "north" != "south";
    assert -((n as real)) == (-n) as real;
  }

  // ---- lists and pairs ----

  function ReadAll<T>(read: Json -> Option<T>, items: seq<Json>): Option<seq<T>> {
    if items == [] then Some([])
    else match read(items[0])
      case None => None
      case Some(first) =>
        match ReadAll(read, items[1..])
        case None => None
        case Some(rest) => Some([first] + rest)
  }

  function ReadArray<T>(read: Json -> Option<T>, j: Json): Option<seq<T>> {
    if j.JArray? then ReadAll(read, j.items) else None
  }

  lemma {:induction false} ListReadsBack<T>(read: Json -> Option<T>, write: T -> Json, s: seq<T>)
    requires forall k :: 0 <= k < |s| ==> read(write(s[k])) == Some(s[k])
    ensures ReadAll(read, MapSeq(write, s)) == Some(s)
  {
    if s != [] {
      ListReadsBack(read, write, s[1..]);
      assert MapSeq(write, s)[1..] == MapSeq(write, s[1..]);
      assert s == [s[0]] + s[1..];
    }
  }

  function OfSides<T>(write: T -> Json, values: PerSide<T>): Json {
    JObject(map["north" := write(values.north), "south" := write(values.south)])
  }

  function AsSides<T>(read: Json -> Option<T>, j: Json): Option<PerSide<T>> {
    if !j.JObject? then None
    else
      var north, south := read(Get(j.fields, "north")), read(Get(j.fields, "south"));
      if north.None? || south.None? then None else Some(PerSide(north.value, south.value))
  }

  lemma SidesReadBack<T>(read: Json -> Option<T>, write: T -> Json, values: PerSide<T>)
    requires read(write(values.north)) == Some(values.north) && read(write(values.south)) == Some(values.south)
    ensures AsSides(read, OfSides(write, values)) == Some(values)
  {
    assert "north" != "south";
  }

  function OfReal(x: real): Json { JNumber(x) }

  function Whole(j: Json): Option<Json> { Some(j) }

  // ---- the pieces of a record ----

  function CastToJson(c: RecordedCast): Json {
    JObject(map["order" := OfInt(c.order), "tick" := OfInt(c.tick), "side" := OfSide(c.side),
                "commandId" := JText(c.commandId), "spellId" := JText(c.spellId),
                "at" := JObject(map["x" := JNumber(c.at.x), "y" := JNumber(c.at.y)])])
  }

  function CastFromJson(j: Json): Option<RecordedCast> {
    if !j.JObject? || !Get(j.fields, "at").JObject? then None
    else
      var at := Get(j.fields, "at").fields;
      var order, tick, side := AsNat(Get(j.fields, "order")), AsNat(Get(j.fields, "tick")), AsSide(Get(j.fields, "side"));
      var commandId, spellId := AsText(Get(j.fields, "commandId")), AsText(Get(j.fields, "spellId"));
      var x, y := AsReal(Get(at, "x")), AsReal(Get(at, "y"));
      if order.None? || tick.None? || side.None? || commandId.None? || spellId.None? || x.None? || y.None? then None
      else Some(RecordedCast(order.value, tick.value, side.value, commandId.value, spellId.value, Vec2(x.value, y.value)))
  }

  lemma CastReadsBack(c: RecordedCast)
    ensures CastFromJson(CastToJson(c)) == Some(c)
  {
    ValuesReadBack(c.order, c.side, None);
    ValuesReadBack(c.tick, c.side, None);
    hide OfInt, AsInt, AsNat, OfSide, AsSide;
    var f := CastToJson(c).fields;
    assert Get(f, "order") == OfInt(c.order) && Get(f, "tick") == OfInt(c.tick) && Get(f, "side") == OfSide(c.side);
    assert Get(f, "commandId") == JText(c.commandId) && Get(f, "spellId") == JText(c.spellId);
    assert Get(f, "at") == JObject(map["x" := JNumber(c.at.x), "y" := JNumber(c.at.y)]);
    assert "x" != "y";
  }

  function SpellToJson(s: LoadoutSpell): Json {
    JObject(map["spellId" := JText(s.spellId), "name" := JText(s.name), "cost" := JNumber(s.cost), "effect" := JText(s.effect)])
  }

  function SpellFromJson(j: Json): Option<LoadoutSpell> {
    if !j.JObject? then None
    else
      var spellId, name := AsText(Get(j.fields, "spellId")), AsText(Get(j.fields, "name"));
      var cost, effect := AsReal(Get(j.fields, "cost")), AsText(Get(j.fields, "effect"));
      if spellId.None? || name.None? || cost.None? || effect.None? then None
      else Some(LoadoutSpell(spellId.value, name.value, cost.value, effect.value))
  }

  lemma SpellReadsBack(s: LoadoutSpell)
    ensures SpellFromJson(SpellToJson(s)) == Some(s)
  {
    var f := SpellToJson(s).fields;
    assert Get(f, "spellId") == JText(s.spellId) && Get(f, "name") == JText(s.name);
    assert Get(f, "cost") == JNumber(s.cost) && Get(f, "effect") == JText(s.effect);
  }

  function ReasonText(reason: RoundReason): string {
    match reason
    case ZoneControl => "zoneControl"
    case Annihilated => "annihilation"
    case ClockRanOut => "timeUp"
  }

  function EndingToJson(ending: RoundEnding): Json {
    match ending
    case BaseDestroyed(winner) => JObject(map["kind" := JText("baseDestroyed"), "winner" := OfWinner(winner)])
    case RoundComplete(winner, reason) =>
      JObject(map["kind" := JText("roundComplete"), "winner" := OfWinner(winner), "reason" := JText(ReasonText(reason))])
  }

  function AsReason(j: Json): Option<RoundReason> {
    if j == JText("zoneControl") then Some(ZoneControl)
    else if j == JText("annihilation") then Some(Annihilated)
    else if j == JText("timeUp") then Some(ClockRanOut)
    else None
  }

  function EndingFromJson(j: Json): Option<RoundEnding> {
    if !j.JObject? then None
    else
      var winner := AsWinner(Get(j.fields, "winner"));
      if winner.None? then None
      else if Get(j.fields, "kind") == JText("baseDestroyed") then Some(BaseDestroyed(winner.value))
      else if Get(j.fields, "kind") == JText("roundComplete") then
        match AsReason(Get(j.fields, "reason"))
        case None => None
        case Some(reason) => Some(RoundComplete(winner.value, reason))
      else None
  }

  lemma EndingReadsBack(ending: RoundEnding)
    ensures EndingFromJson(EndingToJson(ending)) == Some(ending)
  {
    ValuesReadBack(0, North, ending.winner);
    hide OfWinner, AsWinner;
    var f := EndingToJson(ending).fields;
    assert |"baseDestroyed"| == 13 && |"roundComplete"| == 13 && "baseDestroyed"[0] != "roundComplete"[0];
    assert "zoneControl" != "annihilation" && "timeUp" != "annihilation" && "zoneControl" != "timeUp";
    assert Get(f, "winner") == OfWinner(ending.winner);
    if ending.RoundComplete? { assert Get(f, "reason") == JText(ReasonText(ending.reason)); }
  }

  /** An absent value is null. */
  function OfOption<T>(write: T -> Json, value: Option<T>): Json {
    if value.Some? then write(value.value) else JNull
  }

  function AsOption<T>(read: Json -> Option<T>, j: Json): Option<Option<T>> {
    if j == JNull then Some(None)
    else match read(j) case None => None case Some(value) => Some(Some(value))
  }

  function SpellsToJson(spells: seq<LoadoutSpell>): Json { JArray(MapSeq(SpellToJson, spells)) }

  function SpellsFromJson(j: Json): Option<seq<LoadoutSpell>> { ReadArray(SpellFromJson, j) }

  function BasesToJson(bases: PerSide<real>): Json { OfSides(OfReal, bases) }

  function BasesFromJson(j: Json): Option<PerSide<real>> { AsSides(AsReal, j) }

  function Identity(j: Json): Json { j }

  lemma SpellsReadBack(spells: seq<LoadoutSpell>)
    ensures SpellsFromJson(SpellsToJson(spells)) == Some(spells)
  {
    hide SpellFromJson, SpellToJson;
    forall k | 0 <= k < |spells| ensures SpellFromJson(SpellToJson(spells[k])) == Some(spells[k]) { SpellReadsBack(spells[k]); }
    ListReadsBack(SpellFromJson, SpellToJson, spells);
  }

  // ---- a round ----

  function RoundToJson(r: RecordedRound): Json {
    JObject(map["round" := OfInt(r.number), "seed" := OfInt(r.seed), "startingEnergy" := JNumber(r.startingEnergy),
                "baseHpAtStart" := BasesToJson(r.baseHpAtStart), "plans" := OfSides(Identity, r.plans),
                "loadouts" := OfSides(SpellsToJson, r.loadouts), "casts" := JArray(MapSeq(CastToJson, r.casts)),
                "ending" := OfOption(EndingToJson, r.ending), "baseHpAtEnd" := OfOption(BasesToJson, r.baseHpAtEnd)])
  }

  function RoundFromJson(j: Json): Option<RecordedRound> {
    if !j.JObject? then None
    else
      var number, seed, energy := AsNat(Get(j.fields, "round")), AsInt(Get(j.fields, "seed")), AsReal(Get(j.fields, "startingEnergy"));
      var start, plans := BasesFromJson(Get(j.fields, "baseHpAtStart")), AsSides(Whole, Get(j.fields, "plans"));
      var loadouts := AsSides(SpellsFromJson, Get(j.fields, "loadouts"));
      var casts := ReadArray(CastFromJson, GetOr(j.fields, "casts", JArray([])));
      var ending, end := AsOption(EndingFromJson, Get(j.fields, "ending")), AsOption(BasesFromJson, Get(j.fields, "baseHpAtEnd"));
      if number.None? || seed.None? || energy.None? || start.None? || plans.None? then None
      else if loadouts.None? || casts.None? || ending.None? || end.None? then None
      else Some(RecordedRound(number.value, seed.value, energy.value, start.value, plans.value, loadouts.value,
                              casts.value, ending.value, end.value))
  }

  lemma RoundFields(r: RecordedRound)
    ensures var f := RoundToJson(r).fields;
      && Get(f, "round") == OfInt(r.number) && Get(f, "seed") == OfInt(r.seed) && Get(f, "startingEnergy") == JNumber(r.startingEnergy)
      && Get(f, "baseHpAtStart") == BasesToJson(r.baseHpAtStart) && Get(f, "plans") == OfSides(Identity, r.plans)
      && Get(f, "loadouts") == OfSides(SpellsToJson, r.loadouts) && GetOr(f, "casts", JArray([])) == JArray(MapSeq(CastToJson, r.casts))
      && Get(f, "ending") == OfOption(EndingToJson, r.ending) && Get(f, "baseHpAtEnd") == OfOption(BasesToJson, r.baseHpAtEnd)
  {
    hide OfInt, BasesToJson, OfSides, OfOption;
  }

  lemma OptionsReadBack(ending: Option<RoundEnding>, end: Option<PerSide<real>>)
    ensures AsOption(EndingFromJson, OfOption(EndingToJson, ending)) == Some(ending)
    ensures AsOption(BasesFromJson, OfOption(BasesToJson, end)) == Some(end)
  {
    if ending.Some? { EndingReadsBack(ending.value); }
    if end.Some? { SidesReadBack(AsReal, OfReal, end.value); }
  }

  lemma RoundReadsBack(r: RecordedRound)
    ensures RoundFromJson(RoundToJson(r)) == Some(r)
  {
    hide OfInt, AsInt, AsNat, RoundToJson, EndingToJson, EndingFromJson, BasesToJson, BasesFromJson, SpellsToJson, SpellsFromJson,
         CastToJson, CastFromJson, AsOption, OfOption, AsSides, OfSides;
    assert RoundToJson(r).JObject? by { RoundIsObject(r); }
    RoundFields(r);
    ValuesReadBack(r.number, North, None);
    ValuesReadBack(r.seed, North, None);
    BasesReadBack(r.baseHpAtStart);
    PlansReadBack(r.plans);
    SpellsReadBack(r.loadouts.north);
    SpellsReadBack(r.loadouts.south);
    SidesReadBack(SpellsFromJson, SpellsToJson, r.loadouts);
    forall k | 0 <= k < |r.casts| ensures CastFromJson(CastToJson(r.casts[k])) == Some(r.casts[k]) { CastReadsBack(r.casts[k]); }
    ListReadsBack(CastFromJson, CastToJson, r.casts);
    OptionsReadBack(r.ending, r.baseHpAtEnd);
  }

  lemma RoundIsObject(r: RecordedRound)
    ensures RoundToJson(r).JObject?
  {
  }

  lemma BasesReadBack(bases: PerSide<real>)
    ensures BasesFromJson(BasesToJson(bases)) == Some(bases)
  {
    SidesReadBack(AsReal, OfReal, bases);
  }

  lemma PlansReadBack(plans: PerSide<Json>)
    ensures AsSides(Whole, OfSides(Identity, plans)) == Some(plans)
  {
    SidesReadBack(Whole, Identity, plans);
  }

  // ---- the whole run ----

  function MatchEndingToJson(ending: MatchEnding): Json {
    match ending
    case MatchBaseDestroyed(winner) => JObject(map["kind" := JText("baseDestroyed"), "winner" := OfWinner(winner)])
    case RoundsWon(side) => JObject(map["kind" := JText("roundsWon"), "winner" := OfWinner(Some(side))])
    case TestComplete(winner) => JObject(map["kind" := JText("testComplete"), "roundWinner" := OfWinner(winner)])
    case Abandoned(winner) => JObject(map["kind" := JText("abandoned"), "winner" := OfWinner(winner)])
  }

  function MatchEndingFromJson(j: Json): Option<MatchEnding> {
    if !j.JObject? then None
    else
      var kind := Get(j.fields, "kind");
      var winner := AsWinner(Get(j.fields, if kind == JText("testComplete") then "roundWinner" else "winner"));
      if winner.None? then None
      else if kind == JText("baseDestroyed") then Some(MatchBaseDestroyed(winner.value))
      else if kind == JText("testComplete") then Some(TestComplete(winner.value))
      else if kind == JText("abandoned") then Some(Abandoned(winner.value))
      else if kind == JText("roundsWon") && winner.value.Some? then Some(RoundsWon(winner.value.value))
      else None
  }

  lemma KindsDiffer()
    ensures "baseDestroyed" != "testComplete" && "abandoned" != "baseDestroyed" && "abandoned" != "testComplete"
    ensures "roundsWon" != "baseDestroyed" && "roundsWon" != "testComplete" && "roundsWon" != "abandoned"
  {
    assert |"baseDestroyed"| == 13 && |"testComplete"| == 12 && "abandoned"[0] != "roundsWon"[0];
    assert |"abandoned"| == 9 && |"roundsWon"| == 9;
  }

  lemma MatchEndingReadsBack(ending: MatchEnding)
    ensures MatchEndingFromJson(MatchEndingToJson(ending)) == Some(ending)
  {
    hide OfWinner, AsWinner;
    KindsDiffer();
    var f := MatchEndingToJson(ending).fields;
    match ending
    case MatchBaseDestroyed(winner) => ValuesReadBack(0, North, winner); assert Get(f, "winner") == OfWinner(winner);
    case RoundsWon(side) => ValuesReadBack(0, North, Some(side)); assert Get(f, "winner") == OfWinner(Some(side));
    case TestComplete(winner) => ValuesReadBack(0, North, winner); assert Get(f, "roundWinner") == OfWinner(winner);
    case Abandoned(winner) => ValuesReadBack(0, North, winner); assert Get(f, "winner") == OfWinner(winner);
  }

  function TerminalToJson(reason: TerminalReason): Json {
    match reason
    case BaseFellReason => JText("baseDestroyed")
    case AbandonedReason => JText("abandoned")
    case RoundStopped(r) => JText(ReasonText(r))
  }

  function TerminalFromJson(j: Json): Option<TerminalReason> {
    if j == JText("baseDestroyed") then Some(BaseFellReason)
    else if j == JText("abandoned") then Some(AbandonedReason)
    else match AsReason(j) case None => None case Some(r) => Some(RoundStopped(r))
  }

  lemma TerminalReadsBack(reason: TerminalReason)
    ensures TerminalFromJson(TerminalToJson(reason)) == Some(reason)
  {
    KindsDiffer();
    assert "zoneControl" != "annihilation" && "timeUp" != "annihilation" && "zoneControl" != "timeUp";
    assert |"annihilation"| == 12 && |"zoneControl"| == 11 && |"timeUp"| == 6;
  }

  function WonToJson(won: PerSide<nat>): Json { OfSides((n: nat) => OfInt(n), won) }

  function WonFromJson(j: Json): Option<PerSide<nat>> { AsSides(AsNat, j) }

  lemma WonReadsBack(won: PerSide<nat>)
    ensures WonFromJson(WonToJson(won)) == Some(won)
  {
    ValuesReadBack(won.north, North, None);
    ValuesReadBack(won.south, North, None);
    SidesReadBack(AsNat, (n: nat) => OfInt(n), won);
  }

  /** A dictionary by side that is empty until the match is over. */
  function OfTally<T>(write: PerSide<T> -> Json, tally: Option<PerSide<T>>): Json {
    if tally.Some? then write(tally.value) else JObject(map[])
  }

  function AsTally<T>(read: Json -> Option<PerSide<T>>, j: Json): Option<Option<PerSide<T>>> {
    if j == JObject(map[]) then Some(None)
    else match read(j) case None => None case Some(tally) => Some(Some(tally))
  }

  lemma TalliesReadBack(won: Option<PerSide<nat>>, bases: Option<PerSide<real>>)
    ensures AsTally(WonFromJson, OfTally(WonToJson, won)) == Some(won)
    ensures AsTally(BasesFromJson, OfTally(BasesToJson, bases)) == Some(bases)
  {
    if won.Some? {
      WonReadsBack(won.value);
      assert "north" in WonToJson(won.value).fields;
    }
    if bases.Some? {
      BasesReadBack(bases.value);
      assert "north" in BasesToJson(bases.value).fields;
    }
  }

  function RecordToJson(r: RunRecord): Json {
    JObject(map["recordVersion" := OfInt(r.recordVersion), "rulesVersion" := OfInt(r.rulesVersion), "contentVersion" := OfInt(r.contentVersion),
                "runId" := JText(r.runId), "matchId" := JText(r.matchId), "gameMode" := JText(r.gameMode),
                "testProfile" := JBool(r.testProfile), "mapId" := JText(r.mapId),
                "tickRate" := OfInt(r.tickRate), "maxBattleSeconds" := JNumber(r.maxBattleSeconds),
                "rounds" := JArray(MapSeq(RoundToJson, r.rounds)),
                "ending" := OfOption(MatchEndingToJson, r.ending), "terminalReason" := OfOption(TerminalToJson, r.terminalReason),
                "roundsWon" := OfTally(WonToJson, r.roundsWon), "baseHp" := OfTally(BasesToJson, r.baseHp)])
  }

  function RecordFromJson(j: Json): Option<RunRecord> {
    if !j.JObject? then None
    else
      var version := AsInt(GetOr(j.fields, "recordVersion", OfInt(RECORD_VERSION)));
      var rules, content := AsInt(GetOr(j.fields, "rulesVersion", OfInt(RULES_VERSION))), AsInt(GetOr(j.fields, "contentVersion", OfInt(CONTENT_VERSION)));
      var runId, mapId, profile := AsText(Get(j.fields, "runId")), AsText(Get(j.fields, "mapId")), AsBool(Get(j.fields, "testProfile"));
      var matchId, mode := AsText(Get(j.fields, "matchId")), AsText(Get(j.fields, "gameMode"));
      var rate, seconds := AsInt(Get(j.fields, "tickRate")), AsReal(Get(j.fields, "maxBattleSeconds"));
      var rounds := ReadArray(RoundFromJson, GetOr(j.fields, "rounds", JArray([])));
      var ending, reason := AsOption(MatchEndingFromJson, Get(j.fields, "ending")), AsOption(TerminalFromJson, Get(j.fields, "terminalReason"));
      var won := AsTally(WonFromJson, GetOr(j.fields, "roundsWon", JObject(map[])));
      var bases := AsTally(BasesFromJson, GetOr(j.fields, "baseHp", JObject(map[])));
      if version.None? || matchId.None? || mode.None? || rules.None? || content.None? || runId.None? || mapId.None? || profile.None? || rate.None? || seconds.None? then None
      else if rounds.None? || ending.None? || reason.None? || won.None? || bases.None? then None
      else Some(RunRecord(runId.value, matchId.value, mode.value, profile.value, mapId.value, rate.value, seconds.value, rounds.value,
                          ending.value, reason.value, won.value, bases.value, version.value, rules.value, content.value))
  }

  lemma VersionFields(r: RunRecord)
    ensures var f := RecordToJson(r).fields;
      && GetOr(f, "recordVersion", OfInt(RECORD_VERSION)) == OfInt(r.recordVersion)
      && GetOr(f, "rulesVersion", OfInt(RULES_VERSION)) == OfInt(r.rulesVersion)
      && GetOr(f, "contentVersion", OfInt(CONTENT_VERSION)) == OfInt(r.contentVersion)
      && Get(f, "runId") == JText(r.runId) && Get(f, "matchId") == JText(r.matchId)
  {
    hide OfInt, OfTally, OfOption, RoundToJson;
  }

  lemma SettingFields(r: RunRecord)
    ensures var f := RecordToJson(r).fields;
      && Get(f, "gameMode") == JText(r.gameMode) && Get(f, "testProfile") == JBool(r.testProfile)
      && Get(f, "mapId") == JText(r.mapId) && Get(f, "tickRate") == OfInt(r.tickRate)
      && Get(f, "maxBattleSeconds") == JNumber(r.maxBattleSeconds)
  {
    hide OfInt, OfTally, OfOption, RoundToJson;
  }

  lemma ResultFields(r: RunRecord)
    ensures var f := RecordToJson(r).fields;
      && GetOr(f, "rounds", JArray([])) == JArray(MapSeq(RoundToJson, r.rounds))
      && Get(f, "ending") == OfOption(MatchEndingToJson, r.ending)
      && Get(f, "terminalReason") == OfOption(TerminalToJson, r.terminalReason)
      && GetOr(f, "roundsWon", JObject(map[])) == OfTally(WonToJson, r.roundsWon)
      && GetOr(f, "baseHp", JObject(map[])) == OfTally(BasesToJson, r.baseHp)
  {
    hide OfInt, OfTally, OfOption, RoundToJson;
  }

  lemma MatchOptionsReadBack(ending: Option<MatchEnding>, reason: Option<TerminalReason>)
    ensures AsOption(MatchEndingFromJson, OfOption(MatchEndingToJson, ending)) == Some(ending)
    ensures AsOption(TerminalFromJson, OfOption(TerminalToJson, reason)) == Some(reason)
  {
    hide MatchEndingFromJson, TerminalFromJson, ReasonText;
    if ending.Some? { MatchEndingReadsBack(ending.value); }
    if reason.Some? { TerminalReadsBack(reason.value); }
  }

  lemma RecordIsObject(r: RunRecord)
    ensures RecordToJson(r).JObject?
  {
  }

  /** Whatever a run recorded, the stored form reads back as exactly that record. */
  lemma StoredRecordReadsBack(r: RunRecord)
    ensures RecordFromJson(RecordToJson(r)) == Some(r)
  {
    hide OfInt, AsInt, AsNat, RecordToJson, RoundToJson, RoundFromJson, MatchEndingToJson, MatchEndingFromJson, TerminalToJson,
         TerminalFromJson, BasesToJson, BasesFromJson, WonToJson, WonFromJson, AsOption, OfOption, AsTally, OfTally, AsSides, OfSides;
    RecordIsObject(r);
    VersionFields(r);
    SettingFields(r);
    ResultFields(r);
    ValuesReadBack(r.recordVersion, North, None);
    ValuesReadBack(r.rulesVersion, North, None);
    ValuesReadBack(r.contentVersion, North, None);
    ValuesReadBack(r.tickRate, North, None);
    forall k | 0 <= k < |r.rounds| ensures RoundFromJson(RoundToJson(r.rounds[k])) == Some(r.rounds[k]) { RoundReadsBack(r.rounds[k]); }
    ListReadsBack(RoundFromJson, RoundToJson, r.rounds);
    MatchOptionsReadBack(r.ending, r.terminalReason);
    TalliesReadBack(r.roundsWon, r.baseHp);
  }
}
