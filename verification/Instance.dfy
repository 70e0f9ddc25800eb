/** What the match theorems assume of a server can be met: the smallest coherent one. */
module Instance {
  import opened Common
  import opened SpellQueue
  import opened BattleMap
  import opened BattleWorld
  import opened Battle
  import opened Plan
  import opened Cards
  import opened Opening
  import opened Round
  import opened Session
  import opened Energy
  import opened Ledger
  import opened JsonText
  import opened ExactlyOnce
  import opened TakenTwice

  const EMBER: MageOption := MageOption("ember", "Ember", ["fire"], [], 1, [])

  const EMBER_CARD: UnitType :=
    UnitType("ember", Mage, ["fire"], 10.0, 1.0, 5.0, 2.0, 1.0, Some(1), None, false, false, 0.0)

  const SPARK: SpellOption := SpellOption("spark", "Spark", 1.0, "A spark.", Always, [])

  const MARCH: SubmittedPlan := SubmittedPlan([PlannedTroop("ember", [], PushEnemyBase)], [Some("spark")])

  const CATALOG: Catalog :=
    Catalog(1, 2, [EMBER], [], map[], [SPARK], (s: SpellOption, c: seq<(string, string)>) => s.text, (n: nat, m: MapConfig) => PlanToJson(MARCH))

  /** A simulation in which nothing moves. */
  function StillSim(hidden: SimState): Sim {
    Sim((c: MapConfig, a: PerSide<seq<TroopSetup>>, s: int, k: nat) => Vec2(0.0, 0.0),
        (c: MapConfig, a: PerSide<seq<TroopSetup>>, s: int, k: SimConfig) => hidden,
        (w: World) => (w, []), (w: World, x: SpellInjection) => (w, []), (w: World) => (w, []))
  }

  function SmallServer(hidden: SimState): Env {
    Env(Rules(StillSim(hidden), TWO_LANE_MAP, SimConfig(20, 180.0), {"spark"}), CATALOG, UnitTypes([EMBER_CARD], {}),
        7, 3.0, 2, false, "run", "match", "demo")
  }

  lemma MarchIsLegal()
    ensures Legal(CATALOG, TWO_LANE_MAP, MARCH) && Tidy(MARCH, 2)
  {
    var troop := MARCH.troops[0];
    assert MageById([EMBER], "ember") == Some(EMBER);
    assert TroopLegal(CATALOG, TWO_LANE_MAP, troop);
    assert forall t :: t in MARCH.troops ==> t == troop;
    assert SpellById([SPARK], "spark") == Some(SPARK);
  }

  lemma EmberIsSound()
    ensures Coherent(CATALOG, UnitTypes([EMBER_CARD], {}))
  {
    assert "fire" in SCHOOLS;
    assert EMBER_CARD in [EMBER_CARD];
  }

  /** The assumptions of every theorem about matches hold of some server. */
  lemma SomeServerIsValid(hidden: SimState)
    ensures ValidEnv(SmallServer(hidden))
  {
    ShippedMapIsValid();
    EmberIsSound();
    MarchIsSuggested();
    hide Coherent, ValidMap, SuggestionLegal;
    assert forall s :: s in CATALOG.spells ==> s == SPARK;
  }

  lemma MarchIsSuggested()
    ensures SuggestionLegal(CATALOG, TWO_LANE_MAP)
  {
    MarchIsLegal();
    TidyPlanReadsBack(MARCH, 2);
    hide Legal, ParsedPlan, PlanToJson;
  }

  // ---- a match in which one command is taken twice ----

  /** Both seats lock in the march. */
  const BOTH_MARCH: seq<Action> := [DoLockIn(North, PlanToJson(MARCH)), DoLockIn(South, PlanToJson(MARCH))]

  const FLICK: CastCommand := CastCommand("a", "spark", Vec2(0.0, 0.0), 0)

  lemma SparkIsHeld(env: Env)
    requires env.cat == CATALOG
    ensures ResolveLoadout(env.cat, MARCH) == [LoadoutSpell("spark", "Spark", 1.0, "A spark.")]
  {
    assert MARCH.spellSlots[1..] == [];
    assert SpellById([SPARK], "spark") == Some(SPARK);
    assert ResolveSlots(CATALOG, FieldedMages(CATALOG, MARCH.troops), []) == [];
  }

  lemma LockingIn(env: Env, s: SessionState, side: Side, plan: SubmittedPlan)
    requires s.phase == Planning && !s.locked.At(side)
    requires Legal(env.cat, env.rules.map_, plan) && Tidy(plan, env.cat.spellSlots)
    ensures var kept, after := Locked(env, s, side, plan), Act(env, s, DoLockIn(side, PlanToJson(plan)));
      after == if !s.locked.At(Opposing(side)) then kept
               else match StartBattle(env, kept) case None => s case Some(started) => started
  {
    TidyPlanReadsBack(plan, env.cat.spellSlots);
    hide StartBattle, Legal, ParsedPlan, PlanToJson, Tidy, ResolveLoadout;
  }

  lemma MarchIsFielded(hidden: SimState)
    ensures var env := SmallServer(hidden);
            var s := After(env, OpenSession(env), BOTH_MARCH);
      && s.phase == InBattle && s.round.Some? && !s.round.value.Over()
      && s.round.value.loadouts == Both(ResolveLoadout(CATALOG, MARCH))
      && s.round.value.energy == Both(Pool(3.0, ENERGY_CAP, 0.0, 0.0))
      && s.ledger == Both([])
  {
    hide Legal, PlanToJson, ResolveLoadout, ValidEnv, Inv, Tidy, Act, StartBattle;
    var env := SmallServer(hidden);
    var start := OpenSession(env);
    SomeServerIsValid(hidden);
    MarchIsLegal();
    OpenSessionInv(env);
    var one := Locked(env, start, North, MARCH);
    LockingIn(env, start, North, MARCH);
    ActInv(env, start, BOTH_MARCH[0]);
    LockingIn(env, one, South, MARCH);
    FieldableIf(env, MARCH);
    LockedInv(env, one, South, MARCH);
    var eve := Locked(env, one, South, MARCH);
    var plans, world := BattleAlwaysStarts(env, eve);
    PlansKept(env, eve, plans, world);
    TwoActions(env, start, BOTH_MARCH);
    hide SmallServer;
  }

  lemma TwoActions(env: Env, s: SessionState, actions: seq<Action>)
    requires |actions| == 2
    ensures After(env, s, actions) == Act(env, Act(env, s, actions[0]), actions[1])
  {
    hide Act;
    assert actions[1..] == [actions[1]];
    OneAction(env, Act(env, s, actions[0]), actions[1]);
  }

  lemma PlansKept(env: Env, s: SessionState, plans: PerSide<SubmittedPlan>, world: World)
    requires s.plans.north.Some? && s.plans.south.Some? && StartBattle(env, s) == Some(Started(env, s, plans, world))
    ensures plans == PerSide(s.plans.north.value, s.plans.south.value)
  {
    hide OpeningOf, PricedLoadouts;
  }

  /** One command of one seat is on record as accepted more than once. */
  ghost predicate TwiceOnRecord(s: SessionState) {
    var casts := ExactlyOnce.Taken(s);
    exists j, k :: 0 <= j < k < |casts| && casts[j].side == casts[k].side && casts[j].commandId == casts[k].commandId
  }

  /** The ledger's window is no idle worry: on some server some match has one command of one
      seat on record as accepted twice. */
  lemma SomeCommandIsTakenTwice(hidden: SimState)
    ensures ValidEnv(SmallServer(hidden))
    ensures exists actions :: TwiceOnRecord(Run(SmallServer(hidden), actions).now)
  {
    hide ValidEnv, Inv, After, Act, Refusal, Equipped, Resend, AllCasts, ResolveLoadout;
    var env := SmallServer(hidden);
    var start := OpenSession(env);
    SomeServerIsValid(hidden);
    OpenSessionInv(env);
    AfterInv(env, start, BOTH_MARCH);
    MarchIsFielded(hidden);
    SparkIsHeld(env);
    var s := After(env, start, BOTH_MARCH);
    FlickTwice(env, s);
    ResendIsTakenTwice(env, s, North, FLICK, "nothing", 1);
    var again := Resend(North, FLICK, "nothing", 1);
    AfterJoins(env, start, BOTH_MARCH, again);
    AfterIsRun(env, History(start, []), BOTH_MARCH + again);
    var m: nat := |ExactlyOnce.Taken(s)|;
    var casts := ExactlyOnce.Taken(Run(env, BOTH_MARCH + again).now);
    assert casts[m].side == casts[m + 1].side && casts[m].commandId == casts[m + 1].commandId;
    assert TwiceOnRecord(Run(env, BOTH_MARCH + again).now);
  }

  lemma FlickTwice(env: Env, s: SessionState)
    requires env.rules.map_ == TWO_LANE_MAP && s.phase == InBattle && s.round.Some? && !s.round.value.Over()
    requires s.round.value.loadouts == Both([LoadoutSpell("spark", "Spark", 1.0, "A spark.")])
    requires s.round.value.energy == Both(Pool(3.0, ENERGY_CAP, 0.0, 0.0))
    ensures Refusal(env.rules, s.round.value, North, FLICK).None?
    ensures Refusal(env.rules, Take(s.round.value, North, FLICK), North, FLICK).None?
    ensures Equipped(s.round.value.loadouts.north, "nothing").None?
  {
    assert "spark" != "nothing" by { assert |"spark"| == 5; }
  }
}
